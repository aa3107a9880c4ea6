/**
 * The evaluator's behaviour on families of inputs: the textbook cases of
 * precedence, grouping and associativity (derived from the general theorem
 * `Grammar.EvaluatePrinted`), and the failure cases and quirks of the scan
 * as written, which are reproduced rather than repaired.
 */
module Behaviour {
  import opened Literals
  import opened Evaluator
  import opened Grammar

  /** A literal parseDouble accepts is a leaf of every grammar level. */
  lemma Leaf(a: string, x: real)
    requires ParseDecimal(a) == Some(x)
    ensures IsTerm(Num(a)) && IsSum(Num(a)) && Value(Num(a)) == Ok(x)
  {
    assert IsFactor(Num(a));
  }

  /**
   * Concatenation regroups.  Dafny knows this unaided; calling it names the
   * regrouped terms, which the proofs below need to match the printed text.
   */
  lemma Associate(x: string, y: string, z: string)
    ensures x + (y + z) == (x + y) + z
  {
  }

  /** '*' binds tighter than '+': a + b * c is a + (b * c). */
  lemma MulBindsTighter(a: string, b: string, c: string, x: real, y: real, z: real)
    requires ParseDecimal(a) == Some(x) && ParseDecimal(b) == Some(y) && ParseDecimal(c) == Some(z)
    ensures Evaluate(a + Spaced('+') + b + Spaced('*') + c) == Ok(x + y * z)
  {
    Leaf(a, x);
    Leaf(b, y);
    Leaf(c, z);
    var m := Bin('*', Num(b), Num(c));
    var e := Bin('+', Num(a), m);
    assert IsTerm(m) && Value(m) == Ok(y * z);
    assert IsSum(e) && Value(e) == Ok(x + y * z);
    assert Print(m) == (b + Spaced('*')) + c;
    assert Print(e) == (a + Spaced('+')) + Print(m);
    Associate(a + Spaced('+'), b + Spaced('*'), c);
    Associate(a + Spaced('+'), b, Spaced('*'));
    EvaluatePrinted(e);
  }

  /** Parentheses override precedence: (a + b) * c. */
  lemma ParenthesesGroup(a: string, b: string, c: string, x: real, y: real, z: real)
    requires ParseDecimal(a) == Some(x) && ParseDecimal(b) == Some(y) && ParseDecimal(c) == Some(z)
    ensures Evaluate(Parenthesized(a + Spaced('+') + b) + Spaced('*') + c) == Ok((x + y) * z)
  {
    Leaf(a, x);
    Leaf(b, y);
    Leaf(c, z);
    var s := Bin('+', Num(a), Num(b));
    var g := Group(s);
    var e := Bin('*', g, Num(c));
    assert IsSum(s) && Value(s) == Ok(x + y);
    assert IsFactor(g) && IsTerm(g) && Value(g) == Ok(x + y);
    assert IsTerm(e) && IsSum(e);
    assert Value(e) == Arith('*', x + y, z);
    assert Print(s) == a + Spaced('+') + b;
    assert Print(e) == Parenthesized(a + Spaced('+') + b) + Spaced('*') + c;
    EvaluatePrinted(e);
  }

  /** Operators of one tier associate to the left: a - b - c is (a - b) - c. */
  lemma SubtractionLeftAssociative(a: string, b: string, c: string, x: real, y: real, z: real)
    requires ParseDecimal(a) == Some(x) && ParseDecimal(b) == Some(y) && ParseDecimal(c) == Some(z)
    ensures Evaluate(a + Spaced('-') + b + Spaced('-') + c) == Ok(x - y - z)
  {
    Leaf(a, x);
    Leaf(b, y);
    Leaf(c, z);
    var l := Bin('-', Num(a), Num(b));
    var e := Bin('-', l, Num(c));
    assert IsSum(l) && Value(l) == Ok(x - y);
    assert IsSum(e) && Value(e) == Ok(x - y - z);
    assert Print(l) == a + Spaced('-') + b;
    assert Print(e) == a + Spaced('-') + b + Spaced('-') + c;
    EvaluatePrinted(e);
  }

  /** The digits 0 to 9 read as themselves. */
  lemma SingleDigits(n: nat)
    requires n < 10
    ensures ParseDecimal(['0' + n as char]) == Some(n as real)
  {
    NumeralRoundTrip(n);
  }

  /** 2 + 3 * 4 is 14, not 20. */
  lemma PrecedenceExample(text: string)
    requires text == "2 + 3 * 4"
    ensures Evaluate(text) == Ok(14.0)
  {
    var two, three, four := "2", "3", "4";
    SingleDigits(2);
    SingleDigits(3);
    SingleDigits(4);
    assert text == two + Spaced('+') + three + Spaced('*') + four;
    MulBindsTighter(two, three, four, 2.0, 3.0, 4.0);
  }

  /** (2 + 3) * 4 is 20. */
  lemma GroupingExample(text: string)
    requires text == "(2 + 3) * 4"
    ensures Evaluate(text) == Ok(20.0)
  {
    SingleDigits(2);
    SingleDigits(3);
    SingleDigits(4);
    var two, three, four := "2", "3", "4";
    assert text == Parenthesized(two + Spaced('+') + three) + Spaced('*') + four;
    ParenthesesGroup(two, three, four, 2.0, 3.0, 4.0);
  }

  /** 9 - 2 - 3 is 4, not 10. */
  lemma LeftAssociativityExample(text: string)
    requires text == "9 - 2 - 3"
    ensures Evaluate(text) == Ok(4.0)
  {
    SingleDigits(9);
    SingleDigits(2);
    SingleDigits(3);
    var nine, two, three := "9", "2", "3";
    assert text == nine + Spaced('-') + two + Spaced('-') + three;
    SubtractionLeftAssociative(nine, two, three, 9.0, 2.0, 3.0);
  }

  /** Division by zero is its own failure, not infinity. */
  lemma DivisionByZeroFails(l: Expr, r: Expr)
    requires IsTerm(l) && IsFactor(r)
    requires Value(l).Ok? && Value(r) == Ok(0.0)
    ensures Evaluate(Print(l) + Spaced('/') + Print(r)) == Err(DivisionByZero)
  {
    EvaluatePrinted(Bin('/', l, r));
  }

  /** Input of spaces (or of characters the scan ignores) has no operand. */
  lemma BlankInputFails(s: string)
    requires forall k :: 0 <= k < |s| ==> IsSkipped(s[k])
    ensures Evaluate(s) == Err(Malformed)
  {
    BlankScan(s, Empty);
  }

  lemma {:induction false} BlankScan(s: string, st: Stacks)
    requires forall k :: 0 <= k < |s| ==> IsSkipped(s[k])
    ensures Scan(s, st) == Ok(st)
    decreases |s|
  {
    if s != [] {
      ScanCharToken(s, st);
      BlankScan(s[1..], st);
    }
  }

  /** A '(' read from the stacks `st`. */
  lemma ScanOpen(q: string, st: Stacks)
    ensures Scan("(" + q, st) == Scan(q, Stacks(st.values, st.ops + ['(']))
  {
    var s := "(" + q;
    assert s[0] == '(' && s[1..] == q;
    ScanCharToken(s, st);
  }

  /**
   * An unclosed '(' before any well-formed expression is still on the
   * operator stack when the drain has reduced the expression to one value;
   * applying it then finds a single operand and fails, unless the
   * expression itself already failed.
   */
  lemma UnclosedParenFails(e: Expr)
    requires IsSum(e)
    ensures Evaluate("(" + Print(e)) ==
            match Value(e)
            case Err(err) => Err(err)
            case Ok(_) => Err(Malformed)
  {
    var open := Stacks([], ['(']);
    ScanOpen(Print(e), Empty);
    assert Stacks(Empty.values, Empty.ops + ['(']) == open;
    var p := SumRun(e, open);
    if Scan(Print(e), open).Ok? {
      DrainOnPending(open, p);
    }
  }

  /**
   * A ')' with no '(' below the pending operators applies them all and
   * then peeks an empty operator stack.
   */
  lemma {:induction false} CloseWithoutParen(p: Pending)
    requires SumShape(p)
    ensures ReduceToParen(Above(Empty, p)) ==
            match Meaning(p)
            case Err(err) => Err(err)
            case Ok(_) => Err(Malformed)
    decreases Rank(p)
  {
    match p
    case One(v) =>
    case Two(a, op, b) =>
      ApplyTwo(Empty, a, op, b);
      match Arith(op, a, b) {
        case Err(_) =>
        case Ok(w) => CloseWithoutParen(One(w));
      }
    case Three(a, op1, b, op2, c) =>
      ApplyThree(Empty, a, op1, b, op2, c);
      match Arith(op2, b, c) {
        case Err(_) =>
        case Ok(w) => CloseWithoutParen(Two(a, op1, w));
      }
  }

  /** A ')' after a whole expression has no '(' to match and fails. */
  lemma StrayCloseParenFails(e: Expr)
    requires IsSum(e)
    ensures Evaluate(Print(e) + ")") ==
            match Value(e)
            case Err(err) => Err(err)
            case Ok(_) => Err(Malformed)
  {
    ScanJoin(Print(e), ")", Empty);
    var p := SumRun(e, Empty);
    if Scan(Print(e), Empty).Ok? {
      ScanCharToken(")", Above(Empty, p));
      CloseWithoutParen(p);
    }
  }

  /** `r` fails, either as Malformed or exactly as the value `v` fails. */
  predicate FailsLeading<T>(r: Result<T>, v: Result<real>) {
    r.Err? && (r.error == Malformed || v == Err(r.error))
  }

  /**
   * A '+' or '-' arriving above the pending operators of a product that
   * sits on a lone leading operator: the pending operators are applied,
   * then the leading operator is reached with a single operand.
   */
  lemma {:induction false} PushAddOnLead(c: char, op: char, p: Pending)
    requires IsAddOp(c) && IsOperator(op) && TermShape(p)
    ensures PushOperator(c, Above(Stacks([], [op]), p)) ==
            match Meaning(p)
            case Err(err) => Err(err)
            case Ok(_) => Err(Malformed)
    decreases Rank(p)
  {
    var lead := Stacks([], [op]);
    var st := Above(lead, p);
    match p
    case One(v) =>
      PushApplies(c, st);
    case Two(a, m, b) =>
      PushApplies(c, st);
      ApplyTwo(lead, a, m, b);
      match Arith(m, a, b) {
        case Err(_) =>
        case Ok(w) => PushAddOnLead(c, op, One(w));
      }
  }

  /**
   * Behind a leading '+' or '-', a sum followed by another '+' or '-'
   * never gets that operator pushed.
   */
  lemma {:induction false} LeadAddThenOperator(op: char, l: Expr, c: char)
    requires IsAddOp(op) && IsSum(l) && IsAddOp(c)
    ensures var r := Scan(Print(l), Stacks([], [op]));
            && (r.Err? ==> FailsLeading(r, Value(l)))
            && (r.Ok? ==> FailsLeading(PushOperator(c, r.value), Value(l)))
    decreases l
  {
    var lead := Stacks([], [op]);
    if IsTerm(l) {
      var p := TermRun(l, lead);
      if Scan(Print(l), lead).Ok? {
        PushAddOnLead(c, op, p);
      }
    } else {
      ScanBinary(l.left, l.op, l.right, lead);
      LeadAddThenOperator(op, l.left, l.op);
    }
  }

  /**
   * Behind a leading '*' or '/', the first operand of a sum meets its
   * next operator, which applies the leading one to that operand alone.
   */
  lemma {:induction false} LeadMulThenOperator(op: char, l: Expr, c: char)
    requires IsMulOp(op) && IsSum(l) && IsOperator(c)
    ensures var r := Scan(Print(l), Stacks([], [op]));
            && (r.Err? ==> FailsLeading(r, Value(l)))
            && (r.Ok? ==> FailsLeading(PushOperator(c, r.value), Value(l)))
    decreases l
  {
    var lead := Stacks([], [op]);
    if IsFactor(l) {
      FactorRun(l, lead);
      if Value(l).Ok? {
        var v := Value(l).value;
        assert lead.values + [v] == [v];
        PushApplies(c, Stacks([v], [op]));
      }
    } else {
      ScanBinary(l.left, l.op, l.right, lead);
      LeadMulThenOperator(op, l.left, l.op);
    }
  }

  /** A sum scanned and drained above a lone leading operator fails. */
  lemma LeadScan(op: char, e: Expr)
    requires IsOperator(op) && IsSum(e)
    ensures var r := Scan(Print(e), Stacks([], [op]));
            && (r.Err? ==> FailsLeading(r, Value(e)))
            && (r.Ok? ==> FailsLeading(DrainAndPop(r.value), Value(e)))
  {
    var lead := Stacks([], [op]);
    if IsAddOp(op) {
      if IsTerm(e) {
        var p := TermRun(e, lead);
        if Scan(Print(e), lead).Ok? {
          DrainOnPending(lead, p);
        }
      } else {
        ScanBinary(e.left, e.op, e.right, lead);
        LeadAddThenOperator(op, e.left, e.op);
      }
    } else {
      if IsFactor(e) {
        FactorRun(e, lead);
        if Value(e).Ok? {
          var v := Value(e).value;
          assert lead.values + [v] == [v];
        }
      } else {
        ScanBinary(e.left, e.op, e.right, lead);
        LeadMulThenOperator(op, e.left, e.op);
      }
    }
  }

  /**
   * There is no unary sign: an operator before an expression (`-2 + 3`,
   * `* 2`) is applied with a single operand, either by the next operator's
   * loop or by the final drain.  The evaluation fails as Malformed, unless
   * the expression's own division by zero is reached first.
   */
  lemma LeadingOperatorFails(op: char, e: Expr)
    requires IsOperator(op) && IsSum(e)
    ensures Evaluate([op] + Print(e)).Err?
    ensures Value(e).Ok? ==> Evaluate([op] + Print(e)) == Err(Malformed)
    ensures Evaluate([op] + Print(e)) != Err(Malformed) ==> Evaluate([op] + Print(e)) == Value(e)
  {
    var s := [op] + Print(e);
    var signed := Stacks([], [op]);
    assert s[0] == op && s[1..] == Print(e);
    assert op == '+' || op == '-' || op == '*' || op == '/';
    assert !IsDigit(op);
    assert !IsNumberChar(op);
    ScanCharToken(s, Empty);
    PushStops(op, Empty);
    assert Stacks(Empty.values, Empty.ops + [op]) == signed;
    LeadScan(op, e);
  }


  /**
   * A run of digits and points that parseDouble rejects ("1.2.3", ".")
   * fails the whole evaluation, wherever it stands.
   */
  lemma RejectedLiteralFails(p: string, lit: string, q: string)
    requires Scan(p, Empty).Ok?
    requires AllNumberChars(lit) && lit != [] && !IsDecimalLiteral(lit)
    requires Joinable(p, lit) && Joinable(lit, q)
    ensures Evaluate(p + lit + q) == Err(Malformed)
  {
    var st := Scan(p, Empty).value;
    assert p + lit + q == p + (lit + q);
    ScanJoin(p, lit + q, Empty);
    NumberRunOfJoin(lit, q);
    var n := NumberRunLength(lit);
    assert n == |lit|;
    assert (lit + q)[..n] == lit;
    ScanNumberToken(lit + q, st);
  }

  /** Two points, or a point without a digit, make a run parseDouble rejects. */
  lemma RejectedLiterals()
    ensures ParseDecimal("1.2.3") == None
    ensures ParseDecimal(".") == None
  {
    assert CountChar("1.2.3", '.') == 2;
  }

  /** A leading factor leaves its value, alone, on the operand stack. */
  lemma FactorFirst(f: Expr, rest: string)
    requires IsFactor(f) && Value(f).Ok?
    requires rest != [] && !IsNumberChar(rest[0])
    ensures Scan(Print(f) + rest, Empty) == Scan(rest, Stacks([Value(f).value], []))
  {
    ScanJoin(Print(f), rest, Empty);
    FactorRun(f, Empty);
    assert Empty.values + [Value(f).value] == [Value(f).value];
  }

  /** Characters that start no token are passed over. */
  lemma SkipGap(gap: string, q: string, st: Stacks)
    requires gap != [] && forall k :: 0 <= k < |gap| ==> IsSkipped(gap[k])
    ensures Scan(gap + q, st) == Scan(q, st)
  {
    assert IsSkipped(gap[|gap| - 1]);
    ScanJoin(gap, q, st);
    BlankScan(gap, st);
  }

  /**
   * Extra operands are not detected: after a factor and a gap of spaces, a
   * whole expression is evaluated on top of it and only the last value
   * counts ("1 2" is 2).
   */
  lemma ExtraOperandIgnored(f: Expr, gap: string, e: Expr)
    requires IsFactor(f) && IsSum(e)
    requires gap != [] && forall k :: 0 <= k < |gap| ==> IsSkipped(gap[k])
    ensures Evaluate(Print(f) + gap + Print(e)) ==
            match Value(f)
            case Err(err) => Err(err)
            case Ok(_) => Value(e)
  {
    var rest := gap + Print(e);
    assert Print(f) + gap + Print(e) == Print(f) + rest;
    if Value(f).Err? {
      ScanJoin(Print(f), rest, Empty);
      FactorRun(f, Empty);
    } else {
      OperandThenGap(f, gap, e);
    }
  }

  /** The case of ExtraOperandIgnored where the first factor has a value. */
  lemma OperandThenGap(f: Expr, gap: string, e: Expr)
    requires IsFactor(f) && Value(f).Ok? && IsSum(e)
    requires gap != [] && forall k :: 0 <= k < |gap| ==> IsSkipped(gap[k])
    ensures Evaluate(Print(f) + (gap + Print(e))) == Value(e)
  {
    var rest := gap + Print(e);
    var v := Value(f).value;
    var below := Stacks([v], []);
    assert rest[0] == gap[0];
    FactorFirst(f, rest);
    SkipGap(gap, Print(e), below);
    DrainAfterSum(e, below);
    if Value(e).Ok? {
      var w := Value(e).value;
      assert below.values + [w] == [v, w];
      assert DrainAndPop(Stacks([v, w], [])) == Ok(w);
    }
  }

  /**
   * A '(' right after an operand (implicit multiplication) is never
   * matched: the drain "applies" it through applyOp's default case, which
   * turns the last two operands into 0.
   */
  lemma StrayOpenParenYieldsZero(f: Expr, e: Expr)
    requires IsFactor(f) && IsSum(e)
    ensures Evaluate(Print(f) + "(" + Print(e)) ==
            match Value(f)
            case Err(err) => Err(err)
            case Ok(_) =>
              match Value(e)
              case Err(err) => Err(err)
              case Ok(_) => Ok(0.0)
  {
    var rest := "(" + Print(e);
    assert Print(f) + "(" + Print(e) == Print(f) + rest;
    if Value(f).Err? {
      ScanJoin(Print(f), rest, Empty);
      FactorRun(f, Empty);
    } else {
      var v := Value(f).value;
      var below := Stacks([v], []);
      var open := Stacks([v], ['(']);
      FactorFirst(f, rest);
      ScanOpen(Print(e), below);
      assert Stacks(below.values, below.ops + ['(']) == open;
      DrainAfterSum(e, open);
      if Value(e).Ok? {
        DrainStrayParen(v, Value(e).value);
      }
    }
  }

  /** applyOp's default case turns the two operands below a '(' into 0. */
  lemma DrainStrayParen(v: real, w: real)
    ensures DrainAndPop(Stacks([v] + [w], ['('])) == Ok(0.0)
  {
    var last := Stacks([v] + [w], ['(']);
    assert last.values[..0] + [0.0] == [0.0];
    assert ApplyTopOperator(last) == Ok(Stacks([0.0], []));
  }
}
