/**
 * What the evaluator computes, stated against an independent reference:
 * expression trees, their arithmetic value, and the text the calculator's
 * display shows for them (operators surrounded by single spaces).
 *
 * A tree is printable without extra parentheses when it already follows
 * the usual grammar
 *     sum    ::= term | sum ('+' | '-') term
 *     term   ::= factor | term ('*' | '/') factor
 *     factor ::= literal | '(' sum ')'
 * which encodes both the precedence of '*' and '/' over '+' and '-' and
 * left associativity.  For every such tree the two-stack scan of the
 * printed text yields exactly the tree's value (`EvaluatePrinted`).
 */
module Grammar {
  import opened Literals
  import opened Evaluator

  datatype Expr =
    | Num(literal: string)
    | Group(inner: Expr)
    | Bin(op: char, left: Expr, right: Expr)

  /** `a op b` with the operands in reading order. */
  function Arith(op: char, a: real, b: real): Result<real>
  {
    if op == '+' then Ok(a + b)
    else if op == '-' then Ok(a - b)
    else if op == '*' then Ok(a * b)
    else if op == '/' then (if b == 0.0 then Err(DivisionByZero) else Ok(a / b))
    else Err(Malformed)
  }

  /** The value of a tree, evaluating the left operand first. */
  function Value(e: Expr): Result<real>
  {
    match e
    case Num(lit) =>
      (match ParseDecimal(lit)
       case None => Err(Malformed)
       case Some(v) => Ok(v))
    case Group(inner) => Value(inner)
    case Bin(op, l, r) =>
      match Value(l)
      case Err(err) => Err(err)
      case Ok(a) =>
        match Value(r)
        case Err(err) => Err(err)
        case Ok(b) => Arith(op, a, b)
  }

  /** A text between a pair of parentheses. */
  function Parenthesized(s: string): string {
    "(" + s + ")"
  }

  /** The text of a tree as the display shows it. */
  function Print(e: Expr): string
  {
    match e
    case Num(lit) => lit
    case Group(inner) => Parenthesized(Print(inner))
    case Bin(op, l, r) => Print(l) + Spaced(op) + Print(r)
  }

  predicate IsFactor(e: Expr)
    decreases e, 0
  {
    match e
    case Num(lit) => IsDecimalLiteral(lit)
    case Group(inner) => IsSum(inner)
    case Bin(_, _, _) => false
  }

  predicate IsTerm(e: Expr)
    decreases e, 1
  {
    IsFactor(e) || (e.Bin? && IsMulOp(e.op) && IsTerm(e.left) && IsFactor(e.right))
  }

  predicate IsSum(e: Expr)
    decreases e, 2
  {
    IsTerm(e) || (e.Bin? && IsAddOp(e.op) && IsSum(e.left) && IsTerm(e.right))
  }

  /** In a well-formed tree the only possible failure is a division by zero. */
  lemma {:induction false} OnlyDivisionFails(e: Expr, level: nat)
    requires level <= 2
    requires if level == 0 then IsFactor(e) else if level == 1 then IsTerm(e) else IsSum(e)
    ensures Value(e).Err? ==> Value(e).error == DivisionByZero
    decreases e, level
  {
    if level == 2 && !IsTerm(e) {
      OnlyDivisionFails(e.left, 2);
      OnlyDivisionFails(e.right, 1);
    } else if level >= 1 && !IsFactor(e) {
      OnlyDivisionFails(e.left, 1);
      OnlyDivisionFails(e.right, 0);
    } else if e.Group? {
      OnlyDivisionFails(e.inner, 2);
    }
  }

  // ---------------------------------------------------------------------
  // The stacks part-way through an expression.  After the last operand of
  // a sum has been read, at most two operators are pending above whatever
  // the stacks held before the sum began: one of each tier, the '*' or '/'
  // on top.

  datatype Pending =
    | One(v: real)
    | Two(a: real, op: char, b: real)
    | Three(a: real, op1: char, b: real, op2: char, c: real)

  function Above(base: Stacks, p: Pending): Stacks
  {
    match p
    case One(v) => Stacks(base.values + [v], base.ops)
    case Two(a, op, b) => Stacks(base.values + [a, b], base.ops + [op])
    case Three(a, op1, b, op2, c) => Stacks(base.values + [a, b, c], base.ops + [op1, op2])
  }

  /** The value the pending operators will produce once applied. */
  function Meaning(p: Pending): Result<real>
  {
    match p
    case One(v) => Ok(v)
    case Two(a, op, b) => Arith(op, a, b)
    case Three(a, op1, b, op2, c) =>
      match Arith(op2, b, c)
      case Err(err) => Err(err)
      case Ok(w) => Arith(op1, a, w)
  }

  function Rank(p: Pending): nat
  {
    match p
    case One(_) => 0
    case Two(_, _, _) => 1
    case Three(_, _, _, _, _) => 2
  }

  predicate TermShape(p: Pending) {
    p.One? || (p.Two? && IsMulOp(p.op))
  }

  predicate SumShape(p: Pending) {
    || p.One?
    || (p.Two? && IsOperator(p.op))
    || (p.Three? && IsAddOp(p.op1) && IsMulOp(p.op2))
  }

  /** The stacks `base` with the value `m` pushed, or the failure of `m`. */
  function Settle(base: Stacks, m: Result<real>, ops: seq<char>): Result<Stacks>
  {
    match m
    case Err(err) => Err(err)
    case Ok(v) => Ok(Stacks(base.values + [v], ops))
  }

  /** The scan result `r` is the pending state `p` above `base`, meaning `m`. */
  predicate Reached(r: Result<Stacks>, base: Stacks, p: Pending, m: Result<real>)
  {
    match r
    case Err(err) => m == Err(err)
    case Ok(st) => st == Above(base, p) && Meaning(p) == m
  }

  /** Nothing below the top of `ops` can be touched by '+' or '-'. */
  predicate SumGuard(ops: seq<char>) {
    ops == [] || ops[|ops| - 1] == '('
  }

  /** Nothing below the top of `ops` can be touched by '*' or '/'. */
  predicate TermGuard(ops: seq<char>) {
    ops == [] || ops[|ops| - 1] == '(' || IsAddOp(ops[|ops| - 1])
  }

  // ---------------------------------------------------------------------
  // Applying operators.

  /**
   * applyOp receives the operand pushed last as its right-hand side: the
   * top operator applied to the stacks [.., a, b] computes `a op b`.
   */
  lemma ApplyTopOperatorOrder(values: seq<real>, ops: seq<char>, a: real, op: char, b: real)
    requires IsOperator(op)
    ensures ApplyTopOperator(Stacks(values + [a, b], ops + [op]))
         == Settle(Stacks(values, ops), Arith(op, a, b), ops)
  {
    var st := Stacks(values + [a, b], ops + [op]);
    var n := |st.values|;
    assert st.values[n - 1] == b && st.values[n - 2] == a;
    assert st.values[..n - 2] == values;
    assert st.ops[..|st.ops| - 1] == ops;
    assert st.ops[|st.ops| - 1] == op;
    assert ApplyOp(op, b, a) == Arith(op, a, b);
  }

  lemma ApplyTwo(base: Stacks, a: real, op: char, b: real)
    requires IsOperator(op)
    ensures ApplyTopOperator(Above(base, Two(a, op, b))) == Settle(base, Arith(op, a, b), base.ops)
  {
    ApplyTopOperatorOrder(base.values, base.ops, a, op, b);
  }

  lemma ApplyThree(base: Stacks, a: real, op1: char, b: real, op2: char, c: real)
    requires IsOperator(op2)
    ensures ApplyTopOperator(Above(base, Three(a, op1, b, op2, c)))
         == match Arith(op2, b, c)
            case Err(err) => Err(err)
            case Ok(w) => Ok(Above(base, Two(a, op1, w)))
  {
    assert base.values + [a, b, c] == (base.values + [a]) + [b, c];
    assert base.ops + [op1, op2] == (base.ops + [op1]) + [op2];
    ApplyTopOperatorOrder(base.values + [a], base.ops + [op1], b, op2, c);
    match Arith(op2, b, c) {
      case Err(_) =>
      case Ok(w) => assert base.values + [a] + [w] == base.values + [a, w];
    }
  }

  /** An incoming '+' or '-' applies every pending operator of the sum. */
  lemma {:induction false} PushAddOnPending(c: char, base: Stacks, p: Pending)
    requires IsAddOp(c) && SumShape(p) && SumGuard(base.ops)
    ensures PushOperator(c, Above(base, p)) == Settle(base, Meaning(p), base.ops + [c])
    decreases Rank(p)
  {
    var st := Above(base, p);
    match p
    case One(v) =>
      PushStops(c, st);
    case Two(a, op, b) =>
      PushApplies(c, st);
      ApplyTwo(base, a, op, b);
      match Arith(op, a, b) {
        case Err(_) =>
        case Ok(w) => PushAddOnPending(c, base, One(w));
      }
    case Three(a, op1, b, op2, c') =>
      PushApplies(c, st);
      ApplyThree(base, a, op1, b, op2, c');
      match Arith(op2, b, c') {
        case Err(_) =>
        case Ok(w) => PushAddOnPending(c, base, Two(a, op1, w));
      }
  }

  /** An incoming '*' or '/' applies a pending '*' or '/' and nothing below it. */
  lemma {:induction false} PushMulOnPending(c: char, base: Stacks, p: Pending)
    requires IsMulOp(c) && TermShape(p) && TermGuard(base.ops)
    ensures PushOperator(c, Above(base, p)) == Settle(base, Meaning(p), base.ops + [c])
    decreases Rank(p)
  {
    var st := Above(base, p);
    match p
    case One(v) =>
      PushStops(c, st);
    case Two(a, op, b) =>
      PushApplies(c, st);
      ApplyTwo(base, a, op, b);
      match Arith(op, a, b) {
        case Err(_) =>
        case Ok(w) => PushMulOnPending(c, base, One(w));
      }
  }

  /** A ')' applies every pending operator and removes the matching '('. */
  lemma {:induction false} CloseOnPending(base: Stacks, p: Pending)
    requires SumShape(p) && base.ops != [] && base.ops[|base.ops| - 1] == '('
    ensures ReduceToParen(Above(base, p)) == Settle(base, Meaning(p), base.ops[..|base.ops| - 1])
    decreases Rank(p)
  {
    match p
    case One(v) =>
    case Two(a, op, b) =>
      ApplyTwo(base, a, op, b);
      match Arith(op, a, b) {
        case Err(_) =>
        case Ok(w) => CloseOnPending(base, One(w));
      }
    case Three(a, op1, b, op2, c) =>
      ApplyThree(base, a, op1, b, op2, c);
      match Arith(op2, b, c) {
        case Err(_) =>
        case Ok(w) => CloseOnPending(base, Two(a, op1, w));
      }
  }

  /**
   * At the end of the input the drain applies every pending operator, and
   * then goes on with whatever the stacks held below them.
   */
  lemma {:induction false} DrainOnPending(base: Stacks, p: Pending)
    requires SumShape(p)
    ensures DrainAndPop(Above(base, p)) ==
            match Meaning(p)
            case Err(err) => Err(err)
            case Ok(w) => DrainAndPop(Stacks(base.values + [w], base.ops))
    decreases Rank(p)
  {
    match p
    case One(v) =>
    case Two(a, op, b) =>
      ApplyTwo(base, a, op, b);
      match Arith(op, a, b) {
        case Err(_) =>
        case Ok(w) => DrainOnPending(base, One(w));
      }
    case Three(a, op1, b, op2, c) =>
      ApplyThree(base, a, op1, b, op2, c);
      match Arith(op2, b, c) {
        case Err(_) =>
        case Ok(w) => DrainOnPending(base, Two(a, op1, w));
      }
  }

  // ---------------------------------------------------------------------
  // Scanning the pieces of a printed tree.

  /** A well-formed literal is read as one number token. */
  lemma ScanLiteral(lit: string, st: Stacks)
    requires IsDecimalLiteral(lit)
    ensures Scan(lit, st) == Settle(st, Value(Num(lit)), st.ops)
  {
    var n := NumberRunLength(lit);
    assert n == |lit|;
    assert lit[..n] == lit;
    assert lit[n..] == [];
  }

  /** An operator token, spaced as the display writes it. */
  lemma ScanOperator(op: char, q: string, st: Stacks)
    requires IsOperator(op)
    ensures Scan(Spaced(op) + q, st) == ScanFrom(q, PushOperator(op, st))
  {
    var s := Spaced(op) + q;
    var s1 := [op, ' '] + q;
    var s2 := [' '] + q;
    assert s[0] == ' ' && s[1..] == s1;
    assert s1[0] == op && s1[1..] == s2;
    assert s2[0] == ' ' && s2[1..] == q;
    ScanCharToken(s, st);
    assert ScanChar(' ', st) == Ok(st);
    ScanCharToken(s1, st);
    assert ScanChar(op, st) == PushOperator(op, st);
    match PushOperator(op, st) {
      case Err(_) =>
      case Ok(next) =>
        ScanCharToken(s2, next);
        assert ScanChar(' ', next) == Ok(next);
    }
  }

  lemma ScanBinary(l: Expr, op: char, r: Expr, st: Stacks)
    requires IsOperator(op)
    ensures Scan(Print(Bin(op, l, r)), st)
         == match Scan(Print(l), st)
            case Err(err) => Err(err)
            case Ok(mid) => ScanFrom(Print(r), PushOperator(op, mid))
  {
    assert Print(Bin(op, l, r)) == Print(l) + (Spaced(op) + Print(r));
    ScanJoin(Print(l), Spaced(op) + Print(r), st);
    match Scan(Print(l), st) {
      case Err(_) =>
      case Ok(mid) => ScanOperator(op, Print(r), mid);
    }
  }

  lemma ScanGroup(inner: Expr, st: Stacks)
    ensures Scan(Print(Group(inner)), st)
         == ScanFrom([')'], Scan(Print(inner), Stacks(st.values, st.ops + ['('])))
  {
    var open := Stacks(st.values, st.ops + ['(']);
    assert Print(Group(inner)) == ['('] + (Print(inner) + [')']);
    ScanJoin(['('], Print(inner) + [')'], st);
    assert Scan(['('], st) == Ok(open) by {
      assert ['('][1..] == [];
    }
    ScanJoin(Print(inner), [')'], open);
  }

  // ---------------------------------------------------------------------
  // The three levels of the grammar.

  lemma {:induction false} FactorRun(f: Expr, base: Stacks)
    requires IsFactor(f)
    ensures Scan(Print(f), base) == Settle(base, Value(f), base.ops)
    decreases f, 0
  {
    match f
    case Num(lit) =>
      ScanLiteral(lit, base);
    case Group(inner) =>
      var open := Stacks(base.values, base.ops + ['(']);
      ScanGroup(inner, base);
      var p := SumRun(inner, open);
      match Scan(Print(inner), open) {
        case Err(_) =>
        case Ok(st) =>
          assert [')'][1..] == [];
          CloseOnPending(open, p);
          assert open.ops[..|open.ops| - 1] == base.ops;
      }
  }

  /** `a op r` once the left operand `a` is known. */
  function ApplyRight(op: char, a: real, r: Result<real>): Result<real>
  {
    match r
    case Err(err) => Err(err)
    case Ok(b) => Arith(op, a, b)
  }

  lemma {:induction false} TermRun(t: Expr, base: Stacks) returns (p: Pending)
    requires IsTerm(t) && TermGuard(base.ops)
    ensures TermShape(p)
    ensures Reached(Scan(Print(t), base), base, p, Value(t))
    decreases t, 1
  {
    if IsFactor(t) {
      FactorRun(t, base);
      p := if Value(t).Ok? then One(Value(t).value) else One(0.0);
    } else {
      var l, m, r := t.left, t.op, t.right;
      ScanBinary(l, m, r, base);
      var pl := TermRun(l, base);
      p := One(0.0);
      if Scan(Print(l), base).Ok? {
        PushMulOnPending(m, base, pl);
        if Value(l).Ok? {
          p := TermRight(Value(l).value, m, r, base);
        }
      }
    }
  }

  /** The right operand of a product, read after its '*' or '/' was pushed. */
  lemma TermRight(vl: real, m: char, r: Expr, base: Stacks) returns (p: Pending)
    requires IsMulOp(m) && IsFactor(r)
    ensures TermShape(p)
    ensures Reached(Scan(Print(r), Stacks(base.values + [vl], base.ops + [m])),
                    base, p, ApplyRight(m, vl, Value(r)))
    decreases r, 1
  {
    var mid := Stacks(base.values + [vl], base.ops + [m]);
    FactorRun(r, mid);
    p := One(0.0);
    if Value(r).Ok? {
      p := Two(vl, m, Value(r).value);
      assert mid.values + [Value(r).value] == base.values + [vl, Value(r).value];
    }
  }

  /** The right operand of a sum, read after its '+' or '-' was pushed. */
  lemma {:induction false} SumRight(vl: real, a: char, r: Expr, base: Stacks) returns (p: Pending)
    requires IsAddOp(a) && IsTerm(r) && SumGuard(base.ops)
    ensures SumShape(p)
    ensures Reached(Scan(Print(r), Stacks(base.values + [vl], base.ops + [a])),
                    base, p, ApplyRight(a, vl, Value(r)))
    decreases r, 2
  {
    var mid := Stacks(base.values + [vl], base.ops + [a]);
    var pr := TermRun(r, mid);
    p := ExtendSum(vl, a, pr, base);
  }

  /** The pending state of a right operand, seen from below its '+' or '-'. */
  lemma ExtendSum(vl: real, a: char, pr: Pending, base: Stacks) returns (p: Pending)
    requires IsAddOp(a) && TermShape(pr)
    ensures SumShape(p)
    ensures Above(Stacks(base.values + [vl], base.ops + [a]), pr) == Above(base, p)
    ensures Meaning(p) == ApplyRight(a, vl, Meaning(pr))
  {
    var mid := Stacks(base.values + [vl], base.ops + [a]);
    match pr {
      case One(vr) =>
        p := Two(vl, a, vr);
        assert mid.values + [vr] == base.values + [vl, vr];
      case Two(y, m, z) =>
        p := Three(vl, a, y, m, z);
        assert mid.values + [y, z] == base.values + [vl, y, z];
        assert mid.ops + [m] == base.ops + [a, m];
    }
  }

  lemma {:induction false} SumRun(e: Expr, base: Stacks) returns (p: Pending)
    requires IsSum(e) && SumGuard(base.ops)
    ensures SumShape(p)
    ensures Reached(Scan(Print(e), base), base, p, Value(e))
    decreases e, 2
  {
    if IsTerm(e) {
      p := TermRun(e, base);
    } else {
      var l, a, r := e.left, e.op, e.right;
      ScanBinary(l, a, r, base);
      var pl := SumRun(l, base);
      p := One(0.0);
      if Scan(Print(l), base).Ok? {
        PushAddOnPending(a, base, pl);
        if Value(l).Ok? {
          p := SumRight(Value(l).value, a, r, base);
        }
      }
    }
  }

  /**
   * A well-formed expression scanned above `base` and then drained leaves
   * its value on `base`, or fails exactly as its value does.
   */
  lemma DrainAfterSum(e: Expr, base: Stacks)
    requires IsSum(e) && SumGuard(base.ops)
    ensures var r := Scan(Print(e), base);
            && (r.Err? ==> Value(e) == Err(r.error))
            && (r.Ok? ==>
                  DrainAndPop(r.value) ==
                  (if Value(e).Err? then Err(Value(e).error)
                   else DrainAndPop(Stacks(base.values + [Value(e).value], base.ops))))
  {
    var p := SumRun(e, base);
    if Scan(Print(e), base).Ok? {
      DrainOnPending(base, p);
    }
  }

  /**
   * The evaluator is correct on every well-formed expression: scanning its
   * printed text yields the value of the tree (respecting precedence and
   * left associativity), and fails exactly when the tree divides by zero.
   */
  lemma EvaluatePrinted(e: Expr)
    requires IsSum(e)
    ensures Evaluate(Print(e)) == Value(e)
  {
    var p := SumRun(e, Empty);
    if Scan(Print(e), Empty).Ok? {
      DrainOnPending(Empty, p);
    }
  }
}
