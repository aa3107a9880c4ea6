/**
 * The two-stack infix evaluator of CalculatorGUI.evaluateExpression.
 *
 * The operand stack `values` and the operator stack `ops` are sequences
 * whose LAST element is the top of the stack.  Java's exceptions become
 * the `Err` case of `Result`: popping or peeking an empty stack and a
 * number run parseDouble rejects are `Malformed`; the explicit check in
 * applyOp is `DivisionByZero`.
 *
 * `Scan`, `ReduceToParen`, `PushOperator` and `DrainAndPop` specify the
 * scan and its three reduction loops; `EvaluateExpression` is the loop
 * program itself, proved to compute `Evaluate`.
 */
module Evaluator {
  import opened Literals

  datatype EvalError = Malformed | DivisionByZero

  datatype Result<T> = Ok(value: T) | Err(error: EvalError)

  /** The two stacks of one evaluation; the top of each is its last element. */
  datatype Stacks = Stacks(values: seq<real>, ops: seq<char>)

  const Empty := Stacks([], [])

  predicate IsAddOp(c: char) { c == '+' || c == '-' }

  predicate IsMulOp(c: char) { c == '*' || c == '/' }

  predicate IsOperator(c: char) { IsAddOp(c) || IsMulOp(c) }

  predicate IsParen(c: char) { c == '(' || c == ')' }

  /** Binding strength: '*' and '/' bind tighter than '+' and '-'. */
  function Tier(op: char): nat
  {
    if IsMulOp(op) then 2 else 1
  }

  /**
   * hasPrecedence(incoming, top): must the operator on top of the stack be
   * applied before `incoming` is pushed?  Never across a parenthesis; for
   * two operators, exactly when `top` binds at least as tightly, which makes
   * equal-tier operators associate to the left.
   */
  function HasPrecedence(incoming: char, top: char): (r: bool)
    ensures IsParen(top) ==> !r
    ensures IsOperator(incoming) && IsOperator(top) ==> (r <==> Tier(top) >= Tier(incoming))
  {
    if top == '(' || top == ')' then false
    else if (incoming == '*' || incoming == '/') && (top == '+' || top == '-') then false
    else true
  }

  /**
   * applyOp(op, b, a): `b` is the operand popped first (the right-hand one),
   * `a` the one below it.  A character that is no operator falls through
   * the switch and yields 0.
   */
  function ApplyOp(op: char, b: real, a: real): (r: Result<real>)
    ensures r.Err? <==> op == '/' && b == 0.0
    ensures r.Err? ==> r.error == DivisionByZero
    ensures !IsOperator(op) ==> r == Ok(0.0)
  {
    match op
    case '+' => Ok(a + b)
    case '-' => Ok(a - b)
    case '*' => Ok(a * b)
    case '/' => if b == 0.0 then Err(DivisionByZero) else Ok(a / b)
    case _ => Ok(0.0)
  }

  /**
   * One reduction step: pops the top operator and the two top operands and
   * pushes the operator applied to them, the lower operand on the left.
   */
  function ApplyTopOperator(st: Stacks): (r: Result<Stacks>)
    requires |st.ops| > 0
    ensures r.Ok? ==> |st.values| >= 2
    ensures r.Ok? ==> r.value.ops == st.ops[..|st.ops| - 1]
    ensures r.Ok? ==> |r.value.values| == |st.values| - 1
    ensures r.Ok? ==> r.value.values[..|st.values| - 2] == st.values[..|st.values| - 2]
    ensures |st.values| < 2 ==> r == Err(Malformed)
  {
    var n := |st.values|;
    if n < 2 then Err(Malformed)
    else
      match ApplyOp(st.ops[|st.ops| - 1], st.values[n - 1], st.values[n - 2])
      case Err(e) => Err(e)
      case Ok(v) => Ok(Stacks(st.values[..n - 2] + [v], st.ops[..|st.ops| - 1]))
  }

  /**
   * The loop of a ')': apply operators until the top is '(', then discard
   * the '('.  Peeking an empty operator stack fails.
   */
  function ReduceToParen(st: Stacks): (r: Result<Stacks>)
    decreases |st.ops|
    ensures '(' !in st.ops ==> r.Err?
  {
    if |st.ops| == 0 then Err(Malformed)
    else if st.ops[|st.ops| - 1] == '(' then Ok(Stacks(st.values, st.ops[..|st.ops| - 1]))
    else
      match ApplyTopOperator(st)
      case Err(e) => Err(e)
      case Ok(next) => ReduceToParen(next)
  }

  /**
   * A ')' that succeeds removes exactly the operators above the topmost
   * '(' and that '(', consuming one operand for each operator applied.
   */
  lemma {:induction false} ReduceToParenPops(st: Stacks)
    requires ReduceToParen(st).Ok?
    ensures var r := ReduceToParen(st).value;
            var k := |r.ops|;
            && k < |st.ops|
            && r.ops == st.ops[..k]
            && st.ops[k] == '('
            && (forall j :: k < j < |st.ops| ==> st.ops[j] != '(')
            && |r.values| + (|st.ops| - 1 - k) == |st.values|
    decreases |st.ops|
  {
    if st.ops[|st.ops| - 1] != '(' {
      var next := ApplyTopOperator(st).value;
      assert ReduceToParen(st) == ReduceToParen(next);
      assert next.ops == st.ops[..|st.ops| - 1] && |next.values| == |st.values| - 1;
      ReduceToParenPops(next);
    }
  }

  /**
   * The loop of an operator `op`: apply every operator on top that has
   * precedence over `op`, then push `op`.
   */
  function PushOperator(op: char, st: Stacks): (r: Result<Stacks>)
    decreases |st.ops|
    ensures r.Ok? ==>
      var k := |r.value.ops| - 1;
      && 0 <= k <= |st.ops|
      && r.value.ops == st.ops[..k] + [op]
      && (k == 0 || !HasPrecedence(op, st.ops[k - 1]))
      && |r.value.values| + (|st.ops| - k) == |st.values|
  {
    if |st.ops| > 0 && HasPrecedence(op, st.ops[|st.ops| - 1]) then
      match ApplyTopOperator(st)
      case Err(e) => Err(e)
      case Ok(next) => PushOperator(op, next)
    else Ok(Stacks(st.values, st.ops + [op]))
  }

  /** Every operator the loop of `op` removes has precedence over `op`. */
  lemma {:induction false} PushOperatorPops(op: char, st: Stacks)
    requires PushOperator(op, st).Ok?
    ensures var k := |PushOperator(op, st).value.ops| - 1;
            forall j :: k <= j < |st.ops| ==> HasPrecedence(op, st.ops[j])
    decreases |st.ops|
  {
    if |st.ops| > 0 && HasPrecedence(op, st.ops[|st.ops| - 1]) {
      var next := ApplyTopOperator(st).value;
      PushOperatorPops(op, next);
      assert next.ops == st.ops[..|st.ops| - 1];
    }
  }

  /** One turn of the operator loop: the top operator is applied. */
  lemma PushApplies(op: char, st: Stacks)
    requires |st.ops| > 0 && HasPrecedence(op, st.ops[|st.ops| - 1])
    ensures var r := ApplyTopOperator(st);
            PushOperator(op, st) == if r.Err? then Err(r.error) else PushOperator(op, r.value)
  {
  }

  /** The end of the operator loop: the incoming operator is pushed. */
  lemma PushStops(op: char, st: Stacks)
    requires |st.ops| == 0 || !HasPrecedence(op, st.ops[|st.ops| - 1])
    ensures PushOperator(op, st) == Ok(Stacks(st.values, st.ops + [op]))
  {
  }

  /**
   * The end of evaluateExpression: apply every remaining operator (a stray
   * '(' included, through applyOp's default case), then pop the result.
   */
  function DrainAndPop(st: Stacks): (r: Result<real>)
    decreases |st.ops|
    ensures r.Ok? ==> |st.values| > |st.ops|
    ensures st.ops == [] ==> (r.Ok? <==> |st.values| > 0)
    ensures st.ops == [] && r.Ok? ==> r.value == st.values[|st.values| - 1]
  {
    if |st.ops| > 0 then
      match ApplyTopOperator(st)
      case Err(e) => Err(e)
      case Ok(next) => DrainAndPop(next)
    else if |st.values| == 0 then Err(Malformed)
    else Ok(st.values[|st.values| - 1])
  }

  /** Length of the maximal run of number characters that starts `s`. */
  function NumberRunLength(s: string): (n: nat)
    ensures n <= |s|
    ensures AllNumberChars(s[..n])
    ensures n < |s| ==> !IsNumberChar(s[n])
  {
    if s == [] || !IsNumberChar(s[0]) then 0
    else
      var n := 1 + NumberRunLength(s[1..]);
      assert s[..n] == [s[0]] + s[1..][..n - 1];
      n
  }

  /** A character that starts no token: a space, or anything unexpected. */
  predicate IsSkipped(c: char) {
    !IsNumberChar(c) && !IsParen(c) && !IsOperator(c)
  }

  /**
   * The effect of one character that does not start a number: '(' is
   * pushed, ')' and the four operators run their reduction loops, and a
   * space or any other character produces no token.
   */
  function ScanChar(c: char, st: Stacks): Result<Stacks>
  {
    if c == '(' then Ok(Stacks(st.values, st.ops + ['(']))
    else if c == ')' then ReduceToParen(st)
    else if IsOperator(c) then PushOperator(c, st)
    else Ok(st)
  }

  /**
   * The scan of evaluateExpression over the rest `s` of the input, from the
   * stacks `st`; the result is the pair of stacks at the end of the input.
   */
  function Scan(s: string, st: Stacks): Result<Stacks>
    decreases |s|
  {
    if s == [] then Ok(st)
    else if IsNumberChar(s[0]) then
      var n := NumberRunLength(s);
      match ParseDecimal(s[..n])
      case None => Err(Malformed)
      case Some(v) => Scan(s[n..], Stacks(st.values + [v], st.ops))
    else
      match ScanChar(s[0], st)
      case Err(e) => Err(e)
      case Ok(next) => Scan(s[1..], next)
  }

  /** One step of the scan over a number token. */
  lemma ScanNumberToken(s: string, st: Stacks)
    requires s != [] && IsNumberChar(s[0])
    ensures var n := NumberRunLength(s);
            Scan(s, st) == match ParseDecimal(s[..n])
                           case None => Err(Malformed)
                           case Some(v) => Scan(s[n..], Stacks(st.values + [v], st.ops))
  {
  }

  /** One step of the scan over a character that starts no number. */
  lemma ScanCharToken(s: string, st: Stacks)
    requires s != [] && !IsNumberChar(s[0])
    ensures Scan(s, st) == ScanFrom(s[1..], ScanChar(s[0], st))
  {
  }

  /** An operator with the spaces the display puts around it. */
  function Spaced(op: char): string {
    [' ', op, ' ']
  }

  /** Continue a scan that may already have failed. */
  function ScanFrom(s: string, r: Result<Stacks>): Result<Stacks>
  {
    match r
    case Err(e) => Err(e)
    case Ok(st) => Scan(s, st)
  }

  /**
   * `p` and `q` may be scanned one after the other: joining them does not
   * merge a number at the end of `p` with one at the start of `q`.
   */
  predicate Joinable(p: string, q: string) {
    p == [] || q == [] || !IsNumberChar(p[|p| - 1]) || !IsNumberChar(q[0])
  }

  lemma {:induction false} NumberRunOfJoin(p: string, q: string)
    requires Joinable(p, q)
    ensures NumberRunLength(p + q) == if p == [] then NumberRunLength(q) else NumberRunLength(p)
    decreases |p|
  {
    if p == [] {
      assert p + q == q;
    } else if IsNumberChar(p[0]) {
      assert (p + q)[1..] == p[1..] + q;
      if p[1..] == [] {
        assert q == [] || !IsNumberChar(q[0]);
      } else {
        assert p[1..][|p[1..]| - 1] == p[|p| - 1];
        NumberRunOfJoin(p[1..], q);
      }
    }
  }

  lemma JoinableSuffix(p: string, q: string, k: nat)
    requires Joinable(p, q) && k <= |p|
    ensures Joinable(p[k..], q)
  {
    if k < |p| {
      assert p[k..][|p[k..]| - 1] == p[|p| - 1];
    }
  }

  /**
   * The scan is a left-to-right pass with no look-back: scanning `p + q`
   * is scanning `p` and then `q` from wherever `p` left the stacks.
   */
  lemma {:induction false} ScanJoin(p: string, q: string, st: Stacks)
    requires Joinable(p, q)
    ensures Scan(p + q, st) == ScanFrom(q, Scan(p, st))
    decreases |p|
  {
    if p == [] {
      assert p + q == q;
    } else if IsNumberChar(p[0]) {
      var n := NumberRunLength(p);
      NumberRunOfJoin(p, q);
      assert (p + q)[..n] == p[..n];
      assert (p + q)[n..] == p[n..] + q;
      ScanNumberToken(p + q, st);
      ScanNumberToken(p, st);
      match ParseDecimal(p[..n]) {
        case None =>
        case Some(v) =>
          JoinableSuffix(p, q, n);
          ScanJoin(p[n..], q, Stacks(st.values + [v], st.ops));
      }
    } else {
      assert (p + q)[1..] == p[1..] + q;
      ScanCharToken(p + q, st);
      ScanCharToken(p, st);
      match ScanChar(p[0], st) {
        case Err(_) =>
        case Ok(next) =>
          JoinableSuffix(p, q, 1);
          ScanJoin(p[1..], q, next);
      }
    }
  }

  /**
   * A space, or any character that is no digit, '.', parenthesis or
   * operator, can be deleted without changing the outcome, unless the
   * deletion glues two numbers together.
   */
  lemma SkippedCharacter(p: string, c: char, q: string)
    requires IsSkipped(c)
    requires Joinable(p, q)
    ensures Evaluate(p + [c] + q) == Evaluate(p + q)
  {
    assert p + [c] + q == p + ([c] + q);
    ScanJoin(p, [c] + q, Empty);
    ScanJoin(p, q, Empty);
    match Scan(p, Empty) {
      case Err(_) =>
      case Ok(st) =>
        assert ([c] + q)[1..] == q;
    }
  }

  /** What evaluateExpression returns, or the exception it throws. */
  function Evaluate(expression: string): Result<real>
  {
    match Scan(expression, Empty)
    case Err(e) => Err(e)
    case Ok(st) => DrainAndPop(st)
  }

  /** The loop of a ')', applying operators down to the nearest '(', and the removal of that '('. */
  method RunCloseParen(values0: seq<real>, ops0: seq<char>) returns (r: Result<Stacks>)
    ensures r == ReduceToParen(Stacks(values0, ops0))
  {
    var values, ops := values0, ops0;
    while true
      invariant ReduceToParen(Stacks(values, ops)) == ReduceToParen(Stacks(values0, ops0))
      decreases |ops|
    {
      if |ops| == 0 {
        return Err(Malformed);
      }
      if ops[|ops| - 1] == '(' {
        break;
      }
      var applied := ApplyTopOperator(Stacks(values, ops));
      if applied.Err? {
        return Err(applied.error);
      }
      values, ops := applied.value.values, applied.value.ops;
    }
    r := Ok(Stacks(values, ops[..|ops| - 1]));
  }

  /** The loop of an operator, applying the pending operators that take precedence, and its push. */
  method RunOperator(op: char, values0: seq<real>, ops0: seq<char>) returns (r: Result<Stacks>)
    ensures r == PushOperator(op, Stacks(values0, ops0))
  {
    var values, ops := values0, ops0;
    while |ops| > 0 && HasPrecedence(op, ops[|ops| - 1])
      invariant PushOperator(op, Stacks(values, ops)) == PushOperator(op, Stacks(values0, ops0))
      decreases |ops|
    {
      var applied := ApplyTopOperator(Stacks(values, ops));
      if applied.Err? {
        return Err(applied.error);
      }
      values, ops := applied.value.values, applied.value.ops;
    }
    r := Ok(Stacks(values, ops + [op]));
  }

  /** The final drain of every remaining operator, and the removal of the top operand. */
  method RunDrain(values0: seq<real>, ops0: seq<char>) returns (r: Result<real>)
    ensures r == DrainAndPop(Stacks(values0, ops0))
  {
    var values, ops := values0, ops0;
    while |ops| > 0
      invariant DrainAndPop(Stacks(values, ops)) == DrainAndPop(Stacks(values0, ops0))
      decreases |ops|
    {
      var applied := ApplyTopOperator(Stacks(values, ops));
      if applied.Err? {
        return Err(applied.error);
      }
      values, ops := applied.value.values, applied.value.ops;
    }
    if |values| == 0 {
      return Err(Malformed);
    }
    r := Ok(values[|values| - 1]);
  }

  /**
   * The inner `while` of a number: append characters to the buffer while
   * they are digits or '.', leaving the index just past the run.
   */
  method ReadNumber(tokens: string, start: nat) returns (sbuf: string, i: nat)
    requires start < |tokens| && IsNumberChar(tokens[start])
    ensures i == start + NumberRunLength(tokens[start..])
    ensures start < i <= |tokens| && sbuf == tokens[start..i]
  {
    i := start;
    sbuf := "";
    while i < |tokens| && IsNumberChar(tokens[i])
      invariant start <= i <= |tokens|
      invariant sbuf == tokens[start..i]
      invariant AllNumberChars(sbuf)
    {
      sbuf := sbuf + [tokens[i]];
      i := i + 1;
    }
    var n := NumberRunLength(tokens[start..]);
    assert tokens[start..][..i - start] == sbuf;
    assert i - start == n;
  }

  /**
   * One pass of the body of evaluateExpression's scanning loop, at index
   * `i`: a number run is read and pushed, '(' is pushed, ')' and the
   * operators run their loops, and any other character is passed over.
   * The index returned is that of the next character to scan.
   */
  method ScanStep(tokens: string, i: nat, values: seq<real>, ops: seq<char>)
    returns (r: Result<Stacks>, next: nat)
    requires i < |tokens|
    ensures i < next <= |tokens|
    ensures r.Err? ==> Scan(tokens[i..], Stacks(values, ops)) == Err(r.error)
    ensures r.Ok? ==> Scan(tokens[i..], Stacks(values, ops)) == Scan(tokens[next..], r.value)
  {
    var c := tokens[i];
    ghost var before := Stacks(values, ops);
    ghost var rest := tokens[i..];
    assert rest[0] == c;
    if IsNumberChar(c) {
      var sbuf;
      sbuf, next := ReadNumber(tokens, i);
      ghost var n := |sbuf|;
      assert rest[..n] == sbuf && rest[n..] == tokens[next..];
      ScanNumberToken(rest, before);
      var parsed := ParseDecimal(sbuf);
      if parsed.None? {
        return Err(Malformed), next;
      }
      return Ok(Stacks(values + [parsed.value], ops)), next;
    }
    next := i + 1;
    assert rest[1..] == tokens[next..];
    ScanCharToken(rest, before);
    if c == '(' {
      r := Ok(Stacks(values, ops + ['(']));
    } else if c == ')' {
      r := RunCloseParen(values, ops);
    } else if IsOperator(c) {
      r := RunOperator(c, values, ops);
    } else {
      r := Ok(Stacks(values, ops));
    }
  }

  /** evaluateExpression, step by step over the character array. */
  method EvaluateExpression(expression: string) returns (r: Result<real>)
    ensures r == Evaluate(expression)
  {
    var values: seq<real> := [];
    var ops: seq<char> := [];
    var tokens := expression;
    var i := 0;
    assert tokens[i..] == tokens;
    while i < |tokens|
      invariant 0 <= i <= |tokens|
      invariant Scan(tokens[i..], Stacks(values, ops)) == Scan(tokens, Empty)
      decreases |tokens| - i
    {
      var step;
      step, i := ScanStep(tokens, i, values, ops);
      if step.Err? {
        return Err(step.error);
      }
      values, ops := step.value.values, step.value.ops;
    }
    assert tokens[i..] == [];
    assert Scan(expression, Empty) == Ok(Stacks(values, ops));
    r := RunDrain(values, ops);
  }
}
