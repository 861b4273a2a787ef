/** The two-stack evaluation of `Calculator.evaluate_expression`
    (main.py:81-117). Both stacks are sequences whose LAST element is the
    top, as with Python lists. Each loop of the source is one recursive
    function, and the three loops share the one reduction step they repeat. */
module Evaluator {
  import opened Faults
  import opened Operations
  import opened Lexer
  import opened Rounding

  /** An entry of `operator_stack`: a pending operator or a `'('`. A `')'`
      is never pushed, so it has no entry. */
  datatype Pending = Pend(op: Op) | Paren

  datatype State = State(numbers: seq<real>, ops: seq<Pending>)

  const Initial := State([], [])

  function Top(ops: seq<Pending>): Pending
    requires ops != []
  {
    ops[|ops| - 1]
  }

  function Pop(ops: seq<Pending>): seq<Pending>
    requires ops != []
  {
    ops[..|ops| - 1]
  }

  /** One reduction: pop an operator, pop the right operand `num2`, pop the
      left operand `num1`, look the operator up, perform it and push the
      result. The operand stack shrinks by exactly one and nothing beneath
      the two operands changes; too few operands raise IndexError before
      the lookup of `'('` can raise KeyError. */
  function ReduceTop(st: State): (r: Result<State>)
    requires st.ops != []
    ensures |st.numbers| < 2 ==> r == Err(IndexError)
    ensures |st.numbers| >= 2 && Top(st.ops).Paren? ==> r == Err(KeyError)
    ensures |st.numbers| >= 2 && Top(st.ops).Pend? ==>
      var n := |st.numbers|;
      var v := Apply(Top(st.ops).op, st.numbers[n - 2], st.numbers[n - 1]);
      && (r.Ok? <==> v.Ok?)
      && (r.Ok? ==> r.value == State(st.numbers[..n - 2] + [v.value], Pop(st.ops)))
      && (r.Err? ==> r.error == ValueError)
  {
    var n := |st.numbers|;
    if n < 2 then Err(IndexError)
    else
      match Top(st.ops)
      case Paren => Err(KeyError)
      case Pend(op) =>
        var num2, num1 := st.numbers[n - 1], st.numbers[n - 2];
        PerformBinary(op, num1, num2);
        var v :- Perform(op, [num1, num2]);
        Ok(State(st.numbers[..n - 2] + [v], Pop(st.ops)))
  }

  /** The loop condition of main.py:91-92 fails: the stack is empty, its top
      is `'('`, or its top binds more loosely than `p`. */
  predicate Stopped(ops: seq<Pending>, p: nat)
  {
    ops == [] || Top(ops).Paren? || Precedence(Top(ops).op) < p
  }

  /** The loop of main.py:91-97, run before an operator of precedence `p` is
      pushed: it reduces exactly the run of operators on top of the stack,
      above the nearest `'('`, that bind at least as tightly as `p`. */
  function ReduceWhileHigher(st: State, p: nat): (r: Result<State>)
    ensures r.Ok? ==>
      var k := |r.value.ops|;
      && k <= |st.ops|
      && r.value.ops == st.ops[..k]
      && Stopped(r.value.ops, p)
      && (forall i :: k <= i < |st.ops| ==> st.ops[i].Pend? && Precedence(st.ops[i].op) >= p)
      && |r.value.numbers| + (|st.ops| - k) == |st.numbers|
    ensures Stopped(st.ops, p) ==> r == Ok(st)
    decreases |st.ops|
  {
    if Stopped(st.ops, p) then Ok(st)
    else
      var next :- ReduceTop(st);
      ReduceWhileHigher(next, p)
  }

  /** The loop of main.py:102-108 for a `')'`: reduce until the top is
      `'('`, then pop that `'('`. It removes exactly the nearest `'('` and
      the operators above it; `operator_stack[-1]` on an empty stack raises
      IndexError, so a `')'` with no `'('` below it always fails. */
  function CloseParen(st: State): (r: Result<State>)
    ensures r.Ok? ==>
      var k := |r.value.ops|;
      && k < |st.ops|
      && r.value.ops == st.ops[..k]
      && st.ops[k].Paren?
      && (forall i :: k < i < |st.ops| ==> st.ops[i].Pend?)
      && |r.value.numbers| + (|st.ops| - k - 1) == |st.numbers|
    ensures (forall i :: 0 <= i < |st.ops| ==> st.ops[i].Pend?) ==> r.Err?
    decreases |st.ops|
  {
    if st.ops == [] then Err(IndexError)
    else if Top(st.ops).Paren? then Ok(State(st.numbers, Pop(st.ops)))
    else
      var next :- ReduceTop(st);
      CloseParen(next)
  }

  /** The loop of main.py:110-115: reduce while any operator is left. On
      success the operator stack is empty and one operand was consumed per
      operator; a `'('` left on the stack always fails, by IndexError or by
      KeyError. */
  function Drain(st: State): (r: Result<State>)
    ensures r.Ok? ==> r.value.ops == [] && |r.value.numbers| + |st.ops| == |st.numbers|
    ensures (exists i :: 0 <= i < |st.ops| && st.ops[i].Paren?) ==> r.Err?
    decreases |st.ops|
  {
    if st.ops == [] then Ok(st)
    else
      var next :- ReduceTop(st);
      Drain(next)
  }

  /** One iteration of the loop at main.py:87-108. A number's value or a
      `'('` is pushed onto its stack, leaving the rest alone, and never
      fails. Only a number adds an operand. An operator ends up on top of
      the stack, above an entry that binds more loosely than it, or a
      `'('`, or nothing. */
  function Step(st: State, t: Token): (r: Result<State>)
    ensures t.Number? || t.Open? ==> r.Ok?
    ensures r.Ok? && t.Number? ==> |r.value.numbers| == |st.numbers| + 1
    ensures r.Ok? && !t.Number? ==> |r.value.numbers| <= |st.numbers|
    ensures r.Ok? && t.Operator? ==>
      r.value.ops != [] && Top(r.value.ops) == Pend(t.op) && Stopped(Pop(r.value.ops), Precedence(t.op))
    ensures t.Number? ==>
      && r.Ok?
      && r.value.ops == st.ops
      && r.value.numbers[..|st.numbers|] == st.numbers
      && r.value.numbers[|st.numbers|] == NumeralValue(t.text)
    ensures t.Open? ==>
      && r.Ok?
      && r.value.numbers == st.numbers
      && r.value.ops != [] && Top(r.value.ops) == Paren && Pop(r.value.ops) == st.ops
  {
    match t
    case Number(x) =>
      var numbers := st.numbers + [NumeralValue(x)];
      assert numbers[..|st.numbers|] == st.numbers;
      Ok(State(numbers, st.ops))
    case Operator(op) =>
      var s :- ReduceWhileHigher(st, Precedence(op));
      var ops := s.ops + [Pend(op)];
      assert Pop(ops) == s.ops;
      Ok(State(s.numbers, ops))
    case Open =>
      var ops := st.ops + [Paren];
      assert Pop(ops) == st.ops;
      Ok(State(st.numbers, ops))
    case Close => CloseParen(st)
  }

  /** The whole loop over the tokens; the first failure stops it. Each token
      adds at most one operand, and the loop can only fail at an operator or
      at a `')'`. */
  function Run(st: State, ts: seq<Token>): (r: Result<State>)
    ensures r.Ok? ==> |r.value.numbers| <= |st.numbers| + |ts|
    ensures r.Err? ==> exists i :: 0 <= i < |ts| && (ts[i].Operator? || ts[i].Close?)
    decreases |ts|
  {
    if ts == [] then Ok(st)
    else
      var next :- Step(st, ts[0]);
      var r := Run(next, ts[1..]);
      assert r.Err? ==> exists i :: 1 <= i < |ts| && (ts[i].Operator? || ts[i].Close?) by {
        if r.Err? {
          var i :| 0 <= i < |ts[1..]| && (ts[1..][i].Operator? || ts[1..][i].Close?);
          assert ts[i + 1] == ts[1..][i];
        }
      }
      r
  }

  /** `evaluate_expression` on a token sequence, before rounding: run the
      tokens, drain the operator stack, and return `numbers[0]`, the bottom
      of the operand stack, even when more operands are left. An input
      without any number token, the empty one included, fails with
      IndexError: nothing is ever pushed, so `numbers[0]`, or a pop before
      it, finds an empty list. */
  function EvaluateTokens(ts: seq<Token>): (r: Result<real>)
    ensures NoNumbers(ts) ==> r == Err(IndexError)
  {
    var run := Run(Initial, ts);
    assert NoNumbers(ts) ==> (run.Ok? ==> run.value.numbers == []) && (run.Err? ==> run.error == IndexError) by {
      if NoNumbers(ts) {
        RunWithoutNumbers(Initial, ts);
      }
    }
    var s :- run;
    var d :- Drain(s);
    if d.numbers == [] then Err(IndexError) else Ok(d.numbers[0])
  }

  /** `evaluate_expression` as decorated: tokenize, evaluate, and round the
      result to two decimals. A failure is the failure of the unrounded
      evaluation, and a result is within half a cent of the unrounded value.
      Every call starts from empty stacks, so the same text always gives the
      same outcome. */
  function Evaluate(expression: string): (r: Result<real>)
    ensures r.Ok? ==> IsCents(r.value)
    ensures r.Ok? <==> EvaluateTokens(Tokenize(expression)).Ok?
    ensures r.Err? ==> EvaluateTokens(Tokenize(expression)) == Err(r.error)
    ensures r.Ok? ==> -0.005 <= r.value - EvaluateTokens(Tokenize(expression)).value <= 0.005
  {
    var v :- EvaluateTokens(Tokenize(expression));
    Ok(Round2(v))
  }

  /** No token is a number. */
  predicate NoNumbers(ts: seq<Token>)
  {
    forall i :: 0 <= i < |ts| ==> !ts[i].Number?
  }

  /** Without number tokens the operand stack stays empty: every reduction
      would underflow, so a run either fails or leaves no operand. */
  lemma {:induction false} RunWithoutNumbers(st: State, ts: seq<Token>)
    requires st.numbers == [] && NoNumbers(ts)
    ensures Run(st, ts).Ok? ==> Run(st, ts).value.numbers == []
    ensures Run(st, ts).Err? ==> Run(st, ts).error == IndexError
    decreases |ts|
  {
    if ts != [] {
      match Step(st, ts[0])
      case Err(_) =>
      case Ok(next) =>
        assert next.numbers == [];
        RunWithoutNumbers(next, ts[1..]);
    }
  }
}
