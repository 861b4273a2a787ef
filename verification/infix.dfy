/** A reference semantics for the evaluator: infix expression trees with the
    usual meaning of the four operators, printed with the fewest parentheses
    the precedence table allows (a left operand is wrapped only when it binds
    more loosely than its operator, a right operand also when it binds
    equally). The theorems below show that the two-stack loop of main.py:81-117
    computes exactly that meaning for every printed tree, which is what makes
    `*` and `/` bind tighter than `+` and `-` and every chain of equal
    precedence associate to the left. */
module Infix {
  import opened Faults
  import opened Operations
  import opened Lexer
  import opened Rounding
  import opened Evaluator

  datatype Expr = Literal(text: string) | Binary(op: Op, left: Expr, right: Expr)

  /** The value of a tree, evaluating the left operand before the right. */
  function Denote(e: Expr): Result<real>
  {
    match e
    case Literal(t) => Ok(NumeralValue(t))
    case Binary(op, l, r) =>
      var a :- Denote(l);
      var b :- Denote(r);
      Apply(op, a, b)
  }

  /** How tightly the top of a tree binds: a literal is atomic. */
  function Level(e: Expr): nat
  {
    match e
    case Literal(_) => 3
    case Binary(op, _, _) => Precedence(op)
  }

  function Group(ts: seq<Token>, paren: bool): seq<Token>
  {
    if paren then [Open] + ts + [Close] else ts
  }

  /** The tokens of a tree with only the parentheses it needs. */
  function Render(e: Expr): seq<Token>
  {
    match e
    case Literal(t) => [Number(t)]
    case Binary(op, l, r) =>
      Group(Render(l), Level(l) < Precedence(op))
        + [Operator(op)]
        + Group(Render(r), Level(r) <= Precedence(op))
  }

  /** Every literal of the tree is a numeral. */
  predicate Numerals(e: Expr)
  {
    match e
    case Literal(t) => IsNumeral(t)
    case Binary(_, l, r) => Numerals(l) && Numerals(r)
  }

  function Push(st: State, v: real): State
  {
    State(st.numbers + [v], st.ops)
  }

  /** Run further tokens after a run that may have failed. */
  function Then(r: Result<State>, ts: seq<Token>): Result<State>
  {
    var s :- r;
    Run(s, ts)
  }

  /** Reduce operators binding at least `p` after a run that may have failed. */
  function ReduceAfter(r: Result<State>, p: nat): Result<State>
  {
    var s :- r;
    ReduceWhileHigher(s, p)
  }

  /** Running two token sequences one after the other is running their
      concatenation. */
  lemma {:induction false} RunAppend(st: State, xs: seq<Token>, ys: seq<Token>)
    ensures Run(st, xs + ys) == Then(Run(st, xs), ys)
    decreases |xs|
  {
    if xs == [] {
      assert xs + ys == ys;
    } else {
      assert (xs + ys)[0] == xs[0];
      assert (xs + ys)[1..] == xs[1..] + ys;
      match Step(st, xs[0])
      case Err(_) =>
      case Ok(next) => RunAppend(next, xs[1..], ys);
    }
  }

  /** The `')'` loop is the operator loop with the lowest precedence,
      followed by popping the `'('` it stops at. */
  lemma {:induction false} CloseParenAsReduce(st: State)
    ensures CloseParen(st) ==
      (var s :- ReduceWhileHigher(st, 0);
       if s.ops == [] then Err(IndexError) else Ok(State(s.numbers, Pop(s.ops))))
    decreases |st.ops|
  {
    if st.ops != [] && Top(st.ops).Pend? {
      match ReduceTop(st)
      case Err(_) =>
      case Ok(next) => CloseParenAsReduce(next);
    }
  }

  /** The drain loop is the operator loop with the lowest precedence; a
      `'('` it stops at fails by IndexError or KeyError. */
  lemma {:induction false} DrainAsReduce(st: State)
    ensures Drain(st) ==
      (var s :- ReduceWhileHigher(st, 0);
       if s.ops == [] then Ok(s)
       else Err(if |s.numbers| < 2 then IndexError else KeyError))
    decreases |st.ops|
  {
    if st.ops != [] && Top(st.ops).Pend? {
      match ReduceTop(st)
      case Err(_) =>
      case Ok(next) => DrainAsReduce(next);
    }
  }

  /** Two operands under an operator that binds at least `p`: the operator
      is applied, left operand first, and reduction goes on below it. */
  lemma {:induction false} ReduceBinary(st: State, op: Op, a: real, b: real, p: nat)
    requires p <= Precedence(op)
    ensures ReduceWhileHigher(State(st.numbers + [a, b], st.ops + [Pend(op)]), p) ==
      (var c :- Apply(op, a, b); ReduceWhileHigher(Push(st, c), p))
  {
    var s := State(st.numbers + [a, b], st.ops + [Pend(op)]);
    var n := |s.numbers|;
    assert s.numbers[..n - 2] == st.numbers && s.numbers[n - 2] == a && s.numbers[n - 1] == b;
    assert Pop(s.ops) == st.ops;
  }

  /** Running a single token is taking one step. */
  lemma RunOne(st: State, t: Token)
    ensures Run(st, [t]) == Step(st, t)
  {
    assert [t][0] == t && [t][1..] == [];
  }

  /** Tokens between `'('` and `')'` run above a fresh `'('`, which the
      `')'` then closes. */
  lemma RunBracketed(st: State, ts: seq<Token>)
    ensures Run(st, Group(ts, true)) ==
      (var s :- Run(State(st.numbers, st.ops + [Paren]), ts); CloseParen(s))
  {
    var inner := State(st.numbers, st.ops + [Paren]);
    var all := Group(ts, true);
    assert all[0] == Open && all[1..] == ts + [Close];
    assert Step(st, Open) == Ok(inner);
    assert Run(st, all) == Run(inner, ts + [Close]);
    RunAppend(inner, ts, [Close]);
    match Run(inner, ts)
    case Err(_) =>
    case Ok(s) => RunOne(s, Close);
  }

  /** A parenthesized tree leaves exactly its value on the operand stack
      and the operator stack as it found it. */
  lemma {:induction false} RunParenthesized(e: Expr, st: State)
    ensures Run(st, Group(Render(e), true)) == (var v :- Denote(e); Ok(Push(st, v)))
    decreases e, 1
  {
    var inner := State(st.numbers, st.ops + [Paren]);
    RunBracketed(st, Render(e));
    RunRender(e, inner, 0);
    match Run(inner, Render(e))
    case Err(_) =>
    case Ok(s) =>
      CloseParenAsReduce(s);
      match Denote(e)
      case Err(_) =>
      case Ok(v) =>
        assert ReduceWhileHigher(Push(inner, v), 0) == Ok(Push(inner, v));
  }

  /** An operand, parenthesized or not, followed by an operator of
      precedence at most `p` (or a `')'`, or the end): its value is pushed
      and the reduction continues below it. */
  lemma {:induction false} RunOperand(e: Expr, paren: bool, st: State, p: nat)
    requires paren || (Stopped(st.ops, Level(e)) && p <= Level(e))
    ensures ReduceAfter(Run(st, Group(Render(e), paren)), p) ==
      (var v :- Denote(e); ReduceWhileHigher(Push(st, v), p))
    decreases e, 2
  {
    if paren {
      RunParenthesized(e, st);
    } else {
      RunRender(e, st, p);
    }
  }

  /** A left operand followed by its operator: the operand's value and
      then the operator are pushed, and nothing already stacked is reduced. */
  lemma {:induction false} LeftOperand(l: Expr, op: Op, st: State)
    requires Stopped(st.ops, Precedence(op))
    ensures Run(st, Group(Render(l), Level(l) < Precedence(op)) + [Operator(op)]) ==
      (var a :- Denote(l); Ok(State(st.numbers + [a], st.ops + [Pend(op)])))
    decreases l, 3
  {
    var q := Precedence(op);
    var left := Group(Render(l), Level(l) < q);
    RunAppend(st, left, [Operator(op)]);
    RunOperand(l, Level(l) < q, st, q);
    match Run(st, left)
    case Err(_) =>
    case Ok(s) =>
      match Denote(l)
      case Err(_) =>
      case Ok(a) =>
        assert ReduceWhileHigher(s, q) == Ok(Push(st, a));
        RunOne(s, Operator(op));
  }

  /** Pushing a right operand's value above `a` and its operator, then
      reducing, applies the operator once the operand is known. */
  lemma PushRight(st: State, op: Op, a: real, d: Result<real>, p: nat)
    requires p <= Precedence(op)
    ensures (var b :- d; ReduceWhileHigher(Push(State(st.numbers + [a], st.ops + [Pend(op)]), b), p)) ==
      (var b :- d; var c :- Apply(op, a, b); ReduceWhileHigher(Push(st, c), p))
  {
    match d
    case Err(_) =>
    case Ok(b) =>
      assert Push(State(st.numbers + [a], st.ops + [Pend(op)]), b) ==
        State(st.numbers + [a, b], st.ops + [Pend(op)]);
      ReduceBinary(st, op, a, b, p);
  }

  /** A right operand after its operator: the operator is applied to the
      two values, and the reduction goes on below it. */
  lemma {:induction false} RightOperand(r: Expr, op: Op, a: real, st: State, p: nat)
    requires Stopped(st.ops, Precedence(op)) && p <= Precedence(op)
    ensures ReduceAfter(Run(State(st.numbers + [a], st.ops + [Pend(op)]),
                            Group(Render(r), Level(r) <= Precedence(op))), p) ==
      (var b :- Denote(r); var c :- Apply(op, a, b); ReduceWhileHigher(Push(st, c), p))
    decreases r, 4
  {
    var mid := State(st.numbers + [a], st.ops + [Pend(op)]);
    RunOperand(r, Level(r) <= Precedence(op), mid, p);
    PushRight(st, op, a, Denote(r), p);
  }

  /** The invariant of the two-stack loop: running the tokens of a tree
      whose operators all bind more tightly than the top of the operator
      stack, and then reducing down to precedence `p`, is the same as
      pushing the tree's value and reducing down to `p`. */
  lemma {:induction false} RunRender(e: Expr, st: State, p: nat)
    requires Stopped(st.ops, Level(e)) && p <= Level(e)
    ensures ReduceAfter(Run(st, Render(e)), p) ==
      (var v :- Denote(e); ReduceWhileHigher(Push(st, v), p))
    decreases e, 0
  {
    match e
    case Literal(t) =>
    case Binary(op, l, r) =>
      var q := Precedence(op);
      var left := Group(Render(l), Level(l) < q);
      var right := Group(Render(r), Level(r) <= q);
      assert Render(e) == (left + [Operator(op)]) + right;
      RunAppend(st, left + [Operator(op)], right);
      LeftOperand(l, op, st);
      match Denote(l)
      case Err(_) =>
      case Ok(a) => RightOperand(r, op, a, st, p);
  }

  /** The evaluator computes the meaning of every printed tree: precedence
      and left associativity hold for all expressions, and a division by
      zero anywhere fails with ValueError. */
  lemma {:induction false} EvaluateRender(e: Expr)
    ensures EvaluateTokens(Render(e)) == Denote(e)
  {
    RunRender(e, Initial, 0);
    match Run(Initial, Render(e))
    case Err(_) =>
    case Ok(s) =>
      DrainAsReduce(s);
      match Denote(e)
      case Err(_) =>
      case Ok(v) =>
        assert Push(Initial, v) == State([v], []);
  }

  /** A redundant pair of parentheses around the whole printed expression
      changes nothing: the `')'` closes it, and the value is left alone on
      the operand stack. */
  lemma EvaluateParenthesized(e: Expr)
    ensures EvaluateTokens(Group(Render(e), true)) == Denote(e)
  {
    RunParenthesized(e, Initial);
    match Denote(e)
    case Err(_) =>
    case Ok(v) =>
      assert Push(Initial, v) == State([v], []);
  }

  lemma {:induction false} WellFormedAppend(xs: seq<Token>, ys: seq<Token>)
    requires WellFormed(xs) && WellFormed(ys)
    ensures WellFormed(xs + ys)
  {
    assert forall i :: |xs| <= i < |xs + ys| ==> (xs + ys)[i] == ys[i - |xs|];
  }

  /** A tree whose literals are numerals prints as well-formed tokens. */
  lemma {:induction false} RenderWellFormed(e: Expr)
    requires Numerals(e)
    ensures WellFormed(Render(e))
  {
    match e
    case Literal(t) =>
    case Binary(op, l, r) =>
      RenderWellFormed(l);
      RenderWellFormed(r);
      var left := Group(Render(l), Level(l) < Precedence(op));
      var right := Group(Render(r), Level(r) <= Precedence(op));
      WellFormedAppend([Open], Render(l));
      WellFormedAppend([Open] + Render(l), [Close]);
      WellFormedAppend([Open], Render(r));
      WellFormedAppend([Open] + Render(r), [Close]);
      WellFormedAppend(left, [Operator(op)]);
      WellFormedAppend(left + [Operator(op)], right);
  }

  /** From text to value: any printing of a tree, with any whitespace,
      letters or other skipped characters between its tokens, and after a
      lead of characters that cannot start a token (a stray `.` among them),
      evaluates to the tree's value rounded to two decimals. */
  lemma {:induction false} EvaluateText(e: Expr, lead: string, gaps: seq<string>)
    requires Numerals(e) && Skipped(lead) && Layout(Render(e), gaps)
    ensures Evaluate(lead + Spell(Render(e), gaps)) == (var v :- Denote(e); Ok(Round2(v)))
  {
    RenderWellFormed(e);
    TokenizeSpell(lead, Render(e), gaps);
    EvaluateRender(e);
  }

  /** Draining after the tokens of a tree is draining with the tree's
      value pushed. */
  lemma {:induction false} DrainAfterRender(e: Expr, st: State)
    requires Stopped(st.ops, Level(e))
    ensures (var s :- Run(st, Render(e)); Drain(s)) == (var v :- Denote(e); Drain(Push(st, v)))
  {
    RunRender(e, st, 0);
    match Denote(e)
    case Err(x) =>
      assert ReduceAfter(Run(st, Render(e)), 0) == Err(x);
      match Run(st, Render(e)) {
        case Err(_) =>
        case Ok(s) => DrainAsReduce(s);
      }
    case Ok(v) =>
      DrainAsReduce(Push(st, v));
      match Run(st, Render(e))
      case Err(_) =>
      case Ok(s) => DrainAsReduce(s);
  }

  /** Only the bottom operand is returned: a number followed by a whole
      expression yields that number when the expression itself evaluates,
      e.g. `"2 3"` yields 2; otherwise the expression's ValueError
      propagates. */
  lemma {:induction false} LeadingNumberWins(x: string, e: Expr)
    ensures EvaluateTokens([Number(x)] + Render(e)) == (var _ :- Denote(e); Ok(NumeralValue(x)))
  {
    var st := State([NumeralValue(x)], []);
    var ts := [Number(x)] + Render(e);
    assert ts[0] == Number(x) && ts[1..] == Render(e);
    assert Initial.numbers + [NumeralValue(x)] == [NumeralValue(x)];
    assert Step(Initial, Number(x)) == Ok(st);
    assert Run(Initial, ts) == Run(st, Render(e));
    DrainAfterRender(e, st);
    match Denote(e)
    case Err(_) =>
    case Ok(v) =>
      assert Push(st, v) == State([NumeralValue(x), v], []);
      assert Drain(Push(st, v)) == Ok(Push(st, v));
  }

  /** An unclosed `'('` fails in the drain loop: with only the enclosed
      value on the operand stack, popping the second operand for `'('`
      raises IndexError. A division by zero inside raises ValueError
      first. */
  lemma {:induction false} UnclosedParenFails(e: Expr)
    ensures EvaluateTokens([Open] + Render(e)) == (var _ :- Denote(e); Err(IndexError))
  {
    var st := State([], [Paren]);
    var ts := [Open] + Render(e);
    assert ts[0] == Open && ts[1..] == Render(e);
    assert Initial.ops + [Paren] == [Paren];
    assert Step(Initial, Open) == Ok(st);
    assert Run(Initial, ts) == Run(st, Render(e));
    DrainAfterRender(e, st);
    match Denote(e)
    case Err(_) =>
    case Ok(v) =>
      assert Push(st, v) == State([v], [Paren]);
      assert Drain(Push(st, v)) == Err(IndexError);
  }

  /** A `')'` with no `'('` to match fails with IndexError once the
      operators before it are reduced, unless a division by zero in those
      reductions raises ValueError first. */
  lemma {:induction false} StrayCloseFails(e: Expr)
    ensures EvaluateTokens(Render(e) + [Close]) == (var _ :- Denote(e); Err(IndexError))
  {
    RunAppend(Initial, Render(e), [Close]);
    RunRender(e, Initial, 0);
    match Run(Initial, Render(e))
    case Err(_) =>
    case Ok(s) =>
      CloseParenAsReduce(s);
      assert [Close][1..] == [];
      match Denote(e)
      case Err(_) =>
      case Ok(v) =>
        assert Push(Initial, v) == State([v], []);
  }
}
