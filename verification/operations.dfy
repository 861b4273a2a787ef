/** The four registered operations (`Addition`, `Subtraction`,
    `Multiplication`, `Division` in main.py) and the precedence table of
    `Calculator`. The source's `perform(*args)` is variadic; it is modelled
    on a sequence of operands, and `PerformBinary` pins down what it does on
    the two operands the evaluator always passes. */
module Operations {
  import opened Faults

  datatype Op = Add | Sub | Mul | Div

  /** Python's `sum` over a tuple of numbers, added from the left starting
      at 0; the same as the first operand plus the sum of the rest. */
  function Sum(xs: seq<real>): (r: real)
    ensures xs != [] ==> r == xs[0] + Sum(xs[1..])
  {
    if xs == [] then 0.0
    else
      var init := xs[..|xs| - 1];
      assert init != [] ==> init[1..] == xs[1..][..|xs| - 2];
      Sum(init) + xs[|xs| - 1]
  }

  /** `math.prod` (and the loop of `Multiplication.perform`): 1 on no
      operands; zero exactly when some operand is zero. */
  function Product(xs: seq<real>): (r: real)
    ensures r == 0.0 <==> 0.0 in xs
  {
    if xs == [] then 1.0 else Product(xs[..|xs| - 1]) * xs[|xs| - 1]
  }

  /** Some operand after the first is zero (`0 in args[1:]`). */
  predicate ZeroDivisor(args: seq<real>)
  {
    exists i :: 1 <= i < |args| && args[i] == 0.0
  }

  /** `perform(*args)` of the four operation classes, including the
      IndexError of `args[0]` on no operands and the ValueError of
      `Division` when any operand after the first is zero. */
  function Perform(op: Op, args: seq<real>): (r: Result<real>)
    ensures r.Err? && r.error == ValueError <==> op == Div && ZeroDivisor(args)
    ensures r.Err? <==> (op == Div && ZeroDivisor(args)) || ((op == Sub || op == Div) && args == [])
  {
    match op
    case Add => Ok(Sum(args))
    case Sub => if args == [] then Err(IndexError) else Ok(args[0] - Sum(args[1..]))
    case Mul => Ok(Product(args))
    case Div =>
      if args != [] && 0.0 in args[1..] then Err(ValueError)
      else if args == [] then Err(IndexError)
      else Ok(args[0] / Product(args[1..]))
  }

  /** The arithmetic meaning of a binary operator applied to a left operand
      `a` and a right operand `b`: the four operations of the reals, with
      division by zero the only failure. */
  function Apply(op: Op, a: real, b: real): (r: Result<real>)
    ensures r.Err? <==> op == Div && b == 0.0
    ensures r.Err? ==> r.error == ValueError
  {
    match op
    case Add => Ok(a + b)
    case Sub => Ok(a - b)
    case Mul => Ok(a * b)
    case Div => if b == 0.0 then Err(ValueError) else Ok(a / b)
  }

  /** `Calculator.precedence`: `+` and `-` bind with 1, `*` and `/` with 2. */
  function Precedence(op: Op): (p: nat)
    ensures 1 <= p <= 2
    ensures p == 2 <==> op == Mul || op == Div
  {
    match op
    case Add => 1
    case Sub => 1
    case Mul => 2
    case Div => 2
  }

  lemma SumOne(b: real)
    ensures Sum([b]) == b
  {
    assert [b][..0] == [];
  }

  lemma SumPair(a: real, b: real)
    ensures Sum([a, b]) == a + b
  {
    assert [a, b][..1] == [a];
    SumOne(a);
  }

  lemma ProductOne(b: real)
    ensures Product([b]) == b
  {
    assert [b][..0] == [];
    assert Product([b]) == 1.0 * b;
  }

  /** `Multiplication.perform(a, b)` is `a * b`. */
  lemma ProductPair(a: real, b: real)
    ensures Perform(Mul, [a, b]) == Apply(Mul, a, b)
  {
    assert [a, b][..1] == [a];
    ProductOne(a);
    assert Product([a, b]) == a * b;
  }

  /** On two operands, `perform(num1, num2)` is `num1 op num2`: the first
      argument is the left operand, so subtraction and division are never
      reversed, and only a zero divisor fails. */
  lemma PerformBinary(op: Op, a: real, b: real)
    ensures Perform(op, [a, b]) == Apply(op, a, b)
  {
    assert [a, b][1..] == [b];
    match op
    case Add => SumPair(a, b);
    case Sub => SumOne(b);
    case Mul => ProductPair(a, b);
    case Div => ProductOne(b);
  }
}
