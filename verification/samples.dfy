/** The behaviour on representative inputs, derived from the general
    theorems: precedence, parentheses, left associativity, decimal
    literals, rounding, the division-by-zero failure, and the source's
    leniency (skipped characters, a stray `.`, extra operands, unclosed and
    stray parentheses). Each tree's
    value is worked out apart from its text, which keeps each proof small. */
module Samples {
  import opened Faults
  import opened Operations
  import opened Lexer
  import opened Rounding
  import opened Evaluator
  import opened Infix

  /** A numeral without a `.` denotes its digits. */
  lemma WholeNumeral(d: string)
    requires |d| > 0 && forall i :: 0 <= i < |d| ==> IsDigit(d[i])
    ensures NumeralValue(d) == DigitsValue(d) as real
  {
    assert DigitRun(d) == |d|;
    assert d[..|d|] == d;
  }

  lemma OneDigit(c: char)
    requires IsDigit(c)
    ensures Denote(Literal([c])) == Ok(DigitValue(c) as real)
  {
    WholeNumeral([c]);
    assert [c][..0] == [];
  }

  lemma TwoDigits(c: char, d: char)
    requires IsDigit(c) && IsDigit(d)
    ensures Denote(Literal([c, d])) == Ok((10 * DigitValue(c) + DigitValue(d)) as real)
  {
    WholeNumeral([c, d]);
    assert [c, d][..1] == [c] && [c][..0] == [];
  }

  lemma Literals()
    ensures Denote(Literal("0")) == Ok(0.0)
    ensures Denote(Literal("1")) == Ok(1.0)
    ensures Denote(Literal("2")) == Ok(2.0)
    ensures Denote(Literal("3")) == Ok(3.0)
    ensures Denote(Literal("4")) == Ok(4.0)
    ensures Denote(Literal("5")) == Ok(5.0)
    ensures Denote(Literal("10")) == Ok(10.0)
    ensures Denote(Literal("20")) == Ok(20.0)
  {
    OneDigit('0');
    OneDigit('1');
    OneDigit('2');
    OneDigit('3');
    OneDigit('4');
    OneDigit('5');
    TwoDigits('1', '0');
    TwoDigits('2', '0');
  }

  /** A text that spells a tree, after a lead that cannot start a token,
      evaluates to the tree's rounded value. */
  lemma FromTree(e: Expr, ts: seq<Token>, gaps: seq<string>, lead: string, text: string, r: Result<real>)
    requires Numerals(e) && Render(e) == ts && Skipped(lead)
    requires Layout(ts, gaps) && lead + Spell(ts, gaps) == text
    requires r == (var v :- Denote(e); Ok(Round2(v)))
    ensures Evaluate(text) == r
  {
    EvaluateText(e, lead, gaps);
  }

  /** `n` empty gaps: tokens written with nothing between them. */
  function Tight(n: nat): seq<string>
  {
    seq(n, _ => "")
  }

  /** Tokens written with nothing between them form a layout as long as no
      two numbers are adjacent. */
  lemma TightLayout(ts: seq<Token>)
    requires forall i :: 0 <= i < |ts| - 1 ==> !(ts[i].Number? && ts[i + 1].Number?)
    ensures Layout(ts, Tight(|ts|))
  {
    var g := Tight(|ts|);
    assert forall i :: 0 <= i < |g| ==> g[i] == [];
  }

  /** A text that spells well-formed tokens reads back as those tokens. */
  lemma Spelled(ts: seq<Token>, gaps: seq<string>, text: string)
    requires WellFormed(ts) && Layout(ts, gaps) && Spell(ts, gaps) == text
    ensures Tokenize(text) == ts
  {
    TokenizeSpell("", ts, gaps);
    assert "" + text == text;
  }

  function TimesTree(): Expr
  {
    Binary(Add, Literal("2"), Binary(Mul, Literal("3"), Literal("4")))
  }

  function TimesTokens(): seq<Token>
  {
    [Number("2"), Operator(Add), Number("3"), Operator(Mul), Number("4")]
  }

  lemma TimesValue()
    ensures Numerals(TimesTree()) && Denote(TimesTree()) == Ok(14.0)
    ensures Round2(14.0) == 14.0
  {
    Literals();
    assert IsCents(14.0);
  }

  lemma TimesSpelling()
    ensures Render(TimesTree()) == TimesTokens()
    ensures Layout(TimesTokens(), Tight(5))
    ensures Spell(TimesTokens(), Tight(5)) == "2+3*4"
  {
    var ts, g := TimesTokens(), Tight(5);
    TightLayout(ts);
    assert Spell(ts[4..], g[4..]) == "4";
    assert Spell(ts[3..], g[3..]) == "*4";
    assert Spell(ts[2..], g[2..]) == "3*4";
    assert Spell(ts[1..], g[1..]) == "+3*4";
  }

  /** `"2+3*4"` gives 14: `*` binds tighter than `+`. */
  lemma TimesBindsTighter()
    ensures Evaluate("2+3*4") == Ok(14.0)
  {
    TimesSpelling();
    TimesValue();
    FromTree(TimesTree(), TimesTokens(), Tight(5), "", "2+3*4", Ok(14.0));
  }

  function GroupedTree(): Expr
  {
    Binary(Mul, Binary(Add, Literal("2"), Literal("3")), Literal("4"))
  }

  function GroupedTokens(): seq<Token>
  {
    [Open, Number("2"), Operator(Add), Number("3"), Close, Operator(Mul), Number("4")]
  }

  lemma GroupedValue()
    ensures Numerals(GroupedTree()) && Denote(GroupedTree()) == Ok(20.0)
    ensures Round2(20.0) == 20.0
  {
    Literals();
    assert IsCents(20.0);
  }

  lemma GroupedSpelling()
    ensures Render(GroupedTree()) == GroupedTokens()
    ensures Layout(GroupedTokens(), Tight(7))
    ensures Spell(GroupedTokens(), Tight(7)) == "(2+3)*4"
  {
    var ts, g := GroupedTokens(), Tight(7);
    TightLayout(ts);
    assert Spell(ts[6..], g[6..]) == "4";
    assert Spell(ts[5..], g[5..]) == "*4";
    assert Spell(ts[4..], g[4..]) == ")*4";
    assert Spell(ts[3..], g[3..]) == "3)*4";
    assert Spell(ts[2..], g[2..]) == "+3)*4";
    assert Spell(ts[1..], g[1..]) == "2+3)*4";
  }

  /** `"(2+3)*4"` gives 20: parentheses override precedence. */
  lemma ParenthesesFirst()
    ensures Evaluate("(2+3)*4") == Ok(20.0)
  {
    GroupedSpelling();
    GroupedValue();
    FromTree(GroupedTree(), GroupedTokens(), Tight(7), "", "(2+3)*4", Ok(20.0));
  }

  function ChainTree(): Expr
  {
    Binary(Sub, Binary(Sub, Literal("20"), Literal("5")), Literal("5"))
  }

  function ChainTokens(): seq<Token>
  {
    [Number("20"), Operator(Sub), Number("5"), Operator(Sub), Number("5")]
  }

  lemma ChainValue()
    ensures Numerals(ChainTree()) && Denote(ChainTree()) == Ok(10.0)
    ensures Round2(10.0) == 10.0
  {
    Literals();
    assert IsCents(10.0);
  }

  lemma ChainSpelling()
    ensures Render(ChainTree()) == ChainTokens()
    ensures Layout(ChainTokens(), Tight(5))
    ensures Spell(ChainTokens(), Tight(5)) == "20-5-5"
  {
    var ts, g := ChainTokens(), Tight(5);
    TightLayout(ts);
    assert Spell(ts[4..], g[4..]) == "5";
    assert Spell(ts[3..], g[3..]) == "-5";
    assert Spell(ts[2..], g[2..]) == "5-5";
    assert Spell(ts[1..], g[1..]) == "-5-5";
  }

  /** `"20-5-5"` gives 10: equal precedence associates to the left. */
  lemma MinusAssociatesLeft()
    ensures Evaluate("20-5-5") == Ok(10.0)
  {
    ChainSpelling();
    ChainValue();
    FromTree(ChainTree(), ChainTokens(), Tight(5), "", "20-5-5", Ok(10.0));
  }

  function ThirdsTree(): Expr
  {
    Binary(Div, Literal("10"), Literal("3"))
  }

  function ThirdsTokens(): seq<Token>
  {
    [Number("10"), Operator(Div), Number("3")]
  }

  lemma ThirdsValue()
    ensures Numerals(ThirdsTree()) && Denote(ThirdsTree()) == Ok(10.0 / 3.0)
    ensures Round2(10.0 / 3.0) == 3.33
  {
    Literals();
    assert (10.0 / 3.0 * 100.0).Floor == 333;
  }

  lemma ThirdsSpelling()
    ensures Render(ThirdsTree()) == ThirdsTokens()
    ensures Layout(ThirdsTokens(), Tight(3))
    ensures Spell(ThirdsTokens(), Tight(3)) == "10/3"
  {
    var ts, g := ThirdsTokens(), Tight(3);
    TightLayout(ts);
    assert Spell(ts[2..], g[2..]) == "3";
    assert Spell(ts[1..], g[1..]) == "/3";
  }

  /** `"10/3"` gives 3.33: the result is rounded to two decimals. */
  lemma QuotientRounded()
    ensures Evaluate("10/3") == Ok(3.33)
  {
    ThirdsSpelling();
    ThirdsValue();
    FromTree(ThirdsTree(), ThirdsTokens(), Tight(3), "", "10/3", Ok(3.33));
  }

  function QuarterTree(): Expr
  {
    Binary(Div, Literal("10"), Literal("4"))
  }

  function QuarterTokens(): seq<Token>
  {
    [Number("10"), Operator(Div), Number("4")]
  }

  lemma QuarterValue()
    ensures Numerals(QuarterTree()) && Denote(QuarterTree()) == Ok(2.5)
    ensures Round2(2.5) == 2.5
  {
    Literals();
    assert IsCents(2.5);
  }

  lemma QuarterSpelling()
    ensures Render(QuarterTree()) == QuarterTokens()
    ensures Layout(QuarterTokens(), Tight(3))
    ensures Spell(QuarterTokens(), Tight(3)) == "10/4"
  {
    var ts, g := QuarterTokens(), Tight(3);
    TightLayout(ts);
    assert Spell(ts[2..], g[2..]) == "4";
    assert Spell(ts[1..], g[1..]) == "/4";
  }

  /** `"10/4"` gives 2.5, which needs no rounding. */
  lemma QuotientExact()
    ensures Evaluate("10/4") == Ok(2.5)
  {
    QuarterSpelling();
    QuarterValue();
    FromTree(QuarterTree(), QuarterTokens(), Tight(3), "", "10/4", Ok(2.5));
  }

  function ZeroTree(): Expr
  {
    Binary(Div, Literal("5"), Literal("0"))
  }

  function ZeroTokens(): seq<Token>
  {
    [Number("5"), Operator(Div), Number("0")]
  }

  lemma ZeroValue()
    ensures Numerals(ZeroTree()) && Denote(ZeroTree()) == Err(ValueError)
  {
    Literals();
  }

  lemma ZeroSpelling()
    ensures Render(ZeroTree()) == ZeroTokens()
    ensures Layout(ZeroTokens(), Tight(3))
    ensures Spell(ZeroTokens(), Tight(3)) == "5/0"
  {
    var ts, g := ZeroTokens(), Tight(3);
    TightLayout(ts);
    assert Spell(ts[2..], g[2..]) == "0";
    assert Spell(ts[1..], g[1..]) == "/0";
  }

  /** `"5/0"` fails with the ValueError of `Division.perform`. */
  lemma DivideByZero()
    ensures Evaluate("5/0") == Err(ValueError)
  {
    ZeroSpelling();
    ZeroValue();
    FromTree(ZeroTree(), ZeroTokens(), Tight(3), "", "5/0", Err(ValueError));
  }

  function SumTree(): Expr
  {
    Binary(Add, Literal("2"), Literal("3"))
  }

  function SumTokens(): seq<Token>
  {
    [Number("2"), Operator(Add), Number("3")]
  }

  function SumGaps(): seq<string>
  {
    [" ", " ", ""]
  }

  lemma SumValue()
    ensures Numerals(SumTree()) && Denote(SumTree()) == Ok(5.0)
    ensures Round2(5.0) == 5.0
  {
    Literals();
    assert IsCents(5.0);
  }

  lemma SumSpelling()
    ensures Render(SumTree()) == SumTokens()
    ensures Layout(SumTokens(), SumGaps())
    ensures Spell(SumTokens(), SumGaps()) == "2 + 3"
    ensures Skipped("sum: ") && "sum: " + "2 + 3" == "sum: 2 + 3"
  {
    var ts, g := SumTokens(), SumGaps();
    assert Spell(ts[2..], g[2..]) == "3";
    assert Spell(ts[1..], g[1..]) == "+ 3";
  }

  /** Letters, spaces and punctuation are skipped: `"sum: 2 + 3"` gives 5. */
  lemma NoiseSkipped()
    ensures Evaluate("sum: 2 + 3") == Ok(5.0)
  {
    SumSpelling();
    SumValue();
    FromTree(SumTree(), SumTokens(), SumGaps(), "sum: ", "sum: 2 + 3", Ok(5.0));
  }

  function DecimalTree(): Expr
  {
    Binary(Mul, Literal("1.5"), Literal("2"))
  }

  function DecimalTokens(): seq<Token>
  {
    [Number("1.5"), Operator(Mul), Number("2")]
  }

  /** `"1.5"` is 15 over 10. */
  lemma OneAndAHalf()
    ensures IsNumeral("1.5") && NumeralValue("1.5") == 1.5
  {
    var t := "1.5";
    assert t[1..] == ".5" && t[2..] == "5";
    assert Unpoint(t) == "15";
    assert Decimals(t) == 1;
    assert "15"[..1] == "1";
    assert DigitsValue("15") == 15;
    NumeralScaled(t);
  }

  lemma DecimalValue()
    ensures Numerals(DecimalTree()) && Denote(DecimalTree()) == Ok(3.0)
    ensures Round2(3.0) == 3.0
  {
    Literals();
    OneAndAHalf();
    assert IsCents(3.0);
  }

  lemma DecimalSpelling()
    ensures Render(DecimalTree()) == DecimalTokens()
    ensures Layout(DecimalTokens(), Tight(3))
    ensures Spell(DecimalTokens(), Tight(3)) == "1.5*2"
  {
    var ts, g := DecimalTokens(), Tight(3);
    assert Spell(ts[2..], g[2..]) == "2";
    assert Spell(ts[1..], g[1..]) == "*2";
  }

  /** A decimal literal keeps its fraction: `"1.5*2"` gives 3. */
  lemma DecimalLiteral()
    ensures Evaluate("1.5*2") == Ok(3.0)
  {
    DecimalSpelling();
    DecimalValue();
    FromTree(DecimalTree(), DecimalTokens(), Tight(3), "", "1.5*2", Ok(3.0));
  }

  function PointTree(): Expr
  {
    Binary(Add, Literal("5"), Literal("1"))
  }

  function PointTokens(): seq<Token>
  {
    [Number("5"), Operator(Add), Number("1")]
  }

  lemma PointValue()
    ensures Numerals(PointTree()) && Denote(PointTree()) == Ok(6.0)
    ensures Round2(6.0) == 6.0
  {
    Literals();
    assert IsCents(6.0);
  }

  lemma PointSpelling()
    ensures Render(PointTree()) == PointTokens()
    ensures Layout(PointTokens(), Tight(3))
    ensures Spell(PointTokens(), Tight(3)) == "5+1"
    ensures Skipped(".") && "." + "5+1" == ".5+1"
  {
    var ts, g := PointTokens(), Tight(3);
    assert Spell(ts[2..], g[2..]) == "1";
    assert Spell(ts[1..], g[1..]) == "+1";
  }

  /** A `.` that no digit precedes cannot start a numeral and is skipped:
      `".5+1"` gives 6, not 1.5. */
  lemma StrayPointSkipped()
    ensures Evaluate(".5+1") == Ok(6.0)
  {
    PointSpelling();
    PointValue();
    FromTree(PointTree(), PointTokens(), Tight(3), ".", ".5+1", Ok(6.0));
  }

  function GapTree(): Expr
  {
    Binary(Mul, Literal("3"), Literal("5"))
  }

  function GapTokens(): seq<Token>
  {
    [Number("3"), Operator(Mul), Number("5")]
  }

  function GapGaps(): seq<string>
  {
    ["", ".", ""]
  }

  lemma GapValue()
    ensures Numerals(GapTree()) && Denote(GapTree()) == Ok(15.0)
    ensures Round2(15.0) == 15.0
  {
    Literals();
    assert IsCents(15.0);
  }

  lemma GapSpelling()
    ensures Render(GapTree()) == GapTokens()
    ensures Layout(GapTokens(), GapGaps())
    ensures Spell(GapTokens(), GapGaps()) == "3*.5"
  {
    var ts, g := GapTokens(), GapGaps();
    assert Spell(ts[2..], g[2..]) == "5";
    assert Spell(ts[1..], g[1..]) == "*.5";
  }

  /** A `.` after a symbol cannot start a numeral and is skipped: `"3*.5"`
      gives 15, not 1.5. */
  lemma PointAfterSymbolSkipped()
    ensures Evaluate("3*.5") == Ok(15.0)
  {
    GapSpelling();
    GapValue();
    FromTree(GapTree(), GapTokens(), GapGaps(), "", "3*.5", Ok(15.0));
  }

  /** `"2.5"` is 25 over 10. */
  lemma TwoAndAHalf()
    ensures IsNumeral("2.5") && NumeralValue("2.5") == 2.5
  {
    var t := "2.5";
    assert t[1..] == ".5" && t[2..] == "5";
    assert Unpoint(t) == "25";
    assert Decimals(t) == 1;
    assert "25"[..1] == "2";
    assert DigitsValue("25") == 25;
    NumeralScaled(t);
  }

  function DottedList(): seq<Token>
  {
    [Number("2.5"), Number("3")]
  }

  lemma DottedSpelling()
    ensures WellFormed(DottedList()) && Layout(DottedList(), [".", ""])
    ensures Spell(DottedList(), [".", ""]) == "2.5.3"
  {
    TwoAndAHalf();
    assert '.' in "2.5";
    var ts, g := DottedList(), [".", ""];
    assert Spell(ts[1..], g[1..]) == "3";
  }

  /** A second `.` cannot join a numeral that already has one: `"2.5.3"`
      reads as the numbers 2.5 and 3, and gives 2.5. */
  lemma SecondPointSkipped()
    ensures Evaluate("2.5.3") == Ok(2.5)
  {
    DottedSpelling();
    Spelled(DottedList(), [".", ""], "2.5.3");
    assert DottedList() == [Number("2.5")] + Render(Literal("3"));
    LeadingNumberWins("2.5", Literal("3"));
    assert Denote(Literal("3")).Ok? && NumeralValue("2.5") == 2.5 by {
      Literals();
      TwoAndAHalf();
    }
    assert IsCents(2.5);
  }

  function SmallSumTree(): Expr
  {
    Binary(Add, Literal("1"), Literal("2"))
  }

  lemma SmallSumRender()
    ensures Render(SmallSumTree()) == [Number("1"), Operator(Add), Number("2")]
  {
  }

  lemma SmallSumValue()
    ensures Denote(SmallSumTree()) == Ok(3.0)
  {
    Literals();
  }

  function UnclosedList(): seq<Token>
  {
    [Open] + Render(SmallSumTree())
  }

  lemma UnclosedSpelling()
    ensures WellFormed(UnclosedList()) && Layout(UnclosedList(), Tight(4))
    ensures Spell(UnclosedList(), Tight(4)) == "(1+2"
  {
    SmallSumRender();
    var ts, g := UnclosedList(), Tight(4);
    assert ts == [Open, Number("1"), Operator(Add), Number("2")];
    TightLayout(ts);
    assert Spell(ts[3..], g[3..]) == "2";
    assert Spell(ts[2..], g[2..]) == "+2";
    assert Spell(ts[1..], g[1..]) == "1+2";
  }

  lemma UnclosedTokens()
    ensures Tokenize("(1+2") == [Open] + Render(SmallSumTree())
  {
    UnclosedSpelling();
    Spelled(UnclosedList(), Tight(4), "(1+2");
  }

  /** `"(1+2"` fails with IndexError in the drain loop. */
  lemma UnclosedFails()
    ensures Evaluate("(1+2") == Err(IndexError)
  {
    UnclosedTokens();
    SmallSumValue();
    UnclosedParenFails(SmallSumTree());
  }

  function StrayList(): seq<Token>
  {
    Render(SmallSumTree()) + [Close]
  }

  lemma StraySpelling()
    ensures WellFormed(StrayList()) && Layout(StrayList(), Tight(4))
    ensures Spell(StrayList(), Tight(4)) == "1+2)"
  {
    SmallSumRender();
    var ts, g := StrayList(), Tight(4);
    assert ts == [Number("1"), Operator(Add), Number("2"), Close];
    TightLayout(ts);
    assert Spell(ts[3..], g[3..]) == ")";
    assert Spell(ts[2..], g[2..]) == "2)";
    assert Spell(ts[1..], g[1..]) == "+2)";
  }

  lemma StrayTokens()
    ensures Tokenize("1+2)") == Render(SmallSumTree()) + [Close]
  {
    StraySpelling();
    Spelled(StrayList(), Tight(4), "1+2)");
  }

  /** `"1+2)"` fails with IndexError: the `')'` finds no `'('`. */
  lemma StrayFails()
    ensures Evaluate("1+2)") == Err(IndexError)
  {
    StrayTokens();
    SmallSumValue();
    StrayCloseFails(SmallSumTree());
  }

  function PairList(): seq<Token>
  {
    [Number("2"), Number("3")]
  }

  lemma PairSpelling()
    ensures WellFormed(PairList()) && Layout(PairList(), [" ", ""])
    ensures Spell(PairList(), [" ", ""]) == "2 3"
  {
  }

  /** `"2 3"` gives 2: the bottom operand is returned and the extra one is
      ignored. */
  lemma ExtraOperandIgnored()
    ensures Evaluate("2 3") == Ok(2.0)
  {
    PairSpelling();
    Spelled(PairList(), [" ", ""], "2 3");
    assert PairList() == [Number("2")] + Render(Literal("3"));
    LeadingNumberWins("2", Literal("3"));
    assert Denote(Literal("3")).Ok? && NumeralValue("2") == 2.0 by {
      Literals();
    }
    assert IsCents(2.0);
  }

  function PostfixList(): seq<Token>
  {
    [Number("2"), Number("3"), Operator(Add)]
  }

  lemma PostfixSpelling()
    ensures WellFormed(PostfixList()) && Layout(PostfixList(), [" ", " ", ""])
    ensures Spell(PostfixList(), [" ", " ", ""]) == "2 3 +"
  {
    var ts, g := PostfixList(), [" ", " ", ""];
    assert Spell(ts[2..], g[2..]) == "+";
    assert Spell(ts[1..], g[1..]) == "3 +";
  }

  /** Two numbers and then an operator: both operands are stacked, and
      the operator above them, since an empty stack stops its loop. */
  lemma StackTwo(x: string, y: string, op: Op)
    ensures Run(Initial, [Number(x), Number(y), Operator(op)]) ==
      Ok(State([NumeralValue(x), NumeralValue(y)], [Pend(op)]))
  {
    var ts := [Number(x), Number(y), Operator(op)];
    var a, b := NumeralValue(x), NumeralValue(y);
    var s1, s2 := State([a], []), State([a, b], []);
    assert ts[0] == Number(x) && ts[1..] == [Number(y), Operator(op)];
    assert Initial.numbers + [a] == [a];
    assert Step(Initial, ts[0]) == Ok(s1);
    assert Run(Initial, ts) == Run(s1, ts[1..]);
    var rest := ts[1..];
    assert rest[0] == Number(y) && rest[1..] == [Operator(op)];
    assert s1.numbers + [b] == [a, b];
    assert Step(s1, rest[0]) == Ok(s2);
    assert Run(s1, rest) == Run(s2, [Operator(op)]);
    RunOne(s2, Operator(op));
    assert ReduceWhileHigher(s2, Precedence(op)) == Ok(s2);
    assert s2.ops + [Pend(op)] == [Pend(op)];
  }

  /** Draining a single operator over two operands applies it. */
  lemma DrainTwo(a: real, b: real, op: Op)
    ensures Drain(State([a, b], [Pend(op)])) ==
      (var v :- Apply(op, a, b); Ok(State([v], [])))
  {
    var s := State([a, b], [Pend(op)]);
    assert Top(s.ops) == Pend(op) && Pop(s.ops) == [];
    assert s.numbers[0] == a && s.numbers[1] == b && s.numbers[..0] == [];
    match Apply(op, a, b)
    case Err(_) =>
    case Ok(v) =>
      assert [] + [v] == [v];
      assert ReduceTop(s) == Ok(State([v], []));
  }

  /** An operator written after both of its operands is still applied to
      them, left operand first: the drain loop performs it. */
  lemma OperatorLast(x: string, y: string, op: Op)
    ensures EvaluateTokens([Number(x), Number(y), Operator(op)]) ==
      Apply(op, NumeralValue(x), NumeralValue(y))
  {
    StackTwo(x, y, op);
    DrainTwo(NumeralValue(x), NumeralValue(y), op);
  }

  /** `"2 3 +"` gives 5: an operator after both operands is applied when
      the operator stack is drained, so postfix-looking input is accepted. */
  lemma PostfixAccepted()
    ensures Evaluate("2 3 +") == Ok(5.0)
  {
    PostfixSpelling();
    Spelled(PostfixList(), [" ", " ", ""], "2 3 +");
    OperatorLast("2", "3", Add);
    assert NumeralValue("2") == 2.0 && NumeralValue("3") == 3.0 by {
      Literals();
    }
    assert IsCents(5.0);
  }

  function SymbolList(): seq<Token>
  {
    [Operator(Add), Operator(Sub), Open, Close]
  }

  lemma SymbolSpelling()
    ensures WellFormed(SymbolList()) && Layout(SymbolList(), Tight(4))
    ensures Spell(SymbolList(), Tight(4)) == "+-()"
  {
  }

  /** An empty input, or one without digits, fails with IndexError. */
  lemma NothingToEvaluate()
    ensures Evaluate("") == Err(IndexError)
    ensures Evaluate("+-()") == Err(IndexError)
  {
    assert Tokenize("") == [];
    SymbolSpelling();
    Spelled(SymbolList(), Tight(4), "+-()");
  }
}
