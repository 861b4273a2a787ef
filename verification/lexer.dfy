/** The tokenizer of `Calculator.evaluate_expression` (main.py:85): a
    regular expression with two alternatives, a numeral (`\d+\.?\d*`) and a
    single character of the symbol class `+ - * / ( )`, applied with
    `re.findall`. At each position the numeral alternative is tried first, with greedy
    repetition; then a single symbol; a character matching neither is
    skipped. Tokens keep the text of their lexeme, as the source's match
    groups do. */
module Lexer {
  import opened Operations

  datatype Token = Number(text: string) | Operator(op: Op) | Open | Close

  predicate IsDigit(c: char)
  {
    '0' <= c <= '9'
  }

  predicate IsSymbol(c: char)
  {
    c == '+' || c == '-' || c == '*' || c == '/' || c == '(' || c == ')'
  }

  /** A lexeme of the numeral alternative: it starts with a digit, every
      character is a digit or `.`, and there is at most one `.`. */
  predicate IsNumeral(t: string)
  {
    && |t| > 0
    && IsDigit(t[0])
    && (forall i :: 0 <= i < |t| ==> IsDigit(t[i]) || t[i] == '.')
    && (forall i, j :: 0 <= i < j < |t| && t[i] == '.' ==> t[j] != '.')
  }

  /** Length of the longest run of digits at the front of `s` (`\d*`). */
  function DigitRun(s: string): (n: nat)
    ensures n <= |s|
    ensures forall i :: 0 <= i < n ==> IsDigit(s[i])
    ensures n == |s| || !IsDigit(s[n])
  {
    if s != [] && IsDigit(s[0]) then 1 + DigitRun(s[1..]) else 0
  }

  /** Length of the greedy match of `\d+\.?\d*` at the front of `s`: the
      match is a numeral, and it cannot be extended by a digit, nor by a
      `.` when it has none yet. */
  function NumeralLength(s: string): (n: nat)
    requires s != [] && IsDigit(s[0])
    ensures 0 < n <= |s|
    ensures IsNumeral(s[..n])
    ensures n == |s| || (!IsDigit(s[n]) && (s[n] == '.' ==> '.' in s[..n]))
  {
    var k := DigitRun(s);
    if k < |s| && s[k] == '.' then
      var m := DigitRun(s[k + 1..]);
      assert forall i :: k + 1 <= i < k + 1 + m ==> IsDigit(s[i]) by {
        forall i | k + 1 <= i < k + 1 + m ensures IsDigit(s[i]) {
          assert s[i] == s[k + 1..][i - (k + 1)];
        }
      }
      assert s[..k + 1 + m][k] == '.';
      k + 1 + m
    else
      k
  }

  /** The token of a symbol character; printing it gives the character
      back. */
  function SymbolToken(c: char): (t: Token)
    requires IsSymbol(c)
    ensures !t.Number? && Text(t) == [c]
  {
    match c
    case '+' => Operator(Add)
    case '-' => Operator(Sub)
    case '*' => Operator(Mul)
    case '/' => Operator(Div)
    case '(' => Open
    case _ => Close
  }

  /** All numbers a token sequence holds are numerals. */
  predicate WellFormed(ts: seq<Token>)
  {
    forall i :: 0 <= i < |ts| && ts[i].Number? ==> IsNumeral(ts[i].text)
  }

  /** The tokens `re.findall` extracts from `s`, in input order. */
  function Tokenize(s: string): (ts: seq<Token>)
    ensures WellFormed(ts)
    decreases |s|
  {
    if s == [] then []
    else if IsDigit(s[0]) then
      var n := NumeralLength(s);
      [Number(s[..n])] + Tokenize(s[n..])
    else if IsSymbol(s[0]) then
      [SymbolToken(s[0])] + Tokenize(s[1..])
    else
      Tokenize(s[1..])
  }

  /** The lexeme a token is read from. */
  function Text(t: Token): string
  {
    match t
    case Number(x) => x
    case Operator(Add) => "+"
    case Operator(Sub) => "-"
    case Operator(Mul) => "*"
    case Operator(Div) => "/"
    case Open => "("
    case Close => ")"
  }

  /** Lay out the lexemes of `ts`, each followed by its gap. */
  function Spell(ts: seq<Token>, gaps: seq<string>): string
    requires |gaps| == |ts|
  {
    if ts == [] then [] else Text(ts[0]) + gaps[0] + Spell(ts[1..], gaps[1..])
  }

  /** A string none of whose characters can start a token: no digit and no
      symbol. A `.` is allowed here, since it cannot start a numeral. */
  predicate Skipped(g: string)
  {
    forall i :: 0 <= i < |g| ==> !IsDigit(g[i]) && !IsSymbol(g[i])
  }

  /** Gaps are skipped text; two numbers in a row are kept apart; and a gap
      after a numeral without a `.` does not start with a `.`, which would
      extend the numeral. */
  predicate Layout(ts: seq<Token>, gaps: seq<string>)
  {
    && |gaps| == |ts|
    && (forall i :: 0 <= i < |gaps| ==> Skipped(gaps[i]))
    && (forall i :: 0 <= i < |ts| - 1 && ts[i].Number? && ts[i + 1].Number? ==> gaps[i] != [])
    && (forall i :: 0 <= i < |ts| && ts[i].Number? && '.' !in ts[i].text && gaps[i] != [] ==> gaps[i][0] != '.')
  }

  /** Characters that cannot start a token produce no token: whitespace,
      letters, a stray `.` and any other character in front of the input
      change nothing. */
  lemma {:induction false} SkipNoise(g: string, s: string)
    requires Skipped(g)
    ensures Tokenize(g + s) == Tokenize(s)
    decreases |g|
  {
    if g == [] {
      assert g + s == s;
    } else {
      assert (g + s)[0] == g[0];
      assert (g + s)[1..] == g[1..] + s;
      SkipNoise(g[1..], s);
    }
  }

  /** A numeral followed by something that cannot continue it (not a
      digit, and a `.` only when the numeral already has one) is read
      whole, and nothing more. */
  lemma NumeralAtFront(t: string, u: string)
    requires IsNumeral(t)
    requires u == [] || (!IsDigit(u[0]) && (u[0] == '.' ==> '.' in t))
    ensures NumeralLength(t + u) == |t|
  {
    var s := t + u;
    assert s[..|t|] == t;
    var n := NumeralLength(s);
    // A longer match would have to take the first character of `u`.
    NumeralChars(s, n);
    assert u != [] ==> s[|t|] == u[0];
  }

  /** Every character of a numeral match is a digit or a `.`. */
  lemma NumeralChars(s: string, n: nat)
    requires n <= |s| && IsNumeral(s[..n])
    ensures forall k :: 0 <= k < n ==> IsDigit(s[k]) || s[k] == '.'
  {
    assert forall k :: 0 <= k < n ==> s[..n][k] == s[k];
  }

  /** A numeral in front of text that cannot continue it is read back as
      one number token. */
  lemma NumberFront(x: string, u: string)
    requires IsNumeral(x)
    requires u == [] || (!IsDigit(u[0]) && (u[0] == '.' ==> '.' in x))
    ensures Tokenize(x + u) == [Number(x)] + Tokenize(u)
  {
    var s := x + u;
    assert s[0] == x[0];
    NumeralAtFront(x, u);
    assert s[..|x|] == x && s[|x|..] == u;
  }

  /** A symbol character is read back as its token. */
  lemma SymbolFront(c: char, u: string)
    requires IsSymbol(c)
    ensures Tokenize([c] + u) == [SymbolToken(c)] + Tokenize(u)
  {
    var s := [c] + u;
    assert s[0] == c && s[1..] == u;
  }

  /** Every other token is spelled by the one symbol it is read from. */
  lemma SymbolText(t: Token)
    requires !t.Number?
    ensures |Text(t)| == 1 && IsSymbol(Text(t)[0]) && SymbolToken(Text(t)[0]) == t
    ensures Text(t) == [Text(t)[0]]
  {
  }

  /** A well-formed token in front of text that cannot continue it is read
      back as that token. */
  lemma TokenizeFront(t: Token, u: string)
    requires t.Number? ==> IsNumeral(t.text)
    requires t.Number? && u != [] ==> !IsDigit(u[0]) && (u[0] == '.' ==> '.' in t.text)
    ensures Tokenize(Text(t) + u) == [t] + Tokenize(u)
  {
    if t.Number? {
      NumberFront(t.text, u);
    } else {
      SymbolText(t);
      SymbolFront(Text(t)[0], u);
    }
  }

  /** Dropping the first token keeps a layout a layout. */
  lemma LayoutTail(ts: seq<Token>, gaps: seq<string>)
    requires WellFormed(ts) && Layout(ts, gaps) && ts != []
    ensures WellFormed(ts[1..]) && Layout(ts[1..], gaps[1..])
  {
    assert forall i :: 0 <= i < |ts| - 1 ==> ts[1..][i] == ts[i + 1];
  }

  /** Whatever follows a number token in a layout cannot continue its
      numeral: it starts with a skipped character or with a symbol, and
      with a `.` only when the numeral already has one. */
  lemma AfterNumber(ts: seq<Token>, gaps: seq<string>)
    requires Layout(ts, gaps) && ts != [] && ts[0].Number?
    ensures var u := gaps[0] + Spell(ts[1..], gaps[1..]);
      u == [] || (!IsDigit(u[0]) && (u[0] == '.' ==> '.' in ts[0].text))
  {
    var u := gaps[0] + Spell(ts[1..], gaps[1..]);
    if u != [] {
      if gaps[0] != [] {
        assert u[0] == gaps[0][0] && Skipped(gaps[0]);
      } else {
        assert |ts| > 1 && !ts[1].Number?;
        assert u[0] == Text(ts[1])[0];
      }
    }
  }

  /** Tokenizing a layout of well-formed tokens gives back exactly those
      tokens: numerals are read whole, symbols one character at a time, and
      every gap and leading noise is skipped. */
  lemma {:induction false} TokenizeSpell(lead: string, ts: seq<Token>, gaps: seq<string>)
    requires WellFormed(ts) && Layout(ts, gaps) && Skipped(lead)
    ensures Tokenize(lead + Spell(ts, gaps)) == ts
    decreases |ts|
  {
    SkipNoise(lead, Spell(ts, gaps));
    if ts != [] {
      var u := gaps[0] + Spell(ts[1..], gaps[1..]);
      assert Spell(ts, gaps) == Text(ts[0]) + u;
      LayoutTail(ts, gaps);
      TokenizeSpell(gaps[0], ts[1..], gaps[1..]);
      assert ts[0].Number? ==> IsNumeral(ts[0].text);
      if ts[0].Number? {
        AfterNumber(ts, gaps);
      }
      TokenizeFront(ts[0], u);
      assert [ts[0]] + ts[1..] == ts;
    }
  }

  function DigitValue(c: char): nat
  {
    if IsDigit(c) then (c as int - '0' as int) as nat else 0
  }

  function Pow10(k: nat): (r: nat)
    ensures r > 0
  {
    if k == 0 then 1 else 10 * Pow10(k - 1)
  }

  /** The number a string of decimal digits denotes. */
  function DigitsValue(d: string): (v: nat)
    ensures v < Pow10(|d|)
  {
    if d == [] then 0 else DigitsValue(d[..|d| - 1]) * 10 + DigitValue(d[|d| - 1])
  }

  lemma ProperFraction(d: real, p: real)
    requires 0.0 <= d < p
    ensures 0.0 <= d / p < 1.0
  {
  }

  /** `float(token[0])` on exact reals: the integer part, plus the digits
      after the `.` scaled down by their count. The result lies between the
      integer part and the next integer. */
  function NumeralValue(t: string): (v: real)
    ensures var whole := DigitsValue(t[..DigitRun(t)]) as real;
      whole <= v < whole + 1.0
  {
    var k := DigitRun(t);
    var whole := DigitsValue(t[..k]) as real;
    if k < |t| && t[k] == '.' then
      var frac := t[k + 1..];
      var d, p := DigitsValue(frac) as real, Pow10(|frac|) as real;
      ProperFraction(d, p);
      whole + d / p
    else
      whole
  }

  /** The digits of a string, with every `.` removed. */
  function Unpoint(t: string): string
  {
    if t == [] then [] else (if t[0] == '.' then [] else [t[0]]) + Unpoint(t[1..])
  }

  /** How many characters follow the first `.`; none when there is no `.`. */
  function Decimals(t: string): nat
  {
    if t == [] then 0 else if t[0] == '.' then |t| - 1 else Decimals(t[1..])
  }

  /** Digits written after other digits shift those by their count. */
  lemma {:induction false} DigitsAppend(a: string, b: string)
    ensures DigitsValue(a + b) == DigitsValue(a) * Pow10(|b|) + DigitsValue(b)
    decreases |b|
  {
    if b == [] {
      assert a + b == a;
    } else {
      var c := b[|b| - 1];
      var b' := b[..|b| - 1];
      assert (a + b)[..|a + b| - 1] == a + b' && (a + b)[|a + b| - 1] == c;
      DigitsAppend(a, b');
      assert Pow10(|b|) == Pow10(|b'|) * 10;
      ShiftDigit(DigitsValue(a), Pow10(|b'|), DigitsValue(b'), DigitValue(c));
    }
  }

  lemma ShiftDigit(a: int, p: int, b: int, c: int)
    ensures (a * p + b) * 10 + c == a * (p * 10) + (b * 10 + c)
  {
  }

  /** Whole digits `w` followed by decimals `d` over `p`. */
  function Mixed(w: nat, d: nat, p: nat): real
    requires p > 0
  {
    w as real + d as real / p as real
  }

  /** The digits of `w` followed by the digits of `d`, where `p` is the
      place value of the first digit after `w`. */
  function Joined(w: nat, d: nat, p: nat): nat
  {
    w * p + d
  }

  /** `w + d / p` is the integer `w * p + d` divided by `p`. */
  lemma ScaleBack(w: nat, d: nat, p: nat)
    requires p > 0
    ensures Mixed(w, d, p) == Joined(w, d, p) as real / p as real
  {
    var x, y, q := w as real, d as real, p as real;
    assert Joined(w, d, p) as real == x * q + y;
    assert (x * q + y) / q == x * q / q + y / q;
    assert x * q / q == x;
  }

  /** A string of digits has no `.` to remove and no decimals. */
  lemma {:induction false} AllDigits(d: string)
    requires forall i :: 0 <= i < |d| ==> IsDigit(d[i])
    ensures Unpoint(d) == d && Decimals(d) == 0
    decreases |d|
  {
    if d != [] {
      assert forall i :: 0 <= i < |d| - 1 ==> d[1..][i] == d[i + 1];
      AllDigits(d[1..]);
      assert [d[0]] + d[1..] == d;
    }
  }

  /** Leading digits pass through `Unpoint` and do not count as decimals. */
  lemma {:induction false} DigitsThenRest(d: string, u: string)
    requires forall i :: 0 <= i < |d| ==> IsDigit(d[i])
    ensures Unpoint(d + u) == d + Unpoint(u) && Decimals(d + u) == Decimals(u)
    decreases |d|
  {
    if d == [] {
      assert d + u == u;
    } else {
      assert (d + u)[0] == d[0] && (d + u)[1..] == d[1..] + u;
      assert forall i :: 0 <= i < |d| - 1 ==> d[1..][i] == d[i + 1];
      DigitsThenRest(d[1..], u);
      assert [d[0]] + (d[1..] + Unpoint(u)) == d + Unpoint(u);
    }
  }

  /** After the leading digits of a numeral comes either nothing, or a
      `.` followed by digits only. */
  lemma FractionDigits(t: string)
    requires IsNumeral(t) && DigitRun(t) < |t|
    ensures t[DigitRun(t)] == '.'
    ensures forall i :: DigitRun(t) < i < |t| ==> IsDigit(t[i])
  {
  }

  /** A `.` followed by digits leaves the digits, all of them decimals. */
  lemma PointThenDigits(u: string)
    requires |u| > 0 && u[0] == '.'
    requires forall i :: 0 < i < |u| ==> IsDigit(u[i])
    ensures Unpoint(u) == u[1..] && Decimals(u) == |u| - 1
  {
    AllDigits(u[1..]);
  }

  /** How a numeral splits into the leading digits and the decimals. */
  lemma NumeralParts(t: string)
    requires IsNumeral(t)
    ensures var k := DigitRun(t);
      if k == |t| then Unpoint(t) == t && Decimals(t) == 0
      else Unpoint(t) == t[..k] + t[k + 1..] && Decimals(t) == |t| - k - 1
  {
    var k := DigitRun(t);
    assert t == t[..k] + t[k..];
    DigitsThenRest(t[..k], t[k..]);
    if k < |t| {
      FractionDigits(t);
      PointThenDigits(t[k..]);
    } else {
      assert t[k..] == [];
    }
  }

  /** A numeral splits into its whole digits `w` and its decimals `d` over
      `p` (none, over one, when it has no `.`), and without the `.` its digits
      spell `w * p + d`. */
  lemma NumeralSplit(t: string) returns (w: nat, d: nat, p: nat)
    requires IsNumeral(t)
    ensures p > 0 && Pow10(Decimals(t)) == p
    ensures NumeralValue(t) == Mixed(w, d, p)
    ensures DigitsValue(Unpoint(t)) == Joined(w, d, p)
  {
    var k := DigitRun(t);
    NumeralParts(t);
    if k < |t| {
      var whole, frac := t[..k], t[k + 1..];
      w, d, p := DigitsValue(whole), DigitsValue(frac), Pow10(|frac|);
      DigitsAppend(whole, frac);
    } else {
      assert t[..k] == t;
      w, d, p := DigitsValue(t), 0, 1;
    }
  }

  /** The value of a numeral is the integer its digits spell with the `.`
      removed, divided by ten to the number of its decimals: `"2.5"` is 25
      over 10. */
  lemma NumeralScaled(t: string)
    requires IsNumeral(t)
    ensures NumeralValue(t) == DigitsValue(Unpoint(t)) as real / Pow10(Decimals(t)) as real
  {
    var w, d, p := NumeralSplit(t);
    ScaleBack(w, d, p);
  }
}
