/**
 * Decimal numbers as the exporters see them: the text accepted by
 * `^-?\d+(\.\d+)?$`, its exact value, and the Hungarian-format cleaning
 * (drop the digit-group separator, turn the decimal comma into a point)
 * applied before every `float(...)` conversion.
 */
module Numbers {
  import opened Wrappers
  import opened PyStr
  import opened Patterns

  /** `re.match(r"^-?\d+(\.\d+)?$", t)` on a string with no trailing newline. */
  predicate IsDecimalLiteral(t: string) {
    var u := if |t| > 0 && t[0] == '-' then t[1..] else t;
    var k := RunEnd(Digits, u, 0);
    k > 0 && (k == |u| || (u[k] == '.' && k + 1 < |u| && AllDigits(u[k + 1..])))
  }

  function Pow10(n: nat): (r: nat)
    ensures r > 0
  {
    if n == 0 then 1 else 10 * Pow10(n - 1)
  }

  /** The value of a string of ASCII digits. */
  function DigitsValue(d: string): nat
    requires AllDigits(d)
  {
    if d == [] then 0 else DigitsValue(d[..|d| - 1]) * 10 + (d[|d| - 1] as int - '0' as int)
  }

  /** The exact value `float(t)` approximates, for a decimal literal `t`. */
  function DecimalValue(t: string): real
    requires IsDecimalLiteral(t)
  {
    var neg := |t| > 0 && t[0] == '-';
    var u := if neg then t[1..] else t;
    var k := RunEnd(Digits, u, 0);
    var whole := DigitsValue(u[..k]) as real;
    var frac := if k == |u| then 0.0 else DigitsValue(u[k + 1..]) as real / Pow10(|u| - k - 1) as real;
    if neg then -(whole + frac) else whole + frac
  }

  /** `s.replace(grouping, "").replace(",", ".")`. */
  function CommaDecimal(s: string, grouping: char): string {
    ReplaceChar(ReplaceChar(s, grouping, ""), ',', ".")
  }

  lemma {:induction false} DropSeparatorsLeavesDigits(p: string, sep: char)
    requires !IsDigit(sep)
    requires forall j :: 0 <= j < |p| ==> IsDigit(p[j]) || p[j] == sep
    ensures AllDigits(ReplaceChar(p, sep, ""))
    ensures |p| > 0 && IsDigit(p[0]) ==> |ReplaceChar(p, sep, "")| > 0
    decreases |p|
  {
    if p != [] {
      DropSeparatorsLeavesDigits(p[1..], sep);
      if IsDigit(p[0]) {
        assert ReplaceChar(p, sep, "") == [p[0]] + ReplaceChar(p[1..], sep, "");
      }
    }
  }

  /** The cleaned text of a matched amount: digits, a point, two decimals. */
  lemma PointedIsDecimal(d: string, cents: string)
    requires |d| > 0 && AllDigits(d) && |cents| == 2 && AllDigits(cents)
    ensures IsDecimalLiteral(d + "." + cents)
  {
    var t := d + "." + cents;
    assert forall j :: 0 <= j < |d| ==> InClass(Digits, t[j]);
    assert t[|d|] == '.';
    RunEndUnique(Digits, t, 0, |d|);
    assert t[|d| + 1..] == cents;
  }

  lemma DropSeparatorsKeepsTail(p: string, cents: string, sep: char)
    requires sep != ',' && sep !in cents
    ensures ReplaceChar(p + ([','] + cents), sep, "") == ReplaceChar(p, sep, "") + ([','] + cents)
  {
    ReplaceCharAppend(p, [','] + cents, sep, "");
    assert sep !in [','] + cents;
    ReplaceCharAbsent([','] + cents, sep, "");
  }

  lemma CommaToPoint(d: string, cents: string)
    requires ',' !in d && ',' !in cents
    ensures ReplaceChar(d + ([','] + cents), ',', ".") == d + "." + cents
  {
    ReplaceCharAppend(d, [','] + cents, ',', ".");
    ReplaceCharAppend([','], cents, ',', ".");
    ReplaceCharAbsent(d, ',', ".");
    ReplaceCharAbsent(cents, ',', ".");
    assert ReplaceChar([','], ',', ".") == "." + ReplaceChar([], ',', ".");
  }

  /**
   * Every amount the parsers' amount patterns can match cleans to a
   * decimal literal, so `float(...)` of it never fails.
   */
  lemma AmountCleansToDecimal(g: string, sep: char)
    requires AmountShape(g, sep) && !IsDigit(sep) && sep != ','
    ensures IsDecimalLiteral(CommaDecimal(g, sep))
    ensures CommaDecimal(g, sep) == ReplaceChar(g[..|g| - 3], sep, "") + "." + g[|g| - 2..]
  {
    var p, cents := g[..|g| - 3], g[|g| - 2..];
    assert g == p + ([','] + cents);
    assert AllDigits(cents);
    assert sep !in cents && ',' !in cents;
    DropSeparatorsLeavesDigits(p, sep);
    var d := ReplaceChar(p, sep, "");
    DropSeparatorsKeepsTail(p, cents, sep);
    assert ',' !in d;
    CommaToPoint(d, cents);
    PointedIsDecimal(d, cents);
  }

  /** `float(g.replace(sep, "").replace(",", "."))` of a matched amount. */
  function AmountValue(g: string, sep: char): real
    requires AmountShape(g, sep) && !IsDigit(sep) && sep != ','
  {
    AmountCleansToDecimal(g, sep);
    DecimalValue(CommaDecimal(g, sep))
  }

  /** A decimal literal starts with a sign or a digit and ends with a digit. */
  lemma DecimalLiteralEnds(t: string)
    requires IsDecimalLiteral(t)
    ensures |t| > 0 && !IsSpace(t[0]) && IsDigit(t[|t| - 1])
  {
    var u := if |t| > 0 && t[0] == '-' then t[1..] else t;
    var k := RunEnd(Digits, u, 0);
    assert InClass(Digits, u[0]);
    if k < |u| {
      assert u[k + 1..][|u| - k - 2] == u[|u| - 1];
    }
    assert t[|t| - 1] == u[|u| - 1];
  }

  /**
   * `float(t)` on the texts it is given here: surrounding whitespace is
   * ignored and the rest must be a decimal literal (the other spellings
   * `float` accepts are not modelled).
   */
  function FloatOf(t: string): (r: Option<real>)
    ensures r.Some? <==> IsDecimalLiteral(Strip(t))
  {
    var u := Strip(t);
    if IsDecimalLiteral(u) then Some(DecimalValue(u)) else None
  }

  /** A decimal literal converts to its own value. */
  lemma FloatOfLiteral(t: string)
    requires IsDecimalLiteral(t)
    ensures FloatOf(t) == Some(DecimalValue(t))
  {
    DecimalLiteralEnds(t);
    StripTrimmed(t);
  }

  /** Every matched amount converts, to the value the parsers give it. */
  lemma FloatOfAmount(g: string, sep: char)
    requires AmountShape(g, sep) && !IsDigit(sep) && sep != ','
    ensures FloatOf(CommaDecimal(g, sep)) == Some(AmountValue(g, sep))
  {
    AmountCleansToDecimal(g, sep);
    FloatOfLiteral(CommaDecimal(g, sep));
  }

  /** `numpy.round(x, 0)` on an exact value: to the nearest integer, ties to the even one. */
  function RoundHalfEven(x: real): (n: int)
    ensures x - 0.5 <= n as real <= x + 0.5
    ensures n as real == x - 0.5 || n as real == x + 0.5 ==> n % 2 == 0
  {
    var f := x.Floor;
    var d := x - f as real;
    if d < 0.5 then f
    else if d > 0.5 then f + 1
    else if f % 2 == 0 then f
    else f + 1
  }

  /** Each text cleaned and converted by `float`, `None` where that raises. */
  function Cleaned(texts: seq<string>, grouping: char): (r: seq<Option<real>>)
    ensures |r| == |texts|
  {
    seq(|texts|, i requires 0 <= i < |texts| => FloatOf(CommaDecimal(texts[i], grouping)))
  }

  /**
   * `s.str.replace(".", "").str.replace(",", ".").astype(float)` on a
   * column of texts: every value converts, or the call raises.
   */
  function AsFloats(texts: seq<string>, grouping: char): Option<seq<real>> {
    AllPresent(Cleaned(texts, grouping))
  }

  /** A converted column holds, value by value, what `float` makes of each cleaned text. */
  lemma AsFloatsValue(texts: seq<string>, grouping: char, i: nat)
    requires i < |texts| && AsFloats(texts, grouping).Some?
    ensures FloatOf(CommaDecimal(texts[i], grouping)).Some?
    ensures |AsFloats(texts, grouping).value| == |texts|
    ensures AsFloats(texts, grouping).value[i] == FloatOf(CommaDecimal(texts[i], grouping)).value
  {
    assert Cleaned(texts, grouping)[i] == FloatOf(CommaDecimal(texts[i], grouping));
  }
}
