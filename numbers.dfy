/** The numeric side of the parser: Python's `float()` on the comma-free number strings it is
    given, and the formats `f"{x:,.0f}"`, `f"{n:,}"` and `f"{x:,.2f}"` used to write derived
    fields back (process_invoice.py:189, 208-219). Values are exact reals instead of IEEE doubles. */
module Numbers {
  import opened Basics

  predicate IsAsciiDigit(c: char) {
    '0' <= c <= '9'
  }

  predicate AllAsciiDigits(s: string) {
    forall i :: 0 <= i < |s| ==> IsAsciiDigit(s[i])
  }

  predicate NotComma(c: char) {
    c != ','
  }

  /** `s.replace(',', '')`. */
  function RemoveCommas(s: string): (r: string)
    ensures forall i :: 0 <= i < |r| ==> r[i] != ','
  {
    SelectPasses(s, NotComma);
    Select(s, NotComma)
  }

  lemma RemoveCommasConcat(a: string, b: string)
    ensures RemoveCommas(a + b) == RemoveCommas(a) + RemoveCommas(b)
  {
    SelectConcat(a, b, NotComma);
  }

  function DigitValue(c: char): nat
    requires IsAsciiDigit(c)
  {
    c as int - '0' as int
  }

  function DigitChar(d: nat): (c: char)
    requires d < 10
    ensures IsAsciiDigit(c) && DigitValue(c) == d
  {
    ('0' as int + d) as char
  }

  /** The value of a string of ASCII digits, most significant first; "" is 0. */
  function DigitsValue(ds: string): nat
    requires AllAsciiDigits(ds)
    decreases |ds|
  {
    if ds == [] then 0 else 10 * DigitsValue(ds[..|ds| - 1]) + DigitValue(ds[|ds| - 1])
  }

  function Pow10(n: nat): (p: nat)
    ensures p >= 1
  {
    if n == 0 then 1 else 10 * Pow10(n - 1)
  }

  /** Position of the first `c` in `s`, or `|s|` when there is none. */
  function IndexOf(s: string, c: char): (k: nat)
    ensures k <= |s|
    ensures k < |s| ==> s[k] == c
    ensures forall i :: 0 <= i < k ==> s[i] != c
    decreases |s|
  {
    if s == [] then 0 else if s[0] == c then 0 else 1 + IndexOf(s[1..], c)
  }

  /** Python's `float(s)` on strings of ASCII digits and dots, the only ones the parser gives it:
      digits, then optionally a dot and digits, with at least one digit ("5", "5.", ".5" parse;
      "" and "." raise ValueError, here None). */
  function ParseFloat(s: string): (r: Option<real>)
    ensures r.Some? ==> r.value >= 0.0
    ensures s == [] ==> r == None
  {
    var k := IndexOf(s, '.');
    var whole := s[..k];
    var frac := if k < |s| then s[k + 1..] else [];
    if AllAsciiDigits(whole) && AllAsciiDigits(frac) && |whole| + |frac| > 0 then
      Some(DecimalValue(DigitsValue(whole), DigitsValue(frac), |frac|))
    else
      None
  }

  /** The value of the decimal numeral `whole.frac` whose fraction has `places` digits. */
  function DecimalValue(whole: nat, frac: nat, places: nat): (v: real)
    ensures v >= 0.0
  {
    whole as real + frac as real / Pow10(places) as real
  }

  /** `str(n)` for a natural number: its decimal digits, without leading zeros. */
  function DigitString(n: nat): (r: string)
    ensures |r| >= 1 && AllAsciiDigits(r)
    ensures DigitsValue(r) == n
    decreases n
  {
    if n < 10 then
      [DigitChar(n)]
    else
      var prefix := DigitString(n / 10);
      var r := prefix + [DigitChar(n % 10)];
      assert r[..|r| - 1] == prefix;
      r
  }

  /** Inserts a comma before every group of three digits counted from the right. */
  function Group(ds: string): (r: string)
    ensures RemoveCommas(r) == RemoveCommas(ds)
    decreases |ds|
  {
    if |ds| <= 3 then ds
    else
      var head, tail := ds[..|ds| - 3], ds[|ds| - 3..];
      var r := Group(head) + "," + tail;
      RemoveCommasConcat(Group(head) + ",", tail);
      RemoveCommasConcat(Group(head), ",");
      RemoveCommasConcat(head, tail);
      assert RemoveCommas(",") == [];
      assert head + tail == ds;
      r
  }

  /** `f"{n:,}"`: the thousands-grouped decimal form of `n`. */
  function FormatGrouped(n: nat): string {
    Group(DigitString(n))
  }

  /** Round to the nearest integer, ties to even, as `f"{x:.0f}"` does. */
  function RoundHalfEven(x: real): (r: int)
    ensures x - 0.5 <= r as real <= x + 0.5
    ensures (r as real == x - 0.5 || r as real == x + 0.5) ==> r % 2 == 0
    ensures x >= 0.0 ==> r >= 0
  {
    var f := x.Floor;
    var d := x - f as real;
    if d < 0.5 then f
    else if d > 0.5 then f + 1
    else if f % 2 == 0 then f
    else f + 1
  }

  /** `f"{x:,.0f}"` for a non-negative `x`. */
  function FormatWhole(x: real): string
    requires x >= 0.0
  {
    FormatGrouped(RoundHalfEven(x))
  }

  /** The two digits of `m`, with a leading zero below ten. */
  function TwoDigits(m: nat): (r: string)
    requires m < 100
    ensures |r| == 2 && AllAsciiDigits(r)
  {
    [DigitChar(m / 10), DigitChar(m % 10)]
  }

  /** `f"{x:,.2f}"` for a non-negative `x`. */
  function FormatFixed2(x: real): string
    requires x >= 0.0
  {
    var c := RoundHalfEven(x * 100.0);
    FormatGrouped(c / 100) + "." + TwoDigits(c % 100)
  }

  /** The format of a derived unit price or quantity (process_invoice.py:216, 219): grouped
      integer when the quotient is whole, grouped with two decimals otherwise. */
  function FormatQuotient(x: real): string
    requires x >= 0.0
  {
    if x.Floor as real == x then FormatGrouped(x.Floor) else FormatFixed2(x)
  }

  lemma DigitsHaveNoComma(s: string)
    requires AllAsciiDigits(s)
    ensures RemoveCommas(s) == s
  {
    SelectKeepsAll(s, NotComma);
  }

  lemma ParseWholeDigits(s: string)
    requires s != [] && AllAsciiDigits(s)
    ensures ParseFloat(s) == Some(DigitsValue(s) as real)
  {
    var k := IndexOf(s, '.');
    assert k == |s| && s[..k] == s;
    assert DigitsValue([]) == 0 && Pow10(0) == 1;
    assert DecimalValue(DigitsValue(s), 0, 0) == DigitsValue(s) as real;
  }

  /** Reading back a grouped integer with its commas removed gives the integer. */
  lemma FormatGroupedRoundTrip(n: nat)
    ensures ParseFloat(RemoveCommas(FormatGrouped(n))) == Some(n as real)
  {
    var ds := DigitString(n);
    DigitsHaveNoComma(ds);
    ParseWholeDigits(ds);
  }

  /** Reading back a whole-number rendering gives the value rounded to an integer. */
  lemma FormatWholeRoundTrip(x: real)
    requires x >= 0.0
    ensures ParseFloat(RemoveCommas(FormatWhole(x))) == Some(RoundHalfEven(x) as real)
  {
    FormatGroupedRoundTrip(RoundHalfEven(x));
  }

  lemma ParseDottedDigits(whole: string, frac: string)
    requires whole != [] && AllAsciiDigits(whole) && AllAsciiDigits(frac)
    ensures ParseFloat(whole + "." + frac) == Some(DecimalValue(DigitsValue(whole), DigitsValue(frac), |frac|))
  {
    var s := whole + "." + frac;
    var k := IndexOf(s, '.');
    assert s[|whole|] == '.';
    assert k == |whole|;
    assert s[..k] == whole && s[k + 1..] == frac;
  }

  lemma TwoDigitsValue(m: nat)
    requires m < 100
    ensures DigitsValue(TwoDigits(m)) == m
  {
    var frac := TwoDigits(m);
    var head := frac[..1];
    assert head == [DigitChar(m / 10)] && head[..0] == [];
    assert DigitsValue(head) == m / 10;
    assert DigitsValue(frac) == 10 * DigitsValue(head) + DigitValue(frac[1]);
  }

  lemma HundredthsValue(q: nat, m: nat)
    requires m < 100
    ensures DecimalValue(q, m, 2) == (100 * q + m) as real / 100.0
  {
    assert Pow10(2) == 100;
  }

  /** Removing the commas of a grouped integer, a dot and two digits leaves the plain digits. */
  lemma FormatFixed2Digits(q: nat, m: nat)
    requires m < 100
    ensures RemoveCommas(FormatGrouped(q) + "." + TwoDigits(m)) == DigitString(q) + "." + TwoDigits(m)
  {
    var g, t := FormatGrouped(q), TwoDigits(m);
    RemoveCommasConcat(g + ".", t);
    RemoveCommasConcat(g, ".");
    assert RemoveCommas(".") == ".";
    DigitsHaveNoComma(DigitString(q));
    DigitsHaveNoComma(t);
  }

  /** Reading back a two-decimal rendering gives the value rounded to hundredths. */
  lemma FormatFixed2RoundTrip(x: real)
    requires x >= 0.0
    ensures ParseFloat(RemoveCommas(FormatFixed2(x))) == Some(RoundHalfEven(x * 100.0) as real / 100.0)
  {
    var c := RoundHalfEven(x * 100.0);
    var q, m := c / 100, c % 100;
    assert FormatFixed2(x) == FormatGrouped(q) + "." + TwoDigits(m);
    FormatFixed2Digits(q, m);
    TwoDigitsValue(m);
    ParseDottedDigits(DigitString(q), TwoDigits(m));
    HundredthsValue(q, m);
    assert 100 * q + m == c;
  }

  /** The value a formatted quotient reads back as: itself when whole, else rounded to the cent. */
  function QuotientReadBack(x: real): (r: real)
    requires x >= 0.0
    ensures x.Floor as real == x ==> r == x
  {
    if x.Floor as real == x then x else RoundHalfEven(x * 100.0) as real / 100.0
  }

  lemma FormatQuotientRoundTrip(x: real)
    requires x >= 0.0
    ensures ParseFloat(RemoveCommas(FormatQuotient(x))) == Some(QuotientReadBack(x))
  {
    if x.Floor as real == x {
      FormatGroupedRoundTrip(x.Floor);
    } else {
      FormatFixed2RoundTrip(x);
    }
  }

  predicate IsDigitOrComma(c: char) {
    IsAsciiDigit(c) || c == ','
  }

  /** The number pattern `^[0-9,]+(\.[0-9]+)?$` of process_invoice.py:162: digits and commas,
      at least one, then optionally a dot and at least one digit. */
  predicate IsNumberToken(s: string) {
    var k := IndexOf(s, '.');
    && k > 0
    && (forall i :: 0 <= i < k ==> IsDigitOrComma(s[i]))
    && (k == |s| || (k + 1 < |s| && forall i :: k < i < |s| ==> IsAsciiDigit(s[i])))
  }

  /** A number token fails `float(s.replace(',', ''))` exactly when it is all commas
      (process_invoice.py:189). */
  lemma NumberTokenParseFailsIff(s: string)
    requires IsNumberToken(s)
    ensures ParseFloat(RemoveCommas(s)) == None <==> forall i :: 0 <= i < |s| ==> s[i] == ','
  {
    if forall i :: 0 <= i < |s| ==> s[i] == ',' {
      SelectEmptyIff(s, NotComma);
    } else {
      var k := IndexOf(s, '.');
      var wholeDigits := RemoveCommas(s[..k]);
      DigitsOrCommasClean(s[..k]);
      if k == |s| {
        var j :| 0 <= j < |s| && s[j] != ',';
        assert s[..k] == s;
        SelectKeeps(s, j, NotComma);
        ParseWholeDigits(wholeDigits);
      } else {
        NumberTokenWithFraction(s, k);
        ParseDottedOptionalWhole(wholeDigits, s[k + 1..]);
      }
    }
  }

  /** Removing the commas from digits and commas leaves digits. */
  lemma DigitsOrCommasClean(w: string)
    requires forall i :: 0 <= i < |w| ==> IsDigitOrComma(w[i])
    ensures AllAsciiDigits(RemoveCommas(w))
  {
    var r := RemoveCommas(w);
    forall i | 0 <= i < |r| ensures IsAsciiDigit(r[i]) {
      assert r[i] in w;
    }
  }

  /** A number token with a dot at `k` loses only the commas before the dot. */
  lemma NumberTokenWithFraction(s: string, k: nat)
    requires k < |s| && s[k] == '.'
    requires AllAsciiDigits(s[k + 1..])
    ensures RemoveCommas(s) == RemoveCommas(s[..k]) + "." + s[k + 1..]
  {
    var frac := s[k + 1..];
    assert s == s[..k] + ("." + frac);
    RemoveCommasConcat(s[..k], "." + frac);
    RemoveCommasConcat(".", frac);
    DigitsHaveNoComma(frac);
    assert RemoveCommas(".") == ".";
  }

  lemma ParseDottedOptionalWhole(whole: string, frac: string)
    requires AllAsciiDigits(whole) && frac != [] && AllAsciiDigits(frac)
    ensures ParseFloat(whole + "." + frac).Some?
  {
    var s := whole + "." + frac;
    var k := IndexOf(s, '.');
    assert s[|whole|] == '.';
    assert k == |whole|;
    assert s[..k] == whole && s[k + 1..] == frac;
  }
}
