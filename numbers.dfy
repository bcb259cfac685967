/** JavaScript numbers as they cross the string boundary: `Number(string)` restricted to plain decimal
    notation, and `Number.prototype.toString` restricted to plain decimal output. Numbers are `real`;
    `None` stands for `NaN`. */
module Numbers {
  import opened Wrappers
  import opened Text

  predicate IsDigit(c: char) {
    '0' <= c <= '9'
  }

  predicate AllDigits(s: string) {
    forall k :: 0 <= k < |s| ==> IsDigit(s[k])
  }

  function DigitChar(d: nat): (c: char)
    requires d < 10
    ensures IsDigit(c) && c as int - '0' as int == d
  {
    ('0' as int + d) as char
  }

  /** The value of a string of decimal digits, most significant first ("" is 0). */
  function DigitsValue(s: string): nat
    requires AllDigits(s)
    decreases |s|
  {
    if s == [] then 0 else DigitsValue(s[..|s| - 1]) * 10 + (s[|s| - 1] as int - '0' as int)
  }

  function Pow10(n: nat): (p: nat)
    ensures p >= 1
  {
    if n == 0 then 1 else 10 * Pow10(n - 1)
  }

  /** The decimal digits of `n` without leading zeros ("0" for zero). */
  function NatToDigits(n: nat): (r: string)
    ensures |r| >= 1 && AllDigits(r)
    ensures DigitsValue(r) == n
    ensures |r| > 1 ==> r[0] != '0'
    decreases n
  {
    if n < 10 then [DigitChar(n)]
    else
      var r := NatToDigits(n / 10) + [DigitChar(n % 10)];
      assert r[..|r| - 1] == NatToDigits(n / 10);
      r
  }

  /** `n` written with exactly `width` digits, padded with leading zeros. */
  function PaddedDigits(n: nat, width: nat): (r: string)
    requires n < Pow10(width)
    ensures |r| == width && AllDigits(r)
    ensures DigitsValue(r) == n
    decreases width
  {
    if width == 0 then []
    else
      var r := PaddedDigits(n / 10, width - 1) + [DigitChar(n % 10)];
      assert r[..|r| - 1] == PaddedDigits(n / 10, width - 1);
      r
  }

  /** Position of the first `c` in `s`, or `|s|` when there is none. */
  function IndexOf(s: string, c: char): (i: nat)
    ensures i <= |s|
    ensures i < |s| ==> s[i] == c
    ensures forall k :: 0 <= k < i ==> s[k] != c
  {
    if s == [] then 0
    else if s[0] == c then 0
    else 1 + IndexOf(s[1..], c)
  }

  /** Unsigned decimal notation: digits, optionally a point and more digits, at least one digit in all
      ("5", "5.", ".5", "2.50"). */
  function ParseUnsigned(s: string): (r: Option<real>)
    ensures r.Some? ==> r.value >= 0.0
  {
    var d := IndexOf(s, '.');
    var whole := s[..d];
    var frac := if d < |s| then s[d + 1..] else [];
    if AllDigits(whole) && AllDigits(frac) && |whole| + |frac| > 0 then
      Some(DecimalValue(DigitsValue(whole), DigitsValue(frac), |frac|))
    else None
  }

  /** The number written `whole.frac` where `frac` has `places` digits. */
  function DecimalValue(whole: nat, frac: nat, places: nat): (v: real)
    ensures v >= 0.0
  {
    whole as real + frac as real / Pow10(places) as real
  }

  /** `Number(s)` on decimal strings: surrounding white space is ignored, a blank string is 0, an
      optional sign precedes unsigned decimal notation, and anything else is `NaN` (`None`). */
  function ParseNumber(s: string): Option<real>
  {
    var t := Trim(s);
    if t == [] then Some(0.0)
    else if t[0] == '-' then
      match ParseUnsigned(t[1..])
      case Some(v) => Some(-v)
      case None => None
    else if t[0] == '+' then ParseUnsigned(t[1..])
    else ParseUnsigned(t)
  }

  /** Most fraction digits the renderer writes. */
  const MaxPlaces: nat := 20

  predicate IsInteger(x: real) {
    x == x.Floor as real
  }

  function Abs(x: real): real {
    if x < 0.0 then -x else x
  }

  /** `x * 10^e`. */
  function Scaled(x: real, e: nat): real {
    x * Pow10(e) as real
  }

  /** `e` fraction digits write `x` exactly. */
  predicate ExactAt(x: real, e: nat) {
    IsInteger(Scaled(x, e))
  }

  /** `x` needs no more than `MaxPlaces` fraction digits. */
  ghost predicate HasDecimalForm(x: real) {
    exists e: nat :: e <= MaxPlaces && ExactAt(Abs(x), e)
  }

  /** The fewest fraction digits, from `e` up to `MaxPlaces`, that write `x` exactly. */
  function Places(x: real, e: nat): (p: nat)
    ensures e <= p
    ensures e <= MaxPlaces ==> p <= MaxPlaces
    decreases MaxPlaces - e
  {
    if e >= MaxPlaces || ExactAt(x, e) then e else Places(x, e + 1)
  }

  lemma DivMod(m: int, p: int)
    requires m >= 0 && p >= 1
    ensures m / p >= 0 && 0 <= m % p < p && m == (m / p) * p + m % p
  {
  }

  lemma ScaledNonneg(x: real, e: nat)
    requires x >= 0.0
    ensures Scaled(x, e) >= 0.0
  {
  }

  /** The digits of `m / 10^e`, then, when `e` is positive, a point and the `e` digits of the
      remainder. */
  function ScaledDigits(m: nat, e: nat): string {
    DivMod(m, Pow10(e));
    if e == 0 then NatToDigits(m)
    else NatToDigits(m / Pow10(e)) + "." + PaddedDigits(m % Pow10(e), e)
  }

  /** `toString` of a non-negative number: integer digits, then a point and the fraction when there is one. */
  function RenderUnsigned(x: real): string
    requires x >= 0.0
  {
    var e := Places(x, 0);
    ScaledNonneg(x, e);
    ScaledDigits(Scaled(x, e).Floor, e)
  }

  /** `Number.prototype.toString()` in plain decimal notation. */
  function Render(x: real): string {
    if x < 0.0 then "-" + RenderUnsigned(-x) else RenderUnsigned(x)
  }

  lemma {:induction false} PlacesExact(x: real, e: nat, e0: nat)
    requires e <= e0 <= MaxPlaces && ExactAt(x, e0)
    ensures ExactAt(x, Places(x, e))
    decreases e0 - e
  {
    if e < e0 && !ExactAt(x, e) {
      PlacesExact(x, e + 1, e0);
    }
  }

  lemma IndexOfAfterDigits(a: string, b: string)
    requires AllDigits(a)
    ensures IndexOf(a + "." + b, '.') == |a|
  {
    var s := a + "." + b;
    assert forall k :: 0 <= k < |a| ==> s[k] == a[k];
    assert s[|a|] == '.';
  }

  lemma ParseUnsignedDigits(s: string)
    requires s != [] && AllDigits(s)
    ensures ParseUnsigned(s) == Some(DigitsValue(s) as real)
  {
    var d := IndexOf(s, '.');
    assert forall k :: 0 <= k < |s| ==> s[k] != '.';
    assert s[..d] == s;
    assert DecimalValue(DigitsValue(s), DigitsValue([]), 0) == DigitsValue(s) as real;
  }

  lemma ParseUnsignedPoint(a: string, b: string)
    requires AllDigits(a) && AllDigits(b) && b != []
    ensures ParseUnsigned(a + "." + b) == Some(DecimalValue(DigitsValue(a), DigitsValue(b), |b|))
  {
    var s := a + "." + b;
    IndexOfAfterDigits(a, b);
    assert s[..|a|] == a;
    assert s[|a| + 1..] == b;
  }

  /** The scaled digits read back as the quotient and remainder they write. */
  lemma ParseScaledDigits(m: nat, e: nat)
    ensures Pow10(e) >= 1
    ensures ParseUnsigned(ScaledDigits(m, e)) == Some(DecimalValue(m / Pow10(e), m % Pow10(e), e))
  {
    DivMod(m, Pow10(e));
    if e == 0 {
      ParseUnsignedDigits(NatToDigits(m));
    } else {
      ParseUnsignedPoint(NatToDigits(m / Pow10(e)), PaddedDigits(m % Pow10(e), e));
    }
  }

  lemma ScaledDigitsEnds(m: nat, e: nat)
    ensures var t := ScaledDigits(m, e); |t| >= 1 && IsDigit(t[0]) && IsDigit(t[|t| - 1])
  {
    DivMod(m, Pow10(e));
    if e > 0 {
      var a := NatToDigits(m / Pow10(e));
      var b := PaddedDigits(m % Pow10(e), e);
      assert ScaledDigits(m, e) == a + "." + b;
    }
  }

  /** x = m / p with m = q * p + r gives x = q + r / p. */
  lemma DecimalSplit(x: real, m: int, e: nat, q: nat, r: nat)
    requires Scaled(x, e) == m as real && m == q * Pow10(e) + r
    ensures x == DecimalValue(q, r, e)
  {
    var p := Pow10(e);
    var P := p as real;
    assert (q * p) as real == q as real * P;
    assert x * P == q as real * P + r as real;
    assert (x - q as real) * P == r as real;
    assert x - q as real == r as real / P;
  }

  /** When `e` fraction digits write `x` exactly, the quotient and remainder of the scaled value
      `m` make up `x`. */
  lemma ScaledValue(x: real, e: nat, m: nat, q: nat, r: nat)
    requires ExactAt(x, e) && m == Scaled(x, e).Floor
    requires q == m / Pow10(e) && r == m % Pow10(e)
    ensures x == DecimalValue(q, r, e)
  {
    assert m as real == Scaled(x, e);
    DivMod(m, Pow10(e));
    DecimalSplit(x, m, e, q, r);
  }

  lemma {:induction false} ParseRenderUnsigned(x: real)
    requires x >= 0.0 && HasDecimalForm(x)
    ensures ParseUnsigned(RenderUnsigned(x)) == Some(x)
  {
    var e0: nat :| e0 <= MaxPlaces && ExactAt(Abs(x), e0);
    var e := Places(x, 0);
    PlacesExact(x, 0, e0);
    ScaledNonneg(x, e);
    var m: nat := Scaled(x, e).Floor;
    DivMod(m, Pow10(e));
    ScaledValue(x, e, m, m / Pow10(e), m % Pow10(e));
    ParseScaledDigits(m, e);
  }

  lemma RenderUnsignedEnds(x: real)
    requires x >= 0.0
    ensures var t := RenderUnsigned(x); |t| >= 1 && IsDigit(t[0]) && IsDigit(t[|t| - 1])
  {
    var e := Places(x, 0);
    ScaledNonneg(x, e);
    ScaledDigitsEnds(Scaled(x, e).Floor, e);
  }

  /** Unsigned notation that starts and ends with a digit reads the same through `Number`. */
  lemma ParsePlain(t: string)
    requires |t| >= 1 && IsDigit(t[0]) && IsDigit(t[|t| - 1])
    ensures ParseNumber(t) == ParseUnsigned(t)
  {
    TrimOfTrimmed(t);
    assert t[0] != '-' && t[0] != '+';
  }

  /** With a minus sign in front it reads as the negated value. */
  lemma ParseMinus(t: string, v: real)
    requires |t| >= 1 && IsDigit(t[0]) && IsDigit(t[|t| - 1])
    requires ParseUnsigned(t) == Some(v)
    ensures ParseNumber("-" + t) == Some(-v)
  {
    var s := "-" + t;
    assert s[|s| - 1] == t[|t| - 1];
    TrimOfTrimmed(s);
    assert s[0] == '-' && s[1..] == t;
  }

  /** Writing a number and reading it back gives the same number. */
  lemma {:induction false} ParseRender(x: real)
    requires HasDecimalForm(x)
    ensures ParseNumber(Render(x)) == Some(x)
  {
    var u := Abs(x);
    assert HasDecimalForm(u) by {
      var e0: nat :| e0 <= MaxPlaces && ExactAt(Abs(x), e0);
      assert Abs(u) == u;
    }
    ParseRenderUnsigned(u);
    RenderUnsignedEnds(u);
    var t := RenderUnsigned(u);
    if x < 0.0 {
      ParseMinus(t, u);
    } else {
      ParsePlain(t);
    }
  }

  /** A string of digits reads as its decimal value. */
  lemma ParseDigits(s: string)
    requires s != [] && AllDigits(s)
    ensures ParseNumber(s) == Some(DigitsValue(s) as real)
  {
    ParseUnsignedDigits(s);
    ParsePlain(s);
  }

  /** A blank string reads as 0. */
  lemma ParseBlank(s: string)
    requires Trim(s) == []
    ensures ParseNumber(s) == Some(0.0)
  {
  }
}
