/** JavaScript's `parseFloat` over exact reals: leading white space is
    skipped, an optional sign is read, then either `Infinity` or the longest
    prefix of the form `digits [. digits] [(e|E) [+|-] digits]` that holds at
    least one mantissa digit; anything after that prefix is ignored, and a
    text with no such prefix gives `NaN`. */
module JsNumber {
  import opened Strings

  datatype Number = NaN | Finite(value: real) | Infinite(negative: bool)

  function Pow10(e: nat): (r: nat)
    ensures r >= 1
  {
    if e == 0 then 1 else 10 * Pow10(e - 1)
  }

  /** The length of the run of decimal digits starting at `from`. */
  function DigitRun(s: string, from: nat): (n: nat)
    requires from <= |s|
    ensures from + n <= |s|
    ensures forall i :: from <= i < from + n ==> IsDigit(s[i])
    ensures from + n < |s| ==> !IsDigit(s[from + n])
    decreases |s| - from
  {
    if from < |s| && IsDigit(s[from]) then 1 + DigitRun(s, from + 1) else 0
  }

  /** The value of the exponent part that starts at `k`, 0 when there is
      none (an `e` without digits after it is not part of the number). */
  function ExponentAt(s: string, k: nat): int
    requires k <= |s|
  {
    if k < |s| && (s[k] == 'e' || s[k] == 'E') then
      var p := if k + 1 < |s| && (s[k + 1] == '+' || s[k + 1] == '-') then k + 2 else k + 1;
      var c := DigitRun(s, p);
      if c == 0 then 0
      else
        var v: int := DigitsValue(s[p..p + c]);
        if s[k + 1] == '-' then -v else v
    else 0
  }

  function Scale(m: real, e: int): real {
    if e >= 0 then m * Pow10(e) as real else m / Pow10(-e) as real
  }

  /** The text starts with something `parseFloat` reads as an unsigned number. */
  predicate UnsignedStart(u: string) {
    StartsWith(u, "Infinity")
    || (u != [] && IsDigit(u[0]))
    || (|u| >= 2 && u[0] == '.' && IsDigit(u[1]))
  }

  /** The text, with its leading white space removed, starts with a number. */
  predicate NumericStart(t: string) {
    UnsignedStart(t) || (t != [] && (t[0] == '+' || t[0] == '-') && UnsignedStart(t[1..]))
  }

  /** The value of the mantissa digits `u[..a]` and `u[m - b..m]` (the
      fraction, `b` digits long) scaled by the exponent that follows them. */
  function Magnitude(u: string, a: nat, b: nat, m: nat): real
    requires a <= m - b && b <= m <= |u|
    requires forall i :: 0 <= i < a ==> IsDigit(u[i])
    requires forall i :: m - b <= i < m ==> IsDigit(u[i])
  {
    var digits := u[..a] + u[m - b..m];
    assert forall i :: 0 <= i < |digits| ==> IsDigit(digits[i]) by {
      forall i | 0 <= i < |digits| ensures IsDigit(digits[i]) {
        if i >= a { assert digits[i] == u[m - b + (i - a)]; }
      }
    }
    Scale(DigitsValue(digits) as real / Pow10(b) as real, ExponentAt(u, m))
  }

  /** The decimal number at the front of a text, or `NaN` when the text
      holds no mantissa digit before its first other character. */
  function DecimalAt(u: string): (r: Number)
    ensures r == NaN <==> !((u != [] && IsDigit(u[0])) || (|u| >= 2 && u[0] == '.' && IsDigit(u[1])))
    ensures r != NaN ==> r.Finite?
  {
    var a := DigitRun(u, 0);
    var dot := a < |u| && u[a] == '.';
    var b := if dot then DigitRun(u, a + 1) else 0;
    if a + b == 0 then NaN
    else Finite(Magnitude(u, a, b, if dot then a + 1 + b else a))
  }

  /** The number at the front of a text that starts after the sign. */
  function ParseUnsigned(u: string): (r: Number)
    ensures r == NaN <==> !UnsignedStart(u)
    ensures r.Infinite? ==> !r.negative
  {
    if StartsWith(u, "Infinity") then Infinite(false) else DecimalAt(u)
  }

  function Negate(n: Number): Number {
    match n
    case NaN => NaN
    case Finite(v) => Finite(-v)
    case Infinite(neg) => Infinite(!neg)
  }

  function ParseSigned(t: string): Number {
    if t != [] && t[0] == '-' then Negate(ParseUnsigned(t[1..]))
    else if t != [] && t[0] == '+' then ParseUnsigned(t[1..])
    else ParseUnsigned(t)
  }

  /** `parseFloat(s)` */
  function ParseFloat(s: string): (r: Number)
    ensures r == NaN <==> !NumericStart(TrimStart(s))
  {
    ParseSigned(TrimStart(s))
  }

  /** `!isNaN(parseFloat(s))` */
  predicate LooksNumeric(s: string) {
    ParseFloat(s) != NaN
  }

  /** `!isNaN(n) && isFinite(n)` for `n = parseFloat(s)` */
  predicate IsFiniteNumber(s: string) {
    ParseFloat(s).Finite?
  }

  /** The digit run of a text that is `n` digits followed by a non-digit. */
  lemma DigitRunIs(s: string, from: nat, n: nat)
    requires from + n <= |s|
    requires forall i :: from <= i < from + n ==> IsDigit(s[i])
    requires from + n < |s| ==> !IsDigit(s[from + n])
    ensures DigitRun(s, from) == n
  {
  }

  /** The decimal text of a natural number reads back as that number, also
      when a unit or other text that cannot continue a number follows it
      (`"21 W"` reads as 21). */
  lemma {:induction false} NatTextParses(n: nat, rest: string)
    requires rest == [] || !(IsDigit(rest[0]) || rest[0] == '.' || rest[0] == 'e' || rest[0] == 'E')
    ensures ParseFloat(NatText(n) + rest) == Finite(n as real)
  {
    var s := NatText(n) + rest;
    var k := |NatText(n)|;
    assert IsDigit(s[0]);
    assert TrimStart(s) == s;
    assert !StartsWith(s, "Infinity");
    DigitRunIs(s, 0, k);
    assert s[..k] + s[k..k] == NatText(n);
    NatTextValue(n);
    assert ExponentAt(s, k) == 0;
    assert Magnitude(s, k, 0, k) == n as real;
  }

  /** The decimal text of an integer reads back as that integer. */
  lemma {:induction false} IntTextParses(i: int)
    ensures ParseFloat(IntText(i)) == Finite(i as real)
  {
    if i >= 0 {
      NatTextParses(i, []);
      assert NatText(i) + [] == NatText(i);
    } else {
      var t := IntText(i);
      assert TrimStart(t) == t;
      assert t[1..] == NatText(-i);
      NatTextParses(-i, []);
      assert NatText(-i) + [] == NatText(-i);
      assert ParseUnsigned(NatText(-i)) == Finite((-i) as real);
    }
  }

  lemma {:induction false} LeadingSpacesShift(c: char, s: string, from: nat)
    requires from <= |s|
    ensures LeadingSpaces([c] + s, from + 1) == LeadingSpaces(s, from)
    decreases |s| - from
  {
    if from < |s| {
      assert ([c] + s)[from + 1] == s[from];
      LeadingSpacesShift(c, s, from + 1);
    }
  }

  /** White space in front of a number is ignored. */
  lemma {:induction false} LeadingSpaceIgnored(c: char, s: string)
    requires IsSpace(c)
    ensures ParseFloat([c] + s) == ParseFloat(s)
  {
    LeadingSpacesShift(c, s, 0);
    assert ([c] + s)[1 + LeadingSpaces(s, 0)..] == s[LeadingSpaces(s, 0)..];
  }

  /** A word such as `on`, `off`, `unavailable` or `unknown` is not a number. */
  lemma WordIsNaN(s: string)
    requires s != [] && (IsLower(s[0]) || (IsUpper(s[0]) && s[0] != 'I'))
    ensures ParseFloat(s) == NaN
  {
    assert TrimStart(s) == s;
    assert !StartsWith(s, "Infinity") by {
      if |s| >= 8 {
        assert s[..8][0] == s[0] != 'I';
      }
    }
    assert !UnsignedStart(s);
    assert !NumericStart(s);
  }

  /** A leading minus sign negates the number that follows it. */
  lemma {:induction false} MinusNegates(u: string)
    requires UnsignedStart(u) && !StartsWith(u, "Infinity")
    ensures ParseFloat("-" + u) == Negate(ParseFloat(u))
  {
    assert TrimStart("-" + u) == "-" + u;
    assert ("-" + u)[1..] == u;
    assert TrimStart(u) == u;
  }
}
