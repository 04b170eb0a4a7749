/** The JavaScript string operations the core relies on (trim, startsWith,
    endsWith, indexOf, lastIndexOf, includes, split, join, toLowerCase and
    number-to-text), over `seq<char>`. Whitespace and letter case are ASCII
    only. */
module Strings {

  /** The ASCII characters that `String.prototype.trim` and the regular
      expression class `\s` treat as white space. */
  predicate IsSpace(c: char) {
    c == ' ' || c == '\t' || c == '\n' || c == '\r' || c == '\U{B}' || c == '\U{C}'
  }

  predicate IsDigit(c: char) { '0' <= c <= '9' }

  predicate IsUpper(c: char) { 'A' <= c <= 'Z' }

  predicate IsLower(c: char) { 'a' <= c <= 'z' }

  /** The number of white-space characters from position `from` on. */
  function LeadingSpaces(s: string, from: nat): (n: nat)
    requires from <= |s|
    ensures from + n <= |s|
    ensures forall i :: from <= i < from + n ==> IsSpace(s[i])
    ensures from + n < |s| ==> !IsSpace(s[from + n])
    decreases |s| - from
  {
    if from < |s| && IsSpace(s[from]) then 1 + LeadingSpaces(s, from + 1) else 0
  }

  /** The number of white-space characters right before position `upto`. */
  function TrailingSpaces(s: string, upto: nat): (n: nat)
    requires upto <= |s|
    ensures n <= upto
    ensures forall i :: upto - n <= i < upto ==> IsSpace(s[i])
    ensures n < upto ==> !IsSpace(s[upto - n - 1])
    decreases upto
  {
    if upto > 0 && IsSpace(s[upto - 1]) then 1 + TrailingSpaces(s, upto - 1) else 0
  }

  function TrimStart(s: string): (r: string)
    ensures r == [] || !IsSpace(r[0])
  {
    s[LeadingSpaces(s, 0)..]
  }

  function TrimEnd(s: string): (r: string)
    ensures r == [] || !IsSpace(r[|r| - 1])
  {
    s[..|s| - TrailingSpaces(s, |s|)]
  }

  /** `s.trim()` */
  function Trim(s: string): (r: string)
    ensures |r| <= |s|
    ensures r == [] || (!IsSpace(r[0]) && !IsSpace(r[|r| - 1]))
  {
    TrimEnd(TrimStart(s))
  }

  /** A string that neither starts nor ends with white space. */
  predicate Trimmed(s: string) {
    s == [] || (!IsSpace(s[0]) && !IsSpace(s[|s| - 1]))
  }

  lemma TrimOfTrimmed(s: string)
    requires Trimmed(s)
    ensures Trim(s) == s
  {
  }

  lemma TrimIsTrimmed(s: string)
    ensures Trimmed(Trim(s))
  {
  }

  /** Trimming yields the empty string exactly when every character is white space. */
  lemma TrimEmptyIffBlank(s: string)
    ensures Trim(s) == [] <==> forall i :: 0 <= i < |s| ==> IsSpace(s[i])
  {
    var n := LeadingSpaces(s, 0);
    if n < |s| {
      var t := TrimStart(s);
      assert t[0] == s[n];
      assert |TrimEnd(t)| > 0;
    }
  }

  /** Surrounding white space is exactly what trimming removes. */
  lemma TrimPadded(pre: string, t: string, post: string)
    requires forall i :: 0 <= i < |pre| ==> IsSpace(pre[i])
    requires forall i :: 0 <= i < |post| ==> IsSpace(post[i])
    requires t != [] && Trimmed(t)
    ensures Trim(pre + t + post) == t
  {
    var s := pre + t + post;
    var a := TrimStart(s);
    assert !IsSpace(s[|pre|]) && forall i :: 0 <= i < |pre| ==> IsSpace(s[i]);
    assert a == t + post;
    var b := TrimEnd(a);
    assert !IsSpace(a[|t| - 1]) && forall i :: |t| <= i < |a| ==> IsSpace(a[i]);
    assert b == a[..|t|] == t;
  }

  /** Trimming twice is trimming once. */
  lemma TrimIdempotent(s: string)
    ensures Trim(Trim(s)) == Trim(s)
  {
    TrimIsTrimmed(s);
    TrimOfTrimmed(Trim(s));
  }

  /** When a string does not start with white space, trimming only shortens it
      at the end. */
  lemma TrimOfLeftTrimmed(s: string)
    requires s == [] || !IsSpace(s[0])
    ensures Trim(s) == TrimEnd(s)
  {
  }

  /** A trimmed string followed by one non-space character is still trimmed. */
  lemma TrimmedAppend(s: string, c: char)
    requires Trimmed(s) && !IsSpace(c)
    ensures Trimmed(s + [c])
  {
  }

  /** `s.startsWith(p)` */
  predicate StartsWith(s: string, p: string) {
    |p| <= |s| && s[..|p|] == p
  }

  /** `s.endsWith(p)` */
  predicate EndsWith(s: string, p: string) {
    |p| <= |s| && s[|s| - |p|..] == p
  }

  /** A text made of two parts starts with the first and ends with the
      second. */
  lemma Frame2(a: string, b: string)
    ensures StartsWith(a + b, a) && EndsWith(a + b, b)
  {
    assert (a + b)[..|a|] == a;
    assert (a + b)[|a + b| - |b|..] == b;
  }

  /** A text made of three parts starts with the first, ends with the last
      and holds the middle one between them. */
  lemma Frame3(a: string, b: string, c: string)
    ensures var r := a + b + c;
      && StartsWith(r, a) && EndsWith(r, c) && |r| == |a| + |b| + |c|
      && r[|a|..|a| + |b|] == b
  {
    var r := a + b + c;
    assert r[..|a|] == a;
    assert r[|r| - |c|..] == c;
    assert r[|a|..|a| + |b|] == b;
  }

  /** `h + d + y + z` starts with `h` and ends with `y + z`. */
  lemma Frame4(h: string, d: string, y: string, z: string)
    ensures StartsWith(h + d + y + z, h) && EndsWith(h + d + y + z, y + z)
  {
    var r := h + d + y + z;
    assert r[..|h|] == h;
    assert r[|r| - |y + z|..] == y + z;
  }

  /** A character in neither the parts nor the separator is not in their
      join. */
  lemma {:induction false} JoinAvoids(parts: seq<string>, sep: string, c: char)
    ensures c !in sep && (forall i :: 0 <= i < |parts| ==> c !in parts[i]) ==> c !in Join(parts, sep)
    decreases |parts|
  {
    if |parts| > 1 {
      JoinAvoids(parts[1..], sep, c);
      assert forall i :: 0 <= i < |parts| - 1 ==> parts[1..][i] == parts[i + 1];
    }
  }

  function IndexOf(s: string, c: char): (k: int)
    ensures -1 <= k < |s|
    ensures k >= 0 ==> s[k] == c && c !in s[..k]
    ensures k == -1 <==> c !in s
  {
    if s == [] then -1
    else if s[0] == c then 0
    else
      var k := IndexOf(s[1..], c);
      assert s[1..][..if k < 0 then 0 else k] == s[1..if k < 0 then 1 else k + 1];
      if k == -1 then -1 else k + 1
  }

  /** `s.lastIndexOf(c)`: the last position of `c`, or -1. */
  function LastIndexOf(s: string, c: char): (k: int)
    ensures -1 <= k < |s|
    ensures k >= 0 ==> s[k] == c
    ensures forall j :: k < j < |s| ==> s[j] != c
    decreases |s|
  {
    if s == [] then -1
    else if s[|s| - 1] == c then |s| - 1
    else LastIndexOf(s[..|s| - 1], c)
  }

  /** `t` occurs in `s` starting at position `k`. */
  predicate OccursAt(s: string, t: string, k: int) {
    0 <= k && k + |t| <= |s| && s[k..k + |t|] == t
  }

  /** `s.indexOf(t)` for a string needle: the first position where `t` occurs, or -1. */
  function Find(s: string, t: string): (k: int)
    ensures -1 <= k <= |s|
    ensures k >= 0 ==> OccursAt(s, t, k)
    ensures forall j :: 0 <= j && (k == -1 || j < k) ==> !OccursAt(s, t, j)
  {
    FindFrom(s, t, 0)
  }

  function FindFrom(s: string, t: string, from: nat): (k: int)
    requires from <= |s|
    ensures -1 <= k <= |s|
    ensures k >= 0 ==> from <= k && OccursAt(s, t, k)
    ensures forall j :: from <= j && (k == -1 || j < k) ==> !OccursAt(s, t, j)
    decreases |s| - from
  {
    if from + |t| > |s| then -1
    else if s[from..from + |t|] == t then from
    else if from == |s| then -1
    else FindFrom(s, t, from + 1)
  }

  /** `s.indexOf(t)` is the position of an occurrence with none before it. */
  lemma FindIs(s: string, t: string, k: int)
    requires OccursAt(s, t, k)
    requires forall j :: 0 <= j < k ==> !OccursAt(s, t, j)
    ensures Find(s, t) == k
  {
  }

  /** `s.includes(t)` */
  predicate Contains(s: string, t: string) {
    Find(s, t) >= 0
  }

  lemma ContainsIff(s: string, t: string)
    ensures Contains(s, t) <==> exists k :: OccursAt(s, t, k)
  {
  }

  /** ASCII `toLowerCase` of one character. */
  function LowerChar(c: char): (r: char)
    ensures IsUpper(c) ==> IsLower(r) && r as int == c as int + 32
    ensures !IsUpper(c) ==> r == c
  {
    if IsUpper(c) then (c as int + 32) as char else c
  }

  /** ASCII `s.toLowerCase()` */
  function Lower(s: string): (r: string)
    ensures |r| == |s|
    ensures forall i :: 0 <= i < |s| ==> r[i] == LowerChar(s[i])
  {
    seq(|s|, i requires 0 <= i < |s| => LowerChar(s[i]))
  }

  lemma LowerPrefix(s: string, n: nat)
    requires n <= |s|
    ensures Lower(s)[..n] == Lower(s[..n])
  {
  }

  /** `parts.join(sep)` */
  function Join(parts: seq<string>, sep: string): (r: string)
    ensures |parts| == 1 ==> r == parts[0]
    decreases |parts|
  {
    if parts == [] then ""
    else if |parts| == 1 then parts[0]
    else parts[0] + sep + Join(parts[1..], sep)
  }

  /** `s.split(sep)` for a non-empty separator: the pieces between successive
      leftmost occurrences of `sep`. */
  function Split(s: string, sep: string): (parts: seq<string>)
    requires |sep| > 0
    ensures |parts| >= 1
    decreases |s|
  {
    var k := Find(s, sep);
    if k < 0 then [s] else [s[..k]] + Split(s[k + |sep|..], sep)
  }

  /** Joining the pieces with the separator gives back the original string. */
  lemma {:induction false} JoinSplit(s: string, sep: string)
    requires |sep| > 0
    ensures Join(Split(s, sep), sep) == s
    decreases |s|
  {
    var k := Find(s, sep);
    if k >= 0 {
      var rest := s[k + |sep|..];
      var parts := Split(s, sep);
      assert parts == [s[..k]] + Split(rest, sep);
      assert parts[1..] == Split(rest, sep);
      assert Join(parts, sep) == s[..k] + sep + Join(Split(rest, sep), sep);
      JoinSplit(rest, sep);
      assert s[k..k + |sep|] == sep;
      assert s == s[..k] + s[k..k + |sep|] + rest;
    }
  }

  /** No piece of a split contains the separator. */
  lemma {:induction false} SplitPiecesFree(s: string, sep: string, i: int)
    requires |sep| > 0
    requires 0 <= i < |Split(s, sep)|
    ensures !Contains(Split(s, sep)[i], sep)
    decreases |s|
  {
    var k := Find(s, sep);
    if k >= 0 {
      if i == 0 {
        var p := s[..k];
        if Contains(p, sep) {
          OccursInPrefix(s, sep, k, Find(p, sep));
          assert false;
        }
      } else {
        SplitPiecesFree(s[k + |sep|..], sep, i - 1);
      }
    }
  }

  /** An occurrence in a prefix is an occurrence in the whole string. */
  lemma OccursInPrefix(s: string, t: string, k: int, j: int)
    requires 0 <= k <= |s| && OccursAt(s[..k], t, j)
    ensures OccursAt(s, t, j)
  {
    assert s[j..j + |t|] == s[..k][j..j + |t|];
  }

  /** Splitting lines joined by a one-character separator that none of them
      contains gives the lines back. */
  lemma {:induction false} SplitJoin(parts: seq<string>, c: char)
    requires |parts| >= 1
    requires forall i :: 0 <= i < |parts| ==> c !in parts[i]
    ensures Split(Join(parts, [c]), [c]) == parts
    decreases |parts|
  {
    var s := Join(parts, [c]);
    var p := parts[0];
    assert s[..|p|] == p;
    forall j | 0 <= j < |p| ensures !OccursAt(s, [c], j) {
      assert s[j] == p[j] != c;
      assert s[j..j + 1] == [s[j]];
    }
    if |parts| == 1 {
      assert Find(s, [c]) < 0;
    } else {
      var rest := Join(parts[1..], [c]);
      assert s == p + [c] + rest;
      assert OccursAt(s, [c], |p|);
      FindIs(s, [c], |p|);
      assert s[|p| + 1..] == rest;
      SplitJoin(parts[1..], c);
      assert parts == [p] + parts[1..];
    }
  }

  /** A string that contains no separator splits into itself alone. */
  lemma SplitNoSeparator(s: string, sep: string)
    requires |sep| > 0 && !Contains(s, sep)
    ensures Split(s, sep) == [s]
  {
  }

  function DigitChar(d: nat): (c: char)
    requires d < 10
    ensures IsDigit(c) && c as int - '0' as int == d
  {
    (('0' as int) + d) as char
  }

  /** The decimal text of a natural number, as `String(n)` prints it. */
  function NatText(n: nat): (r: string)
    ensures |r| >= 1
    ensures forall i :: 0 <= i < |r| ==> IsDigit(r[i])
    ensures r[0] == '0' ==> n == 0
  {
    if n < 10 then [DigitChar(n)] else NatText(n / 10) + [DigitChar(n % 10)]
  }

  /** The decimal text of an integer, as `String(i)` prints it. */
  function IntText(i: int): (r: string)
    ensures |r| >= 1
    ensures i >= 0 ==> r == NatText(i)
    ensures i < 0 ==> r == "-" + NatText(-i)
  {
    if i < 0 then "-" + NatText(-i) else NatText(i)
  }

  /** The value of a string of decimal digits. */
  function DigitsValue(s: string): nat
    requires forall i :: 0 <= i < |s| ==> IsDigit(s[i])
    decreases |s|
  {
    if s == [] then 0
    else
      assert IsDigit(s[|s| - 1]);
      DigitsValue(s[..|s| - 1]) * 10 + (s[|s| - 1] as int - '0' as int)
  }

  /** Reading back the decimal text of `n` gives `n`. */
  lemma {:induction false} NatTextValue(n: nat)
    ensures DigitsValue(NatText(n)) == n
  {
    if n >= 10 {
      NatTextValue(n / 10);
      var r := NatText(n);
      assert r[..|r| - 1] == NatText(n / 10);
    }
  }

  /** JavaScript's `Math.round`: the nearest integer, halves rounded up. */
  function Round(x: real): (r: int)
    ensures x - 0.5 < r as real <= x + 0.5
  {
    (x + 0.5).Floor
  }

  /** `n` tenths written with one decimal place. */
  function TenthsFixed(n: nat): string {
    NatText(n / 10) + "." + [DigitChar(n % 10)]
  }

  /** `x.toFixed(1)`: the sign, then the magnitude rounded to the nearest
      tenth (ties away from zero) with exactly one decimal place. */
  function Fixed1(x: real): (r: string)
    ensures x >= 0.0 ==> r == TenthsFixed(Round(x * 10.0))
    ensures x < 0.0 ==> r == "-" + TenthsFixed(Round(-x * 10.0))
  {
    if x < 0.0 then "-" + TenthsFixed(Round(-x * 10.0)) else TenthsFixed(Round(x * 10.0))
  }

  /** How JavaScript prints the number `k / 10`: no decimal part when it is
      whole, otherwise one decimal digit. */
  function TenthsText(k: int): (r: string)
    ensures k >= 0 && k % 10 == 0 ==> r == NatText(k / 10)
  {
    var a := if k < 0 then -k else k;
    var body := if a % 10 == 0 then NatText(a / 10) else NatText(a / 10) + "." + [DigitChar(a % 10)];
    if k < 0 then "-" + body else body
  }
}
