/** Orderings: SQLite's default (BINARY) text collation, and a sort by a
    total preorder, which stands for both `ORDER BY` and
    `Array.prototype.sort` with a comparator. */
module Sorting {
  import opened Wrappers

  /** Code-point lexicographic order; for UTF-8 text this is the byte order
      that SQLite's BINARY collation compares. */
  predicate StrLe(a: string, b: string)
    decreases |a|
  {
    if a == [] then true
    else if b == [] then false
    else if a[0] != b[0] then a[0] < b[0]
    else StrLe(a[1..], b[1..])
  }

  predicate StrLt(a: string, b: string) {
    StrLe(a, b) && a != b
  }

  lemma {:induction false} StrLeRefl(a: string)
    ensures StrLe(a, a)
    decreases |a|
  {
    if a != [] { StrLeRefl(a[1..]); }
  }

  lemma {:induction false} StrLeTotal(a: string, b: string)
    ensures StrLe(a, b) || StrLe(b, a)
    decreases |a|
  {
    if a != [] && b != [] && a[0] == b[0] { StrLeTotal(a[1..], b[1..]); }
  }

  lemma {:induction false} StrLeTrans(a: string, b: string, c: string)
    requires StrLe(a, b) && StrLe(b, c)
    ensures StrLe(a, c)
    decreases |a|
  {
    if a != [] && b != [] && c != [] && a[0] == b[0] && b[0] == c[0] {
      StrLeTrans(a[1..], b[1..], c[1..]);
    }
  }

  lemma {:induction false} StrLeAntisym(a: string, b: string)
    requires StrLe(a, b) && StrLe(b, a)
    ensures a == b
    decreases |a|
  {
    if a != [] && b != [] {
      StrLeAntisym(a[1..], b[1..]);
      assert a == [a[0]] + a[1..] && b == [b[0]] + b[1..];
    }
  }

  /** SQLite orders NULL before every text value. */
  predicate OptStrLe(a: Option<string>, b: Option<string>) {
    a.None? || (b.Some? && StrLe(a.value, b.value))
  }

  lemma OptStrLeTotal(a: Option<string>, b: Option<string>)
    ensures OptStrLe(a, b) || OptStrLe(b, a)
  {
    if a.Some? && b.Some? { StrLeTotal(a.value, b.value); }
  }

  lemma OptStrLeTrans(a: Option<string>, b: Option<string>, c: Option<string>)
    requires OptStrLe(a, b) && OptStrLe(b, c)
    ensures OptStrLe(a, c)
  {
    if a.Some? { StrLeTrans(a.value, b.value, c.value); }
  }

  lemma OptStrLeAntisym(a: Option<string>, b: Option<string>)
    requires OptStrLe(a, b) && OptStrLe(b, a)
    ensures a == b
  {
    if a.Some? { StrLeAntisym(a.value, b.value); }
  }

  /** The order of `ORDER BY x, y` on two nullable text columns. */
  predicate OptPairLe(a: (Option<string>, Option<string>), b: (Option<string>, Option<string>)) {
    (OptStrLe(a.0, b.0) && a.0 != b.0) || (a.0 == b.0 && OptStrLe(a.1, b.1))
  }

  lemma OptPairLeTotal(a: (Option<string>, Option<string>), b: (Option<string>, Option<string>))
    ensures OptPairLe(a, b) || OptPairLe(b, a)
  {
    OptStrLeTotal(a.0, b.0);
    OptStrLeTotal(a.1, b.1);
  }

  lemma OptPairLeTrans(a: (Option<string>, Option<string>), b: (Option<string>, Option<string>),
                       c: (Option<string>, Option<string>))
    requires OptPairLe(a, b) && OptPairLe(b, c)
    ensures OptPairLe(a, c)
  {
    if a.0 != b.0 && b.0 != c.0 {
      OptStrLeTrans(a.0, b.0, c.0);
      if a.0 == c.0 { OptStrLeAntisym(a.0, b.0); }
    } else if a.0 == b.0 && b.0 == c.0 {
      OptStrLeTrans(a.1, b.1, c.1);
    }
  }

  ghost predicate TotalPreorder<T(!new)>(le: (T, T) -> bool) {
    && (forall a, b :: le(a, b) || le(b, a))
    && (forall a, b, c :: le(a, b) && le(b, c) ==> le(a, c))
  }

  predicate SortedBy<T>(s: seq<T>, le: (T, T) -> bool) {
    forall i, j :: 0 <= i < j < |s| ==> le(s[i], s[j])
  }

  /** Places `x` in front of the first element it may precede. */
  function Insert<T(!new)>(x: T, s: seq<T>, le: (T, T) -> bool): (r: seq<T>)
    requires TotalPreorder(le)
    ensures multiset(r) == multiset(s) + multiset{x}
    ensures SortedBy(s, le) ==> SortedBy(r, le)
    decreases |s|
  {
    if s == [] then [x]
    else if le(x, s[0]) then
      assert SortedBy(s, le) ==> forall j :: 0 <= j < |s| ==> le(x, s[j]);
      [x] + s
    else
      var rest := Insert(x, s[1..], le);
      assert s == [s[0]] + s[1..];
      assert SortedBy(s, le) ==> SortedBy(s[1..], le);
      assert le(s[0], x);
      assert SortedBy(s, le) ==> forall j :: 0 <= j < |rest| ==> le(s[0], rest[j]) by {
        if SortedBy(s, le) {
          forall j | 0 <= j < |rest| ensures le(s[0], rest[j]) {
            assert rest[j] in multiset(rest);
            assert rest[j] == x || rest[j] in multiset(s[1..]);
          }
        }
      }
      [s[0]] + rest
  }

  /** An insertion sort: the result is ordered by `le` and is a permutation
      of `s`. */
  function SortBy<T(!new)>(s: seq<T>, le: (T, T) -> bool): (r: seq<T>)
    requires TotalPreorder(le)
    ensures SortedBy(r, le)
    ensures multiset(r) == multiset(s)
    ensures |r| == |s|
    decreases |s|
  {
    if s == [] then []
    else
      assert s == [s[0]] + s[1..];
      Insert(s[0], SortBy(s[1..], le), le)
  }

  /** The first `n` elements, or all of them when `n` is negative (SQLite's
      `LIMIT n`). */
  function Limit<T>(s: seq<T>, n: int): (r: seq<T>)
    ensures n < 0 ==> r == s
    ensures n >= 0 ==> |r| == if n < |s| then n else |s|
    ensures r == s[..|r|]
  {
    if n < 0 || n >= |s| then s else s[..n]
  }

  /** The elements after the first `n` (SQLite's `OFFSET n`; a negative
      offset skips nothing). */
  function Offset<T>(s: seq<T>, n: int): (r: seq<T>)
    ensures n <= 0 ==> r == s
    ensures n >= |s| ==> r == []
    ensures 0 <= n < |s| ==> r == s[n..]
  {
    if n <= 0 then s else if n >= |s| then [] else s[n..]
  }
}
