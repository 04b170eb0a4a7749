/** The array operations the core uses on lists (`filter`, `slice`,
    `new Set(...)` and reductions), over sequences. */
module Collections {
  import opened Wrappers

  /** `s.filter(p)`: the elements that satisfy `p`, in their order. */
  function Filter<T(!new)>(s: seq<T>, p: T -> bool): (r: seq<T>)
    ensures |r| <= |s|
    ensures forall x :: x in r <==> x in s && p(x)
    ensures forall i :: 0 <= i < |r| ==> p(r[i])
    decreases |s|
  {
    if s == [] then []
    else
      var rest := Filter(s[..|s| - 1], p);
      assert forall x :: x in s <==> x in s[..|s| - 1] || x == s[|s| - 1] by {
        assert s == s[..|s| - 1] + [s[|s| - 1]];
      }
      if p(s[|s| - 1]) then rest + [s[|s| - 1]] else rest
  }

  /** Filtering a list whose every element satisfies the predicate gives the
      list back. */
  lemma {:induction false} FilterAll<T(!new)>(s: seq<T>, p: T -> bool)
    requires forall i :: 0 <= i < |s| ==> p(s[i])
    ensures Filter(s, p) == s
    decreases |s|
  {
    if s != [] {
      FilterAll(s[..|s| - 1], p);
      assert s == s[..|s| - 1] + [s[|s| - 1]];
    }
  }

  /** Filtering keeps every element that satisfies `p` as often as it
      occurs, and no other. */
  lemma {:induction false} FilterMultiset<T(!new)>(s: seq<T>, p: T -> bool)
    ensures forall x :: multiset(Filter(s, p))[x] == if p(x) then multiset(s)[x] else 0
    decreases |s|
  {
    if s != [] {
      FilterMultiset(s[..|s| - 1], p);
      assert s == s[..|s| - 1] + [s[|s| - 1]];
    }
  }

  lemma {:induction false} FilterNone<T(!new)>(s: seq<T>, p: T -> bool)
    requires forall i :: 0 <= i < |s| ==> !p(s[i])
    ensures Filter(s, p) == []
    decreases |s|
  {
    if s != [] {
      FilterNone(s[..|s| - 1], p);
    }
  }

  /** Filtering keeps the relative order: two elements of the result come
      from two positions of the input in the same order. */
  lemma {:induction false} FilterOrder<T(!new)>(s: seq<T>, p: T -> bool, i: int, j: int)
    requires 0 <= i < j < |Filter(s, p)|
    ensures exists a, b :: 0 <= a < b < |s| && s[a] == Filter(s, p)[i] && s[b] == Filter(s, p)[j]
    decreases |s|
  {
    var init, last := s[..|s| - 1], s[|s| - 1];
    var rest := Filter(init, p);
    if p(last) && j == |rest| {
      assert Filter(s, p)[i] == rest[i];
      assert rest[i] in init;
      var a :| 0 <= a < |init| && init[a] == rest[i];
      assert s[a] == init[a];
    } else {
      assert Filter(s, p)[i] == rest[i] && Filter(s, p)[j] == rest[j];
      FilterOrder(init, p, i, j);
      var a, b :| 0 <= a < b < |init| && init[a] == rest[i] && init[b] == rest[j];
      assert s[a] == init[a] && s[b] == init[b];
    }
  }

  /** Every element satisfies exactly one of two complementary predicates,
      so the two filters together are as long as the list. */
  lemma {:induction false} FilterComplement<T(!new)>(s: seq<T>, p: T -> bool, q: T -> bool)
    requires forall i :: 0 <= i < |s| ==> (p(s[i]) <==> !q(s[i]))
    ensures |Filter(s, p)| + |Filter(s, q)| == |s|
    decreases |s|
  {
    if s != [] {
      FilterComplement(s[..|s| - 1], p, q);
    }
  }

  /** `s.map(f)` */
  function Map<A, B>(s: seq<A>, f: A -> B): (r: seq<B>)
    ensures |r| == |s| && forall i :: 0 <= i < |s| ==> r[i] == f(s[i])
  {
    seq(|s|, i requires 0 <= i < |s| => f(s[i]))
  }

  /** `s.filter(p).map(f)` holds exactly the images of the elements that
      satisfy `p`. */
  lemma {:induction false} FilterMapMember<A(!new), B>(s: seq<A>, p: A -> bool, f: A -> B, y: B)
    ensures y in Map(Filter(s, p), f) <==> exists x :: x in s && p(x) && y == f(x)
  {
    var kept := Filter(s, p);
    var r := Map(kept, f);
    if y in r {
      var i :| 0 <= i < |r| && r[i] == y;
      assert kept[i] in kept;
    }
    if exists x :: x in s && p(x) && y == f(x) {
      var x :| x in s && p(x) && y == f(x);
      assert x in kept;
      var i :| 0 <= i < |kept| && kept[i] == x;
      assert r[i] == y;
    }
  }

  /** The values `f` gives, in order, for the elements it does not skip
      (a loop that pushes each non-null result). */
  function Somes<A(!new), B(!new)>(s: seq<A>, f: A -> Option<B>): (r: seq<B>)
    ensures forall y :: y in r ==> exists x :: x in s && f(x) == Some(y)
    ensures forall x :: x in s && f(x).Some? ==> f(x).value in r
    decreases |s|
  {
    if s == [] then []
    else
      var init, last := s[..|s| - 1], s[|s| - 1];
      var rest := Somes(init, f);
      assert forall x :: x in s <==> x in init || x == last by {
        assert s == init + [last];
      }
      match f(last)
      case Some(y) => rest + [y]
      case None => rest
  }

  /** Some element satisfies `p` (`s.some(p)`). */
  predicate Any<A>(s: seq<A>, p: A -> bool) {
    exists i :: 0 <= i < |s| && p(s[i])
  }

  /** An element of a list with one more element at the end satisfies `p`
      when one of the list did or the new one does. */
  lemma AnySnoc<A>(s: seq<A>, p: A -> bool)
    requires s != []
    ensures Any(s, p) <==> Any(s[..|s| - 1], p) || p(s[|s| - 1])
  {
    var init := s[..|s| - 1];
    if Any(s, p) {
      var i :| 0 <= i < |s| && p(s[i]);
      if i < |init| {
        assert init[i] == s[i];
      }
    }
    if Any(init, p) {
      var i :| 0 <= i < |init| && p(init[i]);
      assert init[i] == s[i];
    }
  }

  /** `s.slice(0, n)` for `n >= 0`. */
  function Take<T>(s: seq<T>, n: nat): (r: seq<T>)
    ensures |r| == if n < |s| then n else |s|
    ensures r == s[..|r|]
  {
    if n < |s| then s[..n] else s
  }

  /** No element occurs twice. */
  predicate NoDup<T(==)>(s: seq<T>) {
    forall i, j :: 0 <= i < j < |s| ==> s[i] != s[j]
  }

  /** `[...new Set(s)]`: each distinct element once, in order of first occurrence. */
  function Dedup<T(==,!new)>(s: seq<T>): (r: seq<T>)
    ensures NoDup(r)
    ensures forall x :: x in r <==> x in s
    ensures |r| <= |s|
    decreases |s|
  {
    if s == [] then []
    else
      var rest := Dedup(s[..|s| - 1]);
      assert forall x :: x in s <==> x in s[..|s| - 1] || x == s[|s| - 1] by {
        assert s == s[..|s| - 1] + [s[|s| - 1]];
      }
      if s[|s| - 1] in rest then rest else rest + [s[|s| - 1]]
  }

  /** `Dedup` lists the elements in order of first occurrence: an element
      listed before another occurs in `s` before the other first does. */
  lemma {:induction false} DedupFirstOccurrence<T(!new)>(s: seq<T>, i: int, j: int)
    requires 0 <= i < j < |Dedup(s)|
    ensures exists a :: 0 <= a < |s| && s[a] == Dedup(s)[i] && Dedup(s)[j] !in s[..a + 1]
    decreases |s|
  {
    var init, last := s[..|s| - 1], s[|s| - 1];
    var rest := Dedup(init);
    if last !in rest && j == |rest| {
      assert Dedup(s)[i] == rest[i] && rest[i] in init;
      var a :| 0 <= a < |init| && init[a] == rest[i];
      assert s[a] == init[a] && s[..a + 1] == init[..a + 1];
      assert last !in init;
      assert Dedup(s)[j] == last;
      assert forall y :: y in init[..a + 1] ==> y in init;
    } else {
      assert Dedup(s)[i] == rest[i] && Dedup(s)[j] == rest[j];
      DedupFirstOccurrence(init, i, j);
      var a :| 0 <= a < |init| && init[a] == rest[i] && rest[j] !in init[..a + 1];
      assert s[a] == init[a] && s[..a + 1] == init[..a + 1];
    }
  }

  /** The sum of a list of reals (`reduce((a, b) => a + b, 0)`). */
  function Sum(s: seq<real>): real
    decreases |s|
  {
    if s == [] then 0.0 else Sum(s[..|s| - 1]) + s[|s| - 1]
  }

  /** `Math.min(...s)` for a non-empty list. */
  function Min(s: seq<real>): (m: real)
    requires s != []
    ensures m in s
    ensures forall i :: 0 <= i < |s| ==> m <= s[i]
    decreases |s|
  {
    if |s| == 1 then s[0]
    else
      var m := Min(s[..|s| - 1]);
      assert forall i :: 0 <= i < |s| - 1 ==> s[i] == s[..|s| - 1][i];
      if s[|s| - 1] < m then s[|s| - 1] else m
  }

  /** `Math.max(...s)` for a non-empty list. */
  function Max(s: seq<real>): (m: real)
    requires s != []
    ensures m in s
    ensures forall i :: 0 <= i < |s| ==> s[i] <= m
    decreases |s|
  {
    if |s| == 1 then s[0]
    else
      var m := Max(s[..|s| - 1]);
      assert forall i :: 0 <= i < |s| - 1 ==> s[i] == s[..|s| - 1][i];
      if s[|s| - 1] > m then s[|s| - 1] else m
  }
}
