/**
 * Searches over ordered collections. A discord.js `Collection` keeps insertion
 * order, so `find` and `filter` over the guild caches are modelled as the first
 * match in, and the order-preserving sub-sequence of, a `seq`.
 */
module Seqs {
  import opened Wrappers

  /** Index of the first element satisfying `p`, or None when none does. */
  function FindIndex<T>(s: seq<T>, p: T -> bool): (r: Option<nat>)
    ensures r.Some? ==> r.value < |s| && p(s[r.value])
    ensures r.Some? ==> forall j :: 0 <= j < r.value ==> !p(s[j])
    ensures r.None? ==> forall j :: 0 <= j < |s| ==> !p(s[j])
  {
    if |s| == 0 then None
    else if p(s[0]) then Some(0)
    else match FindIndex(s[1..], p)
      case None => None
      case Some(i) => Some(i + 1)
  }

  /** The first element satisfying `p` (`Collection.find`). */
  function FindValue<T>(s: seq<T>, p: T -> bool): (r: Option<T>)
    ensures r.None? <==> forall x :: x in s ==> !p(x)
    ensures r.Some? ==> p(r.value) && exists i :: 0 <= i < |s| && s[i] == r.value && FirstAt(s, p, i)
  {
    match FindIndex(s, p)
    case None => None
    case Some(i) => Some(s[i])
  }

  /** `s[i]` satisfies `p` and no earlier element does. */
  ghost predicate FirstAt<T>(s: seq<T>, p: T -> bool, i: nat) {
    i < |s| && p(s[i]) && forall j :: 0 <= j < i ==> !p(s[j])
  }

  /** The elements satisfying `p`, in their original order (`Collection.filter`). */
  function Filter<T(!new)>(s: seq<T>, p: T -> bool): (r: seq<T>)
    ensures |r| <= |s|
    ensures forall x :: x in r <==> x in s && p(x)
  {
    if |s| == 0 then []
    else (if p(s[0]) then [s[0]] else []) + Filter(s[1..], p)
  }

  /** Conjunction of two predicates. */
  function Both<T>(p: T -> bool, q: T -> bool): T -> bool {
    x => p(x) && q(x)
  }

  /** Number of elements satisfying `p`, counted from the front. */
  function Count<T>(s: seq<T>, p: T -> bool): (n: nat)
    ensures n <= |s|
    ensures n == 0 <==> forall j :: 0 <= j < |s| ==> !p(s[j])
  {
    if |s| == 0 then 0
    else Count(s[..|s| - 1], p) + (if p(s[|s| - 1]) then 1 else 0)
  }

  lemma FindValueCons<T>(s: seq<T>, p: T -> bool)
    requires |s| > 0
    ensures FindValue(s, p) == if p(s[0]) then Some(s[0]) else FindValue(s[1..], p)
  {
    if !p(s[0]) {
      match FindIndex(s[1..], p)
      case None =>
      case Some(i) => assert s[1..][i] == s[i + 1];
    }
  }

  /** Filtering by `p` and then finding by `q` picks the first element satisfying both. */
  lemma {:induction false} FindAfterFilter<T(!new)>(s: seq<T>, p: T -> bool, q: T -> bool)
    ensures FindValue(Filter(s, p), q) == FindValue(s, Both(p, q))
  {
    if |s| > 0 {
      FindAfterFilter(s[1..], p, q);
      FindValueCons(s, Both(p, q));
      var f := Filter(s, p);
      if p(s[0]) {
        assert f == [s[0]] + Filter(s[1..], p);
        assert f[1..] == Filter(s[1..], p);
        FindValueCons(f, q);
      } else {
        assert f == Filter(s[1..], p);
      }
    }
  }

  /** A match inside a prefix shadows everything appended after it. */
  lemma {:induction false} FindValueAppend<T>(s: seq<T>, t: seq<T>, p: T -> bool)
    ensures FindValue(s + t, p) == if FindValue(s, p).Some? then FindValue(s, p) else FindValue(t, p)
  {
    if |s| > 0 {
      FindValueCons(s + t, p);
      FindValueCons(s, p);
      assert (s + t)[1..] == s[1..] + t;
      FindValueAppend(s[1..], t, p);
    } else {
      assert s + t == t;
    }
  }

  /** Counting distributes over concatenation. */
  lemma {:induction false} CountAppend<T>(a: seq<T>, b: seq<T>, p: T -> bool)
    ensures Count(a + b, p) == Count(a, p) + Count(b, p)
  {
    if |b| == 0 {
      assert a + b == a;
    } else {
      var n := |b| - 1;
      assert (a + b)[..|a + b| - 1] == a + b[..n];
      CountAppend(a, b[..n], p);
    }
  }

  /** Filtering distributes over concatenation. */
  lemma {:induction false} FilterAppend<T(!new)>(a: seq<T>, b: seq<T>, p: T -> bool)
    ensures Filter(a + b, p) == Filter(a, p) + Filter(b, p)
  {
    if |a| == 0 {
      assert a + b == b;
    } else {
      assert (a + b)[1..] == a[1..] + b;
      FilterAppend(a[1..], b, p);
    }
  }

  /** Filtering keeps a sequence whole when every element passes. */
  lemma {:induction false} FilterKeepsAll<T(!new)>(s: seq<T>, p: T -> bool)
    requires forall x :: x in s ==> p(x)
    ensures Filter(s, p) == s
  {
    if |s| > 0 {
      FilterKeepsAll(s[1..], p);
      assert s == [s[0]] + s[1..];
    }
  }

  /** Filtering empties a sequence when no element passes. */
  lemma {:induction false} FilterDropsAll<T(!new)>(s: seq<T>, p: T -> bool)
    requires forall x :: x in s ==> !p(x)
    ensures Filter(s, p) == []
  {
    if |s| > 0 {
      FilterDropsAll(s[1..], p);
    }
  }
}
