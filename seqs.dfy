/**
 * Sequence helpers standing in for the Python built-ins the bot leans on: `next(...)` over a
 * generator (first match), list comprehensions with a condition, `len`, `sum`, `min(key=...)`
 * (the first minimum) and `sorted(key=...)` (a stable sort).
 */
module Seqs {
  import opened Wrappers

  /** `next((i for i, x in enumerate(s) if p(x)), None)`: the index of the first match. */
  function FirstIndex<T>(s: seq<T>, p: T -> bool): (r: Option<nat>)
    ensures r.None? <==> forall i :: 0 <= i < |s| ==> !p(s[i])
    ensures r.Some? ==> r.value < |s| && p(s[r.value]) && forall j :: 0 <= j < r.value ==> !p(s[j])
  {
    if |s| == 0 then None
    else if p(s[0]) then Some(0)
    else
      var rest := FirstIndex(s[1..], p);
      assert forall i :: 1 <= i < |s| ==> s[i] == s[1..][i - 1];
      if rest.None? then None else Some(rest.value + 1)
  }

  /** The first match is the one that matches after a run of non-matches. */
  lemma FirstIndexAt<T>(s: seq<T>, p: T -> bool, i: nat)
    requires i < |s| && p(s[i]) && forall j :: 0 <= j < i ==> !p(s[j])
    ensures FirstIndex(s, p) == Some(i)
  {
    var k := FirstIndex(s, p);
    assert k.Some?;
    assert p(s[k.value]) && k.value < |s|;
    assert k.value <= i;
    assert k.value >= i;
  }

  /** A `for` loop over `s` that stops at the first element satisfying `p`. */
  method FindFirst<T>(s: seq<T>, p: T -> bool) returns (r: Option<nat>)
    ensures r == FirstIndex(s, p)
  {
    var k := 0;
    while k < |s|
      invariant 0 <= k <= |s|
      invariant forall j :: 0 <= j < k ==> !p(s[j])
    {
      if p(s[k]) {
        FirstIndexAt(s, p, k);
        return Some(k);
      }
      k := k + 1;
    }
    return None;
  }

  /** The positions of the elements satisfying `p`, in increasing order. */
  function Indices<T>(s: seq<T>, p: T -> bool): (r: seq<nat>)
    ensures forall k :: 0 <= k < |r| ==> r[k] < |s| && p(s[r[k]])
    ensures forall i :: 0 <= i < |s| && p(s[i]) ==> i in r
    ensures forall k, l :: 0 <= k < l < |r| ==> r[k] < r[l]
    decreases |s|
  {
    if |s| == 0 then []
    else
      var init := Indices(s[..|s| - 1], p);
      assert forall i :: 0 <= i < |s| - 1 ==> s[..|s| - 1][i] == s[i];
      if p(s[|s| - 1]) then init + [|s| - 1] else init
  }

  /**
   * The first `Some` produced by `f` along `s`: the shape of a `for` loop that returns the
   * first truthy result, and of `next(...)` over a generator that maps and filters.
   */
  function FirstSome<T, U>(s: seq<T>, f: T -> Option<U>): (r: Option<U>)
    ensures r.None? <==> forall i :: 0 <= i < |s| ==> f(s[i]).None?
    ensures r.Some? ==> exists i :: 0 <= i < |s| && f(s[i]) == r && forall j :: 0 <= j < i ==> f(s[j]).None?
  {
    if |s| == 0 then None
    else if f(s[0]).Some? then f(s[0])
    else
      var rest := FirstSome(s[1..], f);
      assert forall i :: 1 <= i < |s| ==> s[i] == s[1..][i - 1];
      rest
  }

  /** `[x for x in s if p(x)]`: keeps exactly the elements satisfying `p`, in their order. */
  function Keep<T(!new)>(s: seq<T>, p: T -> bool): (r: seq<T>)
    ensures |r| <= |s|
    ensures forall x :: x in r <==> x in s && p(x)
  {
    if |s| == 0 then []
    else
      var rest := Keep(s[1..], p);
      assert s == [s[0]] + s[1..];
      if p(s[0]) then [s[0]] + rest else rest
  }

  /** Filtering splits at any point of the sequence, so the kept elements stay in their order. */
  lemma {:induction false} KeepAppend<T(!new)>(a: seq<T>, b: seq<T>, p: T -> bool)
    ensures Keep(a + b, p) == Keep(a, p) + Keep(b, p)
  {
    if |a| > 0 {
      assert (a + b)[1..] == a[1..] + b;
      KeepAppend(a[1..], b, p);
    } else {
      assert a + b == b;
    }
  }

  /** Each element is kept as often as it occurs when it satisfies `p`, and never otherwise. */
  lemma {:induction false} KeepMultiplicity<T(!new)>(s: seq<T>, p: T -> bool, x: T)
    ensures multiset(Keep(s, p))[x] == if p(x) then multiset(s)[x] else 0
  {
    if |s| > 0 {
      KeepMultiplicity(s[1..], p, x);
      assert s == [s[0]] + s[1..];
      assert multiset(s) == multiset([s[0]]) + multiset(s[1..]);
      if p(s[0]) {
        assert multiset(Keep(s, p)) == multiset([s[0]]) + multiset(Keep(s[1..], p));
      }
    }
  }

  /** Nothing satisfies `p`: nothing is kept. */
  lemma {:induction false} KeepNone<T(!new)>(s: seq<T>, p: T -> bool)
    requires forall i :: 0 <= i < |s| ==> !p(s[i])
    ensures Keep(s, p) == []
  {
    if |s| > 0 {
      KeepNone(s[1..], p);
    }
  }

  /** `len([x for x in s if p(x)])`. */
  function Count<T>(s: seq<T>, p: T -> bool): (n: nat)
    ensures n <= |s|
    ensures n == 0 <==> forall i :: 0 <= i < |s| ==> !p(s[i])
    ensures n == |s| <==> forall i :: 0 <= i < |s| ==> p(s[i])
  {
    if |s| == 0 then 0
    else
      var rest := Count(s[1..], p);
      assert forall i :: 1 <= i < |s| ==> s[i] == s[1..][i - 1];
      (if p(s[0]) then 1 else 0) + rest
  }

  /** `sum([f(x) for x in s if p(x)])` for natural-valued `f`. */
  function SumIf<T>(s: seq<T>, p: T -> bool, f: T -> nat): (n: nat)
    ensures (forall i :: 0 <= i < |s| ==> !p(s[i])) ==> n == 0
  {
    if |s| == 0 then 0
    else
      assert forall i :: 1 <= i < |s| ==> s[i] == s[1..][i - 1];
      (if p(s[0]) then f(s[0]) else 0) + SumIf(s[1..], p, f)
  }

  /** Both folds split at any point of the sequence. */
  lemma {:induction false} CountSumAppend<T>(a: seq<T>, b: seq<T>, p: T -> bool, f: T -> nat)
    ensures Count(a + b, p) == Count(a, p) + Count(b, p)
    ensures SumIf(a + b, p, f) == SumIf(a, p, f) + SumIf(b, p, f)
  {
    if |a| > 0 {
      assert (a + b)[1..] == a[1..] + b;
      CountSumAppend(a[1..], b, p, f);
    } else {
      assert a + b == b;
    }
  }

  /** Appending one element adds its own contribution. */
  lemma CountSumSnoc<T>(a: seq<T>, x: T, p: T -> bool, f: T -> nat)
    ensures Count(a + [x], p) == Count(a, p) + (if p(x) then 1 else 0)
    ensures SumIf(a + [x], p, f) == SumIf(a, p, f) + (if p(x) then f(x) else 0)
  {
    CountSumAppend(a, [x], p, f);
    assert [x][1..] == [];
  }

  /** `s.index(min(s, key=key))`: Python's `min` returns the first of several minima. */
  function ArgMin<T>(s: seq<T>, key: T -> real): (i: nat)
    requires |s| > 0
    ensures i < |s|
    ensures forall j :: 0 <= j < |s| ==> key(s[i]) <= key(s[j])
    ensures forall j :: 0 <= j < i ==> key(s[i]) < key(s[j])
  {
    if |s| == 1 then 0
    else
      var k := ArgMin(s[1..], key);
      assert forall j :: 1 <= j < |s| ==> s[j] == s[1..][j - 1];
      if key(s[0]) <= key(s[1..][k]) then 0 else k + 1
  }

  predicate SortedBy<T>(s: seq<T>, key: T -> real) {
    forall i, j :: 0 <= i < j < |s| ==> key(s[i]) <= key(s[j])
  }

  /** In a sequence sorted by `key`, no element keyed strictly below the first match matches. */
  lemma SortedFirstIsLeast<T>(s: seq<T>, key: T -> real, p: T -> bool, x: T)
    requires SortedBy(s, key) && FirstIndex(s, p).Some?
    requires x in s && key(x) < key(s[FirstIndex(s, p).value])
    ensures !p(x)
  {
    var k := FirstIndex(s, p).value;
    var l :| 0 <= l < |s| && s[l] == x;
    var first, here := key(s[k]), key(s[l]);
    assert l < k || first <= here;
    assert l < k;
  }

  /** `min` picks an element keyed strictly below everything listed before it. */
  lemma ArgMinFirst<T>(s: seq<T>, key: T -> real)
    requires |s| > 0
    ensures exists i :: (0 <= i < |s| && s[i] == s[ArgMin(s, key)] &&
      forall j :: 0 <= j < i ==> key(s[ArgMin(s, key)]) < key(s[j]))
  {
    var k := ArgMin(s, key);
    assert 0 <= k < |s| && s[k] == s[ArgMin(s, key)] && forall j :: 0 <= j < k ==> key(s[ArgMin(s, key)]) < key(s[j]);
  }

  /** Inserts `x` after the trailing elements whose key exceeds its own. */
  function Insert<T>(s: seq<T>, x: T, key: T -> real): (r: seq<T>)
    ensures |r| == |s| + 1
    ensures forall i :: 0 <= i < |r| ==> r[i] in s || r[i] == x
  {
    if |s| == 0 then [x]
    else if key(s[|s| - 1]) <= key(x) then s + [x]
    else Insert(s[..|s| - 1], x, key) + [s[|s| - 1]]
  }

  lemma {:induction false} InsertSorted<T>(s: seq<T>, x: T, key: T -> real)
    requires SortedBy(s, key)
    ensures SortedBy(Insert(s, x, key), key)
  {
    if |s| > 0 && key(x) < key(s[|s| - 1]) {
      var last := s[|s| - 1];
      var init := s[..|s| - 1];
      var r0 := Insert(init, x, key);
      InsertSorted(init, x, key);
      forall i | 0 <= i < |r0| ensures key(r0[i]) <= key(last) {
        if r0[i] != x {
          var j :| 0 <= j < |init| && init[j] == r0[i];
          assert s[j] == init[j];
        }
      }
      assert Insert(s, x, key) == r0 + [last];
    }
  }

  lemma {:induction false} InsertPermutes<T>(s: seq<T>, x: T, key: T -> real)
    ensures multiset(Insert(s, x, key)) == multiset(s) + multiset{x}
  {
    if |s| > 0 && key(x) < key(s[|s| - 1]) {
      var init := s[..|s| - 1];
      assert s == init + [s[|s| - 1]];
      InsertPermutes(init, x, key);
    }
  }

  /** The elements whose key is `k`. */
  function KeyIs<T>(key: T -> real, k: real): T -> bool {
    (x: T) => key(x) == k
  }

  /** `r` holds the elements of each key in the order `s` holds them: a stable reordering. */
  ghost predicate StableBy<T(!new)>(r: seq<T>, s: seq<T>, key: T -> real) {
    forall k :: Keep(r, KeyIs(key, k)) == Keep(s, KeyIs(key, k))
  }

  /** The elements `Insert` passes over all have a key above `x`'s, so `x` follows its equals. */
  lemma {:induction false} InsertKeep<T(!new)>(s: seq<T>, x: T, key: T -> real, k: real)
    ensures Keep(Insert(s, x, key), KeyIs(key, k)) == Keep(s + [x], KeyIs(key, k))
  {
    var p := KeyIs(key, k);
    if |s| > 0 && key(x) < key(s[|s| - 1]) {
      var init, last := s[..|s| - 1], s[|s| - 1];
      assert s == init + [last];
      InsertKeep(init, x, key, k);
      KeepAppend(Insert(init, x, key), [last], p);
      KeepAppend(init, [x], p);
      KeepAppend(init, [last], p);
      KeepAppend(s, [x], p);
      KeepOne(x, p);
      KeepOne(last, p);
    }
  }

  /** A single element is kept iff it satisfies `p`. */
  lemma KeepOne<T(!new)>(x: T, p: T -> bool)
    ensures Keep([x], p) == if p(x) then [x] else []
  {
    assert [x][1..] == [];
  }

  /** One more element for `SortBy`: the insertion keeps the sort stable. */
  lemma SortStep<T(!new)>(init: seq<T>, x: T, r0: seq<T>, key: T -> real)
    requires StableBy(r0, init, key)
    ensures StableBy(Insert(r0, x, key), init + [x], key)
  {
    forall k ensures Keep(Insert(r0, x, key), KeyIs(key, k)) == Keep(init + [x], KeyIs(key, k)) {
      InsertKeep(r0, x, key, k);
      KeepAppend(r0, [x], KeyIs(key, k));
      KeepAppend(init, [x], KeyIs(key, k));
    }
  }

  /**
   * `sorted(s, key=key)`: each element goes in after the equal keys already placed, which
   * keeps equal keys in their original order.
   */
  function SortBy<T(!new)>(s: seq<T>, key: T -> real): (r: seq<T>)
    ensures SortedBy(r, key)
    ensures multiset(r) == multiset(s) && |r| == |s|
    ensures StableBy(r, s, key)
  {
    if |s| == 0 then []
    else
      var init := s[..|s| - 1];
      assert s == init + [s[|s| - 1]];
      var r0 := SortBy(init, key);
      InsertSorted(r0, s[|s| - 1], key);
      InsertPermutes(r0, s[|s| - 1], key);
      SortStep(init, s[|s| - 1], r0, key);
      Insert(r0, s[|s| - 1], key)
  }

  /** Appending an element leaves an earlier first match in place. */
  lemma FirstIndexSnoc<T>(s: seq<T>, x: T, p: T -> bool)
    ensures FirstIndex(s + [x], p) ==
      if FirstIndex(s, p).Some? then FirstIndex(s, p) else if p(x) then Some(|s|) else None
  {
    assert forall i :: 0 <= i < |s| ==> (s + [x])[i] == s[i];
    assert (s + [x])[|s|] == x;
  }

  /** A sequence without repeated elements holds each value at most once. */
  lemma {:induction false} DistinctOnce<T>(s: seq<T>)
    requires forall i, j :: 0 <= i < j < |s| ==> s[i] != s[j]
    ensures forall x :: multiset(s)[x] <= 1
  {
    if |s| > 0 {
      assert s == [s[0]] + s[1..];
      assert forall i, j :: 0 <= i < j < |s[1..]| ==> s[1..][i] == s[i + 1] && s[1..][j] == s[j + 1];
      DistinctOnce(s[1..]);
      assert s[0] !in s[1..];
    }
  }

  /** A value at two positions is counted twice. */
  lemma TwiceCounted<T>(s: seq<T>, i: nat, j: nat)
    requires i < j < |s| && s[i] == s[j]
    ensures multiset(s)[s[i]] >= 2
  {
    assert s == s[..j] + s[j..];
    assert s[i] == s[..j][i];
    assert s[j] == s[j..][0];
  }
}
