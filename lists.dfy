/**
 * The array operations of JavaScript the mock back-ends and stores use, over
 * `seq`: `filter`, `find`/`findIndex`, `slice` and a stable `sort` with a
 * comparator of the shape `(a, b) => (key(a) - key(b)) * order`.
 */
module Lists {
  import opened Wrappers

  /** `s.filter(p)` */
  function Filter<T>(s: seq<T>, p: T -> bool): (r: seq<T>)
    ensures |r| <= |s|
    ensures forall i :: 0 <= i < |r| ==> p(r[i])
    ensures forall i :: 0 <= i < |r| ==> r[i] in s
    ensures forall i :: 0 <= i < |s| && p(s[i]) ==> s[i] in r
    ensures multiset(r) <= multiset(s)
  {
    if s == [] then []
    else
      var rest := Filter(s[1..], p);
      FilterStep(s, p, rest);
      (if p(s[0]) then [s[0]] else []) + rest
  }

  /** The filter's promises carry over from the tail to the whole sequence. */
  lemma FilterStep<T>(s: seq<T>, p: T -> bool, rest: seq<T>)
    requires s != []
    requires |rest| <= |s| - 1
    requires forall i :: 0 <= i < |rest| ==> p(rest[i])
    requires forall i :: 0 <= i < |rest| ==> rest[i] in s[1..]
    requires forall i :: 1 <= i < |s| && p(s[i]) ==> s[i] in rest
    requires multiset(rest) <= multiset(s[1..])
    ensures var r := (if p(s[0]) then [s[0]] else []) + rest;
            && |r| <= |s|
            && (forall i :: 0 <= i < |r| ==> p(r[i]))
            && (forall i :: 0 <= i < |r| ==> r[i] in s)
            && (forall i :: 0 <= i < |s| && p(s[i]) ==> s[i] in r)
            && multiset(r) <= multiset(s)
  {
    assert s == [s[0]] + s[1..];
  }

  /** Filtering with a predicate every element meets keeps the whole sequence. */
  lemma {:induction false} FilterAll<T>(s: seq<T>, p: T -> bool)
    requires forall i :: 0 <= i < |s| ==> p(s[i])
    ensures Filter(s, p) == s
  {
    if s != [] {
      FilterUnfold(s, p);
      FilterAll(s[1..], p);
      assert [s[0]] + s[1..] == s;
    }
  }

  /** Two successive filters keep exactly what one filter by the conjunction keeps, in the same order. */
  lemma {:induction false} FilterFilter<T>(s: seq<T>, p: T -> bool, q: T -> bool, both: T -> bool)
    requires forall i :: 0 <= i < |s| ==> (both(s[i]) <==> p(s[i]) && q(s[i]))
    ensures Filter(Filter(s, p), q) == Filter(s, both)
  {
    if s != [] {
      var rest := Filter(s[1..], p);
      FilterFilter(s[1..], p, q, both);
      if p(s[0]) {
        assert Filter(s, p) == [s[0]] + rest;
        assert ([s[0]] + rest)[1..] == rest;
      } else {
        assert Filter(s, p) == rest;
      }
    }
  }

  /** Filtering with predicates that agree on every element gives the same result. */
  lemma {:induction false} FilterExt<T>(s: seq<T>, p: T -> bool, q: T -> bool)
    requires forall i :: 0 <= i < |s| ==> (p(s[i]) <==> q(s[i]))
    ensures Filter(s, p) == Filter(s, q)
  {
    if s != [] {
      FilterExt(s[1..], p, q);
    }
  }

  /**
   * `if (active) list = list.filter(q)` after a filter by `p`: the same as one
   * filter by `pq`, when `pq` holds exactly where `p` and (if active) `q` hold.
   */
  lemma FilterThen<T>(s: seq<T>, p: T -> bool, active: bool, q: T -> bool, pq: T -> bool)
    requires forall i :: 0 <= i < |s| ==> (pq(s[i]) <==> p(s[i]) && (!active || q(s[i])))
    ensures (if active then Filter(Filter(s, p), q) else Filter(s, p)) == Filter(s, pq)
  {
    if active {
      FilterFilter(s, p, q, pq);
    } else {
      FilterExt(s, p, pq);
    }
  }

  /** Filtering a concatenation filters each part. */
  lemma {:induction false} FilterAppend<T>(a: seq<T>, b: seq<T>, p: T -> bool)
    ensures Filter(a + b, p) == Filter(a, p) + Filter(b, p)
  {
    if a != [] {
      var head := if p(a[0]) then [a[0]] else [];
      assert (a + b)[0] == a[0];
      assert (a + b)[1..] == a[1..] + b;
      FilterUnfold(a + b, p);
      FilterUnfold(a, p);
      FilterAppend(a[1..], b, p);
      var fa, fb := Filter(a[1..], p), Filter(b, p);
      assert head + (fa + fb) == (head + fa) + fb;
    } else {
      assert a + b == b;
    }
  }

  /** One step of the filter: the head, kept or not, before the filtered tail. */
  lemma FilterUnfold<T>(s: seq<T>, p: T -> bool)
    requires s != []
    ensures Filter(s, p) == (if p(s[0]) then [s[0]] else []) + Filter(s[1..], p)
  {
  }

  /** The members of `Filter(s, p)` are exactly the members of `s` that satisfy `p`. */
  lemma FilterMembership<T>(s: seq<T>, p: T -> bool)
    ensures forall x :: x in Filter(s, p) <==> x in s && p(x)
  {
    forall x | x in s && p(x) ensures x in Filter(s, p) {
      var i :| 0 <= i < |s| && s[i] == x;
    }
  }

  /** `s.findIndex(p)`: the first index whose element satisfies `p`, or -1. */
  function FindIndex<T>(s: seq<T>, p: T -> bool): (k: int)
    ensures -1 <= k < |s|
    ensures k >= 0 ==> p(s[k]) && forall j :: 0 <= j < k ==> !p(s[j])
    ensures k == -1 ==> forall j :: 0 <= j < |s| ==> !p(s[j])
  {
    if s == [] then -1
    else if p(s[0]) then 0
    else
      var k := FindIndex(s[1..], p);
      if k < 0 then -1 else k + 1
  }

  /** The last index whose element satisfies `p`, or -1 (`lastIndexOf` for a predicate). */
  function LastIndex<T>(s: seq<T>, p: T -> bool): (k: int)
    ensures -1 <= k < |s|
    ensures k >= 0 ==> p(s[k]) && forall j :: k < j < |s| ==> !p(s[j])
    ensures k == -1 ==> forall j :: 0 <= j < |s| ==> !p(s[j])
  {
    if s == [] then -1
    else if p(s[|s| - 1]) then |s| - 1
    else LastIndex(s[..|s| - 1], p)
  }

  /** `s.find(p)`: the first element satisfying `p`, if any. */
  function Find<T>(s: seq<T>, p: T -> bool): (r: Option<T>)
    ensures r.Some? ==> r.value in s && p(r.value)
    ensures r.None? <==> forall j :: 0 <= j < |s| ==> !p(s[j])
    ensures r.Some? ==> r.value == s[FindIndex(s, p)]
  {
    var k := FindIndex(s, p);
    if k < 0 then None else Some(s[k])
  }

  /** `f(1)`, ..., `f(n)`, pushed one after another. */
  function Pushed<T>(f: nat --> T, n: nat): (r: seq<T>)
    requires forall i :: 1 <= i <= n ==> f.requires(i)
    ensures |r| == n
    ensures forall k :: 0 <= k < n ==> r[k] == f(k + 1)
  {
    if n == 0 then []
    else
      var prev := Pushed(f, n - 1);
      assert forall k :: 0 <= k < n - 1 ==> (prev + [f(n)])[k] == prev[k];
      prev + [f(n)]
  }

  /** `s.map(f)` */
  function Map<T, U>(s: seq<T>, f: T -> U): (r: seq<U>)
    ensures |r| == |s|
    ensures forall i :: 0 <= i < |s| ==> r[i] == f(s[i])
  {
    seq(|s|, i requires 0 <= i < |s| => f(s[i]))
  }

  lemma MapAppend<T, U>(a: seq<T>, b: seq<T>, f: T -> U)
    ensures Map(a + b, f) == Map(a, f) + Map(b, f)
  {
  }

  /** Removing the element at `j` removes one copy of it from the multiset. */
  lemma RemoveAt<T>(t: seq<T>, j: nat)
    requires j < |t|
    ensures multiset(t[..j] + t[j + 1..]) == multiset(t) - multiset{t[j]}
  {
    assert t == t[..j] + [t[j]] + t[j + 1..];
  }

  /** Putting `t[j]` back in front of the mapped remainder of `t` gives the multiset of the mapped `t`. */
  lemma MapPermutationStep<T, U>(rest: seq<T>, t: seq<T>, j: nat, f: T -> U)
    requires j < |t|
    requires multiset(Map(rest, f)) == multiset(Map(t[..j] + t[j + 1..], f))
    ensures multiset(Map([t[j]] + rest, f)) == multiset(Map(t, f))
  {
    MapAppend([t[j]], rest, f);
    MapAppend(t[..j], t[j + 1..], f);
    assert t == t[..j] + ([t[j]] + t[j + 1..]);
    MapAppend(t[..j], [t[j]] + t[j + 1..], f);
    MapAppend([t[j]], t[j + 1..], f);
  }

  /** Mapping two permutations of one another gives permutations of one another. */
  lemma {:induction false} MapPermutation<T, U>(s: seq<T>, t: seq<T>, f: T -> U)
    requires multiset(s) == multiset(t)
    ensures multiset(Map(s, f)) == multiset(Map(t, f))
    decreases |s|
  {
    if s == [] {
      assert |t| == |multiset(t)| == 0;
    } else {
      assert s[0] in multiset(t);
      var j :| 0 <= j < |t| && t[j] == s[0];
      RemoveAt(t, j);
      assert s == [s[0]] + s[1..];
      MapPermutation(s[1..], t[..j] + t[j + 1..], f);
      MapPermutationStep(s[1..], t, j, f);
    }
  }

  /** How `slice` reads one of its bounds: negative counts from the end, then clamp to [0, len]. */
  function SliceBound(k: int, len: nat): (b: nat)
    ensures b <= len
    ensures 0 <= k <= len ==> b == k
  {
    if k < 0 then (if len + k < 0 then 0 else len + k)
    else if k > len then len
    else k
  }

  /** `s.slice(start, end)` */
  function Slice<T>(s: seq<T>, start: int, end: int): (r: seq<T>)
    ensures |r| <= |s|
    ensures 0 <= start <= end <= |s| ==> r == s[start..end]
    ensures 0 <= start <= |s| <= end ==> r == s[start..]
    ensures |s| <= start ==> r == []
  {
    var a, b := SliceBound(start, |s|), SliceBound(end, |s|);
    if a < b then s[a..b] else []
  }

  /** `(page - 1) * size`: where a page of `size` items starts. */
  function PageStart(page: int, size: int): int {
    (page - 1) * size
  }

  /** `s.slice(start, start + size)` with `start` the page start: page `page` of `s`. */
  function Page<T>(s: seq<T>, page: int, size: int): (r: seq<T>)
    ensures var start := PageStart(page, size);
            0 <= start <= start + size <= |s| ==> r == s[start..start + size]
    ensures page >= 1 && size >= 0 ==> |r| <= size
    ensures forall i :: 0 <= i < |r| ==> r[i] in s
  {
    var start := PageStart(page, size);
    assert page >= 1 && size >= 0 ==> start >= 0 by {
      if page >= 1 && size >= 0 {
        assert (page - 1) * size >= 0 * size;
      }
    }
    var a, b := SliceBound(start, |s|), SliceBound(start + size, |s|);
    if a < b then
      assert forall i :: 0 <= i < b - a ==> s[a..b][i] == s[a + i];
      assert forall i :: 0 <= i < b - a ==> s[a..b][i] in s;
      s[a..b]
    else []
  }

  /** A page of a sorted sequence is sorted the same way. */
  lemma PageOfSorted<T>(s: seq<T>, page: int, size: int, key: T -> int, desc: bool)
    requires SortedBy(s, key, desc)
    ensures SortedBy(Page(s, page, size), key, desc)
  {
    var start := PageStart(page, size);
    var a, b := SliceBound(start, |s|), SliceBound(start + size, |s|);
    if a < b {
      assert Page(s, page, size) == s[a..b];
    }
  }

  // ---------------------------------------------------------------------------
  // Stable sort by an integer key
  // ---------------------------------------------------------------------------

  /**
   * Whether `a` may stay before `b` under the comparator
   * `(a, b) => (key(a) - key(b)) * (desc ? -1 : 1)`.
   */
  predicate InOrder<T>(key: T -> int, desc: bool, a: T, b: T) {
    if desc then key(a) >= key(b) else key(a) <= key(b)
  }

  predicate SortedBy<T>(s: seq<T>, key: T -> int, desc: bool) {
    forall i, j :: 0 <= i < j < |s| ==> InOrder(key, desc, s[i], s[j])
  }

  /** An element that may precede every element of a sorted list keeps it sorted when put in front. */
  lemma PrependSorted<T>(h: T, t: seq<T>, key: T -> int, desc: bool)
    requires SortedBy(t, key, desc)
    requires forall i :: 0 <= i < |t| ==> InOrder(key, desc, h, t[i])
    ensures SortedBy([h] + t, key, desc)
  {
    forall i, j | 0 <= i < j < |[h] + t| ensures InOrder(key, desc, ([h] + t)[i], ([h] + t)[j]) {
      if i > 0 {
        assert ([h] + t)[i] == t[i - 1];
      }
      assert ([h] + t)[j] == t[j - 1];
    }
  }

  /** Every element of `t` with `multiset(t) == multiset(s) + {x}` is `x` or an element of `s`. */
  lemma FromMultiset<T>(t: seq<T>, s: seq<T>, x: T, i: int)
    requires multiset(t) == multiset(s) + multiset{x} && 0 <= i < |t|
    ensures t[i] == x || t[i] in s
  {
    assert t[i] in multiset(t);
  }

  /** Inserts `x` before the first element it may precede, so it stays ahead of equal keys. */
  function Insert<T>(x: T, s: seq<T>, key: T -> int, desc: bool): (r: seq<T>)
    requires SortedBy(s, key, desc)
    ensures |r| == |s| + 1
    ensures multiset(r) == multiset(s) + multiset{x}
    ensures SortedBy(r, key, desc)
  {
    if s == [] || InOrder(key, desc, x, s[0]) then
      PrependSorted(x, s, key, desc);
      [x] + s
    else
      var t := Insert(x, s[1..], key, desc);
      InsertedBehindHead(x, s, t, key, desc);
      [s[0]] + t
  }

  /** Putting the head back in front of the tail with `x` inserted keeps the order and the elements. */
  lemma InsertedBehindHead<T>(x: T, s: seq<T>, t: seq<T>, key: T -> int, desc: bool)
    requires SortedBy(s, key, desc) && s != [] && !InOrder(key, desc, x, s[0])
    requires SortedBy(t, key, desc) && multiset(t) == multiset(s[1..]) + multiset{x}
    ensures SortedBy([s[0]] + t, key, desc)
    ensures multiset([s[0]] + t) == multiset(s) + multiset{x}
  {
    assert s == [s[0]] + s[1..];
    forall i | 0 <= i < |t| ensures InOrder(key, desc, s[0], t[i]) {
      FromMultiset(t, s[1..], x, i);
    }
    PrependSorted(s[0], t, key, desc);
  }

  /** The result of a stable `sort` with the comparator described by `key` and `desc`. */
  function SortBy<T>(s: seq<T>, key: T -> int, desc: bool): (r: seq<T>)
    ensures |r| == |s|
    ensures multiset(r) == multiset(s)
    ensures SortedBy(r, key, desc)
  {
    if s == [] then []
    else
      assert s == [s[0]] + s[1..];
      Insert(s[0], SortBy(s[1..], key, desc), key, desc)
  }

  /** The elements whose key is `k`. */
  function KeyIs<T>(key: T -> int, k: int): T -> bool {
    (x: T) => key(x) == k
  }

  /**
   * Inserting `x` keeps, among the elements a predicate selects, the order they
   * had, with `x` first: when every selected element has the same key, `x`
   * stops in front of the first of them.
   */
  lemma {:induction false} InsertKeepsTies<T>(x: T, t: seq<T>, key: T -> int, desc: bool, p: T -> bool)
    requires SortedBy(t, key, desc)
    requires forall a, b :: p(a) && p(b) ==> key(a) == key(b)
    ensures Filter(Insert(x, t, key, desc), p) == (if p(x) then [x] else []) + Filter(t, p)
    decreases |t|
  {
    if t == [] || InOrder(key, desc, x, t[0]) {
      FilterCons(x, t, p);
    } else {
      var rest := Insert(x, t[1..], key, desc);
      assert Insert(x, t, key, desc) == [t[0]] + rest;
      InsertKeepsTies(x, t[1..], key, desc, p);
      assert !(p(x) && p(t[0]));
      TiesBehindHead(x, t, rest, p);
    }
  }

  /** The head of `t`, never selected together with `x`, stays ahead of it among the selected elements. */
  lemma TiesBehindHead<T>(x: T, t: seq<T>, rest: seq<T>, p: T -> bool)
    requires t != [] && !(p(x) && p(t[0]))
    requires Filter(rest, p) == (if p(x) then [x] else []) + Filter(t[1..], p)
    ensures Filter([t[0]] + rest, p) == (if p(x) then [x] else []) + Filter(t, p)
  {
    var a, b := (if p(x) then [x] else []), (if p(t[0]) then [t[0]] else []);
    FilterCons(t[0], rest, p);
    FilterHead(t, p);
    EmptyCommutes(a, b, Filter(t[1..], p));
  }

  /** When one of two sequences is empty, the order they are put in front of a third does not matter. */
  lemma EmptyCommutes<T>(a: seq<T>, b: seq<T>, f: seq<T>)
    requires a == [] || b == []
    ensures b + (a + f) == a + (b + f)
  {
  }

  /** `Filter` on a non-empty sequence: its head, when selected, then the filtered tail. */
  lemma FilterHead<T>(s: seq<T>, p: T -> bool)
    requires s != []
    ensures Filter(s, p) == (if p(s[0]) then [s[0]] else []) + Filter(s[1..], p)
  {
  }

  /** `Filter` on a sequence with a known head. */
  lemma FilterCons<T>(h: T, t: seq<T>, p: T -> bool)
    ensures Filter([h] + t, p) == (if p(h) then [h] else []) + Filter(t, p)
  {
    assert ([h] + t)[1..] == t;
  }

  /**
   * `SortBy` is stable: among the elements a predicate selects, when they all
   * share one key, the sorted list keeps the order of the input.
   */
  lemma {:induction false} SortByStable<T>(s: seq<T>, key: T -> int, desc: bool, p: T -> bool)
    requires forall a, b :: p(a) && p(b) ==> key(a) == key(b)
    ensures Filter(SortBy(s, key, desc), p) == Filter(s, p)
  {
    if s != [] {
      SortByStable(s[1..], key, desc, p);
      InsertKeepsTies(s[0], SortBy(s[1..], key, desc), key, desc, p);
    }
  }

  /** For every key value, the elements with that key keep their input order. */
  lemma EqualKeysKeepOrder<T>(s: seq<T>, key: T -> int, desc: bool, k: int)
    ensures Filter(SortBy(s, key, desc), KeyIs(key, k)) == Filter(s, KeyIs(key, k))
  {
    SortByStable(s, key, desc, KeyIs(key, k));
  }
}
