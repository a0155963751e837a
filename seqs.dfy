/**
 * The array operations the store and the pages build their new state from:
 * `find`/`some`, `map` with a conditional, `filter`, and `sort` with a
 * numeric descending comparator. `Array.prototype.sort` is stable, and every
 * stable sort gives the same output for the same comparator, so the sort is
 * modelled as a stable insertion sort.
 */
module Seqs {
  import opened Types

  /** Index of the first element satisfying `p` (what `find` returns), or None. */
  function FirstIndex<T>(s: seq<T>, p: T -> bool): (r: Option<nat>)
    ensures r.Some? ==> r.value < |s| && p(s[r.value]) && forall j :: 0 <= j < r.value ==> !p(s[j])
    ensures r.None? <==> forall j :: 0 <= j < |s| ==> !p(s[j])
  {
    if s == [] then None
    else if p(s[0]) then Some(0)
    else match FirstIndex(s[1..], p)
      case None => None
      case Some(k) => Some(k + 1)
  }

  /** `s.map(e => p(e) ? f(e) : e)`. */
  function MapWhere<T>(s: seq<T>, p: T -> bool, f: T -> T): (r: seq<T>)
    ensures |r| == |s|
    ensures forall i :: 0 <= i < |s| ==> r[i] == if p(s[i]) then f(s[i]) else s[i]
  {
    if s == [] then [] else [if p(s[0]) then f(s[0]) else s[0]] + MapWhere(s[1..], p, f)
  }

  /** `s.filter(keep)`. */
  function Filter<T>(s: seq<T>, keep: T -> bool): (r: seq<T>)
    ensures |r| <= |s|
    ensures forall i :: 0 <= i < |r| ==> keep(r[i])
  {
    if s == [] then [] else (if keep(s[0]) then [s[0]] else []) + Filter(s[1..], keep)
  }

  /** Filtering a concatenation filters each part and keeps their order. */
  lemma {:induction false} FilterAppend<T>(a: seq<T>, b: seq<T>, keep: T -> bool)
    ensures Filter(a + b, keep) == Filter(a, keep) + Filter(b, keep)
  {
    if a == [] {
      assert a + b == b;
    } else {
      assert (a + b)[0] == a[0] && (a + b)[1..] == a[1..] + b;
      FilterAppend(a[1..], b, keep);
    }
  }

  /** A filter every element passes keeps the whole sequence; one none passes keeps nothing. */
  lemma {:induction false} FilterAllOrNone<T>(s: seq<T>, keep: T -> bool)
    ensures (forall i :: 0 <= i < |s| ==> keep(s[i])) ==> Filter(s, keep) == s
    ensures (forall i :: 0 <= i < |s| ==> !keep(s[i])) ==> Filter(s, keep) == []
  {
    if s != [] {
      FilterAllOrNone(s[1..], keep);
      assert s == [s[0]] + s[1..];
    }
  }

  /** A filter passed exactly by the positions `lo` to `hi` keeps that slice. */
  lemma {:induction false} FilterRange<T>(s: seq<T>, keep: T -> bool, lo: nat, hi: nat)
    requires lo <= hi <= |s|
    requires forall i :: 0 <= i < |s| ==> (keep(s[i]) <==> lo <= i < hi)
    ensures Filter(s, keep) == s[lo..hi]
    decreases |s|
  {
    if lo == hi {
      FilterAllOrNone(s, keep);
    } else if lo > 0 {
      assert forall i :: 0 <= i < |s| - 1 ==> s[1..][i] == s[i + 1];
      FilterRange(s[1..], keep, lo - 1, hi - 1);
      assert s[1..][lo - 1..hi - 1] == s[lo..hi];
    } else {
      assert forall i :: 0 <= i < |s| - 1 ==> s[1..][i] == s[i + 1];
      FilterRange(s[1..], keep, 0, hi - 1);
      assert [s[0]] + s[1..][..hi - 1] == s[..hi];
    }
  }

  /** The concatenation of `f` over `s`, in order (built from the end, as a loop appending each part does). */
  function FlatMap<T, U>(s: seq<T>, f: T -> seq<U>): seq<U>
  {
    if s == [] then [] else FlatMap(s[..|s| - 1], f) + f(s[|s| - 1])
  }

  /** Mapping over a concatenation concatenates the two results. */
  lemma {:induction false} FlatMapAppend<T, U>(a: seq<T>, b: seq<T>, f: T -> seq<U>)
    ensures FlatMap(a + b, f) == FlatMap(a, f) + FlatMap(b, f)
    decreases |b|
  {
    if b == [] {
      assert a + b == a;
    } else {
      var b' := b[..|b| - 1];
      assert (a + b)[..|a + b| - 1] == a + b';
      assert (a + b)[|a + b| - 1] == b[|b| - 1];
      FlatMapAppend(a, b', f);
    }
  }

  /** Filtering keeps exactly the elements that pass, each as often as before. */
  lemma {:induction false} FilterMultiset<T>(s: seq<T>, keep: T -> bool)
    ensures forall x :: x in multiset(Filter(s, keep)) ==> keep(x)
    ensures forall x :: keep(x) ==> multiset(Filter(s, keep))[x] == multiset(s)[x]
  {
    if s != [] {
      FilterMultiset(s[1..], keep);
      assert s == [s[0]] + s[1..];
    }
  }

  predicate SortedDesc<T>(s: seq<T>, key: T -> int)
  {
    forall i, j :: 0 <= i < j < |s| ==> key(s[i]) >= key(s[j])
  }

  /** Number of leading elements whose key is strictly greater than that of `x`. */
  function InsertPos<T>(x: T, s: seq<T>, key: T -> int): (k: nat)
    ensures k <= |s|
  {
    if s == [] || key(x) >= key(s[0]) then 0 else 1 + InsertPos(x, s[1..], key)
  }

  /** Inserts `x` in front of the first element whose key is not greater than its own. */
  function InsertDesc<T>(x: T, s: seq<T>, key: T -> int): seq<T>
  {
    if s == [] || key(x) >= key(s[0]) then [x] + s else [s[0]] + InsertDesc(x, s[1..], key)
  }

  /** Stable sort, non-increasing by `key`. */
  function SortDesc<T>(s: seq<T>, key: T -> int): seq<T>
  {
    if s == [] then [] else InsertDesc(s[0], SortDesc(s[1..], key), key)
  }

  /** Insertion splits `s` at InsertPos and keeps both halves in order. */
  lemma {:induction false} InsertDescSplit<T>(x: T, s: seq<T>, key: T -> int)
    ensures InsertDesc(x, s, key) == s[..InsertPos(x, s, key)] + [x] + s[InsertPos(x, s, key)..]
    ensures forall j :: 0 <= j < InsertPos(x, s, key) ==> key(s[j]) > key(x)
  {
    if s != [] && key(x) < key(s[0]) {
      InsertDescSplit(x, s[1..], key);
      var k := InsertPos(x, s[1..], key);
      assert s[..k + 1] == [s[0]] + s[1..][..k];
      assert s[k + 1..] == s[1..][k..];
    }
  }

  /** Insertion adds exactly `x`. */
  lemma InsertDescMultiset<T>(x: T, s: seq<T>, key: T -> int)
    ensures multiset(InsertDesc(x, s, key)) == multiset(s) + multiset{x}
  {
    InsertDescSplit(x, s, key);
    var k := InsertPos(x, s, key);
    var a, b := s[..k], s[k..];
    assert s == a + b;
    calc {
      multiset(InsertDesc(x, s, key));
      multiset(a + [x] + b);
      multiset(a) + multiset{x} + multiset(b);
      multiset(a + b) + multiset{x};
    }
  }

  /** Inserting into a sorted sequence keeps it sorted. */
  lemma InsertDescSorted<T>(x: T, s: seq<T>, key: T -> int)
    requires SortedDesc(s, key)
    ensures SortedDesc(InsertDesc(x, s, key), key)
  {
    InsertDescSplit(x, s, key);
    InsertPosBound(x, s, key);
    var k := InsertPos(x, s, key);
    var r := InsertDesc(x, s, key);
    assert |r| == |s| + 1;
    assert forall i :: 0 <= i < k ==> r[i] == s[i];
    assert r[k] == x;
    assert forall i :: k < i < |r| ==> r[i] == s[i - 1];
  }

  /** Insertion into a sorted sequence puts `x` after every strictly greater key and before the rest. */
  lemma InsertDescPlacement<T>(x: T, s: seq<T>, key: T -> int)
    requires SortedDesc(s, key)
    ensures var r := InsertDesc(x, s, key);
            exists k :: 0 <= k < |r| && r[k] == x &&
              (forall j :: 0 <= j < k ==> key(r[j]) > key(x)) &&
              (forall j :: k < j < |r| ==> key(r[j]) <= key(x))
  {
    InsertDescSplit(x, s, key);
    InsertPosBound(x, s, key);
    var k := InsertPos(x, s, key);
    var r := InsertDesc(x, s, key);
    assert r[k] == x;
    assert forall j :: 0 <= j < k ==> r[j] == s[j];
    assert forall j :: k < j < |r| ==> r[j] == s[j - 1];
  }

  /** In a sorted sequence, everything from InsertPos on has a key not above that of `x`. */
  lemma {:induction false} InsertPosBound<T>(x: T, s: seq<T>, key: T -> int)
    requires SortedDesc(s, key)
    ensures forall j :: InsertPos(x, s, key) <= j < |s| ==> key(s[j]) <= key(x)
  {
    var k := InsertPos(x, s, key);
    if k < |s| {
      InsertPosStops(x, s, key);
    }
  }

  lemma {:induction false} InsertPosStops<T>(x: T, s: seq<T>, key: T -> int)
    requires InsertPos(x, s, key) < |s|
    ensures key(x) >= key(s[InsertPos(x, s, key)])
  {
    if s != [] && key(x) < key(s[0]) {
      InsertPosStops(x, s[1..], key);
    }
  }

  /** The sort yields a non-increasing permutation of its input. */
  lemma {:induction false} SortDescCorrect<T>(s: seq<T>, key: T -> int)
    ensures SortedDesc(SortDesc(s, key), key)
    ensures multiset(SortDesc(s, key)) == multiset(s)
    ensures |SortDesc(s, key)| == |s|
  {
    if s != [] {
      SortDescCorrect(s[1..], key);
      InsertDescSorted(s[0], SortDesc(s[1..], key), key);
      InsertDescMultiset(s[0], SortDesc(s[1..], key), key);
      assert s == [s[0]] + s[1..];
    }
  }

  /** An already sorted sequence is left exactly as it is (stability). */
  lemma {:induction false} SortDescSortedFixpoint<T>(s: seq<T>, key: T -> int)
    requires SortedDesc(s, key)
    ensures SortDesc(s, key) == s
  {
    if s != [] {
      assert SortedDesc(s[1..], key);
      SortDescSortedFixpoint(s[1..], key);
    }
  }

  predicate Distinct<T(==)>(s: seq<T>)
  {
    forall i, j :: 0 <= i < j < |s| ==> s[i] != s[j]
  }

  /** Index of the first occurrence of `x`. */
  function FirstOcc<T(==)>(s: seq<T>, x: T): (k: nat)
    requires x in s
    ensures k < |s| && s[k] == x && forall j :: 0 <= j < k ==> s[j] != x
  {
    if s[0] == x then 0 else 1 + FirstOcc(s[1..], x)
  }

  /** The distinct elements of `s` in order of first appearance (a `Map` keyed by insertion). */
  function Dedupe<T(==)>(s: seq<T>): seq<T>
  {
    if s == [] then []
    else
      var p := Dedupe(s[..|s| - 1]);
      if s[|s| - 1] in p then p else p + [s[|s| - 1]]
  }

  /**
   * Deduplication keeps exactly the elements of `s`, each once, ordered by
   * where each first appears in `s`.
   */
  lemma {:induction false} DedupeSpec<T>(s: seq<T>)
    ensures Distinct(Dedupe(s))
    ensures forall x :: x in Dedupe(s) <==> x in s
    ensures forall i, j :: 0 <= i < j < |Dedupe(s)| ==> FirstOcc(s, Dedupe(s)[i]) < FirstOcc(s, Dedupe(s)[j])
  {
    if s != [] {
      var init := s[..|s| - 1];
      var x := s[|s| - 1];
      DedupeSpec(init);
      assert s == init + [x];
      var p := Dedupe(init);
      forall y | y in init
        ensures FirstOcc(s, y) == FirstOcc(init, y)
      {
        var a, b := FirstOcc(s, y), FirstOcc(init, y);
        assert s[b] == y;
      }
      if x !in p {
        assert x !in init;
        assert FirstOcc(s, x) == |s| - 1;
        var d := p + [x];
        forall i, j | 0 <= i < j < |d|
          ensures FirstOcc(s, d[i]) < FirstOcc(s, d[j])
        {
          assert d[i] == p[i] && p[i] in p;
          if j < |p| {
            assert d[j] == p[j];
          }
        }
      }
    }
  }
}
