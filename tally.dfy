/**
 * Counting over sequences and maps: the filtered counts, dictionary histograms and
 * first-occurrence orders that the analyses accumulate in their loops.
 */
module Tally {

  /** No element occurs twice. */
  predicate Distinct<T(==)>(s: seq<T>) {
    forall i, j :: 0 <= i < j < |s| ==> s[i] != s[j]
  }

  /** Without its last element a sequence without repeats still has none, and does not hold that element. */
  lemma DistinctInit<T>(s: seq<T>)
    requires Distinct(s) && s != []
    ensures Distinct(s[..|s| - 1]) && s[|s| - 1] !in s[..|s| - 1]
  {
    var init := s[..|s| - 1];
    forall i | 0 <= i < |init| ensures init[i] != s[|s| - 1] {
      assert init[i] == s[i];
    }
  }

  /** The number of elements of `s` that satisfy `p`, counted from the front. */
  function Count<T>(s: seq<T>, p: T -> bool): (n: nat)
    ensures n <= |s|
  {
    if s == [] then 0 else Count(s[..|s| - 1], p) + (if p(s[|s| - 1]) then 1 else 0)
  }

  /** Over a sequence without repeats, the count is the size of the set of elements picked. */
  lemma {:induction false} CountOfDistinct<T>(s: seq<T>, p: T -> bool)
    requires Distinct(s)
    ensures Count(s, p) == |set x | x in s && p(x)|
  {
    if s != [] {
      var init, last := s[..|s| - 1], s[|s| - 1];
      CountOfDistinct(init, p);
      var before := set x | x in init && p(x);
      var after := set x | x in s && p(x);
      assert last !in init by {
        forall i | 0 <= i < |init| ensures init[i] != last {
          assert init[i] == s[i];
        }
      }
      if p(last) {
        assert after == before + {last};
      } else {
        assert after == before;
      }
    } else {
      assert (set x | x in s && p(x)) == {};
    }
  }

  /**
   * The values of `s` in the order of their first occurrence: the key order of a Python
   * dict that is filled by visiting `s` from the front.
   */
  function FirstOccurrences<T(==)>(s: seq<T>): (d: seq<T>)
    ensures Distinct(d)
    ensures forall i :: 0 <= i < |s| ==> s[i] in d
    ensures forall i :: 0 <= i < |d| ==> d[i] in s
  {
    if s == [] then []
    else
      var init := s[..|s| - 1];
      var d := FirstOccurrences(init);
      assert forall i :: 0 <= i < |s| - 1 ==> s[i] == init[i];
      if s[|s| - 1] in d then d else d + [s[|s| - 1]]
  }

  /** The sum of `w(v)` over the values `v` of a map. */
  ghost function SumBy<K, V>(m: map<K, V>, w: V -> nat): nat
    decreases |m.Keys|
  {
    if m.Keys == {} then 0
    else
      var k :| k in m;
      assert (m - {k}).Keys < m.Keys;
      w(m[k]) + SumBy(m - {k}, w)
  }

  /** The sum does not depend on which key is taken out first. */
  lemma SumByRemove<K, V>(m: map<K, V>, w: V -> nat, k: K)
    requires k in m
    ensures SumBy(m, w) == w(m[k]) + SumBy(m - {k}, w)
    decreases |m.Keys|
  {
    var k' :| k' in m && SumBy(m, w) == w(m[k']) + SumBy(m - {k'}, w);
    if k' != k {
      var withoutK', withoutK := m - {k'}, m - {k};
      assert withoutK'.Keys < m.Keys && withoutK.Keys < m.Keys;
      assert k in withoutK' && withoutK'[k] == m[k];
      assert k' in withoutK && withoutK[k'] == m[k'];
      SumByRemove(withoutK', w, k);
      SumByRemove(withoutK, w, k');
      assert withoutK' - {k} == withoutK - {k'};
    }
  }

  /** Setting the entry of `k` to `v` changes the sum by the difference of the weights. */
  lemma SumByUpdate<K, V>(m: map<K, V>, w: V -> nat, k: K, v: V)
    ensures k in m ==> SumBy(m[k := v], w) == SumBy(m, w) - w(m[k]) + w(v)
    ensures k !in m ==> SumBy(m[k := v], w) == SumBy(m, w) + w(v)
  {
    SumByRemove(m[k := v], w, k);
    if k in m {
      SumByRemove(m, w, k);
      assert m[k := v] - {k} == m - {k};
    } else {
      assert m[k := v] - {k} == m;
    }
  }

  /** If every weight lies in [lo, hi], the sum lies in [lo * |m|, hi * |m|]. */
  lemma {:induction false} SumByBounds<K, V>(m: map<K, V>, w: V -> nat, lo: nat, hi: nat)
    requires forall k :: k in m ==> lo <= w(m[k]) <= hi
    ensures lo * |m| <= SumBy(m, w) <= hi * |m|
    decreases |m.Keys|
  {
    if m.Keys != {} {
      var k :| k in m;
      var rest := m - {k};
      SumByRemove(m, w, k);
      assert rest.Keys == m.Keys - {k};
      assert |m.Keys| == |m| && |rest.Keys| == |rest|;
      var n := |rest|;
      assert |m| == n + 1;
      SumByBounds(rest, w, lo, hi);
      var s, s' := SumBy(m, w), SumBy(rest, w);
      assert s == w(m[k]) + s';
      MulSucc(lo, n);
      MulSucc(hi, n);
    } else {
      assert |m.Keys| == |m|;
    }
  }

  /** A step of `SumByBounds`, kept apart so that its proof stays linear. */
  lemma MulSucc(a: nat, n: nat)
    ensures a * (n + 1) == a * n + a
  {
  }

  /**
   * The histogram of `s`, built as the source builds its count dictionaries: for each
   * element in turn, create the entry at 0 if missing, then add one.
   */
  function Histogram<K(==)>(s: seq<K>): map<K, nat> {
    if s == [] then map[]
    else
      var h := Histogram(s[..|s| - 1]);
      var x := s[|s| - 1];
      h[x := (if x in h then h[x] else 0) + 1]
  }

  /** Adding one more value to the end updates only that value's entry, creating it at 1 if missing. */
  lemma HistogramAppend<K>(s: seq<K>, x: K)
    ensures Histogram(s + [x]) == Histogram(s)[x := (if x in Histogram(s) then Histogram(s)[x] else 0) + 1]
  {
    assert (s + [x])[..|s|] == s;
  }

  /** The number of positions of `s` that hold `x`; it is 0 exactly when `x` does not occur. */
  function Occurrences<K(==)>(s: seq<K>, x: K): (n: nat)
    ensures n <= |s|
    ensures n == 0 <==> x !in s
  {
    if s == [] then 0
    else
      assert s == s[..|s| - 1] + [s[|s| - 1]];
      Occurrences(s[..|s| - 1], x) + (if s[|s| - 1] == x then 1 else 0)
  }

  /** The histogram has an entry for `x` exactly when `x` occurs in `s`, and that entry is its count. */
  lemma {:induction false} HistogramCounts<K>(s: seq<K>, x: K)
    ensures x in Histogram(s) <==> x in s
    ensures x in Histogram(s) ==> Histogram(s)[x] == Occurrences(s, x)
  {
    if s != [] {
      var init := s[..|s| - 1];
      HistogramCounts(init, x);
      assert s == init + [s[|s| - 1]];
    }
  }

  /** The entries of the histogram add up to the length of `s`. */
  lemma {:induction false} HistogramTotal<K>(s: seq<K>)
    ensures SumBy(Histogram(s), (n: nat) => n) == |s|
  {
    if s != [] {
      var init := s[..|s| - 1];
      HistogramTotal(init);
      var h := Histogram(init);
      var x := s[|s| - 1];
      SumByUpdate(h, (n: nat) => n, x, (if x in h then h[x] else 0) + 1);
    } else {
      assert Histogram(s).Keys == {};
    }
  }

  /** A sequence has at most as many distinct values as elements. */
  lemma {:induction false} CardOfElements<T>(s: seq<T>)
    ensures |set x | x in s| <= |s|
  {
    if s != [] {
      var init := s[..|s| - 1];
      CardOfElements(init);
      assert (set x | x in s) == (set x | x in init) + {s[|s| - 1]} by {
        assert s == init + [s[|s| - 1]];
      }
    } else {
      assert (set x | x in s) == {};
    }
  }

  /** The results of `f` on each element of `xs` in turn, concatenated. */
  function FlatMap<A, B>(xs: seq<A>, f: A -> seq<B>): seq<B> {
    if xs == [] then [] else FlatMap(xs[..|xs| - 1], f) + f(xs[|xs| - 1])
  }

  lemma {:induction false} FlatMapAppend<A, B>(xs: seq<A>, ys: seq<A>, f: A -> seq<B>)
    ensures FlatMap(xs + ys, f) == FlatMap(xs, f) + FlatMap(ys, f)
    decreases |ys|
  {
    if ys == [] {
      assert xs + ys == xs;
    } else {
      var init := ys[..|ys| - 1];
      FlatMapAppend(xs, init, f);
      assert (xs + ys)[..|xs + ys| - 1] == xs + init;
    }
  }

  /** The union of `f` over the elements of `xs`. */
  function UnionOf<A, B>(xs: seq<A>, f: A -> set<B>): set<B> {
    if xs == [] then {} else UnionOf(xs[..|xs| - 1], f) + f(xs[|xs| - 1])
  }

  lemma {:induction false} UnionOfMembership<A, B>(xs: seq<A>, f: A -> set<B>, y: B)
    ensures y in UnionOf(xs, f) <==> exists i :: 0 <= i < |xs| && y in f(xs[i])
  {
    if xs != [] {
      var init := xs[..|xs| - 1];
      UnionOfMembership(init, f, y);
      if y in UnionOf(init, f) {
        var i :| 0 <= i < |init| && y in f(init[i]);
        assert xs[i] == init[i];
      }
      if exists i :: 0 <= i < |xs| && y in f(xs[i]) {
        var i :| 0 <= i < |xs| && y in f(xs[i]);
        if i < |init| {
          assert xs[i] == init[i];
        }
      }
    }
  }

  /** The set of the values of `f` on the elements of `xs`, collected from the front. */
  function ImageOf<A, B>(xs: seq<A>, f: A -> B): set<B> {
    if xs == [] then {} else ImageOf(xs[..|xs| - 1], f) + {f(xs[|xs| - 1])}
  }

  lemma {:induction false} ImageOfMembership<A, B>(xs: seq<A>, f: A -> B, y: B)
    ensures y in ImageOf(xs, f) <==> exists i :: 0 <= i < |xs| && y == f(xs[i])
  {
    if xs != [] {
      var init := xs[..|xs| - 1];
      ImageOfMembership(init, f, y);
      if exists i :: 0 <= i < |init| && y == f(init[i]) {
        var i :| 0 <= i < |init| && y == f(init[i]);
        assert xs[i] == init[i];
      }
      if exists i :: 0 <= i < |xs| && y == f(xs[i]) {
        var i :| 0 <= i < |xs| && y == f(xs[i]);
        if i < |init| {
          assert xs[i] == init[i];
        }
      }
    }
  }
}
