/**
 * Magnitude pruning of the 10x10 weight matrix: weights drawn once from
 * [-1, 1), a threshold taken as the k-th smallest absolute weight, and the
 * mask that prunes every weight whose magnitude lies strictly below it.
 */
module Pruning {
  import opened Rounding

  /** Number of weights in the matrix. */
  const WeightCount: nat := 100

  /** The pruning threshold: a finite magnitude, or +infinity at 100% sparsity. */
  datatype Threshold = Finite(value: real) | Infinite

  /**
   * Weight generation: each draw u in [0, 1) becomes the weight 2u - 1.
   * The draws of the host's random generator are the input `random`.
   */
  method GenerateWeights(random: seq<real>) returns (w: seq<real>)
    requires |random| == WeightCount
    requires forall i :: 0 <= i < |random| ==> 0.0 <= random[i] < 1.0
    ensures |w| == WeightCount
    ensures forall i :: 0 <= i < |w| ==> w[i] == random[i] * 2.0 - 1.0
    ensures forall i :: 0 <= i < |w| ==> -1.0 <= w[i] < 1.0
  {
    w := [];
    var i := 0;
    while i < WeightCount
      invariant 0 <= i <= WeightCount
      invariant |w| == i
      invariant forall j :: 0 <= j < i ==> w[j] == random[j] * 2.0 - 1.0
      invariant forall j :: 0 <= j < i ==> -1.0 <= w[j] < 1.0
    {
      w := w + [random[i] * 2.0 - 1.0];
      i := i + 1;
    }
  }

  // ---------------------------------------------------------------------------
  // Sorting the magnitudes
  // ---------------------------------------------------------------------------

  predicate Sorted(s: seq<real>)
  {
    forall i, j :: 0 <= i < j < |s| ==> s[i] <= s[j]
  }

  /** The magnitudes of the weights, index by index. */
  function Magnitudes(ws: seq<real>): (r: seq<real>)
    ensures |r| == |ws|
    ensures forall i :: 0 <= i < |r| ==> r[i] == Abs(ws[i]) && r[i] >= 0.0
  {
    seq(|ws|, i requires 0 <= i < |ws| => Abs(ws[i]))
  }

  /** A sorted sequence stays sorted under a head no larger than its first element. */
  lemma SortedCons(h: real, t: seq<real>)
    requires Sorted(t) && (t != [] ==> h <= t[0])
    ensures Sorted([h] + t)
  {
    var r := [h] + t;
    forall i, j | 0 <= i < j < |r|
      ensures r[i] <= r[j]
    {
      if i > 0 {
        assert r[i] == t[i - 1] && r[j] == t[j - 1];
      } else {
        assert r[j] == t[j - 1];
      }
    }
  }

  /** Insert x into a sorted sequence, keeping it sorted; the result starts with the smaller of x and the old head. */
  function Insert(x: real, s: seq<real>): (r: seq<real>)
    requires Sorted(s)
    ensures Sorted(r)
    ensures |r| == |s| + 1
    ensures multiset(r) == multiset(s) + multiset{x}
    ensures r[0] == if s == [] || x <= s[0] then x else s[0]
  {
    if s == [] then [x]
    else if x <= s[0] then
      SortedCons(x, s);
      [x] + s
    else
      var rest := Insert(x, s[1..]);
      assert s == [s[0]] + s[1..];
      SortedCons(s[0], rest);
      [s[0]] + rest
  }

  /** The ascending sort of the magnitude list (insertion sort). */
  function SortAscending(s: seq<real>): (r: seq<real>)
    ensures Sorted(r)
    ensures |r| == |s|
    ensures multiset(r) == multiset(s)
  {
    if s == [] then []
    else
      assert s == [s[0]] + s[1..];
      Insert(s[0], SortAscending(s[1..]))
  }

  /**
   * A sorted permutation is unique: whichever algorithm the host uses to
   * sort, the sorted magnitudes (and so the threshold) are the same.
   */
  lemma {:induction false} SortedUnique(s: seq<real>, t: seq<real>)
    requires Sorted(s) && Sorted(t)
    requires multiset(s) == multiset(t)
    ensures s == t
  {
    assert |s| == |multiset(s)| == |multiset(t)| == |t|;
    if s != [] {
      SortedHeads(s, t);
      TailMultiset(s, t);
      SortedUnique(s[1..], t[1..]);
      assert s == [s[0]] + s[1..] && t == [t[0]] + t[1..];
    }
  }

  /** Two sorted permutations of each other start with the same (least) element. */
  lemma SortedHeads(s: seq<real>, t: seq<real>)
    requires Sorted(s) && Sorted(t) && s != [] && t != []
    requires multiset(s) == multiset(t)
    ensures s[0] == t[0]
  {
    assert s[0] in multiset(t) && t[0] in multiset(s);
    var j :| 0 <= j < |t| && t[j] == s[0];
    var i :| 0 <= i < |s| && s[i] == t[0];
  }

  /** Removing equal heads from equal multisets leaves equal multisets. */
  lemma TailMultiset(s: seq<real>, t: seq<real>)
    requires s != [] && t != [] && s[0] == t[0]
    requires multiset(s) == multiset(t)
    ensures multiset(s[1..]) == multiset(t[1..])
  {
    assert s == [s[0]] + s[1..];
    assert t == [t[0]] + t[1..];
    assert multiset(s[1..]) == multiset(s) - multiset([s[0]]);
    assert multiset(t[1..]) == multiset(t) - multiset([t[0]]);
  }

  // ---------------------------------------------------------------------------
  // The threshold and the mask
  // ---------------------------------------------------------------------------

  /** k = floor(sparsity / 100 * n): the index of the magnitude used as threshold. */
  function CutoffIndex(sparsity: int, n: nat): (k: int)
    ensures 0 <= sparsity <= 100 ==> 0 <= k <= n
  {
    var f := (sparsity as real / 100.0) * n as real;
    assert 0 <= sparsity <= 100 ==> 0.0 <= f <= n as real by {
      if 0 <= sparsity <= 100 {
        assert 0.0 <= sparsity as real / 100.0 <= 1.0;
      }
    }
    Floor(f)
  }

  /**
   * The threshold for a sparsity percentage: 0 at 0%, +infinity at 100%,
   * otherwise the k-th smallest magnitude; an index outside the list falls
   * back to 0 (not to the last magnitude).
   */
  function ComputeThreshold(ws: seq<real>, sparsity: int): (t: Threshold)
    ensures t.Infinite? <==> sparsity == 100
    ensures t.Finite? ==> t.value >= 0.0
    ensures sparsity == 0 ==> t == Finite(0.0)
  {
    if sparsity == 0 then Finite(0.0)
    else if sparsity == 100 then Infinite
    else
      var sorted := SortAscending(Magnitudes(ws));
      var k := CutoffIndex(sparsity, |sorted|);
      if 0 <= k < |sorted| then
        assert sorted[k] in multiset(Magnitudes(ws));
        Finite(sorted[k])
      else Finite(0.0)
  }

  /**
   * A weight is pruned iff its magnitude lies strictly below the threshold:
   * an infinite threshold prunes every weight, a threshold of 0 or below none.
   */
  predicate IsPruned(w: real, t: Threshold)
    ensures t.Infinite? ==> IsPruned(w, t)
    ensures t.Finite? && t.value <= 0.0 ==> !IsPruned(w, t)
  {
    match t
    case Infinite => true
    case Finite(v) => Abs(w) < v
  }

  /** Number of pruned weights. */
  function CountPruned(ws: seq<real>, t: Threshold): (c: nat)
    ensures c <= |ws|
  {
    if ws == [] then 0
    else (if IsPruned(ws[0], t) then 1 else 0) + CountPruned(ws[1..], t)
  }

  /** Number of elements of s strictly below v. */
  function CountBelow(s: seq<real>, v: real): (c: nat)
    ensures c <= |s|
  {
    if s == [] then 0
    else (if s[0] < v then 1 else 0) + CountBelow(s[1..], v)
  }

  lemma {:induction false} CountBelowAppend(a: seq<real>, b: seq<real>, v: real)
    ensures CountBelow(a + b, v) == CountBelow(a, v) + CountBelow(b, v)
  {
    if a == [] {
      assert a + b == b;
    } else {
      assert (a + b)[1..] == a[1..] + b;
      CountBelowAppend(a[1..], b, v);
    }
  }

  /** Taking out the element at index j takes one copy of it out of the multiset. */
  lemma RemoveAt(b: seq<real>, j: nat)
    requires j < |b|
    ensures b == b[..j] + [b[j]] + b[j + 1..]
    ensures multiset(b[..j] + b[j + 1..]) == multiset(b) - multiset{b[j]}
  {
    assert b == b[..j] + [b[j]] + b[j + 1..];
  }

  /** Taking out the element at index j lowers the count below v by one exactly when that element lies below v. */
  lemma CountBelowRemove(b: seq<real>, j: nat, v: real)
    requires j < |b|
    ensures CountBelow(b, v) == CountBelow(b[..j] + b[j + 1..], v) + (if b[j] < v then 1 else 0)
  {
    RemoveAt(b, j);
    CountBelowAppend(b[..j] + [b[j]], b[j + 1..], v);
    CountBelowAppend(b[..j], [b[j]], v);
    CountBelowAppend(b[..j], b[j + 1..], v);
  }

  /** Matching the head of a against b[j] leaves the rest of a a permutation of b without b[j]. */
  lemma PermutationTail(a: seq<real>, b: seq<real>, j: nat)
    requires multiset(a) == multiset(b) && a != [] && j < |b| && b[j] == a[0]
    ensures multiset(a[1..]) == multiset(b[..j] + b[j + 1..])
  {
    RemoveAt(b, j);
    RemoveAt(a, 0);
    assert a[..0] + a[1..] == a[1..];
  }

  /** Counting below v does not depend on the order of the elements. */
  lemma {:induction false} CountBelowPermutation(a: seq<real>, b: seq<real>, v: real)
    requires multiset(a) == multiset(b)
    ensures CountBelow(a, v) == CountBelow(b, v)
  {
    if a == [] {
      assert |b| == |multiset(b)| == 0;
    } else {
      assert a[0] in multiset(b);
      var j :| 0 <= j < |b| && b[j] == a[0];
      PermutationTail(a, b, j);
      CountBelowPermutation(a[1..], b[..j] + b[j + 1..], v);
      CountBelowRemove(b, j, v);
    }
  }

  /** The pruned count at a finite threshold is the count of magnitudes below it. */
  lemma {:induction false} CountPrunedMagnitudes(ws: seq<real>, v: real)
    ensures CountPruned(ws, Finite(v)) == CountBelow(Magnitudes(ws), v)
  {
    if ws != [] {
      assert Magnitudes(ws)[1..] == Magnitudes(ws[1..]);
      CountPrunedMagnitudes(ws[1..], v);
    }
  }

  /** In a sorted list, at most k elements lie strictly below the k-th. */
  lemma {:induction false} SortedCountBelow(s: seq<real>, k: nat)
    requires Sorted(s) && k < |s|
    ensures CountBelow(s, s[k]) <= k
  {
    assert s == s[..k] + s[k..];
    CountBelowAppend(s[..k], s[k..], s[k]);
    NoneBelowMinimum(s[k..], s[k]);
  }

  /** Nothing in s lies below a lower bound of s. */
  lemma {:induction false} NoneBelowMinimum(s: seq<real>, v: real)
    requires forall i :: 0 <= i < |s| ==> v <= s[i]
    ensures CountBelow(s, v) == 0
  {
    if s != [] {
      NoneBelowMinimum(s[1..], v);
    }
  }

  /** Everything in s lies below a strict upper bound of s. */
  lemma {:induction false} AllBelowBound(s: seq<real>, v: real)
    requires forall i :: 0 <= i < |s| ==> s[i] < v
    ensures CountBelow(s, v) == |s|
  {
    if s != [] {
      AllBelowBound(s[1..], v);
    }
  }

  /** No two weights share a magnitude. */
  predicate DistinctMagnitudes(ws: seq<real>)
  {
    forall i, j :: 0 <= i < j < |ws| ==> Abs(ws[i]) != Abs(ws[j])
  }

  /** A value occurring twice in a sequence has multiplicity at least 2. */
  lemma {:induction false} RepeatedMultiplicity(s: seq<real>, i: nat, j: nat)
    requires i < j < |s| && s[i] == s[j]
    ensures multiset(s)[s[i]] >= 2
  {
    assert s == s[..i] + [s[i]] + s[i + 1..j] + [s[j]] + s[j + 1..];
  }

  /** A value of multiplicity at least 2 occurs at two distinct indices. */
  lemma {:induction false} MultiplicityRepeated(s: seq<real>, v: real)
    requires multiset(s)[v] >= 2
    ensures exists i, j :: 0 <= i < j < |s| && s[i] == v && s[j] == v
  {
    assert s == [s[0]] + s[1..];
    if s[0] == v {
      assert v in multiset(s[1..]);
      var j :| 0 <= j < |s[1..]| && s[1..][j] == v;
      assert s[0] == v && s[j + 1] == v;
    } else {
      MultiplicityRepeated(s[1..], v);
      var i, j :| 0 <= i < j < |s[1..]| && s[1..][i] == v && s[1..][j] == v;
      assert s[i + 1] == v && s[j + 1] == v;
    }
  }

  /** The sorted magnitudes of weights with distinct magnitudes are strictly increasing. */
  lemma DistinctSortedStrict(ws: seq<real>, i: nat, k: nat)
    requires DistinctMagnitudes(ws)
    requires i < k < |ws|
    ensures SortAscending(Magnitudes(ws))[i] < SortAscending(Magnitudes(ws))[k]
  {
    var s := SortAscending(Magnitudes(ws));
    if s[i] == s[k] {
      RepeatedMultiplicity(s, i, k);
      MultiplicityRepeated(Magnitudes(ws), s[i]);
      assert false;
    }
  }

  /** The full count: every weight is pruned at an infinite threshold. */
  lemma {:induction false} CountPrunedInfinite(ws: seq<real>)
    ensures CountPruned(ws, Infinite) == |ws|
  {
    if ws != [] {
      CountPrunedInfinite(ws[1..]);
    }
  }

  /** Sparsity 0 prunes nothing; sparsity 100 prunes every weight. */
  lemma SparsityExtremes(ws: seq<real>)
    ensures CountPruned(ws, ComputeThreshold(ws, 0)) == 0
    ensures CountPruned(ws, ComputeThreshold(ws, 100)) == |ws|
  {
    CountPrunedMagnitudes(ws, 0.0);
    NoneBelowMinimum(Magnitudes(ws), 0.0);
    CountPrunedInfinite(ws);
  }

  /** The cutoff index is 0 at 0% and n at 100%. */
  lemma CutoffAtExtremes(n: nat)
    ensures CutoffIndex(0, n) == 0
    ensures CutoffIndex(100, n) == n
  {
    assert (100 as real / 100.0) * n as real == n as real;
  }

  /** For sparsity strictly between 0 and 100 the cutoff index is a valid index when there are weights. */
  lemma CutoffInRange(sparsity: int, n: nat)
    requires 0 < sparsity < 100
    ensures 0 <= CutoffIndex(sparsity, n)
    ensures n > 0 ==> CutoffIndex(sparsity, n) < n
  {
    var f := (sparsity as real / 100.0) * n as real;
    assert 0.0 <= f;
    assert f <= n as real;
    if n > 0 {
      assert f < n as real;
    }
  }

  /** Strictly between 0% and 100%, the pruned count is the count of sorted magnitudes below the k-th. */
  lemma {:induction false} PrunedMiddle(ws: seq<real>, sparsity: int)
    requires 0 < sparsity < 100 && |ws| > 0
    ensures var sorted := SortAscending(Magnitudes(ws));
            var k := CutoffIndex(sparsity, |ws|);
            && 0 <= k < |ws|
            && CountPruned(ws, ComputeThreshold(ws, sparsity)) == CountBelow(sorted, sorted[k])
  {
    CutoffInRange(sparsity, |ws|);
    var sorted := SortAscending(Magnitudes(ws));
    var k := CutoffIndex(sparsity, |ws|);
    assert ComputeThreshold(ws, sparsity) == Finite(sorted[k]);
    CountPrunedMagnitudes(ws, sorted[k]);
    CountBelowPermutation(Magnitudes(ws), sorted, sorted[k]);
  }

  /** Without weights nothing is pruned, whatever the sparsity below 100. */
  lemma {:induction false} PrunedEmpty(ws: seq<real>, sparsity: int)
    requires |ws| == 0 && sparsity != 100
    ensures CountPruned(ws, ComputeThreshold(ws, sparsity)) == 0
  {
  }

  /** At most k = floor(sparsity / 100 * n) weights are pruned, for every sparsity in [0, 100]. */
  lemma PrunedAtMostCutoff(ws: seq<real>, sparsity: int)
    requires 0 <= sparsity <= 100
    ensures CountPruned(ws, ComputeThreshold(ws, sparsity)) <= CutoffIndex(sparsity, |ws|)
  {
    SparsityExtremes(ws);
    if 0 < sparsity < 100 {
      CutoffInRange(sparsity, |ws|);
      if |ws| > 0 {
        PrunedMiddle(ws, sparsity);
        SortedCountBelow(SortAscending(Magnitudes(ws)), CutoffIndex(sparsity, |ws|));
      } else {
        PrunedEmpty(ws, sparsity);
      }
    } else {
      CutoffAtExtremes(|ws|);
    }
  }

  /** In a sorted list whose first k elements lie strictly below the k-th, exactly k lie below it. */
  lemma StrictCountBelow(s: seq<real>, k: nat)
    requires Sorted(s) && k < |s|
    requires forall i :: 0 <= i < k ==> s[i] < s[k]
    ensures CountBelow(s, s[k]) == k
  {
    assert s == s[..k] + s[k..];
    CountBelowAppend(s[..k], s[k..], s[k]);
    NoneBelowMinimum(s[k..], s[k]);
    AllBelowBound(s[..k], s[k]);
  }

  /** With distinct magnitudes, the sorted list has exactly k elements below its k-th. */
  lemma DistinctCountBelow(ws: seq<real>, k: nat)
    requires DistinctMagnitudes(ws) && k < |ws|
    ensures CountBelow(SortAscending(Magnitudes(ws)), SortAscending(Magnitudes(ws))[k]) == k
  {
    forall i | 0 <= i < k
      ensures SortAscending(Magnitudes(ws))[i] < SortAscending(Magnitudes(ws))[k]
    {
      DistinctSortedStrict(ws, i, k);
    }
    StrictCountBelow(SortAscending(Magnitudes(ws)), k);
  }

  /** With distinct magnitudes exactly k weights are pruned. */
  lemma PrunedExactlyCutoff(ws: seq<real>, sparsity: int)
    requires 0 <= sparsity <= 100
    requires DistinctMagnitudes(ws)
    ensures CountPruned(ws, ComputeThreshold(ws, sparsity)) == CutoffIndex(sparsity, |ws|)
  {
    SparsityExtremes(ws);
    if 0 < sparsity < 100 {
      CutoffInRange(sparsity, |ws|);
      if |ws| > 0 {
        PrunedMiddle(ws, sparsity);
        DistinctCountBelow(ws, CutoffIndex(sparsity, |ws|));
      } else {
        PrunedEmpty(ws, sparsity);
      }
    } else {
      CutoffAtExtremes(|ws|);
    }
  }

  /** Pruning a single weight depends on its magnitude only, not its sign. */
  lemma SignIndependent(w: real, t: Threshold)
    ensures IsPruned(-w, t) == IsPruned(w, t)
  {
  }

  /**
   * The threshold depends only on the multiset of magnitudes: flipping the
   * signs of weights or reordering them leaves it unchanged.
   */
  lemma ThresholdMagnitudeOnly(ws1: seq<real>, ws2: seq<real>, sparsity: int)
    requires multiset(Magnitudes(ws1)) == multiset(Magnitudes(ws2))
    ensures ComputeThreshold(ws1, sparsity) == ComputeThreshold(ws2, sparsity)
  {
    var s1, s2 := SortAscending(Magnitudes(ws1)), SortAscending(Magnitudes(ws2));
    SortedUnique(s1, s2);
    assert |ws1| == |multiset(Magnitudes(ws1))| == |multiset(Magnitudes(ws2))| == |ws2|;
  }

  /** floor(s / 100 * n) is non-decreasing in s. */
  lemma CutoffMonotone(s1: int, s2: int, n: nat)
    requires s1 <= s2
    ensures CutoffIndex(s1, n) <= CutoffIndex(s2, n)
  {
    var f1, f2 := (s1 as real / 100.0) * n as real, (s2 as real / 100.0) * n as real;
    assert f1 <= f2;
    assert CutoffIndex(s1, n) == Floor(f1) && CutoffIndex(s2, n) == Floor(f2);
  }

  /**
   * Raising the sparsity within [0, 100] never un-prunes a weight: the
   * pruned set only grows.
   */
  lemma PrunedSetGrows(ws: seq<real>, s1: int, s2: int, w: real)
    requires 0 <= s1 <= s2 <= 100
    ensures IsPruned(w, ComputeThreshold(ws, s1)) ==> IsPruned(w, ComputeThreshold(ws, s2))
  {
    if 0 < s1 && s2 < 100 {
      CutoffInRange(s1, |ws|);
      CutoffInRange(s2, |ws|);
      CutoffMonotone(s1, s2, |ws|);
    }
  }

  /**
   * The matrix component's state: the weights, fixed when the matrix is
   * created, and the sparsity passed in by the page.
   */
  class MatrixVisual {
    var weights: seq<real>
    var sparsity: int

    constructor (random: seq<real>, sparsity: int)
      requires |random| == WeightCount
      requires forall i :: 0 <= i < |random| ==> 0.0 <= random[i] < 1.0
      ensures |weights| == WeightCount
      ensures forall i :: 0 <= i < |weights| ==> weights[i] == random[i] * 2.0 - 1.0
      ensures this.sparsity == sparsity
    {
      var w := GenerateWeights(random);
      weights := w;
      this.sparsity := sparsity;
    }

    /** A new sparsity re-derives the threshold but leaves the weights untouched. */
    method SetSparsity(s: int)
      modifies this`sparsity
      ensures sparsity == s
      ensures weights == old(weights)
    {
      sparsity := s;
    }

    function Threshold(): (t: Threshold)
      reads this
      ensures t.Finite? ==> t.value >= 0.0
    {
      ComputeThreshold(weights, sparsity)
    }

    /** The cell at idx is drawn pruned. */
    predicate CellPruned(idx: nat)
      reads this
      requires idx < |weights|
    {
      IsPruned(weights[idx], Threshold())
    }
  }
}
