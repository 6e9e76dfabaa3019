/** The comparator-driven sort the client and server use (`Array.prototype.sort`
    with a compare function, and a store's sort by a field), modelled as an
    in-place insertion sort on an array. Stability is not promised. */
module Sorting {

  /** A comparator whose "not after" relation `cmp(a, b) <= 0` is total and transitive. */
  ghost predicate TotalPreorder<T(!new)>(cmp: (T, T) -> int)
  {
    (forall a, b :: cmp(a, b) <= 0 || cmp(b, a) <= 0)
    && (forall a, b, c :: cmp(a, b) <= 0 && cmp(b, c) <= 0 ==> cmp(a, c) <= 0)
  }

  /** Every element is "not after" every later element. */
  ghost predicate SortedBy<T>(s: seq<T>, cmp: (T, T) -> int)
  {
    forall i, j :: 0 <= i < j < |s| ==> cmp(s[i], s[j]) <= 0
  }

  /** The first `n` elements are ordered. */
  ghost predicate SortedUpTo<T>(s: seq<T>, n: int, cmp: (T, T) -> int)
  {
    forall k, l :: 0 <= k < l < n && l < |s| ==> cmp(s[k], s[l]) <= 0
  }

  /** Positions `0..i` are ordered except for the "hole" `j`, and the element at the hole
      is not after anything to its right: the state of one insertion pass. */
  ghost predicate HoleSorted<T>(s: seq<T>, i: int, j: int, cmp: (T, T) -> int)
  {
    0 <= j <= i < |s|
    && (forall k, l :: 0 <= k < l <= i && k != j && l != j ==> cmp(s[k], s[l]) <= 0)
    && (forall l :: j < l <= i ==> cmp(s[j], s[l]) <= 0)
  }

  /** `s` with the elements at `j - 1` and `j` exchanged. */
  function SwapDown<T>(s: seq<T>, j: int): (r: seq<T>)
    requires 0 < j < |s|
    ensures |r| == |s| && multiset(r) == multiset(s)
    ensures r[j - 1] == s[j] && r[j] == s[j - 1]
    ensures forall k :: 0 <= k < |s| && k != j - 1 && k != j ==> r[k] == s[k]
  {
    s[j - 1 := s[j]][j := s[j - 1]]
  }

  lemma HoleStart<T>(s: seq<T>, i: int, cmp: (T, T) -> int)
    requires 0 <= i < |s| && SortedUpTo(s, i, cmp)
    ensures HoleSorted(s, i, i, cmp)
  {
  }

  /** Moving the hole element one place to the left keeps the pass's invariant. */
  lemma HoleStep<T(!new)>(s: seq<T>, i: int, j: int, cmp: (T, T) -> int)
    requires TotalPreorder(cmp)
    requires HoleSorted(s, i, j, cmp) && j > 0 && cmp(s[j - 1], s[j]) > 0
    ensures HoleSorted(SwapDown(s, j), i, j - 1, cmp)
  {
    var r := SwapDown(s, j);
    assert cmp(s[j], s[j - 1]) <= 0;
    forall l | j - 1 < l <= i ensures cmp(r[j - 1], r[l]) <= 0 {
      if l > j {
        assert cmp(s[j], s[l]) <= 0;
      }
    }
  }

  /** When the hole element is not before its left neighbour, positions `0..i` are ordered. */
  lemma HoleDone<T(!new)>(s: seq<T>, i: int, j: int, cmp: (T, T) -> int)
    requires TotalPreorder(cmp)
    requires HoleSorted(s, i, j, cmp) && (j == 0 || cmp(s[j - 1], s[j]) <= 0)
    ensures SortedUpTo(s, i + 1, cmp)
  {
    forall k, l | 0 <= k < l <= i ensures cmp(s[k], s[l]) <= 0 {
      if l == j && k < j - 1 {
        assert cmp(s[k], s[j - 1]) <= 0;
      }
    }
  }

  /** Sorts `a` in place so that it is ordered by `cmp` and holds the same elements. */
  method SortInPlace<T(!new)>(a: array<T>, cmp: (T, T) -> int)
    requires TotalPreorder(cmp)
    modifies a
    ensures SortedBy(a[..], cmp)
    ensures multiset(a[..]) == multiset(old(a[..]))
  {
    var i := 0;
    while i < a.Length
      invariant 0 <= i <= a.Length
      invariant SortedUpTo(a[..], i, cmp)
      invariant multiset(a[..]) == multiset(old(a[..]))
    {
      HoleStart(a[..], i, cmp);
      var j := i;
      while j > 0 && cmp(a[j - 1], a[j]) > 0
        invariant HoleSorted(a[..], i, j, cmp)
        invariant multiset(a[..]) == multiset(old(a[..]))
      {
        HoleStep(a[..], i, j, cmp);
        ghost var next := SwapDown(a[..], j);
        a[j - 1], a[j] := a[j], a[j - 1];
        assert a[..] == next;
        j := j - 1;
      }
      HoleDone(a[..], i, j, cmp);
      i := i + 1;
    }
  }

  /** A sorted copy of `s`: the same elements, ordered by `cmp`. */
  method SortedCopy<T(!new)>(s: seq<T>, cmp: (T, T) -> int) returns (r: seq<T>)
    requires TotalPreorder(cmp)
    ensures SortedBy(r, cmp)
    ensures multiset(r) == multiset(s)
    ensures |r| == |s|
  {
    if |s| == 0 {
      return [];
    }
    var a := new T[|s|](i requires 0 <= i < |s| => s[i]);
    assert a[..] == s;
    SortInPlace(a, cmp);
    r := a[..];
    assert |r| == |multiset(r)| == |multiset(s)| == |s|;
  }

  /** A prefix of a sorted sequence is sorted. */
  lemma SortedPrefix<T>(s: seq<T>, cmp: (T, T) -> int, n: nat)
    requires SortedBy(s, cmp) && n <= |s|
    ensures SortedBy(s[..n], cmp)
  {
  }
}
