/** `Array.prototype.sort` with a comparator that subtracts two numeric keys:
    the array is reordered in place, ascending by key, and (as the language
    requires of `sort` since ES2019) stably. */
module ArraySort {

  predicate SortedBy<T>(s: seq<T>, key: T -> int) {
    forall i, j :: 0 <= i < j < |s| ==> key(s[i]) <= key(s[j])
  }

  /** `s` is `orig` rearranged: position `k` of `s` holds the element at
      position `perm[k]` of `orig`, each position of `orig` used once, and
      elements with equal keys keep their relative order. */
  ghost predicate StablePermutation<T>(s: seq<T>, orig: seq<T>, perm: seq<int>, key: T -> int) {
    && |perm| == |s| == |orig|
    && (forall k :: 0 <= k < |s| ==> 0 <= perm[k] < |orig| && s[k] == orig[perm[k]])
    && (forall p, q :: 0 <= p < q < |s| ==> perm[p] != perm[q])
    && (forall p, q :: 0 <= p < q < |s| && key(s[p]) == key(s[q]) ==> perm[p] < perm[q])
  }

  method Swap<T>(a: array<T>, i: int, j: int)
    requires 0 <= i < a.Length && 0 <= j < a.Length
    modifies a
    ensures a[i] == old(a[j]) && a[j] == old(a[i])
    ensures forall k :: 0 <= k < a.Length && k != i && k != j ==> a[k] == old(a[k])
    ensures a[..] == old(a[..])[i := old(a[j])][j := old(a[i])]
    ensures multiset(a[..]) == old(multiset(a[..]))
  {
    a[i], a[j] := a[j], a[i];
  }

  /** Position `k` of `s` holds the element at position `perm[k]` of `orig`,
      and no position of `orig` is used twice. */
  ghost predicate Tracks<T>(s: seq<T>, orig: seq<T>, perm: seq<int>) {
    && |perm| == |s| == |orig|
    && (forall k :: 0 <= k < |s| ==> 0 <= perm[k] < |orig| && s[k] == orig[perm[k]])
    && (forall p, q :: 0 <= p < q < |s| ==> perm[p] != perm[q])
  }

  /** The outer loop's state: `s[..i]` is sorted and stable, `s[i..]` is
      still where it started. */
  ghost predicate Settled<T>(s: seq<T>, orig: seq<T>, perm: seq<int>, i: int, key: T -> int) {
    && 0 <= i <= |s|
    && Tracks(s, orig, perm)
    && (forall p, q :: 0 <= p < q < i ==> key(s[p]) <= key(s[q]))
    && (forall k :: i <= k < |s| ==> perm[k] == k)
    && (forall k :: 0 <= k < i ==> perm[k] < i)
    && (forall p, q :: 0 <= p < q < i && key(s[p]) == key(s[q]) ==> perm[p] < perm[q])
  }

  /** The inner loop's state: the element that started at `i` now sits at
      `j`, everything it has passed has a larger key, and the rest of
      `s[..i + 1]` is sorted and stable. */
  ghost predicate Inserting<T>(s: seq<T>, orig: seq<T>, perm: seq<int>, i: int, j: int, key: T -> int) {
    && 0 <= j <= i < |s|
    && Tracks(s, orig, perm)
    && (forall p, q :: 0 <= p < q <= i && q != j ==> key(s[p]) <= key(s[q]))
    && (0 < j < i ==> key(s[j - 1]) <= key(s[j + 1]))
    && (forall k :: i < k < |s| ==> perm[k] == k)
    && perm[j] == i
    && (forall k :: 0 <= k <= i && k != j ==> perm[k] < i)
    && (forall k :: j < k <= i ==> key(s[k]) > key(s[j]))
    && (forall p, q :: 0 <= p < q <= i && p != j && q != j && key(s[p]) == key(s[q]) ==> perm[p] < perm[q])
  }

  lemma StartInsert<T>(s: seq<T>, orig: seq<T>, perm: seq<int>, i: int, key: T -> int)
    requires Settled(s, orig, perm, i, key) && i < |s|
    ensures Inserting(s, orig, perm, i, i, key)
  {
  }

  /** Swapping the moving element with a larger left neighbour keeps the
      inner loop's state. */
  lemma SwapKeepsInserting<T>(s: seq<T>, orig: seq<T>, perm: seq<int>, i: int, j: int, key: T -> int)
    requires Inserting(s, orig, perm, i, j, key) && j > 0 && key(s[j - 1]) > key(s[j])
    ensures Inserting(s[j - 1 := s[j]][j := s[j - 1]], orig, perm[j - 1 := perm[j]][j := perm[j - 1]], i, j - 1, key)
  {
    var t, pt := s[j - 1 := s[j]][j := s[j - 1]], perm[j - 1 := perm[j]][j := perm[j - 1]];
    forall p, q | 0 <= p < q < |t|
      ensures pt[p] != pt[q]
      ensures q != j - 1 && q <= i ==> key(t[p]) <= key(t[q])
      ensures p != j - 1 && q != j - 1 && q <= i && key(t[p]) == key(t[q]) ==> pt[p] < pt[q]
    {
      var p0 := if p == j - 1 then j else if p == j then j - 1 else p;
      var q0 := if q == j - 1 then j else if q == j then j - 1 else q;
      assert t[p] == s[p0] && pt[p] == perm[p0] && t[q] == s[q0] && pt[q] == perm[q0];
    }
  }

  lemma FinishInsert<T>(s: seq<T>, orig: seq<T>, perm: seq<int>, i: int, j: int, key: T -> int)
    requires Inserting(s, orig, perm, i, j, key) && (j == 0 || key(s[j - 1]) <= key(s[j]))
    ensures Settled(s, orig, perm, i + 1, key)
  {
  }

  lemma StartSort<T>(orig: seq<T>, key: T -> int)
    ensures Settled(orig, orig, seq(|orig|, k => k), 0, key)
  {
  }

  lemma FinishSort<T>(s: seq<T>, orig: seq<T>, perm: seq<int>, key: T -> int)
    requires Settled(s, orig, perm, |s|, key)
    ensures SortedBy(s, key) && StablePermutation(s, orig, perm, key)
  {
  }

  /** Sorts `a` in place by `key`: the result is ordered, a permutation of the
      original contents, and stable; `perm` records where each element came
      from. */
  method SortBy<T>(a: array<T>, key: T -> int) returns (ghost perm: seq<int>)
    modifies a
    ensures SortedBy(a[..], key)
    ensures multiset(a[..]) == old(multiset(a[..]))
    ensures StablePermutation(a[..], old(a[..]), perm, key)
  {
    ghost var orig := a[..];
    perm := seq(a.Length, k => k);
    StartSort(orig, key);
    var i := 0;
    while i < a.Length
      invariant multiset(a[..]) == multiset(orig)
      invariant Settled(a[..], orig, perm, i, key)
    {
      perm := InsertAt(a, i, key, orig, perm);
      i := i + 1;
    }
    FinishSort(a[..], orig, perm, key);
  }

  /** One pass of the insertion sort: moves `a[i]` left past every larger key
      of the sorted prefix, carrying the record of origins along. */
  method InsertAt<T>(a: array<T>, i: int, key: T -> int, ghost orig: seq<T>, ghost perm0: seq<int>)
      returns (ghost perm: seq<int>)
    requires Settled(a[..], orig, perm0, i, key) && i < a.Length
    modifies a
    ensures Settled(a[..], orig, perm, i + 1, key)
    ensures multiset(a[..]) == old(multiset(a[..]))
  {
    perm := perm0;
    StartInsert(a[..], orig, perm, i, key);
    var j := i;
    while j > 0 && key(a[j - 1]) > key(a[j])
      invariant multiset(a[..]) == old(multiset(a[..]))
      invariant Inserting(a[..], orig, perm, i, j, key)
    {
      ghost var s := a[..];
      SwapKeepsInserting(s, orig, perm, i, j, key);
      Swap(a, j - 1, j);
      perm := perm[j - 1 := perm[j]][j := perm[j - 1]];
      j := j - 1;
    }
    FinishInsert(a[..], orig, perm, i, j, key);
  }
}
