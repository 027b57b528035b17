/** The priority queue of Partition.LS: a java.util.PriorityQueue<int[]> whose
    comparator looks only at element [0] (a group's current sum).  The queue is a
    binary min-heap stored in an array; offer and poll restore the heap order by
    Java's siftUp and siftDown.  Java moves a hole and writes the new element once
    at the end; the functions below keep that element in the hole at every step,
    which performs the same comparisons and leaves the same final array. */
module JavaHeap {

  /** One queue element, the int[]{sum, idx} pair of the source. */
  datatype Entry = Entry(sum: int, idx: int)

  /** The element at i > 0 is no smaller than its parent. */
  predicate ParentOk(h: seq<Entry>, i: int)
    requires 0 < i < |h|
  {
    h[(i - 1) / 2].sum <= h[i].sum
  }

  /** Every element's sum is at least its parent's. */
  predicate IsHeap(h: seq<Entry>)
  {
    forall i :: 0 < i < |h| ==> ParentOk(h, i)
  }

  /** The heap order holds except between position k and its parent, and k's
      parent is no larger than k's children: the state during siftUp. */
  predicate HeapAboveHole(h: seq<Entry>, k: nat)
  {
    k < |h| &&
    (forall i :: 0 < i < |h| && i != k ==> ParentOk(h, i)) &&
    (k > 0 ==> forall i :: 0 < i < |h| && (i - 1) / 2 == k ==> h[(k - 1) / 2].sum <= h[i].sum)
  }

  /** The heap order holds except between position k and its children, and k's
      parent is no larger than k or k's children: the state during siftDown. */
  predicate HeapBelowHole(h: seq<Entry>, k: nat)
  {
    k < |h| &&
    (forall i :: 0 < i < |h| && (i - 1) / 2 != k ==> ParentOk(h, i)) &&
    (k > 0 ==> h[(k - 1) / 2].sum <= h[k].sum) &&
    (k > 0 ==> forall i :: 0 < i < |h| && (i - 1) / 2 == k ==> h[(k - 1) / 2].sum <= h[i].sum)
  }

  /** Exchanging two positions keeps the multiset of elements. */
  lemma SwapKeepsElements(h: seq<Entry>, i: nat, j: nat)
    requires i < |h| && j < |h|
    ensures multiset(h[i := h[j]][j := h[i]]) == multiset(h)
  {
    if i != j {
      var h1 := h[i := h[j]];
      assert multiset(h1) == multiset(h) - multiset{h[i]} + multiset{h[j]};
      assert h1[j] == h[j];
      assert multiset(h1[j := h[i]]) == multiset(h1) - multiset{h[j]} + multiset{h[i]};
    }
  }

  lemma SiftUpStep(h: seq<Entry>, k: nat)
    requires HeapAboveHole(h, k) && k > 0 && h[k].sum < h[(k - 1) / 2].sum
    ensures HeapAboveHole(h[k := h[(k - 1) / 2]][(k - 1) / 2 := h[k]], (k - 1) / 2)
  {
    var p := (k - 1) / 2;
    var h' := h[k := h[p]][p := h[k]];
    forall i | 0 < i < |h'| && i != p ensures ParentOk(h', i) {
      if (i - 1) / 2 == k {
        assert h'[k] == h[p] && h'[i] == h[i];
      } else if (i - 1) / 2 == p {
        if i != k {
          assert ParentOk(h, i);
        }
      } else if i != k {
        assert ParentOk(h, i);
        assert h'[i] == h[i] && h'[(i - 1) / 2] == h[(i - 1) / 2];
      }
    }
    if p > 0 {
      forall i | 0 < i < |h'| && (i - 1) / 2 == p ensures h'[(p - 1) / 2].sum <= h'[i].sum {
        assert h'[(p - 1) / 2] == h[(p - 1) / 2];
        assert ParentOk(h, p);
        if i != k {
          assert ParentOk(h, i);
        }
      }
    }
  }

  lemma SiftUpDone(h: seq<Entry>, k: nat)
    requires HeapAboveHole(h, k) && (k == 0 || h[k].sum >= h[(k - 1) / 2].sum)
    ensures IsHeap(h)
  {
    forall i | 0 < i < |h| ensures ParentOk(h, i) {
    }
  }

  /** Java's siftUp: the element at k climbs while it is strictly smaller than its parent. */
  function SiftUp(h: seq<Entry>, k: nat): (r: seq<Entry>)
    requires HeapAboveHole(h, k)
    ensures multiset(r) == multiset(h) && |r| == |h|
    ensures IsHeap(r)
    decreases k
  {
    if k > 0 && h[k].sum < h[(k - 1) / 2].sum then
      var p := (k - 1) / 2;
      SiftUpStep(h, k);
      SwapKeepsElements(h, k, p);
      SiftUp(h[k := h[p]][p := h[k]], p)
    else
      SiftUpDone(h, k);
      h
  }

  /** The child of k that siftDown compares with: the right one only when it is strictly smaller. */
  function SmallerChild(h: seq<Entry>, k: nat): (c: nat)
    requires 2 * k + 1 < |h|
    ensures c == 2 * k + 1 || c == 2 * k + 2
    ensures c < |h| && (c - 1) / 2 == k
    ensures forall i :: 0 < i < |h| && (i - 1) / 2 == k ==> h[c].sum <= h[i].sum
  {
    if 2 * k + 2 < |h| && h[2 * k + 1].sum > h[2 * k + 2].sum then 2 * k + 2 else 2 * k + 1
  }

  lemma SiftDownStep(h: seq<Entry>, k: nat, c: nat)
    requires HeapBelowHole(h, k) && c < |h| && (c - 1) / 2 == k && 0 < c
    requires forall i :: 0 < i < |h| && (i - 1) / 2 == k ==> h[c].sum <= h[i].sum
    requires h[k].sum > h[c].sum
    ensures HeapBelowHole(h[k := h[c]][c := h[k]], c)
  {
    var h' := h[k := h[c]][c := h[k]];
    assert k != c;
    forall i | 0 < i < |h'| && (i - 1) / 2 != c ensures ParentOk(h', i) {
      if i == k {
        assert h'[(i - 1) / 2] == h[(k - 1) / 2];
      } else if i != c {
        assert h'[i] == h[i];
        if (i - 1) / 2 != k {
          assert ParentOk(h, i);
          assert h'[(i - 1) / 2] == h[(i - 1) / 2];
        }
      }
    }
    forall i | 0 < i < |h'| && (i - 1) / 2 == c ensures h'[k].sum <= h'[i].sum {
      assert h'[i] == h[i];
      assert ParentOk(h, i);
    }
  }

  lemma SiftDownDone(h: seq<Entry>, k: nat)
    requires HeapBelowHole(h, k)
    requires 2 * k + 1 < |h| ==> h[k].sum <= h[SmallerChild(h, k)].sum
    ensures IsHeap(h)
  {
    forall i | 0 < i < |h| ensures ParentOk(h, i) {
      if (i - 1) / 2 == k {
        assert h[SmallerChild(h, k)].sum <= h[i].sum;
      }
    }
  }

  /** Java's siftDown: the element at k sinks while it is strictly larger than its smaller child. */
  function SiftDown(h: seq<Entry>, k: nat): (r: seq<Entry>)
    requires HeapBelowHole(h, k)
    ensures multiset(r) == multiset(h) && |r| == |h|
    ensures IsHeap(r)
    decreases |h| - k
  {
    if k < |h| / 2 && h[k].sum > h[SmallerChild(h, k)].sum then
      var c := SmallerChild(h, k);
      SiftDownStep(h, k, c);
      SwapKeepsElements(h, k, c);
      SiftDown(h[k := h[c]][c := h[k]], c)
    else
      SiftDownDone(h, k);
      h
  }

  /** PriorityQueue.offer. */
  function Offer(q: seq<Entry>, e: Entry): (r: seq<Entry>)
    requires IsHeap(q)
    ensures IsHeap(r) && multiset(r) == multiset(q) + multiset{e}
  {
    var h := q + [e];
    forall i | 0 < i < |h| && i != |q| ensures ParentOk(h, i) {
      assert ParentOk(q, i);
    }
    SiftUp(h, |q|)
  }

  /** PriorityQueue.poll on a non-empty queue: the root, and the queue whose
      last element was moved to the root and sifted down. */
  function Poll(q: seq<Entry>): (r: (Entry, seq<Entry>))
    requires IsHeap(q) && |q| > 0
    ensures r.0 == q[0]
    ensures IsHeap(r.1) && multiset(r.1) + multiset{r.0} == multiset(q)
  {
    var n := |q| - 1;
    assert q == q[..n] + [q[n]];
    if n == 0 then (q[0], [])
    else
      var h := q[..n][0 := q[n]];
      assert multiset(h) + multiset{q[0]} == multiset(q) by {
        assert q[..n] == [q[0]] + q[1..n];
        assert h == [q[n]] + q[1..n];
      }
      assert HeapBelowHole(h, 0) by {
        forall i | 0 < i < |h| && (i - 1) / 2 != 0 ensures ParentOk(h, i) {
          assert ParentOk(q, i);
        }
      }
      (q[0], SiftDown(h, 0))
  }

  /** The root of a heap carries the smallest sum. */
  lemma {:induction false} RootIsMinimal(h: seq<Entry>, j: nat)
    requires IsHeap(h) && j < |h|
    ensures h[0].sum <= h[j].sum
    decreases j
  {
    if j > 0 {
      assert ParentOk(h, j);
      RootIsMinimal(h, (j - 1) / 2);
    }
  }
}
