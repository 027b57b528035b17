/** LRMPartition.lrm, both overloads: the sorted items are cut into k
    contiguous chunks, then k groups of three are built, each from the first
    item of the widest batch, the last item of the second widest and the item
    of the third widest that brings the triple closest to the total sum. */
module LrmChunked {
  import opened Errors
  import Text
  import opened Groups
  import opened LrmGeneric

  // ---------------------------------------------------------------------------
  // Ranking the batches by spread

  /** The spreads list: 0 for an empty batch. */
  function Spreads(data: seq<seq<int>>): (sp: seq<int>)
    ensures |sp| == |data|
    ensures forall j :: 0 <= j < |data| ==> sp[j] == if data[j] == [] then 0 else Spread(data[j])
  {
    seq(|data|, j requires 0 <= j < |data| => if data[j] == [] then 0 else Spread(data[j]))
  }

  /** Index a comes before index b: a larger spread, or an equal spread and a
      smaller index (the sort is stable). */
  predicate Before(sp: seq<int>, a: nat, b: nat)
    requires a < |sp| && b < |sp|
  {
    sp[a] > sp[b] || (sp[a] == sp[b] && a < b)
  }

  predicate Ordered(sp: seq<int>, r: seq<nat>)
  {
    (forall p :: 0 <= p < |r| ==> r[p] < |sp|) &&
    forall p, q :: 0 <= p < q < |r| ==> Before(sp, r[p], r[q])
  }

  function Range(n: nat): (r: seq<nat>)
    ensures |r| == n && forall i :: 0 <= i < n ==> r[i] == i
  {
    seq(n, i => i)
  }

  /** r lists every index of sp exactly once, by decreasing spread, ties by index. */
  predicate Ranked(sp: seq<int>, r: seq<nat>)
  {
    multiset(r) == multiset(Range(|sp|)) && Ordered(sp, r)
  }

  lemma OrderedCons(sp: seq<int>, a: nat, rest: seq<nat>)
    requires a < |sp| && Ordered(sp, rest)
    requires forall x :: x in rest ==> x < |sp| && Before(sp, a, x)
    ensures Ordered(sp, [a] + rest)
  {
    var r := [a] + rest;
    forall p, q | 0 <= p < q < |r| ensures Before(sp, r[p], r[q]) {
      if p > 0 {
        assert r[p] == rest[p - 1] && r[q] == rest[q - 1];
      } else {
        assert r[q] == rest[q - 1] && r[q] in rest;
      }
    }
  }

  /** Stable insertion of index i after every index whose spread is at least sp[i]. */
  function InsertRank(sp: seq<int>, r: seq<nat>, i: nat): seq<nat>
  {
    if r == [] then [i]
    else if r[0] < |sp| && i < |sp| && sp[r[0]] >= sp[i] then [r[0]] + InsertRank(sp, r[1..], i)
    else [i] + r
  }

  lemma {:induction false} InsertRankKeeps(sp: seq<int>, r: seq<nat>, i: nat)
    ensures multiset(InsertRank(sp, r, i)) == multiset(r) + multiset{i}
    decreases |r|
  {
    if r != [] && r[0] < |sp| && i < |sp| && sp[r[0]] >= sp[i] {
      var rest := r[1..];
      assert r == [r[0]] + rest;
      InsertRankKeeps(sp, rest, i);
      var tail := InsertRank(sp, rest, i);
      assert InsertRank(sp, r, i) == [r[0]] + tail;
      assert multiset([r[0]] + tail) == multiset{r[0]} + multiset(tail);
      assert multiset(r) == multiset{r[0]} + multiset(rest);
    }
  }

  lemma {:induction false} InsertRankFacts(sp: seq<int>, r: seq<nat>, i: nat)
    requires i < |sp| && Ordered(sp, r) && forall x :: x in r ==> x < i
    ensures Ordered(sp, InsertRank(sp, r, i))
    decreases |r|
  {
    InsertRankKeeps(sp, r, i);
    if r == [] {
    } else if sp[r[0]] >= sp[i] {
      var rest := r[1..];
      assert Ordered(sp, rest) by {
        forall p, q | 0 <= p < q < |rest| ensures Before(sp, rest[p], rest[q]) {
          assert rest[p] == r[p + 1] && rest[q] == r[q + 1];
        }
      }
      forall x | x in rest ensures x < i {
        assert x in r;
      }
      assert r[0] in r;
      InsertRankFacts(sp, rest, i);
      InsertRankKeeps(sp, rest, i);
      var tail := InsertRank(sp, rest, i);
      forall x | x in tail ensures x < |sp| && Before(sp, r[0], x) {
        assert x in multiset(tail);
        if x != i {
          assert x in multiset(rest);
          var q :| 0 <= q < |rest| && rest[q] == x;
          assert r[q + 1] == x;
        }
      }
      OrderedCons(sp, r[0], tail);
      assert InsertRank(sp, r, i) == [r[0]] + tail;
    } else {
      forall x | x in r ensures Before(sp, i, x) {
        var q :| 0 <= q < |r| && r[q] == x;
        if q > 0 {
          assert Before(sp, r[0], r[q]);
        }
      }
      OrderedCons(sp, i, r);
      assert InsertRank(sp, r, i) == [i] + r;
    }
  }

  /** The first n indices, ranked. */
  function Rank(sp: seq<int>, n: nat): seq<nat>
  {
    if n == 0 then [] else InsertRank(sp, Rank(sp, n - 1), n - 1)
  }

  lemma {:induction false} RankKeeps(sp: seq<int>, n: nat)
    ensures multiset(Rank(sp, n)) == multiset(Range(n))
  {
    if n > 0 {
      var last: nat := n - 1;
      RankKeeps(sp, last);
      InsertRankKeeps(sp, Rank(sp, last), last);
      RangeSnoc(last);
    }
  }

  lemma RankBelow(sp: seq<int>, n: nat)
    ensures forall x :: x in Rank(sp, n) ==> x < n
  {
    RankKeeps(sp, n);
    forall x | x in Rank(sp, n) ensures x < n {
      assert x in multiset(Range(n));
      var i :| 0 <= i < n && Range(n)[i] == x;
    }
  }

  lemma {:induction false} RankOrdered(sp: seq<int>, n: nat)
    requires n <= |sp|
    ensures Ordered(sp, Rank(sp, n))
  {
    if n > 0 {
      var last: nat := n - 1;
      RankOrdered(sp, last);
      RankBelow(sp, last);
      InsertRankFacts(sp, Rank(sp, last), last);
    }
  }

  lemma RangeSnoc(n: nat)
    ensures multiset(Range(n + 1)) == multiset(Range(n)) + multiset{n}
  {
    assert Range(n + 1) == Range(n) + [n];
  }

  /** The indices sorted by (i, j) -> spreads.get(j) - spreads.get(i), a stable sort. */
  function RankBySpread(sp: seq<int>): (r: seq<nat>)
    ensures |r| == |sp| && forall p :: 0 <= p < |r| ==> r[p] < |sp|
  {
    RankBySpreadRanked(sp);
    Rank(sp, |sp|)
  }

  /** The ranking lists every index once, by decreasing spread, equal spreads
      by increasing index. */
  lemma RankBySpreadRanked(sp: seq<int>)
    ensures Ranked(sp, Rank(sp, |sp|)) && |Rank(sp, |sp|)| == |sp|
  {
    var r := Rank(sp, |sp|);
    RankKeeps(sp, |sp|);
    RankOrdered(sp, |sp|);
    assert |r| == |multiset(r)| == |multiset(Range(|sp|))| == |sp|;
  }

  /** The ranking puts distinct batches first, second and third. */
  lemma RankedDistinct(sp: seq<int>, r: seq<nat>, p: nat, q: nat)
    requires Ordered(sp, r) && p < q < |r|
    ensures r[p] != r[q]
  {
    assert Before(sp, r[p], r[q]);
  }

  // ---------------------------------------------------------------------------
  // The compensating element

  /** How far a triple with middle v is from the target sum. */
  function Gap(leftmost: int, rightmost: int, v: int, sum: int): nat
  {
    Abs(leftmost + rightmost + v - sum)
  }

  /** The scan over p3[..n]: the index and diff it holds afterwards. */
  function Scan(p3: seq<int>, l: int, r: int, sum: int, n: nat): (res: (nat, int))
    requires n <= |p3|
    ensures res.1 <= Text.IntMax && (res.0 == 0 || res.0 < n)
    ensures forall j :: 0 <= j < n ==> res.1 <= Gap(l, r, p3[j], sum)
    ensures res.1 < Text.IntMax ==> res.0 < n && Gap(l, r, p3[res.0], sum) == res.1
    ensures res.1 < Text.IntMax ==> forall j :: 0 <= j < res.0 ==> Gap(l, r, p3[j], sum) > res.1
    ensures res.1 == Text.IntMax ==> res.0 == 0
    decreases n
  {
    if n == 0 then (0, Text.IntMax)
    else
      var prev := Scan(p3, l, r, sum, n - 1);
      var currentDiff := Gap(l, r, p3[n - 1], sum);
      if currentDiff < prev.1 then (n - 1, currentDiff) else prev
  }

  /** The index of the compensating element in p3. */
  function CompensatorIndex(p3: seq<int>, l: int, r: int, sum: int): nat
  {
    Scan(p3, l, r, sum, |p3|).0
  }

  /** When some middle gives a gap below Integer.MAX_VALUE, the compensator is
      the first index with the smallest gap; otherwise it is 0. */
  lemma CompensatorIsClosest(p3: seq<int>, l: int, r: int, sum: int)
    ensures var i := CompensatorIndex(p3, l, r, sum);
      ((exists j :: 0 <= j < |p3| && Gap(l, r, p3[j], sum) < Text.IntMax) ==>
         i < |p3| &&
         (forall j :: 0 <= j < |p3| ==> Gap(l, r, p3[i], sum) <= Gap(l, r, p3[j], sum)) &&
         (forall j :: 0 <= j < i ==> Gap(l, r, p3[j], sum) > Gap(l, r, p3[i], sum))) &&
      ((forall j :: 0 <= j < |p3| ==> Gap(l, r, p3[j], sum) >= Text.IntMax) ==> i == 0)
  {
    var res := Scan(p3, l, r, sum, |p3|);
    if exists j :: 0 <= j < |p3| && Gap(l, r, p3[j], sum) < Text.IntMax {
      var j :| 0 <= j < |p3| && Gap(l, r, p3[j], sum) < Text.IntMax;
      assert res.1 < Text.IntMax;
    }
  }

  /** The for loop over p3 keeping the first strictly smaller diff. */
  method Compensator(p3: seq<int>, leftmost: int, rightmost: int, sum: int) returns (index: nat)
    ensures index == CompensatorIndex(p3, leftmost, rightmost, sum)
  {
    index := 0;
    var diff := Text.IntMax;
    var i := 0;
    while i < |p3|
      invariant 0 <= i <= |p3| && (index, diff) == Scan(p3, leftmost, rightmost, sum, i)
    {
      var currentDiff := Abs(leftmost + rightmost + p3[i] - sum);
      if currentDiff < diff {
        diff := currentDiff;
        index := i;
      }
      i := i + 1;
    }
  }

  // ---------------------------------------------------------------------------
  // The inner overload

  /** The multiset of all items changes by the items of the replaced batch. */
  lemma {:induction false} FlattenReplace(gs: seq<seq<int>>, g: nat, v: seq<int>)
    requires g < |gs|
    ensures multiset(Flatten(gs[g := v])) + multiset(gs[g]) == multiset(Flatten(gs)) + multiset(v)
    decreases |gs|
  {
    var last := |gs| - 1;
    var front := gs[..last];
    var after := gs[g := v];
    assert Flatten(gs) == Flatten(front) + gs[last];
    if g == last {
      assert after[..last] == front;
      assert Flatten(after) == Flatten(front) + v;
    } else {
      assert after[..last] == front[g := v];
      assert Flatten(after) == Flatten(front[g := v]) + gs[last];
      FlattenReplace(front, g, v);
      assert front[g] == gs[g];
      var x, y, z := multiset(Flatten(front[g := v])), multiset(Flatten(front)), multiset(gs[last]);
      assert multiset(Flatten(after)) == x + z;
      assert multiset(Flatten(gs)) == y + z;
      assert x + multiset(gs[g]) == y + multiset(v);
      forall e ensures (x + z + multiset(gs[g]))[e] == (y + z + multiset(v))[e] {
        assert (x + multiset(gs[g]))[e] == (y + multiset(v))[e];
      }
    }
  }

  /** The batches ranked first, second and third are three different ones. */
  lemma TopThreeDistinct(data: seq<seq<int>>)
    requires |data| >= 3
    ensures var ix := RankBySpread(Spreads(data));
      |ix| == |data| && ix[0] < |data| && ix[1] < |data| && ix[2] < |data| &&
      ix[0] != ix[1] && ix[0] != ix[2] && ix[1] != ix[2]
  {
    var ix := RankBySpread(Spreads(data));
    RankBySpreadRanked(Spreads(data));
    RankedDistinct(Spreads(data), ix, 0, 1);
    RankedDistinct(Spreads(data), ix, 0, 2);
    RankedDistinct(Spreads(data), ix, 1, 2);
  }

  /** Steps 4 to 7 of a pass, on the batches at indices a, b and c. */
  function Take(data: seq<seq<int>>, a: nat, b: nat, c: nat, sum: int): (r: Result<(seq<int>, seq<seq<int>>)>)
    requires a < |data| && b < |data| && c < |data| && a != b && a != c && b != c
    ensures r.Ok? ==> |r.value.0| == 3 && |r.value.1| == |data|
    ensures r.Ok? ==> multiset(r.value.0) + multiset(Flatten(r.value.1)) == multiset(Flatten(data))
  {
    var p1, p2, p3 := data[a], data[b], data[c];
    if p1 == [] || p2 == [] then Err(NoSuchElement)
    else
      var leftmost := p1[0];
      var rightmost := p2[|p2| - 1];
      var index := CompensatorIndex(p3, leftmost, rightmost, sum);
      if index >= |p3| then Err(IndexOutOfBounds)
      else
        var middle := p3[index];
        var p1', p2', p3' := p1[1..], p2[..|p2| - 1], p3[..index] + p3[index + 1..];
        TakeSplits(p1, p2, p3, index);
        StepConserves(data, a, b, c, p1', p2', p3', leftmost, rightmost, middle);
        Ok(([leftmost, middle, rightmost], WriteBack(data, a, b, c, p1', p2', p3')))
  }

  /** What removeFirst, removeLast and remove(index) leave behind. */
  lemma TakeSplits(p1: seq<int>, p2: seq<int>, p3: seq<int>, index: nat)
    requires p1 != [] && p2 != [] && index < |p3|
    ensures multiset(p1) == multiset(p1[1..]) + multiset{p1[0]}
    ensures multiset(p2) == multiset(p2[..|p2| - 1]) + multiset{p2[|p2| - 1]}
    ensures multiset(p3) == multiset(p3[..index] + p3[index + 1..]) + multiset{p3[index]}
  {
    assert p1 == [p1[0]] + p1[1..];
    assert p2 == p2[..|p2| - 1] + [p2[|p2| - 1]];
    assert p3 == p3[..index] + [p3[index]] + p3[index + 1..];
  }

  /** Multiset bookkeeping of three write-backs. */
  lemma Cancel3(f: multiset<int>, d1: multiset<int>, d2: multiset<int>, d3: multiset<int>,
                p1: multiset<int>, p2: multiset<int>, p3: multiset<int>, l: int, m: int, r: int)
    requires d1 + (p1 + multiset{l}) == f + p1
    requires d2 + (p2 + multiset{r}) == d1 + p2
    requires d3 + (p3 + multiset{m}) == d2 + p3
    ensures multiset{l} + multiset{m} + multiset{r} + d3 == f
  {
    MultisetCancel(d3 + multiset{m}, d2, p3);
    MultisetCancel(d2 + multiset{r}, d1, p2);
    MultisetCancel(d1 + multiset{l}, f, p1);
  }

  lemma Regroup(x: multiset<int>, y: multiset<int>, z: multiset<int>, w: multiset<int>, f: multiset<int>)
    requires y + z == w && x + w == f
    ensures x + y + z == f
  {
  }

  lemma MultisetCancel(a: multiset<int>, b: multiset<int>, c: multiset<int>)
    requires a + c == b + c
    ensures a == b
  {
    forall x ensures a[x] == b[x] {
      assert (a + c)[x] == (b + c)[x];
    }
  }

  /** Writing back three shortened batches loses exactly the three items taken. */
  lemma StepConserves(data: seq<seq<int>>, a: nat, b: nat, c: nat, p1': seq<int>, p2': seq<int>, p3': seq<int>,
                      leftmost: int, rightmost: int, middle: int)
    requires a < |data| && b < |data| && c < |data| && a != b && a != c && b != c
    requires multiset(data[a]) == multiset(p1') + multiset{leftmost}
    requires multiset(data[b]) == multiset(p2') + multiset{rightmost}
    requires multiset(data[c]) == multiset(p3') + multiset{middle}
    ensures multiset([leftmost, middle, rightmost]) + multiset(Flatten(WriteBack(data, a, b, c, p1', p2', p3')))
         == multiset(Flatten(data))
  {
    WriteBackIsUpdate(data, a, b, c, p1', p2', p3');
    var d1 := data[a := p1'];
    var d2 := d1[b := p2'];
    var d3 := d2[c := p3'];
    FlattenReplace(data, a, p1');
    FlattenReplace(d1, b, p2');
    FlattenReplace(d2, c, p3');
    assert d1[b] == data[b] && d2[c] == data[c];
    Cancel3(multiset(Flatten(data)), multiset(Flatten(d1)), multiset(Flatten(d2)), multiset(Flatten(d3)),
            multiset(p1'), multiset(p2'), multiset(p3'), leftmost, middle, rightmost);
    assert multiset([leftmost, middle, rightmost]) == multiset{leftmost} + multiset{middle} + multiset{rightmost};
  }

  /** data.set of the three shortened batches, as a function of its own so
      that proofs about later passes need not look inside it. */
  function WriteBack(data: seq<seq<int>>, a: nat, b: nat, c: nat, p1: seq<int>, p2: seq<int>, p3: seq<int>): (d: seq<seq<int>>)
    ensures |d| == |data|
  {
    if data == [] then []
    else
      var n := |data| - 1;
      WriteBack(data[..n], a, b, c, p1, p2, p3) + [if n == c then p3 else if n == b then p2 else if n == a then p1 else data[n]]
  }

  lemma {:induction false} WriteBackAt(data: seq<seq<int>>, a: nat, b: nat, c: nat, p1: seq<int>, p2: seq<int>, p3: seq<int>, j: nat)
    requires j < |data|
    ensures WriteBack(data, a, b, c, p1, p2, p3)[j] == if j == c then p3 else if j == b then p2 else if j == a then p1 else data[j]
    decreases |data|
  {
    var n := |data| - 1;
    if j < n {
      WriteBackAt(data[..n], a, b, c, p1, p2, p3, j);
    }
  }

  lemma WriteBackIsUpdate(data: seq<seq<int>>, a: nat, b: nat, c: nat, p1: seq<int>, p2: seq<int>, p3: seq<int>)
    requires a < |data| && b < |data| && c < |data|
    ensures WriteBack(data, a, b, c, p1, p2, p3) == data[a := p1][b := p2][c := p3]
  {
    forall j | 0 <= j < |data| ensures WriteBack(data, a, b, c, p1, p2, p3)[j] == data[a := p1][b := p2][c := p3][j] {
      WriteBackAt(data, a, b, c, p1, p2, p3, j);
    }
  }

  /** One pass of the while loop: the group it builds and the batches it writes back. */
  function LrmStep(data: seq<seq<int>>, sum: int): (r: Result<(seq<int>, seq<seq<int>>)>)
    ensures r.Ok? ==> |r.value.0| == 3 && |r.value.1| == |data|
    ensures r.Ok? ==> multiset(r.value.0) + multiset(Flatten(r.value.1)) == multiset(Flatten(data))
    ensures |data| < 3 ==> r == Err(IndexOutOfBounds)
  {
    if |data| < 3 then Err(IndexOutOfBounds)
    else
      var ix := RankBySpread(Spreads(data));
      TopThreeDistinct(data);
      Take(data, ix[0], ix[1], ix[2], sum)
  }

  /** Steps 4 to 7 on batches a, b, c: the group is the first item of the
      first, the compensator of the third and the last item of the second,
      and exactly those three items leave their batches. */
  lemma TakePicks(data: seq<seq<int>>, a: nat, b: nat, c: nat, sum: int)
    requires a < |data| && b < |data| && c < |data| && a != b && a != c && b != c
    ensures var p1, p2, p3 := data[a], data[b], data[c];
      var r := Take(data, a, b, c, sum);
      (r == Err(NoSuchElement) <==> p1 == [] || p2 == []) &&
      (r == Err(IndexOutOfBounds) <==> p1 != [] && p2 != [] && p3 == []) &&
      (r.Ok? ==>
         p1 != [] && p2 != [] && p3 != [] &&
         var i := CompensatorIndex(p3, p1[0], p2[|p2| - 1], sum);
         i < |p3| && r.value.0 == [p1[0], p3[i], p2[|p2| - 1]] &&
         r.value.1 == data[a := p1[1..]][b := p2[..|p2| - 1]][c := p3[..i] + p3[i + 1..]])
  {
    var p1, p2, p3 := data[a], data[b], data[c];
    if p1 != [] && p2 != [] && p3 != [] {
      var i := CompensatorIndex(p3, p1[0], p2[|p2| - 1], sum);
      WriteBackIsUpdate(data, a, b, c, p1[1..], p2[..|p2| - 1], p3[..i] + p3[i + 1..]);
    }
  }

  /** One pass of lrm takes steps 4 to 7 on the batches ranked first, second
      and third by spread: largest spread first, ties by lower index. */
  lemma LrmStepPicks(data: seq<seq<int>>, sum: int)
    requires |data| >= 3
    ensures var ix := RankBySpread(Spreads(data));
      Ranked(Spreads(data), ix) && |ix| == |data| && ix[0] != ix[1] && ix[0] != ix[2] && ix[1] != ix[2] &&
      LrmStep(data, sum) == Take(data, ix[0], ix[1], ix[2], sum)
  {
    TopThreeDistinct(data);
    RankBySpreadRanked(Spreads(data));
  }

  /** One pass as a value: the group built and the batches written back. */
  type PassFn = seq<seq<int>> -> Result<(seq<int>, seq<seq<int>>)>

  /** A pass that builds a triple out of items taken from the batches. */
  ghost predicate TakesTriples(pass: PassFn)
  {
    forall d :: pass(d).Ok? ==>
      |pass(d).value.0| == 3 && |pass(d).value.1| == |d| &&
      multiset(pass(d).value.0) + multiset(Flatten(pass(d).value.1)) == multiset(Flatten(d))
  }

  /** The next n passes of the while loop: the groups they build and the
      batches they leave. */
  function Passes(pass: PassFn, data: seq<seq<int>>, n: nat): Result<(seq<seq<int>>, seq<seq<int>>)>
    decreases n
  {
    if n == 0 then Ok(([], data))
    else
      var step := pass(data);
      if step.Err? then Err(step.error)
      else Prepend([step.value.0], Passes(pass, step.value.1, n - 1))
  }

  /** The groups built before, in front of those built afterwards. */
  function Prepend(before: seq<seq<int>>, r: Result<(seq<seq<int>>, seq<seq<int>>)>): Result<(seq<seq<int>>, seq<seq<int>>)>
  {
    if r.Ok? then Ok((before + r.value.0, r.value.1)) else r
  }

  /** n passes build n triples. */
  lemma {:induction false} PassesShape(pass: PassFn, data: seq<seq<int>>, n: nat)
    requires TakesTriples(pass)
    ensures var r := Passes(pass, data, n);
      r.Ok? ==> |r.value.0| == n && |r.value.1| == |data| && forall g :: 0 <= g < n ==> |r.value.0[g]| == 3
    decreases n
  {
    if n > 0 && pass(data).Ok? {
      var group, data' := pass(data).value.0, pass(data).value.1;
      PassesShape(pass, data', n - 1);
      var rest := Passes(pass, data', n - 1);
      if rest.Ok? {
        var gs := [group] + rest.value.0;
        forall g | 0 <= g < n ensures |gs[g]| == 3 {
          if g > 0 {
            assert gs[g] == rest.value.0[g - 1];
          }
        }
      }
    }
  }

  /** n passes keep every item, in a group or in a batch. */
  lemma {:induction false} PassesKeep(pass: PassFn, data: seq<seq<int>>, n: nat)
    requires TakesTriples(pass)
    ensures var r := Passes(pass, data, n);
      r.Ok? ==> multiset(Flatten(r.value.0)) + multiset(Flatten(r.value.1)) == multiset(Flatten(data))
    decreases n
  {
    if n > 0 && pass(data).Ok? {
      var group, data' := pass(data).value.0, pass(data).value.1;
      PassesKeep(pass, data', n - 1);
      var rest := Passes(pass, data', n - 1);
      if rest.Ok? {
        FlattenCons(group, rest.value.0);
        var x, y, z := multiset(group), multiset(Flatten(rest.value.0)), multiset(Flatten(rest.value.1));
        assert multiset(Flatten([group] + rest.value.0)) == x + y;
        Regroup(x, y, z, multiset(Flatten(data')), multiset(Flatten(data)));
      }
    }
  }

  lemma {:induction false} FlattenCons(v: seq<int>, gs: seq<seq<int>>)
    ensures Flatten([v] + gs) == v + Flatten(gs)
    decreases |gs|
  {
    if gs == [] {
      assert [v] + gs == [v] && [v][..0] == [];
    } else {
      var last := |gs| - 1;
      assert ([v] + gs)[..|gs|] == [v] + gs[..last];
      FlattenCons(v, gs[..last]);
    }
  }

  /** The pass of lrm for a target sum. */
  function LrmPass(sum: int): (pass: PassFn)
    ensures forall d :: pass(d) == LrmStep(d, sum)
  {
    d => LrmStep(d, sum)
  }

  /** What the inner lrm(data, means, k) returns, with the batches it leaves:
      k passes toward the sum of the means. */
  function LrmRun(data: seq<seq<int>>, means: seq<int>, k: int): (r: Result<(seq<seq<int>>, seq<seq<int>>)>)
    ensures k <= 0 ==> r == Ok(([], data))
    ensures 1 <= k && |data| < 3 ==> r == Err(IndexOutOfBounds)
    ensures r.Ok? ==> |r.value.0| == (if k <= 0 then 0 else k) && |r.value.1| == |data|
    ensures r.Ok? ==> forall g :: 0 <= g < |r.value.0| ==> |r.value.0[g]| == 3
    ensures r.Ok? ==> multiset(Flatten(r.value.0)) + multiset(Flatten(r.value.1)) == multiset(Flatten(data))
  {
    var n := if k <= 0 then 0 else k;
    var pass := LrmPass(Sum(means));
    PassesShape(pass, data, n);
    PassesKeep(pass, data, n);
    Passes(pass, data, n)
  }

  /** Steps 4 to 7 with the compensator scan as a loop. */
  method TakeRound(data: seq<seq<int>>, a: nat, b: nat, c: nat, sum: int) returns (r: Result<(seq<int>, seq<seq<int>>)>)
    requires a < |data| && b < |data| && c < |data| && a != b && a != c && b != c
    ensures r == Take(data, a, b, c, sum)
  {
    var p1, p2, p3 := data[a], data[b], data[c];
    if p1 == [] {
      return Err(NoSuchElement);
    }
    var leftmost := p1[0];
    p1 := p1[1..];
    if p2 == [] {
      return Err(NoSuchElement);
    }
    var rightmost := p2[|p2| - 1];
    p2 := p2[..|p2| - 1];
    var index := Compensator(p3, leftmost, rightmost, sum);
    if index >= |p3| {
      return Err(IndexOutOfBounds);
    }
    var middle := p3[index];
    p3 := p3[..index] + p3[index + 1..];
    var group := [leftmost, middle, rightmost];
    var data' := data[a := p1];
    data' := data'[b := p2];
    data' := data'[c := p3];
    WriteBackIsUpdate(data, a, b, c, p1, p2, p3);
    r := Ok((group, data'));
  }

  /** One pass of the while loop, with the stream expressions as functions. */
  method LrmRound(data: seq<seq<int>>, sum: int) returns (r: Result<(seq<int>, seq<seq<int>>)>)
    ensures r == LrmStep(data, sum)
  {
    var spreads := Spreads(data);
    var indices := RankBySpread(spreads);
    if |indices| < 3 {
      return Err(IndexOutOfBounds);
    }
    TopThreeDistinct(data);
    r := TakeRound(data, indices[0], indices[1], indices[2], sum);
  }

  /** After t + 1 passes: one pass more than after t. */
  lemma {:induction false} PassesSnoc(pass: PassFn, data: seq<seq<int>>, t: nat)
    requires Passes(pass, data, t).Ok?
    ensures var (gs, d) := Passes(pass, data, t).value;
      Passes(pass, data, t + 1) == if pass(d).Ok? then Ok((gs + [pass(d).value.0], pass(d).value.1)) else Err(pass(d).error)
    decreases t
  {
    if t > 0 {
      assert pass(data).Ok?;
      var g0, d0 := pass(data).value.0, pass(data).value.1;
      assert Passes(pass, data, t) == Prepend([g0], Passes(pass, d0, t - 1));
      assert Passes(pass, data, t + 1) == Prepend([g0], Passes(pass, d0, t));
      PassesSnoc(pass, d0, t - 1);
      var gs, d := Passes(pass, d0, t - 1).value.0, Passes(pass, d0, t - 1).value.1;
      if pass(d).Ok? {
        assert [g0] + (gs + [pass(d).value.0]) == ([g0] + gs) + [pass(d).value.0];
      }
    } else if pass(data).Ok? {
      var g0, d0 := pass(data).value.0, pass(data).value.1;
      assert Passes(pass, data, 1) == Prepend([g0], Passes(pass, d0, 0));
      assert [g0] + [] == [] + [g0];
    }
  }

  /** A pass that fails makes every longer run fail the same way. */
  lemma {:induction false} PassesFail(pass: PassFn, data: seq<seq<int>>, t: nat, n: nat)
    requires t < n && Passes(pass, data, t).Ok? && Passes(pass, data, t + 1).Err?
    ensures Passes(pass, data, n) == Passes(pass, data, t + 1)
    decreases t
  {
    if t > 0 {
      var d0 := pass(data).value.1;
      PassesFail(pass, d0, t - 1, n - 1);
    }
  }

  /** One pass, for a pass known only through its link to LrmStep. */
  method PassRound(ghost pass: PassFn, data: seq<seq<int>>, sum: int) returns (r: Result<(seq<int>, seq<seq<int>>)>)
    requires forall d {:trigger LrmStep(d, sum)} :: LrmStep(d, sum) == pass(d)
    ensures r == pass(data)
  {
    r := LrmRound(data, sum);
  }

  /** The while loop, for a pass known only through its link to LrmStep so
      that the proof looks at one pass at a time. */
  method RunPasses(ghost pass: PassFn, data: seq<seq<int>>, sum: int, k: int) returns (r: Result<seq<seq<int>>>, data': seq<seq<int>>)
    requires forall d {:trigger LrmStep(d, sum)} :: LrmStep(d, sum) == pass(d)
    ensures Passes(pass, data, if k <= 0 then 0 else k) == if r.Ok? then Ok((r.value, data')) else Err(r.error)
  {
    var groups: seq<seq<int>> := [];
    data' := data;
    ghost var n := if k <= 0 then 0 else k;
    while |groups| < k
      invariant |groups| <= n && Passes(pass, data, |groups|) == Ok((groups, data'))
      decreases k - |groups|
    {
      var step := PassRound(pass, data', sum);
      PassesSnoc(pass, data, |groups|);
      if step.Err? {
        PassesFail(pass, data, |groups|, n);
        return Err(step.error), data';
      }
      groups := groups + [step.value.0];
      data' := step.value.1;
    }
    r := Ok(groups);
  }

  /** The inner overload lrm(data, means, k).  On success data' is what the
      caller's batch list holds afterwards. */
  method LrmBatches(data: seq<seq<int>>, means: seq<int>, k: int) returns (r: Result<seq<seq<int>>>, data': seq<seq<int>>)
    ensures LrmRun(data, means, k) == if r.Ok? then Ok((r.value, data')) else Err(r.error)
  {
    var sum := Sum(means);
    r, data' := RunPasses(LrmPass(sum), data, sum, k);
  }

  // ---------------------------------------------------------------------------
  // The outer overload

  /** Integer ceiling of n / k for k >= 1. */
  function CeilDiv(n: nat, k: nat): (q: nat)
    requires k >= 1
    ensures q * k >= n && (q == 0 || (q - 1) * k < n)
  {
    var q := (n + k - 1) / k;
    assert q * k + (n + k - 1) % k == n + k - 1;
    q
  }

  /** (int) Math.ceil((double) n / k).  For k >= 1 the double quotient of two
      ints rounds to the exact ceiling; n / 0.0 is +Infinity (cast to
      Integer.MAX_VALUE) or, for n == 0, NaN (cast to 0); a negative k gives
      the ceiling of a negative quotient, -(n / -k). */
  function JavaBatchSize(n: nat, k: int): int
  {
    if k >= 1 then CeilDiv(n, k)
    else if k == 0 then (if n > 0 then Text.IntMax else 0)
    else -(n / -k)
  }

  /** Sorted item i goes to batch i / batchSize, clamped to k - 1. */
  function ChunkChoices(n: nat, k: nat, batchSize: nat): (c: seq<nat>)
    requires k >= 1 && batchSize >= 1
    ensures |c| == n && ChoicesBelow(c, k)
  {
    seq(n, i => if i / batchSize >= k then k - 1 else i / batchSize)
  }

  /** The k batches the contiguous deal builds. */
  function Chunk(sorted: seq<int>, k: nat): (bs: seq<seq<int>>)
    requires k >= 1
    ensures |bs| == k
  {
    var batchSize := JavaBatchSize(|sorted|, k);
    if batchSize == 0 then EmptyGroups(k)
    else Distribute(sorted, k, ChunkChoices(|sorted|, k, batchSize))
  }

  /** What lrm(numbers, k) returns or throws. */
  function LrmResult(numbers: seq<int>, k: int): (r: Result<seq<seq<int>>>)
    ensures k <= 0 && numbers == [] ==> r == Ok([])
    ensures k == 0 && numbers != [] ==> r == Err(IndexOutOfBounds)
    ensures k < 0 && numbers != [] ==> r == Err(if |numbers| < -k then Arithmetic else IndexOutOfBounds)
    ensures 1 <= k < 3 ==> r == Err(IndexOutOfBounds)
    ensures k >= 1 && r.Ok? ==> |r.value| == k && (forall g :: 0 <= g < k ==> |r.value[g]| == 3)
    ensures k >= 1 && r.Ok? ==> multiset(Flatten(r.value)) <= multiset(numbers) && 3 * k <= |numbers|
  {
    var sorted := SortDesc(numbers);
    var n := |sorted|;
    assert n == |multiset(sorted)| == |numbers|;
    JavaBatchSizeFacts(n, k);
    if k <= 0 then
      if numbers == [] then Ok([])
      else if JavaBatchSize(n, k) == 0 then Err(Arithmetic)
      else Err(IndexOutOfBounds)
    else ChunkedRun(sorted, k)
  }

  /** lrm(numbers, k) for k >= 1, on the sorted copy. */
  function ChunkedRun(sorted: seq<int>, k: nat): (r: Result<seq<seq<int>>>)
    requires k >= 1
    ensures k < 3 ==> r == Err(IndexOutOfBounds)
    ensures r.Ok? ==> |r.value| == k && (forall g :: 0 <= g < k ==> |r.value[g]| == 3)
    ensures r.Ok? ==> multiset(Flatten(r.value)) <= multiset(sorted) && 3 * k <= |sorted|
  {
    var batches := Chunk(sorted, k);
    var run := LrmRun(batches, BatchSums(batches), k);
    if run.Err? then Err(run.error)
    else
      ChunkedRunKeeps(sorted, k, batches, run.value.0, run.value.1);
      Ok(run.value.0)
  }

  lemma ChunkedRunKeeps(sorted: seq<int>, k: nat, batches: seq<seq<int>>, groups: seq<seq<int>>, left: seq<seq<int>>)
    requires k >= 1 && batches == Chunk(sorted, k) && |groups| == k
    requires forall g :: 0 <= g < k ==> |groups[g]| == 3
    requires multiset(Flatten(groups)) + multiset(Flatten(left)) == multiset(Flatten(batches))
    ensures multiset(Flatten(groups)) <= multiset(sorted) && 3 * k <= |sorted|
  {
    ChunkKeepsItems(sorted, k);
    var m := multiset(Flatten(groups));
    FlattenSize(groups);
    assert m <= multiset(sorted);
    assert |m| <= |multiset(sorted)| == |sorted|;
  }

  /** Groups of three hold three items each. */
  lemma {:induction false} FlattenSize(gs: seq<seq<int>>)
    requires forall g :: 0 <= g < |gs| ==> |gs[g]| == 3
    ensures |multiset(Flatten(gs))| == 3 * |gs|
    decreases |gs|
  {
    if gs != [] {
      FlattenSize(gs[..|gs| - 1]);
    }
  }

  /** The batch-size cast the loop divides by is 0 only when k < 0 and the list
      is shorter than -k; with k >= 1 it is the integer ceiling. */
  lemma JavaBatchSizeFacts(n: nat, k: int)
    ensures k >= 1 && n > 0 ==> JavaBatchSize(n, k) >= 1
    ensures k < 0 ==> (JavaBatchSize(n, k) == 0 <==> n < -k)
  {
  }

  /** The clamp to k - 1 never changes an index: i / ceil(n / k) < k. */
  lemma {:induction false} ClampNeverFires(n: nat, k: nat, i: nat)
    requires k >= 1 && i < n
    ensures i / CeilDiv(n, k) < k
  {
    var b := CeilDiv(n, k);
    var q := i / b;
    assert q * b <= i by {
      assert q * b + i % b == i;
    }
    MulMonoLeft(k, q, b);
  }

  lemma MulMonoLeft(a: int, b: int, c: int)
    requires c >= 0
    ensures a <= b ==> a * c <= b * c
  {
  }

  /** Chunking keeps every item: the batches hold the sorted list. */
  lemma ChunkKeepsItems(sorted: seq<int>, k: nat)
    requires k >= 1
    ensures multiset(Flatten(Chunk(sorted, k))) == multiset(sorted)
  {
    var batchSize := JavaBatchSize(|sorted|, k);
    if batchSize == 0 {
      EmptyFlatten(k);
    } else {
      DistributePreserves(sorted, k, ChunkChoices(|sorted|, k, batchSize));
    }
  }

  /** The chunks are contiguous: read one after another they give back the
      sorted list, batch i / ceil(n / k) receiving sorted item i. */
  lemma ChunkIsContiguous(sorted: seq<int>, k: nat)
    requires k >= 1
    ensures Flatten(Chunk(sorted, k)) == sorted
    ensures sorted != [] ==> forall i :: 0 <= i < |sorted| ==>
      ChunkChoices(|sorted|, k, CeilDiv(|sorted|, k))[i] == i / CeilDiv(|sorted|, k)
  {
    var n := |sorted|;
    if n == 0 {
      EmptyFlatten(k);
    } else {
      var b := CeilDiv(n, k);
      var c := ChunkChoices(n, k, b);
      forall i | 0 <= i < n ensures c[i] == i / b {
        ClampNeverFires(n, k, i);
      }
      forall i, j | 0 <= i < j < n ensures c[i] <= c[j] {
        DivMonotone(i, j, b);
      }
      DistributeInOrder(sorted, k, c);
    }
  }

  lemma DivMonotone(i: nat, j: nat, b: nat)
    requires b >= 1 && i <= j
    ensures i / b <= j / b
  {
    var p, q := i / b, j / b;
    assert p * b + i % b == i && q * b + j % b == j;
    MulMonoLeft(q + 1, p, b);
  }

  /** A run whose choices never decrease fills the groups one after another. */
  lemma {:induction false} DistributeInOrder(items: seq<int>, n: nat, choices: seq<nat>)
    requires |choices| == |items| && ChoicesBelow(choices, n)
    requires forall i, j :: 0 <= i < j < |choices| ==> choices[i] <= choices[j]
    ensures Flatten(Distribute(items, n, choices)) == items
    decreases |items|
  {
    if items == [] {
      EmptyFlatten(n);
    } else {
      var t := |items| - 1;
      var c := choices[t];
      var before := Distribute(items[..t], n, choices[..t]);
      DistributeInOrder(items[..t], n, choices[..t]);
      forall g | c < g < n ensures before[g] == [] {
        DistributeSelects(items[..t], n, choices[..t], g);
        SelectNone(items[..t], choices[..t], g);
      }
      FlattenAppendAt(before, c, items[t]);
      assert items == items[..t] + [items[t]];
    }
  }

  /** No item chose a group above all choices. */
  lemma {:induction false} SelectNone(items: seq<int>, choices: seq<nat>, g: nat)
    requires |choices| == |items| && forall t :: 0 <= t < |choices| ==> choices[t] < g
    ensures Select(items, choices, g) == []
    decreases |items|
  {
    if items != [] {
      SelectNone(items[..|items| - 1], choices[..|items| - 1], g);
    }
  }

  /** Appending to the last non-empty group appends to the flattened list. */
  lemma {:induction false} FlattenAppendAt(gs: seq<seq<int>>, c: nat, x: int)
    requires c < |gs| && forall g :: c < g < |gs| ==> gs[g] == []
    ensures Flatten(gs[c := gs[c] + [x]]) == Flatten(gs) + [x]
    decreases |gs|
  {
    var n := |gs| - 1;
    var gs' := gs[c := gs[c] + [x]];
    if c == n {
      assert gs'[..n] == gs[..n];
    } else {
      assert gs'[..n] == gs[..n][c := gs[c] + [x]];
      FlattenAppendAt(gs[..n], c, x);
    }
  }

  /** Item i goes to its chunk; the other batches stay as they are. */
  lemma ChunkStep(sorted: seq<int>, k: nat, batchSize: nat, i: nat)
    requires k >= 1 && batchSize >= 1 && i < |sorted|
    ensures var c, c' := ChunkChoices(i, k, batchSize), ChunkChoices(i + 1, k, batchSize);
      var g := if i / batchSize >= k then k - 1 else i / batchSize;
      c' == c + [g] &&
      Distribute(sorted[..i + 1], k, c') == Distribute(sorted[..i], k, c)[g := Distribute(sorted[..i], k, c)[g] + [sorted[i]]]
  {
    var c, c' := ChunkChoices(i, k, batchSize), ChunkChoices(i + 1, k, batchSize);
    var g := if i / batchSize >= k then k - 1 else i / batchSize;
    assert c' == c + [g];
    DistributeStep(sorted, i, k, c, g);
  }

  /** The loop batches.get(i / batchSize).add(sorted.get(i)) for k >= 1. */
  method DealChunks(sorted: seq<int>, k: nat, batchSize: int) returns (batches: seq<seq<int>>)
    requires k >= 1 && batchSize == JavaBatchSize(|sorted|, k)
    ensures batches == Chunk(sorted, k)
  {
    batches := NewLists(k);
    if |sorted| == 0 {
      return;
    }
    JavaBatchSizeFacts(|sorted|, k);
    ghost var choices: seq<nat> := [];
    var i := 0;
    while i < |sorted|
      invariant 0 <= i <= |sorted| && choices == ChunkChoices(i, k, batchSize)
      invariant batches == Distribute(sorted[..i], k, choices)
    {
      var batchIndex := i / batchSize;
      if batchIndex >= k {
        batchIndex := k - 1;
      }
      ChunkStep(sorted, k, batchSize, i);
      batches := batches[batchIndex := batches[batchIndex] + [sorted[i]]];
      choices := choices + [batchIndex];
      i := i + 1;
    }
    assert sorted[..i] == sorted;
  }

  /** The outer overload lrm(numbers, k).  It works on a sorted copy, so
      numbers is only read.  For k >= 1 the clamp is kept as written; for
      k <= 0 the first item already fails: 0 / batchSize throws when
      batchSize is 0, and otherwise the index k - 1 is negative. */
  method LrmList(numbers: seq<int>, k: int) returns (r: Result<seq<seq<int>>>)
    ensures r == LrmResult(numbers, k)
  {
    var sorted := SortDesc(numbers);
    assert |sorted| == |multiset(sorted)| == |numbers|;
    var batchSize := JavaBatchSize(|sorted|, k);
    if k <= 0 {
      var none := NewLists(k);
      if |sorted| > 0 {
        if batchSize == 0 {
          return Err(Arithmetic);
        }
        return Err(IndexOutOfBounds);
      }
      return Ok([]);
    }
    var batches := DealChunks(sorted, k, batchSize);
    var means := ComputeMeans(batches);
    var groups, _ := LrmBatches(batches, means, k);
    r := groups;
  }
}
