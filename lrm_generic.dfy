/** LRMPartition.lrmGeneric, both overloads: the sorted items are dealt
    round-robin into k batches, then drained into k groups in passes; in each
    pass every group in turn takes the first item of one batch, chosen by the
    largest spread (max - min) or, every k-th pass, by the first item closest
    to the target.  */
module LrmGeneric {
  import opened Errors
  import Text
  import opened Groups

  /** Collections.max on a non-empty list. */
  function SeqMax(s: seq<int>): (m: int)
    requires s != []
    ensures m in s && forall i :: 0 <= i < |s| ==> s[i] <= m
    decreases |s|
  {
    if |s| == 1 then s[0]
    else
      var m := SeqMax(s[1..]);
      assert forall i :: 1 <= i < |s| ==> s[i] == s[1..][i - 1];
      if s[0] > m then s[0] else m
  }

  /** Collections.min on a non-empty list. */
  function SeqMin(s: seq<int>): (m: int)
    requires s != []
    ensures m in s && forall i :: 0 <= i < |s| ==> m <= s[i]
    decreases |s|
  {
    if |s| == 1 then s[0]
    else
      var m := SeqMin(s[1..]);
      assert forall i :: 1 <= i < |s| ==> s[i] == s[1..][i - 1];
      if s[0] < m then s[0] else m
  }

  /** The spread of a non-empty batch, Collections.max less Collections.min. */
  function Spread(b: seq<int>): (r: int)
    requires b != []
    ensures r >= 0
  {
    SeqMax(b) - SeqMin(b)
  }

  /** The spread is the largest difference between two items of the batch. */
  lemma SpreadIsLargestDifference(b: seq<int>)
    requires b != []
    ensures forall i, j :: 0 <= i < |b| && 0 <= j < |b| ==> b[i] - b[j] <= Spread(b)
    ensures exists i, j :: 0 <= i < |b| && 0 <= j < |b| && b[i] - b[j] == Spread(b)
  {
    var i :| 0 <= i < |b| && b[i] == SeqMax(b);
    var j :| 0 <= j < |b| && b[j] == SeqMin(b);
    assert b[i] - b[j] == Spread(b);
  }

  function Abs(x: int): (r: nat)
    ensures r == x || r == -x
  {
    if x < 0 then -x else x
  }

  predicate AllEmpty(bs: seq<seq<int>>)
  {
    forall j :: 0 <= j < |bs| ==> bs[j] == []
  }

  /** How many items the batches still hold. */
  function TotalSize(bs: seq<seq<int>>): nat
  {
    |Flatten(bs)|
  }

  lemma {:induction false} AllEmptyFlatten(bs: seq<seq<int>>)
    requires AllEmpty(bs)
    ensures Flatten(bs) == []
    decreases |bs|
  {
    if bs != [] {
      AllEmptyFlatten(bs[..|bs| - 1]);
    }
  }

  // ---------------------------------------------------------------------------
  // The two selection rules

  /** Batch j is the lowest-index non-empty batch with the largest spread. */
  predicate IsWidest(bs: seq<seq<int>>, j: int)
  {
    0 <= j < |bs| && bs[j] != [] &&
    (forall h :: 0 <= h < |bs| && bs[h] != [] ==> Spread(bs[h]) <= Spread(bs[j])) &&
    (forall h :: 0 <= h < j && bs[h] != [] ==> Spread(bs[h]) < Spread(bs[j]))
  }

  /** The batch a normal pass takes from, or -1 when every batch is empty. */
  function WidestIndex(bs: seq<seq<int>>): (j: int)
    ensures -1 <= j < |bs|
    ensures j == -1 <==> AllEmpty(bs)
    ensures j >= 0 ==> bs[j] != []
    decreases |bs|
  {
    if bs == [] then -1
    else
      var n := |bs| - 1;
      var j := WidestIndex(bs[..n]);
      assert forall h :: 0 <= h < n ==> bs[..n][h] == bs[h];
      if bs[n] == [] then j
      else if j == -1 || Spread(bs[n]) > Spread(bs[j]) then n
      else j
  }

  /** A normal pass takes from the lowest-index non-empty batch with the
      largest spread. */
  lemma {:induction false} WidestIndexIsWidest(bs: seq<seq<int>>)
    ensures WidestIndex(bs) >= 0 ==> IsWidest(bs, WidestIndex(bs))
    decreases |bs|
  {
    if bs != [] {
      var n := |bs| - 1;
      WidestIndexIsWidest(bs[..n]);
      assert forall h :: 0 <= h < n ==> bs[..n][h] == bs[h];
    }
  }

  /** Distance of a non-empty batch's first item from the target. */
  function Distance(b: seq<int>, target: int): nat
    requires b != []
  {
    Abs(b[0] - target)
  }

  /** Batch j is the lowest-index non-empty batch whose first item is closest to the target. */
  predicate IsClosest(bs: seq<seq<int>>, target: int, j: int)
  {
    0 <= j < |bs| && bs[j] != [] &&
    (forall h :: 0 <= h < |bs| && bs[h] != [] ==> Distance(bs[j], target) <= Distance(bs[h], target)) &&
    (forall h :: 0 <= h < j && bs[h] != [] ==> Distance(bs[j], target) < Distance(bs[h], target))
  }

  /** The batch an adjustment pass takes from, or -1 when every batch is empty. */
  function ClosestIndex(bs: seq<seq<int>>, target: int): (j: int)
    ensures -1 <= j < |bs|
    ensures j == -1 <==> AllEmpty(bs)
    ensures j >= 0 ==> bs[j] != []
    decreases |bs|
  {
    if bs == [] then -1
    else
      var n := |bs| - 1;
      var j := ClosestIndex(bs[..n], target);
      assert forall h :: 0 <= h < n ==> bs[..n][h] == bs[h];
      if bs[n] == [] then j
      else if j == -1 || Distance(bs[n], target) < Distance(bs[j], target) then n
      else j
  }

  /** An adjustment pass takes from the lowest-index non-empty batch whose
      first item is closest to the target. */
  lemma {:induction false} ClosestIndexIsClosest(bs: seq<seq<int>>, target: int)
    ensures ClosestIndex(bs, target) >= 0 ==> IsClosest(bs, target, ClosestIndex(bs, target))
    decreases |bs|
  {
    if bs != [] {
      var n := |bs| - 1;
      ClosestIndexIsClosest(bs[..n], target);
      assert forall h :: 0 <= h < n ==> bs[..n][h] == bs[h];
    }
  }

  /** The scan over the batches that keeps the first strictly larger spread. */
  method WidestBatch(bs: seq<seq<int>>) returns (batchIndex: int)
    ensures batchIndex == WidestIndex(bs)
  {
    batchIndex := -1;
    var maxSpread := Text.IntMin;
    var j := 0;
    while j < |bs|
      invariant 0 <= j <= |bs|
      invariant batchIndex == WidestIndex(bs[..j])
      invariant batchIndex >= 0 ==> bs[batchIndex] != [] && maxSpread == Spread(bs[batchIndex])
      invariant batchIndex == -1 ==> maxSpread == Text.IntMin
    {
      assert bs[..j + 1][..j] == bs[..j];
      if bs[j] != [] {
        var spread := SeqMax(bs[j]) - SeqMin(bs[j]);
        if spread > maxSpread {
          maxSpread := spread;
          batchIndex := j;
        }
      }
      j := j + 1;
    }
    assert bs[..j] == bs;
  }

  /** The scan over the batches that keeps the first strictly smaller distance;
      minDiff starts at Double.MAX_VALUE, above every distance between ints,
      so the first non-empty batch is always taken. */
  method ClosestBatch(bs: seq<seq<int>>, target: int) returns (batchIndex: int)
    ensures batchIndex == ClosestIndex(bs, target)
  {
    batchIndex := -1;
    var minDiff := 0;
    var j := 0;
    while j < |bs|
      invariant 0 <= j <= |bs|
      invariant batchIndex == ClosestIndex(bs[..j], target)
      invariant batchIndex >= 0 ==> bs[batchIndex] != [] && minDiff == Distance(bs[batchIndex], target)
    {
      assert bs[..j + 1][..j] == bs[..j];
      if bs[j] != [] {
        var peekValue := bs[j][0];
        var diff := Abs(peekValue - target);
        if batchIndex == -1 || diff < minDiff {
          minDiff := diff;
          batchIndex := j;
        }
      }
      j := j + 1;
    }
    assert bs[..j] == bs;
  }

  // ---------------------------------------------------------------------------
  // Passes of the do-while loop

  /** The batches being drained and the groups being filled. */
  datatype Deal = Deal(batches: seq<seq<int>>, groups: seq<seq<int>>)

  /** Which batch group i takes from in pass number iteration. */
  function Pick(bs: seq<seq<int>>, iteration: nat, k: nat, target: int): (j: int)
    requires k >= 1
    ensures -1 <= j < |bs| && (j == -1 <==> AllEmpty(bs))
    ensures j >= 0 ==> bs[j] != []
  {
    if iteration % k != 0 then WidestIndex(bs) else ClosestIndex(bs, target)
  }

  /** Every k-th pass, starting with the first, follows the closest-item rule;
      the others follow the largest-spread rule. */
  lemma PickRule(bs: seq<seq<int>>, iteration: nat, k: nat, target: int)
    requires k >= 1
    ensures var j := Pick(bs, iteration, k, target);
      j >= 0 ==> if iteration % k != 0 then IsWidest(bs, j) else IsClosest(bs, target, j)
  {
    WidestIndexIsWidest(bs);
    ClosestIndexIsClosest(bs, target);
  }

  /** Group i takes the first item of batch j. */
  function Move(d: Deal, i: nat, j: nat): (r: Deal)
    requires i < |d.groups| && j < |d.batches| && d.batches[j] != []
    ensures |r.groups| == |d.groups| && |r.batches| == |d.batches|
  {
    Deal(d.batches[j := d.batches[j][1..]], d.groups[i := d.groups[i] + [d.batches[j][0]]])
  }

  /** Every item the groups and the batches hold together. */
  function Items(d: Deal): multiset<int>
  {
    multiset(Flatten(d.groups)) + multiset(Flatten(d.batches))
  }

  /** A move neither creates nor loses an item, and the batches lose one. */
  lemma MoveFacts(d: Deal, i: nat, j: nat)
    requires i < |d.groups| && j < |d.batches| && d.batches[j] != []
    ensures Items(Move(d, i, j)) == Items(d)
    ensures TotalSize(Move(d, i, j).batches) + 1 == TotalSize(d.batches)
  {
    var r := Move(d, i, j);
    FlattenDropFirst(d.batches, j);
    FlattenAddItem(d.groups, i, d.batches[j][0]);
    assert |multiset(Flatten(r.batches))| + 1 == |multiset(Flatten(d.batches))|;
  }

  /** A rule that names a batch to take from, or -1 when every batch is empty. */
  type Picker = seq<seq<int>> -> int

  /** What the passes need of a rule: it names a non-empty batch while there is one. */
  ghost predicate Picks(pick: Picker)
  {
    forall bs {:trigger pick(bs)} :: -1 <= pick(bs) < |bs| && (pick(bs) == -1 <==> AllEmpty(bs)) &&
      (pick(bs) >= 0 ==> bs[pick(bs)] != [])
  }

  /** The rule of pass number iteration. */
  function Rule(iteration: nat, k: nat, target: int): (pick: Picker)
    requires k >= 1
    ensures Picks(pick)
    ensures forall bs :: pick(bs) == Pick(bs, iteration, k, target)
  {
    bs => Pick(bs, iteration, k, target)
  }

  /** The rest of one pass, from group i on; added says whether any group took an item. */
  function Pass(d: Deal, i: nat, pick: Picker, k: nat, added: bool): (r: (Deal, bool))
    requires Picks(pick) && |d.groups| == k && i <= k
    ensures |r.0.groups| == k && |r.0.batches| == |d.batches|
    decreases k - i
  {
    if i == k then (d, added)
    else
      var j := pick(d.batches);
      if j >= 0 then Pass(Move(d, i, j), i + 1, pick, k, true)
      else Pass(d, i + 1, pick, k, added)
  }

  /** A pass moves items from the batches to the groups and loses none. */
  lemma {:induction false} PassConserves(d: Deal, i: nat, pick: Picker, k: nat, added: bool)
    requires Picks(pick) && |d.groups| == k && i <= k
    ensures Items(Pass(d, i, pick, k, added).0) == Items(d)
    decreases k - i
  {
    if i < k {
      var j := pick(d.batches);
      if j >= 0 {
        MoveFacts(d, i, j);
        PassConserves(Move(d, i, j), i + 1, pick, k, true);
      } else {
        PassConserves(d, i + 1, pick, k, added);
      }
    }
  }

  /** A pass reports an addition exactly when some batch was non-empty, and a
      pass that adds nothing changes nothing. */
  lemma {:induction false} PassAdded(d: Deal, i: nat, pick: Picker, k: nat, added: bool)
    requires Picks(pick) && |d.groups| == k && i <= k
    ensures var r := Pass(d, i, pick, k, added);
      r.1 == (added || (i < k && !AllEmpty(d.batches))) && (!r.1 ==> r.0 == d)
    decreases k - i
  {
    if i < k {
      var j := pick(d.batches);
      if j >= 0 {
        PassAdded(Move(d, i, j), i + 1, pick, k, true);
      } else {
        PassAdded(d, i + 1, pick, k, added);
      }
    }
  }

  /** The batches never grow during a pass, and shrink once an item moved. */
  lemma {:induction false} PassShrinks(d: Deal, i: nat, pick: Picker, k: nat, added: bool)
    requires Picks(pick) && |d.groups| == k && i <= k
    ensures var r := Pass(d, i, pick, k, added);
      TotalSize(r.0.batches) <= TotalSize(d.batches) &&
      (r.1 && !added ==> TotalSize(r.0.batches) < TotalSize(d.batches))
    decreases k - i
  {
    if i < k {
      var j := pick(d.batches);
      if j >= 0 {
        MoveFacts(d, i, j);
        PassShrinks(Move(d, i, j), i + 1, pick, k, true);
      } else {
        PassShrinks(d, i + 1, pick, k, added);
      }
    }
  }

  /** The three facts about a pass together. */
  lemma PassFacts(d: Deal, i: nat, pick: Picker, k: nat, added: bool)
    requires Picks(pick) && |d.groups| == k && i <= k
    ensures var r := Pass(d, i, pick, k, added);
      Items(r.0) == Items(d) &&
      r.1 == (added || (i < k && !AllEmpty(d.batches))) &&
      (!r.1 ==> r.0 == d) &&
      TotalSize(r.0.batches) <= TotalSize(d.batches) &&
      (r.1 && !added ==> TotalSize(r.0.batches) < TotalSize(d.batches))
  {
    PassConserves(d, i, pick, k, added);
    PassAdded(d, i, pick, k, added);
    PassShrinks(d, i, pick, k, added);
  }

  /** Passes until one adds nothing: the batches end empty and the groups hold
      every item they held. */
  function Rounds(d: Deal, iteration: nat, k: nat, target: int): (r: Deal)
    requires k >= 1 && |d.groups| == k
    ensures |r.groups| == k && |r.batches| == |d.batches| && AllEmpty(r.batches)
    ensures multiset(Flatten(r.groups)) == multiset(Flatten(d.groups)) + multiset(Flatten(d.batches))
    decreases TotalSize(d.batches)
  {
    var p := Pass(d, 0, Rule(iteration, k, target), k, false);
    PassFacts(d, 0, Rule(iteration, k, target), k, false);
    if p.1 then Rounds(p.0, iteration + 1, k, target)
    else
      AllEmptyFlatten(p.0.batches);
      p.0
  }

  /** The inner lrmGeneric(batches, means, k): the groups it returns and the
      batches it leaves behind. */
  function LrmGenericRun(batches: seq<seq<int>>, means: seq<int>, k: int): (r: Deal)
    ensures k <= 0 ==> r == Deal(batches, [])
    ensures k >= 1 ==> |r.groups| == k && |r.batches| == |batches| && AllEmpty(r.batches)
    ensures k >= 1 ==> multiset(Flatten(r.groups)) == multiset(Flatten(batches))
  {
    if k <= 0 then Deal(batches, [])
    else
      EmptyFlatten(k);
      Rounds(Deal(batches, EmptyGroups(k)), 0, k, Sum(means))
  }

  /** The body of the for loop for group i: pick a batch by the pass's rule
      and, when one was found, move its first item to group i. */
  method TakeFor(batches: seq<seq<int>>, groups: seq<seq<int>>, i: nat, iteration: nat, k: nat, targetMean: int)
      returns (batches': seq<seq<int>>, groups': seq<seq<int>>, took: bool)
    requires k >= 1 && i < |groups|
    ensures var j := Pick(batches, iteration, k, targetMean);
      took == (j >= 0) &&
      (took ==> Deal(batches', groups') == Move(Deal(batches, groups), i, j)) &&
      (!took ==> batches' == batches && groups' == groups)
  {
    var batchIndex;
    if iteration % k != 0 {
      batchIndex := WidestBatch(batches);
    } else {
      batchIndex := ClosestBatch(batches, targetMean);
    }
    batches', groups', took := batches, groups, false;
    if batchIndex >= 0 && batches[batchIndex] != [] {
      var value := batches[batchIndex][0];
      batches' := batches[batchIndex := batches[batchIndex][1..]];
      groups' := groups[i := groups[i] + [value]];
      took := true;
    }
  }

  /** Pass unfolded once: group i takes from the picked batch, if any. */
  lemma PassStep(d: Deal, d': Deal, i: nat, pick: Picker, k: nat, added: bool, took: bool)
    requires Picks(pick) && |d.groups| == k && i < k
    requires took == (pick(d.batches) >= 0)
    requires took ==> d' == Move(d, i, pick(d.batches))
    requires !took ==> d' == d
    ensures |d'.groups| == k
    ensures Pass(d, i, pick, k, added) == Pass(d', i + 1, pick, k, added || took)
  {
  }

  /** One pass of the do-while body: the for loop over the k groups. */
  method DealPass(batches: seq<seq<int>>, groups: seq<seq<int>>, iteration: nat, k: nat, targetMean: int)
      returns (batches': seq<seq<int>>, groups': seq<seq<int>>, added: bool)
    requires k >= 1 && |groups| == k
    ensures (Deal(batches', groups'), added) == Pass(Deal(batches, groups), 0, Rule(iteration, k, targetMean), k, false)
  {
    ghost var pick := Rule(iteration, k, targetMean);
    batches', groups', added := batches, groups, false;
    var i := 0;
    while i < k
      invariant 0 <= i <= k && |groups'| == k
      invariant Pass(Deal(batches', groups'), i, pick, k, added)
             == Pass(Deal(batches, groups), 0, pick, k, false)
    {
      ghost var before := Deal(batches', groups');
      var took;
      batches', groups', took := TakeFor(batches', groups', i, iteration, k, targetMean);
      assert pick(before.batches) == Pick(before.batches, iteration, k, targetMean);
      PassStep(before, Deal(batches', groups'), i, pick, k, added, took);
      added := added || took;
      i := i + 1;
    }
  }

  /** The inner overload lrmGeneric(batches, means, k).  The caller's batches
      are drained in place; drained is what they hold afterwards. */
  method LrmGenericBatches(batches: seq<seq<int>>, means: seq<int>, k: int)
      returns (groups: seq<seq<int>>, drained: seq<seq<int>>)
    ensures Deal(drained, groups) == LrmGenericRun(batches, means, k)
  {
    var targetMean := Sum(means);
    groups := NewLists(k);
    if k <= 0 {
      return [], batches;
    }
    ghost var final := LrmGenericRun(batches, means, k);
    drained := batches;
    var added := true;
    var iteration: nat := 0;
    while added
      invariant |groups| == k
      invariant added ==> Rounds(Deal(drained, groups), iteration, k, targetMean) == final
      invariant !added ==> Deal(drained, groups) == final
      decreases TotalSize(drained) + (if added then 1 else 0)
    {
      PassFacts(Deal(drained, groups), 0, Rule(iteration, k, targetMean), k, false);
      drained, groups, added := DealPass(drained, groups, iteration, k, targetMean);
      iteration := iteration + 1;
    }
  }

  // ---------------------------------------------------------------------------
  // The outer overload

  /** Sorted item i goes to batch i % k. */
  function RoundRobinChoices(n: nat, k: nat): (c: seq<nat>)
    requires k >= 1
    ensures |c| == n && ChoicesBelow(c, k)
  {
    seq(n, i => i % k)
  }

  /** The k batches the round-robin deal builds. */
  function RoundRobin(sorted: seq<int>, k: nat): (bs: seq<seq<int>>)
    requires k >= 1
    ensures |bs| == k
  {
    Distribute(sorted, k, RoundRobinChoices(|sorted|, k))
  }

  /** The means list: the sum of each batch. */
  function BatchSums(bs: seq<seq<int>>): (sums: seq<int>)
    ensures |sums| == |bs| && forall j :: 0 <= j < |bs| ==> sums[j] == Sum(bs[j])
  {
    seq(|bs|, j requires 0 <= j < |bs| => Sum(bs[j]))
  }

  /** The sums of the batches add up to the sum of all their items. */
  lemma {:induction false} SumOfBatchSums(bs: seq<seq<int>>)
    ensures Sum(BatchSums(bs)) == Sum(Flatten(bs))
    decreases |bs|
  {
    if bs != [] {
      var n := |bs| - 1;
      SumOfBatchSums(bs[..n]);
      assert BatchSums(bs)[..n] == BatchSums(bs[..n]);
      SumConcat(Flatten(bs[..n]), bs[n]);
    }
  }

  /** What lrmGeneric(numbers, k) returns or throws. */
  function LrmGenericResult(numbers: seq<int>, k: int): (r: Result<seq<seq<int>>>)
    ensures k == 0 && numbers != [] ==> r == Err(Arithmetic)
    ensures k < 0 && numbers != [] ==> r == Err(IndexOutOfBounds)
    ensures k <= 0 && numbers == [] ==> r == Ok([])
    ensures k >= 1 ==> r.Ok? && |r.value| == k && multiset(Flatten(r.value)) == multiset(numbers)
  {
    if k <= 0 then
      if numbers == [] then Ok([]) else if k == 0 then Err(Arithmetic) else Err(IndexOutOfBounds)
    else
      var sorted := SortDesc(numbers);
      var batches := RoundRobin(sorted, k);
      DistributePreserves(sorted, k, RoundRobinChoices(|sorted|, k));
      Ok(LrmGenericRun(batches, BatchSums(batches), k).groups)
  }

  /** k new, empty lists (none when k <= 0). */
  method NewLists(k: int) returns (lists: seq<seq<int>>)
    ensures k >= 0 ==> lists == EmptyGroups(k)
    ensures k < 0 ==> lists == []
  {
    lists := [];
    var i := 0;
    while i < k
      invariant 0 <= i && (k >= 0 ==> i <= k) && (k < 0 ==> i == 0) && lists == EmptyGroups(i)
    {
      lists := lists + [[]];
      i := i + 1;
    }
  }

  /** The loop batches.get(i % k).add(sorted.get(i)) for k >= 1. */
  method DealRoundRobin(sorted: seq<int>, k: nat) returns (batches: seq<seq<int>>)
    requires k >= 1
    ensures batches == RoundRobin(sorted, k)
  {
    batches := NewLists(k);
    ghost var choices: seq<nat> := [];
    var i := 0;
    while i < |sorted|
      invariant 0 <= i <= |sorted| && choices == RoundRobinChoices(i, k)
      invariant batches == Distribute(sorted[..i], k, choices)
    {
      var b := i % k;
      assert sorted[..i + 1][..i] == sorted[..i];
      assert (choices + [b])[..i] == choices;
      batches := batches[b := batches[b] + [sorted[i]]];
      choices := choices + [b];
      i := i + 1;
    }
    assert sorted[..i] == sorted;
  }

  /** The loop that adds the sum of every batch to means. */
  method ComputeMeans(batches: seq<seq<int>>) returns (means: seq<int>)
    ensures means == BatchSums(batches)
  {
    means := [];
    var j := 0;
    while j < |batches|
      invariant 0 <= j <= |batches| && means == BatchSums(batches[..j])
    {
      means := means + [Sum(batches[j])];
      j := j + 1;
    }
    assert batches[..j] == batches;
  }

  /** The outer overload lrmGeneric(numbers, k).  It works on a sorted copy, so
      numbers is only read.  With k == 0 the first i % k divides by zero; with
      k < 0 there are no batches to add to. */
  method LrmGenericList(numbers: seq<int>, k: int) returns (r: Result<seq<seq<int>>>)
    ensures r == LrmGenericResult(numbers, k)
  {
    var sorted := SortDesc(numbers);
    if k <= 0 {
      var none := NewLists(k);
      if |sorted| > 0 {
        return if k == 0 then Err(Arithmetic) else Err(IndexOutOfBounds);
      }
      return Ok([]);
    }
    var batches := DealRoundRobin(sorted, k);
    var means := ComputeMeans(batches);
    var groups, _ := LrmGenericBatches(batches, means, k);
    r := Ok(groups);
  }

  // ---------------------------------------------------------------------------
  // Properties of the round-robin deal

  lemma MulAtLeast(a: int, k: int)
    requires k >= 0
    ensures a >= 1 ==> a * k >= k
    ensures a <= -1 ==> a * k <= -k
  {
  }

  /** The only multiple of k strictly between -k and k is 0. */
  lemma SmallMultiple(a: int, k: int)
    requires k >= 1 && -k < a * k < k
    ensures a == 0
  {
    MulAtLeast(a, k);
  }

  /** Quotient and remainder are determined by t == q * k + m with 0 <= m < k. */
  lemma DivModUnique(t: nat, k: nat, q: int, m: int)
    requires k >= 1 && t == q * k + m && 0 <= m < k
    ensures t / k == q && t % k == m
  {
    var q0, m0 := t / k, t % k;
    assert (q - q0) * k == m0 - m by {
      assert q0 * k + m0 == t;
      assert (q - q0) * k == q * k - q0 * k;
    }
    SmallMultiple(q - q0, k);
  }

  lemma DivModStep(t: nat, k: nat)
    requires k >= 1
    ensures t % k == k - 1 ==> (t + 1) / k == t / k + 1 && (t + 1) % k == 0
    ensures t % k != k - 1 ==> (t + 1) / k == t / k && (t + 1) % k == t % k + 1
  {
    var q, m := t / k, t % k;
    if m == k - 1 {
      DivModUnique(t + 1, k, q + 1, 0);
    } else {
      DivModUnique(t + 1, k, q, m + 1);
    }
  }

  /** Dealing one more sorted item adds it to batch t % k only. */
  lemma RoundRobinStep(sorted: seq<int>, k: nat, j: nat)
    requires k >= 1 && j < k && sorted != []
    ensures var t := |sorted| - 1;
      |RoundRobin(sorted, k)[j]| == |RoundRobin(sorted[..t], k)[j]| + (if j == t % k then 1 else 0)
  {
    var t := |sorted| - 1;
    var c := RoundRobinChoices(t, k);
    assert RoundRobinChoices(|sorted|, k) == c + [t % k];
    assert sorted[..t + 1] == sorted;
    DistributeStep(sorted, t, k, c, t % k);
  }

  /** How many of the positions 0 .. n-1 are congruent to j modulo k. */
  function Share(n: nat, k: nat, j: nat): nat
    requires k >= 1
  {
    if n == 0 then 0 else Share(n - 1, k, j) + (if (n - 1) % k == j then 1 else 0)
  }

  /** That count is n / k, plus one when j < n % k. */
  lemma {:induction false} ShareFormula(n: nat, k: nat, j: nat)
    requires k >= 1 && j < k
    ensures Share(n, k, j) == n / k + (if j < n % k then 1 else 0)
  {
    if n > 0 {
      var t := n - 1;
      var q, m := t / k, t % k;
      ShareFormula(t, k, j);
      DivModStep(t, k);
      assert Share(n, k, j) == q + (if j < m then 1 else 0) + (if m == j then 1 else 0);
      if m == k - 1 {
        assert n / k == q + 1 && n % k == 0;
      } else {
        assert n / k == q && n % k == m + 1;
      }
    }
  }

  /** Batch j holds one item per sorted position congruent to j modulo k. */
  lemma {:induction false} RoundRobinShare(sorted: seq<int>, k: nat, j: nat)
    requires k >= 1 && j < k
    ensures |RoundRobin(sorted, k)[j]| == Share(|sorted|, k, j)
    decreases |sorted|
  {
    if sorted != [] {
      var t := |sorted| - 1;
      RoundRobinStep(sorted, k, j);
      RoundRobinShare(sorted[..t], k, j);
    }
  }

  /** Batch j receives n / k items, plus one when j < n % k. */
  lemma RoundRobinSizes(sorted: seq<int>, k: nat, j: nat)
    requires k >= 1 && j < k
    ensures |RoundRobin(sorted, k)[j]| == |sorted| / k + (if j < |sorted| % k then 1 else 0)
  {
    RoundRobinShare(sorted, k, j);
    ShareFormula(|sorted|, k, j);
  }

  /** The batches' sizes differ by at most one, each batch is non-increasing,
      batch j holds the sorted items at positions congruent to j modulo k in
      order, and the target (the sum of the means) is the total of the input. */
  lemma RoundRobinProperties(numbers: seq<int>, k: nat)
    requires k >= 1
    ensures var sorted := SortDesc(numbers); var bs := RoundRobin(sorted, k);
      (forall j, h :: 0 <= j < k && 0 <= h < k ==> |bs[j]| <= |bs[h]| + 1) &&
      (forall j :: 0 <= j < k ==> NonIncreasing(bs[j]) && bs[j] == Select(sorted, RoundRobinChoices(|sorted|, k), j)) &&
      Sum(BatchSums(bs)) == Sum(numbers)
  {
    var sorted := SortDesc(numbers);
    var c := RoundRobinChoices(|sorted|, k);
    var bs := RoundRobin(sorted, k);
    forall j, h | 0 <= j < k && 0 <= h < k ensures |bs[j]| <= |bs[h]| + 1 {
      RoundRobinSizes(sorted, k, j);
      RoundRobinSizes(sorted, k, h);
    }
    forall j | 0 <= j < k ensures NonIncreasing(bs[j]) && bs[j] == Select(sorted, c, j) {
      DistributeSelects(sorted, k, c, j);
      SelectKeepsOrder(sorted, c, j);
    }
    SumOfBatchSums(bs);
    DistributePreserves(sorted, k, c);
    SumPermutation(Flatten(bs), sorted);
    SumPermutation(sorted, numbers);
  }
}
