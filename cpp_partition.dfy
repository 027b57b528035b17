/** partition::FFD of the C++ code: First-Fit Decreasing over a
    std::multiset<Bin> ordered by remaining capacity.  A run is described by a
    ghost choice sequence (the group each item joined, groups numbered in the
    order they were opened) and the groups it produces. */
module CppPartition {
  import opened Groups

  /** The local struct Bin{remaining, idx}. */
  datatype CBin = CBin(remaining: int, idx: int)

  /** A std::multiset<Bin> under Bin::operator<, which compares remaining only:
      its elements in iteration order, remaining non-decreasing. */
  predicate Sorted(bins: seq<CBin>)
  {
    forall i, j :: 0 <= i < j < |bins| ==> bins[i].remaining <= bins[j].remaining
  }

  /** bins.lower_bound(Bin{x, 0}): the position of the first bin whose remaining
      is not below x, or |bins| (end()) when there is none. */
  function LowerBound(bins: seq<CBin>, x: int): (i: nat)
    ensures i <= |bins|
    ensures i < |bins| ==> bins[i].remaining >= x
    ensures forall j :: 0 <= j < i ==> bins[j].remaining < x
  {
    if bins == [] then 0
    else if bins[0].remaining >= x then 0
    else 1 + LowerBound(bins[1..], x)
  }

  /** The position where multiset::insert puts b: after every element not
      greater than b, that is, at the upper bound of b's equal range. */
  function UpperBound(bins: seq<CBin>, b: CBin): (i: nat)
    ensures i <= |bins|
    ensures i < |bins| ==> bins[i].remaining > b.remaining
    ensures forall j :: 0 <= j < i ==> bins[j].remaining <= b.remaining
  {
    if bins == [] then 0
    else if bins[0].remaining > b.remaining then 0
    else 1 + UpperBound(bins[1..], b)
  }

  /** multiset::insert: b joins the set in order; nothing is refused. */
  function InsertBin(bins: seq<CBin>, b: CBin): (r: seq<CBin>)
    requires Sorted(bins)
    ensures Sorted(r)
    ensures multiset(r) == multiset(bins) + multiset{b}
  {
    var i := UpperBound(bins, b);
    InsertKeepsBins(bins, b, i);
    var r := bins[..i] + [b] + bins[i..];
    forall j, k | 0 <= j < k < |r| ensures r[j].remaining <= r[k].remaining {
      InsertAt(bins, b, i, j);
      InsertAt(bins, b, i, k);
      if i < k && j < i {
        assert bins[j].remaining <= bins[i].remaining;
      }
    }
    r
  }

  lemma InsertAt(bins: seq<CBin>, b: CBin, i: nat, j: nat)
    requires i <= |bins| && j <= |bins|
    ensures (bins[..i] + [b] + bins[i..])[j] == if j < i then bins[j] else if j == i then b else bins[j - 1]
  {
  }

  lemma InsertKeepsBins(bins: seq<CBin>, b: CBin, i: nat)
    requires i <= |bins|
    ensures multiset(bins[..i] + [b] + bins[i..]) == multiset(bins) + multiset{b}
  {
    assert bins == bins[..i] + bins[i..];
  }

  /** multiset::erase(it) for the iterator at position i. */
  function EraseAt(bins: seq<CBin>, i: nat): (r: seq<CBin>)
    requires Sorted(bins) && i < |bins|
    ensures Sorted(r)
    ensures multiset(r) + multiset{bins[i]} == multiset(bins)
  {
    var r := bins[..i] + bins[i + 1..];
    assert bins == bins[..i] + [bins[i]] + bins[i + 1..];
    assert forall j :: 0 <= j < |r| ==> r[j] == if j < i then bins[j] else bins[j + 1];
    r
  }

  // ---------------------------------------------------------------------------
  // What the set should hold, and the best-fit rule

  /** One bin per group, whose remaining is capacity less the group's sum. */
  function BinsOf(gs: seq<seq<int>>, capacity: int): seq<CBin>
  {
    seq(|gs|, g requires 0 <= g < |gs| => CBin(capacity - Sum(gs[g]), g))
  }

  /** Group g has room for x, and no group with room for x has less room. */
  predicate IsBestFit(gs: seq<seq<int>>, capacity: int, x: int, g: nat)
  {
    g < |gs| && capacity - Sum(gs[g]) >= x &&
    forall h :: 0 <= h < |gs| && capacity - Sum(gs[h]) >= x ==> Sum(gs[h]) <= Sum(gs[g])
  }

  /** No group has room for x. */
  predicate NoFit(gs: seq<seq<int>>, capacity: int, x: int)
  {
    forall h :: 0 <= h < |gs| ==> capacity - Sum(gs[h]) < x
  }

  /** The number of groups a run has opened: a choice equal to the count so far
      opens the next group. */
  function GroupCount(choices: seq<nat>): nat
    decreases |choices|
  {
    if choices == [] then 0
    else
      var t := |choices| - 1;
      var k := GroupCount(choices[..t]);
      if choices[t] == k then k + 1 else k
  }

  /** Every item joins an open group or opens the next one, so groups are
      numbered in the order they were opened. */
  predicate OpeningOrder(choices: seq<nat>)
    decreases |choices|
  {
    choices == [] ||
    var t := |choices| - 1;
    OpeningOrder(choices[..t]) && choices[t] <= GroupCount(choices[..t])
  }

  lemma {:induction false} ChoicesBelowCount(choices: seq<nat>)
    requires OpeningOrder(choices)
    ensures ChoicesBelow(choices, GroupCount(choices))
    decreases |choices|
  {
    if choices != [] {
      var t := |choices| - 1;
      ChoicesBelowCount(choices[..t]);
      forall j | 0 <= j < |choices| ensures choices[j] < GroupCount(choices) {
        if j < t {
          assert choices[..t][j] == choices[j];
        }
      }
    }
  }

  /** Every item joined a group that had room for it and the least room among
      those, or opened a new group when no open group had room. */
  ghost predicate BestFitRun(items: seq<int>, capacity: int, choices: seq<nat>)
    requires |choices| == |items| && OpeningOrder(choices)
    decreases |items|
  {
    items == [] ||
    var t := |items| - 1;
    var k := GroupCount(choices[..t]);
    ChoicesBelowCount(choices[..t]);
    var gs := Distribute(items[..t], k, choices[..t]);
    BestFitRun(items[..t], capacity, choices[..t]) &&
    (if choices[t] == k then NoFit(gs, capacity, items[t]) else IsBestFit(gs, capacity, items[t], choices[t]))
  }

  // ---------------------------------------------------------------------------
  // One item at a time

  /** Item t opens group k: the run gains the group [items[t]]. */
  lemma OpenStep(items: seq<int>, t: nat, choices: seq<nat>, capacity: int, k: nat)
    requires t < |items| && |choices| == t && OpeningOrder(choices) && k == GroupCount(choices)
    requires ChoicesBelow(choices, k)
    ensures OpeningOrder(choices + [k]) && GroupCount(choices + [k]) == k + 1
    ensures ChoicesBelow(choices + [k], k + 1)
    ensures Distribute(items[..t + 1], k + 1, choices + [k]) == Distribute(items[..t], k, choices) + [[items[t]]]
    ensures BestFitRun(items[..t + 1], capacity, choices + [k])
        <==> BestFitRun(items[..t], capacity, choices) && NoFit(Distribute(items[..t], k, choices), capacity, items[t])
  {
    var c := choices + [k];
    assert items[..t + 1][..t] == items[..t];
    assert c[..t] == choices;
    DistributeWiden(items[..t], k, choices);
    var d := Distribute(items[..t], k, choices);
    assert ([] + [items[t]]) == [items[t]];
    assert (d + [[]])[k := [items[t]]] == d + [[items[t]]];
  }

  /** Item t joins the open group g. */
  lemma JoinStep(items: seq<int>, t: nat, choices: seq<nat>, capacity: int, k: nat, g: nat)
    requires t < |items| && |choices| == t && OpeningOrder(choices) && k == GroupCount(choices) && g < k
    requires ChoicesBelow(choices, k)
    ensures OpeningOrder(choices + [g]) && GroupCount(choices + [g]) == k
    ensures ChoicesBelow(choices + [g], k)
    ensures Distribute(items[..t + 1], k, choices + [g])
         == Distribute(items[..t], k, choices)[g := Distribute(items[..t], k, choices)[g] + [items[t]]]
    ensures BestFitRun(items[..t + 1], capacity, choices + [g])
        <==> BestFitRun(items[..t], capacity, choices) && IsBestFit(Distribute(items[..t], k, choices), capacity, items[t], g)
  {
    assert items[..t + 1][..t] == items[..t];
    assert (choices + [g])[..t] == choices;
  }

  /** Opening group |gs| with item x adds its bin at the end. */
  lemma BinsOfOpen(gs: seq<seq<int>>, capacity: int, x: int)
    ensures BinsOf(gs + [[x]], capacity) == BinsOf(gs, capacity) + [CBin(capacity - x, |gs|)]
  {
    assert Sum([x]) == x by {
      assert [x][..0] == [];
    }
    var after := BinsOf(gs + [[x]], capacity);
    var want := BinsOf(gs, capacity) + [CBin(capacity - x, |gs|)];
    forall i | 0 <= i < |after| ensures after[i] == want[i] {
      if i < |gs| {
        assert (gs + [[x]])[i] == gs[i];
      }
    }
  }

  /** Adding x to group g replaces g's bin by one with x less remaining. */
  lemma BinsOfJoin(gs: seq<seq<int>>, capacity: int, g: nat, x: int, oldB: CBin, newB: CBin)
    requires g < |gs|
    requires oldB == CBin(capacity - Sum(gs[g]), g) && newB == CBin(capacity - Sum(gs[g]) - x, g)
    ensures multiset(BinsOf(gs[g := gs[g] + [x]], capacity)) == multiset(BinsOf(gs, capacity)) - multiset{oldB} + multiset{newB}
  {
    var e := BinsOf(gs, capacity);
    assert Sum(gs[g] + [x]) == Sum(gs[g]) + x by {
      assert (gs[g] + [x])[..|gs[g]|] == gs[g];
    }
    var after := BinsOf(gs[g := gs[g] + [x]], capacity);
    forall i | 0 <= i < |e| ensures after[i] == e[g := newB][i] {
      if i != g {
        assert after[i] == CBin(capacity - Sum(gs[i]), i);
      }
    }
    assert after == e[g := newB];
  }

  /** The bin of group h is somewhere in the set. */
  lemma GroupHasBin(gs: seq<seq<int>>, bins: seq<CBin>, capacity: int, h: nat) returns (j: nat)
    requires multiset(bins) == multiset(BinsOf(gs, capacity)) && h < |gs|
    ensures j < |bins| && bins[j] == CBin(capacity - Sum(gs[h]), h)
  {
    var e := BinsOf(gs, capacity);
    assert e[h] in multiset(bins);
    j :| 0 <= j < |bins| && bins[j] == e[h];
  }

  /** Every bin in the set is the bin of a group. */
  lemma BinIsOfGroup(gs: seq<seq<int>>, bins: seq<CBin>, capacity: int, i: nat)
    requires multiset(bins) == multiset(BinsOf(gs, capacity)) && i < |bins|
    ensures 0 <= bins[i].idx < |gs| && bins[i].remaining == capacity - Sum(gs[bins[i].idx])
  {
    var e := BinsOf(gs, capacity);
    assert bins[i] in multiset(e);
    var g0 :| 0 <= g0 < |e| && e[g0] == bins[i];
  }

  /** lower_bound on a set holding one bin per group finds a best-fitting
      group, or reports that no group has room. */
  lemma LowerBoundFits(gs: seq<seq<int>>, bins: seq<CBin>, capacity: int, x: int)
    requires Sorted(bins) && multiset(bins) == multiset(BinsOf(gs, capacity))
    ensures LowerBound(bins, x) == |bins| ==> NoFit(gs, capacity, x)
    ensures LowerBound(bins, x) < |bins| ==>
      var b := bins[LowerBound(bins, x)];
      0 <= b.idx < |gs| && b.remaining == capacity - Sum(gs[b.idx]) && IsBestFit(gs, capacity, x, b.idx)
  {
    var i := LowerBound(bins, x);
    if i == |bins| {
      forall h | 0 <= h < |gs| ensures capacity - Sum(gs[h]) < x {
        var j := GroupHasBin(gs, bins, capacity, h);
      }
    } else {
      BinIsOfGroup(gs, bins, capacity, i);
      var b := bins[i];
      forall h | 0 <= h < |gs| && capacity - Sum(gs[h]) >= x ensures Sum(gs[h]) <= Sum(gs[b.idx]) {
        var j := GroupHasBin(gs, bins, capacity, h);
        assert bins[i].remaining <= bins[j].remaining;
      }
    }
  }

  /** The set after opening group |gs| with x: its bin inserted. */
  lemma OpenBins(gs: seq<seq<int>>, bins: seq<CBin>, capacity: int, x: int)
    requires Sorted(bins) && multiset(bins) == multiset(BinsOf(gs, capacity))
    ensures multiset(InsertBin(bins, CBin(capacity - x, |gs|))) == multiset(BinsOf(gs + [[x]], capacity))
  {
    BinsOfOpen(gs, capacity, x);
  }

  /** The set after x joins the group g of the bin at i: that bin erased and
      one with x less remaining inserted. */
  lemma JoinBins(gs: seq<seq<int>>, capacity: int, x: int, g: nat, m: multiset<CBin>, rest: multiset<CBin>,
                 oldB: CBin, newB: CBin, m': multiset<CBin>)
    requires m == multiset(BinsOf(gs, capacity)) && g < |gs|
    requires oldB == CBin(capacity - Sum(gs[g]), g) && newB == CBin(oldB.remaining - x, g)
    requires rest + multiset{oldB} == m && m' == rest + multiset{newB}
    ensures m' == multiset(BinsOf(gs[g := gs[g] + [x]], capacity))
  {
    BinsOfJoin(gs, capacity, g, x, oldB, newB);
  }

  lemma ReplaceBin(r: multiset<CBin>, m: multiset<CBin>, m': multiset<CBin>, old_: CBin, new_: CBin)
    requires r + multiset{old_} == m && m' == m - multiset{old_} + multiset{new_}
    ensures r + multiset{new_} == m'
  {
  }

  /** bins.lower_bound found nothing: push_back({x}) and insert the new bin. */
  method OpenGroup(groups: seq<seq<int>>, bins: seq<CBin>, x: int, capacity: int)
      returns (groups': seq<seq<int>>, bins': seq<CBin>)
    requires Sorted(bins) && multiset(bins) == multiset(BinsOf(groups, capacity))
    ensures groups' == groups + [[x]]
    ensures Sorted(bins') && multiset(bins') == multiset(BinsOf(groups', capacity))
  {
    groups' := groups + [[x]];
    OpenBins(groups, bins, capacity, x);
    bins' := InsertBin(bins, CBin(capacity - x, |groups'| - 1));
  }

  /** bins.lower_bound found the bin at i: push_back(x) on its group, erase the
      bin and insert one with x less remaining. */
  method JoinGroup(groups: seq<seq<int>>, bins: seq<CBin>, x: int, capacity: int, i: nat)
      returns (groups': seq<seq<int>>, bins': seq<CBin>)
    requires Sorted(bins) && multiset(bins) == multiset(BinsOf(groups, capacity)) && i < |bins|
    requires 0 <= bins[i].idx < |groups| && bins[i].remaining == capacity - Sum(groups[bins[i].idx])
    ensures groups' == groups[bins[i].idx := groups[bins[i].idx] + [x]]
    ensures Sorted(bins') && multiset(bins') == multiset(BinsOf(groups', capacity))
  {
    var it := bins[i];
    groups' := groups[it.idx := groups[it.idx] + [x]];
    var newBin := CBin(it.remaining - x, it.idx);
    var rest := EraseAt(bins, i);
    bins' := InsertBin(rest, newBin);
    JoinBins(groups, capacity, x, it.idx, multiset(bins), multiset(rest), it, newBin, multiset(bins'));
  }

  /** One pass of the loop body: lower_bound, then open a group or join the
      group found. */
  method CppRound(groups: seq<seq<int>>, bins: seq<CBin>, x: int, capacity: int)
      returns (groups': seq<seq<int>>, bins': seq<CBin>, g: nat)
    requires Sorted(bins) && multiset(bins) == multiset(BinsOf(groups, capacity))
    ensures g == |groups| ==> NoFit(groups, capacity, x) && groups' == groups + [[x]]
    ensures g != |groups| ==> IsBestFit(groups, capacity, x, g) && groups' == groups[g := groups[g] + [x]]
    ensures Sorted(bins') && multiset(bins') == multiset(BinsOf(groups', capacity))
  {
    LowerBoundFits(groups, bins, capacity, x);
    var i := LowerBound(bins, x);
    if i == |bins| {
      g := |groups|;
      groups', bins' := OpenGroup(groups, bins, x, capacity);
    } else {
      g := bins[i].idx;
      groups', bins' := JoinGroup(groups, bins, x, capacity, i);
    }
  }

  /** What holds after the loop of partition::FFD has placed arr[..t]: the
      groups are the run of the choices so far, which follows the best-fit
      rule, and the set holds one bin per group. */
  ghost predicate RunInv(arr: seq<int>, t: nat, capacity: int, groups: seq<seq<int>>, bins: seq<CBin>, choices: seq<nat>)
  {
    RunShape(arr, t, capacity, groups, choices) && RunBounds(arr, t, capacity, groups) &&
    Sorted(bins) && multiset(bins) == multiset(BinsOf(groups, capacity))
  }

  /** The groups are the best-fit run of the choices made for arr[..t]. */
  ghost predicate RunShape(arr: seq<int>, t: nat, capacity: int, groups: seq<seq<int>>, choices: seq<nat>)
  {
    t <= |arr| && |choices| == t && OpeningOrder(choices) &&
    |groups| == GroupCount(choices) <= t && ChoicesBelow(choices, |groups|) &&
    groups == Distribute(arr[..t], |groups|, choices) &&
    BestFitRun(arr[..t], capacity, choices)
  }

  /** No group is empty, and none exceeds the capacity while every value
      placed so far fits it. */
  ghost predicate RunBounds(arr: seq<int>, t: nat, capacity: int, groups: seq<seq<int>>)
    requires t <= |arr|
  {
    (forall g :: 0 <= g < |groups| ==> groups[g] != []) &&
    ((forall j :: 0 <= j < t ==> arr[j] <= capacity) ==>
       forall g :: 0 <= g < |groups| ==> Sum(groups[g]) <= capacity)
  }

  lemma OpenKeepsShape(arr: seq<int>, t: nat, capacity: int, groups: seq<seq<int>>, choices: seq<nat>)
    requires t < |arr| && RunShape(arr, t, capacity, groups, choices)
    requires NoFit(groups, capacity, arr[t])
    ensures RunShape(arr, t + 1, capacity, groups + [[arr[t]]], choices + [|groups|])
  {
    OpenStep(arr, t, choices, capacity, |groups|);
  }

  lemma OpenKeepsRunBounds(arr: seq<int>, t: nat, capacity: int, groups: seq<seq<int>>)
    requires t < |arr| && RunBounds(arr, t, capacity, groups)
    ensures RunBounds(arr, t + 1, capacity, groups + [[arr[t]]])
  {
    OpenKeepsBounds(groups, capacity, arr[t]);
  }

  lemma OpenKeepsRun(arr: seq<int>, t: nat, capacity: int, groups: seq<seq<int>>, bins: seq<CBin>, choices: seq<nat>,
                     bins': seq<CBin>)
    requires t < |arr| && RunInv(arr, t, capacity, groups, bins, choices)
    requires NoFit(groups, capacity, arr[t])
    requires Sorted(bins') && multiset(bins') == multiset(BinsOf(groups + [[arr[t]]], capacity))
    ensures RunInv(arr, t + 1, capacity, groups + [[arr[t]]], bins', choices + [|groups|])
  {
    OpenKeepsShape(arr, t, capacity, groups, choices);
    OpenKeepsRunBounds(arr, t, capacity, groups);
  }

  lemma JoinKeepsShape(arr: seq<int>, t: nat, capacity: int, groups: seq<seq<int>>, choices: seq<nat>, g: nat)
    requires t < |arr| && RunShape(arr, t, capacity, groups, choices)
    requires IsBestFit(groups, capacity, arr[t], g)
    ensures RunShape(arr, t + 1, capacity, groups[g := groups[g] + [arr[t]]], choices + [g])
  {
    JoinStep(arr, t, choices, capacity, |groups|, g);
  }

  lemma JoinKeepsRunBounds(arr: seq<int>, t: nat, capacity: int, groups: seq<seq<int>>, g: nat)
    requires t < |arr| && RunBounds(arr, t, capacity, groups)
    requires IsBestFit(groups, capacity, arr[t], g)
    ensures RunBounds(arr, t + 1, capacity, groups[g := groups[g] + [arr[t]]])
  {
    JoinKeepsBounds(groups, capacity, arr[t], g);
  }

  lemma JoinKeepsRun(arr: seq<int>, t: nat, capacity: int, groups: seq<seq<int>>, bins: seq<CBin>, choices: seq<nat>,
                     g: nat, bins': seq<CBin>)
    requires t < |arr| && RunInv(arr, t, capacity, groups, bins, choices)
    requires IsBestFit(groups, capacity, arr[t], g)
    requires Sorted(bins') && multiset(bins') == multiset(BinsOf(groups[g := groups[g] + [arr[t]]], capacity))
    ensures RunInv(arr, t + 1, capacity, groups[g := groups[g] + [arr[t]]], bins', choices + [g])
  {
    JoinKeepsShape(arr, t, capacity, groups, choices, g);
    JoinKeepsRunBounds(arr, t, capacity, groups, g);
  }

  /** partition::FFD.  The caller's vector is only read. */
  method FFD(arr: seq<int>, capacity: int) returns (groups: seq<seq<int>>, ghost choices: seq<nat>, ghost finalBins: seq<CBin>)
    ensures |choices| == |arr| && OpeningOrder(choices) && |groups| == GroupCount(choices)
    ensures ChoicesBelow(choices, |groups|) && groups == Distribute(arr, |groups|, choices)
    ensures BestFitRun(arr, capacity, choices)
    ensures multiset(Flatten(groups)) == multiset(arr)
    ensures forall g :: 0 <= g < |groups| ==> groups[g] != [] && groups[g] == Select(arr, choices, g)
    ensures |groups| <= |arr|
    ensures (forall j :: 0 <= j < |arr| ==> arr[j] <= capacity) ==>
              forall g :: 0 <= g < |groups| ==> Sum(groups[g]) <= capacity
    ensures Sorted(finalBins) && multiset(finalBins) == multiset(BinsOf(groups, capacity))
  {
    var bins: seq<CBin> := [];
    groups, choices := [], [];
    var t := 0;
    while t < |arr|
      invariant t <= |arr| && RunInv(arr, t, capacity, groups, bins, choices)
    {
      var groups', bins', g := CppRound(groups, bins, arr[t], capacity);
      if g == |groups| {
        OpenKeepsRun(arr, t, capacity, groups, bins, choices, bins');
      } else {
        JoinKeepsRun(arr, t, capacity, groups, bins, choices, g, bins');
      }
      groups, bins := groups', bins';
      choices := choices + [g];
      t := t + 1;
    }
    finalBins := bins;
    assert arr[..t] == arr;
    DistributePreserves(arr, |groups|, choices);
    forall g | 0 <= g < |groups| ensures groups[g] == Select(arr, choices, g) {
      DistributeSelects(arr, |groups|, choices, g);
    }
  }

  /** Opening a group with x keeps every group non-empty and, when x fits the
      capacity, within it. */
  lemma OpenKeepsBounds(gs: seq<seq<int>>, capacity: int, x: int)
    ensures forall g :: 0 <= g < |gs| + 1 ==> (gs + [[x]])[g] == if g < |gs| then gs[g] else [x]
    ensures Sum([x]) == x
  {
    assert [x][..0] == [];
  }

  /** Joining a best-fitting group keeps its sum within the capacity. */
  lemma JoinKeepsBounds(gs: seq<seq<int>>, capacity: int, x: int, g: nat)
    requires IsBestFit(gs, capacity, x, g)
    ensures Sum(gs[g] + [x]) <= capacity && gs[g] + [x] != []
  {
    assert (gs[g] + [x])[..|gs[g]|] == gs[g];
  }
}
