/** greedy and lpt of the Python code (python/include/partition.py): list
    scheduling that sends every value to the lowest-index group among those
    with the smallest running sum, and its longest-processing-time variant. */
module PyPartition {
  import opened Errors
  import opened Groups

  /** The list of running sums kept beside the groups. */
  function Loads(gs: seq<seq<int>>): (sums: seq<int>)
    ensures |sums| == |gs| && forall g :: 0 <= g < |gs| ==> sums[g] == Sum(gs[g])
  {
    seq(|gs|, g requires 0 <= g < |gs| => Sum(gs[g]))
  }

  /** sums.index(min(sums)): the first position holding the smallest sum. */
  function FirstMinIndex(sums: seq<int>): (i: nat)
    requires sums != []
    ensures i < |sums|
    ensures forall j :: 0 <= j < |sums| ==> sums[i] <= sums[j]
    ensures forall j :: 0 <= j < i ==> sums[j] > sums[i]
    decreases |sums|
  {
    var last := |sums| - 1;
    if last == 0 then 0
    else
      var i := FirstMinIndex(sums[..last]);
      if sums[last] < sums[i] then last else i
  }

  /** Only one position is the first to hold the smallest sum. */
  lemma FirstMinIndexUnique(sums: seq<int>, i: nat)
    requires i < |sums|
    requires forall j :: 0 <= j < |sums| ==> sums[i] <= sums[j]
    requires forall j :: 0 <= j < i ==> sums[j] > sums[i]
    ensures i == FirstMinIndex(sums)
  {
    var f := FirstMinIndex(sums);
    assert !(f < i) && !(i < f);
  }

  /** The groups greedy picks, item by item. */
  function GreedyChoices(items: seq<int>, k: nat): (c: seq<nat>)
    requires k >= 1
    ensures |c| == |items| && ChoicesBelow(c, k)
    ensures LowestMinLoadRun(items, k, c)
    decreases |items|
  {
    if items == [] then []
    else
      var t := |items| - 1;
      var c := GreedyChoices(items[..t], k);
      var gs := Distribute(items[..t], k, c);
      var g := FirstMinIndex(Loads(gs));
      assert IsLowestMinLoad(gs, g);
      LowestDistributeStep(items, t, k, c, g);
      assert items[..t + 1] == items;
      c + [g]
  }

  /** The k groups greedy builds for k >= 2. */
  function GreedyGroups(items: seq<int>, k: nat): seq<seq<int>>
    requires k >= 1
  {
    Distribute(items, k, GreedyChoices(items, k))
  }

  /** What greedy(data, k) returns or raises. */
  function GreedyResult(data: seq<int>, k: int): (r: Result<seq<seq<int>>>)
    ensures k <= 0 <==> r == Err(ValueError)
    ensures k == 1 ==> r == Ok([data])
    ensures k >= 2 ==> r.Ok? && |r.value| == k
  {
    if k <= 0 then Err(ValueError)
    else if k == 1 then Ok([data])
    else Ok(GreedyGroups(data, k))
  }

  /** For k >= 2 greedy returns k groups that together hold exactly the input,
      each in input order, and every value went to the lowest-index group with
      the smallest sum; the lowest-index rule admits no other run. */
  lemma GreedyProperties(data: seq<int>, k: nat, choices: seq<nat>)
    requires k >= 2
    ensures var gs := GreedyGroups(data, k);
      |gs| == k && multiset(Flatten(gs)) == multiset(data) &&
      (forall g :: 0 <= g < k ==> gs[g] == Select(data, GreedyChoices(data, k), g))
    ensures |choices| == |data| && ChoicesBelow(choices, k) && LowestMinLoadRun(data, k, choices)
        ==> choices == GreedyChoices(data, k)
  {
    var c := GreedyChoices(data, k);
    DistributePreserves(data, k, c);
    forall g | 0 <= g < k ensures GreedyGroups(data, k)[g] == Select(data, c, g) {
      DistributeSelects(data, k, c, g);
    }
    if |choices| == |data| && ChoicesBelow(choices, k) && LowestMinLoadRun(data, k, choices) {
      LowestMinLoadRunUnique(data, k, choices, c);
    }
  }

  /** min(sums) followed by sums.index of it: two passes over the list. */
  method IndexOfMin(sums: seq<int>) returns (i: nat)
    requires sums != []
    ensures i < |sums|
    ensures forall j :: 0 <= j < |sums| ==> sums[i] <= sums[j]
    ensures forall j :: 0 <= j < i ==> sums[j] > sums[i]
  {
    var m := sums[0];
    var p := 1;
    while p < |sums|
      invariant 1 <= p <= |sums|
      invariant m in sums[..p]
      invariant forall j :: 0 <= j < p ==> m <= sums[j]
    {
      if sums[p] < m {
        m := sums[p];
      }
      p := p + 1;
    }
    assert sums[..p] == sums;
    i := 0;
    while sums[i] != m
      invariant 0 <= i < |sums| && m in sums[i..]
      invariant forall j :: 0 <= j < i ==> sums[j] > m
      decreases |sums| - i
    {
      assert sums[i..] == [sums[i]] + sums[i + 1..];
      i := i + 1;
    }
  }

  /** Appending a value to one group adds it to that group's running sum and
      leaves the other sums alone. */
  lemma LoadsAppend(groups: seq<seq<int>>, sums: seq<int>, g: nat, v: int, groups': seq<seq<int>>, sums': seq<int>)
    requires sums == Loads(groups) && g < |groups|
    requires groups' == groups[g := groups[g] + [v]] && sums' == sums[g := sums[g] + v]
    ensures sums' == Loads(groups')
  {
    assert Sum(groups[g] + [v]) == Sum(groups[g]) + v by {
      assert (groups[g] + [v])[..|groups[g]|] == groups[g];
    }
    var l := Loads(groups');
    assert |l| == |sums'|;
    forall j | 0 <= j < |sums'| ensures l[j] == sums'[j] {
      if j != g {
        assert groups'[j] == groups[j];
      }
    }
  }

  /** One pass of the loop: the value goes to the first group with the
      smallest sum. */
  lemma GreedyStep(data: seq<int>, t: nat, k: nat, groups: seq<seq<int>>, g: nat)
    requires k >= 1 && t < |data| && groups == GreedyGroups(data[..t], k)
    requires g == FirstMinIndex(Loads(groups))
    ensures GreedyGroups(data[..t + 1], k) == groups[g := groups[g] + [data[t]]]
  {
    var c := GreedyChoices(data[..t], k);
    assert data[..t + 1][..t] == data[..t];
    assert GreedyChoices(data[..t + 1], k) == c + [g];
    LowestDistributeStep(data, t, k, c, g);
  }

  /** greedy(data, k).  The caller's list is only read; for k == 1 the result
      holds that very list. */
  method Greedy(data: seq<int>, k: int) returns (r: Result<seq<seq<int>>>)
    ensures r == GreedyResult(data, k)
  {
    if k <= 0 {
      return Err(ValueError);
    }
    if k == 1 {
      return Ok([data]);
    }
    var groups := EmptyGroups(k);
    var sums := seq(k, _ => 0);
    assert data[..0] == [];
    assert sums == Loads(groups);
    var t := 0;
    while t < |data|
      invariant 0 <= t <= |data|
      invariant groups == GreedyGroups(data[..t], k)
      invariant sums == Loads(groups)
    {
      var value := data[t];
      var minIdx := IndexOfMin(sums);
      FirstMinIndexUnique(sums, minIdx);
      GreedyStep(data, t, k, groups, minIdx);
      var groups' := groups[minIdx := groups[minIdx] + [value]];
      var sums' := sums[minIdx := sums[minIdx] + value];
      LoadsAppend(groups, sums, minIdx, value, groups', sums');
      groups, sums := groups', sums';
      t := t + 1;
    }
    assert data[..t] == data;
    return Ok(groups);
  }

  /** sorted(data, reverse=True): a new list, the old one unchanged. */
  function Sorted(data: seq<int>): (s: seq<int>)
    ensures multiset(s) == multiset(data) && NonIncreasing(s)
  {
    SortDesc(data)
  }

  /** lpt(data, k): the same guards as greedy, then greedy on a sorted copy. */
  method Lpt(data: seq<int>, k: int) returns (r: Result<seq<seq<int>>>)
    ensures k <= 0 ==> r == Err(ValueError)
    ensures k == 1 ==> r == Ok([data])
    ensures k >= 2 ==> r == GreedyResult(Sorted(data), k)
  {
    if k <= 0 {
      return Err(ValueError);
    }
    if k == 1 {
      return Ok([data]);
    }
    var sortedData := Sorted(data);
    r := Greedy(sortedData, k);
  }

  /** For k >= 2 lpt depends only on which values the list holds, not on their
      order, and every group it returns is non-increasing. */
  lemma LptOrderFree(a: seq<int>, b: seq<int>, k: nat)
    requires k >= 2 && multiset(a) == multiset(b)
    ensures GreedyResult(Sorted(a), k) == GreedyResult(Sorted(b), k)
    ensures forall g :: 0 <= g < k ==> NonIncreasing(GreedyGroups(Sorted(a), k)[g])
  {
    SortedPermutationUnique(Sorted(a), Sorted(b));
    var s := Sorted(a);
    forall g | 0 <= g < k ensures NonIncreasing(GreedyGroups(s, k)[g]) {
      DistributeSelects(s, k, GreedyChoices(s, k), g);
      SelectKeepsOrder(s, GreedyChoices(s, k), g);
    }
  }
}
