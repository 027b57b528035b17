/** The Java heuristics of partition.Partition: list scheduling (LS), longest
    processing time first (LPT), MULTIFIT, and the First-Fit Decreasing packer
    (FFD) that MULTIFIT probes.  Java's List<Integer> arguments that the source
    sorts in place are arrays; those it only reads are sequences.  Java int
    arithmetic is taken as unbounded. */
module JavaPartition {
  import opened Errors
  import opened Groups
  import opened JavaHeap

  // ===========================================================================
  // List Scheduling

  /** What the queue should hold for the groups gs: one {sum, idx} entry per
      group, whose sum is that group's total. */
  function Entries(gs: seq<seq<int>>): seq<Entry>
  {
    seq(|gs|, g requires 0 <= g < |gs| => Entry(Sum(gs[g]), g))
  }

  /** Adding x to group g replaces g's entry by one whose sum is larger by x,
      and leaves the other entries alone. */
  lemma EntriesUpdate(gs: seq<seq<int>>, g: nat, x: int)
    requires g < |gs|
    ensures Entries(gs[g := gs[g] + [x]]) == Entries(gs)[g := Entry(Sum(gs[g]) + x, g)]
  {
    var e := Entries(gs);
    var newE := Entry(Sum(gs[g]) + x, g);
    assert Sum(gs[g] + [x]) == Sum(gs[g]) + x by {
      assert (gs[g] + [x])[..|gs[g]|] == gs[g];
    }
    var after := Entries(gs[g := gs[g] + [x]]);
    assert |after| == |e|;
    forall i | 0 <= i < |e| ensures after[i] == e[g := newE][i] {
      if i != g {
        assert after[i] == Entry(Sum(gs[i]), i);
      }
    }
  }

  /** Overwriting one position trades the old entry for the new one. */
  lemma UpdateMultiset(e: seq<Entry>, g: nat, v: Entry)
    requires g < |e|
    ensures multiset(e[g := v]) + multiset{e[g]} == multiset(e) + multiset{v}
  {
    var l, r := e[..g], e[g + 1..];
    assert e == l + [e[g]] + r;
    assert e[g := v] == l + [v] + r;
  }

  /** The head of a queue that holds one entry per group names a group of
      minimal sum, and carries that sum. */
  lemma HeadIsMinLoad(gs: seq<seq<int>>, pq: seq<Entry>)
    requires IsHeap(pq) && |pq| > 0 && multiset(pq) == multiset(Entries(gs))
    ensures 0 <= pq[0].idx < |gs| && pq[0].sum == Sum(gs[pq[0].idx])
    ensures IsMinLoad(gs, pq[0].idx)
  {
    var e := Entries(gs);
    assert pq[0] in multiset(e);
    var g0 :| 0 <= g0 < |e| && e[g0] == pq[0];
    forall h | 0 <= h < |gs| ensures Sum(gs[pq[0].idx]) <= Sum(gs[h]) {
      assert e[h] in multiset(pq);
      var j :| 0 <= j < |pq| && pq[j] == e[h];
      RootIsMinimal(pq, j);
    }
  }

  /** The groups gs are a list-scheduling run of items over n groups: choices
      records, for each item in input order, the group it was appended to, and
      each item went to a group whose sum was minimal at that moment. */
  ghost predicate IsMinLoadSchedule(items: seq<int>, n: nat, choices: seq<nat>, gs: seq<seq<int>>)
  {
    |choices| == |items| && ChoicesBelow(choices, n) &&
    gs == Distribute(items, n, choices) && MinLoadRun(items, n, choices)
  }

  /** Taking the head entry out of the queue and putting back one with x added
      to its sum keeps one entry per group once x is added to the head's group. */
  lemma QueueStep(groups: seq<seq<int>>, top: Entry, rest: seq<Entry>, x: int, after: seq<seq<int>>)
    requires multiset(rest) + multiset{top} == multiset(Entries(groups))
    requires 0 <= top.idx < |groups| && top.sum == Sum(groups[top.idx])
    requires after == groups[top.idx := groups[top.idx] + [x]]
    requires IsHeap(rest)
    ensures multiset(Offer(rest, Entry(top.sum + x, top.idx))) == multiset(Entries(after))
  {
    var newE := Entry(top.sum + x, top.idx);
    var e := Entries(groups);
    EntriesUpdate(groups, top.idx, x);
    assert e[top.idx] == top;
    UpdateMultiset(e, top.idx, newE);
    MultisetReplace(multiset(rest), multiset(e), multiset(Entries(after)), top, newE);
  }

  lemma MultisetReplace(r: multiset<Entry>, m: multiset<Entry>, m': multiset<Entry>, top: Entry, newE: Entry)
    requires r + multiset{top} == m && m' + multiset{top} == m + multiset{newE}
    ensures r + multiset{newE} == m'
  {
    forall y ensures (r + multiset{newE})[y] == m'[y] {
      assert (m' + multiset{top})[y] == (m + multiset{newE})[y];
      assert (r + multiset{top})[y] == m[y];
    }
  }

  /** The first loop of Partition.LS: n empty groups, and an entry {0, i} offered
      for each group i. */
  method InitQueue(n: nat) returns (groups: seq<seq<int>>, pq: seq<Entry>)
    ensures groups == EmptyGroups(n)
    ensures IsHeap(pq) && multiset(pq) == multiset(Entries(groups))
  {
    groups, pq := [], [];
    var i := 0;
    while i < n
      invariant 0 <= i <= n && groups == EmptyGroups(i)
      invariant IsHeap(pq) && multiset(pq) == multiset(Entries(groups))
    {
      assert EmptyGroups(i) + [[]] == EmptyGroups(i + 1);
      assert Entries(groups + [[]]) == Entries(groups) + [Entry(0, i)];
      groups := groups + [[]];
      pq := Offer(pq, Entry(0, i));
      i := i + 1;
    }
  }

  /** One round of the second loop of Partition.LS: poll the head, append x to
      the group it names, and offer the head back with x added to its sum. */
  method AssignToHead(groups: seq<seq<int>>, pq: seq<Entry>, x: int)
      returns (groups': seq<seq<int>>, pq': seq<Entry>, idx: nat)
    requires IsHeap(pq) && |pq| > 0 && multiset(pq) == multiset(Entries(groups))
    ensures idx < |groups| && IsMinLoad(groups, idx)
    ensures groups' == groups[idx := groups[idx] + [x]]
    ensures IsHeap(pq') && multiset(pq') == multiset(Entries(groups'))
  {
    HeadIsMinLoad(groups, pq);
    var polled := Poll(pq);
    var top, rest := polled.0, polled.1;
    idx := top.idx;
    groups' := groups[idx := groups[idx] + [x]];
    QueueStep(groups, top, rest, x, groups');
    pq' := Offer(rest, Entry(top.sum + x, top.idx));
  }

  /** Partition.LS.  The queue is Java's binary heap, so ties between groups of
      equal sum are broken by the heap's layout, not by the lowest index; the
      returned choices are the ones the runtime makes. */
  method LS(arr: seq<int>, n: int) returns (r: Result<seq<seq<int>>>, ghost choices: seq<nat>)
    ensures n <= 0 ==> r == Err(IllegalArgument)
    ensures n == 1 ==> r == Ok([arr])
    ensures n >= 2 ==> r.Ok? && |r.value| == n && IsMinLoadSchedule(arr, n, choices, r.value)
    ensures n >= 2 ==> multiset(Flatten(r.value)) == multiset(arr)
    ensures n >= 2 ==> forall g :: 0 <= g < n ==> r.value[g] == Select(arr, choices, g)
  {
    choices := [];
    if n <= 0 {
      return Err(IllegalArgument), choices;
    } else if n == 1 {
      return Ok([arr]), choices;
    }
    var groups, pq := InitQueue(n);
    var t := 0;
    while t < |arr|
      invariant 0 <= t <= |arr| && |groups| == n
      invariant |choices| == t && ChoicesBelow(choices, n)
      invariant groups == Distribute(arr[..t], n, choices) && MinLoadRun(arr[..t], n, choices)
      invariant IsHeap(pq) && multiset(pq) == multiset(Entries(groups))
    {
      assert |pq| == |multiset(pq)| == n;
      var idx;
      groups, pq, idx := AssignToHead(groups, pq, arr[t]);
      DistributeStep(arr, t, n, choices, idx);
      choices := choices + [idx];
      t := t + 1;
    }
    assert arr[..t] == arr;
    DistributePreserves(arr, n, choices);
    forall g | 0 <= g < n ensures groups[g] == Select(arr, choices, g) {
      DistributeSelects(arr, n, choices, g);
    }
    return Ok(groups), choices;
  }

  /** List.sort(Comparator.reverseOrder()) on an int list: the array ends up in
      the one non-increasing arrangement of its old contents. */
  method SortDescInPlace(a: array<int>)
    modifies a
    ensures a[..] == SortDesc(old(a[..]))
  {
    var sorted := SortDesc(a[..]);
    assert |sorted| == |multiset(sorted)| == |multiset(a[..])| == a.Length;
    var i := 0;
    while i < a.Length
      invariant 0 <= i <= a.Length
      invariant sorted == SortDesc(old(a[..]))
      invariant forall j :: 0 <= j < i ==> a[j] == sorted[j]
    {
      a[i] := sorted[i];
      i := i + 1;
    }
    assert a[..] == sorted;
  }

  /** Partition.LPT: sorts the caller's array in place, then schedules it with LS. */
  method LPT(arr: array<int>, n: int) returns (r: Result<seq<seq<int>>>, ghost choices: seq<nat>)
    modifies arr
    ensures n <= 0 ==> r == Err(IllegalArgument) && arr[..] == old(arr[..])
    ensures n == 1 ==> r == Ok([old(arr[..])]) && arr[..] == old(arr[..])
    ensures n >= 2 ==> arr[..] == SortDesc(old(arr[..]))
    ensures n >= 2 ==> r.Ok? && |r.value| == n && IsMinLoadSchedule(arr[..], n, choices, r.value)
    ensures n >= 2 ==> multiset(Flatten(r.value)) == multiset(old(arr[..]))
  {
    choices := [];
    if n <= 0 {
      return Err(IllegalArgument), choices;
    } else if n == 1 {
      return Ok([arr[..]]), choices;
    }
    SortDescInPlace(arr);
    r, choices := LS(arr[..], n);
  }

  // ===========================================================================
  // First-Fit Decreasing over a TreeSet<Bin>

  /** The local record Bin(remaining, idx). */
  datatype Bin = Bin(remaining: int, idx: int)

  /** A TreeSet<Bin> ordered by Bin.compareTo, which compares remaining only:
      its elements in ascending order, no two with equal remaining. */
  predicate Ascending(bins: seq<Bin>)
  {
    forall i, j :: 0 <= i < j < |bins| ==> bins[i].remaining < bins[j].remaining
  }

  /** TreeSet.ceiling(new Bin(x, 0)): the position of the first bin whose
      remaining is at least x, or |bins| when there is none (ceiling returns null). */
  function Ceiling(bins: seq<Bin>, x: int): (i: nat)
    ensures i <= |bins|
    ensures i < |bins| ==> bins[i].remaining >= x
    ensures forall j :: 0 <= j < i ==> bins[j].remaining < x
  {
    if bins == [] then 0
    else if bins[0].remaining >= x then 0
    else 1 + Ceiling(bins[1..], x)
  }

  /** In an ordered set, ceiling finds the fitting bin with the least remaining,
      and reports none exactly when no bin fits. */
  lemma CeilingIsTightest(bins: seq<Bin>, x: int)
    requires Ascending(bins)
    ensures Ceiling(bins, x) < |bins| ==>
      forall j :: 0 <= j < |bins| && bins[j].remaining >= x ==> bins[Ceiling(bins, x)].remaining <= bins[j].remaining
    ensures Ceiling(bins, x) == |bins| <==> forall j :: 0 <= j < |bins| ==> bins[j].remaining < x
  {
  }

  /** TreeSet.add: a bin whose remaining equals that of a bin already in the
      set is refused and the set is left as it was; any other bin is inserted
      in order. */
  function AddBin(bins: seq<Bin>, b: Bin): (r: seq<Bin>)
    requires Ascending(bins)
    ensures Ascending(r)
    ensures forall c :: c in r ==> c in bins || c == b
    ensures (exists j :: 0 <= j < |bins| && bins[j].remaining == b.remaining) ==> r == bins
    ensures (forall j :: 0 <= j < |bins| ==> bins[j].remaining != b.remaining) ==>
              multiset(r) == multiset(bins) + multiset{b}
  {
    var i := Ceiling(bins, b.remaining);
    if i < |bins| && bins[i].remaining == b.remaining then bins
    else
      InsertAscending(bins, b, i);
      bins[..i] + [b] + bins[i..]
  }

  lemma InsertAscending(bins: seq<Bin>, b: Bin, i: nat)
    requires Ascending(bins) && i <= |bins|
    requires forall j :: 0 <= j < i ==> bins[j].remaining < b.remaining
    requires i < |bins| ==> bins[i].remaining > b.remaining
    ensures Ascending(bins[..i] + [b] + bins[i..])
    ensures multiset(bins[..i] + [b] + bins[i..]) == multiset(bins) + multiset{b}
  {
    InsertKeepsBins(bins, b, i);
    var r := bins[..i] + [b] + bins[i..];
    forall j, k | 0 <= j < k < |r| ensures r[j].remaining < r[k].remaining {
      InsertAt(bins, b, i, j);
      InsertAt(bins, b, i, k);
      if i < k && j < i {
        assert bins[j].remaining < bins[i].remaining;
      }
    }
  }

  lemma InsertAt(bins: seq<Bin>, b: Bin, i: nat, j: nat)
    requires i <= |bins| && j <= |bins|
    ensures (bins[..i] + [b] + bins[i..])[j] == if j < i then bins[j] else if j == i then b else bins[j - 1]
  {
  }

  lemma InsertKeepsBins(bins: seq<Bin>, b: Bin, i: nat)
    requires i <= |bins|
    ensures multiset(bins[..i] + [b] + bins[i..]) == multiset(bins) + multiset{b}
  {
    assert bins == bins[..i] + bins[i..];
  }

  /** TreeSet.remove of the element at position i. */
  function RemoveAt(bins: seq<Bin>, i: nat): (r: seq<Bin>)
    requires Ascending(bins) && i < |bins|
    ensures Ascending(r)
    ensures forall c :: c in r ==> c in bins
    ensures multiset(r) + multiset{bins[i]} == multiset(bins)
  {
    var r := bins[..i] + bins[i + 1..];
    assert bins == bins[..i] + [bins[i]] + bins[i + 1..];
    assert forall j :: 0 <= j < |r| ==> r[j] == if j < i then bins[j] else bins[j + 1];
    r
  }

  /** The local state of FFD: the groups list and the bin set. */
  datatype FfdState = FfdState(groups: seq<seq<int>>, bins: seq<Bin>)

  /** The set is ordered and every bin in it names an existing group. */
  predicate FfdValid(s: FfdState)
  {
    Ascending(s.bins) && forall b :: b in s.bins ==> 0 <= b.idx < |s.groups|
  }

  const FfdStart := FfdState([], [])

  /** One pass of FFD's loop body for item x.  Opening a bin appends an EMPTY
      list (new ArrayList<>(x) only sets an initial capacity, and throws for a
      negative one), and a bin whose new remaining collides with another's is
      silently dropped from the set. */
  function FfdStep(s: FfdState, x: int, capacity: int): (r: Result<FfdState>)
    requires FfdValid(s)
    ensures r.Ok? ==> FfdValid(r.value) && |r.value.groups| >= |s.groups|
  {
    var i := Ceiling(s.bins, x);
    if i == |s.bins| then
      if x < 0 then Err(IllegalArgument) else Ok(OpenBin(s, x, capacity))
    else
      Ok(JoinBin(s, i, x))
  }

  /** No bin fits x: a new, empty group, and a bin for it with capacity - x left. */
  function OpenBin(s: FfdState, x: int, capacity: int): (r: FfdState)
    requires FfdValid(s)
    ensures FfdValid(r) && |r.groups| == |s.groups| + 1
  {
    FfdState(s.groups + [[]], AddBin(s.bins, Bin(capacity - x, |s.groups|)))
  }

  /** The bin at position i takes x: its group gets x, and the bin is put back
      with x less remaining. */
  function JoinBin(s: FfdState, i: nat, x: int): (r: FfdState)
    requires FfdValid(s) && i < |s.bins|
    ensures FfdValid(r) && |r.groups| == |s.groups|
  {
    var it := s.bins[i];
    FfdState(s.groups[it.idx := s.groups[it.idx] + [x]], AddBin(RemoveAt(s.bins, i), Bin(it.remaining - x, it.idx)))
  }

  /** The loop of FFD run on items from state s. */
  function FfdFrom(s: FfdState, items: seq<int>, capacity: int): (r: Result<FfdState>)
    requires FfdValid(s)
    ensures r.Ok? ==> FfdValid(r.value) && |r.value.groups| >= |s.groups|
    decreases |items|
  {
    if items == [] then Ok(s)
    else
      match FfdStep(s, items[0], capacity)
      case Err(e) => Err(e)
      case Ok(s') => FfdFrom(s', items[1..], capacity)
  }

  /** What Partition.FFD returns, or the exception it throws. */
  function FfdJava(items: seq<int>, capacity: int): Result<seq<seq<int>>>
  {
    match FfdFrom(FfdStart, items, capacity)
    case Ok(s) => Ok(s.groups)
    case Err(e) => Err(e)
  }

  /** [x] when no bin of s fits x, so that x opens a new one; otherwise []. */
  function Opened(s: FfdState, x: int): seq<int>
  {
    if Ceiling(s.bins, x) == |s.bins| then [x] else []
  }

  /** The items, in input order, that found no fitting bin and opened one. */
  function OpenersFrom(s: FfdState, items: seq<int>, capacity: int): seq<int>
    requires FfdValid(s)
    decreases |items|
  {
    if items == [] then []
    else
      match FfdStep(s, items[0], capacity)
      case Err(_) => []
      case Ok(s') => Opened(s, items[0]) + OpenersFrom(s', items[1..], capacity)
  }

  /** The rule FFD follows for each item: it joins the open bin with the least
      remaining capacity that still fits it; if no open bin fits, a new group
      is opened (empty) with a bin of remaining capacity - x. */
  lemma FfdStepRule(s: FfdState, x: int, capacity: int)
    requires FfdValid(s)
    ensures (forall j :: 0 <= j < |s.bins| ==> s.bins[j].remaining < x) ==>
      FfdStep(s, x, capacity) == (if x < 0 then Err(IllegalArgument)
        else Ok(FfdState(s.groups + [[]], AddBin(s.bins, Bin(capacity - x, |s.groups|)))))
    ensures (exists j :: 0 <= j < |s.bins| && s.bins[j].remaining >= x) ==>
      exists i :: 0 <= i < |s.bins| && s.bins[i].remaining >= x &&
        (forall j :: 0 <= j < |s.bins| && s.bins[j].remaining >= x ==> s.bins[i].remaining <= s.bins[j].remaining) &&
        FfdStep(s, x, capacity).Ok? &&
        FfdStep(s, x, capacity).value.groups == s.groups[s.bins[i].idx := s.groups[s.bins[i].idx] + [x]]
  {
    CeilingIsTightest(s.bins, x);
    var i := Ceiling(s.bins, x);
    if i < |s.bins| {
      assert s.bins[i].remaining >= x;
    }
  }

  /** One step keeps every item except one that opens a bin. */
  lemma {:induction false} FfdStepKeeps(s: FfdState, x: int, capacity: int)
    requires FfdValid(s) && FfdStep(s, x, capacity).Ok?
    ensures multiset(Flatten(FfdStep(s, x, capacity).value.groups)) + multiset(Opened(s, x))
         == multiset(Flatten(s.groups)) + multiset{x}
  {
    var i := Ceiling(s.bins, x);
    if i == |s.bins| {
      FlattenAppend(s.groups, []);
    } else {
      FlattenAddItem(s.groups, s.bins[i].idx, x);
    }
  }

  /** Only the bin-opening items are lost: the groups hold every other item,
      and nothing else. */
  lemma {:induction false} FfdKeepsAllButOpeners(s: FfdState, items: seq<int>, capacity: int)
    requires FfdValid(s)
    requires FfdFrom(s, items, capacity).Ok?
    ensures multiset(Flatten(FfdFrom(s, items, capacity).value.groups)) + multiset(OpenersFrom(s, items, capacity))
         == multiset(Flatten(s.groups)) + multiset(items)
    decreases |items|
  {
    if items != [] {
      FfdFromCons(s, items, capacity);
      FfdKeepsAllButOpeners(FfdStep(s, items[0], capacity).value, items[1..], capacity);
      FfdKeepsStep(s, items, capacity);
    }
  }

  /** The inductive step of FfdKeepsAllButOpeners: the claim for the state after
      the first item and the rest of the list gives it for the whole list. */
  lemma {:induction false} FfdKeepsStep(s: FfdState, items: seq<int>, capacity: int)
    requires FfdValid(s) && items != [] && FfdStep(s, items[0], capacity).Ok?
    requires FfdFrom(s, items, capacity).Ok?
    requires FfdFrom(s, items, capacity) == FfdFrom(FfdStep(s, items[0], capacity).value, items[1..], capacity)
    requires OpenersFrom(s, items, capacity)
          == Opened(s, items[0]) + OpenersFrom(FfdStep(s, items[0], capacity).value, items[1..], capacity)
    requires multiset(Flatten(FfdFrom(s, items, capacity).value.groups))
           + multiset(OpenersFrom(FfdStep(s, items[0], capacity).value, items[1..], capacity))
          == multiset(Flatten(FfdStep(s, items[0], capacity).value.groups)) + multiset(items[1..])
    ensures multiset(Flatten(FfdFrom(s, items, capacity).value.groups)) + multiset(OpenersFrom(s, items, capacity))
         == multiset(Flatten(s.groups)) + multiset(items)
  {
    FfdStepKeeps(s, items[0], capacity);
    HeadTailMultiset(items);
    MultisetChain(multiset(Flatten(FfdFrom(s, items, capacity).value.groups)),
                  multiset(OpenersFrom(FfdStep(s, items[0], capacity).value, items[1..], capacity)),
                  multiset(Flatten(FfdStep(s, items[0], capacity).value.groups)),
                  multiset(Opened(s, items[0])),
                  multiset(Flatten(s.groups)), multiset{items[0]}, multiset(items[1..]));
  }

  /** The run on a non-empty list is the first step followed by the run on the rest. */
  lemma {:induction false} FfdFromCons(s: FfdState, items: seq<int>, capacity: int)
    requires FfdValid(s) && items != []
    requires FfdFrom(s, items, capacity).Ok?
    ensures FfdStep(s, items[0], capacity).Ok?
    ensures FfdFrom(s, items, capacity) == FfdFrom(FfdStep(s, items[0], capacity).value, items[1..], capacity)
    ensures OpenersFrom(s, items, capacity)
         == Opened(s, items[0]) + OpenersFrom(FfdStep(s, items[0], capacity).value, items[1..], capacity)
  {
  }

  lemma MultisetChain<T>(fin: multiset<T>, later: multiset<T>, mid: multiset<T>, now: multiset<T>,
                         base: multiset<T>, head: multiset<T>, tail: multiset<T>)
    requires fin + later == mid + tail && mid + now == base + head
    ensures fin + (now + later) == base + (head + tail)
  {
    calc {
      fin + (now + later);
      (fin + later) + now;
      (mid + tail) + now;
      (mid + now) + tail;
      (base + head) + tail;
      base + (head + tail);
    }
  }

  /** Group g has lost its bin from the set (a refused add), so no later item
      can reach it. */
  predicate Unreachable(s: FfdState, g: nat)
  {
    g < |s.groups| && forall b :: b in s.bins ==> b.idx != g
  }

  lemma FfdStepFrozen(s: FfdState, x: int, capacity: int, g: nat)
    requires FfdValid(s) && Unreachable(s, g) && FfdStep(s, x, capacity).Ok?
    ensures Unreachable(FfdStep(s, x, capacity).value, g)
    ensures FfdStep(s, x, capacity).value.groups[g] == s.groups[g]
  {
    var i := Ceiling(s.bins, x);
    if i < |s.bins| {
      assert s.bins[i] in s.bins;
    }
  }

  /** A group whose bin was refused keeps its contents to the end of the run. */
  lemma {:induction false} FfdFromFrozen(s: FfdState, items: seq<int>, capacity: int, g: nat)
    requires FfdValid(s) && Unreachable(s, g) && FfdFrom(s, items, capacity).Ok?
    ensures FfdFrom(s, items, capacity).value.groups[g] == s.groups[g]
    decreases |items|
  {
    if items != [] {
      FfdStepFrozen(s, items[0], capacity, g);
      FfdFromFrozen(FfdStep(s, items[0], capacity).value, items[1..], capacity, g);
    }
  }

  /** The bin-opening item 5 never reaches the output. */
  lemma FfdLosesOpeningItem()
    ensures FfdJava([5, 3], 10) == Ok([[3]])
  {
    FfdFirstItem(5, 10);
    FfdExampleJoin();
    assert [5, 3][1..] == [3];
  }

  /** The first item always opens the first group, empty, with a bin of capacity - x left. */
  lemma FfdFirstItem(x: int, capacity: int)
    requires x >= 0
    ensures FfdStep(FfdStart, x, capacity) == Ok(FfdState([[]], [Bin(capacity - x, 0)]))
  {
    assert AddBin([], Bin(capacity - x, 0)) == [Bin(capacity - x, 0)];
    assert FfdStart.groups + [[]] == [[]];
    assert Ceiling([], x) == 0;
  }

  lemma FfdExampleJoin()
    ensures FfdFrom(FfdState([[]], [Bin(5, 0)]), [3], 10) == Ok(FfdState([[3]], [Bin(2, 0)]))
  {
    FfdExampleJoinStep();
    FfdFromOne(FfdState([[]], [Bin(5, 0)]), 3, 10);
  }

  /** The loop run on a single item is one pass of its body. */
  lemma FfdFromOne(s: FfdState, x: int, capacity: int)
    requires FfdValid(s)
    ensures FfdFrom(s, [x], capacity) == FfdStep(s, x, capacity)
  {
    assert [x][1..] == [];
  }

  lemma FfdExampleJoinStep()
    ensures FfdStep(FfdState([[]], [Bin(5, 0)]), 3, 10) == Ok(FfdState([[3]], [Bin(2, 0)]))
  {
    var s1 := FfdState([[]], [Bin(5, 0)]);
    assert s1.groups[0 := s1.groups[0] + [3]] == [[3]] by {
      assert s1.groups[0] + [3] == [3];
    }
    assert RemoveAt(s1.bins, 0) == [];
    assert AddBin([], Bin(2, 0)) == [Bin(2, 0)];
    assert Ceiling(s1.bins, 3) == 0;
  }

  /** The second 6 opens a bin with remaining 4, which the set refuses because
      the first bin also has remaining 4; its group stays empty for good. */
  lemma FfdRefusesEqualRemaining()
    ensures FfdJava([6, 6, 4, 4], 10) == Ok([[4], [], []])
  {
    var s1 := FfdState([[]], [Bin(4, 0)]);
    var s2 := FfdState([[], []], [Bin(4, 0)]);
    var s3 := FfdState([[4], []], [Bin(0, 0)]);
    var s4 := FfdState([[4], [], []], [Bin(0, 0), Bin(6, 2)]);
    FfdFirstItem(6, 10);
    FfdExampleStep2();
    FfdExampleStep3();
    FfdExampleStep4();
    FfdFromOne(s3, 4, 10);
    FfdFromFirst(s2, 4, [4], 10);
    FfdFromFirst(s1, 6, [4, 4], 10);
    FfdFromFirst(FfdStart, 6, [6, 4, 4], 10);
  }

  /** The loop run on [x] + rest is one pass for x, then the loop on rest. */
  lemma FfdFromFirst(s: FfdState, x: int, rest: seq<int>, capacity: int)
    requires FfdValid(s) && FfdStep(s, x, capacity).Ok?
    ensures FfdFrom(s, [x] + rest, capacity) == FfdFrom(FfdStep(s, x, capacity).value, rest, capacity)
  {
    assert ([x] + rest)[1..] == rest;
  }

  lemma FfdExampleStep2()
    ensures FfdStep(FfdState([[]], [Bin(4, 0)]), 6, 10) == Ok(FfdState([[], []], [Bin(4, 0)]))
  {
    var s1 := FfdState([[]], [Bin(4, 0)]);
    assert Ceiling(s1.bins, 6) == 1;
    assert AddBin(s1.bins, Bin(4, 1)) == s1.bins;
    assert s1.groups + [[]] == [[], []];
  }

  lemma FfdExampleStep3()
    ensures FfdStep(FfdState([[], []], [Bin(4, 0)]), 4, 10) == Ok(FfdState([[4], []], [Bin(0, 0)]))
  {
    var s2 := FfdState([[], []], [Bin(4, 0)]);
    var groups := s2.groups[0 := s2.groups[0] + [4]];
    assert groups == [[4], []] by {
      assert s2.groups[0] + [4] == [4];
    }
    assert RemoveAt(s2.bins, 0) == [];
    assert AddBin([], Bin(0, 0)) == [Bin(0, 0)];
    assert Ceiling(s2.bins, 4) == 0;
  }

  lemma FfdExampleStep4()
    ensures FfdStep(FfdState([[4], []], [Bin(0, 0)]), 4, 10) == Ok(FfdState([[4], [], []], [Bin(0, 0), Bin(6, 2)]))
  {
    var s3 := FfdState([[4], []], [Bin(0, 0)]);
    assert Ceiling(s3.bins, 4) == 1;
    assert Ceiling(s3.bins, 6) == 1;
    assert AddBin(s3.bins, Bin(6, 2)) == [Bin(0, 0), Bin(6, 2)];
    assert s3.groups + [[]] == [[4], [], []];
  }

  /** One pass of FFD's loop body on the groups list and the bin set, which
      performs FfdStep. */
  method FfdRound(groups: seq<seq<int>>, bins: seq<Bin>, x: int, capacity: int)
      returns (r: Result<(seq<seq<int>>, seq<Bin>)>)
    requires FfdValid(FfdState(groups, bins))
    ensures FfdStep(FfdState(groups, bins), x, capacity) ==
      (if r.Ok? then Ok(FfdState(r.value.0, r.value.1)) else Err(r.error))
  {
    var i := Ceiling(bins, x);
    var next: FfdState;
    if i == |bins| {
      if x < 0 {
        return Err(IllegalArgument);
      }
      next := OpenBin(FfdState(groups, bins), x, capacity);
    } else {
      next := JoinBin(FfdState(groups, bins), i, x);
    }
    r := Ok((next.groups, next.bins));
  }

  /** Partition.FFD. */
  method FFD(arr: seq<int>, capacity: int) returns (r: Result<seq<seq<int>>>)
    ensures r == FfdJava(arr, capacity)
    ensures r.Ok? ==> multiset(Flatten(r.value)) + multiset(OpenersFrom(FfdStart, arr, capacity)) == multiset(arr)
  {
    var groups: seq<seq<int>> := [];
    var bins: seq<Bin> := [];
    var t := 0;
    while t < |arr|
      invariant 0 <= t <= |arr|
      invariant FfdValid(FfdState(groups, bins))
      invariant FfdFrom(FfdStart, arr, capacity) == FfdFrom(FfdState(groups, bins), arr[t..], capacity)
    {
      var x := arr[t];
      assert arr[t..][0] == x && arr[t..][1..] == arr[t + 1..];
      var step := FfdRound(groups, bins, x, capacity);
      if step.Err? {
        return Err(step.error);
      }
      groups, bins := step.value.0, step.value.1;
      t := t + 1;
    }
    assert arr[t..] == [];
    r := Ok(groups);
    FfdJavaKeeps(arr, capacity);
  }

  /** The groups FFD returns hold every item except those that opened a bin. */
  lemma FfdJavaKeeps(arr: seq<int>, capacity: int)
    ensures FfdJava(arr, capacity).Ok? ==>
      multiset(Flatten(FfdJava(arr, capacity).value)) + multiset(OpenersFrom(FfdStart, arr, capacity)) == multiset(arr)
  {
    if FfdJava(arr, capacity).Ok? {
      FfdKeepsAllButOpeners(FfdStart, arr, capacity);
      assert Flatten(FfdStart.groups) == [];
    }
  }

  // ===========================================================================
  // MULTIFIT

  /** Java's int division, which truncates toward zero, for a positive divisor. */
  function JavaDiv(a: int, b: int): int
    requires b > 0
  {
    if a >= 0 then a / b else -((-a) / b)
  }

  /** The quotient is rounded toward zero: the remainder has the dividend's sign. */
  lemma JavaDivTruncates(a: int, b: int)
    requires b > 0
    ensures a >= 0 ==> 0 <= a - JavaDiv(a, b) * b < b
    ensures a < 0 ==> -b < a - JavaDiv(a, b) * b <= 0
  {
    if a < 0 {
      var q := (-a) / b;
      assert -a == q * b + (-a) % b;
      assert JavaDiv(a, b) * b == -(q * b);
    }
  }

  /** max after `max = Math.max(max, x)` over the items, starting from 0. */
  function MaxOr0(s: seq<int>): (m: int)
    ensures m >= 0 && forall i :: 0 <= i < |s| ==> s[i] <= m
    ensures m == 0 || exists i :: 0 <= i < |s| && s[i] == m
  {
    if s == [] then 0
    else
      var p := MaxOr0(s[..|s| - 1]);
      if s[|s| - 1] > p then s[|s| - 1] else p
  }

  function Max(a: int, b: int): int
  {
    if a >= b then a else b
  }

  /** The search interval MULTIFIT starts from. */
  function LowerBound(items: seq<int>, n: int): int
    requires n > 0
  {
    Max(MaxOr0(items), JavaDiv(Sum(items), n))
  }

  function UpperBound(items: seq<int>, n: int): int
    requires n > 0
  {
    Max(MaxOr0(items), JavaDiv(2 * Sum(items), n))
  }

  lemma JavaDivNonPositive(a: int, b: int)
    requires b > 0 && a < 0
    ensures JavaDiv(a, b) <= 0
  {
  }

  lemma MulSucc(q: int, b: int)
    ensures (q + 1) * b == q * b + b
  {
  }

  lemma MulMono(x: int, y: int, b: int)
    requires x <= y && b >= 0
    ensures x * b <= y * b
  {
    assert y * b - x * b == (y - x) * b;
  }

  /** Division by a positive number is monotone on non-negative dividends. */
  lemma JavaDivMonotone(a: int, c: int, b: int)
    requires b > 0 && 0 <= a <= c
    ensures JavaDiv(a, b) <= JavaDiv(c, b)
  {
    var p, q := a / b, c / b;
    if p > q {
      MulSucc(q, b);
      MulMono(q + 1, p, b);
    }
  }

  /** The initial interval is non-empty and lies at or above the largest item. */
  lemma InitialBounds(items: seq<int>, n: int)
    requires n > 0
    ensures MaxOr0(items) <= LowerBound(items, n) <= UpperBound(items, n)
  {
    var s := Sum(items);
    if s < 0 {
      JavaDivNonPositive(s, n);
      JavaDivNonPositive(2 * s, n);
    } else {
      JavaDivMonotone(s, 2 * s, n);
    }
  }

  /** capacity = (lowerBound + upperBound) / 2 lies in the interval. */
  lemma MidpointInRange(lb: int, ub: int)
    requires lb <= ub
    ensures lb <= JavaDiv(lb + ub, 2) <= ub
  {
  }

  /** One FFD probe: the capacity tried and the groups FFD returned. */
  datatype Probe = Probe(capacity: int, groups: seq<seq<int>>)

  /** The packer MULTIFIT probes: FFD on the sorted items at a given capacity. */
  type Packer = int -> Result<seq<seq<int>>>

  /** MULTIFIT's bisection loop, iters rounds, from the interval [lb, ub] with best
      the groups kept so far; ffd packs the items at a capacity. */
  function Bisect(ffd: Packer, n: int, lb: int, ub: int, iters: int, best: seq<seq<int>>): Result<seq<seq<int>>>
    decreases iters
  {
    if iters <= 0 then Ok(best)
    else
      var capacity := JavaDiv(lb + ub, 2);
      match ffd(capacity)
      case Err(e) => Err(e)
      case Ok(gs) =>
        if |gs| > n then Bisect(ffd, n, capacity, ub, iters - 1, best)
        else Bisect(ffd, n, lb, capacity, iters - 1, gs)
  }

  /** The probes the bisection makes, in order. */
  function Probes(ffd: Packer, n: int, lb: int, ub: int, iters: int): seq<Probe>
    decreases iters
  {
    if iters <= 0 then []
    else
      var capacity := JavaDiv(lb + ub, 2);
      match ffd(capacity)
      case Err(_) => []
      case Ok(gs) =>
        [Probe(capacity, gs)] +
        (if |gs| > n then Probes(ffd, n, capacity, ub, iters - 1)
         else Probes(ffd, n, lb, capacity, iters - 1))
  }

  /** The groups of the last probe that needed at most n bins; best when no
      probe did. */
  function LastFit(probes: seq<Probe>, n: int, best: seq<seq<int>>): seq<seq<int>>
    decreases |probes|
  {
    if probes == [] then best
    else if |probes[|probes| - 1].groups| <= n then probes[|probes| - 1].groups
    else LastFit(probes[..|probes| - 1], n, best)
  }

  /** What LastFit keeps is best or the groups of a probe that fitted. */
  lemma {:induction false} LastFitIsProbe(probes: seq<Probe>, n: int, best: seq<seq<int>>)
    ensures var r := LastFit(probes, n, best);
      r == best || exists i :: 0 <= i < |probes| && |probes[i].groups| <= n && r == probes[i].groups
    decreases |probes|
  {
    if probes != [] {
      var last := |probes| - 1;
      if |probes[last].groups| > n {
        LastFitIsProbe(probes[..last], n, best);
        var r := LastFit(probes, n, best);
        if r != best {
          var i :| 0 <= i < last && |probes[..last][i].groups| <= n && r == probes[..last][i].groups;
          assert probes[i] == probes[..last][i];
        }
      }
    }
  }

  lemma {:induction false} LastFitCons(p: Probe, rest: seq<Probe>, n: int, best: seq<seq<int>>)
    ensures LastFit([p] + rest, n, best) == LastFit(rest, n, if |p.groups| <= n then p.groups else best)
    decreases |rest|
  {
    var q := [p] + rest;
    if rest != [] {
      var last := |rest| - 1;
      assert q[|q| - 1] == rest[last];
      assert q[..|q| - 1] == [p] + rest[..last];
      LastFitCons(p, rest[..last], n, best);
    } else {
      assert q[..0] == [];
    }
  }

  /** A round that probes successfully contributes its probe ahead of the later ones. */
  lemma {:induction false} ProbesCons(ffd: Packer, n: int, lb: int, ub: int, iters: int)
    requires iters > 0 && ffd(JavaDiv(lb + ub, 2)).Ok?
    ensures var capacity := JavaDiv(lb + ub, 2);
      var gs := ffd(capacity).value;
      Probes(ffd, n, lb, ub, iters) == [Probe(capacity, gs)] +
        (if |gs| > n then Probes(ffd, n, capacity, ub, iters - 1) else Probes(ffd, n, lb, capacity, iters - 1))
  {
  }

  /** Every probe capacity lies in the interval the search started from. */
  lemma {:induction false} ProbesInRange(ffd: Packer, n: int, lb: int, ub: int, iters: int)
    requires lb <= ub
    ensures forall p :: p in Probes(ffd, n, lb, ub, iters) ==> lb <= p.capacity <= ub
    decreases iters
  {
    if iters > 0 {
      var capacity := JavaDiv(lb + ub, 2);
      MidpointInRange(lb, ub);
      if ffd(capacity).Ok? {
        var gs := ffd(capacity).value;
        ProbesCons(ffd, n, lb, ub, iters);
        var rest;
        if |gs| > n {
          rest := Probes(ffd, n, capacity, ub, iters - 1);
          ProbesInRange(ffd, n, capacity, ub, iters - 1);
          WidenRange(rest, capacity, ub, lb, ub);
        } else {
          rest := Probes(ffd, n, lb, capacity, iters - 1);
          ProbesInRange(ffd, n, lb, capacity, iters - 1);
          WidenRange(rest, lb, capacity, lb, ub);
        }
        ConsInRange(Probe(capacity, gs), rest, lb, ub);
      }
    }
  }

  lemma WidenRange(ps: seq<Probe>, lo: int, hi: int, lb: int, ub: int)
    requires lb <= lo && hi <= ub && forall q :: q in ps ==> lo <= q.capacity <= hi
    ensures forall q :: q in ps ==> lb <= q.capacity <= ub
  {
  }

  lemma ConsInRange(p: Probe, rest: seq<Probe>, lb: int, ub: int)
    requires lb <= p.capacity <= ub && forall q :: q in rest ==> lb <= q.capacity <= ub
    ensures forall q :: q in [p] + rest ==> lb <= q.capacity <= ub
  {
  }

  /** The bisection returns the groups of its last feasible probe, or best if
      there was none. */
  lemma {:induction false} BisectIsLastFit(ffd: Packer, n: int, lb: int, ub: int, iters: int, best: seq<seq<int>>)
    requires Bisect(ffd, n, lb, ub, iters, best).Ok?
    ensures Bisect(ffd, n, lb, ub, iters, best).value == LastFit(Probes(ffd, n, lb, ub, iters), n, best)
    decreases iters
  {
    if iters > 0 {
      var capacity := JavaDiv(lb + ub, 2);
      var gs := ffd(capacity).value;
      var p := Probe(capacity, gs);
      if |gs| > n {
        BisectIsLastFit(ffd, n, capacity, ub, iters - 1, best);
        LastFitCons(p, Probes(ffd, n, capacity, ub, iters - 1), n, best);
      } else {
        BisectIsLastFit(ffd, n, lb, capacity, iters - 1, gs);
        LastFitCons(p, Probes(ffd, n, lb, capacity, iters - 1), n, best);
      }
    }
  }

  /** FFD on the given items, as a function of the capacity. */
  function FfdOn(items: seq<int>): Packer
  {
    c => FfdJava(items, c)
  }

  /** What MULTIFIT(arr, n, k) returns for n >= 2, on the sorted items. */
  function MultifitResult(sorted: seq<int>, n: int, k: int): Result<seq<seq<int>>>
    requires n > 0
  {
    Bisect(FfdOn(sorted), n, LowerBound(sorted, n), UpperBound(sorted, n), k, [])
  }

  /** MULTIFIT returns the groups of the last probe with at most n bins, never
      pads them to n groups, and returns the empty list when no probe fitted;
      every probe capacity is at least the largest item. */
  lemma MultifitProperties(sorted: seq<int>, n: int, k: int)
    requires n > 0
    ensures MultifitResult(sorted, n, k).Ok? ==>
      var gs := MultifitResult(sorted, n, k).value;
      var probes := Probes(FfdOn(sorted), n, LowerBound(sorted, n), UpperBound(sorted, n), k);
      gs == LastFit(probes, n, []) && |gs| <= n &&
      (gs == [] || exists i :: 0 <= i < |probes| && |probes[i].groups| <= n && gs == probes[i].groups)
    ensures forall p :: p in Probes(FfdOn(sorted), n, LowerBound(sorted, n), UpperBound(sorted, n), k) ==>
      MaxOr0(sorted) <= p.capacity <= UpperBound(sorted, n)
  {
    InitialBounds(sorted, n);
    ProbesInRange(FfdOn(sorted), n, LowerBound(sorted, n), UpperBound(sorted, n), k);
    if MultifitResult(sorted, n, k).Ok? {
      BisectIsLastFit(FfdOn(sorted), n, LowerBound(sorted, n), UpperBound(sorted, n), k, []);
      LastFitIsProbe(Probes(FfdOn(sorted), n, LowerBound(sorted, n), UpperBound(sorted, n), k), n, []);
    }
  }

  /** When the interval is a single capacity c whose probe fits, every round
      keeps that probe's groups. */
  lemma {:induction false} BisectFixed(ffd: Packer, n: int, c: int, iters: int, best: seq<seq<int>>, gs: seq<seq<int>>)
    requires JavaDiv(c + c, 2) == c && ffd(c) == Ok(gs) && |gs| <= n
    ensures Bisect(ffd, n, c, c, iters, best) == Ok(if iters <= 0 then best else gs)
    decreases iters
  {
    if iters > 0 {
      BisectFixed(ffd, n, c, iters - 1, gs, gs);
    }
  }

  /** The second item of the example: 1 does not fit the full bin and opens a second one. */
  lemma MultifitExampleFfd()
    ensures FfdFrom(FfdState([[]], [Bin(0, 0)]), [1], 10) == Ok(FfdState([[], []], [Bin(0, 0), Bin(9, 1)]))
  {
    MultifitExampleStep();
    assert [1][1..] == [];
  }

  lemma MultifitExampleStep()
    ensures FfdStep(FfdState([[]], [Bin(0, 0)]), 1, 10) == Ok(FfdState([[], []], [Bin(0, 0), Bin(9, 1)]))
  {
    var s1 := FfdState([[]], [Bin(0, 0)]);
    assert s1.groups + [[]] == [[], []];
    assert AddBin(s1.bins, Bin(9, 1)) == [Bin(0, 0), Bin(9, 1)];
    assert Ceiling(s1.bins, 1) == 1;
    assert Ceiling(s1.bins, 9) == 1;
  }

  /** With items 10 and 1 and three groups, every probe has capacity 10 and FFD
      returns two (empty) groups, which MULTIFIT hands back unpadded. */
  lemma MultifitDoesNotPad()
    ensures MultifitResult([10, 1], 3, 7) == Ok([[], []])
  {
    var items := [10, 1];
    MultifitExampleBounds();
    FfdFirstItem(10, 10);
    MultifitExampleFfd();
    assert items[1..] == [1];
    assert FfdOn(items)(10) == Ok([[], []]);
    BisectFixed(FfdOn(items), 3, 10, 7, [], [[], []]);
  }

  /** Both bounds of the search for items 10 and 1 in three groups are 10. */
  lemma MultifitExampleBounds()
    ensures LowerBound([10, 1], 3) == 10 && UpperBound([10, 1], 3) == 10
  {
    var items := [10, 1];
    assert Sum(items) == 11 by {
      assert items[..1] == [10] && [10][..0] == [];
    }
    assert MaxOr0(items) == 10 by {
      assert items[..1] == [10] && [10][..0] == [];
    }
  }

  /** The first loop of MULTIFIT(arr, n, k): the sum of the items, and the
      largest of them and 0. */
  method SumAndMax(arr: array<int>) returns (sum: int, max: int)
    ensures sum == Sum(arr[..]) && max == MaxOr0(arr[..])
  {
    sum, max := 0, 0;
    var t := 0;
    while t < arr.Length
      invariant 0 <= t <= arr.Length
      invariant sum == Sum(arr[..t]) && max == MaxOr0(arr[..t])
    {
      assert arr[..t + 1][..t] == arr[..t];
      sum := sum + arr[t];
      max := Max(max, arr[t]);
      t := t + 1;
    }
    assert arr[..t] == arr[..];
  }

  /** One round of that loop, with iters rounds still to go: the packer is
      probed at the midpoint of the current interval [lb, ub], and the half
      to go on with is nested in it. */
  method BisectRound(ffd: Packer, n: int, lb: int, ub: int, iters: int, best: seq<seq<int>>)
      returns (capacity: int, r: Result<(int, int, seq<seq<int>>)>)
    requires lb <= ub && iters > 0
    ensures lb <= capacity <= ub && capacity == JavaDiv(lb + ub, 2)
    ensures r.Err? ==> Bisect(ffd, n, lb, ub, iters, best) == Err(r.error)
    ensures r.Ok? ==> lb <= r.value.0 <= r.value.1 <= ub && (r.value.0 == capacity || r.value.1 == capacity)
    ensures r.Ok? ==> Bisect(ffd, n, lb, ub, iters, best) == Bisect(ffd, n, r.value.0, r.value.1, iters - 1, r.value.2)
  {
    capacity := JavaDiv(lb + ub, 2);
    MidpointInRange(lb, ub);
    var groups := ffd(capacity);
    if groups.Err? {
      return capacity, Err(groups.error);
    }
    if |groups.value| > n {
      r := Ok((capacity, ub, best));
    } else {
      r := Ok((lb, capacity, groups.value));
    }
  }

  /** The second loop of MULTIFIT(arr, n, k): k rounds of bisection from
      [lowerBound, upperBound], each probing the packer (FFD on the sorted
      items) at the midpoint of the current interval, which stays nested in
      the initial one. */
  method BisectLoop(ffd: Packer, n: int, lowerBound: int, upperBound: int, k: int)
      returns (r: Result<seq<seq<int>>>)
    requires lowerBound <= upperBound
    ensures r == Bisect(ffd, n, lowerBound, upperBound, k, [])
  {
    var lb, ub := lowerBound, upperBound;
    var bestGroups: seq<seq<int>> := [];
    var i := 0;
    while i < k
      invariant 0 <= i && (k >= 0 ==> i <= k)
      invariant lowerBound <= lb <= ub <= upperBound
      invariant Bisect(ffd, n, lowerBound, upperBound, k, []) == Bisect(ffd, n, lb, ub, k - i, bestGroups)
    {
      var capacity, round := BisectRound(ffd, n, lb, ub, k - i, bestGroups);
      if round.Err? {
        return Err(round.error);
      }
      lb, ub, bestGroups := round.value.0, round.value.1, round.value.2;
      i := i + 1;
    }
    return Ok(bestGroups);
  }

  /** Partition.MULTIFIT(arr, n, k): sorts the caller's array in place, then
      bisects on the bin capacity for k rounds, probing with FFD. */
  method MULTIFIT(arr: array<int>, n: int, k: int) returns (r: Result<seq<seq<int>>>)
    modifies arr
    ensures n <= 0 ==> r == Err(IllegalArgument) && arr[..] == old(arr[..])
    ensures n == 1 ==> r == Ok([old(arr[..])]) && arr[..] == old(arr[..])
    ensures n >= 2 ==> arr[..] == SortDesc(old(arr[..])) && r == MultifitResult(arr[..], n, k)
  {
    if n <= 0 {
      return Err(IllegalArgument);
    } else if n == 1 {
      return Ok([arr[..]]);
    }
    SortDescInPlace(arr);
    var sum, max := SumAndMax(arr);
    var lowerBound := Max(max, JavaDiv(sum, n));
    var upperBound := Max(max, JavaDiv(2 * sum, n));
    InitialBounds(arr[..], n);
    r := BisectLoop(FfdOn(arr[..]), n, lowerBound, upperBound, k);
  }

  /** Partition.MULTIFIT(arr, n): seven bisection rounds. */
  method MULTIFITDefault(arr: array<int>, n: int) returns (r: Result<seq<seq<int>>>)
    modifies arr
    ensures n <= 0 ==> r == Err(IllegalArgument) && arr[..] == old(arr[..])
    ensures n == 1 ==> r == Ok([old(arr[..])]) && arr[..] == old(arr[..])
    ensures n >= 2 ==> arr[..] == SortDesc(old(arr[..])) && r == MultifitResult(arr[..], n, 7)
  {
    r := MULTIFIT(arr, n, 7);
  }
}
