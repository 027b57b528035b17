/** Vocabulary shared by every partitioning heuristic: weights, groups of weights,
    their sums, the makespan, descending sorting, and the description of a run
    that hands each item, in input order, to one of a fixed number of groups. */
module Groups {

  /** Sum of a list of weights, accumulated from the left as the source's loops do. */
  function Sum(s: seq<int>): int
  {
    if s == [] then 0 else Sum(s[..|s| - 1]) + s[|s| - 1]
  }

  lemma {:induction false} SumConcat(a: seq<int>, b: seq<int>)
    ensures Sum(a + b) == Sum(a) + Sum(b)
    decreases |b|
  {
    if b == [] {
      assert a + b == a;
    } else {
      assert (a + b)[..|a + b| - 1] == a + b[..|b| - 1];
      SumConcat(a, b[..|b| - 1]);
    }
  }

  /** One added occurrence can be cancelled from both sides. */
  lemma CancelOne(a: multiset<int>, b: multiset<int>, x: int)
    requires a + multiset{x} == b + multiset{x}
    ensures a == b
  {
    forall y ensures a[y] == b[y] {
      assert (a + multiset{x})[y] == (b + multiset{x})[y];
    }
  }

  /** Removing one occurrence of the last item of a from b leaves the
      multiset of the rest of a. */
  lemma RemoveMatching(front: seq<int>, x: int, b: seq<int>, i: nat)
    requires i < |b| && b[i] == x
    requires multiset(front + [x]) == multiset(b)
    ensures multiset(front) == multiset(b[..i] + b[i + 1..])
  {
    var l, r := b[..i], b[i + 1..];
    assert b == l + [x] + r;
    assert multiset(b) == multiset(l + r) + multiset{x};
    assert multiset(front + [x]) == multiset(front) + multiset{x};
    CancelOne(multiset(front), multiset(l + r), x);
  }

  /** The sum of a list with one item cut out, plus that item. */
  lemma SumCut(b: seq<int>, i: nat)
    requires i < |b|
    ensures Sum(b) == Sum(b[..i] + b[i + 1..]) + b[i]
  {
    assert b == b[..i] + [b[i]] + b[i + 1..];
    SumConcat(b[..i] + [b[i]], b[i + 1..]);
    SumConcat(b[..i], [b[i]]);
    SumConcat(b[..i], b[i + 1..]);
  }

  /** Reordering a list never changes its sum. */
  lemma {:induction false} SumPermutation(a: seq<int>, b: seq<int>)
    requires multiset(a) == multiset(b)
    ensures Sum(a) == Sum(b)
    decreases |a|
  {
    if a == [] {
      assert |b| == |multiset(b)| == 0;
    } else {
      var front := a[..|a| - 1];
      var x := a[|a| - 1];
      assert a == front + [x];
      assert x in multiset(b);
      var i :| 0 <= i < |b| && b[i] == x;
      RemoveMatching(front, x, b, i);
      SumPermutation(front, b[..i] + b[i + 1..]);
      SumCut(b, i);
    }
  }

  /** All groups one after another. */
  function Flatten(gs: seq<seq<int>>): seq<int>
  {
    if gs == [] then [] else Flatten(gs[..|gs| - 1]) + gs[|gs| - 1]
  }

  /** A non-empty list holds its first item and the rest. */
  lemma HeadTailMultiset(s: seq<int>)
    requires s != []
    ensures multiset(s) == multiset{s[0]} + multiset(s[1..])
  {
    assert s == [s[0]] + s[1..];
  }

  /** Appending an item to one group adds exactly that item to the flattened multiset. */
  lemma {:induction false} FlattenAddItem(gs: seq<seq<int>>, g: nat, x: int)
    requires g < |gs|
    ensures multiset(Flatten(gs[g := gs[g] + [x]])) == multiset(Flatten(gs)) + multiset{x}
    decreases |gs|
  {
    var last := |gs| - 1;
    var front := gs[..last];
    var after := gs[g := gs[g] + [x]];
    assert Flatten(gs) == Flatten(front) + gs[last];
    if g == last {
      assert after[..last] == front;
      assert Flatten(after) == Flatten(front) + (gs[last] + [x]);
    } else {
      assert after[..last] == front[g := front[g] + [x]];
      assert Flatten(after) == Flatten(front[g := front[g] + [x]]) + gs[last];
      FlattenAddItem(front, g, x);
    }
  }

  /** Taking the first item out of one group removes exactly that item from the flattened multiset. */
  lemma {:induction false} FlattenDropFirst(gs: seq<seq<int>>, g: nat)
    requires g < |gs| && gs[g] != []
    ensures multiset(Flatten(gs[g := gs[g][1..]])) + multiset{gs[g][0]} == multiset(Flatten(gs))
    decreases |gs|
  {
    var last := |gs| - 1;
    var front := gs[..last];
    var after := gs[g := gs[g][1..]];
    assert Flatten(gs) == Flatten(front) + gs[last];
    assert gs[g] == [gs[g][0]] + gs[g][1..];
    if g == last {
      assert after[..last] == front;
      assert Flatten(after) == Flatten(front) + gs[last][1..];
    } else {
      assert after[..last] == front[g := front[g][1..]];
      assert Flatten(after) == Flatten(front[g := front[g][1..]]) + gs[last];
      FlattenDropFirst(front, g);
    }
  }

  lemma {:induction false} FlattenAppend(gs: seq<seq<int>>, v: seq<int>)
    ensures Flatten(gs + [v]) == Flatten(gs) + v
  {
    assert (gs + [v])[..|gs|] == gs;
  }

  /** The makespan as the experiment drivers compute it: the largest group
      sum, starting from 0. */
  function MaxGroupSum(gs: seq<seq<int>>): (m: int)
    ensures m >= 0
    ensures forall g :: 0 <= g < |gs| ==> Sum(gs[g]) <= m
    ensures m == 0 || exists g :: 0 <= g < |gs| && Sum(gs[g]) == m
  {
    if gs == [] then 0
    else
      var p := MaxGroupSum(gs[..|gs| - 1]);
      var s := Sum(gs[|gs| - 1]);
      if s > p then s else p
  }

  lemma MulStep(a: nat, p: int, m: int)
    requires p <= m
    ensures a * p + m <= (a + 1) * m
  {
    assert a * p <= a * m;
    assert (a + 1) * m == a * m + m;
  }

  /** No partition into k groups has a makespan below total / k. */
  lemma {:induction false} MakespanLowerBound(gs: seq<seq<int>>)
    ensures |gs| * MaxGroupSum(gs) >= Sum(Flatten(gs))
    decreases |gs|
  {
    if gs != [] {
      var prefix := gs[..|gs| - 1];
      var last := gs[|gs| - 1];
      MakespanLowerBound(prefix);
      assert Flatten(gs) == Flatten(prefix) + last;
      SumConcat(Flatten(prefix), last);
      var m := MaxGroupSum(gs);
      var p := MaxGroupSum(prefix);
      assert p <= m && Sum(last) <= m;
      MulStep(|prefix|, p, m);
    }
  }

  // ---------------------------------------------------------------------------
  // Sorting into non-increasing order

  predicate NonIncreasing(s: seq<int>)
  {
    forall i, j :: 0 <= i < j < |s| ==> s[i] >= s[j]
  }

  lemma NonIncreasingFacts(s: seq<int>)
    requires NonIncreasing(s)
    ensures s != [] ==> NonIncreasing(s[1..]) && forall i :: 0 <= i < |s| ==> s[0] >= s[i]
  {
  }

  /** Inserts x in front of the first element smaller than it. */
  function Insert(x: int, s: seq<int>): (r: seq<int>)
    ensures multiset(r) == multiset(s) + multiset{x}
    ensures |r| == |s| + 1 && r[0] == (if s == [] || x >= s[0] then x else s[0])
  {
    if s == [] || x >= s[0] then [x] + s
    else
      assert s == [s[0]] + s[1..];
      [s[0]] + Insert(x, s[1..])
  }

  lemma {:induction false} InsertKeepsOrder(x: int, s: seq<int>)
    requires NonIncreasing(s)
    ensures NonIncreasing(Insert(x, s))
    decreases |s|
  {
    if s != [] && x < s[0] {
      NonIncreasingFacts(s);
      InsertKeepsOrder(x, s[1..]);
      var tail := Insert(x, s[1..]);
      NonIncreasingFacts(tail);
      assert s[0] >= tail[0];
    }
  }

  /** The input in non-increasing order: what Java's sort with reverseOrder()
      and Python's sorted(..., reverse=True) produce. */
  function SortDesc(s: seq<int>): (r: seq<int>)
    ensures multiset(r) == multiset(s)
    ensures NonIncreasing(r)
  {
    if s == [] then []
    else
      assert s == [s[0]] + s[1..];
      var tail := SortDesc(s[1..]);
      InsertKeepsOrder(s[0], tail);
      Insert(s[0], tail)
  }

  lemma HeadIsLargest(s: seq<int>, x: int)
    requires NonIncreasing(s) && x in multiset(s)
    ensures s[0] >= x
  {
    var i :| 0 <= i < |s| && s[i] == x;
  }

  /** Two non-increasing arrangements of one multiset start with the same
      value, and what follows it is again one multiset. */
  lemma HeadsAgree(a: seq<int>, b: seq<int>)
    requires NonIncreasing(a) && NonIncreasing(b)
    requires a != [] && b != [] && multiset(a) == multiset(b)
    ensures a[0] == b[0] && multiset(a[1..]) == multiset(b[1..])
  {
    assert a[0] in multiset(a) && b[0] in multiset(b);
    HeadIsLargest(b, a[0]);
    HeadIsLargest(a, b[0]);
    HeadTailMultiset(a);
    HeadTailMultiset(b);
    assert a[0] == b[0];
    forall y ensures multiset(a[1..])[y] == multiset(b[1..])[y] {
      assert multiset(a)[y] == multiset{a[0]}[y] + multiset(a[1..])[y];
      assert multiset(b)[y] == multiset{b[0]}[y] + multiset(b[1..])[y];
    }
  }

  /** A non-increasing arrangement of a multiset is unique, so every correct
      descending sort returns the same list. */
  lemma {:induction false} SortedPermutationUnique(a: seq<int>, b: seq<int>)
    requires NonIncreasing(a) && NonIncreasing(b)
    requires multiset(a) == multiset(b)
    ensures a == b
    decreases |a|
  {
    assert |b| == |multiset(b)| == |multiset(a)| == |a|;
    if a != [] {
      HeadsAgree(a, b);
      NonIncreasingFacts(a);
      NonIncreasingFacts(b);
      SortedPermutationUnique(a[1..], b[1..]);
      assert a == [a[0]] + a[1..] && b == [b[0]] + b[1..];
    }
  }

  // ---------------------------------------------------------------------------
  // Runs that hand each item to one of n groups

  predicate ChoicesBelow(choices: seq<nat>, n: nat)
  {
    forall t :: 0 <= t < |choices| ==> choices[t] < n
  }

  function EmptyGroups(n: nat): (gs: seq<seq<int>>)
    ensures |gs| == n && forall g :: 0 <= g < n ==> gs[g] == []
  {
    seq(n, _ => [])
  }

  /** The groups that result when item t is appended to group choices[t], for
      every t in input order. */
  function Distribute(items: seq<int>, n: nat, choices: seq<nat>): (gs: seq<seq<int>>)
    requires |choices| == |items| && ChoicesBelow(choices, n)
    ensures |gs| == n
    decreases |items|
  {
    if items == [] then EmptyGroups(n)
    else
      var t := |items| - 1;
      var before := Distribute(items[..t], n, choices[..t]);
      before[choices[t] := before[choices[t]] + [items[t]]]
  }

  /** The items whose choice is g, in input order. */
  function Select(items: seq<int>, choices: seq<nat>, g: nat): seq<int>
    requires |choices| == |items|
    decreases |items|
  {
    if items == [] then []
    else
      var t := |items| - 1;
      Select(items[..t], choices[..t], g) + (if choices[t] == g then [items[t]] else [])
  }

  /** Group g of a run holds exactly the items handed to g, in input order. */
  lemma {:induction false} DistributeSelects(items: seq<int>, n: nat, choices: seq<nat>, g: nat)
    requires |choices| == |items| && ChoicesBelow(choices, n) && g < n
    ensures Distribute(items, n, choices)[g] == Select(items, choices, g)
    decreases |items|
  {
    if items != [] {
      var t := |items| - 1;
      DistributeSelects(items[..t], n, choices[..t], g);
    }
  }

  /** A run neither drops nor duplicates an item. */
  lemma {:induction false} DistributePreserves(items: seq<int>, n: nat, choices: seq<nat>)
    requires |choices| == |items| && ChoicesBelow(choices, n)
    ensures multiset(Flatten(Distribute(items, n, choices))) == multiset(items)
    decreases |items|
  {
    if items == [] {
      EmptyFlatten(n);
    } else {
      var t := |items| - 1;
      var before := Distribute(items[..t], n, choices[..t]);
      DistributePreserves(items[..t], n, choices[..t]);
      FlattenAddItem(before, choices[t], items[t]);
      assert items == items[..t] + [items[t]];
    }
  }

  lemma {:induction false} EmptyFlatten(n: nat)
    ensures Flatten(EmptyGroups(n)) == []
    decreases n
  {
    if n > 0 {
      assert EmptyGroups(n)[..n - 1] == EmptyGroups(n - 1);
      EmptyFlatten(n - 1);
    }
  }

  /** A run with one more (unused) group is the same run plus an empty group. */
  lemma {:induction false} DistributeWiden(items: seq<int>, n: nat, choices: seq<nat>)
    requires |choices| == |items| && ChoicesBelow(choices, n)
    ensures Distribute(items, n + 1, choices) == Distribute(items, n, choices) + [[]]
    decreases |items|
  {
    if items == [] {
      assert EmptyGroups(n + 1) == EmptyGroups(n) + [[]];
    } else {
      var t := |items| - 1;
      DistributeWiden(items[..t], n, choices[..t]);
    }
  }

  /** Item t appended to group g: the run over items[..t + 1] is the run over
      items[..t] with that one append, and it follows the minimal-load rule
      exactly when the shorter run did and g had a minimal sum. */
  lemma DistributeStep(items: seq<int>, t: nat, n: nat, choices: seq<nat>, g: nat)
    requires t < |items| && |choices| == t && ChoicesBelow(choices, n) && g < n
    ensures ChoicesBelow(choices + [g], n)
    ensures Distribute(items[..t + 1], n, choices + [g])
         == Distribute(items[..t], n, choices)[g := Distribute(items[..t], n, choices)[g] + [items[t]]]
    ensures MinLoadRun(items[..t + 1], n, choices + [g])
        <==> MinLoadRun(items[..t], n, choices) && IsMinLoad(Distribute(items[..t], n, choices), g)
  {
    assert items[..t + 1][..t] == items[..t];
    assert (choices + [g])[..t] == choices;
  }

  /** The same step under the lowest-index rule. */
  lemma LowestDistributeStep(items: seq<int>, t: nat, n: nat, choices: seq<nat>, g: nat)
    requires t < |items| && |choices| == t && ChoicesBelow(choices, n) && g < n
    ensures ChoicesBelow(choices + [g], n)
    ensures Distribute(items[..t + 1], n, choices + [g])
         == Distribute(items[..t], n, choices)[g := Distribute(items[..t], n, choices)[g] + [items[t]]]
    ensures LowestMinLoadRun(items[..t + 1], n, choices + [g])
        <==> LowestMinLoadRun(items[..t], n, choices) && IsLowestMinLoad(Distribute(items[..t], n, choices), g)
  {
    assert items[..t + 1][..t] == items[..t];
    assert (choices + [g])[..t] == choices;
  }

  /** Every subsequence of a non-increasing list is non-increasing. */
  lemma {:induction false} SelectKeepsOrder(items: seq<int>, choices: seq<nat>, g: nat)
    requires |choices| == |items| && NonIncreasing(items)
    ensures NonIncreasing(Select(items, choices, g))
    ensures multiset(Select(items, choices, g)) <= multiset(items)
    decreases |items|
  {
    if items != [] {
      var t := |items| - 1;
      var prefix := items[..t];
      var s := Select(prefix, choices[..t], g);
      assert NonIncreasing(prefix) by {
        forall i, j | 0 <= i < j < |prefix| ensures prefix[i] >= prefix[j] {
          assert prefix[i] == items[i] && prefix[j] == items[j];
        }
      }
      SelectKeepsOrder(prefix, choices[..t], g);
      assert items == prefix + [items[t]];
      assert multiset(items) == multiset(prefix) + multiset{items[t]};
      forall k | 0 <= k < |s| ensures s[k] >= items[t] {
        assert s[k] in multiset(prefix);
        var j :| 0 <= j < |prefix| && prefix[j] == s[k];
        assert items[j] >= items[t];
      }
      if choices[t] == g {
        var r := s + [items[t]];
        forall i, j | 0 <= i < j < |r| ensures r[i] >= r[j] {
          if j < |s| {
            assert r[i] == s[i] && r[j] == s[j];
          }
        }
      }
    }
  }

  // ---------------------------------------------------------------------------
  // The load rules of list scheduling

  /** Group g currently has a minimal sum. */
  predicate IsMinLoad(gs: seq<seq<int>>, g: nat)
  {
    g < |gs| && forall h :: 0 <= h < |gs| ==> Sum(gs[g]) <= Sum(gs[h])
  }

  /** Group g is the lowest-index group with a minimal sum. */
  predicate IsLowestMinLoad(gs: seq<seq<int>>, g: nat)
  {
    IsMinLoad(gs, g) && forall h :: 0 <= h < g ==> Sum(gs[h]) > Sum(gs[g])
  }

  /** Every item went to a group whose sum was minimal at that moment. */
  predicate MinLoadRun(items: seq<int>, n: nat, choices: seq<nat>)
    requires |choices| == |items| && ChoicesBelow(choices, n)
    decreases |items|
  {
    items == [] ||
    var t := |items| - 1;
    MinLoadRun(items[..t], n, choices[..t]) && IsMinLoad(Distribute(items[..t], n, choices[..t]), choices[t])
  }

  /** Every item went to the lowest-index group whose sum was minimal at that moment. */
  predicate LowestMinLoadRun(items: seq<int>, n: nat, choices: seq<nat>)
    requires |choices| == |items| && ChoicesBelow(choices, n)
    decreases |items|
  {
    items == [] ||
    var t := |items| - 1;
    LowestMinLoadRun(items[..t], n, choices[..t]) && IsLowestMinLoad(Distribute(items[..t], n, choices[..t]), choices[t])
  }

  /** The lowest-index rule is one way of following the minimal-load rule. */
  lemma {:induction false} LowestMinLoadRunIsMinLoadRun(items: seq<int>, n: nat, choices: seq<nat>)
    requires |choices| == |items| && ChoicesBelow(choices, n)
    requires LowestMinLoadRun(items, n, choices)
    ensures MinLoadRun(items, n, choices)
    decreases |items|
  {
    if items != [] {
      var t := |items| - 1;
      LowestMinLoadRunIsMinLoadRun(items[..t], n, choices[..t]);
    }
  }

  /** The lowest-index rule leaves no freedom: it determines every choice. */
  lemma {:induction false} LowestMinLoadRunUnique(items: seq<int>, n: nat, c1: seq<nat>, c2: seq<nat>)
    requires |c1| == |items| && ChoicesBelow(c1, n) && LowestMinLoadRun(items, n, c1)
    requires |c2| == |items| && ChoicesBelow(c2, n) && LowestMinLoadRun(items, n, c2)
    ensures c1 == c2
    decreases |items|
  {
    if items != [] {
      var t := |items| - 1;
      LowestMinLoadRunUnique(items[..t], n, c1[..t], c2[..t]);
      var gs := Distribute(items[..t], n, c1[..t]);
      assert IsLowestMinLoad(gs, c1[t]) && IsLowestMinLoad(gs, c2[t]);
      assert c1[t] == c2[t];
      assert c1 == c1[..t] + [c1[t]] && c2 == c2[..t] + [c2[t]];
    }
  }
}
