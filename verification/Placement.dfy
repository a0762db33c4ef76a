// The greedy loop of dispatcher._claim_and_assign; nodes are numbered in their query's order.
module Placement {
  import opened Sums

  // The first node with the most free slots: Python's max() over the capacity dict.
  function FirstMax(c: seq<int>): (r: nat)
    requires c != []
    ensures r < |c|
  {
    if |c| == 1 then 0
    else
      var r := FirstMax(c[..|c| - 1]);
      if c[|c| - 1] > c[r] then |c| - 1 else r
  }

  lemma {:induction false} FirstMaxIs(c: seq<int>)
    requires c != []
    ensures forall i :: 0 <= i < |c| ==> c[i] <= c[FirstMax(c)]
    ensures forall i :: 0 <= i < FirstMax(c) ==> c[i] < c[FirstMax(c)]
  {
    if |c| > 1 { FirstMaxIs(c[..|c| - 1]); }
  }

  // Free slots left once the given nodes have been handed a task each.
  function Left(cap: seq<int>, choices: seq<nat>): (left: seq<int>)
    ensures |left| == |cap|
  {
    if choices == [] then cap
    else
      var left := Left(cap, choices[..|choices| - 1]);
      var n := choices[|choices| - 1];
      if n < |cap| then left[n := left[n] - 1] else left
  }

  // The nodes chosen for m tasks, in task order; shorter than m only if the loop breaks off.
  function Place(cap: seq<int>, m: nat): (choices: seq<nat>)
    requires cap != []
    ensures forall i :: 0 <= i < |choices| ==> choices[i] < |cap|
  {
    if m == 0 then []
    else
      var before := Place(cap, m - 1);
      var left := Left(cap, before);
      if |before| < m - 1 || left[FirstMax(left)] <= 0 then before else before + [FirstMax(left)]
  }

  lemma {:induction false} PlaceSize(cap: seq<int>, m: nat)
    requires cap != []
    ensures |Place(cap, m)| <= m
  {
    if m > 0 { PlaceSize(cap, m - 1); }
  }

  function Id(): int -> int { (x: int) => x }
  function Positive(): int -> int { (x: int) => if x > 0 then x else 0 }

  // Free slots over all nodes: what the claim limit is set to.
  function TotalCapacity(cap: seq<int>): int { Sum(cap, Positive()) }

  // --- Every claimed task is placed, and only on free slots. ---

  lemma {:induction false} LeftStep(cap: seq<int>, choices: seq<nat>, n: nat)
    requires n < |cap|
    ensures Left(cap, choices + [n]) == Left(cap, choices)[n := Left(cap, choices)[n] - 1]
  {
    assert (choices + [n])[..|choices|] == choices;
  }

  // What every choice keeps: it takes a free slot, so both totals drop by one; no node goes
  // below zero or gains a slot; and every node used is within one slot of the most free one.
  ghost predicate PlacingOk(cap: seq<int>, choices: seq<nat>, left: seq<int>) {
    && |left| == |cap|
    && CapacityIs(cap, left, |choices|)
    && (forall n :: 0 <= n < |cap| ==> SlotOk(cap[n], left[n]))
    && (forall n :: n in choices ==> LevelOk(left, n))
  }

  ghost predicate CapacityIs(cap: seq<int>, left: seq<int>, k: nat) {
    TotalCapacity(left) == TotalCapacity(cap) - k && Sum(left, Id()) == Sum(cap, Id()) - k
  }

  predicate SlotOk(cap: int, left: int) { (left >= 0 || left == cap) && left <= cap }

  ghost predicate LevelOk(left: seq<int>, n: nat) {
    n < |left| && forall i :: 0 <= i < |left| ==> left[i] <= left[n] + 1
  }

  lemma PlacingStep(cap: seq<int>, choices: seq<nat>, left: seq<int>, n: nat)
    requires PlacingOk(cap, choices, left) && n < |left| && left[n] > 0
    requires forall i :: 0 <= i < |left| ==> left[i] <= left[n]
    ensures PlacingOk(cap, choices + [n], left[n := left[n] - 1])
  {
    var left' := left[n := left[n] - 1];
    CapacityAfter(cap, left, |choices|, left', n);
    forall m | 0 <= m < |cap| ensures SlotOk(cap[m], left'[m]) { assert SlotOk(cap[m], left[m]); }
    forall m | m in choices + [n] ensures LevelOk(left', m) {
      if m != n { assert m in choices && LevelOk(left, m); }
    }
  }

  lemma {:induction false} PlacingInv(cap: seq<int>, m: nat, choices: seq<nat>, left: seq<int>)
    requires cap != [] && choices == Place(cap, m) && left == Left(cap, choices)
    ensures PlacingOk(cap, choices, left)
  {
    if m > 0 {
      var before := Place(cap, m - 1);
      var left0 := Left(cap, before);
      PlacingInv(cap, m - 1, before, left0);
      if choices != before {
        var n := FirstMax(left0);
        FirstMaxIs(left0);
        LeftStep(cap, before, n);
        PlacingStep(cap, before, left0, n);
      }
    }
  }

  lemma {:induction false} CapacityLeft(cap: seq<int>, m: nat)
    requires cap != []
    ensures CapacityIs(cap, Left(cap, Place(cap, m)), |Place(cap, m)|)
  {
    PlacingInv(cap, m, Place(cap, m), Left(cap, Place(cap, m)));
  }

  lemma CapacityAfter(cap: seq<int>, left: seq<int>, k: nat, left': seq<int>, n: nat)
    requires CapacityIs(cap, left, k) && n < |left| && left[n] > 0 && left' == left[n := left[n] - 1]
    ensures CapacityIs(cap, left', k + 1)
  {
    SumDrops(left, left', n, Positive());
    SumDrops(left, left', n, Id());
  }

  lemma {:induction false} SumDrops(left: seq<int>, left': seq<int>, n: nat, f: int -> int)
    requires n < |left| && left' == left[n := left[n] - 1]
    requires f(left[n] - 1) == f(left[n]) - 1
    ensures Sum(left', f) == Sum(left, f) - 1
  {
    SumUpdate(left, n, left[n] - 1, f);
  }

  // One more task, while there is a free slot.
  lemma PlaceNext(cap: seq<int>, k: nat)
    requires cap != [] && |Place(cap, k)| == k
    requires Left(cap, Place(cap, k))[FirstMax(Left(cap, Place(cap, k)))] > 0
    ensures var left := Left(cap, Place(cap, k));
            var n := FirstMax(left);
            && Place(cap, k + 1) == Place(cap, k) + [n]
            && Left(cap, Place(cap, k) + [n]) == left[n := left[n] - 1]
  {
    LeftStep(cap, Place(cap, k), FirstMax(Left(cap, Place(cap, k))));
  }

  lemma PlaceMore(cap: seq<int>, k: nat)
    requires cap != [] && |Place(cap, k)| == k && k < TotalCapacity(cap)
    ensures |Place(cap, k + 1)| == k + 1
  {
    CapacityLeft(cap, k);
    SlotLeft(Left(cap, Place(cap, k)));
    PlaceNext(cap, k);
  }

  // The "shouldn't happen" break does not happen as long as no more tasks were claimed than
  // there are free slots.
  lemma {:induction false} EveryTaskPlaced(cap: seq<int>, m: nat)
    requires cap != [] && m <= TotalCapacity(cap)
    ensures |Place(cap, m)| == m
  {
    PlacedSoFar(cap, m, Place(cap, m));
  }

  lemma {:induction false} PlacedSoFar(cap: seq<int>, m: nat, placed: seq<nat>)
    requires cap != [] && m <= TotalCapacity(cap) && placed == Place(cap, m)
    ensures |placed| == m
  {
    if m > 0 {
      PlacedSoFar(cap, m - 1, Place(cap, m - 1));
      PlaceMore(cap, m - 1);
    }
  }

  lemma {:induction false} SlotLeft(left: seq<int>)
    requires left != []
    ensures TotalCapacity(left) > 0 ==> left[FirstMax(left)] > 0
  {
    FirstMaxIs(left);
    if left[FirstMax(left)] <= 0 { SumZero(left, Positive()); }
  }

  // And beyond that it is exactly what stops the loop.
  lemma {:induction false} PlacedExactly(cap: seq<int>, m: nat)
    requires cap != []
    ensures |Place(cap, m)| == Min(m, TotalCapacity(cap))
  {
    SumNonNegative(cap, Positive());
    if m <= TotalCapacity(cap) {
      EveryTaskPlaced(cap, m);
    } else {
      Saturated(cap, TotalCapacity(cap), m);
    }
  }

  lemma {:induction false} Saturated(cap: seq<int>, full: nat, m: nat)
    requires cap != [] && full == TotalCapacity(cap) && full <= m
    ensures |Place(cap, m)| == full
  {
    if full == m {
      EveryTaskPlaced(cap, m);
    } else {
      Saturated(cap, full, m - 1);
      PlaceNoMore(cap, m - 1);
    }
  }

  lemma PlaceNoMore(cap: seq<int>, k: nat)
    requires cap != [] && |Place(cap, k)| == TotalCapacity(cap)
    ensures Place(cap, k + 1) == Place(cap, k)
  {
    CapacityLeft(cap, k);
    NoSlotLeft(Left(cap, Place(cap, k)));
  }

  lemma {:induction false} NoSlotLeft(left: seq<int>)
    requires left != [] && TotalCapacity(left) == 0
    ensures left[FirstMax(left)] <= 0
  {
    SumMember(left, FirstMax(left), Positive());
  }

  // Once the loop has broken off, it stays where it is.
  lemma {:induction false} PlaceStops(cap: seq<int>, k: nat, m: nat)
    requires cap != [] && k < m && |Place(cap, k)| == k && NoneFree(Left(cap, Place(cap, k)))
    ensures Place(cap, m) == Place(cap, k)
  {
    PlaceBreaks(cap, k);
    PlaceStuck(cap, k + 1, m, Place(cap, k));
  }

  lemma {:induction false} PlaceStuck(cap: seq<int>, j: nat, m: nat, placed: seq<nat>)
    requires cap != [] && j <= m && Place(cap, j) == placed && |placed| < j
    ensures Place(cap, m) == placed
    decreases m - j
  {
    if j < m {
      PlaceShort(cap, j);
      PlaceStuck(cap, j + 1, m, placed);
    }
  }

  predicate NoneFree(left: seq<int>)
    requires left != []
  {
    left[FirstMax(left)] <= 0
  }

  lemma PlaceBreaks(cap: seq<int>, k: nat)
    requires cap != [] && |Place(cap, k)| == k && NoneFree(Left(cap, Place(cap, k)))
    ensures Place(cap, k + 1) == Place(cap, k)
  {
  }

  lemma PlaceShort(cap: seq<int>, m: nat)
    requires cap != [] && |Place(cap, m)| < m
    ensures Place(cap, m + 1) == Place(cap, m)
  {
  }

  // No node is given more tasks than it has free slots.
  lemma {:induction false} NoOverload(cap: seq<int>, m: nat, n: nat)
    requires cap != [] && n < |cap|
    ensures Left(cap, Place(cap, m))[n] >= 0 || Left(cap, Place(cap, m))[n] == cap[n]
    ensures Left(cap, Place(cap, m))[n] <= cap[n]
  {
    var left := Left(cap, Place(cap, m));
    PlacingInv(cap, m, Place(cap, m), left);
    assert SlotOk(cap[n], left[n]);
  }

  // --- Balance. ---

  // Any node that was used ends within one slot of the node with the most slots left.
  lemma {:induction false} UsedNodesLevel(cap: seq<int>, m: nat, n: nat, i: nat)
    requires cap != [] && i < |cap| && n in Place(cap, m)
    ensures Left(cap, Place(cap, m))[i] <= Left(cap, Place(cap, m))[n] + 1
  {
    var left := Left(cap, Place(cap, m));
    PlacingInv(cap, m, Place(cap, m), left);
    assert LevelOk(left, n);
  }

  lemma {:induction false} UnusedUntouched(cap: seq<int>, choices: seq<nat>, n: nat)
    requires n < |cap| && n !in choices
    ensures Left(cap, choices)[n] == cap[n]
  {
    if choices != [] { UnusedUntouched(cap, choices[..|choices| - 1], n); }
  }

  // No way of spreading the same number of tasks over the nodes brings the largest number
  // of free slots on any node lower than the greedy choice does.
  lemma GreedyIsOptimal(cap: seq<int>, m: nat, other: seq<nat>) returns (n: nat)
    requires cap != [] && m <= TotalCapacity(cap)
    requires |other| == |cap| && Sum(other, (x: nat) => x as int) == m
    ensures n < |cap|
    ensures forall i :: 0 <= i < |cap| ==> cap[n] - other[n] >= Left(cap, Place(cap, m))[i]
  {
    var left := Left(cap, Place(cap, m));
    var top := FirstMax(left);
    FirstMaxIs(left);
    EveryTaskPlaced(cap, m);
    CapacityLeft(cap, m);
    if forall i :: 0 <= i < |cap| ==> cap[i] - other[i] < left[top] {
      var rest := seq(|cap|, i requires 0 <= i < |cap| => cap[i] - other[i]);
      SumLinear(cap, Id(), rest, Id(), other, (x: nat) => x as int);
      forall i | 0 <= i < |cap| ensures rest[i] <= left[i] {
        if i in Place(cap, m) { UsedNodesLevel(cap, m, i, top); } else { UnusedUntouched(cap, Place(cap, m), i); }
      }
      StrictSum(rest, left, top);
    }
    n :| 0 <= n < |cap| && cap[n] - other[n] >= left[top];
  }

  lemma {:induction false} StrictSum(a: seq<int>, b: seq<int>, k: nat)
    requires |a| == |b| && k < |a| && a[k] < b[k]
    requires forall i :: 0 <= i < |a| ==> a[i] <= b[i]
    ensures Sum(a, Id()) < Sum(b, Id())
  {
    SumUpdate(a, k, a[k] + 1, Id());
    SumMonotone(a[k := a[k] + 1], Id(), b, Id());
  }

  // max(local_capacity, key=...): one scan over the capacities.
  method MostFree(c: seq<int>) returns (best: nat)
    requires c != []
    ensures best == FirstMax(c)
  {
    best := 0;
    for i := 1 to |c|
      invariant best == FirstMax(c[..i])
    {
      assert c[..i + 1][..i] == c[..i];
      if c[i] > c[best] { best := i; }
    }
    assert c[..|c|] == c;
  }
}
