// The queue can always be emptied: a draining run exists from every reachable state.
module Liveness {
  import opened Model
  import opened Sums
  import opened BatchOps
  import opened Dispatching
  import opened Engine
  import opened Structure
  import opened Invariants
  import opened LifecycleRuns
  import opened Drain

  // --- The claim query always has an answer. ---

  ghost predicate Rows(db: Db, ids: seq<nat>) {
    forall k :: 0 <= k < |ids| ==> ids[k] < |db.tasks| && db.tasks[ids[k]].batch < |db.batches|
  }

  ghost predicate Sorted(db: Db, ids: seq<nat>)
    requires Rows(db, ids)
  {
    forall k, l :: 0 <= k < l < |ids| ==> InClaimOrder(db, ids[k], ids[l]) && ids[k] != ids[l]
  }

  lemma {:induction false} Insert(db: Db, ids: seq<nat>, t: nat) returns (ids': seq<nat>)
    requires Rows(db, ids) && Sorted(db, ids) && t !in ids
    requires t < |db.tasks| && db.tasks[t].batch < |db.batches|
    ensures Rows(db, ids') && Sorted(db, ids')
    ensures forall x :: x in ids' <==> x == t || x in ids
  {
    if ids == [] || InClaimOrder(db, ids[|ids| - 1], t) {
      ids' := ids + [t];
      if ids != [] {
        forall k | 0 <= k < |ids| ensures InClaimOrder(db, ids[k], t) {
          if k < |ids| - 1 { assert InClaimOrder(db, ids[k], ids[|ids| - 1]); }
        }
      }
    } else {
      var n := |ids| - 1;
      assert ids == ids[..n] + [ids[n]];
      assert forall k :: 0 <= k < n ==> ids[..n][k] == ids[k];
      var init := Insert(db, ids[..n], t);
      InsertLast(db, ids, init, t);
      ids' := init + [ids[n]];
    }
  }

  lemma InsertLast(db: Db, ids: seq<nat>, init: seq<nat>, t: nat)
    requires ids != [] && Rows(db, ids) && Sorted(db, ids) && t !in ids
    requires t < |db.tasks| && db.tasks[t].batch < |db.batches| && !InClaimOrder(db, ids[|ids| - 1], t)
    requires Rows(db, init) && Sorted(db, init)
    requires forall x :: x in init <==> x == t || x in ids[..|ids| - 1]
    ensures Rows(db, init + [ids[|ids| - 1]]) && Sorted(db, init + [ids[|ids| - 1]])
  {
    var last := ids[|ids| - 1];
    forall k | 0 <= k < |init| ensures InClaimOrder(db, init[k], last) && init[k] != last {
      assert init[k] in init;
      if init[k] != t {
        var j :| 0 <= j < |ids| - 1 && ids[j] == init[k];
        assert InClaimOrder(db, ids[j], last);
      }
    }
  }

  lemma {:induction false} ClaimableUpTo(db: Db, n: nat) returns (ids: seq<nat>)
    requires RowsOk(db.tasks, db.batches) && n <= |db.tasks|
    ensures Rows(db, ids) && Sorted(db, ids)
    ensures forall t: nat :: t in ids <==> t < n && Claimable(db, t)
  {
    if n == 0 {
      ids := [];
    } else {
      ids := ClaimableUpTo(db, n - 1);
      if Claimable(db, n - 1) { ids := Insert(db, ids, n - 1); }
    }
  }

  lemma ClaimQueryExists(db: Db) returns (ids: seq<nat>)
    requires RowsOk(db.tasks, db.batches)
    ensures ClaimQuery(db, ids)
  {
    ids := ClaimableUpTo(db, |db.tasks|);
    forall k | 0 <= k < |ids| ensures ids[k] < |db.tasks| && Claimable(db, ids[k]) { assert ids[k] in ids; }
  }

  // --- Gluing runs together. ---

  lemma {:induction false} PassesAppend(cfg: Settings, s: Sys, a: seq<Step>, b: seq<Step>)
    requires cfg.defaultMaxTokens > 0
    ensures Passes(cfg, s, a + b) == Passes(cfg, s, a) + Passes(cfg, Run(cfg, s, a), b)
  {
    if b == [] {
      assert a + b == a;
    } else {
      var init := b[..|b| - 1];
      assert (a + b)[..|a + b| - 1] == a + init;
      PassesAppend(cfg, s, a, init);
      RunAppend(cfg, s, a, init);
    }
  }

  // With nothing but passes, responses and settlements the nodes stay as they are.
  lemma SteadyRun(cfg: Settings, s: Sys, steps: seq<Step>, slots: nat)
    requires cfg.defaultMaxTokens > 0 && DispatchOnly(steps) && Fleet(s.db.nodes, slots)
    ensures DrainOnly(steps) && Steady(cfg, s, steps, slots)
  {
    forall i | 0 <= i <= |steps| ensures Fleet(Run(cfg, s, steps[..i]).db.nodes, slots) {
      NodesKept(cfg, s, steps[..i]);
    }
    forall i | 0 <= i < |steps| ensures DrainKind(steps[i]) { assert DispatchKind(steps[i]); }
  }

  lemma {:induction false} NoPasses(cfg: Settings, s: Sys, steps: seq<Step>)
    requires cfg.defaultMaxTokens > 0
    requires forall i :: 0 <= i < |steps| ==> steps[i].Return? || steps[i].Settle?
    ensures Passes(cfg, s, steps) == 0 && DispatchOnly(steps)
  {
    if steps != [] {
      assert steps[|steps| - 1].Return? || steps[|steps| - 1].Settle?;
      NoPasses(cfg, s, steps[..|steps| - 1]);
    }
  }

  // One dispatch_once from start to end.
  lemma OnePass(cfg: Settings, s: Sys, slots: nat, outcome: Outcome, now: Time) returns (steps: seq<Step>)
    requires ValidSettings(cfg) && Inv(cfg, s) && PassOver(s.flights) && Fleet(s.db.nodes, slots)
    ensures DispatchOnly(steps) && PassOver(Run(cfg, s, steps).flights) && Passes(cfg, s, steps) == 1
  {
    var ids := ClaimQueryExists(s.db);
    var names :| HealthyQuery(s.db.nodes, names) && UsableSlots(s.db.nodes, names) == slots;
    var start := StartPass(ids, names, now);
    InvStep(cfg, s, start);
    var rest := PassFinishes(cfg, Apply(cfg, s, start), outcome, now);
    steps := [start] + rest;
    OneStep(cfg, s, start);
    RunAppend(cfg, s, [start], rest);
    PassesAppend(cfg, s, [start], rest);
    NoPasses(cfg, Apply(cfg, s, start), rest);
  }

  lemma {:induction false} OneStep(cfg: Settings, s: Sys, step: Step)
    requires cfg.defaultMaxTokens > 0
    ensures Run(cfg, s, [step]) == Apply(cfg, s, step)
    ensures Passes(cfg, s, [step]) == if IsPass(s, step) then 1 else 0
  {
    assert [step][..0] == [];
  }

  lemma {:induction false} ManyPasses(cfg: Settings, s: Sys, slots: nat, n: nat, outcome: Outcome, now: Time)
    returns (steps: seq<Step>)
    requires ValidSettings(cfg) && Inv(cfg, s) && PassOver(s.flights) && Fleet(s.db.nodes, slots)
    ensures DispatchOnly(steps) && PassOver(Run(cfg, s, steps).flights) && Passes(cfg, s, steps) == n
  {
    if n == 0 {
      steps := [];
    } else {
      var most := ManyPasses(cfg, s, slots, n - 1, outcome, now);
      RunsOn(cfg, s, most);
      NodesKept(cfg, s, most);
      var last := OnePass(cfg, Run(cfg, s, most), slots, outcome, now);
      RunAppend(cfg, s, most, last);
      PassesAppend(cfg, s, most, last);
      steps := most + last;
    }
  }

  // Reachable without a crash between the two commits of a settlement.
  ghost predicate ReachableIntact(cfg: Settings, s: Sys)
    requires cfg.defaultMaxTokens > 0
  {
    exists steps :: Run(cfg, START, steps) == s && NoTornSettlement(steps)
  }

  lemma IntactState(cfg: Settings, s: Sys)
    requires ValidSettings(cfg) && ReachableIntact(cfg, s)
    ensures Reachable(cfg, s) && Inv(cfg, s) && NoneDue(s.db)
  {
    var steps :| Run(cfg, START, steps) == s && NoTornSettlement(steps);
    RunInv(cfg, steps);
    NoneDueOnRuns(cfg, steps);
  }

  // From every state the service can be in between two passes, if no crash tore a settlement
  // apart and some healthy node has a slot, the dispatcher on its own reaches, in exactly P/C
  // passes rounded up, a state in which all the work is done.
  lemma QueueDrains(cfg: Settings, s: Sys, slots: nat, outcome: Outcome, now: Time) returns (s': Sys)
    requires ValidSettings(cfg) && slots > 0
    requires ReachableIntact(cfg, s) && PassOver(s.flights) && Fleet(s.db.nodes, slots)
    ensures DrainRun(cfg, s, slots, Ceiling(Pending(s.db.tasks), slots), s') && Reachable(cfg, s')
    ensures Drained(s.db, s'.db)
  {
    IntactState(cfg, s);
    var steps := ManyPasses(cfg, s, slots, Ceiling(Pending(s.db.tasks), slots), outcome, now);
    s' := Run(cfg, s, steps);
    SteadyRun(cfg, s, steps, slots);
    DrainBound(cfg, s, slots, Ceiling(Pending(s.db.tasks), slots), s');
    StillReachable(cfg, s, steps);
  }
}
