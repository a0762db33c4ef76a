// How many dispatch passes empty the queue.
module Drain {
  import opened Model
  import opened Sums
  import opened Ledger
  import opened Claiming
  import opened Placement
  import opened BatchOps
  import opened Dispatching
  import opened Engine
  import opened Structure
  import opened Flights
  import opened Invariants
  import opened LifecycleRuns

  // The dispatcher on its own: passes, responses and settlements.
  predicate DispatchKind(step: Step) { step.StartPass? || step.Return? || step.Settle? }

  predicate DispatchOnly(steps: seq<Step>) { forall i :: 0 <= i < |steps| ==> DispatchKind(steps[i]) }

  // Whatever else may go on while the queue drains: anything but a submission, a cancellation,
  // an expiry or a crash.
  predicate DrainKind(step: Step) {
    DispatchKind(step) || step.Grant? || step.Upload? || step.Purge? || step.Health?
  }

  predicate DrainOnly(steps: seq<Step>) { forall i :: 0 <= i < |steps| ==> DrainKind(steps[i]) }

  // The step is a dispatch_once pass.
  predicate IsPass(s: Sys, step: Step) {
    step.StartPass? && PassOver(s.flights) && ClaimQuery(s.db, step.ids) && HealthyQuery(s.db.nodes, step.names)
  }

  function Passes(cfg: Settings, s: Sys, steps: seq<Step>): nat
    requires cfg.defaultMaxTokens > 0
  {
    if steps == [] then 0
    else
      var n := |steps| - 1;
      Passes(cfg, s, steps[..n]) + if IsPass(Run(cfg, s, steps[..n]), steps[n]) then 1 else 0
  }

  function PendingSet(tasks: seq<Task>): set<nat> {
    set t: nat | t < |tasks| && tasks[t].status == PENDING
  }

  function Pending(tasks: seq<Task>): nat { |PendingSet(tasks)| }

  function SlotsOf(nodes: map<string, Node>): string -> int {
    (n: string) => if n in nodes then Max(0, nodes[n].slots) else 0
  }

  // The slots of the healthy nodes, given any enumeration of them.
  function UsableSlots(nodes: map<string, Node>, names: seq<string>): int { Sum(names, SlotsOf(nodes)) }

  // The healthy nodes have this many slots in all.
  ghost predicate Fleet(nodes: map<string, Node>, slots: nat) {
    exists names :: HealthyQuery(nodes, names) && UsableSlots(nodes, names) == slots
  }

  // Nodes may fall ill and recover along the run, but the healthy ones always have this many slots.
  ghost predicate Steady(cfg: Settings, s: Sys, steps: seq<Step>, slots: nat)
    requires cfg.defaultMaxTokens > 0
  {
    forall i :: 0 <= i <= |steps| ==> Fleet(Run(cfg, s, steps[..i]).db.nodes, slots)
  }

  // --- One pass. ---

  // The number of healthy slots does not depend on the order the node query answers in.
  lemma SlotsUnordered(nodes: map<string, Node>, a: seq<string>, b: seq<string>)
    requires HealthyQuery(nodes, a) && HealthyQuery(nodes, b)
    ensures UsableSlots(nodes, a) == UsableSlots(nodes, b)
  {
    DistinctMultiset(a);
    DistinctMultiset(b);
    assert Elements(a) == Elements(b);
    SumOfPermutation(a, b, SlotsOf(nodes));
  }

  lemma FleetSlots(nodes: map<string, Node>, names: seq<string>, slots: nat)
    requires HealthyQuery(nodes, names) && Fleet(nodes, slots)
    ensures UsableSlots(nodes, names) == slots
  {
    var others :| HealthyQuery(nodes, others) && UsableSlots(nodes, others) == slots;
    SlotsUnordered(nodes, names, others);
  }

  // Between passes every slot of a healthy node is free.
  lemma IdleCapacity(s: Sys, names: seq<string>)
    requires CountersOk(s) && PassOver(s.flights) && HealthyQuery(s.db.nodes, names)
    ensures TotalCapacity(FreeSlots(s.db.nodes, s.inFlight, names)) == UsableSlots(s.db.nodes, names)
  {
    var cap := FreeSlots(s.db.nodes, s.inFlight, names);
    forall k | 0 <= k < |names| ensures Positive()(cap[k]) == SlotsOf(s.db.nodes)(names[k]) {
      assert NodeOk(s, names[k]);
      IdleCounters(s, names[k]);
    }
    SumSame(cap, Positive(), names, SlotsOf(s.db.nodes));
  }

  // The claim query returns every pending task.
  lemma ClaimQueryIsPending(db: Db, ids: seq<nat>)
    requires RowsOk(db.tasks, db.batches) && StatusOk(db.tasks, db.batches) && ClaimQuery(db, ids)
    ensures |ids| == Pending(db.tasks)
  {
    forall t: nat ensures t in PendingSet(db.tasks) <==> t in ids {
      if t < |db.tasks| {
        var batch := db.batches[db.tasks[t].batch];
        assert Fits(db.tasks[t].status, batch.status) && BatchOk(batch);
      }
    }
    assert PendingSet(db.tasks) == Elements(ids);
    DistinctMultiset(ids);
  }

  function TaskIds(flights: seq<Flight>): (ids: seq<nat>)
    ensures |ids| == |flights|
    ensures forall k :: 0 <= k < |flights| ==> ids[k] == flights[k].task
  {
    seq(|flights|, k requires 0 <= k < |flights| => flights[k].task)
  }

  lemma {:induction false} StartedSet(tasks: seq<Task>, flights: seq<Flight>, now: Time)
    requires DistinctTasks(flights)
    requires forall k :: 0 <= k < |flights| ==> flights[k].task < |tasks| && tasks[flights[k].task].status == PENDING
    ensures PendingSet(MarkStarted(tasks, flights, now)) == PendingSet(tasks) - Elements(TaskIds(flights))
    ensures Elements(TaskIds(flights)) <= PendingSet(tasks)
  {
    var ids := TaskIds(flights);
    var tasks' := MarkStarted(tasks, flights, now);
    MarkStartedSpec(tasks, flights, now);
    forall t: nat ensures t in PendingSet(tasks') <==> t in PendingSet(tasks) && t !in ids {
      if t in ids {
        var k :| 0 <= k < |ids| && ids[k] == t;
        assert tasks'[flights[k].task].status == RUNNING;
      } else if t < |tasks| {
        forall k | 0 <= k < |flights| ensures flights[k].task != t { assert ids[k] in ids; }
      }
    }
    forall t | t in ids ensures t in PendingSet(tasks) {
      var k :| 0 <= k < |ids| && ids[k] == t;
    }
  }

  // Starting k distinct pending tasks leaves that many fewer.
  lemma {:induction false} StartedPending(tasks: seq<Task>, flights: seq<Flight>, now: Time)
    requires DistinctTasks(flights)
    requires forall k :: 0 <= k < |flights| ==> flights[k].task < |tasks| && tasks[flights[k].task].status == PENDING
    ensures Pending(MarkStarted(tasks, flights, now)) == Pending(tasks) - |flights|
  {
    StartedSet(tasks, flights, now);
    DistinctMultiset(TaskIds(flights));
    assert PendingSet(tasks) == PendingSet(MarkStarted(tasks, flights, now)) + Elements(TaskIds(flights));
  }

  // A pass starts as many tasks as there are healthy slots, or all that are pending.
  lemma PassPending(s: Sys, ids: seq<nat>, names: seq<string>, now: Time, slots: nat)
    requires TablesOk(s.db) && CountersOk(s) && PassOver(s.flights)
    requires ClaimQuery(s.db, ids) && HealthyQuery(s.db.nodes, names) && Fleet(s.db.nodes, slots)
    ensures Pending(PassStarted(s, ids, names, now).db.tasks) == Max(0, Pending(s.db.tasks) - slots)
  {
    var flights := Assignments(s.db, s.inFlight, ids, names);
    FleetSlots(s.db.nodes, names, slots);
    IdleCapacity(s, names);
    ClaimQueryIsPending(s.db, ids);
    AssignmentsSpec(s.db, s.inFlight, ids, names);
    if flights != [] { StartedPending(s.db.tasks, flights, now); }
  }

  lemma SettlePending(s: Sys, i: nat, outcome: Outcome, alpha: real, now: Time)
    requires CanSettle(s, i) && s.db.tasks[s.flights[i].task].status != PENDING
    ensures Pending(FlightSettled(s, i, outcome, alpha, now).db.tasks) == Pending(s.db.tasks)
  {
    var t := s.flights[i].task;
    var db1 := Settled(s.db, t, outcome, alpha, now);
    SettledTables(s.db, t, outcome, alpha, now);
    FinalizedTables(db1, s.db.tasks[t].batch, now);
    assert PendingSet(db1.tasks) == PendingSet(s.db.tasks);
  }

  lemma PendingStep(cfg: Settings, s: Sys, step: Step, slots: nat)
    requires ValidSettings(cfg) && Inv(cfg, s) && DrainKind(step) && Fleet(s.db.nodes, slots)
    ensures Pending(Apply(cfg, s, step).db.tasks) ==
            if IsPass(s, step) then Max(0, Pending(s.db.tasks) - slots) else Pending(s.db.tasks)
  {
    if IsPass(s, step) {
      PassPending(s, step.ids, step.names, step.now, slots);
    } else if step.Settle? && CanSettle(s, step.flight) {
      assert FlightOk(s.flights[step.flight], s.db.tasks);
      SettlePending(s, step.flight, step.outcome, cfg.alpha, step.now);
    }
  }

  // --- Whole runs of the dispatcher. ---

  // What n passes over the given slots leave of a queue.
  function LeftAfter(pending: nat, slots: nat, n: nat): nat {
    if n == 0 then pending else Max(0, LeftAfter(pending, slots, n - 1) - slots)
  }

  lemma {:induction false} LeftAfterIs(pending: nat, slots: nat, n: nat)
    ensures LeftAfter(pending, slots, n) == Max(0, pending - n * slots)
  {
    if n > 0 {
      LeftAfterIs(pending, slots, n - 1);
      assert n * slots == (n - 1) * slots + slots;
    }
  }

  function CountTrue(flags: seq<bool>): nat {
    if flags == [] then 0 else CountTrue(flags[..|flags| - 1]) + if flags[|flags| - 1] then 1 else 0
  }

  function QueueAfter(pending: nat, slots: nat, pass: bool): nat {
    if pass then Max(0, pending - slots) else pending
  }

  // A queue that loses a pass's worth wherever a pass is flagged.
  lemma {:induction false} FlaggedQueue(queue: seq<nat>, flags: seq<bool>, slots: nat)
    requires |queue| == |flags| + 1
    requires forall i :: 0 <= i < |flags| ==> queue[i + 1] == QueueAfter(queue[i], slots, flags[i])
    ensures queue[|flags|] == LeftAfter(queue[0], slots, CountTrue(flags))
  {
    if flags != [] {
      var n := |flags| - 1;
      FlaggedQueue(queue[..n + 1], flags[..n], slots);
      assert queue[n + 1] == QueueAfter(queue[n], slots, flags[n]);
    }
  }

  lemma {:induction false} NodesKept(cfg: Settings, s: Sys, steps: seq<Step>)
    requires cfg.defaultMaxTokens > 0 && DispatchOnly(steps)
    ensures Run(cfg, s, steps).db.nodes == s.db.nodes
  {
    if steps != [] {
      var n := |steps| - 1;
      NodesKept(cfg, s, steps[..n]);
      assert DispatchKind(steps[n]);
      NodesStep(cfg, Run(cfg, s, steps[..n]), steps[n]);
    }
  }

  lemma NodesStep(cfg: Settings, s: Sys, step: Step)
    requires cfg.defaultMaxTokens > 0 && DispatchKind(step)
    ensures Apply(cfg, s, step).db.nodes == s.db.nodes
  {
    if IsPass(s, step) {
      PassStartRows(s, step.ids, step.names, step.now);
    } else if step.Settle? && CanSettle(s, step.flight) {
      SettleNodes(s, step.flight, step.outcome, cfg.alpha, step.now);
    }
  }

  lemma SettleNodes(s: Sys, i: nat, outcome: Outcome, alpha: real, now: Time)
    requires CanSettle(s, i)
    ensures FlightSettled(s, i, outcome, alpha, now).db.nodes == s.db.nodes
  {
    var db1 := Settled(s.db, s.flights[i].task, outcome, alpha, now);
    SettledTables(s.db, s.flights[i].task, outcome, alpha, now);
    FinalizedTables(db1, s.db.tasks[s.flights[i].task].batch, now);
  }

  lemma {:induction false} RunAppend(cfg: Settings, s: Sys, a: seq<Step>, b: seq<Step>)
    requires cfg.defaultMaxTokens > 0
    ensures Run(cfg, s, a + b) == Run(cfg, Run(cfg, s, a), b)
  {
    if b == [] {
      assert a + b == a;
    } else {
      assert (a + b)[..|a + b| - 1] == a + b[..|b| - 1];
      RunAppend(cfg, s, a, b[..|b| - 1]);
    }
  }

  lemma {:induction false} StillReachable(cfg: Settings, s: Sys, steps: seq<Step>)
    requires cfg.defaultMaxTokens > 0 && Reachable(cfg, s)
    ensures Reachable(cfg, Run(cfg, s, steps))
  {
    var history :| Run(cfg, START, history) == s;
    RunAppend(cfg, START, history, steps);
    assert Run(cfg, START, history + steps) == Run(cfg, s, steps);
  }

  // Which steps of the run are passes, and how long the queue is before each step and at the end.
  function PassFlags(cfg: Settings, s: Sys, steps: seq<Step>): (flags: seq<bool>)
    requires cfg.defaultMaxTokens > 0
    ensures |flags| == |steps|
    ensures forall i :: 0 <= i < |steps| ==> flags[i] == IsPass(Run(cfg, s, steps[..i]), steps[i])
  {
    seq(|steps|, i requires 0 <= i < |steps| => IsPass(Run(cfg, s, steps[..i]), steps[i]))
  }

  function QueueLengths(cfg: Settings, s: Sys, steps: seq<Step>): (queue: seq<nat>)
    requires cfg.defaultMaxTokens > 0
    ensures |queue| == |steps| + 1
    ensures forall i :: 0 <= i <= |steps| ==> queue[i] == Pending(Run(cfg, s, steps[..i]).db.tasks)
  {
    seq(|steps| + 1, i requires 0 <= i <= |steps| => Pending(Run(cfg, s, steps[..i]).db.tasks))
  }

  lemma {:induction false} PassesFlagged(cfg: Settings, s: Sys, steps: seq<Step>)
    requires cfg.defaultMaxTokens > 0
    ensures Passes(cfg, s, steps) == CountTrue(PassFlags(cfg, s, steps))
  {
    if steps != [] {
      var n := |steps| - 1;
      PassesFlagged(cfg, s, steps[..n]);
      forall i | 0 <= i < n ensures steps[..n][..i] == steps[..i] {}
      assert PassFlags(cfg, s, steps)[..n] == PassFlags(cfg, s, steps[..n]);
    }
  }

  lemma {:induction false} RunNext(cfg: Settings, s: Sys, steps: seq<Step>, i: nat)
    requires cfg.defaultMaxTokens > 0 && i < |steps|
    ensures Run(cfg, s, steps[..i + 1]) == Apply(cfg, Run(cfg, s, steps[..i]), steps[i])
  {
    assert steps[..i + 1][..i] == steps[..i];
  }

  // What one step does to the queue, on given healthy slots.
  lemma QueueStep(cfg: Settings, before: Sys, step: Step, slots: nat)
    requires ValidSettings(cfg) && Reachable(cfg, before) && DrainKind(step) && Fleet(before.db.nodes, slots)
    ensures Pending(Apply(cfg, before, step).db.tasks) == QueueAfter(Pending(before.db.tasks), slots, IsPass(before, step))
  {
    ReachableInv(cfg, before);
    PendingStep(cfg, before, step, slots);
  }

  lemma QueueStepAt(cfg: Settings, s: Sys, steps: seq<Step>, slots: nat, i: nat)
    requires ValidSettings(cfg) && Reachable(cfg, s) && DrainOnly(steps) && Steady(cfg, s, steps, slots) && i < |steps|
    ensures QueueLengths(cfg, s, steps)[i + 1] ==
            QueueAfter(QueueLengths(cfg, s, steps)[i], slots, PassFlags(cfg, s, steps)[i])
  {
    StillReachable(cfg, s, steps[..i]);
    assert Fleet(Run(cfg, s, steps[..i]).db.nodes, slots) && DrainKind(steps[i]);
    QueueStep(cfg, Run(cfg, s, steps[..i]), steps[i], slots);
    RunNext(cfg, s, steps, i);
  }

  // After n passes over C healthy slots, C of the pending tasks are gone per pass, until none is left.
  lemma {:induction false} PendingAfterPasses(cfg: Settings, s: Sys, steps: seq<Step>, slots: nat)
    requires ValidSettings(cfg) && Reachable(cfg, s) && DrainOnly(steps) && Steady(cfg, s, steps, slots)
    ensures Pending(Run(cfg, s, steps).db.tasks) == LeftAfter(Pending(s.db.tasks), slots, Passes(cfg, s, steps))
  {
    var queue, flags := QueueLengths(cfg, s, steps), PassFlags(cfg, s, steps);
    forall i | 0 <= i < |steps| ensures queue[i + 1] == QueueAfter(queue[i], slots, flags[i]) {
      QueueStepAt(cfg, s, steps, slots, i);
    }
    FlaggedQueue(queue, flags, slots);
    PassesFlagged(cfg, s, steps);
    assert steps[..|steps|] == steps && steps[..0] == [];
  }

  // What such runs do to tasks and batches: nothing new becomes pending,
  // nothing is cancelled, and an in-progress batch can only be completed.
  ghost predicate Onward(db: Db, db': Db) {
    && |db'.tasks| == |db.tasks|
    && (forall t :: 0 <= t < |db.tasks| ==>
                      && (db'.tasks[t].status == PENDING ==> db.tasks[t].status == PENDING)
                      && (db'.tasks[t].status == CANCELLED ==> db.tasks[t].status == CANCELLED))
    && |db'.batches| == |db.batches|
    && (forall b :: 0 <= b < |db.batches| ==>
                      db'.batches[b].status == db.batches[b].status
                      || (db.batches[b].status == IN_PROGRESS && db'.batches[b].status == BATCH_COMPLETED))
  }

  lemma OnwardTransitive(a: Db, b: Db, c: Db)
    requires Onward(a, b) && Onward(b, c)
    ensures Onward(a, c)
  {
    forall i | 0 <= i < |a.batches|
      ensures c.batches[i].status == a.batches[i].status
              || (a.batches[i].status == IN_PROGRESS && c.batches[i].status == BATCH_COMPLETED)
    {
      assert b.batches[i].status == a.batches[i].status || b.batches[i].status == BATCH_COMPLETED;
    }
  }

  lemma SettleOnward(s: Sys, i: nat, outcome: Outcome, alpha: real, now: Time)
    requires CanSettle(s, i)
    ensures Onward(s.db, FlightSettled(s, i, outcome, alpha, now).db)
  {
    var t := s.flights[i].task;
    var db1 := Settled(s.db, t, outcome, alpha, now);
    SettledTables(s.db, t, outcome, alpha, now);
    FinalizedTables(db1, s.db.tasks[t].batch, now);
  }

  lemma OnwardStep(cfg: Settings, s: Sys, step: Step)
    requires cfg.defaultMaxTokens > 0 && DrainKind(step)
    ensures Onward(s.db, Apply(cfg, s, step).db)
  {
    if IsPass(s, step) {
      PassStartRows(s, step.ids, step.names, step.now);
      var db' := Apply(cfg, s, step).db;
      forall t | 0 <= t < |db'.tasks| ensures StartedOrSame(s.db.tasks[t], db'.tasks[t]) {}
    } else if step.Settle? && CanSettle(s, step.flight) {
      SettleOnward(s, step.flight, step.outcome, cfg.alpha, step.now);
    } else if QuietKind(step) || step.Grant? {
      QuietBatches(cfg, s, step);
    }
  }

  lemma {:induction false} OnwardOnRuns(cfg: Settings, s: Sys, steps: seq<Step>)
    requires ValidSettings(cfg) && DrainOnly(steps)
    ensures Onward(s.db, Run(cfg, s, steps).db)
    ensures NoneDue(s.db) ==> NoneDue(Run(cfg, s, steps).db)
  {
    if steps != [] {
      var n := |steps| - 1;
      var before := Run(cfg, s, steps[..n]);
      OnwardOnRuns(cfg, s, steps[..n]);
      assert DrainKind(steps[n]);
      OnwardStep(cfg, before, steps[n]);
      OnwardTransitive(s.db, before.db, Apply(cfg, before, steps[n]).db);
      if NoneDue(s.db) { NoneDueStep(cfg, before, steps[n]); }
    }
  }

  // Everything that was live has settled, every batch that was in progress is completed, and
  // no batch or task came or went.
  ghost predicate Drained(db: Db, db': Db) {
    && Onward(db, db')
    && (forall t :: 0 <= t < |db.tasks| && db.tasks[t].Live() ==> db'.tasks[t].Settled())
    && (forall b :: 0 <= b < |db.batches| && db.batches[b].status == IN_PROGRESS ==>
                      db'.batches[b].status == BATCH_COMPLETED)
  }

  // With nothing pending, nothing in flight and no finalization outstanding, the work is done.
  lemma QueueEmpty(db: Db, end: Sys)
    requires TablesOk(db) && TablesOk(end.db) && FlightsOk(end) && PassOver(end.flights)
    requires Onward(db, end.db) && NoneDue(end.db) && Pending(end.db.tasks) == 0
    ensures Drained(db, end.db)
  {
    NothingRunning(end);
    forall t: nat | t < |end.db.tasks| ensures !end.db.tasks[t].Live() { assert t !in PendingSet(end.db.tasks); }
    forall b | 0 <= b < |db.batches| && db.batches[b].status == IN_PROGRESS
      ensures end.db.batches[b].status == BATCH_COMPLETED
    {
      assert BatchCounts(end.db.tasks, b, end.db.batches[b]) && !FinalizeDue(end.db, b);
      CounterTestIsExact(end.db.tasks, b, end.db.batches[b]);
      forall t | 0 <= t < |end.db.tasks| && end.db.tasks[t].batch == b
        ensures Fits(end.db.tasks[t].status, end.db.batches[b].status) {}
    }
  }

  function Ceiling(a: nat, b: nat): nat
    requires b > 0
  {
    (a + b - 1) / b
  }

  lemma TimesMonotone(x: int, y: int, b: nat)
    requires x <= y
    ensures x * b <= y * b
  {
  }

  lemma CeilingTimes(a: nat, b: nat)
    requires b > 0
    ensures a <= Ceiling(a, b) * b < a + b
  {
    var x := a + b - 1;
    assert x == (x / b) * b + x % b;
  }

  lemma {:induction false} CeilingIs(a: nat, b: nat, n: nat)
    requires b > 0
    ensures LeftAfter(a, b, n) == 0 <==> n >= Ceiling(a, b)
  {
    var q := Ceiling(a, b);
    LeftAfterIs(a, b, n);
    CeilingTimes(a, b);
    if n >= q {
      TimesMonotone(q, n, b);
    } else {
      TimesMonotone(n, q - 1, b);
      assert (q - 1) * b == q * b - b;
    }
  }

  // Some such run, with this many healthy slots throughout, leads from s to s' in n passes.
  ghost predicate DrainRun(cfg: Settings, s: Sys, slots: nat, n: nat, s': Sys)
    requires cfg.defaultMaxTokens > 0
  {
    exists steps ::
      && Run(cfg, s, steps) == s' && Passes(cfg, s, steps) == n
      && DrainOnly(steps) && Steady(cfg, s, steps, slots)
  }

  // The drain bound.  Without submissions, cancellations, expiries and crashes, C > 0 healthy
  // slots have emptied a queue of P tasks after n passes if and only if n is at least P/C,
  // rounded up; and then everything has settled and every batch in progress is completed.
  lemma DrainBound(cfg: Settings, s: Sys, slots: nat, n: nat, s': Sys)
    requires ValidSettings(cfg) && Reachable(cfg, s) && PassOver(s.flights) && NoneDue(s.db)
    requires slots > 0 && DrainRun(cfg, s, slots, n, s') && PassOver(s'.flights)
    ensures Pending(s'.db.tasks) == 0 <==> n >= Ceiling(Pending(s.db.tasks), slots)
    ensures n >= Ceiling(Pending(s.db.tasks), slots) ==> Drained(s.db, s'.db)
  {
    var steps :| Run(cfg, s, steps) == s' && Passes(cfg, s, steps) == n && DrainOnly(steps) && Steady(cfg, s, steps, slots);
    ReachableInv(cfg, s);
    PendingAfterPasses(cfg, s, steps, slots);
    CeilingIs(Pending(s.db.tasks), slots, n);
    OnwardOnRuns(cfg, s, steps);
    RunsOn(cfg, s, steps);
    if Pending(s'.db.tasks) == 0 { QueueEmpty(s.db, s'); }
  }

  // --- A pass that has begun can always be finished. ---

  function Work(): Flight -> int { (f: Flight) => match f.phase case EXECUTING => 2 case RETURNED => 1 case DONE => 0 }

  lemma {:induction false} RunPrepend(cfg: Settings, s: Sys, step: Step, rest: seq<Step>)
    requires cfg.defaultMaxTokens > 0
    ensures Run(cfg, s, [step] + rest) == Run(cfg, Apply(cfg, s, step), rest)
  {
    RunAppend(cfg, s, [step], rest);
    assert [step][..0] == [];
  }

  lemma LessWork(flights: seq<Flight>, i: nat, phase: Phase)
    requires i < |flights| && (flights[i].phase == EXECUTING || (flights[i].phase == RETURNED && phase == DONE))
    requires phase != EXECUTING
    ensures 0 <= Sum(flights[i := flights[i].(phase := phase)], Work()) < Sum(flights, Work())
  {
    var flights' := flights[i := flights[i].(phase := phase)];
    SumUpdate(flights, i, flights'[i], Work());
    SumNonNegative(flights', Work());
  }

  // The step that takes flight i one phase further.
  function Advance(s: Sys, i: nat, outcome: Outcome, now: Time): Step
    requires i < |s.flights|
  {
    if s.flights[i].phase == EXECUTING then Return(i) else Settle(i, outcome, now)
  }

  lemma AdvanceFlight(cfg: Settings, s: Sys, i: nat, outcome: Outcome, now: Time)
    requires cfg.defaultMaxTokens > 0 && i < |s.flights| && s.flights[i].phase != DONE
    requires FlightOk(s.flights[i], s.db.tasks) && RowsOk(s.db.tasks, s.db.batches)
    ensures Apply(cfg, s, Advance(s, i, outcome, now)).flights ==
            s.flights[i := s.flights[i].(phase := if s.flights[i].phase == EXECUTING then RETURNED else DONE)]
  {
  }

  lemma NextStep(cfg: Settings, s: Sys, outcome: Outcome, now: Time) returns (step: Step)
    requires ValidSettings(cfg) && Inv(cfg, s) && !PassOver(s.flights)
    ensures step.Return? || step.Settle?
    ensures 0 <= Sum(Apply(cfg, s, step).flights, Work()) < Sum(s.flights, Work())
  {
    var i :| 0 <= i < |s.flights| && s.flights[i].phase != DONE;
    step := Advance(s, i, outcome, now);
    AdvanceFlight(cfg, s, i, outcome, now);
    LessWork(s.flights, i, if s.flights[i].phase == EXECUTING then RETURNED else DONE);
  }

  // Whatever the responses, from every reachable state the pass under way can be completed
  // by responses and settlements alone.
  lemma {:induction false} PassFinishes(cfg: Settings, s: Sys, outcome: Outcome, now: Time) returns (steps: seq<Step>)
    requires ValidSettings(cfg) && Inv(cfg, s)
    ensures forall i :: 0 <= i < |steps| ==> steps[i].Return? || steps[i].Settle?
    ensures PassOver(Run(cfg, s, steps).flights)
    decreases Sum(s.flights, Work())
  {
    if PassOver(s.flights) {
      steps := [];
    } else {
      var step := NextStep(cfg, s, outcome, now);
      InvStep(cfg, s, step);
      var rest := PassFinishes(cfg, Apply(cfg, s, step), outcome, now);
      RunPrepend(cfg, s, step, rest);
      steps := [step] + rest;
    }
  }
}
