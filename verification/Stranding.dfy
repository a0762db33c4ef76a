// What a crash between the two commits of a settlement leaves behind, over whole runs.
module Stranding {
  import opened Model
  import opened Ledger
  import opened BatchOps
  import opened Retention
  import opened Dispatching
  import opened Engine
  import opened Structure
  import opened Flights
  import opened Invariants
  import opened LifecycleRuns
  import opened BudgetRuns
  import opened Scenario

  // A crash between the two commits strands the batch if and only if this was its last open task.
  lemma CrashStrands(cfg: Settings, s: Sys, i: nat, outcome: Outcome, now: Time, config: map<string, int>)
    requires ValidSettings(cfg) && Reachable(cfg, s) && CanSettle(s, i)
    ensures var t := s.flights[i].task;
            var b := s.db.tasks[t].batch;
            var db' := Apply(cfg, s, SettleThenCrash(i, outcome, now, config)).db;
            && b < |db'.batches|
            && (FinalizeDue(db', b) <==>
                s.db.batches[b].status == IN_PROGRESS
                && forall r :: 0 <= r < |s.db.tasks| && s.db.tasks[r].batch == b && r != t ==> s.db.tasks[r].Settled())
  {
    ReachableInv(cfg, s);
    assert FlightOk(s.flights[i], s.db.tasks);
    FirstCommitMakesDue(s.db, s.flights[i].task, outcome, cfg.alpha, now);
    SettledTables(s.db, s.flights[i].task, outcome, cfg.alpha, now);
  }

  // One request, and its answer just in.
  lemma Answered(cfg: Settings) returns (s: Sys)
    requires cfg.defaultMaxTokens > 0
    ensures Reachable(cfg, s)
    ensures At(s, Budget(7, 7, 0), [OneRequestBatch()], [RUNNING0], [Flight(0, "a", RETURNED)], 0)
  {
    var steps := Sent(cfg);
    steps := ThenReturn(cfg, steps, Budget(7, 7, 0), [OneRequestBatch()], [RUNNING0], 0);
    s := Run(cfg, START, steps);
  }

  lemma StepReachable(cfg: Settings, s: Sys, step: Step)
    requires cfg.defaultMaxTokens > 0 && Reachable(cfg, s)
    ensures Reachable(cfg, Apply(cfg, s, step))
  {
    var steps :| Run(cfg, START, steps) == s;
    assert (steps + [step])[..|steps|] == steps;
    assert Run(cfg, START, steps + [step]) == Apply(cfg, s, step);
  }

  // It does happen: a crash at the wrong moment of that settlement.
  lemma TornSettlementStrands(cfg: Settings) returns (s: Sys)
    requires cfg.defaultMaxTokens > 0
    ensures Reachable(cfg, s)
    ensures |s.db.batches| == 1 && FinalizeDue(s.db, 0)
    ensures |s.db.tasks| == 1 && s.db.tasks[0].status == COMPLETED
    ensures PassOver(s.flights)
  {
    var before := Answered(cfg);
    var torn := SettleThenCrash(0, ANSWER, 0, map["a" := 1]);
    s := Apply(cfg, before, torn);
    TornState(cfg, before, torn);
    StepReachable(cfg, before, torn);
  }

  lemma TornState(cfg: Settings, s: Sys, torn: Step)
    requires cfg.defaultMaxTokens > 0
    requires At(s, Budget(7, 7, 0), [OneRequestBatch()], [RUNNING0], [Flight(0, "a", RETURNED)], 0)
    requires torn == SettleThenCrash(0, ANSWER, 0, map["a" := 1])
    ensures var s' := Apply(cfg, s, torn);
            && |s'.db.batches| == 1 && FinalizeDue(s'.db, 0)
            && |s'.db.tasks| == 1 && s'.db.tasks[0].status == COMPLETED && s'.flights == []
  {
    SettledTables(s.db, 0, ANSWER, cfg.alpha, 0);
  }

  // --- From then on. ---

  // No step of the run cancels or expires batch b.
  predicate NeverEnds(cfg: Settings, s: Sys, steps: seq<Step>, b: nat)
    requires cfg.defaultMaxTokens > 0
  {
    steps == [] ||
    (var n := |steps| - 1;
     NeverEnds(cfg, s, steps[..n], b) && !Ends(Run(cfg, s, steps[..n]), steps[n], b))
  }

  // As long as nobody cancels or expires a stranded batch, its row never changes again:
  // recovery, further passes, settlements of other batches and purges all leave it as it is.
  lemma {:induction false} StrandedForever(cfg: Settings, s: Sys, steps: seq<Step>, b: nat)
    requires ValidSettings(cfg) && Inv(cfg, s)
    requires b < |s.db.batches| && FinalizeDue(s.db, b) && NeverEnds(cfg, s, steps, b)
    ensures b < |Run(cfg, s, steps).db.batches|
    ensures Run(cfg, s, steps).db.batches[b] == s.db.batches[b]
  {
    if steps != [] {
      var n := |steps| - 1;
      var before := Run(cfg, s, steps[..n]);
      StrandedForever(cfg, s, steps[..n], b);
      RunsOn(cfg, s, steps[..n]);
      StrandedStep(cfg, before, steps[n], b);
    }
  }

  // Untouched, or ended by cancellation or expiry.
  predicate StrandedOrEnded(batch: Batch, batch': Batch) {
    batch' == batch || batch'.status == BATCH_CANCELLED || batch'.status == EXPIRED
  }

  lemma EndsRow(cfg: Settings, s: Sys, step: Step, b: nat)
    requires cfg.defaultMaxTokens > 0 && b < |s.db.batches| && s.db.batches[b].status == IN_PROGRESS && Ends(s, step, b)
    ensures b < |Apply(cfg, s, step).db.batches|
    ensures Apply(cfg, s, step).db.batches[b].status == BATCH_CANCELLED || Apply(cfg, s, step).db.batches[b].status == EXPIRED
  {
    TerminatedTables(s.db, b, if step.Cancel? then BATCH_CANCELLED else EXPIRED, step.now);
  }

  lemma StrandedOrEndedStep(cfg: Settings, s: Sys, step: Step, b: nat, batch: Batch)
    requires ValidSettings(cfg) && Inv(cfg, s) && b < |s.db.batches|
    requires AllIn(batch) && StrandedOrEnded(batch, s.db.batches[b])
    ensures b < |Apply(cfg, s, step).db.batches| && StrandedOrEnded(batch, Apply(cfg, s, step).db.batches[b])
  {
    if s.db.batches[b] != batch {
      LaterStep(cfg, s, step);
      assert SameEnd(s.db.batches[b], Apply(cfg, s, step).db.batches[b]);
    } else if Ends(s, step, b) {
      EndsRow(cfg, s, step, b);
    } else {
      StrandedStep(cfg, s, step, b);
    }
  }

  // However the run goes on, a stranded batch never gets a result file: it stays as it is until
  // it is cancelled or expires, and then it has none, although all its requests have settled.
  lemma {:induction false} StrandedWithoutFiles(cfg: Settings, s: Sys, steps: seq<Step>, b: nat)
    requires ValidSettings(cfg) && Inv(cfg, s) && b < |s.db.batches| && FinalizeDue(s.db, b)
    ensures b < |Run(cfg, s, steps).db.batches|
    ensures StrandedOrEnded(s.db.batches[b], Run(cfg, s, steps).db.batches[b])
    ensures Run(cfg, s, steps).db.batches[b].outputFile.None? && Run(cfg, s, steps).db.batches[b].errorFile.None?
  {
    if steps != [] {
      var n := |steps| - 1;
      StrandedWithoutFiles(cfg, s, steps[..n], b);
      RunsOn(cfg, s, steps[..n]);
      StrandedOrEndedStep(cfg, Run(cfg, s, steps[..n]), steps[n], b, s.db.batches[b]);
    }
    RunsOn(cfg, s, steps);
    NoFiles(Run(cfg, s, steps).db, b);
  }

  lemma NoFiles(db: Db, b: nat)
    requires StatusOk(db.tasks, db.batches) && b < |db.batches| && db.batches[b].status != BATCH_COMPLETED
    ensures db.batches[b].outputFile.None? && db.batches[b].errorFile.None?
  {
    assert BatchOk(db.batches[b]);
  }
}
