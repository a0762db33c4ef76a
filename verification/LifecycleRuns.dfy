// Tasks, batches and result files over whole runs of the service.
module LifecycleRuns {
  import opened Model
  import opened Sums
  import opened Ledger
  import opened Parsing
  import opened BatchOps
  import opened Retention
  import opened Dispatching
  import opened Engine
  import opened Structure
  import opened Flights
  import opened Audit
  import opened Files
  import opened Invariants

  // --- What no step undoes. ---

  // The batch's status and the timestamps that go with it.
  ghost predicate SameEnd(batch: Batch, batch': Batch) {
    && batch'.status == batch.status && batch'.user == batch.user
    && batch'.completedAt == batch.completedAt && batch'.cancelledAt == batch.cancelledAt
    && batch'.expiredAt == batch.expiredAt && batch'.finalizingAt == batch.finalizingAt
    && (batch.purgedAt.Some? ==> batch'.purgedAt == batch.purgedAt)
  }

  // Settled rows are final, terminal batches stay as they ended, ledger entries stay.
  ghost predicate Later(db: Db, db': Db) {
    && |db.tasks| <= |db'.tasks|
    && (forall t :: 0 <= t < |db.tasks| && db.tasks[t].Settled() ==> db'.tasks[t] == db.tasks[t])
    && |db.batches| <= |db'.batches|
    && (forall b :: 0 <= b < |db.batches| && db.batches[b].status != IN_PROGRESS ==> SameEnd(db.batches[b], db'.batches[b]))
    && db.ledger <= db'.ledger
  }

  lemma LaterTransitive(a: Db, b: Db, c: Db)
    requires Later(a, b) && Later(b, c)
    ensures Later(a, c)
  {
    forall i | 0 <= i < |a.batches| && a.batches[i].status != IN_PROGRESS ensures SameEnd(a.batches[i], c.batches[i]) {
      assert SameEnd(a.batches[i], b.batches[i]) && SameEnd(b.batches[i], c.batches[i]);
    }
  }

  lemma SettledLater(db: Db, t: nat, outcome: Outcome, alpha: real, now: Time)
    requires t < |db.tasks| && RowsOk(db.tasks, db.batches) && !db.tasks[t].Settled()
    ensures Later(db, Settled(db, t, outcome, alpha, now))
  {
    SettledTables(db, t, outcome, alpha, now);
    SettledEntry(db, t, outcome, alpha, now);
  }

  lemma FinalizedLater(db: Db, b: nat, now: Time)
    requires b < |db.batches|
    ensures Later(db, Finalized(db, b, now))
  {
    FinalizedTables(db, b, now);
  }

  lemma TerminatedLater(db: Db, b: nat, status: BatchStatus, now: Time)
    requires b < |db.batches| && StatusOk(db.tasks, db.batches) && Cancellable(db.batches[b].status)
    ensures Later(db, Terminated(db, b, status, now))
  {
    TerminatedTables(db, b, status, now);
    StopIsQuiet(db.tasks, b, now);
    assert BatchOk(db.batches[b]);
  }

  lemma SubmittedLater(db: Db, cfg: Settings, u: UserId, f: nat, window: string, now: Time)
    requires cfg.defaultMaxTokens > 0
    ensures Later(db, Submitted(db, cfg, u, f, window, now))
  {
    if SubmittableFile(db, u, f) && window == "24h" {
      match Parse(db.files[f].value.content.raw, cfg.defaultMaxTokens)
      case Parsed(lines) => CreatedTables(db, u, f, window, lines, now);
      case NoLines =>
      case Rejected(_) =>
    }
  }

  lemma SettleLater(s: Sys, i: nat, outcome: Outcome, alpha: real, now: Time)
    requires CanSettle(s, i) && RowsOk(s.db.tasks, s.db.batches) && !s.db.tasks[s.flights[i].task].Settled()
    ensures Later(s.db, FlightSettled(s, i, outcome, alpha, now).db)
  {
    var t := s.flights[i].task;
    var db1 := Settled(s.db, t, outcome, alpha, now);
    SettledLater(s.db, t, outcome, alpha, now);
    SettledTables(s.db, t, outcome, alpha, now);
    FinalizedLater(db1, s.db.tasks[t].batch, now);
    LaterTransitive(s.db, db1, Finalized(db1, s.db.tasks[t].batch, now));
  }

  lemma RestartLater(s: Sys, config: map<string, int>)
    ensures Later(s.db, Restarted(s, config).db)
  {
  }

  lemma PassStartLater(s: Sys, ids: seq<nat>, names: seq<string>, now: Time)
    requires ClaimQuery(s.db, ids) && HealthyQuery(s.db.nodes, names)
    ensures Later(s.db, PassStarted(s, ids, names, now).db)
  {
    PassStartRows(s, ids, names, now);
    var db' := PassStarted(s, ids, names, now).db;
    forall t | 0 <= t < |s.db.tasks| && s.db.tasks[t].Settled() ensures db'.tasks[t] == s.db.tasks[t] {
      assert StartedOrSame(s.db.tasks[t], db'.tasks[t]);
    }
  }

  lemma QuietLater(cfg: Settings, s: Sys, step: Step)
    requires cfg.defaultMaxTokens > 0 && QuietKind(step)
    ensures Later(s.db, Apply(cfg, s, step).db)
  {
    if step.StartPass? && PassOver(s.flights) && ClaimQuery(s.db, step.ids) && HealthyQuery(s.db.nodes, step.names) {
      PassStartLater(s, step.ids, step.names, step.now);
    }
  }

  lemma LaterStep(cfg: Settings, s: Sys, step: Step)
    requires ValidSettings(cfg) && Inv(cfg, s)
    ensures Later(s.db, Apply(cfg, s, step).db)
  {
    if QuietKind(step) {
      QuietLater(cfg, s, step);
    } else {
      match step
      case Grant(u, tokens) => GrantLater(s.db, u, tokens);
      case Submit(u, f, window, now) => SubmittedLater(s.db, cfg, u, f, window, now);
      case Settle(i, outcome, now) => if CanSettle(s, i) { SettleStepLater(cfg, s, i, outcome, now); }
      case SettleThenCrash(i, outcome, now, config) =>
        if CanSettle(s, i) { CrashStepLater(cfg, s, i, outcome, now, config); }
      case Cancel(u, b, now) => EndingLater(cfg, s, step);
      case Expire(b, now) => EndingLater(cfg, s, step);
    }
  }

  lemma GrantLater(db: Db, u: UserId, tokens: int)
    ensures Later(db, Perform(db, GrantOp(u, tokens)))
  {
  }

  lemma EndingLater(cfg: Settings, s: Sys, step: Step)
    requires cfg.defaultMaxTokens > 0 && StatusOk(s.db.tasks, s.db.batches)
    requires step.Cancel? || step.Expire?
    ensures Later(s.db, Apply(cfg, s, step).db)
  {
    if step.Cancel? {
      if OwnedBy(s.db.batches, step.batch, step.user) && Cancellable(s.db.batches[step.batch].status) {
        TerminatedLater(s.db, step.batch, BATCH_CANCELLED, step.now);
      }
    } else if step.batch < |s.db.batches| && Overdue(s.db.batches[step.batch], step.now) {
      TerminatedLater(s.db, step.batch, EXPIRED, step.now);
    }
  }

  lemma SettleStepLater(cfg: Settings, s: Sys, i: nat, outcome: Outcome, now: Time)
    requires Inv(cfg, s) && CanSettle(s, i)
    ensures Later(s.db, FlightSettled(s, i, outcome, cfg.alpha, now).db)
  {
    assert FlightOk(s.flights[i], s.db.tasks);
    SettleLater(s, i, outcome, cfg.alpha, now);
  }

  lemma CrashStepLater(cfg: Settings, s: Sys, i: nat, outcome: Outcome, now: Time, config: map<string, int>)
    requires Inv(cfg, s) && CanSettle(s, i)
    ensures Later(s.db, Restarted(s.(db := Settled(s.db, s.flights[i].task, outcome, cfg.alpha, now)), config).db)
  {
    assert FlightOk(s.flights[i], s.db.tasks);
    CrashLater(s, i, outcome, cfg.alpha, now, config);
  }

  lemma CrashLater(s: Sys, i: nat, outcome: Outcome, alpha: real, now: Time, config: map<string, int>)
    requires CanSettle(s, i) && RowsOk(s.db.tasks, s.db.batches) && !s.db.tasks[s.flights[i].task].Settled()
    ensures Later(s.db, Restarted(s.(db := Settled(s.db, s.flights[i].task, outcome, alpha, now)), config).db)
  {
    var db1 := Settled(s.db, s.flights[i].task, outcome, alpha, now);
    SettledLater(s.db, s.flights[i].task, outcome, alpha, now);
    RestartLater(s.(db := db1), config);
    LaterTransitive(s.db, db1, Restarted(s.(db := db1), config).db);
  }

  // However a run goes on, settled tasks, terminal batches and ledger entries are final.
  lemma {:induction false} EndsAreFinal(cfg: Settings, steps: seq<Step>, more: seq<Step>)
    requires ValidSettings(cfg)
    ensures Later(Run(cfg, START, steps).db, Run(cfg, START, steps + more).db)
  {
    if more == [] {
      assert steps + more == steps;
    } else {
      var n := |more| - 1;
      var before := steps + more[..n];
      assert (steps + more)[..|steps + more| - 1] == before;
      EndsAreFinal(cfg, steps, more[..n]);
      RunInv(cfg, before);
      LaterStep(cfg, Run(cfg, START, before), more[n]);
      LaterTransitive(Run(cfg, START, steps).db, Run(cfg, START, before).db, Run(cfg, START, steps + more).db);
    }
  }

  // --- What every reachable state looks like. ---

  // A settled task has exactly one ledger entry carrying its id and any other task none, no
  // matter how often it was claimed, lost in a crash and claimed again; whatever is being
  // executed is RUNNING or was cancelled, never settled.
  lemma SettledAtMostOnce(cfg: Settings, s: Sys, t: nat)
    requires ValidSettings(cfg) && Reachable(cfg, s) && t < |s.db.tasks|
    ensures Sum(s.db.ledger, ForTask(t)) == if s.db.tasks[t].Settled() then 1 else 0
    ensures InTheAir(s.flights, t) ==> s.db.tasks[t].status == RUNNING || s.db.tasks[t].status == CANCELLED
    ensures s.db.tasks[t].status == RUNNING ==> InTheAir(s.flights, t)
  {
    ReachableInv(cfg, s);
    assert TaskAudited(s.db.ledger, s.db.tasks, t);
    if InTheAir(s.flights, t) {
      var i :| 0 <= i < |s.flights| && s.flights[i].task == t && s.flights[i].phase != DONE;
      assert FlightOk(s.flights[i], s.db.tasks);
    }
  }

  // A terminal batch has no pending or running task left, and carries exactly the timestamp
  // the purge looks up for its status; no batch ever shows one of the four unused statuses.
  lemma TerminalBatches(cfg: Settings, s: Sys, b: nat)
    requires ValidSettings(cfg) && Reachable(cfg, s) && b < |s.db.batches|
    ensures var batch := s.db.batches[b];
            && (batch.status == IN_PROGRESS || TerminalStatus(batch.status))
            && batch.status != BATCH_FAILED
            && (TerminalStatus(batch.status) <==> TerminalAt(batch).Some?)
            && (batch.completedAt.Some? <==> batch.status == BATCH_COMPLETED)
            && (batch.cancelledAt.Some? <==> batch.status == BATCH_CANCELLED)
            && (batch.expiredAt.Some? <==> batch.status == EXPIRED)
            && (TerminalStatus(batch.status) ==>
                  forall t :: 0 <= t < |s.db.tasks| && s.db.tasks[t].batch == b ==> !s.db.tasks[t].Live())
  {
    ReachableInv(cfg, s);
    assert BatchOk(s.db.batches[b]);
    forall t | 0 <= t < |s.db.tasks| && s.db.tasks[t].batch == b
      ensures Fits(s.db.tasks[t].status, s.db.batches[b].status) {}
  }

  // The counters of every batch, cancelled and expired ones with late settlements included, are
  // what a count of its tasks gives, so the test for finalization is exact.
  lemma CountersAreExact(cfg: Settings, s: Sys, b: nat)
    requires ValidSettings(cfg) && Reachable(cfg, s) && b < |s.db.batches|
    ensures BatchCounts(s.db.tasks, b, s.db.batches[b])
    ensures s.db.batches[b].completed + s.db.batches[b].failed >= s.db.batches[b].total <==>
            forall t :: 0 <= t < |s.db.tasks| && s.db.tasks[t].batch == b ==> s.db.tasks[t].Settled()
  {
    ReachableInv(cfg, s);
    assert BatchCounts(s.db.tasks, b, s.db.batches[b]);
    CounterTestIsExact(s.db.tasks, b, s.db.batches[b]);
  }

  // No settlement is refused by the ledger, so none is ever left half done by an error.
  lemma SettlementsAreAccepted(cfg: Settings, s: Sys, t: nat, outcome: Outcome)
    requires ValidSettings(cfg) && Reachable(cfg, s) && t < |s.db.tasks|
    ensures s.db.tasks[t].batch < |s.db.batches| && s.db.tasks[t].reserved > 0
    ensures Refusal(s.db, SettlementOp(s.db, t, outcome)).None?
  {
    ReachableInv(cfg, s);
  }

  // The counters are what the tasks say, and a completed batch that has not been purged has
  // its files: every request of the batch is listed once, in line order.
  lemma {:induction false} CompletedBatches(cfg: Settings, s: Sys, b: nat, t: nat)
    requires ValidSettings(cfg) && Reachable(cfg, s)
    requires b < |s.db.batches| && s.db.batches[b].status == BATCH_COMPLETED && s.db.batches[b].purgedAt.None?
    requires t < |s.db.tasks| && s.db.tasks[t].batch == b
    ensures var db := s.db;
            var output, errors := OutputLines(db.tasks, b, |db.tasks|), ErrorLines(db.tasks, b, |db.tasks|);
            && BatchCounts(db.tasks, b, db.batches[b])
            && db.batches[b].outputFile.Some? && db.batches[b].outputFile.value < |db.files|
            && db.files[db.batches[b].outputFile.value] ==
               Some(FileRow(db.batches[b].user, BATCH_OUTPUT, OutputOf(b), Results(output)))
            && (db.batches[b].errorFile.Some? <==> errors != [])
            && (errors != [] ==> db.batches[b].errorFile.value < |db.files|
                                 && db.files[db.batches[b].errorFile.value] ==
                                    Some(FileRow(db.batches[b].user, BATCH_ERROR, ErrorsOf(b), Results(errors))))
            && Sum(output, HasId(db.tasks[t].customId)) + Sum(errors, HasId(db.tasks[t].customId)) == 1
            && LineIndexOrder(db.tasks, output) && LineIndexOrder(db.tasks, errors)
  {
    ReachableInv(cfg, s);
    CompletedFiles(s.db, b, t);
  }

  lemma {:induction false} CompletedFiles(db: Db, b: nat, t: nat)
    requires TablesOk(db) && FilesOk(db)
    requires b < |db.batches| && db.batches[b].status == BATCH_COMPLETED && db.batches[b].purgedAt.None?
    requires t < |db.tasks| && db.tasks[t].batch == b
    ensures BatchCounts(db.tasks, b, db.batches[b])
    ensures BatchFilesOk(db, b) && db.batches[b].outputFile.Some?
    ensures Sum(OutputLines(db.tasks, b, |db.tasks|), HasId(db.tasks[t].customId))
            + Sum(ErrorLines(db.tasks, b, |db.tasks|), HasId(db.tasks[t].customId)) == 1
    ensures LineIndexOrder(db.tasks, OutputLines(db.tasks, b, |db.tasks|))
    ensures LineIndexOrder(db.tasks, ErrorLines(db.tasks, b, |db.tasks|))
  {
    assert BatchOk(db.batches[b]) && BatchFilesOk(db, b);
    forall i | 0 <= i < |db.tasks| && db.tasks[i].batch == b ensures db.tasks[i].Settled() {
      assert Fits(db.tasks[i].status, db.batches[b].status);
    }
    FilesPartitionTheBatch(db.tasks, b, t);
  }

  // Every file id a batch carries names an existing row, its input an uploaded file of the
  // same user, its results files no other batch and no input refers to.
  lemma ReferencesResolve(cfg: Settings, s: Sys, b: nat)
    requires ValidSettings(cfg) && Reachable(cfg, s) && b < |s.db.batches|
    ensures BatchFilesOk(s.db, b)
    ensures forall c, f :: 0 <= c < |s.db.batches| && RefersTo(s.db.batches[b], f) ==>
                             s.db.batches[c].inputFile != f && (b != c ==> !RefersTo(s.db.batches[c], f))
  {
    ReachableInv(cfg, s);
    forall c, f | 0 <= c < |s.db.batches| && RefersTo(s.db.batches[b], f)
      ensures s.db.batches[c].inputFile != f && (b != c ==> !RefersTo(s.db.batches[c], f))
    {
      ResultFilesAreUnshared(s.db, b, c, f);
    }
  }

  // In-flight counters: equal to the requests out on the node, within its slots, and zero
  // between passes.
  lemma InFlightAccounting(cfg: Settings, s: Sys, n: string)
    requires ValidSettings(cfg) && Reachable(cfg, s)
    ensures InUse(s.inFlight, n) == Sum(s.flights, ExecutingOn(n))
    ensures InUse(s.inFlight, n) > 0 ==> n in s.db.nodes && InUse(s.inFlight, n) <= s.db.nodes[n].slots
    ensures PassOver(s.flights) ==> InUse(s.inFlight, n) == 0
  {
    ReachableInv(cfg, s);
    assert NodeOk(s, n);
    if PassOver(s.flights) { IdleCounters(s, n); }
  }

  // --- A finalization lost in a crash. ---

  // No in-progress batch waits for a finalization.
  ghost predicate NoneDue(db: Db) {
    forall b :: 0 <= b < |db.batches| ==> !FinalizeDue(db, b)
  }

  lemma NoneDueKept(db: Db, db': Db)
    requires NoneDue(db) && |db'.batches| == |db.batches|
    requires forall b :: 0 <= b < |db.batches| ==>
                           SameBatch(db.batches[b], db'.batches[b])
                           && (db'.batches[b].status == IN_PROGRESS ==> db.batches[b].status == IN_PROGRESS)
    ensures NoneDue(db')
  {
    forall b | 0 <= b < |db'.batches| ensures !FinalizeDue(db', b) {
      assert SameBatch(db.batches[b], db'.batches[b]) && !FinalizeDue(db, b);
    }
  }

  lemma SettleNoneDue(s: Sys, i: nat, outcome: Outcome, alpha: real, now: Time)
    requires CanSettle(s, i) && NoneDue(s.db)
    ensures NoneDue(FlightSettled(s, i, outcome, alpha, now).db)
  {
    var t := s.flights[i].task;
    var b := s.db.tasks[t].batch;
    var db1 := Settled(s.db, t, outcome, alpha, now);
    var db2 := Finalized(db1, b, now);
    SettledTables(s.db, t, outcome, alpha, now);
    FinalizedTables(db1, b, now);
    forall c | 0 <= c < |db2.batches| ensures !FinalizeDue(db2, c) {
      assert !FinalizeDue(s.db, c);
    }
  }

  lemma SubmittedNoneDue(db: Db, cfg: Settings, u: UserId, f: nat, window: string, now: Time)
    requires cfg.defaultMaxTokens > 0 && NoneDue(db)
    ensures NoneDue(Submitted(db, cfg, u, f, window, now))
  {
    var db' := Submitted(db, cfg, u, f, window, now);
    if SubmittableFile(db, u, f) && window == "24h" {
      ParseSpec(db.files[f].value.content.raw, cfg.defaultMaxTokens);
      match Parse(db.files[f].value.content.raw, cfg.defaultMaxTokens)
      case Parsed(lines) =>
        CreatedTables(db, u, f, window, lines, now);
        forall c | 0 <= c < |db'.batches| ensures !FinalizeDue(db', c) {
          if c < |db.batches| { assert !FinalizeDue(db, c); }
        }
      case NoLines =>
      case Rejected(_) =>
    }
  }

  // Steps that leave every batch's counters alone and every in-progress batch entirely.
  lemma QuietBatches(cfg: Settings, s: Sys, step: Step)
    requires cfg.defaultMaxTokens > 0 && (QuietKind(step) || step.Grant?)
    ensures var batches' := Apply(cfg, s, step).db.batches;
            && |batches'| == |s.db.batches|
            && forall b :: 0 <= b < |batches'| ==>
                             && batches'[b].status == s.db.batches[b].status
                             && SameBatch(s.db.batches[b], batches'[b])
                             && (batches'[b].status == IN_PROGRESS ==> batches'[b] == s.db.batches[b])
  {
    if step.StartPass? && PassOver(s.flights) && ClaimQuery(s.db, step.ids) && HealthyQuery(s.db.nodes, step.names) {
      PassStartRows(s, step.ids, step.names, step.now);
    }
  }

  lemma TerminatedNoneDue(db: Db, b: nat, status: BatchStatus, now: Time)
    requires b < |db.batches| && NoneDue(db) && status != IN_PROGRESS
    ensures NoneDue(Terminated(db, b, status, now))
  {
    TerminatedTables(db, b, status, now);
    NoneDueKept(db, Terminated(db, b, status, now));
  }

  // Only a crash between the two commits of a settlement leaves a finalization outstanding.
  lemma NoneDueStep(cfg: Settings, s: Sys, step: Step)
    requires ValidSettings(cfg) && NoneDue(s.db) && !step.SettleThenCrash?
    ensures NoneDue(Apply(cfg, s, step).db)
  {
    if QuietKind(step) || step.Grant? {
      QuietBatches(cfg, s, step);
      NoneDueKept(s.db, Apply(cfg, s, step).db);
    } else {
      match step
      case Submit(u, f, window, now) => SubmittedNoneDue(s.db, cfg, u, f, window, now);
      case Settle(i, outcome, now) => if CanSettle(s, i) { SettleNoneDue(s, i, outcome, cfg.alpha, now); }
      case Cancel(u, b, now) =>
        if OwnedBy(s.db.batches, b, u) && Cancellable(s.db.batches[b].status) {
          TerminatedNoneDue(s.db, b, BATCH_CANCELLED, now);
        }
      case Expire(b, now) =>
        if b < |s.db.batches| && Overdue(s.db.batches[b], now) { TerminatedNoneDue(s.db, b, EXPIRED, now); }
    }
  }

  predicate NoTornSettlement(steps: seq<Step>) { forall i :: 0 <= i < |steps| ==> !steps[i].SettleThenCrash? }

  // As long as no settlement is torn apart by a crash, no batch is left unfinalized.
  lemma {:induction false} NoneDueOnRuns(cfg: Settings, steps: seq<Step>)
    requires ValidSettings(cfg) && NoTornSettlement(steps)
    ensures NoneDue(Run(cfg, START, steps).db)
  {
    if steps != [] {
      var n := |steps| - 1;
      NoneDueOnRuns(cfg, steps[..n]);
      assert !steps[n].SettleThenCrash?;
      NoneDueStep(cfg, Run(cfg, START, steps[..n]), steps[n]);
    }
  }

  // The first commit of a settlement makes the batch's finalization due if and only if this was
  // its last open task.
  lemma FirstCommitMakesDue(db: Db, t: nat, outcome: Outcome, alpha: real, now: Time)
    requires TablesOk(db) && t < |db.tasks|
    requires db.tasks[t].status == RUNNING || db.tasks[t].status == CANCELLED
    ensures var b := db.tasks[t].batch;
            FinalizeDue(Settled(db, t, outcome, alpha, now), b) <==>
            (db.batches[b].status == IN_PROGRESS
             && forall i :: 0 <= i < |db.tasks| && db.tasks[i].batch == b && i != t ==> db.tasks[i].Settled())
  {
    var b := db.tasks[t].batch;
    var db' := Settled(db, t, outcome, alpha, now);
    SettledTables(db, t, outcome, alpha, now);
    SettledOk(db, t, outcome, alpha, now);
    assert BatchCounts(db'.tasks, b, db'.batches[b]);
    CounterTestIsExact(db'.tasks, b, db'.batches[b]);
    if FinalizeDue(db', b) {
      forall i | 0 <= i < |db.tasks| && db.tasks[i].batch == b && i != t ensures db.tasks[i].Settled() {
        assert db'.tasks[i].batch == b;
      }
    }
  }

  // The step cancels or expires batch b.
  predicate Ends(s: Sys, step: Step, b: nat) {
    match step
    case Cancel(u, c, now) => c == b && OwnedBy(s.db.batches, b, u)
    case Expire(c, now) => c == b && b < |s.db.batches| && Overdue(s.db.batches[b], now)
    case _ => false
  }

  // No task of a batch whose finalization is outstanding is out on a node.
  lemma NoFlightForDue(cfg: Settings, s: Sys, b: nat, i: nat)
    requires Inv(cfg, s) && b < |s.db.batches| && FinalizeDue(s.db, b) && CanSettle(s, i)
    ensures s.db.tasks[s.flights[i].task].batch != b
  {
    assert BatchCounts(s.db.tasks, b, s.db.batches[b]);
    CounterTestIsExact(s.db.tasks, b, s.db.batches[b]);
    assert FlightOk(s.flights[i], s.db.tasks);
  }

  lemma SettleElsewhere(s: Sys, i: nat, outcome: Outcome, alpha: real, now: Time, b: nat)
    requires CanSettle(s, i) && b < |s.db.batches| && s.db.tasks[s.flights[i].task].batch != b
    ensures b < |Settled(s.db, s.flights[i].task, outcome, alpha, now).batches|
    ensures Settled(s.db, s.flights[i].task, outcome, alpha, now).batches[b] == s.db.batches[b]
    ensures b < |FlightSettled(s, i, outcome, alpha, now).db.batches|
    ensures FlightSettled(s, i, outcome, alpha, now).db.batches[b] == s.db.batches[b]
  {
    var t := s.flights[i].task;
    SettledTables(s.db, t, outcome, alpha, now);
    FinalizedTables(Settled(s.db, t, outcome, alpha, now), s.db.tasks[t].batch, now);
  }

  // Nothing but its cancellation or expiry changes a batch whose finalization is outstanding.
  lemma StrandedStep(cfg: Settings, s: Sys, step: Step, b: nat)
    requires ValidSettings(cfg) && Inv(cfg, s)
    requires b < |s.db.batches| && FinalizeDue(s.db, b) && !Ends(s, step, b)
    ensures b < |Apply(cfg, s, step).db.batches|
    ensures Apply(cfg, s, step).db.batches[b] == s.db.batches[b]
  {
    if QuietKind(step) || step.Grant? {
      QuietBatches(cfg, s, step);
    } else {
      match step
      case Submit(u, f, window, now) => SubmittedKeepsBatches(s.db, cfg, u, f, window, now);
      case Settle(i, outcome, now) =>
        if CanSettle(s, i) {
          NoFlightForDue(cfg, s, b, i);
          SettleElsewhere(s, i, outcome, cfg.alpha, now, b);
        }
      case SettleThenCrash(i, outcome, now, config) =>
        if CanSettle(s, i) {
          NoFlightForDue(cfg, s, b, i);
          SettleElsewhere(s, i, outcome, cfg.alpha, now, b);
        }
      case Cancel(u, c, now) => EndingElsewhere(cfg, s, step, b);
      case Expire(c, now) => EndingElsewhere(cfg, s, step, b);
    }
  }

  lemma EndingElsewhere(cfg: Settings, s: Sys, step: Step, b: nat)
    requires cfg.defaultMaxTokens > 0 && (step.Cancel? || step.Expire?)
    requires b < |s.db.batches| && !Ends(s, step, b)
    ensures b < |Apply(cfg, s, step).db.batches|
    ensures Apply(cfg, s, step).db.batches[b] == s.db.batches[b]
  {
    if step.Cancel? {
      if OwnedBy(s.db.batches, step.batch, step.user) && Cancellable(s.db.batches[step.batch].status) {
        TerminatedTables(s.db, step.batch, BATCH_CANCELLED, step.now);
      }
    } else if step.batch < |s.db.batches| && Overdue(s.db.batches[step.batch], step.now) {
      TerminatedTables(s.db, step.batch, EXPIRED, step.now);
    }
  }

  lemma SubmittedKeepsBatches(db: Db, cfg: Settings, u: UserId, f: nat, window: string, now: Time)
    requires cfg.defaultMaxTokens > 0
    ensures db.batches <= Submitted(db, cfg, u, f, window, now).batches
  {
    if SubmittableFile(db, u, f) && window == "24h" {
      match Parse(db.files[f].value.content.raw, cfg.defaultMaxTokens)
      case Parsed(lines) => CreatedTables(db, u, f, window, lines, now);
      case NoLines =>
      case Rejected(_) =>
    }
  }
}
