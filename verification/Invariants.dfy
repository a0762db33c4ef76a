// One invariant for the whole service, kept by every step.
module Invariants {
  import opened Model
  import opened Sums
  import opened Ledger
  import opened Parsing
  import opened BatchOps
  import opened Retention
  import opened Dispatching
  import opened Engine
  import opened Structure
  import opened Flights
  import opened Audit
  import opened Files
  import opened Eta

  ghost predicate DbInv(db: Db, threshold: nat) {
    && TablesOk(db)
    && AuditOk(db)
    && FilesOk(db)
    && HealthOk(db.nodes, threshold)
    && StatOk(db.stat)
  }

  ghost predicate Inv(cfg: Settings, s: Sys) {
    && DbInv(s.db, cfg.unhealthyThreshold)
    && FlightsOk(s)
    && CountersOk(s)
  }

  lemma StartInv(cfg: Settings)
    ensures Inv(cfg, START)
  {
    forall n ensures NodeOk(START, n) { assert Sum(START.flights, ExecutingOn(n)) == 0; }
    forall u ensures BudgetOf(START.db, u) == Replayed(START.db.ledger, u) {}
  }

  lemma GrantInv(cfg: Settings, s: Sys, u: UserId, tokens: int)
    requires Inv(cfg, s)
    ensures Inv(cfg, s.(db := Perform(s.db, GrantOp(u, tokens))))
  {
    var db' := Perform(s.db, GrantOp(u, tokens));
    GrantAudit(s.db, u, tokens);
    TableFreeStep(s, db');
  }

  // A step that leaves tasks, batches, files and nodes alone.
  lemma TableFreeStep(s: Sys, db': Db)
    requires TablesOk(s.db) && FilesOk(s.db) && FlightsOk(s) && CountersOk(s)
    requires db'.tasks == s.db.tasks && db'.batches == s.db.batches
    requires db'.files == s.db.files && db'.nodes == s.db.nodes
    ensures TablesOk(db') && FilesOk(db') && FlightsOk(s.(db := db')) && CountersOk(s.(db := db'))
  {
    UpdateFiles(s.db, db');
    FlightsKept(s, db');
    SameSlotsCounters(s, db');
  }

  lemma UploadInv(cfg: Settings, s: Sys, u: UserId, raw: seq<RawLine>)
    requires Inv(cfg, s)
    ensures Inv(cfg, s.(db := Engine.Uploaded(s.db, u, raw)))
  {
    if raw != [] {
      var row := FileRow(u, BATCH_INPUT, FileName.Uploaded, Input(raw));
      var db' := s.db.(files := s.db.files + [Some(row)]);
      UploadedFiles(s.db, row);
      QuietAudit(s.db, db');
      FlightsKept(s, db');
      SameSlotsCounters(s, db');
    }
  }

  lemma SubmitInv(cfg: Settings, s: Sys, u: UserId, f: nat, window: string, now: Time)
    requires Inv(cfg, s) && cfg.defaultMaxTokens > 0
    ensures Inv(cfg, s.(db := Submitted(s.db, cfg, u, f, window, now)))
  {
    if SubmittableFile(s.db, u, f) && window == "24h" {
      var raw := s.db.files[f].value.content.raw;
      ParseSpec(raw, cfg.defaultMaxTokens);
      match Parse(raw, cfg.defaultMaxTokens)
      case Parsed(lines) => CreateInv(cfg, s, u, f, window, lines, now);
      case NoLines =>
      case Rejected(_) =>
    }
  }

  lemma CreateInv(cfg: Settings, s: Sys, u: UserId, f: nat, window: string, lines: seq<ParsedLine>, now: Time)
    requires Inv(cfg, s) && SubmittableFile(s.db, u, f) && Submittable(lines)
    ensures Inv(cfg, s.(db := CreatedBatch(s.db, u, f, window, lines, now)))
  {
    var db' := CreatedBatch(s.db, u, f, window, lines, now);
    CreatedTables(s.db, u, f, window, lines, now);
    CreatedOk(s.db, u, f, window, lines, now);
    CreatedAudit(s.db, u, f, window, lines, now);
    CreatedFiles(s.db, u, f, window, lines, now);
    FlightsKept(s, db');
    SameSlotsCounters(s, db');
  }

  predicate StartedOrSame(t: Task, t': Task) {
    t' == t ||
    (t.status == PENDING
     && t' == t.(status := RUNNING, node := t'.node, startedAt := t'.startedAt, attempts := t'.attempts))
  }

  lemma PassStartRows(s: Sys, ids: seq<nat>, names: seq<string>, now: Time)
    requires ClaimQuery(s.db, ids) && HealthyQuery(s.db.nodes, names)
    ensures var db' := PassStarted(s, ids, names, now).db;
            && db' == s.db.(tasks := db'.tasks) && |db'.tasks| == |s.db.tasks|
            && forall t :: 0 <= t < |db'.tasks| ==> StartedOrSame(s.db.tasks[t], db'.tasks[t])
  {
    var flights := Assignments(s.db, s.inFlight, ids, names);
    if flights != [] {
      AssignmentsSpec(s.db, s.inFlight, ids, names);
      MarkStartedSpec(s.db.tasks, flights, now);
      var tasks' := MarkStarted(s.db.tasks, flights, now);
      forall t | 0 <= t < |tasks'| ensures StartedOrSame(s.db.tasks[t], tasks'[t]) {
        if k :| 0 <= k < |flights| && flights[k].task == t {
          assert tasks'[flights[k].task] == Started(s.db.tasks[t], flights[k].node, now);
        }
      }
    }
  }

  lemma StartedTables(tasks: seq<Task>, tasks': seq<Task>, batches: seq<Batch>)
    requires |tasks'| == |tasks| && forall t :: 0 <= t < |tasks| ==> StartedOrSame(tasks[t], tasks'[t])
    requires RowsOk(tasks, batches) && StatusOk(tasks, batches)
    ensures SameResults(tasks, tasks') && StatusOk(tasks', batches)
  {
    forall t | 0 <= t < |tasks| ensures Fits(tasks'[t].status, batches[tasks[t].batch].status) {
      assert StartedOrSame(tasks[t], tasks'[t]) && Fits(tasks[t].status, batches[tasks[t].batch].status);
    }
  }

  lemma PassStartInv(cfg: Settings, s: Sys, ids: seq<nat>, names: seq<string>, now: Time)
    requires Inv(cfg, s) && PassOver(s.flights) && ClaimQuery(s.db, ids) && HealthyQuery(s.db.nodes, names)
    ensures Inv(cfg, PassStarted(s, ids, names, now))
  {
    var s' := PassStarted(s, ids, names, now);
    PassStartRows(s, ids, names, now);
    StartedTables(s.db.tasks, s'.db.tasks, s.db.batches);
    SameRowsKeep(s.db.tasks, s'.db.tasks, s.db.batches, s'.db.batches);
    SameResultsKeepCounts(s.db.tasks, s'.db.tasks, s.db.batches, s'.db.batches);
    QuietAudit(s.db, s'.db);
    UpdateFiles(s.db, s'.db);
    PassStartFlights(s, ids, names, now);
    PassStartCounters(s, ids, names, now);
  }

  lemma ReturnInv(cfg: Settings, s: Sys, i: nat)
    requires Inv(cfg, s) && i < |s.flights| && s.flights[i].phase == EXECUTING
    ensures Inv(cfg, RequestReturned(s, i))
  {
    ReturnFlights(s, i);
    ClampNeverBinds(s, i);
  }

  lemma SettledStat(db: Db, t: nat, outcome: Outcome, alpha: real, now: Time)
    requires t < |db.tasks| && db.tasks[t].batch < |db.batches|
    requires StatOk(db.stat) && 0.0 <= alpha <= 1.0
    ensures StatOk(Settled(db, t, outcome, alpha, now).stat)
  {
    RecordOk(db.stat, SettledTask(db.tasks[t], outcome, now), alpha);
  }

  // The first commit of a settlement.
  lemma SettledInv(db: Db, threshold: nat, t: nat, outcome: Outcome, alpha: real, now: Time)
    requires DbInv(db, threshold) && t < |db.tasks| && 0.0 <= alpha <= 1.0
    requires db.tasks[t].status == RUNNING || db.tasks[t].status == CANCELLED
    ensures DbInv(Settled(db, t, outcome, alpha, now), threshold)
  {
    var db' := Settled(db, t, outcome, alpha, now);
    SettledTables(db, t, outcome, alpha, now);
    SettledOk(db, t, outcome, alpha, now);
    SettledAudit(db, t, outcome, alpha, now);
    SettledStat(db, t, outcome, alpha, now);
    UpdateFiles(db, db');
  }

  lemma FinalizedInv(db: Db, threshold: nat, b: nat, now: Time)
    requires DbInv(db, threshold) && b < |db.batches|
    ensures DbInv(Finalized(db, b, now), threshold)
  {
    FinalizedTables(db, b, now);
    FinalizedOk(db, b, now);
    QuietAudit(db, Finalized(db, b, now));
    FinalizedFiles(db, b, now);
  }

  // The state between the two commits of a settlement, its coroutine still to finalize.
  function FirstCommit(s: Sys, i: nat, outcome: Outcome, alpha: real, now: Time): Sys
    requires CanSettle(s, i)
  {
    s.(db := Settled(s.db, s.flights[i].task, outcome, alpha, now),
       flights := s.flights[i := s.flights[i].(phase := DONE)])
  }

  lemma FirstCommitInv(cfg: Settings, s: Sys, i: nat, outcome: Outcome, now: Time)
    requires Inv(cfg, s) && ValidSettings(cfg) && CanSettle(s, i)
    ensures Inv(cfg, FirstCommit(s, i, outcome, cfg.alpha, now))
  {
    var db1 := Settled(s.db, s.flights[i].task, outcome, cfg.alpha, now);
    assert FlightOk(s.flights[i], s.db.tasks);
    SettledInv(s.db, cfg.unhealthyThreshold, s.flights[i].task, outcome, cfg.alpha, now);
    SettledTables(s.db, s.flights[i].task, outcome, cfg.alpha, now);
    SettleFlights(s, i, db1);
    SettleCounters(s, i, db1);
  }

  lemma SettleInv(cfg: Settings, s: Sys, i: nat, outcome: Outcome, now: Time)
    requires Inv(cfg, s) && ValidSettings(cfg) && CanSettle(s, i)
    ensures Inv(cfg, FlightSettled(s, i, outcome, cfg.alpha, now))
  {
    var t := s.flights[i].task;
    var db1 := Settled(s.db, t, outcome, cfg.alpha, now);
    var db2 := Finalized(db1, s.db.tasks[t].batch, now);
    assert FlightOk(s.flights[i], s.db.tasks);
    SettledInv(s.db, cfg.unhealthyThreshold, t, outcome, cfg.alpha, now);
    SettledTables(s.db, t, outcome, cfg.alpha, now);
    FinalizedInv(db1, cfg.unhealthyThreshold, s.db.tasks[t].batch, now);
    FinalizedTables(db1, s.db.tasks[t].batch, now);
    SettleFlights(s, i, db2);
    SettleCounters(s, i, db2);
  }

  lemma RestartInv(cfg: Settings, s: Sys, config: map<string, int>)
    requires DbInv(s.db, cfg.unhealthyThreshold) && ValidSettings(cfg)
    ensures Inv(cfg, Restarted(s, config))
  {
    RestartDb(s.db, cfg.unhealthyThreshold, config);
    RestartFlights(s, config);
    RestartCounters(s, config);
  }

  lemma RestartDb(db: Db, threshold: nat, config: map<string, int>)
    requires DbInv(db, threshold) && threshold >= 1
    ensures DbInv(db.(nodes := SyncedNodes(db.nodes, config), tasks := RecoverTasks(db.tasks)), threshold)
  {
    var nodes := SyncedNodes(db.nodes, config);
    SyncedNodesOk(db.nodes, config, threshold);
    RecoveredDb(db, nodes);
  }

  lemma RecoveredDb(db: Db, nodes: map<string, Node>)
    requires TablesOk(db) && AuditOk(db) && FilesOk(db)
    ensures var db' := db.(nodes := nodes, tasks := RecoverTasks(db.tasks));
            TablesOk(db') && AuditOk(db') && FilesOk(db')
  {
    RecoveredOk(db, nodes);
    RecoveryIsQuiet(db.tasks);
    SameResultsInv(db, nodes, RecoverTasks(db.tasks));
  }

  lemma SameResultsInv(db: Db, nodes: map<string, Node>, tasks': seq<Task>)
    requires TablesOk(db) && AuditOk(db) && FilesOk(db) && SameResults(db.tasks, tasks')
    ensures AuditOk(db.(nodes := nodes, tasks := tasks')) && FilesOk(db.(nodes := nodes, tasks := tasks'))
  {
    var db' := db.(nodes := nodes, tasks := tasks');
    QuietAudit(db, db');
    UpdateFiles(db, db');
  }

  lemma SettleThenCrashInv(cfg: Settings, s: Sys, i: nat, outcome: Outcome, now: Time, config: map<string, int>)
    requires Inv(cfg, s) && ValidSettings(cfg) && CanSettle(s, i)
    ensures Inv(cfg, Restarted(s.(db := Settled(s.db, s.flights[i].task, outcome, cfg.alpha, now)), config))
  {
    assert FlightOk(s.flights[i], s.db.tasks);
    SettledInv(s.db, cfg.unhealthyThreshold, s.flights[i].task, outcome, cfg.alpha, now);
    RestartInv(cfg, s.(db := Settled(s.db, s.flights[i].task, outcome, cfg.alpha, now)), config);
  }

  lemma TerminateInv(cfg: Settings, s: Sys, b: nat, status: BatchStatus, now: Time)
    requires Inv(cfg, s) && b < |s.db.batches| && Cancellable(s.db.batches[b].status)
    requires status == BATCH_CANCELLED || status == EXPIRED
    ensures Inv(cfg, s.(db := Terminated(s.db, b, status, now)))
  {
    var db' := Terminated(s.db, b, status, now);
    TerminatedTables(s.db, b, status, now);
    TerminatedOk(s.db, b, status, now);
    TerminatedAudit(s.db, b, status, now);
    StopIsQuiet(s.db.tasks, b, now);
    UpdateFiles(s.db, db');
    FlightsKept(s, db');
    SameSlotsCounters(s, db');
  }

  lemma PurgeInv(cfg: Settings, s: Sys, now: Time)
    requires Inv(cfg, s)
    ensures Inv(cfg, s.(db := Purged(s.db, cfg.retentionDays, now)))
  {
    var db' := Purged(s.db, cfg.retentionDays, now);
    PurgedOk(s.db, cfg.retentionDays, now);
    PurgedFilesOk(s.db, cfg.retentionDays, now);
    QuietAudit(s.db, db');
    FlightsKept(s, db');
    SameSlotsCounters(s, db');
  }

  lemma {:induction false} HealthInv(cfg: Settings, s: Sys, results: seq<(string, bool)>)
    requires Inv(cfg, s) && ValidSettings(cfg) && HealthResults(s.db.nodes, results)
    ensures Inv(cfg, s.(db := s.db.(nodes := HealthApplied(s.db.nodes, results, cfg.unhealthyThreshold))))
  {
    var db' := s.db.(nodes := HealthApplied(s.db.nodes, results, cfg.unhealthyThreshold));
    HealthAppliedOk(s.db.nodes, results, cfg.unhealthyThreshold);
    HealthKeepsSlots(s.db.nodes, results, cfg.unhealthyThreshold);
    QuietAudit(s.db, db');
    UpdateFiles(s.db, db');
    FlightsKept(s, db');
    SameSlotsCounters(s, db');
  }

  predicate RequestKind(step: Step) { step.Grant? || step.Upload? || step.Submit? || step.Cancel? }

  predicate JobKind(step: Step) { step.Expire? || step.Purge? || step.Health? || step.Crash? }

  lemma EndingInv(cfg: Settings, s: Sys, step: Step)
    requires ValidSettings(cfg) && Inv(cfg, s) && (step.Cancel? || step.Expire?)
    ensures Inv(cfg, Apply(cfg, s, step))
  {
    if step.Cancel? {
      if OwnedBy(s.db.batches, step.batch, step.user) && Cancellable(s.db.batches[step.batch].status) {
        TerminateInv(cfg, s, step.batch, BATCH_CANCELLED, step.now);
      }
    } else if step.batch < |s.db.batches| && Overdue(s.db.batches[step.batch], step.now) {
      TerminateInv(cfg, s, step.batch, EXPIRED, step.now);
    }
  }

  lemma RequestInv(cfg: Settings, s: Sys, step: Step)
    requires ValidSettings(cfg) && Inv(cfg, s) && RequestKind(step)
    ensures Inv(cfg, Apply(cfg, s, step))
  {
    match step
    case Grant(u, tokens) => GrantInv(cfg, s, u, tokens);
    case Upload(u, raw) => UploadInv(cfg, s, u, raw);
    case Submit(u, f, window, now) => SubmitInv(cfg, s, u, f, window, now);
    case Cancel(u, b, now) => EndingInv(cfg, s, step);
  }

  lemma HealthStepInv(cfg: Settings, s: Sys, step: Step)
    requires ValidSettings(cfg) && Inv(cfg, s) && step.Health?
    ensures Inv(cfg, Apply(cfg, s, step))
  {
    if HealthResults(s.db.nodes, step.results) { HealthInv(cfg, s, step.results); }
  }

  lemma JobInv(cfg: Settings, s: Sys, step: Step)
    requires ValidSettings(cfg) && Inv(cfg, s) && JobKind(step)
    ensures Inv(cfg, Apply(cfg, s, step))
  {
    match step
    case Expire(b, now) => EndingInv(cfg, s, step);
    case Purge(now) => PurgeInv(cfg, s, now);
    case Health(results) => HealthStepInv(cfg, s, step);
    case Crash(config) => RestartInv(cfg, s, config);
  }

  lemma PassStepInv(cfg: Settings, s: Sys, step: Step)
    requires ValidSettings(cfg) && Inv(cfg, s) && step.StartPass?
    ensures Inv(cfg, Apply(cfg, s, step))
  {
    if PassOver(s.flights) && ClaimQuery(s.db, step.ids) && HealthyQuery(s.db.nodes, step.names) {
      PassStartInv(cfg, s, step.ids, step.names, step.now);
    }
  }

  lemma DispatchInv(cfg: Settings, s: Sys, step: Step)
    requires ValidSettings(cfg) && Inv(cfg, s) && !RequestKind(step) && !JobKind(step)
    ensures Inv(cfg, Apply(cfg, s, step))
  {
    match step
    case StartPass(ids, names, now) => PassStepInv(cfg, s, step);
    case Return(i) =>
      if i < |s.flights| && s.flights[i].phase == EXECUTING { ReturnInv(cfg, s, i); }
    case Settle(i, outcome, now) => if CanSettle(s, i) { SettleInv(cfg, s, i, outcome, now); }
    case SettleThenCrash(i, outcome, now, config) =>
      if CanSettle(s, i) { SettleThenCrashInv(cfg, s, i, outcome, now, config); }
  }

  lemma InvStep(cfg: Settings, s: Sys, step: Step)
    requires ValidSettings(cfg) && Inv(cfg, s)
    ensures Inv(cfg, Apply(cfg, s, step))
  {
    if RequestKind(step) {
      RequestInv(cfg, s, step);
    } else if JobKind(step) {
      JobInv(cfg, s, step);
    } else {
      DispatchInv(cfg, s, step);
    }
  }

  lemma {:induction false} RunsOn(cfg: Settings, s: Sys, steps: seq<Step>)
    requires ValidSettings(cfg) && Inv(cfg, s)
    ensures Inv(cfg, Run(cfg, s, steps))
  {
    if steps != [] {
      RunsOn(cfg, s, steps[..|steps| - 1]);
      InvStep(cfg, Run(cfg, s, steps[..|steps| - 1]), steps[|steps| - 1]);
    }
  }

  // Every state the service can reach from an empty database.
  lemma {:induction false} RunInv(cfg: Settings, steps: seq<Step>)
    requires ValidSettings(cfg)
    ensures Inv(cfg, Run(cfg, START, steps))
  {
    if steps == [] {
      StartInv(cfg);
    } else {
      RunInv(cfg, steps[..|steps| - 1]);
      InvStep(cfg, Run(cfg, START, steps[..|steps| - 1]), steps[|steps| - 1]);
    }
  }

  lemma ReachableInv(cfg: Settings, s: Sys)
    requires ValidSettings(cfg) && Reachable(cfg, s)
    ensures Inv(cfg, s)
  {
    var steps :| Run(cfg, START, steps) == s;
    RunInv(cfg, steps);
  }
}
