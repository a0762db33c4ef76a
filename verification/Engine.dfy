// The whole service as one state machine: requests, the dispatcher, the retention job, restarts.
module Engine {
  import opened Model
  import opened Ledger
  import opened Parsing
  import opened BatchOps
  import opened Retention
  import opened Dispatching

  datatype Step =
    | Grant(user: UserId, tokens: int)
    | Upload(user: UserId, raw: seq<RawLine>)
    | Submit(user: UserId, file: nat, window: string, now: Time)
    | StartPass(ids: seq<nat>, names: seq<string>, now: Time)
    | Return(flight: nat)
    | Settle(flight: nat, outcome: Outcome, now: Time)
    | SettleThenCrash(flight: nat, outcome: Outcome, now: Time, config: map<string, int>)
    | Cancel(user: UserId, batch: nat, now: Time)
    | Expire(batch: nat, now: Time)
    | Purge(now: Time)
    | Health(results: seq<(string, bool)>)
    | Crash(config: map<string, int>)

  predicate SubmittableFile(db: Db, u: UserId, f: nat) {
    && f < |db.files| && db.files[f].Some?
    && db.files[f].value.owner == u
    && db.files[f].value.purpose == BATCH_INPUT
    && db.files[f].value.content.Input?
  }

  // POST /v1/batches: look the file up, parse it, create the batch.
  function Submitted(db: Db, cfg: Settings, u: UserId, f: nat, window: string, now: Time): Db
    requires cfg.defaultMaxTokens > 0
  {
    if !SubmittableFile(db, u, f) || window != "24h" then db
    else
      match Parse(db.files[f].value.content.raw, cfg.defaultMaxTokens)
      case Parsed(lines) => CreatedBatch(db, u, f, window, lines, now)
      case _ => db
  }

  // The error the request ends with, if any.  An input file always holds request lines.
  function SubmissionError(db: Db, cfg: Settings, u: UserId, f: nat, endpoint: string, window: string): Option<Error>
    requires cfg.defaultMaxTokens > 0
  {
    if endpoint != ENDPOINT then Some(InvalidRequest)
    else if window != "24h" then Some(InvalidRequest)
    else if f >= |db.files| || db.files[f].None? || db.files[f].value.owner != u then Some(NotFound)
    else if !SubmittableFile(db, u, f) then Some(InvalidRequest)
    else
      match Parse(db.files[f].value.content.raw, cfg.defaultMaxTokens)
      case Parsed(lines) => Refusal(db, SubmitOp(db, u, lines))
      case _ => Some(InvalidRequest)
  }

  method SubmitBatch(db: Store, cfg: Settings, u: UserId, f: nat, endpoint: string, window: string, now: Time)
    returns (r: Result<nat>)
    requires cfg.defaultMaxTokens > 0
    modifies db
    ensures r == match SubmissionError(old(db.Snapshot()), cfg, u, f, endpoint, window)
                 case None => Ok(|old(db.batches)|)
                 case Some(e) => Err(e)
    ensures r.Ok? ==> db.Snapshot() == Submitted(old(db.Snapshot()), cfg, u, f, window, now)
    ensures r.Err? ==> db.Snapshot() == old(db.Snapshot())
  {
    if endpoint != ENDPOINT { return Err(InvalidRequest); }
    if window != "24h" { return Err(InvalidRequest); }
    if f >= |db.files| || db.files[f].None? || db.files[f].value.owner != u { return Err(NotFound); }
    var file := db.files[f].value;
    if file.purpose != BATCH_INPUT || !file.content.Input? { return Err(InvalidRequest); }
    var parsed := ParseBatchInput(file.content.raw, cfg.defaultMaxTokens);
    if !parsed.Parsed? { return Err(InvalidRequest); }
    r := CreateBatch(db, u, f, window, parsed.lines, now);
  }

  function Uploaded(db: Db, u: UserId, raw: seq<RawLine>): Db {
    if raw == [] then db
    else db.(files := db.files + [Some(FileRow(u, BATCH_INPUT, FileName.Uploaded, Input(raw)))])
  }

  // Health checks only ever ask nodes that are not disabled.
  predicate HealthResults(nodes: map<string, Node>, results: seq<(string, bool)>) {
    forall i :: 0 <= i < |results| ==> results[i].0 in nodes && nodes[results[i].0].health != DISABLED
  }

  // A step whose guard fails is a request that is refused, and changes nothing.
  function Apply(cfg: Settings, s: Sys, step: Step): Sys
    requires cfg.defaultMaxTokens > 0
  {
    match step
    case Grant(u, tokens) => s.(db := Perform(s.db, GrantOp(u, tokens)))
    case Upload(u, raw) => s.(db := Uploaded(s.db, u, raw))
    case Submit(u, f, window, now) => s.(db := Submitted(s.db, cfg, u, f, window, now))
    case StartPass(ids, names, now) =>
      if PassOver(s.flights) && ClaimQuery(s.db, ids) && HealthyQuery(s.db.nodes, names)
      then PassStarted(s, ids, names, now) else s
    case Return(i) =>
      if i < |s.flights| && s.flights[i].phase == EXECUTING then RequestReturned(s, i) else s
    case Settle(i, outcome, now) =>
      if CanSettle(s, i) then FlightSettled(s, i, outcome, cfg.alpha, now) else s
    case SettleThenCrash(i, outcome, now, config) =>
      if CanSettle(s, i)
      then Restarted(s.(db := Settled(s.db, s.flights[i].task, outcome, cfg.alpha, now)), config) else s
    case Cancel(u, b, now) =>
      if OwnedBy(s.db.batches, b, u) && Cancellable(s.db.batches[b].status)
      then s.(db := Terminated(s.db, b, BATCH_CANCELLED, now)) else s
    case Expire(b, now) =>
      if b < |s.db.batches| && Overdue(s.db.batches[b], now)
      then s.(db := Terminated(s.db, b, EXPIRED, now)) else s
    case Purge(now) => s.(db := Purged(s.db, cfg.retentionDays, now))
    case Health(results) =>
      if HealthResults(s.db.nodes, results)
      then s.(db := s.db.(nodes := HealthApplied(s.db.nodes, results, cfg.unhealthyThreshold))) else s
    case Crash(config) => Restarted(s, config)
  }

  function Run(cfg: Settings, s: Sys, steps: seq<Step>): Sys
    requires cfg.defaultMaxTokens > 0
  {
    if steps == [] then s else Apply(cfg, Run(cfg, s, steps[..|steps| - 1]), steps[|steps| - 1])
  }

  const START := Sys(EMPTY_DB, map[], [])

  // Steps that move no budget and neither create, stop nor settle a task.
  predicate QuietKind(step: Step) {
    step.Upload? || step.StartPass? || step.Return? || step.Purge? || step.Health? || step.Crash?
  }

  // Some run of the service ends in this state.
  ghost predicate Reachable(cfg: Settings, s: Sys)
    requires cfg.defaultMaxTokens > 0
  {
    exists steps :: Run(cfg, START, steps) == s
  }

  // The task a settling step settles.
  predicate Settles(s: Sys, step: Step) {
    && (step.Settle? || step.SettleThenCrash?)
    && CanSettle(s, step.flight)
  }

  function SettledId(s: Sys, step: Step): (t: nat)
    requires Settles(s, step)
    ensures t < |s.db.tasks| && s.db.tasks[t].batch < |s.db.batches|
  {
    s.flights[step.flight].task
  }

  // A settlement that arrives after the task was cancelled or expired under it.
  predicate Late(s: Sys, step: Step) {
    Settles(s, step) && s.db.tasks[SettledId(s, step)].status != RUNNING
  }

  // No step of the run is a late settlement.
  predicate NeverLate(cfg: Settings, s: Sys, steps: seq<Step>)
    requires cfg.defaultMaxTokens > 0
  {
    steps == [] ||
    (&& NeverLate(cfg, s, steps[..|steps| - 1])
     && !Late(Run(cfg, s, steps[..|steps| - 1]), steps[|steps| - 1]))
  }
}
