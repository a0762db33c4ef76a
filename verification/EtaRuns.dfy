// The throughput statistics over whole runs of the service.
module EtaRuns {
  import opened Model
  import opened Ledger
  import opened Parsing
  import opened BatchOps
  import opened Retention
  import opened Dispatching
  import opened Engine
  import opened Structure
  import opened Eta
  import opened Invariants

  // The tasks completed so far, as they were when they completed, in that order.
  function Completions(cfg: Settings, steps: seq<Step>): seq<Task>
    requires cfg.defaultMaxTokens > 0
  {
    if steps == [] then []
    else
      var n := |steps| - 1;
      Completions(cfg, steps[..n]) + Completed(Run(cfg, START, steps[..n]), steps[n])
  }

  function Completed(s: Sys, step: Step): seq<Task> {
    if Settles(s, step) && step.outcome.Success? then
      [SettledTask(s.db.tasks[SettledId(s, step)], step.outcome, step.now)]
    else []
  }

  lemma SettleStat(s: Sys, i: nat, outcome: Outcome, alpha: real, now: Time)
    requires CanSettle(s, i)
    ensures var task := SettledTask(s.db.tasks[s.flights[i].task], outcome, now);
            var stat := if outcome.Success? then Record(s.db.stat, task, alpha) else s.db.stat;
            && Settled(s.db, s.flights[i].task, outcome, alpha, now).stat == stat
            && FlightSettled(s, i, outcome, alpha, now).db.stat == stat
  {
    var t := s.flights[i].task;
    SettledTables(s.db, t, outcome, alpha, now);
    FinalizedTables(Settled(s.db, t, outcome, alpha, now), s.db.tasks[t].batch, now);
  }

  lemma QuietStat(cfg: Settings, s: Sys, step: Step)
    requires cfg.defaultMaxTokens > 0 && QuietKind(step)
    ensures Apply(cfg, s, step).db.stat == s.db.stat
  {
    if step.StartPass? && PassOver(s.flights) && ClaimQuery(s.db, step.ids) && HealthyQuery(s.db.nodes, step.names) {
      PassStartRows(s, step.ids, step.names, step.now);
    }
  }

  lemma SubmittedStat(db: Db, cfg: Settings, u: UserId, f: nat, window: string, now: Time)
    requires cfg.defaultMaxTokens > 0
    ensures Submitted(db, cfg, u, f, window, now).stat == db.stat
  {
    if SubmittableFile(db, u, f) && window == "24h" {
      match Parse(db.files[f].value.content.raw, cfg.defaultMaxTokens)
      case Parsed(lines) => CreatedTables(db, u, f, window, lines, now);
      case NoLines =>
      case Rejected(_) =>
    }
  }

  lemma {:induction false} RecordOne(stat: DispatchStat, task: Task, alpha: real)
    ensures RecordAll(stat, [task], alpha) == Record(stat, task, alpha)
  {
    assert [task][..0] == [];
  }

  lemma {:induction false} RecordConcat(stat: DispatchStat, a: seq<Task>, b: seq<Task>, alpha: real)
    ensures RecordAll(stat, a + b, alpha) == RecordAll(RecordAll(stat, a, alpha), b, alpha)
  {
    if b == [] {
      assert a + b == a;
    } else {
      assert (a + b)[..|a + b| - 1] == a + b[..|b| - 1];
      RecordConcat(stat, a, b[..|b| - 1], alpha);
    }
  }

  // Nothing but a completion moves the statistics.
  lemma StatStep(cfg: Settings, s: Sys, step: Step)
    requires cfg.defaultMaxTokens > 0
    ensures Apply(cfg, s, step).db.stat == RecordAll(s.db.stat, Completed(s, step), cfg.alpha)
  {
    if Settles(s, step) {
      SettleStat(s, step.flight, step.outcome, cfg.alpha, step.now);
      RecordOne(s.db.stat, SettledTask(s.db.tasks[SettledId(s, step)], step.outcome, step.now), cfg.alpha);
    } else if QuietKind(step) {
      QuietStat(cfg, s, step);
    } else {
      OtherStat(cfg, s, step);
    }
  }

  lemma OtherStat(cfg: Settings, s: Sys, step: Step)
    requires cfg.defaultMaxTokens > 0 && !Settles(s, step) && !QuietKind(step)
    ensures Apply(cfg, s, step).db.stat == s.db.stat
  {
    match step
    case Grant(u, tokens) =>
    case Submit(u, f, window, now) => SubmittedStat(s.db, cfg, u, f, window, now);
    case Settle(i, outcome, now) =>
    case SettleThenCrash(i, outcome, now, config) =>
    case Cancel(u, b, now) =>
      if OwnedBy(s.db.batches, b, u) && Cancellable(s.db.batches[b].status) {
        TerminatedTables(s.db, b, BATCH_CANCELLED, now);
      }
    case Expire(b, now) =>
      if b < |s.db.batches| && Overdue(s.db.batches[b], now) { TerminatedTables(s.db, b, EXPIRED, now); }
  }

  lemma {:induction false} StatOfRun(cfg: Settings, steps: seq<Step>)
    requires cfg.defaultMaxTokens > 0
    ensures Run(cfg, START, steps).db.stat == RecordAll(DispatchStat(None, None, 0), Completions(cfg, steps), cfg.alpha)
  {
    if steps != [] {
      var n := |steps| - 1;
      var s := Run(cfg, START, steps[..n]);
      StatOfRun(cfg, steps[..n]);
      StatStep(cfg, s, steps[n]);
      RecordConcat(DispatchStat(None, None, 0), Completions(cfg, steps[..n]), Completed(s, steps[n]), cfg.alpha);
    }
  }

  // Some run ends in s, having completed these tasks in this order.
  ghost predicate ReachedWith(cfg: Settings, s: Sys, completed: seq<Task>)
    requires cfg.defaultMaxTokens > 0
  {
    exists steps :: Run(cfg, START, steps) == s && Completions(cfg, steps) == completed
  }

  // However a state was reached, crashes and late settlements included: both averages are the
  // exponentially weighted averages of the samples accepted so far, in completion order, the
  // sample count is their number, and the bootstrap throughput is used as long as there is none.
  lemma {:induction false} ThroughputOfRun(cfg: Settings, s: Sys, completed: seq<Task>)
    requires ValidSettings(cfg) && ReachedWith(cfg, s, completed)
    ensures var xs := Samples(completed);
            && s.db.stat.tps == Ewma(xs, cfg.alpha)
            && s.db.stat.avgCompletion == Ewma(CompletionSamples(completed), cfg.alpha)
            && s.db.stat.samples == |xs|
            && SlotThroughput(s.db, cfg) > 0.0
            && SlotThroughput(s.db, cfg) == if xs == [] then cfg.bootstrapTps else WeightedSum(xs, cfg.alpha, |xs|, |xs|)
  {
    var steps :| Run(cfg, START, steps) == s && Completions(cfg, steps) == completed;
    var xs := Samples(completed);
    RunInv(cfg, steps);
    StatOfRun(cfg, steps);
    RecordedHistory(completed, cfg.alpha);
    BootstrapExactlyBeforeSamples(s.db, cfg);
    if xs != [] { EwmaClosedForm(xs, cfg.alpha); }
  }
}
