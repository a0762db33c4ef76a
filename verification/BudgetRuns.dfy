// Budgets over whole runs of the service.
module BudgetRuns {
  import opened Model
  import opened Sums
  import opened Ledger
  import opened Parsing
  import opened BatchOps
  import opened Retention
  import opened Dispatching
  import opened Engine
  import opened Structure
  import opened Flights
  import opened Conservation
  import opened Audit
  import opened Invariants

  // --- One step. ---

  function StepDrift(s: Sys, step: Step, u: UserId): nat {
    if Settles(s, step) then DriftOf(s.db, SettledId(s, step), u) else 0
  }

  function StepOverrun(s: Sys, step: Step, u: UserId): nat {
    if Settles(s, step) then OverrunOf(s.db, SettledId(s, step), step.outcome, u) else 0
  }

  lemma StartedLiveness(tasks: seq<Task>, tasks': seq<Task>)
    requires |tasks'| == |tasks| && forall t :: 0 <= t < |tasks| ==> StartedOrSame(tasks[t], tasks'[t])
    ensures SameLiveness(tasks, tasks')
  {
    forall t | 0 <= t < |tasks|
      ensures tasks'[t].batch == tasks[t].batch && tasks'[t].lineIndex == tasks[t].lineIndex
      ensures tasks'[t].customId == tasks[t].customId && tasks'[t].reserved == tasks[t].reserved
      ensures tasks'[t].Live() <==> tasks[t].Live()
    {
      assert StartedOrSame(tasks[t], tasks'[t]);
    }
  }

  lemma RestartedWithin(s: Sys, config: map<string, int>, u: UserId, drift: nat, overrun: nat)
    requires RowsOk(s.db.tasks, s.db.batches) && Within(s.db, u, drift, overrun)
    ensures Within(Restarted(s, config).db, u, drift, overrun)
  {
    WithinKept(s.db, Restarted(s, config).db, u, drift, overrun);
  }

  lemma SettleWithin(s: Sys, i: nat, outcome: Outcome, alpha: real, now: Time, u: UserId, drift: nat, overrun: nat)
    requires CanSettle(s, i) && RowsOk(s.db.tasks, s.db.batches) && Within(s.db, u, drift, overrun)
    ensures Within(FlightSettled(s, i, outcome, alpha, now).db, u,
                   drift + DriftOf(s.db, s.flights[i].task, u),
                   overrun + OverrunOf(s.db, s.flights[i].task, outcome, u))
  {
    var t := s.flights[i].task;
    var b := s.db.tasks[t].batch;
    var db1 := Settled(s.db, t, outcome, alpha, now);
    SettledWithin(s.db, t, outcome, alpha, now, u, drift, overrun);
    SettledTables(s.db, t, outcome, alpha, now);
    FinalizedTables(db1, b, now);
    WithinKept(db1, Finalized(db1, b, now), u,
               drift + DriftOf(s.db, t, u), overrun + OverrunOf(s.db, t, outcome, u));
  }

  lemma QuietStep(cfg: Settings, s: Sys, step: Step)
    requires cfg.defaultMaxTokens > 0 && QuietKind(step)
    ensures var db' := Apply(cfg, s, step).db;
            && SameLiveness(s.db.tasks, db'.tasks) && SameOwners(s.db.batches, db'.batches)
            && |db'.batches| == |s.db.batches|
            && db'.budgets == s.db.budgets && db'.ledger == s.db.ledger
  {
    if step.StartPass? && PassOver(s.flights) && ClaimQuery(s.db, step.ids) && HealthyQuery(s.db.nodes, step.names) {
      PassStartRows(s, step.ids, step.names, step.now);
      StartedLiveness(s.db.tasks, PassStarted(s, step.ids, step.names, step.now).db.tasks);
    }
  }

  lemma CrashWithin(s: Sys, i: nat, outcome: Outcome, alpha: real, now: Time, config: map<string, int>,
                    u: UserId, drift: nat, overrun: nat)
    requires CanSettle(s, i) && RowsOk(s.db.tasks, s.db.batches) && Within(s.db, u, drift, overrun)
    ensures Within(Restarted(s.(db := Settled(s.db, s.flights[i].task, outcome, alpha, now)), config).db, u,
                   drift + DriftOf(s.db, s.flights[i].task, u),
                   overrun + OverrunOf(s.db, s.flights[i].task, outcome, u))
  {
    var t := s.flights[i].task;
    SettledWithin(s.db, t, outcome, alpha, now, u, drift, overrun);
    SettledRows(s.db, t, outcome, alpha, now);
    RestartedWithin(s.(db := Settled(s.db, t, outcome, alpha, now)), config, u,
                    drift + DriftOf(s.db, t, u), overrun + OverrunOf(s.db, t, outcome, u));
  }

  lemma SubmittedWithin(db: Db, cfg: Settings, v: UserId, f: nat, window: string, now: Time,
                        u: UserId, drift: nat, overrun: nat)
    requires ValidSettings(cfg) && RowsOk(db.tasks, db.batches) && Within(db, u, drift, overrun)
    ensures Within(Submitted(db, cfg, v, f, window, now), u, drift, overrun)
  {
    if SubmittableFile(db, v, f) && window == "24h" {
      match Parse(db.files[f].value.content.raw, cfg.defaultMaxTokens)
      case Parsed(lines) => CreatedWithin(db, v, f, window, lines, now, u, drift, overrun);
      case NoLines =>
      case Rejected(_) =>
    }
  }

  lemma WithinStep(cfg: Settings, s: Sys, step: Step, u: UserId, drift: nat, overrun: nat)
    requires ValidSettings(cfg) && Inv(cfg, s) && Within(s.db, u, drift, overrun)
    ensures Within(Apply(cfg, s, step).db, u, drift + StepDrift(s, step, u), overrun + StepOverrun(s, step, u))
  {
    if QuietKind(step) {
      QuietStep(cfg, s, step);
      WithinKept(s.db, Apply(cfg, s, step).db, u, drift, overrun);
    } else {
      match step
      case Grant(v, tokens) => GrantWithin(s.db, v, tokens, u, drift, overrun);
      case Submit(v, f, window, now) => SubmittedWithin(s.db, cfg, v, f, window, now, u, drift, overrun);
      case Settle(i, outcome, now) =>
        if CanSettle(s, i) { SettleWithin(s, i, outcome, cfg.alpha, now, u, drift, overrun); }
      case SettleThenCrash(i, outcome, now, config) =>
        if CanSettle(s, i) { CrashWithin(s, i, outcome, cfg.alpha, now, config, u, drift, overrun); }
      case Cancel(v, b, now) => EndingWithin(cfg, s, step, u, drift, overrun);
      case Expire(b, now) => EndingWithin(cfg, s, step, u, drift, overrun);
    }
  }

  lemma EndingWithin(cfg: Settings, s: Sys, step: Step, u: UserId, drift: nat, overrun: nat)
    requires cfg.defaultMaxTokens > 0 && (step.Cancel? || step.Expire?)
    requires RowsOk(s.db.tasks, s.db.batches) && Within(s.db, u, drift, overrun)
    ensures Within(Apply(cfg, s, step).db, u, drift, overrun)
  {
    if step.Cancel? {
      if OwnedBy(s.db.batches, step.batch, step.user) && Cancellable(s.db.batches[step.batch].status) {
        TerminatedWithin(s.db, step.batch, BATCH_CANCELLED, step.now, u, drift, overrun);
      }
    } else if step.batch < |s.db.batches| && Overdue(s.db.batches[step.batch], step.now) {
      TerminatedWithin(s.db, step.batch, EXPIRED, step.now, u, drift, overrun);
    }
  }

  lemma SettledRows(db: Db, t: nat, outcome: Outcome, alpha: real, now: Time)
    requires t < |db.tasks| && RowsOk(db.tasks, db.batches)
    ensures RowsOk(Settled(db, t, outcome, alpha, now).tasks, Settled(db, t, outcome, alpha, now).batches)
  {
    SettledTables(db, t, outcome, alpha, now);
  }

  // --- Whole runs. ---

  // Over the run so far: reservations of u released twice, and usage of u nobody reserved.
  function Drift(cfg: Settings, steps: seq<Step>, u: UserId): nat
    requires cfg.defaultMaxTokens > 0
  {
    if steps == [] then 0
    else
      var n := |steps| - 1;
      Drift(cfg, steps[..n], u) + StepDrift(Run(cfg, START, steps[..n]), steps[n], u)
  }

  function Overrun(cfg: Settings, steps: seq<Step>, u: UserId): nat
    requires cfg.defaultMaxTokens > 0
  {
    if steps == [] then 0
    else
      var n := |steps| - 1;
      Overrun(cfg, steps[..n], u) + StepOverrun(Run(cfg, START, steps[..n]), steps[n], u)
  }

  // Bounded overspend, late settlements included: a budget never reserves more than its live
  // tasks hold, lags behind them by at most what was released twice, and never commits more
  // than was granted plus that and the unreserved usage.
  lemma {:induction false} BoundedOverspend(cfg: Settings, steps: seq<Step>, u: UserId)
    requires ValidSettings(cfg)
    ensures Within(Run(cfg, START, steps).db, u, Drift(cfg, steps, u), Overrun(cfg, steps, u))
    ensures BudgetOf(Run(cfg, START, steps).db, u).Available() >= -(Drift(cfg, steps, u) + Overrun(cfg, steps, u))
  {
    if steps == [] {
      assert Hold(START.db, u) == 0;
    } else {
      var n := |steps| - 1;
      BoundedOverspend(cfg, steps[..n], u);
      RunInv(cfg, steps[..n]);
      WithinStep(cfg, Run(cfg, START, steps[..n]), steps[n], u,
                 Drift(cfg, steps[..n], u), Overrun(cfg, steps[..n], u));
    }
  }

  lemma {:induction false} NeverLateNoDrift(cfg: Settings, steps: seq<Step>, u: UserId)
    requires ValidSettings(cfg) && NeverLate(cfg, START, steps)
    ensures Drift(cfg, steps, u) == 0
  {
    if steps != [] { NeverLateNoDrift(cfg, steps[..|steps| - 1], u); }
  }

  // Without late settlements every budget's reserved_tokens is exactly what its live tasks hold.
  lemma {:induction false} ExactConservation(cfg: Settings, steps: seq<Step>)
    requires ValidSettings(cfg) && NeverLate(cfg, START, steps)
    ensures Conserved(Run(cfg, START, steps).db)
  {
    forall u ensures BudgetOf(Run(cfg, START, steps).db, u).reserved == Hold(Run(cfg, START, steps).db, u) {
      BoundedOverspend(cfg, steps, u);
      NeverLateNoDrift(cfg, steps, u);
    }
  }

  // No completion on the run used more than its task had reserved.
  predicate StaysWithinReservations(cfg: Settings, steps: seq<Step>)
    requires cfg.defaultMaxTokens > 0
  {
    steps == [] ||
    (var n := |steps| - 1;
     var s := Run(cfg, START, steps[..n]);
     && StaysWithinReservations(cfg, steps[..n])
     && (Settles(s, steps[n]) ==> Used(steps[n].outcome) <= s.db.tasks[SettledId(s, steps[n])].reserved))
  }

  lemma {:induction false} NoOverrun(cfg: Settings, steps: seq<Step>, u: UserId)
    requires ValidSettings(cfg) && NeverLate(cfg, START, steps) && StaysWithinReservations(cfg, steps)
    ensures Overrun(cfg, steps, u) == 0
  {
    if steps != [] {
      NoOverrun(cfg, steps[..|steps| - 1], u);
    }
  }

  // Reachable without a late settlement and without a task using more than it had reserved.
  ghost predicate ReachableInBounds(cfg: Settings, s: Sys)
    requires cfg.defaultMaxTokens > 0
  {
    exists steps ::
      && Run(cfg, START, steps) == s
      && NeverLate(cfg, START, steps) && StaysWithinReservations(cfg, steps)
  }

  // The promise that a budget can never be overrun, where it is kept.
  lemma BudgetNeverOverrun(cfg: Settings, s: Sys, u: UserId)
    requires ValidSettings(cfg) && ReachableInBounds(cfg, s)
    ensures BudgetOf(s.db, u).Available() >= 0
  {
    var steps :| Run(cfg, START, steps) == s && NeverLate(cfg, START, steps) && StaysWithinReservations(cfg, steps);
    BoundedOverspend(cfg, steps, u);
    NeverLateNoDrift(cfg, steps, u);
    NoOverrun(cfg, steps, u);
  }

  // --- What exactly takes a budget below zero. ---

  // The settlement uses more than the owner has available and gets released for it.
  predicate Overruns(s: Sys, step: Step, u: UserId) {
    && Settles(s, step)
    && var t := s.db.tasks[SettledId(s, step)];
    && s.db.batches[t.batch].user == u
    && Used(step.outcome) > BudgetOf(s.db, u).Available() + Min(t.reserved, BudgetOf(s.db, u).reserved)
  }

  lemma SettleAvailable(s: Sys, i: nat, outcome: Outcome, alpha: real, now: Time, u: UserId)
    requires CanSettle(s, i) && BudgetOf(s.db, u).reserved >= 0
    ensures var t := s.db.tasks[s.flights[i].task];
            var left := BudgetOf(s.db, u).Available();
            var left' := if s.db.batches[t.batch].user == u
                         then left + Min(t.reserved, BudgetOf(s.db, u).reserved) - Used(outcome) else left;
            && BudgetOf(Settled(s.db, s.flights[i].task, outcome, alpha, now), u).Available() == left'
            && BudgetOf(FlightSettled(s, i, outcome, alpha, now).db, u).Available() == left'
  {
    var t := s.flights[i].task;
    SettledBudget(s.db, t, outcome, alpha, now, u);
    SettledTables(s.db, t, outcome, alpha, now);
    FinalizedTables(Settled(s.db, t, outcome, alpha, now), s.db.tasks[t].batch, now);
  }

  lemma SubmittedAvailable(db: Db, cfg: Settings, v: UserId, f: nat, window: string, now: Time, u: UserId)
    requires cfg.defaultMaxTokens > 0 && BudgetOf(db, u).Available() >= 0
    ensures BudgetOf(Submitted(db, cfg, v, f, window, now), u).Available() >= 0
  {
    if SubmittableFile(db, v, f) && window == "24h" {
      match Parse(db.files[f].value.content.raw, cfg.defaultMaxTokens)
      case Parsed(lines) =>
        if Refusal(db, SubmitOp(db, v, lines)).None? { CreatedBudget(db, v, f, window, lines, now, u); }
      case NoLines =>
      case Rejected(_) =>
    }
  }

  lemma GrantAvailable(db: Db, v: UserId, tokens: int, u: UserId)
    requires BudgetOf(db, u).Available() >= 0
    ensures BudgetOf(Perform(db, GrantOp(v, tokens)), u).Available() >= 0
  {
    if tokens > 0 { PostBudget(db, GrantEntry(v, tokens), u); }
  }

  lemma TerminatedAvailable(db: Db, b: nat, status: BatchStatus, now: Time, u: UserId)
    requires b < |db.batches| && BudgetOf(db, u).reserved >= 0 && BudgetOf(db, u).Available() >= 0
    ensures BudgetOf(Terminated(db, b, status, now), u).Available() >= 0
  {
    TerminatedBudget(db, b, status, now, u);
  }

  lemma QuietAvailable(cfg: Settings, s: Sys, step: Step, u: UserId)
    requires cfg.defaultMaxTokens > 0 && QuietKind(step)
    ensures BudgetOf(Apply(cfg, s, step).db, u) == BudgetOf(s.db, u)
  {
    QuietStep(cfg, s, step);
  }

  // Nothing but a settlement can take a budget below zero.
  lemma OthersStayAvailable(cfg: Settings, s: Sys, step: Step, u: UserId)
    requires cfg.defaultMaxTokens > 0 && !step.Settle? && !step.SettleThenCrash?
    requires BudgetOf(s.db, u).reserved >= 0 && BudgetOf(s.db, u).Available() >= 0
    ensures BudgetOf(Apply(cfg, s, step).db, u).Available() >= 0
  {
    if QuietKind(step) {
      QuietAvailable(cfg, s, step, u);
    } else {
      match step
      case Grant(v, tokens) => GrantAvailable(s.db, v, tokens, u);
      case Submit(v, f, window, now) => SubmittedAvailable(s.db, cfg, v, f, window, now, u);
      case Cancel(v, b, now) =>
        if OwnedBy(s.db.batches, b, v) && Cancellable(s.db.batches[b].status) {
          TerminatedAvailable(s.db, b, BATCH_CANCELLED, now, u);
        }
      case Expire(b, now) =>
        if b < |s.db.batches| && Overdue(s.db.batches[b], now) { TerminatedAvailable(s.db, b, EXPIRED, now, u); }
    }
  }

  // A step takes a budget below zero if and only if it settles a task of that user whose
  // usage exceeds what is available plus what the settlement releases.
  lemma OverrunExactly(cfg: Settings, s: Sys, step: Step, u: UserId)
    requires cfg.defaultMaxTokens > 0
    requires BudgetOf(s.db, u).reserved >= 0 && BudgetOf(s.db, u).Available() >= 0
    ensures BudgetOf(Apply(cfg, s, step).db, u).Available() < 0 <==> Overruns(s, step, u)
  {
    if step.Settle? || step.SettleThenCrash? {
      if CanSettle(s, step.flight) { SettleAvailable(s, step.flight, step.outcome, cfg.alpha, step.now, u); }
    } else {
      OthersStayAvailable(cfg, s, step, u);
    }
  }

  // --- Batch by batch. ---

  lemma SettleClosed(s: Sys, i: nat, outcome: Outcome, alpha: real, now: Time)
    requires CanSettle(s, i) && RowsOk(s.db.tasks, s.db.batches) && s.db.tasks[s.flights[i].task].Live()
    requires Closed(s.db) && Conserved(s.db)
    ensures Closed(FlightSettled(s, i, outcome, alpha, now).db)
  {
    var t := s.flights[i].task;
    var db1 := Settled(s.db, t, outcome, alpha, now);
    SettledClosed(s.db, t, outcome, alpha, now);
    SettledRows(s.db, t, outcome, alpha, now);
    SettledTables(s.db, t, outcome, alpha, now);
    FinalizedTables(db1, s.db.tasks[t].batch, now);
    QuietClosed(db1, Finalized(db1, s.db.tasks[t].batch, now));
  }

  lemma CrashClosed(s: Sys, i: nat, outcome: Outcome, alpha: real, now: Time, config: map<string, int>)
    requires CanSettle(s, i) && RowsOk(s.db.tasks, s.db.batches) && s.db.tasks[s.flights[i].task].Live()
    requires Closed(s.db) && Conserved(s.db)
    ensures Closed(Restarted(s.(db := Settled(s.db, s.flights[i].task, outcome, alpha, now)), config).db)
  {
    var t := s.flights[i].task;
    var db1 := Settled(s.db, t, outcome, alpha, now);
    SettledClosed(s.db, t, outcome, alpha, now);
    SettledRows(s.db, t, outcome, alpha, now);
    QuietClosed(db1, Restarted(s.(db := db1), config).db);
  }

  lemma SubmittedClosed(db: Db, cfg: Settings, v: UserId, f: nat, window: string, now: Time)
    requires ValidSettings(cfg) && RowsOk(db.tasks, db.batches) && EntriesOk(db) && Closed(db)
    ensures Closed(Submitted(db, cfg, v, f, window, now))
  {
    if SubmittableFile(db, v, f) && window == "24h" {
      match Parse(db.files[f].value.content.raw, cfg.defaultMaxTokens)
      case Parsed(lines) => CreatedClosed(db, v, f, window, lines, now);
      case NoLines =>
      case Rejected(_) =>
    }
  }

  lemma ClosedStep(cfg: Settings, s: Sys, step: Step)
    requires ValidSettings(cfg) && Inv(cfg, s) && !Late(s, step)
    requires Closed(s.db) && Conserved(s.db)
    ensures Closed(Apply(cfg, s, step).db)
  {
    if QuietKind(step) {
      QuietStep(cfg, s, step);
      QuietClosed(s.db, Apply(cfg, s, step).db);
    } else {
      match step
      case Grant(v, tokens) => GrantClosed(s.db, v, tokens);
      case Submit(v, f, window, now) => SubmittedClosed(s.db, cfg, v, f, window, now);
      case Settle(i, outcome, now) =>
        if CanSettle(s, i) { SettleClosed(s, i, outcome, cfg.alpha, now); }
      case SettleThenCrash(i, outcome, now, config) =>
        if CanSettle(s, i) { CrashClosed(s, i, outcome, cfg.alpha, now, config); }
      case Cancel(v, b, now) => EndingClosed(cfg, s, step);
      case Expire(b, now) => EndingClosed(cfg, s, step);
    }
  }

  lemma EndingClosed(cfg: Settings, s: Sys, step: Step)
    requires cfg.defaultMaxTokens > 0 && (step.Cancel? || step.Expire?)
    requires RowsOk(s.db.tasks, s.db.batches) && Closed(s.db) && Conserved(s.db)
    ensures Closed(Apply(cfg, s, step).db)
  {
    if step.Cancel? {
      if OwnedBy(s.db.batches, step.batch, step.user) && Cancellable(s.db.batches[step.batch].status) {
        TerminatedClosed(s.db, step.batch, BATCH_CANCELLED, step.now);
      }
    } else if step.batch < |s.db.batches| && Overdue(s.db.batches[step.batch], step.now) {
      TerminatedClosed(s.db, step.batch, EXPIRED, step.now);
    }
  }

  // Without late settlements the ledger closes batch by batch: what its entries still hold
  // for a batch is what the batch's live tasks hold, so nothing for a terminal batch.
  lemma {:induction false} LedgerClosesPerBatch(cfg: Settings, steps: seq<Step>)
    requires ValidSettings(cfg) && NeverLate(cfg, START, steps)
    ensures Closed(Run(cfg, START, steps).db)
    ensures forall b :: 0 <= b < |Run(cfg, START, steps).db.batches|
                        && Run(cfg, START, steps).db.batches[b].status != IN_PROGRESS ==>
                          Sum(Run(cfg, START, steps).db.ledger, ReservedFor(b)) == 0
  {
    var s := Run(cfg, START, steps);
    if steps != [] {
      var n := |steps| - 1;
      LedgerClosesPerBatch(cfg, steps[..n]);
      ExactConservation(cfg, steps[..n]);
      RunInv(cfg, steps[..n]);
      ClosedStep(cfg, Run(cfg, START, steps[..n]), steps[n]);
    }
    RunInv(cfg, steps);
    forall b | 0 <= b < |s.db.batches| && s.db.batches[b].status != IN_PROGRESS
      ensures Sum(s.db.ledger, ReservedFor(b)) == 0
    {
      assert BatchClosed(s.db.ledger, s.db.tasks, b);
      TerminalHoldsNothing(s.db, b);
    }
  }

  // In every reachable state the usage shown for a batch is what its completed tasks used, the
  // dashboard shows the same figure, the figures of a user's batches add up to the user's
  // used_tokens, and replaying the ledger gives the whole budget row.
  lemma {:induction false} UsageAddsUp(cfg: Settings, s: Sys, u: UserId)
    requires ValidSettings(cfg) && Reachable(cfg, s)
    ensures BudgetOf(s.db, u) == Replayed(s.db.ledger, u)
    ensures GroupTotals(s.db.ledger, s.db.batches, u, |s.db.batches|) == BudgetOf(s.db, u).used
    ensures forall b :: OwnedBy(s.db.batches, b, u) ==>
                          Sum(s.db.ledger, DashboardGroup(u, b)) == Sum(s.db.ledger, ChargedTo(b)) == Sum(s.db.tasks, UsageOf(b))
  {
    var db := s.db;
    ReachableInv(cfg, s);
    assert BudgetOf(db, u) == Replayed(db.ledger, u);
    GroupsAddUp(db.ledger, db.tasks, db.batches, u);
    forall b | OwnedBy(db.batches, b, u)
      ensures Sum(db.ledger, DashboardGroup(u, b)) == Sum(db.ledger, ChargedTo(b)) == Sum(db.tasks, UsageOf(b))
    {
      DashboardAgrees(db, u, b);
      assert BatchAudited(db.ledger, db.tasks, b);
    }
  }
}
