// A reachable overspend: one late settlement, although every task stays within its reservation.
module Overspend {
  import opened Model
  import opened Ledger
  import opened BatchOps
  import opened Dispatching
  import opened Engine
  import opened BudgetRuns
  import opened Scenario

  // The freed tokens are reserved again.
  lemma Resubmitted(cfg: Settings) returns (steps: seq<Step>)
    requires cfg.defaultMaxTokens > 0
    ensures Reaches(cfg, steps, Budget(7, 7, 0), [ENDED0, OneRequestBatch()], [STOPPED0, NewTask(1, PARSED)],
                    [Flight(0, "a", RETURNED)], 0)
  {
    var before := Cancelled(cfg);
    before := ThenSubmit(cfg, before, Budget(7, 0, 0), [ENDED0], [STOPPED0], [Flight(0, "a", EXECUTING)], 1);
    assert [ENDED0] + [OneRequestBatch()] == [ENDED0, OneRequestBatch()];
    steps := ThenReturn(cfg, before, Budget(7, 7, 0), [ENDED0, OneRequestBatch()], [STOPPED0, NewTask(1, PARSED)], 0);
  }

  // The cancelled task's answer is settled, and releases what the second batch holds.
  lemma SettledLate(cfg: Settings) returns (steps: seq<Step>)
    requires cfg.defaultMaxTokens > 0
    ensures Reaches(cfg, steps, Budget(7, 0, 7), [COUNTED0, OneRequestBatch()], [LATE0, NewTask(1, PARSED)],
                    [Flight(0, "a", DONE)], 0)
  {
    var batches, tasks := [ENDED0, OneRequestBatch()], [STOPPED0, NewTask(1, PARSED)];
    var before := Resubmitted(cfg);
    steps := ThenSettle(cfg, before, Budget(7, 7, 0), batches, tasks, 0);
    assert batches[0 := COUNTED0] == [COUNTED0, OneRequestBatch()];
    assert tasks[0 := LATE0] == [LATE0, NewTask(1, PARSED)];
  }

  // Reachable without any task using more than it had reserved.
  ghost predicate ReachableFrugally(cfg: Settings, s: Sys)
    requires cfg.defaultMaxTokens > 0
  {
    exists steps :: Run(cfg, START, steps) == s && StaysWithinReservations(cfg, steps)
  }

  // A budget can be overrun: seven tokens granted, fourteen used, in a state reached without
  // any task using more than it had reserved.  So the promise of BudgetNeverOverrun does not
  // extend to runs with a late settlement.
  lemma LateSettlementOverruns(cfg: Settings) returns (s: Sys)
    requires cfg.defaultMaxTokens > 0
    ensures ReachableFrugally(cfg, s)
    ensures BudgetOf(s.db, 0) == Budget(7, 0, 14) && BudgetOf(s.db, 0).Available() < 0
  {
    var batches, tasks := [COUNTED0, OneRequestBatch()], [LATE0, NewTask(1, PARSED)];
    var running := tasks[1 := Started(tasks[1], "a", 0)];
    var steps := SettledLate(cfg);
    steps := ThenPass(cfg, steps, Budget(7, 0, 7), batches, tasks, [Flight(0, "a", DONE)], 1);
    steps := ThenReturn(cfg, steps, Budget(7, 0, 7), batches, running, 1);
    steps := ThenSettle(cfg, steps, Budget(7, 0, 7), batches, running, 1);
    s := Run(cfg, START, steps);
  }
}
