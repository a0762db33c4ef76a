// What other sessions may do between the two commits of a settlement.
module Interleaving {
  import opened Model
  import opened Ledger
  import opened BatchOps
  import opened Retention
  import opened Dispatching
  import opened Engine
  import opened Structure
  import opened Flights
  import opened Invariants
  import opened LifecycleRuns
  import opened Scenario
  import opened Stranding

  // The second commit.  Sessions do not expire what they have loaded when they commit, so it
  // decides by the batch row as the settlement saw it; it writes only the columns it sets.
  function SecondCommit(db: Db, b: nat, seen: Batch, now: Time): Db
    requires b < |db.batches|
  {
    if AllIn(seen) then WithResults(db, b, now) else db
  }

  // With nothing in between, this is the finalization that the settlement step performs.
  lemma NothingBetween(s: Sys, i: nat, outcome: Outcome, alpha: real, now: Time)
    requires CanSettle(s, i)
    ensures var first := FirstCommit(s, i, outcome, alpha, now);
            var b := s.db.tasks[s.flights[i].task].batch;
            && b < |first.db.batches|
            && FlightSettled(s, i, outcome, alpha, now) ==
               first.(db := SecondCommit(first.db, b, first.db.batches[b], now))
  {
    SettledTables(s.db, s.flights[i].task, outcome, alpha, now);
  }

  lemma SecondCommitRow(db: Db, b: nat, seen: Batch, now: Time)
    requires b < |db.batches| && AllIn(seen)
    ensures |SecondCommit(db, b, seen, now).batches| == |db.batches|
    ensures var row := SecondCommit(db, b, seen, now).batches[b];
            && row.status == BATCH_COMPLETED
            && row.cancelledAt == db.batches[b].cancelledAt && row.expiredAt == db.batches[b].expiredAt
    ensures db.batches[b] == seen ==> SecondCommit(db, b, seen, now) == Finalized(db, b, now)
  {
  }

  // A batch that ended in between carries the timestamp of its end.
  lemma EndedRow(db: Db, b: nat)
    requires StatusOk(db.tasks, db.batches) && b < |db.batches|
    ensures BatchOk(db.batches[b])
    ensures db.batches[b].status == BATCH_CANCELLED ==> db.batches[b].cancelledAt.Some?
    ensures db.batches[b].status == EXPIRED ==> db.batches[b].expiredAt.Some?
  {
  }

  // Whatever happens between the two commits of a batch's last settlement: the second commit is
  // the finalization of the committed state, and leaves a row as it should be, if and only if the
  // batch is still in progress.  Otherwise it was cancelled or expired in between, and the second
  // commit overwrites that end: the batch shows COMPLETED, with both ends' timestamps.
  lemma {:induction false} SecondCommitSound(cfg: Settings, s: Sys, i: nat, outcome: Outcome, now: Time, between: seq<Step>, later: Time)
    requires ValidSettings(cfg) && Reachable(cfg, s) && CanSettle(s, i)
    requires FinalizeDue(FirstCommit(s, i, outcome, cfg.alpha, now).db, s.db.tasks[s.flights[i].task].batch)
    ensures var b := s.db.tasks[s.flights[i].task].batch;
            var first := FirstCommit(s, i, outcome, cfg.alpha, now);
            var db := Run(cfg, first, between).db;
            && b < |db.batches|
            && var db' := SecondCommit(db, b, first.db.batches[b], later);
            && b < |db'.batches|
            && (db.batches[b].status == IN_PROGRESS ==> db' == Finalized(db, b, later))
            && (db.batches[b].status != IN_PROGRESS ==>
                  && (db.batches[b].status == BATCH_CANCELLED || db.batches[b].status == EXPIRED)
                  && db'.batches[b].status == BATCH_COMPLETED)
            && (BatchOk(db'.batches[b]) <==> db.batches[b].status == IN_PROGRESS)
  {
    var b := s.db.tasks[s.flights[i].task].batch;
    var first := FirstCommit(s, i, outcome, cfg.alpha, now);
    ReachableInv(cfg, s);
    FirstCommitInv(cfg, s, i, outcome, now);
    StrandedWithoutFiles(cfg, first, between, b);
    RunsOn(cfg, first, between);
    AfterBetween(cfg, Run(cfg, first, between), b, first.db.batches[b], later);
  }

  lemma AfterBetween(cfg: Settings, s: Sys, b: nat, seen: Batch, later: Time)
    requires ValidSettings(cfg) && Inv(cfg, s) && b < |s.db.batches|
    requires AllIn(seen) && StrandedOrEnded(seen, s.db.batches[b])
    ensures var db' := SecondCommit(s.db, b, seen, later);
            && b < |db'.batches|
            && (s.db.batches[b].status == IN_PROGRESS ==> db' == Finalized(s.db, b, later))
            && (s.db.batches[b].status != IN_PROGRESS ==> db'.batches[b].status == BATCH_COMPLETED)
            && (BatchOk(db'.batches[b]) <==> s.db.batches[b].status == IN_PROGRESS)
  {
    SecondCommitRow(s.db, b, seen, later);
    EndedRow(s.db, b);
    if s.db.batches[b].status == IN_PROGRESS {
      FinalizedInv(s.db, cfg.unhealthyThreshold, b, later);
      EndedRow(Finalized(s.db, b, later), b);
    }
  }

  // It does happen: the owner cancels between the two commits, and is told so; then the second
  // commit completes the cancelled batch.
  lemma CancellationOverwritten(cfg: Settings) returns (s: Sys)
    requires ValidSettings(cfg)
    ensures Reachable(cfg, s) && CanSettle(s, 0) && s.db.tasks[s.flights[0].task].batch == 0
    ensures var first := FirstCommit(s, 0, ANSWER, cfg.alpha, 0);
            var db := Apply(cfg, first, Cancel(0, 0, 0)).db;
            && |first.db.batches| == 1 && |db.batches| == 1 && db.batches[0].status == BATCH_CANCELLED
            && SecondCommit(db, 0, first.db.batches[0], 0).batches[0].status == BATCH_COMPLETED
  {
    s := Answered(cfg);
    var first := FirstCommit(s, 0, ANSWER, cfg.alpha, 0);
    SettledTables(s.db, 0, ANSWER, cfg.alpha, 0);
    TerminatedTables(first.db, 0, BATCH_CANCELLED, 0);
  }
}
