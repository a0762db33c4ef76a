// When batches end, and when their results go, by the clock.
module Deadlines {
  import opened Model
  import opened Sums
  import opened Ledger
  import opened BatchOps
  import opened Retention
  import opened Dispatching
  import opened Engine
  import opened Structure
  import opened Conservation
  import opened Files
  import opened Invariants
  import opened LifecycleRuns
  import opened Submissions

  // --- Ending one batch. ---

  function StoppedAt(t: Task, now: Time): Task {
    if t.status == PENDING || t.status == RUNNING then t.(status := CANCELLED, finishedAt := Some(now)) else t
  }

  // What batch b's pending and running tasks have reserved.
  function HoldOf(b: nat): Task -> int {
    (t: Task) => if t.batch == b && (t.status == PENDING || t.status == RUNNING) then t.reserved else 0
  }

  // Batch b became this row, its open tasks stopped, the hold of its owner shrank by what they
  // had reserved, as far as there was any, and nobody else was touched.
  ghost predicate EndedAs(db: Db, db': Db, b: nat, batch': Batch, now: Time)
    requires b < |db.batches|
  {
    && db'.batches == db.batches[b := batch'] && |db'.tasks| == |db.tasks|
    && (forall t :: 0 <= t < |db.tasks| ==>
                      db'.tasks[t] == if db.tasks[t].batch == b then StoppedAt(db.tasks[t], now) else db.tasks[t])
    && var u, held := db.batches[b].user, Sum(db.tasks, HoldOf(b));
       var budget := BudgetOf(db, u);
       && BudgetOf(db', u) == budget.(reserved := if held == 0 then budget.reserved else Max(0, budget.reserved - held))
       && (forall v :: v != u ==> BudgetOf(db', v) == BudgetOf(db, v))
  }

  lemma EndedByTermination(db: Db, b: nat, status: BatchStatus, now: Time)
    requires b < |db.batches|
    ensures EndedAs(db, Terminated(db, b, status, now), b, TerminalBatch(db.batches[b], status, now), now)
  {
    var u := db.batches[b].user;
    TerminatedTables(db, b, status, now);
    SumSame(db.tasks, HoldOf(b), db.tasks, HeldBy(b));
    SumNonNegative(db.tasks, HoldOf(b));
    TerminatedBudget(db, b, status, now, u);
    forall v | v != u ensures BudgetOf(Terminated(db, b, status, now), v) == BudgetOf(db, v) {
      TerminatedBudget(db, b, status, now, v);
    }
  }

  // A cancel request ends the batch exactly if it is the caller's and still open.
  lemma CancelEffect(cfg: Settings, s: Sys, u: UserId, b: nat, now: Time)
    requires cfg.defaultMaxTokens > 0
    ensures var s' := Apply(cfg, s, Cancel(u, b, now));
            if b < |s.db.batches| && s.db.batches[b].user == u
               && (s.db.batches[b].status == VALIDATING || s.db.batches[b].status == IN_PROGRESS)
            then EndedAs(s.db, s'.db, b, s.db.batches[b].(status := BATCH_CANCELLED, cancelledAt := Some(now)), now)
                 && s'.flights == s.flights && s'.inFlight == s.inFlight
            else s' == s
  {
    if OwnedBy(s.db.batches, b, u) { EndedByTermination(s.db, b, BATCH_CANCELLED, now); }
  }

  // An expiry ends the batch exactly if it is still open and its deadline has passed.
  lemma ExpireEffect(cfg: Settings, s: Sys, b: nat, now: Time)
    requires cfg.defaultMaxTokens > 0
    ensures var s' := Apply(cfg, s, Expire(b, now));
            if b < |s.db.batches|
               && (s.db.batches[b].status == VALIDATING || s.db.batches[b].status == IN_PROGRESS)
               && s.db.batches[b].expiresAt.Some? && s.db.batches[b].expiresAt.value < now
            then EndedAs(s.db, s'.db, b, s.db.batches[b].(status := EXPIRED, expiredAt := Some(now)), now)
                 && s'.flights == s.flights && s'.inFlight == s.inFlight
            else s' == s
  {
    if b < |s.db.batches| { EndedByTermination(s.db, b, EXPIRED, now); }
  }

  // --- The retention pass. ---

  function ExpireSteps(ids: seq<nat>, now: Time): (steps: seq<Step>)
    ensures |steps| == |ids| && forall k :: 0 <= k < |ids| ==> steps[k] == Expire(ids[k], now)
  {
    seq(|ids|, k requires 0 <= k < |ids| => Expire(ids[k], now))
  }

  ghost predicate Leads(cfg: Settings, s: Sys, step: Step, s': Sys)
    requires cfg.defaultMaxTokens > 0
  {
    Apply(cfg, s, step) == s'
  }

  // A run that goes through these states, one step at a time.
  lemma {:induction false} RunThrough(cfg: Settings, steps: seq<Step>, states: seq<Sys>)
    requires cfg.defaultMaxTokens > 0 && |states| == |steps| + 1
    requires forall i :: 0 <= i < |steps| ==> Leads(cfg, states[i], steps[i], states[i + 1])
    ensures Run(cfg, states[0], steps) == states[|steps|]
  {
    if steps != [] {
      var n := |steps| - 1;
      RunThrough(cfg, steps[..n], states[..n + 1]);
      assert Leads(cfg, states[n], steps[n], states[n + 1]);
    }
  }

  // One commit of the pass: a batch that is due is ended.
  ghost predicate ExpiresTo(db: Db, b: nat, now: Time, db': Db) {
    b < |db.batches| && Overdue(db.batches[b], now) && db' == Terminated(db, b, EXPIRED, now)
  }

  ghost predicate Commits(dbs: seq<Db>, ids: seq<nat>, now: Time) {
    && |dbs| == |ids| + 1
    && forall k :: 0 <= k < |ids| ==> ExpiresTo(dbs[k], ids[k], now, dbs[k + 1])
  }

  lemma OneCommit(db: Db, ids: seq<nat>, k: nat, now: Time)
    requires k < |ids|
    requires forall i :: 0 <= i < |ids| ==> ids[i] < |db.batches| && Overdue(db.batches[ids[i]], now)
    requires forall i, j :: 0 <= i < j < |ids| ==> ids[i] < ids[j]
    ensures ExpiresTo(ExpiredFirst(db, ids, k, now), ids[k], now, ExpiredFirst(db, ids, k + 1, now))
  {
    NextStillDue(db, ids, k, now);
  }

  lemma PassCommits(db: Db, ids: seq<nat>, now: Time) returns (dbs: seq<Db>)
    requires forall i :: 0 <= i < |ids| ==> ids[i] < |db.batches| && Overdue(db.batches[ids[i]], now)
    requires forall i, j :: 0 <= i < j < |ids| ==> ids[i] < ids[j]
    ensures Commits(dbs, ids, now) && dbs[0] == db && dbs[|ids|] == ExpiredFirst(db, ids, |ids|, now)
  {
    dbs := seq(|ids| + 1, k requires 0 <= k <= |ids| => ExpiredFirst(db, ids, k, now));
    forall k | 0 <= k < |ids| ensures ExpiresTo(dbs[k], ids[k], now, dbs[k + 1]) { OneCommit(db, ids, k, now); }
  }

  lemma OneExpiry(cfg: Settings, s: Sys, db: Db, b: nat, now: Time, db': Db)
    requires cfg.defaultMaxTokens > 0 && ExpiresTo(db, b, now, db')
    ensures Leads(cfg, s.(db := db), Expire(b, now), s.(db := db'))
  {
  }

  // Task t has been stopped if its batch is one of those ended so far.
  ghost predicate StoppedWith(task: Task, tasks': seq<Task>, t: nat, ended: seq<nat>, now: Time) {
    t < |tasks'| && tasks'[t] == if task.batch in ended then StoppedAt(task, now) else task
  }

  lemma StoppedNext(task: Task, db: Db, t: nat, ended: seq<nat>, b: nat, now: Time, db': Db)
    requires ExpiresTo(db, b, now, db')
    ensures |db'.tasks| == |db.tasks|
    ensures StoppedWith(task, db.tasks, t, ended, now) ==> StoppedWith(task, db'.tasks, t, ended + [b], now)
  {
    TerminatedTables(db, b, EXPIRED, now);
  }

  lemma {:induction false} StoppedThrough(dbs: seq<Db>, ids: seq<nat>, now: Time, t: nat, task: Task)
    requires Commits(dbs, ids, now) && t < |dbs[0].tasks| && task == dbs[0].tasks[t]
    ensures |dbs[|ids|].tasks| == |dbs[0].tasks| && StoppedWith(task, dbs[|ids|].tasks, t, ids, now)
  {
    if ids != [] {
      var n := |ids| - 1;
      StoppedThrough(dbs[..n + 1], ids[..n], now, t, task);
      assert ExpiresTo(dbs[n], ids[n], now, dbs[n + 1]);
      StoppedNext(task, dbs[n], t, ids[..n], ids[n], now, dbs[n + 1]);
      assert ids == ids[..n] + [ids[n]];
    }
  }

  // A pass ends exactly the open batches whose deadline has passed, and stops exactly their
  // pending and running tasks.
  lemma ExpirePassEffect(db: Db, now: Time, b: nat, t: nat)
    requires b < |db.batches| && t < |db.tasks|
    ensures var db', batch := ExpirePass(db, now), db.batches[b];
            var ends := (batch.status == VALIDATING || batch.status == IN_PROGRESS)
                        && batch.expiresAt.Some? && batch.expiresAt.value < now;
            && |db'.batches| == |db.batches| && |db'.tasks| == |db.tasks|
            && db'.batches[b] == (if ends then batch.(status := EXPIRED, expiredAt := Some(now)) else batch)
            && (db.tasks[t].batch == b ==>
                  db'.tasks[t] == if ends then StoppedAt(db.tasks[t], now) else db.tasks[t])
  {
    var ids := OverdueBatches(db, |db.batches|, now);
    ExpirePassSpec(db, now);
    var dbs := PassCommits(db, ids, now);
    StoppedThrough(dbs, ids, now, t, db.tasks[t]);
  }

  // The pass is a run of single expiries, none of which is refused.
  lemma {:induction false} ExpirePassIsRun(cfg: Settings, s: Sys, now: Time)
    requires cfg.defaultMaxTokens > 0
    ensures Run(cfg, s, ExpireSteps(OverdueBatches(s.db, |s.db.batches|, now), now)) == s.(db := ExpirePass(s.db, now))
  {
    var ids := OverdueBatches(s.db, |s.db.batches|, now);
    var steps := ExpireSteps(ids, now);
    var dbs := PassCommits(s.db, ids, now);
    var states := seq(|ids| + 1, k requires 0 <= k <= |ids| => s.(db := dbs[k]));
    forall k | 0 <= k < |steps| ensures Leads(cfg, states[k], steps[k], states[k + 1]) {
      OneExpiry(cfg, s, dbs[k], ids[k], now, dbs[k + 1]);
    }
    RunThrough(cfg, steps, states);
  }

  // --- The 24 hours. ---

  // On every run, a batch that is still open is ended by an expiry, or by a whole pass of
  // them, exactly if more than 24 hours have gone by since the request that submitted it.
  lemma {:induction false} OpenForADay(cfg: Settings, steps: seq<Step>, b: nat, now: Time)
    requires ValidSettings(cfg) && b < |Submits(cfg, steps)|
    ensures var s := Run(cfg, START, steps);
            b < |s.db.batches| &&
            var batch := s.db.batches[b];
            var batch' := if batch.status == IN_PROGRESS && Submits(cfg, steps)[b].now + 24 * 60 * 60 * 1_000_000 < now
                          then batch.(status := EXPIRED, expiredAt := Some(now)) else batch;
            && Apply(cfg, s, Expire(b, now)).db.batches == s.db.batches[b := batch']
            && |ExpirePass(s.db, now).batches| == |s.db.batches| && ExpirePass(s.db, now).batches[b] == batch'
  {
    var s := Run(cfg, START, steps);
    OpenedOnRuns(cfg, steps);
    assert OpenedBy(s.db.batches[b], Submits(cfg, steps)[b]);
    RunInv(cfg, steps);
    assert BatchOk(s.db.batches[b]);
    ExpireEffect(cfg, s, b, now);
    ExpirePassSpec(s.db, now);
  }

  // --- The retention period. ---

  // The batch ended at this time.
  predicate EndedAt(batch: Batch, ended: Time) {
    || (batch.status == BATCH_COMPLETED && batch.completedAt == Some(ended))
    || (batch.status == BATCH_CANCELLED && batch.cancelledAt == Some(ended))
    || (batch.status == EXPIRED && batch.expiredAt == Some(ended))
  }

  predicate Gone(files: seq<Option<FileRow>>, f: Option<nat>) {
    f.Some? ==> f.value < |files| && files[f.value].None?
  }

  predicate Stays(files: seq<Option<FileRow>>, files': seq<Option<FileRow>>, f: Option<nat>) {
    f.Some? ==> f.value < |files| && f.value < |files'| && files[f.value].Some? && files'[f.value] == files[f.value]
  }

  // A purge deletes the results of a batch exactly if it has ended, its retention period since
  // then is over, and they have not been deleted before; the input file always stays.
  lemma ResultsKeptFor(cfg: Settings, s: Sys, b: nat, ended: Time, now: Time)
    requires ValidSettings(cfg) && Reachable(cfg, s) && b < |s.db.batches| && EndedAt(s.db.batches[b], ended)
    ensures var db' := Apply(cfg, s, Purge(now)).db;
            var batch := s.db.batches[b];
            && |db'.batches| == |s.db.batches|
            && Stays(s.db.files, db'.files, Some(batch.inputFile))
            && if batch.purgedAt.None? && ended + cfg.retentionDays * (24 * 60 * 60 * 1_000_000) <= now
               then db'.batches[b] == batch.(outputFile := None, errorFile := None, purgedAt := Some(now))
                    && Gone(db'.files, batch.outputFile) && Gone(db'.files, batch.errorFile)
               else db'.batches[b] == batch
                    && Stays(s.db.files, db'.files, batch.outputFile) && Stays(s.db.files, db'.files, batch.errorFile)
  {
    ReachableInv(cfg, s);
    PurgeDecides(s.db, b, ended, cfg.retentionDays, now);
  }

  lemma PurgeDecides(db: Db, b: nat, ended: Time, retentionDays: nat, now: Time)
    requires FilesOk(db) && b < |db.batches| && EndedAt(db.batches[b], ended)
    ensures var db', batch := Purged(db, retentionDays, now), db.batches[b];
            && Stays(db.files, db'.files, Some(batch.inputFile))
            && if batch.purgedAt.None? && ended + retentionDays * DAY <= now
               then db'.batches[b] == batch.(outputFile := None, errorFile := None, purgedAt := Some(now))
                    && Gone(db'.files, batch.outputFile) && Gone(db'.files, batch.errorFile)
               else db'.batches[b] == batch
                    && Stays(db.files, db'.files, batch.outputFile) && Stays(db.files, db'.files, batch.errorFile)
  {
    var batch, cutoff := db.batches[b], now - retentionDays * DAY;
    assert BatchFilesOk(db, b);
    StillThere(db, cutoff, b, batch.inputFile);
    FileDecides(db, b, cutoff, batch.outputFile);
    FileDecides(db, b, cutoff, batch.errorFile);
  }

  lemma FileDecides(db: Db, b: nat, cutoff: Time, f: Option<nat>)
    requires FilesOk(db) && b < |db.batches| && (f.Some? ==> f.value < |db.files| && RefersTo(db.batches[b], f.value))
    ensures f.Some? ==> (FileDue(db.batches, |db.batches|, f.value, cutoff) <==> PurgeDue(db.batches[b], cutoff))
  {
    if f.Some? && !PurgeDue(db.batches[b], cutoff) { StillThere(db, cutoff, b, f.value); }
  }

  // And a batch that has not ended is never purged.
  lemma OpenBatchesKept(cfg: Settings, s: Sys, b: nat, now: Time)
    requires ValidSettings(cfg) && Reachable(cfg, s) && b < |s.db.batches|
    ensures (forall ended :: !EndedAt(s.db.batches[b], ended)) ==>
              && s.db.batches[b].status == IN_PROGRESS
              && |Apply(cfg, s, Purge(now)).db.batches| == |s.db.batches|
              && Apply(cfg, s, Purge(now)).db.batches[b] == s.db.batches[b]
  {
    ReachableInv(cfg, s);
    var batch := s.db.batches[b];
    assert BatchOk(batch);
    if batch.status == BATCH_COMPLETED { assert EndedAt(batch, batch.completedAt.value); }
    if batch.status == BATCH_CANCELLED { assert EndedAt(batch, batch.cancelledAt.value); }
    if batch.status == EXPIRED { assert EndedAt(batch, batch.expiredAt.value); }
  }
}
