// Batch expiry and result-file cleanup (retention.py).
module Retention {
  import opened Model
  import opened Sums
  import opened Ledger
  import opened BatchOps

  // --- Expiry. ---

  predicate Overdue(batch: Batch, now: Time) {
    Cancellable(batch.status) && batch.expiresAt.Some? && batch.expiresAt.value < now
  }

  // The overdue batches among the first n.
  function OverdueBatches(db: Db, n: nat, now: Time): (ids: seq<nat>)
    requires n <= |db.batches|
    ensures forall k :: 0 <= k < |ids| ==> ids[k] < n && Overdue(db.batches[ids[k]], now)
    ensures forall b :: 0 <= b < n && Overdue(db.batches[b], now) ==> b in ids
    ensures forall k, l :: 0 <= k < l < |ids| ==> ids[k] < ids[l]
  {
    if n == 0 then []
    else OverdueBatches(db, n - 1, now) + if Overdue(db.batches[n - 1], now) then [n - 1] else []
  }

  // Expiring the first k of the given batches, one commit each.
  function ExpiredFirst(db: Db, ids: seq<nat>, k: nat, now: Time): (db': Db)
    requires k <= |ids|
    requires forall i :: 0 <= i < |ids| ==> ids[i] < |db.batches|
    ensures |db'.batches| == |db.batches|
  {
    if k == 0 then db
    else Terminated(ExpiredFirst(db, ids, k - 1, now), ids[k - 1], EXPIRED, now)
  }

  function ExpirePass(db: Db, now: Time): Db {
    var ids := OverdueBatches(db, |db.batches|, now);
    ExpiredFirst(db, ids, |ids|, now)
  }

  lemma {:induction false} ExpiredFirstSpec(db: Db, ids: seq<nat>, k: nat, now: Time)
    requires k <= |ids|
    requires forall i :: 0 <= i < |ids| ==> ids[i] < |db.batches|
    requires forall i, j :: 0 <= i < j < |ids| ==> ids[i] < ids[j]
    ensures forall b :: 0 <= b < |db.batches| ==>
                          ExpiredFirst(db, ids, k, now).batches[b] ==
                          if b in ids[..k] then TerminalBatch(db.batches[b], EXPIRED, now) else db.batches[b]
  {
    if k > 0 {
      ExpiredFirstSpec(db, ids, k - 1, now);
      assert ids[..k] == ids[..k - 1] + [ids[k - 1]];
      assert ids[k - 1] !in ids[..k - 1];
    }
  }

  lemma {:induction false} NothingOverdue(db: Db, n: nat, now: Time)
    requires n <= |db.batches|
    requires forall b :: 0 <= b < n ==> !Overdue(db.batches[b], now)
    ensures OverdueBatches(db, n, now) == []
  {
    if n > 0 { NothingOverdue(db, n - 1, now); }
  }

  // One pass expires every overdue batch and touches no other; right after it nothing is overdue.
  lemma ExpirePassSpec(db: Db, now: Time)
    ensures |ExpirePass(db, now).batches| == |db.batches|
    ensures forall b :: 0 <= b < |db.batches| ==>
                          ExpirePass(db, now).batches[b] ==
                          if Overdue(db.batches[b], now) then TerminalBatch(db.batches[b], EXPIRED, now) else db.batches[b]
    ensures forall b :: 0 <= b < |db.batches| ==> !Overdue(ExpirePass(db, now).batches[b], now)
    ensures ExpirePass(ExpirePass(db, now), now) == ExpirePass(db, now)
  {
    var ids := OverdueBatches(db, |db.batches|, now);
    ExpiredFirstSpec(db, ids, |ids|, now);
    assert ids[..|ids|] == ids;
    var after := ExpirePass(db, now);
    var again := OverdueBatches(after, |after.batches|, now);
    assert again == [] by { NothingOverdue(after, |after.batches|, now); }
  }

  method ExpireOverdueBatches(db: Store, now: Time) returns (count: nat)
    modifies db
    ensures db.Snapshot() == ExpirePass(old(db.Snapshot()), now)
    ensures count == |OverdueBatches(old(db.Snapshot()), |old(db.batches)|, now)|
  {
    var overdue := FindOverdue(db, now);
    ExpireAll(db, overdue, now);
    return |overdue|;
  }

  // The query for overdue batches.
  method FindOverdue(db: Store, now: Time) returns (overdue: seq<nat>)
    ensures overdue == OverdueBatches(db.Snapshot(), |db.batches|, now)
  {
    overdue := [];
    for b := 0 to |db.batches|
      invariant overdue == OverdueBatches(db.Snapshot(), b, now)
    {
      var batch := db.batches[b];
      if Cancellable(batch.status) && batch.expiresAt.Some? && batch.expiresAt.value < now {
        overdue := overdue + [b];
      }
    }
  }

  method ExpireAll(db: Store, overdue: seq<nat>, now: Time)
    requires forall k :: 0 <= k < |overdue| ==> overdue[k] < |db.batches| && Overdue(db.batches[overdue[k]], now)
    requires forall k, l :: 0 <= k < l < |overdue| ==> overdue[k] < overdue[l]
    modifies db
    ensures db.Snapshot() == ExpiredFirst(old(db.Snapshot()), overdue, |overdue|, now)
  {
    ghost var before := db.Snapshot();
    for k := 0 to |overdue|
      invariant db.Snapshot() == ExpiredFirst(before, overdue, k, now)
    {
      NextStillDue(before, overdue, k, now);
      var r := ExpireBatch(db, overdue[k], now);
    }
  }

  // Expiring the batches before it leaves the next one as it was.
  lemma {:induction false} NextStillDue(db: Db, ids: seq<nat>, k: nat, now: Time)
    requires k < |ids|
    requires forall i :: 0 <= i < |ids| ==> ids[i] < |db.batches| && Overdue(db.batches[ids[i]], now)
    requires forall i, j :: 0 <= i < j < |ids| ==> ids[i] < ids[j]
    ensures ExpiredFirst(db, ids, k, now).batches[ids[k]] == db.batches[ids[k]]
  {
    ExpiredFirstSpec(db, ids, k, now);
  }

  // --- Purging. ---

  function TerminalAt(batch: Batch): Option<Time> {
    match batch.status
    case BATCH_COMPLETED => batch.completedAt
    case BATCH_FAILED => batch.failedAt
    case BATCH_CANCELLED => batch.cancelledAt
    case EXPIRED => batch.expiredAt
    case _ => None
  }

  predicate TerminalStatus(status: BatchStatus) {
    status == BATCH_COMPLETED || status == BATCH_FAILED || status == BATCH_CANCELLED || status == EXPIRED
  }

  // A finished batch whose retention period is over and whose results have not been purged.
  predicate PurgeDue(batch: Batch, cutoff: Time) {
    && TerminalStatus(batch.status) && batch.purgedAt.None?
    && TerminalAt(batch).Some? && TerminalAt(batch).value <= cutoff
  }

  predicate RefersTo(batch: Batch, f: nat) { batch.outputFile == Some(f) || batch.errorFile == Some(f) }

  // Some batch among the first n is due and has f as a result file.
  predicate FileDue(batches: seq<Batch>, n: nat, f: nat, cutoff: Time)
    requires n <= |batches|
  {
    exists b :: 0 <= b < n && PurgeDue(batches[b], cutoff) && RefersTo(batches[b], f)
  }

  function PurgedBatch(batch: Batch, now: Time): Batch {
    batch.(outputFile := None, errorFile := None, purgedAt := Some(now))
  }

  // The files and batches once the first n batches have been looked at.
  function PurgedFiles(db: Db, n: nat, cutoff: Time): (files: seq<Option<FileRow>>)
    requires n <= |db.batches|
    ensures |files| == |db.files|
    ensures forall f :: 0 <= f < |files| ==> files[f] == if FileDue(db.batches, n, f, cutoff) then None else db.files[f]
  {
    seq(|db.files|, f requires 0 <= f < |db.files| => if FileDue(db.batches, n, f, cutoff) then None else db.files[f])
  }

  function PurgedBatches(batches: seq<Batch>, n: nat, cutoff: Time, now: Time): (batches': seq<Batch>)
    requires n <= |batches|
    ensures |batches'| == |batches|
    ensures forall b :: 0 <= b < |batches| ==>
                          batches'[b] == if b < n && PurgeDue(batches[b], cutoff) then PurgedBatch(batches[b], now) else batches[b]
  {
    seq(|batches|, b requires 0 <= b < |batches| =>
      if b < n && PurgeDue(batches[b], cutoff) then PurgedBatch(batches[b], now) else batches[b])
  }

  function Purged(db: Db, retentionDays: nat, now: Time): Db {
    var cutoff := now - retentionDays * DAY;
    db.(batches := PurgedBatches(db.batches, |db.batches|, cutoff, now),
        files := PurgedFiles(db, |db.batches|, cutoff))
  }

  function DueCount(cutoff: Time): Batch -> int { (batch: Batch) => if PurgeDue(batch, cutoff) then 1 else 0 }

  method PurgeExpiredResults(db: Store, retentionDays: nat, now: Time) returns (count: nat)
    modifies db`batches, db`files
    ensures db.Snapshot() == Purged(old(db.Snapshot()), retentionDays, now)
    ensures count == Sum(old(db.batches), DueCount(now - retentionDays * DAY))
  {
    ghost var before := db.Snapshot();
    var cutoff := now - retentionDays * DAY;
    count := 0;
    for b := 0 to |db.batches|
      invariant |db.batches| == |before.batches|
      invariant PurgedSoFar(before, b, cutoff, now, db.batches, db.files, count)
    {
      PurgedNext(before, b, cutoff, now, db.batches, db.files, count);
      var purged := PurgeBatch(db, b, cutoff, now);
      if purged { count := count + 1; }
    }
    assert before.batches[..|before.batches|] == before.batches;
  }

  ghost predicate PurgedSoFar(before: Db, b: nat, cutoff: Time, now: Time,
                              batches: seq<Batch>, files: seq<Option<FileRow>>, count: nat) {
    && b <= |before.batches|
    && batches == PurgedBatches(before.batches, b, cutoff, now)
    && files == PurgedFiles(before, b, cutoff)
    && count == Sum(before.batches[..b], DueCount(cutoff))
  }

  lemma PurgedNext(before: Db, b: nat, cutoff: Time, now: Time,
                   batches: seq<Batch>, files: seq<Option<FileRow>>, count: nat)
    requires b < |before.batches| && PurgedSoFar(before, b, cutoff, now, batches, files, count)
    ensures batches[b] == before.batches[b]
    ensures if PurgeDue(before.batches[b], cutoff)
            then PurgedSoFar(before, b + 1, cutoff, now, batches[b := PurgedBatch(batches[b], now)],
                             Without(Without(files, batches[b].outputFile), batches[b].errorFile), count + 1)
            else PurgedSoFar(before, b + 1, cutoff, now, batches, files, count)
  {
    PurgeNext(before, b, cutoff, now);
    DueNext(before.batches, b, cutoff);
  }

  // One round of the purge loop.
  method PurgeBatch(db: Store, b: nat, cutoff: Time, now: Time) returns (purged: bool)
    requires b < |db.batches|
    modifies db`batches, db`files
    ensures purged == PurgeDue(old(db.batches)[b], cutoff)
    ensures db.batches == if purged then old(db.batches)[b := PurgedBatch(old(db.batches)[b], now)] else old(db.batches)
    ensures db.files == if purged then
                          Without(Without(old(db.files), old(db.batches)[b].outputFile), old(db.batches)[b].errorFile)
                        else old(db.files)
  {
    var batch := db.batches[b];
    if !TerminalStatus(batch.status) || batch.purgedAt.Some? { return false; }
    var terminalAt := TerminalAt(batch);
    if terminalAt.None? || terminalAt.value > cutoff { return false; }
    var outputFile, errorFile := batch.outputFile, batch.errorFile;
    batch := batch.(outputFile := None, errorFile := None);
    batch := batch.(purgedAt := Some(now));
    db.batches := db.batches[b := batch];
    db.files := Without(Without(db.files, outputFile), errorFile);
    return true;
  }

  lemma DueNext(batches: seq<Batch>, b: nat, cutoff: Time)
    requires b < |batches|
    ensures Sum(batches[..b + 1], DueCount(cutoff)) ==
            Sum(batches[..b], DueCount(cutoff)) + if PurgeDue(batches[b], cutoff) then 1 else 0
  {
    assert batches[..b + 1] == batches[..b] + [batches[b]];
    SumAppend(batches[..b], batches[b], DueCount(cutoff));
  }

  // Deleting a file row, if there is one.
  function Without(files: seq<Option<FileRow>>, f: Option<nat>): (files': seq<Option<FileRow>>)
    ensures |files'| == |files|
    ensures forall i :: 0 <= i < |files| ==> files'[i] == if f == Some(i) then None else files[i]
  {
    if f.Some? && f.value < |files| then files[f.value := None] else files
  }

  lemma PurgeNext(db: Db, b: nat, cutoff: Time, now: Time)
    requires b < |db.batches|
    ensures PurgedBatches(db.batches, b + 1, cutoff, now) ==
            if PurgeDue(db.batches[b], cutoff)
            then PurgedBatches(db.batches, b, cutoff, now)[b := PurgedBatch(db.batches[b], now)]
            else PurgedBatches(db.batches, b, cutoff, now)
    ensures PurgedFiles(db, b + 1, cutoff) ==
            if PurgeDue(db.batches[b], cutoff)
            then Without(Without(PurgedFiles(db, b, cutoff), db.batches[b].outputFile), db.batches[b].errorFile)
            else PurgedFiles(db, b, cutoff)
  {
    forall f | 0 <= f < |db.files|
      ensures FileDue(db.batches, b + 1, f, cutoff) <==>
              FileDue(db.batches, b, f, cutoff) || (PurgeDue(db.batches[b], cutoff) && RefersTo(db.batches[b], f))
    {
    }
  }

  // A second pass at the same time, or any time that makes nothing new due, changes nothing.
  lemma PurgeIdempotent(db: Db, retentionDays: nat, now: Time)
    ensures Purged(Purged(db, retentionDays, now), retentionDays, now) == Purged(db, retentionDays, now)
    ensures Sum(Purged(db, retentionDays, now).batches, DueCount(now - retentionDays * DAY)) == 0
  {
    var cutoff := now - retentionDays * DAY;
    var once := Purged(db, retentionDays, now);
    assert forall b :: 0 <= b < |once.batches| ==> !PurgeDue(once.batches[b], cutoff);
    assert Purged(once, retentionDays, now).batches == once.batches;
    assert Purged(once, retentionDays, now).files == once.files;
    SumZero(once.batches, DueCount(cutoff));
  }
}
