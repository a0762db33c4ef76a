// How steps change the task and batch tables, and what the two tables always agree on: ids,
// line order, counters and statuses.  These are the step lemmas behind Invariants, operation
// by operation.
module Structure {
  import opened Model
  import opened Sums
  import opened Ledger
  import opened Parsing
  import opened BatchOps
  import opened Retention
  import opened Dispatching

  // --- Changes to the tables. ---

  // Rows keep their identity and what was fixed at submission.
  ghost predicate SameRows(tasks: seq<Task>, tasks': seq<Task>) {
    && |tasks'| == |tasks|
    && forall i :: 0 <= i < |tasks| ==>
                     && tasks'[i].batch == tasks[i].batch && tasks'[i].lineIndex == tasks[i].lineIndex
                     && tasks'[i].customId == tasks[i].customId && tasks'[i].reserved == tasks[i].reserved
  }

  // No task is settled or unsettled, and results are untouched.
  ghost predicate SameResults(tasks: seq<Task>, tasks': seq<Task>) {
    && SameRows(tasks, tasks')
    && forall i :: 0 <= i < |tasks| ==>
                     && (tasks'[i].Settled() <==> tasks[i].Settled())
                     && (tasks[i].Settled() ==> tasks'[i] == tasks[i])
  }

  ghost predicate SameBatch(batch: Batch, batch': Batch) {
    && batch'.user == batch.user && batch'.inputFile == batch.inputFile
    && batch'.total == batch.total && batch'.completed == batch.completed && batch'.failed == batch.failed
  }

  ghost predicate SameCounters(batches: seq<Batch>, batches': seq<Batch>) {
    && |batches'| == |batches|
    && forall b :: 0 <= b < |batches| ==> SameBatch(batches[b], batches'[b])
  }

  // --- What holds of the tables. ---

  function InBatch(b: nat): Task -> int { (t: Task) => if t.batch == b then 1 else 0 }

  function WithStatus(b: nat, status: TaskStatus): Task -> int {
    (t: Task) => if t.batch == b && t.status == status then 1 else 0
  }

  ghost predicate RowsOk(tasks: seq<Task>, batches: seq<Batch>) {
    forall i :: 0 <= i < |tasks| ==> tasks[i].batch < |batches| && tasks[i].reserved >= 7
  }

  ghost predicate CustomIdsDistinct(tasks: seq<Task>) {
    forall i, j :: 0 <= i < j < |tasks| && tasks[i].batch == tasks[j].batch ==> tasks[i].customId != tasks[j].customId
  }

  ghost predicate BatchCounts(tasks: seq<Task>, b: nat, batch: Batch) {
    && batch.total == Sum(tasks, InBatch(b)) && batch.total > 0
    && batch.completed == Sum(tasks, WithStatus(b, COMPLETED))
    && batch.failed == Sum(tasks, WithStatus(b, FAILED))
  }

  // The three counters of every batch are what a count of its tasks gives.
  ghost predicate CountsOk(tasks: seq<Task>, batches: seq<Batch>) {
    forall b :: 0 <= b < |batches| ==> BatchCounts(tasks, b, batches[b])
  }

  // The task statuses a batch status allows.
  predicate Fits(t: TaskStatus, b: BatchStatus) {
    && (b == IN_PROGRESS ==> t != CANCELLED)
    && (b != IN_PROGRESS ==> t != PENDING && t != RUNNING)
    && (b == BATCH_COMPLETED ==> t == COMPLETED || t == FAILED)
  }

  // Four of the eight statuses ever occur; a terminal batch carries the timestamp that the
  // purge looks up and no other, and result files exactly while it is completed and unpurged.
  predicate BatchOk(batch: Batch) {
    && (batch.status == IN_PROGRESS || batch.status == BATCH_COMPLETED
        || batch.status == BATCH_CANCELLED || batch.status == EXPIRED)
    && (batch.completedAt.Some? <==> batch.status == BATCH_COMPLETED)
    && (batch.finalizingAt.Some? <==> batch.status == BATCH_COMPLETED)
    && (batch.cancelledAt.Some? <==> batch.status == BATCH_CANCELLED)
    && (batch.expiredAt.Some? <==> batch.status == EXPIRED)
    && batch.failedAt.None?
    && (batch.outputFile.Some? <==> batch.status == BATCH_COMPLETED && batch.purgedAt.None?)
    && (batch.errorFile.Some? ==> batch.outputFile.Some?)
    && (batch.purgedAt.Some? ==> batch.status != IN_PROGRESS)
  }

  ghost predicate StatusOk(tasks: seq<Task>, batches: seq<Batch>) {
    && (forall b :: 0 <= b < |batches| ==> BatchOk(batches[b]))
    && (forall i :: 0 <= i < |tasks| && tasks[i].batch < |batches| ==>
                      Fits(tasks[i].status, batches[tasks[i].batch].status))
  }

  ghost predicate TablesOk(db: Db) {
    && RowsOk(db.tasks, db.batches)
    && LinesOrdered(db.tasks)
    && CustomIdsDistinct(db.tasks)
    && CountsOk(db.tasks, db.batches)
    && StatusOk(db.tasks, db.batches)
  }

  // --- Quiet changes keep the counts. ---

  lemma SameRowsKeep(tasks: seq<Task>, tasks': seq<Task>, batches: seq<Batch>, batches': seq<Batch>)
    requires SameRows(tasks, tasks') && |batches'| == |batches|
    requires RowsOk(tasks, batches) && LinesOrdered(tasks) && CustomIdsDistinct(tasks)
    ensures RowsOk(tasks', batches') && LinesOrdered(tasks') && CustomIdsDistinct(tasks')
  {
  }

  lemma SameResultsKeepCounts(tasks: seq<Task>, tasks': seq<Task>, batches: seq<Batch>, batches': seq<Batch>)
    requires SameResults(tasks, tasks') && SameCounters(batches, batches')
    requires CountsOk(tasks, batches)
    ensures CountsOk(tasks', batches')
  {
    forall b | 0 <= b < |batches| ensures BatchCounts(tasks', b, batches'[b]) {
      assert BatchCounts(tasks, b, batches[b]) && SameBatch(batches[b], batches'[b]);
      SumSame(tasks, InBatch(b), tasks', InBatch(b));
      SumSame(tasks, WithStatus(b, COMPLETED), tasks', WithStatus(b, COMPLETED));
      SumSame(tasks, WithStatus(b, FAILED), tasks', WithStatus(b, FAILED));
    }
  }

  // --- Cancel and expire. ---

  lemma TerminatedTables(db: Db, b: nat, status: BatchStatus, now: Time)
    requires b < |db.batches|
    ensures Terminated(db, b, status, now).tasks == StopTasks(db.tasks, b, now)
    ensures Terminated(db, b, status, now).batches == db.batches[b := TerminalBatch(db.batches[b], status, now)]
    ensures Terminated(db, b, status, now).files == db.files
    ensures Terminated(db, b, status, now).nodes == db.nodes
    ensures Terminated(db, b, status, now).stat == db.stat
  {
  }

  lemma StopIsQuiet(tasks: seq<Task>, b: nat, now: Time)
    ensures SameResults(tasks, StopTasks(tasks, b, now))
  {
  }

  lemma TerminatedOk(db: Db, b: nat, status: BatchStatus, now: Time)
    requires b < |db.batches| && TablesOk(db)
    requires Cancellable(db.batches[b].status)
    requires status == BATCH_CANCELLED || status == EXPIRED
    ensures TablesOk(Terminated(db, b, status, now))
  {
    var tasks', batches' := StopTasks(db.tasks, b, now), db.batches[b := TerminalBatch(db.batches[b], status, now)];
    TerminatedTables(db, b, status, now);
    StopIsQuiet(db.tasks, b, now);
    SameRowsKeep(db.tasks, tasks', db.batches, batches');
    SameResultsKeepCounts(db.tasks, tasks', db.batches, batches');
    TerminatedStatus(db.tasks, db.batches, b, status, now);
  }

  lemma TerminatedStatus(tasks: seq<Task>, batches: seq<Batch>, b: nat, status: BatchStatus, now: Time)
    requires b < |batches| && StatusOk(tasks, batches) && Cancellable(batches[b].status)
    requires status == BATCH_CANCELLED || status == EXPIRED
    ensures StatusOk(StopTasks(tasks, b, now), batches[b := TerminalBatch(batches[b], status, now)])
  {
    assert BatchOk(batches[b]);
  }

  // --- Settlement. ---

  lemma SettledTables(db: Db, t: nat, outcome: Outcome, alpha: real, now: Time)
    requires t < |db.tasks| && db.tasks[t].batch < |db.batches|
    ensures Settled(db, t, outcome, alpha, now).tasks == db.tasks[t := SettledTask(db.tasks[t], outcome, now)]
    ensures Settled(db, t, outcome, alpha, now).batches ==
            db.batches[db.tasks[t].batch := CountedBatch(db.batches[db.tasks[t].batch], outcome)]
    ensures Settled(db, t, outcome, alpha, now).files == db.files
    ensures Settled(db, t, outcome, alpha, now).nodes == db.nodes
  {
  }

  lemma SettledCounts(tasks: seq<Task>, batches: seq<Batch>, t: nat, outcome: Outcome, now: Time)
    requires t < |tasks| && tasks[t].batch < |batches| && !tasks[t].Settled()
    requires CountsOk(tasks, batches)
    ensures CountsOk(tasks[t := SettledTask(tasks[t], outcome, now)],
                     batches[tasks[t].batch := CountedBatch(batches[tasks[t].batch], outcome)])
  {
    var task' := SettledTask(tasks[t], outcome, now);
    var tasks' := tasks[t := task'];
    var batches' := batches[tasks[t].batch := CountedBatch(batches[tasks[t].batch], outcome)];
    forall b | 0 <= b < |batches'| ensures BatchCounts(tasks', b, batches'[b]) {
      assert BatchCounts(tasks, b, batches[b]);
      SumUpdate(tasks, t, task', InBatch(b));
      SumUpdate(tasks, t, task', WithStatus(b, COMPLETED));
      SumUpdate(tasks, t, task', WithStatus(b, FAILED));
    }
  }

  lemma SettledOk(db: Db, t: nat, outcome: Outcome, alpha: real, now: Time)
    requires t < |db.tasks| && TablesOk(db)
    requires db.tasks[t].status == RUNNING || db.tasks[t].status == CANCELLED
    ensures TablesOk(Settled(db, t, outcome, alpha, now))
  {
    var tasks' := db.tasks[t := SettledTask(db.tasks[t], outcome, now)];
    var b := db.tasks[t].batch;
    var batches' := db.batches[b := CountedBatch(db.batches[b], outcome)];
    SettledTables(db, t, outcome, alpha, now);
    SettledCounts(db.tasks, db.batches, t, outcome, now);
    SameRowsKeep(db.tasks, tasks', db.batches, batches');
    SettledStatus(db.tasks, db.batches, t, outcome, now);
  }

  lemma SettledStatus(tasks: seq<Task>, batches: seq<Batch>, t: nat, outcome: Outcome, now: Time)
    requires t < |tasks| && tasks[t].batch < |batches| && StatusOk(tasks, batches)
    ensures StatusOk(tasks[t := SettledTask(tasks[t], outcome, now)],
                     batches[tasks[t].batch := CountedBatch(batches[tasks[t].batch], outcome)])
  {
    assert BatchOk(batches[tasks[t].batch]);
  }

  // --- Finalization. ---

  // The counter test is exact: it holds if and only if every task of the batch has settled.
  lemma CounterTestIsExact(tasks: seq<Task>, b: nat, batch: Batch)
    requires BatchCounts(tasks, b, batch)
    ensures batch.completed + batch.failed <= batch.total
    ensures batch.completed + batch.failed >= batch.total <==>
            forall i :: 0 <= i < |tasks| && tasks[i].batch == b ==> tasks[i].Settled()
  {
    var open := (t: Task) => if t.batch == b && !t.Settled() then 1 else 0;
    var done := (t: Task) => if t.batch == b && t.Settled() then 1 else 0;
    SumLinear(tasks, done, tasks, WithStatus(b, COMPLETED), tasks, WithStatus(b, FAILED));
    SumLinear(tasks, InBatch(b), tasks, done, tasks, open);
    SumNonNegative(tasks, open);
    if Sum(tasks, open) == 0 {
      forall i | 0 <= i < |tasks| && tasks[i].batch == b ensures tasks[i].Settled() {
        SumZeroMember(tasks, i, open);
      }
    }
    if forall i :: 0 <= i < |tasks| && tasks[i].batch == b ==> tasks[i].Settled() {
      SumZero(tasks, open);
    }
  }

  lemma FinalizedTables(db: Db, b: nat, now: Time)
    requires b < |db.batches|
    ensures Finalized(db, b, now).tasks == db.tasks
    ensures Finalized(db, b, now).ledger == db.ledger && Finalized(db, b, now).budgets == db.budgets
    ensures Finalized(db, b, now).nodes == db.nodes && Finalized(db, b, now).stat == db.stat
    ensures SameCounters(db.batches, Finalized(db, b, now).batches)
    ensures forall c :: 0 <= c < |db.batches| && c != b ==> Finalized(db, b, now).batches[c] == db.batches[c]
    ensures !FinalizeDue(db, b) ==> Finalized(db, b, now) == db
    ensures FinalizeDue(db, b) ==> Finalized(db, b, now).batches[b].status == BATCH_COMPLETED
  {
  }

  lemma FinalizedOk(db: Db, b: nat, now: Time)
    requires b < |db.batches| && TablesOk(db)
    ensures TablesOk(Finalized(db, b, now))
  {
    var db' := Finalized(db, b, now);
    FinalizedTables(db, b, now);
    SameRowsKeep(db.tasks, db'.tasks, db.batches, db'.batches);
    SameResultsKeepCounts(db.tasks, db'.tasks, db.batches, db'.batches);
    if FinalizeDue(db, b) {
      assert BatchCounts(db.tasks, b, db.batches[b]) && BatchOk(db.batches[b]);
      CounterTestIsExact(db.tasks, b, db.batches[b]);
      assert BatchOk(db'.batches[b]);
    }
  }

  // --- Submission. ---

  lemma {:induction false} CreatedTables(db: Db, u: UserId, f: nat, window: string, lines: seq<ParsedLine>, now: Time)
    ensures CreatedBatch(db, u, f, window, lines, now).files == db.files
    ensures CreatedBatch(db, u, f, window, lines, now).nodes == db.nodes
    ensures CreatedBatch(db, u, f, window, lines, now).stat == db.stat
    ensures Refusal(db, SubmitOp(db, u, lines)).None? ==>
              && Sum(lines, LineReserved()) >= 0
              && CreatedBatch(db, u, f, window, lines, now).tasks == db.tasks + NewTasks(|db.batches|, lines)
              && CreatedBatch(db, u, f, window, lines, now).batches ==
                 db.batches + [NewBatch(u, f, window, Sum(lines, LineReserved()), |lines|, now)]
  {
    SumNonNegative(lines, LineReserved());
    var op := SubmitOp(db, u, lines);
    if Refusal(db, op).None? {
      var inserted := WithBatch(db, u, f, window, lines, now);
      SameRefusal(db, inserted, op);
      PostTables(inserted, EntryOf(inserted, op));
    }
  }

  lemma PostTables(db: Db, e: Entry)
    ensures Post(db, e).tasks == db.tasks && Post(db, e).batches == db.batches && Post(db, e).files == db.files
    ensures Post(db, e).nodes == db.nodes && Post(db, e).stat == db.stat
  {
  }

  lemma {:induction false} FreshCount(b: nat, lines: seq<ParsedLine>, c: nat)
    ensures Sum(NewTasks(b, lines), InBatch(c)) == if c == b then |lines| else 0
  {
    if lines != [] {
      var init := lines[..|lines| - 1];
      assert NewTasks(b, lines) == NewTasks(b, init) + [NewTask(b, lines[|lines| - 1])];
      SumAppend(NewTasks(b, init), NewTask(b, lines[|lines| - 1]), InBatch(c));
      FreshCount(b, init, c);
    }
  }

  lemma NewBatchCounts(tasks: seq<Task>, batches: seq<Batch>, lines: seq<ParsedLine>, b: nat)
    requires RowsOk(tasks, batches) && CountsOk(tasks, batches) && b < |batches|
    ensures BatchCounts(tasks + NewTasks(|batches|, lines), b, batches[b])
  {
    var added := NewTasks(|batches|, lines);
    assert BatchCounts(tasks, b, batches[b]);
    SumConcat(tasks, added, InBatch(b));
    SumConcat(tasks, added, WithStatus(b, COMPLETED));
    SumConcat(tasks, added, WithStatus(b, FAILED));
    SumZero(added, InBatch(b));
    SumZero(added, WithStatus(b, COMPLETED));
    SumZero(added, WithStatus(b, FAILED));
  }

  lemma OwnCounts(tasks: seq<Task>, batches: seq<Batch>, lines: seq<ParsedLine>, batch: Batch)
    requires RowsOk(tasks, batches) && lines != []
    requires batch.total == |lines| && batch.completed == 0 && batch.failed == 0
    ensures BatchCounts(tasks + NewTasks(|batches|, lines), |batches|, batch)
  {
    var b := |batches|;
    var added := NewTasks(b, lines);
    OnlyAdded(tasks, added, InBatch(b));
    OnlyAdded(tasks, added, WithStatus(b, COMPLETED));
    OnlyAdded(tasks, added, WithStatus(b, FAILED));
    SumZero(added, WithStatus(b, COMPLETED));
    SumZero(added, WithStatus(b, FAILED));
    FreshCount(b, lines, b);
  }

  lemma {:induction false} OnlyAdded(tasks: seq<Task>, added: seq<Task>, f: Task -> int)
    requires forall i :: 0 <= i < |tasks| ==> f(tasks[i]) == 0
    ensures Sum(tasks + added, f) == Sum(added, f)
  {
    SumConcat(tasks, added, f);
    SumZero(tasks, f);
  }

  lemma CreatedOk(db: Db, u: UserId, f: nat, window: string, lines: seq<ParsedLine>, now: Time)
    requires TablesOk(db) && Submittable(lines)
    ensures TablesOk(CreatedBatch(db, u, f, window, lines, now))
  {
    if Refusal(db, SubmitOp(db, u, lines)).None? {
      CreatedTables(db, u, f, window, lines, now);
      var db' := CreatedBatch(db, u, f, window, lines, now);
      forall b | 0 <= b < |db'.batches| ensures BatchCounts(db'.tasks, b, db'.batches[b]) {
        if b < |db.batches| {
          NewBatchCounts(db.tasks, db.batches, lines, b);
        } else {
          OwnCounts(db.tasks, db.batches, lines, db'.batches[b]);
        }
      }
      CreatedRows(db.tasks, db.batches, lines);
      CreatedStatus(db.tasks, db.batches, lines, db'.batches[|db.batches|]);
    }
  }

  lemma CreatedStatus(tasks: seq<Task>, batches: seq<Batch>, lines: seq<ParsedLine>, batch: Batch)
    requires RowsOk(tasks, batches) && StatusOk(tasks, batches) && Submittable(lines)
    requires BatchOk(batch) && batch.status == IN_PROGRESS
    ensures RowsOk(tasks + NewTasks(|batches|, lines), batches + [batch])
    ensures StatusOk(tasks + NewTasks(|batches|, lines), batches + [batch])
  {
  }

  lemma CreatedRows(tasks: seq<Task>, batches: seq<Batch>, lines: seq<ParsedLine>)
    requires RowsOk(tasks, batches) && Submittable(lines) && LinesOrdered(tasks) && CustomIdsDistinct(tasks)
    ensures LinesOrdered(tasks + NewTasks(|batches|, lines))
    ensures CustomIdsDistinct(tasks + NewTasks(|batches|, lines))
  {
  }

  // --- Retention. ---

  lemma PurgedOk(db: Db, retentionDays: nat, now: Time)
    requires TablesOk(db)
    ensures TablesOk(Purged(db, retentionDays, now))
  {
    var db' := Purged(db, retentionDays, now);
    SameRowsKeep(db.tasks, db'.tasks, db.batches, db'.batches);
    SameResultsKeepCounts(db.tasks, db'.tasks, db.batches, db'.batches);
  }

  // --- Recovery. ---

  lemma RecoveryIsQuiet(tasks: seq<Task>)
    ensures SameResults(tasks, RecoverTasks(tasks))
  {
  }

  lemma RecoveredOk(db: Db, nodes: map<string, Node>)
    requires TablesOk(db)
    ensures TablesOk(db.(nodes := nodes, tasks := RecoverTasks(db.tasks)))
  {
    var tasks' := RecoverTasks(db.tasks);
    RecoveryIsQuiet(db.tasks);
    SameRowsKeep(db.tasks, tasks', db.batches, db.batches);
    SameResultsKeepCounts(db.tasks, tasks', db.batches, db.batches);
  }
}
