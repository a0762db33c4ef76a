// Submission, cancellation, settlement and finalization (batch_ops.py).
module BatchOps {
  import opened Model
  import opened Sums
  import opened Ledger
  import opened Parsing
  import opened Eta

  // --- Submission. ---

  function LineReserved(): ParsedLine -> int { (p: ParsedLine) => p.Reserved() }

  function NewTask(b: nat, p: ParsedLine): Task {
    Task(b, p.lineIndex, p.customId, p.Reserved(), p.promptTokens, p.maxTokens, PENDING,
         None, None, None, None, 0, None, None, None)
  }

  function NewTasks(b: nat, lines: seq<ParsedLine>): (tasks: seq<Task>)
    ensures |tasks| == |lines|
    ensures forall i :: 0 <= i < |lines| ==> tasks[i] == NewTask(b, lines[i])
  {
    seq(|lines|, i requires 0 <= i < |lines| => NewTask(b, lines[i]))
  }

  function NewBatch(u: UserId, inputFile: nat, window: string, reserve: nat, total: nat, now: Time): Batch {
    Batch(u, inputFile, None, None, IN_PROGRESS, reserve, total, 0, 0, now, Some(now),
          if window == "24h" then Some(now + DAY) else None,
          None, None, None, None, None, None)
  }

  // The rows a submission inserts, before the reservation decides whether they are committed.
  function WithBatch(db: Db, u: UserId, inputFile: nat, window: string, lines: seq<ParsedLine>, now: Time): Db {
    SumNonNegative(lines, LineReserved());
    db.(batches := db.batches + [NewBatch(u, inputFile, window, Sum(lines, LineReserved()), |lines|, now)],
        tasks := db.tasks + NewTasks(|db.batches|, lines))
  }

  function SubmitOp(db: Db, u: UserId, lines: seq<ParsedLine>): Op {
    ReserveOp(u, Sum(lines, LineReserved()), Some(|db.batches|))
  }

  function CreatedBatch(db: Db, u: UserId, inputFile: nat, window: string, lines: seq<ParsedLine>, now: Time): Db {
    if Refusal(db, SubmitOp(db, u, lines)).Some? then db
    else Perform(WithBatch(db, u, inputFile, window, lines, now), SubmitOp(db, u, lines))
  }

  // --- Cancellation and expiry. ---

  predicate Cancellable(status: BatchStatus) { status == VALIDATING || status == IN_PROGRESS }

  function Stopped(t: Task, b: nat, now: Time): Task {
    if t.batch == b && t.Live() then t.(status := CANCELLED, finishedAt := Some(now)) else t
  }

  function StopTasks(tasks: seq<Task>, b: nat, now: Time): (tasks': seq<Task>)
    ensures |tasks'| == |tasks|
    ensures forall i :: 0 <= i < |tasks| ==> tasks'[i] == Stopped(tasks[i], b, now)
  {
    seq(|tasks|, i requires 0 <= i < |tasks| => Stopped(tasks[i], b, now))
  }

  // What a live task of batch b holds.
  function HeldBy(b: nat): Task -> int { (t: Task) => if t.batch == b && t.Live() then t.reserved else 0 }

  function TerminalBatch(batch: Batch, status: BatchStatus, now: Time): Batch {
    batch.(status := status,
           cancelledAt := if status == BATCH_CANCELLED then Some(now) else batch.cancelledAt,
           expiredAt := if status == EXPIRED then Some(now) else batch.expiredAt)
  }

  function Terminated(db: Db, b: nat, status: BatchStatus, now: Time): Db
    requires b < |db.batches|
  {
    var held := Sum(db.tasks, HeldBy(b));
    var stopped := db.(tasks := StopTasks(db.tasks, b, now),
                       batches := db.batches[b := TerminalBatch(db.batches[b], status, now)]);
    if held > 0 then Perform(stopped, ReleaseOp(db.batches[b].user, held, Some(b), None)) else stopped
  }

  // --- Settlement. ---

  datatype Outcome = Success(body: string, promptTokens: nat, completionTokens: nat) | Failure(error: string)

  function SettledTask(t: Task, outcome: Outcome, now: Time): Task {
    match outcome
    case Success(body, p, c) =>
      t.(status := COMPLETED, response := Some(body), promptTokens := Some(p), completionTokens := Some(c),
         finishedAt := Some(now))
    case Failure(error) =>
      t.(status := FAILED, error := Some(error), finishedAt := Some(now))
  }

  function CountedBatch(batch: Batch, outcome: Outcome): Batch {
    if outcome.Success? then batch.(completed := batch.completed + 1) else batch.(failed := batch.failed + 1)
  }

  function SettlementOp(db: Db, t: nat, outcome: Outcome): Op
    requires t < |db.tasks| && db.tasks[t].batch < |db.batches|
  {
    var task := db.tasks[t];
    var u := db.batches[task.batch].user;
    match outcome
    case Success(_, p, c) => ChargeOp(u, task.reserved, p + c, Some(task.batch), Some(t))
    case Failure(_) => ReleaseOp(u, task.reserved, Some(task.batch), Some(t))
  }

  // complete_task or fail_task up to and including the ledger's commit.
  function Settled(db: Db, t: nat, outcome: Outcome, alpha: real, now: Time): Db
    requires t < |db.tasks| && db.tasks[t].batch < |db.batches|
  {
    var task := SettledTask(db.tasks[t], outcome, now);
    var marked := db.(
      tasks := db.tasks[t := task],
      batches := db.batches[task.batch := CountedBatch(db.batches[task.batch], outcome)],
      stat := if outcome.Success? then Record(db.stat, task, alpha) else db.stat);
    if outcome.Failure? && task.reserved == 0 then marked else Perform(marked, SettlementOp(db, t, outcome))
  }

  // --- Finalization. ---

  function ErrorText(t: Task): string {
    if t.error.Some? && t.error.value != "" then t.error.value else "task failed"
  }

  // The lines row r contributes to the output file and to the error file.
  function OutputLine(tasks: seq<Task>, r: nat): seq<ResultLine>
    requires r < |tasks|
  {
    if tasks[r].status == COMPLETED then [ResponseLine(r, tasks[r].customId, tasks[r].response)] else []
  }

  function ErrorLineOf(tasks: seq<Task>, r: nat): seq<ResultLine>
    requires r < |tasks|
  {
    if tasks[r].status == FAILED then [ErrorLine(r, tasks[r].customId, ErrorText(tasks[r]))] else []
  }

  // The result lines of batch b among the first n tasks.
  function OutputLines(tasks: seq<Task>, b: nat, n: nat): seq<ResultLine>
    requires n <= |tasks|
  {
    if n == 0 then []
    else if tasks[n - 1].batch == b then OutputLines(tasks, b, n - 1) + OutputLine(tasks, n - 1)
    else OutputLines(tasks, b, n - 1)
  }

  function ErrorLines(tasks: seq<Task>, b: nat, n: nat): seq<ResultLine>
    requires n <= |tasks|
  {
    if n == 0 then []
    else if tasks[n - 1].batch == b then ErrorLines(tasks, b, n - 1) + ErrorLineOf(tasks, n - 1)
    else ErrorLines(tasks, b, n - 1)
  }

  predicate AllIn(batch: Batch) { batch.status == IN_PROGRESS && batch.completed + batch.failed >= batch.total }

  predicate FinalizeDue(db: Db, b: nat)
    requires b < |db.batches|
  {
    AllIn(db.batches[b])
  }

  function ResultFile(db: Db, b: nat, purpose: FilePurpose): FileRow
    requires b < |db.batches|
  {
    if purpose == BATCH_ERROR then
      FileRow(db.batches[b].user, BATCH_ERROR, ErrorsOf(b), Results(ErrorLines(db.tasks, b, |db.tasks|)))
    else
      FileRow(db.batches[b].user, BATCH_OUTPUT, OutputOf(b), Results(OutputLines(db.tasks, b, |db.tasks|)))
  }

  function CompletedBatch(batch: Batch, outputFile: nat, errorFile: Option<nat>, now: Time): Batch {
    batch.(status := BATCH_COMPLETED, finalizingAt := Some(now), completedAt := Some(now),
           outputFile := Some(outputFile),
           errorFile := if errorFile.Some? then errorFile else batch.errorFile)
  }

  // Writing the result files and completing the batch.
  function WithResults(db: Db, b: nat, now: Time): Db
    requires b < |db.batches|
  {
    var n := |db.files|;
    if ErrorLines(db.tasks, b, |db.tasks|) == [] then
      db.(files := db.files + [Some(ResultFile(db, b, BATCH_OUTPUT))],
          batches := db.batches[b := CompletedBatch(db.batches[b], n, None, now)])
    else
      db.(files := db.files + [Some(ResultFile(db, b, BATCH_OUTPUT)), Some(ResultFile(db, b, BATCH_ERROR))],
          batches := db.batches[b := CompletedBatch(db.batches[b], n, Some(n + 1), now)])
  }

  function Finalized(db: Db, b: nat, now: Time): Db
    requires b < |db.batches|
  {
    if FinalizeDue(db, b) then WithResults(db, b, now) else db
  }

  // --- The operations. ---

  // create_batch: inserts the rows, then reserves; if the reservation is refused the whole
  // session is rolled back.
  method CreateBatch(db: Store, u: UserId, inputFile: nat, window: string, lines: seq<ParsedLine>, now: Time)
    returns (r: Result<nat>)
    modifies db
    ensures db.Snapshot() == CreatedBatch(old(db.Snapshot()), u, inputFile, window, lines, now)
    ensures r == match Refusal(old(db.Snapshot()), SubmitOp(old(db.Snapshot()), u, lines))
                 case None => Ok(|old(db.batches)|)
                 case Some(e) => Err(e)
  {
    ghost var before := db.Snapshot();
    ghost var op := SubmitOp(before, u, lines);
    var batches, tasks := db.batches, db.tasks;
    var batchId := |batches|;
    var totalReserve := TotalReserve(lines);
    db.batches := db.batches + [NewBatch(u, inputFile, window, totalReserve, |lines|, now)];
    AddTasks(db, batchId, lines);
    ghost var inserted := WithBatch(before, u, inputFile, window, lines, now);
    assert db.Snapshot() == inserted;
    SameRefusal(before, inserted, op);
    var reserved := Reserve(db, u, totalReserve, Some(batchId));
    if reserved.Err? {
      assert Refusal(inserted, op) == Some(reserved.error);
      db.batches, db.tasks := batches, tasks;
      assert db.Snapshot() == before;
      return Err(reserved.error);
    }
    assert Refusal(inserted, op) == None;
    return Ok(batchId);
  }

  // Whether an operation is refused depends on the budget rows alone.
  lemma SameRefusal(db: Db, db': Db, op: Op)
    requires db'.budgets == db.budgets
    ensures Refusal(db', op) == Refusal(db, op)
  {
  }

  // A file that parsed is refused for lack of budget only, never for its amount.
  lemma OnlyBudgetRefuses(db: Db, u: UserId, raw: seq<RawLine>, defaultMaxTokens: int)
    requires defaultMaxTokens > 0 && Parse(raw, defaultMaxTokens).Parsed?
    ensures var op := SubmitOp(db, u, Parse(raw, defaultMaxTokens).lines);
            && op.tokens >= 7
            && Refusal(db, op) == (if op.tokens > BudgetOf(db, u).Available()
                                   then Some(InsufficientBudget(op.tokens, BudgetOf(db, u).Available())) else None)
  {
    ParseSpec(raw, defaultMaxTokens);
    SumMember(Parse(raw, defaultMaxTokens).lines, 0, LineReserved());
  }

  method TotalReserve(lines: seq<ParsedLine>) returns (total: nat)
    ensures total == Sum(lines, LineReserved())
  {
    total := 0;
    for i := 0 to |lines|
      invariant total == Sum(lines[..i], LineReserved())
    {
      assert lines[..i + 1] == lines[..i] + [lines[i]];
      SumAppend(lines[..i], lines[i], LineReserved());
      total := total + lines[i].Reserved();
    }
    assert lines[..|lines|] == lines;
  }

  method AddTasks(db: Store, b: nat, lines: seq<ParsedLine>)
    modifies db`tasks
    ensures db.tasks == old(db.tasks) + NewTasks(b, lines)
  {
    for i := 0 to |lines|
      invariant db.tasks == old(db.tasks) + NewTasks(b, lines[..i])
    {
      assert NewTasks(b, lines[..i + 1]) == NewTasks(b, lines[..i]) + [NewTask(b, lines[i])];
      db.tasks := db.tasks + [NewTask(b, lines[i])];
    }
    assert lines[..|lines|] == lines;
  }

  // _terminate_batch: marks the batch's live tasks, then the batch, then releases what they held.
  method TerminateBatch(db: Store, b: nat, status: BatchStatus, now: Time)
    requires b < |db.batches|
    modifies db
    ensures db.Snapshot() == Terminated(old(db.Snapshot()), b, status, now)
  {
    var stop, releaseAmount := TasksToStop(db, b);
    StopAll(db, b, stop, now);
    var batch := db.batches[b].(status := status);
    if status == BATCH_CANCELLED {
      batch := batch.(cancelledAt := Some(now));
    } else if status == EXPIRED {
      batch := batch.(expiredAt := Some(now));
    }
    db.batches := db.batches[b := batch];
    if releaseAmount > 0 {
      var _ := Release(db, batch.user, releaseAmount, Some(b), None);
    }
  }

  ghost predicate LiveTasksOf(tasks: seq<Task>, b: nat, ids: seq<nat>) {
    && (forall k :: 0 <= k < |ids| ==> ids[k] < |tasks|)
    && (forall t :: 0 <= t < |tasks| ==> (t in ids <==> tasks[t].batch == b && tasks[t].Live()))
    && (forall k, l :: 0 <= k < l < |ids| ==> ids[k] < ids[l])
  }

  lemma NextLive(tasks: seq<Task>, task: Task, b: nat, ids: seq<nat>)
    requires LiveTasksOf(tasks, b, ids)
    ensures LiveTasksOf(tasks + [task], b, if task.batch == b && task.Live() then ids + [|tasks|] else ids)
  {
  }

  // What the first n rows contribute.
  ghost predicate FoundSoFar(tasks: seq<Task>, b: nat, n: nat, ids: seq<nat>, held: nat) {
    n <= |tasks| && LiveTasksOf(tasks[..n], b, ids) && held == Sum(tasks[..n], HeldBy(b))
  }

  lemma FoundNext(tasks: seq<Task>, b: nat, n: nat, ids: seq<nat>, held: nat)
    requires n < |tasks| && FoundSoFar(tasks, b, n, ids, held)
    ensures if tasks[n].batch == b && tasks[n].Live()
            then FoundSoFar(tasks, b, n + 1, ids + [n], held + tasks[n].reserved)
            else FoundSoFar(tasks, b, n + 1, ids, held)
  {
    assert tasks[..n + 1] == tasks[..n] + [tasks[n]];
    SumPrefix(tasks, n, HeldBy(b));
    NextLive(tasks[..n], tasks[n], b, ids);
  }

  // The query for a batch's pending and running tasks, and the sum of their reservations.
  method TasksToStop(db: Store, b: nat) returns (ids: seq<nat>, held: nat)
    ensures LiveTasksOf(db.tasks, b, ids)
    ensures held == Sum(db.tasks, HeldBy(b))
  {
    ids, held := [], 0;
    for t := 0 to |db.tasks|
      invariant FoundSoFar(db.tasks, b, t, ids, held)
    {
      FoundNext(db.tasks, b, t, ids, held);
      if db.tasks[t].batch == b && db.tasks[t].Live() {
        ids := ids + [t];
        held := held + db.tasks[t].reserved;
      }
    }
    assert db.tasks[..|db.tasks|] == db.tasks;
  }

  method StopAll(db: Store, b: nat, ids: seq<nat>, now: Time)
    requires LiveTasksOf(db.tasks, b, ids)
    modifies db`tasks
    ensures db.tasks == StopTasks(old(db.tasks), b, now)
  {
    for k := 0 to |ids|
      invariant |db.tasks| == |old(db.tasks)|
      invariant forall t :: 0 <= t < |db.tasks| ==>
                  db.tasks[t] == if t in ids[..k] then Stopped(old(db.tasks)[t], b, now) else old(db.tasks)[t]
    {
      var t := ids[k];
      assert ids[..k + 1] == ids[..k] + [t];
      db.tasks := db.tasks[t := db.tasks[t].(status := CANCELLED, finishedAt := Some(now))];
    }
    assert ids[..|ids|] == ids;
  }

  // The owner's cancel request.
  method CancelBatch(db: Store, u: UserId, b: nat, now: Time) returns (r: Result<nat>)
    modifies db
    ensures r == if !OwnedBy(old(db.batches), b, u) then Err(NotFound)
                 else if !Cancellable(old(db.batches)[b].status) then Err(Conflict)
                 else Ok(b)
    ensures db.Snapshot() == if r.Ok? then Terminated(old(db.Snapshot()), b, BATCH_CANCELLED, now) else old(db.Snapshot())
  {
    if b >= |db.batches| || db.batches[b].user != u { return Err(NotFound); }
    if !Cancellable(db.batches[b].status) { return Err(Conflict); }
    TerminateBatch(db, b, BATCH_CANCELLED, now);
    return Ok(b);
  }

  // The retention job's expiry of one batch.
  method ExpireBatch(db: Store, b: nat, now: Time) returns (r: Result<nat>)
    requires b < |db.batches|
    modifies db
    ensures db.Snapshot() == if r.Ok? then Terminated(old(db.Snapshot()), b, EXPIRED, now) else old(db.Snapshot())
    ensures r == if !Cancellable(old(db.batches)[b].status) then Err(Conflict) else Ok(b)
  {
    if !Cancellable(db.batches[b].status) { return Err(Conflict); }
    TerminateBatch(db, b, EXPIRED, now);
    return Ok(b);
  }

  // complete_task, up to and including the commit in ledger.charge.
  method CompleteTask(db: Store, t: nat, body: string, promptTokens: nat, completionTokens: nat, alpha: real, now: Time)
    requires t < |db.tasks| && db.tasks[t].batch < |db.batches|
    modifies db
    ensures db.Snapshot() == Settled(old(db.Snapshot()), t, Success(body, promptTokens, completionTokens), alpha, now)
  {
    var task := db.tasks[t];
    task := task.(status := COMPLETED);
    task := task.(response := Some(body));
    task := task.(promptTokens := Some(promptTokens), completionTokens := Some(completionTokens));
    task := task.(finishedAt := Some(now));
    db.tasks := db.tasks[t := task];
    var batch := db.batches[task.batch];
    batch := batch.(completed := batch.completed + 1);
    db.batches := db.batches[task.batch := batch];
    UpdateDispatchStats(db, task, alpha);
    var _ := Charge(db, batch.user, task.reserved, promptTokens + completionTokens, Some(task.batch), Some(t));
  }

  // fail_task, up to and including its commit.
  method FailTask(db: Store, t: nat, error: string, ghost alpha: real, now: Time)
    requires t < |db.tasks| && db.tasks[t].batch < |db.batches|
    modifies db
    ensures db.Snapshot() == Settled(old(db.Snapshot()), t, Failure(error), alpha, now)
  {
    var task := db.tasks[t];
    task := task.(status := FAILED);
    task := task.(error := Some(error));
    task := task.(finishedAt := Some(now));
    db.tasks := db.tasks[t := task];
    var batch := db.batches[task.batch];
    batch := batch.(failed := batch.failed + 1);
    db.batches := db.batches[task.batch := batch];
    if task.reserved > 0 {
      var _ := Release(db, batch.user, task.reserved, Some(task.batch), Some(t));
    }
  }

  // Within a batch, rows were inserted in line order.
  ghost predicate LinesOrdered(tasks: seq<Task>) {
    forall i, j :: 0 <= i < j < |tasks| && tasks[i].batch == tasks[j].batch ==> tasks[i].lineIndex < tasks[j].lineIndex
  }

  // What the query for all tasks of a batch, ordered by line_index, may return.
  ghost predicate TasksByLine(tasks: seq<Task>, b: nat, rows: seq<nat>) {
    && (forall k :: 0 <= k < |rows| ==> rows[k] < |tasks| && tasks[rows[k]].batch == b)
    && (forall t :: 0 <= t < |tasks| && tasks[t].batch == b ==> t in rows)
    && (forall k, l :: 0 <= k < l < |rows| ==> rows[k] != rows[l])
    && (forall k, l :: 0 <= k < l < |rows| ==> tasks[rows[k]].lineIndex <= tasks[rows[l]].lineIndex)
  }

  // The result lines of the given rows, in that order.
  function OutputOfRows(tasks: seq<Task>, rows: seq<nat>): seq<ResultLine>
    requires forall k :: 0 <= k < |rows| ==> rows[k] < |tasks|
  {
    if rows == [] then []
    else OutputOfRows(tasks, rows[..|rows| - 1]) + OutputLine(tasks, rows[|rows| - 1])
  }

  function ErrorsOfRows(tasks: seq<Task>, rows: seq<nat>): seq<ResultLine>
    requires forall k :: 0 <= k < |rows| ==> rows[k] < |tasks|
  {
    if rows == [] then []
    else ErrorsOfRows(tasks, rows[..|rows| - 1]) + ErrorLineOf(tasks, rows[|rows| - 1])
  }

  // The tasks of batch b among the first n, in row order.
  ghost predicate InRowOrder(tasks: seq<Task>, b: nat, n: nat, rows: seq<nat>)
    requires n <= |tasks|
  {
    && (forall k :: 0 <= k < |rows| ==> rows[k] < n && tasks[rows[k]].batch == b)
    && (forall t :: 0 <= t < n && tasks[t].batch == b ==> t in rows)
    && (forall k, l :: 0 <= k < l < |rows| ==> rows[k] < rows[l])
  }

  lemma InRowOrderLast(tasks: seq<Task>, b: nat, n: nat, rows: seq<nat>)
    requires 0 < n <= |tasks| && InRowOrder(tasks, b, n, rows)
    ensures tasks[n - 1].batch != b ==> InRowOrder(tasks, b, n - 1, rows)
    ensures tasks[n - 1].batch == b ==>
              rows != [] && rows[|rows| - 1] == n - 1 && InRowOrder(tasks, b, n - 1, rows[..|rows| - 1])
  {
    if tasks[n - 1].batch == b {
      var init := rows[..|rows| - 1];
      assert rows[|rows| - 1] == n - 1;
      forall t | 0 <= t < n - 1 && tasks[t].batch == b ensures t in init {
        var k :| 0 <= k < |rows| && rows[k] == t;
        assert init[k] == t;
      }
    }
  }

  // Reading the batch in line order gives the same lines as reading the table in row order.
  lemma {:induction false} LineOrderIsRowOrder(tasks: seq<Task>, b: nat, n: nat, rows: seq<nat>)
    requires n <= |tasks| && InRowOrder(tasks, b, n, rows)
    ensures OutputOfRows(tasks, rows) == OutputLines(tasks, b, n)
    ensures ErrorsOfRows(tasks, rows) == ErrorLines(tasks, b, n)
  {
    if n == 0 {
      assert rows == [];
    } else {
      InRowOrderLast(tasks, b, n, rows);
      if tasks[n - 1].batch == b {
        LineOrderIsRowOrder(tasks, b, n - 1, rows[..|rows| - 1]);
        LastLines(tasks, b, n, rows);
      } else {
        LineOrderIsRowOrder(tasks, b, n - 1, rows);
      }
    }
  }

  lemma LastLines(tasks: seq<Task>, b: nat, n: nat, rows: seq<nat>)
    requires 0 < n <= |tasks| && tasks[n - 1].batch == b && rows != [] && rows[|rows| - 1] == n - 1
    requires forall k :: 0 <= k < |rows| ==> rows[k] < |tasks|
    ensures OutputOfRows(tasks, rows) == OutputOfRows(tasks, rows[..|rows| - 1]) + OutputLine(tasks, n - 1)
    ensures ErrorsOfRows(tasks, rows) == ErrorsOfRows(tasks, rows[..|rows| - 1]) + ErrorLineOf(tasks, n - 1)
    ensures OutputLines(tasks, b, n) == OutputLines(tasks, b, n - 1) + OutputLine(tasks, n - 1)
    ensures ErrorLines(tasks, b, n) == ErrorLines(tasks, b, n - 1) + ErrorLineOf(tasks, n - 1)
  {
  }

  lemma {:induction false} QueryIsRowOrder(tasks: seq<Task>, b: nat, rows: seq<nat>)
    requires LinesOrdered(tasks) && TasksByLine(tasks, b, rows)
    ensures OutputOfRows(tasks, rows) == OutputLines(tasks, b, |tasks|)
    ensures ErrorsOfRows(tasks, rows) == ErrorLines(tasks, b, |tasks|)
  {
    forall k, l | 0 <= k < l < |rows| ensures rows[k] < rows[l] {
      var i, j := rows[k], rows[l];
      assert tasks[i].lineIndex <= tasks[j].lineIndex && i != j;
    }
    LineOrderIsRowOrder(tasks, b, |tasks|, rows);
  }

  // _maybe_finalize_batch, given the answer of its query.
  method MaybeFinalizeBatch(db: Store, b: nat, rows: seq<nat>, now: Time)
    requires b < |db.batches|
    requires LinesOrdered(db.tasks) && TasksByLine(db.tasks, b, rows)
    modifies db`files, db`batches
    ensures db.Snapshot() == Finalized(old(db.Snapshot()), b, now)
  {
    if db.batches[b].status != IN_PROGRESS { return; }
    if db.batches[b].completed + db.batches[b].failed < db.batches[b].total { return; }
    var outputLines, errorLines := CollectLines(db, b, rows);
    var batch := db.batches[b].(status := FINALIZING, finalizingAt := Some(now));
    var outputFile := |db.files|;
    db.files := db.files + [Some(FileRow(batch.user, BATCH_OUTPUT, OutputOf(b), Results(outputLines)))];
    batch := batch.(outputFile := Some(outputFile));
    if errorLines != [] {
      var errorFile := |db.files|;
      db.files := db.files + [Some(FileRow(batch.user, BATCH_ERROR, ErrorsOf(b), Results(errorLines)))];
      batch := batch.(errorFile := Some(errorFile));
    }
    batch := batch.(status := BATCH_COMPLETED, completedAt := Some(now));
    db.batches := db.batches[b := batch];
  }

  method CollectLines(db: Store, b: nat, rows: seq<nat>) returns (output: seq<ResultLine>, errors: seq<ResultLine>)
    requires LinesOrdered(db.tasks) && TasksByLine(db.tasks, b, rows)
    ensures output == OutputLines(db.tasks, b, |db.tasks|)
    ensures errors == ErrorLines(db.tasks, b, |db.tasks|)
  {
    output, errors := [], [];
    for k := 0 to |rows|
      invariant output == OutputOfRows(db.tasks, rows[..k])
      invariant errors == ErrorsOfRows(db.tasks, rows[..k])
    {
      assert rows[..k + 1][..k] == rows[..k];
      var t := db.tasks[rows[k]];
      if t.status == COMPLETED {
        output := output + [ResponseLine(rows[k], t.customId, t.response)];
      } else if t.status == FAILED {
        errors := errors + [ErrorLine(rows[k], t.customId, ErrorText(t))];
      }
    }
    assert rows[..|rows|] == rows;
    QueryIsRowOrder(db.tasks, b, rows);
  }
}
