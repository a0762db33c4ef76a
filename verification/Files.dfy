// The file table: references resolve, and the results of a batch list every request of it once.
module Files {
  import opened Model
  import opened Sums
  import opened Ledger
  import opened Parsing
  import opened BatchOps
  import opened Retention
  import opened Structure

  // --- What the two result files say. ---

  ghost predicate InTaskOrder(lines: seq<ResultLine>) {
    forall k, l :: 0 <= k < l < |lines| ==> lines[k].taskId < lines[l].taskId
  }

  // The line is what row line.taskId, one of the first n of batch b, contributes to the output file.
  predicate IsOutput(tasks: seq<Task>, b: nat, n: nat, line: ResultLine) {
    && line.taskId < n <= |tasks| && tasks[line.taskId].batch == b
    && tasks[line.taskId].status == COMPLETED
    && line == ResponseLine(line.taskId, tasks[line.taskId].customId, tasks[line.taskId].response)
  }

  predicate IsError(tasks: seq<Task>, b: nat, n: nat, line: ResultLine) {
    && line.taskId < n <= |tasks| && tasks[line.taskId].batch == b
    && tasks[line.taskId].status == FAILED
    && line == ErrorLine(line.taskId, tasks[line.taskId].customId, ErrorText(tasks[line.taskId]))
  }

  lemma {:induction false} OutputLinesSpec(tasks: seq<Task>, b: nat, n: nat, lines: seq<ResultLine>)
    requires n <= |tasks| && lines == OutputLines(tasks, b, n)
    ensures InTaskOrder(lines)
    ensures forall line :: line in lines ==> IsOutput(tasks, b, n, line)
  {
    if n > 0 {
      var init := OutputLines(tasks, b, n - 1);
      OutputLinesSpec(tasks, b, n - 1, init);
      forall line | line in lines ensures IsOutput(tasks, b, n, line) {
        assert line in init ==> IsOutput(tasks, b, n - 1, line);
      }
      InOrderNext(init, n - 1, OutputLine(tasks, n - 1), i => IsOutput(tasks, b, n - 1, i));
    }
  }

  lemma {:induction false} ErrorLinesSpec(tasks: seq<Task>, b: nat, n: nat, lines: seq<ResultLine>)
    requires n <= |tasks| && lines == ErrorLines(tasks, b, n)
    ensures InTaskOrder(lines)
    ensures forall line :: line in lines ==> IsError(tasks, b, n, line)
  {
    if n > 0 {
      var init := ErrorLines(tasks, b, n - 1);
      ErrorLinesSpec(tasks, b, n - 1, init);
      forall line | line in lines ensures IsError(tasks, b, n, line) {
        assert line in init ==> IsError(tasks, b, n - 1, line);
      }
      InOrderNext(init, n - 1, ErrorLineOf(tasks, n - 1), i => IsError(tasks, b, n - 1, i));
    }
  }

  lemma InOrderNext(init: seq<ResultLine>, r: nat, more: seq<ResultLine>, ok: ResultLine -> bool)
    requires InTaskOrder(init) && |more| <= 1 && (more != [] ==> more[0].taskId == r)
    requires forall line :: line in init ==> ok(line)
    requires forall line :: ok(line) ==> line.taskId < r
    ensures InTaskOrder(init + more)
  {
    forall k, l | 0 <= k < l < |init + more| ensures (init + more)[k].taskId < (init + more)[l].taskId {
      if l == |init| { assert init[k] in init; }
    }
  }

  function HasId(id: string): ResultLine -> int { (line: ResultLine) => if line.customId == id then 1 else 0 }

  function SettledWithId(b: nat, id: string): Task -> int {
    (t: Task) => if t.batch == b && t.Settled() && t.customId == id then 1 else 0
  }

  lemma LineCount(tasks: seq<Task>, b: nat, r: nat, id: string)
    requires r < |tasks|
    ensures Sum(OutputLine(tasks, r), HasId(id)) + Sum(ErrorLineOf(tasks, r), HasId(id)) ==
            if tasks[r].Settled() && tasks[r].customId == id then 1 else 0
  {
    SumOfOneLine(OutputLine(tasks, r), HasId(id));
    SumOfOneLine(ErrorLineOf(tasks, r), HasId(id));
  }

  lemma {:induction false} SumOfOneLine(lines: seq<ResultLine>, f: ResultLine -> int)
    requires |lines| <= 1
    ensures Sum(lines, f) == if lines == [] then 0 else f(lines[0])
  {
    if lines != [] { assert lines[..0] == []; }
  }

  lemma {:induction false} LinesCount(tasks: seq<Task>, b: nat, n: nat, id: string,
                                      output: seq<ResultLine>, errors: seq<ResultLine>, settled: int)
    requires n <= |tasks| && output == OutputLines(tasks, b, n) && errors == ErrorLines(tasks, b, n)
    requires settled == Sum(tasks[..n], SettledWithId(b, id))
    ensures Sum(output, HasId(id)) + Sum(errors, HasId(id)) == settled
  {
    if n > 0 {
      var output0, errors0 := OutputLines(tasks, b, n - 1), ErrorLines(tasks, b, n - 1);
      var settled0 := Sum(tasks[..n - 1], SettledWithId(b, id));
      LinesCount(tasks, b, n - 1, id, output0, errors0, settled0);
      SumPrefix(tasks, n - 1, SettledWithId(b, id));
      OneTaskMore(tasks, b, n - 1, id, output0, errors0, output, errors);
    }
  }

  lemma {:induction false} OneTaskMore(tasks: seq<Task>, b: nat, r: nat, id: string, output0: seq<ResultLine>, errors0: seq<ResultLine>,
                    output: seq<ResultLine>, errors: seq<ResultLine>)
    requires r < |tasks|
    requires output == if tasks[r].batch == b then output0 + OutputLine(tasks, r) else output0
    requires errors == if tasks[r].batch == b then errors0 + ErrorLineOf(tasks, r) else errors0
    ensures Sum(output, HasId(id)) + Sum(errors, HasId(id)) ==
            Sum(output0, HasId(id)) + Sum(errors0, HasId(id)) + SettledWithId(b, id)(tasks[r])
  {
    SumConcat(output0, OutputLine(tasks, r), HasId(id));
    SumConcat(errors0, ErrorLineOf(tasks, r), HasId(id));
    LineCount(tasks, b, r, id);
  }

  lemma {:induction false} SumOfSingle<T>(s: seq<T>, i: nat, f: T -> int)
    requires i < |s|
    requires forall j :: 0 <= j < |s| && j != i ==> f(s[j]) == 0
    ensures Sum(s, f) == f(s[i])
  {
    var n := |s| - 1;
    if i == n { SumZero(s[..n], f); } else { SumOfSingle(s[..n], i, f); }
  }

  // Once every task of the batch has settled, the two files together list every custom_id
  // exactly once, each in line order.
  lemma {:induction false} FilesPartitionTheBatch(tasks: seq<Task>, b: nat, t: nat)
    requires LinesOrdered(tasks) && CustomIdsDistinct(tasks)
    requires forall i :: 0 <= i < |tasks| && tasks[i].batch == b ==> tasks[i].Settled()
    requires t < |tasks| && tasks[t].batch == b
    ensures Sum(OutputLines(tasks, b, |tasks|), HasId(tasks[t].customId))
            + Sum(ErrorLines(tasks, b, |tasks|), HasId(tasks[t].customId)) == 1
    ensures LineIndexOrder(tasks, OutputLines(tasks, b, |tasks|))
    ensures LineIndexOrder(tasks, ErrorLines(tasks, b, |tasks|))
  {
    var id := tasks[t].customId;
    assert tasks[..|tasks|] == tasks;
    LinesCount(tasks, b, |tasks|, id, OutputLines(tasks, b, |tasks|), ErrorLines(tasks, b, |tasks|),
               Sum(tasks, SettledWithId(b, id)));
    SumOfSingle(tasks, t, SettledWithId(b, id));
    OutputLinesSpec(tasks, b, |tasks|, OutputLines(tasks, b, |tasks|));
    ErrorLinesSpec(tasks, b, |tasks|, ErrorLines(tasks, b, |tasks|));
    TaskOrderIsLineOrder(tasks, b, OutputLines(tasks, b, |tasks|));
    TaskOrderIsLineOrder(tasks, b, ErrorLines(tasks, b, |tasks|));
  }

  ghost predicate LineIndexOrder(tasks: seq<Task>, lines: seq<ResultLine>) {
    forall k, l :: 0 <= k < l < |lines| && lines[k].taskId < |tasks| && lines[l].taskId < |tasks| ==>
                     tasks[lines[k].taskId].lineIndex < tasks[lines[l].taskId].lineIndex
  }

  lemma TaskOrderIsLineOrder(tasks: seq<Task>, b: nat, lines: seq<ResultLine>)
    requires LinesOrdered(tasks) && InTaskOrder(lines)
    requires forall line :: line in lines ==> line.taskId < |tasks| && tasks[line.taskId].batch == b
    ensures LineIndexOrder(tasks, lines)
  {
    forall k, l | 0 <= k < l < |lines|
      ensures tasks[lines[k].taskId].lineIndex < tasks[lines[l].taskId].lineIndex
    {
      assert lines[k] in lines && lines[l] in lines;
    }
  }

  // --- References. ---

  ghost predicate BatchFilesOk(db: Db, b: nat)
    requires b < |db.batches|
  {
    var batch := db.batches[b];
    && batch.inputFile < |db.files| && db.files[batch.inputFile].Some?
    && db.files[batch.inputFile].value.purpose == BATCH_INPUT
    && db.files[batch.inputFile].value.owner == batch.user
    && (batch.outputFile.Some? ==>
          && batch.outputFile.value < |db.files|
          && db.files[batch.outputFile.value] == Some(ResultFile(db, b, BATCH_OUTPUT))
          && (batch.errorFile.Some? <==> ErrorLines(db.tasks, b, |db.tasks|) != []))
    && (batch.errorFile.Some? ==>
          && batch.errorFile.value < |db.files|
          && db.files[batch.errorFile.value] == Some(ResultFile(db, b, BATCH_ERROR)))
  }

  // A result file row is the current result file of the batch it is named after.
  ghost predicate FileOk(db: Db, f: nat)
    requires f < |db.files|
  {
    db.files[f].Some? ==>
      match db.files[f].value.purpose
      case BATCH_INPUT => db.files[f].value.content.Input?
      case BATCH_OUTPUT =>
        && db.files[f].value.name.OutputOf?
        && db.files[f].value.name.batch < |db.batches|
        && db.batches[db.files[f].value.name.batch].outputFile == Some(f)
      case BATCH_ERROR =>
        && db.files[f].value.name.ErrorsOf?
        && db.files[f].value.name.batch < |db.batches|
        && db.batches[db.files[f].value.name.batch].errorFile == Some(f)
  }

  ghost predicate FilesOk(db: Db) {
    && (forall b :: 0 <= b < |db.batches| ==> BatchFilesOk(db, b))
    && (forall f :: 0 <= f < |db.files| ==> FileOk(db, f))
  }

  // No result file is shared by two batches, used twice by one, or used as an input.
  lemma ResultFilesAreUnshared(db: Db, b: nat, c: nat, f: nat)
    requires FilesOk(db) && b < |db.batches| && c < |db.batches|
    requires RefersTo(db.batches[b], f)
    ensures db.batches[c].inputFile != f
    ensures b != c ==> !RefersTo(db.batches[c], f)
    ensures db.batches[b].outputFile.Some? && db.batches[b].errorFile.Some? ==>
              db.batches[b].outputFile != db.batches[b].errorFile
  {
    assert BatchFilesOk(db, b) && BatchFilesOk(db, c);
  }

  // --- Results of a completed batch do not change. ---

  ghost predicate SameTasksOf(tasks: seq<Task>, tasks': seq<Task>, b: nat) {
    && |tasks| <= |tasks'|
    && (forall i :: 0 <= i < |tasks| ==> tasks'[i].batch == tasks[i].batch && (tasks[i].batch == b ==> tasks'[i] == tasks[i]))
    && (forall i :: |tasks| <= i < |tasks'| ==> tasks'[i].batch != b)
  }

  lemma {:induction false} SameLines(tasks: seq<Task>, tasks': seq<Task>, b: nat, n: nat)
    requires SameTasksOf(tasks, tasks', b) && n <= |tasks'|
    ensures OutputLines(tasks', b, n) == OutputLines(tasks, b, Min(n, |tasks|))
    ensures ErrorLines(tasks', b, n) == ErrorLines(tasks, b, Min(n, |tasks|))
  {
    if n > 0 {
      SameLines(tasks, tasks', b, n - 1);
      if n <= |tasks| && tasks[n - 1].batch == b {
        assert OutputLine(tasks', n - 1) == OutputLine(tasks, n - 1);
        assert ErrorLineOf(tasks', n - 1) == ErrorLineOf(tasks, n - 1);
      }
    }
  }

  // --- Steps that neither finalize nor purge. ---

  ghost predicate SameFileFields(batch: Batch, batch': Batch) {
    && batch'.user == batch.user && batch'.inputFile == batch.inputFile
    && batch'.outputFile == batch.outputFile && batch'.errorFile == batch.errorFile
  }

  ghost predicate NoResultsYet(db: Db, batch: Batch) {
    && batch.outputFile.None? && batch.errorFile.None?
    && batch.inputFile < |db.files| && db.files[batch.inputFile].Some?
    && db.files[batch.inputFile].value.purpose == BATCH_INPUT
    && db.files[batch.inputFile].value.owner == batch.user
  }

  lemma FilesKept(db: Db, db': Db)
    requires FilesOk(db)
    requires db.files == db'.files
    requires |db.batches| <= |db'.batches|
    requires forall b :: 0 <= b < |db.batches| ==> SameFileFields(db.batches[b], db'.batches[b])
    requires forall b :: |db.batches| <= b < |db'.batches| ==> NoResultsYet(db, db'.batches[b])
    requires forall b :: 0 <= b < |db.batches| && db.batches[b].outputFile.Some? ==> SameTasksOf(db.tasks, db'.tasks, b)
    requires forall b :: 0 <= b < |db.batches| && db.batches[b].errorFile.Some? ==> db.batches[b].outputFile.Some?
    ensures FilesOk(db')
  {
    forall b | 0 <= b < |db'.batches| ensures BatchFilesOk(db', b) {
      if b < |db.batches| {
        assert BatchFilesOk(db, b) && SameFileFields(db.batches[b], db'.batches[b]);
        if db.batches[b].outputFile.Some? { SameLines(db.tasks, db'.tasks, b, |db'.tasks|); }
      } else {
        assert NoResultsYet(db, db'.batches[b]);
      }
    }
    forall f | 0 <= f < |db'.files| ensures FileOk(db', f) {
      assert FileOk(db, f);
      KeptFile(db, db', f);
    }
  }

  lemma KeptFile(db: Db, db': Db, f: nat)
    requires f < |db.files| && db'.files == db.files && FileOk(db, f)
    requires |db.batches| <= |db'.batches|
    requires forall b :: 0 <= b < |db.batches| ==> SameFileFields(db.batches[b], db'.batches[b])
    ensures FileOk(db', f)
  {
    if db.files[f].Some? && db.files[f].value.purpose != BATCH_INPUT {
      var b := db.files[f].value.name.batch;
      assert SameFileFields(db.batches[b], db'.batches[b]);
    }
  }

  // The results of completed batches survive whatever leaves settled tasks alone.
  lemma CompletedTasksKept(tasks: seq<Task>, tasks': seq<Task>, batches: seq<Batch>, b: nat)
    requires RowsOk(tasks, batches) && StatusOk(tasks, batches)
    requires b < |batches| && batches[b].outputFile.Some?
    requires |tasks'| == |tasks|
    requires forall i :: 0 <= i < |tasks| ==>
                           tasks'[i].batch == tasks[i].batch && (tasks[i].Settled() ==> tasks'[i] == tasks[i])
    ensures SameTasksOf(tasks, tasks', b)
  {
    assert BatchOk(batches[b]);
    forall i | 0 <= i < |tasks| && tasks[i].batch == b ensures tasks'[i] == tasks[i] {
      assert Fits(tasks[i].status, batches[b].status);
    }
  }

  lemma UpdateFiles(db: Db, db': Db)
    requires FilesOk(db) && RowsOk(db.tasks, db.batches) && StatusOk(db.tasks, db.batches)
    requires db'.files == db.files && |db'.batches| == |db.batches| && |db'.tasks| == |db.tasks|
    requires forall b :: 0 <= b < |db.batches| ==> SameFileFields(db.batches[b], db'.batches[b])
    requires forall i :: 0 <= i < |db.tasks| ==>
                           db'.tasks[i].batch == db.tasks[i].batch && (db.tasks[i].Settled() ==> db'.tasks[i] == db.tasks[i])
    ensures FilesOk(db')
  {
    forall b | 0 <= b < |db.batches|
      ensures db.batches[b].errorFile.Some? ==> db.batches[b].outputFile.Some?
      ensures db.batches[b].outputFile.Some? ==> SameTasksOf(db.tasks, db'.tasks, b)
    {
      assert BatchOk(db.batches[b]);
      if db.batches[b].outputFile.Some? { CompletedTasksKept(db.tasks, db'.tasks, db.batches, b); }
    }
    FilesKept(db, db');
  }

  lemma CreatedFiles(db: Db, u: UserId, f: nat, window: string, lines: seq<ParsedLine>, now: Time)
    requires FilesOk(db) && RowsOk(db.tasks, db.batches) && StatusOk(db.tasks, db.batches)
    requires f < |db.files| && db.files[f].Some? && db.files[f].value.owner == u && db.files[f].value.purpose == BATCH_INPUT
    ensures FilesOk(CreatedBatch(db, u, f, window, lines, now))
  {
    var db' := CreatedBatch(db, u, f, window, lines, now);
    CreatedTables(db, u, f, window, lines, now);
    if Refusal(db, SubmitOp(db, u, lines)).None? {
      forall b | 0 <= b < |db.batches|
        ensures SameFileFields(db.batches[b], db'.batches[b])
        ensures SameTasksOf(db.tasks, db'.tasks, b)
        ensures db.batches[b].errorFile.Some? ==> db.batches[b].outputFile.Some?
      {
        assert BatchOk(db.batches[b]);
      }
      assert NoResultsYet(db, db'.batches[|db.batches|]);
      FilesKept(db, db');
    }
  }

  lemma UploadedFiles(db: Db, row: FileRow)
    requires FilesOk(db) && row.purpose == BATCH_INPUT && row.content.Input?
    ensures FilesOk(db.(files := db.files + [Some(row)]))
  {
    var db' := db.(files := db.files + [Some(row)]);
    forall b | 0 <= b < |db'.batches| ensures BatchFilesOk(db', b) { assert BatchFilesOk(db, b); }
    forall f | 0 <= f < |db'.files| ensures FileOk(db', f) {
      if f < |db.files| { assert FileOk(db, f); }
    }
  }

  // --- Finalization. ---

  lemma FinalizedFiles(db: Db, b: nat, now: Time)
    requires FilesOk(db) && StatusOk(db.tasks, db.batches) && b < |db.batches|
    ensures FilesOk(Finalized(db, b, now))
  {
    if FinalizeDue(db, b) {
      var db' := Finalized(db, b, now);
      assert BatchOk(db.batches[b]);
      assert db.files <= db'.files;
      forall c | 0 <= c < |db'.batches| ensures BatchFilesOk(db', c) {
        assert BatchFilesOk(db, c);
        assert ResultFile(db', c, BATCH_OUTPUT) == ResultFile(db, c, BATCH_OUTPUT);
        assert ResultFile(db', c, BATCH_ERROR) == ResultFile(db, c, BATCH_ERROR);
      }
      forall f | 0 <= f < |db'.files| ensures FileOk(db', f) {
        if f < |db.files| { FinalizedKeepsFile(db, b, now, f); }
      }
    }
  }

  lemma FinalizedKeepsFile(db: Db, b: nat, now: Time, f: nat)
    requires b < |db.batches| && f < |db.files| && FileOk(db, f)
    requires FinalizeDue(db, b) && BatchOk(db.batches[b])
    ensures f < |Finalized(db, b, now).files| && FileOk(Finalized(db, b, now), f)
  {
  }

  // --- Purging. ---

  lemma PurgedFilesOk(db: Db, retentionDays: nat, now: Time)
    requires FilesOk(db)
    ensures FilesOk(Purged(db, retentionDays, now))
  {
    var db' := Purged(db, retentionDays, now);
    var cutoff := now - retentionDays * DAY;
    forall b | 0 <= b < |db'.batches| ensures BatchFilesOk(db', b) {
      PurgedBatchFiles(db, retentionDays, now, b);
    }
    forall f | 0 <= f < |db'.files| ensures FileOk(db', f) {
      assert FileOk(db, f);
      if db'.files[f].Some? && db.files[f].value.purpose != BATCH_INPUT {
        var b := db.files[f].value.name.batch;
        assert RefersTo(db.batches[b], f);
        assert !PurgeDue(db.batches[b], cutoff);
      }
    }
  }

  lemma PurgedBatchFiles(db: Db, retentionDays: nat, now: Time, b: nat)
    requires FilesOk(db) && b < |db.batches|
    ensures |Purged(db, retentionDays, now).batches| == |db.batches|
    ensures BatchFilesOk(Purged(db, retentionDays, now), b)
  {
    var db' := Purged(db, retentionDays, now);
    var cutoff := now - retentionDays * DAY;
    assert BatchFilesOk(db, b);
    assert ResultFile(db', b, BATCH_OUTPUT) == ResultFile(db, b, BATCH_OUTPUT);
    assert ResultFile(db', b, BATCH_ERROR) == ResultFile(db, b, BATCH_ERROR);
    StillThere(db, cutoff, b, db.batches[b].inputFile);
    if !PurgeDue(db.batches[b], cutoff) {
      if db.batches[b].outputFile.Some? { StillThere(db, cutoff, b, db.batches[b].outputFile.value); }
      if db.batches[b].errorFile.Some? { StillThere(db, cutoff, b, db.batches[b].errorFile.value); }
    }
  }

  // Inputs, and the results of batches that are not due, are not deleted.
  lemma StillThere(db: Db, cutoff: Time, b: nat, f: nat)
    requires FilesOk(db) && b < |db.batches|
    ensures f == db.batches[b].inputFile ==> !FileDue(db.batches, |db.batches|, f, cutoff)
    ensures RefersTo(db.batches[b], f) && !PurgeDue(db.batches[b], cutoff) ==>
              !FileDue(db.batches, |db.batches|, f, cutoff)
  {
    forall c | 0 <= c < |db.batches| && RefersTo(db.batches[c], f)
      ensures f != db.batches[b].inputFile
      ensures RefersTo(db.batches[b], f) ==> b == c
    {
      ResultFilesAreUnshared(db, c, b, f);
    }
  }

  // Purging removes exactly the result files of the batches that are due: every other file
  // row, and every input file, is still there and unchanged.
  lemma PurgeRemovesExactly(db: Db, retentionDays: nat, now: Time, f: nat)
    requires FilesOk(db) && f < |db.files| && db.files[f].Some?
    ensures var row := db.files[f].value;
            var db' := Purged(db, retentionDays, now);
            && |db'.files| == |db.files|
            && (row.purpose == BATCH_INPUT ==> db'.files[f] == db.files[f])
            && (row.purpose != BATCH_INPUT ==>
                  && !row.name.Uploaded? && row.name.batch < |db.batches|
                  && db'.files[f] == if PurgeDue(db.batches[row.name.batch], now - retentionDays * DAY)
                                     then None else db.files[f])
  {
    var row := db.files[f].value;
    var cutoff := now - retentionDays * DAY;
    assert FileOk(db, f);
    if row.purpose == BATCH_INPUT {
      forall c | 0 <= c < |db.batches| ensures !RefersTo(db.batches[c], f) { assert BatchFilesOk(db, c); }
    } else {
      StillThere(db, cutoff, row.name.batch, f);
      assert RefersTo(db.batches[row.name.batch], f);
    }
  }
}
