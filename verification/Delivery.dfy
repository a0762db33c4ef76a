// What the nodes answered is what the user gets.
module Delivery {
  import opened Model
  import opened Sums
  import opened Ledger
  import opened Parsing
  import opened BatchOps
  import opened Retention
  import opened Dispatching
  import opened Engine
  import opened Structure
  import opened Flights
  import opened Files
  import opened Invariants
  import opened LifecycleRuns
  import opened Submissions

  // --- One settlement. ---

  // The row holds this outcome of its request.
  predicate Holds(task: Task, outcome: Outcome) {
    match outcome
    case Success(body, p, c) =>
      && task.status == COMPLETED && task.response == Some(body)
      && task.promptTokens == Some(p) && task.completionTokens == Some(c)
    case Failure(error) => task.status == FAILED && task.error == Some(error)
  }

  // A settlement stores the outcome in the task's row, with the time, and counts it once in
  // the batch; its batch is completed, at that time, exactly if it was in progress and this was
  // the last result to come in.
  lemma SettleEffect(cfg: Settings, s: Sys, i: nat, outcome: Outcome, now: Time)
    requires cfg.defaultMaxTokens > 0 && CanSettle(s, i)
    ensures var t := s.flights[i].task;
            var b := s.db.tasks[t].batch;
            var db' := Apply(cfg, s, Settle(i, outcome, now)).db;
            && |db'.tasks| == |s.db.tasks| && |db'.batches| == |s.db.batches|
            && Holds(db'.tasks[t], outcome) && db'.tasks[t].finishedAt == Some(now)
            && SameRequest(s.db.tasks[t], db'.tasks[t]) && db'.tasks[t].node == s.db.tasks[t].node
            && db'.tasks[t].startedAt == s.db.tasks[t].startedAt && db'.tasks[t].attempts == s.db.tasks[t].attempts
            && db'.tasks == s.db.tasks[t := db'.tasks[t]]
            && db'.batches[b].completed == s.db.batches[b].completed + (if outcome.Success? then 1 else 0)
            && db'.batches[b].failed == s.db.batches[b].failed + (if outcome.Failure? then 1 else 0)
            && (if s.db.batches[b].status == IN_PROGRESS
                   && s.db.batches[b].completed + s.db.batches[b].failed + 1 >= s.db.batches[b].total
                then && db'.batches[b].status == BATCH_COMPLETED && db'.batches[b].completedAt == Some(now)
                     && db'.batches[b].finalizingAt == Some(now)
                else db'.batches[b].status == s.db.batches[b].status && db'.files == s.db.files)
            && forall c :: 0 <= c < |s.db.batches| && c != b ==> db'.batches[c] == s.db.batches[c]
  {
    var t := s.flights[i].task;
    SettledTables(s.db, t, outcome, cfg.alpha, now);
    FinalizedBatch(Settled(s.db, t, outcome, cfg.alpha, now), s.db.tasks[t].batch, now);
  }

  lemma FinalizedBatch(db: Db, b: nat, now: Time)
    requires b < |db.batches|
    ensures var db' := Finalized(db, b, now);
            && db'.tasks == db.tasks && |db'.batches| == |db.batches|
            && (forall c :: 0 <= c < |db.batches| && c != b ==> db'.batches[c] == db.batches[c])
            && db'.batches[b].completed == db.batches[b].completed && db'.batches[b].failed == db.batches[b].failed
            && if db.batches[b].status == IN_PROGRESS
                  && db.batches[b].completed + db.batches[b].failed >= db.batches[b].total
               then db'.batches[b].status == BATCH_COMPLETED && db'.batches[b].completedAt == Some(now)
                    && db'.batches[b].finalizingAt == Some(now)
               else db' == db
  {
  }

  // --- Over runs. ---

  // The outcomes a run has settled, by task.
  function Answers(cfg: Settings, steps: seq<Step>): map<nat, Outcome>
    requires cfg.defaultMaxTokens > 0
  {
    if steps == [] then map[]
    else
      var n := |steps| - 1;
      var s, step := Run(cfg, START, steps[..n]), steps[n];
      if Settles(s, step) then Answers(cfg, steps[..n])[SettledId(s, step) := step.outcome]
      else Answers(cfg, steps[..n])
  }

  // Exactly the answered tasks are settled, and each row holds its answer.
  ghost predicate AnswersKept(tasks: seq<Task>, answers: map<nat, Outcome>) {
    && (forall t :: t in answers ==> t < |tasks|)
    && (forall t :: 0 <= t < |tasks| ==> AnswerKept(tasks, answers, t))
  }

  ghost predicate AnswerKept(tasks: seq<Task>, answers: map<nat, Outcome>, t: nat)
    requires t < |tasks|
  {
    && (t in answers <==> tasks[t].status == COMPLETED || tasks[t].status == FAILED)
    && (t in answers ==> Holds(tasks[t], answers[t]))
  }

  lemma SettledRow(cfg: Settings, s: Sys, step: Step)
    requires cfg.defaultMaxTokens > 0 && Settles(s, step)
    ensures var t := SettledId(s, step);
            && |Apply(cfg, s, step).db.tasks| == |s.db.tasks|
            && Holds(Apply(cfg, s, step).db.tasks[t], step.outcome)
  {
    if step.Settle? {
      SettleEffect(cfg, s, step.flight, step.outcome, step.now);
    } else {
      SettledTables(s.db, SettledId(s, step), step.outcome, cfg.alpha, step.now);
    }
  }

  lemma NewRows(db: Db, db': Db, u: UserId, f: nat, lines: seq<ParsedLine>, now: Time)
    requires Recorded(db, db', u, f, lines, now)
    ensures KeepsResults(db, db')
    ensures forall t :: |db.tasks| <= t < |db'.tasks| ==> db'.tasks[t].status == PENDING
  {
    OldRows(db, db', u, f, lines, now);
    forall t | |db.tasks| <= t < |db'.tasks| ensures db'.tasks[t].status == PENDING {
      assert Requests(db'.tasks[|db.tasks| + (t - |db.tasks|)], |db.batches|, lines[t - |db.tasks|]);
    }
  }

  // What a step that settles nothing adds to the task table is unsettled.
  lemma QuietRows(cfg: Settings, s: Sys, step: Step)
    requires cfg.defaultMaxTokens > 0 && !Settles(s, step)
    ensures KeepsResults(s.db, Apply(cfg, s, step).db)
    ensures forall t :: |s.db.tasks| <= t < |Apply(cfg, s, step).db.tasks| ==> Apply(cfg, s, step).db.tasks[t].status == PENDING
  {
    if step.Submit? {
      SubmitEffect(cfg, s, step.user, step.file, step.window, step.now);
      if Submitting(cfg, s, step) {
        NewRows(s.db, Apply(cfg, s, step).db, step.user, step.file,
                Parse(s.db.files[step.file].value.content.raw, cfg.defaultMaxTokens).lines, step.now);
      }
    } else {
      OtherKeeps(cfg, s, step);
    }
  }

  lemma AnswersStep(cfg: Settings, s: Sys, step: Step, answers: map<nat, Outcome>)
    requires cfg.defaultMaxTokens > 0 && AnswersKept(s.db.tasks, answers)
    ensures AnswersKept(Apply(cfg, s, step).db.tasks,
                        if Settles(s, step) then answers[SettledId(s, step) := step.outcome] else answers)
  {
    var tasks' := Apply(cfg, s, step).db.tasks;
    if Settles(s, step) {
      SettledRow(cfg, s, step);
      SettleKeeps(cfg, s, step);
      AnswerAdded(s.db.tasks, tasks', answers, SettledId(s, step), step.outcome);
    } else {
      QuietRows(cfg, s, step);
      AnswersUnchanged(s.db.tasks, tasks', answers);
    }
  }

  lemma AnswerAdded(tasks: seq<Task>, tasks': seq<Task>, answers: map<nat, Outcome>, id: nat, outcome: Outcome)
    requires AnswersKept(tasks, answers) && |tasks'| == |tasks| && id < |tasks|
    requires Holds(tasks'[id], outcome)
    requires forall t :: 0 <= t < |tasks| && t != id ==> SameResult(tasks[t], tasks'[t])
    ensures AnswersKept(tasks', answers[id := outcome])
  {
    var answers' := answers[id := outcome];
    forall t | 0 <= t < |tasks'| ensures AnswerKept(tasks', answers', t) {
      if t != id { assert SameResult(tasks[t], tasks'[t]) && AnswerKept(tasks, answers, t); }
    }
  }

  lemma AnswersUnchanged(tasks: seq<Task>, tasks': seq<Task>, answers: map<nat, Outcome>)
    requires AnswersKept(tasks, answers) && |tasks| <= |tasks'|
    requires forall t :: 0 <= t < |tasks| ==> SameResult(tasks[t], tasks'[t])
    requires forall t :: |tasks| <= t < |tasks'| ==> tasks'[t].status == PENDING
    ensures AnswersKept(tasks', answers)
  {
    forall t | 0 <= t < |tasks'| ensures AnswerKept(tasks', answers, t) {
      if t < |tasks| { assert SameResult(tasks[t], tasks'[t]) && AnswerKept(tasks, answers, t); }
    }
  }

  // However often a task was claimed, lost in a crash, claimed again, or cancelled meanwhile:
  // it is settled exactly if a settlement for it took place, and its row holds that answer.
  lemma {:induction false} AnswersOnRuns(cfg: Settings, steps: seq<Step>)
    requires cfg.defaultMaxTokens > 0
    ensures AnswersKept(Run(cfg, START, steps).db.tasks, Answers(cfg, steps))
  {
    if steps != [] {
      var n := |steps| - 1;
      AnswersOnRuns(cfg, steps[..n]);
      AnswersStep(cfg, Run(cfg, START, steps[..n]), steps[n], Answers(cfg, steps[..n]));
    }
  }

  // --- The result files. ---

  // The line that reports this outcome of task t.
  function ReportOf(t: nat, customId: string, outcome: Outcome): ResultLine {
    match outcome
    case Success(body, _, _) => ResponseLine(t, customId, Some(body))
    case Failure(error) => ErrorLine(t, customId, if error == "" then "task failed" else error)
  }

  lemma {:induction false} OutputListed(tasks: seq<Task>, b: nat, n: nat, t: nat)
    requires t < n <= |tasks| && tasks[t].batch == b
    ensures tasks[t].status == COMPLETED ==>
              ResponseLine(t, tasks[t].customId, tasks[t].response) in OutputLines(tasks, b, n)
    ensures tasks[t].status == FAILED ==>
              ErrorLine(t, tasks[t].customId, ErrorText(tasks[t])) in ErrorLines(tasks, b, n)
  {
    if t < n - 1 { OutputListed(tasks, b, n - 1, t); }
  }

  // Some run ends in s, having settled these outcomes.
  ghost predicate ReachedAnswering(cfg: Settings, s: Sys, answers: map<nat, Outcome>)
    requires cfg.defaultMaxTokens > 0
  {
    exists steps :: Run(cfg, START, steps) == s && Answers(cfg, steps) == answers
  }

  // The contents of a batch's two result files; without an error file there are no error lines.
  ghost predicate ResultsAre(db: Db, b: nat, output: seq<ResultLine>, errors: seq<ResultLine>)
    requires b < |db.batches|
  {
    var batch := db.batches[b];
    && batch.outputFile.Some? && FileHolds(db.files, batch.outputFile.value, batch.user, BATCH_OUTPUT, output)
    && (if batch.errorFile.Some? then FileHolds(db.files, batch.errorFile.value, batch.user, BATCH_ERROR, errors)
        else errors == [])
  }

  predicate FileHolds(files: seq<Option<FileRow>>, f: nat, owner: UserId, purpose: FilePurpose, lines: seq<ResultLine>) {
    && f < |files| && files[f].Some?
    && files[f].value.owner == owner && files[f].value.purpose == purpose && files[f].value.content == Results(lines)
  }

  // The answer to task t is in the right one of the two files, and its custom_id nowhere else.
  ghost predicate Reported(tasks: seq<Task>, answers: map<nat, Outcome>,
                           output: seq<ResultLine>, errors: seq<ResultLine>, t: nat)
    requires t < |tasks|
  {
    && t in answers
    && ReportOf(t, tasks[t].customId, answers[t]) in (if answers[t].Success? then output else errors)
    && Sum(output, HasId(tasks[t].customId)) + Sum(errors, HasId(tasks[t].customId)) == 1
  }

  lemma {:induction false} TaskReported(db: Db, answers: map<nat, Outcome>, b: nat, t: nat)
    requires TablesOk(db) && FilesOk(db) && AnswersKept(db.tasks, answers)
    requires b < |db.batches| && db.batches[b].status == BATCH_COMPLETED && db.batches[b].purgedAt.None?
    requires t < |db.tasks| && db.tasks[t].batch == b
    ensures Reported(db.tasks, answers, OutputLines(db.tasks, b, |db.tasks|), ErrorLines(db.tasks, b, |db.tasks|), t)
  {
    CompletedFiles(db, b, t);
    assert Fits(db.tasks[t].status, db.batches[b].status) && AnswerKept(db.tasks, answers, t);
    OutputListed(db.tasks, b, |db.tasks|, t);
  }

  // The files of a completed batch report, for every task of the batch, the answer that
  // settled it: the response body of a success in the output file, the message of a failure in
  // the error file, under the task's custom_id and once; and they report nothing else.
  lemma ResultsDelivered(cfg: Settings, s: Sys, answers: map<nat, Outcome>, b: nat)
    returns (output: seq<ResultLine>, errors: seq<ResultLine>)
    requires ValidSettings(cfg) && ReachedAnswering(cfg, s, answers)
    requires b < |s.db.batches| && s.db.batches[b].status == BATCH_COMPLETED && s.db.batches[b].purgedAt.None?
    ensures ResultsAre(s.db, b, output, errors)
    ensures forall t :: 0 <= t < |s.db.tasks| && s.db.tasks[t].batch == b ==>
                          Reported(s.db.tasks, answers, output, errors, t)
    ensures forall line :: line in output || line in errors ==> Reports(s.db.tasks, answers, b, line)
  {
    var steps :| Run(cfg, START, steps) == s && Answers(cfg, steps) == answers;
    AnswersOnRuns(cfg, steps);
    RunInv(cfg, steps);
    var tasks := s.db.tasks;
    output, errors := OutputLines(tasks, b, |tasks|), ErrorLines(tasks, b, |tasks|);
    assert BatchFilesOk(s.db, b) && BatchOk(s.db.batches[b]);
    forall t | 0 <= t < |tasks| && tasks[t].batch == b ensures Reported(tasks, answers, output, errors, t) {
      TaskReported(s.db, answers, b, t);
    }
    OutputLinesSpec(tasks, b, |tasks|, output);
    ErrorLinesSpec(tasks, b, |tasks|, errors);
    forall line | line in output || line in errors ensures Reports(tasks, answers, b, line) {
      LineReports(tasks, answers, b, line);
    }
  }

  lemma LineReports(tasks: seq<Task>, answers: map<nat, Outcome>, b: nat, line: ResultLine)
    requires AnswersKept(tasks, answers) && (IsOutput(tasks, b, |tasks|, line) || IsError(tasks, b, |tasks|, line))
    ensures Reports(tasks, answers, b, line)
  {
    assert AnswerKept(tasks, answers, line.taskId);
  }

  // The line is the report of the answer to a task of batch b.
  predicate Reports(tasks: seq<Task>, answers: map<nat, Outcome>, b: nat, line: ResultLine) {
    && line.taskId < |tasks| && tasks[line.taskId].batch == b && line.taskId in answers
    && line == ReportOf(line.taskId, tasks[line.taskId].customId, answers[line.taskId])
  }

  // From end to end: every line of the uploaded file that is not blank is answered in the
  // result files of its completed batch, under its custom_id, by what a node answered for it.
  lemma EveryLineAnswered(cfg: Settings, s: Sys, answers: map<nat, Outcome>, b: nat, r: nat) returns (t: nat)
    requires ValidSettings(cfg) && ReachedAnswering(cfg, s, answers)
    requires b < |s.db.batches| && s.db.batches[b].status == BATCH_COMPLETED && s.db.batches[b].purgedAt.None?
    ensures s.db.batches[b].inputFile < |s.db.files| && s.db.files[s.db.batches[b].inputFile].Some?
    ensures s.db.files[s.db.batches[b].inputFile].value.content.Input?
    ensures var raw := s.db.files[s.db.batches[b].inputFile].value.content.raw;
            r < |raw| && !raw[r].Blank? ==>
              && t < |s.db.tasks| && s.db.tasks[t].batch == b && t in answers
              && raw[r].Request? && raw[r].customId == StringField(s.db.tasks[t].customId)
              && exists output, errors ::
                   ResultsAre(s.db, b, output, errors)
                   && ReportOf(t, s.db.tasks[t].customId, answers[t]) in (if answers[t].Success? then output else errors)
  {
    var steps :| Run(cfg, START, steps) == s && Answers(cfg, steps) == answers;
    var raw, at := TasksAreLines(cfg, s, b);
    var output, errors := ResultsDelivered(cfg, s, answers, b);
    t := 0;
    if r < |raw| && !raw[r].Blank? {
      var i :| 0 <= i < |at| && at[i] == r;
      assert HasTask(s.db.tasks, b, i);
      t :| 0 <= t < |s.db.tasks| && s.db.tasks[t].batch == b && s.db.tasks[t].lineIndex == i;
      assert AsksFor(s.db.tasks[t], raw[at[i]], cfg.defaultMaxTokens);
      assert ResultsAre(s.db, b, output, errors);
    }
  }
}
