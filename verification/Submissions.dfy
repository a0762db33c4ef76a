// What a submission records, and where every batch and task of a run comes from.
module Submissions {
  import opened Model
  import opened Sums
  import opened Ledger
  import opened Tokens
  import opened Parsing
  import opened BatchOps
  import opened Retention
  import opened Dispatching
  import opened Engine
  import opened Structure
  import opened Files
  import opened Invariants

  // --- One submission. ---

  // What a parsed file asks for: every prompt estimate and every max_tokens.
  function AskedBy(): ParsedLine -> int { (p: ParsedLine) => p.promptTokens + p.maxTokens }

  // File f is an input file of user u that parses, the window is the only one offered, and the
  // user's budget covers all of it.
  predicate Accepted(cfg: Settings, db: Db, u: UserId, f: nat, window: string)
    requires cfg.defaultMaxTokens > 0
  {
    && window == "24h" && f < |db.files| && db.files[f].Some?
    && db.files[f].value.owner == u && db.files[f].value.purpose == BATCH_INPUT && db.files[f].value.content.Input?
    && var parsed := Parse(db.files[f].value.content.raw, cfg.defaultMaxTokens);
       var budget := BudgetOf(db, u);
       parsed.Parsed? && Sum(parsed.lines, AskedBy()) <= budget.granted - budget.reserved - budget.used
  }

  // The row waits for what the parsed line asks for.
  predicate Requests(task: Task, b: nat, p: ParsedLine) {
    && task.batch == b && task.lineIndex == p.lineIndex && task.customId == p.customId
    && task.promptEstimate == p.promptTokens && task.maxTokens == p.maxTokens
    && task.reserved == p.promptTokens + p.maxTokens
  }

  predicate Untouched(task: Task) {
    && task.status == PENDING && task.attempts == 0 && task.node.None?
    && task.startedAt.None? && task.finishedAt.None?
    && task.response.None? && task.error.None? && task.promptTokens.None? && task.completionTokens.None?
  }

  predicate Opened(batch: Batch, u: UserId, f: nat, total: nat, asked: int, now: Time) {
    && batch.user == u && batch.inputFile == f && batch.status == IN_PROGRESS
    && batch.total == total && batch.completed == 0 && batch.failed == 0 && batch.reserved == asked
    && batch.createdAt == now && batch.inProgressAt == Some(now)
    && batch.expiresAt == Some(now + 24 * 60 * 60 * 1_000_000)
    && batch.outputFile.None? && batch.errorFile.None?
  }

  // The new rows of a batch of these lines.
  ghost predicate Recorded(db: Db, db': Db, u: UserId, f: nat, lines: seq<ParsedLine>, now: Time) {
    && |db'.batches| == |db.batches| + 1 && db'.batches[..|db.batches|] == db.batches
    && Opened(db'.batches[|db.batches|], u, f, |lines|, Sum(lines, AskedBy()), now)
    && |db'.tasks| == |db.tasks| + |lines| && db'.tasks[..|db.tasks|] == db.tasks
    && (forall i :: 0 <= i < |lines| ==>
                      && Requests(db'.tasks[|db.tasks| + i], |db.batches|, lines[i])
                      && Untouched(db'.tasks[|db.tasks| + i]))
  }

  lemma {:induction false} AskedIsReserved(lines: seq<ParsedLine>)
    ensures Sum(lines, AskedBy()) == Sum(lines, LineReserved())
  {
    SumSame(lines, AskedBy(), lines, LineReserved());
  }

  lemma NewTaskIs(b: nat, p: ParsedLine)
    ensures Requests(NewTask(b, p), b, p) && Untouched(NewTask(b, p))
  {
  }

  lemma {:induction false} RowsRecorded(db: Db, db': Db, u: UserId, f: nat, lines: seq<ParsedLine>, asked: nat, now: Time)
    requires asked == Sum(lines, AskedBy())
    requires db'.batches == db.batches + [NewBatch(u, f, "24h", asked, |lines|, now)]
    requires db'.tasks == db.tasks + NewTasks(|db.batches|, lines)
    ensures Recorded(db, db', u, f, lines, now)
  {
    forall i | 0 <= i < |lines|
      ensures Requests(db'.tasks[|db.tasks| + i], |db.batches|, lines[i]) && Untouched(db'.tasks[|db.tasks| + i])
    {
      NewTaskIs(|db.batches|, lines[i]);
    }
  }

  lemma CreatedRecorded(db: Db, u: UserId, f: nat, lines: seq<ParsedLine>, now: Time)
    requires Refusal(db, SubmitOp(db, u, lines)).None?
    ensures Recorded(db, CreatedBatch(db, u, f, "24h", lines, now), u, f, lines, now)
  {
    CreatedTables(db, u, f, "24h", lines, now);
    AskedIsReserved(lines);
    RowsRecorded(db, CreatedBatch(db, u, f, "24h", lines, now), u, f, lines, Sum(lines, LineReserved()), now);
  }

  lemma {:induction false} CreatedBudget(db: Db, u: UserId, f: nat, lines: seq<ParsedLine>, now: Time)
    requires Refusal(db, SubmitOp(db, u, lines)).None?
    ensures var db', budget := CreatedBatch(db, u, f, "24h", lines, now), BudgetOf(db, u);
            && BudgetOf(db', u) == budget.(reserved := budget.reserved + Sum(lines, AskedBy()))
            && (forall v :: v != u ==> BudgetOf(db', v) == BudgetOf(db, v))
            && db'.files == db.files && db'.nodes == db.nodes && db'.stat == db.stat
  {
    CreatedTables(db, u, f, "24h", lines, now);
    AskedIsReserved(lines);
    SameRefusal(db, WithBatch(db, u, f, "24h", lines, now), SubmitOp(db, u, lines));
  }

  // A submission is accepted exactly under these conditions; then one batch and one waiting
  // task per parsed line are recorded and what they ask for is reserved.  Otherwise nothing
  // happens at all.
  lemma SubmitEffect(cfg: Settings, s: Sys, u: UserId, f: nat, window: string, now: Time)
    requires cfg.defaultMaxTokens > 0
    ensures var s' := Apply(cfg, s, Submit(u, f, window, now));
            if Accepted(cfg, s.db, u, f, window) then
              var lines := Parse(s.db.files[f].value.content.raw, cfg.defaultMaxTokens).lines;
              var budget := BudgetOf(s.db, u);
              && Recorded(s.db, s'.db, u, f, lines, now)
              && BudgetOf(s'.db, u) == budget.(reserved := budget.reserved + Sum(lines, AskedBy()))
              && (forall v :: v != u ==> BudgetOf(s'.db, v) == BudgetOf(s.db, v))
              && s'.db.files == s.db.files && s'.db.nodes == s.db.nodes && s'.db.stat == s.db.stat
              && s'.flights == s.flights && s'.inFlight == s.inFlight
            else s' == s
  {
    if SubmittableFile(s.db, u, f) && window == "24h" {
      var raw := s.db.files[f].value.content.raw;
      match Parse(raw, cfg.defaultMaxTokens)
      case Parsed(lines) =>
        OnlyBudgetRefuses(s.db, u, raw, cfg.defaultMaxTokens);
        AskedIsReserved(lines);
        if Refusal(s.db, SubmitOp(s.db, u, lines)).None? {
          CreatedRecorded(s.db, u, f, lines, now);
          CreatedBudget(s.db, u, f, lines, now);
        }
      case NoLines =>
      case Rejected(_) =>
    }
  }

  predicate Found(db: Db, u: UserId, f: nat) { f < |db.files| && db.files[f].Some? && db.files[f].value.owner == u }

  // Which answer a request gets: one error each for what is not there, what cannot be
  // submitted, and what the budget does not cover, the last with both figures.
  lemma SubmissionAnswer(cfg: Settings, db: Db, u: UserId, f: nat, endpoint: string, window: string)
    requires cfg.defaultMaxTokens > 0
    ensures var offered, answer := endpoint == "/v1/chat/completions" && window == "24h",
                                   SubmissionError(db, cfg, u, f, endpoint, window);
            && (answer == None <==> offered && Accepted(cfg, db, u, f, window))
            && (answer == Some(NotFound) <==> offered && !Found(db, u, f))
            && (answer.Some? ==>
                  match answer.value
                  case InsufficientBudget(requested, available) =>
                    && offered && SubmittableFile(db, u, f)
                    && var parsed := Parse(db.files[f].value.content.raw, cfg.defaultMaxTokens);
                       parsed.Parsed? && requested == Sum(parsed.lines, AskedBy()) > available == BudgetOf(db, u).Available()
                  case InvalidRequest =>
                    !offered || !SubmittableFile(db, u, f)
                    || !Parse(db.files[f].value.content.raw, cfg.defaultMaxTokens).Parsed?
                  case NotFound => true
                  case _ => false)
  {
    if SubmittableFile(db, u, f) {
      var raw := db.files[f].value.content.raw;
      match Parse(raw, cfg.defaultMaxTokens)
      case Parsed(lines) =>
        OnlyBudgetRefuses(db, u, raw, cfg.defaultMaxTokens);
        AskedIsReserved(lines);
      case NoLines =>
      case Rejected(_) =>
    }
  }

  // --- Where the rows of a run come from. ---

  // What is fixed when a row is inserted.
  predicate SameOrigin(batch: Batch, batch': Batch) {
    && batch'.user == batch.user && batch'.inputFile == batch.inputFile && batch'.total == batch.total
    && batch'.createdAt == batch.createdAt && batch'.expiresAt == batch.expiresAt
  }

  predicate SameRequest(t: Task, t': Task) {
    && t'.batch == t.batch && t'.lineIndex == t.lineIndex && t'.customId == t.customId
    && t'.promptEstimate == t.promptEstimate && t'.maxTokens == t.maxTokens && t'.reserved == t.reserved
  }

  // Nobody else's row, nobody else's result.
  predicate SameResult(t: Task, t': Task) {
    SameRequest(t, t') && (t'.Settled() <==> t.Settled()) && (t.Settled() ==> t' == t)
  }

  ghost predicate KeepsOrigins(db: Db, db': Db) {
    && |db'.batches| == |db.batches| && |db'.tasks| == |db.tasks|
    && (forall b :: 0 <= b < |db.batches| ==> SameOrigin(db.batches[b], db'.batches[b]))
    && (forall t :: 0 <= t < |db.tasks| ==> SameRequest(db.tasks[t], db'.tasks[t]))
  }

  ghost predicate KeepsResults(db: Db, db': Db) {
    |db.tasks| <= |db'.tasks| && forall t :: 0 <= t < |db.tasks| ==> SameResult(db.tasks[t], db'.tasks[t])
  }

  lemma EndedKeeps(db: Db, b: nat, status: BatchStatus, now: Time)
    requires b < |db.batches|
    ensures KeepsOrigins(db, Terminated(db, b, status, now)) && KeepsResults(db, Terminated(db, b, status, now))
    ensures Terminated(db, b, status, now).files == db.files
  {
    TerminatedTables(db, b, status, now);
  }

  lemma PassKeeps(s: Sys, ids: seq<nat>, names: seq<string>, now: Time)
    requires ClaimQuery(s.db, ids) && HealthyQuery(s.db.nodes, names)
    ensures var db' := PassStarted(s, ids, names, now).db;
            KeepsOrigins(s.db, db') && KeepsResults(s.db, db') && db'.files == s.db.files
  {
    PassStartRows(s, ids, names, now);
    var db' := PassStarted(s, ids, names, now).db;
    forall t | 0 <= t < |s.db.tasks| ensures SameResult(s.db.tasks[t], db'.tasks[t]) {
      assert StartedOrSame(s.db.tasks[t], db'.tasks[t]);
    }
  }

  lemma RestartKeeps(s: Sys, config: map<string, int>)
    ensures var db' := Restarted(s, config).db;
            KeepsOrigins(s.db, db') && KeepsResults(s.db, db') && db'.files == s.db.files
  {
  }

  // Steps that neither submit nor settle leave every origin and every result alone.
  lemma OtherKeeps(cfg: Settings, s: Sys, step: Step)
    requires cfg.defaultMaxTokens > 0 && !step.Submit? && !Settles(s, step)
    ensures KeepsOrigins(s.db, Apply(cfg, s, step).db) && KeepsResults(s.db, Apply(cfg, s, step).db)
    ensures step.Upload? || step.Purge? || Apply(cfg, s, step).db.files == s.db.files
  {
    match step
    case Grant(u, tokens) =>
    case Upload(u, raw) =>
    case StartPass(ids, names, now) =>
      if PassOver(s.flights) && ClaimQuery(s.db, ids) && HealthyQuery(s.db.nodes, names) { PassKeeps(s, ids, names, now); }
    case Return(i) =>
    case Settle(i, outcome, now) =>
    case SettleThenCrash(i, outcome, now, config) =>
    case Cancel(u, b, now) => EndKeeps(cfg, s, step);
    case Expire(b, now) => EndKeeps(cfg, s, step);
    case Purge(now) =>
    case Health(results) =>
    case Crash(config) => RestartKeeps(s, config);
  }

  lemma EndKeeps(cfg: Settings, s: Sys, step: Step)
    requires cfg.defaultMaxTokens > 0 && (step.Cancel? || step.Expire?)
    ensures var db' := Apply(cfg, s, step).db;
            KeepsOrigins(s.db, db') && KeepsResults(s.db, db') && db'.files == s.db.files
  {
    if step.batch < |s.db.batches| {
      EndedKeeps(s.db, step.batch, if step.Cancel? then BATCH_CANCELLED else EXPIRED, step.now);
    }
  }

  // A settlement keeps every origin and every result but the settled one.
  lemma SettleKeeps(cfg: Settings, s: Sys, step: Step)
    requires cfg.defaultMaxTokens > 0 && Settles(s, step)
    ensures KeepsOrigins(s.db, Apply(cfg, s, step).db)
    ensures forall t :: 0 <= t < |s.db.tasks| && t != SettledId(s, step) ==>
                          SameResult(s.db.tasks[t], Apply(cfg, s, step).db.tasks[t])
  {
    var t := SettledId(s, step);
    var db1 := Settled(s.db, t, step.outcome, cfg.alpha, step.now);
    SettledTables(s.db, t, step.outcome, cfg.alpha, step.now);
    if step.Settle? { FinalizedOrigins(db1, s.db.tasks[t].batch, step.now); }
  }

  lemma FinalizedOrigins(db: Db, b: nat, now: Time)
    requires b < |db.batches|
    ensures KeepsOrigins(db, Finalized(db, b, now)) && Finalized(db, b, now).tasks == db.tasks
  {
  }

  // The accepted submissions of a run, in order.
  function Submits(cfg: Settings, steps: seq<Step>): (submits: seq<Step>)
    requires cfg.defaultMaxTokens > 0
    ensures forall b :: 0 <= b < |submits| ==> submits[b].Submit?
  {
    if steps == [] then []
    else
      var n := |steps| - 1;
      Submits(cfg, steps[..n]) + if Submitting(cfg, Run(cfg, START, steps[..n]), steps[n]) then [steps[n]] else []
  }

  predicate Submitting(cfg: Settings, s: Sys, step: Step)
    requires cfg.defaultMaxTokens > 0
  {
    step.Submit? && Accepted(cfg, s.db, step.user, step.file, step.window)
  }

  predicate OpenedBy(batch: Batch, step: Step)
    requires step.Submit?
  {
    && batch.user == step.user && batch.inputFile == step.file
    && batch.createdAt == step.now && batch.expiresAt == Some(step.now + 24 * 60 * 60 * 1_000_000)
  }

  ghost predicate AllOpened(batches: seq<Batch>, submits: seq<Step>) {
    && |submits| == |batches|
    && forall b :: 0 <= b < |submits| ==> submits[b].Submit? && OpenedBy(batches[b], submits[b])
  }

  // Every batch of a run was opened by one accepted submission, in order, and still carries
  // its user, its file, its time, and a deadline 24 hours later.
  lemma {:induction false} OpenedOnRuns(cfg: Settings, steps: seq<Step>)
    requires cfg.defaultMaxTokens > 0
    ensures AllOpened(Run(cfg, START, steps).db.batches, Submits(cfg, steps))
  {
    if steps != [] {
      var n := |steps| - 1;
      OpenedOnRuns(cfg, steps[..n]);
      var s := Run(cfg, START, steps[..n]);
      BatchesStep(cfg, s, steps[n]);
      OneMoreOpened(s.db.batches, Apply(cfg, s, steps[n]).db.batches, Submits(cfg, steps[..n]), steps[n], Submitting(cfg, s, steps[n]));
    }
  }

  lemma OneMoreOpened(batches: seq<Batch>, batches': seq<Batch>, submits: seq<Step>, step: Step, submitting: bool)
    requires AllOpened(batches, submits)
    requires |batches'| == |batches| + if submitting then 1 else 0
    requires forall b :: 0 <= b < |batches| ==> SameOrigin(batches[b], batches'[b])
    requires submitting ==> step.Submit? && OpenedBy(batches'[|batches|], step)
    ensures AllOpened(batches', submits + if submitting then [step] else [])
  {
    forall b | 0 <= b < |batches| ensures OpenedBy(batches'[b], submits[b]) {
      assert SameOrigin(batches[b], batches'[b]) && OpenedBy(batches[b], submits[b]);
    }
  }

  lemma BatchesStep(cfg: Settings, s: Sys, step: Step)
    requires cfg.defaultMaxTokens > 0
    ensures var batches' := Apply(cfg, s, step).db.batches;
            && |batches'| == |s.db.batches| + (if Submitting(cfg, s, step) then 1 else 0)
            && (forall b :: 0 <= b < |s.db.batches| ==> SameOrigin(s.db.batches[b], batches'[b]))
            && (Submitting(cfg, s, step) ==> OpenedBy(batches'[|s.db.batches|], step))
  {
    if step.Submit? {
      SubmitEffect(cfg, s, step.user, step.file, step.window, step.now);
      if Submitting(cfg, s, step) {
        OldRows(s.db, Apply(cfg, s, step).db, step.user, step.file,
                Parse(s.db.files[step.file].value.content.raw, cfg.defaultMaxTokens).lines, step.now);
      }
    } else if Settles(s, step) {
      SettleKeeps(cfg, s, step);
    } else {
      OtherKeeps(cfg, s, step);
    }
  }

  // --- Every task is a line of its batch's file, and every line is a task. ---

  ghost predicate FromFile(db: Db, b: nat, d: int)
    requires b < |db.batches| && d > 0
  {
    var f := db.batches[b].inputFile;
    && f < |db.files| && db.files[f].Some? && db.files[f].value.content.Input?
    && var parsed := Parse(db.files[f].value.content.raw, d);
       parsed.Parsed? && TasksOf(db.tasks, b, parsed.lines)
  }

  ghost predicate TasksOf(tasks: seq<Task>, b: nat, lines: seq<ParsedLine>) {
    && (forall t :: 0 <= t < |tasks| && tasks[t].batch == b ==> IsLineOf(tasks[t], b, lines))
    && (forall i :: 0 <= i < |lines| ==> HasTask(tasks, b, i))
  }

  predicate IsLineOf(task: Task, b: nat, lines: seq<ParsedLine>) {
    task.lineIndex < |lines| && Requests(task, b, lines[task.lineIndex])
  }

  ghost predicate HasTask(tasks: seq<Task>, b: nat, i: nat) {
    exists t :: 0 <= t < |tasks| && tasks[t].batch == b && tasks[t].lineIndex == i
  }

  ghost predicate AllFromFiles(db: Db, d: int)
    requires d > 0
  {
    forall b :: 0 <= b < |db.batches| ==> FromFile(db, b, d)
  }

  lemma TasksOfKept(tasks: seq<Task>, tasks': seq<Task>, b: nat, lines: seq<ParsedLine>)
    requires TasksOf(tasks, b, lines) && |tasks| <= |tasks'|
    requires forall t :: 0 <= t < |tasks| ==> SameRequest(tasks[t], tasks'[t])
    requires forall t :: |tasks| <= t < |tasks'| ==> tasks'[t].batch != b
    ensures TasksOf(tasks', b, lines)
  {
    forall t | 0 <= t < |tasks'| && tasks'[t].batch == b ensures IsLineOf(tasks'[t], b, lines) {
      assert SameRequest(tasks[t], tasks'[t]) && IsLineOf(tasks[t], b, lines);
    }
    forall i | 0 <= i < |lines| ensures HasTask(tasks', b, i) {
      assert HasTask(tasks, b, i);
      var t :| 0 <= t < |tasks| && tasks[t].batch == b && tasks[t].lineIndex == i;
      assert SameRequest(tasks[t], tasks'[t]);
    }
  }

  lemma OneKept(db: Db, db': Db, b: nat, d: int)
    requires d > 0 && b < |db.batches| && b < |db'.batches| && FromFile(db, b, d)
    requires db'.batches[b].inputFile == db.batches[b].inputFile
    requires db.batches[b].inputFile < |db'.files|
    requires db'.files[db.batches[b].inputFile] == db.files[db.batches[b].inputFile]
    requires |db.tasks| <= |db'.tasks|
    requires forall t :: 0 <= t < |db.tasks| ==> SameRequest(db.tasks[t], db'.tasks[t])
    requires forall t :: |db.tasks| <= t < |db'.tasks| ==> db'.tasks[t].batch != b
    ensures FromFile(db', b, d)
  {
    TasksOfKept(db.tasks, db'.tasks, b, Parse(db.files[db.batches[b].inputFile].value.content.raw, d).lines);
  }

  lemma FromFileKept(db: Db, db': Db, d: int)
    requires d > 0 && AllFromFiles(db, d) && KeepsOrigins(db, db')
    requires forall b :: 0 <= b < |db.batches| ==>
                           var f := db.batches[b].inputFile; f < |db'.files| && (f < |db.files| ==> db'.files[f] == db.files[f])
    ensures AllFromFiles(db', d)
  {
    forall b | 0 <= b < |db'.batches| ensures FromFile(db', b, d) {
      assert FromFile(db, b, d) && SameOrigin(db.batches[b], db'.batches[b]);
      OneKept(db, db', b, d);
    }
  }

  // The old rows are where they were, and the new ones belong to the new batch.
  lemma OldRows(db: Db, db': Db, u: UserId, f: nat, lines: seq<ParsedLine>, now: Time)
    requires Recorded(db, db', u, f, lines, now)
    ensures |db.tasks| <= |db'.tasks|
    ensures forall t :: 0 <= t < |db.tasks| ==> db'.tasks[t] == db.tasks[t]
    ensures forall t :: |db.tasks| <= t < |db'.tasks| ==> db'.tasks[t].batch == |db.batches|
    ensures |db'.batches| == |db.batches| + 1
    ensures forall b :: 0 <= b < |db.batches| ==> db'.batches[b] == db.batches[b]
  {
    forall t | 0 <= t < |db.tasks| ensures db'.tasks[t] == db.tasks[t] { assert db'.tasks[..|db.tasks|][t] == db.tasks[t]; }
    forall t | |db.tasks| <= t < |db'.tasks| ensures db'.tasks[t].batch == |db.batches| {
      assert Requests(db'.tasks[|db.tasks| + (t - |db.tasks|)], |db.batches|, lines[t - |db.tasks|]);
    }
    forall b | 0 <= b < |db.batches| ensures db'.batches[b] == db.batches[b] {
      assert db'.batches[..|db.batches|][b] == db.batches[b];
    }
  }

  lemma FromFileSubmitted(db: Db, db': Db, u: UserId, f: nat, d: int, lines: seq<ParsedLine>, now: Time)
    requires d > 0 && AllFromFiles(db, d) && RowsOk(db.tasks, db.batches)
    requires f < |db.files| && db.files[f].Some? && db.files[f].value.content.Input?
    requires Parse(db.files[f].value.content.raw, d) == Parsed(lines) && Submittable(lines)
    requires Recorded(db, db', u, f, lines, now) && db'.files == db.files
    ensures AllFromFiles(db', d)
  {
    OldRows(db, db', u, f, lines, now);
    forall b | 0 <= b < |db'.batches| ensures FromFile(db', b, d) {
      if b < |db.batches| {
        assert FromFile(db, b, d);
        OneKept(db, db', b, d);
      } else {
        NewTasksOf(db.tasks, db'.tasks, b, lines);
      }
    }
  }

  lemma NewTasksOf(tasks: seq<Task>, tasks': seq<Task>, b: nat, lines: seq<ParsedLine>)
    requires |tasks'| == |tasks| + |lines|
    requires forall t :: 0 <= t < |tasks| ==> tasks'[t].batch != b
    requires forall i :: 0 <= i < |lines| ==> lines[i].lineIndex == i && Requests(tasks'[|tasks| + i], b, lines[i])
    ensures TasksOf(tasks', b, lines)
  {
    var n := |tasks|;
    forall t | 0 <= t < |tasks'| && tasks'[t].batch == b ensures IsLineOf(tasks'[t], b, lines) {
      assert Requests(tasks'[n + (t - n)], b, lines[t - n]);
    }
    forall i | 0 <= i < |lines| ensures HasTask(tasks', b, i) {
      assert Requests(tasks'[n + i], b, lines[i]) && tasks'[n + i].lineIndex == i;
    }
  }

  // Uploaded input is never deleted or changed.
  lemma InputsKept(cfg: Settings, s: Sys, step: Step, b: nat)
    requires ValidSettings(cfg) && Inv(cfg, s) && b < |s.db.batches|
    ensures var f, files' := s.db.batches[b].inputFile, Apply(cfg, s, step).db.files;
            f < |s.db.files| && f < |files'| && files'[f] == s.db.files[f]
  {
    var f := s.db.batches[b].inputFile;
    assert BatchFilesOk(s.db, b);
    if step.Submit? {
      SubmitEffect(cfg, s, step.user, step.file, step.window, step.now);
    } else if Settles(s, step) {
      SettledInputs(cfg, s, step);
    } else if step.Purge? {
      PurgeRemovesExactly(s.db, cfg.retentionDays, step.now, f);
    } else if !step.Upload? {
      OtherKeeps(cfg, s, step);
    }
  }

  lemma SettledInputs(cfg: Settings, s: Sys, step: Step)
    requires cfg.defaultMaxTokens > 0 && Settles(s, step)
    ensures s.db.files <= Apply(cfg, s, step).db.files
  {
    SettledTables(s.db, SettledId(s, step), step.outcome, cfg.alpha, step.now);
  }

  lemma FromFilesStep(cfg: Settings, s: Sys, step: Step)
    requires ValidSettings(cfg) && Inv(cfg, s) && AllFromFiles(s.db, cfg.defaultMaxTokens)
    ensures AllFromFiles(Apply(cfg, s, step).db, cfg.defaultMaxTokens)
  {
    var db' := Apply(cfg, s, step).db;
    if step.Submit? {
      SubmitEffect(cfg, s, step.user, step.file, step.window, step.now);
      if Accepted(cfg, s.db, step.user, step.file, step.window) {
        var raw := s.db.files[step.file].value.content.raw;
        ParseSpec(raw, cfg.defaultMaxTokens);
        FromFileSubmitted(s.db, db', step.user, step.file, cfg.defaultMaxTokens, Parse(raw, cfg.defaultMaxTokens).lines, step.now);
      }
    } else {
      if Settles(s, step) { SettleKeeps(cfg, s, step); } else { OtherKeeps(cfg, s, step); }
      forall b | 0 <= b < |s.db.batches|
        ensures var f := s.db.batches[b].inputFile; f < |db'.files| && (f < |s.db.files| ==> db'.files[f] == s.db.files[f])
      {
        InputsKept(cfg, s, step, b);
      }
      FromFileKept(s.db, db', cfg.defaultMaxTokens);
    }
  }

  lemma {:induction false} FromFilesOnRuns(cfg: Settings, steps: seq<Step>)
    requires ValidSettings(cfg)
    ensures AllFromFiles(Run(cfg, START, steps).db, cfg.defaultMaxTokens)
  {
    if steps != [] {
      var n := |steps| - 1;
      FromFilesOnRuns(cfg, steps[..n]);
      RunInv(cfg, steps[..n]);
      FromFilesStep(cfg, Run(cfg, START, steps[..n]), steps[n]);
    }
  }

  // In every reachable state the tasks of a batch are, line by line, what its input file asks
  // for: the task of line i carries the custom_id, prompt estimate and max_tokens of the i-th
  // line that is not blank, and every such line has its task.
  lemma TasksAreLines(cfg: Settings, s: Sys, b: nat) returns (raw: seq<RawLine>, at: seq<nat>)
    requires ValidSettings(cfg) && Reachable(cfg, s) && b < |s.db.batches|
    ensures var f := s.db.batches[b].inputFile;
            f < |s.db.files| && s.db.files[f].Some? && s.db.files[f].value.content == Input(raw)
    ensures Positions(raw, at) && at != []
    ensures forall t :: 0 <= t < |s.db.tasks| && s.db.tasks[t].batch == b ==>
                          s.db.tasks[t].lineIndex < |at| && AsksFor(s.db.tasks[t], raw[at[s.db.tasks[t].lineIndex]], cfg.defaultMaxTokens)
    ensures forall i :: 0 <= i < |at| ==> HasTask(s.db.tasks, b, i)
  {
    var steps :| Run(cfg, START, steps) == s;
    FromFilesOnRuns(cfg, steps);
    assert FromFile(s.db, b, cfg.defaultMaxTokens);
    raw := s.db.files[s.db.batches[b].inputFile].value.content.raw;
    var lines := Parse(raw, cfg.defaultMaxTokens).lines;
    at := ParsedFrom(raw, cfg.defaultMaxTokens);
    ParseSpec(raw, cfg.defaultMaxTokens);
    forall t | 0 <= t < |s.db.tasks| && s.db.tasks[t].batch == b
      ensures s.db.tasks[t].lineIndex < |at| && AsksFor(s.db.tasks[t], raw[at[s.db.tasks[t].lineIndex]], cfg.defaultMaxTokens)
    {
      var i := s.db.tasks[t].lineIndex;
      assert IsLineOf(s.db.tasks[t], b, lines) && ReadFrom(raw[at[i]], i, cfg.defaultMaxTokens, lines[i]);
    }
  }

  // The row carries what the uploaded line says; without max_tokens, the default.
  predicate AsksFor(task: Task, line: RawLine, d: int) {
    && line.Request? && line.body.Body? && line.body.messages.Messages?
    && line.customId == StringField(task.customId)
    && task.promptEstimate == PromptTokens(line.body.messages.items)
    && (line.body.maxTokens == IntField(task.maxTokens) || (line.body.maxTokens == AbsentOrNull && task.maxTokens == d))
    && task.reserved == task.promptEstimate + task.maxTokens
  }
}
