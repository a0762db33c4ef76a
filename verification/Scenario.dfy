// Concrete runs with one user, one node with one slot and batches of a single request, from
// which the reachable witnesses are built: start-up, a grant and the upload of the input file
// (Setup), then any number of submissions, passes, answers and settlements.  Each operation
// is computed once, on a state given by its parts, and a lemma per step extends a run by it.
// The ledger is left out of the parts, since it only grows.
module Scenario {
  import opened Model
  import opened Sums
  import opened Ledger
  import opened Tokens
  import opened Parsing
  import opened Claiming
  import opened Placement
  import opened BatchOps
  import opened Dispatching
  import opened Engine
  import opened Conservation
  import opened BudgetRuns

  // One user, one node with one slot, and one request that reserves seven tokens.
  const LINE := Request(StringField("a"), StringField("POST"), StringField(ENDPOINT),
                        Body(Messages([Message(NoText, NotString)]), IntField(1)))
  const PARSED := ParsedLine(0, "a", 6, 1)
  const ANSWER := Success("", 6, 1)
  const NODES := map["a" := Node(1, HEALTHY, 0)]
  const FILES := [Some(FileRow(0, BATCH_INPUT, FileName.Uploaded, Input([LINE])))]

  function OneRequestBatch(): Batch { NewBatch(0, 0, "24h", 7, 1, 0) }

  // The parts of a state that matter below; the ledger only grows.
  ghost predicate At(s: Sys, budget: Budget, batches: seq<Batch>, tasks: seq<Task>, flights: seq<Flight>, busy: int) {
    && BudgetOf(s.db, 0) == budget && s.db.batches == batches && s.db.tasks == tasks
    && s.db.files == FILES && s.db.nodes == NODES
    && s.flights == flights && InUse(s.inFlight, "a") == busy
  }

  lemma LineParses(defaultMaxTokens: int)
    requires defaultMaxTokens > 0
    ensures Parse([LINE], defaultMaxTokens) == Parsed([PARSED])
  {
    assert [LINE][..0] == [];
    assert NonBlank([LINE]) == [LINE];
    var messages := [Message(NoText, NotString)];
    assert messages[..0] == [];
    assert PromptTokens(messages) == 6;
    var s := ScanLines([LINE], 0, defaultMaxTokens);
    assert Check(LINE, s.seen) == None;
    assert ScanLines([LINE], 1, defaultMaxTokens).parsed == [PARSED];
  }

  lemma SubmitStep(cfg: Settings, s: Sys, budget: Budget, batches: seq<Batch>, tasks: seq<Task>,
                   flights: seq<Flight>, busy: int)
    requires cfg.defaultMaxTokens > 0 && At(s, budget, batches, tasks, flights, busy) && budget.Available() >= 7
    ensures At(Apply(cfg, s, Submit(0, 0, "24h", 0)), budget.(reserved := budget.reserved + 7),
               batches + [OneRequestBatch()], tasks + [NewTask(|batches|, PARSED)], flights, busy)
  {
    LineParses(cfg.defaultMaxTokens);
    assert [PARSED][..0] == [];
    assert Sum([PARSED], LineReserved()) == 7;
    assert NewTasks(|batches|, [PARSED]) == [NewTask(|batches|, PARSED)];
  }

  lemma ClaimOne(row: Row)
    ensures Claim([row], 1) == [row]
  {
    var rows := [row];
    assert rows[..0] == [];
    assert QueueOf(rows, row.user) == [row];
    assert UserOrder(rows) == [row.user];
    var queues := Queues(rows, UserOrder(rows));
    assert queues == [[row]];
    assert Round(queues, 0, 0) == [] && Round(queues, 0, 1) == [row];
    assert Rounds(queues, 0) == [] && Rounds(queues, 1) == [row];
  }

  lemma PlaceOne()
    ensures TotalCapacity([1]) == 1 && Place([1], 1) == [0]
  {
    assert [1][..0] == [];
    assert Place([1], 0) == [] && Left([1], []) == [1];
  }

  lemma AssignOne(db: Db, inFlight: map<string, int>, t: nat)
    requires db.nodes == NODES && InUse(inFlight, "a") == 0
    requires ClaimQuery(db, [t]) && HealthyQuery(db.nodes, ["a"])
    ensures Assignments(db, inFlight, [t], ["a"]) == [Flight(t, "a", EXECUTING)]
  {
    assert [t][0] == t;
    assert ClaimRows(db, [t]) == [Row(t, TaskOwner(db, t))];
    ClaimOne(Row(t, TaskOwner(db, t)));
    PlaceOne();
    assert FreeSlots(db.nodes, inFlight, ["a"]) == [1];
  }

  lemma {:induction false} StartOne(tasks: seq<Task>, inFlight: map<string, int>, f: Flight)
    requires f.task < |tasks|
    ensures MarkStarted(tasks, [f], 0) == tasks[f.task := Started(tasks[f.task], f.node, 0)]
    ensures CountUp(inFlight, [f]) == inFlight[f.node := InUse(inFlight, f.node) + 1]
  {
    assert [f][..0] == [];
    assert MarkStarted(tasks, [], 0) == tasks && CountUp(inFlight, []) == inFlight;
  }

  // The only claimable task is started on the only node.
  lemma PassStep(cfg: Settings, s: Sys, budget: Budget, batches: seq<Batch>, tasks: seq<Task>,
                 flights: seq<Flight>, t: nat)
    requires cfg.defaultMaxTokens > 0 && At(s, budget, batches, tasks, flights, 0) && PassOver(flights)
    requires t < |tasks| && Claimable(s.db, t)
    requires forall i :: 0 <= i < |tasks| && i != t ==> !Claimable(s.db, i)
    ensures At(Apply(cfg, s, StartPass([t], ["a"], 0)), budget, batches, tasks[t := Started(tasks[t], "a", 0)],
               [Flight(t, "a", EXECUTING)], 1)
  {
    assert ClaimQuery(s.db, [t]) && HealthyQuery(s.db.nodes, ["a"]);
    AssignOne(s.db, s.inFlight, t);
    StartOne(tasks, s.inFlight, Flight(t, "a", EXECUTING));
  }

  lemma ReturnStep(cfg: Settings, s: Sys, budget: Budget, batches: seq<Batch>, tasks: seq<Task>, t: nat)
    requires cfg.defaultMaxTokens > 0 && At(s, budget, batches, tasks, [Flight(t, "a", EXECUTING)], 1)
    ensures At(Apply(cfg, s, Return(0)), budget, batches, tasks, [Flight(t, "a", RETURNED)], 0)
  {
  }

  // A cancelled batch of one running task gives its seven tokens back.
  lemma CancelStep(cfg: Settings, s: Sys, budget: Budget, task: Task, flights: seq<Flight>, busy: int)
    requires cfg.defaultMaxTokens > 0 && At(s, budget, [OneRequestBatch()], [task], flights, busy)
    requires task.batch == 0 && task.status == RUNNING && task.reserved == 7 && budget.reserved == 7
    ensures At(Apply(cfg, s, Cancel(0, 0, 0)), budget.(reserved := 0),
               [TerminalBatch(OneRequestBatch(), BATCH_CANCELLED, 0)], [Stopped(task, 0, 0)], flights, busy)
  {
    assert [task][..0] == [];
    assert Sum([task], HeldBy(0)) == 7;
    assert StopTasks([task], 0, 0) == [Stopped(task, 0, 0)];
  }

  // The first settlement comes after the cancellation: it takes the reservation of the second batch.
  lemma SettleStep(cfg: Settings, s: Sys, budget: Budget, batches: seq<Batch>, tasks: seq<Task>, t: nat)
    requires cfg.defaultMaxTokens > 0 && At(s, budget, batches, tasks, [Flight(t, "a", RETURNED)], 0)
    requires t < |tasks| && tasks[t].batch < |batches| && tasks[t].reserved == 7
    requires batches[tasks[t].batch].user == 0 && budget.reserved >= 0
    ensures var b := tasks[t].batch;
            var s' := Apply(cfg, s, Settle(0, ANSWER, 0));
            && BudgetOf(s'.db, 0) == Budget(budget.granted, budget.reserved - Min(7, budget.reserved), budget.used + 7)
            && (batches[b].status != IN_PROGRESS ==>
                  At(s', BudgetOf(s'.db, 0), batches[b := CountedBatch(batches[b], ANSWER)],
                     tasks[t := SettledTask(tasks[t], ANSWER, 0)], [Flight(t, "a", DONE)], 0))
  {
  }

  // A run that keeps every usage within its reservation and ends in the given state.
  ghost predicate Reaches(cfg: Settings, steps: seq<Step>, budget: Budget, batches: seq<Batch>, tasks: seq<Task>,
                          flights: seq<Flight>, busy: int)
    requires cfg.defaultMaxTokens > 0
  {
    At(Run(cfg, START, steps), budget, batches, tasks, flights, busy) && StaysWithinReservations(cfg, steps)
  }

  lemma {:induction false} Then(cfg: Settings, steps: seq<Step>, step: Step)
    requires cfg.defaultMaxTokens > 0 && StaysWithinReservations(cfg, steps)
    requires var s := Run(cfg, START, steps);
             Settles(s, step) ==> Used(step.outcome) <= s.db.tasks[SettledId(s, step)].reserved
    ensures Run(cfg, START, steps + [step]) == Apply(cfg, Run(cfg, START, steps), step)
    ensures StaysWithinReservations(cfg, steps + [step])
  {
    assert (steps + [step])[..|steps|] == steps;
  }

  lemma StartupState(cfg: Settings, config: map<string, int>)
    requires cfg.defaultMaxTokens > 0 && config == map["a" := 1]
    ensures Apply(cfg, START, Crash(config)) == Sys(EMPTY_DB.(nodes := NODES), map[], [])
  {
    assert SyncedNodes(map[], config) == NODES;
  }

  lemma GrantState(cfg: Settings, s: Sys)
    requires cfg.defaultMaxTokens > 0
    requires s.db.budgets == map[]
    ensures var s' := Apply(cfg, s, Grant(0, 7));
            && BudgetOf(s'.db, 0) == Budget(7, 0, 0)
            && s'.db.batches == s.db.batches && s'.db.tasks == s.db.tasks && s'.db.files == s.db.files
            && s'.db.nodes == s.db.nodes && s'.flights == s.flights && s'.inFlight == s.inFlight
  {
  }

  lemma UploadState(cfg: Settings, s: Sys, raw: seq<RawLine>)
    requires cfg.defaultMaxTokens > 0 && raw != [] && s.db.files == []
    ensures Apply(cfg, s, Upload(0, raw)) ==
            s.(db := s.db.(files := [Some(FileRow(0, BATCH_INPUT, FileName.Uploaded, Input(raw)))]))
  {
  }

  lemma Startup(cfg: Settings, none: seq<Step>) returns (steps: seq<Step>)
    requires cfg.defaultMaxTokens > 0 && |none| == 0
    ensures StaysWithinReservations(cfg, steps)
    ensures Run(cfg, START, steps) == Sys(EMPTY_DB.(nodes := NODES), map[], [])
  {
    var config := map["a" := 1];
    var step := Crash(config);
    StartupState(cfg, config);
    Then(cfg, none, step);
    steps := none + [step];
  }

  lemma Granted(cfg: Settings) returns (steps: seq<Step>)
    requires cfg.defaultMaxTokens > 0
    ensures StaysWithinReservations(cfg, steps)
    ensures var s := Run(cfg, START, steps);
            && BudgetOf(s.db, 0) == Budget(7, 0, 0)
            && s.db.batches == [] && s.db.tasks == [] && s.db.files == [] && s.db.nodes == NODES
            && s.flights == [] && s.inFlight == map[]
  {
    var before := Startup(cfg, []);
    var step := Grant(0, 7);
    GrantState(cfg, Run(cfg, START, before));
    Then(cfg, before, step);
    steps := before + [step];
  }

  // Start-up with the one node, a grant of seven tokens, and the upload.
  lemma Setup(cfg: Settings) returns (steps: seq<Step>)
    requires cfg.defaultMaxTokens > 0
    ensures Reaches(cfg, steps, Budget(7, 0, 0), [], [], [], 0)
  {
    var before := Granted(cfg);
    var step := Upload(0, [LINE]);
    UploadState(cfg, Run(cfg, START, before), [LINE]);
    Then(cfg, before, step);
    steps := before + [step];
  }

  lemma ThenSubmit(cfg: Settings, steps: seq<Step>, budget: Budget, batches: seq<Batch>, tasks: seq<Task>,
                   flights: seq<Flight>, busy: int) returns (more: seq<Step>)
    requires cfg.defaultMaxTokens > 0 && Reaches(cfg, steps, budget, batches, tasks, flights, busy)
    requires budget.Available() >= 7
    ensures Reaches(cfg, more, budget.(reserved := budget.reserved + 7), batches + [OneRequestBatch()],
                    tasks + [NewTask(|batches|, PARSED)], flights, busy)
  {
    var step := Submit(0, 0, "24h", 0);
    Then(cfg, steps, step);
    SubmitStep(cfg, Run(cfg, START, steps), budget, batches, tasks, flights, busy);
    more := steps + [step];
  }

  lemma ThenPass(cfg: Settings, steps: seq<Step>, budget: Budget, batches: seq<Batch>, tasks: seq<Task>,
                 flights: seq<Flight>, t: nat) returns (more: seq<Step>)
    requires cfg.defaultMaxTokens > 0 && Reaches(cfg, steps, budget, batches, tasks, flights, 0) && PassOver(flights)
    requires t < |tasks| && tasks[t].status == PENDING
    requires tasks[t].batch < |batches| && batches[tasks[t].batch].status == IN_PROGRESS
    requires forall i :: 0 <= i < |tasks| && i != t ==> tasks[i].status != PENDING
    ensures Reaches(cfg, more, budget, batches, tasks[t := Started(tasks[t], "a", 0)], [Flight(t, "a", EXECUTING)], 1)
  {
    var step := StartPass([t], ["a"], 0);
    Then(cfg, steps, step);
    PassStep(cfg, Run(cfg, START, steps), budget, batches, tasks, flights, t);
    more := steps + [step];
  }

  lemma ThenReturn(cfg: Settings, steps: seq<Step>, budget: Budget, batches: seq<Batch>, tasks: seq<Task>, t: nat)
    returns (more: seq<Step>)
    requires cfg.defaultMaxTokens > 0 && Reaches(cfg, steps, budget, batches, tasks, [Flight(t, "a", EXECUTING)], 1)
    ensures Reaches(cfg, more, budget, batches, tasks, [Flight(t, "a", RETURNED)], 0)
  {
    var step := Return(0);
    Then(cfg, steps, step);
    ReturnStep(cfg, Run(cfg, START, steps), budget, batches, tasks, t);
    more := steps + [step];
  }

  const RUNNING0 := Started(NewTask(0, PARSED), "a", 0)
  const STOPPED0 := Stopped(RUNNING0, 0, 0)
  const ENDED0 := TerminalBatch(OneRequestBatch(), BATCH_CANCELLED, 0)
  const LATE0 := SettledTask(STOPPED0, ANSWER, 0)
  const COUNTED0 := CountedBatch(ENDED0, ANSWER)

  // A batch is submitted and its request sent out.
  lemma Sent(cfg: Settings) returns (steps: seq<Step>)
    requires cfg.defaultMaxTokens > 0
    ensures Reaches(cfg, steps, Budget(7, 7, 0), [OneRequestBatch()], [RUNNING0], [Flight(0, "a", EXECUTING)], 1)
  {
    var before := Setup(cfg);
    before := ThenSubmit(cfg, before, Budget(7, 0, 0), [], [], [], 0);
    steps := ThenPass(cfg, before, Budget(7, 7, 0), [OneRequestBatch()], [NewTask(0, PARSED)], [], 0);
  }

  // It is cancelled while the request is out.
  lemma Cancelled(cfg: Settings) returns (steps: seq<Step>)
    requires cfg.defaultMaxTokens > 0
    ensures Reaches(cfg, steps, Budget(7, 0, 0), [ENDED0], [STOPPED0], [Flight(0, "a", EXECUTING)], 1)
  {
    var before := Sent(cfg);
    var step := Cancel(0, 0, 0);
    Then(cfg, before, step);
    CancelStep(cfg, Run(cfg, START, before), Budget(7, 7, 0), RUNNING0, [Flight(0, "a", EXECUTING)], 1);
    steps := before + [step];
  }

  lemma ThenSettle(cfg: Settings, steps: seq<Step>, budget: Budget, batches: seq<Batch>, tasks: seq<Task>, t: nat)
    returns (more: seq<Step>)
    requires cfg.defaultMaxTokens > 0 && Reaches(cfg, steps, budget, batches, tasks, [Flight(t, "a", RETURNED)], 0)
    requires t < |tasks| && tasks[t].batch < |batches| && tasks[t].reserved == 7
    requires batches[tasks[t].batch].user == 0 && budget.reserved >= 0
    ensures var b := tasks[t].batch;
            var budget' := Budget(budget.granted, budget.reserved - Min(7, budget.reserved), budget.used + 7);
            && StaysWithinReservations(cfg, more) && BudgetOf(Run(cfg, START, more).db, 0) == budget'
            && (batches[b].status != IN_PROGRESS ==>
                  Reaches(cfg, more, budget', batches[b := CountedBatch(batches[b], ANSWER)],
                          tasks[t := SettledTask(tasks[t], ANSWER, 0)], [Flight(t, "a", DONE)], 0))
  {
    var step := Settle(0, ANSWER, 0);
    Then(cfg, steps, step);
    SettleStep(cfg, Run(cfg, START, steps), budget, batches, tasks, t);
    more := steps + [step];
  }
}
