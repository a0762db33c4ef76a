// The dispatcher (dispatcher.py): claiming, placement, execution, settlement and recovery.
module Dispatching {
  import opened Model
  import opened Sums
  import opened Claiming
  import opened Placement
  import opened BatchOps

  // One coroutine of a dispatch pass.  EXECUTING: its request is out on a node.  RETURNED: the
  // response is in and the node's slot is free, but the task is not settled yet.
  datatype Phase = EXECUTING | RETURNED | DONE
  datatype Flight = Flight(task: nat, node: string, phase: Phase)

  // Database, in-flight counters and the coroutines of the current pass.
  datatype Sys = Sys(db: Db, inFlight: map<string, int>, flights: seq<Flight>)

  function InUse(inFlight: map<string, int>, node: string): int {
    if node in inFlight then inFlight[node] else 0
  }

  predicate PassOver(flights: seq<Flight>) { forall i :: 0 <= i < |flights| ==> flights[i].phase == DONE }

  // --- Claiming and placing. ---

  predicate Claimable(db: Db, t: nat)
    requires t < |db.tasks|
  {
    && db.tasks[t].status == PENDING
    && db.tasks[t].batch < |db.batches| && db.batches[db.tasks[t].batch].status == IN_PROGRESS
  }

  // Batch submission time, then line order.
  predicate InClaimOrder(db: Db, s: nat, t: nat)
    requires s < |db.tasks| && t < |db.tasks|
    requires db.tasks[s].batch < |db.batches| && db.tasks[t].batch < |db.batches|
  {
    var a, b := db.batches[db.tasks[s].batch].createdAt, db.batches[db.tasks[t].batch].createdAt;
    a < b || (a == b && db.tasks[s].lineIndex <= db.tasks[t].lineIndex)
  }

  // What the claim query may return; ties in its ordering may fall either way.
  predicate ClaimQuery(db: Db, ids: seq<nat>) {
    && (forall k :: 0 <= k < |ids| ==> ids[k] < |db.tasks| && Claimable(db, ids[k]))
    && (forall t :: 0 <= t < |db.tasks| && Claimable(db, t) ==> t in ids)
    && (forall k, l :: 0 <= k < l < |ids| ==> ids[k] != ids[l])
    && (forall k, l :: 0 <= k < l < |ids| ==> InClaimOrder(db, ids[k], ids[l]))
  }

  function TaskOwner(db: Db, t: nat): UserId
    requires t < |db.tasks|
  {
    if db.tasks[t].batch < |db.batches| then db.batches[db.tasks[t].batch].user else 0
  }

  function ClaimRows(db: Db, ids: seq<nat>): (rows: seq<Row>)
    requires forall k :: 0 <= k < |ids| ==> ids[k] < |db.tasks|
    ensures |rows| == |ids|
    ensures forall k :: 0 <= k < |ids| ==> rows[k] == Row(ids[k], TaskOwner(db, ids[k]))
  {
    seq(|ids|, k requires 0 <= k < |ids| => Row(ids[k], TaskOwner(db, ids[k])))
  }

  function FreeSlots(nodes: map<string, Node>, inFlight: map<string, int>, names: seq<string>): (cap: seq<int>)
    requires forall k :: 0 <= k < |names| ==> names[k] in nodes
    ensures |cap| == |names|
    ensures forall k :: 0 <= k < |names| ==> cap[k] == nodes[names[k]].slots - InUse(inFlight, names[k])
  {
    seq(|names|, k requires 0 <= k < |names| => nodes[names[k]].slots - InUse(inFlight, names[k]))
  }

  function Started(t: Task, node: string, now: Time): Task {
    t.(status := RUNNING, node := Some(node), startedAt := Some(now), attempts := t.attempts + 1)
  }

  // The coroutines a pass starts: task k of the claim goes to the k-th chosen node.
  function NewFlights(claimed: seq<Row>, names: seq<string>, choices: seq<nat>): (flights: seq<Flight>)
    requires |choices| <= |claimed|
    requires forall k :: 0 <= k < |choices| ==> choices[k] < |names|
    ensures |flights| == |choices|
    ensures forall k :: 0 <= k < |choices| ==> flights[k] == Flight(claimed[k].task, names[choices[k]], EXECUTING)
  {
    seq(|choices|, k requires 0 <= k < |choices| => Flight(claimed[k].task, names[choices[k]], EXECUTING))
  }

  // The coroutines of a pass over nodes with these free slots.
  function Placed(claimed: seq<Row>, names: seq<string>, cap: seq<int>): seq<Flight>
    requires cap != [] && |cap| == |names|
  {
    PlaceSize(cap, |claimed|);
    NewFlights(claimed, names, Place(cap, |claimed|))
  }

  function MarkStarted(tasks: seq<Task>, flights: seq<Flight>, now: Time): (tasks': seq<Task>)
    ensures |tasks'| == |tasks|
  {
    if flights == [] then tasks
    else
      var f := flights[|flights| - 1];
      var before := MarkStarted(tasks, flights[..|flights| - 1], now);
      if f.task < |tasks| then before[f.task := Started(before[f.task], f.node, now)] else before
  }

  function CountUp(inFlight: map<string, int>, flights: seq<Flight>): map<string, int> {
    if flights == [] then inFlight
    else
      var f := flights[|flights| - 1];
      var before := CountUp(inFlight, flights[..|flights| - 1]);
      before[f.node := InUse(before, f.node) + 1]
  }

  // The assignments of one claim pass.
  function Assignments(db: Db, inFlight: map<string, int>, ids: seq<nat>, names: seq<string>): seq<Flight>
    requires ClaimQuery(db, ids) && HealthyQuery(db.nodes, names)
  {
    var cap := FreeSlots(db.nodes, inFlight, names);
    if names == [] || TotalCapacity(cap) <= 0 then []
    else
      var claimed := Claim(ClaimRows(db, ids), TotalCapacity(cap));
      Placed(claimed, names, cap)
  }

  // dispatch_once up to the point where every coroutine is running.  A pass only starts
  // once all coroutines of the previous one have finished.
  function PassStarted(s: Sys, ids: seq<nat>, names: seq<string>, now: Time): Sys
    requires ClaimQuery(s.db, ids) && HealthyQuery(s.db.nodes, names)
  {
    var flights := Assignments(s.db, s.inFlight, ids, names);
    if flights == [] then s
    else Sys(s.db.(tasks := MarkStarted(s.db.tasks, flights, now)), CountUp(s.inFlight, flights), flights)
  }

  // --- Executing and settling. ---

  // The response of coroutine i is in.
  function RequestReturned(s: Sys, i: nat): Sys
    requires i < |s.flights|
  {
    var f := s.flights[i];
    s.(inFlight := s.inFlight[f.node := Max(0, InUse(s.inFlight, f.node) - 1)],
       flights := s.flights[i := f.(phase := RETURNED)])
  }

  predicate CanSettle(s: Sys, i: nat) {
    && i < |s.flights| && s.flights[i].phase == RETURNED
    && s.flights[i].task < |s.db.tasks| && s.db.tasks[s.flights[i].task].batch < |s.db.batches|
  }

  // Both commits of a settlement: the ledger's and, when it is due, the finalization's.
  function FlightSettled(s: Sys, i: nat, outcome: Outcome, alpha: real, now: Time): Sys
    requires CanSettle(s, i)
  {
    var t := s.flights[i].task;
    s.(db := Finalized(Settled(s.db, t, outcome, alpha, now), s.db.tasks[t].batch, now),
       flights := s.flights[i := s.flights[i].(phase := DONE)])
  }

  // --- Start-up. ---

  function Recovered(t: Task): Task {
    if t.status == RUNNING then t.(status := PENDING, node := None, startedAt := None) else t
  }

  function RecoverTasks(tasks: seq<Task>): (tasks': seq<Task>)
    ensures |tasks'| == |tasks|
    ensures forall t :: 0 <= t < |tasks| ==> tasks'[t] == Recovered(tasks[t])
  {
    seq(|tasks|, t requires 0 <= t < |tasks| => Recovered(tasks[t]))
  }

  function IsRunning(): Task -> int { (t: Task) => if t.status == RUNNING then 1 else 0 }

  // The node rows after start-up with the given configuration (name to slots).
  function SyncedNode(nodes: map<string, Node>, config: map<string, int>, n: string): Node
    requires n in nodes || n in config
  {
    if n in config then
      if n !in nodes || nodes[n].health == DISABLED then Node(config[n], HEALTHY, 0)
      else nodes[n].(slots := config[n])
    else nodes[n].(health := DISABLED)
  }

  function SyncedNodes(nodes: map<string, Node>, config: map<string, int>): map<string, Node> {
    map n | n in nodes.Keys + config.Keys :: SyncedNode(nodes, config, n)
  }

  // A fresh process on the same database: nothing is in flight any more.
  function Restarted(s: Sys, config: map<string, int>): Sys {
    Sys(s.db.(nodes := SyncedNodes(s.db.nodes, config), tasks := RecoverTasks(s.db.tasks)), map[], [])
  }

  // --- Health. ---

  function Checked(node: Node, ok: bool, threshold: nat): Node {
    if ok then node.(failures := 0, health := HEALTHY)
    else
      node.(failures := node.failures + 1,
            health := if node.failures + 1 >= threshold then UNHEALTHY else node.health)
  }

  function HealthApplied(nodes: map<string, Node>, results: seq<(string, bool)>, threshold: nat): map<string, Node> {
    if results == [] then nodes
    else
      var before := HealthApplied(nodes, results[..|results| - 1], threshold);
      var (name, ok) := results[|results| - 1];
      if name in before then before[name := Checked(before[name], ok, threshold)] else before
  }

  // --- The dispatcher. ---

  datatype Attempt = Reply(body: string, promptTokens: nat, completionTokens: nat) | NodeError(message: string)

  class Dispatcher {
    const db: Store
    var inFlight: map<string, int>
    // The coroutines of the current pass; the event loop holds them, not this object.
    ghost var flights: seq<Flight>

    ghost function State(): Sys
      reads this, db
    {
      Sys(db.Snapshot(), inFlight, flights)
    }

    constructor (db: Store)
      ensures this.db == db && inFlight == map[] && flights == []
    {
      this.db := db;
      inFlight, flights := map[], [];
    }

    method SyncNodesFromConfig(config: map<string, int>)
      modifies db`nodes
      ensures db.nodes == SyncedNodes(old(db.nodes), config)
    {
      var existing := db.nodes;
      var names := config.Keys;
      while names != {}
        invariant names <= config.Keys
        invariant db.nodes.Keys == existing.Keys + (config.Keys - names)
        invariant forall n :: n in db.nodes ==>
                    db.nodes[n] == if n in config && n !in names then SyncedNode(existing, config, n) else existing[n]
        decreases names
      {
        var name :| name in names;
        if name !in existing {
          db.nodes := db.nodes[name := Node(config[name], HEALTHY, 0)];
        } else {
          var row := existing[name].(slots := config[name]);
          if row.health == DISABLED {
            row := row.(health := HEALTHY, failures := 0);
          }
          db.nodes := db.nodes[name := row];
        }
        names := names - {name};
      }
      var rows := existing.Keys;
      while rows != {}
        invariant rows <= existing.Keys
        invariant db.nodes.Keys == existing.Keys + config.Keys
        invariant forall n :: n in db.nodes ==>
                    db.nodes[n] == if n in config || n !in rows then SyncedNode(existing, config, n) else existing[n]
        decreases rows
      {
        var name :| name in rows;
        if name !in config && db.nodes[name].health != DISABLED {
          db.nodes := db.nodes[name := db.nodes[name].(health := DISABLED)];
        }
        rows := rows - {name};
      }
    }

    method RecoverRunningTasks() returns (count: nat)
      modifies db`tasks
      ensures db.tasks == RecoverTasks(old(db.tasks))
      ensures count == Sum(old(db.tasks), IsRunning())
    {
      ghost var stuck := db.tasks;
      count := 0;
      for t := 0 to |db.tasks|
        invariant db.tasks == RecoverTasks(stuck[..t]) + stuck[t..]
        invariant count == Sum(stuck[..t], IsRunning())
      {
        RecoverNext(stuck, t);
        if db.tasks[t].status == RUNNING {
          db.tasks := db.tasks[t := db.tasks[t].(status := PENDING, node := None, startedAt := None)];
          count := count + 1;
        }
      }
      assert stuck[..|stuck|] == stuck;
    }

    // A new process: empty counters, synchronized nodes, no task left running.
    method Startup(config: map<string, int>)
      modifies this, db
      ensures State() == Restarted(old(State()), config)
    {
      inFlight, flights := map[], [];
      SyncNodesFromConfig(config);
      var _ := RecoverRunningTasks();
    }

    method ApplyHealthResults(results: seq<(string, bool)>, threshold: nat)
      modifies db`nodes
      ensures db.nodes == HealthApplied(old(db.nodes), results, threshold)
    {
      for i := 0 to |results|
        invariant db.nodes == HealthApplied(old(db.nodes), results[..i], threshold)
      {
        assert results[..i + 1][..i] == results[..i];
        var (name, ok) := results[i];
        if name !in db.nodes { continue; }
        var node := db.nodes[name];
        if ok {
          node := node.(failures := 0);
          node := node.(health := HEALTHY);
        } else {
          node := node.(failures := node.failures + 1);
          if node.failures >= threshold { node := node.(health := UNHEALTHY); }
        }
        db.nodes := db.nodes[name := node];
      }
      assert results[..|results|] == results;
    }

    // The capacity dict and its positive total.
    method Capacities(names: seq<string>) returns (cap: seq<int>, total: int)
      requires forall k :: 0 <= k < |names| ==> names[k] in db.nodes
      ensures cap == FreeSlots(db.nodes, inFlight, names)
      ensures total == TotalCapacity(cap)
    {
      cap, total := [], 0;
      for k := 0 to |names|
        invariant cap == FreeSlots(db.nodes, inFlight, names[..k])
        invariant total == Sum(cap, Positive())
      {
        var c := db.nodes[names[k]].slots - InUse(inFlight, names[k]);
        SumAppend(cap, c, Positive());
        cap := cap + [c];
        if c > 0 { total := total + c; }
      }
      assert names[..|names|] == names;
    }

    // _claim_and_assign, given the answers of its two queries.
    method ClaimAndAssign(ids: seq<nat>, names: seq<string>, now: Time) returns (assignments: seq<Flight>)
      requires ClaimQuery(db.Snapshot(), ids) && HealthyQuery(db.nodes, names)
      modifies db`tasks
      ensures assignments == Assignments(old(db.Snapshot()), inFlight, ids, names)
      ensures db.tasks == MarkStarted(old(db.tasks), assignments, now)
    {
      if names == [] { return []; }
      var cap, total := Capacities(names);
      if total <= 0 { return []; }
      var claimed := ClaimTasks(ClaimRows(db.Snapshot(), ids), total);
      if claimed == [] { return []; }
      ClaimedTasksExist(db.Snapshot(), ids, total);
      assignments := AssignAll(claimed, names, cap, now);
    }

    // The assignment loop.
    method AssignAll(claimed: seq<Row>, names: seq<string>, cap: seq<int>, now: Time) returns (assignments: seq<Flight>)
      requires cap != [] && |cap| == |names|
      requires forall k :: 0 <= k < |claimed| ==> claimed[k].task < |db.tasks|
      modifies db`tasks
      ensures assignments == Placed(claimed, names, cap)
      ensures db.tasks == MarkStarted(old(db.tasks), assignments, now)
    {
      assignments := [];
      var localCapacity := cap;
      for k := 0 to |claimed|
        invariant |db.tasks| == |old(db.tasks)|
        invariant AssignedSoFar(claimed, names, cap, k, localCapacity, assignments)
        invariant db.tasks == MarkStarted(old(db.tasks), assignments, now)
      {
        var node := MostFree(localCapacity);
        if localCapacity[node] <= 0 {
          PlaceStops(cap, k, |claimed|);
          return;
        }
        AssignNext(claimed, names, cap, k, localCapacity, assignments);
        var task := claimed[k].task;
        MarkStartedNext(old(db.tasks), assignments, Flight(task, names[node], EXECUTING), now);
        localCapacity := localCapacity[node := localCapacity[node] - 1];
        db.tasks := db.tasks[task := Started(db.tasks[task], names[node], now)];
        assignments := assignments + [Flight(task, names[node], EXECUTING)];
      }
    }

    // dispatch_once, up to handing the coroutines to the event loop.
    method BeginPass(ids: seq<nat>, names: seq<string>, now: Time) returns (assignments: seq<Flight>)
      requires PassOver(flights)
      requires ClaimQuery(db.Snapshot(), ids) && HealthyQuery(db.nodes, names)
      modifies this, db
      ensures State() == PassStarted(old(State()), ids, names, now)
      ensures assignments == Assignments(old(db.Snapshot()), old(inFlight), ids, names)
    {
      assignments := ClaimAndAssign(ids, names, now);
      if assignments == [] { return; }
      CountAssignments(assignments);
      flights := assignments;
    }

    method CountAssignments(assignments: seq<Flight>)
      modifies this`inFlight
      ensures inFlight == CountUp(old(inFlight), assignments)
    {
      for k := 0 to |assignments|
        invariant inFlight == CountUp(old(inFlight), assignments[..k])
      {
        assert assignments[..k + 1][..k] == assignments[..k];
        var node := assignments[k].node;
        inFlight := inFlight[node := InUse(inFlight, node) + 1];
      }
      assert assignments[..|assignments|] == assignments;
    }

    // The retry loop of _execute_task against a node that would answer attempt a with replies(a).
    // The first successful attempt wins; the task fails only after max(1, maxAttempts) errors.
    method RunAttempts(replies: nat -> Attempt, maxAttempts: int) returns (outcome: Outcome, used: nat)
      ensures 1 <= used <= Max(1, maxAttempts)
      ensures forall a :: 0 <= a < used - 1 ==> replies(a).NodeError?
      ensures outcome.Success? <==> replies(used - 1).Reply?
      ensures outcome.Success? ==>
                var r := replies(used - 1);
                outcome == Success(r.body, r.promptTokens, r.completionTokens)
      ensures outcome.Failure? ==>
                used == Max(1, maxAttempts) && outcome == Failure(replies(used - 1).message)
    {
      var attempts := Max(1, maxAttempts);
      outcome, used := Failure("unknown error"), 0;
      while used < attempts
        invariant 0 <= used <= attempts
        invariant forall a :: 0 <= a < used ==> replies(a).NodeError?
        invariant used > 0 ==> outcome == Failure(replies(used - 1).message)
      {
        var reply := replies(used);
        used := used + 1;
        match reply {
          case Reply(body, p, c) => return Success(body, p, c), used;
          case NodeError(message) => outcome := Failure(message);
        }
      }
    }

    // The tail of _execute_task: the slot is free again.
    method FinishRequest(ghost i: nat, node: string)
      requires i < |flights| && flights[i].node == node
      modifies this
      ensures State() == RequestReturned(old(State()), i)
    {
      inFlight := inFlight[node := Max(0, InUse(inFlight, node) - 1)];
      flights := flights[i := flights[i].(phase := RETURNED)];
    }

    // _settle_task, given what the finalization's query would return.
    method SettleTask(ghost i: nat, t: nat, outcome: Outcome, rows: seq<nat>, alpha: real, now: Time)
      requires CanSettle(State(), i) && flights[i].task == t
      requires LinesOrdered(db.tasks) && TasksByLine(db.tasks, db.tasks[t].batch, rows)
      modifies this`flights, db
      ensures State() == FlightSettled(old(State()), i, outcome, alpha, now)
    {
      var b := db.tasks[t].batch;
      match outcome {
        case Success(body, p, c) => CompleteTask(db, t, body, p, c, alpha, now);
        case Failure(error) => FailTask(db, t, error, alpha, now);
      }
      SettledKeepsLines(old(db.Snapshot()), t, outcome, alpha, now, rows);
      MaybeFinalizeBatch(db, b, rows, now);
      flights := flights[i := flights[i].(phase := DONE)];
    }
  }

  // The first k claimed tasks have been assigned.
  ghost predicate AssignedSoFar(claimed: seq<Row>, names: seq<string>, cap: seq<int>, k: nat, left: seq<int>,
                                assignments: seq<Flight>) {
    && cap != [] && |cap| == |names| && k <= |claimed|
    && |Place(cap, k)| == k && left == Left(cap, Place(cap, k))
    && assignments == NewFlights(claimed, names, Place(cap, k))
  }

  lemma RecoverNext(tasks: seq<Task>, t: nat)
    requires t < |tasks|
    ensures var before, after := RecoverTasks(tasks[..t]) + tasks[t..], RecoverTasks(tasks[..t + 1]) + tasks[t + 1..];
            before[t] == tasks[t] && after == before[t := Recovered(tasks[t])]
    ensures Sum(tasks[..t + 1], IsRunning()) == Sum(tasks[..t], IsRunning()) + IsRunning()(tasks[t])
  {
    assert tasks[..t + 1] == tasks[..t] + [tasks[t]];
    SumAppend(tasks[..t], tasks[t], IsRunning());
  }

  lemma NewFlightsNext(claimed: seq<Row>, names: seq<string>, choices: seq<nat>, n: nat)
    requires |choices| < |claimed| && n < |names|
    requires forall k :: 0 <= k < |choices| ==> choices[k] < |names|
    ensures NewFlights(claimed, names, choices + [n]) ==
            NewFlights(claimed, names, choices) + [Flight(claimed[|choices|].task, names[n], EXECUTING)]
  {
  }

  lemma {:induction false} AssignNext(claimed: seq<Row>, names: seq<string>, cap: seq<int>, k: nat, left: seq<int>, assignments: seq<Flight>)
    requires AssignedSoFar(claimed, names, cap, k, left, assignments)
    requires k < |claimed| && left[FirstMax(left)] > 0
    ensures var n := FirstMax(left);
            AssignedSoFar(claimed, names, cap, k + 1, left[n := left[n] - 1],
                          assignments + [Flight(claimed[k].task, names[n], EXECUTING)])
  {
    PlaceNext(cap, k);
    NewFlightsNext(claimed, names, Place(cap, k), FirstMax(left));
  }

  lemma {:induction false} MarkStartedNext(tasks: seq<Task>, flights: seq<Flight>, f: Flight, now: Time)
    requires f.task < |tasks|
    ensures var before := MarkStarted(tasks, flights, now);
            MarkStarted(tasks, flights + [f], now) == before[f.task := Started(before[f.task], f.node, now)]
  {
    assert (flights + [f])[..|flights|] == flights;
  }

  lemma ClaimedTasksExist(db: Db, ids: seq<nat>, limit: int)
    requires ClaimQuery(db, ids) && limit > 0
    ensures forall k :: 0 <= k < |Claim(ClaimRows(db, ids), limit)| ==>
                          Claim(ClaimRows(db, ids), limit)[k].task < |db.tasks|
  {
    var rows := ClaimRows(db, ids);
    var claimed := Claim(rows, limit);
    var _, _ := FairShare(rows, limit);
    forall k | 0 <= k < |claimed| ensures claimed[k].task < |db.tasks| {
      assert claimed[k] in multiset(claimed);
      assert claimed[k] in multiset(rows);
    }
  }

  lemma SettledKeepsLines(db: Db, t: nat, outcome: Outcome, alpha: real, now: Time, rows: seq<nat>)
    requires t < |db.tasks| && db.tasks[t].batch < |db.batches|
    requires LinesOrdered(db.tasks) && TasksByLine(db.tasks, db.tasks[t].batch, rows)
    ensures |Settled(db, t, outcome, alpha, now).batches| == |db.batches|
    ensures LinesOrdered(Settled(db, t, outcome, alpha, now).tasks)
    ensures TasksByLine(Settled(db, t, outcome, alpha, now).tasks, db.tasks[t].batch, rows)
  {
    var tasks' := db.tasks[t := SettledTask(db.tasks[t], outcome, now)];
    assert Settled(db, t, outcome, alpha, now).tasks == tasks';
    assert forall i :: 0 <= i < |tasks'| ==>
                         tasks'[i].batch == db.tasks[i].batch && tasks'[i].lineIndex == db.tasks[i].lineIndex;
  }
}
