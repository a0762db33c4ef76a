// What the coroutines of a dispatch pass, the in-flight counters and the task rows agree on.
module Flights {
  import opened Model
  import opened Sums
  import opened Claiming
  import opened Placement
  import opened BatchOps
  import opened Dispatching

  // --- One claim pass. ---

  lemma TwiceCounted<T>(a: seq<T>, i: nat, j: nat)
    requires i < j < |a|
    ensures a[i] == a[j] ==> multiset(a)[a[i]] >= 2
  {
    assert a == a[..i] + [a[i]] + a[i + 1..j] + [a[j]] + a[j + 1..];
  }

  lemma {:induction false} OnceCounted<T>(b: seq<T>, x: T)
    requires Distinct(b)
    ensures multiset(b)[x] <= 1
  {
    if b != [] {
      var init := b[..|b| - 1];
      assert b == init + [b[|b| - 1]];
      OnceCounted(init, x);
      if x == b[|b| - 1] { assert x !in init; }
    }
  }

  lemma DistinctSub<T>(a: seq<T>, b: seq<T>)
    requires Distinct(b) && multiset(a) <= multiset(b)
    ensures Distinct(a)
  {
    forall i, j | 0 <= i < j < |a| ensures a[i] != a[j] {
      TwiceCounted(a, i, j);
      OnceCounted(b, a[i]);
    }
  }

  // Whatever is claimed comes from the query.
  lemma ClaimedFrom(rows: seq<Row>, limit: nat, k: nat) returns (i: nat)
    requires k < |Claim(rows, limit)|
    ensures i < |rows| && Claim(rows, limit)[k] == rows[i]
  {
    var claimed := Claim(rows, limit);
    var _, _ := FairShare(rows, limit);
    assert claimed[k] in multiset(claimed);
    assert claimed[k] in multiset(rows);
    i :| 0 <= i < |rows| && rows[i] == claimed[k];
  }

  lemma ClaimedOnce(rows: seq<Row>, limit: nat)
    requires forall i, j :: 0 <= i < j < |rows| ==> rows[i].task != rows[j].task
    ensures |Claim(rows, limit)| == Min(limit, |rows|)
    ensures forall k, l :: 0 <= k < l < |Claim(rows, limit)| ==> Claim(rows, limit)[k].task != Claim(rows, limit)[l].task
  {
    var claimed := Claim(rows, limit);
    var _, _ := FairShare(rows, limit);
    DistinctSub(claimed, rows);
    forall k, l | 0 <= k < l < |claimed| ensures claimed[k].task != claimed[l].task {
      var i := ClaimedFrom(rows, limit, k);
      var j := ClaimedFrom(rows, limit, l);
      assert claimed[k] != claimed[l];
    }
  }

  // The claimed tasks are pending tasks of in-progress batches, no task twice.
  lemma ClaimedTasks(db: Db, ids: seq<nat>, limit: nat)
    requires ClaimQuery(db, ids)
    ensures |Claim(ClaimRows(db, ids), limit)| == Min(limit, |ids|)
    ensures forall k :: 0 <= k < |Claim(ClaimRows(db, ids), limit)| ==>
                          && Claim(ClaimRows(db, ids), limit)[k].task < |db.tasks|
                          && Claimable(db, Claim(ClaimRows(db, ids), limit)[k].task)
    ensures forall k, l :: 0 <= k < l < |Claim(ClaimRows(db, ids), limit)| ==>
                             Claim(ClaimRows(db, ids), limit)[k].task != Claim(ClaimRows(db, ids), limit)[l].task
  {
    var rows := ClaimRows(db, ids);
    ClaimedOnce(rows, limit);
    forall k | 0 <= k < |Claim(rows, limit)|
      ensures Claim(rows, limit)[k].task < |db.tasks| && Claimable(db, Claim(rows, limit)[k].task)
    {
      var i := ClaimedFrom(rows, limit, k);
      assert rows[i] == Row(ids[i], TaskOwner(db, ids[i]));
    }
  }

  // What a pass assigns: every claimed task, in claim order, on a healthy node.
  lemma AssignmentsSpec(db: Db, inFlight: map<string, int>, ids: seq<nat>, names: seq<string>)
    requires ClaimQuery(db, ids) && HealthyQuery(db.nodes, names)
    ensures var flights := Assignments(db, inFlight, ids, names);
            var capacity := TotalCapacity(FreeSlots(db.nodes, inFlight, names));
            && capacity >= 0
            && |flights| == Min(capacity, |ids|)
            && (forall k :: 0 <= k < |flights| ==>
                              && flights[k].phase == EXECUTING
                              && flights[k].node in names
                              && flights[k].task < |db.tasks| && Claimable(db, flights[k].task))
            && (forall k, l :: 0 <= k < l < |flights| ==> flights[k].task != flights[l].task)
  {
    var cap := FreeSlots(db.nodes, inFlight, names);
    SumNonNegative(cap, Positive());
    if names != [] && TotalCapacity(cap) > 0 {
      ClaimedTasks(db, ids, TotalCapacity(cap));
      EveryTaskPlaced(cap, |Claim(ClaimRows(db, ids), TotalCapacity(cap))|);
    }
  }

  ghost predicate DistinctTasks(flights: seq<Flight>) {
    forall k, l :: 0 <= k < l < |flights| ==> flights[k].task != flights[l].task
  }

  // The rows of the assigned tasks are overwritten once each; no other row changes.
  lemma {:induction false} MarkStartedSpec(tasks: seq<Task>, flights: seq<Flight>, now: Time)
    requires DistinctTasks(flights)
    requires forall k :: 0 <= k < |flights| ==> flights[k].task < |tasks|
    ensures forall k :: 0 <= k < |flights| ==>
                          MarkStarted(tasks, flights, now)[flights[k].task] ==
                          Started(tasks[flights[k].task], flights[k].node, now)
    ensures forall t :: 0 <= t < |tasks| && (forall k :: 0 <= k < |flights| ==> flights[k].task != t) ==>
                          MarkStarted(tasks, flights, now)[t] == tasks[t]
  {
    if flights != [] {
      var init, f := flights[..|flights| - 1], flights[|flights| - 1];
      MarkStartedSpec(tasks, init, now);
      forall t | 0 <= t < |tasks| && (forall k :: 0 <= k < |flights| ==> flights[k].task != t)
        ensures MarkStarted(tasks, flights, now)[t] == tasks[t]
      {
        assert f.task != t;
        forall k | 0 <= k < |init| ensures init[k].task != t { assert flights[k].task != t; }
      }
    }
  }

  // --- Flights and task rows. ---

  ghost predicate FlightOk(f: Flight, tasks: seq<Task>) {
    && f.task < |tasks|
    && (f.phase != DONE ==>
          && (tasks[f.task].status == RUNNING || tasks[f.task].status == CANCELLED)
          && tasks[f.task].node == Some(f.node))
  }

  ghost predicate InTheAir(flights: seq<Flight>, t: nat) {
    exists i :: 0 <= i < |flights| && flights[i].task == t && flights[i].phase != DONE
  }

  // Whoever is being executed is RUNNING, or was cancelled meanwhile; and everything RUNNING
  // is being executed.
  ghost predicate FlightsOk(s: Sys) {
    && DistinctTasks(s.flights)
    && (forall i :: 0 <= i < |s.flights| ==> FlightOk(s.flights[i], s.db.tasks))
    && (forall t :: 0 <= t < |s.db.tasks| && s.db.tasks[t].status == RUNNING ==> InTheAir(s.flights, t))
  }

  // What every change of the task table other than a pass start and a recovery respects.
  ghost predicate KeepsFlights(tasks: seq<Task>, tasks': seq<Task>) {
    && |tasks| <= |tasks'|
    && (forall t :: 0 <= t < |tasks| ==>
                      && (tasks[t].status == RUNNING || tasks[t].status == CANCELLED ==>
                            (tasks'[t].status == RUNNING || tasks'[t].status == CANCELLED) && tasks'[t].node == tasks[t].node))
    && (forall t :: 0 <= t < |tasks'| && tasks'[t].status == RUNNING ==> t < |tasks| && tasks[t].status == RUNNING)
  }

  lemma FlightsKept(s: Sys, db': Db)
    requires FlightsOk(s) && KeepsFlights(s.db.tasks, db'.tasks)
    ensures FlightsOk(s.(db := db'))
  {
    forall i | 0 <= i < |s.flights| ensures FlightOk(s.flights[i], db'.tasks) {
      assert FlightOk(s.flights[i], s.db.tasks);
    }
  }

  // Between passes no task is RUNNING.
  lemma NothingRunning(s: Sys)
    requires FlightsOk(s) && PassOver(s.flights)
    ensures forall t :: 0 <= t < |s.db.tasks| ==> s.db.tasks[t].status != RUNNING
  {
    forall t | 0 <= t < |s.db.tasks| ensures s.db.tasks[t].status != RUNNING {
      assert !InTheAir(s.flights, t);
    }
  }

  lemma PassStartFlights(s: Sys, ids: seq<nat>, names: seq<string>, now: Time)
    requires FlightsOk(s) && PassOver(s.flights)
    requires ClaimQuery(s.db, ids) && HealthyQuery(s.db.nodes, names)
    ensures FlightsOk(PassStarted(s, ids, names, now))
  {
    var flights := Assignments(s.db, s.inFlight, ids, names);
    if flights != [] {
      AssignmentsSpec(s.db, s.inFlight, ids, names);
      MarkStartedSpec(s.db.tasks, flights, now);
      NothingRunning(s);
      StartedFlights(s.db.tasks, flights, MarkStarted(s.db.tasks, flights, now), now);
    }
  }

  lemma StartedFlights(tasks: seq<Task>, flights: seq<Flight>, tasks': seq<Task>, now: Time)
    requires DistinctTasks(flights) && |tasks'| == |tasks|
    requires forall k :: 0 <= k < |flights| ==> flights[k].task < |tasks|
    requires forall t :: 0 <= t < |tasks| ==> tasks[t].status != RUNNING
    requires forall k :: 0 <= k < |flights| ==>
                           flights[k].phase == EXECUTING
                           && tasks'[flights[k].task] == Started(tasks[flights[k].task], flights[k].node, now)
    requires forall t :: 0 <= t < |tasks| && (forall k :: 0 <= k < |flights| ==> flights[k].task != t) ==> tasks'[t] == tasks[t]
    ensures forall i :: 0 <= i < |flights| ==> FlightOk(flights[i], tasks')
    ensures forall t :: 0 <= t < |tasks'| && tasks'[t].status == RUNNING ==> InTheAir(flights, t)
  {
    forall t | 0 <= t < |tasks'| && tasks'[t].status == RUNNING ensures InTheAir(flights, t) {
      assert exists k :: 0 <= k < |flights| && flights[k].task == t;
    }
  }

  lemma SettleFlights(s: Sys, i: nat, db': Db)
    requires FlightsOk(s) && i < |s.flights|
    requires |db'.tasks| == |s.db.tasks|
    requires forall t :: 0 <= t < |s.db.tasks| && t != s.flights[i].task ==> db'.tasks[t] == s.db.tasks[t]
    requires s.flights[i].task < |db'.tasks| && db'.tasks[s.flights[i].task].Settled()
    ensures FlightsOk(s.(db := db', flights := s.flights[i := s.flights[i].(phase := DONE)]))
  {
    var s' := s.(db := db', flights := s.flights[i := s.flights[i].(phase := DONE)]);
    forall t | 0 <= t < |s'.db.tasks| && s'.db.tasks[t].status == RUNNING ensures InTheAir(s'.flights, t) {
      assert t != s.flights[i].task;
      assert InTheAir(s.flights, t);
      var k :| 0 <= k < |s.flights| && s.flights[k].task == t && s.flights[k].phase != DONE;
      assert s'.flights[k] == s.flights[k];
    }
    forall k | 0 <= k < |s'.flights| ensures FlightOk(s'.flights[k], s'.db.tasks) {
      assert FlightOk(s.flights[k], s.db.tasks);
    }
  }

  lemma ReturnFlights(s: Sys, i: nat)
    requires FlightsOk(s) && i < |s.flights| && s.flights[i].phase == EXECUTING
    ensures FlightsOk(RequestReturned(s, i))
  {
    var s' := RequestReturned(s, i);
    forall t | 0 <= t < |s'.db.tasks| && s'.db.tasks[t].status == RUNNING ensures InTheAir(s'.flights, t) {
      assert InTheAir(s.flights, t);
      var k :| 0 <= k < |s.flights| && s.flights[k].task == t && s.flights[k].phase != DONE;
      assert s'.flights[k].task == t && s'.flights[k].phase != DONE;
    }
    forall k | 0 <= k < |s'.flights| ensures FlightOk(s'.flights[k], s'.db.tasks) {
      assert FlightOk(s.flights[k], s.db.tasks);
    }
  }

  lemma RestartFlights(s: Sys, config: map<string, int>)
    ensures FlightsOk(Restarted(s, config))
  {
  }

  // --- In-flight counters. ---

  function ExecutingOn(n: string): Flight -> int {
    (f: Flight) => if f.phase == EXECUTING && f.node == n then 1 else 0
  }

  // The counter of every node is the number of requests out on it, and never more than its slots.
  ghost predicate CountersOk(s: Sys) {
    forall n :: NodeOk(s, n)
  }

  ghost predicate NodeOk(s: Sys, n: string) {
    && InUse(s.inFlight, n) == Sum(s.flights, ExecutingOn(n)) >= 0
    && (InUse(s.inFlight, n) > 0 ==> n in s.db.nodes && InUse(s.inFlight, n) <= s.db.nodes[n].slots)
  }

  // Between passes all counters are zero.
  lemma IdleCounters(s: Sys, n: string)
    requires NodeOk(s, n) && PassOver(s.flights)
    ensures InUse(s.inFlight, n) == 0
  {
    SumZero(s.flights, ExecutingOn(n));
  }

  lemma {:induction false} CountUpSpec(inFlight: map<string, int>, flights: seq<Flight>, n: string)
    requires forall k :: 0 <= k < |flights| ==> flights[k].phase == EXECUTING
    ensures InUse(CountUp(inFlight, flights), n) == InUse(inFlight, n) + Sum(flights, ExecutingOn(n))
  {
    if flights != [] { CountUpSpec(inFlight, flights[..|flights| - 1], n); }
  }

  function IsNode(i: nat): nat -> int { (c: nat) => if c == i then 1 else 0 }

  lemma {:induction false} ChosenCount(cap: seq<int>, choices: seq<nat>, i: nat)
    requires i < |cap|
    ensures Sum(choices, IsNode(i)) == cap[i] - Left(cap, choices)[i]
  {
    if choices != [] { ChosenCount(cap, choices[..|choices| - 1], i); }
  }

  // A pass puts at most as many requests on a node as it has free slots.
  lemma AssignedLoad(db: Db, inFlight: map<string, int>, ids: seq<nat>, names: seq<string>, n: string)
    requires ClaimQuery(db, ids) && HealthyQuery(db.nodes, names)
    ensures var load := Sum(Assignments(db, inFlight, ids, names), ExecutingOn(n));
            load >= 0 && (load > 0 ==> n in names && n in db.nodes && load <= db.nodes[n].slots - InUse(inFlight, n))
  {
    var flights := Assignments(db, inFlight, ids, names);
    SumNonNegative(flights, ExecutingOn(n));
    if flights != [] {
      AssignmentsSpec(db, inFlight, ids, names);
      if n in names {
        var i :| 0 <= i < |names| && names[i] == n;
        var cap := FreeSlots(db.nodes, inFlight, names);
        LoadOfNode(Claim(ClaimRows(db, ids), TotalCapacity(cap)), names, cap, i);
      } else {
        SumZero(flights, ExecutingOn(n));
      }
    }
  }

  lemma {:induction false} LoadOfNode(claimed: seq<Row>, names: seq<string>, cap: seq<int>, i: nat)
    requires |cap| == |names| && i < |names| && Distinct(names)
    ensures var load := Sum(Placed(claimed, names, cap), ExecutingOn(names[i]));
            load <= 0 || load <= cap[i]
  {
    var choices := Place(cap, |claimed|);
    var flights := Placed(claimed, names, cap);
    forall k | 0 <= k < |flights| ensures ExecutingOn(names[i])(flights[k]) == IsNode(i)(choices[k]) {
      assert flights[k].node == names[choices[k]];
    }
    SumSame(flights, ExecutingOn(names[i]), choices, IsNode(i));
    ChosenCount(cap, choices, i);
    NoOverload(cap, |claimed|, i);
  }

  lemma PassStartCounters(s: Sys, ids: seq<nat>, names: seq<string>, now: Time)
    requires CountersOk(s) && PassOver(s.flights)
    requires ClaimQuery(s.db, ids) && HealthyQuery(s.db.nodes, names)
    ensures CountersOk(PassStarted(s, ids, names, now))
  {
    var flights := Assignments(s.db, s.inFlight, ids, names);
    var s' := PassStarted(s, ids, names, now);
    if flights != [] {
      AssignmentsSpec(s.db, s.inFlight, ids, names);
      forall n ensures NodeOk(s', n) {
        assert NodeOk(s, n);
        IdleCounters(s, n);
        CountUpSpec(s.inFlight, flights, n);
        AssignedLoad(s.db, s.inFlight, ids, names, n);
      }
    }
  }

  // The decrement never meets its clamp at zero: the returning request was counted.
  lemma ClampNeverBinds(s: Sys, i: nat)
    requires CountersOk(s) && i < |s.flights| && s.flights[i].phase == EXECUTING
    ensures InUse(s.inFlight, s.flights[i].node) >= 1
    ensures CountersOk(RequestReturned(s, i))
  {
    var node := s.flights[i].node;
    assert NodeOk(s, node);
    SumMember(s.flights, i, ExecutingOn(node));
    var s' := RequestReturned(s, i);
    forall n ensures NodeOk(s', n) {
      assert NodeOk(s, n);
      SumUpdate(s.flights, i, s.flights[i].(phase := RETURNED), ExecutingOn(n));
    }
  }

  lemma SettleCounters(s: Sys, i: nat, db': Db)
    requires CountersOk(s) && i < |s.flights| && s.flights[i].phase == RETURNED
    requires db'.nodes == s.db.nodes
    ensures CountersOk(s.(db := db', flights := s.flights[i := s.flights[i].(phase := DONE)]))
  {
    var s' := s.(db := db', flights := s.flights[i := s.flights[i].(phase := DONE)]);
    forall n ensures NodeOk(s', n) {
      assert NodeOk(s, n);
      SumUpdate(s.flights, i, s.flights[i].(phase := DONE), ExecutingOn(n));
    }
  }

  // Health results never touch a node's slots, nor drop a node.
  lemma {:induction false} HealthKeepsSlots(nodes: map<string, Node>, results: seq<(string, bool)>, threshold: nat)
    ensures HealthApplied(nodes, results, threshold).Keys == nodes.Keys
    ensures forall n :: n in nodes ==> HealthApplied(nodes, results, threshold)[n].slots == nodes[n].slots
  {
    if results != [] { HealthKeepsSlots(nodes, results[..|results| - 1], threshold); }
  }

  lemma SameSlotsCounters(s: Sys, db': Db)
    requires CountersOk(s)
    requires db'.nodes.Keys == s.db.nodes.Keys
    requires forall n :: n in s.db.nodes ==> db'.nodes[n].slots == s.db.nodes[n].slots
    ensures CountersOk(s.(db := db'))
  {
    forall n ensures NodeOk(s.(db := db'), n) { assert NodeOk(s, n); }
  }

  lemma RestartCounters(s: Sys, config: map<string, int>)
    ensures CountersOk(Restarted(s, config))
  {
    var s' := Restarted(s, config);
    forall n ensures NodeOk(s', n) { assert Sum(s'.flights, ExecutingOn(n)) == 0; }
  }

  // --- Node health. ---

  // A node in rotation has failed fewer checks in a row than the threshold; an ejected one has not.
  ghost predicate HealthOk(nodes: map<string, Node>, threshold: nat) {
    forall n :: n in nodes ==> NodeHealthOk(nodes[n], threshold)
  }

  predicate NodeHealthOk(node: Node, threshold: nat) {
    && (node.health == HEALTHY ==> node.failures < threshold)
    && (node.health == UNHEALTHY ==> node.failures >= threshold)
  }

  lemma {:induction false} HealthAppliedOk(nodes: map<string, Node>, results: seq<(string, bool)>, threshold: nat)
    requires HealthOk(nodes, threshold) && threshold >= 1
    requires forall i :: 0 <= i < |results| ==> results[i].0 in nodes && nodes[results[i].0].health != DISABLED
    ensures HealthOk(HealthApplied(nodes, results, threshold), threshold)
    ensures HealthApplied(nodes, results, threshold).Keys == nodes.Keys
    ensures forall n :: n in nodes ==>
                          (HealthApplied(nodes, results, threshold)[n].health == DISABLED <==> nodes[n].health == DISABLED)
  {
    if results != [] {
      HealthAppliedOk(nodes, results[..|results| - 1], threshold);
    }
  }

  lemma SyncedNodesOk(nodes: map<string, Node>, config: map<string, int>, threshold: nat)
    requires HealthOk(nodes, threshold) && threshold >= 1
    ensures HealthOk(SyncedNodes(nodes, config), threshold)
    ensures forall n :: n in SyncedNodes(nodes, config) ==>
                          (SyncedNodes(nodes, config)[n].health != DISABLED <==> n in config)
  {
  }
}
