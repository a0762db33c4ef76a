// Who gets the slots of a dispatch pass, in terms of the tables alone.
module Fairness {
  import opened Model
  import opened Sums
  import opened Claiming
  import opened Placement
  import opened Dispatching
  import opened Flights

  // The tasks of user u that are waiting to be started.
  function WaitingOf(db: Db, u: UserId): set<nat> {
    set t: nat | t < |db.tasks| && Waiting(db, t) && db.batches[db.tasks[t].batch].user == u
  }

  predicate Waiting(db: Db, t: nat)
    requires t < |db.tasks|
  {
    && db.tasks[t].status == PENDING
    && db.tasks[t].batch < |db.batches| && db.batches[db.tasks[t].batch].status == IN_PROGRESS
  }

  // The users who have any.
  function WaitingUsers(db: Db): set<UserId> {
    set t: nat | t < |db.tasks| && Waiting(db, t) :: db.batches[db.tasks[t].batch].user
  }

  // Counts the flights that run a task of user u.
  function RunsFor(db: Db, u: UserId): Flight -> int {
    (f: Flight) =>
      if f.task < |db.tasks| && db.tasks[f.task].batch < |db.batches| && db.batches[db.tasks[f.task].batch].user == u
      then 1 else 0
  }

  // The free slots of a node; an overloaded node has none.
  function FreeOn(nodes: map<string, Node>, inFlight: map<string, int>): string -> int {
    (n: string) =>
      if n in nodes then Max(0, nodes[n].slots - if n in inFlight then inFlight[n] else 0) else 0
  }

  // Task s was submitted before task t, or comes first in the same batch.
  predicate Before(db: Db, s: nat, t: nat)
    requires s < |db.tasks| && t < |db.tasks|
    requires db.tasks[s].batch < |db.batches| && db.tasks[t].batch < |db.batches|
  {
    var a, b := db.batches[db.tasks[s].batch].createdAt, db.batches[db.tasks[t].batch].createdAt;
    a < b || (a == b && db.tasks[s].lineIndex < db.tasks[t].lineIndex)
  }

  // --- Queues and tables. ---

  function IsUser(u: UserId): Row -> int { (x: Row) => if x.user == u then 1 else 0 }

  lemma {:induction false} QueueIsCount(rows: seq<Row>, u: UserId)
    ensures |QueueOf(rows, u)| == Sum(rows, IsUser(u))
  {
    if rows != [] { QueueIsCount(rows[..|rows| - 1], u); }
  }

  function OwnedIn(db: Db, ids: seq<nat>, u: UserId): set<nat> {
    set t: nat | t in ids && t < |db.tasks| && db.tasks[t].batch < |db.batches|
                 && db.batches[db.tasks[t].batch].user == u
  }

  lemma {:induction false} QueueIsOwned(db: Db, ids: seq<nat>, u: UserId)
    requires Distinct(ids)
    requires forall k :: 0 <= k < |ids| ==> ids[k] < |db.tasks| && db.tasks[ids[k]].batch < |db.batches|
    ensures |QueueOf(ClaimRows(db, ids), u)| == |OwnedIn(db, ids, u)|
  {
    if ids == [] {
      assert OwnedIn(db, ids, u) == {};
    } else {
      var init, t := ids[..|ids| - 1], ids[|ids| - 1];
      QueueIsOwned(db, init, u);
      OwnedNext(db, init, t, u);
      assert ids == init + [t];
    }
  }

  lemma {:induction false} OwnedNext(db: Db, ids: seq<nat>, t: nat, u: UserId)
    requires t !in ids && t < |db.tasks| && db.tasks[t].batch < |db.batches|
    requires forall k :: 0 <= k < |ids| ==> ids[k] < |db.tasks|
    requires |QueueOf(ClaimRows(db, ids), u)| == |OwnedIn(db, ids, u)|
    ensures |QueueOf(ClaimRows(db, ids + [t]), u)| == |OwnedIn(db, ids + [t], u)|
  {
    assert ClaimRows(db, ids + [t]) == ClaimRows(db, ids) + [Row(t, TaskOwner(db, t))];
    QueueAppend(ClaimRows(db, ids), Row(t, TaskOwner(db, t)), u);
    OwnedMore(db, ids, t, u);
  }

  lemma OwnedMore(db: Db, ids: seq<nat>, t: nat, u: UserId)
    requires t !in ids && t < |db.tasks| && db.tasks[t].batch < |db.batches|
    ensures |OwnedIn(db, ids + [t], u)| ==
            |OwnedIn(db, ids, u)| + if db.batches[db.tasks[t].batch].user == u then 1 else 0
  {
    assert OwnedIn(db, ids + [t], u) ==
           OwnedIn(db, ids, u) + if db.batches[db.tasks[t].batch].user == u then {t} else {};
  }

  lemma {:induction false} QueueIsWaiting(db: Db, ids: seq<nat>, u: UserId)
    requires ClaimQuery(db, ids)
    ensures |QueueOf(ClaimRows(db, ids), u)| == |WaitingOf(db, u)|
  {
    QueueIsOwned(db, ids, u);
    forall t: nat | t < |db.tasks| ensures t in ids <==> Waiting(db, t) {
      assert Claimable(db, t) <==> Waiting(db, t);
    }
    assert OwnedIn(db, ids, u) == WaitingOf(db, u);
  }

  lemma OrderIsUsers(db: Db, ids: seq<nat>)
    requires ClaimQuery(db, ids)
    ensures |UserOrder(ClaimRows(db, ids))| == |WaitingUsers(db)|
    ensures forall u :: u in UserOrder(ClaimRows(db, ids)) <==> u in WaitingUsers(db)
  {
    var rows := ClaimRows(db, ids);
    UserOrderSpec(rows);
    forall u ensures u in UserOrder(rows) <==> u in WaitingUsers(db) {
      if u in UserOrder(rows) {
        QueueUsers(rows, u);
        InQueue(rows, u);
        var x := QueueOf(rows, u)[0];
        assert x in rows && x.user == u;
        var k :| 0 <= k < |rows| && rows[k] == x;
        assert Claimable(db, ids[k]) && Waiting(db, ids[k]);
      }
      if u in WaitingUsers(db) {
        var t :| 0 <= t < |db.tasks| && Waiting(db, t) && db.batches[db.tasks[t].batch].user == u;
        assert Claimable(db, t);
        var k :| 0 <= k < |ids| && ids[k] == t;
        assert rows[k].user == u;
      }
    }
    DistinctMultiset(UserOrder(rows));
    assert Elements(UserOrder(rows)) == WaitingUsers(db);
  }

  // --- One pass. ---

  // The flights are the rows of a fair claim, in order.
  ghost predicate PassOf(db: Db, rows: seq<Row>, capacity: nat, claimed: seq<Row>, flights: seq<Flight>) {
    && FairClaim(rows, capacity, claimed) && |flights| == |claimed|
    && forall k :: 0 <= k < |flights| ==> flights[k].task == claimed[k].task && claimed[k] in rows
  }

  lemma {:induction false} CapacityIs(nodes: map<string, Node>, inFlight: map<string, int>, names: seq<string>)
    requires forall k :: 0 <= k < |names| ==> names[k] in nodes
    ensures TotalCapacity(FreeSlots(nodes, inFlight, names)) == Sum(names, FreeOn(nodes, inFlight)) >= 0
  {
    var cap := FreeSlots(nodes, inFlight, names);
    forall k | 0 <= k < |names| ensures Positive()(cap[k]) == FreeOn(nodes, inFlight)(names[k]) {}
    SumSame(cap, Positive(), names, FreeOn(nodes, inFlight));
    SumNonNegative(names, FreeOn(nodes, inFlight));
  }

  lemma PassClaims(db: Db, inFlight: map<string, int>, ids: seq<nat>, names: seq<string>) returns (claimed: seq<Row>)
    requires ClaimQuery(db, ids) && HealthyQuery(db.nodes, names)
    ensures Sum(names, FreeOn(db.nodes, inFlight)) >= 0
    ensures PassOf(db, ClaimRows(db, ids), Sum(names, FreeOn(db.nodes, inFlight)), claimed,
                   Assignments(db, inFlight, ids, names))
  {
    var rows, capacity := ClaimRows(db, ids), Sum(names, FreeOn(db.nodes, inFlight));
    CapacityIs(db.nodes, inFlight, names);
    claimed := Claim(rows, capacity);
    var k, j := FairShare(rows, capacity);
    assert CutAt(rows, capacity, claimed, k, j);
    AssignmentsSpec(db, inFlight, ids, names);
    forall i | 0 <= i < |claimed| ensures claimed[i] in rows { var r := ClaimedFrom(rows, capacity, i); }
  }

  lemma {:induction false} FlightsOfUser(db: Db, ids: seq<nat>, capacity: nat, claimed: seq<Row>, flights: seq<Flight>, u: UserId)
    requires ClaimQuery(db, ids) && PassOf(db, ClaimRows(db, ids), capacity, claimed, flights)
    ensures Sum(flights, RunsFor(db, u)) == |QueueOf(claimed, u)|
    ensures u !in UserOrder(ClaimRows(db, ids)) ==> QueueOf(claimed, u) == []
  {
    var rows := ClaimRows(db, ids);
    forall k | 0 <= k < |flights| ensures RunsFor(db, u)(flights[k]) == IsUser(u)(claimed[k]) {
      var r :| 0 <= r < |rows| && rows[r] == claimed[k];
      assert Claimable(db, ids[r]);
    }
    SumSame(flights, RunsFor(db, u), claimed, IsUser(u));
    QueueIsCount(claimed, u);
    if u !in UserOrder(rows) {
      UserOrderSpec(rows);
      forall x | x in claimed ensures x.user != u {
        var k :| 0 <= k < |claimed| && claimed[k] == x;
        assert x in rows;
      }
      NoQueue(claimed, u);
    }
  }

  // The slots of a pass are shared out fairly among the users with waiting tasks, however
  // those are spread over batches: everybody gets an equal share of the free slots or all they
  // have waiting, and whoever is left with waiting tasks is at most one behind anybody else.
  lemma {:induction false} PassIsFair(db: Db, inFlight: map<string, int>, ids: seq<nat>, names: seq<string>, u: UserId, v: UserId)
    requires ClaimQuery(db, ids) && HealthyQuery(db.nodes, names)
    ensures var flights, capacity := Assignments(db, inFlight, ids, names), Sum(names, FreeOn(db.nodes, inFlight));
            var started, waiting := Sum(flights, RunsFor(db, u)), |WaitingOf(db, u)|;
            && started <= waiting
            && (WaitingUsers(db) != {} ==> started >= Min(waiting, capacity / |WaitingUsers(db)|))
            && (started < waiting ==> |flights| == capacity && Sum(flights, RunsFor(db, v)) <= started + 1)
  {
    var rows, capacity := ClaimRows(db, ids), Sum(names, FreeOn(db.nodes, inFlight));
    var flights := Assignments(db, inFlight, ids, names);
    var claimed := PassClaims(db, inFlight, ids, names);
    FlightsOfUser(db, ids, capacity, claimed, flights, u);
    FlightsOfUser(db, ids, capacity, claimed, flights, v);
    QueueIsWaiting(db, ids, u);
    OrderIsUsers(db, ids);
    ClaimedPrefix(rows, capacity, claimed, u);
    if u in UserOrder(rows) {
      EqualShareGuaranteed(rows, capacity, claimed, u);
      if |QueueOf(claimed, u)| < |QueueOf(rows, u)| {
        NobodyFallsBehind(rows, capacity, claimed, u, u);
        if v in UserOrder(rows) { NobodyFallsBehind(rows, capacity, claimed, u, v); }
      }
    }
  }

  // What is in front of row j of the same user is in front of it in that user's queue.
  lemma {:induction false} EarlierInQueue(rows: seq<Row>, i: nat, j: nat)
    requires i < j < |rows| && rows[i].user == rows[j].user && Distinct(rows)
    ensures var queue := QueueOf(rows, rows[j].user);
            exists a, b :: 0 <= a < b < |queue| && queue[a] == rows[i] && queue[b] == rows[j]
  {
    var u := rows[j].user;
    var front, back := rows[..j], rows[j + 1..];
    assert rows == (front + [rows[j]]) + back;
    QueueConcat(front + [rows[j]], back, u);
    QueueAppend(front, rows[j], u);
    InOwnQueue(front, i);
    var a :| 0 <= a < |QueueOf(front, u)| && QueueOf(front, u)[a] == rows[i];
    var b := |QueueOf(front, u)|;
    assert QueueOf(rows, u)[a] == rows[i] && QueueOf(rows, u)[b] == rows[j];
  }

  lemma {:induction false} InOwnQueue(rows: seq<Row>, i: nat)
    requires i < |rows|
    ensures rows[i] in QueueOf(rows, rows[i].user)
  {
    if i < |rows| - 1 { InOwnQueue(rows[..|rows| - 1], i); }
  }

  lemma {:induction false} QueueDistinct(rows: seq<Row>, u: UserId)
    requires Distinct(rows)
    ensures Distinct(QueueOf(rows, u))
  {
    if rows != [] {
      var init := rows[..|rows| - 1];
      QueueDistinct(init, u);
      InQueue(init, u);
      assert rows[|rows| - 1] !in init;
    }
  }

  // First come, first served within a user: if a task is started, so is every waiting task of
  // the same user that was submitted before it.
  lemma PassIsFifo(db: Db, inFlight: map<string, int>, ids: seq<nat>, names: seq<string>, k: nat, t: nat)
    requires ClaimQuery(db, ids) && HealthyQuery(db.nodes, names)
    requires k < |Assignments(db, inFlight, ids, names)|
    requires t < |db.tasks| && Waiting(db, t)
    ensures var s := Assignments(db, inFlight, ids, names)[k].task;
            && s < |db.tasks| && Waiting(db, s)
            && (db.batches[db.tasks[t].batch].user == db.batches[db.tasks[s].batch].user && Before(db, t, s) ==>
                  exists l :: 0 <= l < |Assignments(db, inFlight, ids, names)|
                              && Assignments(db, inFlight, ids, names)[l].task == t)
  {
    var rows, capacity := ClaimRows(db, ids), Sum(names, FreeOn(db.nodes, inFlight));
    var flights := Assignments(db, inFlight, ids, names);
    var claimed := PassClaims(db, inFlight, ids, names);
    var s := flights[k].task;
    var j :| 0 <= j < |rows| && rows[j] == claimed[k];
    assert ids[j] == s && Claimable(db, s);
    var u := db.batches[db.tasks[s].batch].user;
    if db.batches[db.tasks[t].batch].user == u && Before(db, t, s) {
      var l := EarlierStarted(db, ids, capacity, claimed, k, j, t);
      assert flights[l].task == t;
    }
  }

  lemma EarlierStarted(db: Db, ids: seq<nat>, capacity: nat, claimed: seq<Row>, k: nat, j: nat, t: nat) returns (l: nat)
    requires ClaimQuery(db, ids) && FairClaim(ClaimRows(db, ids), capacity, claimed)
    requires k < |claimed| && j < |ids| && ClaimRows(db, ids)[j] == claimed[k]
    requires t < |db.tasks| && Waiting(db, t) && Before(db, t, ids[j])
    requires db.batches[db.tasks[t].batch].user == db.batches[db.tasks[ids[j]].batch].user
    ensures l < |claimed| && claimed[l].task == t
  {
    var rows := ClaimRows(db, ids);
    assert Claimable(db, t);
    var i :| 0 <= i < |ids| && ids[i] == t;
    assert j < i ==> InClaimOrder(db, ids[j], ids[i]);
    assert rows[i].user == rows[j].user && Distinct(rows);
    EarlierInQueue(rows, i, j);
    var queue := QueueOf(rows, rows[j].user);
    var a, b :| 0 <= a < b < |queue| && queue[a] == rows[i] && queue[b] == rows[j];
    l := StartedBefore(rows, capacity, claimed, rows[j].user, k, a, b);
  }

  lemma StartedBefore(rows: seq<Row>, capacity: nat, claimed: seq<Row>, u: UserId, k: nat, a: nat, b: nat) returns (l: nat)
    requires Distinct(rows) && FairClaim(rows, capacity, claimed)
    requires a < b < |QueueOf(rows, u)| && k < |claimed| && claimed[k] == QueueOf(rows, u)[b]
    ensures l < |claimed| && claimed[l] == QueueOf(rows, u)[a]
  {
    var queue, got := QueueOf(rows, u), QueueOf(claimed, u);
    QueueUsers(rows, u);
    assert queue[b] in queue;
    ClaimedPrefix(rows, capacity, claimed, u);
    InOwnQueue(claimed, k);
    assert claimed[k].user == u;
    var c :| 0 <= c < |got| && got[c] == claimed[k];
    QueueDistinct(rows, u);
    assert queue[c] == queue[b] && c == b;
    assert got[a] == queue[a];
    InQueue(claimed, u);
    assert got[a] in claimed;
    l :| 0 <= l < |claimed| && claimed[l] == got[a];
  }

  // --- What a pass does to the tables. ---

  ghost predicate StartedBy(tasks: seq<Task>, tasks': seq<Task>, f: Flight, now: Time) {
    && f.task < |tasks| == |tasks'| && f.phase == EXECUTING
    && tasks[f.task].status == PENDING && tasks'[f.task].status == RUNNING
    && tasks'[f.task].node == Some(f.node) && tasks'[f.task].startedAt == Some(now)
    && tasks'[f.task].attempts == tasks[f.task].attempts + 1
  }

  // A pass starts as many waiting tasks as there are free slots, each on a healthy node and
  // none twice, and no other row changes.
  lemma {:induction false} PassEffect(s: Sys, ids: seq<nat>, names: seq<string>, now: Time)
    requires ClaimQuery(s.db, ids) && HealthyQuery(s.db.nodes, names)
    ensures var flights, s' := Assignments(s.db, s.inFlight, ids, names), PassStarted(s, ids, names, now);
            && |flights| == Min(Sum(names, FreeOn(s.db.nodes, s.inFlight)), |ids|)
            && (flights == [] ==> s' == s) && (flights != [] ==> s'.flights == flights)
            && s'.db == s.db.(tasks := s'.db.tasks) && |s'.db.tasks| == |s.db.tasks|
            && DistinctTasks(flights)
            && (forall k :: 0 <= k < |flights| ==>
                              && flights[k].node in s.db.nodes && s.db.nodes[flights[k].node].health == HEALTHY
                              && StartedBy(s.db.tasks, s'.db.tasks, flights[k], now))
            && (forall t :: 0 <= t < |s.db.tasks| && (forall k :: 0 <= k < |flights| ==> flights[k].task != t) ==>
                              s'.db.tasks[t] == s.db.tasks[t])
  {
    CapacityIs(s.db.nodes, s.inFlight, names);
    AssignmentsSpec(s.db, s.inFlight, ids, names);
    var flights := Assignments(s.db, s.inFlight, ids, names);
    MarkStartedSpec(s.db.tasks, flights, now);
    forall k | 0 <= k < |flights|
      ensures StartedBy(s.db.tasks, MarkStarted(s.db.tasks, flights, now), flights[k], now)
    {
      assert Claimable(s.db, flights[k].task);
    }
  }
}
