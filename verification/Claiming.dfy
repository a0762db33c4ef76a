// Fair-share claiming (dispatcher._claim_tasks).
module Claiming {
  import opened Model
  import opened Sums

  // One row of the claim query: a pending task of an in-progress batch, and the batch's owner.
  datatype Row = Row(task: nat, user: UserId)

  // --- Grouping the query's rows by user. ---

  function QueueOf(rows: seq<Row>, u: UserId): seq<Row> {
    if rows == [] then []
    else
      var init := QueueOf(rows[..|rows| - 1], u);
      if rows[|rows| - 1].user == u then init + [rows[|rows| - 1]] else init
  }

  // Users by first appearance.
  function UserOrder(rows: seq<Row>): seq<UserId> {
    if rows == [] then []
    else
      var init := UserOrder(rows[..|rows| - 1]);
      if rows[|rows| - 1].user in init then init else init + [rows[|rows| - 1].user]
  }

  function Queues(rows: seq<Row>, order: seq<UserId>): (queues: seq<seq<Row>>)
    ensures |queues| == |order| && forall i :: 0 <= i < |order| ==> queues[i] == QueueOf(rows, order[i])
  {
    seq(|order|, i requires 0 <= i < |order| => QueueOf(rows, order[i]))
  }

  // --- The schedule: round k serves the k-th task of every user that has one. ---

  // The part of round k that the first j users get.
  function Round(queues: seq<seq<Row>>, k: nat, j: nat): seq<Row>
    requires j <= |queues|
  {
    if j == 0 then []
    else Round(queues, k, j - 1) + if k < |queues[j - 1]| then [queues[j - 1][k]] else []
  }

  function Rounds(queues: seq<seq<Row>>, k: nat): seq<Row> {
    if k == 0 then [] else Rounds(queues, k - 1) + Round(queues, k - 1, |queues|)
  }

  // Everything served when round k has reached user j.
  function Served(queues: seq<seq<Row>>, k: nat, j: nat): seq<Row>
    requires j <= |queues|
  {
    Rounds(queues, k) + Round(queues, k, j)
  }

  function Schedule(rows: seq<Row>): seq<Row> {
    Rounds(Queues(rows, UserOrder(rows)), |rows|)
  }

  // The whole schedule, cut off at the limit.
  function Claim(rows: seq<Row>, limit: int): seq<Row> {
    if limit <= 0 then []
    else if limit >= |Schedule(rows)| then Schedule(rows)
    else Schedule(rows)[..limit]
  }

  function Drop<T>(q: seq<T>, k: nat): seq<T> { if k <= |q| then q[k..] else [] }

  function Take<T>(q: seq<T>, k: nat): seq<T> { if k <= |q| then q[..k] else q }

  // --- Facts about grouping. ---

  ghost predicate Distinct<T>(s: seq<T>) {
    forall i, j :: 0 <= i < j < |s| ==> s[i] != s[j]
  }

  function Elements<T>(a: seq<T>): set<T> { set x | x in a }

  lemma {:induction false} DistinctMultiset<T>(a: seq<T>)
    requires Distinct(a)
    ensures multiset(a) == multiset(Elements(a)) && |Elements(a)| == |a|
  {
    if a != [] {
      var init, x := a[..|a| - 1], a[|a| - 1];
      DistinctMultiset(init);
      assert a == init + [x];
      assert x !in init;
      assert Elements(a) == Elements(init) + {x};
    }
  }

  // Queue i holds rows of user i only.
  ghost predicate Grouped(queues: seq<seq<Row>>, order: seq<UserId>) {
    && |queues| == |order|
    && Distinct(order)
    && forall i, x :: 0 <= i < |queues| && x in queues[i] ==> x.user == order[i]
  }

  lemma {:induction false} UserOrderSpec(rows: seq<Row>)
    ensures forall i :: 0 <= i < |rows| ==> rows[i].user in UserOrder(rows)
    ensures Distinct(UserOrder(rows))
    ensures forall u :: u in UserOrder(rows) ==> QueueOf(rows, u) != []
  {
    if rows != [] { UserOrderSpec(rows[..|rows| - 1]); }
  }

  // User v has a row before the first row of user w.
  ghost predicate SeenBefore(rows: seq<Row>, v: UserId, w: UserId) {
    exists r :: 0 <= r < |rows| && rows[r].user == v && forall s :: 0 <= s <= r ==> rows[s].user != w
  }

  // Users take turns in the order in which their first tasks appear.
  lemma {:induction false} OrderOfAppearance(rows: seq<Row>, i: nat, j: nat)
    requires i < j < |UserOrder(rows)|
    ensures SeenBefore(rows, UserOrder(rows)[i], UserOrder(rows)[j])
  {
    var init := rows[..|rows| - 1];
    var order := UserOrder(init);
    if j < |order| {
      OrderOfAppearance(init, i, j);
      var r :| 0 <= r < |init| && init[r].user == order[i] && forall s :: 0 <= s <= r ==> init[s].user != order[j];
      assert rows[r].user == order[i] && forall s :: 0 <= s <= r ==> rows[s] == init[s];
    } else {
      UserOrderSpec(init);
      FirstRow(init, order[i]);
      var r :| 0 <= r < |init| && init[r].user == order[i];
      assert rows[r].user == order[i];
      forall s | 0 <= s <= r ensures rows[s].user != UserOrder(rows)[j] { assert rows[s] == init[s] && init[s].user in order; }
    }
  }

  lemma {:induction false} FirstRow(rows: seq<Row>, u: UserId)
    requires u in UserOrder(rows)
    ensures exists r :: 0 <= r < |rows| && rows[r].user == u
  {
    var n := |rows| - 1;
    if rows[n].user != u {
      FirstRow(rows[..n], u);
      var r :| 0 <= r < n && rows[..n][r].user == u;
      assert rows[r].user == u;
    }
  }

  lemma {:induction false} QueueConcat(a: seq<Row>, b: seq<Row>, u: UserId)
    ensures QueueOf(a + b, u) == QueueOf(a, u) + QueueOf(b, u)
  {
    if b == [] {
      assert a + b == a;
    } else {
      assert (a + b)[..|a + b| - 1] == a + b[..|b| - 1];
      QueueConcat(a, b[..|b| - 1], u);
    }
  }

  lemma {:induction false} QueueUsers(rows: seq<Row>, u: UserId)
    ensures forall x :: x in QueueOf(rows, u) ==> x.user == u
    ensures |QueueOf(rows, u)| <= |rows|
  {
    if rows != [] { QueueUsers(rows[..|rows| - 1], u); }
  }

  lemma {:induction false} QueuesGrouped(rows: seq<Row>)
    ensures Grouped(Queues(rows, UserOrder(rows)), UserOrder(rows))
  {
    var order := UserOrder(rows);
    UserOrderSpec(rows);
    forall i, x | 0 <= i < |order| && x in Queues(rows, order)[i] ensures x.user == order[i] {
      QueueUsers(rows, order[i]);
    }
  }

  lemma {:induction false} NoQueue(rows: seq<Row>, u: UserId)
    requires forall x :: x in rows ==> x.user != u
    ensures QueueOf(rows, u) == []
  {
    if rows != [] { NoQueue(rows[..|rows| - 1], u); }
  }

  lemma {:induction false} QueueCount(rows: seq<Row>, x: Row)
    ensures multiset(rows)[x] == multiset(QueueOf(rows, x.user))[x]
  {
    if rows != [] {
      QueueCount(rows[..|rows| - 1], x);
      assert rows == rows[..|rows| - 1] + [rows[|rows| - 1]];
    }
  }

  function QueueLength(rows: seq<Row>): UserId -> int { (u: UserId) => |QueueOf(rows, u)| }

  // Rows are counted once each, user by user.
  lemma {:induction false} LengthByUser(rows: seq<Row>, order: seq<UserId>)
    requires Distinct(order)
    requires forall x :: x in rows ==> x.user in order
    ensures |rows| == Sum(order, QueueLength(rows))
  {
    if rows == [] {
      SumZero(order, QueueLength(rows));
    } else {
      var init, x := rows[..|rows| - 1], rows[|rows| - 1];
      LengthByUser(init, order);
      var one := (u: UserId) => if u == x.user then 1 else 0;
      SumLinear(order, QueueLength(rows), order, QueueLength(init), order, one);
      SumOfOne(order, x.user, one);
    }
  }

  lemma {:induction false} SumOfOne(order: seq<UserId>, u: UserId, one: UserId -> int)
    requires Distinct(order)
    requires forall v :: one(v) == if v == u then 1 else 0
    ensures Sum(order, one) == if u in order then 1 else 0
  {
    if order != [] {
      var n := |order| - 1;
      assert order == order[..n] + [order[n]];
      SumOfOne(order[..n], u, one);
    }
  }

  // --- What each user has been served. ---

  lemma {:induction false} RoundQueue(queues: seq<seq<Row>>, order: seq<UserId>, k: nat, j: nat, i: nat, q: seq<Row>)
    requires Grouped(queues, order) && j <= |order| && i < |order|
    requires q == QueueOf(Round(queues, k, j), order[i])
    ensures q == if i < j && k < |queues[i]| then [queues[i][k]] else []
  {
    if j > 0 {
      var before := Round(queues, k, j - 1);
      var served := if k < |queues[j - 1]| then [queues[j - 1][k]] else [];
      RoundQueue(queues, order, k, j - 1, i, QueueOf(before, order[i]));
      ServedOne(before, queues, order, k, j - 1, i, served);
      assert q == QueueOf(before + served, order[i]);
    }
  }

  // What serving user j, as far as its queue reaches, adds to user i's share.
  lemma ServedOne(before: seq<Row>, queues: seq<seq<Row>>, order: seq<UserId>, k: nat, j: nat, i: nat, served: seq<Row>)
    requires Grouped(queues, order) && j < |order| && i < |order|
    requires served == if k < |queues[j]| then [queues[j][k]] else []
    ensures QueueOf(before + served, order[i]) == QueueOf(before, order[i]) + if i == j then served else []
  {
    if k < |queues[j]| {
      QueueAppend(before, queues[j][k], order[i]);
      OwnerOf(queues, order, j, k, i);
    } else {
      AppendNothing(before, []);
    }
  }

  lemma {:induction false} QueueAppend(rows: seq<Row>, x: Row, u: UserId)
    ensures QueueOf(rows + [x], u) == QueueOf(rows, u) + if x.user == u then [x] else []
  {
    assert (rows + [x])[..|rows|] == rows;
  }

  lemma OwnerOf(queues: seq<seq<Row>>, order: seq<UserId>, j: nat, k: nat, i: nat)
    requires Grouped(queues, order) && i < |order| && j < |order| && k < |queues[j]|
    ensures queues[j][k].user == order[i] <==> i == j
  {
    assert queues[j][k] in queues[j];
  }

  lemma {:induction false} RoundsQueue(queues: seq<seq<Row>>, order: seq<UserId>, k: nat, i: nat)
    requires Grouped(queues, order) && i < |order|
    ensures QueueOf(Rounds(queues, k), order[i]) == Take(queues[i], k)
  {
    if k > 0 {
      RoundsQueue(queues, order, k - 1, i);
      RoundQueue(queues, order, k - 1, |order|, i, QueueOf(Round(queues, k - 1, |order|), order[i]));
      OneMoreRound(Rounds(queues, k - 1), Round(queues, k - 1, |order|), order[i], queues[i], k - 1);
    }
  }

  lemma {:induction false} OneMoreRound(before: seq<Row>, round: seq<Row>, u: UserId, q: seq<Row>, k: nat)
    requires QueueOf(before, u) == Take(q, k)
    requires QueueOf(round, u) == if k < |q| then [q[k]] else []
    ensures QueueOf(before + round, u) == Take(q, k + 1)
  {
    QueueConcat(before, round, u);
  }

  lemma ServedQueue(queues: seq<seq<Row>>, order: seq<UserId>, k: nat, j: nat, i: nat)
    requires Grouped(queues, order) && j <= |order| && i < |order|
    ensures QueueOf(Served(queues, k, j), order[i]) == Take(queues[i], if i < j then k + 1 else k)
  {
    RoundsQueue(queues, order, k, i);
    RoundQueue(queues, order, k, j, i, QueueOf(Round(queues, k, j), order[i]));
    if i < j {
      OneMoreRound(Rounds(queues, k), Round(queues, k, j), order[i], queues[i], k);
    } else {
      QueueConcat(Rounds(queues, k), Round(queues, k, j), order[i]);
    }
  }

  lemma {:induction false} RoundUsers(queues: seq<seq<Row>>, order: seq<UserId>, k: nat, j: nat)
    requires Grouped(queues, order) && j <= |order|
    ensures forall x :: x in Round(queues, k, j) ==> x.user in order
  {
    if j > 0 { RoundUsers(queues, order, k, j - 1); }
  }

  lemma {:induction false} RoundsUsers(queues: seq<seq<Row>>, order: seq<UserId>, k: nat)
    requires Grouped(queues, order)
    ensures forall x :: x in Rounds(queues, k) ==> x.user in order
  {
    if k > 0 {
      RoundsUsers(queues, order, k - 1);
      RoundUsers(queues, order, k - 1, |order|);
    }
  }

  lemma {:induction false} ScheduleQueue(rows: seq<Row>, u: UserId)
    ensures QueueOf(Schedule(rows), u) == QueueOf(rows, u)
  {
    var order := UserOrder(rows);
    var queues := Queues(rows, order);
    UserOrderSpec(rows);
    QueuesGrouped(rows);
    QueueUsers(rows, u);
    if u in order {
      var i :| 0 <= i < |order| && order[i] == u;
      RoundsQueue(queues, order, |rows|, i);
    } else {
      RoundsUsers(queues, order, |rows|);
      NoQueue(Schedule(rows), u);
      NoQueue(rows, u);
    }
  }

  // The uncut schedule is a rearrangement of the query's rows.
  lemma ScheduleIsPermutation(rows: seq<Row>)
    ensures multiset(Schedule(rows)) == multiset(rows)
    ensures |Schedule(rows)| == |rows|
  {
    forall x: Row ensures multiset(Schedule(rows))[x] == multiset(rows)[x] {
      ScheduleQueue(rows, x.user);
      QueueCount(Schedule(rows), x);
      QueueCount(rows, x);
    }
    SameMultiset(Schedule(rows), rows);
  }

  lemma SameMultiset(a: seq<Row>, b: seq<Row>)
    requires forall x: Row :: multiset(a)[x] == multiset(b)[x]
    ensures multiset(a) == multiset(b) && |a| == |b|
  {
    assert multiset(a) == multiset(b);
    assert |multiset(a)| == |multiset(b)|;
  }

  // --- Every cut of the schedule is a whole number of rounds plus part of one. ---

  lemma {:induction false} RoundPrefix(queues: seq<seq<Row>>, k: nat, j: nat, j': nat)
    requires j <= j' <= |queues|
    ensures Round(queues, k, j) <= Round(queues, k, j')
  {
    if j < j' { RoundPrefix(queues, k, j, j' - 1); }
  }

  lemma {:induction false} ServedPrefix(queues: seq<seq<Row>>, k: nat, j: nat, n: nat)
    requires j <= |queues| && k < n
    ensures Served(queues, k, j) <= Rounds(queues, n)
  {
    if n == k + 1 {
      RoundPrefix(queues, k, j, |queues|);
    } else {
      ServedPrefix(queues, k, j, n - 1);
    }
  }

  lemma {:induction false} CutInRound(queues: seq<seq<Row>>, k: nat, m: nat, n: nat) returns (j: nat)
    requires n <= |queues| && m <= |Round(queues, k, n)|
    ensures j <= n && |Round(queues, k, j)| == m
  {
    if m < |Round(queues, k, n)| {
      j := CutInRound(queues, k, m, n - 1);
    } else {
      j := n;
    }
  }

  lemma {:induction false} CutInSchedule(queues: seq<seq<Row>>, m: nat, n: nat) returns (k: nat, j: nat)
    requires m < |Rounds(queues, n)|
    ensures k < n && j <= |queues| && Served(queues, k, j) == Rounds(queues, n)[..m]
  {
    var before := Rounds(queues, n - 1);
    if m < |before| {
      k, j := CutInSchedule(queues, m, n - 1);
    } else {
      k := n - 1;
      j := CutInRound(queues, k, m - |before|, |queues|);
    }
    ServedPrefix(queues, k, j, n);
  }

  // --- Fairness. ---

  // A fair claim: min(limit, pending) tasks, none twice; each user's are the head of that
  // user's own queue; and all users are cut at one level k, the first j of them one task later.
  ghost predicate CutAt(rows: seq<Row>, limit: nat, claimed: seq<Row>, k: nat, j: nat) {
    && |claimed| == Min(limit, |rows|)
    && multiset(claimed) <= multiset(rows)
    && j <= |UserOrder(rows)|
    && (forall i :: 0 <= i < |UserOrder(rows)| ==>
                      QueueOf(claimed, UserOrder(rows)[i]) ==
                      Take(QueueOf(rows, UserOrder(rows)[i]), if i < j then k + 1 else k))
    && (limit >= |rows| ==> k == |rows|)
  }

  ghost predicate FairClaim(rows: seq<Row>, limit: nat, claimed: seq<Row>) {
    exists k: nat, j: nat :: CutAt(rows, limit, claimed, k, j)
  }

  // The round-robin schedule, cut off at the limit, is a fair claim.
  lemma FairShare(rows: seq<Row>, limit: nat) returns (k: nat, j: nat)
    ensures CutAt(rows, limit, Claim(rows, limit), k, j)
  {
    var order := UserOrder(rows);
    var queues := Queues(rows, order);
    QueuesGrouped(rows);
    ScheduleIsPermutation(rows);
    if limit >= |rows| {
      k, j := |rows|, 0;
      assert Claim(rows, limit) == Schedule(rows);
      forall i | 0 <= i < |order| ensures QueueOf(Schedule(rows), order[i]) == Take(queues[i], k) {
        RoundsQueue(queues, order, k, i);
      }
    } else {
      k, j := CutInSchedule(queues, limit, |rows|);
      ClaimIsCut(rows, limit);
      forall i | 0 <= i < |order|
        ensures QueueOf(Served(queues, k, j), order[i]) == Take(queues[i], if i < j then k + 1 else k)
      {
        ServedQueue(queues, order, k, j, i);
      }
    }
  }

  lemma ClaimIsCut(rows: seq<Row>, limit: nat)
    requires limit < |Schedule(rows)|
    ensures Claim(rows, limit) == Schedule(rows)[..limit]
    ensures multiset(Claim(rows, limit)) <= multiset(Schedule(rows))
  {
    var schedule := Schedule(rows);
    assert schedule == schedule[..limit] + schedule[limit..];
  }

  // Whoever is left with unclaimed tasks is at most one behind everybody else, and the
  // whole limit was used.
  lemma {:induction false} NobodyFallsBehind(rows: seq<Row>, limit: nat, claimed: seq<Row>, u: UserId, v: UserId)
    requires FairClaim(rows, limit, claimed)
    requires u in UserOrder(rows) && v in UserOrder(rows)
    requires |QueueOf(claimed, u)| < |QueueOf(rows, u)|
    ensures |QueueOf(claimed, v)| <= |QueueOf(claimed, u)| + 1
    ensures |claimed| == limit
  {
    var order := UserOrder(rows);
    var k: nat, j: nat :| CutAt(rows, limit, claimed, k, j);
    var a :| 0 <= a < |order| && order[a] == u;
    var b :| 0 <= b < |order| && order[b] == v;
    assert QueueOf(claimed, order[a]) == Take(QueueOf(rows, order[a]), if a < j then k + 1 else k);
    assert QueueOf(claimed, order[b]) == Take(QueueOf(rows, order[b]), if b < j then k + 1 else k);
    QueueUsers(rows, u);
  }

  // The claims add up over the users.
  lemma {:induction false} ClaimsAddUp(rows: seq<Row>, claimed: seq<Row>)
    requires multiset(claimed) <= multiset(rows)
    ensures |claimed| == Sum(UserOrder(rows), QueueLength(claimed))
  {
    UserOrderSpec(rows);
    forall x | x in claimed ensures x.user in UserOrder(rows) {
      assert x in multiset(claimed);
      assert x in multiset(rows);
    }
    LengthByUser(claimed, UserOrder(rows));
  }

  // Max-min fairness, up to the one task that cannot be split: an allocation can only give
  // a user more by taking from one who has at most one more than that user.
  lemma MaxMinFair(rows: seq<Row>, limit: nat, claimed: seq<Row>, alloc: UserId -> int, u: UserId) returns (v: UserId)
    requires FairClaim(rows, limit, claimed)
    requires forall w :: w in UserOrder(rows) ==> 0 <= alloc(w) <= |QueueOf(rows, w)|
    requires Sum(UserOrder(rows), alloc) <= limit
    requires u in UserOrder(rows) && alloc(u) > |QueueOf(claimed, u)|
    ensures v in UserOrder(rows)
    ensures alloc(v) < |QueueOf(claimed, v)| <= |QueueOf(claimed, u)| + 1
  {
    var order := UserOrder(rows);
    var got := QueueLength(claimed);
    NobodyFallsBehind(rows, limit, claimed, u, u);
    ClaimsAddUp(rows, claimed);
    if forall w :: w in order ==> alloc(w) >= got(w) {
      UserOrderSpec(rows);
      var one := (w: UserId) => if w == u then 1 else 0;
      var less := (w: UserId) => alloc(w) - one(w);
      SumMonotone(order, got, order, less);
      SumLinear(order, alloc, order, less, order, one);
      SumOfOne(order, u, one);
    }
    v :| v in order && alloc(v) < got(v);
    NobodyFallsBehind(rows, limit, claimed, u, v);
  }

  lemma {:induction false} SumOfConstant<T>(s: seq<T>, c: int, f: T -> int)
    requires forall x :: f(x) == c
    ensures Sum(s, f) == |s| * c
  {
    if s != [] { SumOfConstant(s[..|s| - 1], c, f); }
  }

  // Nobody gets less than an equal share of the limit, unless they have fewer tasks than that.
  lemma {:induction false} EqualShareGuaranteed(rows: seq<Row>, limit: nat, claimed: seq<Row>, u: UserId)
    requires FairClaim(rows, limit, claimed) && u in UserOrder(rows)
    ensures |QueueOf(claimed, u)| >= Min(|QueueOf(rows, u)|, limit / |UserOrder(rows)|)
  {
    var order := UserOrder(rows);
    var share := limit / |order|;
    if |QueueOf(claimed, u)| < Min(|QueueOf(rows, u)|, share) {
      var got := QueueLength(claimed);
      forall v | v in order ensures got(v) <= share { NobodyFallsBehind(rows, limit, claimed, u, v); }
      NobodyFallsBehind(rows, limit, claimed, u, u);
      ClaimsAddUp(rows, claimed);
      UserOrderSpec(rows);
      SumBelowConstant(order, got, share, u);
      ShareFits(limit, |order|);
    }
  }

  // --- Across passes. ---

  // One pass: what the query returned and what was claimed of it.
  datatype Pass = Pass(rows: seq<Row>, limit: nat, claimed: seq<Row>)

  // Every pass is fair and has at least the given share per user, and between passes user u's
  // queue only loses what was claimed and grows at the end, whatever anybody submits.
  ghost predicate FairPasses(passes: seq<Pass>, u: UserId, share: nat) {
    && (forall i :: 0 <= i < |passes| ==>
                      && FairClaim(passes[i].rows, passes[i].limit, passes[i].claimed)
                      && (u in UserOrder(passes[i].rows) ==> passes[i].limit / |UserOrder(passes[i].rows)| >= share))
    && (forall i :: 0 <= i < |passes| - 1 ==> LeftOver(passes[i], u) <= QueueOf(passes[i + 1].rows, u))
  }

  function LeftOver(pass: Pass, u: UserId): seq<Row> {
    Drop(QueueOf(pass.rows, u), |QueueOf(pass.claimed, u)|)
  }

  lemma {:induction false} ClaimedPrefix(rows: seq<Row>, limit: nat, claimed: seq<Row>, u: UserId)
    requires FairClaim(rows, limit, claimed)
    ensures |QueueOf(claimed, u)| <= |QueueOf(rows, u)| || u !in UserOrder(rows)
    ensures u in UserOrder(rows) ==> QueueOf(claimed, u) == QueueOf(rows, u)[..|QueueOf(claimed, u)|]
    ensures u !in UserOrder(rows) ==> QueueOf(rows, u) == []
  {
    if u in UserOrder(rows) {
      var k: nat, j: nat :| CutAt(rows, limit, claimed, k, j);
      var i :| 0 <= i < |UserOrder(rows)| && UserOrder(rows)[i] == u;
      assert QueueOf(claimed, u) == Take(QueueOf(rows, UserOrder(rows)[i]), if i < j then k + 1 else k);
    } else {
      UserOrderSpec(rows);
      NoQueue(rows, u);
    }
  }

  lemma {:induction false} InQueue(rows: seq<Row>, u: UserId)
    ensures forall x :: x in QueueOf(rows, u) ==> x in rows
  {
    if rows != [] { InQueue(rows[..|rows| - 1], u); }
  }

  // Nobody is starved.  With a share of at least f claims per pass, the first p tasks of a
  // user's queue have all been claimed after p/f passes, rounded up, whatever others submit.
  lemma {:induction false} BoundedWait(passes: seq<Pass>, u: UserId, share: nat, p: nat, x: Row)
    requires passes != [] && FairPasses(passes, u, share)
    requires p <= |QueueOf(passes[0].rows, u)| && p <= |passes| * share
    requires x in QueueOf(passes[0].rows, u)[..p]
    ensures exists i :: 0 <= i < |passes| && x in passes[i].claimed
  {
    if x !in passes[0].claimed {
      var g := StillWaiting(passes[0], u, share, p, x);
      WaitShrinks(|passes|, share, p, g);
      RestIsFair(passes, u, share);
      StillQueued(LeftOver(passes[0], u), QueueOf(passes[1].rows, u), p - g, x);
      BoundedWait(passes[1..], u, share, p - g, x);
      var i :| 0 <= i < |passes[1..]| && x in passes[1..][i].claimed;
      assert passes[i + 1] == passes[1..][i];
    }
  }

  // Whoever is not claimed yet has moved up by the whole share.
  lemma StillWaiting(pass: Pass, u: UserId, share: nat, p: nat, x: Row) returns (g: nat)
    requires FairClaim(pass.rows, pass.limit, pass.claimed)
    requires u in UserOrder(pass.rows) ==> pass.limit / |UserOrder(pass.rows)| >= share
    requires p <= |QueueOf(pass.rows, u)| && x in QueueOf(pass.rows, u)[..p] && x !in pass.claimed
    ensures share <= g < p && p - g <= |LeftOver(pass, u)| && x in LeftOver(pass, u)[..p - g]
  {
    var queue, got := QueueOf(pass.rows, u), QueueOf(pass.claimed, u);
    g := |got|;
    ClaimedPrefix(pass.rows, pass.limit, pass.claimed, u);
    EqualShareGuaranteed(pass.rows, pass.limit, pass.claimed, u);
    InQueue(pass.claimed, u);
    var at :| 0 <= at < p && queue[at] == x;
    forall k | 0 <= k < g ensures queue[k] in pass.claimed { assert got[k] == queue[k]; }
    assert LeftOver(pass, u)[at - g] == x;
  }

  lemma StillQueued(before: seq<Row>, after: seq<Row>, p: nat, x: Row)
    requires before <= after && p <= |before| && x in before[..p]
    ensures p <= |after| && x in after[..p]
  {
    assert after[..p] == before[..p];
  }

  lemma WaitShrinks(n: nat, share: nat, p: nat, g: nat)
    requires share <= g < p <= n * share
    ensures n > 1 && p - g <= (n - 1) * share
  {
    assert n * share == (n - 1) * share + share;
  }

  lemma RestIsFair(passes: seq<Pass>, u: UserId, share: nat)
    requires |passes| > 1 && FairPasses(passes, u, share)
    ensures FairPasses(passes[1..], u, share)
  {
    forall i | 0 <= i < |passes[1..]| - 1 ensures LeftOver(passes[1..][i], u) <= QueueOf(passes[1..][i + 1].rows, u) {
      assert passes[1..][i] == passes[i + 1] && passes[1..][i + 1] == passes[i + 2];
    }
  }

  lemma ShareFits(limit: nat, n: nat)
    requires n > 0
    ensures n * (limit / n) <= limit
  {
    assert limit == n * (limit / n) + limit % n;
  }

  lemma {:induction false} SumBelowConstant(order: seq<UserId>, f: UserId -> int, c: int, u: UserId)
    requires Distinct(order) && u in order && f(u) < c
    requires forall v :: v in order ==> f(v) <= c
    ensures Sum(order, f) < |order| * c
  {
    var one := (w: UserId) => if w == u then 1 else 0;
    var all := (w: UserId) => c;
    var less := (w: UserId) => c - one(w);
    SumMonotone(order, f, order, less);
    SumLinear(order, all, order, less, order, one);
    SumOfOne(order, u, one);
    SumOfConstant(order, c, all);
  }

  // --- The claim loop. ---

  // The first half of _claim_tasks: one deque per user, and the users by first appearance.
  method GroupByUser(rows: seq<Row>) returns (byUser: map<UserId, seq<Row>>, userOrder: seq<UserId>)
    ensures userOrder == UserOrder(rows)
    ensures Remaining(Queues(rows, userOrder), userOrder, byUser, 0, 0)
  {
    byUser, userOrder := map[], [];
    for r := 0 to |rows|
      invariant userOrder == UserOrder(rows[..r])
      invariant forall u :: u in byUser <==> u in userOrder
      invariant forall u :: u in byUser ==> byUser[u] == QueueOf(rows[..r], u)
      invariant forall u :: u !in byUser ==> QueueOf(rows[..r], u) == []
    {
      assert rows[..r + 1][..r] == rows[..r];
      var u := rows[r].user;
      if u !in byUser {
        userOrder := userOrder + [u];
        byUser := byUser[u := []];
      }
      byUser := byUser[u := byUser[u] + [rows[r]]];
    }
    assert rows[..|rows|] == rows;
  }

  // After round k has served the first j users, this much of every queue is left.
  ghost predicate Remaining(queues: seq<seq<Row>>, order: seq<UserId>, byUser: map<UserId, seq<Row>>, k: nat, j: nat) {
    && |queues| == |order|
    && forall i :: 0 <= i < |order| ==>
                     order[i] in byUser && byUser[order[i]] == Drop(queues[i], if i < j then k + 1 else k)
  }

  // _claim_tasks, given the answer of its query.
  method ClaimTasks(rows: seq<Row>, limit: int) returns (claimed: seq<Row>)
    ensures claimed == Claim(rows, limit)
    ensures FairClaim(rows, Max(0, limit), claimed)
  {
    var _, _ := FairShare(rows, Max(0, limit));
    if limit <= 0 { return []; }
    if rows == [] { return []; }

    var byUser, userOrder := GroupByUser(rows);
    ghost var queues := Queues(rows, userOrder);
    ghost var k: nat, j: nat := 0, 0;
    claimed := [];
    LoopStarts(rows, byUser, limit);
    while |claimed| < limit && AnyLeft(userOrder, byUser)
      invariant InLoop(queues, userOrder, byUser, claimed, limit, k, j)
      decreases limit - |claimed|
    {
      ghost var before, taken := byUser, claimed;
      byUser, claimed, j := ServeRound(queues, userOrder, byUser, claimed, limit, k);
      k, j := RoundDone(queues, userOrder, before, byUser, taken, claimed, limit, k, j);
    }
    LoopResult(rows, limit, byUser, claimed, k, j);
  }

  // Between rounds, or stopped at the limit within round k.
  ghost predicate InLoop(queues: seq<seq<Row>>, order: seq<UserId>, byUser: map<UserId, seq<Row>>, claimed: seq<Row>,
                         limit: nat, k: nat, j: nat) {
    && Distinct(order) && Remaining(queues, order, byUser, k, j)
    && j <= |order| && claimed == Served(queues, k, j)
    && |claimed| <= limit && (|claimed| < limit ==> j == 0)
  }

  lemma {:induction false} LoopStarts(rows: seq<Row>, byUser: map<UserId, seq<Row>>, limit: nat)
    requires Remaining(Queues(rows, UserOrder(rows)), UserOrder(rows), byUser, 0, 0)
    ensures InLoop(Queues(rows, UserOrder(rows)), UserOrder(rows), byUser, [], limit, 0, 0)
  {
    UserOrderSpec(rows);
  }

  // A round was served in full or up to the limit; either way somebody was served.
  lemma RoundDone(queues: seq<seq<Row>>, order: seq<UserId>, byUser0: map<UserId, seq<Row>>,
                  byUser: map<UserId, seq<Row>>, claimed0: seq<Row>, claimed: seq<Row>, limit: nat, k: nat, j: nat)
    returns (k': nat, j': nat)
    requires InLoop(queues, order, byUser0, claimed0, limit, k, 0) && |claimed0| < limit && AnyLeft(order, byUser0)
    requires j <= |order| && Remaining(queues, order, byUser, k, j)
    requires claimed == Served(queues, k, j) && |claimed| <= limit && (j < |order| ==> |claimed| == limit)
    ensures InLoop(queues, order, byUser, claimed, limit, k', j') && |claimed| > |claimed0|
  {
    k', j' := k, j;
    if j == |order| {
      RoundServes(queues, order, byUser0, k);
      RemainingNext(queues, order, byUser, k);
      k', j' := k + 1, 0;
    }
  }

  predicate AnyLeft(order: seq<UserId>, byUser: map<UserId, seq<Row>>)
    requires forall i :: 0 <= i < |order| ==> order[i] in byUser
  {
    exists i :: 0 <= i < |order| && byUser[order[i]] != []
  }

  // The for loop over user_order inside the claim loop: one task for every user that still
  // has one, until the limit.
  method ServeRound(ghost queues: seq<seq<Row>>, userOrder: seq<UserId>, byUser0: map<UserId, seq<Row>>,
                    claimed0: seq<Row>, limit: nat, ghost k: nat)
    returns (byUser: map<UserId, seq<Row>>, claimed: seq<Row>, ghost j: nat)
    requires InLoop(queues, userOrder, byUser0, claimed0, limit, k, 0)
    ensures j <= |userOrder| && Remaining(queues, userOrder, byUser, k, j)
    ensures claimed == Served(queues, k, j) && |claimed| <= limit
    ensures j < |userOrder| ==> |claimed| == limit
  {
    byUser, claimed, j := byUser0, claimed0, 0;
    var i := 0;
    while i < |userOrder|
      invariant 0 <= i <= |userOrder| && j == i
      invariant claimed == Served(queues, k, i) && |claimed| <= limit
      invariant Remaining(queues, userOrder, byUser, k, i)
    {
      if |claimed| >= limit { break; }
      var u := userOrder[i];
      RemainingStep(queues, userOrder, byUser, k, i);
      if byUser[u] != [] {
        claimed := claimed + [byUser[u][0]];
        byUser := byUser[u := byUser[u][1..]];
      }
      i, j := i + 1, j + 1;
    }
  }

  lemma DropNext(q: seq<Row>, k: nat)
    ensures Drop(q, k) == [] <==> |q| <= k
    ensures if |q| <= k then Drop(q, k + 1) == [] else Drop(q, k)[0] == q[k] && Drop(q, k)[1..] == Drop(q, k + 1)
  {
  }

  lemma RemainingStep(queues: seq<seq<Row>>, order: seq<UserId>, byUser: map<UserId, seq<Row>>, k: nat, i: nat)
    requires Distinct(order) && i < |order| && Remaining(queues, order, byUser, k, i)
    ensures byUser[order[i]] == [] <==> |queues[i]| <= k
    ensures byUser[order[i]] == [] ==> Remaining(queues, order, byUser, k, i + 1)
    ensures byUser[order[i]] != [] ==>
              && byUser[order[i]][0] == queues[i][k]
              && Remaining(queues, order, byUser[order[i] := byUser[order[i]][1..]], k, i + 1)
  {
    DropNext(queues[i], k);
    if byUser[order[i]] != [] {
      var byUser' := byUser[order[i] := byUser[order[i]][1..]];
      forall m | 0 <= m < |order|
        ensures order[m] in byUser' && byUser'[order[m]] == Drop(queues[m], if m < i + 1 then k + 1 else k)
      {
        assert m != i ==> order[m] != order[i];
      }
    }
  }

  lemma RemainingNext(queues: seq<seq<Row>>, order: seq<UserId>, byUser: map<UserId, seq<Row>>, k: nat)
    requires Remaining(queues, order, byUser, k, |order|)
    ensures Remaining(queues, order, byUser, k + 1, 0)
  {
  }

  // A round in which somebody is still owed a task serves someone.
  lemma {:induction false} RoundServes(queues: seq<seq<Row>>, order: seq<UserId>, byUser: map<UserId, seq<Row>>, k: nat)
    requires Remaining(queues, order, byUser, k, 0) && AnyLeft(order, byUser)
    ensures Round(queues, k, |order|) != []
  {
    var i :| 0 <= i < |order| && byUser[order[i]] != [];
    RoundPrefix(queues, k, i + 1, |order|);
  }

  // Stopping at the limit, or with every queue empty, leaves exactly the cut schedule.
  lemma {:induction false} LoopResult(rows: seq<Row>, limit: nat, byUser: map<UserId, seq<Row>>, claimed: seq<Row>, k: nat, j: nat)
    requires InLoop(Queues(rows, UserOrder(rows)), UserOrder(rows), byUser, claimed, limit, k, j)
    requires |claimed| == limit || !AnyLeft(UserOrder(rows), byUser)
    ensures claimed == Claim(rows, limit)
  {
    var order := UserOrder(rows);
    var queues := Queues(rows, order);
    ScheduleIsPermutation(rows);
    FinishedQueues(rows);
    if |claimed| < limit { NothingLeft(queues, order, byUser, k); }
    CutSchedule(queues, |rows|, k, j, limit, claimed, Schedule(rows));
  }

  lemma NothingLeft(queues: seq<seq<Row>>, order: seq<UserId>, byUser: map<UserId, seq<Row>>, k: nat)
    requires Remaining(queues, order, byUser, k, 0) && !AnyLeft(order, byUser)
    ensures AllServed(queues, k)
  {
    forall i | 0 <= i < |order| ensures |queues[i]| <= k {
      assert byUser[order[i]] == Drop(queues[i], k);
    }
  }

  // What has been served is the whole schedule, or its first part up to the limit.
  lemma {:induction false} CutSchedule(queues: seq<seq<Row>>, m: nat, k: nat, j: nat, limit: nat, claimed: seq<Row>, schedule: seq<Row>)
    requires j <= |queues| && claimed == Served(queues, k, j) && |claimed| <= limit
    requires AllServed(queues, m) && schedule == Rounds(queues, m)
    requires |claimed| < limit ==> j == 0 && AllServed(queues, k)
    ensures claimed <= schedule
    ensures |claimed| < limit ==> claimed == schedule
  {
    var n := Max(k + 1, m);
    IdleRounds(queues, m, n, Rounds(queues, m));
    ServedPrefix(queues, k, j, n);
    if |Served(queues, k, j)| < limit { IdleRounds(queues, k, n, Rounds(queues, k)); }
  }

  lemma {:induction false} FinishedQueues(rows: seq<Row>)
    ensures AllServed(Queues(rows, UserOrder(rows)), |rows|)
  {
    forall i | 0 <= i < |UserOrder(rows)| ensures |Queues(rows, UserOrder(rows))[i]| <= |rows| {
      QueueUsers(rows, UserOrder(rows)[i]);
    }
  }

  lemma AppendNothing<T>(a: seq<T>, b: seq<T>)
    requires b == []
    ensures a + b == a
  {
  }

  ghost predicate AllServed(queues: seq<seq<Row>>, k: nat) {
    forall i :: 0 <= i < |queues| ==> |queues[i]| <= k
  }

  // Rounds after everybody has been served are empty.
  lemma {:induction false} IdleRounds(queues: seq<seq<Row>>, k: nat, n: nat, served: seq<Row>)
    requires k <= n && AllServed(queues, k) && served == Rounds(queues, k)
    ensures Rounds(queues, n) == served
  {
    if k < n {
      IdleRounds(queues, k, n - 1, served);
      IdleRound(queues, k, n - 1, |queues|);
      AppendNothing(Rounds(queues, n - 1), Round(queues, n - 1, |queues|));
    }
  }

  lemma {:induction false} IdleRound(queues: seq<seq<Row>>, k: nat, r: nat, j: nat)
    requires j <= |queues| && k <= r && AllServed(queues, k)
    ensures Round(queues, r, j) == []
  {
    if j > 0 { IdleRound(queues, k, r, j - 1); }
  }
}
