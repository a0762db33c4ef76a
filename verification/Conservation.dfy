// Budgets against the reservations of live tasks: how far the two can drift apart, and when
// they do not.
module Conservation {
  import opened Model
  import opened Sums
  import opened Ledger
  import opened Parsing
  import opened BatchOps
  import opened Structure

  // What user u's live task t holds.
  function HeldByUser(batches: seq<Batch>, u: UserId): Task -> int {
    (t: Task) => if t.Live() && OwnedBy(batches, t.batch, u) then t.reserved else 0
  }

  // The reservations of all of user u's pending and running tasks.
  function Hold(db: Db, u: UserId): int { Sum(db.tasks, HeldByUser(db.batches, u)) }

  ghost predicate SameOwners(batches: seq<Batch>, batches': seq<Batch>) {
    && |batches| <= |batches'|
    && forall b :: 0 <= b < |batches| ==> batches'[b].user == batches[b].user
  }

  ghost predicate SameLiveness(tasks: seq<Task>, tasks': seq<Task>) {
    && SameRows(tasks, tasks')
    && forall i :: 0 <= i < |tasks| ==> (tasks'[i].Live() <==> tasks[i].Live())
  }

  lemma HoldKept(db: Db, db': Db, u: UserId)
    requires RowsOk(db.tasks, db.batches)
    requires SameLiveness(db.tasks, db'.tasks) && SameOwners(db.batches, db'.batches)
    ensures Hold(db', u) == Hold(db, u)
  {
    SumSame(db'.tasks, HeldByUser(db'.batches, u), db.tasks, HeldByUser(db.batches, u));
  }

  lemma HoldNonNegative(db: Db, u: UserId)
    ensures Hold(db, u) >= 0
  {
    SumNonNegative(db.tasks, HeldByUser(db.batches, u));
  }

  // --- How each operation moves what a user holds. ---

  lemma {:induction false} StoppedHold(tasks: seq<Task>, batches: seq<Batch>, batches': seq<Batch>, b: nat, now: Time, u: UserId)
    requires RowsOk(tasks, batches) && b < |batches| && SameOwners(batches, batches')
    ensures Sum(StopTasks(tasks, b, now), HeldByUser(batches', u)) ==
            Sum(tasks, HeldByUser(batches, u)) - if batches[b].user == u then Sum(tasks, HeldBy(b)) else 0
  {
    var mine := batches[b].user == u;
    var own := (t: Task) => if mine && t.batch == b && t.Live() then t.reserved else 0;
    forall i | 0 <= i < |tasks|
      ensures HeldByUser(batches, u)(tasks[i]) == HeldByUser(batches', u)(StopTasks(tasks, b, now)[i]) + own(tasks[i])
    {
      assert StopTasks(tasks, b, now)[i] == Stopped(tasks[i], b, now);
    }
    SumLinear(tasks, HeldByUser(batches, u), StopTasks(tasks, b, now), HeldByUser(batches', u), tasks, own);
    if mine {
      SumSame(tasks, own, tasks, HeldBy(b));
    } else {
      SumZero(tasks, own);
    }
  }

  lemma {:induction false} BatchHoldBounded(tasks: seq<Task>, batches: seq<Batch>, b: nat)
    requires b < |batches|
    ensures 0 <= Sum(tasks, HeldBy(b)) <= Sum(tasks, HeldByUser(batches, batches[b].user))
  {
    SumNonNegative(tasks, HeldBy(b));
    SumMonotone(tasks, HeldBy(b), tasks, HeldByUser(batches, batches[b].user));
  }

  lemma SettledHold(db: Db, t: nat, outcome: Outcome, alpha: real, now: Time, u: UserId)
    requires t < |db.tasks| && RowsOk(db.tasks, db.batches)
    ensures Hold(Settled(db, t, outcome, alpha, now), u) ==
            Hold(db, u) - HeldByUser(db.batches, u)(db.tasks[t])
  {
    SettledTables(db, t, outcome, alpha, now);
    var db' := Settled(db, t, outcome, alpha, now);
    SumUpdate(db.tasks, t, db'.tasks[t], HeldByUser(db.batches, u));
    SumSame(db'.tasks, HeldByUser(db'.batches, u), db'.tasks, HeldByUser(db.batches, u));
  }

  lemma {:induction false} NewTasksHold(lines: seq<ParsedLine>, batches: seq<Batch>, b: nat, u: UserId)
    requires b < |batches|
    ensures Sum(NewTasks(b, lines), HeldByUser(batches, u)) ==
            if batches[b].user == u then Sum(lines, LineReserved()) else 0
  {
    if lines != [] {
      var init, last := lines[..|lines| - 1], lines[|lines| - 1];
      assert NewTasks(b, lines) == NewTasks(b, init) + [NewTask(b, last)];
      SumAppend(NewTasks(b, init), NewTask(b, last), HeldByUser(batches, u));
      NewTasksHold(init, batches, b, u);
    }
  }

  lemma {:induction false} CreatedHold(db: Db, v: UserId, f: nat, window: string, lines: seq<ParsedLine>, now: Time, u: UserId)
    requires RowsOk(db.tasks, db.batches)
    requires Refusal(db, SubmitOp(db, v, lines)).None?
    ensures Hold(CreatedBatch(db, v, f, window, lines, now), u) ==
            Hold(db, u) + if v == u then Sum(lines, LineReserved()) else 0
  {
    CreatedTables(db, v, f, window, lines, now);
    var db' := CreatedBatch(db, v, f, window, lines, now);
    SumConcat(db.tasks, NewTasks(|db.batches|, lines), HeldByUser(db'.batches, u));
    SumSame(db.tasks, HeldByUser(db'.batches, u), db.tasks, HeldByUser(db.batches, u));
    NewTasksHold(lines, db'.batches, |db.batches|, u);
  }

  // --- How each operation moves a budget. ---

  lemma PostBudget(db: Db, e: Entry, u: UserId)
    ensures BudgetOf(Post(db, e), u) ==
            if u == e.user
            then Budget(BudgetOf(db, u).granted + e.granted, BudgetOf(db, u).reserved + e.reserved,
                        BudgetOf(db, u).used + e.used)
            else BudgetOf(db, u)
  {
  }

  // --- The bound. ---

  // Drift: reservations released a second time.  Overrun: usage nobody had reserved.
  ghost predicate Within(db: Db, u: UserId, drift: nat, overrun: nat) {
    var b := BudgetOf(db, u);
    && 0 <= b.reserved <= Hold(db, u)
    && Hold(db, u) - b.reserved <= drift
    && b.used + Hold(db, u) <= b.granted + drift + overrun
  }

  lemma WithinKept(db: Db, db': Db, u: UserId, drift: nat, overrun: nat)
    requires RowsOk(db.tasks, db.batches) && Within(db, u, drift, overrun)
    requires SameLiveness(db.tasks, db'.tasks) && SameOwners(db.batches, db'.batches)
    requires db'.budgets == db.budgets
    ensures Within(db', u, drift, overrun)
  {
    HoldKept(db, db', u);
  }

  lemma GrantWithin(db: Db, v: UserId, tokens: int, u: UserId, drift: nat, overrun: nat)
    requires Within(db, u, drift, overrun)
    ensures Within(Perform(db, GrantOp(v, tokens)), u, drift, overrun)
  {
    if tokens > 0 {
      PostBudget(db, GrantEntry(v, tokens), u);
      assert Hold(Post(db, GrantEntry(v, tokens)), u) == Hold(db, u);
    }
  }

  lemma CreatedWithin(db: Db, v: UserId, f: nat, window: string, lines: seq<ParsedLine>, now: Time,
                      u: UserId, drift: nat, overrun: nat)
    requires RowsOk(db.tasks, db.batches) && Within(db, u, drift, overrun)
    ensures Within(CreatedBatch(db, v, f, window, lines, now), u, drift, overrun)
  {
    if Refusal(db, SubmitOp(db, v, lines)).None? {
      CreatedHold(db, v, f, window, lines, now, u);
      CreatedBudget(db, v, f, window, lines, now, u);
    }
  }

  lemma {:induction false} CreatedBudget(db: Db, v: UserId, f: nat, window: string, lines: seq<ParsedLine>, now: Time, u: UserId)
    requires Refusal(db, SubmitOp(db, v, lines)).None?
    ensures BudgetOf(CreatedBatch(db, v, f, window, lines, now), u) ==
            if u == v
            then BudgetOf(db, u).(reserved := BudgetOf(db, u).reserved + Sum(lines, LineReserved()))
            else BudgetOf(db, u)
    ensures Sum(lines, LineReserved()) <= BudgetOf(db, v).Available()
  {
  }

  // Cancelling or expiring releases exactly what the stopped tasks held, as far as it is reserved.
  lemma TerminatedBudget(db: Db, b: nat, status: BatchStatus, now: Time, u: UserId)
    requires b < |db.batches|
    ensures BudgetOf(Terminated(db, b, status, now), u) ==
            if u == db.batches[b].user && Sum(db.tasks, HeldBy(b)) > 0
            then BudgetOf(db, u).(reserved := BudgetOf(db, u).reserved
                                              - Min(Sum(db.tasks, HeldBy(b)), BudgetOf(db, u).reserved))
            else BudgetOf(db, u)
  {
  }

  lemma TerminatedWithin(db: Db, b: nat, status: BatchStatus, now: Time, u: UserId, drift: nat, overrun: nat)
    requires b < |db.batches| && RowsOk(db.tasks, db.batches) && Within(db, u, drift, overrun)
    ensures Within(Terminated(db, b, status, now), u, drift, overrun)
  {
    TerminatedTables(db, b, status, now);
    TerminatedBudget(db, b, status, now, u);
    StoppedHold(db.tasks, db.batches, Terminated(db, b, status, now).batches, b, now, u);
    BatchHoldBounded(db.tasks, db.batches, b);
  }

  function Used(outcome: Outcome): nat {
    if outcome.Success? then outcome.promptTokens + outcome.completionTokens else 0
  }

  lemma SettledBudget(db: Db, t: nat, outcome: Outcome, alpha: real, now: Time, u: UserId)
    requires t < |db.tasks| && db.tasks[t].batch < |db.batches|
    requires BudgetOf(db, u).reserved >= 0
    ensures BudgetOf(Settled(db, t, outcome, alpha, now), u) ==
            if u == db.batches[db.tasks[t].batch].user
            then Budget(BudgetOf(db, u).granted,
                        BudgetOf(db, u).reserved - Min(db.tasks[t].reserved, BudgetOf(db, u).reserved),
                        BudgetOf(db, u).used + Used(outcome))
            else BudgetOf(db, u)
  {
  }

  // What one settlement adds to the drift and to the overrun of user u.
  function DriftOf(db: Db, t: nat, u: UserId): nat
    requires t < |db.tasks|
  {
    if OwnedBy(db.batches, db.tasks[t].batch, u) && !db.tasks[t].Live() then db.tasks[t].reserved else 0
  }

  function OverrunOf(db: Db, t: nat, outcome: Outcome, u: UserId): nat
    requires t < |db.tasks|
  {
    if !OwnedBy(db.batches, db.tasks[t].batch, u) then 0
    else if db.tasks[t].Live() then Max(0, Used(outcome) - db.tasks[t].reserved)
    else Used(outcome)
  }

  lemma SettledWithin(db: Db, t: nat, outcome: Outcome, alpha: real, now: Time, u: UserId, drift: nat, overrun: nat)
    requires t < |db.tasks| && RowsOk(db.tasks, db.batches) && Within(db, u, drift, overrun)
    ensures Within(Settled(db, t, outcome, alpha, now), u,
                   drift + DriftOf(db, t, u), overrun + OverrunOf(db, t, outcome, u))
  {
    SettledHold(db, t, outcome, alpha, now, u);
    SettledBudget(db, t, outcome, alpha, now, u);
    SumMember(db.tasks, t, HeldByUser(db.batches, u));
  }

  // --- Exact conservation. ---

  ghost predicate Conserved(db: Db) {
    forall u :: BudgetOf(db, u).reserved == Hold(db, u)
  }

  // As long as reservations are conserved, no release or charge of live work meets its clamp.
  lemma ClampsDoNotBind(db: Db, b: nat, t: nat)
    requires Conserved(db) && RowsOk(db.tasks, db.batches)
    requires b < |db.batches| && t < |db.tasks| && db.tasks[t].Live()
    ensures Sum(db.tasks, HeldBy(b)) <= BudgetOf(db, db.batches[b].user).reserved
    ensures db.tasks[t].reserved <= BudgetOf(db, db.batches[db.tasks[t].batch].user).reserved
  {
    BatchHoldBounded(db.tasks, db.batches, b);
    var owner := db.batches[db.tasks[t].batch].user;
    assert BudgetOf(db, owner).reserved == Hold(db, owner);
    assert BudgetOf(db, db.batches[b].user).reserved == Hold(db, db.batches[b].user);
    SumMember(db.tasks, t, HeldByUser(db.batches, owner));
  }

  // A settlement conserves reservations if and only if the task is still live, or its owner
  // has nothing reserved that the second release could take.
  lemma SettlementConserves(db: Db, t: nat, outcome: Outcome, alpha: real, now: Time)
    requires t < |db.tasks| && RowsOk(db.tasks, db.batches) && Conserved(db)
    ensures Conserved(Settled(db, t, outcome, alpha, now)) <==>
            db.tasks[t].Live() || BudgetOf(db, db.batches[db.tasks[t].batch].user).reserved == 0
  {
    var owner := db.batches[db.tasks[t].batch].user;
    var db' := Settled(db, t, outcome, alpha, now);
    forall u ensures BudgetOf(db, u).reserved == Hold(db, u) >= 0
             ensures Hold(db', u) == Hold(db, u) - HeldByUser(db.batches, u)(db.tasks[t])
             ensures BudgetOf(db', u).reserved ==
                     BudgetOf(db, u).reserved - if u == owner then Min(db.tasks[t].reserved, BudgetOf(db, u).reserved) else 0
    {
      HoldNonNegative(db, u);
      assert BudgetOf(db, u).reserved == Hold(db, u);
      SettledHold(db, t, outcome, alpha, now, u);
      SettledBudget(db, t, outcome, alpha, now, u);
    }
    if db.tasks[t].Live() {
      SumMember(db.tasks, t, HeldByUser(db.batches, owner));
    } else {
      assert Conserved(db') ==> BudgetOf(db', owner).reserved == Hold(db', owner);
    }
  }
}
