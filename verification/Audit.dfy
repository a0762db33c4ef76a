// The ledger against the tables: one entry per settled task, usage and holds that add up by batch.
module Audit {
  import opened Model
  import opened Sums
  import opened Ledger
  import opened Parsing
  import opened BatchOps
  import opened Structure
  import opened Conservation
  import opened Eta

  function ForTask(t: nat): Entry -> int { (e: Entry) => if e.task == Some(t) then 1 else 0 }

  // The per-batch query of the batch status endpoint.
  function ChargedTo(b: nat): Entry -> int {
    (e: Entry) => if e.kind == CHARGE && e.batch == Some(b) then e.used else 0
  }

  // The group of batch b in the dashboard's grouped query for user u.
  function DashboardGroup(u: UserId, b: nat): Entry -> int {
    (e: Entry) => if e.user == u && e.kind == CHARGE && e.batch == Some(b) then e.used else 0
  }

  function ReservedFor(b: nat): Entry -> int { (e: Entry) => if e.batch == Some(b) then e.reserved else 0 }

  // What a completed task of batch b actually used.
  function UsageOf(b: nat): Task -> int {
    (t: Task) => if t.batch == b && t.status == COMPLETED then OrZero(t.promptTokens) + OrZero(t.completionTokens) else 0
  }

  // References point at existing rows, to the entry's own user; only charges record usage.
  ghost predicate EntryOk(e: Entry, tasks: seq<Task>, batches: seq<Batch>) {
    && (e.task.Some? ==> e.task.value < |tasks|)
    && (e.batch.Some? ==> OwnedBy(batches, e.batch.value, e.user))
    && (e.kind == CHARGE ==> e.batch.Some?)
    && (e.kind != CHARGE ==> e.used == 0)
  }

  ghost predicate EntriesOk(db: Db) {
    forall i :: 0 <= i < |db.ledger| ==> EntryOk(db.ledger[i], db.tasks, db.batches)
  }

  ghost predicate TaskAudited(ledger: seq<Entry>, tasks: seq<Task>, t: nat)
    requires t < |tasks|
  {
    Sum(ledger, ForTask(t)) == if tasks[t].Settled() then 1 else 0
  }

  ghost predicate BatchAudited(ledger: seq<Entry>, tasks: seq<Task>, b: nat) {
    Sum(ledger, ChargedTo(b)) == Sum(tasks, UsageOf(b))
  }

  // Every settled task has exactly one entry carrying its id, every other task none; and the
  // charges to a batch are what its completed tasks used.
  ghost predicate AuditOk(db: Db) {
    && EntriesOk(db)
    && Reconciled(db)
    && (forall t :: 0 <= t < |db.tasks| ==> TaskAudited(db.ledger, db.tasks, t))
    && (forall b :: 0 <= b < |db.batches| ==> BatchAudited(db.ledger, db.tasks, b))
  }

  // --- Steps that settle nothing. ---

  lemma QuietAudit(db: Db, db': Db)
    requires AuditOk(db)
    requires db'.ledger == db.ledger && db'.budgets == db.budgets
    requires SameResults(db.tasks, db'.tasks) && SameCounters(db.batches, db'.batches)
    ensures AuditOk(db')
  {
    forall i | 0 <= i < |db'.ledger| ensures EntryOk(db'.ledger[i], db'.tasks, db'.batches) {
      assert EntryOk(db.ledger[i], db.tasks, db.batches);
    }
    forall u ensures BudgetOf(db', u) == Replayed(db'.ledger, u) {
      assert BudgetOf(db, u) == Replayed(db.ledger, u);
    }
    forall t | 0 <= t < |db'.tasks| ensures TaskAudited(db'.ledger, db'.tasks, t) {
      assert TaskAudited(db.ledger, db.tasks, t);
    }
    forall b | 0 <= b < |db'.batches| ensures BatchAudited(db'.ledger, db'.tasks, b) {
      assert BatchAudited(db.ledger, db.tasks, b);
      SumSame(db.tasks, UsageOf(b), db'.tasks, UsageOf(b));
    }
  }

  // Posting an entry that names no task and records no usage.
  lemma PlainPostAudit(db: Db, e: Entry)
    requires AuditOk(db)
    requires EntryOk(e, db.tasks, db.batches) && e.task.None? && e.kind != CHARGE
    ensures AuditOk(Post(db, e))
  {
    var db' := Post(db, e);
    PostReconciled(db, e);
    forall i | 0 <= i < |db'.ledger| ensures EntryOk(db'.ledger[i], db'.tasks, db'.batches) {
      if i < |db.ledger| { assert EntryOk(db.ledger[i], db.tasks, db.batches); }
    }
    forall t | 0 <= t < |db'.tasks| ensures TaskAudited(db'.ledger, db'.tasks, t) {
      assert TaskAudited(db.ledger, db.tasks, t);
      SumAppend(db.ledger, e, ForTask(t));
    }
    forall b | 0 <= b < |db'.batches| ensures BatchAudited(db'.ledger, db'.tasks, b) {
      assert BatchAudited(db.ledger, db.tasks, b);
      SumAppend(db.ledger, e, ChargedTo(b));
    }
  }

  lemma GrantAudit(db: Db, u: UserId, tokens: int)
    requires AuditOk(db)
    ensures AuditOk(Perform(db, GrantOp(u, tokens)))
  {
    if tokens > 0 { PlainPostAudit(db, GrantEntry(u, tokens)); }
  }

  // The rows of a submission, before its entry: nothing in the ledger mentions them yet.
  lemma InsertedAudit(db: Db, u: UserId, f: nat, window: string, lines: seq<ParsedLine>, now: Time)
    requires AuditOk(db) && RowsOk(db.tasks, db.batches)
    ensures AuditOk(WithBatch(db, u, f, window, lines, now))
  {
    var db' := WithBatch(db, u, f, window, lines, now);
    var added := NewTasks(|db.batches|, lines);
    forall i | 0 <= i < |db'.ledger| ensures EntryOk(db'.ledger[i], db'.tasks, db'.batches) {
      assert EntryOk(db.ledger[i], db.tasks, db.batches);
    }
    forall v ensures BudgetOf(db', v) == Replayed(db'.ledger, v) {
      assert BudgetOf(db, v) == Replayed(db.ledger, v);
    }
    forall t | 0 <= t < |db'.tasks| ensures TaskAudited(db'.ledger, db'.tasks, t) {
      if t < |db.tasks| {
        assert TaskAudited(db.ledger, db.tasks, t);
      } else {
        NothingForTask(db, t);
      }
    }
    forall b | 0 <= b < |db'.batches| ensures BatchAudited(db'.ledger, db'.tasks, b) {
      SumConcat(db.tasks, added, UsageOf(b));
      SumZero(added, UsageOf(b));
      if b < |db.batches| {
        assert BatchAudited(db.ledger, db.tasks, b);
      } else {
        NothingCharged(db, b);
      }
    }
  }

  lemma NothingForTask(db: Db, t: nat)
    requires EntriesOk(db) && t >= |db.tasks|
    ensures Sum(db.ledger, ForTask(t)) == 0
  {
    forall i | 0 <= i < |db.ledger| ensures ForTask(t)(db.ledger[i]) == 0 {
      assert EntryOk(db.ledger[i], db.tasks, db.batches);
    }
    SumZero(db.ledger, ForTask(t));
  }

  lemma NothingCharged(db: Db, b: nat)
    requires EntriesOk(db) && RowsOk(db.tasks, db.batches) && b >= |db.batches|
    ensures Sum(db.ledger, ChargedTo(b)) == 0 && Sum(db.tasks, UsageOf(b)) == 0
    ensures Sum(db.ledger, ReservedFor(b)) == 0 && Sum(db.tasks, HeldBy(b)) == 0
  {
    forall i | 0 <= i < |db.ledger|
      ensures ChargedTo(b)(db.ledger[i]) == 0 && ReservedFor(b)(db.ledger[i]) == 0
    {
      assert EntryOk(db.ledger[i], db.tasks, db.batches);
    }
    SumZero(db.ledger, ChargedTo(b));
    SumZero(db.ledger, ReservedFor(b));
    SumZero(db.tasks, UsageOf(b));
    SumZero(db.tasks, HeldBy(b));
  }

  lemma CreatedAudit(db: Db, u: UserId, f: nat, window: string, lines: seq<ParsedLine>, now: Time)
    requires AuditOk(db) && RowsOk(db.tasks, db.batches)
    ensures AuditOk(CreatedBatch(db, u, f, window, lines, now))
  {
    var op := SubmitOp(db, u, lines);
    if Refusal(db, op).None? {
      var inserted := WithBatch(db, u, f, window, lines, now);
      InsertedAudit(db, u, f, window, lines, now);
      SameRefusal(db, inserted, op);
      PlainPostAudit(inserted, EntryOf(inserted, op));
    }
  }

  lemma TerminatedAudit(db: Db, b: nat, status: BatchStatus, now: Time)
    requires AuditOk(db) && b < |db.batches|
    ensures AuditOk(Terminated(db, b, status, now))
  {
    var stopped := db.(tasks := StopTasks(db.tasks, b, now),
                       batches := db.batches[b := TerminalBatch(db.batches[b], status, now)]);
    StopIsQuiet(db.tasks, b, now);
    QuietAudit(db, stopped);
    var held := Sum(db.tasks, HeldBy(b));
    if held > 0 {
      PlainPostAudit(stopped, ReleaseEntry(stopped, db.batches[b].user, held, Some(b), None));
    }
  }

  // --- Settlement. ---

  // The rows of a settlement together with its entry.
  lemma SettledAudit(db: Db, t: nat, outcome: Outcome, alpha: real, now: Time)
    requires AuditOk(db) && RowsOk(db.tasks, db.batches)
    requires t < |db.tasks| && !db.tasks[t].Settled()
    ensures AuditOk(Settled(db, t, outcome, alpha, now))
  {
    var db' := Settled(db, t, outcome, alpha, now);
    var e := SettlementEntry(db, t, outcome);
    SettledTables(db, t, outcome, alpha, now);
    SettledEntry(db, t, outcome, alpha, now);
    SettledReconciled(db, t, outcome, alpha, now);
    forall i | 0 <= i < |db'.ledger| ensures EntryOk(db'.ledger[i], db'.tasks, db'.batches) {
      if i < |db.ledger| { assert EntryOk(db.ledger[i], db.tasks, db.batches); }
    }
    forall s | 0 <= s < |db'.tasks| ensures TaskAudited(db'.ledger, db'.tasks, s) {
      assert TaskAudited(db.ledger, db.tasks, s);
      SumAppend(db.ledger, e, ForTask(s));
    }
    forall b | 0 <= b < |db'.batches| ensures BatchAudited(db'.ledger, db'.tasks, b) {
      assert BatchAudited(db.ledger, db.tasks, b);
      SumAppend(db.ledger, e, ChargedTo(b));
      SumUpdate(db.tasks, t, db'.tasks[t], UsageOf(b));
    }
  }

  function SettlementEntry(db: Db, t: nat, outcome: Outcome): Entry
    requires t < |db.tasks| && db.tasks[t].batch < |db.batches|
  {
    EntryOf(db, SettlementOp(db, t, outcome))
  }

  lemma SettledEntry(db: Db, t: nat, outcome: Outcome, alpha: real, now: Time)
    requires t < |db.tasks| && RowsOk(db.tasks, db.batches)
    ensures Settled(db, t, outcome, alpha, now).ledger == db.ledger + [SettlementEntry(db, t, outcome)]
    ensures Settled(db, t, outcome, alpha, now).budgets == Post(db, SettlementEntry(db, t, outcome)).budgets
  {
  }

  lemma SettledReconciled(db: Db, t: nat, outcome: Outcome, alpha: real, now: Time)
    requires t < |db.tasks| && RowsOk(db.tasks, db.batches) && Reconciled(db)
    ensures Reconciled(Settled(db, t, outcome, alpha, now))
  {
    var db' := Settled(db, t, outcome, alpha, now);
    var posted := Post(db, SettlementEntry(db, t, outcome));
    SettledEntry(db, t, outcome, alpha, now);
    PostReconciled(db, SettlementEntry(db, t, outcome));
    forall u ensures BudgetOf(db', u) == Replayed(db'.ledger, u) {
      assert BudgetOf(posted, u) == Replayed(posted.ledger, u);
    }
  }

  // --- Reservations, batch by batch. ---

  // What the ledger still holds for a batch is what its live tasks hold.
  ghost predicate BatchClosed(ledger: seq<Entry>, tasks: seq<Task>, b: nat) {
    Sum(ledger, ReservedFor(b)) == Sum(tasks, HeldBy(b))
  }

  ghost predicate Closed(db: Db) {
    forall b :: 0 <= b < |db.batches| ==> BatchClosed(db.ledger, db.tasks, b)
  }

  lemma QuietClosed(db: Db, db': Db)
    requires Closed(db) && RowsOk(db.tasks, db.batches)
    requires db'.ledger == db.ledger && |db'.batches| == |db.batches|
    requires SameLiveness(db.tasks, db'.tasks)
    ensures Closed(db')
  {
    forall b | 0 <= b < |db'.batches| ensures BatchClosed(db'.ledger, db'.tasks, b) {
      assert BatchClosed(db.ledger, db.tasks, b);
      SumSame(db.tasks, HeldBy(b), db'.tasks, HeldBy(b));
    }
  }

  lemma GrantClosed(db: Db, u: UserId, tokens: int)
    requires Closed(db)
    ensures Closed(Perform(db, GrantOp(u, tokens)))
  {
    if tokens > 0 {
      var e := GrantEntry(u, tokens);
      forall b | 0 <= b < |db.batches| ensures BatchClosed(db.ledger + [e], db.tasks, b) {
        assert BatchClosed(db.ledger, db.tasks, b);
        SumAppend(db.ledger, e, ReservedFor(b));
      }
    }
  }

  lemma {:induction false} NewTasksHeld(b: nat, lines: seq<ParsedLine>, c: nat)
    ensures Sum(NewTasks(b, lines), HeldBy(c)) == if c == b then Sum(lines, LineReserved()) else 0
  {
    if lines != [] {
      var init, last := lines[..|lines| - 1], lines[|lines| - 1];
      assert NewTasks(b, lines) == NewTasks(b, init) + [NewTask(b, last)];
      SumAppend(NewTasks(b, init), NewTask(b, last), HeldBy(c));
      NewTasksHeld(b, init, c);
    }
  }

  lemma CreatedClosed(db: Db, u: UserId, f: nat, window: string, lines: seq<ParsedLine>, now: Time)
    requires Closed(db) && EntriesOk(db) && RowsOk(db.tasks, db.batches)
    ensures Closed(CreatedBatch(db, u, f, window, lines, now))
  {
    var op := SubmitOp(db, u, lines);
    if Refusal(db, op).None? {
      var db' := CreatedBatch(db, u, f, window, lines, now);
      var e := ReserveEntry(u, Sum(lines, LineReserved()), Some(|db.batches|));
      CreatedTables(db, u, f, window, lines, now);
      CreatedEntry(db, u, f, window, lines, now);
      forall b | 0 <= b < |db'.batches| ensures BatchClosed(db'.ledger, db'.tasks, b) {
        SumAppend(db.ledger, e, ReservedFor(b));
        SumConcat(db.tasks, NewTasks(|db.batches|, lines), HeldBy(b));
        NewTasksHeld(|db.batches|, lines, b);
        if b < |db.batches| {
          assert BatchClosed(db.ledger, db.tasks, b);
        } else {
          NothingCharged(db, b);
        }
      }
    }
  }

  lemma {:induction false} CreatedEntry(db: Db, u: UserId, f: nat, window: string, lines: seq<ParsedLine>, now: Time)
    requires Refusal(db, SubmitOp(db, u, lines)).None?
    ensures CreatedBatch(db, u, f, window, lines, now).ledger ==
            db.ledger + [ReserveEntry(u, Sum(lines, LineReserved()), Some(|db.batches|))]
  {
  }

  lemma TerminatedClosed(db: Db, b: nat, status: BatchStatus, now: Time)
    requires Closed(db) && Conserved(db) && RowsOk(db.tasks, db.batches) && b < |db.batches|
    ensures Closed(Terminated(db, b, status, now))
  {
    var db' := Terminated(db, b, status, now);
    var u, held := db.batches[b].user, Sum(db.tasks, HeldBy(b));
    TerminatedTables(db, b, status, now);
    BatchHoldBounded(db.tasks, db.batches, b);
    assert BudgetOf(db, u).reserved == Hold(db, u);
    forall c | 0 <= c < |db'.batches| ensures BatchClosed(db'.ledger, db'.tasks, c) {
      assert BatchClosed(db.ledger, db.tasks, c);
      StoppedHeld(db.tasks, b, now, c);
      if held > 0 {
        var e := Entry(u, RELEASE, 0, -held, 0, Some(b), None);
        assert db'.ledger == db.ledger + [e];
        SumAppend(db.ledger, e, ReservedFor(c));
      }
    }
  }

  lemma {:induction false} StoppedHeld(tasks: seq<Task>, b: nat, now: Time, c: nat)
    ensures Sum(StopTasks(tasks, b, now), HeldBy(c)) == if c == b then 0 else Sum(tasks, HeldBy(c))
  {
    if c == b {
      SumZero(StopTasks(tasks, b, now), HeldBy(c));
    } else {
      SumSame(StopTasks(tasks, b, now), HeldBy(c), tasks, HeldBy(c));
    }
  }

  // A settlement keeps the ledger closed batch by batch if and only if the task is still live,
  // or its owner has nothing reserved that the second release could take.
  lemma SettledClosed(db: Db, t: nat, outcome: Outcome, alpha: real, now: Time)
    requires Closed(db) && Conserved(db) && RowsOk(db.tasks, db.batches) && t < |db.tasks|
    ensures Closed(Settled(db, t, outcome, alpha, now)) <==>
            db.tasks[t].Live() || BudgetOf(db, db.batches[db.tasks[t].batch].user).reserved == 0
  {
    var db' := Settled(db, t, outcome, alpha, now);
    var own := db.tasks[t].batch;
    SettledTables(db, t, outcome, alpha, now);
    forall b | 0 <= b < |db'.batches|
      ensures BatchClosed(db'.ledger, db'.tasks, b) <==> b != own || ReleaseOf(db, t) == HeldBy(own)(db.tasks[t])
    {
      assert BatchClosed(db.ledger, db.tasks, b);
      SettledBatch(db, t, outcome, alpha, now, b);
    }
    if db.tasks[t].Live() { ClampsDoNotBind(db, own, t); }
    assert BatchClosed(db'.ledger, db'.tasks, own) <==> ReleaseOf(db, t) == HeldBy(own)(db.tasks[t]);
    ReservedNonNegative(db, db.batches[own].user);
  }

  // What a settlement of task t takes out of its owner's reserved column.
  function ReleaseOf(db: Db, t: nat): int
    requires t < |db.tasks| && db.tasks[t].batch < |db.batches|
  {
    Min(db.tasks[t].reserved, BudgetOf(db, db.batches[db.tasks[t].batch].user).reserved)
  }

  lemma ReservedNonNegative(db: Db, u: UserId)
    requires Conserved(db)
    ensures BudgetOf(db, u).reserved >= 0
  {
    HoldNonNegative(db, u);
    assert BudgetOf(db, u).reserved == Hold(db, u);
  }

  // What a settlement moves of a batch's hold in the ledger and in the task table.
  lemma SettledBatch(db: Db, t: nat, outcome: Outcome, alpha: real, now: Time, b: nat)
    requires RowsOk(db.tasks, db.batches) && t < |db.tasks|
    ensures var db' := Settled(db, t, outcome, alpha, now);
            var own := db.tasks[t].batch;
            && Sum(db'.ledger, ReservedFor(b)) == Sum(db.ledger, ReservedFor(b)) - (if b == own then ReleaseOf(db, t) else 0)
            && Sum(db'.tasks, HeldBy(b)) == Sum(db.tasks, HeldBy(b)) - HeldBy(b)(db.tasks[t])
  {
    var db' := Settled(db, t, outcome, alpha, now);
    SettledTables(db, t, outcome, alpha, now);
    SettledEntry(db, t, outcome, alpha, now);
    SumAppend(db.ledger, SettlementEntry(db, t, outcome), ReservedFor(b));
    SumUpdate(db.tasks, t, db'.tasks[t], HeldBy(b));
  }

  // Nothing is held for a terminal batch any more.
  lemma TerminalHoldsNothing(db: Db, b: nat)
    requires StatusOk(db.tasks, db.batches) && RowsOk(db.tasks, db.batches)
    requires b < |db.batches| && db.batches[b].status != IN_PROGRESS
    ensures Sum(db.tasks, HeldBy(b)) == 0
  {
    SumZero(db.tasks, HeldBy(b));
  }

  // --- The usage queries. ---

  // The dashboard's group for a batch of u is the figure of the batch's own status page.
  lemma DashboardAgrees(db: Db, u: UserId, b: nat)
    requires EntriesOk(db) && OwnedBy(db.batches, b, u)
    ensures Sum(db.ledger, DashboardGroup(u, b)) == Sum(db.ledger, ChargedTo(b))
  {
    forall i | 0 <= i < |db.ledger| ensures DashboardGroup(u, b)(db.ledger[i]) == ChargedTo(b)(db.ledger[i]) {
      assert EntryOk(db.ledger[i], db.tasks, db.batches);
    }
    SumSame(db.ledger, DashboardGroup(u, b), db.ledger, ChargedTo(b));
  }

  // The dashboard's groups for u's batches among the first n.
  function GroupTotals(ledger: seq<Entry>, batches: seq<Batch>, u: UserId, n: nat): int
    requires n <= |batches|
  {
    if n == 0 then 0
    else GroupTotals(ledger, batches, u, n - 1)
         + if batches[n - 1].user == u then Sum(ledger, DashboardGroup(u, n - 1)) else 0
  }

  lemma {:induction false} GroupTotalsAppend(ledger: seq<Entry>, e: Entry, batches: seq<Batch>, u: UserId, n: nat)
    requires n <= |batches|
    ensures GroupTotals(ledger + [e], batches, u, n) ==
            GroupTotals(ledger, batches, u, n)
            + if e.user == u && e.kind == CHARGE && e.batch.Some? && e.batch.value < n
                 && batches[e.batch.value].user == u then e.used else 0
  {
    if n > 0 {
      GroupTotalsAppend(ledger, e, batches, u, n - 1);
      SumAppend(ledger, e, DashboardGroup(u, n - 1));
    }
  }

  lemma {:induction false} GroupTotalsEmpty(batches: seq<Batch>, u: UserId, n: nat)
    requires n <= |batches|
    ensures GroupTotals([], batches, u, n) == 0
  {
    if n > 0 { GroupTotalsEmpty(batches, u, n - 1); }
  }

  // The groups of all of u's batches add up to everything u ever used.
  lemma {:induction false} GroupsAddUp(ledger: seq<Entry>, tasks: seq<Task>, batches: seq<Batch>, u: UserId)
    requires forall i :: 0 <= i < |ledger| ==> EntryOk(ledger[i], tasks, batches)
    ensures GroupTotals(ledger, batches, u, |batches|) == Sum(ledger, UsedBy(u))
  {
    if ledger == [] {
      GroupTotalsEmpty(batches, u, |batches|);
    } else {
      var init, e := ledger[..|ledger| - 1], ledger[|ledger| - 1];
      assert ledger == init + [e];
      assert EntryOk(ledger[|ledger| - 1], tasks, batches);
      forall i | 0 <= i < |init| ensures EntryOk(init[i], tasks, batches) {
        assert EntryOk(ledger[i], tasks, batches);
      }
      GroupsAddUp(init, tasks, batches, u);
      GroupTotalsAppend(init, e, batches, u, |batches|);
      SumAppend(init, e, UsedBy(u));
    }
  }
}
