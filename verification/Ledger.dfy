// Token budget accounting (ledger.py).
module Ledger {
  import opened Model
  import opened Sums

  // --- What each operation does, as a function of the database. ---

  // Applies an entry's deltas to its user's budget row and appends it to the ledger.
  function Post(db: Db, e: Entry): Db {
    var b := BudgetOf(db, e.user);
    db.(budgets := db.budgets[e.user := Budget(b.granted + e.granted, b.reserved + e.reserved, b.used + e.used)],
        ledger := db.ledger + [e])
  }

  function GrantEntry(u: UserId, tokens: int): Entry {
    Entry(u, GRANT, tokens, 0, 0, None, None)
  }

  function ReserveEntry(u: UserId, tokens: int, batch: Option<nat>): Entry {
    Entry(u, RESERVE, 0, tokens, 0, batch, None)
  }

  function ReleaseEntry(db: Db, u: UserId, tokens: int, batch: Option<nat>, task: Option<nat>): Entry {
    Entry(u, RELEASE, 0, -Min(tokens, BudgetOf(db, u).reserved), 0, batch, task)
  }

  function ChargeEntry(db: Db, u: UserId, reserved: int, actual: int, batch: Option<nat>, task: Option<nat>): Entry {
    Entry(u, CHARGE, 0, -Min(reserved, BudgetOf(db, u).reserved), actual, batch, task)
  }

  function AdjustEntry(u: UserId, granted: int, reserved: int, used: int): Entry {
    Entry(u, ADJUST, granted, reserved, used, None, None)
  }

  datatype Op =
    | GrantOp(user: UserId, tokens: int)
    | ReserveOp(user: UserId, tokens: int, batch: Option<nat>)
    | ReleaseOp(user: UserId, tokens: int, batch: Option<nat>, task: Option<nat>)
    | ChargeOp(user: UserId, reserved: int, actual: int, batch: Option<nat>, task: Option<nat>)
    | AdjustOp(user: UserId, granted: int, reserved: int, used: int)

  // The error an operation raises instead of committing, if any.
  function Refusal(db: Db, op: Op): Option<Error> {
    match op
    case GrantOp(_, tokens) => if tokens <= 0 then Some(ValueError) else None
    case ReserveOp(u, tokens, _) =>
      if tokens <= 0 then Some(ValueError)
      else if tokens > BudgetOf(db, u).Available() then
        Some(InsufficientBudget(tokens, BudgetOf(db, u).Available()))
      else None
    case ReleaseOp(_, tokens, _, _) => if tokens <= 0 then Some(ValueError) else None
    case ChargeOp(_, reserved, actual, _, _) => if reserved < 0 || actual < 0 then Some(ValueError) else None
    case AdjustOp(_, _, _, _) => None
  }

  function EntryOf(db: Db, op: Op): Entry {
    match op
    case GrantOp(u, tokens) => GrantEntry(u, tokens)
    case ReserveOp(u, tokens, batch) => ReserveEntry(u, tokens, batch)
    case ReleaseOp(u, tokens, batch, task) => ReleaseEntry(db, u, tokens, batch, task)
    case ChargeOp(u, reserved, actual, batch, task) => ChargeEntry(db, u, reserved, actual, batch, task)
    case AdjustOp(u, granted, reserved, used) => AdjustEntry(u, granted, reserved, used)
  }

  function Perform(db: Db, op: Op): Db {
    if Refusal(db, op).Some? then db else Post(db, EntryOf(db, op))
  }

  function PerformAll(db: Db, ops: seq<Op>): Db {
    if ops == [] then db else Perform(PerformAll(db, ops[..|ops| - 1]), ops[|ops| - 1])
  }

  // The columns an operation moves, and by how much.
  function Deltas(db: Db, op: Op): Budget {
    match op
    case GrantOp(_, tokens) => Budget(tokens, 0, 0)
    case ReserveOp(_, tokens, _) => Budget(0, tokens, 0)
    case ReleaseOp(u, tokens, _, _) => Budget(0, -Min(tokens, BudgetOf(db, u).reserved), 0)
    case ChargeOp(u, reserved, actual, _, _) => Budget(0, -Min(reserved, BudgetOf(db, u).reserved), actual)
    case AdjustOp(_, granted, reserved, used) => Budget(granted, reserved, used)
  }

  // Whatever an operation moves, it moves for its own user only and in one entry, which is the
  // last one afterwards; a refused one changes nothing, and no other table ever changes.
  lemma PerformEffect(db: Db, op: Op)
    ensures Refusal(db, op).Some? ==> Perform(db, op) == db
    ensures Refusal(db, op).None? ==>
              var db', d, b := Perform(db, op), Deltas(db, op), BudgetOf(db, op.user);
              && BudgetOf(db', op.user) == Budget(b.granted + d.granted, b.reserved + d.reserved, b.used + d.used)
              && (forall v :: v != op.user ==> BudgetOf(db', v) == BudgetOf(db, v))
              && |db'.ledger| == |db.ledger| + 1 && db'.ledger[..|db.ledger|] == db.ledger
              && db'.ledger[|db.ledger|].user == op.user
              && db'.ledger[|db.ledger|].granted == d.granted
              && db'.ledger[|db.ledger|].reserved == d.reserved && db'.ledger[|db.ledger|].used == d.used
              && db' == db.(budgets := db'.budgets, ledger := db'.ledger)
  {
    EntryIs(db, op);
    PostEffect(db, EntryOf(db, op));
  }

  lemma EntryIs(db: Db, op: Op)
    ensures var e := EntryOf(db, op);
            e.user == op.user && Budget(e.granted, e.reserved, e.used) == Deltas(db, op)
  {
  }

  lemma PostEffect(db: Db, e: Entry)
    ensures var db', b := Post(db, e), BudgetOf(db, e.user);
            && BudgetOf(db', e.user) == Budget(b.granted + e.granted, b.reserved + e.reserved, b.used + e.used)
            && (forall v :: v != e.user ==> BudgetOf(db', v) == BudgetOf(db, v))
            && db'.ledger == db.ledger + [e] && db' == db.(budgets := db'.budgets, ledger := db'.ledger)
  {
  }

  // --- The operations themselves: check, update the row in place, append the entry. ---

  method Grant(db: Store, u: UserId, tokens: int) returns (r: Result<Budget>)
    modifies db
    ensures db.Snapshot() == Perform(old(db.Snapshot()), GrantOp(u, tokens))
    ensures r == if tokens <= 0 then Err(ValueError) else Ok(BudgetOf(db.Snapshot(), u))
  {
    if tokens <= 0 { return Err(ValueError); }
    var budget := GetOrCreateBudget(db, u);
    budget := budget.(granted := budget.granted + tokens);
    db.budgets := db.budgets[u := budget];
    db.ledger := db.ledger + [Entry(u, GRANT, tokens, 0, 0, None, None)];
    return Ok(budget);
  }

  method Reserve(db: Store, u: UserId, tokens: int, batch: Option<nat>) returns (r: Result<Budget>)
    modifies db
    ensures db.Snapshot() == Perform(old(db.Snapshot()), ReserveOp(u, tokens, batch))
    ensures r == match Refusal(old(db.Snapshot()), ReserveOp(u, tokens, batch))
                 case None => Ok(BudgetOf(db.Snapshot(), u))
                 case Some(e) => Err(e)
  {
    if tokens <= 0 { return Err(ValueError); }
    ghost var before, op := db.Snapshot(), ReserveOp(u, tokens, batch);
    var budgets := db.budgets;
    var budget := GetOrCreateBudget(db, u);
    var available := budget.Available();
    assert available == BudgetOf(before, u).Available();
    if tokens > available {
      assert Refusal(before, op) == Some(InsufficientBudget(tokens, available));
      db.budgets := budgets; // the session is rolled back
      return Err(InsufficientBudget(tokens, available));
    }
    assert Refusal(before, op) == None;
    assert EntryOf(before, op) == Entry(u, RESERVE, 0, tokens, 0, batch, None);
    budget := budget.(reserved := budget.reserved + tokens);
    db.budgets := db.budgets[u := budget];
    db.ledger := db.ledger + [Entry(u, RESERVE, 0, tokens, 0, batch, None)];
    return Ok(budget);
  }

  method Release(db: Store, u: UserId, tokens: int, batch: Option<nat>, task: Option<nat>) returns (r: Result<Budget>)
    modifies db
    ensures db.Snapshot() == Perform(old(db.Snapshot()), ReleaseOp(u, tokens, batch, task))
    ensures r == if tokens <= 0 then Err(ValueError) else Ok(BudgetOf(db.Snapshot(), u))
  {
    if tokens <= 0 { return Err(ValueError); }
    var budget := GetOrCreateBudget(db, u);
    var releaseAmount := Min(tokens, budget.reserved);
    budget := budget.(reserved := budget.reserved - releaseAmount);
    db.budgets := db.budgets[u := budget];
    db.ledger := db.ledger + [Entry(u, RELEASE, 0, -releaseAmount, 0, batch, task)];
    return Ok(budget);
  }

  method Charge(db: Store, u: UserId, reserved: int, actual: int, batch: Option<nat>, task: Option<nat>)
    returns (r: Result<Budget>)
    modifies db
    ensures db.Snapshot() == Perform(old(db.Snapshot()), ChargeOp(u, reserved, actual, batch, task))
    ensures r == if reserved < 0 || actual < 0 then Err(ValueError) else Ok(BudgetOf(db.Snapshot(), u))
  {
    if reserved < 0 || actual < 0 { return Err(ValueError); }
    var budget := GetOrCreateBudget(db, u);
    var released := Min(reserved, budget.reserved);
    budget := budget.(reserved := budget.reserved - released);
    budget := budget.(used := budget.used + actual);
    db.budgets := db.budgets[u := budget];
    db.ledger := db.ledger + [Entry(u, CHARGE, 0, -released, actual, batch, task)];
    return Ok(budget);
  }

  method Adjust(db: Store, u: UserId, granted: int, reserved: int, used: int) returns (budget: Budget)
    modifies db
    ensures db.Snapshot() == Perform(old(db.Snapshot()), AdjustOp(u, granted, reserved, used))
    ensures budget == BudgetOf(db.Snapshot(), u)
  {
    budget := GetOrCreateBudget(db, u);
    budget := Budget(budget.granted + granted, budget.reserved + reserved, budget.used + used);
    db.budgets := db.budgets[u := budget];
    db.ledger := db.ledger + [Entry(u, ADJUST, granted, reserved, used, None, None)];
  }

  // A missing row is inserted with zeros, uncommitted: nobody's figures change by it.
  method GetOrCreateBudget(db: Store, u: UserId) returns (budget: Budget)
    modifies db`budgets
    ensures db.budgets == old(db.budgets)[u := budget]
    ensures u !in old(db.budgets) ==> budget.granted == 0 && budget.reserved == 0 && budget.used == 0
    ensures forall v :: BudgetOf(db.Snapshot(), v) == old(BudgetOf(db.Snapshot(), v))
    ensures u in old(db.budgets) ==> db.Snapshot() == old(db.Snapshot())
  {
    if u !in db.budgets { db.budgets := db.budgets[u := Budget(0, 0, 0)]; }
    budget := db.budgets[u];
  }

  // --- Replay. ---

  function GrantedBy(u: UserId): Entry -> int { (e: Entry) => if e.user == u then e.granted else 0 }
  function ReservedBy(u: UserId): Entry -> int { (e: Entry) => if e.user == u then e.reserved else 0 }
  function UsedBy(u: UserId): Entry -> int { (e: Entry) => if e.user == u then e.used else 0 }

  // What replaying a user's entries from zero comes to.
  function Replayed(ledger: seq<Entry>, u: UserId): Budget {
    Budget(Sum(ledger, GrantedBy(u)), Sum(ledger, ReservedBy(u)), Sum(ledger, UsedBy(u)))
  }

  ghost predicate Reconciled(db: Db) {
    forall u :: BudgetOf(db, u) == Replayed(db.ledger, u)
  }

  lemma PostReconciled(db: Db, e: Entry)
    requires Reconciled(db)
    ensures Reconciled(Post(db, e))
  {
    forall u ensures BudgetOf(Post(db, e), u) == Replayed(Post(db, e).ledger, u) {
      assert BudgetOf(db, u) == Replayed(db.ledger, u);
      SumAppend(db.ledger, e, GrantedBy(u));
      SumAppend(db.ledger, e, ReservedBy(u));
      SumAppend(db.ledger, e, UsedBy(u));
    }
  }

  // After any sequence of operations, on any users, refused ones included, the rows still
  // equal the replay of the ledger.
  lemma {:induction false} EveryHistoryReconciles(db: Db, ops: seq<Op>)
    requires Reconciled(db)
    ensures Reconciled(PerformAll(db, ops))
  {
    if ops != [] {
      var before := PerformAll(db, ops[..|ops| - 1]);
      EveryHistoryReconciles(db, ops[..|ops| - 1]);
      PostReconciled(before, EntryOf(before, ops[|ops| - 1]));
    }
  }

  // The rows a query for one user may return: all of that user's entries, timestamp ties in any order.
  ghost predicate EntriesOf(ledger: seq<Entry>, u: UserId, rows: seq<Entry>) {
    multiset(rows) == multiset(Selected(ledger, u))
  }

  function Selected(ledger: seq<Entry>, u: UserId): seq<Entry> {
    if ledger == [] then []
    else
      var init := Selected(ledger[..|ledger| - 1], u);
      if ledger[|ledger| - 1].user == u then init + [ledger[|ledger| - 1]] else init
  }

  lemma {:induction false} SelectedSums(ledger: seq<Entry>, u: UserId, f: Entry -> int, g: Entry -> int)
    requires forall e :: g(e) == if e.user == u then f(e) else 0
    ensures Sum(Selected(ledger, u), f) == Sum(ledger, g)
  {
    if ledger != [] {
      var init, last := ledger[..|ledger| - 1], ledger[|ledger| - 1];
      SelectedSums(init, u, f, g);
      if last.user == u { SumAppend(Selected(init, u), last, f); }
    }
  }

  lemma {:induction false} SumWithout<T>(b: seq<T>, i: nat, f: T -> int)
    requires i < |b|
    ensures Sum(b, f) == Sum(b[..i] + b[i + 1..], f) + f(b[i])
  {
    SplitAt(b, i);
    SumMiddle(b[..i], b[i], b[i + 1..], f);
  }

  lemma SplitAt<T>(b: seq<T>, i: nat)
    requires i < |b|
    ensures b == (b[..i] + [b[i]]) + b[i + 1..]
  {
  }

  lemma {:induction false} SumMiddle<T>(before: seq<T>, x: T, after: seq<T>, f: T -> int)
    ensures Sum((before + [x]) + after, f) == Sum(before + after, f) + f(x)
  {
    SumConcat(before + [x], after, f);
    SumAppend(before, x, f);
    SumConcat(before, after, f);
  }

  lemma MultisetWithout<T>(b: seq<T>, i: nat)
    requires i < |b|
    ensures multiset(b[..i] + b[i + 1..]) == multiset(b) - multiset{b[i]}
  {
    SplitAt(b, i);
  }

  // A sum does not depend on the order of its rows.
  lemma {:induction false} SumOfPermutation<T>(a: seq<T>, b: seq<T>, f: T -> int)
    requires multiset(a) == multiset(b)
    ensures Sum(a, f) == Sum(b, f)
  {
    if a == [] {
      assert |multiset(b)| == 0;
    } else {
      var n := |a| - 1;
      assert a[n] in multiset(b);
      var i :| 0 <= i < |b| && b[i] == a[n];
      MultisetWithout(a, n);
      MultisetWithout(b, i);
      assert a[..n] + a[n + 1..] == a[..n];
      SumOfPermutation(a[..n], b[..i] + b[i + 1..], f);
      SumWithout(b, i, f);
    }
  }

  // recompute_budget: one pass over the user's entries with three accumulators.
  method RecomputeBudget(db: Store, u: UserId, rows: seq<Entry>) returns (granted: int, reserved: int, used: int)
    requires EntriesOf(db.ledger, u, rows)
    ensures Budget(granted, reserved, used) == Replayed(db.ledger, u)
  {
    granted, reserved, used := 0, 0, 0;
    ghost var g, r, s := (e: Entry) => e.granted, (e: Entry) => e.reserved, (e: Entry) => e.used;
    for i := 0 to |rows|
      invariant granted == Sum(rows[..i], g) && reserved == Sum(rows[..i], r) && used == Sum(rows[..i], s)
    {
      assert rows[..i + 1] == rows[..i] + [rows[i]];
      SumAppend(rows[..i], rows[i], g);
      SumAppend(rows[..i], rows[i], r);
      SumAppend(rows[..i], rows[i], s);
      granted := granted + rows[i].granted;
      reserved := reserved + rows[i].reserved;
      used := used + rows[i].used;
    }
    assert rows[..|rows|] == rows;
    SumOfPermutation(rows, Selected(db.ledger, u), g);
    SumOfPermutation(rows, Selected(db.ledger, u), r);
    SumOfPermutation(rows, Selected(db.ledger, u), s);
    SelectedSums(db.ledger, u, g, GrantedBy(u));
    SelectedSums(db.ledger, u, r, ReservedBy(u));
    SelectedSums(db.ledger, u, s, UsedBy(u));
  }

  // The admin reconcile endpoint: overwrite the row when it differs from the replay.
  method ReconcileBudget(db: Store, u: UserId, rows: seq<Entry>)
    requires EntriesOf(db.ledger, u, rows)
    modifies db
    ensures BudgetOf(db.Snapshot(), u) == Replayed(db.ledger, u)
    ensures forall v :: v != u ==> BudgetOf(db.Snapshot(), v) == old(BudgetOf(db.Snapshot(), v))
    ensures db.Snapshot().(budgets := old(db.budgets)) == old(db.Snapshot())
    ensures old(Reconciled(db.Snapshot())) ==> db.Snapshot() == old(db.Snapshot())
  {
    var granted, reserved, used := RecomputeBudget(db, u, rows);
    var budgets := db.budgets;
    var budget := GetOrCreateBudget(db, u);
    if budget != Budget(granted, reserved, used) {
      db.budgets := db.budgets[u := Budget(granted, reserved, used)];
    } else {
      db.budgets := budgets; // nothing is committed
    }
  }
}
