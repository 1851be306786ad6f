/** The ids of the PostgreSQL outbox (crates/storage-postgres/src/store.rs:87-110, 344-378): a
    transaction draws them only once all its accounts are locked, so they are unique and, on
    each account, in commit order. */
module IdOrder {
  import opened Amounts
  import opened Balances
  import opened Store
  import opened Invariants
  import opened Transactions
  import opened ById

  // ---- the invariant --------------------------------------------------------

  ghost predicate Ordered(rows: seq<Row>) {
    forall a :: SharedInOrder(rows, a)
  }

  /** Visible ids are in range and unique, and in commit order on each account. */
  ghost predicate OutboxIds(rows: seq<Row>, next: nat) {
    && (forall i :: 0 <= i < |rows| ==> 0 < rows[i].id <= next)
    && UniqueRowIds(rows)
    && Ordered(rows)
  }

  /** Whatever is visible on a locked account has a smaller id than what the lock holder drew. */
  predicate Later(outbox: seq<Row>, locks: set<AccountId>, rows: seq<Row>) {
    forall i, j, a :: 0 <= i < |outbox| && 0 <= j < |rows| && a in locks && Touches(outbox[i], a) ==>
      outbox[i].id < rows[j].id
  }

  ghost predicate TxnIds(outbox: seq<Row>, next: nat, x: Txn) {
    && IdsAscend(x.rows)
    && (forall j :: 0 <= j < |x.rows| ==> 0 < x.rows[j].id <= next && IdFree(outbox, x.rows[j].id))
    && Later(outbox, x.locks, x.rows)
  }

  predicate ApartIds(x: seq<Row>, y: seq<Row>) {
    forall i, j :: 0 <= i < |x| && 0 <= j < |y| ==> x[i].id != y[j].id
  }

  ghost predicate IdInv(pg: Pg) {
    && OutboxIds(pg.db.outbox, pg.db.nextOutboxId)
    && (forall t :: t in pg.txns ==> TxnIds(pg.db.outbox, pg.db.nextOutboxId, pg.txns[t]))
    && (forall t, u :: t in pg.txns && u in pg.txns && t != u ==> ApartIds(pg.txns[t].rows, pg.txns[u].rows))
  }

  // ---- what a transaction's rows touch --------------------------------------

  lemma {:induction false} JournalMember(events: seq<Event>, i: nat)
    requires i < |events| && events[i].payload.JournalPosted?
    ensures events[i].payload.entry in JournalsOf(events)
  {
    if i < |events| - 1 { JournalMember(events[..|events| - 1], i); }
  }

  /** A row of a transaction touches only accounts the transaction has locked. */
  lemma TouchesLocked(db: Db, x: Txn, j: nat, a: AccountId)
    requires TxnSound(db, x) && j < |x.rows| && Touches(x.rows[j], a)
    ensures a in x.locks
  {
    var events := x.work.Events();
    assert EventsOf(x.rows)[j] == events[j];
    JournalMember(events, j);
    var i :| 0 <= i < |LegsOf(x.rows[j])| && LegsOf(x.rows[j])[i].account == a;
    assert x.work.Legs()[i].account in x.locks;
  }

  /** Rows touch only accounts in a set. */
  ghost predicate Within(rows: seq<Row>, locks: set<AccountId>) {
    forall j, a :: 0 <= j < |rows| && Touches(rows[j], a) ==> a in locks
  }

  lemma RowsWithinLocks(db: Db, x: Txn)
    requires TxnSound(db, x)
    ensures Within(x.rows, x.locks)
  {
    forall j, a | 0 <= j < |x.rows| && Touches(x.rows[j], a) ensures a in x.locks { TouchesLocked(db, x, j, a); }
  }

  // ---- commits --------------------------------------------------------------

  lemma CommitKeepsIds(outbox: seq<Row>, next: nat, x: Txn)
    requires OutboxIds(outbox, next) && TxnIds(outbox, next, x) && Within(x.rows, x.locks)
    ensures OutboxIds(outbox + x.rows, next)
  {
    CommitKeepsUnique(outbox, x.rows);
    forall a ensures SharedInOrder(outbox + x.rows, a) {
      assert SharedInOrder(outbox, a);
      CommitKeepsShared(outbox, x.rows, x.locks, a);
    }
  }

  lemma CommitKeepsUnique(outbox: seq<Row>, rows: seq<Row>)
    requires UniqueRowIds(outbox) && IdsAscend(rows) && forall j :: 0 <= j < |rows| ==> IdFree(outbox, rows[j].id)
    ensures UniqueRowIds(outbox + rows)
  {
    var all := outbox + rows;
    forall i, j | 0 <= i < j < |all| ensures all[i].id != all[j].id {
      if i < |outbox| <= j { assert IdFree(outbox, rows[j - |outbox|].id); }
    }
  }

  lemma CommitKeepsShared(outbox: seq<Row>, rows: seq<Row>, locks: set<AccountId>, a: AccountId)
    requires SharedInOrder(outbox, a) && IdsAscend(rows) && Later(outbox, locks, rows) && Within(rows, locks)
    ensures SharedInOrder(outbox + rows, a)
  {
    var n, all := |outbox|, outbox + rows;
    forall i, j | 0 <= i < j < |all| && Touches(all[i], a) && Touches(all[j], a) ensures all[i].id < all[j].id {
      if j >= n {
        assert Touches(rows[j - n], a) && a in locks;
        if i < n { assert Touches(outbox[i], a); }
      }
    }
  }

  /** The rows a commit makes visible do not disturb what others have drawn. */
  lemma CommitKeepsTxnIds(outbox: seq<Row>, next: nat, x: Txn, y: Txn)
    requires Within(x.rows, x.locks) && x.locks !! y.locks && ApartIds(x.rows, y.rows) && TxnIds(outbox, next, y)
    ensures TxnIds(outbox + x.rows, next, y)
  {
    CommitKeepsLater(outbox, x.rows, x.locks, y.locks, y.rows);
    CommitKeepsFree(outbox, x.rows, y.rows);
  }

  lemma CommitKeepsLater(outbox: seq<Row>, rows: seq<Row>, held: set<AccountId>, locks: set<AccountId>, drawn: seq<Row>)
    requires Within(rows, held) && held !! locks && Later(outbox, locks, drawn)
    ensures Later(outbox + rows, locks, drawn)
  {
    var n, all := |outbox|, outbox + rows;
    forall i, a | n <= i < |all| && a in locks ensures !Touches(all[i], a) { NotTouched(rows, held, i - n, a); }
    forall i, j, a | 0 <= i < |all| && 0 <= j < |drawn| && a in locks && Touches(all[i], a)
      ensures all[i].id < drawn[j].id
    {
      assert i < n && Touches(outbox[i], a);
    }
  }

  lemma NotTouched(rows: seq<Row>, held: set<AccountId>, i: nat, a: AccountId)
    requires Within(rows, held) && a !in held && i < |rows|
    ensures !Touches(rows[i], a)
  {
  }

  lemma CommitKeepsFree(outbox: seq<Row>, rows: seq<Row>, drawn: seq<Row>)
    requires ApartIds(rows, drawn) && forall j :: 0 <= j < |drawn| ==> IdFree(outbox, drawn[j].id)
    ensures forall j :: 0 <= j < |drawn| ==> IdFree(outbox + rows, drawn[j].id)
  {
    forall j | 0 <= j < |drawn| ensures IdFree(outbox + rows, drawn[j].id) {
      assert IdFree(outbox, drawn[j].id);
    }
  }

  lemma CommitKeepsIdInv(pg: Pg, t: nat)
    requires TxnsSound(pg.db, pg.txns) && IdInv(pg) && Can(pg, CommitTxn(t))
    ensures IdInv(Do(pg, CommitTxn(t)))
  {
    var x, pg' := pg.txns[t], Do(pg, CommitTxn(t));
    RowsWithinLocks(pg.db, x);
    CommitKeepsIds(pg.db.outbox, pg.db.nextOutboxId, x);
    forall u | u in pg'.txns ensures TxnIds(pg'.db.outbox, pg'.db.nextOutboxId, pg'.txns[u]) {
      assert Disjoint(x, pg.txns[u]);
      CommitKeepsTxnIds(pg.db.outbox, pg.db.nextOutboxId, x, pg.txns[u]);
    }
  }

  // ---- drawing --------------------------------------------------------------

  lemma DrawKeepsTxnIds(outbox: seq<Row>, next: nat, x: Txn, row: Row)
    requires OutboxIds(outbox, next) && TxnIds(outbox, next, x) && row.id == next + 1
    ensures TxnIds(outbox, next + 1, x.(rows := x.rows + [row]))
  {
  }

  lemma RangeGrows(outbox: seq<Row>, next: nat, x: Txn)
    requires TxnIds(outbox, next, x)
    ensures TxnIds(outbox, next + 1, x)
  {
  }

  lemma SetKeepsIdInv(pg: Pg, t: nat, x: Txn)
    requires IdInv(pg) && TxnIds(pg.db.outbox, pg.db.nextOutboxId, x)
    requires forall u :: u in pg.txns && u != t ==>
               ApartIds(x.rows, pg.txns[u].rows) && ApartIds(pg.txns[u].rows, x.rows)
    ensures IdInv(pg.(txns := pg.txns[t := x]))
  {
  }

  lemma SequenceKeepsIdInv(pg: Pg)
    requires IdInv(pg)
    ensures IdInv(pg.(db := pg.db.(nextOutboxId := pg.db.nextOutboxId + 1)))
  {
    forall u | u in pg.txns ensures TxnIds(pg.db.outbox, pg.db.nextOutboxId + 1, pg.txns[u]) {
      RangeGrows(pg.db.outbox, pg.db.nextOutboxId, pg.txns[u]);
    }
  }

  lemma NewIdIsApart(pg: Pg, t: nat, row: Row, u: nat)
    requires IdInv(pg) && t in pg.txns && u in pg.txns && u != t && row.id == pg.db.nextOutboxId + 1
    ensures ApartIds(pg.txns[t].rows + [row], pg.txns[u].rows) && ApartIds(pg.txns[u].rows, pg.txns[t].rows + [row])
  {
    assert ApartIds(pg.txns[t].rows, pg.txns[u].rows);
    assert TxnIds(pg.db.outbox, pg.db.nextOutboxId, pg.txns[u]);
  }

  lemma EnqueueKeepsIdInv(pg: Pg, t: nat)
    requires IdInv(pg) && Can(pg, Enqueue(t))
    ensures IdInv(Do(pg, Enqueue(t)))
  {
    var x, next := pg.txns[t], pg.db.nextOutboxId;
    var row := Row(next + 1, x.work.Events()[|x.rows|], 0, None, None, None);
    EnqueueShape(pg, t, row);
    SequenceKeepsIdInv(pg);
    DrawKeepsTxnIds(pg.db.outbox, next, x, row);
    forall u | u in pg.txns && u != t
      ensures ApartIds(x.rows + [row], pg.txns[u].rows) && ApartIds(pg.txns[u].rows, x.rows + [row])
    {
      NewIdIsApart(pg, t, row, u);
    }
    SetKeepsIdInv(pg.(db := pg.db.(nextOutboxId := next + 1)), t, x.(rows := x.rows + [row]));
  }

  // ---- the other steps ------------------------------------------------------

  lemma DropKeepsIdInv(pg: Pg, t: nat)
    requires IdInv(pg)
    ensures IdInv(pg.(txns := pg.txns - {t}))
  {
  }

  lemma BeginKeepsIdInv(pg: Pg, t: nat, w: Work)
    requires IdInv(pg) && Can(pg, Begin(t, w))
    ensures IdInv(Do(pg, Begin(t, w)))
  {
    SetKeepsIdInv(pg, t, Txn(w, 0, map[], {}, false, []));
  }

  /** Locks are taken before the first id is drawn. */
  lemma PostKeepsIdInv(pg: Pg, t: nat)
    requires TxnsSound(pg.db, pg.txns) && IdInv(pg) && Can(pg, PostNext(t))
    ensures IdInv(Do(pg, PostNext(t)))
  {
    var posted := Advanced(pg.db, pg.txns[t]);
    if posted.Some? {
      NoRowsYet(pg.db, pg.txns[t]);
      SetKeepsIdInv(pg, t, posted.value);
    } else {
      DropKeepsIdInv(pg, t);
    }
  }

  lemma NoRowsYet(db: Db, x: Txn)
    requires TxnSound(db, x) && x.next < |x.work.Legs()|
    ensures x.rows == []
  {
  }

  lemma PlaceKeepsIdInv(pg: Pg, t: nat)
    requires IdInv(pg) && Can(pg, Place(t))
    ensures IdInv(Do(pg, Place(t)))
  {
    DropKeepsIdInv(pg, t);
    SetKeepsIdInv(pg, t, pg.txns[t].(placed := true));
  }

  lemma TouchesMessage(row: Row, row': Row, a: AccountId)
    requires SameMessage(row, row')
    ensures Touches(row, a) <==> Touches(row', a)
  {
    assert LegsOf(row) == LegsOf(row');
  }

  lemma TendKeepsIds(rows: seq<Row>, rows': seq<Row>, next: nat)
    requires OutboxIds(rows, next) && SameMessages(rows, rows')
    ensures OutboxIds(rows', next)
  {
    assert forall i :: 0 <= i < |rows| ==> SameMessage(rows[i], rows'[i]);
    forall a ensures SharedInOrder(rows', a) {
      assert SharedInOrder(rows, a);
      forall i | 0 <= i < |rows| ensures Touches(rows[i], a) <==> Touches(rows'[i], a) {
        TouchesMessage(rows[i], rows'[i], a);
      }
    }
  }

  lemma TendKeepsTxnIds(rows: seq<Row>, rows': seq<Row>, next: nat, x: Txn)
    requires TxnIds(rows, next, x) && SameMessages(rows, rows')
    ensures TxnIds(rows', next, x)
  {
    assert forall i :: 0 <= i < |rows| ==> SameMessage(rows[i], rows'[i]);
    forall i, j, a | 0 <= i < |rows'| && 0 <= j < |x.rows| && a in x.locks && Touches(rows'[i], a)
      ensures rows'[i].id < x.rows[j].id
    {
      TouchesMessage(rows[i], rows'[i], a);
    }
    forall j | 0 <= j < |x.rows| ensures IdFree(rows', x.rows[j].id) { assert IdFree(rows, x.rows[j].id); }
  }

  lemma TendKeepsIdInv(pg: Pg, rows: seq<Row>)
    requires IdInv(pg) && Can(pg, Tend(rows))
    ensures IdInv(Do(pg, Tend(rows)))
  {
    TendKeepsIds(pg.db.outbox, rows, pg.db.nextOutboxId);
    forall u | u in pg.txns ensures TxnIds(rows, pg.db.nextOutboxId, pg.txns[u]) {
      TendKeepsTxnIds(pg.db.outbox, rows, pg.db.nextOutboxId, pg.txns[u]);
    }
  }

  lemma AbortKeepsIdInv(pg: Pg, t: nat)
    requires IdInv(pg) && Can(pg, Abort(t))
    ensures IdInv(Do(pg, Abort(t)))
  {
    DropKeepsIdInv(pg, t);
  }

  lemma SweepKeepsIdInv(pg: Pg, cutoff: Time)
    requires IdInv(pg)
    ensures IdInv(Do(pg, Sweep(cutoff)))
  {
  }

  lemma StepKeepsIdInv(pg: Pg, a: Action)
    requires TxnsSound(pg.db, pg.txns) && IdInv(pg)
    ensures IdInv(Do(pg, a))
  {
    if Can(pg, a) {
      match a
      case Begin(t, w) => BeginKeepsIdInv(pg, t, w);
      case PostNext(t) => PostKeepsIdInv(pg, t);
      case Place(t) => PlaceKeepsIdInv(pg, t);
      case Enqueue(t) => EnqueueKeepsIdInv(pg, t);
      case CommitTxn(t) => CommitKeepsIdInv(pg, t);
      case Abort(t) => AbortKeepsIdInv(pg, t);
      case Sweep(cutoff) => SweepKeepsIdInv(pg, cutoff);
      case Tend(rows) => TendKeepsIdInv(pg, rows);
    }
  }

  lemma {:induction false} AlwaysIdInv(seeded: Accounts, actions: seq<Action>)
    ensures IdInv(Exec(Start(seeded), actions))
  {
    if actions != [] {
      var n := |actions| - 1;
      AlwaysIdInv(seeded, actions[..n]);
      ExecKeepsInv(seeded, actions[..n]);
      StepKeepsIdInv(Exec(Start(seeded), actions[..n]), actions[n]);
    }
  }

  // ---- theorems -------------------------------------------------------------

  lemma EventsDistinct(seeded: Accounts, actions: seq<Action>)
    ensures DistinctIds(EventsOf(Exec(Start(seeded), actions).db.outbox))
  {
    Serialisable(seeded, actions);
    SerialIsSound(seeded, Exec(Start(seeded), actions).history);
  }

  /** In every state the interleaved adapter can reach: row ids and event ids are unique, entries
      on one account stand in commit order, and reading the outbox in id order adds up to the
      balance table, although id order is not commit order. */
  lemma IdOrderIsSound(seeded: Accounts, actions: seq<Action>)
    ensures var db := Exec(Start(seeded), actions).db;
            && UniqueRowIds(db.outbox) && DistinctIds(EventsOf(db.outbox)) && Ordered(db.outbox)
            && IdsAscend(InIdOrder(db.outbox))
            && AddAll(map[], Postings(Journals(InIdOrder(db.outbox)))) == Ok(db.balances)
  {
    AlwaysIdInv(seeded, actions);
    EventsDistinct(seeded, actions);
    InterleavedBooksAreSound(seeded, actions);
    var db := Exec(Start(seeded), actions).db;
    SortAscends(db.outbox);
    IdOrderRebuilds(db.outbox, db.balances);
  }
}
