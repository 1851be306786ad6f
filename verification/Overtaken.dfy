/** A run of the database in which a finished replay has lost an entry: two entries on disjoint
    accounts, of which the one with the larger row id commits first
    (crates/storage-postgres/src/store.rs:344-378, projection.rs:186-215). */
module Overtaken {
  import opened Sequences
  import opened Amounts
  import opened Journal
  import opened Balances
  import opened Store
  import opened Invariants
  import opened Projection
  import opened Coverage
  import opened Reconciler
  import opened Replay
  import opened Recovery
  import opened Startup
  import opened Transactions
  import opened ById
  import opened Visibility
  import opened PgReplay

  const FOUR: Accounts :=
    map[1 := Account(1, "a", AllowNegative, Active), 2 := Account(2, "b", AllowNegative, Active),
        3 := Account(3, "c", AllowNegative, Active), 4 := Account(4, "d", AllowNegative, Active)]

  function Cell(a: AccountId): Key { Key(a, "USD") }

  function Legs(from: AccountId, to: AccountId): seq<Posting> {
    [Posting(from, "USD", -5, Credit), Posting(to, "USD", 5, Debit)]
  }

  /** Five units from one account to another, as transaction `n`. */
  function Entry(n: nat, key: string, from: AccountId, to: AccountId): JournalCommit {
    var e := JournalEntry(n, key, "", Legs(from, to), 0);
    JournalCommit(e, [Event(n, JournalPosted(e), 0)], Record(Slot("", key), "", EntryPosted(n, "", 0), 0))
  }

  // ---- one transaction up to its outbox row ---------------------------------

  function Statements(t: nat, c: JournalCommit): seq<Transactions.Action> {
    [Begin(t, Post(c)), PostNext(t), PostNext(t), Enqueue(t)]
  }

  function RowOf(c: JournalCommit, id: nat): Row
    requires |c.events| == 1
  {
    Row(id, c.events[0], 0, None, None, None)
  }

  /** The transaction with everything written but not committed. */
  function Ready(c: JournalCommit, from: AccountId, to: AccountId, id: nat): Txn
    requires |c.events| == 1
  {
    Txn(Post(c), 2, map[Cell(from) := -5, Cell(to) := 5], {from, to}, false, [RowOf(c, id)])
  }

  lemma FourSteps(pg: Pg, a: Transactions.Action, b: Transactions.Action, c: Transactions.Action,
                  d: Transactions.Action, pg1: Pg, pg2: Pg, pg3: Pg, pg4: Pg)
    requires Transactions.Do(pg, a) == pg1 && Transactions.Do(pg1, b) == pg2
    requires Transactions.Do(pg2, c) == pg3 && Transactions.Do(pg3, d) == pg4
    ensures Transactions.Exec(pg, [a, b, c, d]) == pg4
  {
    ExecCons(pg, a, [b, c, d]);
    ThreeSteps(pg1, b, c, d);
    assert [a] + [b, c, d] == [a, b, c, d];
  }

  lemma LegRuns(db: Db, x: Txn)
    requires db.accounts == FOUR && x.next < |x.work.Legs()| && x.work.Legs()[x.next].account in FOUR
    requires Get(Seen(db, x), x.work.Legs()[x.next].Cell()) == 0
    ensures var p := x.work.Legs()[x.next];
            Advanced(db, x) ==
            Some(x.(next := x.next + 1, locks := x.locks + {p.account}, writes := x.writes[p.Cell() := p.amount]))
  {
  }

  /** The transaction after its two legs. */
  lemma LegsRun(db: Db, c: JournalCommit, from: AccountId, to: AccountId)
    requires db.accounts == FOUR && from in FOUR && to in FOUR && from != to && c.entry.postings == Legs(from, to)
    requires Cell(from) !in db.balances && Cell(to) !in db.balances
    ensures var x0 := Txn(Post(c), 0, map[], {}, false, []);
            var x1 := Txn(Post(c), 1, map[Cell(from) := -5], {from}, false, []);
            && Advanced(db, x0) == Some(x1)
            && Advanced(db, x1) == Some(Txn(Post(c), 2, map[Cell(from) := -5, Cell(to) := 5], {from, to}, false, []))
  {
    var x0 := Txn(Post(c), 0, map[], {}, false, []);
    var x1 := Txn(Post(c), 1, map[Cell(from) := -5], {from}, false, []);
    LegRuns(db, x0);
    assert map[][Cell(from) := -5] == map[Cell(from) := -5] && {} + {from} == {from};
    LegRuns(db, x1);
    assert {from} + {to} == {from, to};
  }

  lemma PostRuns(pg: Pg, txns: map<nat, Txn>, t: nat, x: Txn, x': Txn)
    requires pg.txns == txns[t := x] && x.next < |x.work.Legs()| && Advanced(pg.db, x) == Some(x')
    requires forall u :: u in txns && u != t ==> x.work.Legs()[x.next].account !in txns[u].locks
    ensures Transactions.Do(pg, PostNext(t)) == pg.(txns := txns[t := x'])
  {
    assert Transactions.Can(pg, PostNext(t));
    assert pg.txns[t := x'] == txns[t := x'];
  }

  lemma StatementsRun(pg: Pg, t: nat, c: JournalCommit, from: AccountId, to: AccountId)
    requires Transactions.Can(pg, Begin(t, Post(c))) && c.record.slot !in pg.db.idempotency
    requires pg.db.accounts == FOUR && from in FOUR && to in FOUR && from != to
    requires c.entry.postings == Legs(from, to) && |c.events| == 1
    requires Cell(from) !in pg.db.balances && Cell(to) !in pg.db.balances
    requires forall u :: u in pg.txns ==> from !in pg.txns[u].locks && to !in pg.txns[u].locks
    ensures var id := pg.db.nextOutboxId + 1;
            Transactions.Exec(pg, Statements(t, c)) ==
            Pg(pg.db.(nextOutboxId := id), pg.txns[t := Ready(c, from, to, id)], pg.history)
  {
    var x0 := Txn(Post(c), 0, map[], {}, false, []);
    var x1 := Txn(Post(c), 1, map[Cell(from) := -5], {from}, false, []);
    var x2 := Txn(Post(c), 2, map[Cell(from) := -5, Cell(to) := 5], {from, to}, false, []);
    BeginRuns(pg, t, Post(c));
    BothPost(pg, t, c, from, to, x0, x1, x2);
    Enqueues(pg, t, c, from, to, x2);
    var id := pg.db.nextOutboxId + 1;
    FourSteps(pg, Begin(t, Post(c)), PostNext(t), PostNext(t), Enqueue(t),
              pg.(txns := pg.txns[t := x0]), pg.(txns := pg.txns[t := x1]), pg.(txns := pg.txns[t := x2]),
              Pg(pg.db.(nextOutboxId := id), pg.txns[t := Ready(c, from, to, id)], pg.history));
  }

  lemma Enqueues(pg: Pg, t: nat, c: JournalCommit, from: AccountId, to: AccountId, x: Txn)
    requires x == Txn(Post(c), 2, map[Cell(from) := -5, Cell(to) := 5], {from, to}, false, [])
    requires c.entry.postings == Legs(from, to) && |c.events| == 1
    ensures var id := pg.db.nextOutboxId + 1;
            Transactions.Do(pg.(txns := pg.txns[t := x]), Enqueue(t)) ==
            Pg(pg.db.(nextOutboxId := id), pg.txns[t := Ready(c, from, to, id)], pg.history)
  {
    EnqueueRuns(pg.(txns := pg.txns[t := x]), pg.txns, t, x);
  }

  lemma BothPost(pg: Pg, t: nat, c: JournalCommit, from: AccountId, to: AccountId, x0: Txn, x1: Txn, x2: Txn)
    requires x0 == Txn(Post(c), 0, map[], {}, false, [])
    requires x1 == Txn(Post(c), 1, map[Cell(from) := -5], {from}, false, [])
    requires x2 == Txn(Post(c), 2, map[Cell(from) := -5, Cell(to) := 5], {from, to}, false, [])
    requires pg.db.accounts == FOUR && from in FOUR && to in FOUR && from != to && c.entry.postings == Legs(from, to)
    requires Cell(from) !in pg.db.balances && Cell(to) !in pg.db.balances
    requires forall u :: u in pg.txns ==> from !in pg.txns[u].locks && to !in pg.txns[u].locks
    ensures Transactions.Do(pg.(txns := pg.txns[t := x0]), PostNext(t)) == pg.(txns := pg.txns[t := x1])
    ensures Transactions.Do(pg.(txns := pg.txns[t := x1]), PostNext(t)) == pg.(txns := pg.txns[t := x2])
  {
    LegsRun(pg.db, c, from, to);
    PostRuns(pg.(txns := pg.txns[t := x0]), pg.txns, t, x0, x1);
    PostRuns(pg.(txns := pg.txns[t := x1]), pg.txns, t, x1, x2);
  }

  // ---- two transactions, the later id first ---------------------------------

  function First(): JournalCommit { Entry(1, "first", 1, 2) }
  function Second(): JournalCommit { Entry(2, "second", 3, 4) }

  lemma EntryIsValid(n: nat, key: string, from: AccountId, to: AccountId)
    ensures Validated(Post(Entry(n, key, from, to))) && |Entry(n, key, from, to).events| == 1
    ensures Fresh([], Entry(n, key, from, to).events)
  {
    var c := Entry(n, key, from, to);
    assert c.events[..0] == [] && JournalsOf(c.events) == [] + [c.entry];
    TwoLegs(c.entry.postings);
  }

  function Setup(): seq<Transactions.Action> {
    (Statements(1, First()) + Statements(2, Second())) + [CommitTxn(2)]
  }

  function OneReady(): Pg
  {
    Pg(Opened(FOUR).(nextOutboxId := 1), map[1 := Ready(First(), 1, 2, 1)], [])
  }

  lemma FirstReady()
    ensures Transactions.Exec(Start(FOUR), Statements(1, First())) == OneReady()
  {
    EntryIsValid(1, "first", 1, 2);
    assert Transactions.Can(Start(FOUR), Begin(1, Post(First())));
    StatementsRun(Start(FOUR), 1, First(), 1, 2);
  }

  lemma SecondReady()
    ensures Transactions.Exec(OneReady(), Statements(2, Second())) ==
            Pg(Opened(FOUR).(nextOutboxId := 2), map[1 := Ready(First(), 1, 2, 1), 2 := Ready(Second(), 3, 4, 2)], [])
  {
    EntryIsValid(2, "second", 3, 4);
    assert Transactions.Can(OneReady(), Begin(2, Post(Second())));
    StatementsRun(OneReady(), 2, Second(), 3, 4);
  }

  lemma BothReady()
    ensures Transactions.Exec(Start(FOUR), Statements(1, First()) + Statements(2, Second())) ==
            Pg(Opened(FOUR).(nextOutboxId := 2), map[1 := Ready(First(), 1, 2, 1), 2 := Ready(Second(), 3, 4, 2)], [])
  {
    FirstReady();
    SecondReady();
    Visibility.ExecConcat(Start(FOUR), Statements(1, First()), Statements(2, Second()));
  }

  /** The database after the setup: row 2 is visible, row 1 is held back by transaction 1. */
  ghost predicate HalfWay(pg: Pg) {
    && pg.db.outbox == [RowOf(Second(), 2)]
    && pg.db.balances == map[Cell(3) := -5, Cell(4) := 5]
    && pg.txns == map[1 := Ready(First(), 1, 2, 1)]
  }

  lemma SetupRuns()
    ensures HalfWay(Transactions.Exec(Start(FOUR), Setup()))
  {
    BothReady();
    var statements := Statements(1, First()) + Statements(2, Second());
    Visibility.ExecConcat(Start(FOUR), statements, [CommitTxn(2)]);
    var pg := Transactions.Exec(Start(FOUR), statements);
    ExecSingle(pg, CommitTxn(2));
    assert pg.txns[2].Complete();
    assert [] + [RowOf(Second(), 2)] == [RowOf(Second(), 2)];
  }

  /** A cursor that has reached the visible row is not safe: an entry is held back behind it. */
  lemma EntryHeldBack()
    ensures var pg := Transactions.Exec(Start(FOUR), Setup());
            |pg.db.outbox| == 1 && pg.db.outbox[0].id == 2 && Drawn(pg, 1) && !Safe(pg, 2)
  {
    SetupRuns();
    var pg := Transactions.Exec(Start(FOUR), Setup());
    assert pg.txns[1].rows[0].id == 1 && DrewIn(pg.txns[1].rows, 1);
    assert Drawn(pg, 1) && !Safe(pg, 2);
  }

  // ---- the replay -----------------------------------------------------------

  const READER: ConsumerName := "reader"

  /** Fetch one row, apply it; then the held-back entry commits; fetch again, and finish. */
  function Turns(): seq<Turn> { [] + [Onward] + [Onward] + [Database(CommitTxn(1))] + [Onward] }

  lemma FourTurns(d: Desk, a: Turn, b: Turn, c: Turn, e: Turn)
    ensures TakeAll(d, [] + [a] + [b] + [c] + [e]) == Take(Take(Take(Take(d, a), b), c), e)
  {
    TurnSnoc(d, [], a);
    TurnSnoc(d, [] + [a], b);
    TurnSnoc(d, [] + [a] + [b], c);
    TurnSnoc(d, [] + [a] + [b] + [c], e);
  }

  lemma TurnSnoc(d: Desk, turns: seq<Turn>, m: Turn)
    ensures TakeAll(d, turns + [m]) == Take(TakeAll(d, turns), m)
  {
    SnocInit(turns, m);
  }

  lemma OneRowBatch(row: Row)
    requires row.id > 0
    ensures InIdOrder([row]) == [row]
    ensures FetchAfter(SourceLog([row]), 0, 1) == [SourcedEvent(row.id, row.event)]
  {
    assert [row][..0] == [] && InIdOrder([]) == [];
    AfterAll(SourceLog([row]), 0);
    assert SourceLog([row]) == [SourcedEvent(row.id, row.event)];
  }

  lemma NothingBeyond(a: Row, b: Row)
    requires a.id < b.id
    ensures InIdOrder([b, a]) == [a, b] && FetchAfter(SourceLog([a, b]), b.id, 1) == []
  {
    assert [b, a][..1] == [b] && [b][..0] == [];
    assert InIdOrder([b]) == [b];
    AfterNone(SourceLog([a, b]), b.id);
  }

  function Visit(c: JournalCommit, id: nat): SourcedEvent
    requires |c.events| == 1
  {
    SourcedEvent(id, c.events[0])
  }

  /** After the first fetch. */
  lemma FirstFetch(pg: Pg)
    requires HalfWay(pg)
    ensures var d := Take(Open(pg, EMPTY_TABLES, READER, 1), Onward);
            && d.pg == pg && d.tables == EMPTY_TABLES
            && d.replay == Replayer(READER, 1, 0, 1, Applying([Visit(Second(), 2)], 0))
  {
    OneRowBatch(RowOf(Second(), 2));
  }

  lemma LegsAdd(from: AccountId, to: AccountId)
    ensures AddAll(map[], Legs(from, to)).Ok?
    ensures forall k :: Get(AddAll(map[], Legs(from, to)).value, k) == Net(Legs(from, to), k)
  {
    var ps := Legs(from, to);
    TwoLegs(ps);
    assert FitsAfter(map[], ps, 1) && FitsAfter(map[], ps, 2);
    AddAllExact(map[], ps);
  }

  lemma NothingYet()
    ensures Processed(EMPTY_TABLES, READER) == {} && View(EMPTY_TABLES, READER) == map[]
  {
  }

  /** Applying the visible entry. */
  lemma Applies(t: Tables)
    requires t == Project(EMPTY_TABLES, READER, Second().events[0]).1
    ensures Project(EMPTY_TABLES, READER, Second().events[0]).0 == Ok(ApplyOutcome.Applied)
    ensures Processed(t, READER) == {2} && forall k :: Get(View(t, READER), k) == Net(Legs(3, 4), k)
  {
    LegsAdd(3, 4);
    FirstEvent(Second().events[0], t);
  }

  lemma FirstEvent(e: Event, t: Tables)
    requires e.payload.JournalPosted? && AddAll(map[], e.payload.entry.postings).Ok?
    requires t == Project(EMPTY_TABLES, READER, e).1
    ensures Project(EMPTY_TABLES, READER, e).0 == Ok(ApplyOutcome.Applied)
    ensures Processed(t, READER) == {e.id} && AddAll(map[], e.payload.entry.postings) == Ok(View(t, READER))
  {
    NothingYet();
    ProjectEffect(EMPTY_TABLES, READER, e);
  }

  lemma SecondTurn(d: Desk)
    requires d.tables == EMPTY_TABLES && d.replay == Replayer(READER, 1, 0, 1, Applying([Visit(Second(), 2)], 0))
    ensures var d' := Take(d, Onward);
            && d'.pg == d.pg && d'.replay == Replayer(READER, 1, 2, 1, Idle)
            && d'.tables == Project(EMPTY_TABLES, READER, Second().events[0]).1
  {
    Applies(Project(EMPTY_TABLES, READER, Second().events[0]).1);
  }

  /** The held-back entry commits behind the cursor. */
  lemma Overtakes(pg: Pg)
    requires HalfWay(pg)
    ensures var pg' := Transactions.Do(pg, CommitTxn(1));
            && pg'.db.outbox == [RowOf(Second(), 2), RowOf(First(), 1)]
            && Get(pg'.db.balances, Cell(1)) == -5
  {
    assert pg.txns[1].Complete();
    assert [RowOf(Second(), 2)] + [RowOf(First(), 1)] == [RowOf(Second(), 2), RowOf(First(), 1)];
  }

  lemma LastFetch(d: Desk)
    requires d.replay == Replayer(READER, 1, 2, 1, Idle)
    requires d.pg.db.outbox == [RowOf(Second(), 2), RowOf(First(), 1)]
    ensures var d' := Take(d, Onward);
            d'.pg == d.pg && d'.tables == d.tables && d'.replay == Replayer(READER, 1, 2, 2, Stage.Finished)
  {
    NothingBeyond(RowOf(First(), 1), RowOf(Second(), 2));
  }

  /** The replay is finished; both rows were visible at its last fetch; the entry of the second
      one is not processed, and the read model differs from the ledger. */
  lemma ReplayLosesAnEntry()
    ensures var d := TakeAll(Open(Transactions.Exec(Start(FOUR), Setup()), EMPTY_TABLES, READER, 1), Turns());
            && d.replay.stage.Finished? && d.replay.present == |d.pg.db.outbox| == 2
            && d.pg.db.outbox[1].event.payload.JournalPosted?
            && !Done(d.tables, READER, d.pg.db.outbox[1].event)
            && !Mirrors(d.pg.db, d.tables, READER)
  {
    SetupRuns();
    var pg := Transactions.Exec(Start(FOUR), Setup());
    var d0 := Open(pg, EMPTY_TABLES, READER, 1);
    FourTurns(d0, Onward, Onward, Database(CommitTxn(1)), Onward);
    FirstFetch(pg);
    var d1 := Take(d0, Onward);
    SecondTurn(d1);
    var d2 := Take(d1, Onward);
    Overtakes(pg);
    var d3 := Take(d2, Database(CommitTxn(1)));
    LastFetch(d3);
    Applies(d2.tables);
    Lost(d3.pg.db, d2.tables);
  }

  lemma Lost(db: Db, t: Tables)
    requires Get(db.balances, Cell(1)) == -5 && forall k :: Get(View(t, READER), k) == Net(Legs(3, 4), k)
    ensures !Mirrors(db, t, READER)
  {
    TwoLegs(Legs(3, 4));
    assert Differs(db.balances, View(t, READER), Cell(1));
  }
}
