/** PostgreSQL transactions interleaved statement by statement under row and key locks
    (crates/storage-postgres/src/store.rs:63-230, 236-272, 344-378), their serialisability, and
    what a reader of the outbox by cursor can miss.

    Assumed of the database: a transaction sees its own writes and otherwise the committed
    state; `FOR UPDATE` on an account row, the unique index on `(scope, key)` and the unique
    index on account names exclude other transactions until commit or rollback; a rolled-back
    transaction leaves nothing behind except drawn sequence values. */
module Transactions {
  import opened Amounts
  import opened Journal
  import opened Balances
  import opened Store
  import opened Invariants

  /** What a transaction is for: posting an entry or opening an account. */
  datatype Work = Post(commit: JournalCommit) | Opening(opening: AccountCommit) {
    function Stamp(): Record { if Post? then commit.record else opening.record }
    function Events(): seq<Event> { if Post? then commit.events else opening.events }
    function Legs(): seq<Posting> { if Post? then commit.entry.postings else [] }
  }

  /** A transaction in flight: `next` postings applied, its uncommitted balance rows, the
      account rows it has locked, whether its account row is inserted, and the outbox rows it
      has inserted so far. */
  datatype Txn = Txn(work: Work, next: nat, writes: Table, locks: set<AccountId>, placed: bool, rows: seq<Row>) {
    /** Everything but the outbox is written. */
    predicate Written() { next == |work.Legs()| && (work.Opening? ==> placed) }
    predicate Complete() { Written() && |rows| == |work.Events()| }
  }

  datatype Op = Finished(work: Work) | Swept(cutoff: Time)

  datatype Pg = Pg(db: Db, txns: map<nat, Txn>, history: seq<Op>)

  datatype Action =
    | Begin(txn: nat, work: Work)
    | PostNext(txn: nat)
    | Place(txn: nat)
    | Enqueue(txn: nat)
    | CommitTxn(txn: nat)
    | Abort(txn: nat)
    | Sweep(cutoff: Time)
    | Tend(rows: seq<Row>)

  function Start(seeded: Accounts): Pg {
    Pg(Opened(seeded), map[], [])
  }

  predicate KeyHeld(pg: Pg, slot: Slot) {
    exists t :: t in pg.txns && pg.txns[t].work.Stamp().slot == slot
  }

  predicate LockFree(pg: Pg, t: nat, a: AccountId) {
    forall u :: u in pg.txns && u != t ==> a !in pg.txns[u].locks
  }

  /** Another open transaction has inserted an account of that name. */
  predicate NameHeld(pg: Pg, t: nat, name: string) {
    exists u :: u in pg.txns && u != t && pg.txns[u].work.Opening? && pg.txns[u].placed
                && pg.txns[u].work.opening.account.name == name
  }

  predicate Apart(x: seq<Event>, y: seq<Event>) {
    forall i, j :: 0 <= i < |x| && 0 <= j < |y| ==> x[i].id != y[j].id
  }

  predicate DifferentAccounts(x: Work, y: Work) {
    x.Opening? && y.Opening? ==> x.opening.account.id != y.opening.account.id
  }

  /** Identifiers are fresh UUIDs, also against transactions in flight. */
  predicate FreshInFlight(pg: Pg, w: Work) {
    && Fresh(pg.db.outbox, w.Events())
    && (w.Opening? ==> w.opening.account.id !in pg.db.accounts)
    && forall t :: t in pg.txns ==> Apart(w.Events(), pg.txns[t].work.Events()) && DifferentAccounts(w, pg.txns[t].work)
  }

  /** The transaction's own view of the balance table. */
  function Seen(db: Db, x: Txn): Table { db.balances + x.writes }

  /** What the command service hands over: a validated entry and its events, or an account. */
  ghost predicate Validated(w: Work) {
    match w
    case Post(c) => Balanced(c.entry.postings) && JournalsOf(c.events) == [c.entry]
    case Opening(c) => JournalsOf(c.events) == []
  }

  ghost predicate Can(pg: Pg, a: Action) {
    match a
    case Begin(t, w) => t !in pg.txns && !KeyHeld(pg, w.Stamp().slot) && Validated(w) && FreshInFlight(pg, w)
    case PostNext(t) =>
      && t in pg.txns && pg.txns[t].next < |pg.txns[t].work.Legs()|
      && LockFree(pg, t, pg.txns[t].work.Legs()[pg.txns[t].next].account)
    case Place(t) =>
      && t in pg.txns && pg.txns[t].work.Opening? && !pg.txns[t].placed
      && !NameHeld(pg, t, pg.txns[t].work.opening.account.name)
    case Enqueue(t) => t in pg.txns && pg.txns[t].Written() && |pg.txns[t].rows| < |pg.txns[t].work.Events()|
    case CommitTxn(t) => t in pg.txns && pg.txns[t].Complete()
    case Abort(t) => t in pg.txns
    case Sweep(_) => true
    case Tend(rows) => SameMessages(pg.db.outbox, rows)
  }

  /** Lock the account row, read the row as this transaction sees it, write it back; an error
      ends the transaction. */
  function Advanced(db: Db, x: Txn): Option<Txn>
    requires x.next < |x.work.Legs()|
  {
    var p := x.work.Legs()[x.next];
    var applied := ApplyOne(db.accounts, Seen(db, x), p);
    if applied.Err? then None
    else Some(x.(next := x.next + 1, locks := x.locks + {p.account},
                 writes := x.writes[p.Cell() := Get(applied.value, p.Cell())]))
  }

  function PostStep(pg: Pg, t: nat): Pg
    requires t in pg.txns && pg.txns[t].next < |pg.txns[t].work.Legs()|
  {
    var posted := Advanced(pg.db, pg.txns[t]);
    pg.(txns := if posted.Some? then pg.txns[t := posted.value] else pg.txns - {t})
  }

  /** Insert the account row; a taken name rolls the transaction back. */
  function PlaceStep(pg: Pg, t: nat): Pg
    requires t in pg.txns && pg.txns[t].work.Opening?
  {
    if NameTaken(pg.db.accounts, pg.txns[t].work.opening.account.name) then pg.(txns := pg.txns - {t})
    else pg.(txns := pg.txns[t := pg.txns[t].(placed := true)])
  }

  /** Insert the next outbox row; its id is drawn now and visible at commit. */
  function EnqueueStep(pg: Pg, t: nat): Pg
    requires t in pg.txns && |pg.txns[t].rows| < |pg.txns[t].work.Events()|
  {
    var x, id := pg.txns[t], pg.db.nextOutboxId + 1;
    var row := Row(id, x.work.Events()[|x.rows|], 0, None, None, None);
    pg.(db := pg.db.(nextOutboxId := id), txns := pg.txns[t := x.(rows := x.rows + [row])])
  }

  /** The committed state once this transaction's writes become visible. */
  function Applied(db: Db, x: Txn): Db {
    var r := x.work.Stamp();
    var db' := db.(idempotency := db.idempotency[r.slot := r], outbox := db.outbox + x.rows);
    match x.work
    case Post(c) => db'.(balances := Seen(db, x), entries := db.entries + [c.entry])
    case Opening(c) => db'.(accounts := db.accounts[c.account.id := c.account])
  }

  /** One step; a blocked or impossible one changes nothing. A `Begin` that finds its key
      committed rolls back at once: the duplicate outcome. `Tend` is any claiming, marking or
      failing of visible outbox rows. */
  ghost function Do(pg: Pg, a: Action): Pg {
    if !Can(pg, a) then pg
    else match a
      case Begin(t, w) =>
        if w.Stamp().slot in pg.db.idempotency then pg
        else pg.(txns := pg.txns[t := Txn(w, 0, map[], {}, false, [])])
      case PostNext(t) => PostStep(pg, t)
      case Place(t) => PlaceStep(pg, t)
      case Enqueue(t) => EnqueueStep(pg, t)
      case CommitTxn(t) =>
        Pg(Applied(pg.db, pg.txns[t]), pg.txns - {t}, pg.history + [Finished(pg.txns[t].work)])
      case Abort(t) => pg.(txns := pg.txns - {t})
      case Sweep(cutoff) => pg.(db := Purge(pg.db, cutoff), history := pg.history + [Swept(cutoff)])
      case Tend(rows) => pg.(db := pg.db.(outbox := rows))
  }

  ghost function Exec(pg: Pg, actions: seq<Action>): Pg {
    if actions == [] then pg else Do(Exec(pg, actions[..|actions| - 1]), actions[|actions| - 1])
  }

  // ---- the serial reference -------------------------------------------------

  function SerialStep(db: Db, op: Op): Db {
    match op
    case Finished(Post(c)) => CommitJournal(db, c).1
    case Finished(Opening(c)) => CreateAccount(db, c).1
    case Swept(cutoff) => Purge(db, cutoff)
  }

  /** A transaction the service may issue on this state, and which commits on it. */
  ghost predicate Succeeds(db: Db, op: Op) {
    match op
    case Finished(Post(c)) => Proper(db.outbox, c) && CommitJournal(db, c).0 == Ok(Committed)
    case Finished(Opening(c)) => ProperAccount(db, c) && CreateAccount(db, c).0 == Ok(Committed)
    case Swept(_) => true
  }

  /** One transaction at a time, in commit order. */
  function Serial(db: Db, history: seq<Op>): Db {
    if history == [] then db else SerialStep(Serial(db, history[..|history| - 1]), history[|history| - 1])
  }

  ghost predicate AllSucceed(db: Db, history: seq<Op>) {
    forall i | 0 <= i < |history| :: Succeeds(Serial(db, history[..i]), history[i])
  }

  /** Equal up to outbox row ids, which are drawn before commit, and relay bookkeeping. */
  predicate SameLedger(a: Db, b: Db) {
    && a.accounts == b.accounts && a.entries == b.entries && a.balances == b.balances
    && a.idempotency == b.idempotency && EventsOf(a.outbox) == EventsOf(b.outbox)
  }

  // ---- framing --------------------------------------------------------------

  /** Rows the postings do not touch do not matter to them. */
  lemma {:induction false} ApplyFrame(accounts: Accounts, t: Table, w: Table, ps: seq<Posting>)
    requires ApplyAll(accounts, t, ps).Ok? && forall i :: 0 <= i < |ps| ==> ps[i].Cell() !in w
    ensures ApplyAll(accounts, t + w, ps) == Ok(ApplyAll(accounts, t, ps).value + w)
  {
    if ps != [] {
      var n := |ps| - 1;
      ApplyFrame(accounts, t, w, ps[..n]);
      var mid, p := ApplyAll(accounts, t, ps[..n]).value, ps[n];
      assert Get(mid + w, p.Cell()) == Get(mid, p.Cell());
      var sum := CheckedAdd(Get(mid, p.Cell()), p.amount);
      assert ApplyAll(accounts, t, ps) == ApplyOne(accounts, mid, p);
      assert (mid + w)[p.Cell() := sum.value] == mid[p.Cell() := sum.value] + w;
    }
  }

  /** Nor do accounts opened meanwhile. */
  lemma {:induction false} ApplyMoreAccounts(accounts: Accounts, a: Account, t: Table, ps: seq<Posting>)
    requires ApplyAll(accounts, t, ps).Ok? && a.id !in accounts
    ensures ApplyAll(accounts[a.id := a], t, ps) == ApplyAll(accounts, t, ps)
  {
    if ps != [] { ApplyMoreAccounts(accounts, a, t, ps[..|ps| - 1]); }
  }

  // ---- the invariant --------------------------------------------------------

  /** What a transaction has posted so far, it would post again on the current committed
      state, and it holds the locks for it. */
  ghost predicate PostedSo(accounts: Accounts, t: Table, ps: seq<Posting>, next: nat, writes: Table,
                           locks: set<AccountId>) {
    && next <= |ps|
    && ApplyAll(accounts, t, ps[..next]) == Ok(t + writes)
    && (forall i :: 0 <= i < next ==> ps[i].account in locks)
    && (forall k :: k in writes ==> k.account in locks)
  }

  /** Its account is new, and once inserted its name is too. */
  predicate AccountFree(accounts: Accounts, w: Work, placed: bool) {
    w.Opening? ==> w.opening.account.id !in accounts && (placed ==> !NameTaken(accounts, w.opening.account.name))
  }

  /** Its outbox rows are its first events, none of them visible yet. */
  predicate Queued(outbox: seq<Row>, events: seq<Event>, rows: seq<Row>) {
    Fresh(outbox, events) && |rows| <= |events| && EventsOf(rows) == events[..|rows|]
  }

  ghost predicate TxnSound(db: Db, x: Txn) {
    && PostedSo(db.accounts, db.balances, x.work.Legs(), x.next, x.writes, x.locks)
    && x.work.Stamp().slot !in db.idempotency
    && Validated(x.work)
    && AccountFree(db.accounts, x.work, x.placed)
    && Queued(db.outbox, x.work.Events(), x.rows)
    && (x.rows != [] ==> x.Written())
  }

  predicate Separate(x: Work, y: Work) {
    && x.Stamp().slot != y.Stamp().slot
    && Apart(x.Events(), y.Events())
    && DifferentAccounts(x, y)
  }

  predicate SameName(x: Work, y: Work) {
    x.Opening? && y.Opening? && x.opening.account.name == y.opening.account.name
  }

  /** Two-phase locking: what two open transactions hold is disjoint. */
  predicate Disjoint(x: Txn, y: Txn) {
    && x.locks !! y.locks
    && Separate(x.work, y.work)
    && (x.placed && y.placed ==> !SameName(x.work, y.work))
  }

  ghost predicate TxnsSound(db: Db, txns: map<nat, Txn>) {
    && (forall t :: t in txns ==> TxnSound(db, txns[t]))
    && (forall t, u :: t in txns && u in txns && t != u ==> Disjoint(txns[t], txns[u]))
  }

  ghost predicate Inv(seeded: Accounts, pg: Pg) {
    && TxnsSound(pg.db, pg.txns)
    && SameLedger(pg.db, Serial(Opened(seeded), pg.history))
    && AllSucceed(Opened(seeded), pg.history)
  }

  lemma RecordedByEvents(a: seq<Row>, b: seq<Row>, id: EventId)
    requires EventsOf(a) == EventsOf(b)
    ensures Recorded(a, id) == Recorded(b, id)
  {
    assert forall i :: 0 <= i < |a| ==> EventsOf(a)[i] == EventsOf(b)[i];
  }

  lemma FreshByEvents(a: seq<Row>, b: seq<Row>, events: seq<Event>)
    requires EventsOf(a) == EventsOf(b) && Fresh(a, events)
    ensures Fresh(b, events)
  {
    forall i | 0 <= i < |events| ensures !Recorded(b, events[i].id) { RecordedByEvents(a, b, events[i].id); }
  }

  /** A serial step that succeeds, appended to the history. */
  lemma Append(seeded: Accounts, db: Db, db': Db, history: seq<Op>, op: Op)
    requires SameLedger(db, Serial(Opened(seeded), history)) && AllSucceed(Opened(seeded), history)
    requires var serial := Serial(Opened(seeded), history);
             Succeeds(serial, op) && SameLedger(db', SerialStep(serial, op))
    ensures SameLedger(db', Serial(Opened(seeded), history + [op]))
    ensures AllSucceed(Opened(seeded), history + [op])
  {
    var h := history + [op];
    assert h[..|history|] == history;
    forall i | 0 <= i < |h| ensures Succeeds(Serial(Opened(seeded), h[..i]), h[i]) {
      assert h[..i] == history[..i];
      if i == |history| { assert history[..i] == history; }
    }
  }

  lemma EventsConcat(a: seq<Row>, b: seq<Row>)
    ensures EventsOf(a + b) == EventsOf(a) + EventsOf(b)
  {
  }

  /** A complete transaction appends exactly its events, as the serial step does. */
  lemma SameAppend(db: Db, serial: Db, x: Txn)
    requires EventsOf(db.outbox) == EventsOf(serial.outbox) && Queued(db.outbox, x.work.Events(), x.rows)
             && x.Complete()
    ensures Fresh(serial.outbox, x.work.Events())
    ensures EventsOf(db.outbox + x.rows) == EventsOf(serial.outbox + NewRows(serial.nextOutboxId, x.work.Events()))
  {
    var events := x.work.Events();
    FreshByEvents(db.outbox, serial.outbox, events);
    assert events[..|x.rows|] == events;
    EventsConcat(db.outbox, x.rows);
    EventsConcat(serial.outbox, NewRows(serial.nextOutboxId, events));
  }

  lemma CommitMatchesSerial(db: Db, serial: Db, x: Txn)
    requires SameLedger(db, serial) && TxnSound(db, x) && x.Complete()
    ensures Succeeds(serial, Finished(x.work))
    ensures SameLedger(Applied(db, x), SerialStep(serial, Finished(x.work)))
  {
    SameAppend(db, serial, x);
    match x.work
    case Post(c) =>
      assert x.work.Legs()[..x.next] == c.entry.postings;
      CommitShape(serial, c);
    case Opening(c) =>
      CreateShape(serial, c);
  }

  /** Writes under disjoint locks commute. */
  lemma WritesCommute(accounts: Accounts, t: Table, w: Table, held: set<AccountId>,
                      ps: seq<Posting>, next: nat, writes: Table, locks: set<AccountId>)
    requires PostedSo(accounts, t, ps, next, writes, locks) && held !! locks
    requires forall k :: k in w ==> k.account in held
    ensures PostedSo(accounts, t + w, ps, next, writes, locks)
  {
    forall i | 0 <= i < next ensures ps[..next][i].Cell() !in w { assert ps[i].account in locks; }
    ApplyFrame(accounts, t, w, ps[..next]);
    forall k | k in w ensures k !in writes { assert k.account in held; }
    SumsCommute(t, w, writes);
  }

  lemma SumsCommute(t: Table, a: Table, b: Table)
    requires forall k :: k in a ==> k !in b
    ensures t + b + a == t + a + b
  {
  }

  lemma AppendStaysFresh(outbox: seq<Row>, rows: seq<Row>, events: seq<Event>)
    requires Fresh(outbox, events) && Apart(EventsOf(rows), events)
    ensures Fresh(outbox + rows, events)
  {
    forall j | 0 <= j < |events| ensures !Recorded(outbox + rows, events[j].id) {
      assert !Recorded(outbox, events[j].id);
      forall i | 0 <= i < |outbox + rows| ensures (outbox + rows)[i].event.id != events[j].id {
        if i >= |outbox| { assert EventsOf(rows)[i - |outbox|].id != events[j].id; }
      }
    }
  }

  lemma QueueUndisturbed(outbox: seq<Row>, x: seq<Event>, rows: seq<Row>, y: seq<Event>, queued: seq<Row>)
    requires Queued(outbox, x, rows) && Queued(outbox, y, queued) && Apart(x, y)
    ensures Queued(outbox + rows, y, queued)
  {
    forall i, j | 0 <= i < |rows| && 0 <= j < |y| ensures EventsOf(rows)[i].id != y[j].id {
      assert EventsOf(rows)[i] == x[i];
    }
    AppendStaysFresh(outbox, rows, y);
  }

  /** A commit elsewhere does not disturb an open transaction: no lost update, whether or
      not the balance rows existed, and no account or name taken under its feet. */
  lemma CommitUndisturbs(db: Db, x: Txn, y: Txn)
    requires TxnSound(db, x) && TxnSound(db, y) && Disjoint(x, y) && x.Complete()
    ensures TxnSound(Applied(db, x), y)
  {
    QueueUndisturbed(db.outbox, x.work.Events(), x.rows, y.work.Events(), y.rows);
    match x.work
    case Post(_) =>
      WritesCommute(db.accounts, db.balances, x.writes, x.locks, y.work.Legs(), y.next, y.writes, y.locks);
    case Opening(c) =>
      ApplyMoreAccounts(db.accounts, c.account, db.balances, y.work.Legs()[..y.next]);
      NameStaysFree(db.accounts, c.account, y.work, y.placed);
  }

  lemma NameStaysFree(accounts: Accounts, a: Account, w: Work, placed: bool)
    requires AccountFree(accounts, w, placed)
    requires w.Opening? ==> w.opening.account.id != a.id && (placed ==> w.opening.account.name != a.name)
    ensures AccountFree(accounts[a.id := a], w, placed)
  {
    var accounts' := accounts[a.id := a];
    if w.Opening? && placed {
      forall id | id in accounts' ensures accounts'[id].name != w.opening.account.name {
        assert id in accounts || id == a.id;
      }
    }
  }

  lemma CommitKeepsInv(seeded: Accounts, pg: Pg, t: nat)
    requires Inv(seeded, pg) && Can(pg, CommitTxn(t))
    ensures Inv(seeded, Do(pg, CommitTxn(t)))
  {
    var x, pg' := pg.txns[t], Do(pg, CommitTxn(t));
    CommitMatchesSerial(pg.db, Serial(Opened(seeded), pg.history), x);
    Append(seeded, pg.db, pg'.db, pg.history, Finished(x.work));
    forall u | u in pg'.txns ensures TxnSound(pg'.db, pg'.txns[u]) {
      CommitUndisturbs(pg.db, x, pg.txns[u]);
    }
  }

  /** Replacing one open transaction. */
  lemma SetTxn(db: Db, txns: map<nat, Txn>, t: nat, x: Txn)
    requires TxnsSound(db, txns) && TxnSound(db, x)
    requires forall u :: u in txns && u != t ==> Disjoint(x, txns[u]) && Disjoint(txns[u], x)
    ensures TxnsSound(db, txns[t := x])
  {
  }

  lemma PostKeepsPosted(accounts: Accounts, t: Table, ps: seq<Posting>, next: nat, writes: Table, locks: set<AccountId>)
    requires PostedSo(accounts, t, ps, next, writes, locks) && next < |ps|
    requires ApplyOne(accounts, t + writes, ps[next]).Ok?
    ensures var k, t' := ps[next].Cell(), ApplyOne(accounts, t + writes, ps[next]).value;
            PostedSo(accounts, t, ps, next + 1, writes[k := Get(t', k)], locks + {ps[next].account})
  {
    var k, t' := ps[next].Cell(), ApplyOne(accounts, t + writes, ps[next]).value;
    assert ps[..next + 1][..next] == ps[..next];
    assert t' == (t + writes)[k := Get(t', k)];
    assert t + writes[k := Get(t', k)] == (t + writes)[k := Get(t', k)];
  }

  /** A transaction that moved on and holds no more than before, or nothing others hold. */
  lemma MoveKeepsTxns(db: Db, txns: map<nat, Txn>, t: nat, x: Txn)
    requires TxnsSound(db, txns) && t in txns && TxnSound(db, x) && x.work == txns[t].work
    requires forall u :: u in txns && u != t ==> x.locks !! txns[u].locks
    requires forall u :: u in txns && u != t && x.placed && txns[u].placed ==> !SameName(x.work, txns[u].work)
    ensures TxnsSound(db, txns[t := x])
  {
    forall u | u in txns && u != t ensures Disjoint(x, txns[u]) && Disjoint(txns[u], x) {
      assert Disjoint(txns[t], txns[u]) && Disjoint(txns[u], txns[t]);
    }
    SetTxn(db, txns, t, x);
  }

  /** Steps that leave the visible ledger as it is. */
  lemma QuietStep(seeded: Accounts, pg: Pg, pg': Pg)
    requires Inv(seeded, pg) && SameLedger(pg'.db, pg.db) && pg'.history == pg.history && TxnsSound(pg'.db, pg'.txns)
    ensures Inv(seeded, pg')
  {
  }

  lemma PostMoves(db: Db, x: Txn)
    requires TxnSound(db, x) && x.next < |x.work.Legs()| && Advanced(db, x).Some?
    ensures TxnSound(db, Advanced(db, x).value)
  {
    PostKeepsPosted(db.accounts, db.balances, x.work.Legs(), x.next, x.writes, x.locks);
  }

  lemma PostKeepsTxns(db: Db, txns: map<nat, Txn>, t: nat)
    requires TxnsSound(db, txns) && t in txns && txns[t].next < |txns[t].work.Legs()| && Advanced(db, txns[t]).Some?
    requires forall u :: u in txns && u != t ==> txns[t].work.Legs()[txns[t].next].account !in txns[u].locks
    ensures TxnsSound(db, txns[t := Advanced(db, txns[t]).value])
  {
    var x, x' := txns[t], Advanced(db, txns[t]).value;
    PostMoves(db, x);
    forall u | u in txns && u != t
      ensures x'.locks !! txns[u].locks && (x'.placed && txns[u].placed ==> !SameName(x'.work, txns[u].work))
    {
      assert Disjoint(x, txns[u]);
    }
    MoveKeepsTxns(db, txns, t, x');
  }

  lemma PostKeepsInv(seeded: Accounts, pg: Pg, t: nat)
    requires Inv(seeded, pg) && Can(pg, PostNext(t))
    ensures Inv(seeded, Do(pg, PostNext(t)))
  {
    if Advanced(pg.db, pg.txns[t]).Some? { PostKeepsTxns(pg.db, pg.txns, t); }
    QuietStep(seeded, pg, PostStep(pg, t));
  }

  lemma PlaceKeepsInv(seeded: Accounts, pg: Pg, t: nat)
    requires Inv(seeded, pg) && Can(pg, Place(t))
    ensures Inv(seeded, Do(pg, Place(t)))
  {
    var x, pg' := pg.txns[t], PlaceStep(pg, t);
    if t in pg'.txns {
      var x' := x.(placed := true);
      assert TxnSound(pg.db, x) && TxnSound(pg.db, x');
      forall u | u in pg.txns && u != t ensures Disjoint(x', pg.txns[u]) && Disjoint(pg.txns[u], x') {
        assert Disjoint(x, pg.txns[u]) && Disjoint(pg.txns[u], x);
      }
      SetTxn(pg.db, pg.txns, t, x');
    }
  }

  lemma BeginKeepsInv(seeded: Accounts, pg: Pg, t: nat, w: Work)
    requires Inv(seeded, pg) && Can(pg, Begin(t, w))
    ensures Inv(seeded, Do(pg, Begin(t, w)))
  {
    var x := Txn(w, 0, map[], {}, false, []);
    if w.Stamp().slot !in pg.db.idempotency {
      NewTxnSound(pg.db, w);
      forall u | u in pg.txns ensures Disjoint(x, pg.txns[u]) && Disjoint(pg.txns[u], x) {
        assert Apart(w.Events(), pg.txns[u].work.Events());
      }
      SetTxn(pg.db, pg.txns, t, x);
    }
  }

  lemma NewTxnSound(db: Db, w: Work)
    requires w.Stamp().slot !in db.idempotency && Validated(w) && Fresh(db.outbox, w.Events())
    requires w.Opening? ==> w.opening.account.id !in db.accounts
    ensures TxnSound(db, Txn(w, 0, map[], {}, false, []))
  {
    assert w.Legs()[..0] == [] && db.balances + map[] == db.balances;
    assert EventsOf([]) == w.Events()[..0];
  }

  /** Transactions see neither drawn sequence values nor relay bookkeeping. */
  lemma BookkeepingIsInvisible(db: Db, next: nat, rows: seq<Row>, txns: map<nat, Txn>)
    requires TxnsSound(db, txns) && EventsOf(rows) == EventsOf(db.outbox)
    ensures TxnsSound(db.(nextOutboxId := next, outbox := rows), txns)
  {
    forall u | u in txns ensures TxnSound(db.(nextOutboxId := next, outbox := rows), txns[u]) {
      assert TxnSound(db, txns[u]);
      FreshByEvents(db.outbox, rows, txns[u].work.Events());
    }
  }

  lemma InsertRowKeepsQueue(outbox: seq<Row>, events: seq<Event>, rows: seq<Row>, row: Row)
    requires Queued(outbox, events, rows) && |rows| < |events| && row.event == events[|rows|]
    ensures Queued(outbox, events, rows + [row])
  {
    EventsConcat(rows, [row]);
    assert EventsOf([row]) == [events[|rows|]];
    assert events[..|rows| + 1] == events[..|rows|] + [events[|rows|]];
  }

  lemma InsertRowKeepsTxns(db: Db, txns: map<nat, Txn>, t: nat, row: Row)
    requires TxnsSound(db, txns) && t in txns && txns[t].Written()
    requires |txns[t].rows| < |txns[t].work.Events()| && row.event == txns[t].work.Events()[|txns[t].rows|]
    ensures TxnsSound(db, txns[t := txns[t].(rows := txns[t].rows + [row])])
  {
    var x, x' := txns[t], txns[t].(rows := txns[t].rows + [row]);
    InsertRowKeepsQueue(db.outbox, x.work.Events(), x.rows, row);
    assert TxnSound(db, x');
    forall u | u in txns && u != t ensures x'.locks !! txns[u].locks { assert Disjoint(x, txns[u]); }
    forall u | u in txns && u != t && x'.placed && txns[u].placed ensures !SameName(x'.work, txns[u].work) {
      assert Disjoint(x, txns[u]);
    }
    MoveKeepsTxns(db, txns, t, x');
  }

  lemma EnqueueKeepsInv(seeded: Accounts, pg: Pg, t: nat)
    requires Inv(seeded, pg) && Can(pg, Enqueue(t))
    ensures Inv(seeded, Do(pg, Enqueue(t)))
  {
    var x, id, pg' := pg.txns[t], pg.db.nextOutboxId + 1, EnqueueStep(pg, t);
    var row := Row(id, x.work.Events()[|x.rows|], 0, None, None, None);
    InsertRowKeepsTxns(pg.db, pg.txns, t, row);
    BookkeepingIsInvisible(pg.db, id, pg.db.outbox, pg.txns[t := x.(rows := x.rows + [row])]);
    EnqueueShape(pg, t, row);
    QuietStep(seeded, pg, pg');
  }

  lemma EnqueueShape(pg: Pg, t: nat, row: Row)
    requires Can(pg, Enqueue(t))
    requires row == Row(pg.db.nextOutboxId + 1, pg.txns[t].work.Events()[|pg.txns[t].rows|], 0, None, None, None)
    ensures EnqueueStep(pg, t) ==
            Pg(pg.db.(nextOutboxId := row.id, outbox := pg.db.outbox),
               pg.txns[t := pg.txns[t].(rows := pg.txns[t].rows + [row])], pg.history)
  {
  }

  lemma SweepKeepsInv(seeded: Accounts, pg: Pg, cutoff: Time)
    requires Inv(seeded, pg)
    ensures Inv(seeded, Do(pg, Sweep(cutoff)))
  {
    var pg' := Do(pg, Sweep(cutoff));
    Append(seeded, pg.db, pg'.db, pg.history, Swept(cutoff));
    forall u | u in pg'.txns ensures TxnSound(pg'.db, pg'.txns[u]) { assert TxnSound(pg.db, pg.txns[u]); }
  }

  lemma TendKeepsInv(seeded: Accounts, pg: Pg, rows: seq<Row>)
    requires Inv(seeded, pg) && Can(pg, Tend(rows))
    ensures Inv(seeded, Do(pg, Tend(rows)))
  {
    assert EventsOf(rows) == EventsOf(pg.db.outbox);
    BookkeepingIsInvisible(pg.db, pg.db.nextOutboxId, rows, pg.txns);
  }

  lemma AbortKeepsInv(seeded: Accounts, pg: Pg, t: nat)
    requires Inv(seeded, pg) && Can(pg, Abort(t))
    ensures Inv(seeded, Do(pg, Abort(t)))
  {
  }

  lemma StepKeepsInv(seeded: Accounts, pg: Pg, a: Action)
    requires Inv(seeded, pg)
    ensures Inv(seeded, Do(pg, a))
  {
    if Can(pg, a) {
      match a
      case Begin(t, w) => BeginKeepsInv(seeded, pg, t, w);
      case PostNext(t) => PostKeepsInv(seeded, pg, t);
      case Place(t) => PlaceKeepsInv(seeded, pg, t);
      case Enqueue(t) => EnqueueKeepsInv(seeded, pg, t);
      case CommitTxn(t) => CommitKeepsInv(seeded, pg, t);
      case Abort(t) => AbortKeepsInv(seeded, pg, t);
      case Sweep(cutoff) => SweepKeepsInv(seeded, pg, cutoff);
      case Tend(rows) => TendKeepsInv(seeded, pg, rows);
    }
  }

  lemma {:induction false} ExecKeepsInv(seeded: Accounts, actions: seq<Action>)
    ensures Inv(seeded, Exec(Start(seeded), actions))
  {
    if actions != [] {
      ExecKeepsInv(seeded, actions[..|actions| - 1]);
      StepKeepsInv(seeded, Exec(Start(seeded), actions[..|actions| - 1]), actions[|actions| - 1]);
    }
  }

  /** Serialisability: however commits and openings interleave statement by statement, with
      each other, with purges and with relay bookkeeping, the committed state is that of
      running the committed transactions one after another in commit order, every one of them
      succeeding there; outbox row ids and bookkeeping are the only difference. */
  lemma Serialisable(seeded: Accounts, actions: seq<Action>)
    ensures var pg := Exec(Start(seeded), actions);
            && AllSucceed(Opened(seeded), pg.history)
            && SameLedger(pg.db, Serial(Opened(seeded), pg.history))
  {
    ExecKeepsInv(seeded, actions);
  }

  /** Hence the interleaved adapter keeps the same books as the one-at-a-time store, and its
      journal events in commit order are the journal. */
  lemma InterleavedBooksAreSound(seeded: Accounts, actions: seq<Action>)
    ensures var db := Exec(Start(seeded), actions).db;
            BooksSound(db.accounts, db.entries, db.balances) && JournalsOf(EventsOf(db.outbox)) == db.entries
  {
    Serialisable(seeded, actions);
    SerialIsSound(seeded, Exec(Start(seeded), actions).history);
  }

  lemma SucceedsKeepsSound(db: Db, op: Op)
    requires Sound(db) && Succeeds(db, op)
    ensures Sound(SerialStep(db, op))
  {
    match op
    case Finished(Post(c)) => CommitKeepsSound(db, c);
    case Finished(Opening(c)) => CreateKeepsSound(db, c);
    case Swept(cutoff) => StepKeepsSound(db, PurgeBefore(cutoff));
  }

  lemma AllSucceedInit(db: Db, history: seq<Op>)
    requires AllSucceed(db, history) && history != []
    ensures AllSucceed(db, history[..|history| - 1])
    ensures Succeeds(Serial(db, history[..|history| - 1]), history[|history| - 1])
  {
    var n := |history| - 1;
    forall i | 0 <= i < n ensures Succeeds(Serial(db, history[..n][..i]), history[..n][i]) {
      assert history[..n][..i] == history[..i];
      assert Succeeds(Serial(db, history[..i]), history[i]);
    }
    assert Succeeds(Serial(db, history[..n]), history[n]);
  }

  lemma {:induction false} SerialIsSound(seeded: Accounts, history: seq<Op>)
    requires AllSucceed(Opened(seeded), history)
    ensures Sound(Serial(Opened(seeded), history))
  {
    if history == [] {
      AlwaysSound(seeded, []);
    } else {
      AllSucceedInit(Opened(seeded), history);
      SerialIsSound(seeded, history[..|history| - 1]);
      SucceedsKeepsSound(Serial(Opened(seeded), history[..|history| - 1]), history[|history| - 1]);
    }
  }
}
