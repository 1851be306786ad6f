/** The ledger store as a value: what each repository operation of
    crates/ledger/src/memory.rs does to the whole state. */
module Store {
  import opened Amounts
  import opened Journal
  import opened Balances

  datatype Policy = NonNegative | AllowNegative
  datatype Status = Active | Frozen | Closed
  datatype Account = Account(id: AccountId, name: string, policy: Policy, status: Status)

  datatype LedgerError =
    | Domain(domain: DomainError)
    | AccountNotFound(account: AccountId)
    | Conflict(name: string)
    | IdempotencyConflict(slot: Slot)
    | RecordVanished
    | ReplyLost
    | Serialization
    | Validation

  /** Idempotency namespace: a client key within a command scope. */
  datatype Slot = Slot(scope: string, key: string)

  datatype Response =
    | EntryPosted(transaction: TransactionId, description: string, postedAt: Time)
    | AccountCreated(account: Account)

  datatype Record = Record(slot: Slot, hash: string, response: Response, createdAt: Time)

  datatype Payload =
    | AccountOpened(account: AccountId, name: string)
    | JournalPosted(entry: JournalEntry)
    | AdminAdjusted(transaction: TransactionId)

  datatype Event = Event(id: EventId, payload: Payload, createdAt: Time)

  datatype Row = Row(
    id: nat, event: Event, attempts: nat,
    publishedAt: Option<Time>, lastError: Option<string>, leasedUntil: Option<Time>)

  type Accounts = map<AccountId, Account>

  datatype Db = Db(
    accounts: Accounts,
    entries: seq<JournalEntry>,
    balances: Table,
    idempotency: map<Slot, Record>,
    outbox: seq<Row>,
    nextOutboxId: nat)

  datatype JournalCommit = JournalCommit(entry: JournalEntry, events: seq<Event>, record: Record)
  datatype AccountCommit = AccountCommit(account: Account, events: seq<Event>, record: Record)
  datatype CommitOutcome = Committed | DuplicateIdempotencyKey

  // ---- balances -------------------------------------------------------------

  /** One posting against one account: existence, status, overflow, policy, in that order. */
  function ApplyOne(accounts: Accounts, t: Table, p: Posting): (r: Result<Table, LedgerError>) {
    if p.account !in accounts then Err(AccountNotFound(p.account))
    else if accounts[p.account].status != Active then Err(Domain(AccountNotActive(p.account)))
    else
      var added := AddOne(t, p);
      if added.Err? then Err(Domain(added.error))
      else if Get(added.value, p.Cell()) < 0 && accounts[p.account].policy == NonNegative then
        Err(Domain(InsufficientBalance(p.account, p.asset, Get(t, p.Cell()), p.amount)))
      else Ok(added.value)
  }

  function ApplyAll(accounts: Accounts, t: Table, ps: seq<Posting>): (r: Result<Table, LedgerError>) {
    if ps == [] then Ok(t)
    else
      var before := ApplyAll(accounts, t, ps[..|ps| - 1]);
      if before.Err? then before else ApplyOne(accounts, before.value, ps[|ps| - 1])
  }

  /** The account of posting `n - 1` takes it, given everything posted before. */
  predicate Admits(accounts: Accounts, t: Table, ps: seq<Posting>, n: nat)
    requires 0 < n <= |ps|
  {
    var p := ps[n - 1];
    && p.account in accounts
    && accounts[p.account].status == Active
    && FitsAfter(t, ps, n)
    && (accounts[p.account].policy == NonNegative ==> Get(t, p.Cell()) + Net(ps[..n], p.Cell()) >= 0)
  }

  ghost predicate Admissible(accounts: Accounts, t: Table, ps: seq<Posting>) {
    forall n | 0 < n <= |ps| :: Admits(accounts, t, ps, n)
  }

  lemma AdmissibleStep(accounts: Accounts, t: Table, ps: seq<Posting>)
    requires ps != []
    ensures Admissible(accounts, t, ps) <==>
            Admissible(accounts, t, ps[..|ps| - 1]) && Admits(accounts, t, ps, |ps|)
  {
    var init := ps[..|ps| - 1];
    forall m | 0 < m <= |init| ensures Admits(accounts, t, init, m) == Admits(accounts, t, ps, m) {
      assert init[..m] == ps[..m];
    }
  }

  /** The authority's rule in closed form: an entry applies iff every running balance is
      representable and respects its account's policy, and it then moves every row by
      exactly the entry's net delta. */
  lemma {:induction false} ApplyAllExact(accounts: Accounts, t: Table, ps: seq<Posting>)
    ensures ApplyAll(accounts, t, ps).Ok? <==> Admissible(accounts, t, ps)
    ensures ApplyAll(accounts, t, ps).Ok? ==> AddAll(t, ps) == Ok(ApplyAll(accounts, t, ps).value)
    ensures ApplyAll(accounts, t, ps).Ok? ==>
              forall k :: Get(ApplyAll(accounts, t, ps).value, k) == Get(t, k) + Net(ps, k)
  {
    if ps != [] {
      var n := |ps| - 1;
      ApplyAllExact(accounts, t, ps[..n]);
      AdmissibleStep(accounts, t, ps);
      assert ps[..|ps|] == ps;
    }
  }

  /** The first failure decides the result. */
  lemma {:induction false} ApplyAllFailsEarly(accounts: Accounts, t: Table, ps: seq<Posting>, n: nat)
    requires n <= |ps| && ApplyAll(accounts, t, ps[..n]).Err?
    ensures ApplyAll(accounts, t, ps) == ApplyAll(accounts, t, ps[..n])
  {
    if n < |ps| {
      assert ps[..|ps| - 1][..n] == ps[..n];
      ApplyAllFailsEarly(accounts, t, ps[..|ps| - 1], n);
    } else {
      assert ps[..n] == ps;
    }
  }

  /** Why the account of posting `n - 1` does not take it, by the balance it had then. */
  function Blame(accounts: Accounts, t: Table, ps: seq<Posting>, n: nat): LedgerError
    requires 0 < n <= |ps|
  {
    var p := ps[n - 1];
    var before := Get(t, p.Cell()) + Net(ps[..n - 1], p.Cell());
    if p.account !in accounts then AccountNotFound(p.account)
    else if accounts[p.account].status != Active then Domain(AccountNotActive(p.account))
    else if !Fits(before + p.amount) then Domain(AmountOverflow)
    else Domain(InsufficientBalance(p.account, p.asset, before, p.amount))
  }

  /** The refusal names the first posting that is not admitted, with the balance it met. */
  lemma ApplyAllBlames(accounts: Accounts, t: Table, ps: seq<Posting>, n: nat)
    requires 0 < n <= |ps| && Admissible(accounts, t, ps[..n - 1]) && !Admits(accounts, t, ps, n)
    ensures ApplyAll(accounts, t, ps) == Err(Blame(accounts, t, ps, n))
  {
    ApplyAllExact(accounts, t, ps[..n - 1]);
    SumStep(ps, n - 1);
    assert ps[..n][..n - 1] == ps[..n - 1];
    ApplyAllFailsEarly(accounts, t, ps, n);
  }

  // ---- outbox ---------------------------------------------------------------

  predicate Recorded(outbox: seq<Row>, id: EventId) {
    exists i :: 0 <= i < |outbox| && outbox[i].event.id == id
  }

  /** Append one event unless its id is already present. */
  function RecordOne(db: Db, e: Event): (r: Db) {
    if Recorded(db.outbox, e.id) then db
    else
      var next := db.nextOutboxId + 1;
      db.(nextOutboxId := next, outbox := db.outbox + [Row(next, e, 0, None, None, None)])
  }

  function RecordEvents(db: Db, events: seq<Event>): (r: Db) {
    if events == [] then db
    else RecordOne(RecordEvents(db, events[..|events| - 1]), events[|events| - 1])
  }

  function EventsOf(outbox: seq<Row>): (r: seq<Event>)
    ensures |r| == |outbox| && forall i :: 0 <= i < |r| ==> r[i] == outbox[i].event
  {
    seq(|outbox|, i requires 0 <= i < |outbox| => outbox[i].event)
  }

  predicate IdsAscend(rows: seq<Row>) {
    forall i, j :: 0 <= i < j < |rows| ==> rows[i].id < rows[j].id
  }

  /** The same message, whatever the relay noted on it. */
  predicate SameMessage(row: Row, row': Row) {
    row'.id == row.id && row'.event == row.event
  }

  /** Rows are only added, at the end, and keep their messages. */
  predicate Extends(rows: seq<Row>, rows': seq<Row>) {
    |rows| <= |rows'| && forall i :: 0 <= i < |rows| ==> SameMessage(rows[i], rows'[i])
  }

  predicate Leased(row: Row, now: Time) {
    row.leasedUntil.Some? && row.leasedUntil.value > now
  }

  predicate Claimable(row: Row, now: Time) {
    row.publishedAt.None? && !Leased(row, now)
  }

  /** Rows a relay may take at `now`, in id order. */
  function Ready(rows: seq<Row>, now: Time): (r: seq<Row>) {
    if rows == [] then []
    else
      var last := rows[|rows| - 1];
      Ready(rows[..|rows| - 1], now) + if Claimable(last, now) then [last] else []
  }

  predicate Claims(rows: seq<Row>, limit: nat, now: Time, i: nat)
    requires i < |rows|
  {
    Claimable(rows[i], now) && |Ready(rows[..i], now)| < limit
  }

  function ClaimRows(rows: seq<Row>, limit: nat, now: Time, until: Time): (r: seq<Row>)
    ensures |r| == |rows|
  {
    seq(|rows|, i requires 0 <= i < |rows| =>
      if Claims(rows, limit, now, i) then rows[i].(leasedUntil := Some(until)) else rows[i])
  }

  function Claimed(rows: seq<Row>, limit: nat, now: Time): (r: seq<Row>) {
    var ready := Ready(rows, now);
    if |ready| <= limit then ready else ready[..limit]
  }

  function MarkPublishedRows(rows: seq<Row>, ids: seq<nat>, now: Time): (r: seq<Row>)
    ensures |r| == |rows|
  {
    seq(|rows|, i requires 0 <= i < |rows| =>
      if rows[i].id in ids && rows[i].publishedAt.None?
      then rows[i].(publishedAt := Some(now), leasedUntil := None) else rows[i])
  }

  predicate FirstWithId(rows: seq<Row>, id: nat, i: nat)
    requires i < |rows|
  {
    rows[i].id == id && forall j :: 0 <= j < i ==> rows[j].id != id
  }

  function MarkFailedRows(rows: seq<Row>, id: nat, error: string): (r: seq<Row>)
    ensures |r| == |rows|
  {
    seq(|rows|, i requires 0 <= i < |rows| =>
      if FirstWithId(rows, id, i)
      then rows[i].(attempts := rows[i].attempts + 1, lastError := Some(error), leasedUntil := None) else rows[i])
  }

  // ---- transactions ---------------------------------------------------------

  /** `LedgerRepo::commit`: everything or nothing. */
  function CommitJournal(db: Db, c: JournalCommit): (r: (Result<CommitOutcome, LedgerError>, Db)) {
    if c.record.slot in db.idempotency then (Ok(DuplicateIdempotencyKey), db)
    else
      var applied := ApplyAll(db.accounts, db.balances, c.entry.postings);
      if applied.Err? then (Err(applied.error), db)
      else
        (Ok(Committed),
         RecordEvents(db.(idempotency := db.idempotency[c.record.slot := c.record],
                          balances := applied.value,
                          entries := db.entries + [c.entry]), c.events))
  }

  predicate NameTaken(accounts: Accounts, name: string) {
    exists id :: id in accounts && accounts[id].name == name
  }

  /** `AccountRepo::create`, with the roll-back of the PostgreSQL adapter on a name conflict. */
  function CreateAccount(db: Db, c: AccountCommit): (r: (Result<CommitOutcome, LedgerError>, Db)) {
    if c.record.slot in db.idempotency then (Ok(DuplicateIdempotencyKey), db)
    else if NameTaken(db.accounts, c.account.name) then (Err(Conflict(c.account.name)), db)
    else
      (Ok(Committed),
       RecordEvents(db.(idempotency := db.idempotency[c.record.slot := c.record],
                        accounts := db.accounts[c.account.id := c.account]), c.events))
  }

  /** Slots whose record a purge at `cutoff` removes. */
  function Expired(db: Db, cutoff: Time): (r: set<Slot>) {
    set s | s in db.idempotency && db.idempotency[s].createdAt < cutoff
  }

  function Purge(db: Db, cutoff: Time): (r: Db) {
    db.(idempotency := db.idempotency - Expired(db, cutoff))
  }

  /** After a purge a key has its record, unchanged, iff it had one not older than the cutoff;
      every other table is as it was. */
  lemma PurgeExact(db: Db, cutoff: Time)
    ensures var db' := Purge(db, cutoff);
            && (forall s :: s in db'.idempotency <==> s in db.idempotency && cutoff <= db.idempotency[s].createdAt)
            && (forall s :: s in db'.idempotency ==> db'.idempotency[s] == db.idempotency[s])
            && db' == db.(idempotency := db'.idempotency)
  {
  }
}
