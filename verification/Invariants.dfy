/** What every operation of the store keeps, and what therefore holds after every run. */
module Invariants {
  import opened Sequences
  import opened Amounts
  import opened Journal
  import opened Balances
  import opened Store

  function Postings(entries: seq<JournalEntry>): seq<Posting> {
    if entries == [] then []
    else Postings(entries[..|entries| - 1]) + entries[|entries| - 1].postings
  }

  /** Journal entries carried by an event list, in order. */
  function JournalsOf(events: seq<Event>): seq<JournalEntry> {
    if events == [] then []
    else
      var last := events[|events| - 1];
      JournalsOf(events[..|events| - 1]) + if last.payload.JournalPosted? then [last.payload.entry] else []
  }

  lemma {:induction false} JournalsOfConcat(a: seq<Event>, b: seq<Event>)
    ensures JournalsOf(a + b) == JournalsOf(a) + JournalsOf(b)
  {
    if b == [] {
      assert a + b == a;
    } else {
      ConcatInit(a, b);
      JournalsOfConcat(a, b[..|b| - 1]);
    }
  }

  predicate DistinctIds(events: seq<Event>) {
    forall i, j :: 0 <= i < j < |events| ==> events[i].id != events[j].id
  }

  /** Event ids drawn for a new command collide with nothing: the UUID assumption. */
  predicate Fresh(outbox: seq<Row>, events: seq<Event>) {
    DistinctIds(events) && forall i :: 0 <= i < |events| ==> !Recorded(outbox, events[i].id)
  }

  function NewRows(last: nat, events: seq<Event>): (r: seq<Row>)
    ensures |r| == |events| && EventsOf(r) == events
    ensures forall i :: 0 <= i < |r| ==> r[i] == Row(last + i + 1, events[i], 0, None, None, None)
  {
    seq(|events|, i requires 0 <= i < |events| => Row(last + i + 1, events[i], 0, None, None, None))
  }

  lemma FreshStep(outbox: seq<Row>, last: nat, events: seq<Event>)
    requires events != [] && Fresh(outbox, events)
    ensures Fresh(outbox, events[..|events| - 1])
    ensures !Recorded(outbox + NewRows(last, events[..|events| - 1]), events[|events| - 1].id)
  {
    var n := |events| - 1;
    var rows := outbox + NewRows(last, events[..n]);
    assert !Recorded(outbox, events[n].id);
    forall i | 0 <= i < |rows| ensures rows[i].event.id != events[n].id {
      if i < |outbox| { assert rows[i] == outbox[i]; } else { assert rows[i].event == events[i - |outbox|]; }
    }
  }

  /** Fresh events are appended in order under the next ids; nothing else changes. */
  lemma {:induction false} RecordFresh(db: Db, events: seq<Event>)
    requires Fresh(db.outbox, events)
    ensures RecordEvents(db, events) ==
            db.(outbox := db.outbox + NewRows(db.nextOutboxId, events), nextOutboxId := db.nextOutboxId + |events|)
  {
    var rows := NewRows(db.nextOutboxId, events);
    if events == [] {
      assert db.outbox + rows == db.outbox;
    } else {
      var n := |events| - 1;
      FreshStep(db.outbox, db.nextOutboxId, events);
      RecordFresh(db, events[..n]);
      assert rows == NewRows(db.nextOutboxId, events[..n]) + [rows[n]];
      assert db.outbox + rows == db.outbox + NewRows(db.nextOutboxId, events[..n]) + [rows[n]];
    }
  }

  /** New rows carry consecutive ids and events of the list that were not there before. */
  predicate NewRow(db: Db, events: seq<Event>, row: Row, i: nat) {
    && row == Row(db.nextOutboxId + 1 + i, row.event, 0, None, None, None)
    && row.event in events && !Recorded(db.outbox, row.event.id)
  }

  predicate Enlarged(db: Db, events: seq<Event>, db': Db) {
    && db.outbox <= db'.outbox
    && db' == db.(outbox := db'.outbox, nextOutboxId := db.nextOutboxId + |db'.outbox| - |db.outbox|)
    && (forall i :: |db.outbox| <= i < |db'.outbox| ==> NewRow(db, events, db'.outbox[i], i - |db.outbox|))
    && (forall i :: 0 <= i < |events| ==> Recorded(db'.outbox, events[i].id))
    && (DistinctIds(EventsOf(db.outbox)) ==> DistinctIds(EventsOf(db'.outbox)))
  }

  /** Recording any events, fresh or not: each id is there exactly once afterwards, an event
      whose id was already present is skipped, and nothing else changes. */
  lemma {:induction false} RecordOnce(db: Db, events: seq<Event>)
    ensures Enlarged(db, events, RecordEvents(db, events))
  {
    if events != [] {
      var n := |events| - 1;
      RecordOnce(db, events[..n]);
      RecordOneMore(db, events, RecordEvents(db, events[..n]));
    }
  }

  lemma RecordOneMore(db: Db, events: seq<Event>, mid: Db)
    requires events != [] && Enlarged(db, events[..|events| - 1], mid)
    ensures Enlarged(db, events, RecordOne(mid, events[|events| - 1]))
  {
    var n := |events| - 1;
    var db', e := RecordOne(mid, events[n]), events[n];
    InitLast(events);
    forall i | 0 <= i < n ensures Recorded(db'.outbox, events[i].id) {
      assert events[..n][i] == events[i];
      RecordedStays(mid.outbox, db'.outbox, events[i].id);
    }
    if !Recorded(mid.outbox, e.id) {
      assert db'.outbox[|mid.outbox|].event == e;
      if Recorded(db.outbox, e.id) { RecordedStays(db.outbox, mid.outbox, e.id); }
    }
  }

  lemma RecordedStays(rows: seq<Row>, rows': seq<Row>, id: EventId)
    requires rows <= rows' && Recorded(rows, id)
    ensures Recorded(rows', id)
  {
    var i :| 0 <= i < |rows| && rows[i].event.id == id;
    assert rows'[i] == rows[i];
  }

  /** The state a commit leads to, given its new balance table. */
  function Posted(db: Db, c: JournalCommit, t: Table): Db {
    Db(db.accounts, db.entries + [c.entry], t, db.idempotency[c.record.slot := c.record],
       db.outbox + NewRows(db.nextOutboxId, c.events), db.nextOutboxId + |c.events|)
  }

  /** The state opening an account leads to. */
  function WithAccount(db: Db, c: AccountCommit): Db {
    Db(db.accounts[c.account.id := c.account], db.entries, db.balances, db.idempotency[c.record.slot := c.record],
       db.outbox + NewRows(db.nextOutboxId, c.events), db.nextOutboxId + |c.events|)
  }

  /** The state a successful commit leads to, table by table. */
  lemma CommitShape(db: Db, c: JournalCommit)
    requires Fresh(db.outbox, c.events)
    ensures var applied := ApplyAll(db.accounts, db.balances, c.entry.postings);
            CommitJournal(db, c) ==
            if c.record.slot in db.idempotency then (Ok(DuplicateIdempotencyKey), db)
            else if applied.Err? then (Err(applied.error), db)
            else (Ok(Committed), Posted(db, c, applied.value))
  {
    var applied := ApplyAll(db.accounts, db.balances, c.entry.postings);
    if applied.Ok? {
      RecordFresh(db.(idempotency := db.idempotency[c.record.slot := c.record],
                      balances := applied.value, entries := db.entries + [c.entry]), c.events);
    }
  }

  lemma CreateShape(db: Db, c: AccountCommit)
    requires Fresh(db.outbox, c.events)
    ensures CreateAccount(db, c) ==
            if c.record.slot in db.idempotency then (Ok(DuplicateIdempotencyKey), db)
            else if NameTaken(db.accounts, c.account.name) then (Err(Conflict(c.account.name)), db)
            else (Ok(Committed), WithAccount(db, c))
  {
    RecordFresh(db.(idempotency := db.idempotency[c.record.slot := c.record],
                    accounts := db.accounts[c.account.id := c.account]), c.events);
  }

  // ---- the invariant --------------------------------------------------------

  ghost predicate Conserved(t: Table) {
    forall asset :: SumWhere(t, InAsset(asset)) == 0
  }

  predicate PolicyHolds(accounts: Accounts, t: Table) {
    forall k :: k in t ==> k.account in accounts && (accounts[k.account].policy == NonNegative ==> t[k] >= 0)
  }

  /** The balance table is exactly what replaying the history from nothing produces. */
  ghost predicate RefinesHistory(entries: seq<JournalEntry>, t: Table) {
    AddAll(map[], Postings(entries)) == Ok(t)
  }

  ghost predicate BooksSound(accounts: Accounts, entries: seq<JournalEntry>, t: Table) {
    && (forall i :: 0 <= i < |entries| ==> Balanced(entries[i].postings))
    && RefinesHistory(entries, t)
    && Conserved(t)
    && PolicyHolds(accounts, t)
  }

  predicate OutboxOrdered(outbox: seq<Row>, last: nat) {
    && IdsAscend(outbox)
    && (forall i :: 0 <= i < |outbox| ==> 0 < outbox[i].id <= last)
    && DistinctIds(EventsOf(outbox))
  }

  /** Ids ascend, event ids are unique, and the journal events are the entries, in order. */
  ghost predicate OutboxSound(entries: seq<JournalEntry>, outbox: seq<Row>, last: nat) {
    OutboxOrdered(outbox, last) && JournalsOf(EventsOf(outbox)) == entries
  }

  ghost predicate Sound(db: Db) {
    && BooksSound(db.accounts, db.entries, db.balances)
    && OutboxSound(db.entries, db.outbox, db.nextOutboxId)
    && (forall s :: s in db.idempotency ==> db.idempotency[s].slot == s)
  }

  /** What the command service hands to `commit`: a validated entry, whose only
      journal event carries that entry. */
  ghost predicate Proper(outbox: seq<Row>, c: JournalCommit) {
    Balanced(c.entry.postings) && JournalsOf(c.events) == [c.entry] && Fresh(outbox, c.events)
  }

  ghost predicate ProperAccount(db: Db, c: AccountCommit) {
    c.account.id !in db.accounts && JournalsOf(c.events) == [] && Fresh(db.outbox, c.events)
  }

  // ---- preservation ---------------------------------------------------------

  /** Appending fresh events keeps the outbox ordered and extends its event list. */
  lemma AppendKeepsOrder(outbox: seq<Row>, last: nat, events: seq<Event>)
    requires OutboxOrdered(outbox, last) && Fresh(outbox, events)
    ensures OutboxOrdered(outbox + NewRows(last, events), last + |events|)
    ensures EventsOf(outbox + NewRows(last, events)) == EventsOf(outbox) + events
  {
    var rows := NewRows(last, events);
    var all := EventsOf(outbox) + events;
    assert EventsOf(outbox + rows) == all;
    forall i, j | 0 <= i < j < |all| ensures all[i].id != all[j].id {
      if j < |outbox| {
        assert EventsOf(outbox)[i].id != EventsOf(outbox)[j].id;
      } else if i < |outbox| {
        assert !Recorded(outbox, events[j - |outbox|].id);
        assert outbox[i].event.id != events[j - |outbox|].id;
      }
    }
  }

  /** A successful application keeps the policy of every row. */
  lemma {:induction false} ApplyKeepsPolicy(accounts: Accounts, t: Table, ps: seq<Posting>)
    requires PolicyHolds(accounts, t) && ApplyAll(accounts, t, ps).Ok?
    ensures PolicyHolds(accounts, ApplyAll(accounts, t, ps).value)
  {
    if ps != [] { ApplyKeepsPolicy(accounts, t, ps[..|ps| - 1]); }
  }

  /** Posting a balanced entry keeps the books: history, conservation and policy. */
  lemma PostingKeepsBooks(accounts: Accounts, entries: seq<JournalEntry>, t: Table, e: JournalEntry)
    requires BooksSound(accounts, entries, t) && Balanced(e.postings)
    requires ApplyAll(accounts, t, e.postings).Ok?
    ensures BooksSound(accounts, entries + [e], ApplyAll(accounts, t, e.postings).value)
  {
    var t' := ApplyAll(accounts, t, e.postings).value;
    ApplyAllExact(accounts, t, e.postings);
    ApplyKeepsPolicy(accounts, t, e.postings);
    assert RefinesHistory(entries + [e], t') by {
      SnocInit(entries, e);
      AddAllConcat(map[], Postings(entries), e.postings);
    }
    forall asset ensures SumWhere(t', InAsset(asset)) == 0 {
      AddAllSum(t, e.postings, asset);
    }
  }

  lemma AppendKeepsOutbox(entries: seq<JournalEntry>, outbox: seq<Row>, last: nat, events: seq<Event>)
    requires OutboxSound(entries, outbox, last) && Fresh(outbox, events)
    ensures OutboxSound(entries + JournalsOf(events), outbox + NewRows(last, events), last + |events|)
  {
    AppendKeepsOrder(outbox, last, events);
    JournalsOfConcat(EventsOf(outbox), events);
  }

  lemma PostedIsSound(db: Db, c: JournalCommit, t: Table)
    requires Sound(db) && Proper(db.outbox, c) && ApplyAll(db.accounts, db.balances, c.entry.postings) == Ok(t)
    ensures Sound(Posted(db, c, t))
  {
    AppendKeepsOutbox(db.entries, db.outbox, db.nextOutboxId, c.events);
    PostingKeepsBooks(db.accounts, db.entries, db.balances, c.entry);
  }

  lemma CommitKeepsSound(db: Db, c: JournalCommit)
    requires Sound(db) && Proper(db.outbox, c)
    ensures Sound(CommitJournal(db, c).1)
  {
    CommitShape(db, c);
    var applied := ApplyAll(db.accounts, db.balances, c.entry.postings);
    if c.record.slot !in db.idempotency && applied.Ok? { PostedIsSound(db, c, applied.value); }
  }

  lemma WithAccountIsSound(db: Db, c: AccountCommit)
    requires Sound(db) && ProperAccount(db, c)
    ensures Sound(WithAccount(db, c))
  {
    AppendKeepsOutbox(db.entries, db.outbox, db.nextOutboxId, c.events);
    assert db.entries + JournalsOf(c.events) == db.entries;
  }

  lemma CreateKeepsSound(db: Db, c: AccountCommit)
    requires Sound(db) && ProperAccount(db, c)
    ensures Sound(CreateAccount(db, c).1)
  {
    CreateShape(db, c);
    WithAccountIsSound(db, c);
  }

  /** Relay bookkeeping touches neither ids nor events, and adds nothing. */
  predicate SameMessages(rows: seq<Row>, rows': seq<Row>) {
    |rows| == |rows'| && Extends(rows, rows')
  }

  // ---- runs -----------------------------------------------------------------

  datatype Op =
    | Commit(commit: JournalCommit)
    | Create(opening: AccountCommit)
    | PurgeBefore(cutoff: Time)
    | Claim(limit: nat, now: Time, lease: nat)
    | Publish(ids: seq<nat>, at: Time)
    | Fail(id: nat, error: string)

  /** One operation; a commit the service could not have built leaves the store alone. */
  ghost function Step(db: Db, op: Op): Db {
    match op
    case Commit(c) => if Proper(db.outbox, c) then CommitJournal(db, c).1 else db
    case Create(c) => if ProperAccount(db, c) then CreateAccount(db, c).1 else db
    case PurgeBefore(cutoff) => Purge(db, cutoff)
    case Claim(limit, now, lease) => db.(outbox := ClaimRows(db.outbox, limit, now, now + lease))
    case Publish(ids, now) => db.(outbox := MarkPublishedRows(db.outbox, ids, now))
    case Fail(id, error) => db.(outbox := MarkFailedRows(db.outbox, id, error))
  }

  ghost function Run(db: Db, ops: seq<Op>): Db {
    if ops == [] then db else Step(Run(db, ops[..|ops| - 1]), ops[|ops| - 1])
  }

  function Opened(seeded: Accounts): Db {
    Db(seeded, [], map[], map[], [], 0)
  }

  lemma BookkeepingKeepsSound(db: Db, op: Op)
    requires Sound(db) && (op.Claim? || op.Publish? || op.Fail?)
    ensures Sound(Step(db, op))
  {
    var rows := Step(db, op).outbox;
    assert SameMessages(db.outbox, rows);
    assert EventsOf(rows) == EventsOf(db.outbox);
  }

  lemma StepKeepsSound(db: Db, op: Op)
    requires Sound(db)
    ensures Sound(Step(db, op))
  {
    match op
    case Commit(c) => if Proper(db.outbox, c) { CommitKeepsSound(db, c); }
    case Create(c) => if ProperAccount(db, c) { CreateKeepsSound(db, c); }
    case PurgeBefore(_) =>
    case _ => BookkeepingKeepsSound(db, op);
  }

  /** Every state the store can reach is sound. */
  lemma {:induction false} AlwaysSound(seeded: Accounts, ops: seq<Op>)
    ensures Sound(Run(Opened(seeded), ops))
  {
    if ops == [] {
      assert EventsOf([]) == [];
    } else {
      AlwaysSound(seeded, ops[..|ops| - 1]);
      StepKeepsSound(Run(Opened(seeded), ops[..|ops| - 1]), ops[|ops| - 1]);
    }
  }

  function HeldBy(accounts: Accounts, policy: Policy, asset: AssetCode): Key -> bool {
    (k: Key) => k.asset == asset && k.account in accounts && accounts[k.account].policy == policy
  }

  /** Conservation and policy in every reachable state: per asset the balances cancel
      exactly, no protected row is negative, so the credit-normal side is never positive. */
  lemma ConservationAndPolicy(seeded: Accounts, ops: seq<Op>, asset: AssetCode)
    ensures var db := Run(Opened(seeded), ops);
            && SumWhere(db.balances, InAsset(asset)) == 0
            && (forall k :: k in db.balances && HeldBy(db.accounts, NonNegative, k.asset)(k) ==> db.balances[k] >= 0)
            && SumWhere(db.balances, HeldBy(db.accounts, AllowNegative, asset)) ==
               -SumWhere(db.balances, HeldBy(db.accounts, NonNegative, asset)) <= 0
  {
    AlwaysSound(seeded, ops);
    var db := Run(Opened(seeded), ops);
    SumSplit(db.balances, InAsset(asset),
             HeldBy(db.accounts, AllowNegative, asset), HeldBy(db.accounts, NonNegative, asset));
    SumNonNegative(db.balances, HeldBy(db.accounts, NonNegative, asset));
  }

  /** All or nothing: a commit succeeds exactly when its key is unused and its postings are
      admissible, and it then moves all four tables by exactly its own contents; any other
      outcome leaves every table as it was. */
  lemma CommitAtomic(db: Db, c: JournalCommit)
    ensures var (r, db') := CommitJournal(db, c);
            && (r == Ok(Committed) <==>
                c.record.slot !in db.idempotency && Admissible(db.accounts, db.balances, c.entry.postings))
            && (r == Ok(DuplicateIdempotencyKey) <==> c.record.slot in db.idempotency)
            && (r != Ok(Committed) ==> db' == db)
            && (r == Ok(Committed) ==>
                && db'.entries == db.entries + [c.entry]
                && db'.idempotency == db.idempotency[c.record.slot := c.record]
                && db'.accounts == db.accounts
                && (forall k :: Get(db'.balances, k) == Get(db.balances, k) + Net(c.entry.postings, k))
                && db.outbox <= db'.outbox
                && (Fresh(db.outbox, c.events) ==> EventsOf(db'.outbox) == EventsOf(db.outbox) + c.events))
  {
    ApplyAllExact(db.accounts, db.balances, c.entry.postings);
    var (r, db') := CommitJournal(db, c);
    if r == Ok(Committed) {
      RecordAppends(db.(idempotency := db.idempotency[c.record.slot := c.record],
                        balances := ApplyAll(db.accounts, db.balances, c.entry.postings).value,
                        entries := db.entries + [c.entry]), c.events);
      if Fresh(db.outbox, c.events) {
        CommitShape(db, c);
        assert EventsOf(db'.outbox) == EventsOf(db.outbox) + c.events;
      }
    }
  }

  /** Recording events touches the outbox only, and only at its end. */
  lemma {:induction false} RecordAppends(db: Db, events: seq<Event>)
    ensures var db' := RecordEvents(db, events);
            db.outbox <= db'.outbox && db' == db.(outbox := db'.outbox, nextOutboxId := db'.nextOutboxId)
  {
    if events != [] { RecordAppends(db, events[..|events| - 1]); }
  }
}
