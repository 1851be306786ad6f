/** Rebuilding from a history read in another order than it was committed in: PostgreSQL reads
    entries by creation time, which is set before the commit
    (crates/storage-postgres/src/history.rs:28-43, crates/reconciler/src/reconciler.rs:25-39). */
module History {
  import opened Sequences
  import opened Amounts
  import opened Journal
  import opened Balances
  import opened Store
  import opened Invariants
  import opened Reorder
  import opened System
  import opened Safety

  /** In every reachable state, whatever order the history is read in: rebuilding succeeds
      exactly when no running balance of that order overflows, and then gives the balance
      table itself. */
  lemma RebuildInAnyOrder(seeded: Accounts, actions: seq<Action>, s: Sys, read: seq<JournalEntry>)
    requires s == Exec(Boot(seeded), actions) && multiset(read) == multiset(s.db.entries)
    ensures AddAll(map[], Postings(read)).Ok? <==> RunningFits(map[], Postings(read))
    ensures AddAll(map[], Postings(read)).Ok? ==> AddAll(map[], Postings(read)).value == s.db.balances
  {
    SystemInvariant(seeded, actions);
    AddAllExact(map[], Postings(read));
    if AddAll(map[], Postings(read)).Ok? { SameTable(read, s.db.entries); }
  }

  /** What can be checked beforehand: if each cell's turnover is representable, every order
      gives the balance table. */
  lemma AnyOrderWithinTurnover(seeded: Accounts, actions: seq<Action>, s: Sys, read: seq<JournalEntry>)
    requires s == Exec(Boot(seeded), actions) && multiset(read) == multiset(s.db.entries)
    requires TurnoverFits(s.db.entries)
    ensures AddAll(map[], Postings(read)) == Ok(s.db.balances)
  {
    TurnoverSuffices(s.db.entries, read);
    RebuildInAnyOrder(seeded, actions, s, read);
  }

  // ---- the order PostgreSQL reads in ----------------------------------------

  /** `ORDER BY created_at, id`. */
  predicate ReadBefore(a: JournalEntry, b: JournalEntry) {
    a.createdAt < b.createdAt || (a.createdAt == b.createdAt && a.id < b.id)
  }

  /** The history as PostgreSQL reads it. */
  ghost predicate ReadFrom(read: seq<JournalEntry>, entries: seq<JournalEntry>) {
    multiset(read) == multiset(entries) && forall i, j :: 0 <= i < j < |read| ==> ReadBefore(read[i], read[j])
  }

  // ---- another order can overflow -------------------------------------------

  const LEFT: Key := Key(1, "USD")
  const RIGHT: Key := Key(2, "USD")
  const PAIR: Accounts :=
    map[1 := Account(1, "left", AllowNegative, Active), 2 := Account(2, "right", AllowNegative, Active)]

  function Swung(from: Key, to: Key): seq<Posting> {
    [Posting(from.account, from.asset, 0 - I128_MAX, Credit), Posting(to.account, to.asset, I128_MAX, Debit)]
  }

  /** The largest amount there is, from one account to the other. */
  function Swing(n: nat, key: string, from: Key, to: Key, at: Time): JournalCommit {
    var e := JournalEntry(n, key, "", Swung(from, to), at);
    JournalCommit(e, [Event(n, JournalPosted(e), at)], Record(Slot("", key), "", EntryPosted(n, "", at), at))
  }

  predicate Opposite(from: Key, to: Key) {
    (from == LEFT && to == RIGHT) || (from == RIGHT && to == LEFT)
  }

  /** The pair of accounts with `x` on the left, balanced on the right, after events below `n`. */
  ghost predicate Swinging(db: Db, x: int, n: nat, keys: set<string>) {
    && db.accounts == PAIR
    && (forall k :: Get(db.balances, k) == (if k == LEFT then x else 0) - if k == RIGHT then x else 0)
    && (forall i :: 0 <= i < |db.outbox| ==> EventsOf(db.outbox)[i].id < n)
    && db.idempotency.Keys == set key | key in keys :: Slot("", key)
  }

  lemma SwingProper(db: Db, n: nat, key: string, from: Key, to: Key, at: Time, x: int, keys: set<string>)
    requires Opposite(from, to) && Swinging(db, x, n, keys)
    ensures Proper(db.outbox, Swing(n, key, from, to, at))
  {
    var c := Swing(n, key, from, to, at);
    assert c.events[..0] == [] && JournalsOf(c.events) == [] + [c.entry];
    TwoLegs(c.entry.postings);
    assert forall i :: 0 <= i < |db.outbox| ==> EventsOf(db.outbox)[i].id == db.outbox[i].event.id;
  }

  lemma SwingAdmissible(db: Db, from: Key, to: Key, x: int, n: nat, keys: set<string>)
    requires Opposite(from, to) && Swinging(db, x, n, keys) && x == if from == LEFT then I128_MAX else 0
    ensures Admissible(db.accounts, db.balances, Swung(from, to))
    ensures forall k :: Net(Swung(from, to), k) == (if k == to then I128_MAX else 0) - if k == from then I128_MAX else 0
  {
    var ps := Swung(from, to);
    TwoLegs(ps);
    assert Admits(db.accounts, db.balances, ps, 1) && Admits(db.accounts, db.balances, ps, 2);
  }

  lemma SwingCommits(db: Db, n: nat, key: string, from: Key, to: Key, at: Time, x: int, keys: set<string>)
    requires Opposite(from, to) && Swinging(db, x, n, keys) && key !in keys
    requires x == if from == LEFT then I128_MAX else 0
    ensures var db' := Step(db, Commit(Swing(n, key, from, to, at)));
            && Swinging(db', I128_MAX - x, n + 1, keys + {key})
            && db'.entries == db.entries + [Swing(n, key, from, to, at).entry]
  {
    var c := Swing(n, key, from, to, at);
    SwingProper(db, n, key, from, to, at, x, keys);
    SwingAdmissible(db, from, to, x, n, keys);
    CommitAtomic(db, c);
    var db' := Step(db, Commit(c));
    assert EventsOf(db'.outbox) == EventsOf(db.outbox) + c.events;
    assert Slot("", key) == c.record.slot;
  }

  lemma AtRest()
    ensures Swinging(Opened(PAIR), 0, 1, {})
  {
  }

  lemma ThreeSwings(a: JournalCommit, b: JournalCommit, c: JournalCommit)
    requires a == Swing(1, "a", RIGHT, LEFT, 0) && b == Swing(2, "b", LEFT, RIGHT, 2)
    requires c == Swing(3, "c", RIGHT, LEFT, 1)
    ensures Step(Step(Step(Opened(PAIR), Commit(a)), Commit(b)), Commit(c)).entries == [a.entry, b.entry, c.entry]
  {
    AtRest();
    SwingCommits(Opened(PAIR), 1, "a", RIGHT, LEFT, 0, 0, {});
    TwoMore(Step(Opened(PAIR), Commit(a)), b, c);
  }

  lemma TwoMore(db: Db, b: JournalCommit, c: JournalCommit)
    requires Swinging(db, I128_MAX, 2, {} + {"a"})
    requires b == Swing(2, "b", LEFT, RIGHT, 2) && c == Swing(3, "c", RIGHT, LEFT, 1)
    ensures Step(Step(db, Commit(b)), Commit(c)).entries == db.entries + [b.entry, c.entry]
  {
    SwingCommits(db, 2, "b", LEFT, RIGHT, 2, I128_MAX, {} + {"a"});
    SwingCommits(Step(db, Commit(b)), 3, "c", RIGHT, LEFT, 1, 0, {} + {"a"} + {"b"});
  }

  lemma RunSnoc(db: Db, ops: seq<Op>, op: Op)
    ensures Run(db, ops + [op]) == Step(Run(db, ops), op)
  {
    SnocInit(ops, op);
  }

  lemma RunThree(db: Db, a: Op, b: Op, c: Op)
    ensures Run(db, [a, b, c]) == Step(Step(Step(db, a), b), c)
  {
    RunSnoc(db, [], a);
    RunSnoc(db, [a], b);
    RunSnoc(db, [a, b], c);
    assert [] + [a] == [a] && [a] + [b] == [a, b] && [a, b] + [c] == [a, b, c];
  }

  /** There, back and there again, the third entry created before the second and committed after
      it: the ledger is fine, and reading its history in PostgreSQL's order overflows. */
  lemma ReadOrderCanOverflow(a: JournalCommit, b: JournalCommit, c: JournalCommit)
    requires a == Swing(1, "a", RIGHT, LEFT, 0) && b == Swing(2, "b", LEFT, RIGHT, 2)
    requires c == Swing(3, "c", RIGHT, LEFT, 1)
    ensures var db := Run(Opened(PAIR), [Commit(a), Commit(b), Commit(c)]);
            && db.entries == [a.entry, b.entry, c.entry]
            && AddAll(map[], Postings(db.entries)) == Ok(db.balances)
            && ReadFrom([a.entry, c.entry, b.entry], db.entries)
            && !Rebuilds([a.entry, c.entry, b.entry])
  {
    ThreeSwings(a, b, c);
    RunThree(Opened(PAIR), Commit(a), Commit(b), Commit(c));
    AlwaysSound(PAIR, [Commit(a), Commit(b), Commit(c)]);
    TwiceOverflows(a.entry, c.entry, b.entry);
    ReadsAs(a.entry, b.entry, c.entry);
  }

  lemma ReadsAs(a: JournalEntry, b: JournalEntry, c: JournalEntry)
    requires ReadBefore(a, c) && ReadBefore(c, b)
    ensures ReadFrom([a, c, b], [a, b, c])
  {
    assert multiset([a, c, b]) == multiset([a, b, c]);
    var read := [a, c, b];
    assert read[0] == a && read[1] == c && read[2] == b;
  }

  lemma TwiceOverflows(a: JournalEntry, c: JournalEntry, b: JournalEntry)
    requires a.postings == c.postings == Swung(RIGHT, LEFT)
    ensures !Rebuilds([a, c, b])
  {
    var ps := Swung(RIGHT, LEFT) + Swung(RIGHT, LEFT);
    PostingsConcat([a], [c]);
    PostingsOne(a);
    PostingsOne(c);
    PostingsConcat([a, c], [b]);
    assert [a] + [c] == [a, c] && [a, c] + [b] == [a, c, b];
    LegsOverflow(ps);
    AddAllConcat(map[], ps, Postings([b]));
  }

  lemma LegsOverflow(ps: seq<Posting>)
    requires ps == Swung(RIGHT, LEFT) + Swung(RIGHT, LEFT)
    ensures AddAll(map[], ps).Err?
  {
    FourLegs(ps);
    assert !FitsAfter(map[], ps, 4);
    AddAllExact(map[], ps);
  }
}
