/** A run in which a retry loses to its own guard: two handlers carry the same request, one
    posts it, and the other is refused for insufficient funds
    (crates/ledger/src/service.rs:451-514, 558-581). */
module Races {
  import opened Amounts
  import opened Order
  import opened Journal
  import opened Balances
  import opened Store
  import opened Invariants
  import opened System
  import opened CommandProgress

  // ---- the cast -------------------------------------------------------------

  const CUSTOMER: Key := Key(1, "USD")
  const CLEARING: Key := Key(2, "USD")
  const KEYS: seq<Key> := [CUSTOMER, CLEARING]
  const SEEDED: Accounts :=
    map[1 := Account(1, "customer", NonNegative, Active), 2 := Account(2, "clearing", AllowNegative, Active)]

  /** Five units from one of the two accounts to the other, as request `n`. */
  function Legs(from: Key, to: Key): seq<Posting> {
    [Posting(from.account, from.asset, -5, Credit), Posting(to.account, to.asset, 5, Debit)]
  }

  function Transfer(n: nat, slot: Slot, hash: string, from: Key, to: Key): JournalCommit {
    var e := JournalEntry(n, slot.key, hash, Legs(from, to), 0);
    JournalCommit(e, [Event(100 + n, JournalPosted(e), 0)], Record(slot, hash, EntryPosted(n, e.description, 0), 0))
  }

  predicate Cast(from: Key, to: Key) {
    (from == CUSTOMER && to == CLEARING) || (from == CLEARING && to == CUSTOMER)
  }

  lemma TransferDrafts(n: nat, slot: Slot, hash: string, from: Key, to: Key)
    requires Cast(from, to)
    ensures var c := Transfer(n, slot, hash, from, to);
            Drafts(Handler(slot, hash, false, Build), c) && Ids(c.events) == {100 + n}
  {
    var c := Transfer(n, slot, hash, from, to);
    assert c.events[..0] == [] && JournalsOf(c.events) == [] + [c.entry];
    TwoLegs(c.entry.postings);
  }

  lemma TransferShape(from: Key, to: Key)
    requires Cast(from, to)
    ensures Cells(Legs(from, to)) == {CUSTOMER, CLEARING} && RunningFits(map[], Legs(from, to))
    ensures forall k :: Net(Legs(from, to), k) == (if k == to then 5 else 0) - if k == from then 5 else 0
    ensures Ascending(KEYS, KeyLt) && Elements(KEYS) == {CUSTOMER, CLEARING}
  {
    var ps := Legs(from, to);
    TwoLegs(ps);
    assert ps[..1][..0] == [] && Cells(ps[..1]) == {from};
    assert Cells(ps) == {from} + {to};
    assert forall n | 0 < n <= |ps| :: FitsAfter(map[], ps, n);
  }

  /** Both accounts as seeded, and balances far from any bound. */
  ghost predicate Usual(db: Db) {
    db.accounts == SEEDED && forall k :: -100 <= Get(db.balances, k) <= 100
  }

  lemma TransferPasses(s: Sys, n: nat, slot: Slot, hash: string, from: Key, to: Key)
    requires Cast(from, to) && Usual(s.db)
    ensures Passes(s, Transfer(n, slot, hash, from, to), KEYS)
  {
    TransferShape(from, to);
  }

  lemma TransferReads(db: Db, n: nat, slot: Slot, hash: string, from: Key, to: Key)
    requires Cast(from, to) && Usual(db) && (from == CUSTOMER ==> Get(db.balances, CUSTOMER) >= 5)
    ensures forall i :: 0 <= i < |KEYS| ==> ReadOne(db, Transfer(n, slot, hash, from, to), SEEDED, KEYS[i]).Ok?
  {
    TransferShape(from, to);
  }

  lemma TransferCommits(db: Db, n: nat, slot: Slot, hash: string, from: Key, to: Key)
    requires Cast(from, to) && Usual(db) && (from == CUSTOMER ==> Get(db.balances, CUSTOMER) >= 5)
    requires slot !in db.idempotency && Get(db.balances, CUSTOMER) >= 0
    ensures var (r, db') := CommitJournal(db, Transfer(n, slot, hash, from, to));
            && r == Ok(Committed) && db'.accounts == SEEDED && db'.idempotency.Keys == db.idempotency.Keys + {slot}
            && forall k ::
                 Get(db'.balances, k) == Get(db.balances, k) + (if k == to then 5 else 0) - if k == from then 5 else 0
  {
    var c := Transfer(n, slot, hash, from, to);
    TransferShape(from, to);
    TwoLegs(c.entry.postings);
    var ps := c.entry.postings;
    assert Admits(db.accounts, db.balances, ps, 1) && Admits(db.accounts, db.balances, ps, 2);
    CommitAtomic(db, c);
  }

  // ---- the run --------------------------------------------------------------

  const DEPOSIT: Slot := Slot("submit_journal_entry", "d")
  const PAYOUT: Slot := Slot("submit_journal_entry", "p")

  function Funding(): seq<Action> {
    Arrival(0, DEPOSIT, "deposit", Transfer(0, DEPOSIT, "deposit", CLEARING, CUSTOMER))
    + (Guarding(0, KEYS) + [Serve(0, Write)])
  }

  function Payout(n: nat): JournalCommit { Transfer(n, PAYOUT, "payout", CUSTOMER, CLEARING) }

  /** Five units are deposited; one request to pay them out arrives twice. */
  function Twins(): seq<Action> {
    Funding() + (Arrival(1, PAYOUT, "payout", Payout(1)) + Arrival(2, PAYOUT, "payout", Payout(2)))
  }

  /** The first handler posts it, then the second reads the balance. */
  function Race(): seq<Action> {
    (Guarding(1, KEYS) + [Serve(1, Write)]) + [Serve(2, LoadAccounts(KEYS)), Serve(2, ReadBalance)]
  }

  lemma Funded()
    ensures var s := Exec(Boot(SEEDED), Funding());
            && s.db.accounts == SEEDED && s.db.idempotency.Keys == {DEPOSIT}
            && (forall k :: Get(s.db.balances, k) == (if k == CUSTOMER then 5 else 0) - if k == CLEARING then 5 else 0)
            && s.handlers.Keys == {0} && s.issued == {1, 2, 100}
  {
    var s0, c := Boot(SEEDED), Transfer(0, DEPOSIT, "deposit", CLEARING, CUSTOMER);
    assert s0.issued == {1, 2};
    TransferDrafts(0, DEPOSIT, "deposit", CLEARING, CUSTOMER);
    Arrives(s0, 0, DEPOSIT, "deposit", c);
    DepositPosts(Exec(s0, Arrival(0, DEPOSIT, "deposit", c)), c);
    ExecConcat(s0, Arrival(0, DEPOSIT, "deposit", c), Guarding(0, KEYS) + [Serve(0, Write)]);
  }

  lemma DepositPosts(s: Sys, c: JournalCommit)
    requires c == Transfer(0, DEPOSIT, "deposit", CLEARING, CUSTOMER) && s.db == Opened(SEEDED)
    requires 0 in s.handlers && s.handlers[0].phase == GuardLoad(c)
    ensures var s' := Exec(s, Guarding(0, KEYS) + [Serve(0, Write)]);
            && s'.db.accounts == SEEDED && s'.db.idempotency.Keys == {DEPOSIT}
            && (forall k :: Get(s'.db.balances, k) == (if k == CUSTOMER then 5 else 0) - if k == CLEARING then 5 else 0)
            && s'.handlers.Keys == s.handlers.Keys && s'.issued == s.issued
  {
    TransferPasses(s, 0, DEPOSIT, "deposit", CLEARING, CUSTOMER);
    TransferReads(s.db, 0, DEPOSIT, "deposit", CLEARING, CUSTOMER);
    TransferCommits(s.db, 0, DEPOSIT, "deposit", CLEARING, CUSTOMER);
    GuardsAndWrites(s, 0, c, KEYS);
  }

  function Waiting(n: nat): Handler { Handler(PAYOUT, "payout", false, GuardLoad(Payout(n))) }

  lemma TwinsWait()
    ensures var s, funded := Exec(Boot(SEEDED), Twins()), Exec(Boot(SEEDED), Funding());
            && s.db == funded.db && s.handlers == funded.handlers[1 := Waiting(1)][2 := Waiting(2)]
  {
    Funded();
    var s := Exec(Boot(SEEDED), Funding());
    TransferDrafts(1, PAYOUT, "payout", CUSTOMER, CLEARING);
    TransferDrafts(2, PAYOUT, "payout", CUSTOMER, CLEARING);
    Arrives(s, 1, PAYOUT, "payout", Payout(1));
    var s1 := Exec(s, Arrival(1, PAYOUT, "payout", Payout(1)));
    Arrives(s1, 2, PAYOUT, "payout", Payout(2));
    ExecConcat(s, Arrival(1, PAYOUT, "payout", Payout(1)), Arrival(2, PAYOUT, "payout", Payout(2)));
    ExecConcat(Boot(SEEDED), Funding(),
               Arrival(1, PAYOUT, "payout", Payout(1)) + Arrival(2, PAYOUT, "payout", Payout(2)));
  }

  /** The second handler comes too late: its balance read finds nothing left. */
  lemma SecondIsRefused(s: Sys)
    requires s.db.accounts == SEEDED && 2 in s.handlers && s.handlers[2] == Waiting(2)
    requires forall k :: Get(s.db.balances, k) == 0
    ensures Exec(s, [Serve(2, LoadAccounts(KEYS)), Serve(2, ReadBalance)]) ==
            Move(s, 2, Done(Err(Domain(InsufficientBalance(1, "USD", 0, -5)))))
  {
    var load, read := Serve(2, LoadAccounts(KEYS)), Serve(2, ReadBalance);
    TransferPasses(s, 2, PAYOUT, "payout", CUSTOMER, CLEARING);
    Loads(s, 2, Payout(2), KEYS);
    TransferShape(CUSTOMER, CLEARING);
    ReadsOne(s, 2, Payout(2), SEEDED, KEYS);
    ExecConcat(s, [load], [read]);
    ExecOne(s, load);
    ExecOne(Do(s, load), read);
    assert [load] + [read] == [load, read];
  }

  /** Not linearizable: one request, sent twice under one key, is answered with success and
      with `InsufficientBalance`. */
  lemma RetryRefused()
    ensures Payout(1).entry.postings == Payout(2).entry.postings
    ensures var s := Exec(Boot(SEEDED), Twins() + Race());
            && 1 in s.handlers && 2 in s.handlers
            && s.handlers[1].slot == s.handlers[2].slot && s.handlers[1].hash == s.handlers[2].hash
            && s.handlers[1].phase == Done(Ok(Payout(1).record.response))
            && s.handlers[2].phase == Done(Err(Domain(InsufficientBalance(1, "USD", 0, -5))))
  {
    Funded();
    TwinsWait();
    var s := Exec(Boot(SEEDED), Twins());
    FirstPosts(s);
    var s1 := Exec(s, Guarding(1, KEYS) + [Serve(1, Write)]);
    SecondIsRefused(s1);
    ExecConcat(s, Guarding(1, KEYS) + [Serve(1, Write)], [Serve(2, LoadAccounts(KEYS)), Serve(2, ReadBalance)]);
    ExecConcat(Boot(SEEDED), Twins(), Race());
  }

  lemma FirstPosts(s: Sys)
    requires s.db.accounts == SEEDED && PAYOUT !in s.db.idempotency && 1 in s.handlers && s.handlers[1] == Waiting(1)
    requires forall k :: Get(s.db.balances, k) == (if k == CUSTOMER then 5 else 0) - if k == CLEARING then 5 else 0
    ensures var s' := Exec(s, Guarding(1, KEYS) + [Serve(1, Write)]);
            && s'.db.accounts == SEEDED && (forall k :: Get(s'.db.balances, k) == 0)
            && s'.handlers == s.handlers[1 := Waiting(1).(phase := Done(Ok(Payout(1).record.response)))]
  {
    TransferPasses(s, 1, PAYOUT, "payout", CUSTOMER, CLEARING);
    TransferReads(s.db, 1, PAYOUT, "payout", CUSTOMER, CLEARING);
    TransferCommits(s.db, 1, PAYOUT, "payout", CUSTOMER, CLEARING);
    GuardsAndWrites(s, 1, Payout(1), KEYS);
  }
}
