/** What holds in every state of every run of the whole system. */
module Theorems {
  import opened Amounts
  import opened Journal
  import opened Balances
  import opened Store
  import opened Invariants
  import opened Projection
  import opened Coverage
  import opened System
  import opened Safety

  /** Effectively-once, end to end: under any interleaving of commits, crashes, duplicated,
      lost or reordered deliveries, replays and resets, each consumer's read model is the sum
      of postings over exactly the journal events it has processed; once those are all of
      them it is the ledger, and reconciling it finds nothing. */
  lemma EffectivelyOnce(seeded: Accounts, actions: seq<Action>, c: ConsumerName)
    ensures var s := Exec(Boot(seeded), actions);
            var events := EventsOf(s.db.outbox);
            && (forall id :: id in Processed(s.projection, c) ==> IsJournal(events, id))
            && (forall k :: Get(View(s.projection, c), k) == Covered(events, Processed(s.projection, c), k))
            && (AllProcessed(s.projection, c, events) ==>
                Mirrors(s.db, s.projection, c))
  {
    SystemInvariant(seeded, actions);
    var s := Exec(Boot(seeded), actions);
    assert ConsumerSound(EventsOf(s.db.outbox), s.projection, c);
    if AllProcessed(s.projection, c, EventsOf(s.db.outbox)) { CompleteConsumerAgrees(s.db, s.projection, c); }
  }

  /** Catching up: in any reachable state, a replay of the durable log that meets no
      overflow brings any consumer into agreement with the ledger. */
  lemma ReplayCatchesUp(seeded: Accounts, actions: seq<Action>, c: ConsumerName)
    ensures var s := Exec(Boot(seeded), actions);
            var fed := Feed(s.projection, c, EventsOf(s.db.outbox));
            fed.error.None? ==> Mirrors(s.db, fed.tables, c)
  {
    SystemInvariant(seeded, actions);
    var s := Exec(Boot(seeded), actions);
    var events := EventsOf(s.db.outbox);
    FeedKeepsSound(events, s.projection, c, |events|);
    assert events[..|events|] == events;
    var fed := Feed(s.projection, c, events);
    if fed.error.None? {
      FeedProcesses(s.projection, c, events);
      assert ConsumerSound(events, fed.tables, c);
      CompleteConsumerAgrees(s.db, fed.tables, c);
    }
  }

  lemma {:induction false} FeedKeepsSound(events: seq<Event>, t: Tables, c: ConsumerName, n: nat)
    requires ProjectionSound(events, t) && DistinctIds(events) && n <= |events|
    ensures ProjectionSound(events, Feed(t, c, events[..n]).tables)
  {
    if n > 0 {
      FeedKeepsSound(events, t, c, n - 1);
      assert events[..n][..n - 1] == events[..n - 1];
      DeliveryKeepsSound(events, Feed(t, c, events[..n - 1]).tables, c, n - 1);
    }
  }

  /** The balance table is the history: rebuilding it never overflows and finds no
      difference in any reachable state. */
  lemma AuthoritativeIsClean(seeded: Accounts, actions: seq<Action>)
    ensures var s := Exec(Boot(seeded), actions);
            && AddAll(map[], Postings(s.db.entries)) == Ok(s.db.balances)
            && forall k :: Get(s.db.balances, k) == Net(Postings(s.db.entries), k)
  {
    SystemInvariant(seeded, actions);
    AddAllExact(map[], Postings(Exec(Boot(seeded), actions).db.entries));
  }

  /** The outbox is the journal: ids ascend, event ids are unique, and the journal events in
      id order are the committed entries in order. */
  lemma OutboxMirrorsJournal(seeded: Accounts, actions: seq<Action>)
    ensures var db := Exec(Boot(seeded), actions).db;
            && (forall i, j :: 0 <= i < j < |db.outbox| ==>
                  db.outbox[i].id < db.outbox[j].id && db.outbox[i].event.id != db.outbox[j].event.id)
            && JournalsOf(EventsOf(db.outbox)) == db.entries
  {
    SystemInvariant(seeded, actions);
    var db := Exec(Boot(seeded), actions).db;
    forall i, j | 0 <= i < j < |db.outbox| ensures db.outbox[i].event.id != db.outbox[j].event.id {
      assert EventsOf(db.outbox)[i].id != EventsOf(db.outbox)[j].id;
    }
  }

  /** Money is neither created nor destroyed, and protected accounts are never overdrawn,
      while handlers, relays and purges interleave. */
  lemma MoneyIsConserved(seeded: Accounts, actions: seq<Action>, asset: AssetCode)
    ensures var db := Exec(Boot(seeded), actions).db;
            && SumWhere(db.balances, InAsset(asset)) == 0
            && (forall k :: k in db.balances && HeldBy(db.accounts, NonNegative, k.asset)(k) ==> db.balances[k] >= 0)
            && SumWhere(db.balances, HeldBy(db.accounts, AllowNegative, asset)) <= 0
  {
    SystemInvariant(seeded, actions);
    var db := Exec(Boot(seeded), actions).db;
    SumSplit(db.balances, InAsset(asset),
             HeldBy(db.accounts, AllowNegative, asset), HeldBy(db.accounts, NonNegative, asset));
    SumNonNegative(db.balances, HeldBy(db.accounts, NonNegative, asset));
  }
}
