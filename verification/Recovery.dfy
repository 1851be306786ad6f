/** Bringing a read model back: reset and batched replay of the durable log
    (crates/projector/src/projector.rs:108-158), replay beside live deliveries
    (services/projector-service/src/main.rs:39-59), and the reconciliation that follows
    (crates/reconciler/src/reconciler.rs:67-86). */
module Recovery {
  import opened Sequences
  import opened Amounts
  import opened Journal
  import opened Balances
  import opened Store
  import opened Invariants
  import opened Projection
  import opened Coverage
  import opened Replay
  import opened System
  import opened Safety
  import opened MemoryLedger
  import R = Reconciler

  /** The outbox as an event source: the row id is the cursor. */
  function SourceLog(rows: seq<Row>): (r: seq<SourcedEvent>)
    ensures |r| == |rows| && forall i :: 0 <= i < |r| ==> r[i] == SourcedEvent(rows[i].id, rows[i].event)
  {
    seq(|rows|, i requires 0 <= i < |rows| => SourcedEvent(rows[i].id, rows[i].event))
  }

  /** Rows in id order whose journal adds up to the ledger's balance table: the outbox of the
      in-memory store as it stands, and that of PostgreSQL read in id order. */
  ghost predicate Readable(db: Db, rows: seq<Row>) {
    && IdsAscend(rows) && (forall i :: 0 <= i < |rows| ==> rows[i].id > 0)
    && DistinctIds(EventsOf(rows))
    && |JournalsOf(EventsOf(rows))| == |db.entries|
    && AddAll(map[], Postings(JournalsOf(EventsOf(rows)))) == Ok(db.balances)
  }

  lemma SoundIsReadable(db: Db)
    requires Sound(db)
    ensures Readable(db, db.outbox)
  {
  }

  lemma SourceLogIsWhole(rows: seq<Row>)
    requires IdsAscend(rows) && forall i :: 0 <= i < |rows| ==> rows[i].id > 0
    ensures CursorsAscend(SourceLog(rows)) && After(SourceLog(rows), 0) == SourceLog(rows)
    ensures Payloads(SourceLog(rows)) == EventsOf(rows)
  {
    AfterAll(SourceLog(rows), 0);
  }

  /** Reset and full replay of a ledger's log always succeeds, whatever the batch size and
      whatever the read model held before; it ends with the ledger's balances, applies each
      journal entry once, and leaves every other consumer alone. */
  method Rebuild(ghost db: Db, ghost rows: seq<Row>, p: Projector, log: seq<SourcedEvent>, batchSize: nat)
    returns (r: Result<ReplayReport, DomainError>)
    requires Readable(db, rows) && log == SourceLog(rows) && batchSize > 0
    modifies p.store
    ensures r.Ok? && r.value.scanned == |log| && r.value.applied == |db.entries| && r.value.duplicates == 0
    ensures Mirrors(db, p.store.Snapshot(), p.consumer)
    ensures forall d :: d != p.consumer ==> View(p.store.Snapshot(), d) == View(old(p.store.Snapshot()), d)
  {
    p.store.Reset(p.consumer);
    SourceLogIsWhole(rows);
    ghost var visited;
    r, visited := p.ReplayLog(log, 0, batchSize);
    FreshVisits(db, rows, old(p.store.Snapshot()), p.consumer, log, visited);
  }

  /** Visiting any beginning of the log from a reset consumer never fails, and visiting all of
      it rebuilds the ledger. */
  lemma FreshVisits(db: Db, rows: seq<Row>, t0: Tables, c: ConsumerName,
                    log: seq<SourcedEvent>, visited: seq<SourcedEvent>)
    requires Readable(db, rows) && log == SourceLog(rows) && visited <= log
    ensures var f := Feed(ResetConsumer(t0, c), c, Payloads(visited));
            && f.error.None?
            && (visited == log ==>
                && f.applied == |db.entries| && f.duplicates == 0 && Mirrors(db, f.tables, c)
                && forall d :: d != c ==> View(f.tables, d) == View(t0, d))
  {
    FreshReplay(db, rows, t0, c);
    assert Payloads(visited) == EventsOf(rows)[..|visited|];
    assert EventsOf(rows)[..|rows|] == EventsOf(rows);
  }

  /** Feeding a ledger's events to a consumer that was just reset. */
  lemma FreshReplay(db: Db, rows: seq<Row>, t0: Tables, c: ConsumerName)
    requires Readable(db, rows)
    ensures var f := Feed(ResetConsumer(t0, c), c, EventsOf(rows));
            && f.applied == |db.entries| && f.duplicates == 0
            && (forall n :: 0 <= n <= |rows| ==> Feed(ResetConsumer(t0, c), c, EventsOf(rows)[..n]).error.None?)
            && Mirrors(db, f.tables, c)
            && forall d :: d != c ==> View(f.tables, d) == View(t0, d)
  {
    var t, events := ResetConsumer(t0, c), EventsOf(rows);
    ResetEffect(t0, c);
    FreshFeed(t, c, events);
    FeedLocal(t, t, c, events);
    AppliedCountsEntries(t, c, events);
    forall n | 0 <= n <= |events| ensures Feed(t, c, events[..n]).error.None? { FeedPrefix(t, c, events, n); }
  }

  /** A feed that does not fail does not fail earlier either. */
  lemma {:induction false} FeedPrefix(t: Tables, c: ConsumerName, es: seq<Event>, n: nat)
    requires Feed(t, c, es).error.None?
    ensures n <= |es| ==> Feed(t, c, es[..n]).error.None?
  {
    if n < |es| {
      FeedPrefix(t, c, es[..|es| - 1], n);
      assert es[..|es| - 1][..n] == es[..n];
    } else if n == |es| {
      assert es[..n] == es;
    }
  }

  /** Without duplicates, each journal event is applied once and every other one ignored. */
  lemma {:induction false} AppliedCountsEntries(t: Tables, c: ConsumerName, es: seq<Event>)
    requires Feed(t, c, es).error.None?
    ensures Feed(t, c, es).applied + Feed(t, c, es).duplicates == |JournalsOf(es)|
  {
    if es != [] {
      AppliedCountsEntries(t, c, es[..|es| - 1]);
      ProjectEffect(Feed(t, c, es[..|es| - 1]).tables, c, es[|es| - 1]);
    }
  }

  // ---- reconciliation -------------------------------------------------------

  /** Reconciling any listing of a view: it never overflows on a ledger's journal, is clean iff
      the view is the ledger's table, and otherwise names exactly the cells that differ. */
  method ReconcileView(ghost db: Db, ghost view: Table, entries: seq<JournalEntry>, snapshot: seq<BalanceRecord>)
    returns (r: Result<seq<R.Discrepancy>, DomainError>)
    requires Sound(db) && entries == db.entries && Lists(snapshot, view)
    ensures r.Ok? && R.Finds(Postings(db.entries), view, r.value)
    ensures r.value == [] <==> forall k :: Get(view, k) == Get(db.balances, k)
    ensures forall i :: 0 <= i < |r.value| ==>
              && r.value[i].expected == Get(db.balances, r.value[i].cell)
              && r.value[i].observed == Get(view, r.value[i].cell)
  {
    AddAllExact(map[], Postings(entries));
    R.ObservedExact(snapshot, view);
    r := R.Reconcile(entries, snapshot);
    R.FoundNothing(Postings(entries), view, r.value);
  }

  /** `reconcile_authoritative`: a sound ledger's own table is always clean. */
  method ReconcileAuthoritative(ledger: InMemoryLedger) returns (r: Result<seq<R.Discrepancy>, DomainError>)
    requires Sound(ledger.Snapshot())
    ensures r == Ok([])
  {
    var snapshot := ledger.BalanceSnapshot();
    r := ReconcileView(ledger.Snapshot(), ledger.balances, ledger.entries, snapshot);
  }

  /** `reconcile_projection`: clean exactly when the consumer's read model mirrors the ledger. */
  method ReconcileProjection(ledger: InMemoryLedger, store: ProjectionStore, consumer: ConsumerName)
    returns (r: Result<seq<R.Discrepancy>, DomainError>)
    requires Sound(ledger.Snapshot())
    ensures r.Ok? && R.Finds(Postings(ledger.entries), View(store.Snapshot(), consumer), r.value)
    ensures r.value == [] <==> Mirrors(ledger.Snapshot(), store.Snapshot(), consumer)
  {
    var snapshot := store.ProjectionSnapshot(consumer);
    ghost var view := View(store.Snapshot(), consumer);
    r := ReconcileView(ledger.Snapshot(), view, ledger.entries, snapshot);
    MirrorsExactly(ledger.Snapshot(), store.Snapshot(), consumer);
  }

  lemma MirrorsExactly(db: Db, t: Tables, c: ConsumerName)
    ensures Mirrors(db, t, c) <==> forall k :: Get(View(t, c), k) == Get(db.balances, k)
  {
    if Mirrors(db, t, c) {
      forall k ensures Get(View(t, c), k) == Get(db.balances, k) { assert !R.Differs(db.balances, View(t, c), k); }
    }
  }

  // ---- replay beside a live consumer ----------------------------------------

  /** The event an action brings to a consumer. */
  function Brings(s: Sys, a: Action, c: ConsumerName): Option<Event> {
    if !a.Consume? || a.consumer != c then None
    else match a.consume
      case Deliver(b) => if b < |s.broker| then Some(s.broker[b]) else None
      case ReplayRow(i) => if i < |s.db.outbox| then Some(s.db.outbox[i].event) else None
      case ResetAll => None
  }

  /** The consumer handles event `e` in this step without an error. */
  predicate Handles(s: Sys, a: Action, c: ConsumerName, e: Event) {
    Brings(s, a, c) == Some(e) && Project(s.projection, c, e).0.Ok?
  }

  lemma HandledIsProcessed(s: Sys, a: Action, c: ConsumerName, e: Event)
    requires Handles(s, a, c, e) && e.payload.JournalPosted?
    ensures e.id in Processed(Do(s, a).projection, c)
  {
    ProjectEffect(s.projection, c, e);
  }

  lemma StepKeepsProcessed(s: Sys, a: Action, c: ConsumerName)
    requires a != Consume(c, ResetAll)
    ensures Processed(s.projection, c) <= Processed(Do(s, a).projection, c)
  {
    if a.Consume? {
      if a.consume.ResetAll? {
        ResetEffect(s.projection, a.consumer);
      } else {
        var e := Brings(s, a, a.consumer);
        if e.Some? { ProjectEffect(s.projection, a.consumer, e.value); }
      }
    }
  }

  /** What a consumer has processed stays processed until it is reset. */
  lemma {:induction false} ProcessedFrom(s: Sys, later: seq<Action>, c: ConsumerName)
    requires forall q :: 0 <= q < |later| ==> later[q] != Consume(c, ResetAll)
    ensures Processed(s.projection, c) <= Processed(Exec(s, later).projection, c)
  {
    if later != [] {
      var n := |later| - 1;
      ProcessedFrom(s, later[..n], c);
      StepKeepsProcessed(Exec(s, later[..n]), later[n], c);
    }
  }

  lemma ProcessedStays(s: Sys, actions: seq<Action>, c: ConsumerName, p: nat)
    requires p <= |actions| && forall q :: p <= q < |actions| ==> actions[q] != Consume(c, ResetAll)
    ensures Processed(Exec(s, actions[..p]).projection, c) <= Processed(Exec(s, actions).projection, c)
  {
    SplitAt(actions, p);
    ExecConcat(s, actions[..p], actions[p..]);
    ProcessedFrom(Exec(s, actions[..p]), actions[p..], c);
  }

  /** At step `p` the consumer handled the event, and it was not reset afterwards. */
  ghost predicate HandledAt(seeded: Accounts, actions: seq<Action>, c: ConsumerName, e: Event, p: int) {
    && 0 <= p < |actions|
    && Handles(Exec(Boot(seeded), actions[..p]), actions[p], c, e)
    && forall q :: p < q < |actions| ==> actions[q] != Consume(c, ResetAll)
  }

  ghost predicate Attended(seeded: Accounts, actions: seq<Action>, c: ConsumerName, e: Event) {
    exists p :: HandledAt(seeded, actions, c, e, p)
  }

  /** A replay running beside live deliveries: in any run, whoever brought each journal event
      and however often, a consumer that has handled all of them mirrors the ledger. */
  lemma ReplayBesideConsumer(seeded: Accounts, actions: seq<Action>, c: ConsumerName, s: Sys)
    requires s == Exec(Boot(seeded), actions)
    requires forall e :: e in EventsOf(s.db.outbox) && e.payload.JournalPosted? ==> Attended(seeded, actions, c, e)
    ensures Mirrors(s.db, s.projection, c)
  {
    SystemInvariant(seeded, actions);
    var events := EventsOf(s.db.outbox);
    forall i | 0 <= i < |events| && events[i].payload.JournalPosted?
      ensures events[i].id in Processed(s.projection, c)
    {
      AttendedIsProcessed(seeded, actions, c, events[i]);
    }
    assert ConsumerSound(events, s.projection, c);
    CompleteConsumerAgrees(s.db, s.projection, c);
  }

  lemma AttendedIsProcessed(seeded: Accounts, actions: seq<Action>, c: ConsumerName, e: Event)
    requires Attended(seeded, actions, c, e) && e.payload.JournalPosted?
    ensures e.id in Processed(Exec(Boot(seeded), actions).projection, c)
  {
    var p :| HandledAt(seeded, actions, c, e, p);
    ProcessedAt(seeded, actions, c, e, p);
    ProcessedStays(Boot(seeded), actions, c, p + 1);
  }

  lemma ProcessedAt(seeded: Accounts, actions: seq<Action>, c: ConsumerName, e: Event, p: nat)
    requires HandledAt(seeded, actions, c, e, p) && e.payload.JournalPosted?
    ensures e.id in Processed(Exec(Boot(seeded), actions[..p + 1]).projection, c)
  {
    ExecUpTo(Boot(seeded), actions, p);
    HandledIsProcessed(Exec(Boot(seeded), actions[..p]), actions[p], c, e);
  }

  lemma ExecUpTo(s: Sys, actions: seq<Action>, p: nat)
    requires p < |actions|
    ensures Exec(s, actions[..p + 1]) == Do(Exec(s, actions[..p]), actions[p])
  {
    assert actions[..p + 1][..p] == actions[..p];
  }
}
