/** The deduplicating projector and its replay (crates/projector/src/projector.rs) over the
    per-consumer tables of crates/storage-postgres/src/projection.rs. */
module Projection {
  import opened Amounts
  import opened Journal
  import opened Balances
  import opened Store

  type ConsumerName = string

  datatype RowKey = RowKey(consumer: ConsumerName, cell: Key)
  datatype Handled = Handled(consumer: ConsumerName, event: EventId)
  datatype Stream = Stream(consumer: ConsumerName, topic: string, partition: int)

  /** `projection_balances`, `processed_events` and `consumer_offsets`. */
  datatype Tables = Tables(
    balances: map<RowKey, Amount>, processed: set<Handled>, offsets: map<Stream, int>)

  const EMPTY_TABLES := Tables(map[], {}, map[])

  datatype ApplyOutcome = Applied | Duplicate | Ignored

  datatype SourcedEvent = SourcedEvent(cursor: int, event: Event)

  /** One consumer's read model: what `projection_snapshot` selects. */
  function View(t: Tables, c: ConsumerName): Table {
    map r | r in t.balances && r.consumer == c :: r.cell := t.balances[r]
  }

  function Processed(t: Tables, c: ConsumerName): set<EventId> {
    set h | h in t.processed && h.consumer == c :: h.event
  }

  /** Where a consumer stands in each topic and partition. */
  function Positions(t: Tables, c: ConsumerName): map<Stream, int> {
    map s | s in t.offsets && s.consumer == c :: t.offsets[s]
  }

  lemma ViewUpdate(t: Tables, c: ConsumerName, k: Key, v: Amount)
    ensures var t' := t.(balances := t.balances[RowKey(c, k) := v]);
            && View(t', c) == View(t, c)[k := v]
            && forall d :: d != c ==> View(t', d) == View(t, d)
  {
    var t' := t.(balances := t.balances[RowKey(c, k) := v]);
    forall d ensures d != c ==> View(t', d) == View(t, d) {
      if d != c {
        assert forall j :: j in View(t', d) <==> RowKey(d, j) in t.balances;
        assert forall j :: j in View(t, d) <==> RowKey(d, j) in t.balances;
      }
    }
    assert forall j :: j in View(t', c) <==> RowKey(c, j) in t'.balances;
    assert forall j :: j in View(t, c) <==> RowKey(c, j) in t.balances;
  }

  lemma ViewRow(t: Tables, c: ConsumerName, k: Key)
    ensures Get(View(t, c), k) == Get(t.balances, RowKey(c, k))
  {
    assert k in View(t, c) <==> RowKey(c, k) in t.balances;
  }

  /** Update a consumer's rows posting by posting, stopping at the first overflow. */
  function AddRows(t: Tables, c: ConsumerName, ps: seq<Posting>): (r: Result<Tables, DomainError>) {
    if ps == [] then Ok(t)
    else
      var before := AddRows(t, c, ps[..|ps| - 1]);
      if before.Err? then before
      else
        var p, row := ps[|ps| - 1], RowKey(c, ps[|ps| - 1].Cell());
        var sum := CheckedAdd(Get(before.value.balances, row), p.amount);
        if sum.Err? then Err(sum.error) else Ok(before.value.(balances := before.value.balances[row := sum.value]))
  }

  /** On its own consumer's view this is plain accumulation; other consumers see nothing. */
  lemma {:induction false} AddRowsView(t: Tables, c: ConsumerName, ps: seq<Posting>)
    ensures AddRows(t, c, ps).Ok? <==> AddAll(View(t, c), ps).Ok?
    ensures AddRows(t, c, ps).Err? ==> AddRows(t, c, ps).error == AmountOverflow
    ensures AddRows(t, c, ps).Ok? ==>
              var t' := AddRows(t, c, ps).value;
              && AddAll(View(t, c), ps) == Ok(View(t', c))
              && t'.processed == t.processed && t'.offsets == t.offsets
              && forall d :: d != c ==> View(t', d) == View(t, d)
  {
    if ps != [] {
      var n := |ps| - 1;
      AddRowsView(t, c, ps[..n]);
      if AddRows(t, c, ps[..n]).Ok? {
        var mid, k := AddRows(t, c, ps[..n]).value, ps[n].Cell();
        ViewRow(mid, c, k);
        var sum := CheckedAdd(Get(mid.balances, RowKey(c, k)), ps[n].amount);
        if sum.Ok? { ViewUpdate(mid, c, k, sum.value); }
      }
    }
  }

  /** `apply_journal`: the dedup row and the balance deltas in one transaction. */
  function ApplyJournal(t: Tables, c: ConsumerName, id: EventId, entry: JournalEntry)
    : (r: (Result<ApplyOutcome, DomainError>, Tables))
  {
    if Handled(c, id) in t.processed then (Ok(Duplicate), t)
    else
      var added := AddRows(t, c, entry.postings);
      if added.Err? then (Err(added.error), t)
      else (Ok(Applied), added.value.(processed := t.processed + {Handled(c, id)}))
  }

  function Project(t: Tables, c: ConsumerName, e: Event): (r: (Result<ApplyOutcome, DomainError>, Tables)) {
    if e.payload.JournalPosted? then ApplyJournal(t, c, e.id, e.payload.entry) else (Ok(Ignored), t)
  }

  function ResetConsumer(t: Tables, c: ConsumerName): (r: Tables) {
    Tables(map r | r in t.balances && r.consumer != c :: t.balances[r],
           set h | h in t.processed && h.consumer != c,
           map s | s in t.offsets && s.consumer != c :: t.offsets[s])
  }

  /** Effect of one event on the consumer it is for, and on nobody else. */
  lemma ProjectEffect(t: Tables, c: ConsumerName, e: Event)
    ensures var (r, t') := Project(t, c, e);
            && (r == Ok(Applied) <==>
                && e.payload.JournalPosted? && e.id !in Processed(t, c)
                && AddAll(View(t, c), e.payload.entry.postings).Ok?)
            && (r == Ok(Duplicate) <==> e.payload.JournalPosted? && e.id in Processed(t, c))
            && (r == Ok(Ignored) <==> !e.payload.JournalPosted?)
            && (r != Ok(Applied) ==> t' == t)
            && (r == Ok(Applied) ==>
                && AddAll(View(t, c), e.payload.entry.postings) == Ok(View(t', c))
                && Processed(t', c) == Processed(t, c) + {e.id})
            && (r.Err? ==> r.error == AmountOverflow)
            && forall d :: d != c ==> View(t', d) == View(t, d) && Processed(t', d) == Processed(t, d)
  {
    assert e.id in Processed(t, c) <==> Handled(c, e.id) in t.processed;
    if e.payload.JournalPosted? && Handled(c, e.id) !in t.processed {
      AddRowsView(t, c, e.payload.entry.postings);
      var added := AddRows(t, c, e.payload.entry.postings);
      if added.Ok? { MarkEffect(added.value, c, e.id); }
    }
  }

  lemma MarkEffect(t: Tables, c: ConsumerName, id: EventId)
    ensures var t' := t.(processed := t.processed + {Handled(c, id)});
            && Processed(t', c) == Processed(t, c) + {id}
            && (forall d :: View(t', d) == View(t, d))
            && forall d :: d != c ==> Processed(t', d) == Processed(t, d)
  {
    var t' := t.(processed := t.processed + {Handled(c, id)});
    assert forall d, i :: i in Processed(t', d) <==> Handled(d, i) in t'.processed;
    assert forall d, i :: i in Processed(t, d) <==> Handled(d, i) in t.processed;
  }

  lemma ResetEffect(t: Tables, c: ConsumerName)
    ensures var t' := ResetConsumer(t, c);
            && View(t', c) == map[] && Processed(t', c) == {} && Positions(t', c) == map[]
            && forall d :: d != c ==>
              View(t', d) == View(t, d) && Processed(t', d) == Processed(t, d) && Positions(t', d) == Positions(t, d)
  {
    var t' := ResetConsumer(t, c);
    forall d | d != c ensures Positions(t', d) == Positions(t, d) {
      assert forall s: Stream :: s.consumer == d ==> (s in t'.offsets <==> s in t.offsets);
    }
    forall d | d != c ensures View(t', d) == View(t, d) && Processed(t', d) == Processed(t, d) {
      assert forall r: RowKey :: r.consumer == d ==> (r in t'.balances <==> r in t.balances);
      assert forall h: Handled :: h.consumer == d ==> (h in t'.processed <==> h in t.processed);
    }
  }

  // ---- feeding a list of events ---------------------------------------------

  datatype Fed = Fed(tables: Tables, applied: nat, duplicates: nat, ignored: nat, error: Option<DomainError>)

  /** Project events in order, up to and including the first that fails. */
  function Feed(t: Tables, c: ConsumerName, es: seq<Event>): (r: Fed)
    ensures r.error.None? ==> r.applied + r.duplicates + r.ignored == |es|
  {
    if es == [] then Fed(t, 0, 0, 0, None)
    else
      var f := Feed(t, c, es[..|es| - 1]);
      if f.error.Some? then f
      else
        var (outcome, t') := Project(f.tables, c, es[|es| - 1]);
        match outcome
        case Ok(Applied) => f.(tables := t', applied := f.applied + 1)
        case Ok(Duplicate) => f.(tables := t', duplicates := f.duplicates + 1)
        case Ok(Ignored) => f.(tables := t', ignored := f.ignored + 1)
        case Err(e) => f.(tables := t', error := Some(e))
  }

  predicate AllProcessed(t: Tables, c: ConsumerName, es: seq<Event>) {
    forall i :: 0 <= i < |es| && es[i].payload.JournalPosted? ==> es[i].id in Processed(t, c)
  }

  lemma {:induction false} FeedProcesses(t: Tables, c: ConsumerName, es: seq<Event>)
    ensures Processed(t, c) <= Processed(Feed(t, c, es).tables, c)
    ensures Feed(t, c, es).error.None? ==> AllProcessed(Feed(t, c, es).tables, c, es)
  {
    if es != [] {
      var n := |es| - 1;
      FeedProcesses(t, c, es[..n]);
      var f := Feed(t, c, es[..n]);
      ProjectEffect(f.tables, c, es[n]);
      if Feed(t, c, es).error.None? {
        forall i | 0 <= i < |es| && es[i].payload.JournalPosted?
          ensures es[i].id in Processed(Feed(t, c, es).tables, c)
        {
          if i < n { assert es[..n][i] == es[i]; }
        }
      }
    }
  }

  lemma {:induction false} FeedProcessedIsIdle(t: Tables, c: ConsumerName, es: seq<Event>)
    requires AllProcessed(t, c, es)
    ensures Feed(t, c, es).tables == t && Feed(t, c, es).applied == 0 && Feed(t, c, es).error.None?
  {
    if es != [] {
      var n := |es| - 1;
      assert forall i :: 0 <= i < n ==> es[..n][i] == es[i];
      FeedProcessedIsIdle(t, c, es[..n]);
      ProjectEffect(t, c, es[n]);
    }
  }

  /** Replay idempotence: feeding a completed list again changes nothing and applies nothing. */
  lemma FeedTwice(t: Tables, c: ConsumerName, es: seq<Event>)
    requires Feed(t, c, es).error.None?
    ensures var once := Feed(t, c, es);
            var twice := Feed(once.tables, c, es);
            twice.tables == once.tables && twice.applied == 0 && twice.error.None?
  {
    FeedProcesses(t, c, es);
    FeedProcessedIsIdle(Feed(t, c, es).tables, c, es);
  }

  /** Feeding one consumer depends only on, and changes only, that consumer's rows. */
  lemma {:induction false} FeedLocal(t: Tables, u: Tables, c: ConsumerName, es: seq<Event>)
    requires View(t, c) == View(u, c) && Processed(t, c) == Processed(u, c)
    ensures var f, g := Feed(t, c, es), Feed(u, c, es);
            && View(f.tables, c) == View(g.tables, c) && Processed(f.tables, c) == Processed(g.tables, c)
            && f.applied == g.applied && f.duplicates == g.duplicates && f.ignored == g.ignored && f.error == g.error
            && forall d :: d != c ==> View(f.tables, d) == View(t, d) && Processed(f.tables, d) == Processed(t, d)
  {
    if es != [] {
      var n := |es| - 1;
      FeedLocal(t, u, c, es[..n]);
      ProjectEffect(Feed(t, c, es[..n]).tables, c, es[n]);
      ProjectEffect(Feed(u, c, es[..n]).tables, c, es[n]);
    }
  }

  /** Reset and full replay rebuild exactly what a fresh consumer would hold, and leave
      every other consumer as it was. */
  lemma ResetThenReplay(t: Tables, c: ConsumerName, es: seq<Event>)
    ensures var rebuilt, first := Feed(ResetConsumer(t, c), c, es), Feed(EMPTY_TABLES, c, es);
            && View(rebuilt.tables, c) == View(first.tables, c)
            && Processed(rebuilt.tables, c) == Processed(first.tables, c)
            && rebuilt.applied == first.applied && rebuilt.error == first.error
            && forall d :: d != c ==>
              View(rebuilt.tables, d) == View(t, d) && Processed(rebuilt.tables, d) == Processed(t, d)
  {
    ResetEffect(t, c);
    assert View(EMPTY_TABLES, c) == map[] && Processed(EMPTY_TABLES, c) == {};
    FeedLocal(ResetConsumer(t, c), EMPTY_TABLES, c, es);
  }
}
