/** The projection store and the projector as objects, and the batched replay loop
    (crates/projector/src/projector.rs:57-158). */
module Replay {
  import opened Sequences
  import opened Amounts
  import opened Order
  import opened Journal
  import opened Balances
  import opened Store
  import opened Projection

  /** Events of the log beyond a cursor, in log order. */
  function After(log: seq<SourcedEvent>, after: int): (r: seq<SourcedEvent>)
    ensures |r| <= |log|
  {
    if log == [] then []
    else
      var last := log[|log| - 1];
      After(log[..|log| - 1], after) + if last.cursor > after then [last] else []
  }

  /** `fetch_after`: at most `limit` of them. */
  function FetchAfter(log: seq<SourcedEvent>, after: int, limit: nat): (r: seq<SourcedEvent>)
    ensures |r| <= limit && r <= After(log, after)
  {
    var beyond := After(log, after);
    if |beyond| <= limit then beyond else beyond[..limit]
  }

  function Payloads(es: seq<SourcedEvent>): (r: seq<Event>)
    ensures |r| == |es| && forall i :: 0 <= i < |r| ==> r[i] == es[i].event
  {
    seq(|es|, i requires 0 <= i < |es| => es[i].event)
  }

  predicate CursorsAscend(log: seq<SourcedEvent>) {
    forall i, j :: 0 <= i < j < |log| ==> log[i].cursor < log[j].cursor
  }

  lemma {:induction false} AfterMember(log: seq<SourcedEvent>, after: int, i: nat)
    requires i < |After(log, after)|
    ensures After(log, after)[i] in log && After(log, after)[i].cursor > after
  {
    var init := log[..|log| - 1];
    if i < |After(init, after)| { AfterMember(init, after, i); }
  }

  /** Moving the cursor past an event leaves strictly less to do, whatever the log order. */
  lemma {:induction false} AfterShrinks(log: seq<SourcedEvent>, a: int, b: int, e: SourcedEvent)
    requires a <= b
    ensures |After(log, b)| <= |After(log, a)|
    ensures e in log && a < e.cursor <= b ==> |After(log, b)| < |After(log, a)|
  {
    if log != [] {
      AfterShrinks(log[..|log| - 1], a, b, e);
    }
  }

  lemma {:induction false} AfterConcat(x: seq<SourcedEvent>, y: seq<SourcedEvent>, after: int)
    ensures After(x + y, after) == After(x, after) + After(y, after)
  {
    if y == [] {
      assert x + y == x;
    } else {
      ConcatInit(x, y);
      AfterConcat(x, y[..|y| - 1], after);
    }
  }

  lemma {:induction false} AfterAll(log: seq<SourcedEvent>, after: int)
    requires forall i :: 0 <= i < |log| ==> log[i].cursor > after
    ensures After(log, after) == log
  {
    if log != [] {
      var n := |log| - 1;
      AfterAll(log[..n], after);
      assert log == log[..n] + [log[n]];
    }
  }

  lemma {:induction false} AfterNone(log: seq<SourcedEvent>, after: int)
    requires forall i :: 0 <= i < |log| ==> log[i].cursor <= after
    ensures After(log, after) == []
  {
    if log != [] { AfterNone(log[..|log| - 1], after); }
  }

  /** Looking beyond a cursor twice is looking beyond the larger one. */
  lemma {:induction false} AfterTwice(log: seq<SourcedEvent>, a: int, b: int)
    requires a <= b
    ensures After(After(log, a), b) == After(log, b)
  {
    if log != [] {
      var n := |log| - 1;
      AfterTwice(log[..n], a, b);
      var last := if log[n].cursor > a then [log[n]] else [];
      AfterConcat(After(log[..n], a), last, b);
      AfterOne(log[n], b);
    }
  }

  lemma AfterOne(e: SourcedEvent, after: int)
    ensures After([e], after) == if e.cursor > after then [e] else []
    ensures After([], after) == []
  {
    assert [e][..0] == [];
  }

  lemma AfterCut(x: seq<SourcedEvent>, y: seq<SourcedEvent>, c: int)
    requires forall i :: 0 <= i < |x| ==> x[i].cursor <= c
    requires forall i :: 0 <= i < |y| ==> y[i].cursor > c
    ensures After(x + y, c) == y
  {
    AfterConcat(x, y, c);
    AfterNone(x, c);
    AfterAll(y, c);
  }

  /** Continuing after the n-th event of ascending work leaves the rest: batches tile it. */
  lemma AfterSplit(log: seq<SourcedEvent>, after: int, n: nat)
    requires CursorsAscend(After(log, after)) && 0 < n <= |After(log, after)|
    ensures After(log, After(log, after)[n - 1].cursor) == After(log, after)[n..]
  {
    AfterMember(log, after, n - 1);
    AfterTwice(log, after, After(log, after)[n - 1].cursor);
    SplitAscending(After(log, after), n);
  }

  lemma SplitAscending(es: seq<SourcedEvent>, n: nat)
    requires CursorsAscend(es) && 0 < n <= |es|
    ensures After(es, es[n - 1].cursor) == es[n..]
  {
    Halves(es, n);
    AfterCut(es[..n], es[n..], es[n - 1].cursor);
  }

  lemma Halves(es: seq<SourcedEvent>, n: nat)
    requires n <= |es|
    ensures es == es[..n] + es[n..]
    ensures CursorsAscend(es) ==> CursorsAscend(es[n..])
    ensures CursorsAscend(es) && n > 0 ==>
              && (forall i :: 0 <= i < n ==> es[..n][i].cursor <= es[n - 1].cursor)
              && (forall i :: 0 <= i < |es| - n ==> es[n..][i].cursor > es[n - 1].cursor)
  {
  }

  // ---- what a replay visits -------------------------------------------------

  lemma BatchAdvances(log: seq<SourcedEvent>, after: int, batchSize: nat, i: nat)
    requires i < |FetchAfter(log, after, batchSize)|
    ensures FetchAfter(log, after, batchSize)[i] in log && FetchAfter(log, after, batchSize)[i].cursor > after
  {
    AfterMember(log, after, i);
    assert FetchAfter(log, after, batchSize)[i] == After(log, after)[i];
  }

  /** The cursor a batch leads to. */
  function Last(batch: seq<SourcedEvent>, after: int): int {
    if batch == [] then after else batch[|batch| - 1].cursor
  }

  /** A non-empty batch makes progress. */
  lemma BatchShrinks(log: seq<SourcedEvent>, after: int, batchSize: nat)
    requires FetchAfter(log, after, batchSize) != []
    ensures |After(log, Last(FetchAfter(log, after, batchSize), after))| < |After(log, after)|
  {
    var batch := FetchAfter(log, after, batchSize);
    BatchAdvances(log, after, batchSize, |batch| - 1);
    AfterShrinks(log, after, Last(batch, after), batch[|batch| - 1]);
  }

  /** The events a replay visits when none of them fails, batch after batch. */
  function Visited(log: seq<SourcedEvent>, after: int, batchSize: nat): seq<SourcedEvent>
    decreases |After(log, after)|
  {
    var batch := FetchAfter(log, after, batchSize);
    if batch == [] then []
    else
      BatchShrinks(log, after, batchSize);
      batch + if |batch| < batchSize then [] else Visited(log, Last(batch, after), batchSize)
  }

  /** One round: the batch, then whatever its last cursor leads to. */
  lemma VisitedRound(log: seq<SourcedEvent>, after: int, batchSize: nat, batch: seq<SourcedEvent>)
    requires batch == FetchAfter(log, after, batchSize)
    ensures batch == [] ==> Visited(log, after, batchSize) == []
    ensures batch != [] && |batch| < batchSize ==> Visited(log, after, batchSize) == batch
    ensures batch != [] && |batch| >= batchSize ==>
              Visited(log, after, batchSize) == batch + Visited(log, Last(batch, after), batchSize)
    ensures batch != [] ==> |After(log, Last(batch, after))| < |After(log, after)|
  {
    if batch != [] { BatchShrinks(log, after, batchSize); }
  }

  lemma {:induction false} AscendingIsVisited(log: seq<SourcedEvent>, after: int, batchSize: nat)
    requires batchSize > 0 && CursorsAscend(After(log, after))
    ensures Visited(log, after, batchSize) == After(log, after)
    decreases |After(log, after)|
  {
    var batch := FetchAfter(log, after, batchSize);
    VisitedRound(log, after, batchSize, batch);
    if batch != [] && |batch| == batchSize {
      FullBatchSplits(log, after, batchSize, batch);
      AscendingIsVisited(log, Last(batch, after), batchSize);
    }
  }

  /** A full batch of ascending work leaves ascending work. */
  lemma FullBatchSplits(log: seq<SourcedEvent>, after: int, batchSize: nat, batch: seq<SourcedEvent>)
    requires CursorsAscend(After(log, after)) && batch == FetchAfter(log, after, batchSize)
    requires batch != [] && |batch| == batchSize
    ensures After(log, after) == batch + After(log, Last(batch, after))
    ensures CursorsAscend(After(log, Last(batch, after)))
  {
    AfterSplit(log, after, |batch|);
    Halves(After(log, after), |batch|);
  }

  /** One at a time, a replay only ever moves forward. */
  lemma {:induction false} SingleStepsAscend(log: seq<SourcedEvent>, after: int)
    ensures CursorsAscend(Visited(log, after, 1)) && Beyond(Visited(log, after, 1), after)
    decreases |After(log, after)|
  {
    var batch := FetchAfter(log, after, 1);
    VisitedRound(log, after, 1, batch);
    if batch != [] {
      BatchAdvances(log, after, 1, 0);
      SingleStepsAscend(log, Last(batch, after));
      AscendCons(batch[0], Visited(log, Last(batch, after), 1), after);
      assert batch == [batch[0]];
    }
  }

  predicate Beyond(es: seq<SourcedEvent>, after: int) {
    forall i :: 0 <= i < |es| ==> es[i].cursor > after
  }

  lemma AscendCons(e: SourcedEvent, rest: seq<SourcedEvent>, after: int)
    requires CursorsAscend(rest) && Beyond(rest, e.cursor) && e.cursor > after
    ensures CursorsAscend([e] + rest) && Beyond([e] + rest, after)
  {
  }

  /** A replay in batches of `n` visits every later event once, in order. */
  ghost predicate Complete(log: seq<SourcedEvent>, start: int, n: nat) {
    Visited(log, start, n) == After(log, start)
  }

  /** Complete replay, exactly: every later event is visited once and in order, whatever the
      batch size, if and only if the later events stand in ascending cursor order. */
  lemma ReplayComplete(log: seq<SourcedEvent>, start: int)
    ensures CursorsAscend(After(log, start)) <==> forall n: nat | n > 0 :: Complete(log, start, n)
  {
    if CursorsAscend(After(log, start)) {
      forall n: nat | n > 0 ensures Complete(log, start, n) { AscendingIsVisited(log, start, n); }
    }
    SingleStepsAscend(log, start);
    assert Complete(log, start, 1) ==> CursorsAscend(After(log, start));
  }

  /** An event filed behind a later cursor: a replay in single steps never visits it, and one
      in steps of two goes back over its neighbour. */
  lemma OutOfOrderIsSkipped(e: Event, f: Event)
    ensures var log := [SourcedEvent(2, e), SourcedEvent(1, f)];
            && After(log, 0) == log
            && Visited(log, 0, 1) == [log[0]]
            && Visited(log, 0, 2) == log + [log[0]]
  {
    var log := [SourcedEvent(2, e), SourcedEvent(1, f)];
    AfterAll(log, 0);
    AfterNone(log, 2);
    assert After(log, 1) == [log[0]] by {
      assert log == [log[0]] + [log[1]];
      AfterConcat([log[0]], [log[1]], 1);
      AfterOne(log[0], 1);
      AfterOne(log[1], 1);
    }
    VisitedRound(log, 0, 1, [log[0]]);
    VisitedRound(log, 2, 1, []);
    VisitedRound(log, 0, 2, log);
    VisitedRound(log, 1, 2, [log[0]]);
  }

  /** Whatever is visited comes from beyond the cursor. */
  lemma {:induction false} VisitedFromLog(log: seq<SourcedEvent>, after: int, batchSize: nat)
    ensures FromLog(log, after, Visited(log, after, batchSize))
    decreases |After(log, after)|
  {
    var batch := FetchAfter(log, after, batchSize);
    VisitedRound(log, after, batchSize, batch);
    forall i | 0 <= i < |batch| ensures batch[i] in log && batch[i].cursor > after {
      BatchAdvances(log, after, batchSize, i);
    }
    if batch != [] && |batch| >= batchSize {
      VisitedFromLog(log, Last(batch, after), batchSize);
      FromLogJoin(log, after, batch, Visited(log, Last(batch, after), batchSize));
    }
  }

  lemma FromLogJoin(log: seq<SourcedEvent>, after: int, batch: seq<SourcedEvent>, rest: seq<SourcedEvent>)
    requires batch != [] && FromLog(log, after, batch) && FromLog(log, Last(batch, after), rest)
    ensures FromLog(log, after, batch + rest)
  {
    var all := batch + rest;
    forall i | 0 <= i < |all| ensures all[i] in log && all[i].cursor > after {
      if i >= |batch| { assert all[i] == rest[i - |batch|] && batch[|batch| - 1].cursor > after; }
    }
  }

  ghost predicate Shape(log: seq<SourcedEvent>, start: int, batchSize: nat, all: seq<SourcedEvent>) {
    && FromLog(log, start, all)
    && (batchSize == 0 ==> all == [])
    && (batchSize > 0 && CursorsAscend(After(log, start)) ==> all == After(log, start))
  }

  lemma VisitedShape(log: seq<SourcedEvent>, start: int, batchSize: nat)
    ensures Shape(log, start, batchSize, Visited(log, start, batchSize))
  {
    VisitedFromLog(log, start, batchSize);
    if batchSize > 0 && CursorsAscend(After(log, start)) { AscendingIsVisited(log, start, batchSize); }
  }

  /** What is left of a replay after one more batch. */
  function Rest(log: seq<SourcedEvent>, after: int, batch: seq<SourcedEvent>, batchSize: nat): seq<SourcedEvent> {
    if batch == [] || |batch| < batchSize then [] else Visited(log, Last(batch, after), batchSize)
  }

  lemma RoundVisits(log: seq<SourcedEvent>, after: int, batchSize: nat, batch: seq<SourcedEvent>)
    requires batch == FetchAfter(log, after, batchSize)
    ensures Visited(log, after, batchSize) == batch + Rest(log, after, batch, batchSize)
    ensures batch != [] ==> |After(log, Last(batch, after))| < |After(log, after)|
  {
    VisitedRound(log, after, batchSize, batch);
  }

  lemma Regroup(all: seq<SourcedEvent>, done: seq<SourcedEvent>, batch: seq<SourcedEvent>, rest: seq<SourcedEvent>,
                n: nat)
    requires all == done + (batch + rest) && n <= |batch|
    ensures all == (done + batch) + rest && done + batch[..n] <= all && done <= all
  {
    assert batch == batch[..n] + batch[n..];
    assert all == (done + batch[..n]) + (batch[n..] + rest);
  }

  lemma FeedStep(es: seq<SourcedEvent>, e: SourcedEvent)
    ensures Payloads(es + [e])[..|es|] == Payloads(es) && Payloads(es + [e])[|es|] == e.event
  {
    assert Payloads(es + [e]) == Payloads(es) + [e.event];
  }

  class ProjectionStore {
    var balances: map<RowKey, Amount>
    var processed: set<Handled>
    var offsets: map<Stream, int>

    function Snapshot(): Tables
      reads this
    {
      Tables(balances, processed, offsets)
    }

    constructor ()
      ensures Snapshot() == EMPTY_TABLES
    {
      balances, processed, offsets := map[], {}, map[];
    }

    /** One transaction: insert the dedup row, then update the balances posting by posting;
        an overflow rolls both back. */
    method Apply(consumer: ConsumerName, id: EventId, entry: JournalEntry)
      returns (r: Result<ApplyOutcome, DomainError>)
      modifies this
      ensures (r, Snapshot()) == ApplyJournal(old(Snapshot()), consumer, id, entry)
    {
      ghost var start := Snapshot();
      var savedBalances, savedProcessed := balances, processed;
      if Handled(consumer, id) in processed { return Ok(Duplicate); }
      processed := processed + {Handled(consumer, id)};
      for i := 0 to |entry.postings|
        invariant processed == start.processed + {Handled(consumer, id)} && offsets == start.offsets
        invariant AddRows(start, consumer, entry.postings[..i]) == Ok(start.(balances := balances))
      {
        var p := entry.postings[i];
        var row := RowKey(consumer, p.Cell());
        assert entry.postings[..i + 1][..i] == entry.postings[..i];
        var updated := CheckedAdd(Get(balances, row), p.amount);
        if updated.Err? {
          AddRowsFailsEarly(start, consumer, entry.postings, i + 1);
          balances, processed := savedBalances, savedProcessed;
          return Err(updated.error);
        }
        balances := balances[row := updated.value];
      }
      assert entry.postings[..|entry.postings|] == entry.postings;
      r := Ok(Applied);
    }

    method RecordPosition(consumer: ConsumerName, topic: string, partition: int, offset: int)
      modifies this`offsets
      ensures offsets == old(offsets)[Stream(consumer, topic, partition) := offset]
    {
      offsets := offsets[Stream(consumer, topic, partition) := offset];
    }

    /** `projection_snapshot`: the rows of one consumer, ordered by account and asset. */
    method ProjectionSnapshot(consumer: ConsumerName) returns (snapshot: seq<BalanceRecord>)
      ensures Lists(snapshot, View(Snapshot(), consumer)) && Ascending(snapshot, RecordLt)
    {
      snapshot := ListRows(map r | r in balances && r.consumer == consumer :: r.cell := balances[r]);
    }

    method Reset(consumer: ConsumerName)
      modifies this
      ensures Snapshot() == ResetConsumer(old(Snapshot()), consumer)
    {
      balances := map r | r in balances && r.consumer != consumer :: balances[r];
      processed := set h | h in processed && h.consumer != consumer;
      offsets := map s | s in offsets && s.consumer != consumer :: offsets[s];
    }
  }

  lemma {:induction false} AddRowsFailsEarly(t: Tables, c: ConsumerName, ps: seq<Posting>, n: nat)
    requires n <= |ps| && AddRows(t, c, ps[..n]).Err?
    ensures AddRows(t, c, ps) == AddRows(t, c, ps[..n])
  {
    if n < |ps| {
      assert ps[..|ps| - 1][..n] == ps[..n];
      AddRowsFailsEarly(t, c, ps[..|ps| - 1], n);
    } else {
      assert ps[..n] == ps;
    }
  }

  datatype ReplayReport = ReplayReport(scanned: nat, applied: nat, duplicates: nat, ignored: nat, lastCursor: int)

  function Tally(report: ReplayReport, outcome: ApplyOutcome): ReplayReport {
    match outcome
    case Applied => report.(applied := report.applied + 1)
    case Duplicate => report.(duplicates := report.duplicates + 1)
    case Ignored => report.(ignored := report.ignored + 1)
  }

  class Projector {
    const consumer: ConsumerName
    const store: ProjectionStore

    constructor (consumer: ConsumerName, store: ProjectionStore)
      ensures this.consumer == consumer && this.store == store
    {
      this.consumer, this.store := consumer, store;
    }

    method ApplyEvent(event: Event) returns (r: Result<ApplyOutcome, DomainError>)
      modifies store
      ensures (r, store.Snapshot()) == Project(old(store.Snapshot()), consumer, event)
    {
      match event.payload
      case JournalPosted(entry) => r := store.Apply(consumer, event.id, entry);
      case _ => r := Ok(Ignored);
    }

    /** Apply, then record the position of an applied or duplicate event. */
    method ApplySourced(topic: string, partition: int, sourced: SourcedEvent)
      returns (r: Result<ApplyOutcome, DomainError>)
      modifies store
      ensures var (outcome, t) := Project(old(store.Snapshot()), consumer, sourced.event);
              && r == outcome
              && store.Snapshot() ==
                 if r == Ok(Applied) || r == Ok(Duplicate)
                 then t.(offsets := t.offsets[Stream(consumer, topic, partition) := sourced.cursor]) else t
    {
      r := ApplyEvent(sourced.event);
      if r == Ok(Applied) || r == Ok(Duplicate) {
        store.RecordPosition(consumer, topic, partition, sourced.cursor);
      }
    }

    /** One batch of a replay. */
    method ReplayBatch(ghost t0: Tables, ghost start: int, ghost done: seq<SourcedEvent>, batch: seq<SourcedEvent>,
                       report0: ReplayReport)
      returns (error: Option<DomainError>, report: ReplayReport, ghost n: nat)
      requires Reported(t0, store.Snapshot(), consumer, start, done, report0)
      modifies store
      ensures n <= |batch|
      ensures error.None? ==> n == |batch| && Reported(t0, store.Snapshot(), consumer, start, done + batch, report)
      ensures error.Some? ==> n > 0 && report.lastCursor == batch[n - 1].cursor
      ensures error.Some? ==> Failed(t0, store.Snapshot(), consumer, done + batch[..n], error.value)
    {
      report, n := report0, 0;
      assert done + batch[..0] == done;
      for i := 0 to |batch|
        invariant Reported(t0, store.Snapshot(), consumer, start, done + batch[..i], report)
      {
        VisitStep(t0, store.Snapshot(), consumer, start, done + batch[..i], report, batch[i]);
        assert done + batch[..i + 1] == done + batch[..i] + [batch[i]];
        report := report.(scanned := report.scanned + 1, lastCursor := batch[i].cursor);
        var outcome := ApplyEvent(batch[i].event);
        if outcome.Err? { return Some(outcome.error), report, i + 1; }
        report := Tally(report, outcome.value);
      }
      assert batch[..|batch|] == batch;
      return None, report, |batch|;
    }

    /** Fetch one batch and apply it: `done` is behind, `rest` is ahead. */
    method ReplayRound(ghost t0: Tables, log: seq<SourcedEvent>, ghost start: int, batchSize: nat,
                       ghost done: seq<SourcedEvent>, ghost rest: seq<SourcedEvent>, report0: ReplayReport)
      returns (error: Option<DomainError>, stop: bool, report: ReplayReport,
               ghost visited: seq<SourcedEvent>, ghost rest': seq<SourcedEvent>)
      requires Reported(t0, store.Snapshot(), consumer, start, done, report0)
      requires rest == Visited(log, report0.lastCursor, batchSize)
      modifies store
      ensures error.Some? ==> Failed(t0, store.Snapshot(), consumer, visited, error.value)
      ensures error.None? ==> Reported(t0, store.Snapshot(), consumer, start, visited, report)
      ensures if error.Some? then visited <= done + rest else visited + rest' == done + rest
      ensures error.None? && stop ==> rest' == []
      ensures error.None? && !stop ==>
                && rest' == Visited(log, report.lastCursor, batchSize)
                && |After(log, report.lastCursor)| < |After(log, report0.lastCursor)|
    {
      var batch := FetchAfter(log, report0.lastCursor, batchSize);
      RoundVisits(log, report0.lastCursor, batchSize, batch);
      rest' := Rest(log, report0.lastCursor, batch, batchSize);
      if batch == [] { return None, true, report0, done, rest'; }
      ghost var n;
      error, report, n := ReplayBatch(t0, start, done, batch, report0);
      Regroup(done + rest, done, batch, rest', n);
      visited := if error.Some? then done + batch[..n] else done + batch;
      stop := error.Some? || |batch| < batchSize;
    }

    /** The replay loop, on every log and batch size. */
    method ReplayAll(log: seq<SourcedEvent>, start: int, batchSize: nat)
      returns (r: Result<ReplayReport, DomainError>, ghost visited: seq<SourcedEvent>)
      modifies store
      ensures r.Ok? ==> Reported(old(store.Snapshot()), store.Snapshot(), consumer, start, visited, r.value)
      ensures r.Err? ==> Failed(old(store.Snapshot()), store.Snapshot(), consumer, visited, r.error)
      ensures if r.Ok? then visited == Visited(log, start, batchSize) else visited <= Visited(log, start, batchSize)
    {
      var report := ReplayReport(0, 0, 0, 0, start);
      visited := [];
      assert Payloads([]) == [];
      var stop := false;
      ghost var all := Visited(log, start, batchSize);
      ghost var rest := all;
      while !stop
        invariant Reported(old(store.Snapshot()), store.Snapshot(), consumer, start, visited, report)
        invariant all == visited + rest
        invariant rest == if stop then [] else Visited(log, report.lastCursor, batchSize)
        decreases !stop, |After(log, report.lastCursor)|
      {
        var error;
        error, stop, report, visited, rest :=
          ReplayRound(old(store.Snapshot()), log, start, batchSize, visited, rest, report);
        if error.Some? { return Err(error.value), visited; }
      }
      r := Ok(report);
    }

    /** Replay terminates on every log and batch size, visits exactly what `Visited` says (up to
        and including the first event that fails) and accounts for every event it scans. When
        the events after the start cursor ascend, that is each of them once, in order. */
    method ReplayLog(log: seq<SourcedEvent>, start: int, batchSize: nat)
      returns (r: Result<ReplayReport, DomainError>, ghost visited: seq<SourcedEvent>)
      modifies store
      ensures r.Ok? ==> Reported(old(store.Snapshot()), store.Snapshot(), consumer, start, visited, r.value)
      ensures r.Ok? ==> r.value.scanned == r.value.applied + r.value.duplicates + r.value.ignored
      ensures r.Err? ==> Failed(old(store.Snapshot()), store.Snapshot(), consumer, visited, r.error)
      ensures if r.Ok? then visited == Visited(log, start, batchSize) else visited <= Visited(log, start, batchSize)
      ensures FromLog(log, start, visited)
      ensures batchSize == 0 ==> visited == []
      ensures batchSize > 0 && CursorsAscend(After(log, start)) ==>
                if r.Ok? then visited == After(log, start) else visited <= After(log, start)
    {
      r, visited := ReplayAll(log, start, batchSize);
      VisitedShape(log, start, batchSize);
      FromLogPrefix(log, start, visited, Visited(log, start, batchSize));
    }
  }

  lemma FromLogPrefix(log: seq<SourcedEvent>, start: int, visited: seq<SourcedEvent>, all: seq<SourcedEvent>)
    requires visited <= all && FromLog(log, start, all)
    ensures FromLog(log, start, visited)
  {
  }

  ghost predicate FromLog(log: seq<SourcedEvent>, start: int, visited: seq<SourcedEvent>) {
    forall i :: 0 <= i < |visited| ==> visited[i] in log && visited[i].cursor > start
  }

  /** The last event visited failed; everything before it was fed. */
  ghost predicate Failed(t0: Tables, t: Tables, c: ConsumerName, visited: seq<SourcedEvent>, error: DomainError) {
    var fed := Feed(t0, c, Payloads(visited));
    t == fed.tables && fed.error == Some(error)
  }

  /** The counters match what was fed so far. */
  ghost predicate Reported(t0: Tables, t: Tables, c: ConsumerName, start: int, visited: seq<SourcedEvent>,
                           report: ReplayReport) {
    var fed := Feed(t0, c, Payloads(visited));
    && t == fed.tables && fed.error.None?
    && report.scanned == |visited|
    && report.applied == fed.applied && report.duplicates == fed.duplicates && report.ignored == fed.ignored
    && report.lastCursor == if visited == [] then start else visited[|visited| - 1].cursor
  }

  /** Visiting one more event: counted if it was handled, the end of the run if it failed. */
  lemma VisitStep(t0: Tables, t: Tables, c: ConsumerName, start: int, visited: seq<SourcedEvent>,
                  report: ReplayReport, e: SourcedEvent)
    requires Reported(t0, t, c, start, visited, report)
    ensures var (outcome, t') := Project(t, c, e.event);
            if outcome.Err? then Failed(t0, t', c, visited + [e], outcome.error)
            else Reported(t0, t', c, start, visited + [e],
                          Tally(report.(scanned := report.scanned + 1, lastCursor := e.cursor), outcome.value))
  {
    FeedStep(visited, e);
  }
}
