/** The batched replay on PostgreSQL (services/projector-service/src/main.rs:39-59,
    crates/storage-postgres/src/projection.rs:186-215): a process that fetches the visible outbox
    rows in id order while transactions are open, and exactly what it misses. */
module PgReplay {
  import opened Amounts
  import opened Store
  import opened Invariants
  import opened Projection
  import opened Coverage
  import opened Replay
  import opened Recovery
  import opened Startup
  import opened Transactions
  import opened ById
  import opened IdOrder
  import opened Visibility

  /** One fetch: the database it saw, and the ids its batch carried the cursor past. */
  datatype Fetched = Fetched(pg: Pg, before: int, upto: int)

  /** The database, the projection tables, the replay, everything it has fetched, and how. */
  datatype Desk = Desk(pg: Pg, tables: Tables, replay: Replayer, fetched: seq<SourcedEvent>, fetches: seq<Fetched>)

  /** The database takes a step, a visible row is delivered live, or the replay goes on. */
  datatype Turn = Database(action: Transactions.Action) | Live(row: nat) | Onward

  function Open(pg: Pg, t: Tables, c: ConsumerName, batchSize: nat): Desk {
    Desk(pg, t, Replayer(c, batchSize, 0, 0, Idle), [], [])
  }

  function BatchOf(rows: seq<Row>, r: Replayer): seq<SourcedEvent> {
    FetchAfter(SourceLog(InIdOrder(rows)), r.after, r.batchSize)
  }

  function FetchTurn(d: Desk): Desk {
    var batch := BatchOf(d.pg.db.outbox, d.replay);
    d.(replay := Fetch(InIdOrder(d.pg.db.outbox), d.replay), fetched := d.fetched + batch,
       fetches := d.fetches + [Fetched(d.pg, d.replay.after, Last(batch, d.replay.after))])
  }

  function ApplyTurn(d: Desk): Desk
    requires d.replay.stage.Applying? && d.replay.stage.at < |d.replay.stage.batch|
  {
    var (outcome, t) := Project(d.tables, d.replay.consumer, d.replay.stage.batch[d.replay.stage.at].event);
    d.(tables := t, replay := if outcome.Err? then d.replay.(stage := Broken(outcome.error)) else Progressed(d.replay))
  }

  ghost function Take(d: Desk, m: Turn): Desk {
    match m
    case Database(a) => d.(pg := Transactions.Do(d.pg, a))
    case Live(i) =>
      if i < |d.pg.db.outbox| then d.(tables := Project(d.tables, d.replay.consumer, d.pg.db.outbox[i].event).1) else d
    case Onward =>
      match d.replay.stage
      case Idle => FetchTurn(d)
      case Applying(batch, at) => if at < |batch| then ApplyTurn(d) else d
      case _ => d
  }

  ghost function TakeAll(d: Desk, turns: seq<Turn>): Desk {
    if turns == [] then d else Take(TakeAll(d, turns[..|turns| - 1]), turns[|turns| - 1])
  }

  // ---- what is left behind --------------------------------------------------

  predicate Passes(f: Fetched, id: int) { f.before < id <= f.upto }

  /** Some fetch carried the cursor past this id while an open transaction still held it back. */
  predicate LeftBehind(fetches: seq<Fetched>, id: int) {
    exists m :: 0 <= m < |fetches| && Passes(fetches[m], id) && Drawn(fetches[m].pg, id)
  }

  /** Everything up to here has been fetched or passed. */
  function Reach(r: Replayer): int {
    if r.stage.Applying? then Last(r.stage.batch, r.after) else r.after
  }

  // ---- the invariant --------------------------------------------------------

  /** Up to the reach, a visible row has been fetched unless it was left behind. */
  ghost predicate Sorted(outbox: seq<Row>, fetched: seq<SourcedEvent>, fetches: seq<Fetched>, reach: int) {
    forall i :: 0 <= i < |outbox| && outbox[i].id <= reach ==>
      (Holds(fetched, outbox[i]) <==> !LeftBehind(fetches, outbox[i].id))
  }

  predicate PassedBySome(fetches: seq<Fetched>, id: int) {
    exists m :: 0 <= m < |fetches| && Passes(fetches[m], id)
  }

  /** The fetches carry the cursor from zero to the reach without a gap. */
  ghost predicate Tiled(fetches: seq<Fetched>, reach: int) {
    && (forall m :: 0 <= m < |fetches| ==> fetches[m].upto <= reach)
    && (forall id :: 0 < id <= reach ==> PassedBySome(fetches, id))
  }

  ghost predicate Watched(fetches: seq<Fetched>, pg: Pg) {
    forall m :: 0 <= m < |fetches| ==>
      Follows(fetches[m].pg, pg) && fetches[m].upto <= fetches[m].pg.db.nextOutboxId
  }

  predicate Stored(outbox: seq<Row>, fetched: seq<SourcedEvent>) {
    forall m :: 0 <= m < |fetched| ==> IsRow(outbox, fetched[m])
  }

  /** The rest of the current batch. */
  function Pending(r: Replayer): seq<SourcedEvent> {
    if r.stage.Applying? && r.stage.at <= |r.stage.batch| then r.stage.batch[r.stage.at..] else []
  }

  /** Everything fetched is processed, but for the rest of the batch. */
  ghost predicate Handled(t: Tables, r: Replayer, fetched: seq<SourcedEvent>) {
    && |Pending(r)| <= |fetched| && fetched[|fetched| - |Pending(r)|..] == Pending(r)
    && forall m :: 0 <= m < |fetched| - |Pending(r)| ==> Done(t, r.consumer, fetched[m].event)
  }

  /** After a short batch nothing that was visible is ahead. */
  predicate Through(outbox: seq<Row>, r: Replayer) {
    && r.present <= |outbox|
    && (r.stage.Applying? ==> r.stage.at < |r.stage.batch|)
    && (r.stage.Finished? || (r.stage.Applying? && |r.stage.batch| < r.batchSize) ==>
          forall i :: 0 <= i < r.present ==> outbox[i].id <= Reach(r))
  }

  ghost predicate PgSound(seeded: Accounts, pg: Pg) {
    Transactions.Inv(seeded, pg) && IdInv(pg) && DistinctIds(EventsOf(pg.db.outbox))
  }

  ghost predicate ReplaySound(d: Desk) {
    && d.replay.batchSize > 0 && 0 <= Reach(d.replay) <= d.pg.db.nextOutboxId
    && Watched(d.fetches, d.pg) && Tiled(d.fetches, Reach(d.replay))
    && Stored(d.pg.db.outbox, d.fetched)
    && Sorted(d.pg.db.outbox, d.fetched, d.fetches, Reach(d.replay))
    && Handled(d.tables, d.replay, d.fetched) && Through(d.pg.db.outbox, d.replay)
  }

  ghost predicate DeskSound(seeded: Accounts, d: Desk) {
    && PgSound(seeded, d.pg)
    && ProjectionSound(EventsOf(d.pg.db.outbox), d.tables)
    && (!d.replay.stage.Broken? ==> ReplaySound(d))
  }

  // ---- steps of the database ------------------------------------------------

  lemma StepKeepsPgSound(seeded: Accounts, pg: Pg, a: Transactions.Action)
    requires PgSound(seeded, pg)
    ensures PgSound(seeded, Transactions.Do(pg, a))
  {
    StepKeepsInv(seeded, pg, a);
    StepKeepsIdInv(pg, a);
    SerialIsSound(seeded, Transactions.Do(pg, a).history);
  }

  lemma FollowsItself(pg: Pg)
    ensures Follows(pg, pg)
  {
  }

  lemma StepExtends(pg: Pg, a: Transactions.Action)
    ensures Extends(pg.db.outbox, Transactions.Do(pg, a).db.outbox)
    ensures pg.db.nextOutboxId <= Transactions.Do(pg, a).db.nextOutboxId
  {
    FollowsItself(pg);
    StepFollows(pg, pg, a);
  }

  lemma StepKeepsWatched(fetches: seq<Fetched>, pg: Pg, a: Transactions.Action)
    requires Watched(fetches, pg)
    ensures Watched(fetches, Transactions.Do(pg, a))
  {
    forall m | 0 <= m < |fetches| ensures Follows(fetches[m].pg, Transactions.Do(pg, a)) {
      StepFollows(fetches[m].pg, pg, a);
    }
  }

  lemma ExtendsKeepsStored(outbox: seq<Row>, outbox': seq<Row>, fetched: seq<SourcedEvent>)
    requires Stored(outbox, fetched) && Extends(outbox, outbox')
    ensures Stored(outbox', fetched)
  {
    forall m | 0 <= m < |fetched| ensures IsRow(outbox', fetched[m]) {
      assert IsRow(outbox, fetched[m]);
      var i :| 0 <= i < |outbox| && outbox[i].id == fetched[m].cursor && outbox[i].event == fetched[m].event;
      assert SameMessage(outbox[i], outbox'[i]);
    }
  }

  /** A row that appears behind the reach was drawn when the cursor passed it. */
  lemma LateRowWasLeft(fetches: seq<Fetched>, pg: Pg, pg': Pg, reach: int, i: nat)
    requires Watched(fetches, pg) && Watched(fetches, pg') && Tiled(fetches, reach)
    requires |pg.db.outbox| <= i < |pg'.db.outbox| && 0 < pg'.db.outbox[i].id <= reach
    ensures LeftBehind(fetches, pg'.db.outbox[i].id)
  {
    var id := pg'.db.outbox[i].id;
    assert PassedBySome(fetches, id);
    var m :| 0 <= m < |fetches| && Passes(fetches[m], id);
    assert Follows(fetches[m].pg, pg) && Follows(fetches[m].pg, pg');
  }

  /** And it was not fetched: its id is nobody else's. */
  lemma LateRowNotFetched(outbox: seq<Row>, outbox': seq<Row>, fetched: seq<SourcedEvent>, i: nat)
    requires Stored(outbox, fetched) && Extends(outbox, outbox') && UniqueRowIds(outbox') && |outbox| <= i < |outbox'|
    ensures !Holds(fetched, outbox'[i])
  {
    forall m | 0 <= m < |fetched| ensures fetched[m].cursor != outbox'[i].id {
      assert IsRow(outbox, fetched[m]);
      var j :| 0 <= j < |outbox| && outbox[j].id == fetched[m].cursor && outbox[j].event == fetched[m].event;
      assert SameMessage(outbox[j], outbox'[j]);
    }
  }

  lemma StepKeepsSorted(fetched: seq<SourcedEvent>, fetches: seq<Fetched>, pg: Pg, pg': Pg, reach: int)
    requires Sorted(pg.db.outbox, fetched, fetches, reach) && Stored(pg.db.outbox, fetched) && Tiled(fetches, reach)
    requires Watched(fetches, pg) && Watched(fetches, pg') && Extends(pg.db.outbox, pg'.db.outbox)
    requires OutboxIds(pg'.db.outbox, pg'.db.nextOutboxId)
    ensures Sorted(pg'.db.outbox, fetched, fetches, reach)
  {
    var rows, rows' := pg.db.outbox, pg'.db.outbox;
    forall i | 0 <= i < |rows'| && rows'[i].id <= reach
      ensures Holds(fetched, rows'[i]) <==> !LeftBehind(fetches, rows'[i].id)
    {
      if i < |rows| {
        assert SameMessage(rows[i], rows'[i]);
        assert Holds(fetched, rows[i]) <==> Holds(fetched, rows'[i]);
      } else {
        LateRowWasLeft(fetches, pg, pg', reach, i);
        LateRowNotFetched(rows, rows', fetched, i);
      }
    }
  }

  lemma ExtendsKeepsThrough(outbox: seq<Row>, outbox': seq<Row>, r: Replayer)
    requires Through(outbox, r) && Extends(outbox, outbox')
    ensures Through(outbox', r)
  {
    assert forall i :: 0 <= i < |outbox| ==> SameMessage(outbox[i], outbox'[i]);
  }

  lemma ExtendsKeepsProjection(outbox: seq<Row>, outbox': seq<Row>, t: Tables)
    requires ProjectionSound(EventsOf(outbox), t) && Extends(outbox, outbox') && DistinctIds(EventsOf(outbox'))
    ensures ProjectionSound(EventsOf(outbox'), t)
  {
    var more := EventsOf(outbox')[|outbox|..];
    assert forall i :: 0 <= i < |outbox| ==> SameMessage(outbox[i], outbox'[i]);
    assert EventsOf(outbox') == EventsOf(outbox) + more;
    GrowthKeepsSound(EventsOf(outbox), more, t);
  }

  lemma DatabaseKeepsReplay(seeded: Accounts, d: Desk, a: Transactions.Action)
    requires ReplaySound(d) && PgSound(seeded, Transactions.Do(d.pg, a))
    ensures ReplaySound(Take(d, Database(a)))
  {
    var pg' := Transactions.Do(d.pg, a);
    StepExtends(d.pg, a);
    StepKeepsWatched(d.fetches, d.pg, a);
    ExtendsKeepsStored(d.pg.db.outbox, pg'.db.outbox, d.fetched);
    StepKeepsSorted(d.fetched, d.fetches, d.pg, pg', Reach(d.replay));
    ExtendsKeepsThrough(d.pg.db.outbox, pg'.db.outbox, d.replay);
  }

  lemma DatabaseKeepsSound(seeded: Accounts, d: Desk, a: Transactions.Action)
    requires DeskSound(seeded, d)
    ensures DeskSound(seeded, Take(d, Database(a)))
  {
    StepKeepsPgSound(seeded, d.pg, a);
    StepExtends(d.pg, a);
    ExtendsKeepsProjection(d.pg.db.outbox, Transactions.Do(d.pg, a).db.outbox, d.tables);
    if !d.replay.stage.Broken? { DatabaseKeepsReplay(seeded, d, a); }
  }

  // ---- fetching -------------------------------------------------------------

  lemma {:induction false} SortLength(rows: seq<Row>)
    ensures |InIdOrder(rows)| == |rows|
  {
    SortCounts(rows);
    assert |multiset(InIdOrder(rows))| == |InIdOrder(rows)| && |multiset(rows)| == |rows|;
  }

  /** What a batch holds, in terms of the visible rows. */
  lemma BatchExact(rows: seq<Row>, r: Replayer, i: nat)
    requires UniqueRowIds(rows) && i < |rows| && Due(rows[i], r, BatchOf(rows, r))
    ensures Holds(BatchOf(rows, r), rows[i])
  {
    var sorted := InIdOrder(rows);
    SortAscends(rows);
    FetchCovers(sorted, r.(present := |sorted|));
    SortMembers(rows, rows[i]);
    var j :| 0 <= j < |sorted| && sorted[j] == rows[i];
    assert Due(sorted[j], r.(present := |sorted|), BatchOf(rows, r));
  }

  lemma BatchStems(rows: seq<Row>, r: Replayer)
    ensures Stored(rows, BatchOf(rows, r))
    ensures forall m :: 0 <= m < |BatchOf(rows, r)| ==> BatchOf(rows, r)[m].cursor > r.after
  {
    var sorted, batch := InIdOrder(rows), BatchOf(rows, r);
    FetchStems(sorted, r.(present := |sorted|));
    assert sorted[..|sorted|] == sorted;
    forall m | 0 <= m < |batch| ensures IsRow(rows, batch[m]) && batch[m].cursor > r.after {
      BatchAdvances(SourceLog(sorted), r.after, r.batchSize, m);
      assert IsRow(sorted, batch[m]);
      var j :| 0 <= j < |sorted| && sorted[j].id == batch[m].cursor && sorted[j].event == batch[m].event;
      SortMembers(rows, sorted[j]);
      var i :| 0 <= i < |rows| && rows[i] == sorted[j];
    }
  }

  lemma BatchEndsAtLast(rows: seq<Row>, r: Replayer)
    requires UniqueRowIds(rows)
    ensures forall m :: 0 <= m < |BatchOf(rows, r)| ==> BatchOf(rows, r)[m].cursor <= Last(BatchOf(rows, r), r.after)
  {
    SortAscends(rows);
    AfterAscends(SourceLog(InIdOrder(rows)), r.after);
  }

  lemma LastInRange(rows: seq<Row>, r: Replayer, next: nat)
    requires OutboxIds(rows, next) && 0 <= r.after <= next
    ensures r.after <= Last(BatchOf(rows, r), r.after) <= next
  {
    var batch := BatchOf(rows, r);
    BatchStems(rows, r);
    if batch != [] { assert IsRow(rows, batch[|batch| - 1]); }
  }

  /** A visible id is not held back by anybody. */
  lemma VisibleIsNotDrawn(pg: Pg, i: nat)
    requires IdInv(pg) && i < |pg.db.outbox|
    ensures !Drawn(pg, pg.db.outbox[i].id)
  {
    forall t, j | t in pg.txns && 0 <= j < |pg.txns[t].rows| ensures pg.txns[t].rows[j].id != pg.db.outbox[i].id {
      assert TxnIds(pg.db.outbox, pg.db.nextOutboxId, pg.txns[t]);
      assert IdFree(pg.db.outbox, pg.txns[t].rows[j].id);
    }
  }

  lemma LeftBehindSnoc(fetches: seq<Fetched>, f: Fetched, id: int)
    ensures LeftBehind(fetches + [f], id) <==> LeftBehind(fetches, id) || (Passes(f, id) && Drawn(f.pg, id))
  {
    var all := fetches + [f];
    assert all[|fetches|] == f && forall m :: 0 <= m < |fetches| ==> all[m] == fetches[m];
  }

  lemma HoldsConcat(a: seq<SourcedEvent>, b: seq<SourcedEvent>, row: Row)
    ensures Holds(a + b, row) <==> Holds(a, row) || Holds(b, row)
  {
    var all := a + b;
    assert forall m :: 0 <= m < |a| ==> all[m] == a[m];
    assert forall m :: 0 <= m < |b| ==> all[|a| + m] == b[m];
  }

  lemma NotYetPassed(fetches: seq<Fetched>, reach: int, id: int)
    requires Tiled(fetches, reach) && id > reach
    ensures !LeftBehind(fetches, id)
  {
  }

  lemma FetchKeepsSorted(pg: Pg, r: Replayer, fetched: seq<SourcedEvent>, fetches: seq<Fetched>, f: Fetched)
    requires IdInv(pg) && Sorted(pg.db.outbox, fetched, fetches, r.after) && Tiled(fetches, r.after)
    requires f == Fetched(pg, r.after, Last(BatchOf(pg.db.outbox, r), r.after))
    ensures Sorted(pg.db.outbox, fetched + BatchOf(pg.db.outbox, r), fetches + [f], f.upto)
  {
    var rows, batch := pg.db.outbox, BatchOf(pg.db.outbox, r);
    BatchStems(rows, r);
    forall i | 0 <= i < |rows| && rows[i].id <= f.upto
      ensures Holds(fetched + batch, rows[i]) <==> !LeftBehind(fetches + [f], rows[i].id)
    {
      HoldsConcat(fetched, batch, rows[i]);
      LeftBehindSnoc(fetches, f, rows[i].id);
      VisibleIsNotDrawn(pg, i);
      if rows[i].id > r.after {
        BatchExact(rows, r, i);
        NotYetPassed(fetches, r.after, rows[i].id);
      }
    }
  }

  lemma FetchKeepsTiled(fetches: seq<Fetched>, f: Fetched, reach: int)
    requires Tiled(fetches, reach) && f.before == reach <= f.upto
    ensures Tiled(fetches + [f], f.upto)
  {
    var all := fetches + [f];
    assert all[|fetches|] == f && forall m :: 0 <= m < |fetches| ==> all[m] == fetches[m];
    forall id | 0 < id <= f.upto ensures PassedBySome(all, id) {
      if id <= reach {
        assert PassedBySome(fetches, id);
        var m :| 0 <= m < |fetches| && Passes(fetches[m], id);
        assert Passes(all[m], id);
      } else {
        assert Passes(all[|fetches|], id);
      }
    }
  }

  lemma FetchKeepsThrough(rows: seq<Row>, r: Replayer)
    requires UniqueRowIds(rows) && r.stage.Idle? && r.batchSize > 0
    ensures Through(rows, Fetch(InIdOrder(rows), r))
    ensures Reach(Fetch(InIdOrder(rows), r)) == Last(BatchOf(rows, r), r.after)
  {
    SortLength(rows);
    if |BatchOf(rows, r)| < r.batchSize {
      forall i | 0 <= i < |rows| ensures rows[i].id <= Last(BatchOf(rows, r), r.after) { ShortBatchIsLast(rows, r, i); }
    }
  }

  /** A short batch goes to the end of what is visible. */
  lemma ShortBatchIsLast(rows: seq<Row>, r: Replayer, i: nat)
    requires UniqueRowIds(rows) && i < |rows| && |BatchOf(rows, r)| < r.batchSize
    ensures rows[i].id <= Last(BatchOf(rows, r), r.after)
  {
    BatchStems(rows, r);
    if rows[i].id > r.after {
      BatchExact(rows, r, i);
      BatchEndsAtLast(rows, r);
      assert Holds(BatchOf(rows, r), rows[i]);
    }
  }

  lemma FetchKeepsReplay(d: Desk)
    requires IdInv(d.pg) && ReplaySound(d) && d.replay.stage.Idle?
    ensures ReplaySound(FetchTurn(d))
  {
    var rows, r := d.pg.db.outbox, d.replay;
    var batch := BatchOf(rows, r);
    var f := Fetched(d.pg, r.after, Last(batch, r.after));
    LastInRange(rows, r, d.pg.db.nextOutboxId);
    FetchKeepsSorted(d.pg, r, d.fetched, d.fetches, f);
    FetchKeepsTiled(d.fetches, f, r.after);
    FetchKeepsThrough(rows, r);
    FetchKeepsWatched(d.fetches, d.pg, f);
    FetchKeepsHandled(d.tables, r, d.fetched, batch, FetchTurn(d).replay);
    FetchKeepsStored(rows, r, d.fetched);
  }

  lemma FetchKeepsWatched(fetches: seq<Fetched>, pg: Pg, f: Fetched)
    requires Watched(fetches, pg) && f.pg == pg && f.upto <= pg.db.nextOutboxId
    ensures Watched(fetches + [f], pg)
  {
    FollowsItself(pg);
    var all := fetches + [f];
    assert all[|fetches|] == f && forall m :: 0 <= m < |fetches| ==> all[m] == fetches[m];
  }

  lemma FetchKeepsStored(rows: seq<Row>, r: Replayer, fetched: seq<SourcedEvent>)
    requires Stored(rows, fetched)
    ensures Stored(rows, fetched + BatchOf(rows, r))
  {
    BatchStems(rows, r);
    var batch := BatchOf(rows, r);
    var all := fetched + batch;
    forall m | 0 <= m < |all| ensures IsRow(rows, all[m]) {
      if m < |fetched| { assert all[m] == fetched[m]; } else { assert all[m] == batch[m - |fetched|]; }
    }
  }

  lemma FetchKeepsSound(seeded: Accounts, d: Desk)
    requires DeskSound(seeded, d) && d.replay.stage.Idle?
    ensures DeskSound(seeded, FetchTurn(d))
  {
    FetchKeepsReplay(d);
  }

  lemma FetchKeepsHandled(t: Tables, r: Replayer, fetched: seq<SourcedEvent>, batch: seq<SourcedEvent>, r': Replayer)
    requires r.stage.Idle? && Handled(t, r, fetched) && r'.consumer == r.consumer
    requires r'.stage == if batch == [] then Stage.Finished else Applying(batch, 0)
    ensures Handled(t, r', fetched + batch)
  {
    assert batch[0..] == batch;
    assert (fetched + batch)[|fetched|..] == batch;
  }

  // ---- applying -------------------------------------------------------------

  lemma MoreProcessed(t: Tables, t': Tables, r: Replayer, fetched: seq<SourcedEvent>)
    requires Handled(t, r, fetched) && Processed(t, r.consumer) <= Processed(t', r.consumer)
    ensures Handled(t', r, fetched)
  {
  }

  lemma ApplyKeepsHandled(t: Tables, r: Replayer, fetched: seq<SourcedEvent>)
    requires r.stage.Applying? && r.stage.at < |r.stage.batch| && Handled(t, r, fetched)
    requires Done(t, r.consumer, r.stage.batch[r.stage.at].event)
    ensures Handled(t, Progressed(r), fetched) && Reach(Progressed(r)) == Reach(r)
  {
    var batch, at := r.stage.batch, r.stage.at;
    var n := |fetched| - |Pending(r)|;
    assert fetched[n] == batch[at] by { assert fetched[n..][0] == batch[at..][0]; }
    assert batch[at..][1..] == batch[at + 1..] && fetched[n..][1..] == fetched[n + 1..];
  }

  lemma ApplyKeepsThrough(rows: seq<Row>, r: Replayer)
    requires r.stage.Applying? && r.stage.at < |r.stage.batch| && Through(rows, r)
    ensures Through(rows, Progressed(r))
  {
  }

  /** Delivering any visible row, by the replay or live. */
  lemma VisibleKeepsProjection(rows: seq<Row>, t: Tables, c: ConsumerName, e: SourcedEvent)
    requires ProjectionSound(EventsOf(rows), t) && DistinctIds(EventsOf(rows)) && IsRow(rows, e)
    ensures ProjectionSound(EventsOf(rows), Project(t, c, e.event).1)
  {
    var i :| 0 <= i < |rows| && rows[i].id == e.cursor && rows[i].event == e.event;
    DeliveryKeepsSound(EventsOf(rows), t, c, i);
  }

  lemma PendingIsFetched(r: Replayer, t: Tables, fetched: seq<SourcedEvent>, rows: seq<Row>)
    requires r.stage.Applying? && r.stage.at < |r.stage.batch| && Handled(t, r, fetched) && Stored(rows, fetched)
    ensures IsRow(rows, r.stage.batch[r.stage.at])
  {
    var n := |fetched| - |Pending(r)|;
    assert fetched[n] == r.stage.batch[r.stage.at] by { assert fetched[n..][0] == Pending(r)[0]; }
  }

  lemma ApplyKeepsReplay(d: Desk)
    requires ReplaySound(d) && d.replay.stage.Applying? && !ApplyTurn(d).replay.stage.Broken?
    ensures ReplaySound(ApplyTurn(d))
  {
    var r := d.replay;
    var e := r.stage.batch[r.stage.at].event;
    var (outcome, t) := Project(d.tables, r.consumer, e);
    ProjectEffect(d.tables, r.consumer, e);
    MoreProcessed(d.tables, t, r, d.fetched);
    ApplyKeepsHandled(t, r, d.fetched);
    ApplyKeepsThrough(d.pg.db.outbox, r);
  }

  lemma ApplyKeepsSound(seeded: Accounts, d: Desk)
    requires DeskSound(seeded, d) && d.replay.stage.Applying?
    ensures DeskSound(seeded, ApplyTurn(d))
  {
    var r := d.replay;
    PendingIsFetched(r, d.tables, d.fetched, d.pg.db.outbox);
    VisibleKeepsProjection(d.pg.db.outbox, d.tables, r.consumer, r.stage.batch[r.stage.at]);
    if !ApplyTurn(d).replay.stage.Broken? { ApplyKeepsReplay(d); }
  }

  lemma LiveKeepsSound(seeded: Accounts, d: Desk, i: nat)
    requires DeskSound(seeded, d) && i < |d.pg.db.outbox|
    ensures DeskSound(seeded, Take(d, Live(i)))
  {
    var rows, c := d.pg.db.outbox, d.replay.consumer;
    DeliveryKeepsSound(EventsOf(rows), d.tables, c, i);
    ProjectEffect(d.tables, c, rows[i].event);
    if !d.replay.stage.Broken? {
      MoreProcessed(d.tables, Project(d.tables, c, rows[i].event).1, d.replay, d.fetched);
    }
  }

  lemma TakeKeepsSound(seeded: Accounts, d: Desk, m: Turn)
    requires DeskSound(seeded, d)
    ensures DeskSound(seeded, Take(d, m)) && Take(d, m).replay.consumer == d.replay.consumer
  {
    match m
    case Database(a) => DatabaseKeepsSound(seeded, d, a);
    case Live(i) => if i < |d.pg.db.outbox| { LiveKeepsSound(seeded, d, i); }
    case Onward =>
      if d.replay.stage.Idle? { FetchKeepsSound(seeded, d); }
      else if d.replay.stage.Applying? { ApplyKeepsSound(seeded, d); }
  }

  lemma {:induction false} TakeAllKeepsSound(seeded: Accounts, d: Desk, turns: seq<Turn>)
    requires DeskSound(seeded, d)
    ensures DeskSound(seeded, TakeAll(d, turns)) && TakeAll(d, turns).replay.consumer == d.replay.consumer
  {
    if turns != [] {
      var n := |turns| - 1;
      TakeAllKeepsSound(seeded, d, turns[..n]);
      TakeKeepsSound(seeded, TakeAll(d, turns[..n]), turns[n]);
    }
  }

  lemma OpenIsSound(seeded: Accounts, actions: seq<Transactions.Action>, t: Tables, c: ConsumerName, batchSize: nat)
    requires batchSize > 0
    requires var pg := Transactions.Exec(Start(seeded), actions);
             ProjectionSound(EventsOf(pg.db.outbox), t)
    ensures DeskSound(seeded, Open(Transactions.Exec(Start(seeded), actions), t, c, batchSize))
  {
    ExecKeepsInv(seeded, actions);
    AlwaysIdInv(seeded, actions);
    EventsDistinct(seeded, actions);
    var d := Open(Transactions.Exec(Start(seeded), actions), t, c, batchSize);
    assert ReplaySound(d);
  }

  // ---- theorems -------------------------------------------------------------

  /** What the replay has visited of the rows that were visible at its last fetch. */
  ghost predicate VisitedButLeft(d: Desk) {
    var rows := d.pg.db.outbox;
    && d.replay.present <= |rows|
    && (forall i :: 0 <= i < d.replay.present ==>
          (!Holds(d.fetched, rows[i]) <==> LeftBehind(d.fetches, rows[i].id)))
    && (forall i :: 0 <= i < d.replay.present && Holds(d.fetched, rows[i]) ==>
          Done(d.tables, d.replay.consumer, rows[i].event))
  }

  ghost predicate NothingLeft(d: Desk) {
    d.replay.present <= |d.pg.db.outbox| &&
    forall i :: 0 <= i < d.replay.present ==> !LeftBehind(d.fetches, d.pg.db.outbox[i].id)
  }

  lemma SoundMisses(seeded: Accounts, d: Desk)
    requires DeskSound(seeded, d) && d.replay.stage.Finished?
    ensures VisitedButLeft(d)
  {
  }

  lemma SoundCompletes(seeded: Accounts, d: Desk)
    requires DeskSound(seeded, d) && VisitedButLeft(d) && NothingLeft(d) && d.replay.present == |d.pg.db.outbox|
    ensures Mirrors(d.pg.db, d.tables, d.replay.consumer)
  {
    PgMirrors(seeded, d.pg, d.tables, d.replay.consumer);
  }

  /** Every state of such a run is sound. */
  lemma RunIsSound(seeded: Accounts, actions: seq<Transactions.Action>, t: Tables, c: ConsumerName,
                   batchSize: nat, turns: seq<Turn>, d: Desk)
    requires batchSize > 0 && ProjectionSound(EventsOf(Transactions.Exec(Start(seeded), actions).db.outbox), t)
    requires d == TakeAll(Open(Transactions.Exec(Start(seeded), actions), t, c, batchSize), turns)
    ensures DeskSound(seeded, d) && d.replay.consumer == c
  {
    OpenIsSound(seeded, actions, t, c, batchSize);
    TakeAllKeepsSound(seeded, Open(Transactions.Exec(Start(seeded), actions), t, c, batchSize), turns);
  }

  /** Exactly what a finished replay has missed. Started in any reachable state of the database
      and interleaved with transactions and live deliveries in any way: a row that was visible
      at its last fetch has not been visited if and only if some fetch carried the cursor past
      it while an open transaction held it back; everything visited is processed. */
  lemma FinishedReplayMisses(seeded: Accounts, actions: seq<Transactions.Action>, t: Tables, c: ConsumerName,
                             batchSize: nat, turns: seq<Turn>, d: Desk)
    requires batchSize > 0 && ProjectionSound(EventsOf(Transactions.Exec(Start(seeded), actions).db.outbox), t)
    requires d == TakeAll(Open(Transactions.Exec(Start(seeded), actions), t, c, batchSize), turns)
    requires d.replay.stage.Finished?
    ensures VisitedButLeft(d)
  {
    RunIsSound(seeded, actions, t, c, batchSize, turns, d);
    SoundMisses(seeded, d);
  }

  /** Hence it is complete if and only if no fetch left such a row behind; and then, with no
      commit since its last fetch, the read model is the ledger. */
  lemma FinishedReplayCompletes(seeded: Accounts, actions: seq<Transactions.Action>, t: Tables, c: ConsumerName,
                                batchSize: nat, turns: seq<Turn>, d: Desk)
    requires batchSize > 0 && ProjectionSound(EventsOf(Transactions.Exec(Start(seeded), actions).db.outbox), t)
    requires d == TakeAll(Open(Transactions.Exec(Start(seeded), actions), t, c, batchSize), turns)
    requires d.replay.stage.Finished?
    ensures d.replay.present <= |d.pg.db.outbox|
    ensures (forall i :: 0 <= i < d.replay.present ==> Holds(d.fetched, d.pg.db.outbox[i])) <==> NothingLeft(d)
    ensures NothingLeft(d) && d.replay.present == |d.pg.db.outbox| ==> Mirrors(d.pg.db, d.tables, c)
  {
    RunIsSound(seeded, actions, t, c, batchSize, turns, d);
    SoundMisses(seeded, d);
    if NothingLeft(d) && d.replay.present == |d.pg.db.outbox| { SoundCompletes(seeded, d); }
  }

  lemma PgMirrors(seeded: Accounts, pg: Pg, t: Tables, c: ConsumerName)
    requires PgSound(seeded, pg) && ProjectionSound(EventsOf(pg.db.outbox), t)
    requires forall i :: 0 <= i < |pg.db.outbox| ==> Done(t, c, pg.db.outbox[i].event)
    ensures Mirrors(pg.db, t, c)
  {
    SerialIsSound(seeded, pg.history);
    assert ConsumerSound(EventsOf(pg.db.outbox), t, c);
    CompleteConsumerAgrees(pg.db, t, c);
  }

  /** A read model that starts from nothing and is fed the outbox in id order is rebuilt without
      overflow, in every state the database can reach. */
  lemma PgIsReadable(seeded: Accounts, actions: seq<Transactions.Action>)
    ensures var db := Transactions.Exec(Start(seeded), actions).db;
            Readable(db, InIdOrder(db.outbox))
  {
    var db := Transactions.Exec(Start(seeded), actions).db;
    IdOrderIsSound(seeded, actions);
    AlwaysIdInv(seeded, actions);
    InterleavedBooksAreSound(seeded, actions);
    SortKeepsJournal(db.outbox);
    SortKeepsEvents(db.outbox);
    SortKeepsPositive(db.outbox, db.nextOutboxId);
    assert |multiset(Journals(InIdOrder(db.outbox)))| == |multiset(Journals(db.outbox))|;
  }

  lemma SortKeepsPositive(rows: seq<Row>, next: nat)
    requires OutboxIds(rows, next)
    ensures forall i :: 0 <= i < |InIdOrder(rows)| ==> InIdOrder(rows)[i].id > 0
  {
    SortKeepsFree(rows, 0);
    forall i | 0 <= i < |InIdOrder(rows)| ensures InIdOrder(rows)[i].id > 0 {
      SortMembers(rows, InIdOrder(rows)[i]);
      var j :| 0 <= j < |rows| && rows[j] == InIdOrder(rows)[i];
    }
  }

  lemma SortKeepsEvents(rows: seq<Row>)
    requires UniqueRowIds(rows) && DistinctIds(EventsOf(rows))
    ensures DistinctIds(EventsOf(InIdOrder(rows)))
  {
    var sorted := InIdOrder(rows);
    SortAscends(rows);
    forall i, j | 0 <= i < j < |sorted| ensures EventsOf(sorted)[i].id != EventsOf(sorted)[j].id {
      SortMembers(rows, sorted[i]);
      SortMembers(rows, sorted[j]);
      var a :| 0 <= a < |rows| && rows[a] == sorted[i];
      var b :| 0 <= b < |rows| && rows[b] == sorted[j];
      assert EventsOf(rows)[a] == sorted[i].event && EventsOf(rows)[b] == sorted[j].event;
    }
  }
}
