/** A batched replay running beside the live system (services/projector-service/src/main.rs:39-59,
    crates/projector/src/projector.rs:108-152): the replay is a process of its own, whose fetches
    and applications interleave with commits, relay ticks, live deliveries and purges. */
module Startup {
  import opened Amounts
  import opened Store
  import opened Invariants
  import opened Projection
  import opened Coverage
  import opened Replay
  import opened System
  import opened Safety
  import opened RelayRuns
  import opened Recovery

  /** Between two fetches, or inside a batch with `at` events applied. */
  datatype Stage = Idle | Applying(batch: seq<SourcedEvent>, at: nat) | Finished | Broken(error: DomainError)

  /** `present` is the number of outbox rows visible at the last fetch. */
  datatype Replayer = Replayer(consumer: ConsumerName, batchSize: nat, after: int, present: nat, stage: Stage)

  datatype Pair = Pair(sys: Sys, replay: Replayer)

  /** Either the system takes a step, or the replay does. */
  datatype Move = Other(action: Action) | Advance

  function Begin(s: Sys, c: ConsumerName, batchSize: nat): Pair {
    Pair(s, Replayer(c, batchSize, 0, 0, Idle))
  }

  function Fetch(rows: seq<Row>, r: Replayer): Replayer {
    var batch := FetchAfter(SourceLog(rows), r.after, r.batchSize);
    r.(present := |rows|, stage := if batch == [] then Finished else Applying(batch, 0))
  }

  /** After an event was applied: on to the next, to the next batch, or done. */
  function Progressed(r: Replayer): Replayer
    requires r.stage.Applying? && r.stage.at < |r.stage.batch|
  {
    var batch, at := r.stage.batch, r.stage.at + 1;
    if at < |batch| then r.(stage := Applying(batch, at))
    else r.(after := Last(batch, r.after), stage := if |batch| < r.batchSize then Finished else Idle)
  }

  function AdvanceStep(p: Pair): Pair {
    match p.replay.stage
    case Idle => p.(replay := Fetch(p.sys.db.outbox, p.replay))
    case Applying(batch, at) =>
      if at >= |batch| then p
      else
        var (outcome, t) := Project(p.sys.projection, p.replay.consumer, batch[at].event);
        Pair(p.sys.(projection := t),
             if outcome.Err? then p.replay.(stage := Broken(outcome.error)) else Progressed(p.replay))
    case _ => p
  }

  ghost function DoMove(p: Pair, m: Move): Pair {
    match m
    case Other(a) => p.(sys := Do(p.sys, a))
    case Advance => AdvanceStep(p)
  }

  ghost function Play(p: Pair, moves: seq<Move>): Pair {
    if moves == [] then p else DoMove(Play(p, moves[..|moves| - 1]), moves[|moves| - 1])
  }

  // ---- what a batch covers --------------------------------------------------

  lemma {:induction false} AfterContains(log: seq<SourcedEvent>, after: int, i: nat)
    requires i < |log| && log[i].cursor > after
    ensures log[i] in After(log, after)
  {
    if i < |log| - 1 { AfterContains(log[..|log| - 1], after, i); }
  }

  lemma {:induction false} AfterAscends(log: seq<SourcedEvent>, after: int)
    requires CursorsAscend(log)
    ensures CursorsAscend(After(log, after))
  {
    if log != [] {
      var n := |log| - 1;
      AfterAscends(log[..n], after);
      forall i | 0 <= i < |After(log[..n], after)| ensures After(log[..n], after)[i].cursor < log[n].cursor {
        AfterMember(log[..n], after, i);
      }
    }
  }

  predicate Holds(batch: seq<SourcedEvent>, row: Row) {
    exists m :: 0 <= m < |batch| && batch[m].cursor == row.id && batch[m].event == row.event
  }

  /** The rows among the first `present` that lie beyond the cursor, up to the last of a full
      batch or altogether, are in the batch. */
  predicate Covers(rows: seq<Row>, r: Replayer, batch: seq<SourcedEvent>) {
    r.present <= |rows| && forall i :: 0 <= i < r.present && Due(rows[i], r, batch) ==> Holds(batch, rows[i])
  }

  predicate Due(row: Row, r: Replayer, batch: seq<SourcedEvent>) {
    row.id > r.after && (row.id <= Last(batch, r.after) || |batch| < r.batchSize)
  }

  /** Every event of the batch is one of those rows. */
  predicate Stems(rows: seq<Row>, r: Replayer, batch: seq<SourcedEvent>) {
    && r.present <= |rows|
    && forall m :: 0 <= m < |batch| ==> IsRow(rows[..r.present], batch[m])
  }

  predicate IsRow(rows: seq<Row>, e: SourcedEvent) {
    exists i :: 0 <= i < |rows| && rows[i].id == e.cursor && rows[i].event == e.event
  }

  lemma FetchCovers(rows: seq<Row>, r: Replayer)
    requires IdsAscend(rows) && r.present == |rows|
    ensures Covers(rows, r, FetchAfter(SourceLog(rows), r.after, r.batchSize))
  {
    var log := SourceLog(rows);
    var es, batch := After(log, r.after), FetchAfter(log, r.after, r.batchSize);
    AfterAscends(log, r.after);
    forall i | 0 <= i < |rows| && Due(rows[i], r, batch) ensures Holds(batch, rows[i]) {
      AfterContains(log, r.after, i);
      InBatch(es, batch, r.after, r.batchSize, log[i]);
    }
  }

  lemma InBatch(es: seq<SourcedEvent>, batch: seq<SourcedEvent>, after: int, size: nat, e: SourcedEvent)
    requires CursorsAscend(es) && e in es && e.cursor > after && batch == if |es| <= size then es else es[..size]
    requires e.cursor <= Last(batch, after) || |batch| < size
    ensures e in batch
  {
    var m :| 0 <= m < |es| && es[m] == e;
    if |es| > size {
      assert |batch| == size && batch != [] && Last(batch, after) == es[size - 1].cursor;
      assert m < size;
      assert batch[m] == e;
    }
  }

  lemma FetchStems(rows: seq<Row>, r: Replayer)
    requires r.present == |rows|
    ensures Stems(rows, r, FetchAfter(SourceLog(rows), r.after, r.batchSize))
  {
    var log := SourceLog(rows);
    var batch := FetchAfter(log, r.after, r.batchSize);
    assert rows[..|rows|] == rows;
    forall m | 0 <= m < |batch| ensures IsRow(rows, batch[m]) {
      BatchAdvances(log, r.after, r.batchSize, m);
      var i :| 0 <= i < |log| && log[i] == batch[m];
      assert rows[i].id == batch[m].cursor;
    }
  }

  // ---- the invariant --------------------------------------------------------

  predicate Done(t: Tables, c: ConsumerName, e: Event) {
    e.payload.JournalPosted? ==> e.id in Processed(t, c)
  }

  /** Every row up to the cursor is processed. */
  predicate Behind(rows: seq<Row>, t: Tables, c: ConsumerName, after: int) {
    forall i :: 0 <= i < |rows| && rows[i].id <= after ==> Done(t, c, rows[i].event)
  }

  ghost predicate StageSound(rows: seq<Row>, t: Tables, r: Replayer) {
    match r.stage
    case Idle => Behind(rows, t, r.consumer, r.after)
    case Applying(batch, at) =>
      && Behind(rows, t, r.consumer, r.after)
      && at < |batch| && Covers(rows, r, batch) && Stems(rows, r, batch)
      && (forall m :: 0 <= m < at ==> Done(t, r.consumer, batch[m].event))
    case Finished => r.present <= |rows| && forall i :: 0 <= i < r.present ==> Done(t, r.consumer, rows[i].event)
    case Broken(_) => true
  }

  ghost predicate PairSound(p: Pair) {
    && Inv(p.sys) && p.replay.batchSize > 0 && p.replay.after <= p.sys.db.nextOutboxId
    && StageSound(p.sys.db.outbox, p.sys.projection, p.replay)
  }

  // ---- steps of the system --------------------------------------------------

  lemma StepGrows(s: Sys, a: Action)
    requires Inv(s)
    ensures Grown(s.db, Do(s, a).db)
  {
    if a.Serve? && CanServe(s, a.handler, a.act) {
      ServeAppends(s, a.handler, a.act);
    } else if a.Relay? && CanRelay(s, a.tick, a.relay) {
      RelayKeepsMessages(s, a.tick, a.relay);
    } else {
      QuietOutbox(s, a);
    }
  }

  /** More rows, all of them ahead, and more events processed. */
  lemma StageCarries(db: Db, t: Tables, r: Replayer, db': Db, t': Tables)
    requires StageSound(db.outbox, t, r) && Grown(db, db') && r.after <= db.nextOutboxId
    requires Processed(t, r.consumer) <= Processed(t', r.consumer)
    ensures StageSound(db'.outbox, t', r)
  {
    assert forall i :: 0 <= i < |db.outbox| ==> SameMessage(db.outbox[i], db'.outbox[i]);
    if r.stage.Applying? { StemsCarries(db, r, db'); }
  }

  lemma StemsCarries(db: Db, r: Replayer, db': Db)
    requires r.stage.Applying? && Stems(db.outbox, r, r.stage.batch) && Grown(db, db')
    ensures Stems(db'.outbox, r, r.stage.batch)
  {
    var rows, rows', batch := db.outbox[..r.present], db'.outbox[..r.present], r.stage.batch;
    forall m | 0 <= m < |batch| ensures IsRow(rows', batch[m]) {
      assert IsRow(rows, batch[m]);
      var i :| 0 <= i < |rows| && rows[i].id == batch[m].cursor && rows[i].event == batch[m].event;
      assert SameMessage(db.outbox[i], db'.outbox[i]);
    }
  }

  lemma OtherKeepsSound(p: Pair, a: Action)
    requires PairSound(p) && a != Consume(p.replay.consumer, ResetAll)
    ensures PairSound(DoMove(p, Other(a)))
  {
    DoKeepsInv(p.sys, a);
    StepGrows(p.sys, a);
    StepKeepsProcessed(p.sys, a, p.replay.consumer);
    StageCarries(p.sys.db, p.sys.projection, p.replay, Do(p.sys, a).db, Do(p.sys, a).projection);
  }

  // ---- steps of the replay --------------------------------------------------

  lemma FetchKeepsStage(rows: seq<Row>, t: Tables, r: Replayer, last: nat)
    requires OutboxOrdered(rows, last) && Behind(rows, t, r.consumer, r.after) && r.batchSize > 0
    ensures StageSound(rows, t, Fetch(rows, r))
  {
    var r' := r.(present := |rows|);
    FetchCovers(rows, r');
    FetchStems(rows, r');
    var batch := FetchAfter(SourceLog(rows), r.after, r.batchSize);
    if batch == [] {
      forall i | 0 <= i < |rows| ensures Done(t, r.consumer, rows[i].event) {
        var row := rows[i];
        assert row.id > r.after ==> Due(row, r', batch);
      }
    }
  }

  /** The last event of a batch is one of the rows, and later rows are beyond it. */
  lemma LastIsRow(rows: seq<Row>, last: nat, r: Replayer, batch: seq<SourcedEvent>)
    requires OutboxOrdered(rows, last) && Stems(rows, r, batch) && batch != []
    ensures Last(batch, r.after) <= last
    ensures forall i :: r.present <= i < |rows| ==> rows[i].id > Last(batch, r.after)
  {
    assert IsRow(rows[..r.present], batch[|batch| - 1]);
    var j :| 0 <= j < r.present && rows[..r.present][j].id == Last(batch, r.after);
    assert rows[j].id == Last(batch, r.after);
  }

  /** A batch that has been applied: every row it was due for is processed. */
  lemma BatchDone(rows: seq<Row>, t: Tables, r: Replayer, batch: seq<SourcedEvent>)
    requires Behind(rows, t, r.consumer, r.after) && Covers(rows, r, batch)
    requires forall m :: 0 <= m < |batch| ==> Done(t, r.consumer, batch[m].event)
    ensures forall i :: 0 <= i < r.present && (rows[i].id <= r.after || Due(rows[i], r, batch)) ==>
              Done(t, r.consumer, rows[i].event)
  {
    forall i | 0 <= i < r.present && Due(rows[i], r, batch) ensures Done(t, r.consumer, rows[i].event) {
      assert Holds(batch, rows[i]);
    }
  }

  lemma AppliedKeepsStage(rows: seq<Row>, t: Tables, r: Replayer, last: nat)
    requires OutboxOrdered(rows, last) && r.stage.Applying? && r.after <= last && StageSound(rows, t, r)
    requires Done(t, r.consumer, r.stage.batch[r.stage.at].event)
    ensures StageSound(rows, t, Progressed(r)) && Progressed(r).after <= last
  {
    var batch, at := r.stage.batch, r.stage.at + 1;
    if at == |batch| {
      BatchDone(rows, t, r, batch);
      LastIsRow(rows, last, r, batch);
      BatchEnds(rows, t, r, batch);
    }
  }

  lemma BatchEnds(rows: seq<Row>, t: Tables, r: Replayer, batch: seq<SourcedEvent>)
    requires r.present <= |rows| && batch != []
    requires forall i :: r.present <= i < |rows| ==> rows[i].id > Last(batch, r.after)
    requires forall i :: 0 <= i < r.present && (rows[i].id <= r.after || Due(rows[i], r, batch)) ==>
               Done(t, r.consumer, rows[i].event)
    ensures Behind(rows, t, r.consumer, Last(batch, r.after))
    ensures |batch| < r.batchSize ==> forall i :: 0 <= i < r.present ==> Done(t, r.consumer, rows[i].event)
  {
  }

  /** Applying one event of the batch is a step of the system: the replay of some row. */
  lemma ApplyIsSystemStep(p: Pair) returns (i: nat)
    requires PairSound(p) && p.replay.stage.Applying?
    ensures AdvanceStep(p).sys == Do(p.sys, Consume(p.replay.consumer, ReplayRow(i)))
    ensures i < |p.sys.db.outbox| && p.sys.db.outbox[i].event == p.replay.stage.batch[p.replay.stage.at].event
  {
    var rows, e := p.sys.db.outbox, p.replay.stage.batch[p.replay.stage.at];
    assert IsRow(rows[..p.replay.present], e);
    var seen := rows[..p.replay.present];
    i :| 0 <= i < |seen| && seen[i].id == e.cursor && seen[i].event == e.event;
    assert rows[i].event == e.event;
  }

  /** What one application does to the replay's own state. */
  lemma ApplyKeepsStage(db: Db, t: Tables, r: Replayer)
    requires OutboxOrdered(db.outbox, db.nextOutboxId) && r.stage.Applying? && r.after <= db.nextOutboxId
    requires StageSound(db.outbox, t, r)
    ensures var (outcome, t') := Project(t, r.consumer, r.stage.batch[r.stage.at].event);
            outcome.Ok? ==> StageSound(db.outbox, t', Progressed(r)) && Progressed(r).after <= db.nextOutboxId
  {
    var e := r.stage.batch[r.stage.at].event;
    ProjectEffect(t, r.consumer, e);
    var (outcome, t') := Project(t, r.consumer, e);
    if outcome.Ok? {
      GrownSame(db);
      StageCarries(db, t, r, db, t');
      AppliedKeepsStage(db.outbox, t', r, db.nextOutboxId);
    }
  }

  lemma GrownSame(db: Db)
    ensures Grown(db, db)
  {
  }

  lemma ApplyShape(p: Pair)
    requires p.replay.stage.Applying? && p.replay.stage.at < |p.replay.stage.batch|
    ensures var r, q := p.replay, AdvanceStep(p);
            var (outcome, t) := Project(p.sys.projection, r.consumer, r.stage.batch[r.stage.at].event);
            && q.sys.db == p.sys.db && q.sys.projection == t
            && q.replay == if outcome.Err? then r.(stage := Broken(outcome.error)) else Progressed(r)
  {
  }

  lemma ApplyKeepsInv(p: Pair)
    requires PairSound(p) && p.replay.stage.Applying?
    ensures Inv(AdvanceStep(p).sys)
  {
    var i := ApplyIsSystemStep(p);
    DoKeepsInv(p.sys, Consume(p.replay.consumer, ReplayRow(i)));
  }

  lemma ApplyKeepsSound(p: Pair)
    requires PairSound(p) && p.replay.stage.Applying?
    ensures PairSound(AdvanceStep(p))
  {
    ApplyKeepsInv(p);
    ApplyKeepsReplay(p);
  }

  lemma ApplyKeepsReplay(p: Pair)
    requires OutboxOrdered(p.sys.db.outbox, p.sys.db.nextOutboxId) && p.replay.after <= p.sys.db.nextOutboxId
    requires p.replay.stage.Applying? && StageSound(p.sys.db.outbox, p.sys.projection, p.replay)
    ensures var q := AdvanceStep(p);
            && q.replay.after <= q.sys.db.nextOutboxId && q.replay.batchSize == p.replay.batchSize
            && StageSound(q.sys.db.outbox, q.sys.projection, q.replay)
  {
    ApplyKeepsStage(p.sys.db, p.sys.projection, p.replay);
    ApplyShape(p);
  }

  lemma AdvanceKeepsSound(p: Pair)
    requires PairSound(p)
    ensures PairSound(AdvanceStep(p))
  {
    match p.replay.stage
    case Idle => FetchKeepsStage(p.sys.db.outbox, p.sys.projection, p.replay, p.sys.db.nextOutboxId);
    case Applying(_, _) => ApplyKeepsSound(p);
    case _ =>
  }

  // ---- runs -----------------------------------------------------------------

  lemma MoveKeepsSound(p: Pair, m: Move)
    requires PairSound(p) && m != Other(Consume(p.replay.consumer, ResetAll))
    ensures PairSound(DoMove(p, m))
  {
    match m
    case Other(a) => OtherKeepsSound(p, a);
    case Advance => AdvanceKeepsSound(p);
  }

  /** The last fetch saw at least `n` rows, and so will the next. */
  predicate Saw(p: Pair, n: nat) {
    n <= |p.sys.db.outbox| && (p.replay.stage.Applying? || p.replay.stage.Finished? ==> n <= p.replay.present)
  }

  lemma MoveKeepsSaw(p: Pair, m: Move, n: nat)
    requires PairSound(p) && Saw(p, n)
    ensures Saw(DoMove(p, m), n) && DoMove(p, m).replay.consumer == p.replay.consumer
  {
    match m
    case Other(a) => StepGrows(p.sys, a);
    case Advance => if p.replay.stage.Applying? { ApplyShape(p); }
  }

  lemma {:induction false} PlayKeepsSound(p: Pair, moves: seq<Move>)
    requires PairSound(p) && p.replay.stage.Idle?
    requires forall i :: 0 <= i < |moves| ==> moves[i] != Other(Consume(p.replay.consumer, ResetAll))
    ensures var q := Play(p, moves);
            PairSound(q) && q.replay.consumer == p.replay.consumer && Saw(q, |p.sys.db.outbox|)
  {
    if moves != [] {
      var n := |moves| - 1;
      PlayKeepsSound(p, moves[..n]);
      MoveKeepsSaw(Play(p, moves[..n]), moves[n], |p.sys.db.outbox|);
      MoveKeepsSound(Play(p, moves[..n]), moves[n]);
    }
  }

  lemma BeginIsSound(seeded: Accounts, actions: seq<Action>, c: ConsumerName, batchSize: nat)
    requires batchSize > 0
    ensures PairSound(Begin(Exec(Boot(seeded), actions), c, batchSize))
  {
    SystemInvariant(seeded, actions);
  }

  /** A replay from the beginning, started in any reachable state and interleaved with anything
      but a reset of its own consumer: when it finishes, every journal event that was in the
      outbox at its last fetch is processed, so in particular every one that was there when it
      started; and if nothing was committed since that fetch, the read model is the ledger. */
  lemma FinishedReplayIsComplete(seeded: Accounts, actions: seq<Action>, c: ConsumerName, batchSize: nat,
                                 moves: seq<Move>, p: Pair)
    requires batchSize > 0 && p == Play(Begin(Exec(Boot(seeded), actions), c, batchSize), moves)
    requires forall i :: 0 <= i < |moves| ==> moves[i] != Other(Consume(c, ResetAll))
    requires p.replay.stage.Finished?
    ensures |Exec(Boot(seeded), actions).db.outbox| <= p.replay.present <= |p.sys.db.outbox|
    ensures forall i :: 0 <= i < p.replay.present ==> Done(p.sys.projection, c, p.sys.db.outbox[i].event)
    ensures p.replay.present == |p.sys.db.outbox| ==> Mirrors(p.sys.db, p.sys.projection, c)
  {
    BeginIsSound(seeded, actions, c, batchSize);
    PlayKeepsSound(Begin(Exec(Boot(seeded), actions), c, batchSize), moves);
    if p.replay.present == |p.sys.db.outbox| { AllDoneMirrors(p.sys, c); }
  }

  lemma AllDoneMirrors(s: Sys, c: ConsumerName)
    requires Inv(s) && forall i :: 0 <= i < |s.db.outbox| ==> Done(s.projection, c, s.db.outbox[i].event)
    ensures Mirrors(s.db, s.projection, c)
  {
    assert ConsumerSound(EventsOf(s.db.outbox), s.projection, c);
    CompleteConsumerAgrees(s.db, s.projection, c);
  }
}
