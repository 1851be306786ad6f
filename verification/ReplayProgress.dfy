/** The replay process left alone comes to an end, and does what the batched loop does
    (crates/projector/src/projector.rs:108-152). */
module ReplayProgress {
  import opened Sequences
  import opened Amounts
  import opened Store
  import opened Projection
  import opened Replay
  import opened Recovery
  import opened Startup

  /** `n` steps in a row. */
  function Iterate<S>(step: S -> S, s: S, n: nat): S
    decreases n
  {
    if n == 0 then s else Iterate(step, step(s), n - 1)
  }

  lemma {:induction false} IterateMore<S>(step: S -> S, s: S, m: nat, n: nat)
    ensures Iterate(step, s, m + n) == Iterate(step, Iterate(step, s, m), n)
    decreases m
  {
    if m > 0 { IterateMore(step, step(s), m - 1, n); }
  }

  lemma IterateOne<S>(step: S -> S, s: S)
    ensures Iterate(step, s, 1) == step(s)
  {
    assert Iterate(step, step(s), 0) == step(s);
  }

  /** `q` comes after some number of steps of the replay alone. */
  ghost predicate Reaches(p: Pair, q: Pair) {
    exists k: nat :: Iterate(AdvanceStep, p, k) == q
  }

  lemma ReachesNext(p: Pair)
    ensures Reaches(p, AdvanceStep(p))
  {
    IterateOne(AdvanceStep, p);
  }

  lemma ReachesThrough(p: Pair, q: Pair, r: Pair)
    requires Reaches(p, q) && Reaches(q, r)
    ensures Reaches(p, r)
  {
    var m: nat :| Iterate(AdvanceStep, p, m) == q;
    var n: nat :| Iterate(AdvanceStep, q, n) == r;
    IterateMore(AdvanceStep, p, m, n);
  }

  /** Those steps are moves of the pair. */
  lemma AdvanceIsStep(p: Pair, moves: seq<Move>)
    ensures Play(p, moves + [Advance]) == AdvanceStep(Play(p, moves))
  {
    SnocInit(moves, Advance);
  }

  // ---- feeding in parts -----------------------------------------------------

  /** What feeding comes to: the tables, and the error it stopped at. */
  function FedTo(t: Tables, c: ConsumerName, es: seq<Event>): (Tables, Option<DomainError>) {
    var f := Feed(t, c, es);
    (f.tables, f.error)
  }

  lemma {:induction false} FedConcat(t: Tables, c: ConsumerName, a: seq<Event>, b: seq<Event>)
    ensures FedTo(t, c, a + b) == if FedTo(t, c, a).1.Some? then FedTo(t, c, a) else FedTo(FedTo(t, c, a).0, c, b)
  {
    if b == [] {
      assert a + b == a;
    } else {
      FedConcat(t, c, a, b[..|b| - 1]);
      ConcatInit(a, b);
    }
  }

  lemma FedOne(t: Tables, c: ConsumerName, e: Event)
    ensures var (outcome, t') := Project(t, c, e);
            FedTo(t, c, [e]) == (t', if outcome.Err? then Some(outcome.error) else None)
  {
    assert [e][..0] == [] && Feed(t, c, []) == Fed(t, 0, 0, 0, None);
  }

  lemma PayloadsConcat(a: seq<SourcedEvent>, b: seq<SourcedEvent>)
    ensures Payloads(a + b) == Payloads(a) + Payloads(b)
  {
  }

  lemma PayloadsFrom(batch: seq<SourcedEvent>, at: nat)
    requires at < |batch|
    ensures Payloads(batch[at..]) == [batch[at].event] + Payloads(batch[at + 1..])
  {
  }

  // ---- one batch ------------------------------------------------------------

  /** The state after the rest of a batch was fed. */
  function AfterBatch(p: Pair, batch: seq<SourcedEvent>, fed: (Tables, Option<DomainError>)): Pair {
    Pair(p.sys.(projection := fed.0),
         if fed.1.Some? then p.replay.(stage := Broken(fed.1.value))
         else p.replay.(after := Last(batch, p.replay.after),
                        stage := if |batch| < p.replay.batchSize then Finished else Idle))
  }

  lemma ApplyOneStep(p: Pair, batch: seq<SourcedEvent>, at: nat)
    requires p.replay.stage == Applying(batch, at) && at < |batch|
    ensures var fed := FedTo(p.sys.projection, p.replay.consumer, [batch[at].event]);
            AdvanceStep(p) ==
            if fed.1.Some? || at + 1 == |batch| then AfterBatch(p, batch, fed)
            else Pair(p.sys.(projection := fed.0), p.replay.(stage := Applying(batch, at + 1)))
  {
    FedOne(p.sys.projection, p.replay.consumer, batch[at].event);
  }

  lemma {:induction false} BatchRun(p: Pair, batch: seq<SourcedEvent>, at: nat)
    requires p.replay.stage == Applying(batch, at) && at < |batch|
    ensures Reaches(p, AfterBatch(p, batch, FedTo(p.sys.projection, p.replay.consumer, Payloads(batch[at..]))))
    decreases |batch| - at
  {
    var c, q := p.replay.consumer, AdvanceStep(p);
    var fed := FedTo(p.sys.projection, c, [batch[at].event]);
    ApplyOneStep(p, batch, at);
    ReachesNext(p);
    PayloadsFrom(batch, at);
    FedConcat(p.sys.projection, c, [batch[at].event], Payloads(batch[at + 1..]));
    if fed.1.None? && at + 1 == |batch| {
      assert batch[at + 1..] == [] && FedTo(fed.0, c, []) == (fed.0, None);
    } else if fed.1.None? {
      BatchRun(q, batch, at + 1);
      ReachesThrough(p, q, AfterBatch(q, batch, FedTo(fed.0, c, Payloads(batch[at + 1..]))));
    }
  }

  // ---- the whole replay -----------------------------------------------------

  /** All that the loop visits from here on has been fed, and the process is over. */
  predicate Ends(p: Pair, q: Pair) {
    var log := SourceLog(p.sys.db.outbox);
    var (t, error) :=
      FedTo(p.sys.projection, p.replay.consumer, Payloads(Visited(log, p.replay.after, p.replay.batchSize)));
    && q.sys == p.sys.(projection := t)
    && q.replay.stage == if error.Some? then Broken(error.value) else Finished
  }

  /** One fetch and its batch are behind `q`. */
  predicate RoundTo(p: Pair, batch: seq<SourcedEvent>, q: Pair) {
    var fed := FedTo(p.sys.projection, p.replay.consumer, Payloads(batch));
    && q.sys == p.sys.(projection := fed.0)
    && q.replay.consumer == p.replay.consumer && q.replay.batchSize == p.replay.batchSize
    && (fed.1.Some? ==> q.replay.stage == Broken(fed.1.value))
    && (fed.1.None? && |batch| < p.replay.batchSize ==> q.replay.stage.Finished?)
    && (fed.1.None? && batch == [] ==> q.replay.stage.Finished?)
    && (fed.1.None? && batch != [] && |batch| >= p.replay.batchSize ==>
          q.replay.stage.Idle? && q.replay.after == Last(batch, p.replay.after))
  }

  lemma Round(p: Pair, batch: seq<SourcedEvent>) returns (q: Pair)
    requires p.replay.stage.Idle?
    requires batch == FetchAfter(SourceLog(p.sys.db.outbox), p.replay.after, p.replay.batchSize)
    ensures Reaches(p, q) && RoundTo(p, batch, q)
  {
    q := AdvanceStep(p);
    ReachesNext(p);
    if batch == [] {
      assert FedTo(p.sys.projection, p.replay.consumer, Payloads(batch)) == (p.sys.projection, None);
    } else {
      BatchRun(q, batch, 0);
      assert batch[0..] == batch;
      var q' := AfterBatch(q, batch, FedTo(q.sys.projection, q.replay.consumer, Payloads(batch)));
      ReachesThrough(p, q, q');
      q := q';
    }
  }

  /** The last round, by an error or a short batch. */
  lemma EndsHere(p: Pair, batch: seq<SourcedEvent>, q: Pair)
    requires batch == FetchAfter(SourceLog(p.sys.db.outbox), p.replay.after, p.replay.batchSize)
    requires RoundTo(p, batch, q) && !q.replay.stage.Idle?
    ensures Ends(p, q)
  {
    var log, r := SourceLog(p.sys.db.outbox), p.replay;
    VisitedRound(log, r.after, r.batchSize, batch);
    if batch != [] && |batch| >= r.batchSize {
      var rest := Visited(log, Last(batch, r.after), r.batchSize);
      PayloadsConcat(batch, rest);
      FedConcat(p.sys.projection, r.consumer, Payloads(batch), Payloads(rest));
    }
  }

  /** A round before the last. */
  lemma EndsLater(p: Pair, batch: seq<SourcedEvent>, q: Pair, end: Pair)
    requires batch == FetchAfter(SourceLog(p.sys.db.outbox), p.replay.after, p.replay.batchSize)
    requires RoundTo(p, batch, q) && q.replay.stage.Idle? && Ends(q, end)
    ensures Ends(p, end)
  {
    var log, r := SourceLog(p.sys.db.outbox), p.replay;
    var rest := Visited(log, Last(batch, r.after), r.batchSize);
    VisitedRound(log, r.after, r.batchSize, batch);
    PayloadsConcat(batch, rest);
    FedConcat(p.sys.projection, r.consumer, Payloads(batch), Payloads(rest));
  }

  /** Left alone, a replay ends after finitely many steps: finished with everything the batched
      loop visits applied, or broken at the event at which that loop fails. */
  lemma {:induction false} ReplayEnds(p: Pair) returns (end: Pair)
    requires p.replay.stage.Idle?
    ensures Reaches(p, end) && Ends(p, end)
    decreases |After(SourceLog(p.sys.db.outbox), p.replay.after)|
  {
    var batch := FetchAfter(SourceLog(p.sys.db.outbox), p.replay.after, p.replay.batchSize);
    var q := Round(p, batch);
    if q.replay.stage.Idle? {
      VisitedRound(SourceLog(p.sys.db.outbox), p.replay.after, p.replay.batchSize, batch);
      end := ReplayEnds(q);
      ReachesThrough(p, q, end);
      EndsLater(p, batch, q, end);
    } else {
      EndsHere(p, batch, q);
      end := q;
    }
  }
}
