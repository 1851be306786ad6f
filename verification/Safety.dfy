/** The invariant of the whole system and what it means in every reachable state. */
module Safety {
  import opened Sequences
  import opened Amounts
  import opened Journal
  import opened Store
  import opened Invariants
  import opened RequestLog
  import opened Projection
  import opened Coverage
  import opened System
  import opened Leases

  // ---- identifiers and drafts -----------------------------------------------

  predicate Taken(db: Db, id: nat) {
    Recorded(db.outbox, id) || id in db.accounts
  }

  ghost predicate PhaseSound(hd: Handler) {
    match hd.phase
    case GuardLoad(c) => Drafts(hd, c)
    case GuardRead(c, _, _) => Drafts(hd, c)
    case Submit(c) => Drafts(hd, c)
    case SubmitAccount(c) => DraftsAccount(hd, c)
    case _ => true
  }

  /** Drawn identifiers are unused and never shared between handlers. */
  ghost predicate HandlersSound(db: Db, handlers: map<nat, Handler>, issued: set<nat>) {
    && (forall id :: Taken(db, id) ==> id in issued)
    && (forall h :: h in handlers ==> PhaseSound(handlers[h]))
    && (forall h, id :: h in handlers && id in Drawn(handlers[h].phase) ==> id in issued && !Taken(db, id))
    && (forall h, g, id :: h in handlers && g in handlers && h != g && id in Drawn(handlers[h].phase) ==>
          id !in Drawn(handlers[g].phase))
  }

  /** Replacing one handler's phase by one that draws no more than is drawn or new. */
  lemma MoveKeepsHandlers(db: Db, handlers: map<nat, Handler>, issued: set<nat>, h: nat, hd: Handler, extra: set<nat>)
    requires HandlersSound(db, handlers, issued) && PhaseSound(hd) && extra !! issued
    requires Drawn(hd.phase) <= extra || (h in handlers && Drawn(hd.phase) <= Drawn(handlers[h].phase))
    ensures HandlersSound(db, handlers[h := hd], issued + extra)
  {
    var handlers' := handlers[h := hd];
    forall g, id | g in handlers' && id in Drawn(handlers'[g].phase) ensures id in issued + extra && !Taken(db, id) {
      if g == h && id in extra { assert id !in issued; }
    }
    forall a, b, id | a in handlers' && b in handlers' && a != b && id in Drawn(handlers'[a].phase)
      ensures id !in Drawn(handlers'[b].phase)
    {
      if a != h { assert id in issued; } else { assert b in handlers; }
    }
  }

  /** Storing what handler `h` drew, while it draws nothing any more. */
  lemma StoreKeepsHandlers(db: Db, db': Db, handlers: map<nat, Handler>, issued: set<nat>, h: nat, hd: Handler)
    requires HandlersSound(db, handlers, issued) && h in handlers && PhaseSound(hd) && Drawn(hd.phase) == {}
    requires forall id :: Taken(db', id) ==> Taken(db, id) || id in Drawn(handlers[h].phase)
    ensures HandlersSound(db', handlers[h := hd], issued)
  {
    var handlers' := handlers[h := hd];
    forall g, id | g in handlers' && id in Drawn(handlers'[g].phase) ensures id in issued && !Taken(db', id) {
      assert g != h;
    }
  }

  // ---- answers against records ----------------------------------------------

  function Held(records: map<Slot, Record>, s: Slot): Option<Answer> {
    if s in records then Some(Answer(records[s].hash, records[s].response)) else None
  }

  function EntryIds(entries: seq<JournalEntry>): (r: seq<TransactionId>)
    ensures |r| == |entries| && forall i :: 0 <= i < |r| ==> r[i] == entries[i].id
  {
    seq(|entries|, i requires 0 <= i < |entries| => entries[i].id)
  }

  /** The log is lawful, agrees with the records, and accepted exactly the journal. */
  ghost predicate LogSound(log: seq<Item>, db: Db) {
    && WellFormed(log)
    && (forall s :: Live(log, s) == Held(db.idempotency, s))
    && Transactions(log) == EntryIds(db.entries)
  }

  lemma ReplayKeepsLog(log: seq<Item>, db: Db, s: Slot)
    requires LogSound(log, db) && s in db.idempotency
    ensures LogSound(log + [Replayed(s, Answer(db.idempotency[s].hash, db.idempotency[s].response))], db)
  {
    var item := Replayed(s, Answer(db.idempotency[s].hash, db.idempotency[s].response));
    Extend(log, item);
    SnocInit(log, item);
  }

  lemma PurgeKeepsLog(log: seq<Item>, db: Db, cutoff: Time)
    requires LogSound(log, db)
    ensures LogSound(log + [Purged(Expired(db, cutoff))], Purge(db, cutoff))
  {
    var item := Purged(Expired(db, cutoff));
    forall s | s in Expired(db, cutoff) ensures Live(log, s).Some? { assert s in db.idempotency; }
    Extend(log, item);
    SnocInit(log, item);
  }

  lemma AcceptKeepsLog(log: seq<Item>, db: Db, db': Db, r: Record)
    requires LogSound(log, db) && r.slot !in db.idempotency
    requires db'.idempotency == db.idempotency[r.slot := r]
    requires if r.response.EntryPosted? then
               exists e: JournalEntry :: db'.entries == db.entries + [e] && e.id == r.response.transaction
             else db'.entries == db.entries
    ensures LogSound(log + [Accepted(r.slot, Answer(r.hash, r.response))], db')
  {
    var item := Accepted(r.slot, Answer(r.hash, r.response));
    assert Live(log, r.slot) == Held(db.idempotency, r.slot);
    Extend(log, item);
    SnocInit(log, item);
    if r.response.EntryPosted? {
      assert EntryIds(db'.entries) == EntryIds(db.entries) + [r.response.transaction];
    }
    forall s ensures Live(log + [item], s) == Held(db'.idempotency, s) {
      assert Live(log, s) == Held(db.idempotency, s);
    }
  }

  // ---- relay ----------------------------------------------------------------

  predicate StoredAs(outbox: seq<Row>, id: nat, e: Event) {
    exists i :: 0 <= i < |outbox| && outbox[i].id == id && outbox[i].event == e
  }

  predicate AcceptedRow(outbox: seq<Row>, broker: seq<Event>, id: nat) {
    exists i :: 0 <= i < |outbox| && outbox[i].id == id && outbox[i].event in broker
  }

  predicate TickSound(outbox: seq<Row>, broker: seq<Event>, tick: Tick) {
    && (forall m :: 0 <= m < |tick.messages| ==> StoredAs(outbox, tick.messages[m].id, tick.messages[m].event))
    && (forall p :: 0 <= p < |tick.published| ==> AcceptedRow(outbox, broker, tick.published[p]))
  }

  /** Published rows were accepted by the broker, and the broker holds nothing else. */
  predicate RelaySound(outbox: seq<Row>, broker: seq<Event>, ticks: map<nat, Tick>) {
    && (forall i :: 0 <= i < |outbox| && outbox[i].publishedAt.Some? ==> outbox[i].event in broker)
    && (forall b :: 0 <= b < |broker| ==> broker[b] in EventsOf(outbox))
    && (forall t :: t in ticks ==> TickSound(outbox, broker, ticks[t]))
  }

  /** Ids and events of existing rows stay; only accepted rows become published. */
  predicate Evolves(outbox: seq<Row>, outbox': seq<Row>, broker: seq<Event>) {
    && Extends(outbox, outbox')
    && (forall i :: 0 <= i < |outbox'| && outbox'[i].publishedAt.Some? ==> outbox'[i].event in broker)
  }

  lemma TickSurvives(outbox: seq<Row>, outbox': seq<Row>, broker: seq<Event>, broker': seq<Event>, tick: Tick)
    requires TickSound(outbox, broker, tick) && Evolves(outbox, outbox', broker') && broker <= broker'
    ensures TickSound(outbox', broker', tick)
  {
    forall m | 0 <= m < |tick.messages| ensures StoredAs(outbox', tick.messages[m].id, tick.messages[m].event) {
      assert StoredAs(outbox, tick.messages[m].id, tick.messages[m].event);
      var i :| 0 <= i < |outbox| && outbox[i].id == tick.messages[m].id && outbox[i].event == tick.messages[m].event;
      assert SameMessage(outbox[i], outbox'[i]);
    }
    forall p | 0 <= p < |tick.published| ensures AcceptedRow(outbox', broker', tick.published[p]) {
      assert AcceptedRow(outbox, broker, tick.published[p]);
      var i :| 0 <= i < |outbox| && outbox[i].id == tick.published[p] && outbox[i].event in broker;
      assert SameMessage(outbox[i], outbox'[i]);
    }
  }

  lemma RelaySurvives(outbox: seq<Row>, outbox': seq<Row>, broker: seq<Event>, broker': seq<Event>,
                      ticks: map<nat, Tick>)
    requires RelaySound(outbox, broker, ticks) && Evolves(outbox, outbox', broker')
    requires broker <= broker' && forall b :: |broker| <= b < |broker'| ==> broker'[b] in EventsOf(outbox')
    ensures RelaySound(outbox', broker', ticks)
  {
    forall b | 0 <= b < |broker'| ensures broker'[b] in EventsOf(outbox') {
      if b < |broker| {
        var i :| 0 <= i < |outbox| && EventsOf(outbox)[i] == broker[b];
        assert EventsOf(outbox')[i] == outbox'[i].event;
      }
    }
    forall t | t in ticks ensures TickSound(outbox', broker', ticks[t]) {
      TickSurvives(outbox, outbox', broker, broker', ticks[t]);
    }
  }

  // ---- the invariant --------------------------------------------------------

  ghost predicate Inv(s: Sys) {
    && Sound(s.db)
    && HandlersSound(s.db, s.handlers, s.issued)
    && LogSound(s.log, s.db)
    && RelaySound(s.db.outbox, s.broker, s.ticks)
    && ProjectionSound(EventsOf(s.db.outbox), s.projection)
  }

  // ---- preservation ---------------------------------------------------------

  lemma DraftKeepsHandlers(s: Sys, h: nat, act: ServiceAct)
    requires HandlersSound(s.db, s.handlers, s.issued) && CanServe(s, h, act) && (act.Draft? || act.DraftAccount?)
    ensures var s' := ServeStep(s, h, act);
            s' == s.(handlers := s'.handlers, issued := s'.issued) && HandlersSound(s'.db, s'.handlers, s'.issued)
  {
    var s' := ServeStep(s, h, act);
    var extra := if act.Draft? then Ids(act.commit.events) else Ids(act.opening.events) + {act.opening.account.id};
    MoveKeepsHandlers(s.db, s.handlers, s.issued, h, s'.handlers[h], extra);
    assert s'.handlers == s.handlers[h := s'.handlers[h]] && s'.issued == s.issued + extra;
  }

  /** What a step that draws and stores nothing comes to. */
  lemma QuietShape(s: Sys, h: nat, act: ServiceAct) returns (hd: Handler)
    requires HandlersSound(s.db, s.handlers, s.issued) && CanServe(s, h, act)
    requires act.Arrive? || act.Refuse? || act.LoadAccounts? || act.ReadBalance?
    ensures ServeStep(s, h, act) == s.(handlers := s.handlers[h := hd]) && PhaseSound(hd)
    ensures Drawn(hd.phase) == {} || (h in s.handlers && Drawn(hd.phase) <= Drawn(s.handlers[h].phase))
  {
    hd := ServeStep(s, h, act).handlers[h];
    if !act.Arrive? { assert PhaseSound(s.handlers[h]); }
  }

  lemma QuietKeepsHandlers(s: Sys, h: nat, act: ServiceAct)
    requires HandlersSound(s.db, s.handlers, s.issued) && CanServe(s, h, act)
    requires act.Arrive? || act.Refuse? || act.LoadAccounts? || act.ReadBalance? || act.Abandon?
    ensures var s' := ServeStep(s, h, act);
            s' == s.(handlers := s'.handlers) && HandlersSound(s'.db, s'.handlers, s'.issued)
  {
    if !act.Abandon? {
      var hd := QuietShape(s, h, act);
      MoveKeepsHandlers(s.db, s.handlers, s.issued, h, hd, {});
      assert s.issued + {} == s.issued;
    }
  }

  /** Steps that only advance a handler. */
  lemma QuietKeepsInv(s: Sys, h: nat, act: ServiceAct)
    requires Inv(s) && CanServe(s, h, act) && !act.Find? && !act.Write? && !act.WriteUnheard?
    ensures Inv(ServeStep(s, h, act))
  {
    if act.Draft? || act.DraftAccount? { DraftKeepsHandlers(s, h, act); } else { QuietKeepsHandlers(s, h, act); }
  }

  lemma FindKeepsInv(s: Sys, h: nat)
    requires Inv(s) && CanServe(s, h, Find)
    ensures Inv(ServeStep(s, h, Find))
  {
    var hd := s.handlers[h];
    var phase := FindShape(s, h);
    RestKeepsInv(s, h, hd.(phase := phase));
    if phase.Done? && phase.result.Ok? {
      ReplayKeepsLog(s.log, s.db, hd.slot);
      LoggedKeepsInv(s.(handlers := s.handlers[h := hd.(phase := phase)]), ServeStep(s, h, Find).log);
    }
  }

  lemma LoggedKeepsInv(s: Sys, log: seq<Item>)
    requires Inv(s) && LogSound(log, s.db)
    ensures Inv(s.(log := log))
  {
  }

  lemma FindShape(s: Sys, h: nat) returns (phase: Phase)
    requires CanServe(s, h, Find)
    ensures phase.Build? || phase.Done?
    ensures var hd := s.handlers[h];
            var s' := s.(handlers := s.handlers[h := hd.(phase := phase)]);
            if phase.Done? && phase.result.Ok? then
              && hd.slot in s.db.idempotency
              && var r := s.db.idempotency[hd.slot];
              ServeStep(s, h, Find) == s'.(log := s.log + [Replayed(hd.slot, Answer(r.hash, r.response))])
            else ServeStep(s, h, Find) == s'
  {
    phase := ServeStep(s, h, Find).handlers[h].phase;
  }

  lemma ExpireKeepsInv(s: Sys, cutoff: Time)
    requires Inv(s)
    ensures Inv(Do(s, Expire(cutoff)))
  {
    PurgeKeepsLog(s.log, s.db, cutoff);
    StepKeepsSound(s.db, PurgeBefore(cutoff));
    assert forall id :: Taken(Purge(s.db, cutoff), id) == Taken(s.db, id);
  }

  lemma DrawnIsFresh(db: Db, handlers: map<nat, Handler>, issued: set<nat>, h: nat, events: seq<Event>)
    requires HandlersSound(db, handlers, issued) && h in handlers
    requires DistinctIds(events) && Ids(events) <= Drawn(handlers[h].phase)
    ensures Fresh(db.outbox, events)
  {
    forall i | 0 <= i < |events| ensures !Recorded(db.outbox, events[i].id) {
      assert events[i].id in Ids(events);
      assert !Taken(db, events[i].id);
    }
  }

  /** Appending fresh events: what the relay and the projections see. */
  lemma AppendKeepsReaders(outbox: seq<Row>, last: nat, events: seq<Event>, broker: seq<Event>,
                           ticks: map<nat, Tick>, t: Tables)
    requires OutboxOrdered(outbox, last) && Fresh(outbox, events)
    requires RelaySound(outbox, broker, ticks) && ProjectionSound(EventsOf(outbox), t)
    ensures RelaySound(outbox + NewRows(last, events), broker, ticks)
    ensures ProjectionSound(EventsOf(outbox + NewRows(last, events)), t)
    ensures forall id :: Recorded(outbox + NewRows(last, events), id) ==> Recorded(outbox, id) || id in Ids(events)
  {
    var outbox' := outbox + NewRows(last, events);
    AppendKeepsOrder(outbox, last, events);
    GrowthKeepsSound(EventsOf(outbox), events, t);
    assert Evolves(outbox, outbox', broker);
    RelaySurvives(outbox, outbox', broker, broker, ticks);
    forall id | Recorded(outbox', id) ensures Recorded(outbox, id) || id in Ids(events) {
      var i :| 0 <= i < |outbox'| && outbox'[i].event.id == id;
      if i >= |outbox| { assert outbox'[i].event == events[i - |outbox|]; }
    }
  }

  /** A stored draft, seen by the identifiers, the relay and the projections. */
  lemma StoredKeepsReaders(s: Sys, h: nat, db': Db, events: seq<Event>, response: Response)
    requires HandlersSound(s.db, s.handlers, s.issued) && OutboxOrdered(s.db.outbox, s.db.nextOutboxId)
    requires RelaySound(s.db.outbox, s.broker, s.ticks) && ProjectionSound(EventsOf(s.db.outbox), s.projection)
    requires h in s.handlers && Fresh(s.db.outbox, events) && Ids(events) <= Drawn(s.handlers[h].phase)
    requires db'.outbox == s.db.outbox + NewRows(s.db.nextOutboxId, events)
    requires forall id :: id in db'.accounts ==> id in s.db.accounts || id in Drawn(s.handlers[h].phase)
    ensures HandlersSound(db', s.handlers[h := s.handlers[h].(phase := Done(Ok(response)))], s.issued)
    ensures RelaySound(db'.outbox, s.broker, s.ticks) && ProjectionSound(EventsOf(db'.outbox), s.projection)
  {
    AppendKeepsReaders(s.db.outbox, s.db.nextOutboxId, events, s.broker, s.ticks, s.projection);
    StoreKeepsHandlers(s.db, db', s.handlers, s.issued, h, s.handlers[h].(phase := Done(Ok(response))));
  }

  lemma SubmitKeepsBooks(s: Sys, h: nat)
    requires Sound(s.db) && HandlersSound(s.db, s.handlers, s.issued) && LogSound(s.log, s.db)
    requires h in s.handlers && s.handlers[h].phase.Submit?
    requires CommitJournal(s.db, s.handlers[h].phase.commit).0 == Ok(Committed)
    ensures var hd, c := s.handlers[h], s.handlers[h].phase.commit;
            var db' := CommitJournal(s.db, c).1;
            && Sound(db') && db'.accounts == s.db.accounts
            && Fresh(s.db.outbox, c.events) && db'.outbox == s.db.outbox + NewRows(s.db.nextOutboxId, c.events)
            && LogSound(s.log + [Accepted(hd.slot, Answer(hd.hash, c.record.response))], db')
  {
    var c := s.handlers[h].phase.commit;
    assert PhaseSound(s.handlers[h]);
    DrawnIsFresh(s.db, s.handlers, s.issued, h, c.events);
    CommitShape(s.db, c);
    CommitKeepsSound(s.db, c);
    AcceptKeepsLog(s.log, s.db, CommitJournal(s.db, c).1, c.record);
  }

  lemma SubmitStored(s: Sys, h: nat)
    requires Inv(s) && h in s.handlers && s.handlers[h].phase.Submit?
    requires CommitJournal(s.db, s.handlers[h].phase.commit).0 == Ok(Committed)
    ensures var c := s.handlers[h].phase.commit;
            Inv(Stored(s, h, CommitJournal(s.db, c).1, c.record.response))
  {
    var c := s.handlers[h].phase.commit;
    SubmitKeepsBooks(s, h);
    StoredKeepsReaders(s, h, CommitJournal(s.db, c).1, c.events, c.record.response);
    StoredKeepsInv(s, h, CommitJournal(s.db, c).1, c.record.response);
  }

  lemma SubmitKeepsInv(s: Sys, h: nat)
    requires Inv(s) && CanServe(s, h, Write) && s.handlers[h].phase.Submit?
    requires CommitJournal(s.db, s.handlers[h].phase.commit).0 == Ok(Committed)
    ensures Inv(ServeStep(s, h, Write))
  {
    SubmitStored(s, h);
    SubmitShape(s, h);
  }

  /** The system after handler `h` stored its draft. */
  function Stored(s: Sys, h: nat, db: Db, response: Response): Sys
    requires h in s.handlers
  {
    var hd := s.handlers[h];
    s.(db := db, handlers := s.handlers[h := hd.(phase := Done(Ok(response)))],
       log := s.log + [Accepted(hd.slot, Answer(hd.hash, response))])
  }

  lemma SubmitShape(s: Sys, h: nat)
    requires CanServe(s, h, Write) && s.handlers[h].phase.Submit?
    requires CommitJournal(s.db, s.handlers[h].phase.commit).0 == Ok(Committed)
    ensures var c := s.handlers[h].phase.commit;
            ServeStep(s, h, Write) == Stored(s, h, CommitJournal(s.db, c).1, c.record.response)
  {
  }

  lemma OpenShape(s: Sys, h: nat)
    requires CanServe(s, h, Write) && s.handlers[h].phase.SubmitAccount?
    requires CreateAccount(s.db, s.handlers[h].phase.opening).0 == Ok(Committed)
    ensures var c := s.handlers[h].phase.opening;
            ServeStep(s, h, Write) == Stored(s, h, CreateAccount(s.db, c).1, c.record.response)
  {
  }

  lemma StoredKeepsInv(s: Sys, h: nat, db: Db, response: Response)
    requires h in s.handlers && Sound(db)
    requires HandlersSound(db, s.handlers[h := s.handlers[h].(phase := Done(Ok(response)))], s.issued)
    requires LogSound(s.log + [Accepted(s.handlers[h].slot, Answer(s.handlers[h].hash, response))], db)
    requires RelaySound(db.outbox, s.broker, s.ticks) && ProjectionSound(EventsOf(db.outbox), s.projection)
    ensures Inv(Stored(s, h, db, response))
  {
  }

  lemma OpenKeepsBooks(s: Sys, h: nat)
    requires Sound(s.db) && HandlersSound(s.db, s.handlers, s.issued) && LogSound(s.log, s.db)
    requires h in s.handlers && s.handlers[h].phase.SubmitAccount?
    requires CreateAccount(s.db, s.handlers[h].phase.opening).0 == Ok(Committed)
    ensures var hd, c := s.handlers[h], s.handlers[h].phase.opening;
            var db' := CreateAccount(s.db, c).1;
            && Sound(db') && db'.accounts == s.db.accounts[c.account.id := c.account]
            && Fresh(s.db.outbox, c.events) && db'.outbox == s.db.outbox + NewRows(s.db.nextOutboxId, c.events)
            && LogSound(s.log + [Accepted(hd.slot, Answer(hd.hash, c.record.response))], db')
  {
    var c := s.handlers[h].phase.opening;
    assert PhaseSound(s.handlers[h]);
    DrawnIsFresh(s.db, s.handlers, s.issued, h, c.events);
    assert !Taken(s.db, c.account.id) by { assert c.account.id in Drawn(s.handlers[h].phase); }
    CreateShape(s.db, c);
    CreateKeepsSound(s.db, c);
    AcceptKeepsLog(s.log, s.db, CreateAccount(s.db, c).1, c.record);
  }

  lemma OpenStored(s: Sys, h: nat)
    requires Inv(s) && h in s.handlers && s.handlers[h].phase.SubmitAccount?
    requires CreateAccount(s.db, s.handlers[h].phase.opening).0 == Ok(Committed)
    ensures var c := s.handlers[h].phase.opening;
            Inv(Stored(s, h, CreateAccount(s.db, c).1, c.record.response))
  {
    var c := s.handlers[h].phase.opening;
    OpenKeepsBooks(s, h);
    StoredKeepsReaders(s, h, CreateAccount(s.db, c).1, c.events, c.record.response);
    StoredKeepsInv(s, h, CreateAccount(s.db, c).1, c.record.response);
  }

  lemma OpenKeepsInv(s: Sys, h: nat)
    requires Inv(s) && CanServe(s, h, Write) && s.handlers[h].phase.SubmitAccount?
    requires CreateAccount(s.db, s.handlers[h].phase.opening).0 == Ok(Committed)
    ensures Inv(ServeStep(s, h, Write))
  {
    OpenStored(s, h);
    OpenShape(s, h);
  }

  lemma WriteKeepsInv(s: Sys, h: nat)
    requires Inv(s) && CanServe(s, h, Write)
    ensures Inv(ServeStep(s, h, Write))
  {
    var phase := s.handlers[h].phase;
    if phase.Submit? && CommitJournal(s.db, phase.commit).0 == Ok(Committed) {
      SubmitKeepsInv(s, h);
    } else if phase.SubmitAccount? && CreateAccount(s.db, phase.opening).0 == Ok(Committed) {
      OpenKeepsInv(s, h);
    } else {
      var rest := RestShape(s, h);
      RestKeepsInv(s, h, s.handlers[h].(phase := rest));
    }
  }

  /** A reply that never arrives leaves the handler in an error and the store as written. */
  lemma UnheardKeepsInv(s: Sys, h: nat)
    requires Inv(s) && CanServe(s, h, WriteUnheard)
    ensures Inv(ServeStep(s, h, WriteUnheard))
  {
    WriteKeepsInv(s, h);
    var s' := ServeStep(s, h, Write);
    UnheardShape(s, h, s');
    RestKeepsInv(s', h, s'.handlers[h].(phase := Done(Err(ReplyLost))));
  }

  lemma UnheardShape(s: Sys, h: nat, s': Sys)
    requires CanServe(s, h, WriteUnheard) && s' == ServeStep(s, h, Write)
    ensures h in s'.handlers
    ensures ServeStep(s, h, WriteUnheard) ==
            s'.(handlers := s'.handlers[h := s'.handlers[h].(phase := Done(Err(ReplyLost)))])
  {
  }

  lemma RestShape(s: Sys, h: nat) returns (phase: Phase)
    requires CanServe(s, h, Write)
    requires s.handlers[h].phase.Submit? ==> CommitJournal(s.db, s.handlers[h].phase.commit).0 != Ok(Committed)
    requires s.handlers[h].phase.SubmitAccount? ==> CreateAccount(s.db, s.handlers[h].phase.opening).0 != Ok(Committed)
    ensures phase.Reread? || (phase.Done? && phase.result.Err?)
    ensures ServeStep(s, h, Write) == s.(handlers := s.handlers[h := s.handlers[h].(phase := phase)])
  {
    phase := ServeStep(s, h, Write).handlers[h].phase;
  }

  /** A handler that comes to rest without a success, or is sent to read again. */
  lemma RestKeepsInv(s: Sys, h: nat, hd: Handler)
    requires Inv(s) && PhaseSound(hd) && Drawn(hd.phase) == {}
    ensures Inv(s.(handlers := s.handlers[h := hd]))
  {
    MoveKeepsHandlers(s.db, s.handlers, s.issued, h, hd, {});
    assert s.issued + {} == s.issued;
  }

  /** Relay bookkeeping as the rest of the system sees it. */
  lemma BookkeepingKeepsInv(s: Sys, op: Op, ticks: map<nat, Tick>)
    requires Inv(s) && (op.Claim? || op.Publish? || op.Fail?)
    requires RelaySound(Step(s.db, op).outbox, s.broker, ticks)
    ensures Inv(s.(db := Step(s.db, op), ticks := ticks))
  {
    StepKeepsSound(s.db, op);
    StepKeepsRows(s.db, op);
    var rows, rows' := s.db.outbox, Step(s.db, op).outbox;
    assert EventsOf(rows') == EventsOf(rows);
    forall id ensures Recorded(rows', id) == Recorded(rows, id) {
      assert forall i :: 0 <= i < |rows| ==> rows'[i].event == rows[i].event;
    }
    assert forall id :: Taken(Step(s.db, op), id) == Taken(s.db, id);
  }

  lemma ClaimKeepsRelay(rows: seq<Row>, broker: seq<Event>, ticks: map<nat, Tick>, t: nat, limit: nat, now: Time,
                        until: Time)
    requires RelaySound(rows, broker, ticks)
    ensures RelaySound(ClaimRows(rows, limit, now, until), broker,
                       ticks[t := Tick(Claimed(rows, limit, now), 0, false, [])])
  {
    var rows', tick := ClaimRows(rows, limit, now, until), Tick(Claimed(rows, limit, now), 0, false, []);
    assert Evolves(rows, rows', broker);
    RelaySurvives(rows, rows', broker, broker, ticks);
    ReadyMembers(rows, now);
    forall m | 0 <= m < |tick.messages| ensures StoredAs(rows', tick.messages[m].id, tick.messages[m].event) {
      assert tick.messages[m] == Ready(rows, now)[m] && tick.messages[m] in rows;
      var i :| 0 <= i < |rows| && rows[i] == tick.messages[m];
      assert rows'[i].id == rows[i].id;
    }
  }

  lemma StepKeepsRelay(db: Db, broker: seq<Event>, ticks: map<nat, Tick>, t: nat, limit: nat, now: Time, lease: nat,
                       ticks': map<nat, Tick>)
    requires RelaySound(db.outbox, broker, ticks)
             && ticks' == ticks[t := Tick(Claimed(db.outbox, limit, now), 0, false, [])]
    ensures RelaySound(Step(db, Claim(limit, now, lease)).outbox, broker, ticks')
  {
    ClaimKeepsRelay(db.outbox, broker, ticks, t, limit, now, now + lease);
  }

  lemma ClaimKeepsInv(s: Sys, t: nat, limit: nat, now: Time, lease: nat)
    requires Inv(s) && t !in s.ticks
    ensures Inv(RelayStep(s, t, ClaimBatch(limit, now, lease)))
  {
    var ticks := s.ticks[t := Tick(Claimed(s.db.outbox, limit, now), 0, false, [])];
    StepKeepsRelay(s.db, s.broker, s.ticks, t, limit, now, lease, ticks);
    BookkeepingKeepsInv(s, Claim(limit, now, lease), ticks);
    ClaimShape(s, t, limit, now, lease, ticks);
  }

  lemma ClaimShape(s: Sys, t: nat, limit: nat, now: Time, lease: nat, ticks: map<nat, Tick>)
    requires t !in s.ticks && ticks == s.ticks[t := Tick(Claimed(s.db.outbox, limit, now), 0, false, [])]
    ensures RelayStep(s, t, ClaimBatch(limit, now, lease)) ==
            s.(db := Step(s.db, Claim(limit, now, lease)), ticks := ticks)
  {
  }

  lemma SendKeepsRelay(s: Sys, t: nat, accepted: bool, acknowledged: bool)
    requires RelaySound(s.db.outbox, s.broker, s.ticks) && CanRelay(s, t, Send(accepted, acknowledged))
    ensures var s' := RelayStep(s, t, Send(accepted, acknowledged));
            RelaySound(s.db.outbox, s'.broker, s'.ticks)
  {
    var s' := RelayStep(s, t, Send(accepted, acknowledged));
    var tick, rows := s.ticks[t], s.db.outbox;
    var m := tick.messages[tick.sent];
    assert TickSound(rows, s.broker, tick);
    var i :| 0 <= i < |rows| && rows[i].id == m.id && rows[i].event == m.event;
    assert EventsOf(rows)[i] == m.event;
    assert accepted ==> s'.broker[|s.broker|] == m.event;
    assert Evolves(rows, rows, s'.broker);
    RelaySurvives(rows, rows, s.broker, s'.broker, s.ticks);
    assert acknowledged ==> AcceptedRow(rows, s'.broker, m.id);
    assert TickSound(rows, s'.broker, s'.ticks[t]);
  }

  lemma FailKeepsRelay(rows: seq<Row>, broker: seq<Event>, ticks: map<nat, Tick>, id: nat, error: string)
    requires RelaySound(rows, broker, ticks)
    ensures RelaySound(MarkFailedRows(rows, id, error), broker, ticks)
  {
    assert Evolves(rows, MarkFailedRows(rows, id, error), broker);
    RelaySurvives(rows, MarkFailedRows(rows, id, error), broker, broker, ticks);
  }

  /** Advancing a tick without changing what it claimed or published. */
  lemma RetickKeepsRelay(rows: seq<Row>, broker: seq<Event>, ticks: map<nat, Tick>, t: nat, tick': Tick)
    requires RelaySound(rows, broker, ticks) && t in ticks
    requires tick'.messages == ticks[t].messages && tick'.published == ticks[t].published
    ensures RelaySound(rows, broker, ticks[t := tick'])
  {
    assert TickSound(rows, broker, ticks[t]);
  }

  lemma StoredFailKeepsInv(s: Sys, t: nat, tick': Tick, id: nat, error: string)
    requires Inv(s) && RelaySound(s.db.outbox, s.broker, s.ticks[t := tick'])
    ensures Inv(s.(db := Step(s.db, Fail(id, error)), ticks := s.ticks[t := tick']))
  {
    FailKeepsRelay(s.db.outbox, s.broker, s.ticks[t := tick'], id, error);
    BookkeepingKeepsInv(s, Fail(id, error), s.ticks[t := tick']);
  }

  lemma UnstoredFailKeepsInv(s: Sys, t: nat, tick': Tick)
    requires Inv(s) && RelaySound(s.db.outbox, s.broker, s.ticks[t := tick'])
    ensures Inv(s.(ticks := s.ticks[t := tick']))
  {
  }

  lemma FailShape(s: Sys, t: nat, error: string, stored: bool, tick': Tick)
    requires CanRelay(s, t, ReportFailure(error, stored))
    requires tick' == s.ticks[t].(sent := s.ticks[t].sent + 1, failing := false)
    ensures RelayStep(s, t, ReportFailure(error, stored)) ==
            if stored then
              s.(db := Step(s.db, Fail(s.ticks[t].messages[s.ticks[t].sent].id, error)), ticks := s.ticks[t := tick'])
            else s.(ticks := s.ticks[t := tick'])
  {
  }

  lemma FailKeepsInv(s: Sys, t: nat, error: string, stored: bool)
    requires Inv(s) && CanRelay(s, t, ReportFailure(error, stored))
    ensures Inv(RelayStep(s, t, ReportFailure(error, stored)))
  {
    var tick' := s.ticks[t].(sent := s.ticks[t].sent + 1, failing := false);
    FailShape(s, t, error, stored, tick');
    RetickKeepsRelay(s.db.outbox, s.broker, s.ticks, t, tick');
    if stored {
      StoredFailKeepsInv(s, t, tick', s.ticks[t].messages[s.ticks[t].sent].id, error);
    } else {
      UnstoredFailKeepsInv(s, t, tick');
    }
  }

  /** Only rows the broker accepted are marked: ids identify rows. */
  lemma MarkKeepsRelay(rows: seq<Row>, last: nat, broker: seq<Event>, ticks: map<nat, Tick>, t: nat, now: Time)
    requires OutboxOrdered(rows, last) && RelaySound(rows, broker, ticks) && t in ticks
    ensures RelaySound(MarkPublishedRows(rows, ticks[t].published, now), broker, ticks - {t})
  {
    var ids := ticks[t].published;
    var rows' := MarkPublishedRows(rows, ids, now);
    assert TickSound(rows, broker, ticks[t]);
    forall i | 0 <= i < |rows'| && rows'[i].publishedAt.Some? ensures rows'[i].event in broker {
      if rows[i].publishedAt.None? {
        var p :| 0 <= p < |ids| && ids[p] == rows[i].id;
        assert AcceptedRow(rows, broker, ids[p]);
        var j :| 0 <= j < |rows| && rows[j].id == ids[p] && rows[j].event in broker;
        assert i == j;
      }
    }
    assert Evolves(rows, rows', broker);
    RelaySurvives(rows, rows', broker, broker, ticks);
  }

  lemma MarkKeepsStep(db: Db, broker: seq<Event>, ticks: map<nat, Tick>, t: nat, now: Time)
    requires OutboxOrdered(db.outbox, db.nextOutboxId) && RelaySound(db.outbox, broker, ticks) && t in ticks
    ensures RelaySound(Step(db, Publish(ticks[t].published, now)).outbox, broker, ticks - {t})
  {
    MarkKeepsRelay(db.outbox, db.nextOutboxId, broker, ticks, t, now);
  }

  lemma DropTickKeepsInv(s: Sys, t: nat)
    requires Inv(s)
    ensures Inv(s.(ticks := s.ticks - {t}))
  {
  }

  lemma MarkKeepsInv(s: Sys, t: nat, now: Time, stored: bool)
    requires Inv(s) && CanRelay(s, t, MarkBatch(now, stored))
    ensures Inv(RelayStep(s, t, MarkBatch(now, stored)))
  {
    MarkShape(s, t, now, stored);
    if stored {
      MarkKeepsStep(s.db, s.broker, s.ticks, t, now);
      BookkeepingKeepsInv(s, Publish(s.ticks[t].published, now), s.ticks - {t});
    } else {
      DropTickKeepsInv(s, t);
    }
  }

  lemma MarkShape(s: Sys, t: nat, now: Time, stored: bool)
    requires CanRelay(s, t, MarkBatch(now, stored))
    ensures RelayStep(s, t, MarkBatch(now, stored)) ==
            s.(db := if stored then Step(s.db, Publish(s.ticks[t].published, now)) else s.db, ticks := s.ticks - {t})
  {
  }

  lemma ProjectedKeepsInv(s: Sys, t: Tables)
    requires Inv(s) && ProjectionSound(EventsOf(s.db.outbox), t)
    ensures Inv(s.(projection := t))
  {
  }

  lemma DeliverKeepsInv(s: Sys, c: ConsumerName, b: nat)
    requires Inv(s) && b < |s.broker|
    ensures Inv(s.(projection := Project(s.projection, c, s.broker[b]).1))
  {
    var i := BrokerRow(s.db.outbox, s.broker, s.ticks, b);
    ReplayRowKeepsInv(s, c, i);
  }

  lemma BrokerRow(outbox: seq<Row>, broker: seq<Event>, ticks: map<nat, Tick>, b: nat) returns (i: nat)
    requires RelaySound(outbox, broker, ticks) && b < |broker|
    ensures i < |outbox| && outbox[i].event == broker[b]
  {
    assert broker[b] in EventsOf(outbox);
    i :| 0 <= i < |EventsOf(outbox)| && EventsOf(outbox)[i] == broker[b];
  }

  lemma ReplayRowKeepsInv(s: Sys, c: ConsumerName, i: nat)
    requires Inv(s) && i < |s.db.outbox|
    ensures Inv(s.(projection := Project(s.projection, c, s.db.outbox[i].event).1))
  {
    DeliveryKeepsSound(EventsOf(s.db.outbox), s.projection, c, i);
    ProjectedKeepsInv(s, Project(s.projection, c, s.db.outbox[i].event).1);
  }

  lemma ConsumeKeepsInv(s: Sys, c: ConsumerName, act: ConsumeAct)
    requires Inv(s)
    ensures Inv(ConsumeStep(s, c, act))
  {
    match act
    case Deliver(b) => if b < |s.broker| { DeliverKeepsInv(s, c, b); }
    case ReplayRow(i) => if i < |s.db.outbox| { ReplayRowKeepsInv(s, c, i); }
    case ResetAll =>
      ResetKeepsSound(EventsOf(s.db.outbox), s.projection, c);
      ProjectedKeepsInv(s, ResetConsumer(s.projection, c));
  }

  lemma ServeKeepsInv(s: Sys, h: nat, act: ServiceAct)
    requires Inv(s) && CanServe(s, h, act)
    ensures Inv(ServeStep(s, h, act))
  {
    match act
    case Find => FindKeepsInv(s, h);
    case Write => WriteKeepsInv(s, h);
    case WriteUnheard => UnheardKeepsInv(s, h);
    case _ => QuietKeepsInv(s, h, act);
  }

  lemma SendKeepsInv(s: Sys, t: nat, accepted: bool, acknowledged: bool)
    requires Inv(s) && CanRelay(s, t, Send(accepted, acknowledged))
    ensures Inv(RelayStep(s, t, Send(accepted, acknowledged)))
  {
    SendKeepsRelay(s, t, accepted, acknowledged);
  }

  lemma RelayKeepsInv(s: Sys, t: nat, act: RelayAct)
    requires Inv(s) && CanRelay(s, t, act)
    ensures Inv(RelayStep(s, t, act))
  {
    match act
    case ClaimBatch(limit, now, lease) => ClaimKeepsInv(s, t, limit, now, lease);
    case Send(accepted, acknowledged) => SendKeepsInv(s, t, accepted, acknowledged);
    case ReportFailure(error, stored) => FailKeepsInv(s, t, error, stored);
    case MarkBatch(now, stored) => MarkKeepsInv(s, t, now, stored);
    case Crash =>
  }

  lemma DoKeepsInv(s: Sys, a: Action)
    requires Inv(s)
    ensures Inv(Do(s, a))
  {
    match a
    case Serve(h, act) => if CanServe(s, h, act) { ServeKeepsInv(s, h, act); }
    case Expire(cutoff) => ExpireKeepsInv(s, cutoff);
    case Relay(t, act) => if CanRelay(s, t, act) { RelayKeepsInv(s, t, act); }
    case Consume(c, act) => ConsumeKeepsInv(s, c, act);
  }

  /** The invariant holds in every state the system can reach. */
  lemma {:induction false} SystemInvariant(seeded: Accounts, actions: seq<Action>)
    ensures Inv(Exec(Boot(seeded), actions))
  {
    if actions == [] {
      BootIsSound(seeded);
    } else {
      SystemInvariant(seeded, actions[..|actions| - 1]);
      DoKeepsInv(Exec(Boot(seeded), actions[..|actions| - 1]), actions[|actions| - 1]);
    }
  }

  lemma BootIsSound(seeded: Accounts)
    ensures Inv(Boot(seeded))
  {
    AlwaysSound(seeded, []);
    assert EventsOf([]) == [];
    forall c ensures ConsumerSound([], EMPTY_TABLES, c) {
      assert Processed(EMPTY_TABLES, c) == {} && View(EMPTY_TABLES, c) == map[];
    }
  }
}
