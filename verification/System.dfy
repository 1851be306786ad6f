/** The whole system as one step machine: any number of command handlers interleaved at
    their awaits (crates/ledger/src/service.rs:451-514), purges, relay ticks that may crash
    anywhere (crates/event-bus/src/relay.rs:74-107), a broker that repeats and reorders, and
    projector consumers running beside a replay. */
module System {
  import opened Sequences
  import opened Amounts
  import opened Order
  import opened Journal
  import opened Balances
  import opened Store
  import opened Invariants
  import opened Guard
  import opened RequestLog
  import opened Projection

  // ---- command handlers -----------------------------------------------------

  /** Where a handler is suspended: each phase ends at one await of the source. */
  datatype Phase =
    | Lookup
    | Build
    | GuardLoad(commit: JournalCommit)
    | GuardRead(commit: JournalCommit, loaded: Accounts, keys: seq<Key>)
    | Submit(commit: JournalCommit)
    | SubmitAccount(opening: AccountCommit)
    | Reread
    | Done(result: Result<Response, LedgerError>)

  datatype Handler = Handler(slot: Slot, hash: string, opens: bool, phase: Phase)

  // ---- outbox relay ---------------------------------------------------------

  /** A relay tick in flight: `sent` messages handled, the last one possibly still to be
      marked failed. */
  datatype Tick = Tick(messages: seq<Row>, sent: nat, failing: bool, published: seq<nat>)

  // ---- the state ------------------------------------------------------------

  datatype Sys = Sys(
    db: Db,
    handlers: map<nat, Handler>,
    issued: set<nat>,
    log: seq<Item>,
    ticks: map<nat, Tick>,
    broker: seq<Event>,
    projection: Tables)

  function Boot(seeded: Accounts): Sys {
    Sys(Opened(seeded), map[], seeded.Keys, [], map[], [], EMPTY_TABLES)
  }

  datatype Action =
    | Serve(handler: nat, act: ServiceAct)
    | Expire(cutoff: Time)
    | Relay(tick: nat, relay: RelayAct)
    | Consume(consumer: ConsumerName, consume: ConsumeAct)

  datatype ServiceAct =
    | Arrive(slot: Slot, hash: string, opens: bool)
    | Find
    | Refuse(error: LedgerError)
    | Draft(commit: JournalCommit)
    | DraftAccount(opening: AccountCommit)
    | LoadAccounts(keys: seq<Key>)
    | ReadBalance
    | Write
    | WriteUnheard
    | Abandon

  datatype RelayAct =
    | ClaimBatch(limit: nat, now: Time, lease: nat)
    | Send(accepted: bool, acknowledged: bool)
    | ReportFailure(error: string, stored: bool)
    | MarkBatch(at: Time, stored: bool)
    | Crash

  datatype ConsumeAct =
    | Deliver(offset: nat)
    | ReplayRow(row: nat)
    | ResetAll

  // ---- handler steps --------------------------------------------------------

  /** `IdempotencyRecord::replay`, decoded as the response type of the command. */
  function ReplayRecord(r: Record, hash: string, opens: bool): Result<Response, LedgerError> {
    if r.hash != hash then Err(IdempotencyConflict(r.slot))
    else if r.response.AccountCreated? != opens then Err(Serialization)
    else Ok(r.response)
  }

  function Move(s: Sys, h: nat, phase: Phase): Sys
    requires h in s.handlers
  {
    s.(handlers := s.handlers[h := s.handlers[h].(phase := phase)])
  }

  function Ids(events: seq<Event>): set<nat> {
    set i | 0 <= i < |events| :: events[i].id
  }

  /** Identifiers a suspended handler has drawn but not yet stored. */
  function Drawn(phase: Phase): set<nat> {
    match phase
    case GuardLoad(c) => Ids(c.events)
    case GuardRead(c, _, _) => Ids(c.events)
    case Submit(c) => Ids(c.events)
    case SubmitAccount(c) => Ids(c.events) + {c.account.id}
    case _ => {}
  }

  /** What `build` and the event wrapping produce for a journal command. */
  ghost predicate Drafts(hd: Handler, c: JournalCommit) {
    && Balanced(c.entry.postings)
    && JournalsOf(c.events) == [c.entry] && DistinctIds(c.events)
    && c.record.slot == hd.slot && c.record.hash == hd.hash
    && c.record.response == EntryPosted(c.entry.id, c.entry.description, c.entry.createdAt)
  }

  ghost predicate DraftsAccount(hd: Handler, c: AccountCommit) {
    && JournalsOf(c.events) == [] && DistinctIds(c.events)
    && c.account.id !in Ids(c.events)
    && c.record.slot == hd.slot && c.record.hash == hd.hash
    && c.record.response == AccountCreated(c.account)
  }

  ghost predicate CanServe(s: Sys, h: nat, act: ServiceAct) {
    if act.Arrive? then h !in s.handlers
    else
      && h in s.handlers
      && var hd := s.handlers[h];
      match act
      case Find => hd.phase.Lookup? || hd.phase.Reread?
      case Refuse(_) => !hd.phase.Done?
      case Draft(c) => hd.phase.Build? && !hd.opens && Drafts(hd, c) && Ids(c.events) !! s.issued
      case DraftAccount(c) =>
        hd.phase.Build? && hd.opens && DraftsAccount(hd, c) && (Ids(c.events) + {c.account.id}) !! s.issued
      case LoadAccounts(keys) =>
        && hd.phase.GuardLoad?
        && var ps := hd.phase.commit.entry.postings;
        && RunningFits(map[], ps)
        && (forall i :: 0 <= i < |ps| ==> !AccountRefused(s.db.accounts, ps[i].account))
        && Ascending(keys, KeyLt) && Elements(keys) == Cells(ps)
      case ReadBalance => hd.phase.GuardRead?
      case Write => hd.phase.Submit? || hd.phase.SubmitAccount?
      case WriteUnheard => hd.phase.Submit? || hd.phase.SubmitAccount?
      case Abandon => true
      case Arrive(_, _, _) => false
  }

  /** One balance read of the guard, on the store as it is now and the accounts as loaded. */
  function ReadOne(db: Db, c: JournalCommit, loaded: Accounts, k: Key): Result<(), LedgerError> {
    var delta := Net(c.entry.postings, k);
    if k.account !in loaded || !Fits(delta) then Ok(()) else CheckCell(loaded, db.balances, k, delta)
  }

  /** Finish a handler, logging the answer if it is a success. */
  function Finish(s: Sys, h: nat, result: Result<Response, LedgerError>, replay: bool): Sys
    requires h in s.handlers
  {
    var hd := s.handlers[h];
    var done := Move(s, h, Done(result));
    if result.Err? then done
    else
      var answer := Answer(hd.hash, result.value);
      done.(log := s.log + [if replay then Replayed(hd.slot, answer) else Accepted(hd.slot, answer)])
  }

  function FindStep(s: Sys, h: nat): Sys
    requires h in s.handlers
  {
    var hd := s.handlers[h];
    if hd.slot in s.db.idempotency then Finish(s, h, ReplayRecord(s.db.idempotency[hd.slot], hd.hash, hd.opens), true)
    else if hd.phase.Lookup? then Move(s, h, Build)
    else Finish(s, h, Err(RecordVanished), true)
  }

  function AfterWrite(s: Sys, h: nat, outcome: Result<CommitOutcome, LedgerError>, response: Response): Sys
    requires h in s.handlers
  {
    match outcome
    case Ok(Committed) => Finish(s, h, Ok(response), false)
    case Ok(DuplicateIdempotencyKey) => Move(s, h, Reread)
    case Err(e) => Finish(s, h, Err(e), false)
  }

  function WriteStep(s: Sys, h: nat): Sys
    requires h in s.handlers && (s.handlers[h].phase.Submit? || s.handlers[h].phase.SubmitAccount?)
  {
    match s.handlers[h].phase
    case Submit(c) =>
      var (outcome, db') := CommitJournal(s.db, c);
      AfterWrite(s.(db := db'), h, outcome, c.record.response)
    case SubmitAccount(c) =>
      var (outcome, db') := CreateAccount(s.db, c);
      AfterWrite(s.(db := db'), h, outcome, c.record.response)
  }

  /** What a write does to the store. */
  lemma WriteShape(s: Sys, h: nat)
    requires h in s.handlers && (s.handlers[h].phase.Submit? || s.handlers[h].phase.SubmitAccount?)
    ensures var phase := s.handlers[h].phase;
            WriteStep(s, h).db ==
            if phase.Submit? then CommitJournal(s.db, phase.commit).1 else CreateAccount(s.db, phase.opening).1
  {
  }

  /** `Refuse` is an error without effect at any await; `WriteUnheard` is a store call whose
      reply is lost, whatever it did. */
  ghost function ServeStep(s: Sys, h: nat, act: ServiceAct): Sys
    requires CanServe(s, h, act)
  {
    match act
    case Arrive(slot, hash, opens) => s.(handlers := s.handlers[h := Handler(slot, hash, opens, Lookup)])
    case Find => FindStep(s, h)
    case Refuse(e) => Finish(s, h, Err(e), false)
    case Draft(c) => Move(s, h, GuardLoad(c)).(issued := s.issued + Ids(c.events))
    case DraftAccount(c) =>
      var drawn := s.(issued := s.issued + Ids(c.events) + {c.account.id});
      if NameTaken(s.db.accounts, c.account.name) then Finish(drawn, h, Err(Conflict(c.account.name)), false)
      else Move(drawn, h, SubmitAccount(c))
    case LoadAccounts(keys) => Move(s, h, GuardRead(s.handlers[h].phase.commit, s.db.accounts, keys))
    case ReadBalance =>
      var GuardRead(c, loaded, keys) := s.handlers[h].phase;
      if keys == [] then Move(s, h, Submit(c))
      else
        var checked := ReadOne(s.db, c, loaded, keys[0]);
        if checked.Err? then Finish(s, h, Err(checked.error), false) else Move(s, h, GuardRead(c, loaded, keys[1..]))
    case Write => WriteStep(s, h)
    case WriteUnheard => Move(WriteStep(s, h), h, Done(Err(ReplyLost)))
    case Abandon => s.(handlers := s.handlers - {h})
  }

  // ---- relay steps ----------------------------------------------------------

  predicate CanRelay(s: Sys, t: nat, act: RelayAct) {
    if act.ClaimBatch? then t !in s.ticks
    else
      && t in s.ticks
      && var tick := s.ticks[t];
      match act
      case Send(accepted, acknowledged) =>
        !tick.failing && tick.sent < |tick.messages| && (acknowledged ==> accepted)
      case ReportFailure(_, _) => tick.failing && tick.sent < |tick.messages|
      case MarkBatch(_, _) => !tick.failing && tick.sent >= |tick.messages|
      case Crash => true
      case ClaimBatch(_, _, _) => false
  }

  /** `Send`: the broker may accept without the acknowledgement arriving. `stored` says
      whether the store call itself went through. */
  function RelayStep(s: Sys, t: nat, act: RelayAct): Sys
    requires CanRelay(s, t, act)
  {
    match act
    case ClaimBatch(limit, now, lease) =>
      s.(db := s.db.(outbox := ClaimRows(s.db.outbox, limit, now, now + lease)),
         ticks := s.ticks[t := Tick(Claimed(s.db.outbox, limit, now), 0, false, [])])
    case Send(accepted, acknowledged) =>
      var tick := s.ticks[t];
      var m := tick.messages[tick.sent];
      s.(broker := if accepted then s.broker + [m.event] else s.broker,
         ticks := s.ticks[t := if acknowledged then tick.(sent := tick.sent + 1, published := tick.published + [m.id])
                               else tick.(failing := true)])
    case ReportFailure(error, stored) =>
      var tick := s.ticks[t];
      var rows := if stored then MarkFailedRows(s.db.outbox, tick.messages[tick.sent].id, error) else s.db.outbox;
      s.(db := s.db.(outbox := rows), ticks := s.ticks[t := tick.(sent := tick.sent + 1, failing := false)])
    case MarkBatch(now, stored) =>
      var rows := if stored then MarkPublishedRows(s.db.outbox, s.ticks[t].published, now) else s.db.outbox;
      s.(db := s.db.(outbox := rows), ticks := s.ticks - {t})
    case Crash => s.(ticks := s.ticks - {t})
  }

  // ---- projector steps ------------------------------------------------------

  /** Deliver any accepted event, or replay any row of the durable log, at any time and any
      number of times. */
  function ConsumeStep(s: Sys, c: ConsumerName, act: ConsumeAct): Sys {
    match act
    case Deliver(i) => if i < |s.broker| then s.(projection := Project(s.projection, c, s.broker[i]).1) else s
    case ReplayRow(i) =>
      if i < |s.db.outbox| then s.(projection := Project(s.projection, c, s.db.outbox[i].event).1) else s
    case ResetAll => s.(projection := ResetConsumer(s.projection, c))
  }

  /** One action; an action that is not possible leaves the system alone. */
  ghost function Do(s: Sys, a: Action): Sys {
    match a
    case Serve(h, act) => if CanServe(s, h, act) then ServeStep(s, h, act) else s
    case Expire(cutoff) => s.(db := Purge(s.db, cutoff), log := s.log + [Purged(Expired(s.db, cutoff))])
    case Relay(t, act) => if CanRelay(s, t, act) then RelayStep(s, t, act) else s
    case Consume(c, act) => ConsumeStep(s, c, act)
  }

  ghost function Exec(s: Sys, actions: seq<Action>): Sys {
    if actions == [] then s else Do(Exec(s, actions[..|actions| - 1]), actions[|actions| - 1])
  }

  lemma {:induction false} ExecConcat(s: Sys, a: seq<Action>, b: seq<Action>)
    ensures Exec(s, a + b) == Exec(Exec(s, a), b)
  {
    if b == [] {
      assert a + b == a;
    } else {
      var n := |b| - 1;
      ExecConcat(s, a, b[..n]);
      ConcatInit(a, b);
    }
  }

  lemma ExecOne(s: Sys, a: Action)
    ensures Exec(s, [a]) == Do(s, a)
  {
    assert [a][..0] == [];
  }
}
