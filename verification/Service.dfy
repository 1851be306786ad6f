/** The command service run by one caller at a time (crates/ledger/src/service.rs): the entry
    builders and the whole of `post_entry` against the in-memory store. */
module Service {
  import opened Sequences
  import opened Amounts
  import opened Journal
  import opened Balances
  import opened Store
  import opened Invariants
  import opened MemoryLedger
  import opened Guard
  import opened System
  import opened Money
  import F = Flow

  datatype Leg = Leg(account: AccountId, asset: AssetCode, amount: Amount)

  /** A raw submission, or a flow with the caller's reference (the reason, for a rejection)
      and, for an adjustment, the operator who authorised it. */
  datatype Command =
    | SubmitJournal(description: string, legs: seq<Leg>)
    | Perform(flow: F.Flow, reference: Option<string>, actor: string)

  datatype Outcome = Outcome(response: Response, replayed: bool)

  /** Postings of a raw submission, up to the first refused leg. */
  method RawPostings(legs: seq<Leg>) returns (r: Result<seq<Posting>, DomainError>)
    ensures r.Ok? <==> forall i :: 0 <= i < |legs| ==> legs[i].amount != 0
    ensures r.Ok? ==> Spells(r.value, legs)
    ensures r.Err? ==> r.error == NonPositiveAmount(0)
  {
    var ps := [];
    for i := 0 to |legs|
      invariant Spells(ps, legs[..i])
      invariant forall j :: 0 <= j < i ==> legs[j].amount != 0
    {
      var p := NewPosting(legs[i].account, legs[i].asset, legs[i].amount);
      if p.Err? { return Err(p.error); }
      ps := ps + [p.value];
    }
    assert legs[..|legs|] == legs;
    r := Ok(ps);
  }

  /** The postings carry the legs one for one: same cell, same signed amount, and the side
      its sign says. */
  predicate Spells(ps: seq<Posting>, legs: seq<Leg>) {
    && |ps| == |legs|
    && forall i :: 0 <= i < |ps| ==>
         && ps[i].Cell() == Key(legs[i].account, legs[i].asset) && ps[i].amount == legs[i].amount
         && (ps[i].side == Debit <==> ps[i].amount > 0)
  }

  /** Trades and adjustments must touch four, and two, different cells. */
  predicate NeedsDistinct(f: F.Flow) { f.TradeSettlement? || f.AdminAdjustment? }

  /** The checks the service makes for that are on assets and accounts. */
  lemma DistinctExactly(f: F.Flow)
    requires NeedsDistinct(f) && F.PositiveAmounts(f)
    ensures F.FlowPostings(f).Ok?
    ensures DistinctCells(F.FlowPostings(f).value) <==>
            if f.TradeSettlement? then f.base != f.quote && f.buyer != f.seller else f.from != f.to
  {
    F.FlowTotal(f);
    var ps := F.FlowPostings(f).value;
    if f.TradeSettlement? {
      F.TradeLegs(f);
      assert ps[0].Cell() == Key(f.seller, f.base) && ps[1].Cell() == Key(f.buyer, f.base);
      assert ps[2].Cell() == Key(f.buyer, f.quote) && ps[3].Cell() == Key(f.seller, f.quote);
    } else {
      F.PairLegs(f.from, f.to, f.asset, f.amount);
      assert ps[0].Cell() == Key(f.from, f.asset) && ps[1].Cell() == Key(f.to, f.asset);
    }
  }

  /** The postings are what the command asks for. */
  ghost predicate Asked(cmd: Command, ps: seq<Posting>) {
    match cmd
    case SubmitJournal(_, legs) => Spells(ps, legs)
    case Perform(f, _, _) => F.FlowPostings(f) == Ok(ps)
  }

  // ---- texts ----------------------------------------------------------------

  const MAX_REFERENCE_LEN: nat := 256
  const MAX_DESCRIPTION_LEN: nat := 512
  const MAX_REASON_LEN: nat := 1024

  /** `str::len`: bytes in UTF-8. */
  function ByteLength(s: string): nat {
    if s == "" then 0
    else
      var c := s[|s| - 1] as int;
      ByteLength(s[..|s| - 1]) + if c < 0x80 then 1 else if c < 0x800 then 2 else if c < 0x1_0000 then 3 else 4
  }

  /** The UTF-8 bytes of a character, six bits to each byte after the first. */
  function Utf8(c: char): seq<nat> {
    var n := c as int;
    var p := n / 0x40;
    var q := p / 0x40;
    if n < 0x80 then [n]
    else if n < 0x800 then [0xC0 + p, 0x80 + n % 0x40]
    else if n < 0x1_0000 then [0xE0 + q, 0x80 + p % 0x40, 0x80 + n % 0x40]
    else [0xF0 + q / 0x40, 0x80 + q % 0x40, 0x80 + p % 0x40, 0x80 + n % 0x40]
  }

  /** The leading byte says how many follow, and the bytes add up to the character. */
  predicate Decodes(b: seq<nat>, n: int) {
    && (forall i :: 1 <= i < |b| ==> 0x80 <= b[i] < 0xC0)
    && match |b|
       case 1 => b[0] < 0x80 && n == b[0]
       case 2 => 0xC2 <= b[0] < 0xE0 && n == 0x40 * (b[0] - 0xC0) + (b[1] - 0x80)
       case 3 => 0xE0 <= b[0] < 0xF0 && n == 0x1000 * (b[0] - 0xE0) + 0x40 * (b[1] - 0x80) + (b[2] - 0x80)
       case 4 =>
         && 0xF0 <= b[0] < 0xF5
         && n == 0x4_0000 * (b[0] - 0xF0) + 0x1000 * (b[1] - 0x80) + 0x40 * (b[2] - 0x80) + (b[3] - 0x80)
       case _ => false
  }

  lemma Utf8Decodes(c: char)
    ensures Decodes(Utf8(c), c as int)
  {
  }

  function Encoded(s: string): seq<nat> {
    if s == "" then [] else Encoded(s[..|s| - 1]) + Utf8(s[|s| - 1])
  }

  lemma {:induction false} ByteLengthExact(s: string)
    ensures ByteLength(s) == |Encoded(s)|
  {
    if s != "" { ByteLengthExact(s[..|s| - 1]); }
  }

  /** Flows whose command carries a reference: all but fees and adjustments. */
  predicate Annotates(f: F.Flow) {
    !f.TradingFee? && !f.AdminAdjustment? && !f.InternalTransfer?
  }

  /** The reference that ends up in the description, if any. */
  function Note(cmd: Command): string {
    if cmd.Perform? && Annotates(cmd.flow) && cmd.reference.Some? then Trim(cmd.reference.value) else ""
  }

  /** The texts a command carries are present where required and within bounds. */
  predicate TextsFit(cmd: Command) {
    match cmd
    case SubmitJournal(description, _) =>
      Trim(description) != "" && ByteLength(Trim(description)) <= MAX_DESCRIPTION_LEN
    case Perform(f, _, actor) =>
      && ByteLength(Note(cmd)) <= MAX_REFERENCE_LEN
      && (f.WithdrawalRejection? ==> Note(cmd) != "")
      && (f.AdminAdjustment? ==> Trim(actor) != "" && Trim(f.reason) != "" && ByteLength(f.reason) <= MAX_REASON_LEN)
  }

  /** The description under which a command is posted. */
  function Described(cmd: Command): string {
    match cmd
    case SubmitJournal(description, _) => Trim(description)
    case Perform(f, _, _) => F.Description(f) + if Note(cmd) == "" then "" else ": " + Note(cmd)
  }

  /** `annotate`: append the trimmed reference to the description. */
  method Annotate(entry: JournalEntry, reference: Option<string>) returns (r: Result<JournalEntry, LedgerError>)
    ensures var note := if reference.Some? then Trim(reference.value) else "";
            && (r.Ok? <==> ByteLength(note) <= MAX_REFERENCE_LEN)
            && (r.Ok? ==> r.value == entry.(description := entry.description + if note == "" then "" else ": " + note))
  {
    if reference.None? || Trim(reference.value) == "" {
      assert entry.description + "" == entry.description;
      return Ok(entry);
    }
    var note := Trim(reference.value);
    if ByteLength(note) > MAX_REFERENCE_LEN { return Err(Validation); }
    r := Ok(entry.(description := entry.description + ": " + note));
    assert entry.description + ": " + note == entry.description + (": " + note);
  }

  /** `AuditMetadata::new`. */
  method CheckAudit(actor: string, reason: string) returns (r: Result<(), DomainError>)
    ensures r.Ok? <==> Trim(actor) != "" && Trim(reason) != "" && ByteLength(reason) <= MAX_REASON_LEN
    ensures Trim(actor) == "" ==> r == Err(InvalidAudit)
    ensures Trim(actor) != "" && Trim(reason) == "" ==> r == Err(MissingAdjustmentReason)
    ensures Trim(actor) != "" && Trim(reason) != "" && r.Err? ==> r == Err(InvalidAudit)
  {
    if Trim(actor) == "" { return Err(InvalidAudit); }
    if Trim(reason) == "" { return Err(MissingAdjustmentReason); }
    if ByteLength(reason) > MAX_REASON_LEN { return Err(InvalidAudit); }
    r := Ok(());
  }

  // ---- building entries -----------------------------------------------------

  /** A command the builder turns into an entry: a submission balances as given, a flow has
      postings, on different cells where it must, and the texts fit. */
  ghost predicate Buildable(cmd: Command) {
    && TextsFit(cmd)
    && match cmd
       case SubmitJournal(_, legs) =>
         (forall i :: 0 <= i < |legs| ==> legs[i].amount != 0) && exists ps :: Spells(ps, legs) && Balanced(ps)
       case Perform(f, _, _) =>
         F.FlowPostings(f).Ok? && (NeedsDistinct(f) ==> DistinctCells(F.FlowPostings(f).value))
  }

  method BuildSubmission(description: string, legs: seq<Leg>, id: TransactionId, key: string, now: Time)
    returns (r: Result<JournalEntry, LedgerError>)
    ensures r.Ok? <==> Buildable(SubmitJournal(description, legs))
    ensures r.Ok? ==> r.value == JournalEntry(id, key, Trim(description), r.value.postings, now)
    ensures r.Ok? ==> Spells(r.value.postings, legs) && Balanced(r.value.postings)
  {
    var text := Trim(description);
    if text == "" || ByteLength(text) > MAX_DESCRIPTION_LEN { return Err(Validation); }
    var ps := RawPostings(legs);
    if ps.Err? { return Err(Domain(ps.error)); }
    forall qs | Spells(qs, legs) ensures qs == ps.value { SpellsOnce(ps.value, qs, legs); }
    var made := MakeEntry(id, key, text, ps.value, now);
    r := if made.Err? then Err(Domain(made.error)) else Ok(made.value);
  }

  method BuildFlow(flow: F.Flow, reference: Option<string>, actor: string, id: TransactionId, key: string, now: Time)
    returns (r: Result<JournalEntry, LedgerError>)
    ensures r.Ok? <==> Buildable(Perform(flow, reference, actor))
    ensures r.Ok? ==>
              r.value == JournalEntry(id, key, Described(Perform(flow, reference, actor)), r.value.postings, now)
    ensures r.Ok? ==> F.FlowPostings(flow) == Ok(r.value.postings) && Balanced(r.value.postings)
  {
    F.FlowTotal(flow);
    if NeedsDistinct(flow) && F.PositiveAmounts(flow) { DistinctExactly(flow); }
    if flow.TradeSettlement? && flow.base == flow.quote { return Err(Validation); }
    if flow.TradeSettlement? && flow.buyer == flow.seller { return Err(Validation); }
    if flow.AdminAdjustment? && flow.from == flow.to { return Err(Validation); }
    if flow.WithdrawalRejection? && (reference.None? || Trim(reference.value) == "") { return Err(Validation); }
    if flow.AdminAdjustment? {
      var audit := CheckAudit(actor, flow.reason);
      if audit.Err? { return Err(Domain(audit.error)); }
    }
    var made := F.IntoEntry(flow, id, key, now);
    if made.Err? { return Err(Domain(made.error)); }
    var noted := || flow.ConfirmedDeposit? || flow.WithdrawalRequest? || flow.WithdrawalCompletion?
                 || flow.WithdrawalRejection? || flow.TradeSettlement?;
    r := Annotate(made.value, if noted then reference else None);
  }

  /** Payloads beside the entry: the audit trail of an adjustment. */
  function Extra(cmd: Command, id: TransactionId): seq<Payload> {
    if cmd.Perform? && cmd.flow.AdminAdjustment? then [AdminAdjusted(id)] else []
  }

  /** The `build` closures of the command handlers. */
  method Build(cmd: Command, id: TransactionId, key: string, now: Time)
    returns (r: Result<JournalEntry, LedgerError>, extra: seq<Payload>)
    ensures r.Ok? <==> Buildable(cmd)
    ensures r.Ok? ==> r.value == JournalEntry(id, key, Described(cmd), r.value.postings, now)
    ensures r.Ok? ==> Asked(cmd, r.value.postings) && Balanced(r.value.postings)
    ensures extra == if r.Ok? then Extra(cmd, id) else []
  {
    extra := [];
    match cmd
    case SubmitJournal(description, legs) =>
      r := BuildSubmission(description, legs, id, key, now);
    case Perform(flow, reference, actor) =>
      r := BuildFlow(flow, reference, actor, id, key, now);
      if r.Ok? && flow.AdminAdjustment? { extra := [AdminAdjusted(id)]; }
  }

  lemma SpellsOnce(ps: seq<Posting>, qs: seq<Posting>, legs: seq<Leg>)
    requires Spells(ps, legs) && Spells(qs, legs)
    ensures qs == ps
  {
    forall i | 0 <= i < |ps| ensures qs[i] == ps[i] {
      assert ps[i].Cell() == qs[i].Cell() && ps[i].amount == qs[i].amount;
    }
  }

  /** The events carry these payloads in order. */
  predicate Carries(events: seq<Event>, payloads: seq<Payload>) {
    |events| == |payloads| && forall i :: 0 <= i < |events| ==> events[i].payload == payloads[i]
  }

  /** Event ids drawn for one command. */
  predicate FreshIds(outbox: seq<Row>, ids: seq<EventId>) {
    && (forall i, j :: 0 <= i < j < |ids| ==> ids[i] != ids[j])
    && (forall i :: 0 <= i < |ids| ==> !Recorded(outbox, ids[i]))
  }

  /** Wrap the entry and the extra payloads into events and add the idempotency record:
      what the step machine calls a draft. */
  method Prepare(slot: Slot, hash: string, entry: JournalEntry, extra: seq<Payload>, ids: seq<EventId>, now: Time,
                 ghost outbox: seq<Row>)
    returns (c: JournalCommit)
    requires Balanced(entry.postings) && |ids| == 1 + |extra| && FreshIds(outbox, ids)
    requires forall i :: 0 <= i < |extra| ==> !extra[i].JournalPosted?
    ensures Drafts(Handler(slot, hash, false, Phase.Build), c) && c.entry == entry && c.record.createdAt == now
    ensures Carries(c.events, [JournalPosted(entry)] + extra) && Fresh(outbox, c.events)
  {
    var events := [Event(ids[0], JournalPosted(entry), now)];
    assert events[..0] == [] && JournalsOf(events) == [] + [entry];
    for i := 0 to |extra|
      invariant |events| == i + 1 && JournalsOf(events) == [entry]
      invariant forall j :: 0 <= j <= i ==> events[j].id == ids[j]
      invariant Carries(events, [JournalPosted(entry)] + extra[..i])
    {
      var e := Event(ids[i + 1], extra[i], now);
      SnocInit(events, e);
      events := events + [e];
    }
    assert extra[..|extra|] == extra;
    var response := EntryPosted(entry.id, entry.description, entry.createdAt);
    c := JournalCommit(entry, events, Record(slot, hash, response, now));
  }

  /** Answer from the record of a key, if there is one. */
  function Remembered(db: Db, slot: Slot, hash: string): Option<Result<Outcome, LedgerError>> {
    if slot !in db.idempotency then None
    else
      var replay := ReplayRecord(db.idempotency[slot], hash, false);
      Some(if replay.Ok? then Ok(Outcome(replay.value, true)) else Err(replay.error))
  }

  /** `require_record`: the answer read again after a duplicate outcome. */
  function Reread(known: Option<Result<Outcome, LedgerError>>): Result<Outcome, LedgerError> {
    match known case Some(answer) => answer case None => Err(RecordVanished)
  }

  /** Commit, and answer by the outcome: afresh, from the record that won, or with the error. */
  method Submit(ledger: InMemoryLedger, c: JournalCommit, hash: string) returns (r: Result<Outcome, LedgerError>)
    modifies ledger
    ensures var (outcome, db) := CommitJournal(old(ledger.Snapshot()), c);
            && ledger.Snapshot() == db
            && r == match outcome
                    case Ok(Committed) => Ok(Outcome(c.record.response, false))
                    case Ok(DuplicateIdempotencyKey) => Reread(Remembered(db, c.record.slot, hash))
                    case Err(e) => Err(e)
  {
    var outcome := ledger.Commit(c);
    match outcome
    case Ok(Committed) => r := Ok(Outcome(c.record.response, false));
    case Ok(DuplicateIdempotencyKey) => r := Reread(Remembered(ledger.Snapshot(), c.record.slot, hash));
    case Err(e) => r := Err(e);
  }

  /** The store can take the command's entry, and its net deltas fit. */
  ghost predicate Postable(db: Db, cmd: Command, ps: seq<Posting>) {
    Asked(cmd, ps) && RunningFits(map[], ps) && Admissible(db.accounts, db.balances, ps)
  }

  /** Why a command that builds is not posted: the guard's finding, or the store's. */
  ghost predicate Refuses(db: Db, ps: seq<Posting>, e: LedgerError) {
    Explains(db.accounts, db.balances, ps, e) || ApplyAll(db.accounts, db.balances, ps) == Err(e)
  }

  ghost predicate RefusedFor(db: Db, cmd: Command, e: LedgerError) {
    exists ps :: Asked(cmd, ps) && Refuses(db, ps, e)
  }

  /** The fresh part of `post_entry`: build, guard, commit. */
  method PostFresh(ledger: InMemoryLedger, slot: Slot, hash: string, cmd: Command,
                   id: TransactionId, ids: seq<EventId>, now: Time)
    returns (r: Result<Outcome, LedgerError>, ghost posted: Option<JournalCommit>)
    requires |ids| >= 2 && FreshIds(ledger.outbox, ids) && slot !in ledger.idempotency
    modifies ledger
    ensures r.Ok? <==> Buildable(cmd) && exists ps :: Postable(old(ledger.Snapshot()), cmd, ps)
    ensures r.Err? ==> ledger.Snapshot() == old(ledger.Snapshot())
    ensures r.Err? && Buildable(cmd) ==> RefusedFor(old(ledger.Snapshot()), cmd, r.error)
    ensures r.Ok? ==>
              && posted.Some? && var c := posted.value;
              && Proper(old(ledger.outbox), c) && Asked(cmd, c.entry.postings)
              && Carries(c.events, [JournalPosted(c.entry)] + Extra(cmd, id))
              && c.entry == JournalEntry(id, slot.key, Described(cmd), c.entry.postings, now)
              && c.record == Record(slot, hash, r.value.response, now)
              && r.value == Outcome(EntryPosted(id, Described(cmd), now), false)
              && (Ok(Committed), ledger.Snapshot()) == CommitJournal(old(ledger.Snapshot()), c)
  {
    posted := None;
    var entry, extra := Build(cmd, id, slot.key, now);
    if entry.Err? { return Err(entry.error), posted; }
    PostableExactly(ledger.Snapshot(), cmd, entry.value.postings);
    var guarded := GuardPostings(ledger.accounts, ledger.balances, entry.value.postings);
    if guarded.Err? {
      assert Refuses(ledger.Snapshot(), entry.value.postings, guarded.error);
      return Err(guarded.error), posted;
    }
    var c := Prepare(slot, hash, entry.value, extra, ids[..1 + |extra|], now, ledger.outbox);
    posted := Some(c);
    ghost var db := ledger.Snapshot();
    r := Submit(ledger, c, hash);
    if r.Err? { assert Refuses(db, entry.value.postings, r.error); }
  }

  /** `post_entry` without interference. A key already used is answered from its record and
      changes nothing; an error changes nothing; otherwise the command posts exactly when its
      deltas fit and every running balance is admissible, so the guard costs nothing but
      delta overflow, and the store then moves by that one commit. */
  method PostEntry(ledger: InMemoryLedger, slot: Slot, hash: string, cmd: Command,
                   id: TransactionId, ids: seq<EventId>, now: Time)
    returns (r: Result<Outcome, LedgerError>, ghost posted: Option<JournalCommit>)
    requires |ids| >= 2 && FreshIds(ledger.outbox, ids)
    modifies ledger
    ensures Remembered(old(ledger.Snapshot()), slot, hash).Some? ==>
              r == Remembered(old(ledger.Snapshot()), slot, hash).value && ledger.Snapshot() == old(ledger.Snapshot())
    ensures slot in old(ledger.idempotency) && old(ledger.idempotency)[slot].hash == hash
            && old(ledger.idempotency)[slot].response.EntryPosted? ==>
              r == Ok(Outcome(old(ledger.idempotency)[slot].response, true))
    ensures slot in old(ledger.idempotency) && old(ledger.idempotency)[slot].hash != hash ==>
              r == Err(IdempotencyConflict(old(ledger.idempotency)[slot].slot))
    ensures r.Err? ==> ledger.Snapshot() == old(ledger.Snapshot())
    ensures slot !in old(ledger.idempotency) ==>
              (r.Ok? <==> Buildable(cmd) && exists ps :: Postable(old(ledger.Snapshot()), cmd, ps))
    ensures slot !in old(ledger.idempotency) && r.Err? && Buildable(cmd) ==>
              RefusedFor(old(ledger.Snapshot()), cmd, r.error)
    ensures slot !in old(ledger.idempotency) && r.Ok? ==>
              && posted.Some? && var c := posted.value;
              && Proper(old(ledger.outbox), c) && Asked(cmd, c.entry.postings)
              && Carries(c.events, [JournalPosted(c.entry)] + Extra(cmd, id))
              && c.entry == JournalEntry(id, slot.key, Described(cmd), c.entry.postings, now)
              && c.record == Record(slot, hash, r.value.response, now)
              && r.value == Outcome(EntryPosted(id, Described(cmd), now), false)
              && (Ok(Committed), ledger.Snapshot()) == CommitJournal(old(ledger.Snapshot()), c)
    ensures Sound(old(ledger.Snapshot())) ==> Sound(ledger.Snapshot())
  {
    posted := None;
    var known := Remembered(ledger.Snapshot(), slot, hash);
    if known.Some? { return known.value, posted; }
    ghost var db := ledger.Snapshot();
    r, posted := PostFresh(ledger, slot, hash, cmd, id, ids, now);
    if r.Ok? && Sound(db) { CommitKeepsSound(db, posted.value); }
  }

  /** Passing the guard and then the authority is being postable. */
  lemma PostableExactly(db: Db, cmd: Command, ps: seq<Posting>)
    requires Asked(cmd, ps)
    ensures Accepts(db.accounts, db.balances, ps) && ApplyAll(db.accounts, db.balances, ps).Ok?
       <==> exists qs :: Postable(db, cmd, qs)
  {
    forall qs | Asked(cmd, qs) ensures qs == ps { AskedOnce(cmd, ps, qs); }
    ApplyAllExact(db.accounts, db.balances, ps);
    if Admissible(db.accounts, db.balances, ps) { AdmissibleIsAccepted(db.accounts, db.balances, ps); }
    assert Postable(db, cmd, ps) <==> exists qs :: Postable(db, cmd, qs);
  }

  lemma AskedOnce(cmd: Command, ps: seq<Posting>, qs: seq<Posting>)
    requires Asked(cmd, ps) && Asked(cmd, qs)
    ensures qs == ps
  {
    if cmd.SubmitJournal? { SpellsOnce(ps, qs, cmd.legs); }
  }
}
