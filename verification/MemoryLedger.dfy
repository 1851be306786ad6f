/** The in-memory adapter (crates/ledger/src/memory.rs) as a mutable object: each method is
    proved to do to its fields what the corresponding `Store` function says. Where the adapter
    keeps an idempotency record on a name conflict, `Create` rolls it back as PostgreSQL does. */
module MemoryLedger {
  import opened Amounts
  import opened Order
  import opened Journal
  import opened Balances
  import S = Store
  import opened Store

  datatype OutboxStats = OutboxStats(
    pending: nat, published: nat, inFlight: nat, retrying: nat, oldestPendingAge: Option<nat>)

  function CountWhere(rows: seq<Row>, sel: Row -> bool): (n: nat)
    ensures n <= |rows|
  {
    if rows == [] then 0
    else CountWhere(rows[..|rows| - 1], sel) + if sel(rows[|rows| - 1]) then 1 else 0
  }

  /** A longer scan only adds rows at the end. */
  lemma {:induction false} ReadyPrefix(rows: seq<Row>, now: Time, i: nat)
    requires i <= |rows|
    ensures Ready(rows[..i], now) <= Ready(rows, now)
  {
    if i == |rows| {
      assert rows[..i] == rows;
    } else {
      ReadyPrefix(rows[..|rows| - 1], now, i);
      assert rows[..|rows| - 1][..i] == rows[..i];
    }
  }

  /** Time since a row was written, never negative. */
  function Age(row: Row, now: Time): nat {
    if now >= row.event.createdAt then now - row.event.createdAt else 0
  }

  predicate Usable(accounts: Accounts, p: Posting) {
    p.account in accounts && accounts[p.account].status == Active
  }

  /** The table a failure at posting `n` leaves: everything before it, and a zero row for the
      failing posting if its account was usable and had no row. */
  ghost predicate Interrupted(accounts: Accounts, t: Table, ps: seq<Posting>, n: int, left: Table) {
    && 0 <= n < |ps|
    && var mid := ApplyAll(accounts, t, ps[..n]);
    && mid.Ok? && ApplyOne(accounts, mid.value, ps[n]).Err?
    && left == if Usable(accounts, ps[n]) && ps[n].Cell() !in mid.value then mid.value[ps[n].Cell() := 0] else mid.value
  }

  class InMemoryLedger {
    var accounts: Accounts
    var entries: seq<JournalEntry>
    var balances: Table
    var idempotency: map<Slot, Record>
    var outbox: seq<Row>
    var nextOutboxId: nat

    function Snapshot(): Db
      reads this
    {
      Db(accounts, entries, balances, idempotency, outbox, nextOutboxId)
    }

    /** Empty storage apart from the seeded accounts. */
    constructor (seeded: Accounts)
      ensures Snapshot() == Db(seeded, [], map[], map[], [], 0)
    {
      accounts, entries, balances, idempotency, outbox, nextOutboxId := seeded, [], map[], map[], [], 0;
    }

    method RecordEvents(events: seq<Event>)
      modifies this`outbox, this`nextOutboxId
      ensures Snapshot() == S.RecordEvents(old(Snapshot()), events)
    {
      for i := 0 to |events|
        invariant Snapshot() == S.RecordEvents(old(Snapshot()), events[..i])
      {
        var e := events[i];
        assert events[..i + 1][..i] == events[..i];
        if !Recorded(outbox, e.id) {
          nextOutboxId := nextOutboxId + 1;
          outbox := outbox + [Row(nextOutboxId, e, 0, None, None, None)];
        }
      }
      assert events[..|events|] == events;
    }

    method InsertIdempotency(record: Record) returns (outcome: CommitOutcome)
      modifies this`idempotency
      ensures outcome == if record.slot in old(idempotency) then DuplicateIdempotencyKey else Committed
      ensures idempotency == if outcome.Committed? then old(idempotency)[record.slot := record] else old(idempotency)
    {
      if record.slot in idempotency { return DuplicateIdempotencyKey; }
      idempotency := idempotency[record.slot := record];
      outcome := Committed;
    }

    /** Read-modify-write of each posting's row. A failure leaves earlier postings, and the
        zero row created for the failing one, in place: undoing them is the caller's job. */
    method ApplyPostings(entry: JournalEntry) returns (r: Result<(), LedgerError>)
      modifies this`balances
      ensures var spec := ApplyAll(old(accounts), old(balances), entry.postings);
              if spec.Err? then r == Err(spec.error) else r == Ok(()) && balances == spec.value
      ensures r.Err? ==> exists n :: Interrupted(old(accounts), old(balances), entry.postings, n, balances)
    {
      ghost var start := balances;
      for i := 0 to |entry.postings|
        invariant ApplyAll(accounts, start, entry.postings[..i]) == Ok(balances)
      {
        var p := entry.postings[i];
        ghost var before := balances;
        assert entry.postings[..i + 1][..i] == entry.postings[..i];
        ghost var step := ApplyAll(accounts, start, entry.postings[..i + 1]);
        assert step == ApplyOne(accounts, before, p);
        if step.Err? { ApplyAllFailsEarly(accounts, start, entry.postings, i + 1); }
        ghost var left := if Usable(accounts, p) && p.Cell() !in before then before[p.Cell() := 0] else before;
        assert step.Err? ==> Interrupted(accounts, start, entry.postings, i, left);
        if p.account !in accounts { return Err(AccountNotFound(p.account)); }
        var account := accounts[p.account];
        if account.status != Active { return Err(Domain(AccountNotActive(p.account))); }
        if p.Cell() !in balances { balances := balances[p.Cell() := 0]; }
        var updated := CheckedAdd(balances[p.Cell()], p.amount);
        if updated.Err? { return Err(Domain(updated.error)); }
        if updated.value < 0 && account.policy == NonNegative {
          return Err(Domain(InsufficientBalance(p.account, p.asset, balances[p.Cell()], p.amount)));
        }
        balances := balances[p.Cell() := updated.value];
        assert balances == before[p.Cell() := updated.value];
      }
      assert entry.postings[..|entry.postings|] == entry.postings;
      r := Ok(());
    }

    method Commit(c: JournalCommit) returns (r: Result<CommitOutcome, LedgerError>)
      modifies this
      ensures (r, Snapshot()) == CommitJournal(old(Snapshot()), c)
    {
      ghost var records := idempotency;
      var inserted := InsertIdempotency(c.record);
      if inserted == DuplicateIdempotencyKey { return Ok(DuplicateIdempotencyKey); }
      var snapshot := balances;
      var applied := ApplyPostings(c.entry);
      if applied.Err? {
        balances := snapshot;
        idempotency := idempotency - {c.record.slot};
        assert idempotency == records;
        return Err(applied.error);
      }
      entries := entries + [c.entry];
      RecordEvents(c.events);
      r := Ok(Committed);
    }

    /** Opening an account; the idempotency record does not survive a name conflict, as in
        the PostgreSQL adapter. */
    method Create(c: AccountCommit) returns (r: Result<CommitOutcome, LedgerError>)
      modifies this
      ensures (r, Snapshot()) == CreateAccount(old(Snapshot()), c)
    {
      ghost var records := idempotency;
      var inserted := InsertIdempotency(c.record);
      if inserted == DuplicateIdempotencyKey { return Ok(DuplicateIdempotencyKey); }
      if NameTaken(accounts, c.account.name) {
        idempotency := idempotency - {c.record.slot};
        assert idempotency == records;
        return Err(Conflict(c.account.name));
      }
      accounts := accounts[c.account.id := c.account];
      RecordEvents(c.events);
      r := Ok(Committed);
    }

    method PurgeCreatedBefore(cutoff: Time) returns (removed: nat)
      modifies this`idempotency
      ensures Snapshot() == Purge(old(Snapshot()), cutoff)
      ensures forall s :: s in idempotency <==> s in old(idempotency) && cutoff <= old(idempotency)[s].createdAt
      ensures forall s :: s in idempotency ==> idempotency[s] == old(idempotency)[s]
      ensures removed == |old(idempotency)| - |idempotency|
    {
      ghost var before := Snapshot();
      var kept := map s | s in idempotency && idempotency[s].createdAt >= cutoff :: idempotency[s];
      assert kept == idempotency - Expired(before, cutoff);
      assert idempotency.Keys == kept.Keys + Expired(before, cutoff);
      removed := |idempotency| - |kept|;
      idempotency := kept;
    }

    method Claim(limit: nat, now: Time, lease: nat) returns (claimed: seq<Row>)
      modifies this`outbox
      ensures claimed == Claimed(old(outbox), limit, now)
      ensures outbox == ClaimRows(old(outbox), limit, now, now + lease)
    {
      ghost var rows := outbox;
      claimed := [];
      var i := 0;
      while i < |outbox| && |claimed| < limit
        invariant i <= |outbox| == |rows| && |claimed| <= limit
        invariant claimed == Ready(rows[..i], now)
        invariant forall j :: 0 <= j < i ==> outbox[j] == ClaimRows(rows, limit, now, now + lease)[j]
        invariant forall j :: i <= j < |rows| ==> outbox[j] == rows[j]
      {
        assert rows[..i + 1][..i] == rows[..i];
        if Claimable(outbox[i], now) {
          claimed := claimed + [outbox[i]];
          outbox := outbox[i := outbox[i].(leasedUntil := Some(now + lease))];
        }
        i := i + 1;
      }
      ReadyPrefix(rows, now, i);
      assert rows[..|rows|] == rows;
      forall j | i <= j < |rows| ensures !Claims(rows, limit, now, j) {
        ReadyPrefix(rows[..j], now, i);
        assert rows[..j][..i] == rows[..i];
      }
    }

    method MarkPublished(ids: seq<nat>, now: Time) returns (updated: nat)
      modifies this`outbox
      ensures outbox == MarkPublishedRows(old(outbox), ids, now)
      ensures updated == CountWhere(old(outbox), (row: Row) => row.id in ids && row.publishedAt.None?)
    {
      ghost var rows := outbox;
      ghost var sel := (row: Row) => row.id in ids && row.publishedAt.None?;
      updated := 0;
      for i := 0 to |outbox|
        invariant |outbox| == |rows|
        invariant updated == CountWhere(rows[..i], sel)
        invariant forall j :: 0 <= j < i ==> outbox[j] == MarkPublishedRows(rows, ids, now)[j]
        invariant forall j :: i <= j < |rows| ==> outbox[j] == rows[j]
      {
        assert rows[..i + 1][..i] == rows[..i];
        if outbox[i].id in ids && outbox[i].publishedAt.None? {
          outbox := outbox[i := outbox[i].(publishedAt := Some(now), leasedUntil := None)];
          updated := updated + 1;
        }
      }
      assert rows[..|rows|] == rows;
    }

    method MarkFailed(id: nat, error: string)
      modifies this`outbox
      ensures outbox == MarkFailedRows(old(outbox), id, error)
    {
      for i := 0 to |outbox|
        invariant outbox == old(outbox)
        invariant forall j :: 0 <= j < i ==> outbox[j].id != id
      {
        if outbox[i].id == id {
          var row := outbox[i];
          outbox := outbox[i := row.(attempts := row.attempts + 1, lastError := Some(error), leasedUntil := None)];
          return;
        }
      }
    }

    /** Counters partition the rows: each row is pending or published, and only pending rows
        are in flight or retrying. */
    method Stats(now: Time) returns (stats: OutboxStats)
      ensures stats.pending + stats.published == |outbox|
      ensures stats.published == CountWhere(outbox, (row: Row) => row.publishedAt.Some?)
      ensures stats.inFlight == CountWhere(outbox, (row: Row) => row.publishedAt.None? && Leased(row, now))
      ensures stats.retrying == CountWhere(outbox, (row: Row) => row.publishedAt.None? && row.attempts > 0)
      ensures stats.inFlight <= stats.pending && stats.retrying <= stats.pending
      ensures stats.oldestPendingAge.None? <==> stats.pending == 0
      ensures forall i :: 0 <= i < |outbox| && outbox[i].publishedAt.None? ==>
                stats.oldestPendingAge.Some? && stats.oldestPendingAge.value >= Age(outbox[i], now)
      ensures stats.oldestPendingAge.Some? ==>
                exists i :: 0 <= i < |outbox| && outbox[i].publishedAt.None?
                            && stats.oldestPendingAge.value == Age(outbox[i], now)
    {
      var pending, published, inFlight, retrying := 0, 0, 0, 0;
      var oldest: Option<Time> := None;
      for i := 0 to |outbox|
        invariant pending + published == i
        invariant published == CountWhere(outbox[..i], (row: Row) => row.publishedAt.Some?)
        invariant inFlight == CountWhere(outbox[..i], (row: Row) => row.publishedAt.None? && Leased(row, now))
        invariant retrying == CountWhere(outbox[..i], (row: Row) => row.publishedAt.None? && row.attempts > 0)
        invariant inFlight <= pending && retrying <= pending
        invariant oldest.None? <==> pending == 0
        invariant forall j :: 0 <= j < i && outbox[j].publishedAt.None? ==>
                    oldest.Some? && oldest.value <= outbox[j].event.createdAt
        invariant oldest.Some? ==>
                    exists j :: 0 <= j < i && outbox[j].publishedAt.None? && oldest.value == outbox[j].event.createdAt
      {
        var row := outbox[i];
        assert outbox[..i + 1][..i] == outbox[..i];
        if row.publishedAt.Some? {
          published := published + 1;
        } else {
          pending := pending + 1;
          if row.attempts > 0 { retrying := retrying + 1; }
          if Leased(row, now) { inFlight := inFlight + 1; }
          var created := row.event.createdAt;
          oldest := Some(if oldest.Some? && oldest.value <= created then oldest.value else created);
        }
      }
      assert outbox[..|outbox|] == outbox;
      var age := if oldest.None? then None else Some(if now - oldest.value >= 0 then now - oldest.value else 0);
      stats := OutboxStats(pending, published, inFlight, retrying, age);
    }

    /** `BalanceRepo::snapshot`: every row once, ordered by account and asset. */
    method BalanceSnapshot() returns (snapshot: seq<BalanceRecord>)
      ensures Lists(snapshot, balances) && Ascending(snapshot, RecordLt)
    {
      snapshot := ListRows(balances);
    }
  }
}
