/** The outbox lease machine over whole runs (crates/ledger/src/memory.rs:342-414). */
module Leases {
  import opened Amounts
  import opened Store
  import opened Invariants
  import opened MemoryLedger

  /** What no operation may do to a row: rename it, swap its event, or unpublish it. */
  predicate RowKept(row: Row, row': Row) {
    && SameMessage(row, row')
    && row'.attempts >= row.attempts
    && (row.publishedAt.Some? ==> row'.publishedAt == row.publishedAt)
  }

  predicate RowsKept(rows: seq<Row>, rows': seq<Row>) {
    |rows| <= |rows'| && forall i :: 0 <= i < |rows| ==> RowKept(rows[i], rows'[i])
  }

  lemma AppendsOnly(db: Db, op: Op)
    requires op.Commit? || op.Create? || op.PurgeBefore?
    ensures db.outbox <= Step(db, op).outbox
  {
    match op
    case Commit(c) => if Proper(db.outbox, c) { CommitShape(db, c); }
    case Create(c) => if ProperAccount(db, c) { CreateShape(db, c); }
    case PurgeBefore(_) =>
  }

  lemma StepKeepsRows(db: Db, op: Op)
    ensures RowsKept(db.outbox, Step(db, op).outbox)
  {
    if op.Commit? || op.Create? || op.PurgeBefore? { AppendsOnly(db, op); }
  }

  /** Rows are never lost, and a published row stays published with its timestamp. */
  lemma {:induction false} RowsPersist(db: Db, ops: seq<Op>)
    ensures RowsKept(db.outbox, Run(db, ops).outbox)
  {
    if ops != [] {
      RowsPersist(db, ops[..|ops| - 1]);
      StepKeepsRows(Run(db, ops[..|ops| - 1]), ops[|ops| - 1]);
    }
  }

  /** Out of reach for any relay whose clock reads before `until`. */
  predicate HeldUntil(row: Row, until: Time) {
    row.publishedAt.Some? || (row.leasedUntil.Some? && row.leasedUntil.value >= until)
  }

  lemma StepKeepsHold(db: Db, op: Op, i: nat, until: Time)
    requires i < |db.outbox| && HeldUntil(db.outbox[i], until)
    requires op.Fail? ==> op.id != db.outbox[i].id
    ensures i < |Step(db, op).outbox| && HeldUntil(Step(db, op).outbox[i], until)
  {
    if op.Commit? || op.Create? || op.PurgeBefore? { AppendsOnly(db, op); }
  }

  lemma {:induction false} HoldPersists(db: Db, ops: seq<Op>, i: nat, until: Time)
    requires i < |db.outbox| && HeldUntil(db.outbox[i], until)
    requires forall j :: 0 <= j < |ops| && ops[j].Fail? ==> ops[j].id != db.outbox[i].id
    ensures i < |Run(db, ops).outbox| && HeldUntil(Run(db, ops).outbox[i], until)
  {
    if ops != [] {
      var n := |ops| - 1;
      HoldPersists(db, ops[..n], i, until);
      RowsPersist(db, ops[..n]);
      StepKeepsHold(Run(db, ops[..n]), ops[n], i, until);
    }
  }

  /** Mutual exclusion: a row handed out at `now` is not handed out again, in any
      continuation and at any clock reading before the lease ends, unless its publication
      was reported as failed in between. */
  lemma LeaseExcludes(db: Db, limit: nat, now: Time, lease: nat, i: nat, ops: seq<Op>, limit': nat, now': Time)
    requires i < |db.outbox| && Claims(db.outbox, limit, now, i)
    requires forall j :: 0 <= j < |ops| && ops[j].Fail? ==> ops[j].id != db.outbox[i].id
    requires now' < now + lease
    ensures var rows := Run(Step(db, Claim(limit, now, lease)), ops).outbox;
            i < |rows| && rows[i].id == db.outbox[i].id && !Claims(rows, limit', now', i)
  {
    var held := Step(db, Claim(limit, now, lease));
    HoldPersists(held, ops, i, now + lease);
    RowsPersist(held, ops);
  }

  /** Once published, never claimed again. */
  lemma PublishedIsFinal(db: Db, ops: seq<Op>, i: nat, limit: nat, now: Time)
    requires i < |db.outbox| && db.outbox[i].publishedAt.Some?
    ensures var rows := Run(db, ops).outbox;
            i < |rows| && rows[i].publishedAt == db.outbox[i].publishedAt && !Claims(rows, limit, now, i)
  {
    RowsPersist(db, ops);
  }

  /** A claim for as many rows as there are takes every claimable one. */
  lemma LargeClaimTakes(rows: seq<Row>, i: nat, now: Time, limit: nat)
    requires i < |rows| && Claimable(rows[i], now) && limit >= |rows|
    ensures Claims(rows, limit, now, i) && rows[i] in Claimed(rows, limit, now)
  {
    ReadyBounded(rows[..i], now);
    ReadyBounded(rows, now);
    ReadyMembers(rows, now);
  }

  lemma {:induction false} ReadyBounded(rows: seq<Row>, now: Time)
    ensures |Ready(rows, now)| <= |rows|
  {
    if rows != [] { ReadyBounded(rows[..|rows| - 1], now); }
  }

  lemma {:induction false} ReadyMembers(rows: seq<Row>, now: Time)
    ensures forall row :: row in Ready(rows, now) <==> row in rows && Claimable(row, now)
  {
    if rows != [] {
      ReadyMembers(rows[..|rows| - 1], now);
      assert rows == rows[..|rows| - 1] + [rows[|rows| - 1]];
    }
  }

  lemma {:induction false} ReadyAscends(rows: seq<Row>, now: Time)
    requires IdsAscend(rows)
    ensures IdsAscend(Ready(rows, now))
  {
    if rows != [] {
      var n := |rows| - 1;
      ReadyAscends(rows[..n], now);
      ReadyMembers(rows[..n], now);
      var before := Ready(rows[..n], now);
      forall k | 0 <= k < |before| ensures before[k].id < rows[n].id {
        assert before[k] in rows[..n];
      }
    }
  }

  /** Exactness of `claim`: it returns claimable rows only, in id order, at most `limit`; it
      passes over a claimable row only when `limit` earlier ones were taken; and the rows it
      leases are the rows it returns. */
  lemma ClaimExact(rows: seq<Row>, limit: nat, now: Time)
    requires IdsAscend(rows)
    ensures var claimed := Claimed(rows, limit, now);
            && |claimed| <= limit
            && IdsAscend(claimed)
            && (forall row :: row in claimed ==> row in rows && Claimable(row, now))
            && (forall i :: 0 <= i < |rows| && Claimable(rows[i], now) && rows[i] !in claimed ==>
                  |claimed| == limit && forall row :: row in claimed ==> row.id < rows[i].id)
            && (forall i :: 0 <= i < |rows| ==> (Claims(rows, limit, now, i) <==> rows[i] in claimed))
  {
    var ready := Ready(rows, now);
    var claimed := Claimed(rows, limit, now);
    ReadyAscends(rows, now);
    ReadyMembers(rows, now);
    forall i | 0 <= i < |rows| && Claimable(rows[i], now)
      ensures rows[i] !in claimed ==> |claimed| == limit && forall row :: row in claimed ==> row.id < rows[i].id
      ensures Claims(rows, limit, now, i) <==> rows[i] in claimed
    {
      var at := |Ready(rows[..i], now)|;
      ReadyPrefix(rows, now, i + 1);
      assert rows[..i + 1][..i] == rows[..i];
      assert at < |ready| && ready[at] == rows[i];
    }
  }
}
