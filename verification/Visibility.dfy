/** Reading the PostgreSQL outbox by cursor (crates/storage-postgres/src/projection.rs:186-215)
    while transactions are open: row ids are drawn before commit, so a row can become visible
    behind a cursor that has already passed it. */
module Visibility {
  import opened Sequences
  import opened Amounts
  import opened Store
  import opened Transactions

  /** An open transaction has drawn this id for a row that is not visible yet. */
  predicate Drawn(pg: Pg, id: int) {
    exists t :: t in pg.txns && DrewIn(pg.txns[t].rows, id)
  }

  predicate DrewIn(rows: seq<Row>, id: int) {
    exists j :: 0 <= j < |rows| && rows[j].id == id
  }

  // ---- drawn ids are behind the sequence ------------------------------------

  ghost predicate Bounded(pg: Pg) {
    forall id :: Drawn(pg, id) ==> id <= pg.db.nextOutboxId
  }

  lemma DrawnByOther(pg: Pg, pg': Pg, id: int) returns (t: nat)
    requires Drawn(pg', id)
    ensures t in pg'.txns && DrewIn(pg'.txns[t].rows, id)
    ensures t in pg.txns && pg'.txns[t].rows == pg.txns[t].rows ==> Drawn(pg, id)
  {
    t :| t in pg'.txns && DrewIn(pg'.txns[t].rows, id);
  }

  lemma StepKeepsBounded(pg: Pg, a: Action)
    requires Bounded(pg)
    ensures Bounded(Do(pg, a)) && pg.db.nextOutboxId <= Do(pg, a).db.nextOutboxId
  {
    var pg' := Do(pg, a);
    forall id | Drawn(pg', id) ensures id <= pg'.db.nextOutboxId { StepDraws(pg, a, id); }
  }

  /** A step draws at most the next value of the sequence. */
  lemma StepDraws(pg: Pg, a: Action, id: int)
    requires Drawn(Do(pg, a), id)
    ensures Drawn(pg, id) || id == pg.db.nextOutboxId + 1 == Do(pg, a).db.nextOutboxId
  {
    var pg' := Do(pg, a);
    var t := DrawnByOther(pg, pg', id);
    if a.Enqueue? && Can(pg, a) && a.txn == t {
      var rows := pg.txns[t].rows;
      var j :| 0 <= j < |pg'.txns[t].rows| && pg'.txns[t].rows[j].id == id;
      if j < |rows| { assert rows[j].id == id; assert DrewIn(pg.txns[t].rows, id); }
    }
  }

  lemma {:induction false} AlwaysBounded(seeded: Accounts, actions: seq<Action>)
    ensures Bounded(Exec(Start(seeded), actions))
  {
    if actions != [] {
      var n := |actions| - 1;
      AlwaysBounded(seeded, actions[..n]);
      StepKeepsBounded(Exec(Start(seeded), actions[..n]), actions[n]);
    }
  }

  // ---- what becomes visible later -------------------------------------------

  /** From `pg0` on: rows only join the visible outbox, and an id that `pg0` had already
      passed can only come from a transaction open then. */
  ghost predicate Follows(pg0: Pg, pg: Pg) {
    && Extends(pg0.db.outbox, pg.db.outbox)
    && pg0.db.nextOutboxId <= pg.db.nextOutboxId
    && (forall i :: |pg0.db.outbox| <= i < |pg.db.outbox| && pg.db.outbox[i].id <= pg0.db.nextOutboxId ==>
          Drawn(pg0, pg.db.outbox[i].id))
    && (forall id :: Drawn(pg, id) && id <= pg0.db.nextOutboxId ==> Drawn(pg0, id))
  }

  lemma CommitFollows(pg0: Pg, pg: Pg, t: nat)
    requires Follows(pg0, pg) && Can(pg, CommitTxn(t))
    ensures Follows(pg0, Do(pg, CommitTxn(t)))
  {
    var pg', rows := Do(pg, CommitTxn(t)), pg.txns[t].rows;
    assert pg'.db.outbox == pg.db.outbox + rows;
    forall i | |pg0.db.outbox| <= i < |pg'.db.outbox| && pg'.db.outbox[i].id <= pg0.db.nextOutboxId
      ensures Drawn(pg0, pg'.db.outbox[i].id)
    {
      if i >= |pg.db.outbox| {
        assert rows[i - |pg.db.outbox|].id == pg'.db.outbox[i].id;
        assert DrewIn(rows, pg'.db.outbox[i].id);
      }
    }
    forall id | Drawn(pg', id) && id <= pg0.db.nextOutboxId ensures Drawn(pg0, id) {
      StepDraws(pg, CommitTxn(t), id);
    }
  }

  lemma StepFollows(pg0: Pg, pg: Pg, a: Action)
    requires Follows(pg0, pg)
    ensures Follows(pg0, Do(pg, a))
  {
    if a.CommitTxn? && Can(pg, a) {
      CommitFollows(pg0, pg, a.txn);
    } else {
      forall id | Drawn(Do(pg, a), id) && id <= pg0.db.nextOutboxId ensures Drawn(pg0, id) { StepDraws(pg, a, id); }
    }
  }

  lemma {:induction false} ExecFollows(pg: Pg, later: seq<Action>)
    ensures Follows(pg, Exec(pg, later))
  {
    if later != [] {
      var n := |later| - 1;
      ExecFollows(pg, later[..n]);
      StepFollows(pg, Exec(pg, later[..n]), later[n]);
    }
  }

  /** Exactly which rows can be missed: of the rows that become visible after a state, those
      whose id the sequence had already passed are those an open transaction had drawn. */
  lemma LateRows(seeded: Accounts, actions: seq<Action>, later: seq<Action>, i: nat)
    requires var pg := Exec(Start(seeded), actions);
             |pg.db.outbox| <= i < |Exec(pg, later).db.outbox|
    ensures var pg := Exec(Start(seeded), actions);
            var id := Exec(pg, later).db.outbox[i].id;
            id <= pg.db.nextOutboxId <==> Drawn(pg, id)
  {
    AlwaysBounded(seeded, actions);
    ExecFollows(Exec(Start(seeded), actions), later);
  }

  // ---- when a cursor is safe ------------------------------------------------

  /** No open transaction has drawn an id at or behind the cursor. */
  ghost predicate Safe(pg: Pg, cursor: nat) {
    forall id :: Drawn(pg, id) ==> id > cursor
  }

  /** In some continuation a row appears at or behind the cursor. */
  ghost predicate Misses(pg: Pg, cursor: nat, later: seq<Action>) {
    exists i :: |pg.db.outbox| <= i < |Exec(pg, later).db.outbox| && Exec(pg, later).db.outbox[i].id <= cursor
  }

  /** A transaction that only has outbox rows left can always finish: insert them, commit. */
  lemma {:induction false} Finish(pg: Pg, t: nat) returns (later: seq<Action>, rows: seq<Row>)
    requires t in pg.txns && pg.txns[t].Written() && |pg.txns[t].rows| <= |pg.txns[t].work.Events()|
    ensures pg.txns[t].rows <= rows && Exec(pg, later).db.outbox == pg.db.outbox + rows
    decreases |pg.txns[t].work.Events()| - |pg.txns[t].rows|
  {
    var x := pg.txns[t];
    if |x.rows| < |x.work.Events()| {
      var pg' := Do(pg, Enqueue(t));
      EnqueueShape(pg, t, Row(pg.db.nextOutboxId + 1, x.work.Events()[|x.rows|], 0, None, None, None));
      later, rows := Finish(pg', t);
      ExecCons(pg, Enqueue(t), later);
      later := [Enqueue(t)] + later;
    } else {
      later, rows := [CommitTxn(t)], x.rows;
      ExecCons(pg, CommitTxn(t), []);
      assert [CommitTxn(t)] + [] == later;
    }
  }

  lemma {:induction false} ExecCons(pg: Pg, a: Action, rest: seq<Action>)
    ensures Exec(pg, [a] + rest) == Exec(Do(pg, a), rest)
  {
    if rest == [] {
      ExecSingle(pg, a);
      assert [a] + rest == [a];
    } else {
      ExecCons(pg, a, rest[..|rest| - 1]);
      ConcatInit([a], rest);
    }
  }

  lemma ExecSingle(pg: Pg, a: Action)
    ensures Exec(pg, [a]) == Do(pg, a)
  {
    assert [a][..0] == [];
  }

  /** A cursor loses nothing, in any continuation, if and only if no open transaction has
      drawn an id at or behind it. */
  lemma SafeExactly(seeded: Accounts, actions: seq<Action>, pg: Pg, cursor: nat)
    requires pg == Exec(Start(seeded), actions) && cursor <= pg.db.nextOutboxId
    ensures Safe(pg, cursor) <==> forall later :: !Misses(pg, cursor, later)
  {
    if Safe(pg, cursor) {
      forall later ensures !Misses(pg, cursor, later) { ExecFollows(pg, later); }
    } else {
      var later := UnsafeMisses(seeded, actions, pg, cursor);
    }
  }

  lemma UnsafeMisses(seeded: Accounts, actions: seq<Action>, pg: Pg, cursor: nat) returns (later: seq<Action>)
    requires pg == Exec(Start(seeded), actions) && !Safe(pg, cursor)
    ensures Misses(pg, cursor, later)
  {
    var id :| Drawn(pg, id) && id <= cursor;
    var t :| t in pg.txns && DrewIn(pg.txns[t].rows, id);
    OpenQueue(seeded, actions, pg, t);
    var j :| 0 <= j < |pg.txns[t].rows| && pg.txns[t].rows[j].id == id;
    var rows;
    later, rows := Finish(pg, t);
    Appears(pg, Exec(pg, later), rows, j, cursor);
  }

  lemma OpenQueue(seeded: Accounts, actions: seq<Action>, pg: Pg, t: nat)
    requires pg == Exec(Start(seeded), actions) && t in pg.txns && pg.txns[t].rows != []
    ensures pg.txns[t].Written() && |pg.txns[t].rows| <= |pg.txns[t].work.Events()|
  {
    ExecKeepsInv(seeded, actions);
    assert TxnSound(pg.db, pg.txns[t]);
  }

  lemma Appears(pg: Pg, pg': Pg, rows: seq<Row>, j: nat, cursor: nat)
    requires j < |rows| && rows[j].id <= cursor && pg'.db.outbox == pg.db.outbox + rows
    ensures exists i :: |pg.db.outbox| <= i < |pg'.db.outbox| && pg'.db.outbox[i].id <= cursor
  {
    assert pg'.db.outbox[|pg.db.outbox| + j] == rows[j];
  }

  // ---- running statements one after another ----------------------------------

  lemma ThreeSteps(pg: Pg, a: Action, b: Action, c: Action)
    ensures Exec(pg, [a, b, c]) == Do(Do(Do(pg, a), b), c)
  {
    ExecCons(pg, a, [b, c]);
    ExecCons(Do(pg, a), b, [c]);
    ExecSingle(Do(Do(pg, a), b), c);
    assert [a] + [b, c] == [a, b, c] && [b] + [c] == [b, c];
  }

  lemma BeginRuns(pg: Pg, t: nat, w: Work)
    requires Can(pg, Begin(t, w)) && w.Stamp().slot !in pg.db.idempotency
    ensures Do(pg, Begin(t, w)) == pg.(txns := pg.txns[t := Txn(w, 0, map[], {}, false, [])])
  {
  }

  lemma EnqueueRuns(pg: Pg, txns: map<nat, Txn>, t: nat, x: Txn)
    requires pg.txns == txns[t := x] && x.Written() && x.rows == [] && |x.work.Events()| == 1
    ensures var id := pg.db.nextOutboxId + 1;
            var row := Row(id, x.work.Events()[0], 0, None, None, None);
            Do(pg, Enqueue(t)) == pg.(db := pg.db.(nextOutboxId := id), txns := txns[t := x.(rows := [row])])
  {
    var row := Row(pg.db.nextOutboxId + 1, x.work.Events()[0], 0, None, None, None);
    EnqueueShape(pg, t, row);
    assert [] + [row] == [row];
    assert pg.txns[t := x.(rows := [row])] == txns[t := x.(rows := [row])];
  }

  lemma {:induction false} ExecConcat(pg: Pg, a: seq<Action>, b: seq<Action>)
    ensures Exec(pg, a + b) == Exec(Exec(pg, a), b)
  {
    if b == [] {
      assert a + b == a;
    } else {
      var n := |b| - 1;
      ExecConcat(pg, a, b[..n]);
      ConcatInit(a, b);
    }
  }
}
