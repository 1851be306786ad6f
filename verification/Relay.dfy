/** One uninterrupted relay tick (crates/event-bus/src/relay.rs:74-107): claim a batch, publish
    it message by message, give back what failed and mark the rest. Crashes and concurrent
    ticks are steps of the whole system in `System`. */
module Relay {
  import opened Amounts
  import opened Store
  import opened Invariants
  import opened MemoryLedger
  import opened Leases

  /** What publishing one message came to; a lost reply was accepted all the same. */
  datatype Reply = Acknowledged | Lost | Rejected

  class Broker {
    var accepted: seq<Event>

    constructor ()
      ensures accepted == []
    {
      accepted := [];
    }

    method Publish(e: Event, reply: Reply) returns (ok: bool)
      modifies this
      ensures accepted == if reply == Rejected then old(accepted) else old(accepted) + [e]
      ensures ok == (reply == Acknowledged)
    {
      if reply != Rejected { accepted := accepted + [e]; }
      ok := reply == Acknowledged;
    }
  }

  const PUBLISH_FAILED := "publish failed"

  /** Rank of a row among the claimable ones before it: its place in the batch. */
  function Place(rows: seq<Row>, now: Time, i: nat): nat
    requires i < |rows|
  {
    |Ready(rows[..i], now)|
  }

  /** A row after the first `m` messages of its batch were handled and, at the end, the
      acknowledged ones marked at `marked`. */
  function Settled(rows: seq<Row>, limit: nat, now: Time, until: Time, replies: nat -> Reply, m: nat,
                   marked: Option<Time>, i: nat): Row
    requires i < |rows|
  {
    var row := rows[i];
    if !Claims(rows, limit, now, i) then row
    else
      var reply := replies(Place(rows, now, i));
      if Place(rows, now, i) >= m then row.(leasedUntil := Some(until))
      else if reply != Acknowledged then
        row.(attempts := row.attempts + 1, lastError := Some(PUBLISH_FAILED), leasedUntil := None)
      else if marked.Some? then row.(publishedAt := marked, leasedUntil := None)
      else row.(leasedUntil := Some(until))
  }

  /** Events of a batch that reached the broker, in order. */
  function Reached(batch: seq<Row>, replies: nat -> Reply): seq<Event> {
    if batch == [] then []
    else
      var n := |batch| - 1;
      Reached(batch[..n], replies) + if replies(n) == Rejected then [] else [batch[n].event]
  }

  /** A claimed row stands at its place in the batch. */
  lemma PlaceInBatch(rows: seq<Row>, limit: nat, now: Time, i: nat)
    requires i < |rows| && Claims(rows, limit, now, i)
    ensures Place(rows, now, i) < |Claimed(rows, limit, now)|
            && Claimed(rows, limit, now)[Place(rows, now, i)] == rows[i]
  {
    ReadyPrefix(rows, now, i + 1);
    assert rows[..i + 1][..i] == rows[..i];
  }

  /** And every message of the batch comes from exactly one claimed row. */
  lemma RowOfPlace(rows: seq<Row>, limit: nat, now: Time, m: nat) returns (i: nat)
    requires IdsAscend(rows) && m < |Claimed(rows, limit, now)|
    ensures i < |rows| && Claims(rows, limit, now, i) && Place(rows, now, i) == m
            && rows[i] == Claimed(rows, limit, now)[m]
  {
    ClaimExact(rows, limit, now);
    var batch := Claimed(rows, limit, now);
    assert batch[m] in rows;
    i :| 0 <= i < |rows| && rows[i] == batch[m];
    PlaceInBatch(rows, limit, now, i);
  }

  /** `out` is `rows` after `m` handled messages; `ids` are those acknowledged. */
  ghost predicate Handled(rows: seq<Row>, out: seq<Row>, limit: nat, now: Time, until: Time, replies: nat -> Reply,
                          m: nat, ids: seq<nat>) {
    && |out| == |rows|
    && (forall i :: 0 <= i < |rows| ==> out[i] == Settled(rows, limit, now, until, replies, m, None, i))
    && (forall i :: 0 <= i < |rows| ==>
          (rows[i].id in ids <==>
           Claims(rows, limit, now, i) && Place(rows, now, i) < m && replies(Place(rows, now, i)) == Acknowledged))
  }

  /** Which row the next message is about. */
  lemma OnlyRowAt(rows: seq<Row>, limit: nat, now: Time, m: nat, i: nat)
    requires IdsAscend(rows) && m < |Claimed(rows, limit, now)| && i < |rows|
    ensures rows[i].id == Claimed(rows, limit, now)[m].id <==> Claims(rows, limit, now, i) && Place(rows, now, i) == m
  {
    var j := RowOfPlace(rows, limit, now, m);
    if Claims(rows, limit, now, i) { PlaceInBatch(rows, limit, now, i); }
  }

  lemma AcknowledgeStep(rows: seq<Row>, out: seq<Row>, limit: nat, now: Time, until: Time, replies: nat -> Reply,
                        m: nat, ids: seq<nat>)
    requires IdsAscend(rows) && m < |Claimed(rows, limit, now)| && replies(m) == Acknowledged
    requires Handled(rows, out, limit, now, until, replies, m, ids)
    ensures Handled(rows, out, limit, now, until, replies, m + 1, ids + [Claimed(rows, limit, now)[m].id])
  {
    forall i | 0 <= i < |rows|
      ensures rows[i].id == Claimed(rows, limit, now)[m].id <==> Claims(rows, limit, now, i) && Place(rows, now, i) == m
    {
      OnlyRowAt(rows, limit, now, m, i);
    }
  }

  lemma FailStep(rows: seq<Row>, out: seq<Row>, limit: nat, now: Time, until: Time, replies: nat -> Reply, m: nat,
                 ids: seq<nat>)
    requires IdsAscend(rows) && m < |Claimed(rows, limit, now)| && replies(m) != Acknowledged
    requires Handled(rows, out, limit, now, until, replies, m, ids)
    ensures Handled(rows, MarkFailedRows(out, Claimed(rows, limit, now)[m].id, PUBLISH_FAILED),
                    limit, now, until, replies, m + 1, ids)
  {
    var id := Claimed(rows, limit, now)[m].id;
    forall i | 0 <= i < |rows|
      ensures FirstWithId(out, id, i) <==> Claims(rows, limit, now, i) && Place(rows, now, i) == m
    {
      OnlyRowAt(rows, limit, now, m, i);
      assert forall j :: 0 <= j < i ==> out[j].id == rows[j].id;
    }
  }

  lemma MarkStep(rows: seq<Row>, out: seq<Row>, limit: nat, now: Time, until: Time, replies: nat -> Reply, m: nat,
                 ids: seq<nat>, at: Time)
    requires Handled(rows, out, limit, now, until, replies, m, ids)
    ensures forall i :: 0 <= i < |rows| ==>
              MarkPublishedRows(out, ids, at)[i] == Settled(rows, limit, now, until, replies, m, Some(at), i)
  {
  }

  function IsPublished(): Row -> bool {
    (row: Row) => row.publishedAt.Some?
  }

  lemma {:induction false} SameCount(a: seq<Row>, b: seq<Row>)
    requires |a| == |b| && forall i :: 0 <= i < |a| ==> a[i].publishedAt.Some? == b[i].publishedAt.Some?
    ensures CountWhere(a, IsPublished()) == CountWhere(b, IsPublished())
  {
    if a != [] { SameCount(a[..|a| - 1], b[..|b| - 1]); }
  }

  lemma {:induction false} MarkCount(rows: seq<Row>, ids: seq<nat>, at: Time)
    ensures CountWhere(MarkPublishedRows(rows, ids, at), IsPublished())
            == CountWhere(rows, IsPublished()) + CountWhere(rows, (row: Row) => row.id in ids && row.publishedAt.None?)
  {
    if rows != [] {
      var n := |rows| - 1;
      MarkCount(rows[..n], ids, at);
      assert MarkPublishedRows(rows, ids, at)[..n] == MarkPublishedRows(rows[..n], ids, at);
    }
  }

  lemma ClaimStep(rows: seq<Row>, limit: nat, now: Time, until: Time, replies: nat -> Reply)
    ensures Handled(rows, ClaimRows(rows, limit, now, until), limit, now, until, replies, 0, [])
  {
  }

  /** Publish message `m` of the batch, or give its row back. */
  method PublishOne(ledger: InMemoryLedger, broker: Broker, message: Row, reply: Reply, published: seq<nat>)
    returns (published': seq<nat>)
    modifies ledger`outbox, broker
    ensures broker.accepted == old(broker.accepted) + if reply == Rejected then [] else [message.event]
    ensures if reply == Acknowledged then published' == published + [message.id] && ledger.outbox == old(ledger.outbox)
            else
              && published' == published
              && ledger.outbox == MarkFailedRows(old(ledger.outbox), message.id, PUBLISH_FAILED)
  {
    var ok := broker.Publish(message.event, reply);
    published' := published;
    if ok {
      published' := published + [message.id];
    } else {
      ledger.MarkFailed(message.id, PUBLISH_FAILED);
    }
  }

  lemma HandleStep(rows: seq<Row>, out: seq<Row>, out': seq<Row>, limit: nat, now: Time, until: Time,
                   replies: nat -> Reply, m: nat, ids: seq<nat>, ids': seq<nat>)
    requires IdsAscend(rows) && m < |Claimed(rows, limit, now)|
             && Handled(rows, out, limit, now, until, replies, m, ids)
    requires var id := Claimed(rows, limit, now)[m].id;
             if replies(m) == Acknowledged then ids' == ids + [id] && out' == out
             else ids' == ids && out' == MarkFailedRows(out, id, PUBLISH_FAILED)
    ensures Handled(rows, out', limit, now, until, replies, m + 1, ids')
  {
    if replies(m) == Acknowledged {
      AcknowledgeStep(rows, out, limit, now, until, replies, m, ids);
    } else {
      FailStep(rows, out, limit, now, until, replies, m, ids);
    }
  }

  /** The publishing loop of a tick. */
  method PublishBatch(ledger: InMemoryLedger, broker: Broker, messages: seq<Row>, replies: nat -> Reply,
                      ghost rows: seq<Row>, ghost limit: nat, ghost now: Time, ghost until: Time)
    returns (published: seq<nat>)
    requires IdsAscend(rows) && messages == Claimed(rows, limit, now)
             && ledger.outbox == ClaimRows(rows, limit, now, until)
    modifies ledger`outbox, broker
    ensures Handled(rows, ledger.outbox, limit, now, until, replies, |messages|, published)
    ensures broker.accepted == old(broker.accepted) + Reached(messages, replies)
  {
    published := [];
    ClaimStep(rows, limit, now, until, replies);
    for m := 0 to |messages|
      invariant Handled(rows, ledger.outbox, limit, now, until, replies, m, published)
      invariant broker.accepted == old(broker.accepted) + Reached(messages[..m], replies)
    {
      ghost var out, ids := ledger.outbox, published;
      assert messages[..m + 1][..m] == messages[..m];
      published := PublishOne(ledger, broker, messages[m], replies(m), published);
      HandleStep(rows, out, ledger.outbox, limit, now, until, replies, m, ids, published);
    }
    assert messages[..|messages|] == messages;
  }

  /** Mark what was acknowledged. */
  method MarkBatch(ledger: InMemoryLedger, published: seq<nat>, at: Time) returns (count: nat)
    modifies ledger`outbox
    ensures ledger.outbox == MarkPublishedRows(old(ledger.outbox), published, at)
    ensures count + CountWhere(old(ledger.outbox), IsPublished()) == CountWhere(ledger.outbox, IsPublished())
  {
    MarkCount(ledger.outbox, published, at);
    if published == [] {
      NothingToMark(ledger.outbox, at);
      return 0;
    }
    count := ledger.MarkPublished(published, at);
  }

  lemma NothingToMark(rows: seq<Row>, at: Time)
    ensures MarkPublishedRows(rows, [], at) == rows
  {
  }

  /** A tick settles every row of its batch and touches no other: an acknowledged message is
      marked published, any other is given back at once with one more attempt; what reached
      the broker is the batch in id order without the rejected messages; and the count is
      the growth in published rows. */
  method Tick(ledger: InMemoryLedger, broker: Broker, limit: nat, now: Time, lease: nat, at: Time,
              replies: nat -> Reply)
    returns (count: nat)
    requires IdsAscend(ledger.outbox)
    modifies ledger`outbox, broker
    ensures |ledger.outbox| == |old(ledger.outbox)|
    ensures var rows := old(ledger.outbox);
            forall i :: 0 <= i < |rows| ==>
              ledger.outbox[i] ==
              Settled(rows, limit, now, now + lease, replies, |Claimed(rows, limit, now)|, Some(at), i)
    ensures broker.accepted == old(broker.accepted) + Reached(Claimed(old(ledger.outbox), limit, now), replies)
    ensures count + CountWhere(old(ledger.outbox), IsPublished()) == CountWhere(ledger.outbox, IsPublished())
  {
    ghost var rows, until := ledger.outbox, now + lease;
    var messages := ledger.Claim(limit, now, lease);
    var published := PublishBatch(ledger, broker, messages, replies, rows, limit, now, until);
    SameCount(rows, ledger.outbox);
    MarkStep(rows, ledger.outbox, limit, now, until, replies, |messages|, published, at);
    count := MarkBatch(ledger, published, at);
  }

  /** A tick strands nothing: what it gave back can be claimed again at once, and what it
      published is out of every later batch. */
  lemma TickLeavesNothingStuck(rows: seq<Row>, limit: nat, now: Time, until: Time, replies: nat -> Reply, at: Time,
                               i: nat, later: Time)
    requires i < |rows| && Claims(rows, limit, now, i)
    ensures var row := Settled(rows, limit, now, until, replies, |Claimed(rows, limit, now)|, Some(at), i);
            if replies(Place(rows, now, i)) == Acknowledged then row.publishedAt == Some(at) && !Claimable(row, later)
            else Claimable(row, later) && row.attempts == rows[i].attempts + 1
  {
    PlaceInBatch(rows, limit, now, i);
  }
}
