/** A relay tick nobody disturbs, as steps of the system, does what the one-tick relay does
    (crates/event-bus/src/relay.rs:74-107). */
module TickProgress {
  import opened Sequences
  import opened Amounts
  import opened Store
  import opened System
  import R = Relay

  /** Handling one message: send it, and give its row back unless it was acknowledged. */
  function Handling(t: nat, reply: R.Reply): seq<Action> {
    match reply
    case Acknowledged => [Relay(t, Send(true, true))]
    case Lost => [Relay(t, Send(true, false)), Relay(t, ReportFailure(R.PUBLISH_FAILED, true))]
    case Rejected => [Relay(t, Send(false, false)), Relay(t, ReportFailure(R.PUBLISH_FAILED, true))]
  }

  /** The messages from `m` on. */
  function Sends(t: nat, replies: nat -> R.Reply, m: nat, n: nat): seq<Action>
    requires m <= n
    decreases n - m
  {
    if m == n then [] else Handling(t, replies(m)) + Sends(t, replies, m + 1, n)
  }

  /** A tick from claim to mark. */
  function TickSteps(t: nat, limit: nat, now: Time, lease: nat, at: Time, replies: nat -> R.Reply, n: nat)
    : seq<Action>
  {
    [Relay(t, ClaimBatch(limit, now, lease))] + (Sends(t, replies, 0, n) + [Relay(t, MarkBatch(at, true))])
  }

  /** The system with tick `t` in flight, these rows, and these further events at the broker. */
  function InFlight(s: Sys, t: nat, tick: Tick, rows: seq<Row>, events: seq<Event>): Sys {
    s.(db := s.db.(outbox := rows), ticks := s.ticks[t := tick], broker := s.broker + events)
  }

  lemma ExecTwo(s: Sys, a: Action, b: Action)
    ensures Exec(s, [a]) == Do(s, a) && Exec(s, [a, b]) == Do(Do(s, a), b)
  {
    assert [a][..0] == [] && [a, b][..1] == [a];
  }

  lemma SendStep(s: Sys, t: nat, tick: Tick, rows: seq<Row>, events: seq<Event>, accepted: bool, acknowledged: bool)
    requires tick.sent < |tick.messages| && !tick.failing && (acknowledged ==> accepted)
    ensures var m := tick.messages[tick.sent];
            Do(InFlight(s, t, tick, rows, events), Relay(t, Send(accepted, acknowledged))) ==
            InFlight(s, t, if acknowledged then tick.(sent := tick.sent + 1, published := tick.published + [m.id])
                           else tick.(failing := true),
                     rows, events + if accepted then [m.event] else [])
  {
    var m := tick.messages[tick.sent];
    Assoc(s.broker, events, [m.event]);
    assert events + [] == events;
    var tick' := if acknowledged then tick.(sent := tick.sent + 1, published := tick.published + [m.id])
                 else tick.(failing := true);
    assert s.ticks[t := tick][t := tick'] == s.ticks[t := tick'];
  }

  lemma FailureStep(s: Sys, t: nat, tick: Tick, rows: seq<Row>, events: seq<Event>)
    requires tick.sent < |tick.messages| && tick.failing
    ensures Do(InFlight(s, t, tick, rows, events), Relay(t, ReportFailure(R.PUBLISH_FAILED, true))) ==
            InFlight(s, t, tick.(sent := tick.sent + 1, failing := false),
                     MarkFailedRows(rows, tick.messages[tick.sent].id, R.PUBLISH_FAILED), events)
  {
    var tick' := tick.(sent := tick.sent + 1, failing := false);
    assert s.ticks[t := tick][t := tick'] == s.ticks[t := tick'];
  }

  /** The system after handling one more message. */
  function OneMore(s: Sys, t: nat, tick: Tick, rows: seq<Row>, events: seq<Event>, reply: R.Reply): Sys
    requires tick.sent < |tick.messages|
  {
    var m := tick.messages[tick.sent];
    InFlight(s, t, tick.(sent := tick.sent + 1,
                         published := tick.published + if reply == R.Acknowledged then [m.id] else []),
             if reply == R.Acknowledged then rows else MarkFailedRows(rows, m.id, R.PUBLISH_FAILED),
             events + if reply == R.Rejected then [] else [m.event])
  }

  /** One message handled: as `Relay.PublishOne` does it. */
  lemma HandlingStep(s: Sys, t: nat, tick: Tick, rows: seq<Row>, events: seq<Event>, reply: R.Reply)
    requires tick.sent < |tick.messages| && !tick.failing
    ensures Exec(InFlight(s, t, tick, rows, events), Handling(t, reply)) == OneMore(s, t, tick, rows, events, reply)
  {
    var s1 := InFlight(s, t, tick, rows, events);
    var accepted, acknowledged := reply != R.Rejected, reply == R.Acknowledged;
    ExecTwo(s1, Relay(t, Send(accepted, acknowledged)), Relay(t, ReportFailure(R.PUBLISH_FAILED, true)));
    SendStep(s, t, tick, rows, events, accepted, acknowledged);
    if !acknowledged {
      assert tick.published + [] == tick.published;
      FailureStep(s, t, tick.(failing := true), rows,
                  events + if accepted then [tick.messages[tick.sent].event] else []);
    }
  }

  /** Ids acknowledged among the first `n` messages, and the rows after handling them. */
  function IdsAfter(batch: seq<Row>, replies: nat -> R.Reply, n: nat): seq<nat>
    requires n <= |batch|
  {
    if n == 0 then []
    else IdsAfter(batch, replies, n - 1) + if replies(n - 1) == R.Acknowledged then [batch[n - 1].id] else []
  }

  function RowsAfter(claimed: seq<Row>, batch: seq<Row>, replies: nat -> R.Reply, n: nat): seq<Row>
    requires n <= |batch|
  {
    if n == 0 then claimed
    else
      var rows := RowsAfter(claimed, batch, replies, n - 1);
      if replies(n - 1) == R.Acknowledged then rows else MarkFailedRows(rows, batch[n - 1].id, R.PUBLISH_FAILED)
  }

  lemma {:induction false} SendsHandle(rows: seq<Row>, batch: seq<Row>, limit: nat, now: Time, until: Time,
                                       replies: nat -> R.Reply, n: nat)
    requires IdsAscend(rows) && batch == Claimed(rows, limit, now) && n <= |batch|
    ensures R.Handled(rows, RowsAfter(ClaimRows(rows, limit, now, until), batch, replies, n),
                      limit, now, until, replies, n, IdsAfter(batch, replies, n))
  {
    if n == 0 {
      R.ClaimStep(rows, limit, now, until, replies);
    } else {
      SendsHandle(rows, batch, limit, now, until, replies, n - 1);
      var claimed := ClaimRows(rows, limit, now, until);
      R.HandleStep(rows, RowsAfter(claimed, batch, replies, n - 1), RowsAfter(claimed, batch, replies, n),
                   limit, now, until, replies, n - 1, IdsAfter(batch, replies, n - 1), IdsAfter(batch, replies, n));
    }
  }

  /** The system after `n` messages. */
  function Sent(s: Sys, t: nat, claimed: seq<Row>, batch: seq<Row>, replies: nat -> R.Reply, n: nat): Sys
    requires n <= |batch|
  {
    InFlight(s, t, Tick(batch, n, false, IdsAfter(batch, replies, n)), RowsAfter(claimed, batch, replies, n),
             R.Reached(batch[..n], replies))
  }

  lemma SentNext(s: Sys, t: nat, claimed: seq<Row>, batch: seq<Row>, replies: nat -> R.Reply, n: nat)
    requires n < |batch|
    ensures OneMore(s, t, Tick(batch, n, false, IdsAfter(batch, replies, n)), RowsAfter(claimed, batch, replies, n),
                    R.Reached(batch[..n], replies), replies(n)) == Sent(s, t, claimed, batch, replies, n + 1)
  {
    assert batch[..n + 1][..n] == batch[..n];
  }

  lemma SentStep(s: Sys, t: nat, claimed: seq<Row>, batch: seq<Row>, replies: nat -> R.Reply, n: nat)
    requires n < |batch|
    ensures Exec(Sent(s, t, claimed, batch, replies, n), Handling(t, replies(n))) ==
            Sent(s, t, claimed, batch, replies, n + 1)
  {
    HandlingStep(s, t, Tick(batch, n, false, IdsAfter(batch, replies, n)), RowsAfter(claimed, batch, replies, n),
                 R.Reached(batch[..n], replies), replies(n));
    SentNext(s, t, claimed, batch, replies, n);
  }

  lemma {:induction false} SendsRun(s: Sys, t: nat, claimed: seq<Row>, batch: seq<Row>, replies: nat -> R.Reply, m: nat)
    requires m <= |batch|
    ensures Exec(Sent(s, t, claimed, batch, replies, m), Sends(t, replies, m, |batch|)) ==
            Sent(s, t, claimed, batch, replies, |batch|)
    decreases |batch| - m
  {
    if m < |batch| {
      ExecConcat(Sent(s, t, claimed, batch, replies, m), Handling(t, replies(m)), Sends(t, replies, m + 1, |batch|));
      SentStep(s, t, claimed, batch, replies, m);
      SendsRun(s, t, claimed, batch, replies, m + 1);
    }
  }

  lemma ClaimedStep(s: Sys, t: nat, limit: nat, now: Time, lease: nat, replies: nat -> R.Reply)
    requires t !in s.ticks
    ensures Do(s, Relay(t, ClaimBatch(limit, now, lease))) ==
            Sent(s, t, ClaimRows(s.db.outbox, limit, now, now + lease), Claimed(s.db.outbox, limit, now), replies, 0)
  {
    assert s.broker + [] == s.broker;
  }

  lemma MarkedStep(s: Sys, t: nat, claimed: seq<Row>, batch: seq<Row>, replies: nat -> R.Reply, at: Time)
    requires t !in s.ticks
    ensures Do(Sent(s, t, claimed, batch, replies, |batch|), Relay(t, MarkBatch(at, true))) ==
            Marked(s, claimed, batch, replies, at)
  {
    assert batch[..|batch|] == batch;
    var tick := Tick(batch, |batch|, false, IdsAfter(batch, replies, |batch|));
    assert s.ticks[t := tick] - {t} == s.ticks;
  }

  lemma TickSplit(s: Sys, t: nat, limit: nat, now: Time, lease: nat, at: Time, replies: nat -> R.Reply, n: nat)
    ensures Exec(s, TickSteps(t, limit, now, lease, at, replies, n)) ==
            Do(Exec(Do(s, Relay(t, ClaimBatch(limit, now, lease))), Sends(t, replies, 0, n)),
               Relay(t, MarkBatch(at, true)))
  {
    var claim, mark := Relay(t, ClaimBatch(limit, now, lease)), Relay(t, MarkBatch(at, true));
    ExecConcat(s, [claim], Sends(t, replies, 0, n) + [mark]);
    ExecOne(s, claim);
    ExecConcat(Do(s, claim), Sends(t, replies, 0, n), [mark]);
    ExecOne(Exec(Do(s, claim), Sends(t, replies, 0, n)), mark);
  }

  /** Every row settled by its reply, and the broker given what was not rejected. */
  ghost predicate Ticked(s: Sys, s': Sys, limit: nat, now: Time, until: Time, at: Time, replies: nat -> R.Reply,
                         batch: seq<Row>) {
    && |s'.db.outbox| == |s.db.outbox|
    && (forall i :: 0 <= i < |s.db.outbox| ==>
          s'.db.outbox[i] == R.Settled(s.db.outbox, limit, now, until, replies, |batch|, Some(at), i))
    && s' == s.(db := s.db.(outbox := s'.db.outbox), broker := s.broker + R.Reached(batch, replies))
  }

  /** The system once the tick is over. */
  function Marked(s: Sys, claimed: seq<Row>, batch: seq<Row>, replies: nat -> R.Reply, at: Time): Sys {
    s.(db := s.db.(outbox := MarkPublishedRows(RowsAfter(claimed, batch, replies, |batch|),
                                               IdsAfter(batch, replies, |batch|), at)),
       broker := s.broker + R.Reached(batch, replies))
  }

  lemma MarkedIsTicked(s: Sys, limit: nat, now: Time, until: Time, at: Time, replies: nat -> R.Reply,
                       batch: seq<Row>, s': Sys)
    requires IdsAscend(s.db.outbox) && batch == Claimed(s.db.outbox, limit, now)
    requires s' == Marked(s, ClaimRows(s.db.outbox, limit, now, until), batch, replies, at)
    ensures Ticked(s, s', limit, now, until, at, replies, batch)
  {
    var n, claimed := |batch|, ClaimRows(s.db.outbox, limit, now, until);
    SendsHandle(s.db.outbox, batch, limit, now, until, replies, n);
    R.MarkStep(s.db.outbox, RowsAfter(claimed, batch, replies, n), limit, now, until, replies, n,
               IdsAfter(batch, replies, n), at);
  }

  lemma TickRun(s: Sys, t: nat, limit: nat, now: Time, lease: nat, at: Time, replies: nat -> R.Reply,
                batch: seq<Row>)
    requires t !in s.ticks && batch == Claimed(s.db.outbox, limit, now)
    ensures Exec(s, TickSteps(t, limit, now, lease, at, replies, |batch|)) ==
            Marked(s, ClaimRows(s.db.outbox, limit, now, now + lease), batch, replies, at)
  {
    var claimed := ClaimRows(s.db.outbox, limit, now, now + lease);
    TickSplit(s, t, limit, now, lease, at, replies, |batch|);
    ClaimedStep(s, t, limit, now, lease, replies);
    SendsRun(s, t, claimed, batch, replies, 0);
    MarkedStep(s, t, claimed, batch, replies, at);
  }

  /** A tick that nothing interrupts, in any state with ascending row ids: every row of its batch
      is settled by what the broker replied and no other row changes, what reached the broker is
      the batch without the rejected messages, and the tick is over. */
  lemma TickSettles(s: Sys, t: nat, limit: nat, now: Time, lease: nat, at: Time, replies: nat -> R.Reply,
                    batch: seq<Row>)
    returns (s': Sys)
    requires t !in s.ticks && IdsAscend(s.db.outbox) && batch == Claimed(s.db.outbox, limit, now)
    ensures s' == Exec(s, TickSteps(t, limit, now, lease, at, replies, |batch|))
    ensures Ticked(s, s', limit, now, now + lease, at, replies, batch)
  {
    s' := Marked(s, ClaimRows(s.db.outbox, limit, now, now + lease), batch, replies, at);
    MarkedIsTicked(s, limit, now, now + lease, at, replies, batch, s');
    TickRun(s, t, limit, now, lease, at, replies, batch);
  }
}
