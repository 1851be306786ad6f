/** The relay over whole runs of the system (crates/event-bus/src/relay.rs:74-107): what being
    published means, and that no crash strands a row. */
module RelayRuns {
  import opened Amounts
  import opened Store
  import opened Invariants
  import opened System
  import opened Safety
  import opened Leases

  /** Relay safety: with a crash or error at any point of any number of ticks, a row marked
      published was accepted by the broker, and the broker holds only events of the outbox. */
  lemma PublishedMeansAccepted(seeded: Accounts, actions: seq<Action>)
    ensures var s := Exec(Boot(seeded), actions);
            && (forall i :: 0 <= i < |s.db.outbox| && s.db.outbox[i].publishedAt.Some? ==>
                s.db.outbox[i].event in s.broker)
            && (forall b :: 0 <= b < |s.broker| ==> s.broker[b] in EventsOf(s.db.outbox))
  {
    SystemInvariant(seeded, actions);
  }

  // ---- leases over runs -----------------------------------------------------

  /** The action claims row `i` and leases it until `until`. */
  predicate LeasesRow(s: Sys, a: Action, i: nat, until: Time) {
    && a.Relay? && a.relay.ClaimBatch? && i < |s.db.outbox|
    && Claims(s.db.outbox, a.relay.limit, a.relay.now, i) && until == a.relay.now + a.relay.lease
  }

  /** Step `p` of a run did. */
  ghost predicate LeasedBy(seeded: Accounts, actions: seq<Action>, i: nat, until: Time, p: int) {
    0 <= p < |actions| && LeasesRow(Exec(Boot(seeded), actions[..p]), actions[p], i, until)
  }

  lemma RelayLease(s: Sys, t: nat, act: RelayAct, i: nat)
    requires CanRelay(s, t, act) && i < |s.db.outbox| && RelayStep(s, t, act).db.outbox[i].leasedUntil.Some?
    ensures var until := RelayStep(s, t, act).db.outbox[i].leasedUntil;
            || until == s.db.outbox[i].leasedUntil
            || (act.ClaimBatch? && Claims(s.db.outbox, act.limit, act.now, i) && until == Some(act.now + act.lease))
  {
  }

  /** After any step of the system: old rows keep their messages, new ones have new ids. */
  predicate Grown(db: Db, db': Db) {
    && Extends(db.outbox, db'.outbox) && db.nextOutboxId <= db'.nextOutboxId
    && (forall i :: |db.outbox| <= i < |db'.outbox| ==> db'.outbox[i].id > db.nextOutboxId)
  }

  /** After a step of a handler: old rows are untouched, and new ones have no lease. */
  predicate Appended(db: Db, db': Db) {
    && Grown(db, db') && db.outbox <= db'.outbox
    && (forall i :: |db.outbox| <= i < |db'.outbox| ==> db'.outbox[i].leasedUntil.None?)
  }

  lemma NewRowsAppended(db: Db, db': Db, events: seq<Event>)
    requires db'.outbox == db.outbox + NewRows(db.nextOutboxId, events) && db.nextOutboxId <= db'.nextOutboxId
    ensures Appended(db, db')
  {
  }

  lemma WriteAppends(s: Sys, h: nat)
    requires Inv(s) && CanServe(s, h, Write)
    ensures Appended(s.db, WriteStep(s, h).db)
  {
    var phase := s.handlers[h].phase;
    WriteShape(s, h);
    assert PhaseSound(s.handlers[h]);
    if phase.Submit? {
      DrawnIsFresh(s.db, s.handlers, s.issued, h, phase.commit.events);
      CommitAppends(s.db, phase.commit);
    } else {
      DrawnIsFresh(s.db, s.handlers, s.issued, h, phase.opening.events);
      CreateAppends(s.db, phase.opening);
    }
  }

  lemma CommitAppends(db: Db, c: JournalCommit)
    requires Fresh(db.outbox, c.events)
    ensures Appended(db, CommitJournal(db, c).1)
  {
    CommitShape(db, c);
    if CommitJournal(db, c).0 == Ok(Committed) { NewRowsAppended(db, CommitJournal(db, c).1, c.events); }
  }

  lemma CreateAppends(db: Db, c: AccountCommit)
    requires Fresh(db.outbox, c.events)
    ensures Appended(db, CreateAccount(db, c).1)
  {
    CreateShape(db, c);
    if CreateAccount(db, c).0 == Ok(Committed) { NewRowsAppended(db, CreateAccount(db, c).1, c.events); }
  }

  lemma ServeAppends(s: Sys, h: nat, act: ServiceAct)
    requires Inv(s) && CanServe(s, h, act)
    ensures Appended(s.db, ServeStep(s, h, act).db)
  {
    if act.Write? || act.WriteUnheard? { WriteAppends(s, h); } else { assert ServeStep(s, h, act).db == s.db; }
  }

  lemma QuietOutbox(s: Sys, a: Action)
    requires a.Serve? ==> !CanServe(s, a.handler, a.act)
    requires a.Relay? ==> !CanRelay(s, a.tick, a.relay)
    ensures Do(s, a).db.outbox == s.db.outbox && Do(s, a).db.nextOutboxId == s.db.nextOutboxId
  {
  }

  /** A lease found after a step was there before, or the step is the claim that set it. */
  lemma LeaseStep(s: Sys, a: Action, i: nat, until: Time)
    requires Inv(s) && i < |Do(s, a).db.outbox| && Do(s, a).db.outbox[i].leasedUntil == Some(until)
    ensures i < |s.db.outbox|
    ensures s.db.outbox[i].leasedUntil == Some(until) || LeasesRow(s, a, i, until)
  {
    if a.Serve? && CanServe(s, a.handler, a.act) {
      ServeAppends(s, a.handler, a.act);
    } else if a.Relay? && CanRelay(s, a.tick, a.relay) {
      RelayKeepsMessages(s, a.tick, a.relay);
      RelayLease(s, a.tick, a.relay, i);
    } else {
      QuietOutbox(s, a);
    }
  }

  lemma RelayKeepsMessages(s: Sys, t: nat, act: RelayAct)
    requires CanRelay(s, t, act)
    ensures |RelayStep(s, t, act).db.outbox| == |s.db.outbox|
    ensures SameMessages(s.db.outbox, RelayStep(s, t, act).db.outbox)
    ensures RelayStep(s, t, act).db.nextOutboxId == s.db.nextOutboxId
  {
  }

  /** Every lease of a reachable state was set by a claim of that run on that row, and ends
      when that claim said. */
  lemma {:induction false} LeasesComeFromClaims(seeded: Accounts, actions: seq<Action>, i: nat, until: Time)
    returns (p: nat)
    requires i < |Exec(Boot(seeded), actions).db.outbox|
    requires Exec(Boot(seeded), actions).db.outbox[i].leasedUntil == Some(until)
    ensures LeasedBy(seeded, actions, i, until, p)
  {
    var n := |actions| - 1;
    var s := Exec(Boot(seeded), actions[..n]);
    SystemInvariant(seeded, actions[..n]);
    LeaseStep(s, actions[n], i, until);
    if s.db.outbox[i].leasedUntil == Some(until) {
      p := LeasesComeFromClaims(seeded, actions[..n], i, until);
      assert actions[..n][..p] == actions[..p];
    } else {
      p := n;
    }
  }

  /** Nothing is stranded: after any run, with crashes and errors anywhere, a tick that starts
      once every lease granted in that run has ended, and asks for as many rows as there are,
      receives every unpublished row. */
  lemma NoRowStranded(seeded: Accounts, actions: seq<Action>, s: Sys, i: nat, t: nat, limit: nat, now: Time, lease: nat)
    requires s == Exec(Boot(seeded), actions) && t !in s.ticks
    requires i < |s.db.outbox| && s.db.outbox[i].publishedAt.None? && limit >= |s.db.outbox|
    requires forall p :: 0 <= p < |actions| && actions[p].Relay? && actions[p].relay.ClaimBatch? ==>
               actions[p].relay.now + actions[p].relay.lease <= now
    ensures var s' := Do(s, Relay(t, ClaimBatch(limit, now, lease)));
            t in s'.ticks && s.db.outbox[i] in s'.ticks[t].messages
  {
    if s.db.outbox[i].leasedUntil.Some? {
      var p := LeasesComeFromClaims(seeded, actions, i, s.db.outbox[i].leasedUntil.value);
    }
    LargeClaimTakes(s.db.outbox, i, now, limit);
  }
}
