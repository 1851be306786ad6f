/** What callers of the command service are promised, however their handlers interleave
    (crates/ledger/src/service.rs:451-514). */
module Requests {
  import opened Amounts
  import opened Journal
  import opened Store
  import opened Invariants
  import opened RequestLog
  import opened System
  import opened Safety

  // ---- concurrent idempotency -----------------------------------------------

  /** A success some handler reported is in the log. */
  predicate Logged(log: seq<Item>, slot: Slot, answer: Answer) {
    exists i :: 0 <= i < |log| && log[i].Answers(slot) && log[i].answer == answer
  }

  predicate SuccessesLogged(s: Sys) {
    forall h :: h in s.handlers ==> Reported(s.log, s.handlers[h])
  }

  /** A handler's new state is not a success, or the log says so. */
  predicate Reported(log: seq<Item>, hd: Handler) {
    hd.phase.Done? && hd.phase.result.Ok? ==> Logged(log, hd.slot, Answer(hd.hash, hd.phase.result.value))
  }

  lemma FinishReports(s: Sys, h: nat, result: Result<Response, LedgerError>, replay: bool)
    requires h in s.handlers
    ensures var s' := Finish(s, h, result, replay);
            s.log <= s'.log && s'.handlers.Keys == s.handlers.Keys && Reported(s'.log, s'.handlers[h])
            && forall g :: g in s.handlers && g != h ==> s'.handlers[g] == s.handlers[g]
  {
    var s' := Finish(s, h, result, replay);
    if result.Ok? {
      assert s'.log[|s.log|].Answers(s.handlers[h].slot)
             && s'.log[|s.log|].answer == Answer(s.handlers[h].hash, result.value);
    }
  }

  lemma WriteReports(s: Sys, h: nat)
    requires CanServe(s, h, Write)
    ensures var s' := WriteStep(s, h);
            s.log <= s'.log && s'.handlers.Keys == s.handlers.Keys && Reported(s'.log, s'.handlers[h])
            && forall g :: g in s.handlers && g != h ==> s'.handlers[g] == s.handlers[g]
  {
    var phase := s.handlers[h].phase;
    var response := if phase.Submit? then phase.commit.record.response else phase.opening.record.response;
    var (outcome, db') :=
      if phase.Submit? then CommitJournal(s.db, phase.commit) else CreateAccount(s.db, phase.opening);
    assert WriteStep(s, h) == AfterWrite(s.(db := db'), h, outcome, response);
    FinishReports(s.(db := db'), h, if outcome.Err? then Err(outcome.error) else Ok(response), false);
  }

  lemma ServeReports(s: Sys, h: nat, act: ServiceAct)
    requires CanServe(s, h, act)
    ensures var s' := ServeStep(s, h, act);
            && s.log <= s'.log
            && (h in s'.handlers ==> Reported(s'.log, s'.handlers[h]))
            && forall g :: g in s'.handlers && g != h ==> g in s.handlers && s'.handlers[g] == s.handlers[g]
  {
    if act.Find? {
      var hd := s.handlers[h];
      if hd.slot in s.db.idempotency {
        FinishReports(s, h, ReplayRecord(s.db.idempotency[hd.slot], hd.hash, hd.opens), true);
      }
    } else if act.Write? || act.WriteUnheard? {
      WriteReports(s, h);
    }
  }

  /** A step ends a handler in success only together with a log item saying so. */
  lemma StepReports(s: Sys, a: Action)
    ensures var s' := Do(s, a);
            && s.log <= s'.log
            && forall g :: g in s'.handlers ==>
              (g in s.handlers && s'.handlers[g] == s.handlers[g]) || Reported(s'.log, s'.handlers[g])
  {
    if a.Serve? && CanServe(s, a.handler, a.act) { ServeReports(s, a.handler, a.act); }
  }

  lemma LoggedStays(log: seq<Item>, log': seq<Item>, hd: Handler)
    requires log <= log' && Reported(log, hd)
    ensures Reported(log', hd)
  {
    if hd.phase.Done? && hd.phase.result.Ok? {
      var i :| 0 <= i < |log| && log[i].Answers(hd.slot) && log[i].answer == Answer(hd.hash, hd.phase.result.value);
      assert log'[i] == log[i];
    }
  }

  lemma {:induction false} SuccessesAreLogged(seeded: Accounts, actions: seq<Action>)
    ensures SuccessesLogged(Exec(Boot(seeded), actions))
  {
    if actions != [] {
      var s, a := Exec(Boot(seeded), actions[..|actions| - 1]), actions[|actions| - 1];
      SuccessesAreLogged(seeded, actions[..|actions| - 1]);
      StepReports(s, a);
      forall g | g in Do(s, a).handlers ensures Reported(Do(s, a).log, Do(s, a).handlers[g]) {
        if g in s.handlers && Do(s, a).handlers[g] == s.handlers[g] { LoggedStays(s.log, Do(s, a).log, s.handlers[g]); }
      }
    }
  }

  /** Two successes for a key with no purge of that key in between. */
  ghost predicate Uninterrupted(log: seq<Item>, i: int, j: int, slot: Slot) {
    && 0 <= i < j < |log| && log[i].Answers(slot) && log[j].Answers(slot)
    && forall m :: i < m < j ==> !log[m].Forgets(slot)
  }

  /** Concurrent idempotency: every success any handler reports is in a log in which, for
      each key, successes not separated by a purge of that key agree on fingerprint and
      response; each key was accepted at most once plus once per purge that removed its
      record; and the accepted transactions are exactly the journal. */
  lemma ConcurrentIdempotency(seeded: Accounts, actions: seq<Action>, slot: Slot)
    ensures var s := Exec(Boot(seeded), actions);
            && SuccessesLogged(s)
            && (forall i, j :: Uninterrupted(s.log, i, j, slot) ==> s.log[j] == Replayed(slot, s.log[i].answer))
            && Acceptances(s.log, slot) <= Purges(s.log, slot) + 1
            && Transactions(s.log) == EntryIds(s.db.entries)
  {
    SystemInvariant(seeded, actions);
    SuccessesAreLogged(seeded, actions);
    var s := Exec(Boot(seeded), actions);
    OncePerPurge(s.log, slot);
    forall i, j | Uninterrupted(s.log, i, j, slot)
      ensures s.log[j] == Replayed(slot, s.log[i].answer)
    {
      Agreement(s.log, i, j, slot);
    }
  }

  /** The handler got its answer, or lost the reply to its write. */
  predicate Ended(s: Sys, h: nat) {
    && h in s.handlers && s.handlers[h].phase.Done?
    && (s.handlers[h].phase.result.Ok? || s.handlers[h].phase.result == Err(ReplyLost))
  }

  /** The response a handler that is about to write has promised in its record. */
  function Promised(phase: Phase): Response
    requires phase.Submit? || phase.SubmitAccount?
  {
    if phase.Submit? then phase.commit.record.response else phase.opening.record.response
  }

  /** The request of handler `h` is accepted between `s` and `s'`, for a key not in use, and
      the log says so. */
  predicate AcceptedBy(s: Sys, s': Sys, h: nat)
    requires h in s.handlers
  {
    var hd := s.handlers[h];
    && (hd.phase.Submit? || hd.phase.SubmitAccount?) && hd.slot !in s.db.idempotency
    && s'.log == s.log + [Accepted(hd.slot, Answer(hd.hash, Promised(hd.phase)))]
  }

  lemma WriteAccepts(s: Sys, h: nat)
    requires CanServe(s, h, Write) && PhaseSound(s.handlers[h])
    ensures WriteStep(s, h).db == s.db || (AcceptedBy(s, WriteStep(s, h), h) && Ended(WriteStep(s, h), h))
  {
    var phase := s.handlers[h].phase;
    var record := if phase.Submit? then phase.commit.record else phase.opening.record;
    var (outcome, db') :=
      if phase.Submit? then CommitJournal(s.db, phase.commit) else CreateAccount(s.db, phase.opening);
    assert WriteStep(s, h) == AfterWrite(s.(db := db'), h, outcome, record.response);
    assert outcome == Ok(Committed) ==> record.slot !in s.db.idempotency;
    assert outcome != Ok(Committed) ==> db' == s.db;
  }

  /** The only handler step that changes the store is the write that is logged as accepted and
      ends its handler in a fresh success, unless the reply is lost on the way back. */
  lemma OnlyAcceptanceWrites(s: Sys, h: nat, act: ServiceAct)
    requires Inv(s) && CanServe(s, h, act)
    ensures || ServeStep(s, h, act).db == s.db
            || (h in s.handlers && AcceptedBy(s, ServeStep(s, h, act), h) && Ended(ServeStep(s, h, act), h))
  {
    if act.Write? || act.WriteUnheard? {
      assert PhaseSound(s.handlers[h]);
      WriteAccepts(s, h);
    }
  }

  /** Step `p` of a run is a step of handler `h` that changed the store. */
  ghost predicate Wrote(s: Sys, actions: seq<Action>, h: nat, p: int) {
    && 0 <= p < |actions| && actions[p].Serve? && actions[p].handler == h
    && Exec(s, actions[..p + 1]).db != Exec(s, actions[..p]).db
  }

  /** A finished handler stays as it is until its caller goes away. */
  lemma DoneStays(s: Sys, a: Action, h: nat)
    requires h in s.handlers && s.handlers[h].phase.Done? && a != Serve(h, Abandon)
    ensures h in Do(s, a).handlers && Do(s, a).handlers[h] == s.handlers[h]
  {
    if a.Serve? && CanServe(s, a.handler, a.act) {
      OnlyOwnHandler(s, a.handler, a.act);
      if a.handler == h { DoneOnlyAbandons(s, h, a.act); }
    }
  }

  lemma DoneOnlyAbandons(s: Sys, h: nat, act: ServiceAct)
    requires CanServe(s, h, act) && h in s.handlers && s.handlers[h].phase.Done?
    ensures act.Abandon?
  {
  }

  /** A handler's step leaves every other handler alone. */
  lemma OnlyOwnHandler(s: Sys, h: nat, act: ServiceAct)
    requires CanServe(s, h, act)
    ensures forall g :: g in s.handlers && g != h ==>
              g in ServeStep(s, h, act).handlers && ServeStep(s, h, act).handlers[g] == s.handlers[g]
  {
    if act.Find? {
      var phase := FindShape(s, h);
    } else if act.Write? || act.WriteUnheard? {
      WriteReports(s, h);
    } else {
      QuietOwnHandler(s, h, act);
    }
  }

  lemma QuietOwnHandler(s: Sys, h: nat, act: ServiceAct)
    requires CanServe(s, h, act) && !act.Find? && !act.Write? && !act.WriteUnheard?
    ensures forall g :: g in s.handlers && g != h ==>
              g in ServeStep(s, h, act).handlers && ServeStep(s, h, act).handlers[g] == s.handlers[g]
  {
  }

  lemma WriteEnds(seeded: Accounts, before: seq<Action>, a: Action, h: nat)
    requires var s := Exec(Boot(seeded), before);
             a.Serve? && a.handler == h && Do(s, a).db != s.db
    ensures Ended(Do(Exec(Boot(seeded), before), a), h)
  {
    SystemInvariant(seeded, before);
    OnlyAcceptanceWrites(Exec(Boot(seeded), before), h, a.act);
  }

  lemma EndStays(s: Sys, a: Action, h: nat)
    requires Ended(s, h) && a != Serve(h, Abandon)
    ensures Ended(Do(s, a), h)
  {
    DoneStays(s, a, h);
  }

  lemma {:induction false} WriterEnds(seeded: Accounts, actions: seq<Action>, h: nat, p: nat)
    requires Wrote(Boot(seeded), actions, h, p)
    requires forall q :: p < q < |actions| ==> actions[q] != Serve(h, Abandon)
    ensures Ended(Exec(Boot(seeded), actions), h)
  {
    var n := |actions| - 1;
    if p == n {
      assert actions[..p + 1] == actions;
      WriteEnds(seeded, actions[..n], actions[n], h);
    } else {
      WroteBefore(Boot(seeded), actions, h, p);
      WriterEnds(seeded, actions[..n], h, p);
      EndStays(Exec(Boot(seeded), actions[..n]), actions[n], h);
    }
  }

  lemma WroteBefore(s: Sys, actions: seq<Action>, h: nat, p: nat)
    requires Wrote(s, actions, h, p) && p < |actions| - 1
    ensures Wrote(s, actions[..|actions| - 1], h, p)
  {
    var n := |actions| - 1;
    assert actions[..n][..p] == actions[..p] && actions[..n][..p + 1] == actions[..p + 1];
  }

  /** Errors have no effect, over a whole run: a handler that ended in an error, other than a
      lost reply, changed nothing at any of its steps. (Its steps are those since its caller
      last went away, if ever.) */
  lemma FailedHandlerWroteNothing(seeded: Accounts, actions: seq<Action>, h: nat, p: nat)
    requires var s := Exec(Boot(seeded), actions);
             && h in s.handlers && s.handlers[h].phase.Done?
             && s.handlers[h].phase.result.Err? && s.handlers[h].phase.result != Err(ReplyLost)
    requires p < |actions| && actions[p].Serve? && actions[p].handler == h
    requires forall q :: p < q < |actions| ==> actions[q] != Serve(h, Abandon)
    ensures Exec(Boot(seeded), actions[..p + 1]).db == Exec(Boot(seeded), actions[..p]).db
  {
    if Wrote(Boot(seeded), actions, h, p) { WriterEnds(seeded, actions, h, p); }
  }

  /** A lost reply hides nothing but the answer: the store and the log are as if it had come. */
  lemma LostReplyStillCounts(s: Sys, h: nat)
    requires Inv(s) && CanServe(s, h, WriteUnheard)
    ensures var heard, unheard := ServeStep(s, h, Write), ServeStep(s, h, WriteUnheard);
            && unheard.db == heard.db && unheard.log == heard.log
            && unheard.handlers[h].phase == Done(Err(ReplyLost))
            && (unheard.db != s.db ==> AcceptedBy(s, unheard, h))
  {
    assert PhaseSound(s.handlers[h]);
    WriteAccepts(s, h);
  }

  /** Whoever asks again gets the answer: as long as no purge has removed its record, a retry
      of an accepted request, whether or not its caller heard the reply, is replayed. */
  lemma RetryIsReplayed(seeded: Accounts, actions: seq<Action>, s: Sys, i: nat, g: nat)
    requires s == Exec(Boot(seeded), actions) && i < |s.log| && s.log[i].Accepted?
    requires forall m :: i < m < |s.log| ==> !s.log[m].Forgets(s.log[i].slot)
    requires g in s.handlers && s.handlers[g].phase.Lookup? && s.handlers[g].slot == s.log[i].slot
    requires s.handlers[g].hash == s.log[i].answer.hash
    requires s.handlers[g].opens == s.log[i].answer.response.AccountCreated?
    ensures var s' := Do(s, Serve(g, Find));
            s'.handlers[g].phase == Done(Ok(s.log[i].answer.response)) && s'.db == s.db
  {
    SystemInvariant(seeded, actions);
    assert s.log[i].Answers(s.log[i].slot);
    LivePersists(s.log, i, |s.log|, s.log[i].slot);
    assert s.log[..|s.log|] == s.log;
    assert Live(s.log, s.log[i].slot) == Held(s.db.idempotency, s.log[i].slot);
  }

  /** Two handlers for one key, the first about to write, the second about to read `k`. */
  ghost predicate Racing(s: Sys, h: nat, g: nat, k: Key) {
    && h != g && h in s.handlers && g in s.handlers
    && s.handlers[h].slot == s.handlers[g].slot && s.handlers[h].hash == s.handlers[g].hash
    && s.handlers[h].phase.Submit? && CommitJournal(s.db, s.handlers[h].phase.commit).0 == Ok(Committed)
    && s.handlers[g].phase.GuardRead? && s.handlers[g].phase.keys != [] && s.handlers[g].phase.keys[0] == k
    && k.account in s.handlers[g].phase.loaded && Fits(Net(s.handlers[g].phase.commit.entry.postings, k))
  }

  /** Why agreement is claimed for successes only: after its twin has committed, a retry of
      the same request is refused by its own guard exactly when the account is protected, the
      request draws on it, and the balance does not cover both. */
  lemma LateTwinRefused(s: Sys, h: nat, g: nat, k: Key)
    requires Racing(s, h, g, k)
    ensures var loaded, delta := s.handlers[g].phase.loaded, Net(s.handlers[g].phase.commit.entry.postings, k);
            var both := Get(s.db.balances, k) + Net(s.handlers[h].phase.commit.entry.postings, k) + delta;
            var s' := Do(Do(s, Serve(h, Write)), Serve(g, ReadBalance));
            && s'.handlers[h].phase == Done(Ok(s.handlers[h].phase.commit.record.response))
            && (s'.handlers[g].phase.Done? <==>
                loaded[k.account].policy == NonNegative && delta < 0 && !(0 <= both <= I128_MAX))
            && (s'.handlers[g].phase.Done? ==> s'.handlers[g].phase.result.Err?)
  {
    CommitAtomic(s.db, s.handlers[h].phase.commit);
    SubmitShape(s, h);
    ReadShape(Do(s, Serve(h, Write)), g);
  }

  lemma ReadShape(s: Sys, g: nat)
    requires g in s.handlers && s.handlers[g].phase.GuardRead? && s.handlers[g].phase.keys != []
    ensures var GuardRead(c, loaded, keys) := s.handlers[g].phase;
            var checked := ReadOne(s.db, c, loaded, keys[0]);
            Do(s, Serve(g, ReadBalance)) ==
            Move(s, g, if checked.Ok? then GuardRead(c, loaded, keys[1..]) else Done(Err(checked.error)))
  {
  }
}
