/** What a repeated request is told: the handler that loses the race at the commit
    (crates/ledger/src/service.rs:507-513), and retries as long as the sweep of old keys
    (crates/ledger/src/memory.rs:330-337) has not reached the record. */
module Retries {
  import opened Amounts
  import opened Store
  import opened Invariants
  import opened RequestLog
  import opened System
  import opened Safety
  import opened Requests

  /** The record a handler is about to write. */
  function Pending(phase: Phase): Record
    requires phase.Submit? || phase.SubmitAccount?
  {
    if phase.Submit? then phase.commit.record else phase.opening.record
  }

  lemma PendingIsOwn(s: Sys, h: nat)
    requires Inv(s) && CanServe(s, h, Write)
    ensures var hd := s.handlers[h];
            && Pending(hd.phase).slot == hd.slot && Pending(hd.phase).hash == hd.hash
            && Pending(hd.phase).response == Promised(hd.phase)
  {
    assert PhaseSound(s.handlers[h]);
  }

  // ---- losing the race at the commit ----------------------------------------

  /** A write under a key in use changes nothing and sends its handler to read the record. */
  lemma LoserRereads(s: Sys, h: nat)
    requires Inv(s) && CanServe(s, h, Write) && s.handlers[h].slot in s.db.idempotency
    ensures Do(s, Serve(h, Write)) == s.(handlers := s.handlers[h := s.handlers[h].(phase := Reread)])
  {
    PendingIsOwn(s, h);
  }

  /** What a handler is told by the record it finds under its key. */
  predicate ToldBy(hd: Handler, r: Record, result: Result<Response, LedgerError>) {
    && (hd.hash != r.hash ==> result == Err(IdempotencyConflict(hd.slot)))
    && (hd.hash == r.hash && hd.opens == r.response.AccountCreated? ==> result == Ok(r.response))
    && (hd.hash == r.hash && hd.opens != r.response.AccountCreated? ==> result == Err(Serialization))
  }

  /** A success told from a record is logged as a replay. */
  predicate LoggedReplay(log: seq<Item>, log': seq<Item>, hd: Handler, result: Result<Response, LedgerError>) {
    log' == if result.Ok? then log + [Replayed(hd.slot, Answer(hd.hash, result.value))] else log
  }

  /** Looking a key up, first or after a duplicate: the record decides; without one the first
      look goes on to build, and the second reports that the record vanished. */
  lemma LookupAnswers(s: Sys, h: nat)
    requires Inv(s) && CanServe(s, h, Find)
    ensures var hd, s' := s.handlers[h], Do(s, Serve(h, Find));
            && s'.db == s.db && h in s'.handlers
            && (hd.slot in s.db.idempotency ==>
                && s'.handlers[h].phase.Done? && ToldBy(hd, s.db.idempotency[hd.slot], s'.handlers[h].phase.result)
                && LoggedReplay(s.log, s'.log, hd, s'.handlers[h].phase.result))
            && (hd.slot !in s.db.idempotency ==>
                s'.handlers[h].phase == if hd.phase.Lookup? then Build else Done(Err(RecordVanished)))
  {
    assert Sound(s.db);
  }

  /** Steps of others leave a handler where it is. */
  lemma OthersStep(s: Sys, a: Action, h: nat)
    requires h in s.handlers && !(a.Serve? && a.handler == h)
    ensures h in Do(s, a).handlers && Do(s, a).handlers[h] == s.handlers[h]
  {
    if a.Serve? && CanServe(s, a.handler, a.act) { OnlyOwnHandler(s, a.handler, a.act); }
  }

  lemma {:induction false} OthersRun(s: Sys, later: seq<Action>, h: nat)
    requires Inv(s) && h in s.handlers
    requires forall q :: 0 <= q < |later| ==> !(later[q].Serve? && later[q].handler == h)
    ensures Inv(Exec(s, later))
    ensures h in Exec(s, later).handlers && Exec(s, later).handlers[h] == s.handlers[h]
  {
    if later != [] {
      var n := |later| - 1;
      OthersRun(s, later[..n], h);
      DoKeepsInv(Exec(s, later[..n]), later[n]);
      OthersStep(Exec(s, later[..n]), later[n], h);
    }
  }

  /** A duplicate at the commit, whatever the others do before the record is read again: the
      handler is told what the record then there says, as a replay, or that it vanished; and
      unless a sweep reached that record, it is the one that won. */
  lemma DuplicateIsAnswered(s: Sys, h: nat, between: seq<Action>, m: Sys)
    requires Inv(s) && CanServe(s, h, Write) && s.handlers[h].slot in s.db.idempotency
    requires forall q :: 0 <= q < |between| ==> !(between[q].Serve? && between[q].handler == h)
    requires m == Exec(Do(s, Serve(h, Write)), between)
    ensures Do(s, Serve(h, Write)).db == s.db
    ensures var hd, s' := s.handlers[h], Do(m, Serve(h, Find));
            && s'.db == m.db && h in s'.handlers && s'.handlers[h].phase.Done?
            && var told := s'.handlers[h].phase.result;
            && (hd.slot in m.db.idempotency ==>
                ToldBy(hd, m.db.idempotency[hd.slot], told) && LoggedReplay(m.log, s'.log, hd, told))
            && (hd.slot !in m.db.idempotency ==> told == Err(RecordVanished))
            && (NotSwept(between, s.db.idempotency[hd.slot].createdAt) ==>
                ToldBy(hd, s.db.idempotency[hd.slot], told))
  {
    LoserRereads(s, h);
    var s1 := Do(s, Serve(h, Write));
    DoKeepsInv(s, Serve(h, Write));
    OthersRun(s1, between, h);
    LookupAnswers(m, h);
    if NotSwept(between, s.db.idempotency[s.handlers[h].slot].createdAt) {
      RecordRun(s1, between, s.handlers[h].slot);
    }
  }

  // ---- sweeping -------------------------------------------------------------

  /** No sweep of these steps reaches back to `created`. */
  predicate NotSwept(later: seq<Action>, created: Time) {
    forall q :: 0 <= q < |later| && later[q].Expire? ==> later[q].cutoff <= created
  }

  lemma CommitKeepsRecord(db: Db, c: JournalCommit, slot: Slot)
    requires slot in db.idempotency
    ensures slot in CommitJournal(db, c).1.idempotency
    ensures CommitJournal(db, c).1.idempotency[slot] == db.idempotency[slot]
  {
    CommitAtomic(db, c);
  }

  lemma CreateKeepsRecord(db: Db, c: AccountCommit, slot: Slot)
    requires slot in db.idempotency
    ensures slot in CreateAccount(db, c).1.idempotency
    ensures CreateAccount(db, c).1.idempotency[slot] == db.idempotency[slot]
  {
    RecordAppends(db.(idempotency := db.idempotency[c.record.slot := c.record],
                      accounts := db.accounts[c.account.id := c.account]), c.events);
  }

  lemma WriteKeepsRecord(s: Sys, h: nat, slot: Slot)
    requires CanServe(s, h, Write) && slot in s.db.idempotency
    ensures slot in WriteStep(s, h).db.idempotency
    ensures WriteStep(s, h).db.idempotency[slot] == s.db.idempotency[slot]
  {
    WriteShape(s, h);
    var phase := s.handlers[h].phase;
    if phase.Submit? { CommitKeepsRecord(s.db, phase.commit, slot); }
    else { CreateKeepsRecord(s.db, phase.opening, slot); }
  }

  /** One step keeps a record, unless it is a sweep beyond it; that one removes it. */
  lemma StepKeepsRecord(s: Sys, a: Action, slot: Slot)
    requires slot in s.db.idempotency
    ensures slot in Do(s, a).db.idempotency <==> !(a.Expire? && s.db.idempotency[slot].createdAt < a.cutoff)
    ensures slot in Do(s, a).db.idempotency ==> Do(s, a).db.idempotency[slot] == s.db.idempotency[slot]
  {
    if a.Expire? {
      PurgeExact(s.db, a.cutoff);
    } else if a.Serve? && CanServe(s, a.handler, a.act) && (a.act.Write? || a.act.WriteUnheard?) {
      WriteKeepsRecord(s, a.handler, slot);
    }
  }

  lemma {:induction false} RecordRun(s: Sys, later: seq<Action>, slot: Slot)
    requires slot in s.db.idempotency && NotSwept(later, s.db.idempotency[slot].createdAt)
    ensures slot in Exec(s, later).db.idempotency
    ensures Exec(s, later).db.idempotency[slot] == s.db.idempotency[slot]
  {
    if later != [] {
      var n := |later| - 1;
      RecordRun(s, later[..n], slot);
      StepKeepsRecord(Exec(s, later[..n]), later[n], slot);
    }
  }

  lemma {:induction false} InvRun(s: Sys, later: seq<Action>)
    requires Inv(s)
    ensures Inv(Exec(s, later))
  {
    if later != [] {
      InvRun(s, later[..|later| - 1]);
      DoKeepsInv(Exec(s, later[..|later| - 1]), later[|later| - 1]);
    }
  }

  /** Heard or not, a write does to the store what the store call does. */
  lemma WriteStores(s: Sys, h: nat, act: ServiceAct)
    requires (act.Write? || act.WriteUnheard?) && CanServe(s, h, act)
    ensures Do(s, Serve(h, act)).db == WriteStep(s, h).db
  {
  }

  /** A write that changed the store has stored its handler's record. */
  lemma AcceptedIsRecorded(s: Sys, h: nat, db: Db)
    requires Inv(s) && CanServe(s, h, Write) && db == WriteStep(s, h).db && db != s.db
    ensures var hd := s.handlers[h];
            hd.slot in db.idempotency && db.idempotency[hd.slot] == Pending(hd.phase)
  {
    PendingIsOwn(s, h);
    WriteShape(s, h);
    var phase := s.handlers[h].phase;
    if phase.Submit? { CommitRecords(s.db, phase.commit); } else { CreateRecords(s.db, phase.opening); }
  }

  lemma CommitRecords(db: Db, c: JournalCommit)
    requires CommitJournal(db, c).1 != db
    ensures CommitJournal(db, c).1.idempotency == db.idempotency[c.record.slot := c.record]
  {
    CommitAtomic(db, c);
  }

  lemma CreateRecords(db: Db, c: AccountCommit)
    requires CreateAccount(db, c).1 != db
    ensures CreateAccount(db, c).1.idempotency == db.idempotency[c.record.slot := c.record]
  {
    RecordAppends(db.(idempotency := db.idempotency[c.record.slot := c.record],
                      accounts := db.accounts[c.account.id := c.account]), c.events);
  }

  /** A request accepted at or after every cutoff swept since is still replayed: whoever sends
      it again, whether or not the first caller heard the answer, gets that answer. */
  lemma RecentRetryIsReplayed(s: Sys, h: nat, act: ServiceAct, s1: Sys, later: seq<Action>, m: Sys, g: nat)
    requires Inv(s) && (act.Write? || act.WriteUnheard?) && CanServe(s, h, act)
    requires s1 == Do(s, Serve(h, act)) && s1.db != s.db && m == Exec(s1, later)
    requires NotSwept(later, Pending(s.handlers[h].phase).createdAt)
    requires CanServe(m, g, Find) && Repeats(m.handlers[g], s.handlers[h])
    ensures var s' := Do(m, Serve(g, Find));
            s'.db == m.db && g in s'.handlers && s'.handlers[g].phase == Done(Ok(Promised(s.handlers[h].phase)))
  {
    PendingIsOwn(s, h);
    WriteStores(s, h, act);
    AcceptedIsRecorded(s, h, s1.db);
    DoKeepsInv(s, Serve(h, act));
    RecordRun(s1, later, s.handlers[h].slot);
    InvRun(s1, later);
    LookupAnswers(m, g);
  }

  /** The same request once more: same key, same fingerprint, same kind of response. */
  predicate Repeats(again: Handler, first: Handler)
    requires first.phase.Submit? || first.phase.SubmitAccount?
  {
    again.slot == first.slot && again.hash == first.hash && again.opens == Promised(first.phase).AccountCreated?
  }
}
