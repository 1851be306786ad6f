/** Commands and account openings that nobody disturbs get through, in any state of the system:
    the step machine does what the one-caller service and the account store do
    (crates/ledger/src/service.rs:108-161, 451-514); and names of accounts stay unique. */
module CommandProgress {
  import opened Amounts
  import opened Order
  import opened Journal
  import opened Balances
  import opened Store
  import opened Invariants
  import opened Guard
  import opened RequestLog
  import opened System

  // ---- stretches of a handler's life ----------------------------------------

  /** From arrival to the draft. */
  function Arrival(h: nat, slot: Slot, hash: string, c: JournalCommit): seq<Action> {
    [Serve(h, Arrive(slot, hash, false)), Serve(h, Find), Serve(h, Draft(c))]
  }

  /** The guard: load the accounts, read each balance, go on. */
  function Guarding(h: nat, keys: seq<Key>): seq<Action> {
    [Serve(h, LoadAccounts(keys))] + Reads(h, |keys| + 1)
  }

  function Reads(h: nat, n: nat): seq<Action> {
    if n == 0 then [] else [Serve(h, ReadBalance)] + Reads(h, n - 1)
  }

  lemma ThreeSteps(s: Sys, a: Action, b: Action, c: Action)
    ensures Exec(s, [a, b, c]) == Do(Do(Do(s, a), b), c)
  {
    ExecConcat(s, [a, b], [c]);
    ExecConcat(s, [a], [b]);
    ExecOne(s, a);
    ExecOne(Do(s, a), b);
    ExecOne(Do(Do(s, a), b), c);
    assert [a, b] + [c] == [a, b, c] && [a] + [b] == [a, b];
  }

  lemma Arrives(s: Sys, h: nat, slot: Slot, hash: string, c: JournalCommit)
    requires h !in s.handlers && slot !in s.db.idempotency
    requires Drafts(Handler(slot, hash, false, Build), c) && Ids(c.events) !! s.issued
    ensures Exec(s, Arrival(h, slot, hash, c)) ==
            s.(handlers := s.handlers[h := Handler(slot, hash, false, GuardLoad(c))],
               issued := s.issued + Ids(c.events))
  {
    ThreeSteps(s, Serve(h, Arrive(slot, hash, false)), Serve(h, Find), Serve(h, Draft(c)));
    var s1 := s.(handlers := s.handlers[h := Handler(slot, hash, false, Lookup)]);
    assert Do(s, Serve(h, Arrive(slot, hash, false))) == s1;
    FoundNothing(s, h, slot, hash, false);
    Drafted(s, h, slot, hash, c);
  }

  lemma FoundNothing(s: Sys, h: nat, slot: Slot, hash: string, opens: bool)
    requires slot !in s.db.idempotency
    ensures Do(s.(handlers := s.handlers[h := Handler(slot, hash, opens, Lookup)]), Serve(h, Find))
            == s.(handlers := s.handlers[h := Handler(slot, hash, opens, Build)])
  {
    var hd := Handler(slot, hash, opens, Build);
    var s1 := s.(handlers := s.handlers[h := hd.(phase := Lookup)]);
    assert s1.handlers[h := hd] == s.handlers[h := hd];
  }

  lemma Drafted(s: Sys, h: nat, slot: Slot, hash: string, c: JournalCommit)
    requires Drafts(Handler(slot, hash, false, Build), c) && Ids(c.events) !! s.issued
    ensures Do(s.(handlers := s.handlers[h := Handler(slot, hash, false, Build)]), Serve(h, Draft(c)))
            == s.(handlers := s.handlers[h := Handler(slot, hash, false, GuardLoad(c))],
                  issued := s.issued + Ids(c.events))
  {
    var hd := Handler(slot, hash, false, Build);
    var s2 := s.(handlers := s.handlers[h := hd]);
    assert CanServe(s2, h, Draft(c));
    assert s2.handlers[h := hd.(phase := GuardLoad(c))] == s.handlers[h := hd.(phase := GuardLoad(c))];
  }

  /** The guard finds nothing to object to in this state. */
  ghost predicate Passes(s: Sys, c: JournalCommit, keys: seq<Key>) {
    && RunningFits(map[], c.entry.postings)
    && (forall i :: 0 <= i < |c.entry.postings| ==> !AccountRefused(s.db.accounts, c.entry.postings[i].account))
    && Ascending(keys, KeyLt) && Elements(keys) == Cells(c.entry.postings)
  }

  lemma Loads(s: Sys, h: nat, c: JournalCommit, keys: seq<Key>)
    requires h in s.handlers && s.handlers[h].phase == GuardLoad(c) && Passes(s, c, keys)
    ensures Do(s, Serve(h, LoadAccounts(keys))) == Move(s, h, GuardRead(c, s.db.accounts, keys))
  {
  }

  lemma {:induction false} ReadsThrough(s: Sys, h: nat, c: JournalCommit, loaded: Accounts, keys: seq<Key>)
    requires h in s.handlers
    requires forall i :: 0 <= i < |keys| ==> ReadOne(s.db, c, loaded, keys[i]).Ok?
    ensures Exec(Move(s, h, GuardRead(c, loaded, keys)), Reads(h, |keys| + 1)) == Move(s, h, Submit(c))
    decreases |keys|
  {
    if keys == [] {
      ReadsNone(s, h, c, loaded);
    } else {
      ReadsStep(s, h, c, loaded, keys);
      ReadsThrough(s, h, c, loaded, keys[1..]);
    }
  }

  lemma ReadsNone(s: Sys, h: nat, c: JournalCommit, loaded: Accounts)
    requires h in s.handlers
    ensures Exec(Move(s, h, GuardRead(c, loaded, [])), Reads(h, 1)) == Move(s, h, Submit(c))
  {
    ReadsFirst(Move(s, h, GuardRead(c, loaded, [])), h, 0);
    ReadsLast(s, h, c, loaded);
  }

  lemma ReadsStep(s: Sys, h: nat, c: JournalCommit, loaded: Accounts, keys: seq<Key>)
    requires h in s.handlers && keys != [] && ReadOne(s.db, c, loaded, keys[0]).Ok?
    ensures Exec(Move(s, h, GuardRead(c, loaded, keys)), Reads(h, |keys| + 1)) ==
            Exec(Move(s, h, GuardRead(c, loaded, keys[1..])), Reads(h, |keys|))
  {
    ReadsFirst(Move(s, h, GuardRead(c, loaded, keys)), h, |keys|);
    ReadsOne(s, h, c, loaded, keys);
  }

  lemma ReadsFirst(s: Sys, h: nat, n: nat)
    ensures Exec(s, Reads(h, n + 1)) == Exec(Do(s, Serve(h, ReadBalance)), Reads(h, n))
  {
    ExecConcat(s, [Serve(h, ReadBalance)], Reads(h, n));
    ExecOne(s, Serve(h, ReadBalance));
  }

  lemma ReadsLast(s: Sys, h: nat, c: JournalCommit, loaded: Accounts)
    requires h in s.handlers
    ensures Do(Move(s, h, GuardRead(c, loaded, [])), Serve(h, ReadBalance)) == Move(s, h, Submit(c))
  {
    var now := Move(s, h, GuardRead(c, loaded, []));
    assert now.handlers[h := s.handlers[h].(phase := Submit(c))] == s.handlers[h := s.handlers[h].(phase := Submit(c))];
  }

  lemma ReadsOne(s: Sys, h: nat, c: JournalCommit, loaded: Accounts, keys: seq<Key>)
    requires h in s.handlers && keys != []
    ensures var checked := ReadOne(s.db, c, loaded, keys[0]);
            Do(Move(s, h, GuardRead(c, loaded, keys)), Serve(h, ReadBalance)) ==
            Move(s, h, if checked.Ok? then GuardRead(c, loaded, keys[1..]) else Done(Err(checked.error)))
  {
    var now := Move(s, h, GuardRead(c, loaded, keys));
    var phase := if ReadOne(s.db, c, loaded, keys[0]).Ok? then GuardRead(c, loaded, keys[1..])
                 else Done(Err(ReadOne(s.db, c, loaded, keys[0]).error));
    assert now.handlers[h := s.handlers[h].(phase := phase)] == s.handlers[h := s.handlers[h].(phase := phase)];
  }

  lemma Guards(s: Sys, h: nat, c: JournalCommit, keys: seq<Key>)
    requires h in s.handlers && s.handlers[h].phase == GuardLoad(c) && Passes(s, c, keys)
    requires forall i :: 0 <= i < |keys| ==> ReadOne(s.db, c, s.db.accounts, keys[i]).Ok?
    ensures Exec(s, Guarding(h, keys)) == Move(s, h, Submit(c))
  {
    ExecConcat(s, [Serve(h, LoadAccounts(keys))], Reads(h, |keys| + 1));
    ExecOne(s, Serve(h, LoadAccounts(keys)));
    Loads(s, h, c, keys);
    ReadsThrough(s, h, c, s.db.accounts, keys);
  }

  /** The system once handler `h` has its fresh answer and the store is `db`. */
  function Answered(s: Sys, h: nat, db: Db, response: Response): Sys
    requires h in s.handlers
  {
    var hd := s.handlers[h];
    s.(db := db, handlers := s.handlers[h := hd.(phase := Done(Ok(response)))],
       log := s.log + [Accepted(hd.slot, Answer(hd.hash, response))])
  }

  lemma Writes(s: Sys, h: nat, c: JournalCommit)
    requires h in s.handlers && CommitJournal(s.db, c).0 == Ok(Committed)
    ensures Exec(Move(s, h, Submit(c)), [Serve(h, Write)]) ==
            Answered(s, h, CommitJournal(s.db, c).1, c.record.response)
  {
    var now := Move(s, h, Submit(c));
    ExecOne(now, Serve(h, Write));
    var done := s.handlers[h].(phase := Done(Ok(c.record.response)));
    assert now.handlers[h := done] == s.handlers[h := done];
  }

  lemma GuardsAndWrites(s: Sys, h: nat, c: JournalCommit, keys: seq<Key>)
    requires h in s.handlers && s.handlers[h].phase == GuardLoad(c) && Passes(s, c, keys)
    requires forall i :: 0 <= i < |keys| ==> ReadOne(s.db, c, s.db.accounts, keys[i]).Ok?
    requires CommitJournal(s.db, c).0 == Ok(Committed)
    ensures Exec(s, Guarding(h, keys) + [Serve(h, Write)]) ==
            Answered(s, h, CommitJournal(s.db, c).1, c.record.response)
  {
    ExecConcat(s, Guarding(h, keys), [Serve(h, Write)]);
    Guards(s, h, c, keys);
    Writes(s, h, c);
  }

  /** What the store admits, the guard lets through: every balance read succeeds. */
  lemma AdmittedIsRead(s: Sys, c: JournalCommit, keys: seq<Key>)
    requires RunningFits(map[], c.entry.postings) && Admissible(s.db.accounts, s.db.balances, c.entry.postings)
    requires Ascending(keys, KeyLt) && Elements(keys) == Cells(c.entry.postings)
    ensures Passes(s, c, keys)
    ensures forall i :: 0 <= i < |keys| ==> ReadOne(s.db, c, s.db.accounts, keys[i]).Ok?
  {
    AdmissibleIsAccepted(s.db.accounts, s.db.balances, c.entry.postings);
    forall i | 0 <= i < |keys| ensures ReadOne(s.db, c, s.db.accounts, keys[i]).Ok? {
      assert !CellRefused(s.db.accounts, s.db.balances, keys[i], Net(c.entry.postings, keys[i]));
    }
  }

  lemma AdmittedCommits(db: Db, c: JournalCommit)
    requires c.record.slot !in db.idempotency && Admissible(db.accounts, db.balances, c.entry.postings)
    ensures CommitJournal(db, c).0 == Ok(Committed)
  {
    CommitAtomic(db, c);
  }

  /** A command whose deltas fit and whose running balances the store admits, run from arrival
      to answer without interference in any state of the system, posts exactly its commit, is
      answered with its response and logged as accepted. */
  lemma CommandPosts(s: Sys, h: nat, slot: Slot, hash: string, c: JournalCommit, keys: seq<Key>)
    requires h !in s.handlers && slot !in s.db.idempotency
    requires Drafts(Handler(slot, hash, false, Build), c) && Ids(c.events) !! s.issued
    requires Ascending(keys, KeyLt) && Elements(keys) == Cells(c.entry.postings)
    requires RunningFits(map[], c.entry.postings) && Admissible(s.db.accounts, s.db.balances, c.entry.postings)
    ensures CommitJournal(s.db, c).0 == Ok(Committed)
    ensures Exec(s, Arrival(h, slot, hash, c) + (Guarding(h, keys) + [Serve(h, Write)])) ==
            s.(db := CommitJournal(s.db, c).1,
               handlers := s.handlers[h := Handler(slot, hash, false, Done(Ok(c.record.response)))],
               issued := s.issued + Ids(c.events),
               log := s.log + [Accepted(slot, Answer(hash, c.record.response))])
  {
    var s1 := s.(handlers := s.handlers[h := Handler(slot, hash, false, GuardLoad(c))],
                 issued := s.issued + Ids(c.events));
    var done := Handler(slot, hash, false, Done(Ok(c.record.response)));
    AdmittedIsRead(s1, c, keys);
    AdmittedCommits(s.db, c);
    Arrives(s, h, slot, hash, c);
    ExecConcat(s, Arrival(h, slot, hash, c), Guarding(h, keys) + [Serve(h, Write)]);
    GuardsAndWrites(s1, h, c, keys);
    assert s1.handlers[h := done] == s.handlers[h := done];
  }

  // ---- opening an account ---------------------------------------------------

  function Application(h: nat, slot: Slot, hash: string, c: AccountCommit): seq<Action> {
    [Serve(h, Arrive(slot, hash, true)), Serve(h, Find), Serve(h, DraftAccount(c))]
  }

  ghost predicate MayOpen(s: Sys, h: nat, slot: Slot, hash: string, c: AccountCommit) {
    && h !in s.handlers && slot !in s.db.idempotency
    && DraftsAccount(Handler(slot, hash, true, Build), c) && (Ids(c.events) + {c.account.id}) !! s.issued
  }

  function AfterDraft(db: Db, c: AccountCommit): Phase {
    if NameTaken(db.accounts, c.account.name) then Done(Err(Conflict(c.account.name))) else SubmitAccount(c)
  }

  lemma Applies(s: Sys, h: nat, slot: Slot, hash: string, c: AccountCommit)
    requires MayOpen(s, h, slot, hash, c)
    ensures Exec(s, Application(h, slot, hash, c)) ==
            s.(handlers := s.handlers[h := Handler(slot, hash, true, AfterDraft(s.db, c))],
               issued := s.issued + Ids(c.events) + {c.account.id})
  {
    ThreeSteps(s, Serve(h, Arrive(slot, hash, true)), Serve(h, Find), Serve(h, DraftAccount(c)));
    var s1 := s.(handlers := s.handlers[h := Handler(slot, hash, true, Lookup)]);
    assert Do(s, Serve(h, Arrive(slot, hash, true))) == s1;
    FoundNothing(s, h, slot, hash, true);
    OpeningDrafted(s, h, slot, hash, c);
  }

  lemma OpeningDrafted(s: Sys, h: nat, slot: Slot, hash: string, c: AccountCommit)
    requires MayOpen(s, h, slot, hash, c)
    ensures Do(s.(handlers := s.handlers[h := Handler(slot, hash, true, Build)]), Serve(h, DraftAccount(c)))
            == s.(handlers := s.handlers[h := Handler(slot, hash, true, AfterDraft(s.db, c))],
                  issued := s.issued + Ids(c.events) + {c.account.id})
  {
    var hd := Handler(slot, hash, true, Build);
    var hd' := hd.(phase := AfterDraft(s.db, c));
    var s2 := s.(handlers := s.handlers[h := hd]);
    assert CanServe(s2, h, DraftAccount(c));
    assert s2.handlers[h := hd'] == s.handlers[h := hd'];
  }

  lemma Opens(s: Sys, h: nat, c: AccountCommit)
    requires h in s.handlers && s.handlers[h].phase == SubmitAccount(c)
    requires c.record.slot !in s.db.idempotency
    ensures Do(s, Serve(h, Write)) ==
            if NameTaken(s.db.accounts, c.account.name) then Move(s, h, Done(Err(Conflict(c.account.name))))
            else Answered(s, h, CreateAccount(s.db, c).1, c.record.response)
  {
  }

  /** Opening an account without interference in any state of the system: under a new name it is
      stored with its events and its record and the handler answers with it; under a taken name
      it is refused and nothing changes. */
  lemma AccountOpens(s: Sys, h: nat, slot: Slot, hash: string, c: AccountCommit)
    requires MayOpen(s, h, slot, hash, c)
    ensures var taken := exists a :: a in s.db.accounts && s.db.accounts[a].name == c.account.name;
            Exec(s, Application(h, slot, hash, c) + [Serve(h, Write)]) ==
            s.(db := if taken then s.db else CreateAccount(s.db, c).1,
               handlers := s.handlers[h := Handler(slot, hash, true,
                             Done(if taken then Err(Conflict(c.account.name)) else Ok(AccountCreated(c.account))))],
               issued := s.issued + Ids(c.events) + {c.account.id},
               log := if taken then s.log else s.log + [Accepted(slot, Answer(hash, AccountCreated(c.account)))])
  {
    var hd := Handler(slot, hash, true, AfterDraft(s.db, c));
    var s1 := s.(handlers := s.handlers[h := hd], issued := s.issued + Ids(c.events) + {c.account.id});
    Applies(s, h, slot, hash, c);
    ExecConcat(s, Application(h, slot, hash, c), [Serve(h, Write)]);
    ExecOne(s1, Serve(h, Write));
    if !NameTaken(s.db.accounts, c.account.name) {
      Opens(s1, h, c);
      var done := hd.(phase := Done(Ok(AccountCreated(c.account))));
      assert s1.handlers[h := done] == s.handlers[h := done];
    }
  }

  /** Found taken only at the write, after another handler was faster: refused as well. */
  lemma NameLost(s: Sys, h: nat, c: AccountCommit)
    requires h in s.handlers && s.handlers[h].phase == SubmitAccount(c)
    requires c.record.slot !in s.db.idempotency && NameTaken(s.db.accounts, c.account.name)
    ensures Do(s, Serve(h, Write)) == Move(s, h, Done(Err(Conflict(c.account.name))))
  {
    Opens(s, h, c);
  }

  // ---- account names --------------------------------------------------------

  ghost predicate UniqueNames(accounts: Accounts) {
    forall a, b :: a in accounts && b in accounts && accounts[a].name == accounts[b].name ==> a == b
  }

  lemma CreateKeepsNames(db: Db, c: AccountCommit)
    requires UniqueNames(db.accounts)
    ensures UniqueNames(CreateAccount(db, c).1.accounts)
  {
    RecordAppends(db.(idempotency := db.idempotency[c.record.slot := c.record],
                      accounts := db.accounts[c.account.id := c.account]), c.events);
    assert !NameTaken(db.accounts, c.account.name) ==>
             forall a :: a in db.accounts ==> db.accounts[a].name != c.account.name;
  }

  lemma CommitKeepsAccounts(db: Db, c: JournalCommit)
    ensures CommitJournal(db, c).1.accounts == db.accounts
  {
    CommitAtomic(db, c);
  }

  lemma WriteKeepsNames(s: Sys, h: nat)
    requires CanServe(s, h, Write) && UniqueNames(s.db.accounts)
    ensures UniqueNames(WriteStep(s, h).db.accounts)
  {
    WriteShape(s, h);
    var phase := s.handlers[h].phase;
    if phase.Submit? { CommitKeepsAccounts(s.db, phase.commit); } else { CreateKeepsNames(s.db, phase.opening); }
  }

  lemma StepKeepsNames(s: Sys, a: Action)
    requires UniqueNames(s.db.accounts)
    ensures UniqueNames(Do(s, a).db.accounts)
  {
    if a.Serve? && CanServe(s, a.handler, a.act) && (a.act.Write? || a.act.WriteUnheard?) {
      WriteKeepsNames(s, a.handler);
    } else {
      assert Do(s, a).db.accounts == s.db.accounts;
    }
  }

  /** However openings race, no two accounts of a reachable state share a name. */
  lemma {:induction false} NamesStayUnique(seeded: Accounts, actions: seq<Action>)
    requires UniqueNames(seeded)
    ensures UniqueNames(Exec(Boot(seeded), actions).db.accounts)
  {
    if actions != [] {
      NamesStayUnique(seeded, actions[..|actions| - 1]);
      StepKeepsNames(Exec(Boot(seeded), actions[..|actions| - 1]), actions[|actions| - 1]);
    }
  }
}
