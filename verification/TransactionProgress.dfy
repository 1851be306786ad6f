/** Transactions of the PostgreSQL adapter get through
    (crates/storage-postgres/src/store.rs:63-230, 236-272, 344-378): a transaction nobody blocks
    does exactly what the one-at-a-time store does, and beside others only the store's own
    refusals end one early. */
module TransactionProgress {
  import opened Sequences
  import opened Amounts
  import opened Store
  import opened Invariants
  import opened Transactions
  import opened Visibility

  /** What the one-at-a-time store answers and becomes. */
  function Outcome(db: Db, w: Work): (Result<CommitOutcome, LedgerError>, Db) {
    match w
    case Post(c) => CommitJournal(db, c)
    case Opening(c) => CreateAccount(db, c)
  }

  /** The database with transaction `t` open as given, or not open. */
  function With(pg: Pg, t: nat, x: Option<Txn>): Pg {
    pg.(txns := if x.Some? then pg.txns[t := x.value] else pg.txns - {t})
  }

  function Repeat(a: Action, n: nat): seq<Action> {
    if n == 0 then [] else [a] + Repeat(a, n - 1)
  }

  /** The statements of a transaction in order. */
  function Statements(t: nat, w: Work): seq<Action> {
    [Begin(t, w)] + (Repeat(PostNext(t), |w.Legs()|) +
                     (Placing(t, w) + (Repeat(Enqueue(t), |w.Events()|) + [CommitTxn(t)])))
  }

  function Placing(t: nat, w: Work): seq<Action> {
    if w.Opening? then [Place(t)] else []
  }

  /** No other open transaction holds an account it posts to or the name it would insert. */
  predicate Unblocked(pg: Pg, t: nat, w: Work) {
    && t !in pg.txns
    && (forall i :: 0 <= i < |w.Legs()| ==> LockFree(pg, t, w.Legs()[i].account))
    && (w.Opening? ==> !NameHeld(pg, t, w.opening.account.name))
  }

  /** The transaction may begin and nobody is in its way; so always when none is open. */
  ghost predicate Clear(pg: Pg, t: nat, w: Work) {
    Can(pg, Begin(t, w)) && Unblocked(pg, t, w)
  }

  lemma ExecStep(pg: Pg, a: Action, rest: seq<Action>)
    ensures Exec(pg, [a]) == Do(pg, a) && Exec(pg, [a] + rest) == Exec(Do(pg, a), rest)
  {
    assert [a][..0] == [];
    ExecConcat(pg, [a], rest);
  }

  /** The same step `n` times. */
  ghost function Times(pg: Pg, a: Action, n: nat): Pg
    decreases n
  {
    if n == 0 then pg else Times(Do(pg, a), a, n - 1)
  }

  lemma TimesStep(pg: Pg, a: Action, n: nat, pg': Pg)
    requires n > 0 && Do(pg, a) == pg'
    ensures Times(pg, a, n) == Times(pg', a, n - 1)
  {
  }

  lemma {:induction false} ExecRepeat(pg: Pg, a: Action, n: nat)
    ensures Exec(pg, Repeat(a, n)) == Times(pg, a, n)
    decreases n
  {
    if n > 0 {
      ExecStep(pg, a, Repeat(a, n - 1));
      ExecRepeat(Do(pg, a), a, n - 1);
    }
  }

  /** Without its transaction, the rest of the statements do nothing. */
  lemma NoTxnNoStep(pg: Pg, t: nat)
    requires t !in pg.txns
    ensures Do(pg, PostNext(t)) == pg && Do(pg, Place(t)) == pg && Do(pg, Enqueue(t)) == pg
    ensures Do(pg, CommitTxn(t)) == pg && With(pg, t, None) == pg
  {
    assert pg.txns - {t} == pg.txns;
  }

  lemma {:induction false} IdleTimes(pg: Pg, a: Action, n: nat)
    requires Do(pg, a) == pg
    ensures Times(pg, a, n) == pg
  {
    if n > 0 { IdleTimes(pg, a, n - 1); }
  }

  // ---- postings -------------------------------------------------------------

  /** `n` postings applied, nothing else written yet. */
  ghost predicate Posting(db: Db, x: Txn, w: Work, n: nat) {
    && x == Txn(w, n, x.writes, x.locks, false, [])
    && PostedSo(db.accounts, db.balances, w.Legs(), n, x.writes, x.locks)
  }

  function OneMore(db: Db, x: Option<Txn>): Option<Txn> {
    if x.None? || x.value.next >= |x.value.work.Legs()| then None else Advanced(db, x.value)
  }

  /** The transaction after `n` more postings, if it gets there. */
  function AfterPosts(db: Db, x: Option<Txn>, n: nat): Option<Txn>
    decreases n
  {
    if n == 0 then x else AfterPosts(db, OneMore(db, x), n - 1)
  }

  /** A posting goes through iff the store's rule admits it after the ones before. */
  lemma OnePostExact(db: Db, x: Txn, w: Work, n: nat)
    requires Posting(db, x, w, n) && n < |w.Legs()|
    ensures Advanced(db, x).Some? <==> ApplyAll(db.accounts, db.balances, w.Legs()[..n + 1]).Ok?
    ensures Advanced(db, x).Some? ==> Posting(db, Advanced(db, x).value, w, n + 1)
  {
    AdvancedExactly(db, x);
    if Advanced(db, x).Some? { PostKeepsPosted(db.accounts, db.balances, w.Legs(), n, x.writes, x.locks); }
  }

  /** The transaction is at posting `n` iff the store's rule admits the postings up to it. */
  ghost predicate Reached(db: Db, x: Option<Txn>, w: Work, n: nat) {
    && n <= |w.Legs()|
    && (x.Some? <==> ApplyAll(db.accounts, db.balances, w.Legs()[..n]).Ok?)
    && (x.Some? ==> Posting(db, x.value, w, n))
  }

  lemma ReachedStep(db: Db, x: Option<Txn>, w: Work, n: nat)
    requires Reached(db, x, w, n) && n < |w.Legs()|
    ensures Reached(db, OneMore(db, x), w, n + 1)
  {
    if x.Some? {
      OnePostExact(db, x.value, w, n);
    } else {
      assert w.Legs()[..n + 1][..n] == w.Legs()[..n];
    }
  }

  lemma {:induction false} PostsReach(db: Db, x: Option<Txn>, w: Work, n: nat)
    requires n <= |w.Legs()| && Reached(db, x, w, |w.Legs()| - n)
    ensures Reached(db, AfterPosts(db, x, n), w, |w.Legs()|)
    decreases n
  {
    if n > 0 {
      ReachedStep(db, x, w, |w.Legs()| - n);
      PostsReach(db, OneMore(db, x), w, n - 1);
    }
  }

  lemma PostOne(pg: Pg, t: nat, x: Txn)
    requires t !in pg.txns && x.next < |x.work.Legs()| && LockFree(pg, t, x.work.Legs()[x.next].account)
    ensures Do(With(pg, t, Some(x)), PostNext(t)) == With(pg, t, Advanced(pg.db, x))
  {
    var pg1, x' := With(pg, t, Some(x)), Advanced(pg.db, x);
    assert pg1.txns - {t} == pg.txns - {t};
    if x'.Some? { assert pg1.txns[t := x'.value] == pg.txns[t := x'.value]; }
  }

  /** The transaction, if still open, is at posting `n` of its work. */
  predicate At(x: Option<Txn>, w: Work, n: nat) {
    x.Some? ==> x.value.work == w && x.value.next == n
  }

  lemma PostsStep(pg: Pg, t: nat, w: Work, n: nat, x: Option<Txn>)
    requires Unblocked(pg, t, w) && n < |w.Legs()| && At(x, w, n)
    ensures Do(With(pg, t, x), PostNext(t)) == With(pg, t, OneMore(pg.db, x))
    ensures At(OneMore(pg.db, x), w, n + 1)
  {
    if x.Some? { PostOne(pg, t, x.value); } else { NoTxnNoStep(pg, t); }
  }

  lemma {:induction false} PostsRun(pg: Pg, t: nat, w: Work, n: nat, x: Option<Txn>)
    requires Unblocked(pg, t, w) && n <= |w.Legs()| && At(x, w, |w.Legs()| - n)
    ensures Times(With(pg, t, x), PostNext(t), n) == With(pg, t, AfterPosts(pg.db, x, n))
    decreases n
  {
    if n > 0 {
      PostsStep(pg, t, w, |w.Legs()| - n, x);
      PostsRun(pg, t, w, n - 1, OneMore(pg.db, x));
    }
  }

  // ---- the account row ------------------------------------------------------

  /** Everything but the outbox is written. */
  ghost predicate Filled(db: Db, x: Txn, w: Work) {
    && x == Txn(w, |w.Legs()|, x.writes, x.locks, w.Opening?, [])
    && ApplyAll(db.accounts, db.balances, w.Legs()) == Ok(Seen(db, x))
    && (w.Opening? ==> !NameTaken(db.accounts, w.opening.account.name))
  }

  /** The transaction after its account row, if it has one and gets there. */
  function AfterPlace(db: Db, x: Txn): Option<Txn> {
    if x.work.Post? then Some(x)
    else if NameTaken(db.accounts, x.work.opening.account.name) then None
    else Some(x.(placed := true))
  }

  lemma AfterPlaceFilled(db: Db, x: Txn, w: Work)
    requires Posting(db, x, w, |w.Legs()|)
    ensures AfterPlace(db, x).Some? ==> Filled(db, AfterPlace(db, x).value, w)
  {
    assert w.Legs()[..|w.Legs()|] == w.Legs();
  }

  lemma PlaceRun(pg: Pg, t: nat, w: Work, x: Txn)
    requires Unblocked(pg, t, w) && Posting(pg.db, x, w, |w.Legs()|)
    ensures Exec(With(pg, t, Some(x)), Placing(t, w)) == With(pg, t, AfterPlace(pg.db, x))
  {
    var pg1 := With(pg, t, Some(x));
    if w.Opening? {
      var x' := x.(placed := true);
      ExecStep(pg1, Place(t), []);
      NameHeldByOthers(pg, t, x, w.opening.account.name);
      assert pg1.txns - {t} == pg.txns - {t} && pg1.txns[t := x'] == pg.txns[t := x'];
    }
  }

  lemma NameHeldByOthers(pg: Pg, t: nat, x: Txn, name: string)
    requires t !in pg.txns
    ensures NameHeld(With(pg, t, Some(x)), t, name) ==> NameHeld(pg, t, name)
  {
    var pg1 := With(pg, t, Some(x));
    assert forall u :: u in pg1.txns && u != t ==> u in pg.txns && pg.txns[u] == pg1.txns[u];
  }

  // ---- the outbox -----------------------------------------------------------

  /** `n` outbox rows inserted under consecutive ids. */
  function Enqueued(pg: Pg, t: nat, x: Txn, n: nat): Pg
    requires n <= |x.work.Events()|
  {
    With(pg.(db := pg.db.(nextOutboxId := pg.db.nextOutboxId + n)), t,
         Some(x.(rows := NewRows(pg.db.nextOutboxId, x.work.Events()[..n]))))
  }

  lemma EnqueueOne(pg: Pg, t: nat, x: Txn, n: nat)
    requires t !in pg.txns && x.Written() && n < |x.work.Events()|
    ensures Do(Enqueued(pg, t, x, n), Enqueue(t)) == Enqueued(pg, t, x, n + 1)
  {
    var last, events := pg.db.nextOutboxId, x.work.Events();
    var row := Row(last + n + 1, events[n], 0, None, None, None);
    assert NewRows(last, events[..n + 1]) == NewRows(last, events[..n]) + [row];
    var x1, x2 := x.(rows := NewRows(last, events[..n])), x.(rows := NewRows(last, events[..n + 1]));
    assert pg.txns[t := x1][t := x2] == pg.txns[t := x2];
    EnqueueShape(Enqueued(pg, t, x, n), t, row);
  }

  lemma {:induction false} EnqueueRun(pg: Pg, t: nat, x: Txn, m: nat)
    requires t !in pg.txns && x.Written() && m <= |x.work.Events()|
    ensures Times(Enqueued(pg, t, x, m), Enqueue(t), |x.work.Events()| - m) == Enqueued(pg, t, x, |x.work.Events()|)
    decreases |x.work.Events()| - m
  {
    if m < |x.work.Events()| {
      EnqueueOne(pg, t, x, m);
      TimesStep(Enqueued(pg, t, x, m), Enqueue(t), |x.work.Events()| - m, Enqueued(pg, t, x, m + 1));
      EnqueueRun(pg, t, x, m + 1);
    }
  }

  lemma NothingEnqueued(pg: Pg, t: nat, x: Txn)
    requires x.rows == []
    ensures Enqueued(pg, t, x, 0) == With(pg, t, Some(x))
  {
    assert NewRows(pg.db.nextOutboxId, x.work.Events()[..0]) == [];
    assert x.(rows := []) == x;
  }

  // ---- the commit -----------------------------------------------------------

  /** Neither the key nor an event id is in use. */
  predicate Unused(db: Db, w: Work) {
    w.Stamp().slot !in db.idempotency && Fresh(db.outbox, w.Events())
  }

  /** With all rows inserted, committing yields what the store's own operation yields. */
  lemma CommitRun(pg: Pg, t: nat, w: Work, x: Txn)
    requires t !in pg.txns && Filled(pg.db, x, w) && Unused(pg.db, w)
    ensures Outcome(pg.db, w).0 == Ok(Committed)
    ensures Do(Enqueued(pg, t, x, |w.Events()|), CommitTxn(t)) ==
            Pg(Outcome(pg.db, w).1, pg.txns, pg.history + [Finished(w)])
  {
    CommitStep(pg, t, x);
    CommittedState(pg.db, w, x);
  }

  lemma CommitStep(pg: Pg, t: nat, x: Txn)
    requires t !in pg.txns && x.Written()
    ensures var n := |x.work.Events()|;
            Do(Enqueued(pg, t, x, n), CommitTxn(t)) ==
            Pg(Applied(pg.db.(nextOutboxId := pg.db.nextOutboxId + n),
                       x.(rows := NewRows(pg.db.nextOutboxId, x.work.Events()))),
               pg.txns, pg.history + [Finished(x.work)])
  {
    var x' := x.(rows := NewRows(pg.db.nextOutboxId, x.work.Events()));
    assert x.work.Events()[..|x.work.Events()|] == x.work.Events();
    assert pg.txns[t := x'] - {t} == pg.txns;
  }

  lemma CommittedState(db: Db, w: Work, x: Txn)
    requires Filled(db, x, w) && Unused(db, w)
    ensures Outcome(db, w).0 == Ok(Committed)
    ensures Outcome(db, w).1 ==
            Applied(db.(nextOutboxId := db.nextOutboxId + |w.Events()|),
                    x.(rows := NewRows(db.nextOutboxId, w.Events())))
  {
    match w
    case Post(c) =>
      CommitShape(db, c);
    case Opening(c) =>
      CreateShape(db, c);
  }

  // ---- a whole transaction --------------------------------------------------

  lemma BeginRun(pg: Pg, t: nat, w: Work)
    requires Clear(pg, t, w)
    ensures var x := Txn(w, 0, map[], {}, false, []);
            if w.Stamp().slot in pg.db.idempotency then Do(pg, Begin(t, w)) == pg
            else Do(pg, Begin(t, w)) == With(pg, t, Some(x)) && Reached(pg.db, Some(x), w, 0)
  {
    assert w.Legs()[..0] == [] && pg.db.balances + map[] == pg.db.balances;
  }

  lemma IdleRest(pg: Pg, t: nat, w: Work)
    requires t !in pg.txns
    ensures Times(pg, PostNext(t), |w.Legs()|) == pg
    ensures Exec(pg, Placing(t, w)) == pg
    ensures Times(pg, Enqueue(t), |w.Events()|) == pg
    ensures Do(pg, CommitTxn(t)) == pg
  {
    NoTxnNoStep(pg, t);
    IdleTimes(pg, PostNext(t), |w.Legs()|);
    IdleTimes(pg, Enqueue(t), |w.Events()|);
    ExecStep(pg, Place(t), []);
  }

  /** What follows the postings. */
  ghost function Closing(pg: Pg, t: nat, w: Work): Pg {
    Do(Times(Exec(pg, Placing(t, w)), Enqueue(t), |w.Events()|), CommitTxn(t))
  }

  /** What follows the beginning. */
  ghost function Staged(pg: Pg, t: nat, w: Work): Pg {
    Closing(Times(pg, PostNext(t), |w.Legs()|), t, w)
  }

  lemma StatementsStaged(pg: Pg, t: nat, w: Work)
    ensures Exec(pg, Statements(t, w)) == Staged(Do(pg, Begin(t, w)), t, w)
  {
    var posts, inserts := Repeat(PostNext(t), |w.Legs()|), Repeat(Enqueue(t), |w.Events()|);
    var pg1 := Do(pg, Begin(t, w));
    var pg2 := Exec(pg1, posts);
    var pg3 := Exec(pg2, Placing(t, w));
    ExecStep(pg, Begin(t, w), posts + (Placing(t, w) + (inserts + [CommitTxn(t)])));
    ExecConcat(pg1, posts, Placing(t, w) + (inserts + [CommitTxn(t)]));
    ExecConcat(pg2, Placing(t, w), inserts + [CommitTxn(t)]);
    ExecConcat(pg3, inserts, [CommitTxn(t)]);
    ExecRepeat(pg1, PostNext(t), |w.Legs()|);
    ExecRepeat(pg3, Enqueue(t), |w.Events()|);
    ExecStep(Exec(pg3, inserts), CommitTxn(t), []);
  }

  /** The last two stretches. */
  lemma FilledRun(pg: Pg, t: nat, w: Work, x: Txn)
    requires t !in pg.txns && Filled(pg.db, x, w) && Unused(pg.db, w)
    ensures Outcome(pg.db, w).0 == Ok(Committed)
    ensures Do(Times(With(pg, t, Some(x)), Enqueue(t), |w.Events()|), CommitTxn(t)) ==
            Pg(Outcome(pg.db, w).1, pg.txns, pg.history + [Finished(w)])
  {
    NothingEnqueued(pg, t, x);
    EnqueueRun(pg, t, x, 0);
    CommitRun(pg, t, w, x);
  }

  /** The database after a transaction on its own. */
  function Ran(pg: Pg, w: Work): Pg {
    var (outcome, db) := Outcome(pg.db, w);
    Pg(db, pg.txns, if outcome == Ok(Committed) then pg.history + [Finished(w)] else pg.history)
  }

  lemma RefusedRan(pg: Pg, w: Work)
    requires || w.Stamp().slot in pg.db.idempotency
             || ApplyAll(pg.db.accounts, pg.db.balances, w.Legs()).Err?
             || (w.Opening? && NameTaken(pg.db.accounts, w.opening.account.name))
    ensures Ran(pg, w) == pg
  {
  }

  lemma DuplicateRun(pg: Pg, t: nat, w: Work)
    requires t !in pg.txns && w.Stamp().slot in pg.db.idempotency
    ensures Staged(pg, t, w) == Ran(pg, w)
  {
    IdleRest(pg, t, w);
    RefusedRan(pg, w);
  }

  lemma FreshRun(pg: Pg, t: nat, w: Work, x: Txn)
    requires Unblocked(pg, t, w) && Unused(pg.db, w)
    requires x.work == w && x.next == 0 && Reached(pg.db, Some(x), w, 0)
    ensures Staged(With(pg, t, Some(x)), t, w) == Ran(pg, w)
  {
    var n := |w.Legs()|;
    PostsRun(pg, t, w, n, Some(x));
    PostsReach(pg.db, Some(x), w, n);
    FinishRun(pg, t, w, AfterPosts(pg.db, Some(x), n));
  }

  /** Progress: the statements of a transaction that nobody blocks lead to exactly the state of
      the one-at-a-time store, row ids included, whether it commits, is a duplicate or is
      refused; none is left open, and the history records it iff it committed. */
  lemma StatementsCommit(pg: Pg, t: nat, w: Work)
    requires Clear(pg, t, w)
    ensures var (outcome, db) := Outcome(pg.db, w);
            Exec(pg, Statements(t, w)) ==
            Pg(db, pg.txns, if outcome == Ok(Committed) then pg.history + [Finished(w)] else pg.history)
  {
    StatementsStaged(pg, t, w);
    BeginRun(pg, t, w);
    if w.Stamp().slot in pg.db.idempotency {
      DuplicateRun(pg, t, w);
    } else {
      FreshRun(pg, t, w, Txn(w, 0, map[], {}, false, []));
    }
  }

  lemma FinishRun(pg: Pg, t: nat, w: Work, y: Option<Txn>)
    requires Unblocked(pg, t, w) && Unused(pg.db, w) && Reached(pg.db, y, w, |w.Legs()|)
    ensures Closing(With(pg, t, y), t, w) == Ran(pg, w)
  {
    IdleRest(pg, t, w);
    NoTxnNoStep(pg, t);
    assert w.Legs()[..|w.Legs()|] == w.Legs();
    if y.None? {
      RefusedRan(pg, w);
    } else {
      PlaceRun(pg, t, w, y.value);
      AfterPlaceFilled(pg.db, y.value, w);
      var z := AfterPlace(pg.db, y.value);
      if z.Some? { FilledRun(pg, t, w, z.value); } else { RefusedRan(pg, w); }
    }
  }

  // ---- every serial history -------------------------------------------------

  function Turn(op: Transactions.Op): seq<Action> {
    match op case Finished(w) => Statements(0, w) case Swept(cutoff) => [Sweep(cutoff)]
  }

  /** One transaction after another. */
  function InTurn(history: seq<Transactions.Op>): seq<Action> {
    if history == [] then [] else InTurn(history[..|history| - 1]) + Turn(history[|history| - 1])
  }

  /** With nothing open, whatever would succeed may begin and is not blocked. */
  lemma QuietIsClear(db: Db, history: seq<Transactions.Op>, w: Work)
    requires Succeeds(db, Finished(w))
    ensures Clear(Pg(db, map[], history), 0, w) && Outcome(db, w) == (Ok(Committed), SerialStep(db, Finished(w)))
  {
  }

  lemma TurnStep(db: Db, history: seq<Transactions.Op>, op: Transactions.Op)
    requires Succeeds(db, op)
    ensures Exec(Pg(db, map[], history), Turn(op)) == Pg(SerialStep(db, op), map[], history + [op])
  {
    var pg := Pg(db, map[], history);
    if op.Finished? {
      QuietIsClear(db, history, op.work);
      StatementsCommit(pg, 0, op.work);
    } else {
      ExecStep(pg, Sweep(op.cutoff), []);
    }
  }

  /** The converse of serialisability: every serial history whose transactions succeed in turn
      is the history of a run, and leads there to exactly its serial state. */
  lemma {:induction false} SerialIsReachable(seeded: Accounts, history: seq<Transactions.Op>)
    requires AllSucceed(Opened(seeded), history)
    ensures Exec(Start(seeded), InTurn(history)) == Pg(Serial(Opened(seeded), history), map[], history)
  {
    if history != [] {
      var n := |history| - 1;
      AllSucceedInit(Opened(seeded), history);
      SerialIsReachable(seeded, history[..n]);
      TurnStep(Serial(Opened(seeded), history[..n]), history[..n], history[n]);
      InitLast(history);
      ExecConcat(Start(seeded), InTurn(history[..n]), Turn(history[n]));
    }
  }

  // ---- beside others --------------------------------------------------------

  /** In any reachable state, a posting that may proceed ends its transaction exactly when the
      store, with the earlier postings of that transaction applied, refuses it. */
  lemma PostEndsExactly(seeded: Accounts, pg: Pg, t: nat)
    requires Inv(seeded, pg) && Can(pg, PostNext(t))
    ensures var x := pg.txns[t];
            t !in Do(pg, PostNext(t)).txns <==>
            ApplyAll(pg.db.accounts, pg.db.balances, x.work.Legs()[..x.next + 1]).Err?
  {
    assert TxnSound(pg.db, pg.txns[t]);
    AdvancedExactly(pg.db, pg.txns[t]);
  }

  lemma AdvancedExactly(db: Db, x: Txn)
    requires x.next < |x.work.Legs()| && ApplyAll(db.accounts, db.balances, x.work.Legs()[..x.next]) == Ok(Seen(db, x))
    ensures Advanced(db, x).Some? <==> ApplyAll(db.accounts, db.balances, x.work.Legs()[..x.next + 1]).Ok?
  {
    assert x.work.Legs()[..x.next + 1][..x.next] == x.work.Legs()[..x.next];
  }

  /** And inserting an account that may proceed exactly when the name is taken. */
  lemma PlaceEndsExactly(pg: Pg, t: nat)
    requires Can(pg, Place(t))
    ensures t !in Do(pg, Place(t)).txns <==> NameTaken(pg.db.accounts, pg.txns[t].work.opening.account.name)
  {
  }
}
