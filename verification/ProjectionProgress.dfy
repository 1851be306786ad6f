/** Transactions of `apply_journal` get through
    (crates/storage-postgres/src/projection.rs:30-113): undisturbed ones do exactly what the
    event asks for, and beside others only two things end one early. */
module ProjectionProgress {
  import opened Sequences
  import opened Amounts
  import opened Journal
  import opened Projection
  import opened ProjectionTxns

  lemma {:induction false} ExecConcat(s: Shop, a: seq<Act>, b: seq<Act>)
    ensures Exec(s, a + b) == Exec(Exec(s, a), b)
  {
    if b == [] {
      assert a + b == a;
    } else {
      ExecConcat(s, a, b[..|b| - 1]);
      ConcatInit(a, b);
    }
  }

  lemma ExecTwo(s: Shop, a: Act, b: Act)
    ensures Exec(s, [a]) == Do(s, a) && Exec(s, [a, b]) == Do(Do(s, a), b)
  {
    assert [a][..0] == [] && [a, b][..1] == [a];
  }

  // ---- one posting ----------------------------------------------------------

  /** Read the row of the next posting and write it. */
  function OneLeg(t: Tables, x: Task): Option<Task>
    requires x.next < |x.job.Legs()|
  {
    PutBy(t, ReadBy(t, x))
  }

  /** Between two postings. */
  ghost predicate Ready(t: Tables, x: Task, j: Job, n: nat) {
    TaskSound(t, x) && x.job == j && x.next == n && x.reading.None?
  }

  /** A posting is written iff its sum does not overflow; an absent row counts as zero. */
  lemma OneLegExact(t: Tables, x: Task, j: Job, n: nat)
    requires Ready(t, x, j, n) && n < |j.Legs()|
    ensures OneLeg(t, x).Some? <==> AddTo(t.balances, j.consumer, j.Legs()[..n + 1]).Some?
    ensures OneLeg(t, x).Some? ==> Ready(t, OneLeg(t, x).value, j, n + 1)
  {
    ReadKeepsTask(t, x);
    AddToSnoc(t.balances, j.consumer, j.Legs(), n);
    if OneLeg(t, x).Some? { PutKeepsTask(t, ReadBy(t, x)); }
  }

  /** A task set, or none. */
  function With(s: Shop, u: nat, x: Option<Task>): Shop {
    s.(tasks := if x.Some? then s.tasks[u := x.value] else s.tasks - {u})
  }

  lemma LegStep(s: Shop, u: nat, x: Task)
    requires u !in s.tasks && x.next < |x.job.Legs()| && x.reading.None?
    requires !Waits(s, u, x.job.RowAt(x.next))
    ensures Exec(With(s, u, Some(x)), [Read(u), Put(u)]) == With(s, u, OneLeg(s.tables, x))
  {
    var s1, y := With(s, u, Some(x)), ReadBy(s.tables, x);
    ExecTwo(s1, Read(u), Put(u));
    WaitsOnOthers(s, u, x, x.job.RowAt(x.next));
    WaitsOnOthers(s, u, y, x.job.RowAt(x.next));
    assert Do(s1, Read(u)) == With(s, u, Some(y)) by {
      assert s1.tasks[u := y] == s.tasks[u := y];
    }
    PutStep(s, u, y);
  }

  lemma PutStep(s: Shop, u: nat, y: Task)
    requires u !in s.tasks && Can(With(s, u, Some(y)), Put(u))
    ensures Do(With(s, u, Some(y)), Put(u)) == With(s, u, PutBy(s.tables, y))
  {
    var s1, put := With(s, u, Some(y)), PutBy(s.tables, y);
    assert s1.tasks - {u} == s.tasks - {u};
    if put.Some? { assert s1.tasks[u := put.value] == s.tasks[u := put.value]; }
  }

  lemma WaitsOnOthers(s: Shop, u: nat, x: Task, k: RowKey)
    ensures Waits(With(s, u, Some(x)), u, k) == Waits(s, u, k)
  {
    var s1 := With(s, u, Some(x));
    forall v | v in s.tasks && v != u ensures v in s1.tasks && s1.tasks[v] == s.tasks[v] {}
    forall v | v in s1.tasks && v != u ensures v in s.tasks && s1.tasks[v] == s.tasks[v] {}
  }

  /** Without its transaction, the rest of a task's statements do nothing. */
  lemma NoTaskNoStep(s: Shop, u: nat)
    requires u !in s.tasks
    ensures Exec(s, [Read(u), Put(u)]) == s && Do(s, Finish(u)) == s && With(s, u, None) == s
  {
    ExecTwo(s, Read(u), Put(u));
    assert s.tasks - {u} == s.tasks;
  }

  // ---- a whole transaction --------------------------------------------------

  /** One read and one write for each of `n` postings. */
  function Legwork(u: nat, n: nat): seq<Act> {
    if n == 0 then [] else [Read(u), Put(u)] + Legwork(u, n - 1)
  }

  /** The statements of `apply_journal` in order. */
  function Statements(u: nat, j: Job): seq<Act> {
    [Begin(u, j)] + Legwork(u, |j.Legs()|) + [Finish(u)]
  }

  /** No other open transaction is in the way of the job: none holds its dedup row or a lock on
      one of its rows. In particular when no transaction is open at all. */
  predicate Clear(s: Shop, u: nat, j: Job) {
    u !in s.tasks && !MarkHeld(s, j.Mark()) && forall i :: 0 <= i < |j.Legs()| ==> !Waits(s, u, j.RowAt(i))
  }

  function OneMore(t: Tables, x: Option<Task>): Option<Task> {
    if x.None? || x.value.next >= |x.value.job.Legs()| then None else OneLeg(t, x.value)
  }

  /** The transaction after `n` more postings, if it gets there. */
  function AfterLegs(t: Tables, x: Option<Task>, n: nat): Option<Task>
    decreases n
  {
    if n == 0 then x else AfterLegs(t, OneMore(t, x), n - 1)
  }

  /** The transaction is at posting `n` iff no sum up to it overflows. */
  ghost predicate Reached(t: Tables, x: Option<Task>, j: Job, n: nat) {
    && n <= |j.Legs()|
    && (x.Some? <==> AddTo(t.balances, j.consumer, j.Legs()[..n]).Some?)
    && (x.Some? ==> Ready(t, x.value, j, n))
  }

  lemma ReachedStep(t: Tables, x: Option<Task>, j: Job, n: nat)
    requires Reached(t, x, j, n) && n < |j.Legs()|
    ensures Reached(t, OneMore(t, x), j, n + 1)
  {
    if x.Some? {
      OneLegExact(t, x.value, j, n);
    } else {
      assert j.Legs()[..n + 1][..n] == j.Legs()[..n];
    }
  }

  lemma {:induction false} LegsReach(t: Tables, x: Option<Task>, j: Job, n: nat)
    requires n <= |j.Legs()| && Reached(t, x, j, |j.Legs()| - n)
    ensures Reached(t, AfterLegs(t, x, n), j, |j.Legs()|)
    decreases n
  {
    if n > 0 {
      ReachedStep(t, x, j, |j.Legs()| - n);
      LegsReach(t, OneMore(t, x), j, n - 1);
    }
  }

  /** The transaction, if still open, is about to read posting `n` of its job. */
  predicate At(x: Option<Task>, j: Job, n: nat) {
    x.Some? ==> x.value.job == j && x.value.next == n && x.value.reading.None?
  }

  lemma LegworkStep(s: Shop, u: nat, j: Job, n: nat, x: Option<Task>)
    requires Clear(s, u, j) && n < |j.Legs()| && At(x, j, n)
    ensures Exec(With(s, u, x), [Read(u), Put(u)]) == With(s, u, OneMore(s.tables, x))
    ensures At(OneMore(s.tables, x), j, n + 1)
  {
    if x.Some? { LegStep(s, u, x.value); } else { NoTaskNoStep(s, u); }
  }

  lemma {:induction false} LegworkRun(s: Shop, u: nat, j: Job, n: nat, x: Option<Task>)
    requires Clear(s, u, j) && n <= |j.Legs()| && At(x, j, |j.Legs()| - n)
    ensures Exec(With(s, u, x), Legwork(u, n)) == With(s, u, AfterLegs(s.tables, x, n))
    decreases n
  {
    if n > 0 {
      ExecConcat(With(s, u, x), [Read(u), Put(u)], Legwork(u, n - 1));
      LegworkStep(s, u, j, |j.Legs()| - n, x);
      LegworkRun(s, u, j, n - 1, OneMore(s.tables, x));
    }
  }

  lemma BeginStep(s: Shop, u: nat, j: Job)
    requires Clear(s, u, j)
    ensures var x := Task(j, 0, None, map[], {});
            if j.event.payload.JournalPosted? && j.Mark() !in s.tables.processed
            then Do(s, Begin(u, j)) == With(s, u, Some(x)) && Reached(s.tables, Some(x), j, 0)
            else Do(s, Begin(u, j)) == s
  {
    assert j.Legs()[..0] == [] && s.tables.balances + map[] == s.tables.balances;
  }

  lemma FinishStep(s: Shop, u: nat, j: Job, x: Task)
    requires u !in s.tasks && Ready(s.tables, x, j, |j.Legs()|)
    ensures Project(s.tables, j.consumer, j.event).0 == Ok(Applied)
    ensures Do(With(s, u, Some(x)), Finish(u)) ==
            s.(tables := Project(s.tables, j.consumer, j.event).1, history := s.history + [j])
  {
    CommitIsApply(s.tables, x);
    assert s.tasks[u := x] - {u} == s.tasks;
  }

  lemma NotApplied(s: Shop, j: Job)
    requires !j.event.payload.JournalPosted? || j.Mark() in s.tables.processed
             || AddTo(s.tables.balances, j.consumer, j.Legs()).None?
    ensures Project(s.tables, j.consumer, j.event).0 != Ok(Applied)
    ensures Project(s.tables, j.consumer, j.event).1 == s.tables
  {
    AddToIsAddRows(s.tables, j.consumer, j.Legs());
  }

  lemma {:induction false} IdleLegwork(s: Shop, u: nat, n: nat)
    requires u !in s.tasks
    ensures Exec(s, Legwork(u, n)) == s
  {
    NoTaskNoStep(s, u);
    if n > 0 {
      ExecConcat(s, [Read(u), Put(u)], Legwork(u, n - 1));
      IdleLegwork(s, u, n - 1);
    }
  }

  /** Progress: the statements of one job, with nobody in the way, lead from any tables to what
      `apply_journal` makes of them, whether it applies, has done so before, or overflows; no
      transaction is left open and the history records the job iff it was applied. */
  lemma StatementsApply(s: Shop, u: nat, j: Job)
    requires Clear(s, u, j)
    ensures var (outcome, tables) := Project(s.tables, j.consumer, j.event);
            Exec(s, Statements(u, j)) ==
            Shop(tables, s.tasks, if outcome == Ok(Applied) then s.history + [j] else s.history)
  {
    var x, n, s1 := Task(j, 0, None, map[], {}), |j.Legs()|, Do(s, Begin(u, j));
    StatementsSplit(s, u, j);
    BeginStep(s, u, j);
    NoTaskNoStep(s, u);
    if s1 == s {
      IdleLegwork(s, u, n);
      NotApplied(s, j);
    } else {
      LegworkRun(s, u, j, n, Some(x));
      LegsReach(s.tables, Some(x), j, n);
      assert j.Legs()[..n] == j.Legs();
      var y := AfterLegs(s.tables, Some(x), n);
      if y.Some? { FinishStep(s, u, j, y.value); } else { NotApplied(s, j); }
    }
  }

  lemma StatementsSplit(s: Shop, u: nat, j: Job)
    ensures Exec(s, Statements(u, j)) == Do(Exec(Do(s, Begin(u, j)), Legwork(u, |j.Legs()|)), Finish(u))
  {
    var work := Legwork(u, |j.Legs()|);
    ExecConcat(s, [Begin(u, j)] + work, [Finish(u)]);
    ExecConcat(s, [Begin(u, j)], work);
    ExecTwo(s, Begin(u, j), Finish(u));
    ExecTwo(Exec(s, [Begin(u, j)] + work), Finish(u), Finish(u));
  }

  /** One job after another. */
  function InTurn(history: seq<Job>): seq<Act> {
    if history == [] then [] else InTurn(history[..|history| - 1]) + Statements(0, history[|history| - 1])
  }

  /** The converse of serialisability: every list of jobs that apply in turn is the history of a
      run, and leads there to exactly its serial tables. */
  lemma {:induction false} SerialIsReachable(history: seq<Job>)
    requires AllApply(history)
    ensures Exec(Start(), InTurn(history)) == Shop(Serial(history), map[], history)
  {
    if history != [] {
      var n := |history| - 1;
      AllApplyInit(history);
      SerialIsReachable(history[..n]);
      assert AppliesAt(history, n);
      StatementsApply(Shop(Serial(history[..n]), map[], history[..n]), 0, history[n]);
      InitLast(history);
      ExecConcat(Start(), InTurn(history[..n]), Statements(0, history[n]));
    }
  }

  // ---- beside others --------------------------------------------------------

  /** In any reachable state, a write that may proceed ends its transaction exactly when the sum
      overflows, or when the row was absent at its read and has been committed since. */
  lemma PutEndsExactly(s: Shop, u: nat)
    requires Inv(s) && Can(s, Put(u))
    ensures var x := s.tasks[u];
            var k := x.job.RowAt(x.next);
            u !in Do(s, Put(u)).tasks <==>
            || !Fits(Get(Seen(s.tables, x), k) + x.job.Legs()[x.next].amount)
            || (x.reading == Some(Absent) && k in s.tables.balances)
  {
    assert TaskSound(s.tables, s.tasks[u]);
  }
}
