/** The live consumer and the replay applying events for the same consumer at the same time
    (services/projector-service/src/main.rs:39-59): the transactions of `apply_journal`
    (crates/storage-postgres/src/projection.rs:30-113) interleaved statement by statement.

    Assumed of the database: a pending dedup row makes a second insert of it wait; `FOR UPDATE`
    locks a row that exists and nothing else; a pending insert of a balance row makes another
    insert of it wait, and a committed one makes it fail. */
module ProjectionTxns {
  import opened Sequences
  import opened Amounts
  import opened Journal
  import opened Store
  import opened Invariants
  import opened Projection
  import opened Coverage

  type Rows = map<RowKey, Amount>

  /** What `SELECT ... FOR UPDATE` returned for the next posting. */
  datatype Reading = Absent | Found(amount: Amount)

  datatype Job = Job(consumer: ConsumerName, event: Event) {
    function Legs(): seq<Posting> {
      if event.payload.JournalPosted? then event.payload.entry.postings else []
    }
    function Mark(): Handled { Handled(consumer, event.id) }
    function RowAt(i: nat): RowKey
      requires i < |Legs()|
    {
      RowKey(consumer, Legs()[i].Cell())
    }
  }

  /** An open transaction: its dedup row is inserted and `next` postings are written. */
  datatype Task = Task(job: Job, next: nat, reading: Option<Reading>, writes: Rows, locks: set<RowKey>)

  datatype Shop = Shop(tables: Tables, tasks: map<nat, Task>, history: seq<Job>)

  datatype Act = Begin(task: nat, job: Job) | Read(task: nat) | Put(task: nat) | Finish(task: nat) | Rollback(task: nat)

  function Start(): Shop { Shop(EMPTY_TABLES, map[], []) }

  function Seen(t: Tables, x: Task): Rows { t.balances + x.writes }

  predicate Waits(s: Shop, t: nat, k: RowKey) {
    exists u :: u in s.tasks && u != t && k in s.tasks[u].locks
  }

  predicate MarkHeld(s: Shop, m: Handled) {
    exists u :: u in s.tasks && s.tasks[u].job.Mark() == m
  }

  predicate Can(s: Shop, a: Act) {
    match a
    case Begin(t, j) => t !in s.tasks && j.event.payload.JournalPosted? && !MarkHeld(s, j.Mark())
    case Read(t) =>
      && t in s.tasks && s.tasks[t].next < |s.tasks[t].job.Legs()| && s.tasks[t].reading.None?
      && var k := s.tasks[t].job.RowAt(s.tasks[t].next);
      (k in Seen(s.tables, s.tasks[t]) ==> !Waits(s, t, k))
    case Put(t) =>
      && t in s.tasks && s.tasks[t].next < |s.tasks[t].job.Legs()| && s.tasks[t].reading.Some?
      && !Waits(s, t, s.tasks[t].job.RowAt(s.tasks[t].next))
    case Finish(t) => t in s.tasks && s.tasks[t].next == |s.tasks[t].job.Legs()| && s.tasks[t].reading.None?
    case Rollback(t) => t in s.tasks
  }

  function ReadBy(t: Tables, x: Task): Task
    requires x.next < |x.job.Legs()|
  {
    var k := x.job.RowAt(x.next);
    if k in Seen(t, x) then x.(reading := Some(Found(Seen(t, x)[k])), locks := x.locks + {k})
    else x.(reading := Some(Absent))
  }

  /** Update the row that was read, or insert it; an overflow or a row inserted meanwhile ends
      the transaction. */
  function PutBy(t: Tables, x: Task): Option<Task>
    requires x.next < |x.job.Legs()| && x.reading.Some?
  {
    var k := x.job.RowAt(x.next);
    var current := if x.reading.value.Found? then x.reading.value.amount else 0;
    var sum := CheckedAdd(current, x.job.Legs()[x.next].amount);
    if sum.Err? || (x.reading.value.Absent? && k in t.balances) then None
    else Some(x.(next := x.next + 1, reading := None, writes := x.writes[k := sum.value], locks := x.locks + {k}))
  }

  function Committed(t: Tables, x: Task): Tables {
    t.(balances := Seen(t, x), processed := t.processed + {x.job.Mark()})
  }

  function Do(s: Shop, a: Act): Shop {
    if !Can(s, a) then s
    else match a
      case Begin(t, j) =>
        if j.Mark() in s.tables.processed then s else s.(tasks := s.tasks[t := Task(j, 0, None, map[], {})])
      case Read(t) => s.(tasks := s.tasks[t := ReadBy(s.tables, s.tasks[t])])
      case Put(t) =>
        var put := PutBy(s.tables, s.tasks[t]);
        s.(tasks := if put.Some? then s.tasks[t := put.value] else s.tasks - {t})
      case Finish(t) =>
        Shop(Committed(s.tables, s.tasks[t]), s.tasks - {t}, s.history + [s.tasks[t].job])
      case Rollback(t) => s.(tasks := s.tasks - {t})
  }

  function Exec(s: Shop, acts: seq<Act>): Shop {
    if acts == [] then s else Do(Exec(s, acts[..|acts| - 1]), acts[|acts| - 1])
  }

  // ---- one at a time --------------------------------------------------------

  function Serial(history: seq<Job>): Tables {
    if history == [] then EMPTY_TABLES
    else
      var j := history[|history| - 1];
      Project(Serial(history[..|history| - 1]), j.consumer, j.event).1
  }

  /** Every transaction of the history applies when run alone in its turn. */
  ghost predicate AllApply(history: seq<Job>) {
    forall i | 0 <= i < |history| :: AppliesAt(history, i)
  }

  predicate AppliesAt(history: seq<Job>, i: nat)
    requires i < |history|
  {
    Project(Serial(history[..i]), history[i].consumer, history[i].event).0 == Ok(Applied)
  }

  // ---- adding to rows -------------------------------------------------------

  /** Row by row on the balances alone. */
  function AddTo(b: Rows, c: ConsumerName, ps: seq<Posting>): Option<Rows> {
    if ps == [] then Some(b)
    else
      var p, before := ps[|ps| - 1], AddTo(b, c, ps[..|ps| - 1]);
      if before.None? then None
      else
        var row := RowKey(c, p.Cell());
        var sum := CheckedAdd(Get(before.value, row), p.amount);
        if sum.Err? then None else Some(before.value[row := sum.value])
  }

  lemma {:induction false} AddToIsAddRows(t: Tables, c: ConsumerName, ps: seq<Posting>)
    ensures AddTo(t.balances, c, ps).Some? <==> AddRows(t, c, ps).Ok?
    ensures AddRows(t, c, ps).Ok? ==> AddRows(t, c, ps).value == t.(balances := AddTo(t.balances, c, ps).value)
  {
    if ps != [] { AddToIsAddRows(t, c, ps[..|ps| - 1]); }
  }

  lemma AddToSnoc(b: Rows, c: ConsumerName, ps: seq<Posting>, n: nat)
    requires n < |ps| && AddTo(b, c, ps[..n]).Some?
    ensures var mid, row := AddTo(b, c, ps[..n]).value, RowKey(c, ps[n].Cell());
            var sum := CheckedAdd(Get(mid, row), ps[n].amount);
            AddTo(b, c, ps[..n + 1]) == if sum.Err? then None else Some(mid[row := sum.value])
  {
    assert ps[..n + 1][..n] == ps[..n];
  }

  /** Rows a transaction does not touch do not matter to it. */
  lemma {:induction false} AddToFrame(b: Rows, w: Rows, c: ConsumerName, ps: seq<Posting>)
    requires AddTo(b, c, ps).Some? && forall i :: 0 <= i < |ps| ==> RowKey(c, ps[i].Cell()) !in w
    ensures AddTo(b + w, c, ps) == Some(AddTo(b, c, ps).value + w)
  {
    if ps != [] {
      var n := |ps| - 1;
      AddToFrame(b, w, c, ps[..n]);
      var mid, row := AddTo(b, c, ps[..n]).value, RowKey(c, ps[n].Cell());
      assert Get(mid + w, row) == Get(mid, row);
      var sum := CheckedAdd(Get(mid, row), ps[n].amount);
      assert (mid + w)[row := sum.value] == mid[row := sum.value] + w;
    }
  }

  // ---- the invariant --------------------------------------------------------

  ghost predicate WroteSo(b: Rows, j: Job, next: nat, writes: Rows, locks: set<RowKey>) {
    && next <= |j.Legs()|
    && AddTo(b, j.consumer, j.Legs()[..next]) == Some(b + writes)
    && (forall i :: 0 <= i < next ==> j.RowAt(i) in locks)
    && (forall k :: k in writes ==> k in locks)
  }

  /** A row that was read is locked and still as read; one that was absent is not its own. */
  predicate ReadSo(b: Rows, x: Task) {
    x.reading.Some? ==>
      && x.next < |x.job.Legs()|
      && var k := x.job.RowAt(x.next);
      match x.reading.value
      case Found(amount) => k in x.locks && k in b + x.writes && (b + x.writes)[k] == amount
      case Absent => k !in x.writes
  }

  ghost predicate TaskSound(t: Tables, x: Task) {
    && x.job.event.payload.JournalPosted?
    && WroteSo(t.balances, x.job, x.next, x.writes, x.locks)
    && ReadSo(t.balances, x)
    && x.job.Mark() !in t.processed
  }

  predicate Disjoint(x: Task, y: Task) {
    x.locks !! y.locks && x.job.Mark() != y.job.Mark()
  }

  ghost predicate TasksSound(t: Tables, tasks: map<nat, Task>) {
    && (forall u :: u in tasks ==> TaskSound(t, tasks[u]))
    && (forall u, v :: u in tasks && v in tasks && u != v ==> Disjoint(tasks[u], tasks[v]))
  }

  ghost predicate Inv(s: Shop) {
    TasksSound(s.tables, s.tasks) && s.tables == Serial(s.history) && AllApply(s.history)
  }

  lemma SetTask(t: Tables, tasks: map<nat, Task>, u: nat, x: Task)
    requires TasksSound(t, tasks) && TaskSound(t, x)
    requires forall v :: v in tasks && v != u ==> Disjoint(x, tasks[v]) && Disjoint(tasks[v], x)
    ensures TasksSound(t, tasks[u := x])
  {
  }

  // ---- reading and writing --------------------------------------------------

  lemma ReadKeepsTask(t: Tables, x: Task)
    requires TaskSound(t, x) && x.next < |x.job.Legs()|
    ensures TaskSound(t, ReadBy(t, x))
  {
  }

  lemma OneMoreRow(b: Rows, j: Job, next: nat, writes: Rows, locks: set<RowKey>, v: Amount)
    requires WroteSo(b, j, next, writes, locks) && next < |j.Legs()|
    requires CheckedAdd(Get(b + writes, j.RowAt(next)), j.Legs()[next].amount) == Ok(v)
    ensures WroteSo(b, j, next + 1, writes[j.RowAt(next) := v], locks + {j.RowAt(next)})
  {
    AddToSnoc(b, j.consumer, j.Legs(), next);
    assert (b + writes)[j.RowAt(next) := v] == b + writes[j.RowAt(next) := v];
  }

  lemma PutKeepsTask(t: Tables, x: Task)
    requires TaskSound(t, x) && x.next < |x.job.Legs()| && x.reading.Some? && PutBy(t, x).Some?
    ensures TaskSound(t, PutBy(t, x).value)
  {
    var k := x.job.RowAt(x.next);
    assert Get(Seen(t, x), k) == if x.reading.value.Found? then x.reading.value.amount else 0;
    OneMoreRow(t.balances, x.job, x.next, x.writes, x.locks, PutBy(t, x).value.writes[k]);
  }

  /** A task that moved on with the same job. */
  lemma MoveKeepsInv(s: Shop, u: nat, x: Task)
    requires Inv(s) && u in s.tasks && TaskSound(s.tables, x) && x.job == s.tasks[u].job
    requires forall v :: v in s.tasks && v != u ==> x.locks !! s.tasks[v].locks
    ensures Inv(s.(tasks := s.tasks[u := x]))
  {
    forall v | v in s.tasks && v != u ensures Disjoint(x, s.tasks[v]) && Disjoint(s.tasks[v], x) {
      assert Disjoint(s.tasks[u], s.tasks[v]) && Disjoint(s.tasks[v], s.tasks[u]);
    }
    SetTask(s.tables, s.tasks, u, x);
  }

  lemma OneMoreLock(s: Shop, u: nat, k: RowKey)
    requires Inv(s) && u in s.tasks && !Waits(s, u, k)
    ensures forall v :: v in s.tasks && v != u ==> (s.tasks[u].locks + {k}) !! s.tasks[v].locks
  {
    forall v | v in s.tasks && v != u ensures (s.tasks[u].locks + {k}) !! s.tasks[v].locks {
      assert Disjoint(s.tasks[u], s.tasks[v]);
    }
  }

  lemma SameLocks(s: Shop, u: nat)
    requires Inv(s) && u in s.tasks
    ensures forall v :: v in s.tasks && v != u ==> s.tasks[u].locks !! s.tasks[v].locks
  {
    forall v | v in s.tasks && v != u ensures s.tasks[u].locks !! s.tasks[v].locks {
      assert Disjoint(s.tasks[u], s.tasks[v]);
    }
  }

  lemma ReadKeepsInv(s: Shop, u: nat)
    requires Inv(s) && Can(s, Read(u))
    ensures Inv(Do(s, Read(u)))
  {
    var x := s.tasks[u];
    var k := x.job.RowAt(x.next);
    assert TaskSound(s.tables, x);
    ReadKeepsTask(s.tables, x);
    if k in Seen(s.tables, x) { OneMoreLock(s, u, k); } else { SameLocks(s, u); }
    MoveKeepsInv(s, u, ReadBy(s.tables, x));
  }

  lemma DropKeepsInv(s: Shop, u: nat)
    requires Inv(s)
    ensures Inv(s.(tasks := s.tasks - {u}))
  {
  }

  lemma PutKeepsInv(s: Shop, u: nat)
    requires Inv(s) && Can(s, Put(u))
    ensures Inv(Do(s, Put(u)))
  {
    var x := s.tasks[u];
    assert TaskSound(s.tables, x);
    if PutBy(s.tables, x).Some? {
      PutKeepsTask(s.tables, x);
      OneMoreLock(s, u, x.job.RowAt(x.next));
      MoveKeepsInv(s, u, PutBy(s.tables, x).value);
    } else {
      DropKeepsInv(s, u);
    }
  }

  lemma BeginKeepsInv(s: Shop, u: nat, j: Job)
    requires Inv(s) && Can(s, Begin(u, j))
    ensures Inv(Do(s, Begin(u, j)))
  {
    var x := Task(j, 0, None, map[], {});
    if j.Mark() !in s.tables.processed {
      assert j.Legs()[..0] == [] && s.tables.balances + map[] == s.tables.balances;
      assert TaskSound(s.tables, x);
      forall v | v in s.tasks ensures Disjoint(x, s.tasks[v]) && Disjoint(s.tasks[v], x) {}
      SetTask(s.tables, s.tasks, u, x);
    }
  }

  // ---- committing -----------------------------------------------------------

  /** A complete transaction does what `apply_journal` does alone. */
  lemma CommitIsApply(t: Tables, x: Task)
    requires TaskSound(t, x) && x.next == |x.job.Legs()|
    ensures Project(t, x.job.consumer, x.job.event) == (Ok(Applied), Committed(t, x))
  {
    var ps := x.job.Legs();
    assert ps[..x.next] == ps;
    AddToIsAddRows(t, x.job.consumer, ps);
  }

  lemma SumsCommute(b: Rows, v: Rows, w: Rows)
    requires forall k :: k in v ==> k !in w
    ensures b + w + v == b + v + w
  {
  }

  /** A commit elsewhere changes nothing a task has read or written: its rows are locked. */
  lemma CommitUndisturbs(t: Tables, x: Task, y: Task)
    requires TaskSound(t, x) && TaskSound(t, y) && Disjoint(x, y)
    ensures TaskSound(Committed(t, x), y)
  {
    var ps := y.job.Legs()[..y.next];
    forall i | 0 <= i < |ps| ensures RowKey(y.job.consumer, ps[i].Cell()) !in x.writes {
      assert y.job.RowAt(i) in y.locks;
    }
    AddToFrame(t.balances, x.writes, y.job.consumer, ps);
    forall k | k in x.writes ensures k !in y.writes { assert k in x.locks; }
    SumsCommute(t.balances, x.writes, y.writes);
    assert t.balances + y.writes + x.writes == Seen(Committed(t, x), y);
    ReadUndisturbed(t, x, y);
  }

  lemma ReadUndisturbed(t: Tables, x: Task, y: Task)
    requires TaskSound(t, x) && ReadSo(t.balances, y) && x.locks !! y.locks
    ensures ReadSo(t.balances + x.writes, y)
  {
    if y.reading.Some? && y.reading.value.Found? {
      var k := y.job.RowAt(y.next);
      assert k !in x.writes;
      assert (t.balances + x.writes + y.writes)[k] == (t.balances + y.writes)[k];
    }
  }

  lemma AppendApplies(history: seq<Job>, j: Job)
    requires AllApply(history) && Project(Serial(history), j.consumer, j.event).0 == Ok(Applied)
    ensures AllApply(history + [j]) && Serial(history + [j]) == Project(Serial(history), j.consumer, j.event).1
  {
    var h := history + [j];
    SnocInit(history, j);
    forall i | 0 <= i < |h| ensures AppliesAt(h, i) {
      assert h[..i] == history[..i];
      if i < |history| { assert AppliesAt(history, i); } else { assert history[..i] == history; }
    }
  }

  lemma CommitKeepsInv(s: Shop, u: nat)
    requires Inv(s) && Can(s, Finish(u))
    ensures Inv(Do(s, Finish(u)))
  {
    var x, s' := s.tasks[u], Do(s, Finish(u));
    CommitIsApply(s.tables, x);
    AppendApplies(s.history, x.job);
    forall v | v in s'.tasks ensures TaskSound(s'.tables, s'.tasks[v]) { CommitUndisturbs(s.tables, x, s.tasks[v]); }
  }

  lemma StepKeepsInv(s: Shop, a: Act)
    requires Inv(s)
    ensures Inv(Do(s, a))
  {
    if Can(s, a) {
      match a
      case Begin(t, j) => BeginKeepsInv(s, t, j);
      case Read(t) => ReadKeepsInv(s, t);
      case Put(t) => PutKeepsInv(s, t);
      case Finish(t) => CommitKeepsInv(s, t);
      case Rollback(t) => DropKeepsInv(s, t);
    }
  }

  lemma {:induction false} ExecKeepsInv(acts: seq<Act>)
    ensures Inv(Exec(Start(), acts))
  {
    if acts != [] {
      ExecKeepsInv(acts[..|acts| - 1]);
      StepKeepsInv(Exec(Start(), acts[..|acts| - 1]), acts[|acts| - 1]);
    }
  }

  // ---- theorems -------------------------------------------------------------

  /** Serialisability of the projection: however the transactions of any number of tasks
      interleave, the tables are those of applying the committed events one after another, and
      each of them applies then. */
  lemma ProjectionSerialisable(acts: seq<Act>)
    ensures var s := Exec(Start(), acts);
            s.tables == Serial(s.history) && AllApply(s.history)
  {
    ExecKeepsInv(acts);
  }

  lemma {:induction false} SerialMarks(history: seq<Job>, i: nat)
    requires AllApply(history) && i < |history|
    ensures history[i].Mark() in Serial(history).processed
  {
    var n := |history| - 1;
    var t, j := Serial(history[..n]), history[n];
    assert AppliesAt(history, n);
    if i < n {
      AllApplyInit(history);
      SerialMarks(history[..n], i);
    }
  }

  lemma AllApplyInit(history: seq<Job>)
    requires AllApply(history) && history != []
    ensures AllApply(history[..|history| - 1])
  {
    var n := |history| - 1;
    forall i | 0 <= i < n ensures AppliesAt(history[..n], i) {
      assert history[..n][..i] == history[..i] && AppliesAt(history, i);
    }
  }

  /** Each event is added once per consumer, whoever brings it and however often. */
  lemma {:induction false} AddedOnce(history: seq<Job>, i: nat, j: nat)
    requires AllApply(history) && i < j < |history|
    ensures history[i].Mark() != history[j].Mark()
    decreases |history|
  {
    AllApplyInit(history);
    if j < |history| - 1 {
      AddedOnce(history[..|history| - 1], i, j);
    } else {
      SerialMarks(history[..j], i);
      assert AppliesAt(history, j);
    }
  }

  /** So the read models are sums over exactly the processed events, also while tasks overlap. */
  lemma {:induction false} SerialIsCovered(history: seq<Job>, events: seq<Event>)
    requires DistinctIds(events) && forall i :: 0 <= i < |history| ==> history[i].event in events
    ensures ProjectionSound(events, Serial(history))
  {
    if history == [] {
      forall c ensures ConsumerSound(events, EMPTY_TABLES, c) {
        assert Processed(EMPTY_TABLES, c) == {} && View(EMPTY_TABLES, c) == map[];
        forall k ensures Covered(events, {}, k) == 0 { CoveredNothing(events, k); }
      }
    } else {
      var n := |history| - 1;
      SerialIsCovered(history[..n], events);
      assert history[n].event in events;
      var i :| 0 <= i < |events| && events[i] == history[n].event;
      DeliveryKeepsSound(events, Serial(history[..n]), history[n].consumer, i);
    }
  }

  /** Two tasks on one consumer: tables over any run, in one statement. */
  lemma OverlappingTasksAddOnce(acts: seq<Act>, events: seq<Event>)
    requires DistinctIds(events)
    requires forall i :: 0 <= i < |acts| && acts[i].Begin? ==> acts[i].job.event in events
    ensures var s := Exec(Start(), acts);
            && ProjectionSound(events, s.tables)
            && forall i, j :: 0 <= i < j < |s.history| ==> s.history[i].Mark() != s.history[j].Mark()
  {
    ProjectionSerialisable(acts);
    JobsComeFromActs(acts, events);
    var s := Exec(Start(), acts);
    SerialIsCovered(s.history, events);
    forall i, j | 0 <= i < j < |s.history| ensures s.history[i].Mark() != s.history[j].Mark() {
      AddedOnce(s.history, i, j);
    }
  }

  predicate JobsFrom(s: Shop, events: seq<Event>) {
    && (forall i :: 0 <= i < |s.history| ==> s.history[i].event in events)
    && (forall t :: t in s.tasks ==> s.tasks[t].job.event in events)
  }

  lemma {:induction false} JobsComeFromActs(acts: seq<Act>, events: seq<Event>)
    requires forall i :: 0 <= i < |acts| && acts[i].Begin? ==> acts[i].job.event in events
    ensures JobsFrom(Exec(Start(), acts), events)
  {
    if acts != [] {
      var n := |acts| - 1;
      JobsComeFromActs(acts[..n], events);
      StepKeepsJobs(Exec(Start(), acts[..n]), acts[n], events);
    }
  }

  lemma StepKeepsJobs(s: Shop, a: Act, events: seq<Event>)
    requires (a.Begin? ==> a.job.event in events) && JobsFrom(s, events)
    ensures JobsFrom(Do(s, a), events)
  {
  }
}
