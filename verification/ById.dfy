/** Outbox rows in id order, as `fetch_after` reads them
    (crates/storage-postgres/src/projection.rs:186-215), against the order they were committed in. */
module ById {
  import opened Sequences
  import opened Amounts
  import opened Journal
  import opened Balances
  import opened Store
  import opened Invariants
  import opened Reorder

  function InsertById(row: Row, rows: seq<Row>): seq<Row> {
    if rows == [] || row.id <= rows[0].id then [row] + rows else [rows[0]] + InsertById(row, rows[1..])
  }

  /** `ORDER BY id`. */
  function InIdOrder(rows: seq<Row>): seq<Row> {
    if rows == [] then [] else InsertById(rows[|rows| - 1], InIdOrder(rows[..|rows| - 1]))
  }

  predicate UniqueRowIds(rows: seq<Row>) {
    forall i, j :: 0 <= i < j < |rows| ==> rows[i].id != rows[j].id
  }

  predicate IdFree(rows: seq<Row>, id: int) {
    forall i :: 0 <= i < |rows| ==> rows[i].id != id
  }

  lemma {:induction false} InsertCounts(row: Row, rows: seq<Row>)
    ensures multiset(InsertById(row, rows)) == multiset(rows) + multiset{row}
  {
    if rows == [] || row.id <= rows[0].id {
    } else {
      InsertCounts(row, rows[1..]);
      assert rows == [rows[0]] + rows[1..];
    }
  }

  /** Inserting puts the row in front of something larger, or behind everything. */
  lemma {:induction false} InsertAscends(row: Row, rows: seq<Row>)
    requires IdsAscend(rows) && IdFree(rows, row.id)
    ensures IdsAscend(InsertById(row, rows))
    ensures forall i :: 0 <= i < |InsertById(row, rows)| ==>
              InsertById(row, rows)[i].id >= if rows == [] || row.id <= rows[0].id then row.id else rows[0].id
  {
    if rows != [] && row.id > rows[0].id { InsertAscends(row, rows[1..]); }
  }

  lemma {:induction false} SortCounts(rows: seq<Row>)
    ensures multiset(InIdOrder(rows)) == multiset(rows)
  {
    if rows != [] {
      var n := |rows| - 1;
      SortCounts(rows[..n]);
      InsertCounts(rows[n], InIdOrder(rows[..n]));
      InitLast(rows);
    }
  }

  lemma SortMembers(rows: seq<Row>, row: Row)
    ensures row in InIdOrder(rows) <==> row in rows
  {
    SortCounts(rows);
    assert row in multiset(InIdOrder(rows)) <==> row in multiset(rows);
  }

  lemma SortKeepsFree(rows: seq<Row>, id: int)
    requires IdFree(rows, id)
    ensures IdFree(InIdOrder(rows), id)
  {
    forall i | 0 <= i < |InIdOrder(rows)| ensures InIdOrder(rows)[i].id != id {
      SortMembers(rows, InIdOrder(rows)[i]);
      assert InIdOrder(rows)[i] in rows;
    }
  }

  lemma {:induction false} SortAscends(rows: seq<Row>)
    requires UniqueRowIds(rows)
    ensures IdsAscend(InIdOrder(rows))
  {
    if rows != [] {
      var n := |rows| - 1;
      SortAscends(rows[..n]);
      SortKeepsFree(rows[..n], rows[n].id);
      InsertAscends(rows[n], InIdOrder(rows[..n]));
    }
  }

  // ---- postings of rows -----------------------------------------------------

  function LegsOf(row: Row): seq<Posting> {
    if row.event.payload.JournalPosted? then row.event.payload.entry.postings else []
  }

  /** All postings the rows carry, row by row. */
  function Ledger(rows: seq<Row>): seq<Posting> {
    if rows == [] then [] else Ledger(rows[..|rows| - 1]) + LegsOf(rows[|rows| - 1])
  }

  lemma {:induction false} LedgerIsJournal(rows: seq<Row>)
    ensures Ledger(rows) == Postings(JournalsOf(EventsOf(rows)))
  {
    if rows == [] {
      assert EventsOf(rows) == [];
    } else {
      var n := |rows| - 1;
      LedgerIsJournal(rows[..n]);
      assert EventsOf(rows)[..n] == EventsOf(rows[..n]);
      var js := JournalsOf(EventsOf(rows[..n]));
      if rows[n].event.payload.JournalPosted? {
        SnocInit(js, rows[n].event.payload.entry);
      } else {
        assert js + [] == js;
      }
    }
  }

  lemma LedgerSnoc(rows: seq<Row>, row: Row)
    ensures Ledger(rows + [row]) == Ledger(rows) + LegsOf(row)
  {
    SnocInit(rows, row);
  }

  predicate Touches(row: Row, a: AccountId) {
    exists i :: 0 <= i < |LegsOf(row)| && LegsOf(row)[i].account == a
  }

  /** Rows whose entry posts to an account, in order. */
  function Touching(rows: seq<Row>, a: AccountId): seq<Row> {
    if rows == [] then [] else (if Touches(rows[0], a) then [rows[0]] else []) + Touching(rows[1..], a)
  }

  lemma {:induction false} TouchingSnoc(rows: seq<Row>, row: Row, a: AccountId)
    ensures Touching(rows + [row], a) == Touching(rows, a) + if Touches(row, a) then [row] else []
  {
    if rows == [] {
      assert rows + [row] == [row] && [row][1..] == [];
    } else {
      TouchingSnoc(rows[1..], row, a);
      assert (rows + [row])[1..] == rows[1..] + [row];
      var suffix := if Touches(row, a) then [row] else [];
      Assoc(if Touches(rows[0], a) then [rows[0]] else [], Touching(rows[1..], a), suffix);
    }
  }

  lemma {:induction false} NoneTouching(rows: seq<Row>, a: AccountId)
    requires forall i :: 0 <= i < |rows| ==> !Touches(rows[i], a)
    ensures Touching(rows, a) == []
  {
    if rows != [] { NoneTouching(rows[1..], a); }
  }

  /** Inserting a row that follows all others on its account keeps the order on it. */
  lemma {:induction false} TouchingInsert(row: Row, rows: seq<Row>, a: AccountId)
    requires IdsAscend(rows) && IdFree(rows, row.id)
    requires Touches(row, a) ==> forall i :: 0 <= i < |rows| && Touches(rows[i], a) ==> rows[i].id < row.id
    ensures Touching(InsertById(row, rows), a) == Touching(rows, a) + if Touches(row, a) then [row] else []
  {
    var suffix := if Touches(row, a) then [row] else [];
    if rows == [] || row.id <= rows[0].id {
      ConsTail(row, rows);
      if Touches(row, a) { NoneTouching(rows, a); }
    } else {
      TouchingInsert(row, rows[1..], a);
      ConsTail(rows[0], InsertById(row, rows[1..]));
      Assoc(if Touches(rows[0], a) then [rows[0]] else [], Touching(rows[1..], a), suffix);
    }
  }

  /** Rows on one account stand in id order. */
  predicate SharedInOrder(rows: seq<Row>, a: AccountId) {
    forall i, j :: 0 <= i < j < |rows| && Touches(rows[i], a) && Touches(rows[j], a) ==> rows[i].id < rows[j].id
  }

  /** Sorting by id does not change the order on such an account. */
  lemma {:induction false} TouchingSorted(rows: seq<Row>, a: AccountId)
    requires UniqueRowIds(rows) && SharedInOrder(rows, a)
    ensures Touching(InIdOrder(rows), a) == Touching(rows, a)
  {
    if rows != [] {
      var n := |rows| - 1;
      var init, row := rows[..n], rows[n];
      var sorted := InIdOrder(init);
      TouchingSorted(init, a);
      SortAscends(init);
      SortKeepsFree(init, row.id);
      forall i | 0 <= i < |sorted| && Touches(sorted[i], a) && Touches(row, a) ensures sorted[i].id < row.id {
        SortMembers(init, sorted[i]);
        var j :| 0 <= j < |init| && init[j] == sorted[i];
        assert rows[j] == sorted[i];
      }
      TouchingInsert(row, sorted, a);
      TouchingSnoc(init, row, a);
      InitLast(rows);
    }
  }

  // ---- running balances, cell by cell ---------------------------------------

  /** Every running balance of one cell is representable, on top of what it held. */
  ghost predicate CellFits(base: int, ps: seq<Posting>, k: Key) {
    forall n :: 0 <= n <= |ps| ==> Fits(base + Net(ps[..n], k))
  }

  lemma {:induction false} CellFitsFromPostings(ps: seq<Posting>, n: nat, k: Key)
    requires RunningFits(map[], ps) && n <= |ps|
    ensures Fits(Net(ps[..n], k))
  {
    if n > 0 {
      CellFitsFromPostings(ps, n - 1, k);
      SumStep(ps, n - 1);
      assert FitsAfter(map[], ps, n);
    }
  }

  lemma FitsCellByCell(ps: seq<Posting>)
    ensures RunningFits(map[], ps) <==> forall k :: CellFits(0, ps, k)
  {
    if RunningFits(map[], ps) {
      forall k, n | 0 <= n <= |ps| ensures Fits(0 + Net(ps[..n], k)) { CellFitsFromPostings(ps, n, k); }
    }
    if forall k :: CellFits(0, ps, k) {
      forall n | 0 < n <= |ps| ensures FitsAfter(map[], ps, n) { assert CellFits(0, ps, ps[n - 1].Cell()); }
    }
  }

  lemma CellFitsConcat(a: seq<Posting>, b: seq<Posting>, k: Key)
    ensures CellFits(0, a + b, k) <==> CellFits(0, a, k) && CellFits(Net(a, k), b, k)
  {
    forall n | 0 <= n <= |a| ensures (a + b)[..n] == a[..n] {}
    forall m | 0 <= m <= |b| ensures Net((a + b)[..|a| + m], k) == Net(a, k) + Net(b[..m], k) {
      assert (a + b)[..|a| + m] == a + b[..m];
      NetConcat(a, b[..m], k);
    }
    if CellFits(0, a + b, k) {
      forall n | 0 <= n <= |a| ensures Fits(0 + Net(a[..n], k)) { assert (a + b)[..n] == a[..n]; }
      forall m | 0 <= m <= |b| ensures Fits(Net(a, k) + Net(b[..m], k)) { assert Fits(0 + Net((a + b)[..|a| + m], k)); }
    }
    if CellFits(0, a, k) && CellFits(Net(a, k), b, k) {
      forall n | 0 <= n <= |a + b| ensures Fits(0 + Net((a + b)[..n], k)) {
        if n <= |a| { assert (a + b)[..n] == a[..n]; } else { assert Fits(Net(a, k) + Net(b[..n - |a|], k)); }
      }
    }
  }

  lemma {:induction false} ElsewhereIsStill(ps: seq<Posting>, m: nat, k: Key)
    requires m <= |ps| && forall i :: 0 <= i < |ps| ==> ps[i].account != k.account
    ensures Net(ps[..m], k) == 0
  {
    if m > 0 {
      ElsewhereIsStill(ps, m - 1, k);
      SumStep(ps, m - 1);
    }
  }

  /** Two lists of postings do the same to a cell, and let it run through the same range. */
  ghost predicate SameCell(a: seq<Posting>, b: seq<Posting>, k: Key) {
    Net(a, k) == Net(b, k) && (CellFits(0, a, k) <==> CellFits(0, b, k))
  }

  lemma LedgerGrows(a: seq<Posting>, b: seq<Posting>, k: Key)
    ensures Net(a + b, k) == Net(a, k) + Net(b, k)
    ensures CellFits(0, a + b, k) <==> CellFits(0, a, k) && CellFits(Net(a, k), b, k)
  {
    NetConcat(a, b, k);
    CellFitsConcat(a, b, k);
  }

  lemma SameCellGrows(a: seq<Posting>, b: seq<Posting>, legs: seq<Posting>, k: Key)
    requires SameCell(a, b, k)
    ensures SameCell(a + legs, b + legs, k)
  {
    LedgerGrows(a, legs, k);
    LedgerGrows(b, legs, k);
  }

  lemma SameCellElsewhere(a: seq<Posting>, b: seq<Posting>, row: Row, k: Key)
    requires SameCell(a, b, k) && !Touches(row, k.account)
    ensures SameCell(a + LegsOf(row), b, k)
  {
    LedgerGrows(a, LegsOf(row), k);
    RowElsewhere(a, row, k);
  }

  lemma RowElsewhere(a: seq<Posting>, row: Row, k: Key)
    requires !Touches(row, k.account)
    ensures Net(LegsOf(row), k) == 0
    ensures CellFits(0, a, k) ==> CellFits(Net(a, k), LegsOf(row), k)
  {
    var b := LegsOf(row);
    forall m | 0 <= m <= |b| ensures Net(b[..m], k) == 0 { ElsewhereIsStill(b, m, k); }
    assert b[..|b|] == b && a[..|a|] == a;
  }

  /** Only the rows on its account matter to a cell. */
  lemma {:induction false} OnlyTouchingMatters(rows: seq<Row>, k: Key)
    ensures SameCell(Ledger(rows), Ledger(Touching(rows, k.account)), k)
  {
    if rows != [] {
      var init, row := rows[..|rows| - 1], rows[|rows| - 1];
      OnlyTouchingMatters(init, k);
      TouchingStep(init, row, k);
      InitLast(rows);
    }
  }

  lemma TouchingStep(init: seq<Row>, row: Row, k: Key)
    requires SameCell(Ledger(init), Ledger(Touching(init, k.account)), k)
    ensures SameCell(Ledger(init + [row]), Ledger(Touching(init + [row], k.account)), k)
  {
    var touching := Touching(init, k.account);
    TouchingSnoc(init, row, k.account);
    LedgerSnoc(init, row);
    if Touches(row, k.account) {
      LedgerSnoc(touching, row);
      SameCellGrows(Ledger(init), Ledger(touching), LegsOf(row), k);
    } else {
      assert touching + [] == touching;
      SameCellElsewhere(Ledger(init), Ledger(touching), row, k);
    }
  }

  /** If the postings add up in commit order, and the rows on each account stand in id order,
      they add up in id order. */
  lemma IdOrderFits(rows: seq<Row>)
    requires UniqueRowIds(rows) && (forall a :: SharedInOrder(rows, a)) && RunningFits(map[], Ledger(rows))
    ensures RunningFits(map[], Ledger(InIdOrder(rows)))
  {
    FitsCellByCell(Ledger(rows));
    FitsCellByCell(Ledger(InIdOrder(rows)));
    forall k ensures CellFits(0, Ledger(InIdOrder(rows)), k) {
      OnlyTouchingMatters(rows, k);
      OnlyTouchingMatters(InIdOrder(rows), k);
      TouchingSorted(rows, k.account);
    }
  }

  // ---- the same journal -----------------------------------------------------

  function Journals(rows: seq<Row>): seq<JournalEntry> { JournalsOf(EventsOf(rows)) }

  lemma JournalsConcat(a: seq<Row>, b: seq<Row>)
    ensures Journals(a + b) == Journals(a) + Journals(b)
  {
    assert EventsOf(a + b) == EventsOf(a) + EventsOf(b);
    JournalsOfConcat(EventsOf(a), EventsOf(b));
  }

  lemma {:induction false} InsertKeepsJournal(row: Row, rows: seq<Row>)
    ensures multiset(Journals(InsertById(row, rows))) == multiset(Journals(rows)) + multiset(Journals([row]))
  {
    if rows == [] || row.id <= rows[0].id {
      JournalsConcat([row], rows);
    } else {
      InsertKeepsJournal(row, rows[1..]);
      JournalsConcat([rows[0]], rows[1..]);
      JournalsConcat([rows[0]], InsertById(row, rows[1..]));
      assert rows == [rows[0]] + rows[1..];
    }
  }

  lemma {:induction false} SortKeepsJournal(rows: seq<Row>)
    ensures multiset(Journals(InIdOrder(rows))) == multiset(Journals(rows))
  {
    if rows != [] {
      var n := |rows| - 1;
      SortKeepsJournal(rows[..n]);
      InsertKeepsJournal(rows[n], InIdOrder(rows[..n]));
      JournalsConcat(rows[..n], [rows[n]]);
      InitLast(rows);
    }
  }

  /** Reading in id order rebuilds the very same table. */
  lemma IdOrderRebuilds(rows: seq<Row>, t: Table)
    requires UniqueRowIds(rows) && forall a :: SharedInOrder(rows, a)
    requires AddAll(map[], Postings(Journals(rows))) == Ok(t)
    ensures AddAll(map[], Postings(Journals(InIdOrder(rows)))) == Ok(t)
  {
    LedgerIsJournal(rows);
    LedgerIsJournal(InIdOrder(rows));
    AddAllExact(map[], Ledger(rows));
    IdOrderFits(rows);
    AddAllExact(map[], Ledger(InIdOrder(rows)));
    SortKeepsJournal(rows);
    SameTable(Journals(InIdOrder(rows)), Journals(rows));
  }
}
