/** Adding up journal entries in another order: the sums do not change, and when every order
    can be added up at all. */
module Reorder {
  import opened Sequences
  import opened Amounts
  import opened Journal
  import opened Balances
  import opened Invariants
  import opened Guard

  // ---- the order of entries does not matter to the sums ---------------------

  lemma {:induction false} PostingsConcat(a: seq<JournalEntry>, b: seq<JournalEntry>)
    ensures Postings(a + b) == Postings(a) + Postings(b)
  {
    if b == [] {
      assert a + b == a;
    } else {
      var n := |b| - 1;
      PostingsConcat(a, b[..n]);
      ConcatInit(a, b);
      Assoc(Postings(a), Postings(b[..n]), b[n].postings);
    }
  }

  lemma PostingsOne(e: JournalEntry)
    ensures Postings([e]) == e.postings
  {
    assert [e][..0] == [];
  }

  /** Sum of a figure over all entries. */
  function Total(entries: seq<JournalEntry>, f: JournalEntry -> int): int {
    if entries == [] then 0 else Total(entries[..|entries| - 1], f) + f(entries[|entries| - 1])
  }

  lemma {:induction false} TotalConcat(a: seq<JournalEntry>, b: seq<JournalEntry>, f: JournalEntry -> int)
    ensures Total(a + b, f) == Total(a, f) + Total(b, f)
  {
    if b == [] {
      assert a + b == a;
    } else {
      var n := |b| - 1;
      TotalConcat(a, b[..n], f);
      ConcatInit(a, b);
    }
  }

  lemma TotalWithout(entries: seq<JournalEntry>, j: nat, f: JournalEntry -> int)
    requires j < |entries|
    ensures Total(entries, f) == Total(entries[..j] + entries[j + 1..], f) + f(entries[j])
  {
    var x, e, y := entries[..j], entries[j], entries[j + 1..];
    CutOut(entries, j);
    TotalConcat(x + [e], y, f);
    TotalSnoc(x, e, f);
    TotalConcat(x, y, f);
  }

  lemma Cancel(x: multiset<JournalEntry>, y: multiset<JournalEntry>, e: JournalEntry)
    requires x + multiset{e} == y + multiset{e}
    ensures x == y
  {
    assert x == x + multiset{e} - multiset{e};
    assert y == y + multiset{e} - multiset{e};
  }

  lemma WithoutLast(a: seq<JournalEntry>, b: seq<JournalEntry>) returns (j: nat)
    requires a != [] && multiset(a) == multiset(b)
    ensures j < |b| && b[j] == a[|a| - 1]
    ensures multiset(a[..|a| - 1]) == multiset(b[..j] + b[j + 1..])
  {
    var e := a[|a| - 1];
    assert e in multiset(a);
    assert e in b;
    j :| 0 <= j < |b| && b[j] == e;
    assert a == a[..|a| - 1] + [e];
    assert b == b[..j] + [e] + b[j + 1..];
    assert multiset(a) == multiset(a[..|a| - 1]) + multiset{e};
    assert multiset(b) == multiset(b[..j] + b[j + 1..]) + multiset{e};
    Cancel(multiset(a[..|a| - 1]), multiset(b[..j] + b[j + 1..]), e);
  }

  lemma {:induction false} TotalPermuted(a: seq<JournalEntry>, b: seq<JournalEntry>, f: JournalEntry -> int)
    requires multiset(a) == multiset(b)
    ensures Total(a, f) == Total(b, f)
  {
    if a == [] {
      assert |multiset(b)| == |b|;
    } else {
      var j := WithoutLast(a, b);
      TotalPermuted(a[..|a| - 1], b[..j] + b[j + 1..], f);
      TotalWithout(b, j, f);
    }
  }

  function NetAt(k: Key): JournalEntry -> int {
    (e: JournalEntry) => Net(e.postings, k)
  }

  lemma {:induction false} NetTotal(entries: seq<JournalEntry>, k: Key)
    ensures Net(Postings(entries), k) == Total(entries, NetAt(k))
  {
    if entries != [] {
      var n := |entries| - 1;
      NetTotal(entries[..n], k);
      NetConcat(Postings(entries[..n]), entries[n].postings, k);
    }
  }

  lemma NetPermuted(a: seq<JournalEntry>, b: seq<JournalEntry>, k: Key)
    requires multiset(a) == multiset(b)
    ensures Net(Postings(a), k) == Net(Postings(b), k)
  {
    NetTotal(a, k);
    NetTotal(b, k);
    TotalPermuted(a, b, NetAt(k));
  }

  lemma {:induction false} CellsConcat(ps: seq<Posting>, qs: seq<Posting>)
    ensures Cells(ps + qs) == Cells(ps) + Cells(qs)
  {
    if qs == [] {
      assert ps + qs == ps;
    } else {
      var n := |qs| - 1;
      CellsConcat(ps, qs[..n]);
      ConcatInit(ps, qs);
    }
  }

  predicate Writes(entries: seq<JournalEntry>, k: Key) {
    exists i :: 0 <= i < |entries| && k in Cells(entries[i].postings)
  }

  lemma WritesSnoc(entries: seq<JournalEntry>, e: JournalEntry, k: Key)
    ensures Writes(entries + [e], k) <==> Writes(entries, k) || k in Cells(e.postings)
  {
    var all := entries + [e];
    assert all[|entries|] == e && forall i :: 0 <= i < |entries| ==> all[i] == entries[i];
  }

  lemma {:induction false} CellsOfEntries(entries: seq<JournalEntry>, k: Key)
    ensures k in Cells(Postings(entries)) <==> Writes(entries, k)
  {
    if entries != [] {
      var n := |entries| - 1;
      CellsOfEntries(entries[..n], k);
      CellsConcat(Postings(entries[..n]), entries[n].postings);
      WritesSnoc(entries[..n], entries[n], k);
      assert entries == entries[..n] + [entries[n]];
    }
  }

  lemma WritesPermuted(a: seq<JournalEntry>, b: seq<JournalEntry>, k: Key)
    requires multiset(a) == multiset(b) && Writes(a, k)
    ensures Writes(b, k)
  {
    var i :| 0 <= i < |a| && k in Cells(a[i].postings);
    assert a[i] in multiset(a) && a[i] in multiset(b) && a[i] in b;
  }

  lemma CellsPermuted(a: seq<JournalEntry>, b: seq<JournalEntry>)
    requires multiset(a) == multiset(b)
    ensures Cells(Postings(a)) == Cells(Postings(b))
  {
    forall k ensures k in Cells(Postings(a)) <==> k in Cells(Postings(b)) {
      CellsOfEntries(a, k);
      CellsOfEntries(b, k);
      if Writes(a, k) { WritesPermuted(a, b, k); }
      if Writes(b, k) { WritesPermuted(b, a, k); }
    }
  }

  /** Two orders of the same entries that both add up give the same table, row for row. */
  lemma SameTable(a: seq<JournalEntry>, b: seq<JournalEntry>)
    requires multiset(a) == multiset(b)
    requires AddAll(map[], Postings(a)).Ok? && AddAll(map[], Postings(b)).Ok?
    ensures AddAll(map[], Postings(a)) == AddAll(map[], Postings(b))
  {
    var t, u := AddAll(map[], Postings(a)).value, AddAll(map[], Postings(b)).value;
    AddAllKeys(map[], Postings(a));
    AddAllKeys(map[], Postings(b));
    CellsPermuted(a, b);
    AddAllExact(map[], Postings(a));
    AddAllExact(map[], Postings(b));
    forall k | k in t ensures u[k] == t[k] {
      NetPermuted(a, b, k);
      assert Get(t, k) == Net(Postings(a), k) && Get(u, k) == Net(Postings(b), k);
    }
    assert t == u;
  }

  // ---- when every order adds up ---------------------------------------------

  /** What enters and what leaves a cell, each summed on its own. */
  function Inflow(ps: seq<Posting>, k: Key): int {
    if ps == [] then 0
    else
      var p := ps[|ps| - 1];
      Inflow(ps[..|ps| - 1], k) + if p.Cell() == k && p.amount > 0 then p.amount else 0
  }

  function Outflow(ps: seq<Posting>, k: Key): int {
    if ps == [] then 0
    else
      var p := ps[|ps| - 1];
      Outflow(ps[..|ps| - 1], k) + if p.Cell() == k && p.amount < 0 then p.amount else 0
  }

  /** In every cell, all that ever entered and all that ever left are representable. */
  ghost predicate TurnoverFits(entries: seq<JournalEntry>) {
    forall k :: Fits(Inflow(Postings(entries), k)) && Fits(Outflow(Postings(entries), k))
  }

  ghost predicate Rebuilds(entries: seq<JournalEntry>) {
    AddAll(map[], Postings(entries)).Ok?
  }

  lemma {:induction false} FlowsConcat(ps: seq<Posting>, qs: seq<Posting>, k: Key)
    ensures Inflow(ps + qs, k) == Inflow(ps, k) + Inflow(qs, k)
    ensures Outflow(ps + qs, k) == Outflow(ps, k) + Outflow(qs, k)
  {
    if qs == [] {
      assert ps + qs == ps;
    } else {
      var n := |qs| - 1;
      FlowsConcat(ps, qs[..n], k);
      ConcatInit(ps, qs);
    }
  }

  lemma {:induction false} FlowSigns(ps: seq<Posting>, k: Key)
    ensures Outflow(ps, k) <= 0 <= Inflow(ps, k) && Net(ps, k) == Inflow(ps, k) + Outflow(ps, k)
  {
    if ps != [] { FlowSigns(ps[..|ps| - 1], k); }
  }

  /** Every running balance lies between all that left and all that entered. */
  lemma RunningBetween(ps: seq<Posting>, n: nat, k: Key)
    requires n <= |ps|
    ensures Outflow(ps, k) <= Net(ps[..n], k) <= Inflow(ps, k)
  {
    assert ps == ps[..n] + ps[n..];
    FlowsConcat(ps[..n], ps[n..], k);
    FlowSigns(ps[..n], k);
    FlowSigns(ps[n..], k);
  }

  function InflowAt(k: Key): JournalEntry -> int { (e: JournalEntry) => Inflow(e.postings, k) }
  function OutflowAt(k: Key): JournalEntry -> int { (e: JournalEntry) => Outflow(e.postings, k) }

  lemma {:induction false} FlowTotals(entries: seq<JournalEntry>, k: Key)
    ensures Inflow(Postings(entries), k) == Total(entries, InflowAt(k))
    ensures Outflow(Postings(entries), k) == Total(entries, OutflowAt(k))
  {
    if entries != [] {
      var n := |entries| - 1;
      FlowTotals(entries[..n], k);
      FlowsConcat(Postings(entries[..n]), entries[n].postings, k);
    }
  }

  lemma FlowsPermuted(a: seq<JournalEntry>, b: seq<JournalEntry>, k: Key)
    requires multiset(a) == multiset(b)
    ensures Inflow(Postings(a), k) == Inflow(Postings(b), k)
    ensures Outflow(Postings(a), k) == Outflow(Postings(b), k)
  {
    FlowTotals(a, k);
    FlowTotals(b, k);
    TotalPermuted(a, b, InflowAt(k));
    TotalPermuted(a, b, OutflowAt(k));
  }

  /** A condition to check before reading anything: if each cell's turnover is representable,
      the entries add up in whatever order they are read. */
  lemma TurnoverSuffices(entries: seq<JournalEntry>, read: seq<JournalEntry>)
    requires TurnoverFits(entries) && multiset(read) == multiset(entries)
    ensures Rebuilds(read)
  {
    var ps := Postings(read);
    forall n | 0 < n <= |ps| ensures FitsAfter(map[], ps, n) {
      var k := ps[n - 1].Cell();
      RunningBetween(ps, n, k);
      FlowsPermuted(read, entries, k);
    }
    AddAllExact(map[], ps);
  }

  lemma {:induction false} Untouched(ps: seq<Posting>, k: Key)
    requires forall i :: 0 <= i < |ps| ==> ps[i].Cell() != k
    ensures Inflow(ps, k) == 0 && Outflow(ps, k) == 0
  {
    if ps != [] { Untouched(ps[..|ps| - 1], k); }
  }

  /** Postings that touch a cell at most once only enter it or only leave it. */
  lemma {:induction false} OneWay(ps: seq<Posting>, k: Key)
    requires DistinctCells(ps)
    ensures Inflow(ps, k) == if Net(ps, k) > 0 then Net(ps, k) else 0
    ensures Outflow(ps, k) == if Net(ps, k) < 0 then Net(ps, k) else 0
  {
    if ps != [] {
      var n := |ps| - 1;
      FlowSigns(ps[..n], k);
      if ps[n].Cell() == k { Untouched(ps[..n], k); } else { OneWay(ps[..n], k); }
    }
  }

  function Select(entries: seq<JournalEntry>, sel: JournalEntry -> bool): seq<JournalEntry> {
    if entries == [] then []
    else
      var n := |entries| - 1;
      Select(entries[..n], sel) + if sel(entries[n]) then [entries[n]] else []
  }

  lemma {:induction false} SelectSplits(entries: seq<JournalEntry>, sel: JournalEntry -> bool,
                                        rest: JournalEntry -> bool)
    requires forall e :: rest(e) == !sel(e)
    ensures multiset(Select(entries, sel)) + multiset(Select(entries, rest)) == multiset(entries)
  {
    if entries != [] {
      var n := |entries| - 1;
      var init, e := entries[..n], entries[n];
      SelectSplits(init, sel, rest);
      SplitStep(Select(init, sel), Select(init, rest), init, e);
      SelectSnoc(init, e, sel);
      SelectSnoc(init, e, rest);
      InitLast(entries);
    }
  }

  lemma SelectSnoc(init: seq<JournalEntry>, e: JournalEntry, sel: JournalEntry -> bool)
    ensures Select(init + [e], sel) == if sel(e) then Select(init, sel) + [e] else Select(init, sel)
  {
    SnocInit(init, e);
    assert Select(init, sel) + [] == Select(init, sel);
  }

  lemma SplitStep(a: seq<JournalEntry>, b: seq<JournalEntry>, all: seq<JournalEntry>, e: JournalEntry)
    requires multiset(a) + multiset(b) == multiset(all)
    ensures multiset(a + [e]) + multiset(b) == multiset(all + [e])
    ensures multiset(a) + multiset(b + [e]) == multiset(all + [e])
  {
  }

  /** Entries that bring something into a cell, read first, reach its whole inflow; those that
      take something out, its whole outflow. */
  function Moves(k: Key, up: bool): JournalEntry -> bool {
    (e: JournalEntry) => if up then Net(e.postings, k) > 0 else Net(e.postings, k) < 0
  }

  function Stays(k: Key, up: bool): JournalEntry -> bool {
    (e: JournalEntry) => if up then Net(e.postings, k) <= 0 else Net(e.postings, k) >= 0
  }

  lemma {:induction false} SelectedTotal(entries: seq<JournalEntry>, k: Key, up: bool)
    requires forall i :: 0 <= i < |entries| ==> DistinctCells(entries[i].postings)
    ensures Total(Select(entries, Moves(k, up)), NetAt(k)) ==
            Total(entries, if up then InflowAt(k) else OutflowAt(k))
  {
    if entries != [] {
      var n := |entries| - 1;
      SelectedTotal(entries[..n], k, up);
      OneWay(entries[n].postings, k);
      TotalSnoc(Select(entries[..n], Moves(k, up)), entries[n], NetAt(k));
      assert Select(entries[..n], Moves(k, up)) + [] == Select(entries[..n], Moves(k, up));
    }
  }

  lemma TotalSnoc(entries: seq<JournalEntry>, e: JournalEntry, f: JournalEntry -> int)
    ensures Total(entries + [e], f) == Total(entries, f) + f(e)
  {
    SnocInit(entries, e);
  }

  lemma SelectedNet(entries: seq<JournalEntry>, k: Key, up: bool)
    requires forall i :: 0 <= i < |entries| ==> DistinctCells(entries[i].postings)
    ensures Net(Postings(Select(entries, Moves(k, up))), k) ==
            if up then Inflow(Postings(entries), k) else Outflow(Postings(entries), k)
  {
    SelectedTotal(entries, k, up);
    NetTotal(Select(entries, Moves(k, up)), k);
    FlowTotals(entries, k);
  }

  /** An order in which one cell runs through its whole inflow, or outflow, first. */
  lemma ExtremeOrder(entries: seq<JournalEntry>, k: Key, up: bool) returns (read: seq<JournalEntry>)
    requires forall i :: 0 <= i < |entries| ==> DistinctCells(entries[i].postings)
    ensures multiset(read) == multiset(entries)
    ensures Rebuilds(read) ==> Fits(if up then Inflow(Postings(entries), k) else Outflow(Postings(entries), k))
  {
    var first, rest := Select(entries, Moves(k, up)), Select(entries, Stays(k, up));
    read := first + rest;
    SelectSplits(entries, Moves(k, up), Stays(k, up));
    SelectedNet(entries, k, up);
    PostingsConcat(first, rest);
    AddAllConcat(map[], Postings(first), Postings(rest));
    AddAllExact(map[], Postings(first));
    if Rebuilds(read) { assert Get(AddAll(map[], Postings(first)).value, k) == Net(Postings(first), k); }
  }

  /** For entries that touch each cell at most once it is exact: every order adds up if and
      only if each cell's turnover is representable. */
  lemma EveryOrderRebuilds(entries: seq<JournalEntry>)
    requires forall i :: 0 <= i < |entries| ==> DistinctCells(entries[i].postings)
    ensures TurnoverFits(entries) <==>
            forall read :: multiset(read) == multiset(entries) ==> Rebuilds(read)
  {
    if TurnoverFits(entries) {
      forall read | multiset(read) == multiset(entries) ensures Rebuilds(read) { TurnoverSuffices(entries, read); }
    }
    if forall read :: multiset(read) == multiset(entries) ==> Rebuilds(read) {
      forall k ensures Fits(Inflow(Postings(entries), k)) && Fits(Outflow(Postings(entries), k)) {
        var up := ExtremeOrder(entries, k, true);
        var down := ExtremeOrder(entries, k, false);
      }
    }
  }
}
