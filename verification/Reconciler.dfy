/** Deterministic reconciliation (crates/reconciler/src/reconciler.rs). */
module Reconciler {
  import opened Amounts
  import opened Order
  import opened Journal
  import opened Balances
  import opened Invariants

  datatype Discrepancy = Discrepancy(cell: Key, expected: Amount, observed: Amount)

  /** Rebuild balances from the journal, in insertion order. */
  method Rebuild(entries: seq<JournalEntry>) returns (r: Result<Table, DomainError>)
    ensures r == AddAll(map[], Postings(entries))
  {
    var totals: Table := map[];
    for i := 0 to |entries|
      invariant AddAll(map[], Postings(entries[..i])) == Ok(totals)
    {
      var ps := entries[i].postings;
      ghost var before := totals;
      assert entries[..i + 1][..i] == entries[..i];
      AddAllConcat(map[], Postings(entries[..i]), ps);
      for j := 0 to |ps|
        invariant AddAll(before, ps[..j]) == Ok(totals)
      {
        assert ps[..j + 1][..j] == ps[..j];
        var sum := CheckedAdd(Get(totals, ps[j].Cell()), ps[j].amount);
        if sum.Err? {
          AddAllFailsEarly(before, ps, j + 1);
          RebuildFailsEarly(entries, i + 1);
          return Err(sum.error);
        }
        totals := totals[ps[j].Cell() := sum.value];
      }
      assert ps[..|ps|] == ps;
    }
    assert entries[..|entries|] == entries;
    r := Ok(totals);
  }

  lemma {:induction false} RebuildFailsEarly(entries: seq<JournalEntry>, n: nat)
    requires n <= |entries| && AddAll(map[], Postings(entries[..n])).Err?
    ensures AddAll(map[], Postings(entries)) == AddAll(map[], Postings(entries[..n]))
  {
    if n < |entries| {
      var init := entries[..|entries| - 1];
      assert init[..n] == entries[..n];
      RebuildFailsEarly(init, n);
      AddAllConcat(map[], Postings(init), entries[|entries| - 1].postings);
    } else {
      assert entries[..n] == entries;
    }
  }

  /** The table a snapshot describes; a repeated row overwrites. */
  function Observed(snapshot: seq<BalanceRecord>): Table {
    if snapshot == [] then map[]
    else
      var last := snapshot[|snapshot| - 1];
      Observed(snapshot[..|snapshot| - 1])[last.cell := last.amount]
  }

  /** The record that decides a cell: the last one that names it. */
  predicate LastFor(snapshot: seq<BalanceRecord>, k: Key, i: int) {
    0 <= i < |snapshot| && snapshot[i].cell == k && forall j :: i < j < |snapshot| ==> snapshot[j].cell != k
  }

  /** A cell is observed iff some record names it, with the amount of the last such record. */
  lemma {:induction false} ObservedLast(snapshot: seq<BalanceRecord>, k: Key)
    ensures k in Observed(snapshot) <==> exists i :: LastFor(snapshot, k, i)
    ensures forall i :: LastFor(snapshot, k, i) ==> Observed(snapshot)[k] == snapshot[i].amount
  {
    if snapshot != [] {
      var n := |snapshot| - 1;
      ObservedLast(snapshot[..n], k);
      if snapshot[n].cell == k {
        assert LastFor(snapshot, k, n);
      } else {
        forall i ensures LastFor(snapshot, k, i) <==> LastFor(snapshot[..n], k, i) {}
      }
    }
  }

  /** Some record names the cell: then one of them is the last. */
  lemma {:induction false} LastExists(snapshot: seq<BalanceRecord>, k: Key, i: nat) returns (last: nat)
    requires i < |snapshot| && snapshot[i].cell == k
    ensures LastFor(snapshot, k, last)
    decreases |snapshot| - i
  {
    last := i;
    if j :| i < j < |snapshot| && snapshot[j].cell == k { last := LastExists(snapshot, k, j); }
  }

  /** Reading a listing of a table back gives the table, in whatever order it lists the rows. */
  lemma ObservedExact(snapshot: seq<BalanceRecord>, t: Table)
    requires Lists(snapshot, t)
    ensures Observed(snapshot) == t
  {
    forall k ensures k in Observed(snapshot) <==> k in t
             ensures k in t ==> Observed(snapshot)[k] == t[k]
    {
      ObservedLast(snapshot, k);
      if k in t {
        var i :| 0 <= i < |snapshot| && snapshot[i] == BalanceRecord(k, t[k]);
        var last := LastExists(snapshot, k, i);
        assert IsRow(t, snapshot[last]);
      }
    }
  }

  predicate ByCell(a: Discrepancy, b: Discrepancy) { KeyLt(a.cell, b.cell) }

  predicate Differs(rebuilt: Table, observed: Table, k: Key) {
    Get(rebuilt, k) != Get(observed, k)
  }

  /** Exactly the differing cells, once each, in ascending order, with both figures. */
  method CompareMaps(rebuilt: Table, snapshot: seq<BalanceRecord>) returns (out: seq<Discrepancy>)
    ensures Ascending(out, ByCell)
    ensures forall i :: 0 <= i < |out| ==> Agrees(rebuilt, Observed(snapshot), out[i])
    ensures forall k :: Differs(rebuilt, Observed(snapshot), k) ==> Reported(out, k)
  {
    var observed: Table := map[];
    for i := 0 to |snapshot|
      invariant observed == Observed(snapshot[..i])
    {
      assert snapshot[..i + 1][..i] == snapshot[..i];
      observed := observed[snapshot[i].cell := snapshot[i].amount];
    }
    assert snapshot[..|snapshot|] == snapshot;
    var keys := ListedKeys(rebuilt.Keys + observed.Keys);
    out := CompareKeys(rebuilt, observed, keys);
    forall k | Differs(rebuilt, observed, k) ensures Reported(out, k) { assert k in Elements(keys); }
  }

  method CompareKeys(rebuilt: Table, observed: Table, keys: seq<Key>) returns (out: seq<Discrepancy>)
    requires Ascending(keys, KeyLt)
    ensures Ascending(out, ByCell)
    ensures forall i :: 0 <= i < |out| ==> Agrees(rebuilt, observed, out[i])
    ensures forall j :: 0 <= j < |keys| && Differs(rebuilt, observed, keys[j]) ==> Reported(out, keys[j])
  {
    out := [];
    for i := 0 to |keys|
      invariant Ascending(out, ByCell)
      invariant forall a :: 0 <= a < |out| ==> Agrees(rebuilt, observed, out[a])
      invariant forall a, j :: 0 <= a < |out| && i <= j < |keys| ==> KeyLt(out[a].cell, keys[j])
      invariant forall j :: 0 <= j < i && Differs(rebuilt, observed, keys[j]) ==> Reported(out, keys[j])
    {
      var expected, actual := Get(rebuilt, keys[i]), Get(observed, keys[i]);
      if expected != actual {
        out := Push(rebuilt, observed, out, Discrepancy(keys[i], expected, actual));
      }
    }
  }

  /** Append a discrepancy beyond all earlier ones. */
  function Push(ghost rebuilt: Table, ghost observed: Table, out: seq<Discrepancy>, d: Discrepancy)
    : (r: seq<Discrepancy>)
    requires Ascending(out, ByCell) && forall a :: 0 <= a < |out| ==> Agrees(rebuilt, observed, out[a])
    requires Agrees(rebuilt, observed, d) && forall a :: 0 <= a < |out| ==> KeyLt(out[a].cell, d.cell)
    ensures Ascending(r, ByCell) && forall a :: 0 <= a < |r| ==> Agrees(rebuilt, observed, r[a])
    ensures forall k :: Reported(r, k) <==> Reported(out, k) || k == d.cell
    ensures forall a :: 0 <= a < |r| ==> r[a] == d || (a < |out| && r[a] == out[a])
  {
    assert (out + [d])[|out|] == d;
    assert forall a :: 0 <= a < |out| ==> (out + [d])[a] == out[a];
    out + [d]
  }

  predicate Reported(out: seq<Discrepancy>, k: Key) {
    exists i :: 0 <= i < |out| && out[i].cell == k
  }

  predicate Agrees(rebuilt: Table, observed: Table, d: Discrepancy) {
    Differs(rebuilt, observed, d.cell) && d.expected == Get(rebuilt, d.cell) && d.observed == Get(observed, d.cell)
  }

  /** The findings for a view, against what the entries add up to: exactly the cells that
      differ, in ascending order, each with its journal sum and the amount of the view. */
  ghost predicate Finds(ps: seq<Posting>, view: Table, found: seq<Discrepancy>) {
    && Ascending(found, ByCell)
    && (forall i :: 0 <= i < |found| ==>
          && found[i].expected == Net(ps, found[i].cell) != found[i].observed
          && found[i].observed == Get(view, found[i].cell))
    && (forall k :: Net(ps, k) != Get(view, k) ==> Reported(found, k))
  }

  lemma FoundNothing(ps: seq<Posting>, view: Table, found: seq<Discrepancy>)
    requires Finds(ps, view, found)
    ensures found == [] <==> forall k :: Get(view, k) == Net(ps, k)
  {
    if found == [] {
      forall k ensures Get(view, k) == Net(ps, k) { assert !Reported(found, k); }
    } else {
      assert Get(view, found[0].cell) != Net(ps, found[0].cell);
    }
  }

  /** Reconcile any view against the journal. */
  method Reconcile(entries: seq<JournalEntry>, snapshot: seq<BalanceRecord>)
    returns (r: Result<seq<Discrepancy>, DomainError>)
    ensures r.Ok? <==> AddAll(map[], Postings(entries)).Ok?
    ensures r.Ok? ==> Finds(Postings(entries), Observed(snapshot), r.value)
    ensures r.Err? ==> r.error == AmountOverflow
  {
    AddAllExact(map[], Postings(entries));
    var rebuilt := Rebuild(entries);
    if rebuilt.Err? { return Err(rebuilt.error); }
    var found := CompareMaps(rebuilt.value, snapshot);
    CompareFinds(Postings(entries), rebuilt.value, Observed(snapshot), found);
    r := Ok(found);
  }

  lemma CompareFinds(ps: seq<Posting>, rebuilt: Table, view: Table, found: seq<Discrepancy>)
    requires forall k :: Get(rebuilt, k) == Net(ps, k)
    requires Ascending(found, ByCell) && forall i :: 0 <= i < |found| ==> Agrees(rebuilt, view, found[i])
    requires forall k :: Differs(rebuilt, view, k) ==> Reported(found, k)
    ensures Finds(ps, view, found)
  {
    forall k | Net(ps, k) != Get(view, k) ensures Reported(found, k) { assert Differs(rebuilt, view, k); }
    forall i | 0 <= i < |found| ensures found[i].expected == Net(ps, found[i].cell) {
      assert Agrees(rebuilt, view, found[i]);
    }
  }
}
