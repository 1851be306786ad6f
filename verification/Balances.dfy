/** Balance tables: checked accumulation of postings, its closed form, and sums over a table. */
module Balances {
  import opened Sequences
  import opened Amounts
  import opened Order
  import opened Journal

  type Table = map<Key, Amount>

  function AddOne(t: Table, p: Posting): (r: Result<Table, DomainError>) {
    var sum := CheckedAdd(Get(t, p.Cell()), p.amount);
    if sum.Err? then Err(sum.error) else Ok(t[p.Cell() := sum.value])
  }

  /** Add postings one by one, stopping at the first overflow. */
  function AddAll(t: Table, ps: seq<Posting>): (r: Result<Table, DomainError>) {
    if ps == [] then Ok(t)
    else
      var before := AddAll(t, ps[..|ps| - 1]);
      if before.Err? then before else AddOne(before.value, ps[|ps| - 1])
  }

  /** Cells a posting list writes. */
  function Cells(ps: seq<Posting>): set<Key> {
    if ps == [] then {} else Cells(ps[..|ps| - 1]) + {ps[|ps| - 1].Cell()}
  }

  lemma {:induction false} CellWritten(ps: seq<Posting>, i: nat)
    requires i < |ps|
    ensures ps[i].Cell() in Cells(ps)
  {
    if i < |ps| - 1 { CellWritten(ps[..|ps| - 1], i); }
  }

  lemma {:induction false} CellWriter(ps: seq<Posting>, k: Key) returns (i: nat)
    requires k in Cells(ps)
    ensures i < |ps| && ps[i].Cell() == k
  {
    i := |ps| - 1;
    if ps[i].Cell() != k { i := CellWriter(ps[..i], k); }
  }

  /** The row that posting `n - 1` writes is representable. */
  predicate FitsAfter(t: Table, ps: seq<Posting>, n: nat)
    requires 0 < n <= |ps|
  {
    var k := ps[n - 1].Cell();
    Fits(Get(t, k) + Net(ps[..n], k))
  }

  ghost predicate RunningFits(t: Table, ps: seq<Posting>) {
    forall n | 0 < n <= |ps| :: FitsAfter(t, ps, n)
  }

  lemma RunningFitsStep(t: Table, ps: seq<Posting>)
    requires ps != []
    ensures RunningFits(t, ps) <==> RunningFits(t, ps[..|ps| - 1]) && FitsAfter(t, ps, |ps|)
  {
    var init := ps[..|ps| - 1];
    forall m | 0 < m <= |init| ensures FitsAfter(t, init, m) == FitsAfter(t, ps, m) {
      assert init[..m] == ps[..m];
    }
  }

  /** Closed form of accumulation: when it succeeds, and what every row then holds. */
  lemma {:induction false} AddAllExact(t: Table, ps: seq<Posting>)
    ensures AddAll(t, ps).Ok? <==> RunningFits(t, ps)
    ensures AddAll(t, ps).Err? ==> AddAll(t, ps).error == AmountOverflow
    ensures AddAll(t, ps).Ok? ==> forall k :: Get(AddAll(t, ps).value, k) == Get(t, k) + Net(ps, k)
  {
    if ps != [] {
      var n := |ps| - 1;
      AddAllExact(t, ps[..n]);
      RunningFitsStep(t, ps);
      assert ps[..|ps|] == ps;
    }
  }

  lemma {:induction false} AddAllKeys(t: Table, ps: seq<Posting>)
    requires AddAll(t, ps).Ok?
    ensures AddAll(t, ps).value.Keys == t.Keys + Cells(ps)
  {
    if ps != [] {
      var n := |ps| - 1;
      AddAllKeys(t, ps[..n]);
    }
  }

  /** Accumulating a concatenation is accumulating its parts in turn. */
  lemma {:induction false} AddAllConcat(t: Table, ps: seq<Posting>, qs: seq<Posting>)
    ensures AddAll(t, ps + qs) ==
            if AddAll(t, ps).Err? then AddAll(t, ps) else AddAll(AddAll(t, ps).value, qs)
  {
    if qs == [] {
      assert ps + qs == ps;
    } else {
      var n := |qs| - 1;
      ConcatInit(ps, qs);
      AddAllConcat(t, ps, qs[..n]);
    }
  }

  /** The first overflow decides the result. */
  lemma AddAllFailsEarly(t: Table, ps: seq<Posting>, n: nat)
    requires n <= |ps| && AddAll(t, ps[..n]).Err?
    ensures AddAll(t, ps) == AddAll(t, ps[..n])
  {
    assert ps == ps[..n] + ps[n..];
    AddAllConcat(t, ps[..n], ps[n..]);
  }

  lemma {:induction false} NetConcat(ps: seq<Posting>, qs: seq<Posting>, k: Key)
    ensures Net(ps + qs, k) == Net(ps, k) + Net(qs, k)
  {
    if qs == [] {
      assert ps + qs == ps;
    } else {
      var n := |qs| - 1;
      ConcatInit(ps, qs);
      NetConcat(ps, qs[..n], k);
    }
  }

  /** Sum of the selected rows of a table. */
  ghost function SumWhere(t: Table, sel: Key -> bool): int
    decreases |t|
  {
    if t == map[] then 0
    else
      var k :| k in t;
      (if sel(k) then t[k] else 0) + SumWhere(t - {k}, sel)
  }

  /** The sum does not depend on the order in which rows are taken. */
  lemma {:induction false} SumRemove(t: Table, sel: Key -> bool, k: Key)
    requires k in t
    ensures SumWhere(t, sel) == (if sel(k) then t[k] else 0) + SumWhere(t - {k}, sel)
    decreases |t|
  {
    var j :| j in t && SumWhere(t, sel) == (if sel(j) then t[j] else 0) + SumWhere(t - {j}, sel);
    if j != k {
      SumRemove(t - {j}, sel, k);
      SumRemove(t - {k}, sel, j);
      assert t - {j} - {k} == t - {k} - {j};
    }
  }

  lemma SumUpdate(t: Table, sel: Key -> bool, k: Key, v: Amount)
    ensures SumWhere(t[k := v], sel) == SumWhere(t, sel) + if sel(k) then v - Get(t, k) else 0
  {
    SumRemove(t[k := v], sel, k);
    if k in t {
      SumRemove(t, sel, k);
      assert t[k := v] - {k} == t - {k};
    } else {
      assert t[k := v] - {k} == t;
    }
  }

  function InAsset(asset: AssetCode): Key -> bool {
    (k: Key) => k.asset == asset
  }

  /** Accumulation moves the total of each asset by exactly that asset's posting sum. */
  lemma {:induction false} AddAllSum(t: Table, ps: seq<Posting>, asset: AssetCode)
    requires AddAll(t, ps).Ok?
    ensures SumWhere(AddAll(t, ps).value, InAsset(asset)) == SumWhere(t, InAsset(asset)) + AssetSum(ps, asset)
  {
    if ps != [] {
      var n := |ps| - 1;
      AddAllSum(t, ps[..n], asset);
      var before, p := AddAll(t, ps[..n]).value, ps[n];
      var after: Amount := Get(before, p.Cell()) + p.amount;
      assert AddAll(t, ps) == AddOne(before, p) == Ok(before[p.Cell() := after]);
      SumUpdate(before, InAsset(asset), p.Cell(), after);
    }
  }

  lemma {:induction false} SumSplit(t: Table, all: Key -> bool, left: Key -> bool, right: Key -> bool)
    requires forall k :: k in t ==> (all(k) <==> left(k) || right(k)) && !(left(k) && right(k))
    ensures SumWhere(t, all) == SumWhere(t, left) + SumWhere(t, right)
    decreases |t|
  {
    if t != map[] {
      var k :| k in t;
      SumRemove(t, all, k);
      SumRemove(t, left, k);
      SumRemove(t, right, k);
      SumSplit(t - {k}, all, left, right);
    }
  }

  lemma {:induction false} SumNonNegative(t: Table, sel: Key -> bool)
    requires forall k :: k in t && sel(k) ==> t[k] >= 0
    ensures SumWhere(t, sel) >= 0
    decreases |t|
  {
    if t != map[] {
      var k :| k in t;
      SumRemove(t, sel, k);
      SumNonNegative(t - {k}, sel);
    }
  }

  // ---- snapshots ------------------------------------------------------------

  /** One row of a balance table as a repository returns it. */
  datatype BalanceRecord = BalanceRecord(cell: Key, amount: Amount)

  predicate RecordLt(a: BalanceRecord, b: BalanceRecord) { KeyLt(a.cell, b.cell) }

  predicate IsRow(t: Table, r: BalanceRecord) {
    r.cell in t && t[r.cell] == r.amount
  }

  /** Every record is a row of the table, and every row has its record. */
  predicate Lists(snapshot: seq<BalanceRecord>, t: Table) {
    && (forall i :: 0 <= i < |snapshot| ==> IsRow(t, snapshot[i]))
    && (forall k :: k in t ==> BalanceRecord(k, t[k]) in snapshot)
  }

  /** All rows of a table, ordered by account and asset. */
  method ListRows(t: Table) returns (snapshot: seq<BalanceRecord>)
    ensures Lists(snapshot, t) && Ascending(snapshot, RecordLt)
  {
    var keys := ListedKeys(t.Keys);
    assert forall i :: 0 <= i < |keys| ==> keys[i] in Elements(keys);
    snapshot := seq(|keys|, i requires 0 <= i < |keys| => BalanceRecord(keys[i], t[keys[i]]));
    forall k | k in t ensures BalanceRecord(k, t[k]) in snapshot {
      assert k in Elements(keys);
      var i :| 0 <= i < |keys| && keys[i] == k;
      assert snapshot[i] == BalanceRecord(k, t[k]);
    }
  }
}
