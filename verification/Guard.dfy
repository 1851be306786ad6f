/** The command service's pre-check (crates/ledger/src/service.rs:521-584) against the
    authority inside the transaction. */
module Guard {
  import opened Amounts
  import opened Order
  import opened Journal
  import opened Balances
  import opened Store
  import opened Invariants

  predicate IdLt(a: AccountId, b: AccountId) { a < b }

  predicate AccountRefused(accounts: Accounts, id: AccountId) {
    id !in accounts || accounts[id].status != Active
  }

  function AccountsOf(cells: set<Key>): set<AccountId> {
    set k | k in cells :: k.account
  }

  /** The net delta would push a protected row below zero (or out of range). */
  predicate CellRefused(accounts: Accounts, balances: Table, k: Key, delta: int) {
    && delta < 0
    && k.account in accounts
    && accounts[k.account].policy == NonNegative
    && !(0 <= Get(balances, k) + delta <= I128_MAX)
  }

  /** What the guard accepts: representable net deltas, usable accounts, and no protected
      row driven negative by its net delta. */
  ghost predicate Accepts(accounts: Accounts, balances: Table, ps: seq<Posting>) {
    && RunningFits(map[], ps)
    && (forall i :: 0 <= i < |ps| ==> !AccountRefused(accounts, ps[i].account))
    && (forall k :: !CellRefused(accounts, balances, k, Net(ps, k)))
  }

  /** What a refusal of the guard says: the first check that fails, deltas before accounts before
      balances, the least offender of that check, and its figures. */
  ghost predicate Explains(accounts: Accounts, balances: Table, ps: seq<Posting>, e: LedgerError) {
    if !RunningFits(map[], ps) then e == Domain(AmountOverflow)
    else if exists i :: 0 <= i < |ps| && AccountRefused(accounts, ps[i].account) then
      exists id :: LeastRefusedAccount(accounts, ps, id) && e == Refusal(accounts, id)
    else exists k :: LeastRefusedCell(accounts, balances, ps, k) && e == Overdraft(balances, k, Net(ps, k))
  }

  function Refusal(accounts: Accounts, id: AccountId): LedgerError {
    if id !in accounts then AccountNotFound(id) else Domain(AccountNotActive(id))
  }

  function Overdraft(balances: Table, k: Key, delta: int): LedgerError {
    Domain(if Fits(Get(balances, k) + delta) then InsufficientBalance(k.account, k.asset, Get(balances, k), delta)
           else AmountOverflow)
  }

  ghost predicate LeastRefusedCell(accounts: Accounts, balances: Table, ps: seq<Posting>, k: Key) {
    && CellRefused(accounts, balances, k, Net(ps, k))
    && forall other :: CellRefused(accounts, balances, other, Net(ps, other)) && other != k ==> KeyLt(k, other)
  }

  ghost predicate LeastRefusedAccount(accounts: Accounts, ps: seq<Posting>, id: AccountId) {
    && AccountRefused(accounts, id)
    && (exists i :: 0 <= i < |ps| && ps[i].account == id)
    && forall i :: 0 <= i < |ps| && AccountRefused(accounts, ps[i].account) ==> id <= ps[i].account
  }

  method NetDeltas(ps: seq<Posting>) returns (r: Result<Table, DomainError>)
    ensures r == AddAll(map[], ps)
  {
    var deltas: Table := map[];
    for i := 0 to |ps|
      invariant AddAll(map[], ps[..i]) == Ok(deltas)
    {
      assert ps[..i + 1][..i] == ps[..i];
      var sum := CheckedAdd(Get(deltas, ps[i].Cell()), ps[i].amount);
      if sum.Err? {
        AddAllFailsEarly(map[], ps, i + 1);
        return Err(sum.error);
      }
      deltas := deltas[ps[i].Cell() := sum.value];
    }
    assert ps[..|ps|] == ps;
    r := Ok(deltas);
  }

  ghost predicate FirstRefused(accounts: Accounts, ids: seq<AccountId>, i: int) {
    && 0 <= i < |ids| && AccountRefused(accounts, ids[i])
    && forall j :: 0 <= j < i ==> !AccountRefused(accounts, ids[j])
  }

  method CheckAccounts(accounts: Accounts, ids: seq<AccountId>) returns (r: Result<(), LedgerError>)
    ensures r.Ok? ==> forall i :: 0 <= i < |ids| ==> !AccountRefused(accounts, ids[i])
    ensures r.Err? ==> exists i :: FirstRefused(accounts, ids, i) && r.error == Refusal(accounts, ids[i])
  {
    for i := 0 to |ids|
      invariant forall j :: 0 <= j < i ==> !AccountRefused(accounts, ids[j])
    {
      if ids[i] !in accounts {
        assert FirstRefused(accounts, ids, i);
        return Err(AccountNotFound(ids[i]));
      }
      if accounts[ids[i]].status != Active {
        assert FirstRefused(accounts, ids, i);
        return Err(Domain(AccountNotActive(ids[i])));
      }
    }
    r := Ok(());
  }

  /** One balance read of the guard. */
  function CheckCell(accounts: Accounts, balances: Table, k: Key, delta: Amount): (r: Result<(), LedgerError>)
    requires k.account in accounts
  {
    if delta >= 0 || accounts[k.account].policy == AllowNegative then Ok(())
    else
      var sum := CheckedAdd(Get(balances, k), delta);
      if sum.Err? then Err(Domain(sum.error))
      else if sum.value < 0 then Err(Domain(InsufficientBalance(k.account, k.asset, Get(balances, k), delta)))
      else Ok(())
  }

  lemma AccountListed(ps: seq<Posting>, ids: seq<AccountId>, i: nat) returns (j: nat)
    requires i < |ps| && Elements(ids) == AccountsOf(Cells(ps))
    ensures j < |ids| && ids[j] == ps[i].account
  {
    CellWritten(ps, i);
    assert ps[i].account in AccountsOf(Cells(ps));
    assert ps[i].account in ids;
    j :| 0 <= j < |ids| && ids[j] == ps[i].account;
  }

  lemma ListedAccount(ps: seq<Posting>, ids: seq<AccountId>, j: nat) returns (i: nat)
    requires j < |ids| && Elements(ids) == AccountsOf(Cells(ps))
    ensures i < |ps| && ps[i].account == ids[j]
  {
    assert ids[j] in Elements(ids);
    var k :| k in Cells(ps) && k.account == ids[j];
    i := CellWriter(ps, k);
  }

  /** The first refused account of an ascending list is the least. */
  lemma FirstRefusedIsLeast(accounts: Accounts, ps: seq<Posting>, ids: seq<AccountId>, j: nat)
    requires Ascending(ids, IdLt) && Elements(ids) == AccountsOf(Cells(ps)) && FirstRefused(accounts, ids, j)
    ensures LeastRefusedAccount(accounts, ps, ids[j])
  {
    var at := ListedAccount(ps, ids, j);
    forall i | 0 <= i < |ps| && AccountRefused(accounts, ps[i].account) ensures ids[j] <= ps[i].account {
      var m := AccountListed(ps, ids, i);
      assert m == j || IdLt(ids[j], ids[m]);
    }
  }

  /** The existence and status checks, over the distinct accounts in ascending order. */
  method GuardAccounts(accounts: Accounts, ps: seq<Posting>, cells: set<Key>) returns (r: Result<(), LedgerError>)
    requires cells == Cells(ps)
    ensures r.Ok? <==> forall i :: 0 <= i < |ps| ==> !AccountRefused(accounts, ps[i].account)
    ensures r.Err? ==> exists id :: LeastRefusedAccount(accounts, ps, id) && r.error == Refusal(accounts, id)
  {
    var ids := Listed(AccountsOf(cells), IdLt);
    r := CheckAccounts(accounts, ids);
    if r.Err? {
      ghost var j :| FirstRefused(accounts, ids, j) && r.error == Refusal(accounts, ids[j]);
      FirstRefusedIsLeast(accounts, ps, ids, j);
    } else {
      forall i | 0 <= i < |ps| ensures !AccountRefused(accounts, ps[i].account) { var j := AccountListed(ps, ids, i); }
    }
  }

  /** The balance checks, over the net deltas in ascending key order. */
  method GuardCells(accounts: Accounts, balances: Table, ghost ps: seq<Posting>, deltas: Table)
    returns (r: Result<(), LedgerError>)
    requires forall k :: Get(deltas, k) == Net(ps, k)
    requires forall k :: k in deltas ==> k.account in accounts
    ensures r.Ok? <==> forall k :: !CellRefused(accounts, balances, k, Net(ps, k))
    ensures r.Err? ==>
              exists k :: LeastRefusedCell(accounts, balances, ps, k) && r.error == Overdraft(balances, k, Net(ps, k))
  {
    var keys := ListedKeys(deltas.Keys);
    forall k | Net(ps, k) < 0 ensures k in keys {
      assert Get(deltas, k) == Net(ps, k);
      assert k in Elements(keys);
    }
    for i := 0 to |keys|
      invariant forall j :: 0 <= j < i ==> !CellRefused(accounts, balances, keys[j], Net(ps, keys[j]))
    {
      assert keys[i] in Elements(keys);
      assert Get(deltas, keys[i]) == Net(ps, keys[i]);
      var checked := CheckCell(accounts, balances, keys[i], deltas[keys[i]]);
      if checked.Err? {
        assert CellRefused(accounts, balances, keys[i], Net(ps, keys[i]));
        assert LeastRefusedCell(accounts, balances, ps, keys[i]);
        return Err(checked.error);
      }
    }
    r := Ok(());
  }

  /** Exact verdict of the guard on one state of the store. */
  method GuardPostings(accounts: Accounts, balances: Table, ps: seq<Posting>) returns (r: Result<(), LedgerError>)
    ensures r.Ok? <==> Accepts(accounts, balances, ps)
    ensures r.Err? ==> Explains(accounts, balances, ps, r.error)
  {
    AddAllExact(map[], ps);
    var deltas := NetDeltas(ps);
    if deltas.Err? { return Err(Domain(deltas.error)); }
    AddAllKeys(map[], ps);
    r := GuardAccounts(accounts, ps, deltas.value.Keys);
    if r.Ok? {
      forall k | k in deltas.value ensures k.account in accounts { var i := CellWriter(ps, k); }
      r := GuardCells(accounts, balances, ps, deltas.value);
    }
  }

  // ---- guard against authority ----------------------------------------------

  /** The last posting to a touched cell leaves it at the full net delta. */
  lemma {:induction false} LastTouch(ps: seq<Posting>, k: Key) returns (n: nat)
    requires Net(ps, k) != 0
    ensures 0 < n <= |ps| && ps[n - 1].Cell() == k && Net(ps[..n], k) == Net(ps, k)
  {
    var m := |ps| - 1;
    if ps[m].Cell() == k {
      n := |ps|;
      assert ps[..n] == ps;
    } else {
      n := LastTouch(ps[..m], k);
      assert ps[..m][..n] == ps[..n];
    }
  }

  /** What the authority would take, the guard lets through exactly when the entry's own
      running deltas fit: delta overflow is the guard's only spurious refusal. */
  lemma AdmissibleIsAccepted(accounts: Accounts, balances: Table, ps: seq<Posting>)
    requires Admissible(accounts, balances, ps)
    ensures Accepts(accounts, balances, ps) <==> RunningFits(map[], ps)
  {
    AdmissibleIsRefusedNowhere(accounts, balances, ps);
  }

  /** Soundness: when the guard refuses for a missing account, an inactive account or an
      insufficient balance, or for any reason while the running deltas fit, the authority
      would refuse in the same state. */
  lemma RefusalIsJustified(accounts: Accounts, balances: Table, ps: seq<Posting>, e: LedgerError)
    requires Explains(accounts, balances, ps, e) && (e != Domain(AmountOverflow) || RunningFits(map[], ps))
    ensures ApplyAll(accounts, balances, ps).Err?
  {
    ApplyAllExact(accounts, balances, ps);
    if Admissible(accounts, balances, ps) {
      AdmissibleIsRefusedNowhere(accounts, balances, ps);
      assert false;
    }
  }

  /** An admissible entry touches no refused account and no refused cell. */
  lemma AdmissibleIsRefusedNowhere(accounts: Accounts, balances: Table, ps: seq<Posting>)
    requires Admissible(accounts, balances, ps)
    ensures forall i :: 0 <= i < |ps| ==> !AccountRefused(accounts, ps[i].account)
    ensures forall k :: !CellRefused(accounts, balances, k, Net(ps, k))
  {
    forall i | 0 <= i < |ps| ensures !AccountRefused(accounts, ps[i].account) {
      assert Admits(accounts, balances, ps, i + 1);
    }
    forall k ensures !CellRefused(accounts, balances, k, Net(ps, k)) {
      if Net(ps, k) != 0 {
        var n := LastTouch(ps, k);
        assert Admits(accounts, balances, ps, n);
      }
    }
  }

  ghost predicate DistinctCells(ps: seq<Posting>) {
    forall i, j :: 0 <= i < j < |ps| ==> ps[i].Cell() != ps[j].Cell()
  }

  lemma {:induction false} DistinctNet(ps: seq<Posting>, n: nat)
    requires DistinctCells(ps) && 0 < n <= |ps|
    ensures Net(ps[..n], ps[n - 1].Cell()) == Net(ps, ps[n - 1].Cell())
  {
    if n == |ps| {
      assert ps[..n] == ps;
    } else {
      var m := |ps| - 1;
      DistinctNet(ps[..m], n);
      assert ps[..m][..n] == ps[..n];
    }
  }

  /** Completeness: in a state that respects its policies, an accepted entry with distinct
      cells applies exactly when no balance overflows. */
  lemma AcceptanceSuffices(accounts: Accounts, balances: Table, ps: seq<Posting>)
    requires Accepts(accounts, balances, ps) && DistinctCells(ps)
    requires PolicyHolds(accounts, balances)
    ensures ApplyAll(accounts, balances, ps).Ok? <==> RunningFits(balances, ps)
  {
    ApplyAllExact(accounts, balances, ps);
    if RunningFits(balances, ps) {
      forall n | 0 < n <= |ps| ensures Admits(accounts, balances, ps, n) {
        assert FitsAfter(balances, ps, n);
        DistinctNet(ps, n);
        assert !AccountRefused(accounts, ps[n - 1].account);
        assert !CellRefused(accounts, balances, ps[n - 1].Cell(), Net(ps, ps[n - 1].Cell()));
      }
    } else {
      var n: nat :| 0 < n <= |ps| && !FitsAfter(balances, ps, n);
      assert !Admits(accounts, balances, ps, n);
    }
  }

  /** With repeated cells acceptance does not suffice: the guard nets the legs that the
      authority checks one at a time. */
  lemma NettingHidesAnOverdraft()
    ensures var accounts := map[1 := Account(1, "a", NonNegative, Active)];
            var ps := [Posting(1, "USD", -5, Credit), Posting(1, "USD", 5, Debit)];
            && Balanced(ps)
            && Accepts(accounts, map[], ps)
            && ApplyAll(accounts, map[], ps).Err?
            && ApplyAll(accounts, map[], [ps[1], ps[0]]).Ok?
  {
    var accounts := map[1 := Account(1, "a", NonNegative, Active)];
    var ps := [Posting(1, "USD", -5, Credit), Posting(1, "USD", 5, Debit)];
    TwoLegs(ps);
    TwoLegs([ps[1], ps[0]]);
    ApplyAllExact(accounts, map[], ps);
    assert !Admits(accounts, map[], ps, 1);
    ApplyAllExact(accounts, map[], [ps[1], ps[0]]);
  }

  const OPEN_PAIR: Accounts :=
    map[1 := Account(1, "a", AllowNegative, Active), 2 := Account(2, "b", AllowNegative, Active)]

  /** Ten units from the first account to the second. */
  function Opening(): JournalCommit {
    var e := JournalEntry(1, "", "", [Posting(1, "USD", -10, Credit), Posting(2, "USD", 10, Debit)], 0);
    JournalCommit(e, [Event(1, JournalPosted(e), 0)], Record(Slot("", ""), "", EntryPosted(1, "", 0), 0))
  }

  lemma OpeningCommits()
    ensures Run(Opened(OPEN_PAIR), [Commit(Opening())]).balances == map[Key(1, "USD") := -10, Key(2, "USD") := 10]
  {
    var db, c := Opened(OPEN_PAIR), Opening();
    var ps := c.entry.postings;
    assert [Commit(c)][..0] == [] && Run(db, [Commit(c)]) == Step(db, Commit(c));
    assert c.events[..0] == [] && JournalsOf(c.events) == [] + [c.entry];
    TwoLegs(ps);
    assert Proper(db.outbox, c);
    CommitShape(db, c);
    assert ps[..1][..0] == [] && ApplyAll(OPEN_PAIR, map[], []) == Ok(map[]);
    assert ApplyAll(OPEN_PAIR, map[], ps[..1]) == Ok(map[Key(1, "USD") := -10]);
    assert ApplyAll(OPEN_PAIR, map[], ps) == Ok(map[Key(1, "USD") := -10][Key(2, "USD") := 10]);
  }

  /** The largest amount from the second account to the first, and five more. */
  function Largest(): seq<Posting> {
    [Posting(1, "USD", I128_MAX, Debit), Posting(2, "USD", 0 - I128_MAX, Credit),
     Posting(1, "USD", 5, Debit), Posting(2, "USD", -5, Credit)]
  }

  lemma LargestBalanced()
    ensures Balanced(Largest()) && !RunningFits(map[], Largest())
  {
    FourLegs(Largest());
    assert !FitsAfter(map[], Largest(), 3);
  }

  lemma LargestApplies(balances: Table)
    requires balances == map[Key(1, "USD") := -10, Key(2, "USD") := 10]
    ensures ApplyAll(OPEN_PAIR, balances, Largest()).Ok?
  {
    var ps := Largest();
    FourLegs(ps);
    ApplyAllExact(OPEN_PAIR, balances, ps);
    assert Admits(OPEN_PAIR, balances, ps, 1) && Admits(OPEN_PAIR, balances, ps, 2);
    assert Admits(OPEN_PAIR, balances, ps, 3) && Admits(OPEN_PAIR, balances, ps, 4);
  }

  /** The overflow refusal is the one exception to `RefusalIsJustified`: the guard sums
      deltas from zero, the authority from the stored balance, so in a reachable state a
      balanced entry can overflow the first and fit the second. */
  lemma OverflowRefusalCanBeSpurious()
    ensures var db := Run(Opened(OPEN_PAIR), [Commit(Opening())]);
            && Balanced(Largest()) && !RunningFits(map[], Largest())
            && !Accepts(OPEN_PAIR, db.balances, Largest())
            && ApplyAll(OPEN_PAIR, db.balances, Largest()).Ok?
  {
    OpeningCommits();
    LargestBalanced();
    LargestApplies(Run(Opened(OPEN_PAIR), [Commit(Opening())]).balances);
  }
}
