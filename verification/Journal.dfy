/** Postings, journal entries and exact balance validation (crates/domain/src/journal.rs). */
module Journal {
  import opened Amounts
  import opened Order

  /** One cell of a balance table: an account and an asset. */
  datatype Key = Key(account: AccountId, asset: AssetCode)

  /** Rust's order on `(Uuid, AssetCode)` tuples. */
  predicate KeyLt(a: Key, b: Key) {
    a.account < b.account || (a.account == b.account && TextLt(a.asset, b.asset))
  }

  lemma KeyOrder()
    ensures StrictTotal(KeyLt)
  {
    TextOrder();
  }

  /** Listed keys stand together by account, in ascending order of the accounts. */
  lemma KeysByAccount(keys: seq<Key>, i: nat, j: nat)
    requires Ascending(keys, KeyLt) && i < j < |keys|
    ensures keys[i].account <= keys[j].account
    ensures keys[i].account == keys[j].account ==> TextLt(keys[i].asset, keys[j].asset)
  {
  }

  method ListedKeys(s: set<Key>) returns (r: seq<Key>)
    ensures Ascending(r, KeyLt) && Elements(r) == s
  {
    KeyOrder();
    r := Listed(s, KeyLt);
  }

  datatype Side = Debit | Credit

  datatype Posting = Posting(account: AccountId, asset: AssetCode, amount: Amount, side: Side) {
    function Cell(): Key { Key(account, asset) }
  }

  datatype JournalEntry = JournalEntry(
    id: TransactionId, idempotencyKey: string, description: string, postings: seq<Posting>, createdAt: Time)

  function NewPosting(account: AccountId, asset: AssetCode, amount: Amount): (r: Result<Posting, DomainError>) {
    if amount == 0 then Err(NonPositiveAmount(0))
    else Ok(Posting(account, asset, amount, if amount > 0 then Debit else Credit))
  }

  function NewDebit(account: AccountId, asset: AssetCode, amount: Amount): (r: Result<Posting, DomainError>) {
    var positive := RequirePositive(amount);
    if positive.Err? then Err(positive.error) else NewPosting(account, asset, positive.value)
  }

  function NewCredit(account: AccountId, asset: AssetCode, amount: Amount): (r: Result<Posting, DomainError>) {
    var positive := RequirePositive(amount);
    if positive.Err? then Err(positive.error)
    else
      var negated := CheckedNeg(positive.value);
      if negated.Err? then Err(negated.error) else NewPosting(account, asset, negated.value)
  }

  /** Signed effect of a posting list on one cell. */
  function Net(ps: seq<Posting>, k: Key): int {
    if ps == [] then 0
    else
      var p := ps[|ps| - 1];
      Net(ps[..|ps| - 1], k) + (if p.Cell() == k then p.amount else 0)
  }

  /** Signed sum of a posting list in one asset. */
  function AssetSum(ps: seq<Posting>, asset: AssetCode): int {
    if ps == [] then 0
    else
      var p := ps[|ps| - 1];
      AssetSum(ps[..|ps| - 1], asset) + (if p.asset == asset then p.amount else 0)
  }

  lemma SumStep(ps: seq<Posting>, i: nat)
    requires i < |ps|
    ensures forall a :: AssetSum(ps[..i + 1], a) == AssetSum(ps[..i], a) + if ps[i].asset == a then ps[i].amount else 0
    ensures forall k :: Net(ps[..i + 1], k) == Net(ps[..i], k) + if ps[i].Cell() == k then ps[i].amount else 0
  {
    assert ps[..i + 1][..i] == ps[..i];
  }

  function Part(p: Posting, k: Key): int { if p.Cell() == k then p.amount else 0 }
  function AssetPart(p: Posting, a: AssetCode): int { if p.asset == a then p.amount else 0 }

  lemma TwoLegs(ps: seq<Posting>)
    requires |ps| >= 2
    ensures forall k :: Net(ps[..1], k) == Part(ps[0], k)
    ensures forall k :: Net(ps[..2], k) == Part(ps[0], k) + Part(ps[1], k)
    ensures forall a :: AssetSum(ps[..1], a) == AssetPart(ps[0], a)
    ensures forall a :: AssetSum(ps[..2], a) == AssetPart(ps[0], a) + AssetPart(ps[1], a)
    ensures |ps| == 2 ==> ps[..2] == ps
  {
    assert ps[..0] == [];
    SumStep(ps, 0);
    SumStep(ps, 1);
  }

  lemma FourLegs(ps: seq<Posting>)
    requires |ps| == 4
    ensures ps[..4] == ps
    ensures forall k :: Net(ps[..1], k) == Part(ps[0], k)
    ensures forall k :: Net(ps[..2], k) == Part(ps[0], k) + Part(ps[1], k)
    ensures forall k :: Net(ps[..3], k) == Part(ps[0], k) + Part(ps[1], k) + Part(ps[2], k)
    ensures forall k :: Net(ps, k) == Part(ps[0], k) + Part(ps[1], k) + Part(ps[2], k) + Part(ps[3], k)
    ensures forall a :: AssetSum(ps[..1], a) == AssetPart(ps[0], a)
    ensures forall a :: AssetSum(ps[..2], a) == AssetPart(ps[0], a) + AssetPart(ps[1], a)
    ensures forall a :: AssetSum(ps[..3], a) == AssetPart(ps[0], a) + AssetPart(ps[1], a) + AssetPart(ps[2], a)
    ensures forall a ::
              AssetSum(ps, a) == AssetPart(ps[0], a) + AssetPart(ps[1], a) + AssetPart(ps[2], a) + AssetPart(ps[3], a)
  {
    TwoLegs(ps);
    SumStep(ps, 2);
    SumStep(ps, 3);
    assert ps[..4] == ps;
  }

  /** Reading an absent row gives zero, as `unwrap_or(AtomicAmount::ZERO)` does. */
  function Get<K>(m: map<K, Amount>, k: K): Amount {
    if k in m then m[k] else 0
  }

  /** Every running per-asset sum is representable. */
  ghost predicate RunningSumsFit(ps: seq<Posting>) {
    forall n :: 0 < n <= |ps| ==> Fits(AssetSum(ps[..n], ps[n - 1].asset))
  }

  ghost predicate ZeroSum(ps: seq<Posting>) {
    forall asset :: AssetSum(ps, asset) == 0
  }

  /** What makes a posting list an acceptable journal entry. */
  ghost predicate Balanced(ps: seq<Posting>) {
    |ps| >= 2 && RunningSumsFit(ps) && ZeroSum(ps)
  }

  ghost predicate LeastUnbalanced(ps: seq<Posting>, asset: AssetCode) {
    && AssetSum(ps, asset) != 0
    && forall other :: AssetSum(ps, other) != 0 && other != asset ==> TextLt(asset, other)
  }

  /** Per-asset signed sums, or overflow. */
  method AssetTotals(ps: seq<Posting>) returns (r: Result<map<AssetCode, Amount>, DomainError>)
    ensures r.Ok? <==> RunningSumsFit(ps)
    ensures r.Ok? ==> forall a :: Get(r.value, a) == AssetSum(ps, a)
    ensures r.Err? ==> r.error == AmountOverflow
  {
    var totals: map<AssetCode, Amount> := map[];
    for i := 0 to |ps|
      invariant forall a :: Get(totals, a) == AssetSum(ps[..i], a)
      invariant forall n :: 0 < n <= i ==> Fits(AssetSum(ps[..n], ps[n - 1].asset))
    {
      var p := ps[i];
      SumStep(ps, i);
      var sum := CheckedAdd(Get(totals, p.asset), p.amount);
      if sum.Err? { return Err(sum.error); }
      var updated := totals[p.asset := sum.value];
      forall a ensures Get(updated, a) == AssetSum(ps[..i + 1], a) {
        assert Get(totals, a) == AssetSum(ps[..i], a);
      }
      totals := updated;
    }
    assert ps[..|ps|] == ps;
    r := Ok(totals);
  }

  /** The first non-zero total in ascending asset order. */
  method LeastNonZero(totals: map<AssetCode, Amount>) returns (r: Option<AssetCode>)
    ensures r.None? ==> forall a :: Get(totals, a) == 0
    ensures r.Some? ==> Get(totals, r.value) != 0
    ensures r.Some? ==> forall a :: Get(totals, a) != 0 && a != r.value ==> TextLt(r.value, a)
  {
    var assets := ListedText(totals.Keys);
    forall a | Get(totals, a) != 0 ensures a in assets { assert a in Elements(assets); }
    for i := 0 to |assets|
      invariant forall j :: 0 <= j < i ==> Get(totals, assets[j]) == 0
    {
      if Get(totals, assets[i]) != 0 { return Some(assets[i]); }
    }
    r := None;
  }

  /** Exact acceptance: success iff balanced, and otherwise the precise refusal; the
      residual error names the least unbalanced asset. */
  method ValidateBalanced(ps: seq<Posting>) returns (r: Result<(), DomainError>)
    ensures r.Ok? <==> Balanced(ps)
    ensures |ps| < 2 ==> r == Err(InsufficientPostings(|ps|))
    ensures |ps| >= 2 && !RunningSumsFit(ps) ==> r == Err(AmountOverflow)
    ensures |ps| >= 2 && RunningSumsFit(ps) && !ZeroSum(ps) ==>
              exists asset :: LeastUnbalanced(ps, asset) && r == Err(UnbalancedEntry(asset, AssetSum(ps, asset)))
  {
    if |ps| < 2 { return Err(InsufficientPostings(|ps|)); }
    var totals := AssetTotals(ps);
    if totals.Err? { return Err(totals.error); }
    var residual := LeastNonZero(totals.value);
    if residual.Some? {
      assert LeastUnbalanced(ps, residual.value);
      return Err(UnbalancedEntry(residual.value, Get(totals.value, residual.value)));
    }
    r := Ok(());
  }

  /** The same verdict as a value, for builders that are pure. */
  ghost function Verdict(ps: seq<Posting>): (r: Result<(), DomainError>) {
    if |ps| < 2 then Err(InsufficientPostings(|ps|))
    else if !RunningSumsFit(ps) then Err(AmountOverflow)
    else if asset :| LeastUnbalanced(ps, asset) then Err(UnbalancedEntry(asset, AssetSum(ps, asset)))
    else Ok(())
  }

  ghost function NewEntry(
    id: TransactionId, key: string, description: string, ps: seq<Posting>, now: Time
  ): (r: Result<JournalEntry, DomainError>) {
    var verdict := Verdict(ps);
    if verdict.Err? then Err(verdict.error) else Ok(JournalEntry(id, key, description, ps, now))
  }

  method MakeEntry(id: TransactionId, key: string, description: string, ps: seq<Posting>, now: Time)
    returns (r: Result<JournalEntry, DomainError>)
    ensures r == NewEntry(id, key, description, ps, now)
    ensures r.Ok? <==> Balanced(ps)
  {
    var verdict := ValidateBalanced(ps);
    TextOrder();
    r := if verdict.Err? then Err(verdict.error) else Ok(JournalEntry(id, key, description, ps, now));
  }
}
