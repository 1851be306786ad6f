/** Transaction flows (crates/domain/src/flow.rs) and what a committed flow does to the books. */
module Flow {
  import opened Amounts
  import opened Journal
  import opened Balances
  import opened Store
  import opened Invariants

  datatype Flow =
    | ConfirmedDeposit(available: AccountId, clearing: AccountId, hot: Option<AccountId>, asset: AssetCode,
                       amount: Amount)
    | InternalTransfer(from: AccountId, to: AccountId, asset: AssetCode, amount: Amount)
    | TradeSettlement(buyer: AccountId, seller: AccountId, base: AssetCode, baseAmount: Amount, quote: AssetCode,
                      quoteAmount: Amount)
    | TradingFee(customer: AccountId, revenue: AccountId, asset: AssetCode, amount: Amount)
    | WithdrawalRequest(available: AccountId, locked: AccountId, asset: AssetCode, amount: Amount)
    | WithdrawalCompletion(locked: AccountId, clearing: AccountId, hotWallet: AccountId, asset: AssetCode,
                           amount: Amount)
    | WithdrawalRejection(locked: AccountId, available: AccountId, asset: AssetCode, amount: Amount)
    | AdminAdjustment(from: AccountId, to: AccountId, asset: AssetCode, amount: Amount, reason: string)

  function Description(f: Flow): string {
    match f
    case ConfirmedDeposit(_, _, _, _, _) => "confirmed_deposit"
    case InternalTransfer(_, _, _, _) => "internal_transfer"
    case TradeSettlement(_, _, _, _, _, _) => "trade_settlement"
    case TradingFee(_, _, _, _) => "trading_fee"
    case WithdrawalRequest(_, _, _, _) => "withdrawal_request"
    case WithdrawalCompletion(_, _, _, _, _) => "withdrawal_completion"
    case WithdrawalRejection(_, _, _, _) => "withdrawal_rejection"
    case AdminAdjustment(_, _, _, _, reason) => "admin_adjustment: " + reason
  }

  /** All postings, or the first refusal. */
  function Collect(legs: seq<Result<Posting, DomainError>>): (r: Result<seq<Posting>, DomainError>) {
    if legs == [] then Ok([])
    else
      var before := Collect(legs[..|legs| - 1]);
      var last := legs[|legs| - 1];
      if before.Err? then before else if last.Err? then Err(last.error) else Ok(before.value + [last.value])
  }

  function TransferPair(from: AccountId, to: AccountId, asset: AssetCode, amount: Amount)
    : (r: Result<seq<Posting>, DomainError>)
  {
    if amount <= 0 then Err(NonPositiveAmount(amount))
    else Collect([NewCredit(from, asset, amount), NewDebit(to, asset, amount)])
  }

  /** The postings of every flow, in the order the builder lists them. */
  function FlowPostings(f: Flow): (r: Result<seq<Posting>, DomainError>) {
    match f
    case ConfirmedDeposit(available, clearing, hot, asset, amount) =>
      if amount <= 0 then Err(NonPositiveAmount(amount))
      else if hot.None? then TransferPair(clearing, available, asset, amount)
      else Collect([NewCredit(clearing, asset, amount), NewDebit(available, asset, amount),
                    NewDebit(clearing, asset, amount), NewCredit(hot.value, asset, amount)])
    case InternalTransfer(from, to, asset, amount) => TransferPair(from, to, asset, amount)
    case TradeSettlement(buyer, seller, base, baseAmount, quote, quoteAmount) =>
      if baseAmount <= 0 then Err(NonPositiveAmount(baseAmount))
      else if quoteAmount <= 0 then Err(NonPositiveAmount(quoteAmount))
      else Collect([NewCredit(seller, base, baseAmount), NewDebit(buyer, base, baseAmount),
                    NewCredit(buyer, quote, quoteAmount), NewDebit(seller, quote, quoteAmount)])
    case TradingFee(customer, revenue, asset, amount) => TransferPair(customer, revenue, asset, amount)
    case WithdrawalRequest(available, locked, asset, amount) => TransferPair(available, locked, asset, amount)
    case WithdrawalCompletion(locked, clearing, hotWallet, asset, amount) =>
      if amount <= 0 then Err(NonPositiveAmount(amount))
      else Collect([NewCredit(locked, asset, amount), NewDebit(clearing, asset, amount),
                    NewCredit(clearing, asset, amount), NewDebit(hotWallet, asset, amount)])
    case WithdrawalRejection(locked, available, asset, amount) => TransferPair(locked, available, asset, amount)
    case AdminAdjustment(from, to, asset, amount, _) => TransferPair(from, to, asset, amount)
  }

  predicate PositiveAmounts(f: Flow) {
    if f.TradeSettlement? then f.baseAmount > 0 && f.quoteAmount > 0 else f.amount > 0
  }

  /** The credit leg and the debit leg of a positive amount. */
  function Out(account: AccountId, asset: AssetCode, amount: Amount): Posting
    requires amount > 0
  {
    Posting(account, asset, 0 - amount, Credit)
  }

  function In(account: AccountId, asset: AssetCode, amount: Amount): Posting
    requires amount > 0
  {
    Posting(account, asset, amount, Debit)
  }

  lemma PairLegs(from: AccountId, to: AccountId, asset: AssetCode, amount: Amount)
    requires amount > 0
    ensures TransferPair(from, to, asset, amount) == Ok([Out(from, asset, amount), In(to, asset, amount)])
  {
    var legs := [NewCredit(from, asset, amount), NewDebit(to, asset, amount)];
    CollectTwo(legs, [Out(from, asset, amount), In(to, asset, amount)]);
  }

  lemma CollectTwo(legs: seq<Result<Posting, DomainError>>, ps: seq<Posting>)
    requires |legs| == |ps| == 2 && forall i :: 0 <= i < 2 ==> legs[i] == Ok(ps[i])
    ensures Collect(legs) == Ok(ps)
  {
    assert legs[..1][..0] == [] && legs[..1][0] == Ok(ps[0]);
    assert Collect(legs[..1]) == Ok([] + [ps[0]]);
    assert [] + [ps[0]] + [ps[1]] == ps;
  }

  lemma CollectFour(legs: seq<Result<Posting, DomainError>>, ps: seq<Posting>)
    requires |legs| == |ps| == 4 && forall i :: 0 <= i < 4 ==> legs[i] == Ok(ps[i])
    ensures Collect(legs) == Ok(ps)
  {
    CollectTwo(legs[..2], ps[..2]);
    assert legs[..3][..2] == legs[..2];
    assert Collect(legs[..3]) == Ok(ps[..2] + [ps[2]]);
    assert ps[..2] + [ps[2]] + [ps[3]] == ps;
  }

  /** The four legs of a flow that passes through a second pair. */
  function Legs4(a: AccountId, b: AccountId, x: AssetCode, m: Amount, c: AccountId, d: AccountId, y: AssetCode,
                 n: Amount): seq<Posting>
    requires m > 0 && n > 0
  {
    [Out(a, x, m), In(b, x, m), Out(c, y, n), In(d, y, n)]
  }

  lemma TwoBalanced(from: AccountId, to: AccountId, asset: AssetCode, amount: Amount)
    requires amount > 0
    ensures Balanced([Out(from, asset, amount), In(to, asset, amount)])
  {
    TwoLegs([Out(from, asset, amount), In(to, asset, amount)]);
  }

  lemma FourBalanced(ps: seq<Posting>)
    requires |ps| == 4 && ps[0].asset == ps[1].asset && ps[2].asset == ps[3].asset
    requires ps[0].amount + ps[1].amount == 0 == ps[2].amount + ps[3].amount
    ensures Balanced(ps)
  {
    FourLegs(ps);
    forall n | 0 < n <= 4 ensures Fits(AssetSum(ps[..n], ps[n - 1].asset)) {
      if n == 1 {} else if n == 2 {} else if n == 3 {} else { assert ps[..n] == ps; }
    }
  }

  /** Builders are total on positive amounts and always balanced, aliased accounts and
      equal assets included; any other amount is refused. */
  lemma FlowTotal(f: Flow)
    ensures FlowPostings(f).Ok? <==> PositiveAmounts(f)
    ensures FlowPostings(f).Ok? ==> Balanced(FlowPostings(f).value)
    ensures FlowPostings(f).Err? ==> FlowPostings(f).error.NonPositiveAmount?
  {
    if PositiveAmounts(f) {
      match f
      case ConfirmedDeposit(available, clearing, hot, asset, amount) =>
        PairLegs(clearing, available, asset, amount);
        TwoBalanced(clearing, available, asset, amount);
        if hot.Some? { DepositLegs(f); FourBalanced(FlowPostings(f).value); }
      case InternalTransfer(from, to, asset, amount) =>
        PairLegs(from, to, asset, amount);
        TwoBalanced(from, to, asset, amount);
      case TradeSettlement(buyer, seller, base, m, quote, n) =>
        TradeLegs(f);
        FourBalanced(FlowPostings(f).value);
      case TradingFee(customer, revenue, asset, amount) =>
        PairLegs(customer, revenue, asset, amount);
        TwoBalanced(customer, revenue, asset, amount);
      case WithdrawalRequest(available, locked, asset, amount) =>
        PairLegs(available, locked, asset, amount);
        TwoBalanced(available, locked, asset, amount);
      case WithdrawalCompletion(_, _, _, _, _) => CompletionLegs(f); FourBalanced(FlowPostings(f).value);
      case WithdrawalRejection(locked, available, asset, amount) =>
        PairLegs(locked, available, asset, amount);
        TwoBalanced(locked, available, asset, amount);
      case AdminAdjustment(from, to, asset, amount, _) =>
        PairLegs(from, to, asset, amount);
        TwoBalanced(from, to, asset, amount);
    }
  }

  lemma DepositLegs(f: Flow)
    requires f.ConfirmedDeposit? && f.amount > 0 && f.hot.Some?
    ensures FlowPostings(f) == Ok([Out(f.clearing, f.asset, f.amount), In(f.available, f.asset, f.amount),
                                   In(f.clearing, f.asset, f.amount), Out(f.hot.value, f.asset, f.amount)])
  {
    CollectFour([NewCredit(f.clearing, f.asset, f.amount), NewDebit(f.available, f.asset, f.amount),
                 NewDebit(f.clearing, f.asset, f.amount), NewCredit(f.hot.value, f.asset, f.amount)],
                [Out(f.clearing, f.asset, f.amount), In(f.available, f.asset, f.amount),
                 In(f.clearing, f.asset, f.amount), Out(f.hot.value, f.asset, f.amount)]);
  }

  lemma TradeLegs(f: Flow)
    requires f.TradeSettlement? && PositiveAmounts(f)
    ensures FlowPostings(f) ==
            Ok(Legs4(f.seller, f.buyer, f.base, f.baseAmount, f.buyer, f.seller, f.quote, f.quoteAmount))
  {
    CollectFour([NewCredit(f.seller, f.base, f.baseAmount), NewDebit(f.buyer, f.base, f.baseAmount),
                 NewCredit(f.buyer, f.quote, f.quoteAmount), NewDebit(f.seller, f.quote, f.quoteAmount)],
                Legs4(f.seller, f.buyer, f.base, f.baseAmount, f.buyer, f.seller, f.quote, f.quoteAmount));
  }

  lemma CompletionLegs(f: Flow)
    requires f.WithdrawalCompletion? && f.amount > 0
    ensures FlowPostings(f) ==
            Ok(Legs4(f.locked, f.clearing, f.asset, f.amount, f.clearing, f.hotWallet, f.asset, f.amount))
  {
    CollectFour([NewCredit(f.locked, f.asset, f.amount), NewDebit(f.clearing, f.asset, f.amount),
                 NewCredit(f.clearing, f.asset, f.amount), NewDebit(f.hotWallet, f.asset, f.amount)],
                Legs4(f.locked, f.clearing, f.asset, f.amount, f.clearing, f.hotWallet, f.asset, f.amount));
  }

  /** Net movement of `amount` from one cell to another, nothing anywhere else. */
  ghost predicate Moves(ps: seq<Posting>, from: Key, to: Key, amount: int) {
    forall k :: Net(ps, k) == (if k == to then amount else 0) - if k == from then amount else 0
  }

  lemma PairMoves(from: AccountId, to: AccountId, asset: AssetCode, amount: Amount)
    requires amount > 0
    ensures TransferPair(from, to, asset, amount).Ok?
    ensures Moves(TransferPair(from, to, asset, amount).value, Key(from, asset), Key(to, asset), amount)
  {
    PairLegs(from, to, asset, amount);
    TwoLegs(TransferPair(from, to, asset, amount).value);
  }

  /** Who gives and who receives in a flow that moves one amount. A clearing account is only
      passed through, unless the deposit has no custody mirror. */
  function Giver(f: Flow): Key
    requires !f.TradeSettlement?
  {
    match f
    case ConfirmedDeposit(_, clearing, hot, asset, _) => Key(if hot.Some? then hot.value else clearing, asset)
    case InternalTransfer(from, _, asset, _) => Key(from, asset)
    case TradingFee(customer, _, asset, _) => Key(customer, asset)
    case WithdrawalRequest(available, _, asset, _) => Key(available, asset)
    case WithdrawalCompletion(locked, _, _, asset, _) => Key(locked, asset)
    case WithdrawalRejection(locked, _, asset, _) => Key(locked, asset)
    case AdminAdjustment(from, _, asset, _, _) => Key(from, asset)
  }

  function Receiver(f: Flow): Key
    requires !f.TradeSettlement?
  {
    match f
    case ConfirmedDeposit(available, _, _, asset, _) => Key(available, asset)
    case InternalTransfer(_, to, asset, _) => Key(to, asset)
    case TradingFee(_, revenue, asset, _) => Key(revenue, asset)
    case WithdrawalRequest(_, locked, asset, _) => Key(locked, asset)
    case WithdrawalCompletion(_, _, hotWallet, asset, _) => Key(hotWallet, asset)
    case WithdrawalRejection(_, available, asset, _) => Key(available, asset)
    case AdminAdjustment(_, to, asset, _, _) => Key(to, asset)
  }

  /** Net movement of a settled trade: base from seller to buyer, quote the other way. */
  ghost predicate Trades(ps: seq<Posting>, f: Flow)
    requires f.TradeSettlement?
  {
    forall k :: Net(ps, k) ==
      (if k == Key(f.buyer, f.base) then f.baseAmount else 0) - (if k == Key(f.seller, f.base) then f.baseAmount else 0)
      + (if k == Key(f.seller, f.quote) then f.quoteAmount else 0)
      - (if k == Key(f.buyer, f.quote) then f.quoteAmount else 0)
  }

  /** What every flow does, account by account, aliased accounts included: the amount goes
      from giver to receiver and nothing else moves, so suspense accounts stay flat. */
  lemma FlowMoves(f: Flow)
    requires PositiveAmounts(f)
    ensures FlowPostings(f).Ok?
    ensures if f.TradeSettlement? then Trades(FlowPostings(f).value, f)
            else Moves(FlowPostings(f).value, Giver(f), Receiver(f), f.amount)
  {
    match f
    case ConfirmedDeposit(available, clearing, hot, asset, amount) =>
      PairMoves(clearing, available, asset, amount);
      if hot.Some? { DepositLegs(f); FourLegs(FlowPostings(f).value); }
    case InternalTransfer(from, to, asset, amount) => PairMoves(from, to, asset, amount);
    case TradeSettlement(buyer, seller, base, m, quote, n) => TradeLegs(f); FourLegs(FlowPostings(f).value);
    case TradingFee(customer, revenue, asset, amount) => PairMoves(customer, revenue, asset, amount);
    case WithdrawalRequest(available, locked, asset, amount) => PairMoves(available, locked, asset, amount);
    case WithdrawalCompletion(_, _, _, _, _) => CompletionLegs(f); FourLegs(FlowPostings(f).value);
    case WithdrawalRejection(locked, available, asset, amount) => PairMoves(locked, available, asset, amount);
    case AdminAdjustment(from, to, asset, amount, _) => PairMoves(from, to, asset, amount);
  }

  /** Build the entry of a flow; a deposit with a hot wallet pushes its second pair. */
  method IntoEntry(f: Flow, id: TransactionId, key: string, now: Time) returns (r: Result<JournalEntry, DomainError>)
    ensures r.Ok? <==> PositiveAmounts(f)
    ensures r.Ok? ==> FlowPostings(f).Ok?
    ensures r.Ok? ==> r.value == JournalEntry(id, key, Description(f), FlowPostings(f).value, now)
    ensures r.Ok? ==> Balanced(r.value.postings)
    ensures r.Err? ==> r.error.NonPositiveAmount?
  {
    FlowTotal(f);
    var postings: Result<seq<Posting>, DomainError>;
    if f.ConfirmedDeposit? && f.hot.Some? && f.amount > 0 {
      PairLegs(f.clearing, f.available, f.asset, f.amount);
      DepositLegs(f);
      var legs := TransferPair(f.clearing, f.available, f.asset, f.amount).value;
      var debit := NewDebit(f.clearing, f.asset, f.amount);
      legs := legs + [debit.value];
      var credit := NewCredit(f.hot.value, f.asset, f.amount);
      legs := legs + [credit.value];
      assert legs == FlowPostings(f).value;
      postings := Ok(legs);
    } else {
      postings := FlowPostings(f);
    }
    assert postings == FlowPostings(f);
    if postings.Err? { return Err(postings.error); }
    r := MakeEntry(id, key, Description(f), postings.value, now);
  }

  // ---- committed flows ------------------------------------------------------

  ghost predicate Posts(c: JournalCommit, f: Flow) {
    FlowPostings(f).Ok? && c.entry.postings == FlowPostings(f).value
  }

  /** A committed net transfer, row by row; the outbox stays ordered. */
  lemma CommittedMove(db: Db, c: JournalCommit, from: Key, to: Key, amount: int)
    requires OutboxOrdered(db.outbox, db.nextOutboxId) && Fresh(db.outbox, c.events)
    requires Moves(c.entry.postings, from, to, amount)
    requires CommitJournal(db, c).0 == Ok(Committed)
    ensures var db' := CommitJournal(db, c).1;
            && OutboxOrdered(db'.outbox, db'.nextOutboxId)
            && db'.accounts == db.accounts
            && Admissible(db.accounts, db.balances, c.entry.postings)
            && forall k ::
                 Get(db'.balances, k) ==
                 Get(db.balances, k) + (if k == to then amount else 0) - if k == from then amount else 0
  {
    CommitAtomic(db, c);
    CommitShape(db, c);
    AppendKeepsOrder(db.outbox, db.nextOutboxId, c.events);
  }

  /** If a transfer is admissible, so is its reversal in the state it leads to. */
  lemma ReturnAdmissible(accounts: Accounts, t: Table, t': Table, from: AccountId, to: AccountId, asset: AssetCode,
                         amount: Amount)
    requires amount > 0 && PolicyHolds(accounts, t)
    requires Admissible(accounts, t, [Out(from, asset, amount), In(to, asset, amount)])
    requires forall k :: Get(t', k) == Get(t, k)
               + (if k == Key(to, asset) then amount else 0) - if k == Key(from, asset) then amount else 0
    ensures Admissible(accounts, t', [Out(to, asset, amount), In(from, asset, amount)])
  {
    var there := [Out(from, asset, amount), In(to, asset, amount)];
    var back := [Out(to, asset, amount), In(from, asset, amount)];
    TwoLegs(there);
    TwoLegs(back);
    assert Admits(accounts, t, there, 1) && Admits(accounts, t, there, 2);
    assert Admits(accounts, t', back, 1) && Admits(accounts, t', back, 2);
  }

  /** After a committed request, the matching rejection can always be committed at once,
      and it restores every balance of the ledger. */
  lemma RejectionUndoesRequest(db: Db, request: JournalCommit, rejection: JournalCommit,
                               available: AccountId, locked: AccountId, asset: AssetCode, amount: Amount)
    requires PolicyHolds(db.accounts, db.balances)
    requires OutboxOrdered(db.outbox, db.nextOutboxId) && Fresh(db.outbox, request.events)
    requires Posts(request, WithdrawalRequest(available, locked, asset, amount))
    requires CommitJournal(db, request).0 == Ok(Committed)
    requires Posts(rejection, WithdrawalRejection(locked, available, asset, amount))
    requires Fresh(CommitJournal(db, request).1.outbox, rejection.events)
    requires rejection.record.slot !in CommitJournal(db, request).1.idempotency
    ensures var db1 := CommitJournal(db, request).1;
            var (r, db2) := CommitJournal(db1, rejection);
            r == Ok(Committed) && forall k :: Get(db2.balances, k) == Get(db.balances, k)
  {
    var from, to := Key(available, asset), Key(locked, asset);
    assert amount > 0;
    PairMoves(available, locked, asset, amount);
    PairMoves(locked, available, asset, amount);
    PairLegs(available, locked, asset, amount);
    PairLegs(locked, available, asset, amount);
    CommittedMove(db, request, from, to, amount);
    var db1 := CommitJournal(db, request).1;
    ReturnAdmissible(db.accounts, db.balances, db1.balances, available, locked, asset, amount);
    assert CommitJournal(db1, rejection).0 == Ok(Committed) by { CommitAtomic(db1, rejection); }
    CommittedMove(db1, rejection, to, from, amount);
  }

  /** A request followed by its completion moves exactly the amount from available to the
      hot wallet: locked and clearing end where they began. */
  lemma CompletionSettlesRequest(db: Db, request: JournalCommit, completion: JournalCommit,
                                 available: AccountId, locked: AccountId, clearing: AccountId, hot: AccountId,
                                 asset: AssetCode, amount: Amount)
    requires OutboxOrdered(db.outbox, db.nextOutboxId) && Fresh(db.outbox, request.events)
    requires Posts(request, WithdrawalRequest(available, locked, asset, amount))
    requires CommitJournal(db, request).0 == Ok(Committed)
    requires Posts(completion, WithdrawalCompletion(locked, clearing, hot, asset, amount))
    requires Fresh(CommitJournal(db, request).1.outbox, completion.events)
    requires CommitJournal(CommitJournal(db, request).1, completion).0 == Ok(Committed)
    ensures var db2 := CommitJournal(CommitJournal(db, request).1, completion).1;
            forall k :: Get(db2.balances, k) == Get(db.balances, k)
                        + (if k == Key(hot, asset) then amount else 0)
                        - (if k == Key(available, asset) then amount else 0)
  {
    assert amount > 0;
    PairMoves(available, locked, asset, amount);
    FlowMoves(WithdrawalCompletion(locked, clearing, hot, asset, amount));
    CommittedMove(db, request, Key(available, asset), Key(locked, asset), amount);
    CommittedMove(CommitJournal(db, request).1, completion, Key(locked, asset), Key(hot, asset), amount);
  }

  predicate Usable(accounts: Accounts, id: AccountId) {
    id in accounts && accounts[id].status == Active
  }

  /** The account can take one leg on top of its balance. */
  predicate Takes(accounts: Accounts, balance: int, id: AccountId, amount: int) {
    && Usable(accounts, id) && Fits(balance + amount)
    && (accounts[id].policy == NonNegative ==> balance + amount >= 0)
  }

  /** Exactly when a completion can be committed, in any state, for distinct accounts: the locked
      account covers it and the clearing account and the hot wallet can take it. */
  lemma CompletionAdmissible(accounts: Accounts, t: Table, locked: AccountId, clearing: AccountId, hot: AccountId,
                             asset: AssetCode, amount: Amount)
    requires amount > 0 && locked != clearing && clearing != hot && locked != hot && PolicyHolds(accounts, t)
    ensures Admissible(accounts, t, Legs4(locked, clearing, asset, amount, clearing, hot, asset, amount)) <==>
            && Takes(accounts, Get(t, Key(locked, asset)), locked, -amount)
            && Takes(accounts, Get(t, Key(clearing, asset)), clearing, amount)
            && Takes(accounts, Get(t, Key(hot, asset)), hot, amount)
  {
    var ps := Legs4(locked, clearing, asset, amount, clearing, hot, asset, amount);
    FourLegs(ps);
    assert Admits(accounts, t, ps, 1) <==> Takes(accounts, Get(t, Key(locked, asset)), locked, -amount);
    assert Admits(accounts, t, ps, 2) <==> Takes(accounts, Get(t, Key(clearing, asset)), clearing, amount);
    assert Admits(accounts, t, ps, 2) ==> Admits(accounts, t, ps, 3);
    assert Admits(accounts, t, ps, 4) <==> Takes(accounts, Get(t, Key(hot, asset)), hot, amount);
  }

  /** A completion that follows its request at once is committed exactly when its key is unused
      and the clearing account and the hot wallet are usable with room for the amount: what the
      request locked always covers it. */
  lemma CompletionCommits(db: Db, request: JournalCommit, completion: JournalCommit,
                          available: AccountId, locked: AccountId, clearing: AccountId, hot: AccountId,
                          asset: AssetCode, amount: Amount)
    requires PolicyHolds(db.accounts, db.balances) && OutboxOrdered(db.outbox, db.nextOutboxId)
    requires Fresh(db.outbox, request.events) && available != locked
    requires locked != clearing && clearing != hot && locked != hot
    requires Posts(request, WithdrawalRequest(available, locked, asset, amount))
    requires CommitJournal(db, request).0 == Ok(Committed)
    requires Posts(completion, WithdrawalCompletion(locked, clearing, hot, asset, amount))
    ensures var db1 := CommitJournal(db, request).1;
            CommitJournal(db1, completion).0 == Ok(Committed) <==>
            && completion.record.slot !in db1.idempotency
            && Usable(db.accounts, clearing) && Get(db1.balances, Key(clearing, asset)) + amount <= I128_MAX
            && Usable(db.accounts, hot) && Get(db1.balances, Key(hot, asset)) + amount <= I128_MAX
  {
    assert amount > 0;
    PairMoves(available, locked, asset, amount);
    PairLegs(available, locked, asset, amount);
    CommittedMove(db, request, Key(available, asset), Key(locked, asset), amount);
    var db1 := CommitJournal(db, request).1;
    CompletionLegs(WithdrawalCompletion(locked, clearing, hot, asset, amount));
    CommitAtomic(db1, completion);
    CommitKeepsPolicy(db, request);
    CompletionAdmissible(db1.accounts, db1.balances, locked, clearing, hot, asset, amount);
    LockedCovers(db, request, available, locked, asset, amount);
    RoomIsEnough(db1.accounts, db1.balances, Key(clearing, asset), amount);
    RoomIsEnough(db1.accounts, db1.balances, Key(hot, asset), amount);
  }

  lemma CommitKeepsPolicy(db: Db, c: JournalCommit)
    requires PolicyHolds(db.accounts, db.balances) && CommitJournal(db, c).0 == Ok(Committed)
    ensures PolicyHolds(CommitJournal(db, c).1.accounts, CommitJournal(db, c).1.balances)
  {
    ApplyKeepsPolicy(db.accounts, db.balances, c.entry.postings);
    RecordAppends(db.(idempotency := db.idempotency[c.record.slot := c.record],
                      balances := ApplyAll(db.accounts, db.balances, c.entry.postings).value,
                      entries := db.entries + [c.entry]), c.events);
  }

  lemma RoomIsEnough(accounts: Accounts, t: Table, k: Key, amount: Amount)
    requires PolicyHolds(accounts, t) && amount > 0
    ensures Takes(accounts, Get(t, k), k.account, amount) <==>
            Usable(accounts, k.account) && Get(t, k) + amount <= I128_MAX
  {
  }

  /** What a request locked can always be taken out again. */
  lemma LockedCovers(db: Db, request: JournalCommit, available: AccountId, locked: AccountId,
                     asset: AssetCode, amount: Amount)
    requires amount > 0 && available != locked && PolicyHolds(db.accounts, db.balances)
    requires OutboxOrdered(db.outbox, db.nextOutboxId) && Fresh(db.outbox, request.events)
    requires request.entry.postings == [Out(available, asset, amount), In(locked, asset, amount)]
    requires CommitJournal(db, request).0 == Ok(Committed)
    ensures var db1 := CommitJournal(db, request).1;
            Takes(db1.accounts, Get(db1.balances, Key(locked, asset)), locked, -amount)
  {
    PairMoves(available, locked, asset, amount);
    PairLegs(available, locked, asset, amount);
    CommittedMove(db, request, Key(available, asset), Key(locked, asset), amount);
    assert Admits(db.accounts, db.balances, request.entry.postings, 2);
  }
}
