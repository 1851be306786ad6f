/** Checked 128-bit amounts (crates/domain/src/amount.rs) and the result type every
    fallible operation of the ledger returns. */
module Amounts {
  datatype Option<+T> = None | Some(value: T)

  datatype Result<+T, +E> = Ok(value: T) | Err(error: E)

  const I128_MAX: int := 0x7FFF_FFFF_FFFF_FFFF_FFFF_FFFF_FFFF_FFFF
  const I128_MIN: int := -0x8000_0000_0000_0000_0000_0000_0000_0000

  predicate Fits(x: int) {
    I128_MIN <= x <= I128_MAX
  }

  /** Signed quantity in the smallest unit of an asset: a Rust `i128`. */
  type Amount = x: int | I128_MIN <= x <= I128_MAX

  type AccountId = nat
  type TransactionId = nat
  type EventId = nat
  type AssetCode = string
  type Time = int

  datatype DomainError =
    | AmountOverflow
    | NonPositiveAmount(amount: int)
    | InvalidMoneyFormat
    | InvalidAudit
    | MissingAdjustmentReason
    | InsufficientPostings(count: nat)
    | UnbalancedEntry(asset: AssetCode, residual: int)
    | AccountNotActive(account: AccountId)
    | InsufficientBalance(account: AccountId, code: AssetCode, balance: int, delta: int)

  function CheckedAdd(a: Amount, b: Amount): (r: Result<Amount, DomainError>) {
    if Fits(a + b) then Ok(a + b) else Err(AmountOverflow)
  }

  function CheckedNeg(a: Amount): (r: Result<Amount, DomainError>) {
    if Fits(0 - a) then Ok(0 - a) else Err(AmountOverflow)
  }

  function RequirePositive(a: Amount): (r: Result<Amount, DomainError>) {
    if a <= 0 then Err(NonPositiveAmount(a)) else Ok(a)
  }
}
