/** Transaction records as the engine receives them once decoded.
    Amounts are `rust_decimal::Decimal` values with four fractional digits,
    represented exactly as whole numbers of 10^-4 units. */
module Transactions {

  /** A `u16` client identifier. */
  type ClientId = c: int | 0 <= c < 0x1_0000

  /** A `u32` transaction identifier. */
  type TxId = i: int | 0 <= i < 0x1_0000_0000

  datatype Option<T> = None | Some(value: T) {
    /** Rust's `unwrap_or`. */
    function UnwrapOr(default: T): T {
      match this
      case Some(v) => v
      case None => default
    }
  }

  /** The five record kinds, with the variant names the account dispatches on. */
  datatype TransactionType = Deposit | Withdrawal | Dispute | Resolve | Chargeback

  /** One decoded record; `amount` is only meaningful for deposits and withdrawals. */
  datatype Transaction = Transaction(ty: TransactionType, client: ClientId, id: TxId, amount: Option<int>)
}
