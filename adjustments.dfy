/** The funds arithmetic shared by `Account` and `Balance`: the three amounts
    and the five adjustments that move money between them. */
module Adjustments {
  import Transactions

  /** `available`, `held` and `total`, in 10^-4 units. */
  datatype Funds = Funds(available: int, held: int, total: int)

  /** The all-zero funds of a default account or balance. */
  const Zero: Funds := Funds(0, 0, 0)

  /** The ledger identity asserted after every applied operation. */
  predicate Consistent(f: Funds) {
    f.total - f.held == f.available
  }

  /** Debit: rejected (no change) when `amount` exceeds `available`. */
  function Withdraw(f: Funds, amount: int): (r: Funds)
    ensures amount > f.available ==> r == f
    ensures amount <= f.available ==> r.available == f.available - amount && r.total == f.total - amount
    ensures r.held == f.held
    ensures r == f || r.available >= 0
  {
    if amount > f.available then f
    else f.(available := f.available - amount, total := f.total - amount)
  }

  /** Credit: no bound of any kind is checked. */
  function Deposit(f: Funds, amount: int): (r: Funds)
    ensures r.available == f.available + amount && r.total == f.total + amount && r.held == f.held
    ensures f.available >= 0 ==> Withdraw(r, amount) == f
  {
    f.(available := f.available + amount, total := f.total + amount)
  }

  /** Moves `amount` from available to held; `available` may go negative. */
  function Dispute(f: Funds, amount: int): (r: Funds)
    ensures r.available == f.available - amount && r.held == f.held + amount && r.total == f.total
    ensures amount > f.available ==> r.available < 0
  {
    f.(available := f.available - amount, held := f.held + amount)
  }

  /** Moves `amount` from held back to available: the inverse of `Dispute`. */
  function Resolve(f: Funds, amount: int): (r: Funds)
    ensures r.available == f.available + amount && r.held == f.held - amount && r.total == f.total
    ensures Dispute(r, amount) == f
  {
    f.(held := f.held - amount, available := f.available + amount)
  }

  /** Removes `amount` from held and total; does not lock anything. */
  function Chargeback(f: Funds, amount: int): (r: Funds)
    ensures r.available == f.available && r.held == f.held - amount && r.total == f.total - amount
  {
    f.(held := f.held - amount, total := f.total - amount)
  }

  /** The `match` that `commit` performs once the account is known to be unlocked. */
  function Adjust(f: Funds, ty: Transactions.TransactionType, amount: int): (r: Funds)
    ensures r.total - r.held - r.available == f.total - f.held - f.available
    ensures amount == 0 ==> r == f
  {
    match ty
    case Withdrawal => Withdraw(f, amount)
    case Deposit => Deposit(f, amount)
    case Dispute => Dispute(f, amount)
    case Resolve => Resolve(f, amount)
    case Chargeback => Chargeback(f, amount)
  }

  /** Every adjustment keeps `total - held == available`, the identity the
      source asserts after each applied operation. */
  lemma AdjustPreservesConsistency(f: Funds, ty: Transactions.TransactionType, amount: int)
    ensures Consistent(f) ==> Consistent(Adjust(f, ty, amount))
  {
  }

  /** Disputing then resolving the same amount restores the funds exactly. */
  lemma DisputeThenResolve(f: Funds, amount: int)
    ensures Resolve(Dispute(f, amount), amount) == f
  {
  }

  /** Disputing then charging back the same amount leaves `held` where it was
      and takes the amount out of both `available` and `total`. */
  lemma DisputeThenChargeback(f: Funds, amount: int)
    ensures Chargeback(Dispute(f, amount), amount) == Funds(f.available - amount, f.held, f.total - amount)
  {
  }
}
