/** `Balance` (src/balance.rs): the same funds state as an account, without a
    client, whose five adjustments are public and do not look at the lock. */
module Balances {
  import opened Transactions
  import Adjustments

  class Balance {
    var available: int
    var total: int
    var held: int
    var isLocked: bool

    /** The funds fields of this balance. */
    function Amounts(): Adjustments.Funds
      reads this
    {
      Adjustments.Funds(available, held, total)
    }

    /** `Balance::default()`: zero funds, unlocked. */
    constructor ()
      ensures available == 0 && held == 0 && total == 0 && !isLocked
    {
      available, total, held := 0, 0, 0;
      isLocked := false;
    }

    /** `Balance::commit`: a locked balance is left alone; otherwise the
        adjustment named by `ty` is applied. The lock is never changed. */
    method Commit(ty: TransactionType, amount: int)
      modifies this`available, this`held, this`total
      ensures old(isLocked) ==> Amounts() == old(Amounts())
      ensures !old(isLocked) ==> Amounts() == Adjustments.Adjust(old(Amounts()), ty, amount)
    {
      if isLocked {
        return;
      }
      match ty {
        case Withdrawal => Withdraw(amount);
        case Deposit => Deposit(amount);
        case Dispute => Dispute(amount);
        case Resolve => Resolve(amount);
        case Chargeback => Chargeback(amount);
      }
    }

    // Each public operation below applies its adjustment whatever the lock
    // says, and keeps the identity `total - held == available` when it held
    // before (the source asserts it after every applied change).

    method Withdraw(amount: int)
      modifies this`available, this`total
      ensures Amounts() == Adjustments.Withdraw(old(Amounts()), amount)
      ensures old(Adjustments.Consistent(Amounts())) ==> Adjustments.Consistent(Amounts())
    {
      if amount > available {
        return;
      }
      available := available - amount;
      total := total - amount;
    }

    method Deposit(amount: int)
      modifies this`available, this`total
      ensures Amounts() == Adjustments.Deposit(old(Amounts()), amount)
      ensures old(Adjustments.Consistent(Amounts())) ==> Adjustments.Consistent(Amounts())
    {
      available := available + amount;
      total := total + amount;
    }

    method Dispute(amount: int)
      modifies this`available, this`held
      ensures Amounts() == Adjustments.Dispute(old(Amounts()), amount)
      ensures old(Adjustments.Consistent(Amounts())) ==> Adjustments.Consistent(Amounts())
    {
      available := available - amount;
      held := held + amount;
    }

    method Resolve(amount: int)
      modifies this`held, this`available
      ensures Amounts() == Adjustments.Resolve(old(Amounts()), amount)
      ensures old(Adjustments.Consistent(Amounts())) ==> Adjustments.Consistent(Amounts())
    {
      held := held - amount;
      available := available + amount;
    }

    method Chargeback(amount: int)
      modifies this`held, this`total
      ensures Amounts() == Adjustments.Chargeback(old(Amounts()), amount)
      ensures old(Adjustments.Consistent(Amounts())) ==> Adjustments.Consistent(Amounts())
    {
      held := held - amount;
      total := total - amount;
    }
  }

  /** Through the public operations, disputing an amount and then resolving
      the same amount leaves the balance exactly as it was. */
  method DisputeThenResolve(b: Balance, amount: int)
    modifies b
    ensures b.Amounts() == old(b.Amounts()) && b.isLocked == old(b.isLocked)
  {
    b.Dispute(amount);
    b.Resolve(amount);
  }
}
