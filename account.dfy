/** A client's account (`Account` in src/account.rs): its funds, its client
    and its lock flag, as a value and as the mutable object the source uses. */
module Accounts {
  import opened Transactions
  import Adjustments

  /** The value of an `Account`. */
  datatype AccountState = AccountState(client: ClientId, funds: Adjustments.Funds, isLocked: bool)

  /** `Account::new`: a zero, unlocked account for `client`. */
  function NewAccount(client: ClientId): (a: AccountState)
    ensures a.client == client && !a.isLocked
    ensures a.funds.available == 0 && a.funds.held == 0 && a.funds.total == 0
  {
    AccountState(client, Adjustments.Zero, false)
  }

  /** `Account::commit` on values: nothing happens on a locked account,
      otherwise the adjustment named by `ty` is applied to the funds. */
  function Committed(a: AccountState, ty: TransactionType, amount: int): (r: AccountState)
    ensures r.client == a.client && r.isLocked == a.isLocked
    ensures a.isLocked ==> r == a
    ensures !a.isLocked ==> r.funds == Adjustments.Adjust(a.funds, ty, amount)
    ensures amount == 0 ==> r == a
  {
    if a.isLocked then a
    else a.(funds := Adjustments.Adjust(a.funds, ty, amount))
  }

  /** On any account a dispute followed by a resolve of the same amount
      leaves the account as it was (a locked one is never touched). */
  lemma CommitDisputeThenResolve(a: AccountState, amount: int)
    ensures Committed(Committed(a, Dispute, amount), Resolve, amount) == a
  {
    Adjustments.DisputeThenResolve(a.funds, amount);
  }

  /** A chargeback commit lowers `held` and `total` and leaves the lock flag alone. */
  lemma CommitChargebackDoesNotLock(a: AccountState, amount: int)
    requires !a.isLocked
    ensures !Committed(a, Chargeback, amount).isLocked
    ensures Committed(a, Chargeback, amount).funds == Adjustments.Funds(a.funds.available, a.funds.held - amount, a.funds.total - amount)
  {
  }

  class Account {
    var client: ClientId
    var available: int
    var held: int
    var total: int
    var isLocked: bool

    /** The funds fields of this account. */
    function Amounts(): Adjustments.Funds
      reads this
    {
      Adjustments.Funds(available, held, total)
    }

    /** The whole value of this account. */
    function State(): AccountState
      reads this
    {
      AccountState(client, Amounts(), isLocked)
    }

    /** `Account::new`. */
    constructor (client: ClientId)
      ensures State() == NewAccount(client)
    {
      this.client := client;
      available, held, total := 0, 0, 0;
      isLocked := false;
      new;
      assert State() == AccountState(client, Adjustments.Zero, false);
    }

    /** `Account::commit`: early return on a locked account, else dispatch.
        The frame leaves `client` and `isLocked` untouched; the second
        postcondition is the ledger identity the source asserts afterwards. */
    method Commit(ty: TransactionType, amount: int)
      modifies this`available, this`held, this`total
      ensures State() == Committed(old(State()), ty, amount)
      ensures old(Adjustments.Consistent(Amounts())) ==> Adjustments.Consistent(Amounts())
    {
      if isLocked {
        return;
      }
      match ty {
        case Withdrawal => Withdraw(amount);
        case Deposit => Deposit(amount);
        case Dispute => Dispute(amount);
        case Resolve => Resolve(amount);
        case Chargeback => Chargeback(amount);
      }
    }

    method Withdraw(amount: int)
      modifies this`available, this`total
      ensures Amounts() == Adjustments.Withdraw(old(Amounts()), amount)
    {
      if amount > available {
        return;
      }
      available := available - amount;
      total := total - amount;
    }

    method Deposit(amount: int)
      modifies this`available, this`total
      ensures Amounts() == Adjustments.Deposit(old(Amounts()), amount)
    {
      available := available + amount;
      total := total + amount;
    }

    method Dispute(amount: int)
      modifies this`available, this`held
      ensures Amounts() == Adjustments.Dispute(old(Amounts()), amount)
    {
      available := available - amount;
      held := held + amount;
    }

    method Resolve(amount: int)
      modifies this`held, this`available
      ensures Amounts() == Adjustments.Resolve(old(Amounts()), amount)
    {
      held := held - amount;
      available := available + amount;
    }

    method Chargeback(amount: int)
      modifies this`held, this`total
      ensures Amounts() == Adjustments.Chargeback(old(Amounts()), amount)
    {
      held := held - amount;
      total := total - amount;
    }
  }
}

/** The unit tests of src/account.rs (its `mod tests`), replayed on values. */
module AccountTests {
  import opened Transactions
  import opened Accounts
  import Adjustments

  // Amounts such as 100.5 are written as 1005000 units of 10^-4.

  lemma TestDeposit()
    ensures Committed(NewAccount(1), Deposit, 1005000).funds == Adjustments.Funds(1005000, 0, 1005000)
  {
  }

  lemma TestWithdrawalSufficientFunds()
    ensures Committed(Committed(NewAccount(1), Deposit, 1000000), Withdrawal, 500000).funds
         == Adjustments.Funds(500000, 0, 500000)
  {
    assert Committed(NewAccount(1), Deposit, 1000000) == AccountState(1, Adjustments.Funds(1000000, 0, 1000000), false);
  }

  lemma TestWithdrawalInsufficientFunds()
    ensures Committed(Committed(NewAccount(1), Deposit, 500000), Withdrawal, 1000000).funds
         == Adjustments.Funds(500000, 0, 500000)
  {
  }

  lemma TestDispute()
    ensures Committed(Committed(NewAccount(1), Deposit, 1000000), Dispute, 300000).funds
         == Adjustments.Funds(700000, 300000, 1000000)
  {
    assert Committed(NewAccount(1), Deposit, 1000000) == AccountState(1, Adjustments.Funds(1000000, 0, 1000000), false);
  }

  lemma TestResolve()
    ensures Committed(Committed(Committed(NewAccount(1), Deposit, 1000000), Dispute, 300000), Resolve, 300000).funds
         == Adjustments.Funds(1000000, 0, 1000000)
  {
  }

  lemma TestChargeback()
    ensures Committed(Committed(Committed(NewAccount(1), Deposit, 1000000), Dispute, 300000), Chargeback, 300000).funds
         == Adjustments.Funds(700000, 0, 700000)
  {
    TestDispute();
  }

  lemma TestMultipleTransactions()
    ensures var deposited := Committed(Committed(Committed(NewAccount(1), Deposit, 500000), Deposit, 250000), Deposit, 250000);
            var withdrawn := Committed(deposited, Withdrawal, 150000);
            && deposited.funds == Adjustments.Funds(1000000, 0, 1000000)
            && withdrawn.funds == Adjustments.Funds(850000, 0, 850000)
            && Committed(withdrawn, Dispute, 200000).funds == Adjustments.Funds(650000, 200000, 850000)
  {
    var one := Committed(NewAccount(1), Deposit, 500000);
    assert one == AccountState(1, Adjustments.Funds(500000, 0, 500000), false);
    var two := Committed(one, Deposit, 250000);
    assert two == AccountState(1, Adjustments.Funds(750000, 0, 750000), false);
    var three := Committed(two, Deposit, 250000);
    assert three == AccountState(1, Adjustments.Funds(1000000, 0, 1000000), false);
    assert Committed(three, Withdrawal, 150000) == AccountState(1, Adjustments.Funds(850000, 0, 850000), false);
  }

  lemma TestPrecisionHandling()
    ensures Committed(Committed(NewAccount(1), Deposit, 123456), Withdrawal, 3456).funds
         == Adjustments.Funds(120000, 0, 120000)
  {
    assert Committed(NewAccount(1), Deposit, 123456) == AccountState(1, Adjustments.Funds(123456, 0, 123456), false);
  }

  /** test_locked_account_ignores_transactions: once the lock flag is set, the
      four commits that follow change nothing. */
  lemma LockedAccountIgnoresCommits(a: AccountState, x: int, y: int, z: int, w: int)
    requires a.isLocked
    ensures Committed(Committed(Committed(Committed(a, Deposit, x), Withdrawal, y), Dispute, z), Resolve, w) == a
  {
  }
}
