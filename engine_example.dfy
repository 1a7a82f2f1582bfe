/** A seven-row trace through the loop as written: each client's first
    record only opens its account, and the dispute and chargeback name an id
    that was never indexed. Amounts are in units of 10^-4. */
module EngineExample {
  import opened Transactions
  import opened Accounts
  import Adjustments
  import opened Engine

  const Deposit1: Transaction := Transaction(Deposit, 1, 1, Some(100000))     // deposit,1,1,10.0
  const Deposit2: Transaction := Transaction(Deposit, 2, 2, Some(50000))      // deposit,2,2,5.0
  const Deposit3: Transaction := Transaction(Deposit, 1, 3, Some(40000))      // deposit,1,3,4.0
  const Withdrawal4: Transaction := Transaction(Withdrawal, 1, 4, Some(20000)) // withdrawal,1,4,2.0
  const Dispute1: Transaction := Transaction(Dispute, 1, 1, None)             // dispute,1,1
  const Chargeback1: Transaction := Transaction(Chargeback, 1, 1, None)       // chargeback,1,1
  const Deposit5: Transaction := Transaction(Deposit, 1, 5, Some(1000000))    // deposit,1,5,100.0

  /** The book after each of the first four rows, each an update of the one before. */
  function AfterFirst(): Ledger {
    Empty.(accounts := map[1 := NewAccount(1)])
  }

  function AfterSecond(): Ledger {
    AfterFirst().(accounts := AfterFirst().accounts[2 := NewAccount(2)])
  }

  function AfterThird(): Ledger {
    Ledger(AfterSecond().accounts[1 := AccountState(1, Adjustments.Funds(40000, 0, 40000), false)],
           AfterSecond().transactions[3 := Deposit3])
  }

  function AfterFourth(): Ledger {
    Ledger(AfterThird().accounts[1 := AccountState(1, Adjustments.Funds(20000, 0, 20000), false)],
           AfterThird().transactions[4 := Withdrawal4])
  }

  /** Each client's first row opens an empty account and is not applied. */
  lemma OpeningRows()
    ensures LedgerStep(Empty, Deposit1) == AfterFirst()
    ensures LedgerStep(AfterFirst(), Deposit2) == AfterSecond()
  {
  }

  /** The deposit of 4.0 is credited to client 1 and indexed. */
  lemma ThirdRow()
    ensures LedgerStep(AfterSecond(), Deposit3) == AfterThird()
  {
    DepositStep(AfterSecond(), Deposit3, 40000);
  }

  /** The withdrawal of 2.0 is covered, debited and indexed. */
  lemma FourthRow()
    ensures LedgerStep(AfterThird(), Withdrawal4) == AfterFourth()
  {
    StepOnOpenAccount(AfterThird(), Withdrawal4);
  }

  /** The dispute names id 1, which was never indexed: nothing changes. */
  lemma FifthRow()
    ensures LedgerStep(AfterFourth(), Dispute1) == AfterFourth()
  {
    UnknownReferenceIgnored(AfterFourth(), Dispute1);
  }

  /** The book after the fourth row, written out. */
  lemma AfterFourthAccounts()
    ensures AfterFourth().accounts
            == map[1 := AccountState(1, Adjustments.Funds(20000, 0, 20000), false), 2 := NewAccount(2)]
    ensures AfterFourth().transactions == map[3 := Deposit3, 4 := Withdrawal4]
  {
  }

  /** The first five rows. */
  function FiveRows(): seq<Option<Transaction>> {
    [Some(Deposit1), Some(Deposit2), Some(Deposit3), Some(Withdrawal4), Some(Dispute1)]
  }

  /** The five rows leave client 1 with 2.0 available and in total, nothing
      held, unlocked; client 2 with an empty account; ids 3 and 4 indexed. */
  lemma ExampleOutcome()
    ensures LedgerRun(Empty, FiveRows()) == AfterFourth()
    ensures AfterFourth().accounts
            == map[1 := AccountState(1, Adjustments.Funds(20000, 0, 20000), false), 2 := NewAccount(2)]
    ensures AfterFourth().transactions == map[3 := Deposit3, 4 := Withdrawal4]
  {
    AfterFourthAccounts();
    RunFiveSteps(Empty, Deposit1, Deposit2, Deposit3, Withdrawal4, Dispute1);
    OpeningRows();
    ThirdRow();
    FourthRow();
    FifthRow();
  }

  /** The book after the chargeback: client 1 locked, nothing else changed. */
  function AfterChargeback(): Ledger {
    AfterFourth().(accounts := AfterFourth().accounts[1 := AfterFourth().accounts[1].(isLocked := true)])
  }

  /** Continued: the chargeback of the unknown id 1 moves no funds but locks
      client 1, and the deposit of 100.0 that follows is ignored. */
  lemma ExampleContinued()
    ensures LedgerStep(AfterFourth(), Chargeback1) == AfterChargeback()
    ensures LedgerStep(AfterChargeback(), Deposit5) == AfterChargeback()
    ensures AfterChargeback().accounts
            == map[1 := AccountState(1, Adjustments.Funds(20000, 0, 20000), true), 2 := NewAccount(2)]
  {
    assert 1 !in AfterFourth().transactions by {
      AfterFourthAccounts();
    }
    StepOnOpenAccount(AfterFourth(), Chargeback1);
    assert AfterChargeback().accounts
           == map[1 := AccountState(1, Adjustments.Funds(20000, 0, 20000), true), 2 := NewAccount(2)] by {
      AfterFourthAccounts();
    }
  }

  /** All seven rows from an empty book: client 1 ends locked with 2.0
      available and in total, client 2 empty, ids 3 and 4 indexed. */
  lemma ExampleSevenRows()
    ensures var r := LedgerRun(Empty, FiveRows() + [Some(Chargeback1), Some(Deposit5)]);
            && r.accounts == map[1 := AccountState(1, Adjustments.Funds(20000, 0, 20000), true), 2 := NewAccount(2)]
            && r.transactions == map[3 := Deposit3, 4 := Withdrawal4]
  {
    ExampleOutcome();
    RunAppend(Empty, FiveRows(), [Some(Chargeback1), Some(Deposit5)]);
    RunTwoSteps(AfterFourth(), Chargeback1, Deposit5);
    ExampleContinued();
  }
}
