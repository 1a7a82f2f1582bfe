/** The record loop of the command-line engine (src/bin/cli/main.rs): an
    account book keyed by client and an index of deposits and withdrawals
    keyed by transaction id, both updated in place, one record at a time. */
module Engine {
  import opened Transactions
  import opened Accounts
  import Adjustments

  /** The two maps the loop mutates: `accounts` (client to account value;
      the source's `Account` is `Copy` and stored by value) and
      `transactions` (id to the last deposit or withdrawal applied to an
      existing, unlocked account with that id). */
  datatype Ledger = Ledger(accounts: map<ClientId, AccountState>, transactions: map<TxId, Transaction>)

  const Empty: Ledger := Ledger(map[], map[])

  /** Deposits and withdrawals are the records that enter the index. */
  predicate IsIndexed(t: Transaction) {
    t.ty == Deposit || t.ty == Withdrawal
  }

  /** What the loop maintains: each account sits under its own client and
      keeps `total - held == available`; each index entry is a deposit or a
      withdrawal stored under its own id. */
  predicate Valid(l: Ledger) {
    AccountsValid(l.accounts) && IndexValid(l.transactions)
  }

  predicate AccountsValid(accounts: map<ClientId, AccountState>) {
    forall c :: c in accounts ==> accounts[c].client == c && Adjustments.Consistent(accounts[c].funds)
  }

  predicate IndexValid(transactions: map<TxId, Transaction>) {
    forall id :: id in transactions ==> transactions[id].id == id && IsIndexed(transactions[id])
  }

  /** The amount a record is committed with: its own amount for a deposit or
      withdrawal, zero when absent; for the other three, the amount of the
      index entry with the same id, zero when there is none. */
  function RecordAmount(transactions: map<TxId, Transaction>, t: Transaction): (r: int)
    // A deposit or withdrawal: its own amount, or zero when it has none.
    ensures IsIndexed(t) ==> r == (if t.amount.Some? then t.amount.value else 0)
    // Dispute, resolve, chargeback: the record's own amount is never read;
    // the indexed entry's amount is taken, or zero when the id is not
    // indexed or the entry has no amount.
    ensures !IsIndexed(t) && t.id in transactions && transactions[t.id].amount.Some? ==> r == transactions[t.id].amount.value
    ensures !IsIndexed(t) && (t.id !in transactions || transactions[t.id].amount.None?) ==> r == 0
  {
    if IsIndexed(t) then t.amount.UnwrapOr(0)
    else if t.id in transactions then transactions[t.id].amount.UnwrapOr(0)
    else 0
  }

  /** One iteration of the loop on a decoded record. */
  function LedgerStep(l: Ledger, t: Transaction): (r: Ledger)
    // Only the record's own client can gain or change an account.
    ensures r.accounts.Keys == l.accounts.Keys + {t.client}
    // First record for a client: a zero account, nothing applied, nothing indexed.
    ensures t.client !in l.accounts ==> r.accounts[t.client] == NewAccount(t.client) && r.transactions == l.transactions
    // A locked account: nothing changes at all.
    ensures t.client in l.accounts && l.accounts[t.client].isLocked ==> r == l
    // Otherwise: index (overwriting) a deposit or withdrawal, commit with the
    // resolved amount, and lock exactly on a chargeback.
    ensures t.client in l.accounts && !l.accounts[t.client].isLocked ==>
      && r.transactions == (if IsIndexed(t) then l.transactions[t.id := t] else l.transactions)
      && r.accounts[t.client].client == l.accounts[t.client].client
      && r.accounts[t.client].funds == Adjustments.Adjust(l.accounts[t.client].funds, t.ty, RecordAmount(l.transactions, t))
      && (r.accounts[t.client].isLocked <==> t.ty == Chargeback)
  {
    if t.client !in l.accounts then
      l.(accounts := l.accounts[t.client := NewAccount(t.client)])
    else
      var account := l.accounts[t.client];
      if account.isLocked then l
      else
        var transactions := if IsIndexed(t) then l.transactions[t.id := t] else l.transactions;
        var committed := Committed(account, t.ty, RecordAmount(l.transactions, t));
        var updated := if t.ty == Chargeback then committed.(isLocked := true) else committed;
        Ledger(l.accounts[t.client := updated], transactions)
  }

  /** The accounts of other clients are untouched by a step. */
  lemma StepLeavesOtherClients(l: Ledger, t: Transaction, c: ClientId)
    requires c in l.accounts && c != t.client
    ensures LedgerStep(l, t).accounts[c] == l.accounts[c]
  {
  }

  /** Each step keeps the book's invariants. */
  lemma StepKeepsValid(l: Ledger, t: Transaction)
    ensures Valid(l) ==> Valid(LedgerStep(l, t))
  {
    if Valid(l) {
      StepKeepsIndexValid(l, t);
      StepKeepsAccountsValid(l, t);
    }
  }

  lemma StepKeepsIndexValid(l: Ledger, t: Transaction)
    requires IndexValid(l.transactions)
    ensures IndexValid(LedgerStep(l, t).transactions)
  {
  }

  lemma StepKeepsAccountsValid(l: Ledger, t: Transaction)
    requires AccountsValid(l.accounts)
    ensures AccountsValid(LedgerStep(l, t).accounts)
  {
    if t.client in l.accounts && !l.accounts[t.client].isLocked {
      var a := l.accounts[t.client];
      Adjustments.AdjustPreservesConsistency(a.funds, t.ty, RecordAmount(l.transactions, t));
    }
  }

  /** A row that failed to decode is `None` and is skipped. */
  function LedgerRecord(l: Ledger, record: Option<Transaction>): (r: Ledger)
    ensures record.None? ==> r == l
    ensures record.Some? ==> r == LedgerStep(l, record.value)
  {
    match record
    case None => l
    case Some(t) => LedgerStep(l, t)
  }

  /** The whole loop over the rows, in order. */
  function LedgerRun(l: Ledger, records: seq<Option<Transaction>>): (r: Ledger)
    // Accounts are never removed.
    ensures l.accounts.Keys <= r.accounts.Keys
    decreases |records|
  {
    if records == [] then l
    else LedgerRecord(LedgerRun(l, records[..|records| - 1]), records[|records| - 1])
  }

  /** The invariants hold after every prefix of the input. */
  lemma {:induction false} RunKeepsValid(l: Ledger, records: seq<Option<Transaction>>)
    requires Valid(l)
    ensures Valid(LedgerRun(l, records))
    decreases |records|
  {
    if records != [] {
      var n := |records| - 1;
      RunKeepsValid(l, records[..n]);
      var previous := LedgerRun(l, records[..n]);
      assert LedgerRun(l, records) == LedgerRecord(previous, records[n]);
      if records[n].Some? {
        StepKeepsValid(previous, records[n].value);
      }
    }
  }

  /** A locked account never changes again, whatever rows follow. */
  lemma {:induction false} RunKeepsLocked(l: Ledger, records: seq<Option<Transaction>>, c: ClientId)
    requires c in l.accounts && l.accounts[c].isLocked
    ensures c in LedgerRun(l, records).accounts && LedgerRun(l, records).accounts[c] == l.accounts[c]
    decreases |records|
  {
    if records != [] {
      var n := |records| - 1;
      RunKeepsLocked(l, records[..n], c);
      if records[n].Some? && records[n].value.client != c {
        StepLeavesOtherClients(LedgerRun(l, records[..n]), records[n].value, c);
      }
    }
  }

  /** Running a prefix and then one more row. */
  lemma RunSnoc(l: Ledger, xs: seq<Option<Transaction>>, x: Option<Transaction>)
    ensures LedgerRun(l, xs + [x]) == LedgerRecord(LedgerRun(l, xs), x)
  {
    assert (xs + [x])[..|xs|] == xs;
  }

  /** Running two rows. */
  lemma RunTwo(l: Ledger, x: Option<Transaction>, y: Option<Transaction>)
    ensures LedgerRun(l, [x, y]) == LedgerRecord(LedgerRecord(l, x), y)
  {
    RunSnoc(l, [], x);
    RunSnoc(l, [x], y);
    assert [] + [x] == [x];
    assert [x] + [y] == [x, y];
  }

  /** Running two parsed rows is taking the two steps. */
  lemma RunTwoSteps(l: Ledger, t: Transaction, u: Transaction)
    ensures LedgerRun(l, [Some(t), Some(u)]) == LedgerStep(LedgerStep(l, t), u)
  {
    RunTwo(l, Some(t), Some(u));
  }

  /** Running three parsed rows is taking the three steps in order. */
  lemma RunThreeSteps(l: Ledger, t1: Transaction, t2: Transaction, t3: Transaction)
    ensures LedgerRun(l, [Some(t1), Some(t2), Some(t3)]) == LedgerStep(LedgerStep(LedgerStep(l, t1), t2), t3)
  {
    RunTwoSteps(l, t1, t2);
    RunSnoc(l, [Some(t1), Some(t2)], Some(t3));
    assert [Some(t1), Some(t2)] + [Some(t3)] == [Some(t1), Some(t2), Some(t3)];
  }

  /** Running five parsed rows is taking the five steps in order. */
  lemma RunFiveSteps(l: Ledger, t1: Transaction, t2: Transaction, t3: Transaction, t4: Transaction, t5: Transaction)
    ensures LedgerRun(l, [Some(t1), Some(t2), Some(t3), Some(t4), Some(t5)])
            == LedgerStep(LedgerStep(LedgerStep(LedgerStep(LedgerStep(l, t1), t2), t3), t4), t5)
  {
    var rows := [Some(t1), Some(t2), Some(t3), Some(t4), Some(t5)];
    RunTwoSteps(l, t1, t2);
    RunSnoc(l, rows[..2], rows[2]);
    assert rows[..2] + [rows[2]] == rows[..3];
    RunSnoc(l, rows[..3], rows[3]);
    assert rows[..3] + [rows[3]] == rows[..4];
    RunSnoc(l, rows[..4], rows[4]);
    assert rows[..4] + [rows[4]] == rows;
  }

  /** Running two chunks of input one after the other is running their concatenation. */
  lemma {:induction false} RunAppend(l: Ledger, xs: seq<Option<Transaction>>, ys: seq<Option<Transaction>>)
    ensures LedgerRun(l, xs + ys) == LedgerRun(LedgerRun(l, xs), ys)
    decreases |ys|
  {
    if ys != [] {
      var n := |ys| - 1;
      assert (xs + ys)[..|xs + ys| - 1] == xs + ys[..n];
      assert (xs + ys)[|xs + ys| - 1] == ys[n];
      RunAppend(l, xs, ys[..n]);
    } else {
      assert xs + ys == xs;
    }
  }

  /** The decoded records of the input, in order. */
  function Parsed(records: seq<Option<Transaction>>): (r: seq<Option<Transaction>>)
    ensures |r| <= |records|
    ensures forall i :: 0 <= i < |r| ==> r[i].Some?
    decreases |records|
  {
    if records == [] then []
    else
      var last := records[|records| - 1];
      if last.None? then Parsed(records[..|records| - 1])
      else Parsed(records[..|records| - 1]) + [last]
  }

  /** `Parsed` keeps exactly the decoded rows: a row is in the result if and
      only if it is in the input and decoded. */
  lemma {:induction false} ParsedKeepsDecoded(records: seq<Option<Transaction>>)
    ensures forall x :: x in Parsed(records) <==> x in records && x.Some?
    decreases |records|
  {
    if records != [] {
      var n := |records| - 1;
      ParsedKeepsDecoded(records[..n]);
      assert records == records[..n] + [records[n]];
    }
  }

  /** Rows that fail to decode leave both maps untouched. */
  lemma {:induction false} RunSkipsUnparsed(l: Ledger, records: seq<Option<Transaction>>)
    ensures LedgerRun(l, records) == LedgerRun(l, Parsed(records))
    decreases |records|
  {
    if records != [] {
      var n := |records| - 1;
      RunSkipsUnparsed(l, records[..n]);
      var p := Parsed(records[..n]);
      if records[n].Some? {
        assert Parsed(records) == p + [records[n]];
        assert (p + [records[n]])[..|p|] == p;
      }
    }
  }

  /** Records of other clients never create, change or remove `c`'s account. */
  lemma {:induction false} RunLeavesOtherClients(l: Ledger, records: seq<Option<Transaction>>, c: ClientId)
    requires forall i :: 0 <= i < |records| && records[i].Some? ==> records[i].value.client != c
    ensures (c in LedgerRun(l, records).accounts) == (c in l.accounts)
    ensures c in l.accounts ==> LedgerRun(l, records).accounts[c] == l.accounts[c]
    decreases |records|
  {
    if records != [] {
      var n := |records| - 1;
      RunLeavesOtherClients(l, records[..n], c);
      var previous := LedgerRun(l, records[..n]);
      if records[n].Some? && c in previous.accounts {
        StepLeavesOtherClients(previous, records[n].value, c);
      }
    }
  }

  /** A deposit or withdrawal without an amount is committed with zero: it
      changes no funds but still enters the index. */
  lemma MissingAmountCommitsZero(l: Ledger, t: Transaction)
    requires IsIndexed(t) && t.amount.None?
    requires t.client in l.accounts && !l.accounts[t.client].isLocked
    ensures LedgerStep(l, t) == l.(transactions := l.transactions[t.id := t])
  {
    assert l.accounts[t.client := l.accounts[t.client]] == l.accounts;
  }

  /** A withdrawal rejected for insufficient funds leaves the account alone,
      yet is indexed under its id, replacing any earlier entry. */
  lemma RejectedWithdrawalIsIndexed(l: Ledger, t: Transaction)
    requires t.ty == Withdrawal && t.client in l.accounts && !l.accounts[t.client].isLocked
    requires t.amount.UnwrapOr(0) > l.accounts[t.client].funds.available
    ensures LedgerStep(l, t).accounts == l.accounts
    ensures LedgerStep(l, t).transactions == l.transactions[t.id := t]
  {
    assert l.accounts[t.client := l.accounts[t.client]] == l.accounts;
  }

  /** A dispute or resolve naming an id that is not indexed changes nothing. */
  lemma UnknownReferenceIgnored(l: Ledger, t: Transaction)
    requires (t.ty == Dispute || t.ty == Resolve) && t.id !in l.transactions
    requires t.client in l.accounts
    ensures LedgerStep(l, t) == l
  {
    assert l.accounts[t.client := l.accounts[t.client]] == l.accounts;
  }

  /** A chargeback naming an id that is not indexed moves no funds but still
      locks the account. */
  lemma UnknownChargebackLocks(l: Ledger, t: Transaction)
    requires t.ty == Chargeback && t.id !in l.transactions
    requires t.client in l.accounts && !l.accounts[t.client].isLocked
    ensures LedgerStep(l, t).accounts[t.client] == l.accounts[t.client].(isLocked := true)
    ensures LedgerStep(l, t).transactions == l.transactions
  {
  }

  /** The client recorded in an index entry is never consulted: a dispute,
      resolve or chargeback from any client takes that entry's amount. */
  lemma IndexedClientIgnored(l: Ledger, t: Transaction, other: ClientId)
    requires t.id in l.transactions
    ensures LedgerStep(l.(transactions := l.transactions[t.id := l.transactions[t.id].(client := other)]), t).accounts
         == LedgerStep(l, t).accounts
  {
  }

  /** Two disputes of the same entry both apply: no dispute status is kept,
      so the amount is moved from available to held twice. */
  lemma RepeatedDisputeAppliesTwice(l: Ledger, c: ClientId, id: TxId, p: Option<int>, q: Option<int>)
    requires c in l.accounts && !l.accounts[c].isLocked && id in l.transactions
    ensures var f := l.accounts[c].funds;
            var x := l.transactions[id].amount.UnwrapOr(0);
            LedgerRun(l, [Some(Transaction(Dispute, c, id, p)), Some(Transaction(Dispute, c, id, q))]).accounts[c].funds
              == Adjustments.Funds(f.available - 2 * x, f.held + 2 * x, f.total)
  {
    RunTwo(l, Some(Transaction(Dispute, c, id, p)), Some(Transaction(Dispute, c, id, q)));
  }

  /** The step on an open account, as one ledger value. */
  lemma StepOnOpenAccount(l: Ledger, t: Transaction)
    requires t.client in l.accounts && !l.accounts[t.client].isLocked
    ensures LedgerStep(l, t)
            == Ledger(l.accounts[t.client := Committed(l.accounts[t.client], t.ty, RecordAmount(l.transactions, t)).(isLocked := t.ty == Chargeback)],
                      if IsIndexed(t) then l.transactions[t.id := t] else l.transactions)
  {
  }

  /** A dispute on an open account moves the referenced amount to held. */
  lemma DisputeStep(l: Ledger, t: Transaction)
    requires t.ty == Dispute && t.client in l.accounts && !l.accounts[t.client].isLocked
    ensures var a := l.accounts[t.client];
            LedgerStep(l, t)
            == Ledger(l.accounts[t.client := a.(funds := Adjustments.Dispute(a.funds, RecordAmount(l.transactions, t)))], l.transactions)
  {
    StepOnOpenAccount(l, t);
  }

  /** A resolve of an id whose dispute was just applied undoes it. */
  lemma ResolveStepUndoesDispute(l: Ledger, t: Transaction, a: AccountState)
    requires t.ty == Resolve && !a.isLocked
    requires var x := RecordAmount(l.transactions, t);
             t.client in l.accounts && l.accounts[t.client] == a.(funds := Adjustments.Dispute(a.funds, x))
    ensures LedgerStep(l, t) == Ledger(l.accounts[t.client := a], l.transactions)
  {
    StepOnOpenAccount(l, t);
    Adjustments.DisputeThenResolve(a.funds, RecordAmount(l.transactions, t));
  }

  /** A dispute followed by a resolve of the same id, on an open account,
      leaves the ledger as it was, whatever amounts the two rows carry. */
  lemma DisputeThenResolveRestores(l: Ledger, c: ClientId, id: TxId, p: Option<int>, q: Option<int>)
    requires c in l.accounts && !l.accounts[c].isLocked
    ensures LedgerRun(l, [Some(Transaction(Dispute, c, id, p)), Some(Transaction(Resolve, c, id, q))]) == l
  {
    var dispute, resolve := Transaction(Dispute, c, id, p), Transaction(Resolve, c, id, q);
    var a := l.accounts[c];
    var x := RecordAmount(l.transactions, dispute);
    var l1 := Ledger(l.accounts[c := a.(funds := Adjustments.Dispute(a.funds, x))], l.transactions);
    assert LedgerStep(LedgerStep(l, dispute), resolve) == l by {
      DisputeStep(l, dispute);
      assert RecordAmount(l1.transactions, resolve) == x;
      ResolveStepUndoesDispute(l1, resolve, a);
      assert l1.accounts[c := a] == l.accounts;
    }
    RunTwoSteps(l, dispute, resolve);
  }

  /** A deposit on an open account credits it and indexes the row. */
  lemma DepositStep(l: Ledger, t: Transaction, x: int)
    requires t.ty == Deposit && t.amount == Some(x) && t.client in l.accounts && !l.accounts[t.client].isLocked
    ensures var a := l.accounts[t.client];
            LedgerStep(l, t)
            == Ledger(l.accounts[t.client := a.(funds := Adjustments.Deposit(a.funds, x))], l.transactions[t.id := t])
  {
    StepOnOpenAccount(l, t);
  }

  /** A chargeback of an id whose dispute was just applied removes the held
      amount and locks the account. */
  lemma ChargebackStepAfterDispute(l: Ledger, t: Transaction, a: AccountState)
    requires t.ty == Chargeback && !a.isLocked
    requires var x := RecordAmount(l.transactions, t);
             t.client in l.accounts && l.accounts[t.client] == a.(funds := Adjustments.Dispute(a.funds, x))
    ensures var x := RecordAmount(l.transactions, t);
            LedgerStep(l, t)
            == Ledger(l.accounts[t.client := AccountState(a.client, Adjustments.Funds(a.funds.available - x, a.funds.held, a.funds.total - x), true)], l.transactions)
  {
    StepOnOpenAccount(l, t);
    Adjustments.DisputeThenChargeback(a.funds, RecordAmount(l.transactions, t));
  }

  /** On an open account, depositing, disputing and charging back the same
      id returns the funds to what they were and locks the account. */
  lemma DepositDisputeChargeback(l: Ledger, c: ClientId, id: TxId, x: int)
    requires c in l.accounts && !l.accounts[c].isLocked
    ensures var deposit := Transaction(Deposit, c, id, Some(x));
            var r := LedgerRun(l, [Some(deposit), Some(Transaction(Dispute, c, id, None)), Some(Transaction(Chargeback, c, id, None))]);
            && r.accounts[c] == l.accounts[c].(isLocked := true)
            && r.transactions == l.transactions[id := deposit]
  {
    var deposit := Transaction(Deposit, c, id, Some(x));
    var dispute, chargeback := Transaction(Dispute, c, id, None), Transaction(Chargeback, c, id, None);
    RunThreeSteps(l, deposit, dispute, chargeback);
    DepositStep(l, deposit, x);
    var l1 := LedgerStep(l, deposit);
    DisputeStep(l1, dispute);
    var l2 := LedgerStep(l1, dispute);
    ChargebackStepAfterDispute(l2, chargeback, l1.accounts[c]);
  }

  class Engine {
    var accounts: map<ClientId, AccountState>
    var transactions: map<TxId, Transaction>

    function State(): Ledger
      reads this
    {
      Ledger(accounts, transactions)
    }

    /** Both maps start empty. */
    constructor ()
      ensures State() == Empty
    {
      accounts := map[];
      transactions := map[];
    }

    /** One iteration: `entry(client).and_modify(..).or_insert(Account::new(client))`. */
    method Step(t: Transaction)
      modifies this
      ensures State() == LedgerStep(old(State()), t)
    {
      if t.client in accounts {
        var account := accounts[t.client];
        if account.isLocked {
          return;
        }
        var amount: int;
        match t.ty {
          case Deposit | Withdrawal =>
            transactions := transactions[t.id := t];
            amount := t.amount.UnwrapOr(0);
          case Dispute | Resolve | Chargeback =>
            amount := if t.id in transactions then transactions[t.id].amount.UnwrapOr(0) else 0;
        }
        account := Committed(account, t.ty, amount);
        if t.ty == Chargeback {
          account := account.(isLocked := true);
        }
        accounts := accounts[t.client := account];
      } else {
        accounts := accounts[t.client := NewAccount(t.client)];
      }
    }

    /** The `for result in rdr.deserialize()` loop; rows that fail to decode are `None`. */
    method Run(records: seq<Option<Transaction>>)
      modifies this
      ensures State() == LedgerRun(old(State()), records)
    {
      for i := 0 to |records|
        invariant State() == LedgerRun(old(State()), records[..i])
      {
        assert records[..i + 1][..i] == records[..i];
        match records[i] {
          case None =>
          case Some(t) => Step(t);
        }
      }
      assert records[..|records|] == records;
    }
  }

  /** The engine from start to finish: the final account book for an input. */
  method Process(records: seq<Option<Transaction>>) returns (accounts: map<ClientId, AccountState>)
    ensures accounts == LedgerRun(Empty, records).accounts
    ensures forall c :: c in accounts ==> accounts[c].client == c && Adjustments.Consistent(accounts[c].funds)
  {
    var engine := new Engine();
    engine.Run(records);
    accounts := engine.accounts;
    RunKeepsValid(Empty, records);
  }
}
