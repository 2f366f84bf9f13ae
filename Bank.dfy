/** The bank-account ledger of Lecture4/Solution/Task1.rb: an account with an integer
    balance and an append-only list of transactions, deposits and withdrawals that check
    their input before changing anything, and a transfer that pre-checks and then calls
    withdraw followed by deposit.

    The class `Account` is the mutable object. Each of its methods is specified by a pure
    function on `Ledger`, the pair (balance, transactions); the properties the code keeps
    (no overdraft, balance == sum of the log, one entry per successful change, conservation
    by a transfer) are proved about those functions. */
module Bank {
  import opened Wrappers

  /** The `type` strings the source writes into its log. */
  datatype Kind = AccountOpened | Deposit | Withdrawal

  /** One log entry: `{type:, amount:, timestamp:}` without the clock reading. */
  datatype Transaction = Transaction(kind: Kind, amount: int)

  /** The state of one account as a value. */
  datatype Ledger = Ledger(balance: int, transactions: seq<Transaction>)

  /** Sum of the logged amounts. */
  function Sum(log: seq<Transaction>): int
    decreases |log|
  {
    if log == [] then 0 else Sum(log[..|log| - 1]) + log[|log| - 1].amount
  }

  /** Every entry after the first is a deposit of a positive amount or a withdrawal of a
      negative one; the first is the opening entry. */
  predicate WellFormedLog(log: seq<Transaction>)
  {
    |log| >= 1 && log[0].kind == AccountOpened && log[0].amount >= 0 &&
    forall i :: 1 <= i < |log| ==>
      (log[i].kind == Deposit && log[i].amount > 0) ||
      (log[i].kind == Withdrawal && log[i].amount < 0)
  }

  /** The invariant of an account: no overdraft, and the balance is what the log adds up to. */
  predicate Consistent(l: Ledger)
  {
    l.balance >= 0 && l.balance == Sum(l.transactions) && WellFormedLog(l.transactions)
  }

  /** The ledger `initialize` produces, or None where it raises ArgumentError. */
  function Opened(initialBalance: int): (r: Option<Ledger>)
    ensures r.None? <==> initialBalance < 0
    ensures r.Some? ==> Consistent(r.value) && r.value.balance == initialBalance &&
                        r.value.transactions == [Transaction(AccountOpened, initialBalance)]
  {
    if initialBalance < 0 then None
    else Some(Ledger(initialBalance, [Transaction(AccountOpened, initialBalance)]))
  }

  /** Whether `deposit(amount)` gets past its check. */
  predicate DepositAccepted(amount: int)
  {
    amount > 0
  }

  /** Whether `withdraw(amount)` gets past its two checks. */
  predicate WithdrawAccepted(l: Ledger, amount: int)
  {
    amount > 0 && l.balance >= amount
  }

  /** The ledger after `deposit(amount)`: unchanged when the check rejects the amount. */
  function Deposited(l: Ledger, amount: int): Ledger
  {
    if DepositAccepted(amount)
    then Ledger(l.balance + amount, l.transactions + [Transaction(Deposit, amount)])
    else l
  }

  /** The ledger after `withdraw(amount)`: unchanged when a check rejects the amount. */
  function Withdrawn(l: Ledger, amount: int): Ledger
  {
    if WithdrawAccepted(l, amount)
    then Ledger(l.balance - amount, l.transactions + [Transaction(Withdrawal, -amount)])
    else l
  }

  /** Whether `transfer` gets past its two pre-checks. */
  predicate TransferAccepted(source: Ledger, amount: int)
  {
    amount > 0 && source.balance >= amount
  }

  /** The two ledgers after `transfer(source, target, amount)` between distinct accounts. */
  function Transferred(source: Ledger, target: Ledger, amount: int): (Ledger, Ledger)
  {
    if TransferAccepted(source, amount)
    then (Withdrawn(source, amount), Deposited(target, amount))
    else (source, target)
  }

  /** The ledger after `transfer(a, a, amount)`, the source and target being one account. */
  function SelfTransferred(l: Ledger, amount: int): Ledger
  {
    if TransferAccepted(l, amount) then Deposited(Withdrawn(l, amount), amount) else l
  }

  /** Appending an entry adds its amount to the sum. */
  lemma {:induction false} SumAppend(log: seq<Transaction>, t: Transaction)
    ensures Sum(log + [t]) == Sum(log) + t.amount
  {
    assert (log + [t])[..|log|] == log;
  }

  /** Appending a deposit or a withdrawal keeps the log well formed. */
  lemma WellFormedAppend(log: seq<Transaction>, t: Transaction)
    requires WellFormedLog(log)
    requires (t.kind == Deposit && t.amount > 0) || (t.kind == Withdrawal && t.amount < 0)
    ensures WellFormedLog(log + [t])
  {
    var log' := log + [t];
    assert log'[0] == log[0];
    forall i | 1 <= i < |log'|
      ensures (log'[i].kind == Deposit && log'[i].amount > 0) ||
              (log'[i].kind == Withdrawal && log'[i].amount < 0)
    {
      if i < |log| { assert log'[i] == log[i]; }
    }
  }

  /** deposit keeps the account consistent, and its outcome is exactly what its check says:
      an accepted amount raises the balance by that amount and appends one Deposit entry,
      a rejected one changes nothing. */
  lemma DepositKeepsConsistent(l: Ledger, amount: int)
    requires Consistent(l)
    ensures Consistent(Deposited(l, amount))
    ensures Deposited(l, amount).balance - l.balance == (if amount > 0 then amount else 0)
    ensures Deposited(l, amount).transactions ==
            l.transactions + (if amount > 0 then [Transaction(Deposit, amount)] else [])
  {
    if DepositAccepted(amount) {
      SumAppend(l.transactions, Transaction(Deposit, amount));
      WellFormedAppend(l.transactions, Transaction(Deposit, amount));
    }
  }

  /** withdraw keeps the account consistent (so the balance never goes negative), and its
      outcome is exactly what its checks say. */
  lemma WithdrawKeepsConsistent(l: Ledger, amount: int)
    requires Consistent(l)
    ensures Consistent(Withdrawn(l, amount))
    ensures var accepted := amount > 0 && amount <= l.balance;
            Withdrawn(l, amount).balance == l.balance - (if accepted then amount else 0) &&
            Withdrawn(l, amount).transactions ==
            l.transactions + (if accepted then [Transaction(Withdrawal, -amount)] else [])
  {
    if WithdrawAccepted(l, amount) {
      SumAppend(l.transactions, Transaction(Withdrawal, -amount));
      WellFormedAppend(l.transactions, Transaction(Withdrawal, -amount));
    }
  }

  /** Every successful change appends exactly one entry and leaves the earlier entries as
      they were; a change that leaves the balance as it was appends nothing. */
  lemma OneEntryPerChange(l: Ledger, amount: int)
    requires Consistent(l)
    ensures var d := Deposited(l, amount);
            l.transactions <= d.transactions &&
            (|d.transactions| == |l.transactions| + 1 <==> d.balance != l.balance) &&
            (|d.transactions| == |l.transactions| <==> d.balance == l.balance)
    ensures var w := Withdrawn(l, amount);
            l.transactions <= w.transactions &&
            (|w.transactions| == |l.transactions| + 1 <==> w.balance != l.balance) &&
            (|w.transactions| == |l.transactions| <==> w.balance == l.balance)
  {
  }

  /** A transfer between distinct accounts keeps both consistent and conserves their
      combined balance; an accepted one moves exactly `amount`, a rejected one changes
      neither account. */
  lemma TransferConserves(source: Ledger, target: Ledger, amount: int)
    requires Consistent(source) && Consistent(target)
    ensures var (s, t) := Transferred(source, target, amount);
            Consistent(s) && Consistent(t) &&
            s.balance + t.balance == source.balance + target.balance
    ensures var (s, t) := Transferred(source, target, amount);
            if amount > 0 && source.balance >= amount
            then s.balance == source.balance - amount && t.balance == target.balance + amount &&
                 s.transactions == source.transactions + [Transaction(Withdrawal, -amount)] &&
                 t.transactions == target.transactions + [Transaction(Deposit, amount)]
            else s == source && t == target
  {
    WithdrawKeepsConsistent(source, amount);
    DepositKeepsConsistent(target, amount);
  }

  /** A transfer from an account to itself leaves its balance as it was and, when accepted,
      logs a Withdrawal and a Deposit of the amount. */
  lemma {:induction false} SelfTransferKeepsBalance(l: Ledger, amount: int)
    requires Consistent(l)
    ensures Consistent(SelfTransferred(l, amount))
    ensures SelfTransferred(l, amount).balance == l.balance
    ensures SelfTransferred(l, amount).transactions ==
            l.transactions + (if amount > 0 && l.balance >= amount
                              then [Transaction(Withdrawal, -amount), Transaction(Deposit, amount)]
                              else [])
  {
    WithdrawKeepsConsistent(l, amount);
    DepositKeepsConsistent(Withdrawn(l, amount), amount);
    if TransferAccepted(l, amount) {
      assert l.transactions + [Transaction(Withdrawal, -amount)] + [Transaction(Deposit, amount)] ==
             l.transactions + [Transaction(Withdrawal, -amount), Transaction(Deposit, amount)];
    }
  }

  /** BankAccount. Number and owner are fixed at creation; the balance and the log change
      only through Deposit and Withdraw. */
  class Account {
    const accountNumber: string
    const ownerName: string
    var balance: int
    var transactions: seq<Transaction>

    function State(): Ledger
      reads this
    {
      Ledger(balance, transactions)
    }

    ghost predicate Valid()
      reads this
    {
      Consistent(State())
    }

    /** `initialize` past its check: the caller has ruled out a negative opening balance
        (Open is the entry point that models the check). */
    constructor (accountNumber: string, ownerName: string, initialBalance: int)
      requires initialBalance >= 0
      ensures Valid()
      ensures this.accountNumber == accountNumber && this.ownerName == ownerName
      ensures Some(State()) == Opened(initialBalance)
    {
      this.accountNumber := accountNumber;
      this.ownerName := ownerName;
      balance := initialBalance;
      transactions := [];
      new;
      LogTransaction(AccountOpened, initialBalance);
    }

    /** `BankAccount.new`: raises (here: returns null) on a negative opening balance. */
    static method Open(accountNumber: string, ownerName: string, initialBalance: int)
      returns (a: Account?)
      ensures a == null <==> initialBalance < 0
      ensures a != null ==> fresh(a) && a.Valid() && Some(a.State()) == Opened(initialBalance)
      ensures a != null ==> a.accountNumber == accountNumber && a.ownerName == ownerName
    {
      if initialBalance < 0 {
        a := null;
      } else {
        a := new Account(accountNumber, ownerName, initialBalance);
      }
    }

    /** `deposit`: ok is false exactly where the source raises and rescues its own error. */
    method Deposit(amount: int) returns (ok: bool)
      requires Valid()
      modifies this
      ensures Valid()
      ensures ok == DepositAccepted(amount)
      ensures State() == Deposited(old(State()), amount)
    {
      DepositKeepsConsistent(State(), amount);
      if amount <= 0 {
        ok := false;
        return;
      }
      balance := balance + amount;
      LogTransaction(Kind.Deposit, amount);
      ok := true;
    }

    /** `withdraw`: ok is false exactly where the source raises and rescues its own error. */
    method Withdraw(amount: int) returns (ok: bool)
      requires Valid()
      modifies this
      ensures Valid()
      ensures ok == WithdrawAccepted(old(State()), amount)
      ensures State() == Withdrawn(old(State()), amount)
    {
      WithdrawKeepsConsistent(State(), amount);
      if amount <= 0 {
        ok := false;
        return;
      }
      if balance < amount {
        ok := false;
        return;
      }
      balance := balance - amount;
      LogTransaction(Withdrawal, -amount);
      ok := true;
    }

    /** `getBalance`. */
    method GetBalance() returns (b: int)
      requires Valid()
      ensures b == balance && b >= 0
    {
      b := balance;
    }

    /** The private `log_transaction`: appends one entry, touches nothing else. */
    method LogTransaction(kind: Kind, amount: int)
      modifies this
      ensures transactions == old(transactions) + [Transaction(kind, amount)]
      ensures balance == old(balance)
    {
      transactions := transactions + [Transaction(kind, amount)];
    }

    /** `BankAccount.transfer`: pre-checks, then `source.withdraw` and `target.deposit`, with
        no rollback and no check that the two accounts differ. `ok` is false exactly where
        the source raises in its pre-checks. */
    static method Transfer(source: Account, target: Account, amount: int) returns (ok: bool)
      requires source.Valid() && target.Valid()
      modifies source, target
      ensures source.Valid() && target.Valid()
      ensures ok == TransferAccepted(old(source.State()), amount)
      ensures source != target ==>
                (source.State(), target.State()) ==
                Transferred(old(source.State()), old(target.State()), amount)
      ensures source == target ==> source.State() == SelfTransferred(old(source.State()), amount)
    {
      if amount <= 0 {
        ok := false;
        return;
      }
      if source.balance < amount {
        ok := false;
        return;
      }
      var withdrew := source.Withdraw(amount);
      var deposited := target.Deposit(amount);
      assert withdrew && deposited;
      ok := true;
    }
  }

  /** The source's demo driver, as a client of the contracts above. */
  method Demo()
  {
    var a1 := new Account("123456", "Alice", 1000);
    var a2 := new Account("789012", "Bob", 500);
    var ok := a1.Deposit(200);
    assert ok && a1.balance == 1200;
    ok := a1.Withdraw(100);
    assert ok && a1.balance == 1100;
    ok := a1.Withdraw(2000);
    assert !ok && a1.balance == 1100;
    ok := a1.Deposit(-50);
    assert !ok && a1.balance == 1100;
    ok := Account.Transfer(a1, a2, 300);
    assert ok && a1.balance == 800 && a2.balance == 800;
    ok := Account.Transfer(a1, a2, 2000);
    assert !ok && a1.balance == 800 && a2.balance == 800;
    assert |a1.transactions| == 4 && |a2.transactions| == 2;
  }
}
