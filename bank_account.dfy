/** A bank account: identity fixed at opening, a balance changed only by
    credits, debits and transfers, and every operation guarded by checks that
    either let it through or reject it with one of two kinds of error. */
module BankAccounts {
  import opened Int64Parsing

  /** Rejections of malformed or out-of-policy input. */
  datatype ValidationKind =
    | CheckingNotAllowed
    | OpenedTooLongAgo
    | OpenedInFuture
    | AccountNumberNotNumeric
    | NegativeInitialBalance
    | NegativeCredit
    | NegativeDebit

  /** Rejections by a business rule. */
  datatype BusinessKind =
    | InsufficientForDebit
    | TransferOverLimit
    | SameHolder
    | InsufficientForTransfer

  /** The two kinds of failure: an argument error (bad input) and a plain
      error (a business rule). */
  datatype Error = Validation(validation: ValidationKind) | Business(business: BusinessKind)

  /** What an operation that returns nothing reports. */
  datatype Outcome = Ok | Fail(error: Error)

  datatype Result<T> = Success(value: T) | Failure(error: Error)

  /** The account type that cannot be opened. */
  const FORBIDDEN_TYPE: string := "Checking"

  /** The largest amount that may be transferred to another holder. */
  const TRANSFER_LIMIT: real := 500.0

  /** The verdict of the opening checks, which run in this order: the account
      type, the date against the earliest allowed date (80 years before the
      clock), the date against the clock, the account number, the initial
      balance. The first check that fails decides the error. */
  function OpeningCheck(accountNumber: string, initialBalance: real, accountType: string,
                        dateOpened: int, earliest: int, now: int): (r: Outcome)
    ensures r == Ok <==>
      accountType != FORBIDDEN_TYPE && earliest <= dateOpened <= now &&
      ParsesAsInt64(accountNumber) && initialBalance >= 0.0
    ensures r.Fail? ==> r.error.Validation?
    ensures r == Fail(Validation(CheckingNotAllowed)) <==> accountType == FORBIDDEN_TYPE
    ensures r == Fail(Validation(OpenedTooLongAgo)) <==>
      accountType != FORBIDDEN_TYPE && dateOpened < earliest
    ensures r == Fail(Validation(OpenedInFuture)) <==>
      accountType != FORBIDDEN_TYPE && earliest <= dateOpened && now < dateOpened
    ensures r == Fail(Validation(AccountNumberNotNumeric)) <==>
      accountType != FORBIDDEN_TYPE && earliest <= dateOpened <= now &&
      !ParsesAsInt64(accountNumber)
    ensures r == Fail(Validation(NegativeInitialBalance)) <==>
      accountType != FORBIDDEN_TYPE && earliest <= dateOpened <= now &&
      ParsesAsInt64(accountNumber) && initialBalance < 0.0
  {
    if accountType == FORBIDDEN_TYPE then Fail(Validation(CheckingNotAllowed))
    else if dateOpened < earliest then Fail(Validation(OpenedTooLongAgo))
    else if dateOpened > now then Fail(Validation(OpenedInFuture))
    else if !ParsesAsInt64(accountNumber) then Fail(Validation(AccountNumberNotNumeric))
    else if initialBalance < 0.0 then Fail(Validation(NegativeInitialBalance))
    else Ok
  }

  /** The verdict of a credit: only a negative amount is refused. */
  function CreditOutcome(amount: real): (r: Outcome)
    ensures r == Ok <==> amount >= 0.0
    ensures r != Ok ==> r == Fail(Validation(NegativeCredit))
  {
    if amount < 0.0 then Fail(Validation(NegativeCredit)) else Ok
  }

  /** The verdict of a debit: a negative amount is refused first, as bad
      input; an amount above the balance is refused next, by rule. */
  function DebitOutcome(balance: real, amount: real): (r: Outcome)
    ensures r == Ok <==> 0.0 <= amount <= balance
    ensures amount < 0.0 ==> r == Fail(Validation(NegativeDebit))
    ensures 0.0 <= amount && balance < amount ==> r == Fail(Business(InsufficientForDebit))
  {
    if amount < 0.0 then Fail(Validation(NegativeDebit))
    else if balance >= amount then Ok
    else Fail(Business(InsufficientForDebit))
  }

  /** The verdict of a transfer of `amount` out of an account holding
      `balance`, where `sameHolder` says whether both accounts have the same
      holder name. The rules run in this order: enough balance; the limit
      between different holders; no transfer between equal holders; then the
      debit's own checks (so a negative amount is refused by the debit, and
      only when the holders differ). */
  function TransferOutcome(balance: real, sameHolder: bool, amount: real): (r: Outcome)
    ensures r == Ok <==> !sameHolder && 0.0 <= amount <= TRANSFER_LIMIT && amount <= balance
    ensures balance < amount ==> r == Fail(Business(InsufficientForTransfer))
    ensures amount <= balance && !sameHolder && amount > TRANSFER_LIMIT ==>
      r == Fail(Business(TransferOverLimit))
    ensures amount <= balance && sameHolder ==> r == Fail(Business(SameHolder))
    ensures amount <= balance && !sameHolder && amount <= TRANSFER_LIMIT ==>
      r == DebitOutcome(balance, amount)
    ensures r.Fail? && r.error.Validation? ==>
      r == Fail(Validation(NegativeDebit)) && amount < 0.0 && !sameHolder
  {
    if balance >= amount then
      if !sameHolder && amount > TRANSFER_LIMIT then Fail(Business(TransferOverLimit))
      else if sameHolder then Fail(Business(SameHolder))
      else
        var debit := DebitOutcome(balance, amount);
        if debit.Fail? then debit else CreditOutcome(amount)
    else
      Fail(Business(InsufficientForTransfer))
  }

  class BankAccount {
    const accountNumber: string
    var balance: real
    const holderName: string
    const accountType: string
    const dateOpened: int

    /** What holds of every account from opening onwards. */
    ghost predicate Valid()
      reads this
    {
      balance >= 0.0 && accountType != FORBIDDEN_TYPE && ParsesAsInt64(accountNumber)
    }

    /** Stores the inputs once every opening check has passed. */
    constructor (accountNumber: string, initialBalance: real, holderName: string,
                 accountType: string, dateOpened: int, earliest: int, now: int)
      requires OpeningCheck(accountNumber, initialBalance, accountType, dateOpened, earliest, now) == Ok
      ensures Valid()
      ensures this.accountNumber == accountNumber && balance == initialBalance
      ensures this.holderName == holderName && this.accountType == accountType
      ensures this.dateOpened == dateOpened
    {
      this.accountNumber := accountNumber;
      balance := initialBalance;
      this.holderName := holderName;
      this.accountType := accountType;
      this.dateOpened := dateOpened;
    }

    /** Opens an account, or reports the first opening check that fails.
        `earliest` is the clock minus 80 years and `now` the clock, as read
        by the two date checks. */
    static method Open(accountNumber: string, initialBalance: real, holderName: string,
                       accountType: string, dateOpened: int, earliest: int, now: int)
      returns (r: Result<BankAccount>)
      ensures r.Failure? <==>
        OpeningCheck(accountNumber, initialBalance, accountType, dateOpened, earliest, now) != Ok
      ensures r.Failure? ==>
        OpeningCheck(accountNumber, initialBalance, accountType, dateOpened, earliest, now) == Fail(r.error)
      ensures r.Success? ==> fresh(r.value) && r.value.Valid()
      ensures r.Success? ==>
        r.value.accountNumber == accountNumber && r.value.balance == initialBalance &&
        r.value.holderName == holderName && r.value.accountType == accountType &&
        r.value.dateOpened == dateOpened
    {
      var check := OpeningCheck(accountNumber, initialBalance, accountType, dateOpened, earliest, now);
      if check.Fail? {
        return Failure(check.error);
      }
      var account := new BankAccount(accountNumber, initialBalance, holderName, accountType,
                                     dateOpened, earliest, now);
      return Success(account);
    }

    /** Adds a non-negative amount to the balance. */
    method Credit(amount: real) returns (r: Outcome)
      requires Valid()
      modifies this
      ensures Valid()
      ensures r == CreditOutcome(amount)
      ensures r == Ok ==> balance == old(balance) + amount
      ensures r != Ok ==> balance == old(balance)
    {
      if amount < 0.0 {
        return Fail(Validation(NegativeCredit));
      }
      balance := balance + amount;
      return Ok;
    }

    /** Subtracts a non-negative amount that the balance covers. */
    method Debit(amount: real) returns (r: Outcome)
      requires Valid()
      modifies this
      ensures Valid()
      ensures r == DebitOutcome(old(balance), amount)
      ensures r == Ok ==> balance == old(balance) - amount
      ensures r != Ok ==> balance == old(balance)
    {
      if amount < 0.0 {
        return Fail(Validation(NegativeDebit));
      }
      if balance >= amount {
        balance := balance - amount;
        return Ok;
      } else {
        return Fail(Business(InsufficientForDebit));
      }
    }

    /** The current balance. */
    function GetBalance(): (b: real)
      reads this
      ensures b == balance
      ensures Valid() ==> b >= 0.0
    {
      balance
    }

    /** Moves `amount` from this account to `to`: the debit here runs before
        the credit there, and a failure leaves both balances as they were. */
    method Transfer(to: BankAccount, amount: real) returns (r: Outcome)
      requires Valid() && to.Valid()
      modifies this, to
      ensures Valid() && to.Valid()
      ensures r == TransferOutcome(old(balance), holderName == to.holderName, amount)
      ensures r == Ok ==> to != this
      ensures r == Ok ==> balance == old(balance) - amount && to.balance == old(to.balance) + amount
      ensures r == Ok ==> balance + to.balance == old(balance) + old(to.balance)
      ensures r != Ok ==> balance == old(balance) && to.balance == old(to.balance)
    {
      if balance >= amount {
        if holderName != to.holderName && amount > TRANSFER_LIMIT {
          return Fail(Business(TransferOverLimit));
        }
        if holderName == to.holderName {
          return Fail(Business(SameHolder));
        }
        r := Debit(amount);
        if r.Fail? {
          return;
        }
        r := to.Credit(amount);
      } else {
        return Fail(Business(InsufficientForTransfer));
      }
    }

    /** The interest the balance earns at `rate`; the rate is not checked. */
    function CalculateInterest(rate: real): (interest: real)
      reads this
      ensures interest == GetBalance() * rate
      ensures balance >= 0.0 && rate >= 0.0 ==> interest >= 0.0
      ensures balance >= 0.0 && rate <= 0.0 ==> interest <= 0.0
    {
      assert balance >= 0.0 && rate >= 0.0 ==> balance * rate >= 0.0;
      assert balance >= 0.0 && rate <= 0.0 ==> balance * rate <= 0.0;
      balance * rate
    }
  }
}
