/** The unit-test scenarios of the account, stated as what a caller can prove
    from the account's contracts alone. A test that opens an account "now"
    reads the clock for the opening date before the constructor reads it for
    the earliest allowed date (the clock minus 80 years) and for the latest
    one, which is what `earliest <= opening <= now` below says. */
module BankAccountScenarios {
  import opened Int64Parsing
  import opened BankAccounts

  /** The decimal values of the two account numbers the tests use. */
  lemma TestNumberValues()
    ensures AllDigits("12345") && DigitsValue("12345") == 12345
    ensures AllDigits("67890") && DigitsValue("67890") == 67890
  {
    assert DigitsValue("1") == 1;
    DigitsValueAppend("1", '2');
    assert "1" + ['2'] == "12";
    DigitsValueAppend("12", '3');
    assert "12" + ['3'] == "123";
    DigitsValueAppend("123", '4');
    assert "123" + ['4'] == "1234";
    DigitsValueAppend("1234", '5');
    assert "1234" + ['5'] == "12345";
    assert DigitsValue("6") == 6;
    DigitsValueAppend("6", '7');
    assert "6" + ['7'] == "67";
    DigitsValueAppend("67", '8');
    assert "67" + ['8'] == "678";
    DigitsValueAppend("678", '9');
    assert "678" + ['9'] == "6789";
    DigitsValueAppend("6789", '0');
    assert "6789" + ['0'] == "67890";
  }

  /** The account numbers the tests use, and the one they reject. */
  lemma AccountNumbers()
    ensures ParseInt64("12345") == Some(12345)
    ensures ParseInt64("67890") == Some(67890)
    ensures ParseInt64("12345A") == None
  {
    TestNumberValues();
    DigitStringParses("12345");
    DigitStringParses("67890");
    NonDigitRejected("12345A", 5);
  }

  /** Account numbers that are not made of digits alone but still parse:
      white space around the number and a leading sign are accepted. */
  lemma SignAndWhiteSpaceAccepted()
    ensures ParseInt64(" -42\t") == Some(-42)
    ensures ParseInt64("+7") == Some(7)
  {
    assert LeadingWhite(" -42\t") == 1;
    assert TrailingWhite(" -42\t") == 1;
    assert TrimWhite(" -42\t") == "-42";
    assert AllDigits("42");
    assert DigitsValue("42") == 42 by {
      assert DigitsValue("4") == 4;
    }
    assert TrimWhite("+7") == "+7";
    assert AllDigits("7");
    assert DigitsValue("7") == 7;
  }

  /** Each of the constructor tests that expects a rejection gets the argument
      error of the failing check. */
  lemma OpeningRejections(opening: int, earliest: int, now: int, past: int, future: int)
    requires earliest <= opening <= now
    requires past < earliest
    requires earliest <= future && now < future
    ensures OpeningCheck("12345", 1000.0, "Checking", opening, earliest, now)
      == Fail(Validation(CheckingNotAllowed))
    ensures OpeningCheck("12345", 1000.0, "Savings", past, earliest, now)
      == Fail(Validation(OpenedTooLongAgo))
    ensures OpeningCheck("12345A", 1000.0, "Savings", opening, earliest, now)
      == Fail(Validation(AccountNumberNotNumeric))
    ensures OpeningCheck("12345", -100.0, "Savings", opening, earliest, now)
      == Fail(Validation(NegativeInitialBalance))
    ensures OpeningCheck("12345", 1000.0, "Savings", future, earliest, now)
      == Fail(Validation(OpenedInFuture))
  {
    AccountNumbers();
  }

  /** Opens a savings account like the one most tests start from: with a
      number that parses, a non-negative balance and a date between the
      limits, opening cannot fail. */
  method OpenSavings(accountNumber: string, initialBalance: real, holderName: string,
                     opening: int, earliest: int, now: int)
    returns (account: BankAccount)
    requires ParsesAsInt64(accountNumber)
    requires initialBalance >= 0.0
    requires earliest <= opening <= now
    ensures fresh(account) && account.Valid()
    ensures account.balance == initialBalance && account.holderName == holderName
  {
    var r := BankAccount.Open(accountNumber, initialBalance, holderName, "Savings",
                              opening, earliest, now);
    account := r.value;
  }

  /** A new account reports its initial balance. */
  method BalanceScenario(opening: int, earliest: int, now: int) returns (balance: real)
    requires earliest <= opening <= now
    ensures balance == 1000.0
  {
    AccountNumbers();
    var account := OpenSavings("12345", 1000.0, "John Doe", opening, earliest, now);
    balance := account.GetBalance();
  }

  /** Crediting 500 to 1000 gives 1500. */
  method CreditScenario(opening: int, earliest: int, now: int) returns (balance: real)
    requires earliest <= opening <= now
    ensures balance == 1500.0
  {
    AccountNumbers();
    var account := OpenSavings("12345", 1000.0, "John Doe", opening, earliest, now);
    var r := account.Credit(500.0);
    balance := account.GetBalance();
  }

  /** Debiting 500 from 1000 leaves 500; debiting 1500 from 1000 is refused
      by rule and leaves 1000. */
  method DebitScenarios(opening: int, earliest: int, now: int)
    returns (afterDebit: real, overdraft: Outcome, afterOverdraft: real)
    requires earliest <= opening <= now
    ensures afterDebit == 500.0
    ensures overdraft == Fail(Business(InsufficientForDebit)) && afterOverdraft == 1000.0
  {
    AccountNumbers();
    var account := OpenSavings("12345", 1000.0, "John Doe", opening, earliest, now);
    overdraft := account.Debit(1500.0);
    afterOverdraft := account.GetBalance();
    var r := account.Debit(500.0);
    afterDebit := account.GetBalance();
  }

  /** Crediting or debiting -500 is refused as bad input and changes nothing. */
  method NegativeAmountScenarios(opening: int, earliest: int, now: int)
    returns (negativeCredit: Outcome, negativeDebit: Outcome, balance: real)
    requires earliest <= opening <= now
    ensures negativeCredit == Fail(Validation(NegativeCredit))
    ensures negativeDebit == Fail(Validation(NegativeDebit))
    ensures balance == 1000.0
  {
    AccountNumbers();
    var account := OpenSavings("12345", 1000.0, "John Doe", opening, earliest, now);
    negativeCredit := account.Credit(-500.0);
    negativeDebit := account.Debit(-500.0);
    balance := account.GetBalance();
  }

  /** John Doe with 1000 pays Jane Doe with 500: 1500 is refused for want of
      funds before the limit is looked at; 600 is over the limit; 500 moves. */
  method TransferScenarios(opening: int, earliest: int, now: int)
    returns (tooMuch: Outcome, overLimit: Outcome, fromBalance: real, toBalance: real)
    requires earliest <= opening <= now
    ensures tooMuch == Fail(Business(InsufficientForTransfer))
    ensures overLimit == Fail(Business(TransferOverLimit))
    ensures fromBalance == 500.0 && toBalance == 1000.0
  {
    AccountNumbers();
    var from := OpenSavings("12345", 1000.0, "John Doe", opening, earliest, now);
    var to := OpenSavings("67890", 500.0, "Jane Doe", opening, earliest, now);
    tooMuch := from.Transfer(to, 1500.0);
    overLimit := from.Transfer(to, 600.0);
    var r := from.Transfer(to, 500.0);
    fromBalance, toBalance := from.GetBalance(), to.GetBalance();
  }

  /** A transfer of -500 between different holders passes the transfer's own
      rules and is refused by the debit, as bad input. */
  method NegativeTransferScenario(opening: int, earliest: int, now: int) returns (r: Outcome)
    requires earliest <= opening <= now
    ensures r == Fail(Validation(NegativeDebit))
  {
    AccountNumbers();
    var from := OpenSavings("12345", 1000.0, "John Doe", opening, earliest, now);
    var to := OpenSavings("67890", 500.0, "Jane Doe", opening, earliest, now);
    r := from.Transfer(to, -500.0);
  }

  /** A transfer between two accounts of John Doe is refused by rule, and so
      is a negative one, which never reaches the debit. */
  method SameHolderScenario(opening: int, earliest: int, now: int)
    returns (r: Outcome, negative: Outcome)
    requires earliest <= opening <= now
    ensures r == Fail(Business(SameHolder))
    ensures negative == Fail(Business(SameHolder))
  {
    AccountNumbers();
    var from := OpenSavings("12345", 1000.0, "John Doe", opening, earliest, now);
    var to := OpenSavings("67890", 500.0, "John Doe", opening, earliest, now);
    r := from.Transfer(to, 500.0);
    negative := from.Transfer(to, -500.0);
  }

  /** A debit of what was just credited undoes the credit; a negative amount
      is refused by both. */
  method CreditThenDebit(account: BankAccount, amount: real) returns (credit: Outcome, debit: Outcome)
    requires account.Valid()
    modifies account
    ensures amount >= 0.0 ==> credit == Ok && debit == Ok
    ensures amount < 0.0 ==>
      credit == Fail(Validation(NegativeCredit)) && debit == Fail(Validation(NegativeDebit))
    ensures account.Valid() && account.balance == old(account.balance)
  {
    credit := account.Credit(amount);
    debit := account.Debit(amount);
  }

  /** A transfer within the limit between different holders, followed by the
      same transfer back, restores both balances. */
  method TransferAndBack(from: BankAccount, to: BankAccount, amount: real)
    returns (there: Outcome, back: Outcome)
    requires from.Valid() && to.Valid() && from.holderName != to.holderName
    requires 0.0 <= amount <= TRANSFER_LIMIT && amount <= from.balance
    modifies from, to
    ensures there == Ok && back == Ok
    ensures from.balance == old(from.balance) && to.balance == old(to.balance)
  {
    there := from.Transfer(to, amount);
    back := to.Transfer(from, amount);
  }

  /** A transfer from an account to itself always fails and changes nothing. */
  method SelfTransfer(account: BankAccount, amount: real) returns (r: Outcome)
    requires account.Valid()
    modifies account
    ensures r.Fail? && r.error.Business?
    ensures account.balance == old(account.balance)
  {
    r := account.Transfer(account, amount);
  }
}
