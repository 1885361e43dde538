# BankAccount, modelled in Dafny

This project models the `BankAccount` class of the BankAccountApp: one account record
with a fixed identity (account number, holder name, account type, opening date) and a
balance. The balance changes only through `Credit`, `Debit` and `Transfer`. Every
operation first runs its checks, in a fixed order, and each check either lets the
operation through or rejects it. A rejection is one of two kinds:

- a **validation** error, which the C# code throws as `ArgumentException` (bad input);
- a **business** error, which it throws as a plain `Exception` (a business rule).

Files:

- `bank_account.dfy`, module `BankAccounts`. The class `BankAccount` has a mutable
  `balance: real` field and `const` identity fields. `Valid()` is the object
  invariant: the balance is non-negative, the type is not `"Checking"`, and the account
  number parses. Each check chain is a pure function: `OpeningCheck`, `CreditOutcome`,
  `DebitOutcome` and `TransferOutcome`. Each gives the verdict of its chain, and its
  contract states which error each input gets. The methods `Open`, `Credit`, `Debit`
  and `Transfer` return that verdict as an `Outcome` (`Ok`, or `Fail` with the error).
  They update the balances in place. `GetBalance` and `CalculateInterest` are functions
  that read the object.
- `int64_parsing.dfy`, module `Int64Parsing`. This models the `long.TryParse` call the
  constructor uses to check the account number. It accepts optional white space, an
  optional `+` or `-`, then one or more ASCII digits whose value fits in 64 bits.
- `scenarios.dfy`, module `BankAccountScenarios`. The unit tests' scenarios, written as
  callers that prove each test's expected outcome from the contracts alone.

Exceptions become returned values. The constructor becomes the static method `Open`,
which returns `Success(account)` or `Failure(error)`. The clock is not read. The
constructor reads `DateTime.Now` twice: once at line 20 for the 80-year limit and once
at line 25 for the future-date check. These two reads become the parameters `earliest`
(the clock minus 80 years) and `now`. Timestamps are integers (ticks).

The message at BankAccountClass/BankAccount.cs:32 says the account number "must contain
only numbers", but the check at line 30 only asks `long.TryParse` to succeed. That
parse also accepts surrounding white space and a leading sign: `" -42\t"` and `"+7"`
pass (lemma `SignAndWhiteSpaceAccepted`, and `PaddedNumber` for all inputs). The model
follows the check, not the message.

## Model

| member | source | states |
|---|---|---|
| `Int64Parsing.ParseInt64` | BankAccountClass/BankAccount.cs:30 | the account-number parse: any value it accepts lies within the signed 64-bit range |
| `Int64Parsing.DigitsValue` | BankAccountClass/BankAccount.cs:30 | the decimal value of an n-digit string is below 10^n |
| `Int64Parsing.TrimWhite` | BankAccountClass/BankAccount.cs:30 | the parse ignores white space at both ends: the trimmed text is empty exactly when the input is all white space, and otherwise it starts and ends with a character that is not white space |
| `Int64Parsing.PaddedNumber` | BankAccountClass/BankAccount.cs:30 | digits with an optional `+` or `-`, padded with any white space on both sides, parse to their signed value when it lies within the 64-bit range, and are rejected when it does not |
| `Int64Parsing.DigitStringParses` | BankAccountClass/BankAccount.cs:30 | every string of 1 to 18 decimal digits is accepted as an account number, with its decimal value |
| `Int64Parsing.NonDigitRejected` | BankAccountClass/BankAccount.cs:30-33 | a character anywhere that is not a digit, not white space and not a sign makes the parse fail |
| `BankAccounts.OpeningCheck` | BankAccountClass/BankAccount.cs:15-37 | opening succeeds exactly when all five conditions hold; every failure is a validation error; each error is reported exactly when its check fails and every earlier check passed (type, too old, future date, number, negative balance) |
| `BankAccounts.BankAccount.constructor` | BankAccountClass/BankAccount.cs:38-42 | after the checks pass, the account stores the inputs verbatim, its balance is the initial balance, and it satisfies the invariant |
| `BankAccounts.BankAccount.Open` | BankAccountClass/BankAccount.cs:13-43 | opening fails exactly when a check fails, with that check's error; on success it yields a new valid account that holds the inputs and the initial balance |
| `BankAccounts.CreditOutcome` | BankAccountClass/BankAccount.cs:47-50 | a credit is accepted exactly when the amount is non-negative; otherwise it is the negative-credit validation error |
| `BankAccounts.BankAccount.Credit` | BankAccountClass/BankAccount.cs:45-52 | on success the balance rises by exactly the amount; on failure it is unchanged; the non-negative balance invariant is kept |
| `BankAccounts.DebitOutcome` | BankAccountClass/BankAccount.cs:56-68 | a debit is accepted exactly when 0 <= amount <= balance; a negative amount is the validation error, checked first; an amount above the balance is the business error |
| `BankAccounts.BankAccount.Debit` | BankAccountClass/BankAccount.cs:54-69 | on success the balance falls by exactly the amount; on failure it is unchanged; the balance never goes negative |
| `BankAccounts.BankAccount.GetBalance` | BankAccountClass/BankAccount.cs:71-74 | returns the current balance, which is non-negative for every valid account |
| `BankAccounts.TransferOutcome` | BankAccountClass/BankAccount.cs:78-96 | a transfer is accepted exactly when the holders differ and 0 <= amount <= min(500, balance). Insufficient balance is reported first. Next comes the limit for different holders. Equal holders then always fail, for any amount that passed the first check. A validation error arises only through the debit, for a negative amount between different holders |
| `BankAccounts.BankAccount.Transfer` | BankAccountClass/BankAccount.cs:76-97 | the verdict is `TransferOutcome` of the old balance. On success the source loses exactly the amount, the target gains exactly it, and the two accounts are distinct, so the sum of the two balances is unchanged. On any failure neither balance changes. Both invariants are kept |
| `BankAccounts.BankAccount.CalculateInterest` | BankAccountClass/BankAccount.cs:105-108 | returns balance times rate with no check on the rate; for a non-negative balance its sign follows the rate's |
| `BankAccountScenarios.AccountNumbers` | BankAccount.UnitTests/BankAccountTest.cs:167-171 | "12345" and "67890" parse to 12345 and 67890; "12345A" is rejected |
| `BankAccountScenarios.SignAndWhiteSpaceAccepted` | BankAccountClass/BankAccount.cs:30 | an account number with surrounding white space or a leading sign is accepted |
| `BankAccountScenarios.OpeningRejections` | BankAccount.UnitTests/BankAccountTest.cs:149-198 | the type "Checking", a date older than the limit, the number "12345A", a balance of -100 and a future date are each rejected, with the validation error of their own check |
| `BankAccountScenarios.OpenSavings` | BankAccount.UnitTests/BankAccountTest.cs:18 | a savings account with a number that parses, a non-negative balance and a date between the limits always opens |
| `BankAccountScenarios.BalanceScenario` | BankAccount.UnitTests/BankAccountTest.cs:87-98 | a new account with 1000 reports a balance of 1000 |
| `BankAccountScenarios.CreditScenario` | BankAccount.UnitTests/BankAccountTest.cs:14-25 | crediting 500 to 1000 gives 1500 |
| `BankAccountScenarios.DebitScenarios` | BankAccount.UnitTests/BankAccountTest.cs:27-48 | debiting 1500 from 1000 is the business error and changes nothing; debiting 500 then leaves 500 |
| `BankAccountScenarios.NegativeAmountScenarios` | BankAccount.UnitTests/BankAccountTest.cs:100-118 | crediting or debiting -500 is a validation error and leaves the balance at 1000 |
| `BankAccountScenarios.TransferScenarios` | BankAccount.UnitTests/BankAccountTest.cs:50-85 | 1500 from 1000 fails for lack of funds, not the limit; 600 exceeds the limit; 500 leaves 500 and 1000 |
| `BankAccountScenarios.NegativeTransferScenario` | BankAccount.UnitTests/BankAccountTest.cs:120-129 | -500 between different holders is the validation error raised by the debit |
| `BankAccountScenarios.SameHolderScenario` | BankAccount.UnitTests/BankAccountTest.cs:179-188 | a transfer between two accounts of the same holder is the same-holder business error, also for a negative amount |
| `BankAccountScenarios.CreditThenDebit` | BankAccountClass/BankAccount.cs:45-69 | a debit of a just-credited amount restores the balance; a negative amount is refused by both, each with its own validation error |
| `BankAccountScenarios.TransferAndBack` | BankAccountClass/BankAccount.cs:76-97 | a transfer within the limit between different holders, followed by the same transfer back, succeeds both times and restores both balances |
| `BankAccountScenarios.SelfTransfer` | BankAccountClass/BankAccount.cs:78-88 | a transfer from an account to itself always fails with a business error and changes nothing |

## Left out

- `PrintStatement` (BankAccountClass/BankAccount.cs:99-103): it writes a line to the
  console, and the line depends on .NET's double-to-string formatting.
- Exception message texts: only the error kind and the check that produced it are modelled.
- IEEE double arithmetic: the balance and the amounts are exact `real`s. So the model
  has no rounding in `Balance += amount`, and no NaN or infinity. In the C# code, a NaN
  initial balance or credit passes the `< 0` checks, and a NaN debit or transfer fails
  as "insufficient balance". None of this is modelled.
- Reading the clock and `AddYears(-80)` calendar arithmetic: both results are parameters.
- `long.TryParse` details: the model fixes the invariant culture's `+` and `-` signs
  (the real sign strings depend on the current culture). It also leaves out .NET's
  acceptance of trailing NUL characters and the `null` string (Dafny strings are never null).
- Null references: Dafny's `BankAccount` and `string` types are never null. So the model
  has no `Transfer` to a null target account. In the C# code, that call throws a
  `NullReferenceException` at BankAccountClass/BankAccount.cs:80 when the balance covers
  the amount, and "insufficient balance for transfer" otherwise.
- Null holder names and account types are not modelled either. The constructor would
  accept both (`null == "Checking"` is false at line 15). A null holder name equals only
  another null in the holder comparisons at lines 80 and 85.
- Out of scope: the commented-out rounding in `GetBalance`, the unit-test harness and
  its console redirection.
