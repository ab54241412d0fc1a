# BasicPaymentApp in Dafny

A model of the payment dispatcher `BasicPaymentApp`, with proofs about it.

`processPayment(paymentType, amount)` compares the tag `paymentType`, by exact
string equality and in order, with `"CREDIT_CARD"`, `"BANK_TRANSFER"` and
`"E_WALLET"`. It calls the routine of the first literal that matches. Any
other tag throws `PaymentException("Payment method not supported.")`. Each
routine throws its own "Invalid amount for … payment." exception when
`amount <= 0`. Otherwise it prints one line, "Payment of $<amount> processed
via <method>.". `main` issues three calls inside one `try`, so the first
exception skips the calls after it.

Everything is in `payment_app.dfy`, module `BasicPaymentApp`. The code is
pure and keeps no state, so the model has no classes and no loops:

- `PaymentException` is a datatype that carries a message.
- A call's result is an `Outcome`. `Ok(receipt)` means the routine returned
  normally, and the `Receipt` (method and amount) stands for the line it
  printed. `Failed(exception)` means it threw.
- `SuccessLine` gives the text of that line. The text Java makes for the
  amount is passed in as a string, and `PrintedLines` takes that rendering as
  a function parameter.
- `RunBatch` models a run of calls inside one `try`. It returns the receipts
  printed, in order, and the exception the `catch` received, if any.
  `MainRequests` holds the three calls of `main`.

The code uses one exception class, `PaymentException`, and tells its two
causes (unsupported method, invalid amount) apart only by message, with a
different invalid-amount message for each method. `MessagesIdentifyCause`
proves that the four messages are pairwise distinct.

## Model

| member | source | states |
|---|---|---|
| BasicPaymentApp.ProcessCreditCardPayment | KodeAsli/src/BasicPaymentApp.java:19-24 | succeeds exactly when amount > 0, with a Credit Card receipt for that amount; otherwise fails with "Invalid amount for credit card payment." |
| BasicPaymentApp.ProcessBankTransferPayment | KodeAsli/src/BasicPaymentApp.java:27-32 | succeeds exactly when amount > 0, with a Bank Transfer receipt for that amount; otherwise fails with "Invalid amount for bank transfer payment." |
| BasicPaymentApp.ProcessEWalletPayment | KodeAsli/src/BasicPaymentApp.java:35-40 | succeeds exactly when amount > 0, with an E-Wallet receipt for that amount; otherwise fails with "Invalid amount for e-wallet payment." |
| BasicPaymentApp.Routine | KodeAsli/src/BasicPaymentApp.java:6-11 | the routine each method selects applies the same rule: success iff amount > 0, receipt naming that method and amount, else that method's invalid-amount message |
| BasicPaymentApp.ProcessPayment | KodeAsli/src/BasicPaymentApp.java:5-16 | an unknown tag fails with "Payment method not supported." for every amount; a tag equal to a method's literal gives exactly that method's routine; success iff the tag is known and amount > 0, and the receipt names the method whose literal is the tag and carries the input amount |
| BasicPaymentApp.TagSelectsOneMethod | KodeAsli/src/BasicPaymentApp.java:6-11 | two methods have the same tag literal iff they are the same method, so no tag selects two routines |
| BasicPaymentApp.UnknownTagWinsOverInvalidAmount | KodeAsli/src/BasicPaymentApp.java:6-22 | an unknown tag with amount <= 0 fails with the unsupported-method message and with no invalid-amount message, since the tag is checked first |
| BasicPaymentApp.MessagesIdentifyCause | KodeAsli/src/BasicPaymentApp.java:14-37 | the invalid-amount messages of two methods are equal iff the methods are, and none equals the unsupported-method message |
| BasicPaymentApp.ExactMatching | KodeAsli/src/BasicPaymentApp.java:6-14 | a call that fails with "Payment method not supported." had a tag equal to none of the three literals; with `ProcessPayment`'s first clause, unsupported iff unknown |
| BasicPaymentApp.SuccessLine | KodeAsli/src/BasicPaymentApp.java:23-39 | the line has length of its parts plus 28, starts with "Payment of $" and ends with the method's name and "." |
| BasicPaymentApp.SuccessLineInjective | KodeAsli/src/BasicPaymentApp.java:23-39 | two equal success lines name the same method and the same rendered amount |
| BasicPaymentApp.PrintedLines | KodeAsli/src/BasicPaymentApp.java:48-51 | one line per receipt, in order: the success line of the receipt's method and rendered amount |
| BasicPaymentApp.RunBatch | KodeAsli/src/BasicPaymentApp.java:48-54 | every printed receipt is the result of the call at that position; with no exception every call printed; with an exception it comes from the call right after the printed ones |
| BasicPaymentApp.StopsAtFirstFailureIsUnique | KodeAsli/src/BasicPaymentApp.java:48-54 | any result that stops at the first failure equals RunBatch, so its contract determines it |
| BasicPaymentApp.SingleCall | KodeAsli/src/BasicPaymentApp.java:20-23 | a call alone prints exactly one line when it succeeds and none when it throws |
| BasicPaymentApp.FailureStopsLaterCalls | KodeAsli/src/BasicPaymentApp.java:48-54 | once a run has thrown, calls appended after it change neither the lines printed nor the exception caught |
| BasicPaymentApp.CompletedRunContinues | KodeAsli/src/BasicPaymentApp.java:48-54 | after a run without an exception, the following calls print their lines after its lines and the exception caught is theirs |
| BasicPaymentApp.RepeatedRequest | KodeAsli/src/BasicPaymentApp.java:5-16 | the same call made twice prints the same receipt twice, or throws the first time and skips the second |
| BasicPaymentApp.MainRequests | KodeAsli/src/BasicPaymentApp.java:49-51 | the calls of `main`, CREDIT_CARD 150, E_WALLET 200, BANK_TRANSFER 300 in that order: three calls, each with a known tag and a positive amount, no tag repeated |
| BasicPaymentApp.MainRunsAllThree | KodeAsli/src/BasicPaymentApp.java:43-55 | `main` prints the Credit Card 150, E-Wallet 200 and Bank Transfer 300 lines in that order, and its `catch` is not reached |

## Left out

- Console output. `System.out.println` and `e.printStackTrace()` become returned values: receipts, lines and the caught exception.
- Java's text form of a `double` in `"$" + amount`. `SuccessLine` takes the rendered text as a parameter, and `PrintedLines` takes the rendering function as one.
- IEEE `double` semantics. The amount is a mathematical `real`. In Java `NaN <= 0` is false, so a NaN amount passes validation and prints a line. Infinities and `-0.0` are not modelled either.
- A `null` tag. In Java `paymentType.equals(...)` throws a `NullPointerException`, not a `PaymentException`. Dafny strings cannot be null.
- Java's `Exception` hierarchy and stack traces. An exception is modelled only by its message.
- The refactored version (`Tugas RPLBK-Kode Refactor/src/PaymentApp.java`), with its strategy interface and registry map, is not part of this model.
- Determinism of `processPayment` (same inputs, same outcome) holds because Dafny functions are deterministic. `RepeatedRequest` states what it means for two identical calls in one run.
