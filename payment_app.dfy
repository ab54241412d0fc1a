/**
 A model of the payment dispatcher `BasicPaymentApp`.

 `processPayment` selects one of three routines by comparing a string tag
 with three literals; each routine accepts only a positive amount and then
 prints one success line naming its payment method. Errors are the
 exception `PaymentException`, which carries only a message. Here an
 exception is a value, a printed success line is a returned `Receipt`, and
 the batch of calls that `main` issues inside one `try` is `RunBatch`.
 */
module BasicPaymentApp {

  datatype Option<+T> = None | Some(value: T)

  /** The three payment methods the dispatcher knows. */
  datatype Method = CreditCard | BankTransfer | EWallet

  /** The checked exception `PaymentException`: it carries a message and nothing else. */
  datatype PaymentException = PaymentException(message: string)

  /** What a successful routine prints: the method it selected and the amount paid. */
  datatype Receipt = Receipt(via: Method, amount: real)

  /** One call of `processPayment`: it either returns normally, having printed a
      receipt, or throws. */
  datatype Outcome = Ok(receipt: Receipt) | Failed(exception: PaymentException)

  /** One call issued inside `main`'s `try` block. */
  datatype Request = Request(tag: string, amount: real)

  /** What a run of calls inside one `try` leaves behind: the lines printed, in
      order, and the exception the `catch` received, if any. */
  datatype BatchResult = BatchResult(receipts: seq<Receipt>, caught: Option<PaymentException>)

  // ---------------------------------------------------------------------------
  // Constants of the source
  // ---------------------------------------------------------------------------

  /** The tag literal that selects each method. */
  function TagOf(m: Method): string
  {
    match m
    case CreditCard => "CREDIT_CARD"
    case BankTransfer => "BANK_TRANSFER"
    case EWallet => "E_WALLET"
  }

  /** The name of each method in its success line. */
  function MethodName(m: Method): string
  {
    match m
    case CreditCard => "Credit Card"
    case BankTransfer => "Bank Transfer"
    case EWallet => "E-Wallet"
  }

  /** The message thrown for an unrecognised tag. */
  const UnsupportedMessage: string := "Payment method not supported."

  /** The message each routine throws for an amount that is not positive. */
  function InvalidAmountMessage(m: Method): string
  {
    match m
    case CreditCard => "Invalid amount for credit card payment."
    case BankTransfer => "Invalid amount for bank transfer payment."
    case EWallet => "Invalid amount for e-wallet payment."
  }

  /** A tag is known when it is exactly the literal of some method. */
  predicate IsKnownTag(tag: string)
  {
    tag == TagOf(CreditCard) || tag == TagOf(BankTransfer) || tag == TagOf(EWallet)
  }

  // ---------------------------------------------------------------------------
  // The three routines
  // ---------------------------------------------------------------------------

  /** `processCreditCardPayment`: the amount must be greater than 0. */
  function ProcessCreditCardPayment(amount: real): (r: Outcome)
    ensures r.Ok? <==> amount > 0.0
    ensures r.Ok? ==> r.receipt.via == CreditCard && r.receipt.amount == amount
    ensures r.Failed? ==> r.exception.message == "Invalid amount for credit card payment."
  {
    if amount <= 0.0 then Failed(PaymentException("Invalid amount for credit card payment."))
    else Ok(Receipt(CreditCard, amount))
  }

  /** `processBankTransferPayment`: the amount must be greater than 0. */
  function ProcessBankTransferPayment(amount: real): (r: Outcome)
    ensures r.Ok? <==> amount > 0.0
    ensures r.Ok? ==> r.receipt.via == BankTransfer && r.receipt.amount == amount
    ensures r.Failed? ==> r.exception.message == "Invalid amount for bank transfer payment."
  {
    if amount <= 0.0 then Failed(PaymentException("Invalid amount for bank transfer payment."))
    else Ok(Receipt(BankTransfer, amount))
  }

  /** `processEWalletPayment`: the amount must be greater than 0. */
  function ProcessEWalletPayment(amount: real): (r: Outcome)
    ensures r.Ok? <==> amount > 0.0
    ensures r.Ok? ==> r.receipt.via == EWallet && r.receipt.amount == amount
    ensures r.Failed? ==> r.exception.message == "Invalid amount for e-wallet payment."
  {
    if amount <= 0.0 then Failed(PaymentException("Invalid amount for e-wallet payment."))
    else Ok(Receipt(EWallet, amount))
  }

  /** The routine that belongs to each method. All three apply the same rule and
      differ only in the method they name. */
  function Routine(m: Method, amount: real): (r: Outcome)
    ensures r.Ok? <==> amount > 0.0
    ensures r.Ok? ==> r.receipt == Receipt(m, amount)
    ensures r.Failed? ==> r.exception == PaymentException(InvalidAmountMessage(m))
  {
    match m
    case CreditCard => ProcessCreditCardPayment(amount)
    case BankTransfer => ProcessBankTransferPayment(amount)
    case EWallet => ProcessEWalletPayment(amount)
  }

  // ---------------------------------------------------------------------------
  // The dispatcher
  // ---------------------------------------------------------------------------

  /** `processPayment`: compare the tag, in order, with the three literals and
      run the first routine that matches; throw for any other tag. The tag is
      examined before the amount. */
  function ProcessPayment(tag: string, amount: real): (r: Outcome)
    ensures !IsKnownTag(tag) ==> r == Failed(PaymentException("Payment method not supported."))
    ensures forall m :: TagOf(m) == tag ==> r == Routine(m, amount)
    ensures r.Ok? <==> IsKnownTag(tag) && amount > 0.0
    ensures r.Ok? ==> TagOf(r.receipt.via) == tag && r.receipt.amount == amount
  {
    if tag == "CREDIT_CARD" then
      assert TagOf(CreditCard) == tag;
      ProcessCreditCardPayment(amount)
    else if tag == "BANK_TRANSFER" then
      assert TagOf(BankTransfer) == tag;
      ProcessBankTransferPayment(amount)
    else if tag == "E_WALLET" then
      assert TagOf(EWallet) == tag;
      ProcessEWalletPayment(amount)
    else Failed(PaymentException(UnsupportedMessage))
  }

  /** No tag selects two routines: distinct methods have distinct tags. */
  lemma TagSelectsOneMethod(m1: Method, m2: Method)
    ensures TagOf(m1) == TagOf(m2) <==> m1 == m2
  {
    if m1 != m2 {
      // the tags already differ in their first character
      assert TagOf(m1)[0] != TagOf(m2)[0];
    }
  }

  /** The tag check comes first: an unknown tag is reported as unsupported
      even for an amount that no routine would accept. */
  lemma UnknownTagWinsOverInvalidAmount(tag: string, amount: real)
    requires !IsKnownTag(tag) && amount <= 0.0
    ensures ProcessPayment(tag, amount).Failed?
    ensures ProcessPayment(tag, amount).exception.message == UnsupportedMessage
    ensures forall m :: ProcessPayment(tag, amount).exception.message != InvalidAmountMessage(m)
  {
    forall m ensures UnsupportedMessage != InvalidAmountMessage(m) {
      MessagesIdentifyCause(m, m);
    }
  }

  /** The message of an exception tells its cause: each invalid-amount message
      names one method, and none of them is the unsupported-method message. */
  lemma MessagesIdentifyCause(m1: Method, m2: Method)
    ensures InvalidAmountMessage(m1) == InvalidAmountMessage(m2) <==> m1 == m2
    ensures InvalidAmountMessage(m1) != UnsupportedMessage
  {
    assert InvalidAmountMessage(m1)[0] != UnsupportedMessage[0];
    if m1 != m2 {
      // "Invalid amount for " is shared; the next character differs
      assert InvalidAmountMessage(m1)[19] != InvalidAmountMessage(m2)[19];
    }
  }

  /** Matching is exact: the unsupported-method exception comes only from a
      tag that is none of the three literals. With the first `ensures` of
      `ProcessPayment`, a tag is unsupported if and only if it is unknown. */
  lemma ExactMatching(tag: string, amount: real)
    requires ProcessPayment(tag, amount) == Failed(PaymentException(UnsupportedMessage))
    ensures !IsKnownTag(tag)
  {
    forall m ensures InvalidAmountMessage(m) != UnsupportedMessage {
      MessagesIdentifyCause(m, m);
    }
  }

  // ---------------------------------------------------------------------------
  // Success lines
  // ---------------------------------------------------------------------------

  /** The line a routine prints, given the text Java renders for the amount. */
  function SuccessLine(amountText: string, m: Method): (line: string)
    ensures |line| == |amountText| + |MethodName(m)| + 28
    ensures line[..12] == "Payment of $"
    ensures line[|line| - |MethodName(m)| - 1..] == MethodName(m) + "."
  {
    "Payment of $" + amountText + " processed via " + MethodName(m) + "."
  }

  /** A success line determines the method and the rendered amount it was
      printed for. */
  lemma {:induction false} SuccessLineInjective(x1: string, m1: Method, x2: string, m2: Method)
    requires SuccessLine(x1, m1) == SuccessLine(x2, m2)
    ensures m1 == m2 && x1 == x2
  {
    var line := SuccessLine(x1, m1);
    // the character before the final '.' is 'd', 'r' or 't', one per method
    assert line[|line| - 2] == MethodName(m1)[|MethodName(m1)| - 1];
    assert line[|line| - 2] == MethodName(m2)[|MethodName(m2)| - 1];
    assert m1 == m2;
    assert |x1| == |x2|;
    forall i | 0 <= i < |x1| ensures x1[i] == x2[i] {
      assert line[12 + i] == x1[i];
      assert SuccessLine(x2, m2)[12 + i] == x2[i];
    }
  }

  /** The lines printed for a run's receipts, with `render` standing for Java's
      text form of a `double`. */
  function PrintedLines(render: real -> string, receipts: seq<Receipt>): (lines: seq<string>)
    ensures |lines| == |receipts|
    ensures forall i :: 0 <= i < |lines| ==> lines[i] == SuccessLine(render(receipts[i].amount), receipts[i].via)
  {
    if receipts == [] then []
    else [SuccessLine(render(receipts[0].amount), receipts[0].via)] + PrintedLines(render, receipts[1..])
  }

  // ---------------------------------------------------------------------------
  // A batch of calls inside one `try`
  // ---------------------------------------------------------------------------

  function Submit(q: Request): Outcome
  {
    ProcessPayment(q.tag, q.amount)
  }

  /** The calls are run in order until the first that throws; that exception
      goes to the `catch`, and no call after it runs. */
  ghost predicate StopsAtFirstFailure(reqs: seq<Request>, r: BatchResult)
  {
    && |r.receipts| <= |reqs|
    && (forall i :: 0 <= i < |r.receipts| ==> Submit(reqs[i]) == Ok(r.receipts[i]))
    && (r.caught.None? ==> |r.receipts| == |reqs|)
    && (r.caught.Some? ==> |r.receipts| < |reqs| && Submit(reqs[|r.receipts|]) == Failed(r.caught.value))
  }

  /** Issue the calls one after another inside one `try`. */
  function RunBatch(reqs: seq<Request>): (r: BatchResult)
    ensures StopsAtFirstFailure(reqs, r)
  {
    if reqs == [] then BatchResult([], None)
    else
      match Submit(reqs[0])
      case Failed(e) => BatchResult([], Some(e))
      case Ok(receipt) =>
        var rest := RunBatch(reqs[1..]);
        BatchResult([receipt] + rest.receipts, rest.caught)
  }

  /** The contract of `RunBatch` leaves no choice: any result that stops at
      the first failure is the one `RunBatch` gives. */
  lemma {:induction false} StopsAtFirstFailureIsUnique(reqs: seq<Request>, r: BatchResult)
    requires StopsAtFirstFailure(reqs, r)
    ensures r == RunBatch(reqs)
  {
    var s := RunBatch(reqs);
    var k, n := |r.receipts|, |s.receipts|;
    if r.caught.Some? {
      assert Submit(reqs[k]).Failed?;
    }
    if s.caught.Some? {
      assert Submit(reqs[n]).Failed?;
    }
    assert k == n;
    forall i | 0 <= i < k ensures r.receipts[i] == s.receipts[i] {
      assert Submit(reqs[i]) == Ok(r.receipts[i]);
    }
    assert r.receipts == s.receipts;
    if r.caught.Some? {
      assert Submit(reqs[k]) == Failed(s.caught.value);
    }
  }

  /** One call alone prints a line exactly when it succeeds; a failing call
      prints nothing, since each routine checks before it prints. */
  lemma SingleCall(q: Request)
    ensures Submit(q).Ok? ==> RunBatch([q]) == BatchResult([Submit(q).receipt], None)
    ensures Submit(q).Failed? ==> RunBatch([q]) == BatchResult([], Some(Submit(q).exception))
  {
    assert [q][1..] == [];
  }

  /** Once a call has thrown, appending more calls changes nothing: they never run. */
  lemma {:induction false} FailureStopsLaterCalls(a: seq<Request>, b: seq<Request>)
    requires RunBatch(a).caught.Some?
    ensures RunBatch(a + b) == RunBatch(a)
  {
    assert a != [];
    assert (a + b)[0] == a[0];
    if Submit(a[0]).Ok? {
      assert (a + b)[1..] == a[1..] + b;
      FailureStopsLaterCalls(a[1..], b);
    }
  }

  /** When a run completes without an exception, the calls after it run as if
      they were on their own, and their lines follow its lines. */
  lemma CompletedRunContinues(a: seq<Request>, b: seq<Request>)
    requires RunBatch(a).caught.None?
    ensures RunBatch(a + b) == BatchResult(RunBatch(a).receipts + RunBatch(b).receipts, RunBatch(b).caught)
  {
    var ra, rb := RunBatch(a), RunBatch(b);
    var r := BatchResult(ra.receipts + rb.receipts, rb.caught);
    forall i | 0 <= i < |r.receipts| ensures Submit((a + b)[i]) == Ok(r.receipts[i]) {
      if i < |a| {
        assert (a + b)[i] == a[i];
      } else {
        assert (a + b)[i] == b[i - |a|];
      }
    }
    if r.caught.Some? {
      assert (a + b)[|r.receipts|] == b[|rb.receipts|];
    }
    StopsAtFirstFailureIsUnique(a + b, r);
  }

  /** The same call made twice gives the same outcome twice: processPayment
      keeps no state between calls. */
  lemma RepeatedRequest(q: Request)
    ensures Submit(q).Ok? ==> RunBatch([q, q]) == BatchResult([Submit(q).receipt, Submit(q).receipt], None)
    ensures Submit(q).Failed? ==> RunBatch([q, q]) == BatchResult([], Some(Submit(q).exception))
  {
    assert [q, q][1..] == [q];
    SingleCall(q);
  }

  // ---------------------------------------------------------------------------
  // main
  // ---------------------------------------------------------------------------

  /** The three calls `main` issues, in order. */
  function MainRequests(): (reqs: seq<Request>)
    ensures |reqs| == 3
    ensures forall i :: 0 <= i < |reqs| ==> IsKnownTag(reqs[i].tag) && reqs[i].amount > 0.0
    ensures reqs[0].tag != reqs[1].tag && reqs[1].tag != reqs[2].tag && reqs[0].tag != reqs[2].tag
  {
    [Request("CREDIT_CARD", 150.0), Request("E_WALLET", 200.0), Request("BANK_TRANSFER", 300.0)]
  }

  /** `main` prints three success lines, in call order, and its `catch` is never reached. */
  lemma MainRunsAllThree(render: real -> string)
    ensures RunBatch(MainRequests()) ==
      BatchResult([Receipt(CreditCard, 150.0), Receipt(EWallet, 200.0), Receipt(BankTransfer, 300.0)], None)
    ensures PrintedLines(render, RunBatch(MainRequests()).receipts) ==
      [ SuccessLine(render(150.0), CreditCard),
        SuccessLine(render(200.0), EWallet),
        SuccessLine(render(300.0), BankTransfer) ]
  {
    var reqs := MainRequests();
    assert reqs[1..] == [Request("E_WALLET", 200.0), Request("BANK_TRANSFER", 300.0)];
    assert reqs[1..][1..] == [Request("BANK_TRANSFER", 300.0)];
    assert reqs[1..][1..][1..] == [];
  }
}
