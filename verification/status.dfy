/**
 * The status resolver of the PagSeguro notification handler: a total mapping from a
 * gateway transaction status code and the order's payment-method code to the way an
 * order should be affected (target state, flags and the message for the order history).
 */
module Status {
  import opened Wrappers

  /** Magento order states. */
  datatype OrderState =
    | New
    | PendingPayment
    | PaymentReview
    | Processing
    | Complete
    | Closed
    | Canceled
    | Holded

  /** The payment-method codes the resolver tests for status 1. */
  const CreditCardMethod: string := "pagseguro_cc"
  const RmCreditCardMethod: string := "rm_pagseguro_cc"

  /**
   * History messages, one per status code, written as the label and the text after it.
   * Where the PHP literal spans two lines the break is a single space here.
   */
  const AwaitingPaymentMessage: string :=
    "Awaiting payment:" + " the buyer initiated the transaction, but so far PagSeguro has not received any payment information."
  const UnderReviewMessage: string :=
    "Under review:" + " the buyer chose to pay with a credit card and PagSeguro is analyzing the risk of the transaction."
  const PaidMessage: string :=
    "Pay:" + " the transaction was paid by the buyer and PagSeguro has already received a confirmation of the financial institution responsible for processing."
  const AvailableMessage: string :=
    "Available:" + " The transaction has been paid and has reached the end of its has been returned and there is no open dispute"
  const InDisputeMessage: string :=
    "In dispute:" + " the buyer, within the term of release of the transaction, opened a dispute."
  const ReturnedMessage: string :=
    "Returned:" + " The transaction amount was returned to the buyer."
  const CanceledMessage: string :=
    "Canceled:" + " The transaction was canceled without being finalized."
  const InvalidStatusPrefix: string :=
    "Invalid" + " status code returned by PagSeguro. ("

  /** What a status code means for an order; `state` is None where the resolver sets no state. */
  datatype ProcessedState = ProcessedState(
    state: Option<OrderState>,
    stateChanged: bool,
    isCustomerNotified: bool,
    isTransactionPending: bool,
    message: string)

  /** The status codes PagSeguro documents. */
  predicate IsKnownStatus(statusCode: int) {
    1 <= statusCode <= 7
  }

  /** The target state of each status code that has one, as a table. */
  const TargetStates: map<int, OrderState> :=
    map[1 := PendingPayment, 2 := PaymentReview, 3 := Processing, 5 := Processing, 6 := Closed, 7 := Canceled]

  function DigitChar(d: nat): char
    requires d < 10
  {
    "0123456789"[d]
  }

  /** Decimal digits of a natural number, most significant first, without leading zeros. */
  function Digits(n: nat): (s: string)
    ensures |s| >= 1
    ensures forall i :: 0 <= i < |s| ==> '0' <= s[i] <= '9'
    ensures s[0] == '0' ==> n == 0
  {
    if n < 10 then [DigitChar(n)] else Digits(n / 10) + [DigitChar(n % 10)]
  }

  /** The number a string of decimal digits denotes. */
  function DigitsValue(s: string): nat
    requires forall i :: 0 <= i < |s| ==> '0' <= s[i] <= '9'
  {
    if s == [] then 0 else DigitsValue(s[..|s| - 1]) * 10 + (s[|s| - 1] as int - '0' as int)
  }

  lemma {:induction false} DigitsRoundTrip(n: nat)
    ensures DigitsValue(Digits(n)) == n
  {
    if n >= 10 {
      var s := Digits(n);
      assert s[..|s| - 1] == Digits(n / 10);
      DigitsRoundTrip(n / 10);
    }
  }

  /**
   * PHP's conversion of an integer to a decimal string: a minus sign exactly for negative
   * numbers, then the digits of the magnitude, which read back as that magnitude, with no
   * leading zero except for zero itself.
   */
  function IntToString(i: int): (s: string)
    ensures |s| >= 1
    ensures s[0] == '-' <==> i < 0
    ensures i >= 0 ==> (forall k :: 0 <= k < |s| ==> '0' <= s[k] <= '9') && DigitsValue(s) == i
    ensures i < 0 ==> (forall k :: 1 <= k < |s| ==> '0' <= s[k] <= '9') && DigitsValue(s[1..]) == -i
    ensures i >= 0 ==> (s[0] == '0' ==> i == 0)
    ensures i < 0 ==> |s| >= 2 && s[1] != '0'
  {
    if i < 0 then
      DigitsRoundTrip(-i);
      assert ("-" + Digits(-i))[1..] == Digits(-i);
      "-" + Digits(-i)
    else
      DigitsRoundTrip(i);
      Digits(i)
  }

  function InvalidStatusMessage(statusCode: int): string {
    InvalidStatusPrefix + IntToString(statusCode) + ")"
  }

  /**
   * The default-case message is the fixed prefix, then the code as PHP prints it (which reads
   * back as the code), then a closing parenthesis.
   */
  lemma InvalidStatusMessageParts(statusCode: int)
    ensures var m := InvalidStatusMessage(statusCode);
      var k := |InvalidStatusPrefix|;
      && |m| > k + 1
      && m[..k] == InvalidStatusPrefix
      && m[|m| - 1] == ')'
      && (m[k] == '-' <==> statusCode < 0)
      && (statusCode >= 0 ==> DigitsValue(m[k..|m| - 1]) == statusCode)
      && (statusCode < 0 ==> DigitsValue(m[k + 1..|m| - 1]) == -statusCode)
      && (statusCode >= 0 ==> (m[k] == '0' ==> statusCode == 0))
      && (statusCode < 0 ==> |m| > k + 2 && m[k + 1] != '0')
  {
    var m := InvalidStatusMessage(statusCode);
    var k := |InvalidStatusPrefix|;
    assert m[k..|m| - 1] == IntToString(statusCode);
    assert m[k + 1..|m| - 1] == IntToString(statusCode)[1..];
  }

  /**
   * processStatus: starts from stateChanged = true and pending = true and overrides per code.
   * For status 1 the customer is notified unless the method is "pagseguro_cc", while the
   * state change is suppressed when the method is "rm_pagseguro_cc" (two different codes).
   */
  lemma TargetStatesTable()
    ensures forall c :: c in TargetStates <==> IsKnownStatus(c) && c != 4
    ensures TargetStates[1] == PendingPayment && TargetStates[2] == PaymentReview
    ensures TargetStates[3] == Processing && TargetStates[5] == Processing
    ensures TargetStates[6] == Closed && TargetStates[7] == Canceled
  {
  }

  function ProcessStatus(statusCode: int, methodCode: string): (r: ProcessedState)
    ensures r.state.Some? <==> statusCode in TargetStates
    ensures r.state.Some? ==> r.state.value == TargetStates[statusCode]
    ensures !r.stateChanged <==>
      statusCode == 4 || !IsKnownStatus(statusCode) || (statusCode == 1 && methodCode == RmCreditCardMethod)
    ensures r.stateChanged ==> r.state.Some?
    ensures !r.isTransactionPending <==> 3 <= statusCode <= 6
    ensures r.isCustomerNotified <==>
      statusCode == 2 || statusCode == 3 || statusCode == 7 || (statusCode == 1 && methodCode != CreditCardMethod)
    ensures !IsKnownStatus(statusCode) ==> r.message == InvalidStatusMessage(statusCode)
  {
    TargetStatesTable();
    match statusCode
    case 1 => ProcessedState(Some(PendingPayment), methodCode != RmCreditCardMethod,
                             methodCode != CreditCardMethod, true, AwaitingPaymentMessage)
    case 2 => ProcessedState(Some(PaymentReview), true, true, true, UnderReviewMessage)
    case 3 => ProcessedState(Some(Processing), true, true, false, PaidMessage)
    case 4 => ProcessedState(None, false, false, false, AvailableMessage)
    case 5 => ProcessedState(Some(Processing), true, false, false, InDisputeMessage)
    case 6 => ProcessedState(Some(Closed), true, false, false, ReturnedMessage)
    case 7 => ProcessedState(Some(Canceled), true, true, true, CanceledMessage)
    case _ => ProcessedState(None, false, false, true, InvalidStatusMessage(statusCode))
  }

  /** Distinct numbers have distinct digits, since the digits read back as the number. */
  lemma DigitsInjective(a: nat, b: nat)
    requires Digits(a) == Digits(b)
    ensures a == b
  {
    DigitsRoundTrip(a);
    DigitsRoundTrip(b);
  }

  lemma IntToStringInjective(a: int, b: int)
    requires IntToString(a) == IntToString(b)
    ensures a == b
  {
    var s := IntToString(a);
    if a < 0 {
      assert b < 0 by { assert IntToString(b)[0] == s[0] == '-'; }
      assert s[1..] == Digits(-a) by { assert s == ['-'] + Digits(-a); }
      assert s[1..] == Digits(-b) by { assert s == ['-'] + Digits(-b); }
      DigitsInjective(-a, -b);
    } else {
      assert b >= 0 by { assert IntToString(b)[0] == s[0] != '-'; }
      DigitsInjective(a, b);
    }
  }

  /** The invalid-status message carries the raw code: distinct codes give distinct messages. */
  lemma InvalidStatusMessageInjective(a: int, b: int)
    requires InvalidStatusMessage(a) == InvalidStatusMessage(b)
    ensures a == b
  {
    var m := InvalidStatusMessage(a);
    var k := |InvalidStatusPrefix|;
    assert IntToString(a) == m[k..|m| - 1] == IntToString(b);
    IntToStringInjective(a, b);
  }

  lemma InvalidStatusPrefixStart()
    ensures |InvalidStatusPrefix| >= 4 && InvalidStatusPrefix[..4] == "Inva"
  {
    var word := "Invalid";
    assert InvalidStatusPrefix[..7] == word;
  }

  /** The default-case message starts with the four characters "Inva". */
  lemma InvalidStatusMessageStart(statusCode: int)
    ensures |InvalidStatusMessage(statusCode)| >= 4
    ensures InvalidStatusMessage(statusCode)[..4] == "Inva"
  {
    var m := InvalidStatusMessage(statusCode);
    InvalidStatusMessageParts(statusCode);
    InvalidStatusPrefixStart();
    assert m[..4] == m[..|InvalidStatusPrefix|][..4];
  }

  /** The first three characters of the message of each status code. */
  function MessageHead(statusCode: int): string {
    match statusCode
    case 1 => "Awa"
    case 2 => "Und"
    case 3 => "Pay"
    case 4 => "Ava"
    case 5 => "In "
    case 6 => "Ret"
    case 7 => "Can"
    case _ => "Inv"
  }

  function Head(s: string): string
    requires |s| >= 3
  {
    [s[0], s[1], s[2]]
  }

  lemma MessageHeads()
    ensures Head(AwaitingPaymentMessage) == MessageHead(1)
    ensures Head(UnderReviewMessage) == MessageHead(2)
    ensures Head(PaidMessage) == MessageHead(3)
    ensures Head(AvailableMessage) == MessageHead(4)
    ensures Head(InDisputeMessage) == MessageHead(5)
    ensures Head(ReturnedMessage) == MessageHead(6)
    ensures Head(CanceledMessage) == MessageHead(7)
    ensures forall tail :: Head(InvalidStatusPrefix + tail) == MessageHead(0)
  {
  }

  lemma HeadOfMessage(statusCode: int, methodCode: string)
    ensures |ProcessStatus(statusCode, methodCode).message| >= 3
    ensures Head(ProcessStatus(statusCode, methodCode).message) == MessageHead(statusCode)
  {
    if IsKnownStatus(statusCode) {
      MessageHeads();
    } else {
      var m := InvalidStatusMessage(statusCode);
      assert ProcessStatus(statusCode, methodCode).message == m;
      InvalidStatusMessageStart(statusCode);
      assert Head(m) == [m[..4][0], m[..4][1], m[..4][2]];
    }
  }

  /**
   * The history message identifies the status code: whatever the payment methods,
   * two notifications whose resolved messages agree carried the same status.
   */
  lemma MessageIdentifiesStatus(a: int, b: int, methodA: string, methodB: string)
    requires ProcessStatus(a, methodA).message == ProcessStatus(b, methodB).message
    ensures a == b
  {
    if !IsKnownStatus(a) && !IsKnownStatus(b) {
      InvalidStatusMessageInjective(a, b);
    } else {
      HeadOfMessage(a, methodA);
      HeadOfMessage(b, methodB);
    }
  }
}
