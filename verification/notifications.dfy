/**
 * The notification processor: given a notification document from PagSeguro, find the order
 * it refers to and apply the status it reports (refund, cancellation, state change or
 * history comment, invoice capture), then save the payment and the order.
 */
module Notifications {
  import opened Wrappers
  import opened Status
  import opened Orders

  /** The error element of a notification document. */
  datatype GatewayError = GatewayError(code: string, message: string)

  /**
   * The fields of a notification document the processor reads. Absent elements are None;
   * the status is the integer cast of the status element (0 when it is absent).
   */
  datatype Payload = Payload(
    error: Option<GatewayError>,
    reference: Option<string>,
    status: int,
    cancellationSource: Option<string>,
    grossAmount: Option<string>,
    code: Option<string>)

  /** The exceptions the processor throws. */
  datatype NotificationError =
    | PaymentProblem(code: string, message: string)
    | ReferenceNotFound

  /** How a call ends: processed, skipped because the order does not exist, or thrown. */
  datatype Outcome =
    | Processed
    | OrderNotFound(reference: string)
    | Failed(error: NotificationError)

  const PaymentProblemPrefix: string := "Problemas ao processar seu pagamento. "
  const ReferenceNotFoundText: string := "Invalid return. Order reference not found."
  const ReturnedComment: string := "Returned: Amount returned to buyer."
  const InternalCancellationSuffix: string := " PagSeguro itself denied or canceled the transaction."
  const ExternalCancellationSuffix: string := "The transaction was denied or canceled by the bank."
  const CapturedPrefix: string := "Captured payment. Transaction Identifier: "
  const PaymentReceivedComment: string := "Payment received successfully."

  /** The text of an exception: a gateway error carries both its message and its code. */
  function ErrorText(e: NotificationError): (t: string)
    ensures e.PaymentProblem? ==>
      var k := |PaymentProblemPrefix|;
      |t| == k + |e.message| + |e.code| + 2 &&
      t[..k] == PaymentProblemPrefix &&
      t[k..k + |e.message|] == e.message &&
      t[k + |e.message|] == '(' &&
      t[k + |e.message| + 1..|t| - 1] == e.code &&
      t[|t| - 1] == ')'
    ensures e.ReferenceNotFound? ==> t == ReferenceNotFoundText
  {
    match e
    case PaymentProblem(code, message) => PaymentProblemPrefix + message + "(" + code + ")"
    case ReferenceNotFound => ReferenceNotFoundText
  }

  /**
   * The text added to the status-7 message: one for each of the two documented cancellation
   * sources, and none for any other source.
   */
  function CancellationSuffix(source: string): (suffix: string)
    ensures source == "INTERNAL" ==> suffix == InternalCancellationSuffix
    ensures source == "EXTERNAL" ==> suffix == ExternalCancellationSuffix
    ensures suffix == "" <==> source != "INTERNAL" && source != "EXTERNAL"
  {
    if source == "INTERNAL" then InternalCancellationSuffix
    else if source == "EXTERNAL" then ExternalCancellationSuffix
    else ""
  }

  /**
   * The message the handler records: the resolved message, extended by the source's text only
   * for status 7 with a cancellation source.
   */
  function NotificationMessage(p: Payload, ps: ProcessedState): (m: string)
    ensures ps.message <= m
    ensures !(p.status == 7 && p.cancellationSource.Some?) ==> m == ps.message
    ensures p.status == 7 && p.cancellationSource == Some("INTERNAL") ==> m == ps.message + InternalCancellationSuffix
    ensures p.status == 7 && p.cancellationSource == Some("EXTERNAL") ==> m == ps.message + ExternalCancellationSuffix
  {
    if p.status == 7 && p.cancellationSource.Some? then ps.message + CancellationSuffix(p.cancellationSource.value)
    else ps.message
  }

  /** The invoice comment; an absent transaction code reads as the empty string. */
  function CapturedComment(code: Option<string>): string {
    CapturedPrefix + (if code.Some? then code.value else "")
  }

  function InvoiceCreatedComment(incrementId: string): string {
    "Invoice # " + incrementId + " successfully created."
  }

  /**
   * Status 6: release the hold if possible, then cancel if the released order can be
   * cancelled, or else register the refund.
   */
  function RefundCalls(v: OrderView, p: Payload): seq<Action> {
    if p.status != 6 then []
    else
      (if v.CanUnhold() then [Unhold] else []) +
      (if v.CancellableWhenReleased() then [Cancel, SaveOrder]
       else [RegisterRefundNotification(p.grossAmount), AddStatusHistoryComment(ReturnedComment), SaveOrder])
  }

  /** Status 7 with a cancellation source: cancel, whatever the source. */
  function CancellationCalls(p: Payload): seq<Action> {
    if p.status == 7 && p.cancellationSource.Some? then [Cancel] else []
  }

  /** Set the resolved state and save (never for status 6), or else only comment. */
  function StateCalls(p: Payload, ps: ProcessedState, message: string): seq<Action>
    requires ps.stateChanged ==> ps.state.Some?
  {
    if ps.stateChanged then
      (if p.status != 6 then [SetState(ps.state.value, message, ps.isCustomerNotified), SaveOrder] else [])
    else [AddStatusHistoryComment(message)]
  }

  /** Status 3 on an order without invoices: capture a paid invoice. */
  function InvoiceCalls(v: OrderView, p: Payload, sendInvoiceEmail: bool, invoiceId: string): seq<Action> {
    if p.status == 3 && !v.HasInvoices() then
      PreparedInvoiceCalls(p, sendInvoiceEmail, invoiceId) + StoredInvoiceCalls(p, invoiceId)
    else []
  }

  /**
   * The calls the processor makes on an order it found, in order. `sendInvoiceEmail` is the
   * store's invoice-email setting and `invoiceId` the increment id the store gives a new invoice.
   */
  function Calls(v: OrderView, p: Payload, sendInvoiceEmail: bool, invoiceId: string): (acts: seq<Action>)
    ensures |acts| >= 2 && acts[|acts| - 2..] == [SavePayment, SaveOrder]
  {
    var ps := ProcessStatus(p.status, v.paymentMethod);
    RefundCalls(v, p) + CancellationCalls(p) + StateCalls(p, ps, NotificationMessage(p, ps)) +
    InvoiceCalls(v, p, sendInvoiceEmail, invoiceId) + [SavePayment, SaveOrder]
  }

  /** The order after processing a notification that found it. */
  function Apply(v: OrderView, p: Payload, sendInvoiceEmail: bool, invoiceId: string): OrderView {
    PerformAll(v, Calls(v, p, sendInvoiceEmail, invoiceId))
  }

  /** The processor reaches an order: no gateway error, a reference, and an order under it. */
  predicate FindsOrder(p: Payload, orders: map<string, Order>) {
    p.error.None? && p.reference.Some? && p.reference.value in orders
  }

  /** Lines 101-103: release the hold when the order can be unheld. */
  method ReleaseHold(order: Order)
    modifies order
    ensures order.View() == PerformAll(old(order.View()), if old(order.View()).CanUnhold() then [Unhold] else [])
    ensures !order.View().Held()
  {
    ghost var v0 := order.View();
    var canUnhold := order.CanUnhold();
    if canUnhold {
      order.Unhold();
      PerformAllSnoc(v0, [], Unhold);
    }
  }

  /** Lines 105-113: cancel and save when the order can be cancelled, or else register the refund. */
  method CancelOrRefund(order: Order, amount: Option<string>)
    modifies order
    ensures order.View() == PerformAll(old(order.View()),
      if old(order.View()).CanCancel() then [Cancel, SaveOrder]
      else [RegisterRefundNotification(amount), AddStatusHistoryComment(ReturnedComment), SaveOrder])
    ensures order.invoices == old(order.invoices)
  {
    ghost var v0 := order.View();
    var canCancel := order.CanCancel();
    if canCancel {
      order.Cancel();
      PerformAllSnoc(v0, [], Cancel);
      order.Save();
      PerformAllSnoc(v0, [Cancel], SaveOrder);
    } else {
      order.RegisterRefundNotification(amount);
      PerformAllSnoc(v0, [], RegisterRefundNotification(amount));
      order.AddStatusHistoryComment(ReturnedComment);
      PerformAllSnoc(v0, [RegisterRefundNotification(amount)], AddStatusHistoryComment(ReturnedComment));
      order.Save();
      PerformAllSnoc(v0, [RegisterRefundNotification(amount), AddStatusHistoryComment(ReturnedComment)], SaveOrder);
    }
  }

  /** Lines 100-114 of the processor: the status-6 refund branch. */
  method ApplyRefund(order: Order, p: Payload)
    modifies order
    ensures order.View() == PerformAll(old(order.View()), RefundCalls(old(order.View()), p))
    ensures order.invoices == old(order.invoices)
  {
    ghost var v0 := order.View();
    if p.status == 6 {
      ReleaseHold(order);
      ghost var release: seq<Action> := if v0.CanUnhold() then [Unhold] else [];
      assert order.View().CanCancel() == v0.CancellableWhenReleased();
      CancelOrRefund(order, p.grossAmount);
      ghost var tail: seq<Action> :=
        if v0.CancellableWhenReleased() then [Cancel, SaveOrder]
        else [RegisterRefundNotification(p.grossAmount), AddStatusHistoryComment(ReturnedComment), SaveOrder];
      PerformAllConcat(v0, release, tail);
    }
  }

  /** Lines 116-128: the status-7 cancellation branch; returns the message with its suffix. */
  method ApplyCancellation(order: Order, p: Payload, ps: ProcessedState) returns (message: string)
    modifies order
    ensures message == NotificationMessage(p, ps)
    ensures order.View() == PerformAll(old(order.View()), CancellationCalls(p))
    ensures order.invoices == old(order.invoices)
  {
    message := ps.message;
    if p.status == 7 && p.cancellationSource.Some? {
      var source := p.cancellationSource.value;
      if source == "INTERNAL" {
        message := message + InternalCancellationSuffix;
      } else if source == "EXTERNAL" {
        message := message + ExternalCancellationSuffix;
      }
      order.Cancel();
      PerformAllSnoc(old(order.View()), [], Cancel);
    }
  }

  /** Lines 130-143: set the resolved state and save, or add the message as a comment. */
  method ApplyState(order: Order, p: Payload, ps: ProcessedState, message: string)
    requires ps.stateChanged ==> ps.state.Some?
    modifies order
    ensures order.View() == PerformAll(old(order.View()), StateCalls(p, ps, message))
    ensures order.invoices == old(order.invoices)
  {
    if ps.stateChanged {
      if p.status != 6 {
        order.SetState(ps.state.value, message, ps.isCustomerNotified);
        order.Save();
        PerformAllSnoc(old(order.View()), [SetState(ps.state.value, message, ps.isCustomerNotified)], SaveOrder);
        PerformAllSnoc(old(order.View()), [], SetState(ps.state.value, message, ps.isCustomerNotified));
      }
    } else {
      order.AddStatusHistoryComment(message);
      PerformAllSnoc(old(order.View()), [], AddStatusHistoryComment(message));
    }
  }

  /** The calls that prepare, register and pay a new invoice. */
  function PaidInvoiceCalls(invoiceId: string): seq<Action> {
    [PrepareInvoice(invoiceId), RegisterInvoice, PayInvoice]
  }

  /** The calls that prepare, register, pay, comment and e-mail a new invoice. */
  function PreparedInvoiceCalls(p: Payload, sendInvoiceEmail: bool, invoiceId: string): seq<Action> {
    PaidInvoiceCalls(invoiceId) +
    [AddInvoiceComment(CapturedComment(p.code)), SendInvoiceEmail(sendInvoiceEmail, PaymentReceivedComment)]
  }

  /** The calls that store the new invoice with its order and record it in the history. */
  function StoredInvoiceCalls(p: Payload, invoiceId: string): seq<Action> {
    (if p.code.Some? then [SetInvoiceTransactionId(p.code.value), SaveInvoice] else []) +
    [SaveTransaction, AddStatusHistoryComment(InvoiceCreatedComment(invoiceId))]
  }

  /** Lines 147-148: a new invoice, registered and paid. */
  method PreparePaidInvoice(order: Order, invoiceId: string)
    modifies order
    ensures order.View() == PerformAll(old(order.View()), PaidInvoiceCalls(invoiceId))
  {
    ghost var v0 := order.View();
    order.PrepareInvoice(invoiceId);
    PerformAllSnoc(v0, [], PrepareInvoice(invoiceId));
    order.RegisterInvoice();
    PerformAllSnoc(v0, [PrepareInvoice(invoiceId)], RegisterInvoice);
    order.PayInvoice();
    PerformAllSnoc(v0, [PrepareInvoice(invoiceId), RegisterInvoice], PayInvoice);
  }

  /** Lines 147-154: a new invoice, registered, paid, commented and e-mailed. */
  method PrepareCapturedInvoice(order: Order, p: Payload, sendInvoiceEmail: bool, invoiceId: string)
    modifies order
    ensures order.View() == PerformAll(old(order.View()), PreparedInvoiceCalls(p, sendInvoiceEmail, invoiceId))
  {
    PreparePaidInvoice(order, invoiceId);
    ghost var v1 := order.View();
    var captured := CapturedComment(p.code);
    order.AddInvoiceComment(captured);
    PerformAllSnoc(v1, [], AddInvoiceComment(captured));
    order.SendInvoiceEmail(sendInvoiceEmail, PaymentReceivedComment);
    PerformAllSnoc(v1, [AddInvoiceComment(captured)], SendInvoiceEmail(sendInvoiceEmail, PaymentReceivedComment));
    PerformAllConcat(old(order.View()), PaidInvoiceCalls(invoiceId),
      [AddInvoiceComment(captured), SendInvoiceEmail(sendInvoiceEmail, PaymentReceivedComment)]);
  }

  /** Lines 156-164: the transaction id, the transactional save and the history comment. */
  method StoreCapturedInvoice(order: Order, p: Payload, invoiceId: string)
    modifies order
    ensures order.View() == PerformAll(old(order.View()), StoredInvoiceCalls(p, invoiceId))
  {
    ghost var v0 := order.View();
    ghost var identified: seq<Action> := [];
    if p.code.Some? {
      order.SetInvoiceTransactionId(p.code.value);
      order.SaveInvoice();
      identified := [SetInvoiceTransactionId(p.code.value), SaveInvoice];
      PerformAllSnoc(v0, [], identified[0]);
      PerformAllSnoc(v0, [identified[0]], SaveInvoice);
    }
    ghost var v1 := order.View();
    var created := InvoiceCreatedComment(invoiceId);
    order.SaveTransaction();
    PerformAllSnoc(v1, [], SaveTransaction);
    order.AddStatusHistoryComment(created);
    PerformAllSnoc(v1, [SaveTransaction], AddStatusHistoryComment(created));
    PerformAllConcat(v0, identified, [SaveTransaction, AddStatusHistoryComment(created)]);
  }

  /** Lines 145-166: for status 3, capture a paid invoice unless the order already has one. */
  method CaptureInvoice(order: Order, p: Payload, sendInvoiceEmail: bool, invoiceId: string)
    modifies order
    ensures order.View() == PerformAll(old(order.View()), InvoiceCalls(old(order.View()), p, sendInvoiceEmail, invoiceId))
  {
    ghost var v0 := order.View();
    if p.status == 3 {
      var hasInvoices := order.HasInvoices();
      if !hasInvoices {
        PrepareCapturedInvoice(order, p, sendInvoiceEmail, invoiceId);
        StoreCapturedInvoice(order, p, invoiceId);
        PerformAllConcat(v0, PreparedInvoiceCalls(p, sendInvoiceEmail, invoiceId), StoredInvoiceCalls(p, invoiceId));
        assert InvoiceCalls(v0, p, sendInvoiceEmail, invoiceId) ==
          PreparedInvoiceCalls(p, sendInvoiceEmail, invoiceId) + StoredInvoiceCalls(p, invoiceId);
      }
    }
  }

  /** Apply performs the segments of Calls one after the other. */
  lemma ApplyBySegments(v: OrderView, p: Payload, sendInvoiceEmail: bool, invoiceId: string)
    ensures var ps := ProcessStatus(p.status, v.paymentMethod);
      Apply(v, p, sendInvoiceEmail, invoiceId) ==
      PerformAll(PerformAll(PerformAll(PerformAll(PerformAll(v,
        RefundCalls(v, p)), CancellationCalls(p)), StateCalls(p, ps, NotificationMessage(p, ps))),
        InvoiceCalls(v, p, sendInvoiceEmail, invoiceId)), [SavePayment, SaveOrder])
  {
    var ps := ProcessStatus(p.status, v.paymentMethod);
    var a := RefundCalls(v, p);
    var b := CancellationCalls(p);
    var c := StateCalls(p, ps, NotificationMessage(p, ps));
    var d := InvoiceCalls(v, p, sendInvoiceEmail, invoiceId);
    PerformAllConcat(v, a, b);
    PerformAllConcat(v, a + b, c);
    PerformAllConcat(v, a + b + c, d);
    PerformAllConcat(v, a + b + c + d, [SavePayment, SaveOrder]);
  }

  /** Lines 93-169: the work done on an order the notification found, ending with the two saves. */
  method ProcessOrder(order: Order, p: Payload, sendInvoiceEmail: bool, invoiceId: string)
    modifies order
    ensures order.View() == Apply(old(order.View()), p, sendInvoiceEmail, invoiceId)
  {
    ghost var v0 := order.View();

    var methodCode := order.paymentMethod;
    var processedState := ProcessStatus(p.status, methodCode);

    ApplyRefund(order, p);
    var message := ApplyCancellation(order, p, processedState);
    ApplyState(order, p, processedState, message);
    ghost var v3 := order.View();
    CaptureInvoice(order, p, sendInvoiceEmail, invoiceId);
    assert InvoiceCalls(v3, p, sendInvoiceEmail, invoiceId) == InvoiceCalls(v0, p, sendInvoiceEmail, invoiceId);
    ghost var v4 := order.View();
    order.SavePayment();
    order.Save();
    PerformAllSnoc(v4, [SavePayment], SaveOrder);
    PerformAllSnoc(v4, [], SavePayment);

    ApplyBySegments(v0, p, sendInvoiceEmail, invoiceId);
  }

  /**
   * proccessNotificatonResult. `orders` stands for the store's lookup by increment id: a
   * reference that is not a key is an order without an id.
   */
  method ProcessNotificationResult(p: Payload, orders: map<string, Order>, sendInvoiceEmail: bool, invoiceId: string)
    returns (r: Outcome)
    modifies orders.Values
    ensures p.error.Some? ==> r == Failed(PaymentProblem(p.error.value.code, p.error.value.message))
    ensures p.error.None? && p.reference.None? ==> r == Failed(ReferenceNotFound)
    ensures p.error.None? && p.reference.Some? && p.reference.value !in orders ==> r == OrderNotFound(p.reference.value)
    ensures FindsOrder(p, orders) <==> r == Processed
    ensures FindsOrder(p, orders) ==>
      var order := orders[p.reference.value];
      order.View() == Apply(old(order.View()), p, sendInvoiceEmail, invoiceId) &&
      order.log == old(order.log) + Calls(old(order.View()), p, sendInvoiceEmail, invoiceId)
    ensures forall o :: o in orders.Values && !(FindsOrder(p, orders) && o == orders[p.reference.value]) ==> unchanged(o)
  {
    if p.error.Some? {
      return Failed(PaymentProblem(p.error.value.code, p.error.value.message));
    }
    if p.reference.None? {
      return Failed(ReferenceNotFound);
    }
    var orderNo := p.reference.value;
    if orderNo !in orders {
      return OrderNotFound(orderNo);
    }
    var order := orders[orderNo];
    ProcessOrder(order, p, sendInvoiceEmail, invoiceId);
    r := Processed;
  }
}
