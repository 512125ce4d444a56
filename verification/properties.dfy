/**
 * What the notification processor guarantees, stated over the calls it makes (Calls) and the
 * order it leaves behind (Apply): the refund and cancellation branches, the choice between a
 * state change and a comment, the invoice capture, and what a second delivery of the same
 * notification does.
 */
module NotificationProperties {
  import opened Wrappers
  import opened Status
  import opened Orders
  import opened Notifications

  /** For status 6 the processor makes only the refund calls and the final saves. */
  lemma RefundShape(v: OrderView, p: Payload, sendInvoiceEmail: bool, invoiceId: string)
    requires p.status == 6
    ensures ProcessStatus(p.status, v.paymentMethod).stateChanged
    ensures Calls(v, p, sendInvoiceEmail, invoiceId) == RefundCalls(v, p) + [SavePayment, SaveOrder]
  {
    var ps := ProcessStatus(p.status, v.paymentMethod);
    assert StateCalls(p, ps, NotificationMessage(p, ps)) == [];
  }

  lemma RefundCallsMembers(v: OrderView, p: Payload, acts: seq<Action>)
    requires p.status == 6
    requires acts == RefundCalls(v, p) + [SavePayment, SaveOrder]
    ensures Unhold in acts <==> v.CanUnhold()
    ensures Cancel in acts <==> v.CancellableWhenReleased()
    ensures RegisterRefundNotification(p.grossAmount) in acts <==> !v.CancellableWhenReleased()
    ensures AddStatusHistoryComment(ReturnedComment) in acts <==> !v.CancellableWhenReleased()
    ensures forall a :: a in acts ==> !a.SetState?
  {
  }

  lemma RefundCallsCount(v: OrderView, p: Payload, acts: seq<Action>)
    requires p.status == 6
    requires acts == RefundCalls(v, p) + [SavePayment, SaveOrder]
    ensures multiset(acts)[Cancel] + multiset(acts)[RegisterRefundNotification(p.grossAmount)] == 1
  {
  }

  /**
   * Status 6: the hold is released exactly when the order can be unheld; then the order is
   * either cancelled or refunded with a comment, exactly one of the two; the state is never set,
   * although the resolved state reports a change.
   */
  lemma RefundBranch(v: OrderView, p: Payload, sendInvoiceEmail: bool, invoiceId: string, acts: seq<Action>)
    requires p.status == 6
    requires acts == Calls(v, p, sendInvoiceEmail, invoiceId)
    ensures ProcessStatus(p.status, v.paymentMethod).stateChanged
    ensures Unhold in acts <==> v.CanUnhold()
    ensures Cancel in acts <==> v.CancellableWhenReleased()
    ensures RegisterRefundNotification(p.grossAmount) in acts <==> !v.CancellableWhenReleased()
    ensures multiset(acts)[Cancel] + multiset(acts)[RegisterRefundNotification(p.grossAmount)] == 1
    ensures AddStatusHistoryComment(ReturnedComment) in acts <==> !v.CancellableWhenReleased()
    ensures forall a :: a in acts ==> !a.SetState?
  {
    RefundShape(v, p, sendInvoiceEmail, invoiceId);
    RefundCallsMembers(v, p, acts);
    RefundCallsCount(v, p, acts);
  }

  /** Releasing the hold, if there is one, leaves an unheld order as cancellable as the released one. */
  lemma ReleaseEffect(v: OrderView)
    ensures var u := PerformAll(v, if v.CanUnhold() then [Unhold] else []);
      !u.Held() && u.CanCancel() == v.CancellableWhenReleased() &&
      u.cancelApplied == v.cancelApplied && u.state == v.Released().state
  {
    if v.CanUnhold() {
      PerformAllSnoc(v, [], Unhold);
    }
  }

  /** Cancelling an order that can be cancelled, then saving. */
  lemma CancelTail(u: OrderView)
    requires u.CanCancel()
    ensures var w := PerformAll(u, [Cancel, SaveOrder, SavePayment, SaveOrder]);
      !w.Held() && w.cancelApplied && w.state == Canceled && !w.CancellableWhenReleased()
  {
    var saves: seq<Action> := [SaveOrder, SavePayment, SaveOrder];
    var u1 := Perform(u, Cancel);
    assert PerformAll(u, [Cancel] + saves) == PerformAll(u1, saves);
    assert [Cancel, SaveOrder, SavePayment, SaveOrder] == [Cancel] + saves;
    GuardAfter(u1, saves);
    StateAfter(u1, saves);
    CanceledAfter(u1, saves);
    CancelIsFinal(u1, saves);
  }

  /** Registering the refund on an order that cannot be cancelled, then commenting and saving. */
  lemma RefundTail(u: OrderView, amount: Option<string>)
    requires !u.Held() && !u.CanCancel()
    ensures var w := PerformAll(u, [RegisterRefundNotification(amount), AddStatusHistoryComment(ReturnedComment),
                                    SaveOrder, SavePayment, SaveOrder]);
      !w.Held() && w.cancelApplied == u.cancelApplied && w.state == u.state && !w.CancellableWhenReleased()
  {
    var tail := [RegisterRefundNotification(amount), AddStatusHistoryComment(ReturnedComment),
                 SaveOrder, SavePayment, SaveOrder];
    GuardAfter(u, tail);
    StateAfter(u, tail);
    CanceledAfter(u, tail);
  }

  /**
   * Status 6: the order ends released from any hold. It is cancelled in this run, ending in
   * state Canceled, exactly when it could be cancelled once released; otherwise it ends in the
   * state it had once released. Either way it cannot be cancelled afterwards.
   */
  lemma RefundOutcome(v: OrderView, p: Payload, sendInvoiceEmail: bool, invoiceId: string)
    requires p.status == 6
    ensures var w := Apply(v, p, sendInvoiceEmail, invoiceId);
      && !w.Held()
      && (w.cancelApplied <==> v.cancelApplied || v.CancellableWhenReleased())
      && (v.CancellableWhenReleased() ==> w.state == Canceled)
      && (!v.CancellableWhenReleased() ==> w.state == v.Released().state)
      && !w.CancellableWhenReleased()
  {
    RefundShape(v, p, sendInvoiceEmail, invoiceId);
    var release: seq<Action> := if v.CanUnhold() then [Unhold] else [];
    var tail: seq<Action> :=
      if v.CancellableWhenReleased() then [Cancel, SaveOrder, SavePayment, SaveOrder]
      else [RegisterRefundNotification(p.grossAmount), AddStatusHistoryComment(ReturnedComment),
            SaveOrder, SavePayment, SaveOrder];
    assert RefundCalls(v, p) + [SavePayment, SaveOrder] == release + tail;
    PerformAllConcat(v, release, tail);
    ReleaseEffect(v);
    if v.CancellableWhenReleased() {
      CancelTail(PerformAll(v, release));
    } else {
      RefundTail(PerformAll(v, release), p.grossAmount);
    }
  }

  /** For status 7 the processor makes only the cancellation, the state change and the saves. */
  lemma CancellationShape(v: OrderView, p: Payload, sendInvoiceEmail: bool, invoiceId: string)
    requires p.status == 7
    ensures Calls(v, p, sendInvoiceEmail, invoiceId) ==
      CancellationCalls(p) +
      [SetState(Canceled, NotificationMessage(p, ProcessStatus(p.status, v.paymentMethod)), true), SaveOrder] +
      [SavePayment, SaveOrder]
  {
  }

  /**
   * The status-7 message: the two documented cancellation sources add their text and any other
   * source, or none, leaves the message as it is.
   */
  lemma CancellationMessage(p: Payload, methodCode: string)
    requires p.status == 7
    ensures var m := NotificationMessage(p, ProcessStatus(p.status, methodCode));
      && (p.cancellationSource == Some("INTERNAL") ==> m == CanceledMessage + InternalCancellationSuffix)
      && (p.cancellationSource == Some("EXTERNAL") ==> m == CanceledMessage + ExternalCancellationSuffix)
      && (p.cancellationSource != Some("INTERNAL") && p.cancellationSource != Some("EXTERNAL") ==> m == CanceledMessage)
  {
    if p.cancellationSource.Some? {
      var source := p.cancellationSource.value;
      assert source != "INTERNAL" && source != "EXTERNAL" ==> CancellationSuffix(source) == "";
    }
  }

  lemma CancellationCallsMembers(p: Payload, m: string, acts: seq<Action>)
    requires acts == CancellationCalls(p) + [SetState(Canceled, m, true), SaveOrder] + [SavePayment, SaveOrder]
    ensures Cancel in acts <==> p.status == 7 && p.cancellationSource.Some?
    ensures multiset(acts)[Cancel] <= 1
    ensures SetState(Canceled, m, true) in acts
  {
  }

  /**
   * Setting the Canceled state, whether or not a cancel came first, leaves the order Canceled;
   * a cancel takes effect only when Magento allows it.
   */
  lemma EndsCanceled(v: OrderView, p: Payload, m: string)
    requires p.status == 7
    ensures var w := PerformAll(v, CancellationCalls(p) + [SetState(Canceled, m, true), SaveOrder] + [SavePayment, SaveOrder]);
      w.state == Canceled &&
      (w.cancelApplied <==> v.cancelApplied || (p.cancellationSource.Some? && v.CanCancel()))
  {
    var head := CancellationCalls(p) + [SetState(Canceled, m, true)];
    var tail: seq<Action> := [SaveOrder, SavePayment, SaveOrder];
    assert CancellationCalls(p) + [SetState(Canceled, m, true), SaveOrder] + [SavePayment, SaveOrder] == head + tail;
    PerformAllConcat(v, head, tail);
    PerformAllConcat(v, CancellationCalls(p), [SetState(Canceled, m, true)]);
    StateAfter(PerformAll(v, head), tail);
    CanceledAfter(PerformAll(v, head), tail);
    if p.cancellationSource.Some? {
      PerformAllSnoc(v, [], Cancel);
    }
  }

  /**
   * Status 7: cancel is called exactly when a cancellation source is present, whatever its
   * value, and at most once; it takes effect only when Magento allows it (it has no effect on a
   * held order). The order is then set to Canceled with the message, notifying the customer,
   * and ends in the Canceled state.
   */
  lemma CancellationBranch(v: OrderView, p: Payload, sendInvoiceEmail: bool, invoiceId: string, acts: seq<Action>)
    requires p.status == 7
    requires acts == Calls(v, p, sendInvoiceEmail, invoiceId)
    ensures Cancel in acts <==> p.cancellationSource.Some?
    ensures multiset(acts)[Cancel] <= 1
    ensures SetState(Canceled, NotificationMessage(p, ProcessStatus(p.status, v.paymentMethod)), true) in acts
    ensures Apply(v, p, sendInvoiceEmail, invoiceId).state == Canceled
    ensures Apply(v, p, sendInvoiceEmail, invoiceId).cancelApplied <==>
      v.cancelApplied || (p.cancellationSource.Some? && v.CanCancel())
  {
    var m := NotificationMessage(p, ProcessStatus(p.status, v.paymentMethod));
    CancellationShape(v, p, sendInvoiceEmail, invoiceId);
    CancellationCallsMembers(p, m, acts);
    EndsCanceled(v, p, m);
  }

  lemma InvoiceCommentStart(invoiceId: string)
    ensures |InvoiceCreatedComment(invoiceId)| >= 4 && InvoiceCreatedComment(invoiceId)[..4] == "Invo"
  {
    var word := "Invoice";
    assert InvoiceCreatedComment(invoiceId) == word + (" # " + invoiceId + " successfully created.");
    assert InvoiceCreatedComment(invoiceId)[..7] == word;
  }

  /** The invoice comment cannot be mistaken for a resolved message. */
  lemma InvoiceCommentIsNotMessage(statusCode: int, methodCode: string, invoiceId: string)
    ensures InvoiceCreatedComment(invoiceId) != ProcessStatus(statusCode, methodCode).message
  {
    var c := InvoiceCreatedComment(invoiceId);
    InvoiceCommentStart(invoiceId);
    if IsKnownStatus(statusCode) {
      HeadOfMessage(statusCode, methodCode);
      assert Head(c) == [c[..4][0], c[..4][1], c[..4][2]] == "Inv" != MessageHead(statusCode);
    } else {
      assert ProcessStatus(statusCode, methodCode).message == InvalidStatusMessage(statusCode);
      InvalidStatusMessageStart(statusCode);
    }
  }

  /** For any status but 6 the refund calls are empty. */
  lemma NonRefundShape(v: OrderView, p: Payload, sendInvoiceEmail: bool, invoiceId: string)
    requires p.status != 6
    ensures var ps := ProcessStatus(p.status, v.paymentMethod);
      Calls(v, p, sendInvoiceEmail, invoiceId) ==
      CancellationCalls(p) + StateCalls(p, ps, NotificationMessage(p, ps)) +
      InvoiceCalls(v, p, sendInvoiceEmail, invoiceId) + [SavePayment, SaveOrder]
  {
  }

  /** The invoice calls neither set the state, cancel nor release a hold, and comment only on the new invoice. */
  lemma InvoiceCallsMembers(v: OrderView, p: Payload, sendInvoiceEmail: bool, invoiceId: string)
    ensures InvoiceCalls(v, p, sendInvoiceEmail, invoiceId) != [] ==> p.status == 3
    ensures forall a :: a in InvoiceCalls(v, p, sendInvoiceEmail, invoiceId) ==>
      !a.SetState? && a != Cancel && a != Unhold && (a.AddStatusHistoryComment? ==> a.comment == InvoiceCreatedComment(invoiceId))
  {
  }

  lemma StateCallsMembers(p: Payload, ps: ProcessedState, m: string, invoice: seq<Action>, acts: seq<Action>)
    requires ps.stateChanged ==> ps.state.Some?
    requires p.status != 6
    requires acts == CancellationCalls(p) + StateCalls(p, ps, m) + invoice + [SavePayment, SaveOrder]
    requires forall a :: a in invoice ==> !a.SetState? && a != AddStatusHistoryComment(m)
    ensures ps.stateChanged ==>
      SetState(ps.state.value, m, ps.isCustomerNotified) in acts && AddStatusHistoryComment(m) !in acts
    ensures !ps.stateChanged ==>
      AddStatusHistoryComment(m) in acts && forall a :: a in acts ==> !a.SetState?
  {
  }

  /** After the state calls, the state is the one set, or else the one before the notification. */
  lemma StateAfterCalls(v: OrderView, p: Payload, ps: ProcessedState, m: string, invoice: seq<Action>)
    requires ps.stateChanged ==> ps.state.Some?
    requires p.status != 6
    requires !ps.stateChanged ==> CancellationCalls(p) == []
    requires forall a :: a in invoice ==> !a.SetState? && a != Cancel && a != Unhold
    ensures var w := PerformAll(v, CancellationCalls(p) + StateCalls(p, ps, m) + invoice + [SavePayment, SaveOrder]);
      w.state == if ps.stateChanged then ps.state.value else v.state
  {
    var post := invoice + [SavePayment, SaveOrder];
    assert forall a :: a in post ==> !a.SetState? && a != Cancel && a != Unhold;
    if ps.stateChanged {
      var setter := SetState(ps.state.value, m, ps.isCustomerNotified);
      assert CancellationCalls(p) + StateCalls(p, ps, m) + invoice + [SavePayment, SaveOrder] ==
        CancellationCalls(p) + [setter] + ([SaveOrder] + post);
      SetThenKeep(v, CancellationCalls(p), setter, [SaveOrder] + post);
    } else {
      assert CancellationCalls(p) + StateCalls(p, ps, m) + invoice + [SavePayment, SaveOrder] == [AddStatusHistoryComment(m)] + post;
      StateAfter(v, [AddStatusHistoryComment(m)] + post);
    }
  }

  /** A state set and followed only by calls that keep the state is the final state. */
  lemma SetThenKeep(v: OrderView, before: seq<Action>, setter: Action, after: seq<Action>)
    requires setter.SetState?
    requires forall a :: a in after ==> !a.SetState? && a != Cancel && a != Unhold
    ensures PerformAll(v, before + [setter] + after).state == setter.state
  {
    PerformAllConcat(v, before + [setter], after);
    PerformAllSnoc(v, before, setter);
    StateAfter(PerformAll(v, before + [setter]), after);
  }

  /**
   * Any status but 6: when the resolved state reports a change, the order is set to the target
   * state with the message and notify flag and saved, and the message is not added as a comment;
   * otherwise the message is added as a comment and the state is not set. Exactly one of the two.
   */
  lemma StateOrComment(v: OrderView, p: Payload, sendInvoiceEmail: bool, invoiceId: string, acts: seq<Action>)
    requires p.status != 6
    requires acts == Calls(v, p, sendInvoiceEmail, invoiceId)
    ensures var ps := ProcessStatus(p.status, v.paymentMethod);
      var m := NotificationMessage(p, ps);
      if ps.stateChanged then
        SetState(ps.state.value, m, ps.isCustomerNotified) in acts &&
        AddStatusHistoryComment(m) !in acts &&
        Apply(v, p, sendInvoiceEmail, invoiceId).state == ps.state.value
      else
        AddStatusHistoryComment(m) in acts &&
        (forall a :: a in acts ==> !a.SetState?) &&
        Apply(v, p, sendInvoiceEmail, invoiceId).state == v.state
  {
    var ps := ProcessStatus(p.status, v.paymentMethod);
    var m := NotificationMessage(p, ps);
    var invoice := InvoiceCalls(v, p, sendInvoiceEmail, invoiceId);
    NonRefundShape(v, p, sendInvoiceEmail, invoiceId);
    InvoiceCallsMembers(v, p, sendInvoiceEmail, invoiceId);
    if invoice != [] {
      InvoiceCommentIsNotMessage(p.status, v.paymentMethod, invoiceId);
    }
    StateCallsMembers(p, ps, m, invoice, acts);
    StateAfterCalls(v, p, ps, m, invoice);
  }

  /** The invoice a status-3 notification captures. */
  function CapturedInvoice(p: Payload, invoiceId: string): Invoice {
    Invoice(invoiceId, true, true, [CapturedComment(p.code)], p.code)
  }

  /** Status 3 on an order without invoices: set Processing, build and store the invoice, save. */
  lemma CaptureShape(v: OrderView, p: Payload, sendInvoiceEmail: bool, invoiceId: string)
    requires p.status == 3 && !v.HasInvoices()
    ensures Calls(v, p, sendInvoiceEmail, invoiceId) ==
      [SetState(Processing, PaidMessage, true), SaveOrder] +
      PreparedInvoiceCalls(p, sendInvoiceEmail, invoiceId) + StoredInvoiceCalls(p, invoiceId) +
      [SavePayment, SaveOrder]
  {
    var ps := ProcessStatus(p.status, v.paymentMethod);
    assert ps.stateChanged && ps.state == Some(Processing) && ps.isCustomerNotified && ps.message == PaidMessage;
    assert RefundCalls(v, p) == [] && CancellationCalls(p) == [];
    assert StateCalls(p, ps, NotificationMessage(p, ps)) == [SetState(Processing, PaidMessage, true), SaveOrder];
  }

  /** Preparing, registering and paying the invoice leaves nothing to invoice. */
  lemma PaidEffect(u: OrderView, invoiceId: string)
    ensures var w := PerformAll(u, PaidInvoiceCalls(invoiceId));
      w.draft == Some(Invoice(invoiceId, true, true, [], None)) &&
      w.invoices == u.invoices && w.history == u.history && w.state == u.state && !w.itemsToInvoice
  {
    var calls := PaidInvoiceCalls(invoiceId);
    PerformAllSnoc(u, [], calls[0]);
    PerformAllSnoc(u, [calls[0]], calls[1]);
    PerformAllSnoc(u, [calls[0], calls[1]], calls[2]);
    assert [calls[0]] + [calls[1]] == [calls[0], calls[1]];
    assert [calls[0], calls[1]] + [calls[2]] == calls;
  }

  /** Preparing the invoice fills the draft and leaves the invoices and the history alone. */
  lemma PreparedEffect(u: OrderView, p: Payload, sendInvoiceEmail: bool, invoiceId: string)
    ensures var w := PerformAll(u, PreparedInvoiceCalls(p, sendInvoiceEmail, invoiceId));
      w.draft == Some(Invoice(invoiceId, true, true, [CapturedComment(p.code)], None)) &&
      w.invoices == u.invoices && w.history == u.history && w.state == u.state && !w.itemsToInvoice
  {
    var paid := PaidInvoiceCalls(invoiceId);
    var comment := AddInvoiceComment(CapturedComment(p.code));
    var email := SendInvoiceEmail(sendInvoiceEmail, PaymentReceivedComment);
    assert PreparedInvoiceCalls(p, sendInvoiceEmail, invoiceId) == paid + [comment] + [email];
    PaidEffect(u, invoiceId);
    PerformAllSnoc(u, paid, comment);
    PerformAllSnoc(u, paid + [comment], email);
    assert [] + [CapturedComment(p.code)] == [CapturedComment(p.code)];
  }

  /** Storing a prepared draft appends it, with the transaction code, and records the comment. */
  lemma IdentifiedEffect(u: OrderView, p: Payload, invoiceId: string)
    requires u.draft == Some(Invoice(invoiceId, true, true, [CapturedComment(p.code)], None))
    ensures var u1 := PerformAll(u, if p.code.Some? then [SetInvoiceTransactionId(p.code.value), SaveInvoice] else []);
      u1.draft == Some(CapturedInvoice(p, invoiceId)) && u1.invoices == u.invoices && u1.history == u.history &&
      u1.state == u.state
  {
    if p.code.Some? {
      var identified := [SetInvoiceTransactionId(p.code.value), SaveInvoice];
      PerformAllSnoc(u, [], identified[0]);
      PerformAllSnoc(u, [identified[0]], identified[1]);
      assert identified == [identified[0]] + [identified[1]];
    }
  }

  lemma StoredEffect(u: OrderView, p: Payload, invoiceId: string)
    requires u.draft == Some(Invoice(invoiceId, true, true, [CapturedComment(p.code)], None))
    ensures var w := PerformAll(u, StoredInvoiceCalls(p, invoiceId));
      w.invoices == u.invoices + [CapturedInvoice(p, invoiceId)] &&
      w.history == u.history + [InvoiceCreatedComment(invoiceId)] &&
      w.state == u.state
  {
    var identified := if p.code.Some? then [SetInvoiceTransactionId(p.code.value), SaveInvoice] else [];
    var rest := [SaveTransaction, AddStatusHistoryComment(InvoiceCreatedComment(invoiceId))];
    PerformAllConcat(u, identified, rest);
    var u1 := PerformAll(u, identified);
    IdentifiedEffect(u, p, invoiceId);
    PerformAllSnoc(u1, [], rest[0]);
    PerformAllSnoc(u1, [rest[0]], rest[1]);
    assert rest == [rest[0]] + [rest[1]];
  }

  /** Building, storing and saving the invoice: one invoice and one comment more, same state. */
  lemma CaptureTailEffect(u: OrderView, p: Payload, sendInvoiceEmail: bool, invoiceId: string)
    ensures var w := PerformAll(u, PreparedInvoiceCalls(p, sendInvoiceEmail, invoiceId) +
        StoredInvoiceCalls(p, invoiceId) + [SavePayment, SaveOrder]);
      w.invoices == u.invoices + [CapturedInvoice(p, invoiceId)] &&
      w.history == u.history + [InvoiceCreatedComment(invoiceId)] &&
      w.state == u.state
  {
    var prepared := PreparedInvoiceCalls(p, sendInvoiceEmail, invoiceId);
    var stored := StoredInvoiceCalls(p, invoiceId);
    var saves: seq<Action> := [SavePayment, SaveOrder];
    var u2 := PerformAll(u, prepared);
    var u3 := PerformAll(u2, stored);
    PreparedEffect(u, p, sendInvoiceEmail, invoiceId);
    StoredEffect(u2, p, invoiceId);
    PerformAllConcat(u, prepared + stored, saves);
    PerformAllConcat(u, prepared, stored);
    PerformAllSnoc(u3, [], saves[0]);
    PerformAllSnoc(u3, [saves[0]], saves[1]);
    assert saves == [saves[0]] + [saves[1]];
  }

  /** With every item invoiced, the order cannot be cancelled after the capture. */
  lemma CaptureTailUncancellable(u: OrderView, p: Payload, sendInvoiceEmail: bool, invoiceId: string)
    ensures !PerformAll(u, PreparedInvoiceCalls(p, sendInvoiceEmail, invoiceId) +
        StoredInvoiceCalls(p, invoiceId) + [SavePayment, SaveOrder]).CancellableWhenReleased()
  {
    var prepared := PreparedInvoiceCalls(p, sendInvoiceEmail, invoiceId);
    var rest := StoredInvoiceCalls(p, invoiceId) + [SavePayment, SaveOrder];
    PreparedEffect(u, p, sendInvoiceEmail, invoiceId);
    CancelIsFinal(PerformAll(u, prepared), rest);
    PerformAllConcat(u, prepared, rest);
    assert prepared + StoredInvoiceCalls(p, invoiceId) + [SavePayment, SaveOrder] == prepared + rest;
  }

  /** The effect of the status-3 capture calls on the invoices, the history and the state. */
  lemma CaptureEffect(v: OrderView, p: Payload, sendInvoiceEmail: bool, invoiceId: string)
    ensures var w := PerformAll(v, [SetState(Processing, PaidMessage, true), SaveOrder] +
        PreparedInvoiceCalls(p, sendInvoiceEmail, invoiceId) + StoredInvoiceCalls(p, invoiceId) +
        [SavePayment, SaveOrder]);
      w.invoices == v.invoices + [CapturedInvoice(p, invoiceId)] &&
      w.history == v.history + [InvoiceCreatedComment(invoiceId)] &&
      w.state == Processing && !w.CancellableWhenReleased()
  {
    var setState: seq<Action> := [SetState(Processing, PaidMessage, true), SaveOrder];
    var tail := PreparedInvoiceCalls(p, sendInvoiceEmail, invoiceId) + StoredInvoiceCalls(p, invoiceId) +
      [SavePayment, SaveOrder];
    var u1 := PerformAll(v, setState);
    assert u1.invoices == v.invoices && u1.history == v.history && u1.state == Processing by {
      PerformAllSnoc(v, [], setState[0]);
      PerformAllSnoc(v, [setState[0]], setState[1]);
      assert setState == [setState[0]] + [setState[1]];
    }
    CaptureTailEffect(u1, p, sendInvoiceEmail, invoiceId);
    CaptureTailUncancellable(u1, p, sendInvoiceEmail, invoiceId);
    assert setState + PreparedInvoiceCalls(p, sendInvoiceEmail, invoiceId) + StoredInvoiceCalls(p, invoiceId) +
      [SavePayment, SaveOrder] == setState + tail;
    PerformAllConcat(v, setState, tail);
  }

  /**
   * Status 3 on an order without invoices: exactly one new invoice, registered and paid, with
   * the capture comment and the transaction code as its transaction id; the history gains only
   * the "Invoice # ... successfully created." comment; the order is Processing and, with every
   * item invoiced, can no longer be cancelled.
   */
  lemma InvoiceCapture(v: OrderView, p: Payload, sendInvoiceEmail: bool, invoiceId: string)
    requires p.status == 3 && !v.HasInvoices()
    ensures var w := Apply(v, p, sendInvoiceEmail, invoiceId);
      w.invoices == v.invoices + [CapturedInvoice(p, invoiceId)] &&
      w.history == v.history + [InvoiceCreatedComment(invoiceId)] &&
      w.HasInvoices() &&
      w.state == Processing &&
      !w.CancellableWhenReleased()
  {
    CaptureShape(v, p, sendInvoiceEmail, invoiceId);
    CaptureEffect(v, p, sendInvoiceEmail, invoiceId);
  }

  /** Status 3 on an order that already has an invoice only sets Processing and saves. */
  lemma PaidAgainShape(v: OrderView, p: Payload, sendInvoiceEmail: bool, invoiceId: string)
    requires p.status == 3 && v.HasInvoices()
    ensures Calls(v, p, sendInvoiceEmail, invoiceId) ==
      [SetState(Processing, PaidMessage, true), SaveOrder, SavePayment, SaveOrder]
  {
    var ps := ProcessStatus(p.status, v.paymentMethod);
    assert ps.stateChanged && ps.state == Some(Processing) && ps.message == PaidMessage && ps.isCustomerNotified;
    assert NotificationMessage(p, ps) == PaidMessage;
    assert RefundCalls(v, p) == [] && CancellationCalls(p) == [] && InvoiceCalls(v, p, sendInvoiceEmail, invoiceId) == [];
  }

  /** Those calls neither add an invoice nor a history comment, nor prepare an invoice. */
  lemma PaidAgain(v: OrderView, p: Payload, sendInvoiceEmail: bool, invoiceId: string)
    requires p.status == 3 && v.HasInvoices()
    ensures var w := Apply(v, p, sendInvoiceEmail, invoiceId);
      w.invoices == v.invoices && w.history == v.history &&
      forall a :: a in Calls(v, p, sendInvoiceEmail, invoiceId) ==> !a.PrepareInvoice?
  {
    var acts := Calls(v, p, sendInvoiceEmail, invoiceId);
    PaidAgainShape(v, p, sendInvoiceEmail, invoiceId);
    InvoicesAfter(v, acts);
    HistoryAfter(v, acts);
    NoComments(acts);
  }

  /**
   * A status-3 notification delivered again after it was processed creates no second invoice
   * and adds nothing to the history.
   */
  lemma RedeliveryCapturesOnce(v: OrderView, p: Payload, sendInvoiceEmail: bool, firstId: string, secondId: string)
    requires p.status == 3
    ensures var w1 := Apply(v, p, sendInvoiceEmail, firstId);
      var w2 := Apply(w1, p, sendInvoiceEmail, secondId);
      w2.invoices == w1.invoices &&
      w2.history == w1.history &&
      (forall a :: a in Calls(w1, p, sendInvoiceEmail, secondId) ==> !a.PrepareInvoice?)
  {
    var w1 := Apply(v, p, sendInvoiceEmail, firstId);
    if v.HasInvoices() {
      InvoicesAfter(v, Calls(v, p, sendInvoiceEmail, firstId));
    } else {
      InvoiceCapture(v, p, sendInvoiceEmail, firstId);
    }
    PaidAgain(w1, p, sendInvoiceEmail, secondId);
  }

  /**
   * A status-6 notification delivered again after it was processed makes no cancel call:
   * the order is no longer cancellable, so the refund is registered instead.
   */
  lemma RedeliveryCancelsOnce(v: OrderView, p: Payload, sendInvoiceEmail: bool, firstId: string, secondId: string)
    requires p.status == 6
    ensures var w1 := Apply(v, p, sendInvoiceEmail, firstId);
      var again := Calls(w1, p, sendInvoiceEmail, secondId);
      Cancel !in again && RegisterRefundNotification(p.grossAmount) in again
  {
    RefundOutcome(v, p, sendInvoiceEmail, firstId);
    var w1 := Apply(v, p, sendInvoiceEmail, firstId);
    RefundBranch(w1, p, sendInvoiceEmail, secondId, Calls(w1, p, sendInvoiceEmail, secondId));
  }

  /**
   * A refund notification after the payment was captured: no cancel is called on the invoiced order;
   * the refund is registered instead.
   */
  lemma RefundAfterCapture(v: OrderView, paid: Payload, returned: Payload, sendInvoiceEmail: bool,
                            firstId: string, secondId: string)
    requires paid.status == 3 && !v.HasInvoices() && returned.status == 6
    ensures var w1 := Apply(v, paid, sendInvoiceEmail, firstId);
      var again := Calls(w1, returned, sendInvoiceEmail, secondId);
      Cancel !in again && RegisterRefundNotification(returned.grossAmount) in again
  {
    InvoiceCapture(v, paid, sendInvoiceEmail, firstId);
    var w1 := Apply(v, paid, sendInvoiceEmail, firstId);
    RefundBranch(w1, returned, sendInvoiceEmail, secondId, Calls(w1, returned, sendInvoiceEmail, secondId));
  }

  /** Outside the capture, the processor makes no invoice call at all. */
  lemma NoCaptureCalls(v: OrderView, p: Payload, sendInvoiceEmail: bool, invoiceId: string)
    requires !(p.status == 3 && !v.HasInvoices())
    ensures forall a :: a in Calls(v, p, sendInvoiceEmail, invoiceId) ==> !a.PrepareInvoice? && a != SaveTransaction
  {
    var ps := ProcessStatus(p.status, v.paymentMethod);
    var refund := RefundCalls(v, p);
    var state := StateCalls(p, ps, NotificationMessage(p, ps));
    var rest := CancellationCalls(p) + [SavePayment, SaveOrder];
    assert forall a :: a in refund ==> !a.PrepareInvoice? && a != SaveTransaction;
    assert forall a :: a in state ==> !a.PrepareInvoice? && a != SaveTransaction;
    assert forall a :: a in rest ==> !a.PrepareInvoice? && a != SaveTransaction;
    assert InvoiceCalls(v, p, sendInvoiceEmail, invoiceId) == [];
    assert forall a :: a in Calls(v, p, sendInvoiceEmail, invoiceId) ==> a in refund || a in rest || a in state;
  }

  /**
   * Invoices are created only by the capture: when the order ends with other invoices than it
   * had, or an invoice was prepared, the status was 3 and the order had no invoice before.
   */
  lemma InvoiceOnlyOnCapture(v: OrderView, p: Payload, sendInvoiceEmail: bool, invoiceId: string)
    ensures Apply(v, p, sendInvoiceEmail, invoiceId).invoices != v.invoices ==> p.status == 3 && !v.HasInvoices()
    ensures (exists a :: a in Calls(v, p, sendInvoiceEmail, invoiceId) && a.PrepareInvoice?) ==>
      p.status == 3 && !v.HasInvoices()
  {
    if !(p.status == 3 && !v.HasInvoices()) {
      NoCaptureCalls(v, p, sendInvoiceEmail, invoiceId);
      InvoicesAfter(v, Calls(v, p, sendInvoiceEmail, invoiceId));
    }
  }

  /** Status 1 with a method that reports the change sets Pending Payment and saves. */
  lemma AwaitingShape(v: OrderView, p: Payload, sendInvoiceEmail: bool, invoiceId: string)
    requires p.status == 1 && v.paymentMethod != RmCreditCardMethod
    ensures Calls(v, p, sendInvoiceEmail, invoiceId) ==
      [SetState(PendingPayment, AwaitingPaymentMessage, v.paymentMethod != CreditCardMethod)] +
      [SaveOrder, SavePayment, SaveOrder]
  {
    var ps := ProcessStatus(p.status, v.paymentMethod);
    assert ps.stateChanged && ps.state == Some(PendingPayment) && ps.message == AwaitingPaymentMessage;
    assert ps.isCustomerNotified == (v.paymentMethod != CreditCardMethod);
    assert NotificationMessage(p, ps) == AwaitingPaymentMessage;
    assert RefundCalls(v, p) == [] && CancellationCalls(p) == [] && InvoiceCalls(v, p, sendInvoiceEmail, invoiceId) == [];
  }

  /**
   * Status 1 (awaiting payment) with a method that reports the change sets Pending Payment,
   * which takes a held order off hold; the order can then be cancelled exactly when it has items
   * left to invoice and Magento's other conditions allow it.
   */
  lemma StateChangeReleasesHold(v: OrderView, p: Payload, sendInvoiceEmail: bool, invoiceId: string)
    requires p.status == 1 && v.paymentMethod != RmCreditCardMethod
    ensures var w := Apply(v, p, sendInvoiceEmail, invoiceId);
      w.state == PendingPayment && !w.Held() && w.cancelApplied == v.cancelApplied &&
      (w.CanCancel() <==> v.itemsToInvoice && v.cancelAllowed)
  {
    var setter := SetState(PendingPayment, AwaitingPaymentMessage, v.paymentMethod != CreditCardMethod);
    var rest: seq<Action> := [SaveOrder, SavePayment, SaveOrder];
    AwaitingShape(v, p, sendInvoiceEmail, invoiceId);
    var u := Perform(v, setter);
    assert ([setter] + rest)[1..] == rest;
    SavesEffect(u);
  }

  /** The closing saves leave the state, the cancellation and the items to invoice alone. */
  lemma SavesEffect(u: OrderView)
    ensures var w := PerformAll(u, [SaveOrder, SavePayment, SaveOrder]);
      w.state == u.state && w.cancelApplied == u.cancelApplied && w.itemsToInvoice == u.itemsToInvoice
  {
    var rest: seq<Action> := [SaveOrder, SavePayment, SaveOrder];
    assert rest[1..][1..][1..] == [];
  }

  /**
   * A held order that a status-1 notification moved to Pending Payment is no longer held, so a
   * later status-7 notification with a cancellation source cancels it when it has items left to
   * invoice and Magento's other conditions allow it.
   */
  lemma CancelAfterStateChange(v: OrderView, first: Payload, second: Payload, sendInvoiceEmail: bool,
                                firstId: string, secondId: string)
    requires first.status == 1 && v.paymentMethod != RmCreditCardMethod
    requires second.status == 7 && second.cancellationSource.Some?
    ensures var w := Apply(Apply(v, first, sendInvoiceEmail, firstId), second, sendInvoiceEmail, secondId);
      w.cancelApplied <==> v.cancelApplied || (v.itemsToInvoice && v.cancelAllowed)
  {
    StateChangeReleasesHold(v, first, sendInvoiceEmail, firstId);
    var w1 := Apply(v, first, sendInvoiceEmail, firstId);
    CancellationBranch(w1, second, sendInvoiceEmail, secondId, Calls(w1, second, sendInvoiceEmail, secondId));
  }
}
