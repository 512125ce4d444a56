/**
 * The Magento order as the notification handler sees it. Each call the handler makes on the
 * order, its payment or its invoice is an Action; Perform gives the abstract effect of one
 * call and PerformAll the effect of a sequence of calls. The Order class holds the same
 * state in mutable fields, with one method per call and a ghost log of the calls made.
 */
module Orders {
  import opened Wrappers
  import opened Status

  /** An invoice as the handler builds it: registered, paid, commented and given a transaction id. */
  datatype Invoice = Invoice(
    incrementId: string,
    registered: bool,
    paid: bool,
    comments: seq<string>,
    transactionId: Option<string>)

  /** The calls the handler makes on the order, its payment and its invoice. */
  datatype Action =
    | Unhold
    | Cancel
    | SetState(state: OrderState, message: string, isCustomerNotified: bool)
    | AddStatusHistoryComment(comment: string)
    | SaveOrder
    | RegisterRefundNotification(amount: Option<string>)
    | SavePayment
    | PrepareInvoice(incrementId: string)
    | RegisterInvoice
    | PayInvoice
    | AddInvoiceComment(comment: string)
    | SendInvoiceEmail(notifyCustomer: bool, comment: string)
    | SetInvoiceTransactionId(transactionId: string)
    | SaveInvoice
    | SaveTransaction

  /** The state Magento records when it puts an order on hold; it is never Holded itself. */
  type PreHoldState = s: OrderState | s != Holded witness New

  /**
   * The abstract value of an order: the fields behind the guards the handler reads, the
   * effects it causes, and the log of calls. `draft` is the invoice being built and not yet
   * saved. `itemsToInvoice` says whether some item still has a quantity to invoice, and
   * `cancelAllowed` stands for the conditions of Magento's cancel check that the handler never
   * changes (the order's cancel action flag, a pending payment-review update). As in Magento,
   * an order is on hold when its state is Holded; `holdBeforeState` is the state it returns to
   * when the hold is released. `cancelApplied` records that a cancel took effect during the
   * calls modelled here (items cancelled, state Canceled); it is not the Canceled state itself,
   * which an order may already have when loaded or may receive from a state change alone.
   */
  datatype OrderView = OrderView(
    paymentMethod: string,
    cancelAllowed: bool,
    holdBeforeState: PreHoldState,
    cancelApplied: bool,
    itemsToInvoice: bool,
    state: OrderState,
    history: seq<string>,
    draft: Option<Invoice>,
    invoices: seq<Invoice>,
    refunds: seq<Option<string>>,
    orderSaves: nat,
    paymentSaves: nat,
    log: seq<Action>)
  {
    predicate HasInvoices() {
      |invoices| > 0
    }

    /** The order is on hold. */
    predicate Held() {
      state == Holded
    }

    /** Magento's canUnhold: the order is on hold. */
    predicate CanUnhold() {
      Held()
    }

    /**
     * Magento's canCancel: not on hold, something left to invoice, not in payment review and
     * not already Complete, Closed or Canceled, and the remaining conditions allow it.
     */
    predicate CanCancel() {
      state != Holded && itemsToInvoice && cancelAllowed &&
      state != PaymentReview && state != Complete && state != Closed && state != Canceled
    }

    /** The order with its hold, if any, released: back in the state it had before the hold. */
    function Released(): (r: OrderView)
      ensures !r.Held()
      ensures r.itemsToInvoice == itemsToInvoice && r.cancelAllowed == cancelAllowed
    {
      if Held() then this.(state := holdBeforeState) else this
    }

    /** Whether the order can be cancelled once its hold, if any, is released. */
    predicate CancellableWhenReleased() {
      Released().CanCancel()
    }
  }

  /**
   * The effect of one call on the order. Cancelling does nothing to an order that cannot be
   * cancelled; a successful cancel cancels every item, so nothing is left to invoice. Registering
   * the invoice, which covers every item still to invoice, leaves nothing to invoice either.
   * Releasing the hold restores the state recorded when the order was put on hold, and setting
   * any other state takes the order off hold too. The transaction save stores the draft invoice
   * with its order.
   */
  function Perform(v: OrderView, a: Action): (r: OrderView)
    ensures r.log == v.log + [a]
    ensures r.paymentMethod == v.paymentMethod && r.cancelAllowed == v.cancelAllowed
    ensures r.history == v.history + (if a.AddStatusHistoryComment? then [a.comment] else [])
    ensures v.invoices <= r.invoices && (a != SaveTransaction ==> r.invoices == v.invoices)
    ensures r.holdBeforeState == v.holdBeforeState
    ensures !a.SetState? && a != Cancel && a != Unhold ==> r.state == v.state
    ensures a.SetState? ==> r.state == a.state
    ensures a == Unhold ==> r.state == v.Released().state
    ensures r.cancelApplied <==> v.cancelApplied || (a == Cancel && v.CanCancel())
    ensures !v.itemsToInvoice ==> !r.itemsToInvoice
    ensures a != Cancel && a != RegisterInvoice ==> r.itemsToInvoice == v.itemsToInvoice
  {
    var v' := v.(log := v.log + [a]);
    match a
    case Unhold => if v.Held() then v'.(state := v.holdBeforeState) else v'
    case Cancel =>
      if v.CanCancel() then v'.(cancelApplied := true, itemsToInvoice := false, state := Canceled) else v'
    case SetState(s, _, _) => v'.(state := s)
    case AddStatusHistoryComment(c) => v'.(history := v.history + [c])
    case SaveOrder => v'.(orderSaves := v.orderSaves + 1)
    case RegisterRefundNotification(amount) => v'.(refunds := v.refunds + [amount])
    case SavePayment => v'.(paymentSaves := v.paymentSaves + 1)
    case PrepareInvoice(id) => v'.(draft := Some(Invoice(id, false, false, [], None)))
    case RegisterInvoice =>
      if v.draft.Some? then v'.(draft := Some(v.draft.value.(registered := true)), itemsToInvoice := false) else v'
    case PayInvoice =>
      if v.draft.Some? then v'.(draft := Some(v.draft.value.(paid := true))) else v'
    case AddInvoiceComment(c) =>
      if v.draft.Some? then v'.(draft := Some(v.draft.value.(comments := v.draft.value.comments + [c]))) else v'
    case SendInvoiceEmail(_, _) => v'
    case SetInvoiceTransactionId(t) =>
      if v.draft.Some? then v'.(draft := Some(v.draft.value.(transactionId := Some(t)))) else v'
    case SaveInvoice => v'
    case SaveTransaction =>
      if v.draft.Some? then
        v'.(invoices := v.invoices + [v.draft.value], draft := None, orderSaves := v.orderSaves + 1)
      else v'.(orderSaves := v.orderSaves + 1)
  }

  /** The effect of a sequence of calls, made in order. */
  function PerformAll(v: OrderView, acts: seq<Action>): (r: OrderView)
    ensures r.log == v.log + acts
    ensures r.paymentMethod == v.paymentMethod && r.cancelAllowed == v.cancelAllowed
    decreases |acts|
  {
    if acts == [] then v else PerformAll(Perform(v, acts[0]), acts[1..])
  }

  lemma {:induction false} PerformAllConcat(v: OrderView, a: seq<Action>, b: seq<Action>)
    ensures PerformAll(v, a + b) == PerformAll(PerformAll(v, a), b)
    decreases |a|
  {
    if a != [] {
      assert (a + b)[0] == a[0] && (a + b)[1..] == a[1..] + b;
      PerformAllConcat(Perform(v, a[0]), a[1..], b);
    } else {
      assert a + b == b;
    }
  }

  lemma PerformAllSnoc(v: OrderView, acts: seq<Action>, a: Action)
    ensures PerformAll(v, acts + [a]) == Perform(PerformAll(v, acts), a)
  {
    PerformAllConcat(v, acts, [a]);
  }

  /** The history comments a sequence of calls adds, in order. */
  function Comments(acts: seq<Action>): seq<string> {
    if acts == [] then []
    else (if acts[0].AddStatusHistoryComment? then [acts[0].comment] else []) + Comments(acts[1..])
  }

  /** The history grows by exactly the comments added, in the order they were added. */
  lemma {:induction false} HistoryAfter(v: OrderView, acts: seq<Action>)
    ensures PerformAll(v, acts).history == v.history + Comments(acts)
    decreases |acts|
  {
    if acts != [] {
      var u := Perform(v, acts[0]);
      var added := if acts[0].AddStatusHistoryComment? then [acts[0].comment] else [];
      assert u.history == v.history + added;
      assert Comments(acts) == added + Comments(acts[1..]);
      HistoryAfter(u, acts[1..]);
      assert PerformAll(v, acts) == PerformAll(u, acts[1..]);
    }
  }

  /** Saved invoices are never removed; only the transaction save adds one. */
  lemma {:induction false} InvoicesAfter(v: OrderView, acts: seq<Action>)
    ensures v.invoices <= PerformAll(v, acts).invoices
    ensures SaveTransaction !in acts ==> PerformAll(v, acts).invoices == v.invoices
    decreases |acts|
  {
    if acts != [] {
      var u := Perform(v, acts[0]);
      InvoicesAfter(u, acts[1..]);
      assert PerformAll(v, acts) == PerformAll(u, acts[1..]);
      assert SaveTransaction !in acts ==> acts[0] != SaveTransaction && SaveTransaction !in acts[1..];
    }
  }

  /** Calls without a history comment leave the history as it is. */
  lemma {:induction false} NoComments(acts: seq<Action>)
    requires forall a :: a in acts ==> !a.AddStatusHistoryComment?
    ensures Comments(acts) == []
    decreases |acts|
  {
    if acts != [] {
      assert forall a :: a in acts[1..] ==> a in acts;
      NoComments(acts[1..]);
    }
  }

  /** Only setting the state, a successful cancel and releasing a hold change the order state. */
  lemma {:induction false} StateAfter(v: OrderView, acts: seq<Action>)
    requires forall a :: a in acts ==> !a.SetState? && a != Cancel && a != Unhold
    ensures PerformAll(v, acts).state == v.state
    decreases |acts|
  {
    if acts != [] {
      assert acts[0] in acts;
      assert forall a :: a in acts[1..] ==> a in acts;
      var u := Perform(v, acts[0]);
      StateAfter(u, acts[1..]);
      assert PerformAll(v, acts) == PerformAll(u, acts[1..]);
    }
  }

  /**
   * Once nothing is left to invoice (after a successful cancel, or once an invoice has been
   * registered), no call makes the order cancellable again, with or without a hold.
   */
  lemma {:induction false} CancelIsFinal(v: OrderView, acts: seq<Action>)
    requires !v.itemsToInvoice
    ensures !PerformAll(v, acts).itemsToInvoice
    ensures !PerformAll(v, acts).CancellableWhenReleased()
    decreases |acts|
  {
    if acts != [] {
      var u := Perform(v, acts[0]);
      CancelIsFinal(u, acts[1..]);
      assert PerformAll(v, acts) == PerformAll(u, acts[1..]);
    }
  }

  /** Only a cancel that Magento allows takes effect, and nothing undoes one that did. */
  lemma {:induction false} CanceledAfter(v: OrderView, acts: seq<Action>)
    requires Cancel !in acts
    ensures PerformAll(v, acts).cancelApplied == v.cancelApplied
    decreases |acts|
  {
    if acts != [] {
      var u := Perform(v, acts[0]);
      assert Cancel !in acts[1..];
      CanceledAfter(u, acts[1..]);
      assert PerformAll(v, acts) == PerformAll(u, acts[1..]);
    }
  }

  /**
   * Calls that neither release a hold, set the state, cancel nor register an invoice leave
   * the hold and the order's cancellability as they were.
   */
  lemma {:induction false} GuardAfter(v: OrderView, acts: seq<Action>)
    requires forall a :: a in acts ==> a != Unhold && !a.SetState? && a != Cancel && a != RegisterInvoice
    ensures PerformAll(v, acts).Held() == v.Held()
    ensures PerformAll(v, acts).CanCancel() == v.CanCancel()
    ensures PerformAll(v, acts).CancellableWhenReleased() == v.CancellableWhenReleased()
    decreases |acts|
  {
    if acts != [] {
      assert acts[0] in acts;
      assert forall a :: a in acts[1..] ==> a in acts;
      var u := Perform(v, acts[0]);
      GuardAfter(u, acts[1..]);
      assert PerformAll(v, acts) == PerformAll(u, acts[1..]);
    }
  }

  /** An order loaded from the store, with its payment and the invoice being built. */
  class Order {
    const paymentMethod: string
    const cancelAllowed: bool
    const holdBeforeState: PreHoldState
    var cancelApplied: bool
    var itemsToInvoice: bool
    var state: OrderState
    var history: seq<string>
    var draft: Option<Invoice>
    var invoices: seq<Invoice>
    var refunds: seq<Option<string>>
    var orderSaves: nat
    var paymentSaves: nat
    ghost var log: seq<Action>

    ghost function View(): OrderView
      reads this
    {
      OrderView(paymentMethod, cancelAllowed, holdBeforeState, cancelApplied, itemsToInvoice, state, history,
                draft, invoices, refunds, orderSaves, paymentSaves, log)
    }

    /** An order as loaded from the store, before any call of the handler. */
    constructor (paymentMethod: string, cancelAllowed: bool, holdBeforeState: PreHoldState, itemsToInvoice: bool,
                 state: OrderState, history: seq<string>, invoices: seq<Invoice>)
      ensures View() == OrderView(paymentMethod, cancelAllowed, holdBeforeState, false, itemsToInvoice, state, history,
                                  None, invoices, [], 0, 0, [])
    {
      this.paymentMethod := paymentMethod;
      this.cancelAllowed := cancelAllowed;
      this.holdBeforeState := holdBeforeState;
      this.cancelApplied := false;
      this.itemsToInvoice := itemsToInvoice;
      this.state := state;
      this.history := history;
      this.draft := None;
      this.invoices := invoices;
      this.refunds := [];
      this.orderSaves := 0;
      this.paymentSaves := 0;
      this.log := [];
    }

    function HasInvoices(): (b: bool)
      reads this
      ensures b == View().HasInvoices()
    {
      |invoices| > 0
    }

    function CanUnhold(): (b: bool)
      reads this
      ensures b == View().CanUnhold()
    {
      state == Holded
    }

    function CanCancel(): (b: bool)
      reads this
      ensures b == View().CanCancel()
    {
      state != Holded && itemsToInvoice && cancelAllowed &&
      state != PaymentReview && state != Complete && state != Closed && state != Canceled
    }

    /**
     * Releasing a hold returns the order to the state it had before; Magento refuses it on an
     * order that cannot be unheld.
     */
    method Unhold()
      requires CanUnhold()
      modifies this
      ensures View() == Perform(old(View()), Action.Unhold)
    {
      state := holdBeforeState;
      log := log + [Action.Unhold];
    }

    /** Cancels the order and all its items when Magento allows it, and does nothing otherwise. */
    method Cancel()
      modifies this
      ensures View() == Perform(old(View()), Action.Cancel)
    {
      if CanCancel() {
        cancelApplied, itemsToInvoice, state := true, false, Canceled;
      }
      log := log + [Action.Cancel];
    }

    /** Sets the state; an order on hold leaves the hold unless the new state is Holded. */
    method SetState(s: OrderState, message: string, isCustomerNotified: bool)
      modifies this
      ensures View() == Perform(old(View()), Action.SetState(s, message, isCustomerNotified))
    {
      state := s;
      log := log + [Action.SetState(s, message, isCustomerNotified)];
    }

    method AddStatusHistoryComment(comment: string)
      modifies this
      ensures View() == Perform(old(View()), Action.AddStatusHistoryComment(comment))
    {
      history := history + [comment];
      log := log + [Action.AddStatusHistoryComment(comment)];
    }

    method Save()
      modifies this
      ensures View() == Perform(old(View()), SaveOrder)
    {
      orderSaves := orderSaves + 1;
      log := log + [SaveOrder];
    }

    method RegisterRefundNotification(amount: Option<string>)
      modifies this
      ensures View() == Perform(old(View()), Action.RegisterRefundNotification(amount))
    {
      refunds := refunds + [amount];
      log := log + [Action.RegisterRefundNotification(amount)];
    }

    method SavePayment()
      modifies this
      ensures View() == Perform(old(View()), Action.SavePayment)
    {
      paymentSaves := paymentSaves + 1;
      log := log + [Action.SavePayment];
    }

    method PrepareInvoice(incrementId: string)
      modifies this
      ensures View() == Perform(old(View()), Action.PrepareInvoice(incrementId))
    {
      draft := Some(Invoice(incrementId, false, false, [], None));
      log := log + [Action.PrepareInvoice(incrementId)];
    }

    /** Registering the invoice invoices every item it covers, which is every item left. */
    method RegisterInvoice()
      modifies this
      ensures View() == Perform(old(View()), Action.RegisterInvoice)
    {
      if draft.Some? {
        draft := Some(draft.value.(registered := true));
        itemsToInvoice := false;
      }
      log := log + [Action.RegisterInvoice];
    }

    method PayInvoice()
      modifies this
      ensures View() == Perform(old(View()), Action.PayInvoice)
    {
      if draft.Some? {
        draft := Some(draft.value.(paid := true));
      }
      log := log + [Action.PayInvoice];
    }

    method AddInvoiceComment(comment: string)
      modifies this
      ensures View() == Perform(old(View()), Action.AddInvoiceComment(comment))
    {
      if draft.Some? {
        draft := Some(draft.value.(comments := draft.value.comments + [comment]));
      }
      log := log + [Action.AddInvoiceComment(comment)];
    }

    /** Sending the invoice e-mail leaves the order as it is; only the call is recorded. */
    method SendInvoiceEmail(notifyCustomer: bool, comment: string)
      modifies this
      ensures View() == Perform(old(View()), Action.SendInvoiceEmail(notifyCustomer, comment))
    {
      log := log + [Action.SendInvoiceEmail(notifyCustomer, comment)];
    }

    method SetInvoiceTransactionId(transactionId: string)
      modifies this
      ensures View() == Perform(old(View()), Action.SetInvoiceTransactionId(transactionId))
    {
      if draft.Some? {
        draft := Some(draft.value.(transactionId := Some(transactionId)));
      }
      log := log + [Action.SetInvoiceTransactionId(transactionId)];
    }

    /** Saving the invoice on its own does not attach it to the order; only the call is recorded. */
    method SaveInvoice()
      modifies this
      ensures View() == Perform(old(View()), Action.SaveInvoice)
    {
      log := log + [Action.SaveInvoice];
    }

    /** Saves the draft invoice and its order together. */
    method SaveTransaction()
      modifies this
      ensures View() == Perform(old(View()), Action.SaveTransaction)
    {
      if draft.Some? {
        invoices := invoices + [draft.value];
        draft := None;
      }
      orderSaves := orderSaves + 1;
      log := log + [Action.SaveTransaction];
    }
  }
}
