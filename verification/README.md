# PagSeguro notification processing, modelled in Dafny

This project models the notification handler of the PagSeguro payment module for Magento 2
(`Model/Notifications.php`). PagSeguro posts a notification document when a transaction
changes. The handler finds the order the document refers to. It then applies the reported
transaction status to the order:

- status 6 (returned): release a hold, then cancel the order or register a refund;
- status 7 (cancelled): cancel, and extend the history message with the cancellation source;
- any status: set the resolved state, or else add the resolved message to the history;
- status 3 (paid): capture a paid invoice when the order has none yet.

It ends by saving the payment and the order. Behind it sits the status resolver
(`processStatus`). The resolver is a total table from a status code and the order's
payment-method code to a target state, three flags and a history message.

The model has four modules plus a small `Option` type:

- `Status` (status.dfy) is the resolver as a pure function, `ProcessStatus`. Its
  postconditions characterise the whole table: which codes set a state, which report a change,
  which notify the customer and which leave the transaction pending. The lemmas beside it prove
  that the history message identifies the status code.
- `Orders` (orders.dfy) is the Magento order as the handler sees it. Every call the handler
  makes on the order, its payment or its invoice is an `Action`. `Perform` gives the effect of
  one call on an `OrderView` value, and `PerformAll` the effect of a sequence of calls. The
  `Order` class keeps the same state in mutable fields, with one method per call and a ghost
  log of the calls made. Each method is proved to change the order exactly as `Perform` says.
  The guards the handler reads are derived from the order's fields. As in Magento, the hold is
  a state: an order is held when its state is Holded, and releasing the hold returns it to the
  state recorded when it was put on hold (`holdBeforeState`). Setting any other state also
  takes the order off hold. `CanUnhold` holds for a held order. `CanCancel` holds for an order
  that is not held, still has items to invoice, is not in payment review, Complete, Closed or
  Canceled, and whose other conditions (`cancelAllowed`) allow it. Releasing the hold can
  therefore make an order cancellable. A successful cancel, or registering an invoice, leaves
  nothing to invoice.
  Lemmas about `PerformAll` cover the history, the saved invoices, the state and whether the
  order can still be cancelled.
- `Notifications` (notifications.dfy) is the handler. `Calls` is the pure specification: the
  exact sequence of calls made on an order the handler found. The imperative
  `ProcessNotificationResult` and its block-by-block helper methods are proved to make exactly
  those calls. The outcome is one of: the two exceptions, the silent return for an unknown
  order, or success. No order other than the one found is touched.
- `NotificationProperties` (properties.dfy) proves what the handler guarantees:
  - the status-6 refund/cancel choice;
  - the status-7 cancellation and its message;
  - the choice between a state change and a comment;
  - the shape of the captured invoice;
  - what happens when the same notification is delivered a second time.

The message texts are the source's literals. Where a literal spans two source lines, the line
break and its indentation are a single space here. The EXTERNAL cancellation text is appended
without a leading space, as in the source (the INTERNAL text has one).

## Model

| member | source | states |
|---|---|---|
| Status.ProcessStatus | Model/Notifications.php:221-287 | A state is set for codes 1, 2, 3, 5, 6 and 7, and it is the code's documented state. The change flag is off exactly for code 4, for unknown codes, and for code 1 with method "rm_pagseguro_cc". A reported change always has a state. The transaction is no longer pending exactly for codes 3 to 6. The customer is notified exactly for codes 2, 3 and 7, and for code 1 unless the method is "pagseguro_cc". An unknown code gets the invalid-status message carrying that code. |
| Status.DigitsRoundTrip | Model/Notifications.php:284 | The decimal digits of a natural number read back as that number. |
| Status.IntToString | Model/Notifications.php:284 | PHP's integer-to-string conversion: the text starts with a minus sign exactly for a negative number, the rest is decimal digits with no leading zero (except for zero itself), and those digits read back as the number's magnitude. |
| Status.InvalidStatusMessageParts | Model/Notifications.php:281-284 | The default-case message (`InvalidStatusMessage`) is the fixed prefix, then the code as PHP prints it, then a closing parenthesis; the printed part reads back as the code, with a minus sign exactly for a negative code and no leading zero. |
| Status.InvalidStatusMessageStart | Model/Notifications.php:284 | Every default-case message starts with "Inva". |
| Status.IntToStringInjective | Model/Notifications.php:284 | Distinct integers print as distinct decimal strings. |
| Status.InvalidStatusMessageInjective | Model/Notifications.php:281-284 | Two unknown codes with equal invalid-status messages are the same code. |
| Status.HeadOfMessage | Model/Notifications.php:227-285 | Each resolved message starts with the three characters of its status label: one head per documented code, and "Inv" for every unknown code. |
| Status.MessageIdentifiesStatus | Model/Notifications.php:227-285 | Whatever the payment methods, two resolved messages that are equal come from the same status code. |
| Orders.Perform | Model/Notifications.php:101-164 | The effect of one call: it is appended to the call log; only a history comment changes the history, and it appends exactly that comment; only the transaction save adds invoices, and it removes none; only setting the state, a cancel and releasing the hold change the state; setting a state sets exactly that state, so a held order leaves the hold unless Holded is set again; releasing the hold returns the order to the state it had before the hold; a cancel takes effect (`cancelApplied`) exactly when Magento allows it, and that record is never undone; nothing makes items to invoice reappear, and only a cancel or registering an invoice removes them. |
| Orders.HistoryAfter | Model/Notifications.php:110-164 | After any sequence of calls, the history is the old history followed by exactly the comments added, in order. |
| Orders.InvoicesAfter | Model/Notifications.php:145-166 | Saved invoices are never removed. Without a transaction save, the invoice list is unchanged. |
| Orders.StateAfter | Model/Notifications.php:101-138 | Calls other than setting the state, cancelling and releasing the hold leave the order state unchanged. |
| Orders.CancelIsFinal | Model/Notifications.php:101-127 | Once nothing is left to invoice (after a successful cancel, or once an invoice is registered), no later call, an unhold included, gives the order items to invoice again or makes it cancellable, even with its hold released. |
| Orders.CanceledAfter | Model/Notifications.php:105-127 | Calls without a cancel leave `cancelApplied` as it was: no other call makes a cancel take effect, and nothing undoes one that did. |
| Orders.GuardAfter | Model/Notifications.php:100-114 | Calls that neither unhold, set the state, cancel nor register an invoice leave the hold and both cancellation guards as they were. |
| Orders.NoComments | Model/Notifications.php:110-164 | Calls that include no history comment add nothing to the history. |
| Orders.Order.constructor | Model/Notifications.php:86 | A loaded order has had no cancel take effect in these calls, and has no draft invoice, no refunds, no saves and an empty call log; its payment method, other cancel conditions, state before any hold, items to invoice, state, history and invoices are the given ones. |
| Orders.Order.HasInvoices | Model/Notifications.php:146 | The order has invoices exactly when its invoice list is non-empty. |
| Orders.Order.CanUnhold | Model/Notifications.php:101 | The order can be unheld exactly when it is on hold, that is, in state Holded. |
| Orders.Order.CanCancel | Model/Notifications.php:105 | The order can be cancelled exactly when it is not held (not in state Holded), has items left to invoice, is not in payment review, Complete, Closed or Canceled, and its other conditions allow it. |
| Orders.Order.Unhold | Model/Notifications.php:101-103 | Callable only on an order that can be unheld. The order returns to the state recorded before the hold, so it is no longer held and can be cancelled exactly when it could be once released (`CancellableWhenReleased`); nothing else changes but the state and the call log. |
| Orders.Order.Cancel | Model/Notifications.php:105-106 | On an order that can be cancelled, the cancel takes effect: state Canceled, with nothing left to invoice, so it is no longer cancellable. An order that cannot be cancelled (a held one among them) is left as it is. |
| Orders.Order.SetState | Model/Notifications.php:133-138 | Sets the given state and nothing else; a held order leaves the hold unless the state is Holded. The message and the notify flag are recorded with the call. |
| Orders.Order.AddStatusHistoryComment | Model/Notifications.php:142 | Appends the comment to the history. |
| Orders.Order.Save | Model/Notifications.php:169 | Counts one order save. |
| Orders.Order.RegisterRefundNotification | Model/Notifications.php:109 | Appends the refunded amount to the payment's refunds. |
| Orders.Order.SavePayment | Model/Notifications.php:168 | Counts one payment save. |
| Orders.Order.PrepareInvoice | Model/Notifications.php:147 | Starts a new draft invoice with the given increment id: not registered, not paid, no comments, no transaction id. |
| Orders.Order.RegisterInvoice | Model/Notifications.php:148 | Marks the draft invoice registered; the invoice covers every item left, so nothing is left to invoice. |
| Orders.Order.PayInvoice | Model/Notifications.php:148 | Marks the draft invoice paid. |
| Orders.Order.AddInvoiceComment | Model/Notifications.php:150 | Appends the comment to the draft invoice's comments. |
| Orders.Order.SendInvoiceEmail | Model/Notifications.php:151-154 | Changes nothing on the order; the call and its arguments are recorded. |
| Orders.Order.SetInvoiceTransactionId | Model/Notifications.php:158 | Sets the draft invoice's transaction id. |
| Orders.Order.SaveInvoice | Model/Notifications.php:158 | Saving the invoice alone does not attach it to the order; the call is recorded. |
| Orders.Order.SaveTransaction | Model/Notifications.php:161-163 | The draft invoice joins the order's invoices, and the order is saved with it. |
| Notifications.CancellationSuffix | Model/Notifications.php:118-126 | The text for source INTERNAL and for source EXTERNAL; the empty text exactly for every other source. |
| Notifications.NotificationMessage | Model/Notifications.php:98-126 | The recorded message always starts with the resolved message. It is the resolved message itself unless the status is 7 with a cancellation source; with source INTERNAL or EXTERNAL it has that source's text appended. |
| Notifications.ErrorText | Model/Notifications.php:74-83 | The gateway-error exception text is the fixed prefix, then the error message, then the error code in parentheses. The missing-reference exception has the fixed text of line 171. |
| Notifications.ReleaseHold | Model/Notifications.php:101-103 | A held order is unheld, an order without a hold is left alone; either way the order ends with no hold. |
| Notifications.CancelOrRefund | Model/Notifications.php:105-113 | An order that can be cancelled is cancelled and saved. Any other order has the refund registered, the returned comment added and is saved. Its invoices are unchanged. |
| Notifications.ApplyRefund | Model/Notifications.php:100-114 | Status 6 only. The order is unheld if it can be. Then the guard is read on the released order: either it is cancelled and saved, or the refund is registered, commented and saved. The resulting order is the effect of exactly the calls `RefundCalls` lists, and its invoices are unchanged. |
| Notifications.ApplyCancellation | Model/Notifications.php:116-128 | Status 7 with a cancellation source: cancels the order whatever the source. Returns the resolved message with the source's text appended. |
| Notifications.ApplyState | Model/Notifications.php:130-143 | A reported change sets the resolved state with the message and notify flag, then saves, except for status 6. No reported change adds the message as a history comment. |
| Notifications.PreparePaidInvoice | Model/Notifications.php:147-148 | A new invoice is prepared, registered and paid: the order is the effect of exactly those three calls. |
| Notifications.PrepareCapturedInvoice | Model/Notifications.php:147-154 | A new invoice is prepared, registered, paid, given the capture comment with the transaction code, and e-mailed with the configured flag. |
| Notifications.StoreCapturedInvoice | Model/Notifications.php:156-164 | When a code is present, it becomes the invoice's transaction id and the invoice is saved. Then the invoice is saved with its order, and the creation comment is added to the history. |
| Notifications.CaptureInvoice | Model/Notifications.php:145-166 | Status 3 on an order without invoices makes exactly the preparation and storage calls. Anything else makes no call. |
| Notifications.Calls | Model/Notifications.php:93-169 | Every run on a found order ends with a payment save followed by an order save. |
| Notifications.ProcessOrder | Model/Notifications.php:93-169 | The order after processing is the effect of exactly the calls `Calls` lists, made in that order. |
| Notifications.ProcessNotificationResult | Model/Notifications.php:72-173 | A gateway error fails with the payment-problem exception, carrying the error's code and message. A missing reference fails with the reference-not-found exception. An unknown reference returns without touching any order. Otherwise the outcome is success, the found order's call log grows by exactly `Calls`, and every other order is unchanged. |
| NotificationProperties.RefundBranch | Model/Notifications.php:100-114 | Status 6 reports a change but never sets the state. The order is unheld exactly when it is held. Cancel is called exactly when the order can be cancelled once its hold is released. Otherwise the refund is registered and commented: exactly one of cancel and refund happens. |
| NotificationProperties.RefundOutcome | Model/Notifications.php:100-114 | Status 6: the order ends with no hold. A cancel takes effect in this run, ending in state Canceled, exactly when it could be cancelled once released; otherwise it ends in the state it had once released. `cancelApplied` ends true exactly when that holds or it was true already. Either way it can no longer be cancelled. |
| NotificationProperties.StateChangeReleasesHold | Model/Notifications.php:130-138 | Status 1 with a method that reports the change leaves the order in Pending Payment, so no longer held, with `cancelApplied` unchanged. It can then be cancelled exactly when it has items left to invoice and Magento's other conditions allow it. |
| NotificationProperties.CancelAfterStateChange | Model/Notifications.php:116-138 | A status-1 notification (with a method that reports the change) followed by a status-7 notification with a cancellation source leaves `cancelApplied` true exactly when it was true before, or the order had items left to invoice and Magento's other conditions allowed the cancel. This holds for a held order too. |
| NotificationProperties.CancellationMessage | Model/Notifications.php:116-126 | With source INTERNAL or EXTERNAL, the status-7 message carries that source's text. With any other source, or none, it is the plain resolved message. |
| NotificationProperties.CancellationBranch | Model/Notifications.php:116-138 | For status 7, cancel is called exactly when a cancellation source is present, at most once. `cancelApplied` ends true exactly when it was already, or a source is present and Magento allows the cancel. The Canceled state is then set with the message and the notify flag on, and the order ends in state Canceled. |
| NotificationProperties.StateOrComment | Model/Notifications.php:130-143 | Any status but 6: when a change is reported, the target state is set with the message, the message is not added as a comment, and the order ends in the target state. Otherwise the message is added as a comment, no state is set, and the state is unchanged. |
| NotificationProperties.InvoiceCommentIsNotMessage | Model/Notifications.php:164 | The invoice-created comment differs from every resolved status message. |
| NotificationProperties.InvoiceCapture | Model/Notifications.php:145-166 | Status 3 on an order without invoices adds exactly one invoice. It is registered and paid, carries the capture comment, and has the transaction code as its transaction id. The history gains only the invoice-created comment, and the order ends Processing. With every item invoiced, it can no longer be cancelled. |
| NotificationProperties.PaidAgain | Model/Notifications.php:145-146 | Status 3 on an order that already has an invoice prepares no invoice, and leaves the invoices and the history unchanged. |
| NotificationProperties.RedeliveryCapturesOnce | Model/Notifications.php:145-166 | A status-3 notification processed a second time creates no second invoice and adds nothing to the history. |
| NotificationProperties.RedeliveryCancelsOnce | Model/Notifications.php:100-114 | A status-6 notification processed a second time makes no cancel call; it registers the refund instead. |
| NotificationProperties.RefundAfterCapture | Model/Notifications.php:100-166 | A status-6 notification after a status-3 notification captured the payment of an order without invoices makes no cancel call; it registers the refund instead. |
| NotificationProperties.NoCaptureCalls | Model/Notifications.php:145-166 | Unless the status is 3 and the order has no invoice, no invoice is prepared and no transaction is saved. |
| NotificationProperties.InvoiceOnlyOnCapture | Model/Notifications.php:145-166 | When the order's invoices change, or an invoice is prepared, the status was 3 and the order had no invoice before. |

## Left out

- Fetching the notification (`getNotificationStatus`, lines 180 on): it makes an HTTP request with cURL and parses XML. The model starts from the fields of the parsed document (`Payload`). A status that is absent or not numeric is whatever PHP's integer cast gives; the caller supplies it as an integer.
- The constructor and dependency injection, the payment-method base class and the helper object. The method code that the base class's `getCode` returns is the order's payment method.
- Logging (`writeLog`, lines 88-90): the unknown-order case is modelled by its outcome, `OrderNotFound`, without the log line.
- Translation (`__()`): messages are the untranslated source text.
- Notifications.ErrorText: fills the two placeholders of `%s(%s)` in order, as `sprintf` would. Magento's phrase renderer substitutes numbered placeholders (`%1`, `%2`) and may leave `%s` as it is, so the text it produces can differ.
- Floating point: the refunded amount (line 109) is kept as the text of `grossAmount`, not converted with `floatval`.
- The store configuration lookup for invoice e-mails (line 152) is the parameter `sendInvoiceEmail`. The increment id that Magento gives a new invoice is the parameter `invoiceId`.
- Magento internals (`Magento\Sales\Model\Order` is not part of this model) are reduced to the fields the guards read and to the effects listed in the table. `canUnhold` is "in state Holded"; its action flag is left out. `canCancel` keeps the conditions the handler's own calls can change (hold, items left to invoice, state); the rest (the payment's own veto, a fraud flag, action flags) is the constant `cancelAllowed`. Not modelled: stock, payment cancellation inside `cancel()`, the order status field, the second argument of `setState`, and Magento's `hold()` (the state before the hold is given when the order is loaded, and `unhold` does not clear it). A save that is chained onto `setState` or `addStatusHistoryComment` counts as an order save.
- Orders.Order.Unhold: requires that the order can be unheld. Magento refuses the call otherwise, and the handler only makes it after checking.
- Exceptions raised inside Magento's own calls (a failing save, a refused cancel), and two notifications processed concurrently for the same order.
- Magento's order lookup by increment id is a map from reference to order. A reference that is not a key is an order without an id.
