# Purchase dialog step controller

A model of the buyer's purchase dialog for carbon credits. The dialog walks through three
steps: selection, payment and success. Only the controller is modelled:

- the two state cells, `step` and `paymentData`;
- the handlers that update them and call the caller's callbacks;
- the pure rules the view applies to that state.

The rules are: which section shows, the "Proceed to Payment" enable guard, the description
text and the estimated cost at 1250 rupees per credit.

Modules:

- `PurchaseTypes` (purchase_types.dfy): the values the dialog handles. These are the step,
  the payment descriptor `{orderId, amount, currency}`, the credit, and the outcome of the
  payment-intent request (`Ok(intent)` or `Err(message)`).
- `PurchaseView` (purchase_view.dfy): the pure rendering rules as functions.
- `PurchaseFlow` (purchase_flow.dfy): one handler run as a pure transition function `Next`.
  `Next` returns the new state and the effects the handler produces, in order: state writes,
  service requests, toasts, `onPurchaseSuccess` and `onOpenChange` calls. `Run` folds `Next`
  over a sequence of handler runs. The lemmas about `Run` state what any sequence of
  interactions guarantees.
- `PurchaseDialogState` (purchase_dialog.dfy): the class `PurchaseDialog`. It has the two
  state cells as fields and a ghost log of effects, with one method per handler. Each method
  states its new state and its appended effects outright, and proves that they agree with
  `Next`.

Three behaviours of the code a reader might not expect:

- Cancelling a payment and closing the dialog do not discard the payment descriptor.
  `CancelKeepsIntent` shows that the descriptor survives a cancel. `PaymentDataIsLatestIntent`
  shows that `paymentData` is always the response of the latest successful request.
- A second payment-success callback notifies the caller again; it is not a no-op
  (`RepeatedSuccessNotifiesTwice`).
- There is no pending state between selection and payment. The intent handler checks neither
  the step nor the quantity guard; only the rendering keeps it to the selection step.

The payment prompt quotes `purchaseAmount * 1250` (line 67), but the payment form charges
`paymentData.amount` (line 131). Nothing in the code ties the two together, and the model does
not either: the quoted cost is not proved to be the amount charged.

## Model

| member | source | states |
|---|---|---|
| PurchaseView.ProceedDisabled | src/components/dashboards/BuyerDashboard/PurchaseDialog.tsx:117-119 | The button is enabled exactly when 1 <= quantity <= the credit's available amount, i.e. exactly when the quantity lies in the range the number input declares (lines 96-97) |
| PurchaseView.EstimatedCost | src/components/dashboards/BuyerDashboard/PurchaseDialog.tsx:110 | The cost divided by the unit price 1250 gives back the quantity; buying at least one credit costs at least 1250 |
| PurchaseView.ProjectSuffix | src/components/dashboards/BuyerDashboard/PurchaseDialog.tsx:66 | `slice(-8)`: the result is the last min(8, length) characters of the project id |
| PurchaseView.VisibleSections | src/components/dashboards/BuyerDashboard/PurchaseDialog.tsx:58-145 | At most one section shows, and none while the dialog is closed or there is no credit. Selection shows iff the dialog is open, there is a credit and step = selection. The payment form shows iff open, there is a credit, step = payment and a descriptor is present. The confirmation shows iff open, there is a credit and step = success |
| PurchaseView.Describe | src/components/dashboards/BuyerDashboard/PurchaseDialog.tsx:65-69 | Exactly one description per step. The selection text names the project id's last eight characters. The payment text quotes a cost equal to quantity × 1250, the same cost as the purchase summary (line 110) |
| PurchaseFlow.Next | src/components/dashboards/BuyerDashboard/PurchaseDialog.tsx:31-56 | Only a successful intent request made with a credit changes `paymentData`. A changed step is payment after an intent, success after payment success, selection otherwise. The close and Cancel handlers end by calling `onOpenChange` |
| PurchaseFlow.NextObservations | src/components/dashboards/BuyerDashboard/PurchaseDialog.tsx:31-56 | Per handler run: only payment success notifies, exactly once. Only a failed request toasts, once, with the error's message verbatim. The service is called once iff there is a credit, with its id and the quantity. `onOpenChange` receives the close flag, or `false` from Cancel, and nothing else |
| PurchaseFlow.NotificationsCountConfirmations | src/components/dashboards/BuyerDashboard/PurchaseDialog.tsx:44-49 | Over any sequence of handler runs, `onPurchaseSuccess` is called exactly as many times as the payment form reported success |
| PurchaseFlow.ToastsAreFailureMessages | src/components/dashboards/BuyerDashboard/PurchaseDialog.tsx:38-41 | Over any sequence of handler runs, the toasts are exactly the failed requests' error messages, in order |
| PurchaseFlow.PaymentDataIsLatestIntent | src/components/dashboards/BuyerDashboard/PurchaseDialog.tsx:29-56 | After any sequence of handler runs, `paymentData` is the latest successful response (or what it was before, if there was none). Nothing clears it |
| PurchaseFlow.RunKeepsPaymentHasIntent | src/components/dashboards/BuyerDashboard/PurchaseDialog.tsx:31-56 | "In the payment step a descriptor is present" is preserved by every sequence of handler runs |
| PurchaseDialogState.PurchaseDialog.constructor | src/components/dashboards/BuyerDashboard/PurchaseDialog.tsx:28-29 | The dialog starts in the selection step with no descriptor and no effects |
| PurchaseDialogState.PurchaseDialog.CreatePaymentIntent | src/components/dashboards/BuyerDashboard/PurchaseDialog.tsx:31-42 | Without a credit: no change and no request. On success: one request, `paymentData` = the response unchanged, step = payment, no toast. On failure: one request, state unchanged, exactly one toast carrying the message. Agrees with `Next` |
| PurchaseDialogState.PurchaseDialog.PaymentSuccess | src/components/dashboards/BuyerDashboard/PurchaseDialog.tsx:44-49 | From any step: step = success, `paymentData` untouched, then exactly one `onPurchaseSuccess` call. Agrees with `Next` |
| PurchaseDialogState.PurchaseDialog.PaymentCancel | src/components/dashboards/BuyerDashboard/PurchaseDialog.tsx:134 | Step = selection; `paymentData` stays as it was. Agrees with `Next` |
| PurchaseDialogState.PurchaseDialog.Close | src/components/dashboards/BuyerDashboard/PurchaseDialog.tsx:51-56 | Closing sets step = selection and opening leaves it. `paymentData` is untouched. `onOpenChange(open)` is called exactly once, after the state write. Agrees with `Next` |
| PurchaseDialogState.PurchaseDialog.SelectionCancel | src/components/dashboards/BuyerDashboard/PurchaseDialog.tsx:114 | Calls `onOpenChange(false)` once and changes no state. Agrees with `Next` |
| PurchaseDialogState.ReachableShowsOneSection | src/components/dashboards/BuyerDashboard/PurchaseDialog.tsx:73-139 | From mount, after any sequence of handler runs, exactly one section shows while the dialog is open and there is a credit |
| PurchaseDialogState.ReopenAfterSuccessShowsConfirmation | src/components/dashboards/BuyerDashboard/PurchaseDialog.tsx:44-61 | Only `handleClose` resets the step. After a successful request and payment, the step is success; if the caller closes the dialog through its `open` prop, no handler runs, nothing shows while closed, and on reopening the confirmation shows |
| PurchaseDialogState.CancelKeepsIntent | src/components/dashboards/BuyerDashboard/PurchaseDialog.tsx:134 | An instance of `PaymentDataIsLatestIntent` and of `PaymentCancel`'s contract: after a successful request and then a payment cancel, step = selection and the descriptor is still held |
| PurchaseDialogState.RepeatedSuccessNotifiesTwice | src/components/dashboards/BuyerDashboard/PurchaseDialog.tsx:44-49 | Two payment-success callbacks leave step = success and notify the caller twice |

## Left out

- The dialog markup, buttons and icons are presentation only.
- The service request is not modelled as asynchronous. Each handler is one atomic update: React batching and re-render timing are not modelled. The request's outcome is a method parameter.
- The payment form's internals and the payment processor's webhook settlement are left out. Only the form's two callbacks are modelled.
- The toast library is not modelled; the log records each toast's message.
- Number formatting is left out: `toLocaleString`, `toFixed` and the health-score colour. Descriptions carry the number itself. The credit's health score is therefore not part of `Credit`.
- JavaScript numbers are modelled as exact `real`s. `Number(e.target.value)` yielding NaN, which makes both guard comparisons false, is not modelled, and neither is floating-point rounding of `quantity * 1250`.
- `onPurchaseAmountChange` (line 99) only passes the typed value to the caller and touches no state of the dialog. It is not modelled.
- The `open` prop appears only as an input of `VisibleSections`, which describes what an open dialog shows. A change of `open` made by the caller runs no handler of the dialog and so is not an event of `Run`. As a result it does not reset `step` (`ReopenAfterSuccessShowsConfirmation`).
- The intent response is assumed to be a descriptor. If the service resolved to `null` or `undefined`, line 36 would store it and line 37 would still move to the payment step, where line 129 renders nothing. `Ok` always carries a `PaymentData`, and `ReachableShowsOneSection` rests on this assumption.
- A rejection that is not an `Error` object would toast `undefined` at line 40. `Err` always carries a message string.
- `slice(-8)` at line 66 counts UTF-16 code units, while `string` here is a sequence of Unicode scalar values. `ProjectSuffix` therefore differs from the code for project ids holding characters outside the Basic Multilingual Plane.
