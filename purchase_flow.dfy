/**
 * The purchase dialog's step controller as a pure transition function over its two state
 * cells, with the outgoing effects of each handler recorded in the order they happen.
 * The class in PurchaseDialogState implements these transitions in place and is proved
 * to agree with `Next`.
 */
module PurchaseFlow {
  import opened PurchaseTypes

  /** The two state cells of the dialog. */
  datatype State = State(step: Step, paymentData: Option<PaymentData>)

  /** The state a freshly mounted dialog starts in. */
  const Initial: State := State(Selection, None)

  /** What the handlers do, in order: state writes, service calls, toasts and caller callbacks. */
  datatype Effect =
    | IntentRequested(creditId: string, quantity: real)
    | PaymentDataSet(data: PaymentData)
    | StepSet(step: Step)
    | Toast(message: string)
    | PurchaseSucceeded
    | OpenChanged(open: bool)

  /**
   * The events the dialog reacts to. A `CreateIntent` carries the props current when the
   * "Proceed to Payment" click is handled and the outcome of the service call.
   */
  datatype Event =
    | CreateIntent(credit: Option<Credit>, quantity: real, outcome: IntentOutcome)
    | PaymentSucceeded
    | PaymentCancelled
    | DialogOpenChange(open: bool)
    | SelectionCancelled

  /** Number of `onPurchaseSuccess` calls among the effects. */
  function Notifications(effects: seq<Effect>): nat
  {
    if effects == [] then 0
    else (if effects[0] == PurchaseSucceeded then 1 else 0) + Notifications(effects[1..])
  }

  /** The messages of the toasts among the effects, in order. */
  function Toasts(effects: seq<Effect>): seq<string>
  {
    if effects == [] then []
    else (if effects[0].Toast? then [effects[0].message] else []) + Toasts(effects[1..])
  }

  /** The arguments passed to `onOpenChange` among the effects, in order. */
  function OpenChanges(effects: seq<Effect>): seq<bool>
  {
    if effects == [] then []
    else (if effects[0].OpenChanged? then [effects[0].open] else []) + OpenChanges(effects[1..])
  }

  /** The payment-intent service calls among the effects, in order. */
  function Requests(effects: seq<Effect>): seq<(string, real)>
  {
    if effects == [] then []
    else
      (if effects[0].IntentRequested? then [(effects[0].creditId, effects[0].quantity)] else [])
        + Requests(effects[1..])
  }

  /**
   * One handler run: the new state and the effects it produces, in order.
   * Creating an intent without a credit does nothing; a successful intent stores the
   * response and moves to the payment step; a failed one only toasts. Payment success
   * moves to the success step and notifies the caller; payment cancel moves back to
   * selection; closing the dialog resets the step before forwarding the flag; the
   * selection step's Cancel button only forwards `false`. No handler clears `paymentData`.
   */
  function Next(s: State, e: Event): (r: (State, seq<Effect>))
    ensures r.0.paymentData != s.paymentData ==> e.CreateIntent? && e.credit.Some? && e.outcome.Ok?
    ensures r.0.step != s.step ==> r.0.step == (if e.CreateIntent? then Payment
                                                else if e.PaymentSucceeded? then Success
                                                else Selection)
    ensures e.DialogOpenChange? || e.SelectionCancelled? ==> |r.1| > 0 && r.1[|r.1| - 1].OpenChanged?
  {
    match e
    case CreateIntent(credit, quantity, outcome) =>
      if credit.None? then (s, [])
      else (
        match outcome
        case Ok(response) =>
          (State(Payment, Some(response)),
           [IntentRequested(credit.value.id, quantity), PaymentDataSet(response), StepSet(Payment)])
        case Err(message) =>
          (s, [IntentRequested(credit.value.id, quantity), Toast(message)]))
    case PaymentSucceeded =>
      (s.(step := Success), [StepSet(Success), PurchaseSucceeded])
    case PaymentCancelled =>
      (s.(step := Selection), [StepSet(Selection)])
    case DialogOpenChange(open) =>
      if !open then (s.(step := Selection), [StepSet(Selection), OpenChanged(false)])
      else (s, [OpenChanged(true)])
    case SelectionCancelled =>
      (s, [OpenChanged(false)])
  }

  /**
   * What one handler run is observed to do: only payment success notifies, and exactly
   * once; only a failed request (made with a credit) toasts, with the error's message;
   * a request reaches the service only when there is a credit; `onOpenChange` gets the
   * close flag, or `false` from the Cancel button, and nothing else calls it.
   */
  lemma NextObservations(s: State, e: Event)
    ensures Notifications(Next(s, e).1) == if e.PaymentSucceeded? then 1 else 0
    ensures Toasts(Next(s, e).1) == if e.CreateIntent? && e.credit.Some? && e.outcome.Err? then [e.outcome.message] else []
    ensures Requests(Next(s, e).1) == if e.CreateIntent? && e.credit.Some? then [(e.credit.value.id, e.quantity)] else []
    ensures OpenChanges(Next(s, e).1) == if e.DialogOpenChange? then [e.open] else if e.SelectionCancelled? then [false] else []
  {
    match e
    case CreateIntent(credit, quantity, outcome) =>
      if credit.Some? {
        ObserveRequest(s, credit.value, quantity, outcome);
      } else {
        assert Next(s, e).1 == [];
      }
    case PaymentSucceeded =>
      ObservePaymentSucceeded(s);
    case PaymentCancelled =>
      SingleEffect(StepSet(Selection));
    case DialogOpenChange(open) =>
      ObserveOpenChange(s, open);
    case SelectionCancelled =>
      SingleEffect(OpenChanged(false));
  }

  /** `NextObservations` for an intent request made with a credit. */
  lemma ObserveRequest(s: State, credit: Credit, quantity: real, outcome: IntentOutcome)
    ensures var effects := Next(s, CreateIntent(Some(credit), quantity, outcome)).1;
            Notifications(effects) == 0 &&
            Toasts(effects) == (if outcome.Err? then [outcome.message] else []) &&
            Requests(effects) == [(credit.id, quantity)] &&
            OpenChanges(effects) == []
  {
    var request := IntentRequested(credit.id, quantity);
    SingleEffect(request);
    match outcome
    case Ok(response) =>
      var head := [request] + [PaymentDataSet(response)];
      assert Next(s, CreateIntent(Some(credit), quantity, outcome)).1 == head + [StepSet(Payment)];
      SingleEffect(PaymentDataSet(response));
      SingleEffect(StepSet(Payment));
      ObservationsAppend([request], [PaymentDataSet(response)]);
      ObservationsAppend(head, [StepSet(Payment)]);
    case Err(message) =>
      assert Next(s, CreateIntent(Some(credit), quantity, outcome)).1 == [request] + [Toast(message)];
      SingleEffect(Toast(message));
      ObservationsAppend([request], [Toast(message)]);
  }

  /** `NextObservations` for the payment-success callback. */
  lemma ObservePaymentSucceeded(s: State)
    ensures var effects := Next(s, PaymentSucceeded).1;
            Notifications(effects) == 1 && Toasts(effects) == [] &&
            Requests(effects) == [] && OpenChanges(effects) == []
  {
    assert Next(s, PaymentSucceeded).1 == [StepSet(Success)] + [PurchaseSucceeded];
    SingleEffect(StepSet(Success));
    SingleEffect(PurchaseSucceeded);
    ObservationsAppend([StepSet(Success)], [PurchaseSucceeded]);
  }

  /** `NextObservations` for `handleClose`. */
  lemma ObserveOpenChange(s: State, open: bool)
    ensures var effects := Next(s, DialogOpenChange(open)).1;
            Notifications(effects) == 0 && Toasts(effects) == [] &&
            Requests(effects) == [] && OpenChanges(effects) == [open]
  {
    SingleEffect(OpenChanged(open));
    if !open {
      assert Next(s, DialogOpenChange(open)).1 == [StepSet(Selection)] + [OpenChanged(false)];
      SingleEffect(StepSet(Selection));
      ObservationsAppend([StepSet(Selection)], [OpenChanged(false)]);
    }
  }

  /** What a single effect contributes to each observation. */
  lemma SingleEffect(x: Effect)
    ensures Notifications([x]) == if x == PurchaseSucceeded then 1 else 0
    ensures Toasts([x]) == if x.Toast? then [x.message] else []
    ensures Requests([x]) == if x.IntentRequested? then [(x.creditId, x.quantity)] else []
    ensures OpenChanges([x]) == if x.OpenChanged? then [x.open] else []
  {
    assert [x][1..] == [];
  }

  /** Each observation of a concatenation of effects is the concatenation of the observations. */
  lemma ObservationsAppend(a: seq<Effect>, b: seq<Effect>)
    ensures Notifications(a + b) == Notifications(a) + Notifications(b)
    ensures Toasts(a + b) == Toasts(a) + Toasts(b)
    ensures Requests(a + b) == Requests(a) + Requests(b)
    ensures OpenChanges(a + b) == OpenChanges(a) + OpenChanges(b)
  {
    NotificationsAppend(a, b);
    ToastsAppend(a, b);
    RequestsAppend(a, b);
    OpenChangesAppend(a, b);
  }

  lemma {:induction false} NotificationsAppend(a: seq<Effect>, b: seq<Effect>)
    ensures Notifications(a + b) == Notifications(a) + Notifications(b)
    decreases |a|
  {
    if a == [] {
      assert a + b == b;
    } else {
      assert (a + b)[0] == a[0] && (a + b)[1..] == a[1..] + b;
      NotificationsAppend(a[1..], b);
    }
  }

  lemma {:induction false} ToastsAppend(a: seq<Effect>, b: seq<Effect>)
    ensures Toasts(a + b) == Toasts(a) + Toasts(b)
    decreases |a|
  {
    if a == [] {
      assert a + b == b;
    } else {
      assert (a + b)[0] == a[0] && (a + b)[1..] == a[1..] + b;
      ToastsAppend(a[1..], b);
    }
  }

  lemma {:induction false} RequestsAppend(a: seq<Effect>, b: seq<Effect>)
    ensures Requests(a + b) == Requests(a) + Requests(b)
    decreases |a|
  {
    if a == [] {
      assert a + b == b;
    } else {
      assert (a + b)[0] == a[0] && (a + b)[1..] == a[1..] + b;
      RequestsAppend(a[1..], b);
    }
  }

  lemma {:induction false} OpenChangesAppend(a: seq<Effect>, b: seq<Effect>)
    ensures OpenChanges(a + b) == OpenChanges(a) + OpenChanges(b)
    decreases |a|
  {
    if a == [] {
      assert a + b == b;
    } else {
      assert (a + b)[0] == a[0] && (a + b)[1..] == a[1..] + b;
      OpenChangesAppend(a[1..], b);
    }
  }

  /** A sequence of handler runs from `s`: the final state and every effect, in order. */
  function Run(s: State, events: seq<Event>): (State, seq<Effect>)
  {
    if events == [] then (s, [])
    else
      var before := Run(s, events[..|events| - 1]);
      var after := Next(before.0, events[|events| - 1]);
      (after.0, before.1 + after.1)
  }

  /** How many payment-success callbacks the events hold. */
  function Confirmations(events: seq<Event>): nat
  {
    if events == [] then 0
    else Confirmations(events[..|events| - 1]) + (if events[|events| - 1].PaymentSucceeded? then 1 else 0)
  }

  /** The error messages of the failed intent requests that were made (with a credit), in order. */
  function FailureMessages(events: seq<Event>): seq<string>
  {
    if events == [] then []
    else
      var e := events[|events| - 1];
      FailureMessages(events[..|events| - 1])
        + (if e.CreateIntent? && e.credit.Some? && e.outcome.Err? then [e.outcome.message] else [])
  }

  /** The response of the most recent successful intent request, or `otherwise` when there is none. */
  function LatestIntent(events: seq<Event>, otherwise: Option<PaymentData>): Option<PaymentData>
  {
    if events == [] then otherwise
    else
      var e := events[|events| - 1];
      if e.CreateIntent? && e.credit.Some? && e.outcome.Ok? then Some(e.outcome.intent)
      else LatestIntent(events[..|events| - 1], otherwise)
  }

  /** Every payment-success callback notifies the caller once, whatever the step was before. */
  lemma {:induction false} NotificationsCountConfirmations(s: State, events: seq<Event>)
    ensures Notifications(Run(s, events).1) == Confirmations(events)
    decreases |events|
  {
    if events != [] {
      var before := Run(s, events[..|events| - 1]);
      var after := Next(before.0, events[|events| - 1]);
      NotificationsCountConfirmations(s, events[..|events| - 1]);
      NextObservations(before.0, events[|events| - 1]);
      ObservationsAppend(before.1, after.1);
    }
  }

  /** Exactly the failed intent requests toast, each with its error message verbatim and in order. */
  lemma {:induction false} ToastsAreFailureMessages(s: State, events: seq<Event>)
    ensures Toasts(Run(s, events).1) == FailureMessages(events)
    decreases |events|
  {
    if events != [] {
      var before := Run(s, events[..|events| - 1]);
      var after := Next(before.0, events[|events| - 1]);
      ToastsAreFailureMessages(s, events[..|events| - 1]);
      NextObservations(before.0, events[|events| - 1]);
      ObservationsAppend(before.1, after.1);
    }
  }

  /**
   * `paymentData` always holds the response of the most recent successful intent request:
   * cancelling or closing never clears it.
   */
  lemma {:induction false} PaymentDataIsLatestIntent(s: State, events: seq<Event>)
    ensures Run(s, events).0.paymentData == LatestIntent(events, s.paymentData)
    decreases |events|
  {
    if events != [] {
      PaymentDataIsLatestIntent(s, events[..|events| - 1]);
    }
  }

  /** In the payment step there is always an intent to pay. */
  predicate PaymentHasIntent(s: State)
  {
    s.step == Payment ==> s.paymentData.Some?
  }

  lemma {:induction false} RunKeepsPaymentHasIntent(s: State, events: seq<Event>)
    requires PaymentHasIntent(s)
    ensures PaymentHasIntent(Run(s, events).0)
    decreases |events|
  {
    if events != [] {
      RunKeepsPaymentHasIntent(s, events[..|events| - 1]);
    }
  }
}
