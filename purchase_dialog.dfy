/**
 * The purchase dialog's handlers as methods on an object holding its two state cells,
 * with a log of the effects each handler produces, and what a sequence of handler runs
 * guarantees about what the dialog shows.
 */
module PurchaseDialogState {
  import opened PurchaseTypes
  import opened PurchaseView
  import opened PurchaseFlow

  class PurchaseDialog {
    /** The `step` state cell. */
    var step: Step
    /** The `paymentData` state cell. */
    var paymentData: Option<PaymentData>
    /** Every state write, service call, toast and caller callback so far, in order. */
    ghost var effects: seq<Effect>

    function Current(): State
      reads this
    {
      State(step, paymentData)
    }

    /** A freshly mounted dialog: the selection step and no payment descriptor. */
    constructor ()
      ensures Current() == Initial && effects == []
    {
      step := Selection;
      paymentData := None;
      effects := [];
    }

    /**
     * `handleCreatePaymentIntent`, given how the service call settled. It does not look at
     * `step` or at the quantity guard; only the rendering keeps it to the selection step.
     */
    method CreatePaymentIntent(credit: Option<Credit>, purchaseAmount: real, response: IntentOutcome)
      modifies this
      ensures credit.None? ==> Current() == old(Current()) && effects == old(effects)
      ensures credit.Some? && response.Ok? ==>
                step == Payment && paymentData == Some(response.intent) &&
                effects == old(effects) + [IntentRequested(credit.value.id, purchaseAmount),
                                           PaymentDataSet(response.intent), StepSet(Payment)]
      ensures credit.Some? && response.Err? ==>
                Current() == old(Current()) &&
                effects == old(effects) + [IntentRequested(credit.value.id, purchaseAmount), Toast(response.message)]
      ensures (Current(), effects[|old(effects)|..]) == Next(old(Current()), CreateIntent(credit, purchaseAmount, response))
      ensures effects[..|old(effects)|] == old(effects)
    {
      if credit.None? {
        assert effects[|effects|..] == [];
        return;
      }
      effects := effects + [IntentRequested(credit.value.id, purchaseAmount)];
      match response
      case Ok(intent) =>
        paymentData := Some(intent);
        effects := effects + [PaymentDataSet(intent)];
        step := Payment;
        effects := effects + [StepSet(Payment)];
      case Err(message) =>
        effects := effects + [Toast(message)];
    }

    /**
     * `handlePaymentSuccess`: from any step, move to the success step and notify the caller.
     * Nothing stops a second call from notifying again.
     */
    method PaymentSuccess()
      modifies this
      ensures step == Success && paymentData == old(paymentData)
      ensures effects == old(effects) + [StepSet(Success), PurchaseSucceeded]
      ensures (Current(), effects[|old(effects)|..]) == Next(old(Current()), PaymentSucceeded)
    {
      step := Success;
      effects := effects + [StepSet(Success)];
      effects := effects + [PurchaseSucceeded];
    }

    /** The payment form's `onCancel`: back to the selection step, keeping the payment descriptor. */
    method PaymentCancel()
      modifies this
      ensures step == Selection && paymentData == old(paymentData)
      ensures effects == old(effects) + [StepSet(Selection)]
      ensures (Current(), effects[|old(effects)|..]) == Next(old(Current()), PaymentCancelled)
    {
      step := Selection;
      effects := effects + [StepSet(Selection)];
    }

    /**
     * `handleClose`: closing resets the step, opening leaves it; either way the flag is
     * forwarded to `onOpenChange` once, after the reset. The payment descriptor is kept.
     */
    method Close(open: bool)
      modifies this
      ensures step == (if open then old(step) else Selection) && paymentData == old(paymentData)
      ensures effects == old(effects) + (if open then [] else [StepSet(Selection)]) + [OpenChanged(open)]
      ensures (Current(), effects[|old(effects)|..]) == Next(old(Current()), DialogOpenChange(open))
    {
      if !open {
        step := Selection;
        effects := effects + [StepSet(Selection)];
      }
      effects := effects + [OpenChanged(open)];
      assert effects[|old(effects)|..] == (if open then [] else [StepSet(Selection)]) + [OpenChanged(open)];
      assert Next(old(Current()), DialogOpenChange(open)).1 == effects[|old(effects)|..];
      assert Next(old(Current()), DialogOpenChange(open)).0 == Current();
    }

    /** The selection step's Cancel button: asks the caller to close, without resetting anything. */
    method SelectionCancel()
      modifies this
      ensures Current() == old(Current())
      ensures effects == old(effects) + [OpenChanged(false)]
      ensures (Current(), effects[|old(effects)|..]) == Next(old(Current()), SelectionCancelled)
    {
      effects := effects + [OpenChanged(false)];
    }
  }

  /**
   * Whatever handlers have run since the dialog was mounted, exactly one section shows
   * while the dialog is open and there is a credit: the payment step always has a
   * descriptor to pay.
   */
  lemma {:induction false} ReachableShowsOneSection(events: seq<Event>, credit: Credit)
    ensures var s := Run(Initial, events).0;
            |VisibleSections(true, Some(credit), s.step, s.paymentData)| == 1
  {
    RunKeepsPaymentHasIntent(Initial, events);
  }

  /**
   * Only `handleClose` resets the step. When the caller closes the dialog by setting its
   * `open` prop to false, no handler runs, so after a successful payment the dialog
   * reopens on the confirmation.
   */
  lemma {:induction false} ReopenAfterSuccessShowsConfirmation(credit: Credit, quantity: real, intent: PaymentData)
    ensures var s := Run(Initial, [CreateIntent(Some(credit), quantity, Ok(intent)), PaymentSucceeded]).0;
            s == State(Success, Some(intent)) &&
            VisibleSections(false, Some(credit), s.step, s.paymentData) == {} &&
            VisibleSections(true, Some(credit), s.step, s.paymentData) == {ConfirmationSection}
  {
    var events := [CreateIntent(Some(credit), quantity, Ok(intent)), PaymentSucceeded];
    assert events[..1] == [events[0]] && events[..1][..0] == [];
  }

  /**
   * An instance of `PaymentDataIsLatestIntent`: cancelling a payment goes back to the
   * selection step but keeps the intent that was created.
   */
  lemma CancelKeepsIntent(s: State, credit: Credit, quantity: real, intent: PaymentData)
    ensures Run(s, [CreateIntent(Some(credit), quantity, Ok(intent)), PaymentCancelled]).0
            == State(Selection, Some(intent))
  {
    assert [CreateIntent(Some(credit), quantity, Ok(intent)), PaymentCancelled][..1]
        == [CreateIntent(Some(credit), quantity, Ok(intent))];
  }

  /** A second payment-success callback notifies the caller a second time. */
  lemma {:induction false} RepeatedSuccessNotifiesTwice(s: State)
    ensures Run(s, [PaymentSucceeded, PaymentSucceeded]).0.step == Success
    ensures Notifications(Run(s, [PaymentSucceeded, PaymentSucceeded]).1) == 2
  {
    var events := [PaymentSucceeded, PaymentSucceeded];
    assert events[..1] == [PaymentSucceeded] && events[..1][..0] == [];
    NotificationsCountConfirmations(s, events);
  }
}
