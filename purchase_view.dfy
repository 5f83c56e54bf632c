/** The pure rules the dialog's rendering applies to its props and state. */
module PurchaseView {
  import opened PurchaseTypes

  /** Price of one credit in rupees, used for the cost estimate and the payment prompt. */
  const PricePerCredit: real := 1250.0

  /** The lower bound the quantity input declares (`min={1}`). */
  const MinQuantity: real := 1.0

  /** The range the quantity input declares: from `MinQuantity` up to what the credit has available. */
  predicate InInputRange(quantity: real, credit: Credit)
  {
    MinQuantity <= quantity <= credit.amount
  }

  /** The `disabled` guard of the "Proceed to Payment" button, as written on the button. */
  function ProceedDisabled(quantity: real, credit: Credit): (disabled: bool)
    ensures !disabled <==> 1.0 <= quantity <= credit.amount
    ensures !disabled <==> InInputRange(quantity, credit)
  {
    quantity < 1.0 || quantity > credit.amount
  }

  /** The estimated cost shown in the purchase summary and in the payment prompt. */
  function EstimatedCost(quantity: real): (cost: real)
    ensures cost / PricePerCredit == quantity
    ensures quantity >= MinQuantity ==> cost >= PricePerCredit
  {
    quantity * PricePerCredit
  }

  /** `projectId.slice(-8)`: the last eight characters, or the whole id when it is shorter. */
  function ProjectSuffix(projectId: string): (suffix: string)
    ensures |suffix| == if |projectId| < 8 then |projectId| else 8
    ensures suffix == projectId[|projectId| - |suffix|..]
  {
    if |projectId| <= 8 then projectId else projectId[|projectId| - 8..]
  }

  /** The sections of the dialog body. */
  datatype Section = SelectionSection | PaymentFormSection | ConfirmationSection

  /**
   * The sections that are rendered. Nothing is rendered without a credit, and the dialog
   * shows no content while its `open` prop is false; otherwise each section is guarded by
   * its own test of `step` (and the payment form also by `paymentData`).
   */
  function VisibleSections(open: bool, credit: Option<Credit>, step: Step, paymentData: Option<PaymentData>): (shown: set<Section>)
    ensures |shown| <= 1
    ensures !open || credit.None? ==> shown == {}
    ensures SelectionSection in shown <==> open && credit.Some? && step == Selection
    ensures PaymentFormSection in shown <==> open && credit.Some? && step == Payment && paymentData.Some?
    ensures ConfirmationSection in shown <==> open && credit.Some? && step == Success
  {
    if credit.None? || !open then {}
    else if step == Selection then {SelectionSection}
    else if step == Payment && paymentData.Some? then {PaymentFormSection}
    else if step == Success then {ConfirmationSection}
    else {}
  }

  /** The text of the dialog description, with the number formatting left abstract. */
  datatype Description =
    | ChooseCredits(projectSuffix: string)
    | ConfirmPayment(cost: real)
    | Completed

  /** The description shown for each step: three mutually exclusive conditional texts. */
  function Describe(step: Step, credit: Credit, quantity: real): (d: Description)
    ensures d.ChooseCredits? <==> step == Selection
    ensures d.ConfirmPayment? <==> step == Payment
    ensures d.Completed? <==> step == Success
    ensures d.ChooseCredits? ==>
              |d.projectSuffix| == (if |credit.projectId| < 8 then |credit.projectId| else 8) &&
              d.projectSuffix == credit.projectId[|credit.projectId| - |d.projectSuffix|..]
    ensures d.ConfirmPayment? ==> d.cost / PricePerCredit == quantity
  {
    match step
    case Selection => ChooseCredits(ProjectSuffix(credit.projectId))
    case Payment => ConfirmPayment(EstimatedCost(quantity))
    case Success => Completed
  }
}
