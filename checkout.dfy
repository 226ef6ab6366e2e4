/**
 * The checkout wizard: three steps (delivery, payment, review), two form
 * records edited field by field, a Continue button guarded by the current
 * step's form, "Editar" buttons on the review step that jump back, and the
 * order placement that only the review step offers.
 */
module Checkout {

  import opened Util

  datatype Step = Delivery | Payment | Review

  /** The steps in the order the progress bar shows them. */
  const Steps: seq<Step> := [Delivery, Payment, Review]

  /** `steps.findIndex(s => s.id === step)`: the first position of the step. */
  function StepIndex(step: Step): (i: nat)
    ensures i < |Steps| && Steps[i] == step
    ensures forall j :: 0 <= j < i ==> Steps[j] != step
  {
    match step
    case Delivery => 0
    case Payment => 1
    case Review => 2
  }

  // ---------------------------------------------------------------------------
  // The two form records
  // ---------------------------------------------------------------------------

  datatype DeliveryField = FullName | Email | Phone | Cep | Street | Number | Complement | City | State

  datatype DeliveryForm = DeliveryForm(
    fullName: string, email: string, phone: string, cep: string, street: string,
    number: string, complement: string, city: string, state: string)

  const EmptyDelivery := DeliveryForm("", "", "", "", "", "", "", "", "")

  function DeliveryValue(d: DeliveryForm, field: DeliveryField): string
  {
    match field
    case FullName => d.fullName
    case Email => d.email
    case Phone => d.phone
    case Cep => d.cep
    case Street => d.street
    case Number => d.number
    case Complement => d.complement
    case City => d.city
    case State => d.state
  }

  /** `handleDeliveryChange`: the input named `field` now holds `value`, and
      every other field keeps its value. */
  function SetDelivery(d: DeliveryForm, field: DeliveryField, value: string): (r: DeliveryForm)
    ensures DeliveryValue(r, field) == value
    ensures forall g :: g != field ==> DeliveryValue(r, g) == DeliveryValue(d, g)
  {
    match field
    case FullName => d.(fullName := value)
    case Email => d.(email := value)
    case Phone => d.(phone := value)
    case Cep => d.(cep := value)
    case Street => d.(street := value)
    case Number => d.(number := value)
    case Complement => d.(complement := value)
    case City => d.(city := value)
    case State => d.(state := value)
  }

  datatype PaymentField = Method | CardName | CardNumber | CardExpiry | CardCVC | PixKey | BoletoData

  /** The payment method (the `method` field) is the value of the chosen radio button:
      "credit-card", "pix" or "boleto". */
  datatype PaymentForm = PaymentForm(
    paymentMethod: string, cardName: string, cardNumber: string, cardExpiry: string,
    cardCVC: string, pixKey: string, boletoData: string)

  const InitialPayment := PaymentForm("credit-card", "", "", "", "", "", "")

  function PaymentValue(p: PaymentForm, field: PaymentField): string
  {
    match field
    case Method => p.paymentMethod
    case CardName => p.cardName
    case CardNumber => p.cardNumber
    case CardExpiry => p.cardExpiry
    case CardCVC => p.cardCVC
    case PixKey => p.pixKey
    case BoletoData => p.boletoData
  }

  /** `handlePaymentChange`: the input named `field` now holds `value`, and
      every other field keeps its value. */
  function SetPayment(p: PaymentForm, field: PaymentField, value: string): (r: PaymentForm)
    ensures PaymentValue(r, field) == value
    ensures forall g :: g != field ==> PaymentValue(r, g) == PaymentValue(p, g)
  {
    match field
    case Method => p.(paymentMethod := value)
    case CardName => p.(cardName := value)
    case CardNumber => p.(cardNumber := value)
    case CardExpiry => p.(cardExpiry := value)
    case CardCVC => p.(cardCVC := value)
    case PixKey => p.(pixKey := value)
    case BoletoData => p.(boletoData := value)
  }

  // ---------------------------------------------------------------------------
  // Continue
  // ---------------------------------------------------------------------------

  /** The inputs the delivery step insists on; the others may stay blank. */
  predicate Required(field: DeliveryField)
  {
    field == FullName || field == Email || field == Street
  }

  /** The delivery step asks for a name, an e-mail address and a street: it is
      complete iff no required input is blank, so the empty form the page
      starts with is not. */
  predicate DeliveryComplete(d: DeliveryForm): (r: bool)
    ensures r <==> forall f :: Required(f) ==> DeliveryValue(d, f) != ""
    ensures d == EmptyDelivery ==> !r
  {
    assert DeliveryValue(d, FullName) == d.fullName && DeliveryValue(d, Email) == d.email;
    assert DeliveryValue(d, Street) == d.street;
    d.fullName != "" && d.email != "" && d.street != ""
  }

  /** The payment step asks for a card number when paying by card, and for
      nothing otherwise; the form the page starts with (card chosen, number
      blank) is not complete. */
  predicate PaymentComplete(p: PaymentForm): (r: bool)
    ensures p.paymentMethod != "credit-card" ==> r
    ensures p.paymentMethod == "credit-card" ==> (r <==> p.cardNumber != "")
    ensures p == InitialPayment ==> !r
  {
    p.paymentMethod != "credit-card" || p.cardNumber != ""
  }

  /** `handleContinue`: the step it leads to. */
  function Continue(step: Step, d: DeliveryForm, p: PaymentForm): (next: Step)
    ensures step == Delivery ==> (next == Payment <==> DeliveryComplete(d))
    ensures step == Delivery && !DeliveryComplete(d) ==> next == Delivery
    ensures step == Payment ==> (next == Review <==> PaymentComplete(p))
    ensures step == Payment && !PaymentComplete(p) ==> next == Payment
    ensures step == Payment && p.paymentMethod != "credit-card" ==> next == Review
    ensures step == Review ==> next == Review
    ensures StepIndex(step) <= StepIndex(next) <= StepIndex(step) + 1
  {
    if step == Delivery then
      if !DeliveryComplete(d) then Delivery else Payment
    else if step == Payment then
      if !PaymentComplete(p) then Payment else Review
    else
      step
  }

  // ---------------------------------------------------------------------------
  // The progress bar
  // ---------------------------------------------------------------------------

  datatype Badge = Current | Completed | Upcoming

  /** The badge of the step at `index`: highlighted when it is the current
      step, checked when the current step comes after it.  Exactly one step is
      current, those before it are completed and those after it upcoming. */
  function BadgeOf(current: Step, index: nat): (b: Badge)
    requires index < |Steps|
    ensures b == Completed <==> index < StepIndex(current)
    ensures b == Current <==> index == StepIndex(current)
    ensures b == Upcoming <==> index > StepIndex(current)
  {
    assert Steps[index] == current ==> index == StepIndex(current) by {
      assert forall i, j :: 0 <= i < j < |Steps| ==> Steps[i] != Steps[j];
    }
    if Steps[index] == current then Current
    else if StepIndex(current) > index then Completed
    else Upcoming
  }


  // ---------------------------------------------------------------------------
  // The wizard as a state machine
  // ---------------------------------------------------------------------------

  datatype Wizard = Wizard(step: Step, delivery: DeliveryForm, payment: PaymentForm)

  const Start := Wizard(Delivery, EmptyDelivery, InitialPayment)

  /** What the user can do on the page without leaving it; placing the order
      leaves it and is `CheckoutPage.HandlePlaceOrder`. */
  datatype Event =
    | EditDelivery(dField: DeliveryField, dValue: string)
    | EditPayment(pField: PaymentField, pValue: string)
    | ContinueClicked
    | BackToDelivery
    | BackToPayment

  /** Every step the wizard can be on holds the data the steps before it
      asked for: the payment and review steps have a complete delivery form,
      and the review step a complete payment form. */
  predicate Consistent(w: Wizard)
  {
    && (w.step != Delivery ==> DeliveryComplete(w.delivery))
    && (w.step == Review ==> PaymentComplete(w.payment))
  }

  /** The effect of an event, or `None` when its control is not rendered on
      the current step: the delivery inputs only on delivery, the payment
      inputs only on payment, Continue everywhere but review, and the two
      "Editar" buttons only on review. */
  function Handle(w: Wizard, e: Event): (r: Option<Wizard>)
    ensures Consistent(w) && r.Some? ==> Consistent(r.value)
    ensures r.Some? ==> StepIndex(r.value.step) <= StepIndex(w.step) + 1
    ensures r.Some? && e.ContinueClicked? ==> r.value.delivery == w.delivery && r.value.payment == w.payment
    ensures r.Some? && (e.BackToDelivery? || e.BackToPayment?) ==>
              r.value.delivery == w.delivery && r.value.payment == w.payment
    ensures r.Some? && e.EditDelivery? ==> r.value.step == w.step && r.value.payment == w.payment
    ensures r.Some? && e.EditPayment? ==> r.value.step == w.step && r.value.delivery == w.delivery
  {
    match e
    case EditDelivery(field, value) =>
      if w.step == Delivery then Some(w.(delivery := SetDelivery(w.delivery, field, value))) else None
    case EditPayment(field, value) =>
      if w.step == Payment then Some(w.(payment := SetPayment(w.payment, field, value))) else None
    case ContinueClicked =>
      if w.step != Review then Some(w.(step := Continue(w.step, w.delivery, w.payment))) else None
    case BackToDelivery =>
      if w.step == Review then Some(w.(step := Delivery)) else None
    case BackToPayment =>
      if w.step == Review then Some(w.(step := Payment)) else None
  }

  /** A session of events, stopping at the first one whose control is not
      rendered. */
  function Run(w: Wizard, events: seq<Event>): Option<Wizard>
    decreases |events|
  {
    if events == [] then Some(w)
    else
      match Handle(w, events[0])
      case None => None
      case Some(w') => Run(w', events[1..])
  }

  /** Every session keeps the wizard consistent. */
  lemma {:induction false} RunKeepsConsistent(w: Wizard, events: seq<Event>)
    requires Consistent(w)
    ensures Run(w, events).Some? ==> Consistent(Run(w, events).value)
    decreases |events|
  {
    if events != [] {
      var next := Handle(w, events[0]);
      if next.Some? {
        RunKeepsConsistent(next.value, events[1..]);
      }
    }
  }

  /** Whatever the user did since the page opened, the review step (the only
      one offering order placement) is reached only with a name, an e-mail
      address, a street and, when paying by card, a card number. */
  lemma ReviewNeedsCompleteForms(events: seq<Event>)
    requires Run(Start, events).Some? && Run(Start, events).value.step == Review
    ensures DeliveryComplete(Run(Start, events).value.delivery)
    ensures PaymentComplete(Run(Start, events).value.payment)
  {
    RunKeepsConsistent(Start, events);
  }

  /** Where placing the order leads: the confirmation page with the order id. */
  function ConfirmationPath(orderId: string): (path: string)
    ensures |path| == |"/confirmacao?orderId="| + |orderId|
    ensures path[|"/confirmacao?orderId="|..] == orderId
  {
    "/confirmacao?orderId=" + orderId
  }

  // ---------------------------------------------------------------------------
  // The page's state
  // ---------------------------------------------------------------------------

  class CheckoutPage {
    var currentStep: Step
    var deliveryForm: DeliveryForm
    var paymentForm: PaymentForm

    function State(): Wizard
      reads this
    {
      Wizard(currentStep, deliveryForm, paymentForm)
    }

    ghost predicate Valid()
      reads this
    {
      Consistent(State())
    }

    constructor ()
      ensures Valid() && State() == Start
    {
      currentStep := Delivery;
      deliveryForm := EmptyDelivery;
      paymentForm := InitialPayment;
    }

    /** An input of the delivery form, rendered on the delivery step only. */
    method HandleDeliveryChange(field: DeliveryField, value: string)
      requires Valid() && currentStep == Delivery
      modifies this
      ensures Valid() && Handle(old(State()), EditDelivery(field, value)) == Some(State())
      ensures deliveryForm == SetDelivery(old(deliveryForm), field, value)
      ensures currentStep == old(currentStep) && paymentForm == old(paymentForm)
    {
      deliveryForm := SetDelivery(deliveryForm, field, value);
    }

    /** An input of the payment form, rendered on the payment step only. */
    method HandlePaymentChange(field: PaymentField, value: string)
      requires Valid() && currentStep == Payment
      modifies this
      ensures Valid() && Handle(old(State()), EditPayment(field, value)) == Some(State())
      ensures paymentForm == SetPayment(old(paymentForm), field, value)
      ensures currentStep == old(currentStep) && deliveryForm == old(deliveryForm)
    {
      paymentForm := SetPayment(paymentForm, field, value);
    }

    /** `handleContinue`: advance when the current step's form is complete;
        on the review step there is no branch and nothing changes. */
    method HandleContinue()
      requires Valid()
      modifies this
      ensures Valid()
      ensures currentStep == Continue(old(currentStep), deliveryForm, paymentForm)
      ensures deliveryForm == old(deliveryForm) && paymentForm == old(paymentForm)
      ensures old(currentStep) != Review ==> Handle(old(State()), ContinueClicked) == Some(State())
    {
      if currentStep == Delivery {
        if deliveryForm.fullName == "" || deliveryForm.email == "" || deliveryForm.street == "" {
          return;
        }
        currentStep := Payment;
      } else if currentStep == Payment {
        if paymentForm.paymentMethod == "credit-card" && paymentForm.cardNumber == "" {
          return;
        }
        currentStep := Review;
      }
    }

    /** "Editar" under the delivery summary of the review step. */
    method EditDeliveryStep()
      requires Valid() && currentStep == Review
      modifies this
      ensures Valid() && Handle(old(State()), BackToDelivery) == Some(State())
      ensures currentStep == Delivery
      ensures deliveryForm == old(deliveryForm) && paymentForm == old(paymentForm)
    {
      currentStep := Delivery;
    }

    /** "Editar" under the payment summary of the review step. */
    method EditPaymentStep()
      requires Valid() && currentStep == Review
      modifies this
      ensures Valid() && Handle(old(State()), BackToPayment) == Some(State())
      ensures currentStep == Payment
      ensures deliveryForm == old(deliveryForm) && paymentForm == old(paymentForm)
    {
      currentStep := Payment;
    }

    /** `handlePlaceOrder`, rendered on the review step only: the order id is
        supplied by the caller; the page navigates to the confirmation page
        and changes none of its own state. */
    method HandlePlaceOrder(orderId: string) returns (location: string)
      requires Valid() && currentStep == Review
      ensures location == ConfirmationPath(orderId)
      ensures DeliveryComplete(deliveryForm) && PaymentComplete(paymentForm)
    {
      location := "/confirmacao?orderId=" + orderId;
    }
  }
}
