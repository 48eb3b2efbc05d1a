/**
 * The checkout page (`src/pages/Checkout.tsx`): its step machine, the card and
 * UPI validation, and the order that is created at most once per visit.
 *
 * `Page` is the page's state; each handler is specified by a function from the
 * old state (and what the awaited calls resolved to) to the new state and the
 * requests the handler issued. `CheckoutPage` holds the same state in fields and
 * its methods are proved against those functions. The two timers the page sets
 * are represented by effects: `verificationScheduled` stands for the 2-second
 * verification timer, whose callback is `VerificationFinished`, and
 * `clearCartScheduled` for the 1-second timer that empties the cart.
 */
module Checkout {
  import opened Wrappers
  import opened Js
  import opened UseCart

  datatype PaymentMethod = Card | Upi
  datatype UpiOption = Qr | ById

  /** The card fields of the form as they are when the card form is submitted. */
  datatype CardDetails = CardDetails(number: string, name: string, expiry: string, cvv: string)

  /** What `createPaymentIntent` resolved to. */
  datatype IntentOutcome = IntentCreated(payment: Option<Json>) | IntentFailed(error: string)

  datatype Page = Page(
    step: int,
    orderComplete: bool,
    orderId: string,
    paymentId: string,
    paymentMethod: PaymentMethod,
    upiOption: UpiOption,
    upiId: string,
    isVerifyingPayment: bool,
    paymentError: Option<string>,
    orderError: Option<string>)

  /**
   * The requests a handler issued: the `createOrder` call (with the method it
   * names), the `createPaymentIntent` call, the payment id handed to
   * `processCardPayment`, and the timers it started.
   */
  datatype Effects = Effects(
    orderRequest: Option<PaymentMethod>,
    intentRequested: bool,
    processedWith: Option<string>,
    verificationScheduled: bool,
    clearCartScheduled: bool)

  const NoEffects := Effects(None, false, None, false, false)

  const CardMessage := "Please fill in all card details correctly"
  const UpiMessage := "Please enter a valid UPI ID (e.g., name@upi)"
  const OrderFallback := "Failed to create order"
  const PaymentFallback := "Failed to create payment"

  /** The state on first render: the account step only for guests. */
  function InitialPage(isAuthenticated: bool): Page {
    Page(if isAuthenticated then 1 else 0, false, "", "", Card, Qr, "", false, None, None)
  }

  /** The simplified card check: at least 16 characters of card number and no empty field. */
  predicate ValidCard(c: CardDetails) {
    |c.number| >= 16 && c.name != "" && c.expiry != "" && c.cvv != ""
  }

  /** The UPI id check: non-empty and containing `@`. */
  predicate ValidUpiId(id: string) {
    id != "" && '@' in id
  }

  /** The page sends the visitor back to the cart when there is nothing to check out. */
  predicate RedirectToCart(itemsEmpty: bool, orderComplete: bool) {
    itemsEmpty && !orderComplete
  }

  /** `s || fallback` on a string. */
  function OrElse(s: string, fallback: string): string {
    if s == "" then fallback else s
  }

  /**
   * `x?.id || \`demo-${kind}-${Date.now()}\``, with the clock reading as
   * `stamp`: the reply's id when it is a non-empty string, else the demo id.
   * The page keeps both its order id and its payment id this way.
   */
  function IdOr(x: Option<Json>, kind: string, stamp: string): (r: string)
    ensures r != ""
    ensures Text(Get(x, "id")).Some? ==> r == Text(Get(x, "id")).value
    ensures Text(Get(x, "id")).None? ==> r == "demo-" + kind + "-" + stamp
  {
    TextOr(Get(x, "id"), "demo-" + kind + "-" + stamp)
  }

  /** What a handler's steps produce: the state, the requests, and whether it goes on past the order. */
  datatype Progress = Progress(page: Page, effects: Effects, proceed: bool)

  /**
   * The `if (!orderId)` block shared by the three submit handlers, run on a state
   * that already has `paymentError` cleared and `isVerifyingPayment` set.
   * `intent` is `None` for `checkPaymentStatus`, which requests no intent.
   */
  function Ordering(p: Page, m: PaymentMethod, order: OrderOutcome, intent: Option<IntentOutcome>, stamp: string): Progress {
    if p.orderId != "" then Progress(p, NoEffects, true)
    else match order
      case NotPlaced(e) =>
        Progress(p.(isVerifyingPayment := false, orderError := Some(OrElse(e, OrderFallback))),
                 NoEffects.(orderRequest := Some(m)), false)
      case Placed(o) =>
        var q := p.(orderId := IdOr(o, "order", stamp));
        match intent
        case None => Progress(q, NoEffects.(orderRequest := Some(m)), true)
        case Some(IntentFailed(e)) =>
          Progress(q.(isVerifyingPayment := false, paymentError := Some(OrElse(e, PaymentFallback))),
                   NoEffects.(orderRequest := Some(m), intentRequested := true), false)
        case Some(IntentCreated(pay)) =>
          Progress(q.(paymentId := IdOr(pay, "payment", stamp)),
                   NoEffects.(orderRequest := Some(m), intentRequested := true), true)
  }

  /** `handlePaymentSubmit`. A failed card payment is not distinguished: the page completes either way. */
  function PaymentSubmitted(p: Page, card: CardDetails, order: OrderOutcome, intent: IntentOutcome, stamp: string): Progress {
    if p.paymentMethod == Card && !ValidCard(card) then
      Progress(p.(paymentError := Some(CardMessage)), NoEffects, false)
    else
      var r := Ordering(p.(paymentError := None, isVerifyingPayment := true), Card, order, Some(intent), stamp);
      if !r.proceed then r
      else
        Progress(r.page.(isVerifyingPayment := false, step := 3, orderComplete := true),
                 r.effects.(processedWith := Some(p.paymentId), clearCartScheduled := true), true)
  }

  /** `handleUpiSubmit`: the id is checked only for the UPI-id option; completion waits for the timer. */
  function UpiSubmitted(p: Page, order: OrderOutcome, intent: IntentOutcome, stamp: string): Progress {
    if p.upiOption == ById && !ValidUpiId(p.upiId) then
      Progress(p.(paymentError := Some(UpiMessage)), NoEffects, false)
    else
      var r := Ordering(p.(paymentError := None, isVerifyingPayment := true), Upi, order, Some(intent), stamp);
      if !r.proceed then r
      else Progress(r.page, r.effects.(verificationScheduled := true), true)
  }

  /** `checkPaymentStatus`: creates the order if needed (no intent), then waits for the timer. */
  function StatusChecked(p: Page, order: OrderOutcome, stamp: string): Progress {
    var r := Ordering(p.(isVerifyingPayment := true), Upi, order, None, stamp);
    if !r.proceed then r
    else Progress(r.page, r.effects.(verificationScheduled := true), true)
  }

  /** The verification timer's callback. */
  function VerificationFinished(p: Page): Progress {
    Progress(p.(isVerifyingPayment := false, step := 3, orderComplete := true),
             NoEffects.(clearCartScheduled := true), true)
  }

  /** Everything the visitor (or a timer) can do on the page. */
  datatype Event =
    | ContinueAsGuest
    | SubmitShipping
    | SelectMethod(m: PaymentMethod)
    | SelectUpiOption(o: UpiOption)
    | EditUpiId(s: string)
    | Back
    | SubmitCard(card: CardDetails, order: OrderOutcome, intent: IntentOutcome, stamp: string)
    | SubmitUpi(order: OrderOutcome, intent: IntentOutcome, stamp: string)
    | CheckStatus(order: OrderOutcome, stamp: string)
    | TimerFired

  /**
   * When the control that raises an event is on screen: the guest button on the
   * account step, the shipping form on its step, the payment tabs and forms on
   * the payment step (submit buttons disabled while verifying), and the timer
   * only while a verification is pending.
   */
  predicate Enabled(p: Page, e: Event) {
    match e
    case ContinueAsGuest => p.step == 0
    case SubmitShipping => p.step == 1
    case SelectMethod(_) => p.step == 2
    case SelectUpiOption(_) => p.step == 2 && p.paymentMethod == Upi
    case EditUpiId(_) => p.step == 2 && p.paymentMethod == Upi && p.upiOption == ById
    case Back => p.step == 2 && (p.paymentMethod == Card || p.upiOption == ById)
    case SubmitCard(_, _, _, _) => p.step == 2 && p.paymentMethod == Card && !p.isVerifyingPayment
    case SubmitUpi(_, _, _) =>
      p.step == 2 && p.paymentMethod == Upi && p.upiOption == ById && !p.isVerifyingPayment
    case CheckStatus(_, _) =>
      p.step == 2 && p.paymentMethod == Upi && p.upiOption == Qr && !p.isVerifyingPayment
    case TimerFired => p.isVerifyingPayment
  }

  function Step(p: Page, e: Event): Progress {
    match e
    case ContinueAsGuest => Progress(p.(step := 1), NoEffects, true)
    case SubmitShipping => Progress(p.(step := 2), NoEffects, true)
    case SelectMethod(m) => Progress(p.(paymentMethod := m, paymentError := None), NoEffects, true)
    case SelectUpiOption(o) => Progress(p.(upiOption := o), NoEffects, true)
    case EditUpiId(s) => Progress(p.(upiId := s), NoEffects, true)
    case Back => Progress(p.(step := 1), NoEffects, true)
    case SubmitCard(card, order, intent, stamp) => PaymentSubmitted(p, card, order, intent, stamp)
    case SubmitUpi(order, intent, stamp) => UpiSubmitted(p, order, intent, stamp)
    case CheckStatus(order, stamp) => StatusChecked(p, order, stamp)
    case TimerFired => VerificationFinished(p)
  }

  /**
   * The page's invariant: the step is one of the four; the page is complete
   * exactly on the last step, and only once an order exists; there is no
   * payment id without an order id; and a pending verification always has an
   * order behind it.
   */
  predicate Valid(p: Page) {
    && 0 <= p.step <= 3
    && (p.orderComplete <==> p.step == 3)
    && (p.orderComplete ==> p.orderId != "")
    && (p.orderId == "" ==> p.paymentId == "")
    && (p.isVerifyingPayment ==> p.orderId != "")
  }

  lemma InitialIsValid(isAuthenticated: bool)
    ensures Valid(InitialPage(isAuthenticated))
    ensures InitialPage(isAuthenticated).step == (if isAuthenticated then 1 else 0)
    ensures InitialPage(isAuthenticated).orderId == "" && !InitialPage(isAuthenticated).orderComplete
  {
  }

  /** Every event the page can raise keeps the invariant. */
  lemma StepKeepsValid(p: Page, e: Event)
    requires Valid(p) && Enabled(p, e)
    ensures Valid(Step(p, e).page)
  {
  }

  /** An order id, once set, never changes, and no further order is requested. */
  lemma OrderIdStable(p: Page, e: Event)
    requires p.orderId != ""
    ensures Step(p, e).page.orderId == p.orderId
    ensures Step(p, e).effects.orderRequest.None?
  {
  }

  /** A placed order always leaves an order id behind, whatever the intent did. */
  lemma PlacedSetsOrderId(p: Page, e: Event)
    requires p.orderId == ""
    requires e.SubmitCard? || e.SubmitUpi? || e.CheckStatus?
    requires Step(p, e).effects.orderRequest.Some? && e.order.Placed?
    ensures Step(p, e).page.orderId == IdOr(e.order.order, "order", e.stamp) != ""
  {
  }

  /** A rejected card: only `paymentError` changes and nothing is requested. */
  lemma CardRejected(p: Page, card: CardDetails, order: OrderOutcome, intent: IntentOutcome, stamp: string)
    requires p.paymentMethod == Card && !ValidCard(card)
    ensures PaymentSubmitted(p, card, order, intent, stamp) ==
      Progress(p.(paymentError := Some(CardMessage)), NoEffects, false)
  {
  }

  /** A rejected UPI id: only `paymentError` changes and nothing is requested. */
  lemma UpiRejected(p: Page, order: OrderOutcome, intent: IntentOutcome, stamp: string)
    requires p.upiOption == ById && (p.upiId == "" || '@' !in p.upiId)
    ensures UpiSubmitted(p, order, intent, stamp) ==
      Progress(p.(paymentError := Some(UpiMessage)), NoEffects, false)
  {
  }

  /** A failed order creation stops the submission on the payment step with `orderError` set. */
  lemma OrderFailureHalts(p: Page, e: Event)
    requires Valid(p) && p.orderId == "" && p.step == 2
    requires e.SubmitCard? || e.SubmitUpi? || e.CheckStatus?
    requires e.order.NotPlaced?
    requires Step(p, e).effects.orderRequest.Some?
    ensures Step(p, e).page.step == 2 && !Step(p, e).page.orderComplete
    ensures Step(p, e).page.orderId == "" && !Step(p, e).page.isVerifyingPayment
    ensures Step(p, e).page.orderError == Some(OrElse(e.order.error, OrderFallback))
    ensures !Step(p, e).effects.intentRequested && !Step(p, e).effects.clearCartScheduled
  {
  }

  /**
   * A valid card completes the checkout once the order and the intent have been
   * created, whatever `processCardPayment` answers, and the card is charged
   * against the payment id the page held before this submission.
   */
  lemma CardCompletes(p: Page, card: CardDetails, order: OrderOutcome, intent: IntentOutcome, stamp: string)
    requires ValidCard(card)
    requires p.orderId != "" || (order.Placed? && intent.IntentCreated?)
    ensures var r := PaymentSubmitted(p, card, order, intent, stamp);
      r.page.step == 3 && r.page.orderComplete && !r.page.isVerifyingPayment &&
      r.effects.processedWith == Some(p.paymentId) && r.effects.clearCartScheduled
  {
  }

  /** On a first submission the card is processed with the empty payment id, not the new intent's. */
  lemma FirstCardPaymentUsesEmptyId(p: Page, card: CardDetails, order: OrderOutcome, intent: IntentOutcome, stamp: string)
    requires Valid(p) && p.orderId == "" && ValidCard(card)
    requires order.Placed? && intent.IntentCreated?
    ensures PaymentSubmitted(p, card, order, intent, stamp).effects.processedWith == Some("")
    ensures PaymentSubmitted(p, card, order, intent, stamp).page.paymentId != ""
  {
  }

  /**
   * After an intent failure the order exists but no payment id does; a retry
   * neither re-creates the order nor requests another intent.
   */
  lemma RetryAfterIntentFailure(p: Page, card: CardDetails, order: OrderOutcome, e1: string,
                                order2: OrderOutcome, intent2: IntentOutcome, stamp: string, stamp2: string)
    requires Valid(p) && p.orderId == "" && ValidCard(card) && order.Placed?
    ensures var r := PaymentSubmitted(p, card, order, IntentFailed(e1), stamp);
      r.page.orderId != "" && r.page.paymentId == "" && !r.page.orderComplete &&
      var s := PaymentSubmitted(r.page, card, order2, intent2, stamp2);
      s.effects.orderRequest.None? && !s.effects.intentRequested &&
      s.effects.processedWith == Some("") && s.page.orderComplete
  {
  }

  /** Clearing the cart after completion does not send the visitor back to the cart. */
  lemma CompletedPageStays(p: Page)
    requires p.isVerifyingPayment
    ensures !RedirectToCart(true, VerificationFinished(p).page.orderComplete)
    ensures VerificationFinished(p).effects.clearCartScheduled
  {
  }

  /** The state after a run of events, ignoring what they requested. */
  function Run(p: Page, es: seq<Event>): Page
    decreases |es|
  {
    if |es| == 0 then p else Run(Step(p, es[0]).page, es[1..])
  }

  /** The run can actually happen: each event is raised by a control on screen at that point. */
  predicate Feasible(p: Page, es: seq<Event>)
    decreases |es|
  {
    |es| == 0 || (Enabled(p, es[0]) && Feasible(Step(p, es[0]).page, es[1..]))
  }

  /** How many events of the run turned a missing order id into an order. */
  function Placements(p: Page, es: seq<Event>): nat
    decreases |es|
  {
    if |es| == 0 then 0
    else
      var q := Step(p, es[0]).page;
      (if p.orderId == "" && q.orderId != "" then 1 else 0) + Placements(q, es[1..])
  }

  lemma {:induction false} RunKeepsValid(p: Page, es: seq<Event>)
    requires Valid(p) && Feasible(p, es)
    ensures Valid(Run(p, es))
    decreases |es|
  {
    if |es| > 0 {
      StepKeepsValid(p, es[0]);
      RunKeepsValid(Step(p, es[0]).page, es[1..]);
    }
  }

  /** Once an order exists, no run changes it or creates another. */
  lemma {:induction false} RunKeepsOrder(p: Page, es: seq<Event>)
    requires p.orderId != ""
    ensures Run(p, es).orderId == p.orderId
    ensures Placements(p, es) == 0
    decreases |es|
  {
    if |es| > 0 {
      OrderIdStable(p, es[0]);
      RunKeepsOrder(Step(p, es[0]).page, es[1..]);
    }
  }

  /** Whatever happens on the page, at most one order is created, and none if one already exists. */
  lemma {:induction false} AtMostOneOrder(p: Page, es: seq<Event>)
    ensures Placements(p, es) <= (if p.orderId == "" then 1 else 0)
    decreases |es|
  {
    if |es| > 0 {
      var q := Step(p, es[0]).page;
      if q.orderId != "" {
        RunKeepsOrder(q, es[1..]);
      } else {
        AtMostOneOrder(q, es[1..]);
        if p.orderId != "" {
          OrderIdStable(p, es[0]);
        }
      }
    }
  }

  /** The page's state held in fields, as React holds it in `useState` slots. */
  class CheckoutPage {
    var step: int
    var orderComplete: bool
    var orderId: string
    var paymentId: string
    var paymentMethod: PaymentMethod
    var upiOption: UpiOption
    var upiId: string
    var isVerifyingPayment: bool
    var paymentError: Option<string>
    var orderError: Option<string>

    function State(): Page
      reads this
    {
      Page(step, orderComplete, orderId, paymentId, paymentMethod, upiOption, upiId,
           isVerifyingPayment, paymentError, orderError)
    }

    constructor (isAuthenticated: bool)
      ensures State() == InitialPage(isAuthenticated) && Valid(State())
    {
      step := if isAuthenticated then 1 else 0;
      orderComplete := false;
      orderId := "";
      paymentId := "";
      paymentMethod := Card;
      upiOption := Qr;
      upiId := "";
      isVerifyingPayment := false;
      paymentError := None;
      orderError := None;
    }

    /** "Continue as Guest". */
    method ContinueAsGuest()
      requires Valid(State()) && Enabled(State(), Event.ContinueAsGuest)
      modifies this
      ensures State() == Step(old(State()), Event.ContinueAsGuest).page && Valid(State())
    {
      step := 1;
    }

    /** `handleShippingSubmit`: no field is checked. */
    method HandleShippingSubmit()
      requires Valid(State()) && Enabled(State(), SubmitShipping)
      modifies this
      ensures State() == Step(old(State()), SubmitShipping).page && Valid(State())
    {
      step := 2;
    }

    /** The payment method tabs. */
    method SelectMethod(m: PaymentMethod)
      requires Valid(State()) && Enabled(State(), Event.SelectMethod(m))
      modifies this
      ensures State() == Step(old(State()), Event.SelectMethod(m)).page && Valid(State())
    {
      paymentMethod := m;
      paymentError := None;
    }

    /** The QR / UPI-id tabs. */
    method SelectUpiOption(o: UpiOption)
      requires Valid(State()) && Enabled(State(), Event.SelectUpiOption(o))
      modifies this
      ensures State() == Step(old(State()), Event.SelectUpiOption(o)).page && Valid(State())
    {
      upiOption := o;
    }

    /** Typing in the UPI id field. */
    method EditUpiId(s: string)
      requires Valid(State()) && Enabled(State(), Event.EditUpiId(s))
      modifies this
      ensures State() == Step(old(State()), Event.EditUpiId(s)).page && Valid(State())
    {
      upiId := s;
    }

    /** The "Back" buttons of the payment forms. */
    method Back()
      requires Valid(State()) && Enabled(State(), Event.Back)
      modifies this
      ensures State() == Step(old(State()), Event.Back).page && Valid(State())
    {
      step := 1;
    }

    /** The `if (!orderId)` block, on the fields. */
    method CreateOrderOnce(m: PaymentMethod, order: OrderOutcome, intent: Option<IntentOutcome>, stamp: string)
      returns (fx: Effects, proceed: bool)
      modifies this
      ensures var r := Ordering(old(State()), m, order, intent, stamp);
        State() == r.page && fx == r.effects && proceed == r.proceed
    {
      fx, proceed := NoEffects, true;
      if orderId == "" {
        fx := fx.(orderRequest := Some(m));
        match order {
          case NotPlaced(e) =>
            isVerifyingPayment := false;
            orderError := Some(OrElse(e, OrderFallback));
            return fx, false;
          case Placed(o) =>
            orderId := IdOr(o, "order", stamp);
        }
        if intent.Some? {
          fx := fx.(intentRequested := true);
          match intent.value {
            case IntentFailed(e) =>
              isVerifyingPayment := false;
              paymentError := Some(OrElse(e, PaymentFallback));
              return fx, false;
            case IntentCreated(pay) =>
              paymentId := IdOr(pay, "payment", stamp);
          }
        }
      }
    }

    /** `handlePaymentSubmit`. */
    method HandlePaymentSubmit(card: CardDetails, order: OrderOutcome, intent: IntentOutcome, stamp: string)
      returns (fx: Effects)
      requires Valid(State()) && Enabled(State(), SubmitCard(card, order, intent, stamp))
      modifies this
      ensures State() == Step(old(State()), SubmitCard(card, order, intent, stamp)).page
      ensures fx == Step(old(State()), SubmitCard(card, order, intent, stamp)).effects
      ensures Valid(State())
    {
      StepKeepsValid(State(), SubmitCard(card, order, intent, stamp));
      if paymentMethod == Card && !ValidCard(card) {
        paymentError := Some(CardMessage);
        return NoEffects;
      }
      var stalePaymentId := paymentId;
      paymentError := None;
      isVerifyingPayment := true;
      var proceed;
      fx, proceed := CreateOrderOnce(Card, order, Some(intent), stamp);
      if !proceed {
        return;
      }
      fx := fx.(processedWith := Some(stalePaymentId));
      isVerifyingPayment := false;
      step := 3;
      orderComplete := true;
      fx := fx.(clearCartScheduled := true);
    }

    /** `handleUpiSubmit`. */
    method HandleUpiSubmit(order: OrderOutcome, intent: IntentOutcome, stamp: string)
      returns (fx: Effects)
      requires Valid(State()) && Enabled(State(), SubmitUpi(order, intent, stamp))
      modifies this
      ensures State() == Step(old(State()), SubmitUpi(order, intent, stamp)).page
      ensures fx == Step(old(State()), SubmitUpi(order, intent, stamp)).effects
      ensures Valid(State())
    {
      StepKeepsValid(State(), SubmitUpi(order, intent, stamp));
      if upiOption == ById && !ValidUpiId(upiId) {
        paymentError := Some(UpiMessage);
        return NoEffects;
      }
      paymentError := None;
      isVerifyingPayment := true;
      var proceed;
      fx, proceed := CreateOrderOnce(Upi, order, Some(intent), stamp);
      if proceed {
        fx := fx.(verificationScheduled := true);
      }
    }

    /** `checkPaymentStatus`. */
    method CheckPaymentStatus(order: OrderOutcome, stamp: string) returns (fx: Effects)
      requires Valid(State()) && Enabled(State(), CheckStatus(order, stamp))
      modifies this
      ensures State() == Step(old(State()), CheckStatus(order, stamp)).page
      ensures fx == Step(old(State()), CheckStatus(order, stamp)).effects
      ensures Valid(State())
    {
      StepKeepsValid(State(), CheckStatus(order, stamp));
      isVerifyingPayment := true;
      var proceed;
      fx, proceed := CreateOrderOnce(Upi, order, None, stamp);
      if proceed {
        fx := fx.(verificationScheduled := true);
      }
    }

    /** The verification timer's callback. */
    method FinishVerification() returns (fx: Effects)
      requires Valid(State()) && Enabled(State(), TimerFired)
      modifies this
      ensures State() == Step(old(State()), TimerFired).page
      ensures fx == Step(old(State()), TimerFired).effects
      ensures Valid(State())
    {
      isVerifyingPayment := false;
      step := 3;
      orderComplete := true;
      fx := NoEffects.(clearCartScheduled := true);
    }
  }
}
