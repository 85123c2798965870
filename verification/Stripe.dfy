/**
 Stripe as the platform sees it: an account that remembers, per checkout session, what was paid and
 refunded, refuses over-refunds, and emits numbered events. A session's PaymentIntent carries the
 session's own number. Position in `events` is the event id.
 */
module Stripe {
  import opened Wrappers

  datatype Session = Session(chargeId: nat, amount: int, paid: bool, refunded: int)

  datatype Event =
    | CheckoutCompleted(session: nat, paymentIntent: Option<nat>)
    | ChargeRefunded(paymentIntent: Option<nat>, amountRefunded: Option<int>, full: bool)
    | DisputeCreated(paymentIntent: Option<nat>)
    | DisputeClosed(paymentIntent: Option<nat>)
    | PaymentFailed(paymentIntent: Option<nat>)
    | OtherEvent

  datatype Account = Account(sessions: seq<Session>, events: seq<Event>)

  /** How Stripe answers createCheckoutSession (or the createCustomer before it): it throws, or it
      opens a session and reveals the PaymentIntent at once or only later. */
  datatype SessionReply = Refused | Opened(revealsPaymentIntent: bool)

  /** A session for a negative amount is refused whatever else happens. */
  predicate Refuses(reply: SessionReply, amount: int) {
    reply.Refused? || amount < 0
  }

  function OpenSession(a: Account, chargeId: nat, amount: int): Account {
    a.(sessions := a.sessions + [Session(chargeId, amount, false, 0)])
  }

  /** createRefund: refused for an unpaid or unknown PaymentIntent, for nothing, and for more than is left. */
  function CreateRefund(a: Account, paymentIntent: nat, cents: int): Result<Account> {
    if paymentIntent >= |a.sessions| then Failure(StripeError)
    else
      var s := a.sessions[paymentIntent];
      if !s.paid || cents <= 0 || s.refunded + cents > s.amount then Failure(StripeError)
      else
        var total := s.refunded + cents;
        Success(Account(a.sessions[paymentIntent := s.(refunded := total)],
                        a.events + [ChargeRefunded(Some(paymentIntent), Some(total), total == s.amount)]))
  }

  /** The guest pays: the session completes and Stripe emits the event. */
  function Pay(a: Account, session: nat, namesPaymentIntent: bool): Account {
    if session >= |a.sessions| || a.sessions[session].paid then a
    else Account(a.sessions[session := a.sessions[session].(paid := true)],
                 a.events + [CheckoutCompleted(session, if namesPaymentIntent then Some(session) else None)])
  }

  /** What Stripe may truthfully say again, later, under a new event id. */
  predicate Truthful(a: Account, e: Event) {
    match e
    case CheckoutCompleted(s, pi) => s < |a.sessions| && a.sessions[s].paid && (pi.Some? ==> pi.value == s)
    case ChargeRefunded(pi, total, full) =>
      pi.Some? ==>
        && pi.value < |a.sessions|
        && (total.Some? ==> total.value <= a.sessions[pi.value].refunded)
        && (full ==> total == Some(a.sessions[pi.value].amount))
    case _ => true
  }

  function Emit(a: Account, e: Event): Account {
    if Truthful(a, e) then a.(events := a.events + [e]) else a
  }
}
