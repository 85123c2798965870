/** The mutable tables, and Stripe behind its adapter. */
module Database {
  import opened Wrappers
  import opened Schema
  import Pricing
  import Stripe
  import Tax

  class Tables {
    const uniqueKeys: bool
    var property: Option<Pricing.Property>
    var jurisdictions: seq<Tax.Jurisdiction>
    var inquiries: seq<Inquiry>
    var bookings: seq<Booking>
    var charges: seq<Charge>
    var blocks: seq<Block>
    var outbox: seq<OutboxRow>
    var webhookEvents: map<nat, bool>

    constructor (uniqueKeys: bool)
      ensures this.uniqueKeys == uniqueKeys && property == None && jurisdictions == []
      ensures inquiries == [] && bookings == [] && charges == [] && blocks == [] && outbox == [] && webhookEvents == map[]
    {
      this.uniqueKeys := uniqueKeys;
      property, jurisdictions, inquiries, bookings := None, [], [], [];
      charges, blocks, outbox, webhookEvents := [], [], [], map[];
    }

    /** outbox.create: false is the unique violation. */
    method Enqueue(row: OutboxRow) returns (ok: bool)
      modifies this`outbox
      ensures ok <==> CanEnqueue(uniqueKeys, old(outbox), row)
      ensures outbox == if ok then old(outbox) + [row] else old(outbox)
    {
      ok := true;
      if uniqueKeys {
        var k := 0;
        while k < |outbox| && ok
          invariant 0 <= k <= |outbox| && outbox == old(outbox)
          invariant ok <==> forall i :: 0 <= i < k ==> KeyOf(outbox[i]) != KeyOf(row)
        {
          ok := KeyOf(outbox[k]) != KeyOf(row);
          k := k + 1;
        }
      }
      if ok {
        outbox := outbox + [row];
      }
    }
  }

  class StripeAccount {
    var account: Stripe.Account

    constructor ()
      ensures account == Stripe.Account([], [])
    {
      account := Stripe.Account([], []);
    }

    /** Returns the number of the event that reports the refund. */
    method CreateRefund(paymentIntent: nat, cents: int) returns (r: Result<nat>)
      modifies this
      ensures match Stripe.CreateRefund(old(account), paymentIntent, cents)
              case Success(a) => r == Success(|old(account).events|) && account == a
              case Failure(e) => r == Failure(e) && account == old(account)
    {
      var answer := Stripe.CreateRefund(account, paymentIntent, cents);
      if answer.Success? {
        r := Success(|account.events|);
        account := answer.value;
      } else {
        r := Failure(answer.error);
      }
    }

    /** Returns the session and, if Stripe reveals it, its PaymentIntent. */
    method CreateCheckoutSession(charge: nat, amount: int, reply: Stripe.SessionReply) returns (r: Result<(nat, Option<nat>)>)
      modifies this
      ensures Stripe.Refuses(reply, amount) ==> r == Failure(StripeError) && account == old(account)
      ensures !Stripe.Refuses(reply, amount) ==>
                && r == Success((|old(account).sessions|, if reply.revealsPaymentIntent then Some(|old(account).sessions|) else None))
                && account == Stripe.OpenSession(old(account), charge, amount)
    {
      if Stripe.Refuses(reply, amount) {
        r := Failure(StripeError);
      } else {
        var s := |account.sessions|;
        account := Stripe.OpenSession(account, charge, amount);
        r := Success((s, if reply.revealsPaymentIntent then Some(s) else None));
      }
    }
  }

  function WorldOf(db: Tables, stripe: StripeAccount): World
    reads db, stripe
  {
    World(db.uniqueKeys, db.property, db.jurisdictions, db.inquiries, db.bookings, db.charges, db.blocks, db.outbox,
          db.webhookEvents, stripe.account)
  }
}
