/** src/app/api/webhooks/stripe/route.ts: the subscription status of the
    users a Stripe event is about. Signature checking and the store are
    abstract: the event arrives already checked (or not), and what the
    store's update resolves to is a parameter. The users table is a
    `UserTable` object whose rows the handler replaces. */
module StripeWebhook {
  import opened Records
  import Helpers

  datatype Tier = Free | Premium

  /** The `users` columns the handler reads or writes. */
  datatype UserRow = UserRow(
    id: string,
    stripeCustomerId: Option<string>,
    subscriptionStatus: Tier,
    premiumStartDate: Option<string>)

  /** A checked event: its type, the subscription's (or invoice's) customer
      and the subscription's status. */
  datatype Event = Event(eventType: string, customer: string, status: string)

  /** The new subscription columns an event asks for, if any. */
  datatype Change = Change(tier: Tier, startDate: Option<string>)

  /** The decision table of the `switch`: an active subscription that is
      created or updated makes its users premium from today; a deleted one
      makes them free with no start date; a failed payment, an inactive
      subscription and any other event change nothing. */
  function ChangeFor(e: Event, nowIso: string): (c: Option<Change>)
    ensures (e.eventType == "customer.subscription.created" || e.eventType == "customer.subscription.updated")
            ==> c == (if e.status == "active" then Some(Change(Premium, Some(Helpers.TodayDate(nowIso)))) else None)
    ensures e.eventType == "customer.subscription.deleted" ==> c == Some(Change(Free, None))
    ensures c.Some? ==>
      e.eventType in {"customer.subscription.created", "customer.subscription.updated",
                      "customer.subscription.deleted"}
  {
    if e.eventType == "customer.subscription.created" || e.eventType == "customer.subscription.updated" then
      if e.status == "active" then Some(Change(Premium, Some(Helpers.TodayDate(nowIso)))) else None
    else if e.eventType == "customer.subscription.deleted" then Some(Change(Free, None))
    else None
  }

  /** `.update(change).eq('stripe_customer_id', customer)` over the rows. */
  function UpdateMatching(rows: seq<UserRow>, customer: string, c: Change): (r: seq<UserRow>)
    ensures |r| == |rows|
  {
    if rows == [] then []
    else
      var row := rows[0];
      var row' := if row.stripeCustomerId == Some(customer)
                  then row.(subscriptionStatus := c.tier, premiumStartDate := c.startDate)
                  else row;
      [row'] + UpdateMatching(rows[1..], customer, c)
  }

  /** A row of the customer gets the new status and start date and keeps
      its id and customer; every other row is left as it was. */
  lemma {:induction false} UpdateMatchingAt(rows: seq<UserRow>, customer: string, c: Change, i: nat)
    requires i < |rows|
    ensures var r := UpdateMatching(rows, customer, c)[i];
      && (rows[i].stripeCustomerId == Some(customer) ==>
            r == rows[i].(subscriptionStatus := c.tier, premiumStartDate := c.startDate))
      && (rows[i].stripeCustomerId != Some(customer) ==> r == rows[i])
  {
    if i > 0 {
      UpdateMatchingAt(rows[1..], customer, c, i - 1);
    }
  }

  /** Of two updates for the same customer, the later one wins; in
      particular delivering the same event twice is delivering it once. */
  lemma {:induction false} LaterUpdateWins(rows: seq<UserRow>, customer: string, first: Change, second: Change)
    ensures UpdateMatching(UpdateMatching(rows, customer, first), customer, second)
         == UpdateMatching(rows, customer, second)
  {
    if rows != [] {
      LaterUpdateWins(rows[1..], customer, first, second);
    }
  }

  /** What the store's update resolves to. */
  datatype StoreResult = Applied | ErrorReply | Threw

  /** The handler's answer: an HTTP status and its JSON body. */
  datatype Body = Received | ErrorBody(error: string)
  datatype Response = Response(status: nat, body: Body)

  class UserTable {
    var rows: seq<UserRow>

    constructor(rows: seq<UserRow>)
      ensures this.rows == rows
    {
      this.rows := rows;
    }

    /** `POST`: an event whose signature fails is answered with 400 and
        changes nothing. A checked event applies its change (if any) to the
        rows of its customer and is answered `{received: true}`; a store
        error is only logged, and a thrown store call is answered with 500. */
    method HandleWebhook(event: Option<Event>, nowIso: string, store: StoreResult)
      returns (resp: Response)
      modifies this
      ensures event.None? ==>
        resp == Response(400, ErrorBody("Webhook signature verification failed")) && rows == old(rows)
      ensures event.Some? && ChangeFor(event.value, nowIso).None? ==>
        resp == Response(200, Received) && rows == old(rows)
      ensures event.Some? && ChangeFor(event.value, nowIso).Some? ==>
        && (store == Threw ==> resp == Response(500, ErrorBody("Webhook processing failed")))
        && (store != Threw ==> resp == Response(200, Received))
        && rows == (if store == Applied
                    then UpdateMatching(old(rows), event.value.customer, ChangeFor(event.value, nowIso).value)
                    else old(rows))
    {
      if event.None? {
        return Response(400, ErrorBody("Webhook signature verification failed"));
      }
      var e := event.value;
      var change := ChangeFor(e, nowIso);
      if change.Some? {
        if store == Threw {
          return Response(500, ErrorBody("Webhook processing failed"));
        }
        if store == Applied {
          rows := UpdateMatching(rows, e.customer, change.value);
        }
      }
      resp := Response(200, Received);
    }
  }
}
