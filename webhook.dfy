/** The payment webhook (supabase/functions/stripe-webhook): after the request's
    signature is checked, three kinds of processor event update the caller's
    row of the `subscriptions` table; every other event, and every event that
    cannot be attributed to a user, leaves the table alone. The table is a map
    from user id to row; the profile table used to find a user by email is a
    sequence of rows. Retrieving the processor's subscription and customer
    objects is folded into the event: it carries what those calls return. */
module Webhook {
  import opened Wrappers

  /** The columns of a `subscriptions` row that the webhook writes; times are
      milliseconds since the epoch (the source stores them as ISO strings). */
  datatype SubscriptionRecord = SubscriptionRecord(
    isPremium: bool,
    subscriptionType: string,
    startsAt: int,
    expiresAt: int)

  /** A row of `profiles`: the user id and the username (the user's email). */
  datatype Profile = Profile(id: string, username: string)

  /** The processor subscription as retrieved: the billing interval of its
      first item and its current period, in seconds since the epoch. */
  datatype ProcessorSubscription = ProcessorSubscription(
    interval: string,
    currentPeriodStart: int,
    currentPeriodEnd: int)

  /** The verified event, with the objects the handler retrieves for it. */
  datatype Event =
    | CheckoutSessionCompleted(mode: string, metadataUserId: Option<string>,
                               subscription: ProcessorSubscription)
    | InvoicePaymentSucceeded(subscriptionId: Option<string>, subscription: ProcessorSubscription,
                              customerEmail: string)
    | CustomerSubscriptionDeleted(customerEmail: string)
    | Unhandled(eventType: string)

  /** The columns an `.update({...})` call sets; an absent column is left as
      it was. */
  datatype Patch = Patch(
    isPremium: Option<bool>,
    subscriptionType: Option<string>,
    startsAt: Option<int>,
    expiresAt: Option<int>)

  datatype ResponseBody = Received | ErrorMessage(message: string)
  datatype Response = Response(status: int, body: ResponseBody)

  /** `interval === 'year' ? 'yearly' : 'monthly'` */
  function SubscriptionType(interval: string): (t: string)
    ensures t == "yearly" <==> interval == "year"
    ensures t == "monthly" <==> interval != "year"
  {
    if interval == "year" then "yearly" else "monthly"
  }

  /** The processor's seconds as the milliseconds `new Date(...)` expects. */
  function Millis(seconds: int): int {
    seconds * 1000
  }

  function ApplyPatch(r: SubscriptionRecord, p: Patch): (r': SubscriptionRecord)
    ensures r'.isPremium == p.isPremium.GetOr(r.isPremium)
    ensures r'.subscriptionType == p.subscriptionType.GetOr(r.subscriptionType)
    ensures r'.startsAt == p.startsAt.GetOr(r.startsAt)
    ensures r'.expiresAt == p.expiresAt.GetOr(r.expiresAt)
  {
    SubscriptionRecord(
      p.isPremium.GetOr(r.isPremium),
      p.subscriptionType.GetOr(r.subscriptionType),
      p.startsAt.GetOr(r.startsAt),
      p.expiresAt.GetOr(r.expiresAt))
  }

  /** `.update(patch).eq('user_id', user)`: the user's row, if there is one,
      takes the patch; no row is created. */
  function UpdateWhere(records: map<string, SubscriptionRecord>, user: string, p: Patch)
    : (r: map<string, SubscriptionRecord>)
    ensures r.Keys == records.Keys
    ensures forall k :: k in records && k != user ==> r[k] == records[k]
    ensures user in records ==> r[user] == ApplyPatch(records[user], p)
  {
    if user in records then records[user := ApplyPatch(records[user], p)] else records
  }

  /** `profiles.select('id').eq('username', email).limit(1)`: the id of the
      first profile whose username is the email. */
  function FindProfile(profiles: seq<Profile>, email: string): (r: Option<string>)
    ensures r.None? <==> forall i :: 0 <= i < |profiles| ==> profiles[i].username != email
    ensures r.Some? ==> exists i :: 0 <= i < |profiles| && profiles[i].username == email
                                    && profiles[i].id == r.value
  {
    if profiles == [] then None
    else if profiles[0].username == email then Some(profiles[0].id)
    else
      var r := FindProfile(profiles[1..], email);
      assert forall i :: 1 <= i < |profiles| ==> profiles[i] == profiles[1..][i - 1];
      r
  }

  /** The user an event is about, or None when the handler stops before any
      write: a checkout that is not a subscription or carries no user id, an
      invoice without a subscription, an email without a profile, and every
      other event type. */
  function Target(profiles: seq<Profile>, e: Event): Option<string> {
    match e
    case CheckoutSessionCompleted(mode, userId, _) =>
      if mode == "subscription" && Truthy(userId) then userId else None
    case InvoicePaymentSucceeded(subscriptionId, _, email) =>
      if Truthy(subscriptionId) then FindProfile(profiles, email) else None
    case CustomerSubscriptionDeleted(email) => FindProfile(profiles, email)
    case Unhandled(_) => None
  }

  /** The columns each event writes; `now` is the handler's clock. */
  function EventPatch(e: Event, now: int): Patch {
    match e
    case CheckoutSessionCompleted(_, _, s) =>
      Patch(Some(true), Some(SubscriptionType(s.interval)),
            Some(Millis(s.currentPeriodStart)), Some(Millis(s.currentPeriodEnd)))
    case InvoicePaymentSucceeded(_, s, _) =>
      Patch(Some(true), None, Some(Millis(s.currentPeriodStart)), Some(Millis(s.currentPeriodEnd)))
    case CustomerSubscriptionDeleted(_) =>
      Patch(Some(false), None, None, Some(now))
    case Unhandled(_) =>
      Patch(None, None, None, None)
  }

  /** The table after a verified event: only the target's row may change. */
  function Apply(records: map<string, SubscriptionRecord>, profiles: seq<Profile>, e: Event, now: int)
    : (r: map<string, SubscriptionRecord>)
    ensures r.Keys == records.Keys
    ensures forall k :: k in records && Target(profiles, e) != Some(k) ==> r[k] == records[k]
  {
    var target := Target(profiles, e);
    if target.Some? then UpdateWhere(records, target.value, EventPatch(e, now)) else records
  }

  /** A completed subscription checkout that names an existing user makes that
      user premium, with the plan's type and the period converted to
      milliseconds. */
  lemma CheckoutActivates(records: map<string, SubscriptionRecord>, profiles: seq<Profile>,
                          userId: string, s: ProcessorSubscription, now: int)
    requires userId != "" && userId in records
    ensures var r := Apply(records, profiles, CheckoutSessionCompleted("subscription", Some(userId), s), now);
            && r[userId].isPremium
            && (r[userId].subscriptionType == "yearly" <==> s.interval == "year")
            && (r[userId].subscriptionType == "monthly" <==> s.interval != "year")
            && r[userId].startsAt == s.currentPeriodStart * 1000
            && r[userId].expiresAt == s.currentPeriodEnd * 1000
  {
  }

  /** A checkout in any mode other than subscription, or one without a user
      id, writes nothing. */
  lemma CheckoutIgnored(records: map<string, SubscriptionRecord>, profiles: seq<Profile>,
                        mode: string, userId: Option<string>, s: ProcessorSubscription, now: int)
    requires mode != "subscription" || !Truthy(userId)
    ensures Apply(records, profiles, CheckoutSessionCompleted(mode, userId, s), now) == records
  {
  }

  /** A renewal keeps the subscription type and refreshes the period. */
  lemma RenewalKeepsType(records: map<string, SubscriptionRecord>, profiles: seq<Profile>,
                         subscriptionId: string, s: ProcessorSubscription, email: string,
                         user: string, now: int)
    requires subscriptionId != "" && FindProfile(profiles, email) == Some(user) && user in records
    ensures var r := Apply(records, profiles, InvoicePaymentSucceeded(Some(subscriptionId), s, email), now);
            && r[user].isPremium
            && r[user].subscriptionType == records[user].subscriptionType
            && r[user].startsAt == s.currentPeriodStart * 1000
            && r[user].expiresAt == s.currentPeriodEnd * 1000
  {
  }

  /** A cancellation ends premium access now and keeps the type and start. */
  lemma CancellationExpiresNow(records: map<string, SubscriptionRecord>, profiles: seq<Profile>,
                               email: string, user: string, now: int)
    requires FindProfile(profiles, email) == Some(user) && user in records
    ensures var r := Apply(records, profiles, CustomerSubscriptionDeleted(email), now);
            r[user] == records[user].(isPremium := false, expiresAt := now)
  {
  }

  /** Events whose email matches no profile, and event types the handler does
      not know, write nothing. */
  lemma UnattributedEventsIgnored(records: map<string, SubscriptionRecord>, profiles: seq<Profile>,
                                  e: Event, now: int)
    requires e.Unhandled? ||
             ((e.InvoicePaymentSucceeded? || e.CustomerSubscriptionDeleted?) &&
              forall i :: 0 <= i < |profiles| ==> profiles[i].username != e.customerEmail)
    ensures Apply(records, profiles, e, now) == records
  {
  }

  /** Re-applying an event at the same clock reading, with the same retrieved
      objects, changes nothing. */
  lemma RedeliveryIdempotent(records: map<string, SubscriptionRecord>, profiles: seq<Profile>,
                             e: Event, now: int)
    ensures Apply(Apply(records, profiles, e, now), profiles, e, now) == Apply(records, profiles, e, now)
  {
    var target := Target(profiles, e);
    if target.Some? && target.value in records {
      var once := Apply(records, profiles, e, now);
      var twice := Apply(once, profiles, e, now);
      assert twice[target.value] == once[target.value];
      assert forall k :: k in once ==> twice[k] == once[k];
    }
  }

  /** Delivery is not idempotent across clock readings: a cancellation
      delivered again later moves the expiry to the later time. */
  lemma LateCancellationRedeliveryMovesExpiry(records: map<string, SubscriptionRecord>,
                                              profiles: seq<Profile>, email: string, user: string,
                                              first: int, later: int)
    requires FindProfile(profiles, email) == Some(user) && user in records
    requires first < later
    ensures var once := Apply(records, profiles, CustomerSubscriptionDeleted(email), first);
            var twice := Apply(once, profiles, CustomerSubscriptionDeleted(email), later);
            once[user].expiresAt == first && twice[user].expiresAt == later
            && twice[user] != once[user]
  {
    var once := Apply(records, profiles, CustomerSubscriptionDeleted(email), first);
    CancellationExpiresNow(records, profiles, email, user, first);
    CancellationExpiresNow(once, profiles, email, user, later);
  }

  /** The subscriptions table, updated in place by the webhook. */
  class SubscriptionStore {
    var records: map<string, SubscriptionRecord>
    var profiles: seq<Profile>

    constructor (records: map<string, SubscriptionRecord>, profiles: seq<Profile>)
      ensures this.records == records && this.profiles == profiles
    {
      this.records := records;
      this.profiles := profiles;
    }

    /** One `.update(patch).eq('user_id', user)` call. */
    method UpdateRow(user: string, p: Patch)
      modifies this`records
      ensures records == UpdateWhere(old(records), user, p)
    {
      if user in records {
        records := records[user := ApplyPatch(records[user], p)];
      }
    }

    /** `checkout.session.completed` */
    method HandleCheckoutCompleted(mode: string, userId: Option<string>, s: ProcessorSubscription)
      modifies this`records
      ensures records == Apply(old(records), profiles, CheckoutSessionCompleted(mode, userId, s), 0)
    {
      if mode == "subscription" {
        if !Truthy(userId) {
          return;
        }
        UpdateRow(userId.value, Patch(Some(true), Some(SubscriptionType(s.interval)),
                                      Some(Millis(s.currentPeriodStart)),
                                      Some(Millis(s.currentPeriodEnd))));
      } else if mode == "payment" {
        // a one-time payment writes nothing
      }
    }

    /** `invoice.payment_succeeded` */
    method HandleInvoicePaid(subscriptionId: Option<string>, s: ProcessorSubscription, email: string)
      modifies this`records
      ensures records == Apply(old(records), profiles, InvoicePaymentSucceeded(subscriptionId, s, email), 0)
    {
      if Truthy(subscriptionId) {
        var user := FindProfile(profiles, email);
        if user.None? {
          return;
        }
        UpdateRow(user.value, Patch(Some(true), None, Some(Millis(s.currentPeriodStart)),
                                    Some(Millis(s.currentPeriodEnd))));
      }
    }

    /** `customer.subscription.deleted` */
    method HandleSubscriptionDeleted(email: string, now: int)
      modifies this`records
      ensures records == Apply(old(records), profiles, CustomerSubscriptionDeleted(email), now)
    {
      var user := FindProfile(profiles, email);
      if user.None? {
        return;
      }
      UpdateRow(user.value, Patch(Some(false), None, None, Some(now)));
    }

    /** The request handler. `signature` is the signature header,
        `endpointSecret` the configured secret, `verified` whether the
        signature check accepted the body, `e` the event it decoded. */
    method HandleRequest(signature: Option<string>, endpointSecret: Option<string>, verified: bool,
                         e: Event, now: int)
      returns (resp: Response)
      modifies this`records
      ensures !Truthy(signature) ==>
                resp == Response(500, ErrorMessage("No Stripe signature found"))
      ensures Truthy(signature) && !Truthy(endpointSecret) ==>
                resp == Response(500, ErrorMessage("STRIPE_WEBHOOK_SECRET is not set"))
      ensures Truthy(signature) && Truthy(endpointSecret) && !verified ==>
                resp == Response(400, ErrorMessage("Webhook signature verification failed"))
      ensures !(Truthy(signature) && Truthy(endpointSecret) && verified) ==>
                records == old(records)
      ensures Truthy(signature) && Truthy(endpointSecret) && verified ==>
                resp == Response(200, Received) && records == Apply(old(records), profiles, e, now)
    {
      if !Truthy(signature) {
        return Response(500, ErrorMessage("No Stripe signature found"));
      }
      if !Truthy(endpointSecret) {
        return Response(500, ErrorMessage("STRIPE_WEBHOOK_SECRET is not set"));
      }
      if !verified {
        return Response(400, ErrorMessage("Webhook signature verification failed"));
      }
      match e {
        case CheckoutSessionCompleted(mode, userId, s) =>
          HandleCheckoutCompleted(mode, userId, s);
        case InvoicePaymentSucceeded(subscriptionId, s, email) =>
          HandleInvoicePaid(subscriptionId, s, email);
        case CustomerSubscriptionDeleted(email) =>
          HandleSubscriptionDeleted(email, now);
        case Unhandled(_) =>
      }
      resp := Response(200, Received);
    }
  }
}
