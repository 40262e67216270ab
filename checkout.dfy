/** The checkout function (supabase/functions/create-checkout-session): it maps
    the chosen plan to a price and a payment mode, refuses a second
    subscription to the same price, and builds the parameters of the
    processor's checkout session. The customer lookup and the active
    subscription lookup are inputs; creating the session is left to the
    caller of the result. */
module Checkout {
  import opened Wrappers
  import opened StoryTypes

  const OneTimePrice: string := "price_1R76oFPRdN87cPdW5egSuEmu"
  const MonthlyPrice: string := "price_1R76oyPRdN87cPdW1Hd6eeTs"
  const YearlyPrice: string := "price_1R76oyPRdN87cPdW378gtG77"

  const InvalidPlan: string := "Invalid plan selected"
  const AlreadySubscribed: string := "You already have an active subscription for this plan"

  /** The session's `mode`. */
  datatype Mode = Payment | Subscription

  datatype LineItem = LineItem(price: string, quantity: nat)

  /** The parameters passed to the processor's session creation. */
  datatype SessionParams = SessionParams(
    customer: Option<string>,
    customerEmail: Option<string>,
    lineItems: seq<LineItem>,
    mode: Mode,
    successUrl: string,
    cancelUrl: string,
    metadataUserId: string)

  /** The plans the function sells, with their price and mode. */
  function PlanPrice(plan: string): (r: Option<(string, Mode)>)
    ensures r.Some? <==> plan in {"one_time", "monthly", "yearly"}
    ensures r.Some? ==> (r.value.1 == Payment <==> plan == "one_time")
  {
    if plan == "one_time" then Some((OneTimePrice, Payment))
    else if plan == "monthly" then Some((MonthlyPrice, Subscription))
    else if plan == "yearly" then Some((YearlyPrice, Subscription))
    else None
  }

  /** Different plans are charged at different prices. */
  lemma PlanPricesDistinct(plan: string, plan': string)
    requires PlanPrice(plan).Some? && PlanPrice(plan').Some?
    ensures PlanPrice(plan).value.0 == PlanPrice(plan').value.0 <==> plan == plan'
  {
  }

  /** The handler from the decoded `plan` on. `customerId` is the first
      customer listed for the caller's email; `activePrices` are the prices of
      that customer's active subscriptions; `origin` is the request's Origin
      header. */
  method CreateCheckoutSession(user: Option<AuthUser>, plan: string, customerId: Option<string>,
                               activePrices: set<string>, origin: string)
    returns (r: Result<SessionParams>)
    ensures user.None? ==> r == Failure("Not authenticated")
    ensures user.Some? && !Truthy(user.value.email) ==> r == Failure("User email not found")
    ensures user.Some? && Truthy(user.value.email) && PlanPrice(plan).None? ==> r == Failure(InvalidPlan)
    ensures r == Failure(AlreadySubscribed) <==>
              user.Some? && Truthy(user.value.email) && PlanPrice(plan).Some? &&
              PlanPrice(plan).value.1 == Subscription && customerId.Some? &&
              PlanPrice(plan).value.0 in activePrices
    ensures r.Ok? <==>
              user.Some? && Truthy(user.value.email) && PlanPrice(plan).Some? &&
              !(PlanPrice(plan).value.1 == Subscription && customerId.Some? &&
                PlanPrice(plan).value.0 in activePrices)
    ensures r.Ok? ==>
              && r.value.lineItems == [LineItem(PlanPrice(plan).value.0, 1)]
              && r.value.mode == PlanPrice(plan).value.1
              && r.value.metadataUserId == user.value.id
              && r.value.customer == customerId
              && r.value.customerEmail == (if Truthy(customerId) then None else user.value.email)
              && r.value.successUrl == origin + "/" && r.value.cancelUrl == origin + "/"
    // a one-time purchase is never refused as a duplicate
    ensures user.Some? && Truthy(user.value.email) && plan == "one_time" ==>
              r.Ok? && r.value.mode == Payment && r.value.lineItems == [LineItem(OneTimePrice, 1)]
    // exactly one of customer and customer_email is set (customer ids are never empty)
    ensures r.Ok? && (customerId.Some? ==> customerId.value != "") ==>
              (r.value.customer.Some? <==> r.value.customerEmail.None?) &&
              (r.value.customerEmail.Some? <==> customerId.None?)
  {
    if user.None? {
      return Failure("Not authenticated");
    }
    var email := user.value.email;
    if !Truthy(email) {
      return Failure("User email not found");
    }

    var customer: Option<string> := None;
    var priceId := "";
    var mode := Subscription;

    if plan == "one_time" {
      priceId := OneTimePrice;
      mode := Payment;
    } else if plan == "monthly" {
      priceId := MonthlyPrice;
      mode := Subscription;
    } else if plan == "yearly" {
      priceId := YearlyPrice;
      mode := Subscription;
    } else {
      return Failure(InvalidPlan);
    }

    if customerId.Some? {
      customer := customerId;
      if mode == Subscription && priceId in activePrices {
        return Failure(AlreadySubscribed);
      }
    }

    r := Ok(SessionParams(
      customer,
      if Truthy(customer) then None else email,
      [LineItem(priceId, 1)],
      mode,
      origin + "/",
      origin + "/",
      user.value.id));
  }
}
