/** The subscription-status function (supabase/functions/check-subscription-status):
    from what the payment processor and the story table report about the
    caller, it answers whether a subscription is active and how many one-time
    credits are left. The processor and database calls are inputs here. */
module CreditStatus {
  import opened Wrappers
  import opened StoryTypes

  /** Credits granted by each counted one-time payment. */
  const CreditsPerPayment: nat := 30
  /** Stories every user may generate before credits are used. */
  const FreeStories: nat := 5
  /** The `limit` of the charge listing: at most one page of charges is read. */
  const ChargeListLimit: nat := 100

  /** The two fields of a processor charge that the function reads. */
  datatype Charge = Charge(amountCaptured: int, disputed: bool)

  /** What the external services report for the caller's email. */
  datatype Account = Account(
    customerId: Option<string>,        // the first customer listed for the email
    activeSubscriptions: seq<string>,  // the customer's subscriptions listed as active
    charges: seq<Charge>,              // the customer's charges, newest first
    storyRows: Option<nat>)            // rows of the caller's stories, or no data

  /** A charge counts as a one-time payment when money was captured and it is
      not disputed. */
  predicate Qualifies(c: Charge) {
    c.amountCaptured > 0 && !c.disputed
  }

  /** `charges.filter(charge => charge.amount_captured > 0 && !charge.disputed)` */
  function QualifyingCharges(cs: seq<Charge>): (r: seq<Charge>)
    ensures |r| <= |cs|
    ensures forall i :: 0 <= i < |r| ==> Qualifies(r[i])
  {
    if cs == [] then []
    else (if Qualifies(cs[0]) then [cs[0]] else []) + QualifyingCharges(cs[1..])
  }

  /** The filter keeps every qualifying charge as often as it occurs and drops
      every other one. */
  lemma {:induction false} QualifyingKeepsExactly(cs: seq<Charge>, c: Charge)
    ensures multiset(QualifyingCharges(cs))[c] == if Qualifies(c) then multiset(cs)[c] else 0
  {
    if cs != [] {
      QualifyingKeepsExactly(cs[1..], c);
      assert cs == [cs[0]] + cs[1..];
    }
  }

  lemma {:induction false} QualifyingAppend(a: seq<Charge>, b: seq<Charge>)
    ensures QualifyingCharges(a + b) == QualifyingCharges(a) + QualifyingCharges(b)
  {
    if a == [] {
      assert a + b == b;
    } else {
      assert (a + b)[0] == a[0];
      assert (a + b)[1..] == a[1..] + b;
      QualifyingAppend(a[1..], b);
    }
  }

  lemma {:induction false} QualifyingAllQualify(cs: seq<Charge>)
    requires forall i :: 0 <= i < |cs| ==> Qualifies(cs[i])
    ensures QualifyingCharges(cs) == cs
  {
    if cs != [] {
      QualifyingAllQualify(cs[1..]);
    }
  }

  /** The charges the function sees: the first page of at most 100. */
  function ListedCharges(cs: seq<Charge>): (r: seq<Charge>)
    ensures |r| <= ChargeListLimit
    ensures |cs| <= ChargeListLimit ==> r == cs
    ensures |r| == if |cs| <= ChargeListLimit then |cs| else ChargeListLimit
    ensures r == cs[..|r|]
  {
    if |cs| <= ChargeListLimit then cs else cs[..ChargeListLimit]
  }

  /** `totalOneTimeCredits`: 30 credits per qualifying listed charge. */
  function TotalCredits(cs: seq<Charge>): (r: nat)
    ensures r % CreditsPerPayment == 0
    ensures r <= CreditsPerPayment * ChargeListLimit
  {
    |QualifyingCharges(ListedCharges(cs))| * CreditsPerPayment
  }

  /** Each listed charge is worth exactly 30 credits if it qualifies and none
      otherwise, and the worth of a listing is the sum of its charges. */
  lemma TotalCreditsAdditive(a: seq<Charge>, b: seq<Charge>)
    requires |a + b| <= ChargeListLimit
    ensures TotalCredits(a + b) == TotalCredits(a) + TotalCredits(b)
  {
    QualifyingAppend(a, b);
  }

  lemma TotalCreditsOfOne(c: Charge)
    ensures TotalCredits([c]) == if Qualifies(c) then CreditsPerPayment else 0
  {
    assert [c][1..] == [];
  }

  /** While the customer has at most 100 charges, a new charge never lowers the
      credit total. */
  lemma TotalCreditsGrowWithCharges(newer: seq<Charge>, cs: seq<Charge>)
    requires |newer + cs| <= ChargeListLimit
    ensures TotalCredits(cs) <= TotalCredits(newer + cs)
  {
    TotalCreditsAdditive(newer, cs);
  }

  /** Past 100 charges the window slides: a new charge that did not capture
      money pushes the oldest paid charge out of the page and credits drop. */
  lemma SlidingWindowLosesCredits(cs: seq<Charge>)
    requires |cs| == ChargeListLimit
    requires forall i :: 0 <= i < |cs| ==> Qualifies(cs[i])
    ensures TotalCredits([Charge(0, false)] + cs) < TotalCredits(cs)
  {
    QualifyingAllQualify(cs);
    var listed := ListedCharges([Charge(0, false)] + cs);
    assert listed == [Charge(0, false)] + cs[..ChargeListLimit - 1];
    QualifyingAppend([Charge(0, false)], cs[..ChargeListLimit - 1]);
    QualifyingAllQualify(cs[..ChargeListLimit - 1]);
    assert [Charge(0, false)][1..] == [];
  }

  /** `remainingOneTimeCredits`: credits bought minus the stories generated
      beyond the free five, never below zero. */
  function RemainingCredits(total: int, stories: int): (r: int)
    ensures r >= 0
  {
    var usedCredits := stories - FreeStories;
    Max(0, total - Max(0, usedCredits))
  }

  lemma RemainingCreditsBounds(total: int, stories: int)
    requires total >= 0
    ensures 0 <= RemainingCredits(total, stories) <= total
  {
  }

  /** Nothing is used up while the caller has generated at most five stories. */
  lemma FreeStoriesUseNoCredits(total: int, stories: int)
    requires total >= 0 && stories <= FreeStories
    ensures RemainingCredits(total, stories) == total
  {
  }

  /** More stories never leave more credits; more credits bought never leave
      fewer. */
  lemma RemainingCreditsMonotone(total: int, total': int, stories: int, stories': int)
    requires total <= total' && stories' <= stories
    ensures RemainingCredits(total, stories) <= RemainingCredits(total', stories')
  {
  }

  /** The handler: authenticate, look the customer up, then compute the answer.
      Thrown errors become a `Failure` with the error's message. */
  function CheckStatus(user: Option<AuthUser>, account: Account): (r: Result<SubscriptionStatus>)
    ensures user.None? ==> r == Failure("Not authenticated")
    ensures user.Some? && !Truthy(user.value.email) ==> r == Failure("User email not found")
    ensures r.Ok? <==> user.Some? && Truthy(user.value.email)
    ensures r.Ok? ==> (r.value.hasActiveSubscription
                       <==> account.customerId.Some? && |account.activeSubscriptions| > 0)
    ensures r.Ok? ==> (r.value.status == NoSubscription <==> account.customerId.None?)
    ensures r.Ok? && account.customerId.Some? ==>
              (r.value.status == Subscribed <==> r.value.hasActiveSubscription)
    ensures r.Ok? ==> 0 <= r.value.remainingOneTimeCredits <= CreditsPerPayment * ChargeListLimit
    ensures r.Ok? && account.customerId.None? ==> r.value.remainingOneTimeCredits == 0
  {
    if user.None? then Failure("Not authenticated")
    else if !Truthy(user.value.email) then Failure("User email not found")
    else if account.customerId.None? then
      Ok(SubscriptionStatus(NoSubscription, false, 0))
    else
      var hasActiveSubscription := |account.activeSubscriptions| > 0;
      var total := TotalCredits(account.charges);
      var remaining := RemainingCredits(total, account.storyRows.GetOr(0));
      RemainingCreditsBounds(total, account.storyRows.GetOr(0));
      Ok(SubscriptionStatus(
        if hasActiveSubscription then Subscribed else NotSubscribed,
        hasActiveSubscription,
        remaining))
  }

  /** For a known customer the remaining credits are exactly the purchased
      credits less the stories beyond five, whatever the subscriptions. */
  lemma CheckStatusCredits(user: AuthUser, account: Account)
    requires Truthy(user.email) && account.customerId.Some?
    ensures CheckStatus(Some(user), account).Ok?
    ensures CheckStatus(Some(user), account).value.remainingOneTimeCredits
            == RemainingCredits(TotalCredits(account.charges), account.storyRows.GetOr(0))
  {
  }

  /** The HTTP status of the answer: 200 for a status, 500 for a thrown error. */
  function HttpStatus(r: Result<SubscriptionStatus>): (code: int)
    ensures code == 200 <==> r.Ok?
    ensures code == 500 <==> r.Failure?
  {
    if r.Ok? then 200 else 500
  }
}
