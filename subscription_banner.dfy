/** The status banner above the form (src/components/user-story/SubscriptionStatus.tsx):
    it re-derives the free-tier limit from its props, picks one message, and
    decides on the destructive colouring and the Upgrade button. */
module SubscriptionBanner {
  import opened Wrappers
  import opened JsText

  /** The four messages the banner can show. */
  datatype Message =
    | SubscribedMessage
    | CreditsMessage(credits: int)
    | LimitReachedMessage
    | UsedMessage(usage: Option<int>)

  /** What the banner shows: colouring, message, Upgrade button. */
  datatype BannerView = BannerView(destructive: bool, message: Message, showUpgrade: bool)

  /** The banner's own copy of `remainingFreeStories`. */
  function RemainingFreeStories(usage: Option<int>): Option<int> {
    if usage.Some? then Some(Max(0, 5 - usage.value)) else None
  }

  /** The banner's own copy of `hasReachedFreeLimit`. */
  predicate HasReachedFreeLimit(active: bool, credits: int, usage: Option<int>) {
    var remainingFree := RemainingFreeStories(usage);
    !active && credits <= 0 && remainingFree.Some? && remainingFree.value <= 0
  }

  /** `${usageCount}`: a missing count renders as "null". */
  function UsageText(usage: Option<int>): string {
    if usage.Some? then IntToString(usage.value) else "null"
  }

  /** The text of each message. */
  function Text(m: Message): string {
    match m
    case SubscribedMessage => "You have an active subscription with unlimited user stories!"
    case CreditsMessage(credits) => "You have " + IntToString(credits) + " one-time credits remaining."
    case LimitReachedMessage => "You've reached your limit of 5 free user stories this month."
    case UsedMessage(usage) => "You've used " + UsageText(usage) + " of 5 free user stories this month."
  }

  /** The component: nothing while loading, otherwise the banner. The message
      is chosen by priority: subscription, then credits, then the free tier. */
  function Banner(isLoading: bool, active: bool, credits: int, usage: Option<int>): (r: Option<BannerView>)
    ensures r.None? <==> isLoading
    ensures r.Some? ==> (r.value.destructive <==> HasReachedFreeLimit(active, credits, usage))
    ensures r.Some? ==> (r.value.showUpgrade <==> !active && credits <= 0)
    ensures r.Some? && active ==> r.value.message == SubscribedMessage
    ensures r.Some? && !active && credits > 0 ==> r.value.message == CreditsMessage(credits)
    ensures r.Some? && !active && credits <= 0 ==>
              r.value.message == if HasReachedFreeLimit(active, credits, usage)
                                 then LimitReachedMessage else UsedMessage(usage)
  {
    if isLoading then None
    else
      var hasReachedFreeLimit := HasReachedFreeLimit(active, credits, usage);
      var message :=
        if active then SubscribedMessage
        else if credits > 0 then CreditsMessage(credits)
        else if hasReachedFreeLimit then LimitReachedMessage
        else UsedMessage(usage);
      Some(BannerView(
        hasReachedFreeLimit,
        message,
        hasReachedFreeLimit || (!active && credits <= 0)))
  }

  /** Without subscription or credits, the message counts the stories used
      exactly when the limit is not reached; a known count shown there is
      below five. */
  lemma FreeTierMessage(credits: int, usage: Option<int>)
    requires credits <= 0
    ensures Banner(false, false, credits, usage).value.message.UsedMessage?
            <==> usage.None? || usage.value < 5
    ensures Banner(false, false, credits, usage).value.message.UsedMessage? ==>
              Banner(false, false, credits, usage).value.message.usage == usage
  {
  }

  /** When the usage count is unknown (its query failed) a user with neither
      subscription nor credits is told they used "null" of 5 stories. */
  lemma UnknownUsageShowsNull(credits: int)
    requires credits <= 0
    ensures Text(Banner(false, false, credits, None).value.message)
            == "You've used " + "null" + " of 5 free user stories this month."
  {
  }
}
