/** The story form (src/components/UserStoryForm.tsx): it renders the loading
    card while a story is being generated, and otherwise the status banner,
    the inputs and the submit button, passing the hook's entitlement values
    down. The lemmas here show that the redundant copies of the entitlement
    rule in the hook, the banner, the form and the button agree. */
module StoryForm {
  import opened Wrappers
  import StoryFormHook
  import SubscriptionBanner
  import FormSubmit
  import StoryTypes

  /** `remainingOneTimeCredits > 0` */
  predicate HasOneTimeCredits(credits: int) {
    credits > 0
  }

  /** The `disabled` expression of the requirement textarea and of the
      show-more switch: `isSubmitting || hasReachedFreeLimit && !active &&
      !hasOneTimeCredits`, where `&&` binds tighter than `||`. */
  predicate FieldDisabled(isSubmitting: bool, limit: bool, active: bool, hasCredits: bool) {
    isSubmitting || (limit && !active && !hasCredits)
  }

  /** What the form renders. */
  datatype FormView =
    | LoadingCard
    | Form(banner: Option<SubscriptionBanner.BannerView>,
           requirementDisabled: bool,
           switchDisabled: bool,
           submit: FormSubmit.SubmitView)

  /** The component, given the page's `isSubmitting` and the hook's outputs. */
  function Render(isSubmitting: bool, isLoading: bool, limit: bool, active: bool,
                  credits: int, usage: Option<int>): (v: FormView)
    ensures v.LoadingCard? <==> isSubmitting
    ensures v.Form? ==> (v.banner.Some? <==> !isLoading)
    ensures v.Form? ==> v.requirementDisabled == v.switchDisabled == v.submit.disabled
    ensures v.Form? ==> (v.submit.disabled <==> limit && !active && credits <= 0)
  {
    if isSubmitting then LoadingCard
    else
      var hasOneTimeCredits := HasOneTimeCredits(credits);
      var disabled := FieldDisabled(isSubmitting, limit, active, hasOneTimeCredits);
      Form(
        if !isLoading then SubscriptionBanner.Banner(isLoading, active, credits, usage) else None,
        disabled,
        disabled,
        FormSubmit.Render(isSubmitting, limit, active, hasOneTimeCredits))
  }

  /** The form's disabling rule and the button's are the same predicate. */
  lemma FieldDisabledIsButtonDisabled(isSubmitting: bool, limit: bool, active: bool, hasCredits: bool)
    ensures FieldDisabled(isSubmitting, limit, active, hasCredits)
            == FormSubmit.Render(isSubmitting, limit, active, hasCredits).disabled
  {
  }

  /** The banner's copy of the free-limit rule agrees with the hook's. */
  lemma BannerLimitAgreesWithHook(active: bool, credits: int, usage: Option<int>)
    ensures SubscriptionBanner.HasReachedFreeLimit(active, credits, usage)
            == StoryFormHook.HasReachedFreeLimit(active, credits, usage)
  {
  }

  /** Given the hook's own limit flag, the button's extra conjuncts are
      redundant: it is blocked exactly when the hook says the limit is reached. */
  lemma HookLimitDecidesBlocking(active: bool, credits: int, usage: Option<int>)
    ensures FormSubmit.Blocked(StoryFormHook.HasReachedFreeLimit(active, credits, usage),
                               active, HasOneTimeCredits(credits))
            == StoryFormHook.HasReachedFreeLimit(active, credits, usage)
  {
  }

  /** The entitlement decision as the rendered form applies it: with the
      hook's values, generation is offered exactly when the user subscribes,
      holds credits, has an unknown usage count or has used fewer than five
      stories this month. */
  lemma GenerationOffered(s: Option<StoryTypes.SubscriptionStatus>, usage: Option<int>)
    ensures
      var active := StoryFormHook.HasActiveSubscription(s);
      var credits := StoryFormHook.RemainingOneTimeCredits(s);
      var v := Render(false, false, StoryFormHook.HasReachedFreeLimit(active, credits, usage),
                      active, credits, usage);
      !v.submit.disabled <==> active || credits > 0 || usage.None? || usage.value < 5
  {
    var active := StoryFormHook.HasActiveSubscription(s);
    var credits := StoryFormHook.RemainingOneTimeCredits(s);
    StoryFormHook.HasReachedFreeLimitIff(active, credits, usage);
  }

  /** Whenever the button is blocked the banner offers the upgrade and is
      coloured as an error; the banner also offers the upgrade to free users
      still under the limit. */
  lemma BannerUpgradeCoversBlocking(active: bool, credits: int, usage: Option<int>)
    ensures
      var v := Render(false, false, StoryFormHook.HasReachedFreeLimit(active, credits, usage),
                      active, credits, usage);
      v.submit.disabled ==> v.banner.value.showUpgrade && v.banner.value.destructive
    ensures !active && credits <= 0 && usage == Some(0) ==>
      var v := Render(false, false, StoryFormHook.HasReachedFreeLimit(active, credits, usage),
                      active, credits, usage);
      v.banner.value.showUpgrade && !v.submit.disabled
  {
    BannerLimitAgreesWithHook(active, credits, usage);
  }

  /** While a story is generated nothing of the form is rendered. */
  lemma SubmittingShowsOnlyLoading(isLoading: bool, limit: bool, active: bool,
                                   credits: int, usage: Option<int>)
    ensures Render(true, isLoading, limit, active, credits, usage) == LoadingCard
  {
  }

  /** The form's `!isLoading` guard and the banner's own loading check say the
      same thing. */
  lemma BannerGuardRedundant(active: bool, credits: int, usage: Option<int>)
    ensures SubscriptionBanner.Banner(true, active, credits, usage).None?
  {
  }
}
