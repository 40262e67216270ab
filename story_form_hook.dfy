/** The form hook (src/hooks/useUserStoryForm.ts): the state behind the story
    form, its validation, the request it sends to the generator, the monthly
    usage count and the free-tier limit derived from it. The React state
    setters become assignments to the fields of `FormHook`; the awaited calls
    (session lookup, subscription status, usage count, generation) become
    parameters carrying their outcome. */
module StoryFormHook {
  import opened Wrappers
  import opened JsText
  import opened StoryTypes

  /** Free stories per calendar month. */
  const FreeMonthlyStories: int := 5
  const RequirementRequired: string := "Requirement is required"

  /** How the call to `getSubscriptionStatus` ended. */
  datatype StatusFetch = StatusThrew | StatusReturned(status: Option<SubscriptionStatus>)

  /** How the head-only count of this month's stories ended. */
  datatype CountResult = CountError | CountOk(count: Option<nat>)

  /** The form's fields, as the request builder reads them. */
  datatype FormValues = FormValues(
    requirement: string,
    context: string,
    stakeholders: seq<string>,
    apiRequired: bool,
    additionalDetails: string)

  // ---------------------------------------------------------------------
  // Derived values (pure expressions of the hook's state)

  /** `subscriptionStatus?.hasActiveSubscription || false` */
  predicate HasActiveSubscription(s: Option<SubscriptionStatus>) {
    s.Some? && s.value.hasActiveSubscription
  }

  /** `subscriptionStatus?.remainingOneTimeCredits || 0` */
  function RemainingOneTimeCredits(s: Option<SubscriptionStatus>): (c: int)
    ensures s.None? ==> c == 0
    ensures s.Some? ==> c == s.value.remainingOneTimeCredits
  {
    if s.Some? && s.value.remainingOneTimeCredits != 0 then s.value.remainingOneTimeCredits else 0
  }

  /** `usageCount !== null ? Math.max(0, 5 - usageCount) : null` */
  function RemainingFreeStories(usage: Option<int>): (r: Option<int>)
    ensures r.None? <==> usage.None?
    ensures usage.Some? && usage.value >= 0 ==> 0 <= r.value <= FreeMonthlyStories
    ensures usage.Some? ==> (r.value == 0 <==> usage.value >= FreeMonthlyStories)
    ensures usage.Some? && usage.value <= FreeMonthlyStories ==>
              r.value + usage.value == FreeMonthlyStories
  {
    if usage.Some? then Some(Max(0, FreeMonthlyStories - usage.value)) else None
  }

  /** `hasReachedFreeLimit` as the hook computes it. */
  predicate HasReachedFreeLimit(active: bool, credits: int, usage: Option<int>) {
    var remainingFree := RemainingFreeStories(usage);
    !active && credits <= 0 && remainingFree.Some? && remainingFree.value <= 0
  }

  /** The limit is reached exactly when there is no subscription, no credit,
      and a known usage of at least five; unknown usage never blocks. */
  lemma HasReachedFreeLimitIff(active: bool, credits: int, usage: Option<int>)
    ensures HasReachedFreeLimit(active, credits, usage)
        <==> !active && credits <= 0 && usage.Some? && usage.value >= FreeMonthlyStories
  {
  }

  /** When the fetched status shows a subscription or credits, the count query
      is skipped. */
  predicate UsageShortcut(s: Option<SubscriptionStatus>) {
    s.Some? && (s.value.hasActiveSubscription || s.value.remainingOneTimeCredits > 0)
  }

  /** Whatever usage is recorded, a status that skips the count query never
      reaches the free limit. */
  lemma ShortcutNeverReachesLimit(s: Option<SubscriptionStatus>, usage: Option<int>)
    requires UsageShortcut(s)
    ensures !HasReachedFreeLimit(HasActiveSubscription(s), RemainingOneTimeCredits(s), usage)
  {
  }

  /** The usage count after a successful generation: one more, an unknown
      count counting as none. */
  function NextUsage(prev: Option<int>): (r: Option<int>)
    ensures r.Some? && r.value == prev.GetOr(0) + 1
  {
    if prev.Some? then Some(prev.value + 1) else Some(1)
  }

  /** Each successful generation uses up one free story, down to none. */
  lemma NextUsageUsesOneFreeStory(prev: Option<int>)
    requires prev.Some? ==> prev.value >= 0
    ensures RemainingFreeStories(NextUsage(prev)).value
            == Max(0, RemainingFreeStories(prev).GetOr(FreeMonthlyStories) - 1)
  {
  }

  /** The request object of `handleSubmit`: empty strings, an empty
      stakeholder list and a false flag are left out. */
  function BuildRequest(v: FormValues): (r: UserStoryRequest)
    ensures r.requirement == v.requirement
    ensures r.context.None? <==> v.context == ""
    ensures r.stakeholders.None? <==> v.stakeholders == []
    ensures r.apiRequired.None? <==> !v.apiRequired
    ensures r.additionalDetails.None? <==> v.additionalDetails == ""
  {
    UserStoryRequest(
      v.requirement,
      if v.context != "" then Some(v.context) else None,
      if |v.stakeholders| > 0 then Some(v.stakeholders) else None,
      if v.apiRequired then Some(true) else None,
      if v.additionalDetails != "" then Some(v.additionalDetails) else None)
  }

  /** How the generator reads a request: an absent field takes its empty
      default. */
  function ReadRequest(r: UserStoryRequest): FormValues {
    FormValues(
      r.requirement,
      r.context.GetOr(""),
      r.stakeholders.GetOr([]),
      r.apiRequired.GetOr(false),
      r.additionalDetails.GetOr(""))
  }

  /** Leaving out the empty fields loses nothing: the generator recovers every
      field the user filled in. */
  lemma BuildRequestRoundTrip(v: FormValues)
    ensures ReadRequest(BuildRequest(v)) == v
  {
  }

  // ---------------------------------------------------------------------
  // The hook's state

  class FormHook {
    var requirement: string
    var context: string
    var stakeholders: seq<string>
    var apiRequired: bool
    var additionalDetails: string
    var showAdditionalFields: bool
    var errors: map<string, string>
    var usageCount: Option<int>
    var isLoading: bool
    var subscriptionStatus: Option<SubscriptionStatus>
    // The page's state reached through the `setSubmitting` and `onSuccess`
    // callbacks, and the requests handed to the generator, oldest first.
    var isSubmitting: bool
    var sentRequests: seq<UserStoryRequest>
    var delivered: seq<UserStoryResponse>

    /** A known usage count is never negative. */
    ghost predicate Valid()
      reads this
    {
      usageCount.Some? ==> usageCount.value >= 0
    }

    function Values(): FormValues
      reads this
    {
      FormValues(requirement, context, stakeholders, apiRequired, additionalDetails)
    }

    predicate ReachedFreeLimit()
      reads this
    {
      HasReachedFreeLimit(HasActiveSubscription(subscriptionStatus),
                          RemainingOneTimeCredits(subscriptionStatus), usageCount)
    }

    /** The initial state of every `useState`, before the fetch effect runs. */
    constructor ()
      ensures Valid()
      ensures Values() == FormValues("", "", [], false, "")
      ensures !showAdditionalFields && errors == map[]
      ensures usageCount == None && isLoading && subscriptionStatus == None
      ensures !isSubmitting && sentRequests == [] && delivered == []
      ensures !ReachedFreeLimit()
    {
      requirement, context, stakeholders := "", "", [];
      apiRequired, additionalDetails := false, "";
      showAdditionalFields, errors := false, map[];
      usageCount, isLoading, subscriptionStatus := None, true, None;
      isSubmitting, sentRequests, delivered := false, [], [];
    }

    /** The mount effect `fetchData`. Without a session, or when the status
        call throws, only the loading flag moves. */
    method FetchData(hasSession: bool, fetched: StatusFetch, usageQuery: CountResult)
      requires Valid()
      modifies this`subscriptionStatus, this`usageCount, this`isLoading
      ensures Valid()
      ensures !isLoading
      ensures !hasSession || fetched.StatusThrew? ==>
                subscriptionStatus == old(subscriptionStatus) && usageCount == old(usageCount)
      ensures hasSession && fetched.StatusReturned? ==>
                subscriptionStatus == fetched.status &&
                usageCount == if UsageShortcut(fetched.status) then Some(0)
                              else if usageQuery.CountError? then old(usageCount)
                              else Some(usageQuery.count.GetOr(0))
    {
      isLoading := true;
      if hasSession {
        match fetched
        case StatusThrew =>
        case StatusReturned(status) =>
          subscriptionStatus := status;
          if UsageShortcut(status) {
            usageCount := Some(0);
          } else {
            match usageQuery
            case CountError =>
            case CountOk(count) =>
              usageCount := Some(count.GetOr(0));
          }
      }
      isLoading := false;
    }

    /** `validateForm`: the form is valid exactly when the requirement is not
        blank, and the errors record holds the requirement error or nothing. */
    method ValidateForm() returns (ok: bool)
      modifies this`errors
      ensures ok <==> !AllWhitespace(requirement)
      ensures errors == if ok then map[] else map["requirement" := RequirementRequired]
    {
      var newErrors: map<string, string> := map[];
      if Trim(requirement) == "" {
        newErrors := newErrors["requirement" := RequirementRequired];
        assert "requirement" in newErrors.Keys;
      }
      errors := newErrors;
      ok := newErrors.Keys == {};
      TrimEmptyIff(requirement);
    }

    /** `handleSubmit`, with the generator's answer (`null` on failure) as a
        parameter. An invalid form stops before anything is sent. */
    method HandleSubmit(generated: Option<UserStoryResponse>)
      requires Valid()
      modifies this`errors, this`isSubmitting, this`sentRequests, this`usageCount, this`delivered
      ensures Valid()
      ensures AllWhitespace(requirement) ==>
                errors == map["requirement" := RequirementRequired] &&
                isSubmitting == old(isSubmitting) && sentRequests == old(sentRequests) &&
                usageCount == old(usageCount) && delivered == old(delivered)
      ensures !AllWhitespace(requirement) ==>
                errors == map[] && !isSubmitting &&
                sentRequests == old(sentRequests) + [BuildRequest(Values())] &&
                usageCount == (if generated.Some? then NextUsage(old(usageCount)) else old(usageCount)) &&
                delivered == old(delivered) + (if generated.Some? then [generated.value] else [])
    {
      var valid := ValidateForm();
      if !valid {
        return;
      }
      isSubmitting := true;
      var data := BuildRequest(Values());
      sentRequests := sentRequests + [data];
      isSubmitting := false;
      if generated.Some? {
        usageCount := NextUsage(usageCount);
        delivered := delivered + [generated.value];
      }
    }
  }
}
