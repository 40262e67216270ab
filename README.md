# taleweaver-agent: entitlement, billing and export rules in Dafny

taleweaver-agent is a web application that turns a plain-language
requirement into a structured user story. Users get five free stories a
month. After that they need a subscription (monthly or yearly) or one-time
credits (30 per payment). This project models the sequential rules under the
UI and proves properties about them:

- **Credits and status** (`CreditStatus`): how the status function computes
  a one-time credit balance from the customer's charges and the stories
  generated so far.
- **The form hook** (`StoryFormHook`): validation, the request sent to the
  generator, the monthly usage count, and the free-tier limit derived from it.
- **The three components that re-derive entitlement** (`SubscriptionBanner`,
  `FormSubmit`, `StoryForm`): lemmas in `StoryForm` show that the redundant
  copies of the rule agree.
- **Checkout** (`Checkout`): plan to price and mode, the duplicate-subscription
  guard, and the choice between customer and customer email.
- **The payment webhook** (`Webhook`): a store of per-user subscription rows,
  updated in place by one method per event kind, and specified by a pure
  `Apply` function.
- **The Markdown export** (`Markdown`): a method that appends to an
  accumulator in loops, proved equal to a section-by-section specification.
- **History pagination** (`History`) and **stakeholder list editing**
  (`Stakeholders`).

Supporting modules:

- `Wrappers`: Option, Result and JavaScript truthiness of optional strings.
- `JsText`: ECMAScript `trim` over its exact whitespace set, and the decimal
  rendering of integers in template literals.
- `StoryTypes`: the record shapes of src/types/index.ts.

Every call to the payment processor, the database, the auth service or the
generator is represented by its outcome, passed as a parameter. Writes to
the subscriptions table are map updates on a class field.

Behaviour worth knowing that the model makes explicit:

- The server spends credits on *all-time* stories beyond five
  (`CreditStatus.RemainingCredits`). The client's free limit counts *this
  month's* stories (`StoryFormHook.RemainingFreeStories`).
- Only the first 100 listed charges count. Once a customer has more, a new
  charge that captured nothing pushes a paid one out of the window, and the
  balance drops (`CreditStatus.SlidingWindowLosesCredits`).
- When the usage count is unknown and the user has no subscription and no
  credits, the banner reads "You've used null of 5 free user stories this
  month." (`SubscriptionBanner.UnknownUsageShowsNull`).
- The hook's `usageCount` is set to 0 when the status shows a subscription or
  credits. That is not a real count.

## Model

| member | source | states |
|---|---|---|
| JsText.TrimStart | src/hooks/useUserStoryForm.ts:92 | the result is a suffix of the input, everything dropped is JavaScript whitespace, and it does not start with whitespace |
| JsText.TrimEnd | src/hooks/useUserStoryForm.ts:92 | the result is a prefix of the input, everything dropped is whitespace, and it does not end with whitespace |
| JsText.Trim | src/hooks/useUserStoryForm.ts:92 | `trim()` yields a string with no whitespace at either end, never longer than the input |
| JsText.TrimEmptyIff | src/hooks/useUserStoryForm.ts:92 | `!s.trim()` holds exactly when every character of `s` is whitespace |
| JsText.TrimFixesTrimmed | src/components/user-story/StakeholderInput.tsx:25 | trimming leaves a string unchanged exactly when neither end is whitespace |
| JsText.TrimIdempotent | src/components/user-story/StakeholderInput.tsx:25 | trimming a trimmed name changes nothing |
| JsText.NatToString | src/components/ResultsDisplay.tsx:46 | `${index + 1}` renders as a non-empty run of decimal digits with no leading zero |
| JsText.NatToStringRoundTrip | src/components/ResultsDisplay.tsx:46 | reading the rendered digits back gives the number: the rendering loses nothing |
| JsText.IntToString | src/components/user-story/SubscriptionStatus.tsx:41 | an integer renders with a leading minus sign exactly when it is negative |
| CreditStatus.QualifyingCharges | supabase/functions/check-subscription-status/index.ts:81-83 | the filter keeps only charges that captured money and are not disputed, and never grows the list |
| CreditStatus.QualifyingKeepsExactly | supabase/functions/check-subscription-status/index.ts:81-83 | every qualifying charge is kept as often as it occurs, and every other charge is dropped |
| CreditStatus.QualifyingAppend | supabase/functions/check-subscription-status/index.ts:81-83 | filtering a concatenation is concatenating the filtered parts, so order is kept |
| CreditStatus.QualifyingAllQualify | supabase/functions/check-subscription-status/index.ts:81-83 | a list of qualifying charges passes the filter unchanged |
| CreditStatus.ListedCharges | supabase/functions/check-subscription-status/index.ts:74-77 | the listing is a prefix of the charges (newest first) of length exactly min(count, 100): all of them up to 100, else exactly the first 100 |
| CreditStatus.TotalCredits | supabase/functions/check-subscription-status/index.ts:74-85 | the purchased credits are a multiple of 30 and at most 3000 |
| CreditStatus.TotalCreditsAdditive | supabase/functions/check-subscription-status/index.ts:81-85 | within one listing page, the credits of two charge lists add up |
| CreditStatus.TotalCreditsOfOne | supabase/functions/check-subscription-status/index.ts:81-85 | one charge is worth exactly 30 credits if it qualifies and none otherwise |
| CreditStatus.TotalCreditsGrowWithCharges | supabase/functions/check-subscription-status/index.ts:74-85 | while at most 100 charges exist, new charges never lower the purchased credits |
| CreditStatus.SlidingWindowLosesCredits | supabase/functions/check-subscription-status/index.ts:74-85 | with 100 paid charges, one new charge that captured nothing lowers the credit total |
| CreditStatus.RemainingCredits | supabase/functions/check-subscription-status/index.ts:94-95 | the remaining one-time credits are never negative |
| CreditStatus.RemainingCreditsBounds | supabase/functions/check-subscription-status/index.ts:94-95 | the remaining credits lie between 0 and the purchased credits |
| CreditStatus.FreeStoriesUseNoCredits | supabase/functions/check-subscription-status/index.ts:94-95 | with at most five stories ever generated, all purchased credits remain |
| CreditStatus.RemainingCreditsMonotone | supabase/functions/check-subscription-status/index.ts:81-95 | more stories never leave more credits, and more purchased credits never leave fewer |
| CreditStatus.CheckStatus | supabase/functions/check-subscription-status/index.ts:29-107 | the "Not authenticated" and "User email not found" errors come first. Without a customer the answer is `no_subscription`, inactive, with 0 credits. Otherwise the subscription is active iff one is listed, and the status is `subscribed` iff active. Credits lie in [0, 3000] |
| CreditStatus.CheckStatusCredits | supabase/functions/check-subscription-status/index.ts:62-101 | for a known customer the answer's credits are exactly the purchased credits less the stories beyond five |
| CreditStatus.HttpStatus | supabase/functions/check-subscription-status/index.ts:97-117 | an answer is sent with status 200, and a thrown error with 500 |
| StoryFormHook.RemainingOneTimeCredits | src/hooks/useUserStoryForm.ts:126 | `remainingOneTimeCredits \|\| 0` is 0 without a status and the status's credits otherwise |
| StoryFormHook.RemainingFreeStories | src/hooks/useUserStoryForm.ts:128 | null iff the usage is unknown. For a known usage it lies in [0, 5], is 0 iff usage is at least 5, and otherwise adds up with the usage to 5 |
| StoryFormHook.HasReachedFreeLimitIff | src/hooks/useUserStoryForm.ts:129-132 | the limit is reached iff there is no subscription, credits are at most 0, and a known usage is at least 5. Unknown usage never blocks |
| StoryFormHook.ShortcutNeverReachesLimit | src/hooks/useUserStoryForm.ts:62-63 | when the fetched status has a subscription or credits, the limit is not reached whatever the usage |
| StoryFormHook.NextUsage | src/hooks/useUserStoryForm.ts:120 | after a successful generation the usage is the previous count plus one, a null count counting as 0 |
| StoryFormHook.NextUsageUsesOneFreeStory | src/hooks/useUserStoryForm.ts:118-128 | each successful generation removes one remaining free story, down to none |
| StoryFormHook.BuildRequest | src/hooks/useUserStoryForm.ts:107-113 | the requirement passes verbatim. Empty context and details, an empty stakeholder list and a false API flag are each left out, and only those |
| StoryFormHook.BuildRequestRoundTrip | src/hooks/useUserStoryForm.ts:107-113 | reading the request with empty defaults gives back every field of the form |
| StoryFormHook.FormHook.constructor | src/hooks/useUserStoryForm.ts:35-44 | the initial state: empty fields, no errors, usage unknown, loading, no status, limit not reached |
| StoryFormHook.FormHook.FetchData | src/hooks/useUserStoryForm.ts:46-87 | without a session, or when the status call throws, only loading ends. Otherwise the status is stored, and usage becomes 0 (shortcut), stays as it was (count error), or takes the count (null as 0) |
| StoryFormHook.FormHook.ValidateForm | src/hooks/useUserStoryForm.ts:89-98 | returns true iff the requirement is not blank. `errors` is empty or holds exactly the requirement error |
| StoryFormHook.FormHook.HandleSubmit | src/hooks/useUserStoryForm.ts:100-123 | an invalid form records the error and sends nothing. A valid one sends the built request, ends not submitting, and on a result increments usage and delivers the story |
| SubscriptionBanner.Banner | src/components/user-story/SubscriptionStatus.tsx:19-52 | nothing while loading. Destructive styling iff the limit is reached; the Upgrade button iff no subscription and credits at most 0. Message priority: subscription, then credits, then limit or usage |
| SubscriptionBanner.FreeTierMessage | src/components/user-story/SubscriptionStatus.tsx:43-48 | without subscription or credits, the usage message shows iff usage is unknown or below 5, and it shows the usage itself |
| SubscriptionBanner.UnknownUsageShowsNull | src/components/user-story/SubscriptionStatus.tsx:47 | an unknown usage count is rendered as the word "null" in the message |
| FormSubmit.Render | src/components/user-story/UserStoryFormSubmit.tsx:24-51 | disabled iff submitting or blocked. The generating label while submitting, the upgrade label when blocked, the generate label otherwise. The hint shows iff blocked |
| FormSubmit.LabelMatchesState | src/components/user-story/UserStoryFormSubmit.tsx:24-41 | an enabled button always offers to generate; the upgrade label only appears on a disabled button with the hint |
| FormSubmit.EntitledNeverBlocked | src/components/user-story/UserStoryFormSubmit.tsx:24 | a subscriber or credit holder who is not submitting gets an enabled generate button |
| StoryForm.Render | src/components/UserStoryForm.tsx:49-132 | only the loading card while submitting. The banner iff not loading. The textarea, switch and button share one disabled value, which holds iff the limit is reached with no subscription and no credits |
| StoryForm.FieldDisabledIsButtonDisabled | src/components/UserStoryForm.tsx:84-132 | the form's disabling predicate equals the submit button's for the flags passed down |
| StoryForm.BannerLimitAgreesWithHook | src/components/user-story/SubscriptionStatus.tsx:21-25 | the banner's free-limit flag equals the hook's for the same inputs |
| StoryForm.HookLimitDecidesBlocking | src/components/user-story/UserStoryFormSubmit.tsx:24 | given the hook's limit flag, the button is blocked exactly when that flag holds |
| StoryForm.GenerationOffered | src/components/UserStoryForm.tsx:84 | with the hook's values, generation is offered iff there is a subscription, credits, unknown usage, or usage below 5 |
| StoryForm.BannerUpgradeCoversBlocking | src/components/user-story/SubscriptionStatus.tsx:52 | a blocked button always comes with a destructive banner offering the upgrade. The banner also offers it to free users under the limit |
| StoryForm.SubmittingShowsOnlyLoading | src/components/UserStoryForm.tsx:49-55 | while submitting the form renders only the loading card |
| StoryForm.BannerGuardRedundant | src/components/UserStoryForm.tsx:61-68 | the banner renders nothing while loading, so the form's own guard repeats it |
| Checkout.PlanPrice | supabase/functions/create-checkout-session/index.ts:55-70 | exactly `one_time`, `monthly` and `yearly` are plans, and only `one_time` is a payment |
| Checkout.PlanPricesDistinct | supabase/functions/create-checkout-session/index.ts:55-67 | two plans share a price only if they are the same plan |
| Checkout.CreateCheckoutSession | supabase/functions/create-checkout-session/index.ts:31-106 | errors come in order: unauthenticated, no email, invalid plan, duplicate. The duplicate error needs a subscription plan, an existing customer and an active subscription at that price. A one-time purchase is never refused. The session has one line item of quantity 1 at the plan's price, the plan's mode, the caller's id as metadata, and customer or customer email but not both |
| Webhook.SubscriptionType | supabase/functions/stripe-webhook/index.ts:82 | the type is `yearly` iff the interval is `year`, and `monthly` otherwise |
| Webhook.ApplyPatch | supabase/functions/stripe-webhook/index.ts:78-86 | an update sets exactly the columns it names and keeps the others |
| Webhook.UpdateWhere | supabase/functions/stripe-webhook/index.ts:78-86 | `.update().eq('user_id', u)` patches u's row if it exists, creates no row and leaves every other row alone |
| Webhook.FindProfile | supabase/functions/stripe-webhook/index.ts:109-120 | no user iff no profile has the email as username; otherwise the id of a profile with that username |
| Webhook.Apply | supabase/functions/stripe-webhook/index.ts:61-177 | a verified event keeps the table's user ids and changes no row but its target user's |
| Webhook.CheckoutActivates | supabase/functions/stripe-webhook/index.ts:62-93 | a subscription checkout with a user id sets premium, the type from the interval, and start and expiry as period seconds times 1000 |
| Webhook.CheckoutIgnored | supabase/functions/stripe-webhook/index.ts:66-99 | a checkout in payment (or any other) mode, or without a user id, changes nothing |
| Webhook.RenewalKeepsType | supabase/functions/stripe-webhook/index.ts:101-139 | a paid invoice sets premium and both period dates, and keeps the subscription type |
| Webhook.CancellationExpiresNow | supabase/functions/stripe-webhook/index.ts:140-174 | a deleted subscription clears premium and sets expiry to now, keeping the other columns |
| Webhook.UnattributedEventsIgnored | supabase/functions/stripe-webhook/index.ts:101-177 | an email matching no profile, or an unhandled event type, changes nothing |
| Webhook.RedeliveryIdempotent | supabase/functions/stripe-webhook/index.ts:61-177 | re-applying an event at the same clock reading, with the same retrieved objects, changes nothing |
| Webhook.LateCancellationRedeliveryMovesExpiry | supabase/functions/stripe-webhook/index.ts:140-174 | delivery is not idempotent over time: a cancellation delivered again later moves the expiry from the first time to the later one |
| Webhook.SubscriptionStore.UpdateRow | supabase/functions/stripe-webhook/index.ts:78-86 | the table becomes `UpdateWhere` of the old table |
| Webhook.SubscriptionStore.HandleCheckoutCompleted | supabase/functions/stripe-webhook/index.ts:62-100 | the table becomes `Apply` of the old table for the checkout event |
| Webhook.SubscriptionStore.HandleInvoicePaid | supabase/functions/stripe-webhook/index.ts:101-139 | the table becomes `Apply` of the old table for the invoice event |
| Webhook.SubscriptionStore.HandleSubscriptionDeleted | supabase/functions/stripe-webhook/index.ts:140-174 | the table becomes `Apply` of the old table for the cancellation, with the handler's clock |
| Webhook.SubscriptionStore.HandleRequest | supabase/functions/stripe-webhook/index.ts:17-195 | no signature gives 500 "No Stripe signature found", no secret 500, and failed verification 400; none of these changes the table. A verified event gives 200 `{received: true}` and the table becomes `Apply` of the old one |
| Markdown.BlocksNumberedFromOne | src/components/ResultsDisplay.tsx:45-47 | the loop's text equals the front-to-back reading that numbers items 1, 2, ... in input order |
| Markdown.BlocksPrefix | src/components/ResultsDisplay.tsx:45-47 | the text for the first k items is a prefix of the text for all items |
| Markdown.NumberedListLines | src/components/ResultsDisplay.tsx:45-47 | a list of single-line items yields exactly one line per item |
| Markdown.EmptyListSection | src/components/ResultsDisplay.tsx:44-48 | an empty list gives only the header and a blank line |
| Markdown.ApiSectionPresentIff | src/components/ResultsDisplay.tsx:102-108 | the API section is present iff there are specifications, and then it starts with its header |
| Markdown.DocumentFrame | src/components/ResultsDisplay.tsx:39-112 | the document begins with the story under "# User Story" and ends with the Priority and Effort Estimate lines |
| Markdown.AppendNumbered | src/components/ResultsDisplay.tsx:45-47 | the numbered-list loop appends exactly the numbered lines of the items |
| Markdown.AppendListSection | src/components/ResultsDisplay.tsx:44-48 | appends the list section: header, numbered lines, blank line |
| Markdown.AppendStepList | src/components/ResultsDisplay.tsx:85-88 | appends a bold step header and one `- item` line per step, in order |
| Markdown.AppendErrorScenario | src/components/ResultsDisplay.tsx:76-77 | appends `### i. scenario` and `- message` with a blank line |
| Markdown.AppendErrorSection | src/components/ResultsDisplay.tsx:74-78 | appends the error-scenario header and one block per scenario |
| Markdown.AppendTestCase | src/components/ResultsDisplay.tsx:82-99 | appends a test case's title, scenario, and given, when and then bullets |
| Markdown.AppendTestCases | src/components/ResultsDisplay.tsx:81-100 | appends one block per test case, numbered from 1 |
| Markdown.AppendTestSection | src/components/ResultsDisplay.tsx:80-100 | appends the test-case header and the test-case blocks |
| Markdown.AppendApiSpec | src/components/ResultsDisplay.tsx:105-106 | appends `### i. METHOD endpoint` and the description with a blank line |
| Markdown.AppendApiSection | src/components/ResultsDisplay.tsx:102-108 | appends the API section, which is nothing when there are no specifications |
| Markdown.GenerateMarkdown | src/components/ResultsDisplay.tsx:39-115 | the accumulator ends equal to the specified document, sections in fixed order |
| History.TotalPages | src/pages/History.tsx:73 | `Math.ceil(total / 5)`: the fewest pages of five holding every story, 0 exactly for no stories |
| History.PageRangesTile | src/pages/History.tsx:47-48 | each page requests exactly five rows, and the next page starts right after |
| History.RowOnExactlyOnePage | src/pages/History.tsx:47-48 | every existing row is requested by exactly one page, and that page is accepted by the page change |
| History.ValidPageNotEmpty | src/pages/History.tsx:73-80 | every page the page change accepts starts at an existing row |
| History.PaginationMeansSeveralPages | src/pages/History.tsx:107 | the controls appear only when there are at least two pages |
| History.HistoryPage.constructor | src/pages/History.tsx:21-24 | the page starts on page 1 with no stories, a total of 0, and loading |
| History.HistoryPage.FetchUserStories | src/pages/History.tsx:27-71 | without a session nothing is queried. Otherwise a failed count keeps the total (null counts as 0), the current page's range is requested, and failed rows keep the list |
| History.HistoryPage.HandlePageChange | src/pages/History.tsx:75-80 | the page changes to p iff 1 <= p <= the page count; otherwise it stays |
| History.HistoryPage.ClickPrevious | src/pages/History.tsx:112-115 | goes back one page when the previous page is between 1 and the page count; on page 1, or when the previous page is itself beyond the last page (a later, smaller count), the page stays |
| History.HistoryPage.ClickNext | src/pages/History.tsx:131-134 | on or past the last page the next control does nothing; before it, it advances one page |
| Stakeholders.WithoutIndex | src/components/user-story/StakeholderInput.tsx:29-31 | removing an in-range index drops exactly that element, keeps the order, and shortens the list by one. An out-of-range index changes nothing |
| Stakeholders.AddButtonDisabledIff | src/components/user-story/StakeholderInput.tsx:61 | the add button is disabled iff the buffer is only whitespace or the editor is disabled |
| Stakeholders.StakeholderInput.constructor | src/components/user-story/StakeholderInput.tsx:20 | the editor starts with an empty buffer and, as the hook creates it, an empty list |
| Stakeholders.StakeholderInput.Type | src/components/user-story/StakeholderInput.tsx:50 | typing replaces the buffer |
| Stakeholders.StakeholderInput.AddStakeholder | src/components/user-story/StakeholderInput.tsx:22-27 | a blank buffer changes nothing; otherwise the trimmed buffer is appended after the earlier names and the buffer is cleared. Every listed name stays trimmed and non-empty |
| Stakeholders.StakeholderInput.RemoveStakeholder | src/components/user-story/StakeholderInput.tsx:29-31 | the list becomes `WithoutIndex` of the old list |
| Stakeholders.StakeholderInput.HandleKeyDown | src/components/user-story/StakeholderInput.tsx:33-38 | only Enter adds, with the add action's effect; any other key changes nothing |

## Left out

- CORS preflight (`OPTIONS`) answers, response headers and JSON encoding in all three serverless functions: transport, not logic.
- Token resolution, processor listings, retrievals, session creation and database queries: their outcomes are parameters. A thrown processor or database error (a 500 with the error's message) is modelled only for the errors these functions raise themselves.
- Webhook signature checking (`constructEvent`, an HMAC in a foreign library): a boolean outcome.
- Dates: `new Date()`, the first day of the month in local time, and ISO formatting. Times are integer milliseconds, and the clock is a parameter.
- Concurrency: generations racing each other, and webhook deliveries racing each other.
- Webhook.SubscriptionStore.HandleRequest: assumes every update succeeds. The source only logs a failed update, and still answers 200.
- Webhook.FindProfile: a failed profile query behaves like no match in the source. The model only has the match outcome. `limit(1)` returns the database's first match; the model takes the first in sequence order.
- CreditStatus.CheckStatus: takes the number of story rows as given. The database may cap a `select` at a maximum row count; that cap is not modelled.
- StoryFormHook.FormHook.FetchData: `getSubscriptionStatus` is imported from src/lib/api.ts, which does not define it. Its outcome (thrown, or a status or null) is a parameter.
- StoryFormHook.FormHook.HandleSubmit: the generator call is a parameter (`null` on failure, as `generateUserStory` returns). The page's `setSubmitting` and `onSuccess` callbacks are fields of the hook.
- Checkout.CreateCheckoutSession: a body that is not JSON (a 500) is not modelled. The Origin header is a string parameter; a missing header would render as "null/".
- The request and response examples and the error responses of an API specification: the export never renders them.
- JavaScript numbers are floating point; counts, credits and page numbers are modelled as unbounded integers. The values involved are small.
- The state setters of the form hook other than those above (typing into fields, toggling the switch): plain assignments.
- Rendering, toasts, clipboard, scrolling, routing and the other pages and components: UI with no rule to state.
