/** The submit button (src/components/user-story/UserStoryFormSubmit.tsx):
    whether it is disabled, which caption it carries and whether the upgrade hint
    below it is shown, all from four flags. */
module FormSubmit {

  /** What the button area shows. */
  datatype SubmitView = SubmitView(disabled: bool, caption: string, showHint: bool)

  const GeneratingLabel: string := "Generating User Story..."
  const UpgradeLabel: string := "Upgrade to Generate More Stories"
  const GenerateLabel: string := "Generate User Story"

  /** `hasReachedFreeLimit && !hasActiveSubscription && !hasOneTimeCredits` */
  predicate Blocked(limit: bool, active: bool, hasCredits: bool) {
    limit && !active && !hasCredits
  }

  /** The component. */
  function Render(isSubmitting: bool, limit: bool, active: bool, hasCredits: bool): (v: SubmitView)
    ensures v.disabled <==> isSubmitting || Blocked(limit, active, hasCredits)
    ensures isSubmitting ==> v.caption == GeneratingLabel
    ensures !isSubmitting && Blocked(limit, active, hasCredits) ==> v.caption == UpgradeLabel
    ensures !isSubmitting && !Blocked(limit, active, hasCredits) ==> v.caption == GenerateLabel
    ensures v.showHint <==> Blocked(limit, active, hasCredits)
  {
    var blocked := Blocked(limit, active, hasCredits);
    SubmitView(
      isSubmitting || blocked,
      if isSubmitting then GeneratingLabel else if blocked then UpgradeLabel else GenerateLabel,
      blocked)
  }

  /** An enabled button always offers to generate, and the upgrade caption only
      ever appears on a disabled button with the hint beneath it. */
  lemma LabelMatchesState(isSubmitting: bool, limit: bool, active: bool, hasCredits: bool)
    ensures !Render(isSubmitting, limit, active, hasCredits).disabled ==>
              Render(isSubmitting, limit, active, hasCredits).caption == GenerateLabel
    ensures Render(isSubmitting, limit, active, hasCredits).caption == UpgradeLabel ==>
              Render(isSubmitting, limit, active, hasCredits).disabled &&
              Render(isSubmitting, limit, active, hasCredits).showHint
  {
    assert UpgradeLabel[0] != GeneratingLabel[0] && UpgradeLabel[0] != GenerateLabel[0];
  }

  /** A subscriber or a credit holder is never blocked, whatever the limit
      flag says. */
  lemma EntitledNeverBlocked(limit: bool, active: bool, hasCredits: bool)
    requires active || hasCredits
    ensures !Render(false, limit, active, hasCredits).disabled
    ensures Render(false, limit, active, hasCredits).caption == GenerateLabel
  {
  }
}
