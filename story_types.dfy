/** The records exchanged between the form, the story generator, the results
    view and the subscription-status function (src/types/index.ts). */
module StoryTypes {
  import opened Wrappers

  /** What the form sends to the generator; every field but the requirement
      may be left out. */
  datatype UserStoryRequest = UserStoryRequest(
    requirement: string,
    context: Option<string>,
    stakeholders: Option<seq<string>>,
    apiRequired: Option<bool>,
    additionalDetails: Option<string>)

  datatype ErrorScenario = ErrorScenario(scenario: string, message: string)

  datatype TestCase = TestCase(
    title: string,
    scenario: string,
    givenSteps: seq<string>,
    whenSteps: seq<string>,
    thenSteps: seq<string>,
    restAssuredCode: string)

  /** The parts of an API specification that are rendered; the request and
      response examples and the error responses are free-form JSON. */
  datatype ApiSpec = ApiSpec(endpoint: string, httpMethod: string, description: string)

  /** The generated artefact. */
  datatype UserStoryResponse = UserStoryResponse(
    story: string,
    valueStatement: string,
    acceptanceCriteria: seq<string>,
    functionalRequirements: seq<string>,
    nonFunctionalRequirements: seq<string>,
    errorScenarios: seq<ErrorScenario>,
    technicalConsiderations: seq<string>,
    useCaseExamples: seq<string>,
    priority: string,
    effortEstimate: string,
    testCases: seq<TestCase>,
    apiSpecs: seq<ApiSpec>)

  /** The caller of a serverless function, as the auth platform resolves the
      bearer token; the email may be missing. */
  datatype AuthUser = AuthUser(id: string, email: Option<string>)

  /** The `status` string of the subscription-status answer. */
  datatype StatusKind = Subscribed | NotSubscribed | NoSubscription

  /** The answer of the subscription-status function. */
  datatype SubscriptionStatus = SubscriptionStatus(
    status: StatusKind,
    hasActiveSubscription: bool,
    remainingOneTimeCredits: int)
}
