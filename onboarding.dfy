/** The onboarding wizard (app/onboarding.tsx): three ordinal steps (photo, goal,
    activity level), a per-step guard on Next, Previous, and a terminal submit that runs
    the body analysis and then the profile update. */
module Onboarding {
  import opened Wrappers
  import opened Types
  import Api

  const TotalSteps: int := 3

  /** `!!bodyImage`: an image URI is present and not empty. */
  predicate HasImage(bodyImage: Option<string>) {
    Api.Truthy(bodyImage)
  }

  /** `canProceed`: the switch on `step`; only the current step's own field matters. */
  function CanProceed(step: int, bodyImage: Option<string>, goals: PartialFitnessGoals): (ok: bool)
    ensures ok ==> 1 <= step <= TotalSteps
    ensures step == 1 ==> (ok <==> HasImage(bodyImage))
    ensures step == 2 ==> (ok <==> goals.goalType.Some?)
    ensures step == 3 ==> (ok <==> goals.activityLevel.Some?)
  {
    match step
    case 1 => HasImage(bodyImage)
    case 2 => goals.goalType.Some?
    case 3 => goals.activityLevel.Some?
    case _ => false
  }

  /** The field each step requires, so that two states agreeing on it agree on `CanProceed`. */
  predicate SameRequiredField(step: int, image1: Option<string>, goals1: PartialFitnessGoals,
                              image2: Option<string>, goals2: PartialFitnessGoals) {
    && (step == 1 ==> HasImage(image1) == HasImage(image2))
    && (step == 2 ==> goals1.goalType.Some? == goals2.goalType.Some?)
    && (step == 3 ==> goals1.activityLevel.Some? == goals2.activityLevel.Some?)
  }

  lemma CanProceedReadsOnlyCurrentStep(step: int, image1: Option<string>, goals1: PartialFitnessGoals,
                                       image2: Option<string>, goals2: PartialFitnessGoals)
    requires SameRequiredField(step, image1, goals1, image2, goals2)
    ensures CanProceed(step, image1, goals1) == CanProceed(step, image2, goals2)
  {
  }

  datatype StepView = PhotoStep | GoalStep | ActivityStep

  /** `renderCurrentStep`: any step other than 2 or 3 shows the photo step. */
  function CurrentStepView(step: int): (v: StepView)
    ensures v == GoalStep <==> step == 2
    ensures v == ActivityStep <==> step == 3
  {
    match step
    case 2 => GoalStep
    case 3 => ActivityStep
    case _ => PhotoStep
  }

  /** "Next" is rendered before the last step, "Complete Setup" on it; "Previous" after the first. */
  predicate NextOffered(step: int) { step < TotalSteps }
  predicate PreviousOffered(step: int) { step > 1 }

  /** The step after a press on "Next". */
  function AfterNext(step: int, bodyImage: Option<string>, goals: PartialFitnessGoals): int {
    if NextOffered(step) && CanProceed(step, bodyImage, goals) then step + 1 else step
  }

  /** The step after a press on "Previous". */
  function AfterPrevious(step: int): int {
    if PreviousOffered(step) then step - 1 else step
  }

  /** Both buttons keep the wizard within its three steps and move by at most one. */
  lemma StepsStayInRange(step: int, bodyImage: Option<string>, goals: PartialFitnessGoals)
    requires 1 <= step <= TotalSteps
    ensures 1 <= AfterNext(step, bodyImage, goals) <= TotalSteps
    ensures 1 <= AfterPrevious(step) <= TotalSteps
    ensures AfterNext(step, bodyImage, goals) - step in {0, 1}
    ensures step - AfterPrevious(step) in {0, 1}
  {
  }

  /** With a photo, a goal and an activity level entered, two presses on "Next" from the
      first step reach the last one, where "Complete Setup" is enabled. */
  lemma FinalStepReachable(bodyImage: Option<string>, goals: PartialFitnessGoals)
    requires ReadyToSubmit(bodyImage, goals)
    ensures AfterNext(AfterNext(1, bodyImage, goals), bodyImage, goals) == TotalSteps
    ensures !NextOffered(TotalSteps) && CanProceed(TotalSteps, bodyImage, goals)
  {
  }

  /** The payload of the profile update sent after the body analysis. */
  datatype ProfileUpdate = ProfileUpdate(fitnessGoals: PartialFitnessGoals, aiAnalysis: Api.BodyAnalysis,
                                         onboardingCompleted: bool)

  /** What one handler does outside the screen's own fields, in order. */
  datatype Effect =
    | ShowAlert(title: string, message: string)
    | SetLoading(on: bool)
    | CallAnalyzeBodyImage(imageUri: string, userInfo: PartialFitnessGoals)
    | CallUpdateUserProfile(update: ProfileUpdate)
    | NavigateToTabs

  const IncompleteMessage: string := "Please complete all steps"
  const AnalysisFailedMessage: string := "Failed to analyze your profile. Please try again."

  /** The guard of `handleComplete`: a photo, a goal and an activity level. */
  predicate ReadyToSubmit(bodyImage: Option<string>, goals: PartialFitnessGoals) {
    HasImage(bodyImage) && goals.goalType.Some? && goals.activityLevel.Some?
  }

  /** The effects of `handleComplete` for the given outcomes of the two gateway calls. */
  function CompleteEffects(bodyImage: Option<string>, goals: PartialFitnessGoals,
                           analysis: Result<Api.BodyAnalysis, Api.JsError>,
                           update: Outcome<Api.JsError>): seq<Effect>
  {
    if !ReadyToSubmit(bodyImage, goals) then [ShowAlert("Error", IncompleteMessage)]
    else
      [SetLoading(true), CallAnalyzeBodyImage(bodyImage.value, goals)]
      + (match analysis
         case Err(_) => [ShowAlert("Error", AnalysisFailedMessage)]
         case Ok(result) =>
           [CallUpdateUserProfile(ProfileUpdate(goals, result, true))]
           + (if update.Pass? then [NavigateToTabs] else [ShowAlert("Error", AnalysisFailedMessage)]))
      + [SetLoading(false)]
  }

  predicate IsGatewayCall(e: Effect) {
    e.CallAnalyzeBodyImage? || e.CallUpdateUserProfile?
  }

  /** An incomplete form makes no gateway call and never sets `loading`. */
  lemma IncompleteSubmitCallsNothing(bodyImage: Option<string>, goals: PartialFitnessGoals,
                                     analysis: Result<Api.BodyAnalysis, Api.JsError>, update: Outcome<Api.JsError>)
    requires !ReadyToSubmit(bodyImage, goals)
    ensures forall e :: e in CompleteEffects(bodyImage, goals, analysis, update) ==> !IsGatewayCall(e) && !e.SetLoading?
  {
  }

  /** A complete form: the analysis of the photo with the goals comes first, the profile
      update carries the goals, the analysis result and the completion flag and comes only
      after a successful analysis, navigation follows only when both succeed, and `loading`
      is raised first and cleared last. */
  lemma SubmitSequence(bodyImage: Option<string>, goals: PartialFitnessGoals,
                         analysis: Result<Api.BodyAnalysis, Api.JsError>, update: Outcome<Api.JsError>)
    requires ReadyToSubmit(bodyImage, goals)
    ensures var effs := CompleteEffects(bodyImage, goals, analysis, update);
      && |effs| >= 4
      && effs[0] == SetLoading(true)
      && effs[1] == CallAnalyzeBodyImage(bodyImage.value, goals)
      && effs[|effs| - 1] == SetLoading(false)
      && (NavigateToTabs in effs <==> analysis.Ok? && update.Pass?)
      && (analysis.Ok? ==> effs[2] == CallUpdateUserProfile(ProfileUpdate(goals, analysis.value, true)))
      && (analysis.Err? ==> forall e :: e in effs ==> !e.CallUpdateUserProfile?)
      && (analysis.Ok? && update.Pass? ==> effs[3] == NavigateToTabs)
  {
  }

  class OnboardingScreen {
    var step: int
    var bodyImage: Option<string>
    var loading: bool
    var fitnessGoals: PartialFitnessGoals

    /** The wizard is always on one of its three steps. */
    ghost predicate Valid()
      reads this
    {
      1 <= step <= TotalSteps
    }

    constructor ()
      ensures Valid()
      ensures step == 1 && bodyImage == None && !loading && fitnessGoals == NoGoals
    {
      step := 1;
      bodyImage := None;
      loading := false;
      fitnessGoals := NoGoals;
    }

    /** The camera or the gallery returned an image (`setBodyImage(result.assets[0].uri)`). */
    method PhotoPicked(uri: string)
      modifies this`bodyImage
      ensures bodyImage == Some(uri)
    {
      bodyImage := Some(uri);
    }

    /** "Retake Photo": the image is cleared, so step 1 can no longer proceed. */
    method Retake()
      modifies this`bodyImage
      ensures bodyImage == None
      ensures !CanProceed(1, bodyImage, fitnessGoals)
    {
      bodyImage := None;
    }

    /** `handleGoalSelection`: only the goal changes. */
    method SelectGoal(goal: GoalType)
      modifies this`fitnessGoals
      ensures fitnessGoals == old(fitnessGoals).(goalType := Some(goal))
    {
      fitnessGoals := fitnessGoals.(goalType := Some(goal));
    }

    /** `handleActivityLevel`: only the activity level changes. */
    method SelectActivityLevel(level: ActivityLevel)
      modifies this`fitnessGoals
      ensures fitnessGoals == old(fitnessGoals).(activityLevel := Some(level))
    {
      fitnessGoals := fitnessGoals.(activityLevel := Some(level));
    }

    /** A press on "Next": it exists only before the last step and is disabled unless the
        current step can proceed; when it acts it advances exactly one step. */
    method PressNext()
      requires Valid()
      modifies this`step
      ensures Valid()
      ensures step == AfterNext(old(step), bodyImage, fitnessGoals)
    {
      if NextOffered(step) && CanProceed(step, bodyImage, fitnessGoals) {
        step := step + 1;
      }
    }

    /** A press on "Previous": it exists only after the first step and goes back exactly
        one step, keeping the photo and the goals. */
    method PressPrevious()
      requires Valid()
      modifies this`step
      ensures Valid()
      ensures step == AfterPrevious(old(step))
      ensures bodyImage == old(bodyImage) && fitnessGoals == old(fitnessGoals)
    {
      if PreviousOffered(step) {
        step := step - 1;
      }
    }

    /** `handleComplete`, with the outcomes of the analysis and of the profile update as
        inputs. Only `loading` may change: it is untouched when the form is incomplete and
        false afterwards otherwise; the step, the photo and the goals stay as they were. */
    method HandleComplete(analysis: Result<Api.BodyAnalysis, Api.JsError>, update: Outcome<Api.JsError>)
      returns (effects: seq<Effect>)
      modifies this`loading
      ensures effects == CompleteEffects(bodyImage, fitnessGoals, analysis, update)
      ensures loading == if ReadyToSubmit(bodyImage, fitnessGoals) then false else old(loading)
    {
      if !ReadyToSubmit(bodyImage, fitnessGoals) {
        effects := [ShowAlert("Error", IncompleteMessage)];
        return;
      }
      loading := true;
      effects := [SetLoading(true), CallAnalyzeBodyImage(bodyImage.value, fitnessGoals)];
      match analysis {
        case Err(_) =>
          effects := effects + [ShowAlert("Error", AnalysisFailedMessage)];
        case Ok(result) =>
          effects := effects + [CallUpdateUserProfile(ProfileUpdate(fitnessGoals, result, true))];
          if update.Pass? {
            effects := effects + [NavigateToTabs];
          } else {
            effects := effects + [ShowAlert("Error", AnalysisFailedMessage)];
          }
      }
      loading := false;
      effects := effects + [SetLoading(false)];
    }
  }
}
