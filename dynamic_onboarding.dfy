/**
 * The data-driven onboarding flow: a list of steps loaded once, a bounded
 * step counter, the last phone number handed over, and the render guards
 * that pick between the loading text, the error, the empty notice and the
 * current step.
 */
module DynamicOnboarding {
  import opened Wrappers
  import opened Text
  import PhoneId

  /** The four kinds of step and the data each one renders. */
  datatype StepKind =
    | PhoneIdStep(tagline: string, picture: string)
    | WelcomeStep(title: string, description: string)
    | FeaturesStep(items: seq<string>)
    | SignupStep(buttonText: string)

  datatype Step = Step(id: int, kind: StepKind)

  /** `getOnboardingData`: the fixed list of five steps (image assets are named by file). */
  function OnboardingData(): (steps: seq<Step>)
    ensures |steps| == 5
    ensures forall i :: 0 <= i < |steps| ==> steps[i].id == i + 1
    ensures steps[0].kind.PhoneIdStep? && steps[1].kind.PhoneIdStep?
    ensures steps[2].kind.WelcomeStep? && steps[3].kind.FeaturesStep? && steps[4].kind.SignupStep?
  {
    [ Step(1, PhoneIdStep("better ai, better life", "onboarding-1.png")),
      Step(2, PhoneIdStep("seondary", "onboarding-3.png")),
      Step(3, WelcomeStep("Welcome!", "Let's get started.")),
      Step(4, FeaturesStep(["Feature 1", "Feature 2", "Feature 3"])),
      Step(5, SignupStep("Sign Up Now")) ]
  }

  /** The counter after one `handleNext` in a list of `count` steps. */
  function NextStep(step: nat, count: nat): (r: nat)
    ensures step < count - 1 ==> r == step + 1
    ensures step >= count - 1 ==> r == step
  {
    if step < count - 1 then step + 1 else step
  }

  /** The counter after `presses` calls of `handleNext`. */
  function StepAfter(presses: nat, count: nat): (r: nat)
    ensures r == 0 || r < count
    decreases presses
  {
    if presses == 0 then 0 else NextStep(StepAfter(presses - 1, count), count)
  }

  /** Pressing on from the first step reaches step `presses` and stops at the last step. */
  lemma {:induction false} StepAfterPresses(presses: nat, count: nat)
    requires count >= 1
    ensures StepAfter(presses, count) == Min(presses, count - 1)
    decreases presses
  {
    if presses > 0 {
      StepAfterPresses(presses - 1, count);
    }
  }

  /** `if (phone) setPhoneNumber(phone)`: only a non-empty phone string replaces the stored one. */
  function KeptPhone(stored: Option<string>, phone: Option<string>): (r: Option<string>)
    ensures phone.Some? && phone.value != "" ==> r == phone
    ensures phone.None? || phone.value == "" ==> r == stored
  {
    if phone.Some? && phone.value != "" then phone else stored
  }

  /** What the screen shows. */
  datatype View =
    | Loading
    | Failed(message: string)
    | NoSteps
    | Showing(step: Step, position: int, total: int)

  const LoadFailure := "Failed to load onboarding data"

  /** The onboarding screen and its five pieces of state. */
  class OnboardingScreen {
    var onboardingData: seq<Step>
    var currentStep: nat
    var loading: bool
    var error: Option<string>
    var phoneNumber: Option<string>

    /** The counter stays on a step of the list (or at 0 for an empty list); nothing is loaded while loading. */
    ghost predicate Valid()
      reads this
    {
      (currentStep == 0 || currentStep < |onboardingData|)
      && (loading ==> onboardingData == [] && currentStep == 0 && error.None?)
    }

    constructor ()
      ensures onboardingData == [] && currentStep == 0 && loading
      ensures error.None? && phoneNumber.None?
      ensures Valid()
    {
      onboardingData := [];
      currentStep := 0;
      loading := true;
      error := None;
      phoneNumber := None;
    }

    /**
     * The load effect: the fetched list (or, when fetching throws, `None`
     * and the error text); loading ends either way.
     */
    method FinishLoad(fetched: Option<seq<Step>>)
      requires Valid() && loading
      modifies this
      ensures Valid() && !loading
      ensures fetched.Some? ==> onboardingData == fetched.value && error.None?
      ensures fetched.None? ==> onboardingData == [] && error == Some(LoadFailure)
      ensures currentStep == 0 && phoneNumber == old(phoneNumber)
    {
      if fetched.Some? {
        onboardingData := fetched.value;
      } else {
        error := Some(LoadFailure);
      }
      loading := false;
    }

    /** `handleNext`: keep a handed-over phone number and move to the next step unless on the last. */
    method HandleNext(phone: Option<string>)
      requires Valid()
      modifies this
      ensures Valid()
      ensures currentStep == NextStep(old(currentStep), |onboardingData|)
      ensures phoneNumber == KeptPhone(old(phoneNumber), phone)
      ensures onboardingData == old(onboardingData) && loading == old(loading) && error == old(error)
    {
      if phone.Some? && phone.value != "" {
        phoneNumber := phone;
      }
      if currentStep < |onboardingData| - 1 {
        currentStep := currentStep + 1;
      }
    }

    /**
     * The step's own button (`renderScreen`): the sign-up step completes the
     * flow and changes nothing; the welcome and features steps call
     * `handleNext` with no number; the phone step is the phone screen, whose
     * submit calls `handleNext` with the digits of `phoneField` only when
     * there are at least ten of them, and otherwise does nothing.
     */
    method PressStep(phoneField: string) returns (completed: bool)
      requires Valid() && !loading && error.None? && onboardingData != []
      modifies this
      ensures Valid()
      ensures completed <==> old(onboardingData[currentStep]).kind.SignupStep?
      ensures completed ==> currentStep == old(currentStep) && phoneNumber == old(phoneNumber)
      ensures old(onboardingData[currentStep]).kind.PhoneIdStep? ==>
        if PhoneId.Submission(phoneField).Some? then
          currentStep == NextStep(old(currentStep), |onboardingData|)
          && phoneNumber == KeptPhone(old(phoneNumber), PhoneId.Submission(phoneField))
        else
          currentStep == old(currentStep) && phoneNumber == old(phoneNumber)
      ensures old(onboardingData[currentStep]).kind.WelcomeStep? || old(onboardingData[currentStep]).kind.FeaturesStep? ==>
        currentStep == NextStep(old(currentStep), |onboardingData|) && phoneNumber == old(phoneNumber)
      ensures onboardingData == old(onboardingData)
    {
      match onboardingData[currentStep].kind {
        case PhoneIdStep(_, _) =>
          var submitted := PhoneId.Submission(phoneField);
          if submitted.Some? {
            HandleNext(submitted);
          }
          completed := false;
        case WelcomeStep(_, _) =>
          HandleNext(None);
          completed := false;
        case FeaturesStep(_) =>
          HandleNext(None);
          completed := false;
        case SignupStep(_) =>
          completed := true;
      }
    }

    /** The render guards, in order: loading, then error, then an empty list, then the step and "Step k of n". */
    function Render(): (v: View)
      reads this
      requires Valid()
      ensures v.Loading? <==> loading
      ensures v.Failed? <==> !loading && error.Some? && error.value != ""
      ensures v.NoSteps? ==> onboardingData == []
      ensures v.Showing? ==>
        1 <= v.position <= v.total == |onboardingData| && v.step == onboardingData[v.position - 1]
    ensures v.Showing? ==> v.position == currentStep + 1
    {
      if loading then Loading
      else if error.Some? && error.value != "" then Failed(error.value)
      else if onboardingData == [] then NoSteps
      else Showing(onboardingData[currentStep], currentStep + 1, |onboardingData|)
    }
  }

  /**
   * A phone field holding fewer than ten digits submits nothing, so pressing
   * the phone step's button with it leaves the flow on that step.
   */
  lemma ShortNumberNotSubmitted()
    ensures PhoneId.Submission("(650) 21").None?
  {
    var f := "(650) 21";
    assert |Digits(f)| <= |f| == 8;
  }

  /** With the fixed list, the sign-up step is reached after exactly four presses, and not before. */
  lemma {:induction false} FixedFlowReachesSignup(presses: nat)
    ensures presses >= 4 ==> OnboardingData()[StepAfter(presses, 5)].kind.SignupStep?
    ensures presses < 4 ==> !OnboardingData()[StepAfter(presses, 5)].kind.SignupStep?
  {
    StepAfterPresses(presses, 5);
  }
}
