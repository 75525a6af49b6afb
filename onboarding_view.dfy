/** The logic of the onboarding screen: whether Next is enabled on a step,
    and which action the Next button sends. */
module OnboardingView {
  import opened Models
  import opened Text
  import opened Dependencies
  import OnboardingCore

  /** canProceed(for:). The difficulty step's condition is written as
      `difficulty != medium || difficulty == medium`. */
  function CanProceed(step: int, interests: set<Category>, difficulty: Difficulty): bool {
    if step == 0 || step == 1 then true
    else if step == 2 then interests != {}
    else if step == 3 then difficulty != Medium || difficulty == Medium
    else false
  }

  /** Next is enabled exactly on the first two steps, on the interests step
      once an interest is selected, and on the difficulty step whatever the
      difficulty; never outside the wizard's steps. */
  lemma CanProceedExactly(step: int, interests: set<Category>, difficulty: Difficulty)
    ensures CanProceed(step, interests, difficulty)
            <==> step == 0 || step == 1 || (step == 2 && interests != {}) || step == 3
  {
  }

  /** The action Next sends: `completed` on the last step, `nextStep` before it. */
  function NextButtonAction(step: int): (a: OnboardingCore.Action)
    ensures a == OnboardingCore.Completed <==> step == OnboardingCore.LastStep
    ensures a == OnboardingCore.NextStep <==> step != OnboardingCore.LastStep
  {
    if step == OnboardingCore.LastStep then OnboardingCore.Completed else OnboardingCore.NextStep
  }

  /** Pressing Next: the button's action delivered to the wizard. Before
      the last step it advances one step; on the last step it completes the
      wizard and saves the profile built from the selections. */
  method OnNext(wizard: OnboardingCore.OnboardingEngine, env: Env) returns (e: OnboardingCore.Effect)
    modifies wizard, wizard.storage`profile
    ensures old(wizard.currentStep) < OnboardingCore.LastStep ==>
              wizard.currentStep == old(wizard.currentStep) + 1 && wizard.isComplete == old(wizard.isComplete)
    ensures old(wizard.currentStep) == OnboardingCore.LastStep ==>
              && wizard.isComplete
              && wizard.currentStep == OnboardingCore.LastStep
              && wizard.storage.profile
                 == Some(OnboardingCore.ProfileFrom(wizard.selectedInterests, wizard.selectedDifficulty))
  {
    if NextButtonAction(wizard.currentStep) == OnboardingCore.Completed {
      e := wizard.Completed(env.eightAm);
    } else {
      e := wizard.NextStep();
    }
  }

  /** The step indicator's text for the 0-based `step`. */
  function StepIndicator(step: nat): string {
    "Step " + Decimal(step + 1) + " of 4"
  }

  /** The indicator counts steps from one: it reads "Step ", the numeral
      of step + 1, and " of 4". */
  lemma StepIndicatorShowsStep(step: nat)
    ensures var r := StepIndicator(step);
            && |r| >= 11 && r[..5] == "Step " && r[|r| - 5..] == " of 4"
            && (forall k :: 5 <= k < |r| - 5 ==> IsDigit(r[k]))
            && DecimalValue(r[5..|r| - 5]) == step + 1
  {
    var r := StepIndicator(step);
    var d := Decimal(step + 1);
    assert r[5..|r| - 5] == d;
    DecimalRoundTrip(step + 1);
  }
}
