/** The four-step onboarding wizard (welcome, intro, interests, difficulty)
    and the profile it hands over on completion. */
module OnboardingCore {
  import opened Models
  import opened Dependencies

  /** The last step's index; steps are numbered 0 to LastStep. */
  const LastStep: int := 3

  datatype Action =
    | NextStep
    | PreviousStep
    | SkipOnboarding
    | SelectInterest(category: Category)
    | SelectDifficulty(difficulty: Difficulty)
    | Completed

  /** What a transition asks the runtime to do next: nothing, feed an action
      back, or ask for notification permission and, if it is granted, hand
      `request` to the scheduler. */
  datatype Effect = NoEffect | Send(action: Action) | AskPermission(request: NotificationRequest)

  /** Adds `c` when absent, removes it when present. */
  function Toggle(s: set<Category>, c: Category): (r: set<Category>)
    ensures c in r <==> c !in s
    ensures forall d :: d != c ==> (d in r <==> d in s)
  {
    if c in s then s - {c} else s + {c}
  }

  /** Toggling the same category twice restores the selection. */
  lemma ToggleTwice(s: set<Category>, c: Category)
    ensures Toggle(Toggle(s, c), c) == s
  {
    var t := Toggle(Toggle(s, c), c);
    assert forall d :: d in t <==> d in s;
  }

  /** The profile saved on completion: the wizard's selections, everything
      else as in a fresh profile. */
  function ProfileFrom(interests: set<Category>, difficulty: Difficulty): (p: UserProfile)
    ensures p.interests == interests && p.difficulty == difficulty
    ensures p.streakCount == 0 && p.completedChallenges == [] && p.lastCompletionDate == None
  {
    DefaultProfile().(interests := interests, difficulty := difficulty)
  }

  class OnboardingEngine {
    const storage: Storage
    var currentStep: int
    var selectedInterests: set<Category>
    var selectedDifficulty: Difficulty
    var isComplete: bool

    constructor (storage: Storage)
      ensures this.storage == storage
      ensures currentStep == 0 && selectedInterests == {}
      ensures selectedDifficulty == Medium && !isComplete
    {
      this.storage := storage;
      currentStep := 0;
      selectedInterests := {};
      selectedDifficulty := Medium;
      isComplete := false;
    }

    /** Advances one step; on the last step it stays and requests completion. */
    method NextStep() returns (e: Effect)
      modifies this`currentStep
      ensures old(currentStep) < LastStep ==> currentStep == old(currentStep) + 1 && e == NoEffect
      ensures old(currentStep) >= LastStep ==>
                currentStep == old(currentStep) && e == Send(Action.Completed)
      ensures 0 <= old(currentStep) <= LastStep ==> 0 <= currentStep <= LastStep
    {
      if currentStep < LastStep {
        currentStep := currentStep + 1;
        e := NoEffect;
      } else {
        e := Send(Action.Completed);
      }
    }

    /** Goes back one step, never below the first. */
    method PreviousStep() returns (e: Effect)
      modifies this`currentStep
      ensures old(currentStep) > 0 ==> currentStep == old(currentStep) - 1
      ensures old(currentStep) <= 0 ==> currentStep == old(currentStep)
      ensures 0 <= old(currentStep) <= LastStep ==> 0 <= currentStep <= LastStep
      ensures e == NoEffect
    {
      if currentStep > 0 {
        currentStep := currentStep - 1;
      }
      e := NoEffect;
    }

    /** Selects every category and requests completion. */
    method SkipOnboarding() returns (e: Effect)
      modifies this`selectedInterests
      ensures selectedInterests == AllCategories()
      ensures e == Send(Action.Completed)
    {
      selectedInterests := AllCategories();
      e := Send(Action.Completed);
    }

    method SelectInterest(c: Category) returns (e: Effect)
      modifies this`selectedInterests
      ensures selectedInterests == Toggle(old(selectedInterests), c)
      ensures e == NoEffect
    {
      if c in selectedInterests {
        selectedInterests := selectedInterests - {c};
      } else {
        selectedInterests := selectedInterests + {c};
      }
      e := NoEffect;
    }

    method SelectDifficulty(d: Difficulty) returns (e: Effect)
      modifies this`selectedDifficulty
      ensures selectedDifficulty == d && e == NoEffect
    {
      selectedDifficulty := d;
      e := NoEffect;
    }

    /** Marks the wizard complete, saves the profile built from the
        selections and asks for permission to schedule the daily reminder
        at 08:00 (`eightAm`). */
    method Completed(eightAm: int) returns (e: Effect)
      modifies this`isComplete, storage`profile
      ensures isComplete
      ensures storage.profile == Some(ProfileFrom(selectedInterests, selectedDifficulty))
      ensures e == AskPermission(ScheduleDaily(eightAm, DailyReminderBody))
    {
      isComplete := true;
      var profile := ProfileFrom(selectedInterests, selectedDifficulty);
      storage.profile := Some(profile);
      e := AskPermission(ScheduleDaily(eightAm, DailyReminderBody));
    }

    /** The reducer: dispatches an action to its transition. */
    method Reduce(a: Action, env: Env) returns (e: Effect)
      modifies this, storage`profile
      ensures a != Action.Completed ==> storage.profile == old(storage.profile)
      ensures a == Action.Completed ==>
                isComplete && storage.profile == Some(ProfileFrom(selectedInterests, selectedDifficulty))
      ensures a != Action.Completed ==> isComplete == old(isComplete)
    {
      match a
      case NextStep => e := NextStep();
      case PreviousStep => e := PreviousStep();
      case SkipOnboarding => e := SkipOnboarding();
      case SelectInterest(c) => e := SelectInterest(c);
      case SelectDifficulty(d) => e := SelectDifficulty(d);
      case Completed => e := Completed(env.eightAm);
    }
  }
}
