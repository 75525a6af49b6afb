/** The app root: shows onboarding until it is finished, then the tab shell,
    and persists that onboarding was finished. */
module AppCore {
  import opened Models
  import opened Dependencies
  import OnboardingCore
  import MainCore

  datatype Action =
    | Onboarding(onboarding: OnboardingCore.Action)
    | Main(main: MainCore.Action)
    | OnboardingCompleted

  /** The effects of one action: a child's effect, the root's own, or both
      (`Merge`) when the child and the root react to the same action. */
  datatype Effect =
    | NoEffect
    | Send(action: Action)
    | FromOnboarding(onboarding: OnboardingCore.Effect)
    | FromMain(main: MainCore.Effect)
    | Merge(first: Effect, second: Effect)

  class AppRoot {
    const storage: Storage
    var isOnboardingComplete: bool
    const onboarding: OnboardingCore.OnboardingEngine
    const main: MainCore.MainRoot

    ghost predicate Valid()
      reads this, main, main.challenge, main.chat
    {
      onboarding.storage == storage && main.storage == storage && main.Valid()
    }

    /** The flag starts as persisted; the children start fresh. */
    constructor (storage: Storage, eightAm: int)
      ensures Valid() && this.storage == storage
      ensures isOnboardingComplete == storage.onboardingComplete
      ensures fresh(onboarding) && fresh(main)
    {
      this.storage := storage;
      isOnboardingComplete := storage.onboardingComplete;
      onboarding := new OnboardingCore.OnboardingEngine(storage);
      main := new MainCore.MainRoot(storage, eightAm);
    }

    /** The reducer. onboarding(.completed) runs in the wizard and also
        sends onboardingCompleted, which sets and persists the flag. No
        action clears the flag, and only onboardingCompleted writes it. */
    method Reduce(a: Action, env: Env) returns (e: Effect)
      requires Valid()
      modifies this, onboarding, main, main.challenge, main.chat, main.profile, main.analytics, storage
      ensures Valid()
      ensures a.OnboardingCompleted? ==>
                && isOnboardingComplete && storage.onboardingComplete && e == NoEffect
                && unchanged(onboarding) && storage.profile == old(storage.profile)
      ensures !a.OnboardingCompleted? ==>
                isOnboardingComplete == old(isOnboardingComplete)
                && storage.onboardingComplete == old(storage.onboardingComplete)
      ensures a == Onboarding(OnboardingCore.Completed) ==>
                && e.Merge? && e.second == Send(OnboardingCompleted)
                && onboarding.isComplete
                && storage.profile
                   == Some(OnboardingCore.ProfileFrom(onboarding.selectedInterests, onboarding.selectedDifficulty))
      ensures old(isOnboardingComplete) ==> isOnboardingComplete
    {
      match a
      case OnboardingCompleted =>
        isOnboardingComplete := true;
        storage.onboardingComplete := true;
        e := NoEffect;
      case Onboarding(oa) =>
        var oe := onboarding.Reduce(oa, env);
        if oa == OnboardingCore.Completed {
          e := Merge(FromOnboarding(oe), Send(OnboardingCompleted));
        } else {
          e := FromOnboarding(oe);
        }
      case Main(ma) =>
        var me := main.Reduce(ma, env);
        e := FromMain(me);
    }
  }

  /** Finishing the wizard end to end: on the last step the Next button
      sends onboarding(.completed), whose follow-up onboardingCompleted is
      delivered next. Afterwards the profile from the wizard's selections
      is saved and the flag is set, in memory and in the store. */
  method FinishOnboarding(app: AppRoot, env: Env)
    requires app.Valid()
    modifies app, app.onboarding, app.main, app.main.challenge, app.main.chat,
             app.main.profile, app.main.analytics, app.storage
    ensures app.Valid()
    ensures app.onboarding.isComplete
    ensures app.storage.profile
            == Some(OnboardingCore.ProfileFrom(app.onboarding.selectedInterests, app.onboarding.selectedDifficulty))
    ensures app.isOnboardingComplete && app.storage.onboardingComplete
  {
    var e := app.Reduce(Onboarding(OnboardingCore.Completed), env);
    var _ := app.Reduce(e.second.action, env);
  }
}
