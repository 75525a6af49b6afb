/** The tab shell: the selected tab and the four feature engines it hosts,
    all sharing one store. */
module MainCore {
  import opened Dependencies
  import ChallengeCore
  import ChatCore
  import ProfileCore
  import AnalyticsCore

  datatype Tab = Challenge | Chat | Profile | Analytics

  /** Tab.allCases. */
  function AllTabs(): (r: seq<Tab>)
    ensures |r| == 4
    ensures forall t: Tab :: t in r
    ensures forall i, j :: 0 <= i < j < |r| ==> r[i] != r[j]
  {
    var r := [Challenge, Chat, Profile, Analytics];
    assert forall t: Tab :: t in r by {
      forall t: Tab ensures t in r {
        if t.Challenge? {} else if t.Chat? {} else if t.Profile? {} else {}
      }
    }
    r
  }

  function Title(t: Tab): string {
    match t
    case Challenge => "Challenge"
    case Chat => "Chat"
    case Profile => "Profile"
    case Analytics => "Analytics"
  }

  function Icon(t: Tab): string {
    match t
    case Challenge => "target"
    case Chat => "message"
    case Profile => "person.circle"
    case Analytics => "chart.bar"
  }

  /** No two tabs share a title or an icon. */
  lemma TabLabelsDistinct(t: Tab, u: Tab)
    requires t != u
    ensures Title(t) != Title(u)
    ensures Icon(t) != Icon(u)
  {
    assert Title(t)[0] != Title(u)[0] || |Title(t)| != |Title(u)|;
    assert Icon(t)[0] != Icon(u)[0];
  }

  datatype Action =
    | TabSelected(tab: Tab)
    | ChallengeAction(challenge: ChallengeCore.Action)
    | ChatAction(chat: ChatCore.Action)
    | ProfileAction(profile: ProfileCore.Action)
    | AnalyticsAction(analytics: AnalyticsCore.Action)

  /** A child's effect, tagged with the child it belongs to. */
  datatype Effect =
    | NoEffect
    | FromChallenge(challenge: ChallengeCore.Effect)
    | FromChat(chat: ChatCore.Effect)
    | FromProfile(profile: ProfileCore.Effect)
    | FromAnalytics(analytics: AnalyticsCore.Effect)

  class MainRoot {
    const storage: Storage
    var selectedTab: Tab
    const challenge: ChallengeCore.ChallengeEngine
    const chat: ChatCore.ChatEngine
    const profile: ProfileCore.ProfileEngine
    const analytics: AnalyticsCore.AnalyticsEngine

    /** The children share the root's store and keep their own invariants. */
    ghost predicate Valid()
      reads this, challenge, chat
    {
      && challenge.storage == storage && chat.storage == storage
      && profile.storage == storage && analytics.storage == storage
      && challenge.Valid() && chat.Valid()
    }

    /** The initial state: the challenge tab, and fresh child states;
        `eightAm` is 08:00 on the day the shell is built. */
    constructor (storage: Storage, eightAm: int)
      ensures Valid() && this.storage == storage
      ensures selectedTab == Challenge
      ensures fresh(challenge) && fresh(chat) && fresh(profile) && fresh(analytics)
    {
      this.storage := storage;
      selectedTab := Challenge;
      challenge := new ChallengeCore.ChallengeEngine(storage);
      chat := new ChatCore.ChatEngine(storage);
      profile := new ProfileCore.ProfileEngine(storage, eightAm);
      analytics := new AnalyticsCore.AnalyticsEngine(storage);
    }

    /** The reducer: a child action goes to its child, tabSelected changes
        only the selected tab. Child actions leave the tab alone, and no
        action touches the onboarding flag. */
    method Reduce(a: Action, env: Env) returns (e: Effect)
      requires Valid()
      modifies this, challenge, chat, profile, analytics, storage
      ensures Valid()
      ensures a.TabSelected? ==>
                && selectedTab == a.tab && e == NoEffect
                && unchanged(challenge, chat, profile, analytics, storage)
      ensures !a.TabSelected? ==> selectedTab == old(selectedTab)
      ensures storage.onboardingComplete == old(storage.onboardingComplete)
    {
      match a
      case TabSelected(tab) =>
        selectedTab := tab;
        e := NoEffect;
      case ChallengeAction(ca) =>
        var ce := challenge.Reduce(ca, env);
        e := FromChallenge(ce);
      case ChatAction(ca) =>
        var ce := chat.Reduce(ca, env);
        e := FromChat(ce);
      case ProfileAction(pa) =>
        var pe := profile.Reduce(pa, env);
        e := FromProfile(pe);
      case AnalyticsAction(aa) =>
        var ae := analytics.Reduce(aa);
        e := FromAnalytics(ae);
    }
  }
}
