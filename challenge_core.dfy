/** The daily challenge: selection of today's entry from the catalog, the
    locked -> revealed -> in progress -> completed machine, the one-second
    countdown and the once-per-day streak update. */
module ChallengeCore {
  import opened Models
  import opened Text
  import opened Dependencies

  datatype ChallengeState = Locked | Revealed | InProgress | Completed

  datatype Action =
    | OnAppear
    | RevealChallenge
    | AcceptChallenge
    | TimerTick
    | CompleteChallenge
    | ShareChallenge
    | RefreshChallenge

  /** What a transition asks the runtime to do next: nothing, feed an action
      back, or start the repeating one-second timer that sends TimerTick. */
  datatype Effect = NoEffect | Send(action: Action) | StartTimer

  /** The entries of `catalog` that the interests admit, in catalog order;
      with no interests every entry is admitted. */
  function Admitted(catalog: seq<Challenge>, interests: set<Category>): (r: seq<Challenge>)
    ensures |r| <= |catalog|
    ensures forall x :: x in r <==> x in catalog && (interests == {} || x.category in interests)
    ensures IdsAscending(catalog) ==> IdsAscending(r)
  {
    if catalog == [] then []
    else if interests == {} || catalog[0].category in interests then
      [catalog[0]] + Admitted(catalog[1..], interests)
    else
      Admitted(catalog[1..], interests)
  }

  /** The entries' ids strictly increase along the list, so no entry repeats. */
  predicate IdsAscending(cs: seq<Challenge>) {
    forall i, j :: 0 <= i < j < |cs| ==> cs[i].id < cs[j].id
  }

  /** The filter keeps the catalog's order: the admitted entries come in
      ascending id order, each at most once. */
  lemma AdmittedInCatalogOrder(interests: set<Category>)
    ensures IdsAscending(Admitted(Catalog(), interests))
  {
    CatalogIdsAreIndices();
  }

  /** Some entry is always admitted: every category has an entry in the
      catalog, so the selection's modulus is never zero. */
  lemma AdmittedNonEmpty(interests: set<Category>)
    ensures |Admitted(Catalog(), interests)| > 0
  {
    if interests == {} {
      assert Catalog()[0] in Catalog();
    } else {
      var c :| c in interests;
      assert Catalog()[EntryOf(c)] in Catalog();
    }
  }

  /** Today's challenge: the admitted entries indexed by the day of the year
      modulo their number. */
  function TodaysChallenge(interests: set<Category>, dayOfYear: nat): (r: Challenge)
    ensures r in Catalog()
    ensures interests != {} ==> r.category in interests
  {
    AdmittedNonEmpty(interests);
    var admitted := Admitted(Catalog(), interests);
    admitted[dayOfYear % |admitted|]
  }

  /** The selection rotates through the admitted entries: each of them is
      today's challenge on some day among the first |admitted| days. */
  lemma TodaysChallengeRotates(interests: set<Category>, x: Challenge)
    requires x in Catalog() && (interests == {} || x.category in interests)
    ensures exists d: nat :: d < |Admitted(Catalog(), interests)| && TodaysChallenge(interests, d) == x
  {
    var admitted := Admitted(Catalog(), interests);
    var n := |admitted|;
    var d :| 0 <= d < n && admitted[d] == x;
    ModOfSmaller(d, n);
    assert TodaysChallenge(interests, d) == x;
  }

  /** The selection repeats every n days, n being the number of admitted
      entries. */
  lemma TodaysChallengePeriodic(interests: set<Category>, d: nat, n: nat)
    requires n == |Admitted(Catalog(), interests)|
    ensures TodaysChallenge(interests, d + n) == TodaysChallenge(interests, d)
  {
    AdmittedNonEmpty(interests);
    ModShift(d, n);
  }

  /** With no interests nothing is filtered out. */
  lemma {:induction false} AdmitAll(catalog: seq<Challenge>)
    ensures Admitted(catalog, {}) == catalog
  {
    if catalog != [] {
      AdmitAll(catalog[1..]);
      assert [catalog[0]] + catalog[1..] == catalog;
    }
  }

  /** Without interests, day d of the year gets the catalog entry at
      d modulo six. */
  lemma TodaysChallengeWithoutInterests(d: nat)
    ensures TodaysChallenge({}, d) == Catalog()[d % 6]
  {
    AdmitAll(Catalog());
  }

  lemma ModShift(d: nat, n: nat)
    requires n > 0
    ensures (d + n) % n == d % n
  {
    var k := (d + n) / n - d / n - 1;
    assert n * k == d % n - (d + n) % n;
    if k > 0 {
      MulAtLeast(n, k);
    } else if k < 0 {
      MulAtLeast(n, -k);
    }
  }

  lemma MulAtLeast(n: nat, k: nat)
    requires k > 0
    ensures n * k >= n
  {
    assert n * k == n + n * (k - 1);
  }

  lemma ModOfSmaller(d: nat, n: nat)
    requires d < n
    ensures d % n == d
  {
  }

  /** isCompletedToday: the last completion fell on `today`. */
  predicate CompletedOn(p: UserProfile, today: Day) {
    p.lastCompletionDate == Some(today)
  }

  /** The streak after a completion on `today`, given the previous one. */
  function NextStreak(streak: int, last: Option<Day>, today: Day): (r: int)
    ensures r == 1 || r == streak || r == streak + 1
    ensures streak >= 0 && (last.None? || today > last.value) ==> r >= 1
  {
    match last
    case None => 1
    case Some(d) =>
      if today - d == 1 then streak + 1
      else if today - d > 1 then 1
      else streak
  }

  /** The profile after a completion on `today` of `challenge` (if any). */
  function AfterCompletion(p: UserProfile, challenge: Option<Challenge>, today: Day): UserProfile {
    p.(streakCount := NextStreak(p.streakCount, p.lastCompletionDate, today),
       lastCompletionDate := Some(today),
       completedChallenges := p.completedChallenges + (if challenge.Some? then [challenge.value.id] else []))
  }

  /** A completion is recorded for the day it happened on, so the guard of
      completeChallenge turns every later completion that day into a no-op;
      interests and difficulty are untouched, and exactly one id (today's
      challenge's) is appended to the history. */
  lemma AfterCompletionFacts(p: UserProfile, challenge: Option<Challenge>, today: Day)
    ensures CompletedOn(AfterCompletion(p, challenge, today), today)
    ensures AfterCompletion(p, challenge, today).interests == p.interests
    ensures AfterCompletion(p, challenge, today).difficulty == p.difficulty
    ensures var h := AfterCompletion(p, challenge, today).completedChallenges;
            h[..|p.completedChallenges|] == p.completedChallenges
            && (challenge.Some? ==> h == p.completedChallenges + [challenge.value.id])
            && (challenge.None? ==> h == p.completedChallenges)
  {
  }

  /** The streak either grows by one or restarts at one, except that a
      completion on or before the last completion day keeps it. */
  lemma NextStreakCases(streak: int, last: Option<Day>, today: Day)
    ensures last.None? ==> NextStreak(streak, last, today) == 1
    ensures last.Some? && today == last.value + 1 ==> NextStreak(streak, last, today) == streak + 1
    ensures last.Some? && today > last.value + 1 ==> NextStreak(streak, last, today) == 1
    ensures last.Some? && today <= last.value ==> NextStreak(streak, last, today) == streak
  {
  }

  /** The profile after completeChallenge is delivered on each of `days` in
      turn, the same-day guard included. */
  function CompleteOnDays(p: UserProfile, challenge: Option<Challenge>, days: seq<Day>): UserProfile {
    if days == [] then p
    else
      var q := CompleteOnDays(p, challenge, days[..|days| - 1]);
      var d := days[|days| - 1];
      if CompletedOn(q, d) then q else AfterCompletion(q, challenge, d)
  }

  /** The days start, start + 1, ..., start + n - 1. */
  function Run(start: Day, n: nat): (r: seq<Day>)
    ensures |r| == n
    ensures forall k :: 0 <= k < n ==> r[k] == start + k
  {
    seq(n, k => start + k)
  }

  /** Completing on n consecutive days right after the last completion day
      adds n to the streak and one history entry per day. */
  lemma {:induction false} ConsecutiveDaysExtendStreak(p: UserProfile, challenge: Challenge, start: Day, n: nat)
    requires p.lastCompletionDate == Some(start - 1)
    ensures CompleteOnDays(p, Some(challenge), Run(start, n)).streakCount == p.streakCount + n
    ensures |CompleteOnDays(p, Some(challenge), Run(start, n)).completedChallenges|
            == |p.completedChallenges| + n
    ensures n > 0 ==> CompleteOnDays(p, Some(challenge), Run(start, n)).lastCompletionDate
                      == Some(start + n - 1)
    ensures n == 0 ==> CompleteOnDays(p, Some(challenge), Run(start, n)) == p
  {
    if n > 0 {
      ConsecutiveDaysExtendStreak(p, challenge, start, n - 1);
      assert Run(start, n)[..n - 1] == Run(start, n - 1);
    }
  }

  /** The first ever completion starts a streak of one; after a gap of more
      than one day the streak restarts at one; a second completion on the
      same day changes nothing. */
  lemma FirstGapAndRepeat(p: UserProfile, challenge: Challenge, today: Day)
    ensures p.lastCompletionDate == None ==>
            CompleteOnDays(p, Some(challenge), [today]).streakCount == 1
    ensures p.lastCompletionDate.Some? && today > p.lastCompletionDate.value + 1 ==>
            CompleteOnDays(p, Some(challenge), [today]).streakCount == 1
    ensures CompleteOnDays(p, Some(challenge), [today, today])
            == CompleteOnDays(p, Some(challenge), [today])
  {
    assert [today, today][..1] == [today];
    assert [today][..0] == [];
  }

  /** formattedTime: minutes and seconds, each "%02d", joined by ':'. The
      minutes take exactly two digits below 100 minutes, and a leading zero
      only below 10 minutes. */
  function FormatTime(t: nat): (r: string)
    ensures |r| >= 5 && r[|r| - 3] == ':'
    ensures |r| == 5 <==> t < 6000
    ensures r[0] == '0' ==> t < 600
    ensures forall k :: 0 <= k < |r| && k != |r| - 3 ==> IsDigit(r[k])
    ensures DecimalValue(r[|r| - 2..]) < 60
    ensures 60 * DecimalValue(r[..|r| - 3]) + DecimalValue(r[|r| - 2..]) == t
  {
    var m := Pad2(t / 60);
    var s := Pad2(t % 60);
    var r := m + [':'] + s;
    assert r[..|r| - 3] == m;
    assert r[|r| - 2..] == s;
    r
  }

  class ChallengeEngine {
    const storage: Storage
    var profile: UserProfile
    var todaysChallenge: Option<Challenge>
    var challengeState: ChallengeState
    var timeRemaining: int   // seconds
    var isTimerRunning: bool
    var showConfetti: int

    /** The countdown is never negative, the confetti counter only counts up,
        and today's challenge comes from the catalog. */
    ghost predicate Valid()
      reads this
    {
      && timeRemaining >= 0
      && showConfetti >= 0
      && (todaysChallenge.Some? ==> todaysChallenge.value in Catalog())
    }

    constructor (storage: Storage)
      ensures Valid() && this.storage == storage
      ensures profile == DefaultProfile() && todaysChallenge == None
      ensures challengeState == Locked && timeRemaining == 0
      ensures !isTimerRunning && showConfetti == 0
    {
      this.storage := storage;
      profile := DefaultProfile();
      todaysChallenge := None;
      challengeState := Locked;
      timeRemaining := 0;
      isTimerRunning := false;
      showConfetti := 0;
    }

    function FormattedTime(): string
      reads this
      requires Valid()
    {
      FormatTime(timeRemaining)
    }

    /** Loads the stored profile (keeping the current one when none is
        stored), selects today's challenge and locks it, unless today's
        challenge is already done. */
    method OnAppear(dayOfYear: nat, today: Day) returns (e: Effect)
      requires Valid()
      modifies this
      ensures Valid()
      ensures profile == if storage.profile.Some? then storage.profile.value else old(profile)
      ensures todaysChallenge == Some(TodaysChallenge(profile.interests, dayOfYear))
      ensures challengeState == if CompletedOn(profile, today) then Completed else Locked
      ensures timeRemaining == old(timeRemaining) && isTimerRunning == old(isTimerRunning)
      ensures showConfetti == old(showConfetti)
      ensures e == NoEffect
    {
      if storage.profile.Some? {
        profile := storage.profile.value;
      }
      var challenge := TodaysChallenge(profile.interests, dayOfYear);
      todaysChallenge := Some(challenge);
      if CompletedOn(profile, today) {
        challengeState := Completed;
      } else {
        challengeState := Locked;
      }
      e := NoEffect;
    }

    /** Shows the challenge; the prior state is not checked. */
    method RevealChallenge() returns (e: Effect)
      requires Valid()
      modifies this`challengeState
      ensures Valid()
      ensures challengeState == Revealed && e == NoEffect
    {
      challengeState := Revealed;
      e := NoEffect;
    }

    /** Starts the countdown from the challenge's duration (600 s without a
        challenge); the prior state is not checked. */
    method AcceptChallenge() returns (e: Effect)
      requires Valid()
      modifies this`challengeState, this`timeRemaining, this`isTimerRunning
      ensures Valid()
      ensures challengeState == InProgress && isTimerRunning
      ensures timeRemaining == if todaysChallenge.Some? then todaysChallenge.value.estimatedTime else 600
      ensures e == StartTimer
    {
      challengeState := InProgress;
      timeRemaining := if todaysChallenge.Some? then todaysChallenge.value.estimatedTime else 600;
      isTimerRunning := true;
      e := StartTimer;
    }

    /** One second passes: the countdown drops by one while running and
        positive; otherwise the timer stops and completion is requested. */
    method TimerTick() returns (e: Effect)
      requires Valid()
      modifies this`timeRemaining, this`isTimerRunning
      ensures Valid()
      ensures old(isTimerRunning && timeRemaining > 0) ==>
                timeRemaining == old(timeRemaining) - 1 && isTimerRunning && e == NoEffect
      ensures !old(isTimerRunning && timeRemaining > 0) ==>
                timeRemaining == old(timeRemaining) && !isTimerRunning && e == Send(Action.CompleteChallenge)
    {
      if !(isTimerRunning && timeRemaining > 0) {
        isTimerRunning := false;
        e := Send(Action.CompleteChallenge);
        return;
      }
      timeRemaining := timeRemaining - 1;
      e := NoEffect;
    }

    /** Records today's completion once: updates the streak, the history and
        the last completion day, saves the profile and marks the challenge
        completed. Does nothing when today is already completed. */
    method CompleteChallenge(today: Day) returns (e: Effect)
      requires Valid()
      modifies this, storage`profile
      ensures Valid()
      ensures old(CompletedOn(profile, today)) ==> unchanged(this) && unchanged(storage)
      ensures !old(CompletedOn(profile, today)) ==>
                && challengeState == Completed && !isTimerRunning
                && showConfetti == old(showConfetti) + 1
                && profile == AfterCompletion(old(profile), old(todaysChallenge), today)
                && storage.profile == Some(profile)
                && todaysChallenge == old(todaysChallenge) && timeRemaining == old(timeRemaining)
      ensures e == NoEffect
    {
      e := NoEffect;
      if CompletedOn(profile, today) {
        return;
      }
      challengeState := Completed;
      isTimerRunning := false;
      showConfetti := showConfetti + 1;
      profile := AfterCompletion(profile, todaysChallenge, today);
      storage.profile := Some(profile);
    }

    /** Sharing is not implemented: nothing happens. */
    method ShareChallenge() returns (e: Effect)
      ensures e == NoEffect
    {
      e := NoEffect;
    }

    /** Pull to refresh re-runs onAppear. */
    method RefreshChallenge() returns (e: Effect)
      ensures e == Send(Action.OnAppear)
    {
      e := Send(Action.OnAppear);
    }

    /** The reducer: dispatches an action to its transition. */
    method Reduce(a: Action, env: Env) returns (e: Effect)
      requires Valid()
      modifies this, storage`profile
      ensures Valid()
      ensures storage.messages == old(storage.messages)
      ensures storage.onboardingComplete == old(storage.onboardingComplete)
    {
      match a
      case OnAppear => e := OnAppear(env.dayOfYear, env.today);
      case RevealChallenge => e := RevealChallenge();
      case AcceptChallenge => e := AcceptChallenge();
      case TimerTick => e := TimerTick();
      case CompleteChallenge => e := CompleteChallenge(env.today);
      case ShareChallenge => e := ShareChallenge();
      case RefreshChallenge => e := RefreshChallenge();
    }
  }

  /** The timer effect started by acceptChallenge, run for `ticks` seconds
      on day `today`: it sends TimerTick every second, and each
      CompleteChallenge a tick emits is delivered at once. The countdown
      reaches zero after as many ticks as it had seconds left, never goes
      below zero, and the completion it then triggers is recorded once, however
      many more ticks follow. */
  method RunTimer(engine: ChallengeEngine, ticks: nat, today: Day)
    requires engine.Valid() && engine.isTimerRunning
    modifies engine, engine.storage`profile
    ensures engine.Valid()
    ensures ticks <= old(engine.timeRemaining) ==>
              && engine.timeRemaining == old(engine.timeRemaining) - ticks
              && engine.isTimerRunning
              && engine.profile == old(engine.profile)
              && engine.challengeState == old(engine.challengeState)
    ensures ticks > old(engine.timeRemaining) ==>
              && engine.timeRemaining == 0
              && !engine.isTimerRunning
              && CompletedOn(engine.profile, today)
    ensures ticks > old(engine.timeRemaining) && !old(CompletedOn(engine.profile, today)) ==>
              && engine.challengeState == Completed
              && engine.showConfetti == old(engine.showConfetti) + 1
              && engine.profile == AfterCompletion(old(engine.profile), old(engine.todaysChallenge), today)
    ensures ticks > old(engine.timeRemaining) && old(CompletedOn(engine.profile, today)) ==>
              engine.profile == old(engine.profile)
  {
    ghost var t0 := engine.timeRemaining;
    ghost var p0 := engine.profile;
    ghost var done0 := CompletedOn(p0, today);
    ghost var expected := if done0 then p0 else AfterCompletion(p0, engine.todaysChallenge, today);
    ghost var confetti := if done0 then engine.showConfetti else engine.showConfetti + 1;
    ghost var st0 := engine.challengeState;
    var i := 0;
    while i < ticks
      invariant 0 <= i <= ticks
      invariant engine.Valid()
      invariant engine.todaysChallenge == old(engine.todaysChallenge)
      invariant i <= t0 ==>
                  && engine.timeRemaining == t0 - i && engine.isTimerRunning
                  && engine.profile == p0 && engine.challengeState == st0
                  && engine.showConfetti == old(engine.showConfetti)
      invariant i > t0 ==>
                  && engine.timeRemaining == 0 && !engine.isTimerRunning
                  && engine.profile == expected && CompletedOn(engine.profile, today)
                  && engine.showConfetti == confetti
                  && (!done0 ==> engine.challengeState == Completed)
    {
      var e := engine.TimerTick();
      if e == Send(Action.CompleteChallenge) {
        e := engine.CompleteChallenge(today);
      }
      i := i + 1;
    }
  }
}
