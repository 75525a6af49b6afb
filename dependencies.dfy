/** The collaborators the reducers call: the persisted key-value store, the
    notification scheduler's requests, and the values the clock, the calendar,
    the permission prompt and the id generator supply while an action runs. */
module Dependencies {
  import opened Models

  /** The persisted store: the "profile" and "messages" blobs and the
      "onboarding_complete" flag. A blob that is missing or fails to decode
      reads as absent (no profile, no messages); a missing flag reads false. */
  class Storage {
    var profile: Option<UserProfile>
    var messages: seq<Message>
    var onboardingComplete: bool

    constructor (profile: Option<UserProfile>, messages: seq<Message>, onboardingComplete: bool)
      ensures this.profile == profile
      ensures this.messages == messages
      ensures this.onboardingComplete == onboardingComplete
    {
      this.profile := profile;
      this.messages := messages;
      this.onboardingComplete := onboardingComplete;
    }
  }

  /** A reminder handed to the notification scheduler: `schedule` (repeating
      daily) or `scheduleWeekly`, at a time, with a body text. */
  datatype NotificationRequest =
    | ScheduleDaily(time: int, body: string)
    | ScheduleWeekly(time: int, body: string)

  /** The body of the daily reminder. */
  const DailyReminderBody: string := "Tap to see your daily challenge!"

  /** What the outside world answers while one action is processed:
      today's day number and its ordinal in the year, the current time and
      08:00 today (in seconds), the user's answer to the permission prompt,
      and a fresh id for a new message. */
  datatype Env = Env(
    today: Day,
    dayOfYear: nat,
    now: int,
    eightAm: int,
    permissionGranted: bool,
    freshId: nat)
}
