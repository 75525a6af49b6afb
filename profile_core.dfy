/** The profile screen: the loaded profile, and the reminder settings
    (enabled flag, time, frequency) with their scheduling and test flows. */
module ProfileCore {
  import opened Models
  import opened Dependencies

  datatype NotificationFrequency = Daily | Weekly

  function Description(f: NotificationFrequency): string {
    match f
    case Daily => "Daily"
    case Weekly => "Weekly"
  }

  const WeeklyReminderBody: string := "Tap to see your weekly challenge!"
  const TestNotificationBody: string :=
    "🎯 Test notification from Challengely! Your notifications are working perfectly."
  const PermissionDeniedMessage: string :=
    "Notification permission denied. Please enable notifications in Settings."
  const TestFailedMessage: string :=
    "Unable to send test notification. Please check your notification settings."

  /** How far ahead of now the test notification is scheduled, in seconds. */
  const TestDelay: int := 60

  datatype Action =
    | Load
    | ProfileLoaded(profile: UserProfile)
    | UpdateProfile(profile: UserProfile)
    | ToggleNotifications(enabled: bool)
    | UpdateNotificationTime(time: int)
    | UpdateNotificationFrequency(frequency: NotificationFrequency)
    | ScheduleNotification
    | SendTestNotification
    | NotificationScheduled(granted: bool)
    | TestNotificationSent(granted: bool)

  datatype Feedback = Success | Warning | Failure

  /** What a transition asks the runtime to do next: nothing, feed an action
      back, play haptic feedback, or ask for notification permission, hand
      `request` to the scheduler if it is granted, and report the answer
      (as testNotificationSent when `test`, else as notificationScheduled). */
  datatype Effect =
    | NoEffect
    | Send(action: Action)
    | Haptic(feedback: Feedback)
    | AskPermission(request: NotificationRequest, test: bool)

  /** The repeating reminder for a frequency: `schedule` with the daily text,
      or `scheduleWeekly` with the weekly text. */
  function ReminderRequest(f: NotificationFrequency, time: int): (r: NotificationRequest)
    ensures r.time == time
    ensures r.ScheduleDaily? <==> f == Daily
    ensures r.body == if f == Daily then DailyReminderBody else WeeklyReminderBody
  {
    match f
    case Daily => ScheduleDaily(time, DailyReminderBody)
    case Weekly => ScheduleWeekly(time, WeeklyReminderBody)
  }

  /** Carrying out an AskPermission effect once the user has answered: the
      request the scheduler receives, if any, and the action sent back. */
  function AnswerPermission(request: NotificationRequest, test: bool, granted: bool)
    : (r: (Option<NotificationRequest>, Action))
    ensures r.0.Some? <==> granted
    ensures r.0.Some? ==> r.0.value == request
    ensures test ==> r.1 == Action.TestNotificationSent(granted)
    ensures !test ==> r.1 == Action.NotificationScheduled(granted)
  {
    (if granted then Some(request) else None,
     if test then Action.TestNotificationSent(granted) else Action.NotificationScheduled(granted))
  }

  class ProfileEngine {
    const storage: Storage
    var userProfile: UserProfile
    var isLoading: bool
    var errorMessage: Option<string>
    var notificationsEnabled: bool
    var notificationTime: int
    var notificationFrequency: NotificationFrequency
    var isTestingNotification: bool

    /** The initial state; `eightAm` is 08:00 on the day the screen is built. */
    constructor (storage: Storage, eightAm: int)
      ensures this.storage == storage
      ensures userProfile == DefaultProfile() && !isLoading && errorMessage == None
      ensures notificationsEnabled && notificationTime == eightAm
      ensures notificationFrequency == Daily && !isTestingNotification
    {
      this.storage := storage;
      userProfile := DefaultProfile();
      isLoading := false;
      errorMessage := None;
      notificationsEnabled := true;
      notificationTime := eightAm;
      notificationFrequency := Daily;
      isTestingNotification := false;
    }

    /** Starts loading and clears the error; a stored profile is delivered
        as profileLoaded, and without one the screen stays loading. */
    method Load() returns (e: Effect)
      modifies this`isLoading, this`errorMessage
      ensures isLoading && errorMessage == None
      ensures storage.profile.Some? ==> e == Send(Action.ProfileLoaded(storage.profile.value))
      ensures storage.profile.None? ==> e == NoEffect
    {
      isLoading := true;
      errorMessage := None;
      if storage.profile.Some? {
        e := Send(Action.ProfileLoaded(storage.profile.value));
      } else {
        e := NoEffect;
      }
    }

    method ProfileLoaded(profile: UserProfile) returns (e: Effect)
      modifies this`userProfile, this`isLoading
      ensures userProfile == profile && !isLoading && e == NoEffect
    {
      userProfile := profile;
      isLoading := false;
      e := NoEffect;
    }

    /** Shows and saves the given profile. */
    method UpdateProfile(profile: UserProfile) returns (e: Effect)
      modifies this`userProfile, storage`profile
      ensures userProfile == profile && storage.profile == Some(profile)
      ensures e == NoEffect
    {
      userProfile := profile;
      storage.profile := Some(profile);
      e := NoEffect;
    }

    /** Sets the flag; turning reminders on reschedules them. */
    method ToggleNotifications(enabled: bool) returns (e: Effect)
      modifies this`notificationsEnabled
      ensures notificationsEnabled == enabled
      ensures e == if enabled then Send(Action.ScheduleNotification) else NoEffect
    {
      notificationsEnabled := enabled;
      if enabled {
        e := Send(Action.ScheduleNotification);
      } else {
        e := NoEffect;
      }
    }

    /** Sets the time; reschedules when reminders are on. */
    method UpdateNotificationTime(time: int) returns (e: Effect)
      modifies this`notificationTime
      ensures notificationTime == time
      ensures e == if notificationsEnabled then Send(Action.ScheduleNotification) else NoEffect
    {
      notificationTime := time;
      if notificationsEnabled {
        e := Send(Action.ScheduleNotification);
      } else {
        e := NoEffect;
      }
    }

    /** Sets the frequency; reschedules when reminders are on. */
    method UpdateNotificationFrequency(f: NotificationFrequency) returns (e: Effect)
      modifies this`notificationFrequency
      ensures notificationFrequency == f
      ensures e == if notificationsEnabled then Send(Action.ScheduleNotification) else NoEffect
    {
      notificationFrequency := f;
      if notificationsEnabled {
        e := Send(Action.ScheduleNotification);
      } else {
        e := NoEffect;
      }
    }

    /** With reminders on, asks for permission to schedule the reminder for
        the current frequency and time; with reminders off, does nothing. */
    method ScheduleNotification() returns (e: Effect)
      ensures notificationsEnabled ==>
                e == AskPermission(ReminderRequest(notificationFrequency, notificationTime), false)
      ensures !notificationsEnabled ==> e == NoEffect
    {
      if !notificationsEnabled {
        return NoEffect;
      }
      e := AskPermission(ReminderRequest(notificationFrequency, notificationTime), false);
    }

    /** With reminders on, marks a test as running and asks for permission
        to schedule the test text a minute from `now`; with reminders off,
        does nothing. */
    method SendTestNotification(now: int) returns (e: Effect)
      modifies this`isTestingNotification
      ensures notificationsEnabled ==>
                && isTestingNotification
                && e == AskPermission(ScheduleDaily(now + TestDelay, TestNotificationBody), true)
      ensures !notificationsEnabled ==>
                isTestingNotification == old(isTestingNotification) && e == NoEffect
    {
      if !notificationsEnabled {
        return NoEffect;
      }
      isTestingNotification := true;
      e := AskPermission(ScheduleDaily(now + TestDelay, TestNotificationBody), true);
    }

    /** A denied permission sets the settings message; a granted one leaves
        the error as it was. */
    method NotificationScheduled(granted: bool) returns (e: Effect)
      modifies this`errorMessage
      ensures granted ==> errorMessage == old(errorMessage) && e == Haptic(Success)
      ensures !granted ==> errorMessage == Some(PermissionDeniedMessage) && e == Haptic(Warning)
    {
      if granted {
        e := Haptic(Success);
      } else {
        errorMessage := Some(PermissionDeniedMessage);
        e := Haptic(Warning);
      }
    }

    /** Ends the test in both cases; success clears the error, denial sets
        the test-failure message. */
    method TestNotificationSent(granted: bool) returns (e: Effect)
      modifies this`isTestingNotification, this`errorMessage
      ensures !isTestingNotification
      ensures granted ==> errorMessage == None && e == Haptic(Success)
      ensures !granted ==> errorMessage == Some(TestFailedMessage) && e == Haptic(Failure)
    {
      isTestingNotification := false;
      if granted {
        errorMessage := None;
        e := Haptic(Success);
      } else {
        errorMessage := Some(TestFailedMessage);
        e := Haptic(Failure);
      }
    }

    /** The reducer: dispatches an action to its transition. Only
        updateProfile writes the store, and the reminder settings change
        only through their own actions. */
    method Reduce(a: Action, env: Env) returns (e: Effect)
      modifies this, storage`profile
      ensures !a.UpdateProfile? ==> storage.profile == old(storage.profile)
      ensures !a.ToggleNotifications? ==> notificationsEnabled == old(notificationsEnabled)
      ensures !a.UpdateNotificationTime? ==> notificationTime == old(notificationTime)
      ensures !a.UpdateNotificationFrequency? ==> notificationFrequency == old(notificationFrequency)
    {
      match a
      case Load => e := Load();
      case ProfileLoaded(p) => e := ProfileLoaded(p);
      case UpdateProfile(p) => e := UpdateProfile(p);
      case ToggleNotifications(enabled) => e := ToggleNotifications(enabled);
      case UpdateNotificationTime(t) => e := UpdateNotificationTime(t);
      case UpdateNotificationFrequency(f) => e := UpdateNotificationFrequency(f);
      case ScheduleNotification => e := ScheduleNotification();
      case SendTestNotification => e := SendTestNotification(env.now);
      case NotificationScheduled(granted) => e := NotificationScheduled(granted);
      case TestNotificationSent(granted) => e := TestNotificationSent(granted);
    }
  }

  /** The whole reminder flow after a settings change with reminders on:
      scheduleNotification, the permission answer, and notificationScheduled.
      The scheduler receives the reminder for the current settings exactly
      when permission is granted, and the denial message appears exactly
      when it is not. */
  method ScheduleFlow(profile: ProfileEngine, granted: bool) returns (scheduled: Option<NotificationRequest>)
    requires profile.notificationsEnabled
    modifies profile`errorMessage
    ensures granted ==>
              scheduled == Some(ReminderRequest(profile.notificationFrequency, profile.notificationTime))
              && profile.errorMessage == old(profile.errorMessage)
    ensures !granted ==> scheduled == None && profile.errorMessage == Some(PermissionDeniedMessage)
  {
    var e := profile.ScheduleNotification();
    var answer := AnswerPermission(e.request, e.test, granted);
    scheduled := answer.0;
    var _ := profile.NotificationScheduled(answer.1.granted);
  }
}
