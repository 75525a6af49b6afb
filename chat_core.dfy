/** The chat assistant: a persisted, append-only message log, a length-limited
    input field, a typing indicator and canned replies chosen by keyword. */
module ChatCore {
  import opened Models
  import opened Text
  import opened Dependencies

  const MaxCharacters: nat := 500

  const Greeting: string := "Hi! 👋 I'm your challenge assistant. How can I help you today?"

  datatype Action =
    | OnAppear
    | InputChanged(text: string)
    | SendMessage
    | SendQuickReply(text: string)
    | AiResponseReceived(response: string)
    | StartTyping
    | StopTyping

  /** What a transition asks the runtime to do next: nothing, feed an action
      back, or, after a random delay, send AiResponseReceived with a reply
      generated for `lastMessage`. */
  datatype Effect = NoEffect | Send(action: Action) | ReplyLater(lastMessage: string)

  /** Nothing is left once whitespace and newlines are trimmed. */
  predicate IsBlank(s: string) {
    Trim(s, IsWhitespace) == []
  }

  /** A text is blank exactly when every character is whitespace. */
  lemma BlankIff(s: string)
    ensures IsBlank(s) <==> forall k :: 0 <= k < |s| ==> IsWhitespace(s[k])
  {
    TrimEmptyIff(s, IsWhitespace);
  }

  /** The first MaxCharacters characters of `s`. */
  function Limit(s: string): (r: string)
    ensures |r| == if |s| <= MaxCharacters then |s| else MaxCharacters
    ensures r == s[..|r|]
  {
    if |s| <= MaxCharacters then s else s[..MaxCharacters]
  }

  /** State.canSend: some non-blank input within the limit, and no reply pending. */
  predicate CanSend(input: string, characterCount: int, isTyping: bool) {
    !IsBlank(input) && characterCount <= MaxCharacters && !isTyping
  }

  /** Sending is possible exactly when the input holds a non-whitespace
      character, the count is within the limit and no reply is pending. */
  lemma CanSendIff(input: string, characterCount: int, isTyping: bool)
    ensures CanSend(input, characterCount, isTyping)
            <==> (exists k :: 0 <= k < |input| && !IsWhitespace(input[k]))
                 && characterCount <= MaxCharacters && !isTyping
  {
    BlankIff(input);
  }

  /** The canned replies: one per keyword group, and five defaults. */
  datatype Reply =
    | ChallengeReply
    | NervousReply
    | MotivationReply
    | StreakReply
    | ThanksReply
    | DefaultReply(index: nat)

  const DefaultReplyCount: nat := 5

  /** The text shown for a reply. */
  function ReplyText(r: Reply): string {
    match r
    case ChallengeReply =>
      "Today's challenge is designed just for you! Check the Challenge tab to see what awaits. 🎯"
    case NervousReply =>
      "It's totally normal to feel nervous! Remember, every expert was once a beginner. Start small and you've got this! 💪"
    case MotivationReply =>
      "You're already taking the first step by being here! That's amazing. What specific area would you like motivation for? 🌟"
    case StreakReply =>
      "Streaks are powerful! 🔥 Every day you complete a challenge, you're building a better version of yourself. Keep going!"
    case ThanksReply =>
      "You're so welcome! I'm here whenever you need encouragement or guidance. You're doing great! ✨"
    case DefaultReply(i) =>
      if i == 0 then "That's a great point! How are you feeling about today's challenge? 🤔"
      else if i == 1 then "I understand! Remember, progress over perfection. What's one small step you can take? 🚀"
      else if i == 2 then "You're doing amazing by just showing up! What would be most helpful right now? 💚"
      else if i == 3 then "Interesting! Tell me more about how you're feeling about your goals. 🎯"
      else "I'm here to support you! Is there anything specific about challenges you'd like to know? 🤝"
  }

  /** Does the lower-cased input contain `keyword`? */
  predicate Mentions(input: string, keyword: string) {
    Contains(Lower(input), keyword)
  }

  /** generateAIResponse(for:), as the reply it picks: keyword groups are
      tried in a fixed order on the lower-cased input; with no match, the
      default reply at `pick` (the random choice) is used. */
  function ChooseReply(input: string, pick: nat): (r: Reply)
    ensures r.DefaultReply? <==>
              !Mentions(input, "challenge") && !Mentions(input, "what")
              && !Mentions(input, "nervous") && !Mentions(input, "scared")
              && !Mentions(input, "motivation") && !Mentions(input, "help")
              && !Mentions(input, "streak") && !Mentions(input, "thank")
    ensures r.DefaultReply? ==> r.index < DefaultReplyCount
  {
    if Mentions(input, "challenge") || Mentions(input, "what") then ChallengeReply
    else if Mentions(input, "nervous") || Mentions(input, "scared") then NervousReply
    else if Mentions(input, "motivation") || Mentions(input, "help") then MotivationReply
    else if Mentions(input, "streak") then StreakReply
    else if Mentions(input, "thank") then ThanksReply
    else DefaultReply(pick % DefaultReplyCount)
  }

  /** generateAIResponse(for:): the text of the chosen reply. */
  function GenerateAIResponse(input: string, pick: nat): string {
    ReplyText(ChooseReply(input, pick))
  }

  /** The first matching keyword group decides the reply, whatever later
      groups also match; with no keyword, the reply is one of the defaults,
      and each default is reachable. */
  lemma ReplyPriority(input: string, pick: nat)
    ensures ChooseReply(input, pick) == ChallengeReply
            <==> Mentions(input, "challenge") || Mentions(input, "what")
    ensures ChooseReply(input, pick) == NervousReply
            <==> !(Mentions(input, "challenge") || Mentions(input, "what"))
                 && (Mentions(input, "nervous") || Mentions(input, "scared"))
    ensures ChooseReply(input, pick) == MotivationReply
            <==> !(Mentions(input, "challenge") || Mentions(input, "what"))
                 && !(Mentions(input, "nervous") || Mentions(input, "scared"))
                 && (Mentions(input, "motivation") || Mentions(input, "help"))
    ensures ChooseReply(input, pick) == StreakReply
            <==> !(Mentions(input, "challenge") || Mentions(input, "what"))
                 && !(Mentions(input, "nervous") || Mentions(input, "scared"))
                 && !(Mentions(input, "motivation") || Mentions(input, "help"))
                 && Mentions(input, "streak")
    ensures ChooseReply(input, pick) == ThanksReply
            <==> !(Mentions(input, "challenge") || Mentions(input, "what"))
                 && !(Mentions(input, "nervous") || Mentions(input, "scared"))
                 && !(Mentions(input, "motivation") || Mentions(input, "help"))
                 && !Mentions(input, "streak") && Mentions(input, "thank")
    ensures ChooseReply(input, pick).DefaultReply? ==> ChooseReply(input, pick).index < DefaultReplyCount
    ensures ChooseReply(input, pick).DefaultReply? && pick < DefaultReplyCount ==>
              ChooseReply(input, pick) == DefaultReply(pick)
  {
  }

  /** Matching ignores case: a word that lower-cases to "challenge" or
      "what" ("Challenge", "WHAT", ...) anywhere in the input selects the
      challenge reply. */
  lemma ReplyIgnoresCase(input: string, word: string, pick: nat)
    requires Contains(input, word)
    requires Lower(word) == "challenge" || Lower(word) == "what"
    ensures ChooseReply(input, pick) == ChallengeReply
  {
    ContainsLower(input, word);
  }

  class ChatEngine {
    const storage: Storage
    var messages: seq<Message>
    var currentInput: string
    var isTyping: bool
    var characterCount: int

    /** The counter always shows the length of the input, which stays
        within the limit. */
    ghost predicate Valid()
      reads this
    {
      characterCount == |currentInput| <= MaxCharacters
    }

    constructor (storage: Storage)
      ensures Valid() && this.storage == storage
      ensures messages == [] && currentInput == [] && !isTyping && characterCount == 0
    {
      this.storage := storage;
      messages := [];
      currentInput := [];
      isTyping := false;
      characterCount := 0;
    }

    predicate CanSendNow()
      reads this
    {
      CanSend(currentInput, characterCount, isTyping)
    }

    /** Loads the stored log; an empty one is replaced by the greeting. */
    method OnAppear(id: nat, now: int) returns (e: Effect)
      modifies this`messages
      ensures storage.messages != [] ==> messages == storage.messages
      ensures storage.messages == [] ==> messages == [Message(id, Greeting, false, now)]
      ensures e == NoEffect
    {
      messages := storage.messages;
      if messages == [] {
        messages := [Message(id, Greeting, false, now)];
      }
      e := NoEffect;
    }

    /** Keeps the first MaxCharacters characters and counts them. */
    method InputChanged(text: string) returns (e: Effect)
      modifies this`currentInput, this`characterCount
      ensures Valid()
      ensures currentInput == Limit(text) && characterCount == |currentInput|
      ensures e == NoEffect
    {
      var limited := Limit(text);
      currentInput := limited;
      characterCount := |limited|;
      e := NoEffect;
    }

    /** Sends the current input as a quick reply. */
    method SendMessage() returns (e: Effect)
      ensures e == Send(Action.SendQuickReply(currentInput))
    {
      e := Send(Action.SendQuickReply(currentInput));
    }

    /** Appends a user message with `text`, clears the input, saves the log
        and starts the typing sequence; blank text changes nothing. */
    method SendQuickReply(text: string, id: nat, now: int) returns (e: Effect)
      requires Valid()
      modifies this`messages, this`currentInput, this`characterCount, storage`messages
      ensures Valid()
      ensures IsBlank(text) ==> unchanged(this) && unchanged(storage) && e == NoEffect
      ensures !IsBlank(text) ==>
                && messages == old(messages) + [Message(id, text, true, now)]
                && currentInput == [] && characterCount == 0
                && storage.messages == messages
                && e == Send(Action.StartTyping)
    {
      if IsBlank(text) {
        e := NoEffect;
        return;
      }
      messages := messages + [Message(id, text, true, now)];
      currentInput := [];
      characterCount := 0;
      storage.messages := messages;
      e := Send(Action.StartTyping);
    }

    /** Shows the typing indicator and schedules a reply to the last message. */
    method StartTyping() returns (e: Effect)
      modifies this`isTyping
      ensures isTyping
      ensures e == ReplyLater(if messages == [] then [] else messages[|messages| - 1].text)
    {
      isTyping := true;
      e := ReplyLater(if messages == [] then [] else messages[|messages| - 1].text);
    }

    /** Hides the typing indicator, appends the assistant's reply and saves the log. */
    method AiResponseReceived(response: string, id: nat, now: int) returns (e: Effect)
      modifies this`isTyping, this`messages, storage`messages
      ensures !isTyping
      ensures messages == old(messages) + [Message(id, response, false, now)]
      ensures storage.messages == messages
      ensures e == NoEffect
    {
      isTyping := false;
      messages := messages + [Message(id, response, false, now)];
      storage.messages := messages;
      e := NoEffect;
    }

    method StopTyping() returns (e: Effect)
      modifies this`isTyping
      ensures !isTyping && e == NoEffect
    {
      isTyping := false;
      e := NoEffect;
    }

    /** The reducer: dispatches an action to its transition. Apart from
        onAppear, which reloads it, the log only ever grows at its end. */
    method Reduce(a: Action, env: Env) returns (e: Effect)
      requires Valid()
      modifies this, storage`messages
      ensures Valid()
      ensures !a.OnAppear? ==> |old(messages)| <= |messages| && messages[..|old(messages)|] == old(messages)
      ensures storage.profile == old(storage.profile)
      ensures storage.onboardingComplete == old(storage.onboardingComplete)
    {
      match a
      case OnAppear => e := OnAppear(env.freshId, env.now);
      case InputChanged(text) => e := InputChanged(text);
      case SendMessage => e := SendMessage();
      case SendQuickReply(text) => e := SendQuickReply(text, env.freshId, env.now);
      case AiResponseReceived(response) => e := AiResponseReceived(response, env.freshId, env.now);
      case StartTyping => e := StartTyping();
      case StopTyping => e := StopTyping();
    }
  }
}
