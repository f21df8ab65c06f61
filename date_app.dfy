/** The top-level state of date/src/App.tsx. Unlike src/App.tsx, the avatar's
    reply is looked up in a fixed table and arrives on a one-second timer.

    `handleUserMessage` appends the user's entry and schedules the reply; the
    scheduled callback is a `PendingReply` token holding what the closure
    captured (the message and the current emotion at the time of sending), and
    `DeliverAvatarReply` is the timer firing. The class keeps a ghost record
    of the timers still to fire, so that each one fires once, and only for a
    message that was sent. */
module DateApp {
  import opened Common
  import Hume
  import Feedback

  const Fallback: string := "Hmm, interesting. Tell me more!"

  /** The `responses` object of `generateAvatarResponse`. */
  const Responses: map<string, string> := map[
    "happy" := "I'm feeling great! What about you?",
    "sad" := "I'm here for you. Let's talk about it.",
    "excited" := "That sounds amazing!",
    "nervous" := "Don't worry, you're doing great.",
    "neutral" := "That's interesting! Tell me more."
  ]

  /** `responses[emotion] || fallback`. Every table entry is a non-empty string,
      so the fallback is taken exactly for labels outside the table. The user's
      message is passed in but never read. */
  function GenerateAvatarResponse(userMessage: string, emotion: string): (reply: string)
    ensures emotion in Responses ==> reply == Responses[emotion]
    ensures emotion !in Responses ==> reply == Fallback
    ensures reply != ""
  {
    if emotion in Responses && Responses[emotion] != "" then Responses[emotion] else Fallback
  }

  /** Which table key an avatar reply came from: `None` for the fallback. */
  function KeyOfReply(reply: string): (key: Option<string>)
  {
    if reply == Responses["happy"] then Some("happy")
    else if reply == Responses["sad"] then Some("sad")
    else if reply == Responses["excited"] then Some("excited")
    else if reply == Responses["nervous"] then Some("nervous")
    else if reply == Responses["neutral"] then Some("neutral")
    else None
  }

  /** The reply identifies the label when the label is in the table, and says
      only "not in the table" otherwise: no two keys share a reply, and the
      fallback is none of them. */
  lemma ReplyDeterminesKey(userMessage: string, emotion: string)
    ensures KeyOfReply(GenerateAvatarResponse(userMessage, emotion))
         == if emotion in Responses then Some(emotion) else None
  {
  }

  /** The reply depends on the emotion only. */
  lemma ReplyIgnoresMessage(m1: string, m2: string, emotion: string)
    ensures GenerateAvatarResponse(m1, emotion) == GenerateAvatarResponse(m2, emotion)
  {
  }

  /** What the timer callback captured when the message was sent. */
  datatype PendingReply = PendingReply(message: string, emotion: string)

  class App {
    var currentEmotion: string
    var chatHistory: seq<ChatEntry>
    var isFeedbackMode: bool
    /** The timers set by `handleUserMessage` that have not fired yet. */
    ghost var scheduled: multiset<PendingReply>

    /** Every user message has had its reply or still has its timer pending. */
    ghost predicate Valid()
      reads this
    {
      SpeakerCount(chatHistory, AvatarSpeaker) + |scheduled| == Feedback.UserCount(chatHistory)
    }

    constructor ()
      ensures Valid()
      ensures currentEmotion == Hume.Neutral && chatHistory == [] && !isFeedbackMode && scheduled == multiset{}
    {
      currentEmotion := Hume.Neutral;
      chatHistory := [];
      isFeedbackMode := false;
      scheduled := multiset{};
    }

    /** `handleUserMessage`: the user's entry goes in at once, earlier entries
        untouched, and one reply is scheduled with the emotion of this moment. */
    method HandleUserMessage(message: string) returns (pending: PendingReply)
      requires Valid()
      modifies this
      ensures Valid()
      ensures chatHistory == old(chatHistory) + [UserEntry(message)]
      ensures pending == PendingReply(message, old(currentEmotion))
      ensures scheduled == old(scheduled) + multiset{pending}
      ensures currentEmotion == old(currentEmotion) && isFeedbackMode == old(isFeedbackMode)
    {
      chatHistory := chatHistory + [UserEntry(message)];
      pending := PendingReply(message, currentEmotion);
      scheduled := scheduled + multiset{pending};
    }

    /** A scheduled timer fires: exactly one Avatar entry, computed from the
        captured emotion, whatever the current emotion has become since; the
        timer is then spent. */
    method DeliverAvatarReply(pending: PendingReply)
      requires Valid() && pending in scheduled
      modifies this
      ensures Valid()
      ensures chatHistory == old(chatHistory) + [AvatarEntry(GenerateAvatarResponse(pending.message, pending.emotion))]
      ensures scheduled == old(scheduled) - multiset{pending}
      ensures currentEmotion == old(currentEmotion) && isFeedbackMode == old(isFeedbackMode)
    {
      chatHistory := chatHistory + [AvatarEntry(GenerateAvatarResponse(pending.message, pending.emotion))];
      scheduled := scheduled - multiset{pending};
    }

    /** `handleEmotionDetected`: sets the emotion and nothing else. */
    method HandleEmotionDetected(emotion: string)
      requires Valid()
      modifies this
      ensures Valid()
      ensures currentEmotion == emotion
      ensures chatHistory == old(chatHistory) && isFeedbackMode == old(isFeedbackMode) && scheduled == old(scheduled)
    {
      currentEmotion := emotion;
    }

    /** `endDate`: switches to feedback mode; a second call changes nothing.
        Pending timers still fire. */
    method EndDate()
      requires Valid()
      modifies this
      ensures Valid()
      ensures isFeedbackMode
      ensures chatHistory == old(chatHistory) && currentEmotion == old(currentEmotion) && scheduled == old(scheduled)
    {
      isFeedbackMode := true;
    }
  }
}
