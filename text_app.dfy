/** The top-level state of src/App.tsx: the chat history, the current emotion
    and the feedback flag, with the handlers that update them.

    `handleUserMessage` is asynchronous: it appends the user's entry, awaits
    the analysis, then sets the emotion and appends the avatar's entry. The two
    halves are the events `PostUserMessage` and `ApplyAnalysis`; other events
    (another message, a detector report) may run between them, and
    `HandleUserMessage` is the run in which nothing does. The class keeps a
    ghost count of the analyses still awaited, so that each one settles once,
    and only for a message that was posted. */
module TextApp {
  import opened Common
  import opened Hume
  import Feedback

  const AvatarPrefix: string := "It seems I'm feeling "
  const AvatarSuffix: string := ". What else do you have to say?"

  /** `analyzeEmotionWithHume`: it never throws; every failure is caught and
      reported as "neutral", so a failure looks exactly like a neutral reading. */
  function AnalyzeEmotionWithHume(reply: Reply): (detected: string)
    ensures detected != ""
    ensures Settle(reply).None? ==> detected == Neutral
    ensures Settle(reply).Some? ==> detected == Settle(reply).value
  {
    Settle(reply).GetOr(Neutral)
  }

  /** The avatar's reply, with the label spliced into a fixed template. */
  function AvatarLine(emotion: string): (line: string)
    ensures Between(line, AvatarPrefix, AvatarSuffix) == Some(emotion)
  {
    BetweenRoundTrip(AvatarPrefix, emotion, AvatarSuffix);
    AvatarPrefix + emotion + AvatarSuffix
  }

  /** Different labels give different avatar lines. */
  lemma AvatarLineInjective(e1: string, e2: string)
    requires AvatarLine(e1) == AvatarLine(e2)
    ensures e1 == e2
  {
  }

  /** A failed analysis leaves the same trace as a genuine "neutral" reading:
      the first clause compares two failures (a thrown error, and a reply without
      `emotions`, whose label expression throws); the second compares a thrown
      error with a reply whose first entry is named "neutral". */
  lemma FailureIndistinguishable(err: string, status: nat)
    ensures AnalyzeEmotionWithHume(Thrown(err)) == AnalyzeEmotionWithHume(Received(status, Json(Object(None))))
    ensures AnalyzeEmotionWithHume(Thrown(err))
         == AnalyzeEmotionWithHume(Received(status, Json(Object(Some([Some(Entry(Some(Neutral)))])))))
  {
  }

  /** One uninterrupted message exchange adds exactly one counted user message. */
  lemma ExchangeCountsOnce(h: seq<ChatEntry>, message: string, detected: string)
    ensures Feedback.UserCount(h + [UserEntry(message), AvatarEntry(AvatarLine(detected))]) == Feedback.UserCount(h) + 1
  {
    Feedback.UserEntryCounted(h, message);
    assert h + [UserEntry(message), AvatarEntry(AvatarLine(detected))] == (h + [UserEntry(message)]) + [AvatarEntry(AvatarLine(detected))];
    assert (h + [UserEntry(message)] + [AvatarEntry(AvatarLine(detected))])[..|h| + 1] == h + [UserEntry(message)];
  }

  class App {
    var currentEmotion: string
    var chatHistory: seq<ChatEntry>
    var isFeedbackMode: bool
    /** The number of `handleUserMessage` calls still awaiting their analysis. */
    ghost var inFlight: nat

    /** Every user message has had its reply or still awaits its analysis. */
    ghost predicate Valid()
      reads this
    {
      SpeakerCount(chatHistory, AvatarSpeaker) + inFlight == Feedback.UserCount(chatHistory)
    }

    /** Initial state: emotion "neutral", empty history, feedback mode off. */
    constructor ()
      ensures Valid()
      ensures currentEmotion == Neutral && chatHistory == [] && !isFeedbackMode && inFlight == 0
    {
      currentEmotion := Neutral;
      chatHistory := [];
      isFeedbackMode := false;
      inFlight := 0;
    }

    /** First half of `handleUserMessage`: the user's entry goes in at once and
        its analysis is awaited. */
    method PostUserMessage(message: string)
      requires Valid()
      modifies this
      ensures Valid()
      ensures chatHistory == old(chatHistory) + [UserEntry(message)]
      ensures inFlight == old(inFlight) + 1
      ensures currentEmotion == old(currentEmotion) && isFeedbackMode == old(isFeedbackMode)
    {
      chatHistory := chatHistory + [UserEntry(message)];
      inFlight := inFlight + 1;
    }

    /** Second half: an awaited analysis settles; the label becomes the current
        emotion and the avatar answers with it. */
    method ApplyAnalysis(reply: Reply) returns (detected: string)
      requires Valid() && inFlight > 0
      modifies this
      ensures Valid()
      ensures detected == AnalyzeEmotionWithHume(reply)
      ensures currentEmotion == detected
      ensures chatHistory == old(chatHistory) + [AvatarEntry(AvatarLine(detected))]
      ensures inFlight == old(inFlight) - 1
      ensures isFeedbackMode == old(isFeedbackMode)
    {
      detected := AnalyzeEmotionWithHume(reply);
      currentEmotion := detected;
      chatHistory := chatHistory + [AvatarEntry(AvatarLine(detected))];
      inFlight := inFlight - 1;
    }

    /** `handleUserMessage` when no other event runs while it awaits: history
        grows by two, User then Avatar, and the earlier entries stay as they were. */
    method HandleUserMessage(message: string, reply: Reply) returns (detected: string)
      requires Valid()
      modifies this
      ensures Valid() && inFlight == old(inFlight)
      ensures detected == AnalyzeEmotionWithHume(reply)
      ensures chatHistory == old(chatHistory) + [UserEntry(message), AvatarEntry(AvatarLine(detected))]
      ensures |chatHistory| == |old(chatHistory)| + 2
      ensures chatHistory[..|old(chatHistory)|] == old(chatHistory)
      ensures currentEmotion == detected && isFeedbackMode == old(isFeedbackMode)
    {
      PostUserMessage(message);
      detected := ApplyAnalysis(reply);
    }

    /** The detector's callback (`setCurrentEmotion`): the emotion only. */
    method SetCurrentEmotion(emotion: string)
      requires Valid()
      modifies this
      ensures Valid()
      ensures currentEmotion == emotion
      ensures chatHistory == old(chatHistory) && isFeedbackMode == old(isFeedbackMode) && inFlight == old(inFlight)
    {
      currentEmotion := emotion;
    }

    /** `endDate`: switches to feedback mode; nothing switches it back. */
    method EndDate()
      requires Valid()
      modifies this
      ensures Valid()
      ensures isFeedbackMode
      ensures chatHistory == old(chatHistory) && currentEmotion == old(currentEmotion) && inFlight == old(inFlight)
    {
      isFeedbackMode := true;
    }
  }
}
