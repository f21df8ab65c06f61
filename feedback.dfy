/** The two rules of the end-of-date feedback panel (src/components/Feedback.tsx).
    Both are functions of the props `(chatHistory, emotion)` alone. */
module Feedback {
  import opened Common

  const ShyMessage: string := "You seemed a bit shy. Try to open up more in your next conversation!"
  const EngagingMessage: string := "Great job! You were very engaging in the conversation."
  const BalancedMessage: string := "You maintained a good balance in the conversation. Keep it up!"

  const HappyFeedback: string := "You seemed happy during the conversation. That's great!"
  const NervousFeedback: string := "You appeared a bit nervous. Remember, it's okay to take your time and breathe."
  const SadFeedback: string := "You seemed a bit down. Is everything okay? Remember, it's just a practice session."
  const DefaultFeedback: string := "Your emotions were balanced throughout the conversation."

  /** `chatHistory.filter(chat => chat.user === 'User').length` */
  function UserCount(history: seq<ChatEntry>): (n: nat)
    ensures n <= |history|
  {
    SpeakerCount(history, UserSpeaker)
  }

  /** `getFeedbackMessage`: the engagement tier of the user-message count. */
  function FeedbackMessage(history: seq<ChatEntry>): (r: string)
    ensures r == ShyMessage <==> UserCount(history) < 5
    ensures r == EngagingMessage <==> UserCount(history) > 10
    ensures r == BalancedMessage <==> 5 <= UserCount(history) <= 10
  {
    var count := UserCount(history);
    if count < 5 then ShyMessage
    else if count > 10 then EngagingMessage
    else BalancedMessage
  }

  /** `getEmotionFeedback`: an exact, case-sensitive match of the final label. */
  function EmotionFeedback(emotion: string): (r: string)
    ensures r == HappyFeedback <==> emotion == "happy"
    ensures r == NervousFeedback <==> emotion == "nervous"
    ensures r == SadFeedback <==> emotion == "sad"
    ensures r == DefaultFeedback <==> emotion !in {"happy", "nervous", "sad"}
  {
    match emotion
    case "happy" => HappyFeedback
    case "nervous" => NervousFeedback
    case "sad" => SadFeedback
    case _ => DefaultFeedback
  }

  /** The tiers in order of engagement: 0 shy, 1 balanced, 2 engaging. */
  function TierRank(message: string): (rank: nat) {
    if message == ShyMessage then 0 else if message == BalancedMessage then 1 else 2
  }

  /** The count of a concatenation is the sum of the counts. */
  lemma {:induction false} UserCountAppend(h1: seq<ChatEntry>, h2: seq<ChatEntry>)
    ensures UserCount(h1 + h2) == UserCount(h1) + UserCount(h2)
  {
    if h2 != [] {
      var last := h2[|h2| - 1];
      assert (h1 + h2)[..|h1 + h2| - 1] == h1 + h2[..|h2| - 1];
      UserCountAppend(h1, h2[..|h2| - 1]);
    } else {
      assert h1 + h2 == h1;
    }
  }

  /** Entries whose `user` is not exactly "User" (Avatar replies among them) are
      not counted, wherever they stand in the history. */
  lemma {:induction false} NonUserEntriesNotCounted(h: seq<ChatEntry>, e: ChatEntry, k: nat)
    requires e.user != UserSpeaker && k <= |h|
    ensures UserCount(h[..k] + [e] + h[k..]) == UserCount(h)
    ensures FeedbackMessage(h[..k] + [e] + h[k..]) == FeedbackMessage(h)
  {
    UserCountAppend(h[..k] + [e], h[k..]);
    UserCountAppend(h[..k], [e]);
    assert [e][..0] == [];
    UserCountAppend(h[..k], h[k..]);
    assert h[..k] + h[k..] == h;
  }

  /** A User entry raises the count by exactly one. */
  lemma UserEntryCounted(h: seq<ChatEntry>, message: string)
    ensures UserCount(h + [UserEntry(message)]) == UserCount(h) + 1
  {
  }

  /** The tier never drops as the user-message count grows. */
  lemma TierMonotone(h1: seq<ChatEntry>, h2: seq<ChatEntry>)
    requires UserCount(h1) <= UserCount(h2)
    ensures TierRank(FeedbackMessage(h1)) <= TierRank(FeedbackMessage(h2))
  {
  }

  /** Exactly one tier applies to every history. */
  lemma TiersPartition(h: seq<ChatEntry>)
    ensures FeedbackMessage(h) in {ShyMessage, BalancedMessage, EngagingMessage}
    ensures ShyMessage != BalancedMessage && BalancedMessage != EngagingMessage && ShyMessage != EngagingMessage
  {
  }

  /** Labels outside the table, the capitalised "Happy" and the detector's own
      "neutral" and "error" among them, give the default tone message. */
  lemma UnmatchedLabelsGetDefault()
    ensures EmotionFeedback("Happy") == DefaultFeedback
    ensures EmotionFeedback("neutral") == DefaultFeedback
    ensures EmotionFeedback("error") == DefaultFeedback
  {
  }
}
