/** The polling emotion detector of src/components/EmotionDetector.tsx. The copy
    in date/src/components/EmotionDetector.tsx differs from it only in one
    request header, which this model does not carry, so this class models both.

    The 5-second interval is not modelled as time: each firing is one call of
    `Tick`, given the reply its request settles to. */
module Detector {
  import opened Common
  import opened Hume

  /** The text every tick sends for analysis. */
  const TickText: string := "This is a test message"

  /** What the display shows after a failed analysis. */
  const ErrorLabel: string := "error"

  class EmotionDetector {
    /** The `detectedEmotion` state shown by the component. */
    var detectedEmotion: string

    constructor ()
      ensures detectedEmotion == Neutral
    {
      detectedEmotion := Neutral;
    }

    /** `analyzeEmotion(text)`, given the reply of its request. `reported` is the
        argument `onEmotionDetected` is called with, `None` when it is not
        called. On success the display and the callback get the same label; a
        throw anywhere in the `try` block shows "error" and calls nothing. */
    method AnalyzeEmotion(text: string, reply: Reply) returns (reported: Option<string>)
      modifies this
      ensures reported == Settle(reply)
      ensures reported.Some? ==> detectedEmotion == reported.value && reported.value != ""
      ensures reported.None? ==> detectedEmotion == ErrorLabel
    {
      reported := Settle(reply);
      if reported.Some? {
        detectedEmotion := reported.value;
      } else {
        detectedEmotion := ErrorLabel;
      }
    }

    /** One firing of the interval: analyses the fixed test text. */
    method Tick(reply: Reply) returns (sentText: string, reported: Option<string>)
      modifies this
      ensures sentText == TickText
      ensures reported == Settle(reply)
      ensures detectedEmotion == if reported.Some? then reported.value else ErrorLabel
    {
      sentText := TickText;
      reported := AnalyzeEmotion(sentText, reply);
    }
  }

  /** A reply whose `emotions` field is missing throws, and shows "error"; an
      empty list does not, and shows "neutral". */
  lemma MissingVersusEmptyEmotions(status: nat)
    ensures Settle(Received(status, Json(Object(None)))) == None
    ensures Settle(Received(status, Json(Object(Some([]))))) == Some(Neutral)
  {
  }
}
