/** The voice recorder of src/components/VoiceInteraction.tsx, with the browser's
    devices abstracted to flags: whether a recorder exists, whether the
    microphone stream's tracks are live, whether the audio context is open, and
    whether a stop has been requested whose `onstop` event is still to come.

    Device acquisition, recorder events and the upload's reply are inputs:
    `StartRecording` is given the outcome of acquiring the devices,
    `DataAvailable` and `RecorderStopped` are the recorder's events, and
    `HandleVoiceReply` is given the reply of the upload `onstop` makes. */
module Voice {
  import opened Common
  import opened Hume
  import EmotionRoute

  /** A recorded chunk (a Blob); its `size` is its byte count. */
  datatype Chunk = Chunk(bytes: seq<bv8>)

  /** `new Blob(chunks)`: the chunks' bytes, concatenated in order. */
  function Combine(chunks: seq<Chunk>): (payload: seq<bv8>)
    ensures payload == [] <==> forall i :: 0 <= i < |chunks| ==> chunks[i].bytes == []
    ensures chunks != [] ==>
      |chunks[|chunks| - 1].bytes| <= |payload| && payload[|payload| - |chunks[|chunks| - 1].bytes|..] == chunks[|chunks| - 1].bytes
  {
    if chunks == [] then [] else Combine(chunks[..|chunks| - 1]) + chunks[|chunks| - 1].bytes
  }

  /** The buffer a run of `ondataavailable` events leaves: the non-empty chunks,
      in arrival order. */
  function Buffered(arrivals: seq<Chunk>): (buffer: seq<Chunk>)
    ensures forall i :: 0 <= i < |buffer| ==> |buffer[i].bytes| > 0
    ensures |buffer| <= |arrivals|
  {
    if arrivals == [] then []
    else
      var last := arrivals[|arrivals| - 1];
      Buffered(arrivals[..|arrivals| - 1]) + (if |last.bytes| > 0 then [last] else [])
  }

  /** Dropping the empty chunks loses no audio: the payload holds every byte
      that arrived, in order. */
  lemma {:induction false} BufferedKeepsAllBytes(arrivals: seq<Chunk>)
    ensures Combine(Buffered(arrivals)) == Combine(arrivals)
  {
    if arrivals != [] {
      var init, last := arrivals[..|arrivals| - 1], arrivals[|arrivals| - 1];
      BufferedKeepsAllBytes(init);
      if |last.bytes| > 0 {
        assert Buffered(arrivals) == Buffered(init) + [last];
        assert (Buffered(init) + [last])[..|Buffered(init)|] == Buffered(init);
      } else {
        assert Buffered(arrivals) == Buffered(init);
        assert Combine(arrivals) == Combine(init) + [];
      }
    }
  }

  /** Handling one more arrival extends the buffer by that arrival's share. */
  lemma BufferedStep(arrivals: seq<Chunk>, c: Chunk)
    ensures Buffered(arrivals + [c]) == Buffered(arrivals) + Buffered([c])
  {
  }

  /** What acquiring the microphone, the audio context and the recorder gave. */
  datatype DeviceOutcome = Granted | DeviceFailed(err: string)

  const MicErrorPrefix: string := "Error accessing microphone: "
  const VoiceErrorPrefix: string := "Error analyzing voice: "
  const HttpErrorPrefix: string := "Error: HTTP error! status: "

  /** `String(err)` of the TypeError `data.emotions` raises when `data` is null
      (the V8 wording). */
  const NullDataError: string := "TypeError: Cannot read properties of null (reading 'emotions')"

  /** How `sendAudioToHume` ends: the callback is called with the first entry's
      `name` (which may be undefined), or nothing is called, or the `catch`
      block runs with `String(err)` = `err`. */
  datatype VoiceResult = Detected(name: Option<string>) | NoEmotion | Failed(err: string)

  /** `response.ok`: the status is in the 2xx class, the three-digit numbers
      whose first digit is 2. */
  predicate IsOk(status: nat)
    ensures IsOk(status) <==> |Decimal(status)| == 3 && Decimal(status)[0] == '2'
  {
    DecimalThreeDigits(status);
    200 <= status <= 299
  }

  /** `String(new Error(`HTTP error! status: ${status}`))`: the fixed prefix and
      then a non-empty run of decimal digits. */
  function HttpErrorText(status: nat): (text: string)
    ensures |text| > |HttpErrorPrefix| && text[..|HttpErrorPrefix|] == HttpErrorPrefix
    ensures forall i :: |HttpErrorPrefix| <= i < |text| ==> IsDigit(text[i])
  {
    HttpErrorPrefix + Decimal(status)
  }

  /** The status can be read back from the error text. */
  lemma HttpErrorNamesStatus(status: nat)
    ensures HttpErrorText(status)[..|HttpErrorPrefix|] == HttpErrorPrefix
    ensures DigitsValue(HttpErrorText(status)[|HttpErrorPrefix|..]) == status
  {
    assert HttpErrorText(status)[|HttpErrorPrefix|..] == Decimal(status);
    DecimalRoundTrip(status);
  }

  /** The body of `sendAudioToHume` after the upload settles. Unlike the text
      components it checks `response.ok`, and it guards only on `emotions?.[0]`
      being present: an empty or absent name is passed on as it is. */
  function VoiceOutcome(reply: Reply): (o: VoiceResult)
    ensures o.Detected? <==>
      reply.Received? && IsOk(reply.status) && reply.body.Json? && FirstEntry(reply.body.data).Some?
    ensures o.Detected? ==> o.name == FirstEntry(reply.body.data).value.name
    ensures reply.Thrown? ==> o == Failed(reply.err)
    ensures reply.Received? && !IsOk(reply.status) ==> o == Failed(HttpErrorText(reply.status))
    ensures o.NoEmotion? <==>
      reply.Received? && IsOk(reply.status) && reply.body.Json? && reply.body.data.Object?
      && FirstEntry(reply.body.data).None?
    ensures reply.Received? && IsOk(reply.status) && reply.body.Unparsable? ==> o == Failed(reply.body.err)
    ensures reply.Received? && IsOk(reply.status) && reply.body == Json(NullBody) ==> o == Failed(NullDataError)
  {
    match reply
    case Thrown(err) => Failed(err)
    case Received(status, parsed) =>
      if !IsOk(status) then Failed(HttpErrorText(status))
      else match parsed
        case Unparsable(err) => Failed(err)
        case Json(NullBody) => Failed(NullDataError)
        case Json(Object(None)) => NoEmotion
        case Json(Object(Some(es))) =>
          if |es| > 0 && es[0].Some? then Detected(es[0].value.name) else NoEmotion
  }

  /** The voice and text readers disagree on the same reply: the voice reader
      rejects an error status the text reader ignores, and passes on an empty
      name the text reader replaces with "neutral". */
  lemma ReadersDisagree(name: string)
    requires name != ""
    ensures var good := Json(Object(Some([Some(Entry(Some(name)))])));
      VoiceOutcome(Received(500, good)).Failed? && Settle(Received(500, good)) == Some(name)
    ensures var blank := Json(Object(Some([Some(Entry(Some("")))])));
      VoiceOutcome(Received(200, blank)) == Detected(Some("")) && Settle(Received(200, blank)) == Some(Neutral)
  {
  }

  /** How the upload sees a response of the `/api/emotion` route of
      pages/api/emotion.ts: the JSON body `{ message }` decodes to an object
      without `emotions`; a text body fails to decode with the engine's
      `parseError`. */
  function RouteReply(res: EmotionRoute.Response, parseError: string): (reply: Reply)
    ensures reply.Received? && reply.status == res.status
    ensures reply.body.Json? ==> reply.body.data == Object(None)
  {
    match res.body
    case JsonMessage(_) => Received(res.status, Json(Object(None)))
    case Text(_) => Received(res.status, Unparsable(parseError))
  }

  /** Against the route of pages/api/emotion.ts the upload can never report an
      emotion: POST is answered without `emotions`, any other method is an
      HTTP 405 error. */
  lemma LocalRouteNeverDetects(verb: string, body: string, parseError: string)
    ensures VoiceOutcome(RouteReply(EmotionRoute.Handler(EmotionRoute.Request(verb, body)), parseError))
         == if verb == "POST" then NoEmotion else Failed(HttpErrorPrefix + "405")
  {
  }

  class VoiceInteraction {
    var isRecording: bool
    var error: string
    /** `mediaRecorderRef.current` is set. */
    var hasRecorder: bool
    /** The tracks of the stream `streamRef` holds are live. */
    var streamLive: bool
    /** The audio context `audioContextRef` holds is open. */
    var contextOpen: bool
    /** `stop()` was called and the recorder's `onstop` has not yet run. */
    var stopPending: bool
    /** The `chunks` array of the current recorder. */
    var chunks: seq<Chunk>
    /** Every chunk the current recorder has delivered, empty ones included. */
    ghost var arrivals: seq<Chunk>
    /** Live streams, contexts and recorders whose references a later successful
        `startRecording` overwrote: nothing in the component reaches them again,
        so they are never released. */
    ghost var leaked: nat
    /** Uploads `onstop` has sent whose reply has not been handled yet. */
    ghost var uploads: nat

    ghost predicate Valid()
      reads this
    {
      && (isRecording ==> hasRecorder && streamLive && contextOpen && !stopPending)
      && (stopPending ==> hasRecorder)
      && streamLive == contextOpen
      && chunks == Buffered(arrivals)
    }

    constructor ()
      ensures Valid()
      ensures !isRecording && error == "" && !hasRecorder && !stopPending
      ensures !streamLive && !contextOpen && chunks == [] && leaked == 0 && uploads == 0
    {
      isRecording, error, hasRecorder := false, "", false;
      streamLive, contextOpen, stopPending := false, false, false;
      chunks, arrivals, leaked, uploads := [], [], 0, 0;
    }

    /** `startRecording` once its device request settles (nothing changes
        before that `await`). On success a fresh recorder with an empty buffer
        and `isRecording` set (an earlier error message stays); there is no
        guard, so a start while the refs still hold a live stream overwrites
        them and leaks that stream, context and recorder. On failure only the
        error message changes. */
    method StartRecording(device: DeviceOutcome)
      requires Valid()
      modifies this
      ensures Valid()
      ensures device.Granted? ==>
        && isRecording && hasRecorder && streamLive && contextOpen && !stopPending
        && chunks == [] && arrivals == [] && error == old(error)
        && leaked == old(leaked) + (if old(streamLive) then 1 else 0)
      ensures device.DeviceFailed? ==>
        && error == MicErrorPrefix + device.err
        && isRecording == old(isRecording) && hasRecorder == old(hasRecorder)
        && streamLive == old(streamLive) && contextOpen == old(contextOpen)
        && stopPending == old(stopPending) && chunks == old(chunks) && arrivals == old(arrivals)
        && leaked == old(leaked)
      ensures uploads == old(uploads)
    {
      match device
      case Granted =>
        if streamLive {
          leaked := leaked + 1;
        }
        streamLive, contextOpen, hasRecorder := true, true, true;
        chunks, arrivals, stopPending := [], [], false;
        isRecording := true;
      case DeviceFailed(err) =>
        error := MicErrorPrefix + err;
    }

    /** `ondataavailable`: only a non-empty chunk is appended. */
    method DataAvailable(c: Chunk)
      requires Valid() && hasRecorder
      modifies this
      ensures Valid()
      ensures chunks == old(chunks) + (if |c.bytes| > 0 then [c] else [])
      ensures arrivals == old(arrivals) + [c]
      ensures isRecording == old(isRecording) && error == old(error) && hasRecorder == old(hasRecorder)
      ensures streamLive == old(streamLive) && contextOpen == old(contextOpen) && stopPending == old(stopPending)
      ensures leaked == old(leaked) && uploads == old(uploads)
    {
      BufferedStep(arrivals, c);
      arrivals := arrivals + [c];
      if |c.bytes| > 0 {
        chunks := chunks + [c];
      }
    }

    /** `stopRecording`: does nothing unless a recorder exists and recording is
        on; then stops the recorder, clears `isRecording`, and releases the
        stream's tracks and the audio context. */
    method StopRecording() returns (stopped: bool)
      requires Valid()
      modifies this
      ensures Valid()
      ensures stopped == (old(hasRecorder) && old(isRecording))
      ensures stopped ==> !isRecording && stopPending && !streamLive && !contextOpen
      ensures !stopped ==>
        && isRecording == old(isRecording) && stopPending == old(stopPending)
        && streamLive == old(streamLive) && contextOpen == old(contextOpen)
      ensures hasRecorder == old(hasRecorder) && error == old(error) && chunks == old(chunks)
      ensures arrivals == old(arrivals) && leaked == old(leaked) && uploads == old(uploads)
    {
      stopped := hasRecorder && isRecording;
      if stopped {
        stopPending := true;
        isRecording := false;
        streamLive := false;
        contextOpen := false;
      }
    }

    /** The recorder's `onstop`: all buffered chunks, combined, are submitted
        once, as one more upload awaiting its reply; the payload is every byte
        that arrived, in order. */
    method RecorderStopped() returns (payload: seq<bv8>)
      requires Valid() && stopPending
      modifies this
      ensures Valid()
      ensures payload == Combine(chunks) && payload == Combine(arrivals)
      ensures !stopPending
      ensures isRecording == old(isRecording) && error == old(error) && hasRecorder == old(hasRecorder)
      ensures streamLive == old(streamLive) && contextOpen == old(contextOpen)
      ensures chunks == old(chunks) && arrivals == old(arrivals) && leaked == old(leaked)
      ensures uploads == old(uploads) + 1
    {
      BufferedKeepsAllBytes(arrivals);
      payload := Combine(chunks);
      stopPending := false;
      uploads := uploads + 1;
    }

    /** `sendAudioToHume` once the reply to one sent upload settles: a failure
        sets the error message and calls nothing; `Detected` is the callback's
        one call. */
    method HandleVoiceReply(reply: Reply) returns (outcome: VoiceResult)
      requires Valid() && uploads > 0
      modifies this
      ensures Valid()
      ensures outcome == VoiceOutcome(reply)
      ensures outcome.Failed? ==> error == VoiceErrorPrefix + outcome.err
      ensures !outcome.Failed? ==> error == old(error)
      ensures isRecording == old(isRecording) && hasRecorder == old(hasRecorder) && stopPending == old(stopPending)
      ensures streamLive == old(streamLive) && contextOpen == old(contextOpen) && chunks == old(chunks)
      ensures arrivals == old(arrivals) && leaked == old(leaked) && uploads == old(uploads) - 1
    {
      outcome := VoiceOutcome(reply);
      if outcome.Failed? {
        error := VoiceErrorPrefix + outcome.err;
      }
      uploads := uploads - 1;
    }
  }
}
