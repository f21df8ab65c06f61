# Dating-avatar rehearsal app: emotion readings, chat state and feedback

The application lets a user chat with an avatar. An emotion-analysis service is
polled with text (or sent a voice recording); its reply is read into an emotion
label; the label drives the avatar's replies; and when the date ends a feedback
panel grades the conversation. This project models, in Dafny, the decision
rules and state updates of that flow:

- `Feedback` — the two rules of the feedback panel: the engagement tier from
  the number of `'User'` entries, and the tone message from the final label.
- `Hume` — the reply of the emotion-analysis call as a value (a thrown error,
  or a status with a decoded body), and the label expression
  `data?.emotions[0]?.name || 'neutral'` shared by the text components.
- `TextApp` — `src/App.tsx`: analysis that never throws, the templated avatar
  reply, and the history/emotion/feedback-flag state as a class.
- `DateApp` — `date/src/App.tsx`: the avatar reply table with its fallback,
  and the same state, with the reply delivered by a separate timer event.
- `ChatInput` — `src/components/ChatInterface.tsx`: the draft and the
  submit guard, with `trim` written out.
- `Detector` — `src/components/EmotionDetector.tsx`: the `detectedEmotion`
  display and the callback. `date/src/components/EmotionDetector.tsx` is the
  same code apart from one request header, so the same class models both.
- `Voice` — `src/components/VoiceInteraction.tsx`: the recording state
  machine with its devices as flags, the chunk buffer, the one submission per
  stop, and the reading of the upload's reply.
- `EmotionRoute` — `pages/api/emotion.ts`: the method dispatch.
- `ViteProxy` — `vite.config.ts`: the proxy's path rewrite.
- `Common` — an option type, the chat entry, the count of a speaker's entries
  in a history, and two string utilities.

Asynchronous handlers that change state before an `await` or a timer are
split there into two events, so that other events may run in between; a ghost
record of the second halves still to come lets each run once, and only after
its first half. `startRecording` changes nothing before its `await`, so it is
one event, the settling of its device request; two overlapping starts are two
such events. Nothing in the code orders overlapping requests, and the model
does not either.

Facts about the code that the model keeps:

- The label is the first entry's `name`; no score is read.
- Each reply is applied when it arrives; a late reply can overwrite a newer one.
- History and emotion still change after `endDate`; nothing rejects them.
- Nothing marks a recording as busy: `startRecording` has no guard, and a second
  start while the first still records overwrites its references, so the first
  stream, audio context and recorder are never released.
- In `src/App.tsx` a failed analysis returns `"neutral"` and cannot be told
  apart from a real `"neutral"` reading.
- An emotion report only sets the emotion; the avatar replies on user messages.
- The unmount cleanup of the voice component never stops a recording.

## Model

| member | source | states |
|---|---|---|
| `Feedback.UserCount` | src/components/Feedback.tsx:11 | the number of User entries, never more than the history's length; its additivity and insensitivity to other entries are the lemmas below |
| `Feedback.FeedbackMessage` | src/components/Feedback.tsx:10-19 | the shy message exactly when fewer than 5 User entries, the engaging one exactly when more than 10, the balanced one exactly for 5 to 10 |
| `Feedback.TiersPartition` | src/components/Feedback.tsx:12-18 | every history gets one of the three messages, and the three are distinct |
| `Feedback.TierMonotone` | src/components/Feedback.tsx:12-18 | more User entries never give a lower tier |
| `Feedback.UserCountAppend` | src/components/Feedback.tsx:11 | the User count of a concatenation is the sum of the counts |
| `Feedback.NonUserEntriesNotCounted` | src/components/Feedback.tsx:11 | inserting an entry whose `user` is not exactly "User" anywhere in the history changes neither the count nor the message |
| `Feedback.UserEntryCounted` | src/components/Feedback.tsx:11 | appending a User entry raises the count by exactly one |
| `Feedback.EmotionFeedback` | src/components/Feedback.tsx:21-32 | "happy", "nervous", "sad" each get their own message exactly on an exact match; every other label gets the default |
| `Feedback.UnmatchedLabelsGetDefault` | src/components/Feedback.tsx:29-30 | "Happy", "neutral" and "error" get the default message |
| `Hume.FirstEntry` | src/components/VoiceInteraction.tsx:104 | `data.emotions?.[0]`: present only when `data` is an object with a non-empty list, and then its head; absent for an absent `emotions` or an empty list. For a null body line 104 throws, which `Voice.VoiceOutcome` handles before reading the first entry; `FirstEntry(NullBody)` is absent as in `data?.emotions` at src/App.tsx:32, where an absent `emotions` throws instead (stated by `Hume.ExtractLabel`) |
| `Hume.ExtractLabel` | src/App.tsx:32 | throws exactly when `emotions` is absent; otherwise the label is never empty, a non-empty name on the first entry is the label, and any label other than "neutral" is that name |
| `Hume.Settle` | src/components/EmotionDetector.tsx:15-34 | the try block throws exactly on a fetch error, an undecodable body or an absent `emotions`; otherwise it yields the extracted label |
| `Hume.LabelReadsOnlyFirstEntry` | src/components/EmotionDetector.tsx:32 | entries after the first never change the label |
| `Hume.FirstEntryWins` | date/src/components/EmotionDetector.tsx:31 | a first entry named "calm" gives "calm" whatever follows it |
| `Hume.StatusIgnored` | src/App.tsx:20-32 | the HTTP status never changes how a reply settles |
| `TextApp.AnalyzeEmotionWithHume` | src/App.tsx:18-39 | never empty; "neutral" whenever the try block throws, the extracted label otherwise |
| `TextApp.FailureIndistinguishable` | src/App.tsx:35-38 | a thrown error gives the same result as a reply naming "neutral" |
| `TextApp.AvatarLine` | src/App.tsx:50 | the label can be cut back out of the avatar line between its fixed prefix and suffix |
| `TextApp.AvatarLineInjective` | src/App.tsx:50 | different labels give different avatar lines |
| `TextApp.ExchangeCountsOnce` | src/App.tsx:43-51 | a User-then-Avatar exchange raises the engagement count by exactly one |
| `TextApp.App.constructor` | src/App.tsx:13-15 | starts with emotion "neutral", empty history, feedback mode off, nothing awaited; every later state keeps Avatar entries plus awaited analyses equal to User entries |
| `TextApp.App.PostUserMessage` | src/App.tsx:43 | appends the User entry and starts awaiting one analysis; nothing else changes |
| `TextApp.App.ApplyAnalysis` | src/App.tsx:46-51 | only while an analysis is awaited: settles one, sets the emotion to its label and appends the templated Avatar entry |
| `TextApp.App.HandleUserMessage` | src/App.tsx:42-52 | history grows by two, User then Avatar, earlier entries kept; the emotion is the label |
| `TextApp.App.SetCurrentEmotion` | src/App.tsx:63 | a detector report sets the emotion only, never the history |
| `TextApp.App.EndDate` | src/App.tsx:54 | feedback mode is on afterwards; history and emotion unchanged |
| `DateApp.GenerateAvatarResponse` | date/src/App.tsx:25-34 | the table entry for each of the five keys, the fallback for every other label, never empty |
| `DateApp.ReplyDeterminesKey` | date/src/App.tsx:26-33 | the reply identifies the key when the label is in the table, and is the fallback otherwise |
| `DateApp.ReplyIgnoresMessage` | date/src/App.tsx:25 | the user's message does not affect the reply |
| `DateApp.App.constructor` | date/src/App.tsx:9-11 | starts with emotion "neutral", empty history, feedback mode off, no timer pending; every later state keeps Avatar entries plus pending timers equal to User entries |
| `DateApp.App.HandleUserMessage` | date/src/App.tsx:14-22 | appends the User entry at once and adds exactly one pending timer, carrying the message and the emotion of that moment |
| `DateApp.App.DeliverAvatarReply` | date/src/App.tsx:18-21 | only a pending timer fires, once: it appends exactly one Avatar entry computed from its captured emotion and is removed |
| `DateApp.App.HandleEmotionDetected` | date/src/App.tsx:37-40 | sets the emotion; history and feedback flag unchanged |
| `DateApp.App.EndDate` | date/src/App.tsx:43-45 | feedback mode is on afterwards, so a second call changes nothing |
| `ChatInput.TrimStart` | src/components/ChatInterface.tsx:19 | leading white space removed: a suffix of the input, all dropped characters are white space, the first kept one is not |
| `ChatInput.TrimEnd` | src/components/ChatInterface.tsx:19 | trailing white space removed: a prefix of the input, all dropped characters are white space, the last kept one is not |
| `ChatInput.Trim` | src/components/ChatInterface.tsx:19 | a prefix of the left-trimmed draft that neither starts nor ends with white space |
| `ChatInput.Accepts` | src/components/ChatInterface.tsx:19 | an accepted draft is non-empty and input is enabled; the exact condition is `ChatInput.AcceptsIff` |
| `ChatInput.TrimEmptyIffBlank` | src/components/ChatInterface.tsx:19 | the trimmed draft is empty exactly when every character is white space |
| `ChatInput.AcceptsIff` | src/components/ChatInterface.tsx:19 | a draft is accepted exactly when input is enabled and it has a non-white-space character |
| `ChatInput.ChatInterface.constructor` | src/components/ChatInterface.tsx:10-15 | empty draft, `disabled` as passed |
| `ChatInput.ChatInterface.WithDefaults` | src/components/ChatInterface.tsx:13 | without the prop, `disabled` is false |
| `ChatInput.ChatInterface.Edit` | src/components/ChatInterface.tsx:51 | the draft becomes the field's value |
| `ChatInput.ChatInterface.HandleSubmit` | src/components/ChatInterface.tsx:17-23 | the callback is called once, with the untrimmed draft, exactly when the guard accepts, and the draft is then cleared; otherwise it is kept |
| `Detector.EmotionDetector.constructor` | src/components/EmotionDetector.tsx:12 | `detectedEmotion` starts as "neutral" |
| `Detector.EmotionDetector.AnalyzeEmotion` | src/components/EmotionDetector.tsx:14-39 | on success the display and the one callback get the same non-empty label; on a throw the display shows "error" and nothing is called |
| `Detector.EmotionDetector.Tick` | src/components/EmotionDetector.tsx:41-44 | every tick analyses "This is a test message" |
| `Detector.MissingVersusEmptyEmotions` | date/src/components/EmotionDetector.tsx:28-37 | an absent `emotions` field throws (display "error"); an empty list gives "neutral" |
| `Common.DecimalRoundTrip` | src/components/VoiceInteraction.tsx:98 | the status written into the HTTP error text reads back as the same number |
| `Common.DecimalInjective` | src/components/VoiceInteraction.tsx:98 | different statuses give different texts |
| `Voice.Combine` | src/components/VoiceInteraction.tsx:45 | `new Blob(chunks)`: empty exactly when every chunk is empty, and ends with the last chunk's bytes |
| `Voice.Buffered` | src/components/VoiceInteraction.tsx:38-42 | the buffer holds only non-empty chunks and no more chunks than arrived |
| `Voice.BufferedStep` | src/components/VoiceInteraction.tsx:38-42 | each arrival extends the buffer at its end, by itself or by nothing |
| `Voice.BufferedKeepsAllBytes` | src/components/VoiceInteraction.tsx:36-47 | the combined payload holds every arrived byte in order, the same as combining all arrivals |
| `Voice.IsOk` | src/components/VoiceInteraction.tsx:97 | `response.ok` holds exactly for the 2xx class: three decimal digits, the first a 2 |
| `Voice.HttpErrorText` | src/components/VoiceInteraction.tsx:98 | the error text is the fixed prefix followed by a non-empty run of decimal digits |
| `Voice.VoiceOutcome` | src/components/VoiceInteraction.tsx:87-111 | the callback gets the first entry's name exactly when the reply is ok and has a first entry; a throw, a non-ok status, an undecodable body or a null body is a failure with its own text; an ok object body without a first entry, and only that, reports nothing and sets no error |
| `Voice.HttpErrorNamesStatus` | src/components/VoiceInteraction.tsx:97-99 | the HTTP error text is the fixed prefix followed by the status in decimal |
| `Voice.ReadersDisagree` | src/components/VoiceInteraction.tsx:97-105 | a 500 reply that the text reader accepts fails here; an empty name passes here where the text reader gives "neutral" |
| `Voice.RouteReply` | pages/api/emotion.ts:1-8 | the route's response reaches the upload with its own status, and its JSON body is an object without `emotions` |
| `Voice.LocalRouteNeverDetects` | src/components/VoiceInteraction.tsx:92-106 | against pages/api/emotion.ts the POST answer has no `emotions`, so nothing is reported; other methods fail with status 405 |
| `Voice.VoiceInteraction.constructor` | src/components/VoiceInteraction.tsx:9-16 | not recording, no error, no recorder, nothing held, leaked or uploading |
| `Voice.VoiceInteraction.StartRecording` | src/components/VoiceInteraction.tsx:18-56 | success: recording with an empty buffer and fresh devices held, the old error kept, and a still-live earlier stream counted as leaked; failure: only the error, "Error accessing microphone: " + err |
| `Voice.VoiceInteraction.DataAvailable` | src/components/VoiceInteraction.tsx:38-42 | a chunk is appended exactly when its size is positive |
| `Voice.VoiceInteraction.StopRecording` | src/components/VoiceInteraction.tsx:58-75 | acts exactly when a recorder exists and recording is on: recording off, stop requested, the referenced tracks and context released, leaked ones untouched; otherwise nothing changes |
| `Voice.VoiceInteraction.RecorderStopped` | src/components/VoiceInteraction.tsx:44-47 | one payload per requested stop, equal to all buffered chunks combined, and one more upload awaiting its reply |
| `Voice.VoiceInteraction.HandleVoiceReply` | src/components/VoiceInteraction.tsx:87-111 | only for an upload awaiting its reply, which it settles: a failure sets "Error analyzing voice: " + its text and calls nothing; otherwise the error is kept |
| `EmotionRoute.Handler` | pages/api/emotion.ts:1-8 | POST gets 200 with `{message: 'Emotion route is working!'}`; any other method gets 405, header `Allow: ['POST']`, and a body naming the method |
| `EmotionRoute.BodyIgnored` | pages/api/emotion.ts:1-8 | the request body never changes the response |
| `EmotionRoute.RefusalsDistinguishMethods` | pages/api/emotion.ts:5-6 | two different refused methods get different responses |
| `ViteProxy.Rewrite` | vite.config.ts:11 | the result is a suffix of the path; a leading `/api/hume` is removed, any other path is returned unchanged |
| `ViteProxy.StripsPrefix` | vite.config.ts:11 | `/api/hume` + rest becomes rest |
| `ViteProxy.OnlyLeadingOccurrence` | vite.config.ts:11 | a second `/api/hume` right after the first stays |
| `ViteProxy.NotIdempotent` | vite.config.ts:11 | `/api/hume/api/hume/x` becomes `/api/hume/x`, and a second pass gives `/x` |
| `ViteProxy.NoSegmentBoundary` | vite.config.ts:11 | `/api/humeX` becomes `X` |

## Left out

- The network: `fetch`, URLs, request headers, the `configId`/`apiKey` fallbacks and the JSON decoding. Each call is an input value (`Hume.Reply`).
- The remote emotion service and the Express proxy `src/api/humeProxy.js`: humeProxy.js is not part of this model.
- Timers: the 5000 ms interval and the 1000 ms timeout are discrete events (`Tick`, `DeliverAvatarReply`); their timing and interleaving are not modelled.
- The audio level meter (`updateAudioLevel`, `requestAnimationFrame`, the analyser node): floating-point averaging for display only.
- The voice component's unmount cleanup: it captures the first `isRecording` (false) and never stops a recording, so there is no operation for it.
- Voice.VoiceInteraction.StartRecording: a failure after the stream is acquired leaves the stream and context references assigned and unreleased in the code; the model changes only the error message.
- Voice.VoiceInteraction.StartRecording: the model keeps one chunk buffer, so a recording started before the previous recorder's stop event arrives drops that earlier submission, which the code would still send.
- Voice.NullDataError: the text of the TypeError on a null body is the V8 wording; other engines word it differently.
- Hume.Entry: entry names are strings or absent; non-string JSON names (numbers, objects) are not modelled.
- ChatInput.IsSpace: ASCII white space only; JavaScript's `trim` also removes Unicode space separators and line terminators.
- DateApp.GenerateAvatarResponse: the table is a five-key map; keys inherited from the JavaScript object prototype (such as "constructor") are not modelled.
- DateApp.App.HandleUserMessage: the closure captures the emotion of the render that created the handler; the model takes the emotion at the time of the call.
- EmotionRoute.Handler: headers the framework adds itself (such as the JSON content type) are not modelled.
- Detector.EmotionDetector.AnalyzeEmotion: the analysed text only forms the request, which is not modelled.
- Rendering, styling, icons, `date/src/components/Avatar.tsx`, the rating buttons and console logging.
