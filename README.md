# Voice transcription client — Dafny model

This is a model of a mobile app's client logic. The app records a voice memo and uploads it to a self-hosted service. The service transcribes the memo and summarises it. The app then lets the user ask follow-up questions about that summary. The UI text of the app is in Spanish, and the model keeps those strings verbatim.

The model covers three screens and components:

- **The home screen**, written as `HomeScreen.App` over `HomeHistory`:
  - the host field and the connection status;
  - the health probe, with its four outcomes (ok, not ok, timed out, network error) and their three notices;
  - the upload of a recording with its optimistic history update. A loading placeholder goes in front of the list. On success it is replaced by id, with a fallback text for every missing field. On failure it is filtered out by id;
  - the rule for opening an entry's detail screen;
  - the text that the copy button produces.
- **The detail screen**, written as `DetailScreen.TranscriptionDetail` over `Conversation`:
  - the question guard, which rejects blank questions and entries without a summary;
  - the loading pair that a question appends;
  - the context string, built from the completed earlier pairs before the new pair was appended;
  - the prompt;
  - answering or removing the loading pairs, which are matched by question text.
- **The record button**, written as `Recording.RecordButton` over `RecordTime`:
  - the connection guard on starting;
  - the check that the recorder URI is non-empty before upload;
  - the seconds counter, reset on start and incremented once per interval tick;
  - the `mm:ss` label;
  - the tap, which stops or starts the recording.

Each handler that awaits the network is split into two methods at its await. The `Begin…` method runs up to the await. The `Finish…` method receives the response, modelled as an outcome datatype in `Service`.

The two screens update their lists in different ways:
- The home screen computes the final list from the snapshot taken before the await. `FinishUpload` therefore takes that snapshot as a parameter.
- The detail screen uses functional state updaters. `FinishAsk` therefore applies its change to the conversation as it is when the response arrives.

Storage is modelled only as the value last written under each key. Requests sent to the service are recorded as a log of `Service.Request` values, and toasts and alerts as logs of strings.

The text helpers live in `Strings`. They cover:
- the whitespace set that JavaScript `trim` removes: the ECMAScript WhiteSpace and LineTerminator characters, with the space separators listed by code point;
- the `||` fallback on a possibly missing or empty string;
- `Number.prototype.toString` on non-negative integers;
- `padStart`.

## Model

| member | source | states |
|---|---|---|
| HomeHistory.WithPlaceholder | app/index.tsx:124-132 | defines the list after the first step of an upload: the placeholder, then the history as it was; its fields are stated by `PlaceholderPrepended` |
| HomeHistory.PlaceholderPrepended | app/index.tsx:124-132 | the placeholder goes at the head of the list: it is loading, has the new id and timestamp, and reads "Transcribiendo..." with an empty summary; the old list follows unchanged |
| HomeHistory.CompletedItem | app/index.tsx:151-157 | the completed entry keeps the placeholder's id and timestamp and is not loading; each text is the response field unless that field is missing or empty, in which case it is the fixed notice; so both texts are non-empty |
| HomeHistory.ReplaceById | app/index.tsx:159-161 | same length; every entry with the id becomes the completed entry; every other entry is unchanged at its position |
| HomeHistory.RemoveById | app/index.tsx:170 | an entry survives exactly when it was present and has another id; no entry with the id is left; nothing is added; a list without the id is returned unchanged |
| HomeHistory.ReconcileUpload | app/index.tsx:150-171 | the list an upload's outcome leaves, from the snapshot: on success same length and no entry with the id still loading; on failure no entry with the id and nothing added |
| HomeHistory.RemoveByIdConcat | app/index.tsx:170 | filtering by id distributes over concatenation, so survivors keep their relative order |
| HomeHistory.RemoveAfterReplace | app/index.tsx:159-170 | removing the id after replacing it gives the same list as removing it straight away |
| HomeHistory.UploadSuccessInPlace | app/index.tsx:124-162 | for an id not already in the history, a successful upload leaves the completed entry at the head followed by the untouched history |
| HomeHistory.UploadFailureLeavesNoTrace | app/index.tsx:124-171 | a failed upload leaves no entry with its id; a history that never had the id is restored exactly |
| HomeHistory.OutcomesAgreeAwayFromId | app/index.tsx:159-171 | apart from the entries with the upload's id, success and failure leave the same entries in the same order |
| HomeHistory.OverlappingUploadsInterfere | app/index.tsx:131-171 | two successful uploads that overlap are not isolated: the first one to finish drops the second one's placeholder; the second brings back the first one's placeholder, still loading, and loses the first result |
| HomeHistory.CanOpenDetail | app/index.tsx:228-229 | defines when an entry opens the detail screen: connected and not loading; used by `NavigationAfterUpload` |
| HomeHistory.NavigationAfterUpload | app/index.tsx:228-229 | the placeholder never opens the detail screen; the completed entry does exactly while connected; while not connected no entry does |
| HomeHistory.CopyText | app/index.tsx:252 | defines the copied text: the original label, the transcription, the processed label, the summary; read back by `CopyTextRoundTrip` |
| HomeHistory.CopyTextRoundTrip | app/index.tsx:252 | for a one-line transcription, the copied text splits back into the transcription and the summary |
| HomeScreen.App.constructor | app/index.tsx:33-51 | at launch the host is the stored one, or empty; the history is the stored one, or empty; the status is disconnected and the server section is expanded |
| HomeScreen.App.EditServerIp | app/index.tsx:189-196 | the host field takes the new text unless a probe is in flight; nothing else changes |
| HomeScreen.App.ToggleServerSection | app/index.tsx:58-60 | flips whether the server section is expanded and changes nothing else |
| HomeScreen.ConnectNotice | app/index.tsx:87-101 | the connected notice shows exactly on an ok response, the timeout notice exactly on an aborted probe, and the generic connection-error notice on a not-ok response or a network error |
| Service.Endpoint | app/index.tsx:81 | defines every service address as `http://`, the host, `:3000`, then the path; the three paths are `/health`, `/transcribe-and-process` (app/index.tsx:143) and `/process-text` (app/detail.tsx:124) |
| HomeScreen.App.BeginConnect | app/index.tsx:70-83 | an empty host only adds the notice to enter an IP and sends nothing; otherwise the status becomes connecting and one health request goes to `http://<host>:3000/health` |
| HomeScreen.App.FinishConnect | app/index.tsx:85-102 | an ok response connects, saves the host, collapses the section and shows the connected notice; any other outcome disconnects and shows the timeout or the generic connection notice |
| HomeScreen.App.HandleConnect | app/index.tsx:70-103 | the whole handler: with an empty host only the notice, leaving status, requests, stored host and server section unchanged; otherwise one probe, and the status ends connected exactly on an ok response and disconnected otherwise, never left connecting; the host is saved and the section collapsed only on success |
| HomeScreen.App.PressConnect | app/index.tsx:197 | the button does nothing while a probe is in flight; a press never leaves the status connecting, and ends connected only after an ok response to a non-empty host, or if the status already was connected |
| HomeScreen.AudioFileName | app/index.tsx:137 | defines the uploaded file's name as `audio-`, the id, then `.m4a` |
| HomeScreen.App.BeginUpload | app/index.tsx:120-146 | the placeholder is prepended, and the returned snapshot is that list; one upload request goes out with file name `audio-<id>.m4a`, type `audio/m4a` and the summary prompt |
| HomeScreen.UploadErrorMessage | app/index.tsx:164-168 | a rejected upload's message is the server's error text when that is non-empty, and otherwise the fallback "Error en el servidor"; a thrown error keeps its own message |
| HomeScreen.RejectedUploadNoticeShowsError | app/index.tsx:164-168 | a rejection with a non-empty error text, such as "falló", produces the notice "Error en el proceso: " followed by exactly that text |
| HomeScreen.App.FinishUpload | app/index.tsx:148-172 | the list becomes the snapshot, with the id replaced by the completed entry on success or filtered out on failure; the list is stored only on success; a failure adds the notice "Error en el proceso: " followed by the server's error or the fallback |
| HomeScreen.App.SendAudioFile | app/index.tsx:120-173 | the whole upload with nothing in between: for a fresh id, success leaves the completed entry in front of the unchanged history, and failure restores the history; the history is stored only on success; a failure adds the prefixed error notice; exactly one upload request, with the file name, type and summary prompt |
| Strings.TrimStart | app/detail.tsx:101 | the result is a suffix of the input; everything dropped is whitespace; the result does not start with whitespace |
| Strings.TrimEnd | app/detail.tsx:101 | the result is a prefix of the input; everything dropped is whitespace; the result does not end with whitespace |
| Strings.Trim | app/detail.tsx:101 | defines `trim` as both trims in turn; its emptiness is stated by `TrimEmptyIffBlank` |
| Strings.OrElse | app/index.tsx:154-155 | the `or` fallback of JavaScript on a string: a present non-empty value is returned as it is, and a missing or empty one is replaced by the fallback; a non-empty fallback gives a non-empty result |
| Strings.TrimEmptyIffBlank | app/detail.tsx:101 | a trimmed string is empty exactly when every character is whitespace |
| Conversation.RejectsQuestion | app/detail.tsx:101 | defines the guard: the trimmed question is empty or the entry has no summary; characterised by `RejectsQuestionIff` |
| Conversation.RejectsQuestionIff | app/detail.tsx:101 | a question is refused exactly when it is blank or the entry has no summary |
| Conversation.AppendPending | app/detail.tsx:106 | defines the append of the loading pair; stated by `AskAppendsOnePair` |
| Conversation.AskAppendsOnePair | app/detail.tsx:106 | asking appends exactly one loading pair, with an empty answer, after the unchanged earlier pairs |
| Conversation.ContextHeader | app/detail.tsx:110 | defines the context's opening: the `CONTEXTO:` label and a line break, the summary, then a blank line |
| Conversation.AnswerText | app/detail.tsx:113 | defines how an answer prints inside the template: its text, or the word `undefined` when the response carried no processed text (app/detail.tsx:134) |
| Conversation.Turn | app/detail.tsx:113 | defines one completed pair's block: the previous-question label and question, a line break, the previous-answer label and `AnswerText` of the answer, then a line break |
| Conversation.CompletedTurns | app/detail.tsx:110-115 | defines the context's turns, one block per non-loading pair in order; checked against filter-then-join by `CompletedTurnsReference` |
| Conversation.BuildContext | app/detail.tsx:110-115 | the loop yields the header with the summary followed by the turns of the pairs that were not loading, in order; a completed pair whose answer is missing prints it as `undefined` |
| Conversation.CompletedTurnsConcat | app/detail.tsx:111-115 | the context contribution of a concatenation is the contributions of its parts, concatenated |
| Conversation.CompletedTurnsReference | app/detail.tsx:111-115 | the loop's accumulation equals the completed pairs filtered first and then joined turn by turn |
| Conversation.ContextIgnoresNewPending | app/detail.tsx:106-115 | the loading pair a question appends adds nothing to a context |
| Conversation.Prompt | app/detail.tsx:127 | defines the prompt as the question followed by the directive; stated by `PromptParts` |
| Conversation.PromptParts | app/detail.tsx:127 | the prompt is the question followed immediately by the Spanish-answer directive |
| Conversation.ResolvePending | app/detail.tsx:133-135 | same length; every loading pair with the question's text gets the answer and stops loading; every other pair is unchanged; no loading pair with that text is left |
| Conversation.RemovePending | app/detail.tsx:141 | a pair survives exactly when it was present and is not a loading pair with that text; none is left; a conversation without one is unchanged |
| Conversation.RemovePendingConcat | app/detail.tsx:141 | removal distributes over concatenation, so the kept pairs stay in order |
| Conversation.ResolveAfterAsk | app/detail.tsx:106-135 | with no earlier loading copy of the question, a success leaves the earlier pairs followed by one answered pair |
| Conversation.RemoveAfterAsk | app/detail.tsx:106-141 | with no earlier loading copy of the question, a failure restores the conversation exactly |
| Conversation.IdenticalQuestionsResolveTogether | app/detail.tsx:133-141 | two identical questions in flight are answered together by the first response; the second response then finds nothing to answer or remove |
| Conversation.QuestionsInSequence | app/detail.tsx:100-135 | two questions answered one after the other end as two completed pairs in the order asked; the second's context carries the first turn |
| DetailScreen.QuestionErrorMessage | app/detail.tsx:137-140 | a rejected question's message is the server's error text when that is non-empty, and otherwise the fallback "Error al procesar la pregunta."; a thrown error keeps its own message |
| DetailScreen.TranscriptionDetail.constructor | app/detail.tsx:79-80 | the screen opens on its entry with an empty conversation and input |
| DetailScreen.TranscriptionDetail.EditQuestion | app/detail.tsx:191-192 | the input takes the new text; the conversation is not touched |
| DetailScreen.TranscriptionDetail.BeginAsk | app/detail.tsx:100-115 | a refused question changes nothing; otherwise the loading pair is appended, the input is cleared, and the context is built from the conversation as it was before the append |
| DetailScreen.TranscriptionDetail.FinishAsk | app/detail.tsx:117-142 | with no stored host, two alerts and the loading pair is removed, with no request; otherwise one request to `/process-text` with the context and the prompt; an ok response answers the loading pairs, and a failure alerts with the server's error or the fallback and removes them |
| DetailScreen.TranscriptionDetail.HandleAskQuestion | app/detail.tsx:100-143 | the whole handler: a refused question changes nothing; an accepted one always clears the input; with no stored host, two alerts, no request, and the loading pair removed; otherwise exactly one `/process-text` request with the context of the earlier completed pairs and the prompt, then the loading pairs of that text answered on success, or removed with the prefixed error alert on failure; with no earlier loading copy, an answer adds one completed pair and any failure leaves the conversation as it was |
| Strings.NatToString | components/RecordButton.tsx:92-93 | the decimal rendering is at least one digit, all digits, with no leading zero except for zero itself |
| Strings.NatToStringRoundTrip | components/RecordButton.tsx:92-93 | the decimal rendering of a count reads back as that count |
| Strings.NatToStringLength | components/RecordButton.tsx:92-93 | a count renders as one digit exactly below 10, and as at most two digits exactly below 100 |
| Strings.PadStart | components/RecordButton.tsx:92-93 | the padded string is as long as the larger of the input and the width; it ends with the input and is filled in front |
| Strings.PaddedNatValue | components/RecordButton.tsx:92-93 | a zero-padded count is all digits and still reads as the count |
| RecordTime.FormatTime | components/RecordButton.tsx:91-95 | defines the label as padded minutes, a colon, padded seconds; its shape, round trip and length are stated by the lemmas below |
| RecordTime.FormatTimeFields | components/RecordButton.tsx:91-95 | the label is the minute digits, a colon and exactly two second digits; they read as `seconds / 60` and `seconds % 60` |
| RecordTime.FormatTimeRoundTrip | components/RecordButton.tsx:91-95 | every label reads back as the seconds it was made from |
| RecordTime.FormatTimeInjective | components/RecordButton.tsx:91-95 | different elapsed times never show the same label |
| RecordTime.FormatTimeLength | components/RecordButton.tsx:91-95 | the label has five characters exactly below 100 minutes; from 10 minutes on, its length is the digits of the minutes plus three |
| Recording.RecordButton.constructor | components/RecordButton.tsx:13-14 | the counter starts at zero, the recorder is idle and the interval is not running |
| Recording.RecordButton.Label | components/RecordButton.tsx:106-110 | while recording the label reads back as the counter; otherwise it is the invitation text |
| Recording.RecordButton.RecordingChanged | components/RecordButton.tsx:34-47 | when recording starts the counter resets to zero and the interval runs; when it stops the interval stops; the interval runs exactly while recording |
| Recording.RecordButton.Tick | components/RecordButton.tsx:38-40 | each interval tick adds one second while recording and changes nothing else |
| Recording.RecordButton.StartRecording | components/RecordButton.tsx:63-76 | when not connected, only the notice and no recorder call; otherwise prepare and then record; on success the counter restarts at zero; a failure at either step shows the start-failure notice |
| Recording.RecordButton.StopRecording | components/RecordButton.tsx:78-89 | the recorder is stopped; if that succeeds, the URI goes to the upload exactly once when it is a non-empty string; a failed stop shows only the stop-failure notice |
| Recording.RecordButton.Tap | components/RecordButton.tsx:98-101 | the button does nothing unless connected; otherwise it stops while recording and starts when idle |

## Left out

- Networking:
  - `fetch`, form data, JSON bodies and the 5-second `AbortController` timeout are not modelled.
  - Every response is an input outcome. A timed-out probe is `HealthAborted`.
  - Response JSON parsing is reduced to optional fields.
  - A response body that fails to parse counts as a failed outcome carrying its message.
- Storage:
  - `AsyncStorage` is modelled as the value last written under each key.
  - JSON serialisation of the stored history and of the route parameter is not modelled.
  - A failed storage write is not modelled. In the source it would throw into the enclosing catch block. After connecting it would flip the status back to disconnected. After an upload it would drop the completed entry.
- Permissions: the microphone permission request at launch (app/index.tsx:105-118) is a platform call and is not modelled. A refusal there shows the alert 'Permiso denegado' with a request to allow the microphone; that alert is not modelled either. The launch (app/index.tsx:50) discards the returned result, so nothing else depends on it. Recording itself never requests permission, and a denied permission appears only as a failed start outcome.
- Recorder: the recorder's internals and its audio options are not modelled; only the calls made on it and their outcomes are.
  - The effect on `recorder.isRecording` (components/RecordButton.tsx:34-47) runs inside `StartRecording` and `StopRecording`, as `RecordingChanged`. This assumes that every change of the recorder's recording state re-renders the button. The component registers no status listener of its own (components/RecordButton.tsx:32), so the assumption is about the platform recorder.
  - `Recording.RecordButton.StopRecording`: after a failed stop, the model keeps the recorder recording. The recorder's real state after a thrown `stop()` is not visible in the code.
- Logging: the `console.error` calls on a failed start or stop (components/RecordButton.tsx:73, 86) write only to the developer console and are not modelled.
- Launch: the stored host and history are read asynchronously after the first render (app/index.tsx:42-49). `HomeScreen.App.constructor` takes the state once that read is done; the moment before it, with an empty host and history, is not modelled.
- `HomeScreen.App.BeginUpload`: prepends to the history as it is at the call. In the source, the `sendAudioFile` closure the record button holds was captured at the render before the stop tap and kept across `await recorder.stop()` (components/RecordButton.tsx:80-83), so its `transcriptionHistory` and its `serverIp` can both be older than the current ones. `BeginUpload` uses the current history and the current host; that staleness is not modelled.
- Clocks: `Date.now()` and `toLocaleTimeString()` supply the upload's id and timestamp. The model takes both as parameters.
- Presentation: not modelled. This covers:
  - animations, styles and the keyboard listeners;
  - the toast's three-second auto-dismiss, since notices are kept as a log;
  - the clipboard call and its "Copiado al portapapeles" toast, since only the copied text is modelled;
  - the copy button's disabled state;
  - scrolling to the end.
- Concurrency: async work interleaves only as far as a client calls the Begin and Finish methods in some order. No scheduler is modelled. `HomeHistory.OverlappingUploadsInterfere` and `Conversation.IdenticalQuestionsResolveTogether` cover the two interleavings the code handles poorly.
- app/_layout.tsx declares only the navigation stack and is not part of this model.
- Detail screen:
  - The branch for a missing route parameter (app/detail.tsx:74-76) only renders an error text. The model gives the screen its entry directly.
  - The send button's disabled state (app/detail.tsx:194) repeats the handler's own blank check. The model keeps only the handler's check.
- Number rendering: `Number.prototype.toString` is modelled for non-negative integers only. Those are the only values the counter takes.
- Three behaviours of the code that the model keeps as they are:
  - Starting a recording does not request microphone permission; only the launch does, and apart from its refusal alert nothing depends on the result.
  - Overlapping uploads are not independent of each other (`HomeHistory.OverlappingUploadsInterfere`).
  - The question and its Spanish-answer directive go into the prompt field, not into the context.
- `HomeHistory.CopyTextRoundTrip`: stated only for transcriptions without a line break. With a line break the copied text can be ambiguous, since a transcription may itself contain the processed-text label.
- `Recording.RecordButton.Tap`: states only the branch taken, the first recorder call and the recording state. What else each branch does is stated by `StartRecording` and `StopRecording`.
- `HomeScreen.App.PressConnect`: states only the disabled case and the final status. The full effect is stated by `HandleConnect`.
- `DetailScreen.TranscriptionDetail.HandleAskQuestion`: the conversation is stated in general through `ResolvePending` and `RemovePending`, and in closed form only when no loading pair with the same text was already in flight.
