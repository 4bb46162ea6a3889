# CommuniCoach conversation screen — a Dafny model

This project models the client-side logic of the live conversation-practice screen of the
CommuniCoach front-end, plus the small stateful pieces next to it. The screen keeps one
WebSocket to the chat backend. It turns the user's speech into transcript messages, speaks
the assistant's replies aloud, and records the session in the background for upload.

Every socket, recognition, speech-synthesis, recorder and user event is a method on a class
whose fields are the screen's state. Each method names the fields it may change
(`modifies this`f`) and states their new values. A `Valid()` invariant holds across all
of them.

- `wrappers.dfy` (`Wrappers`): `Option` for `null`/`undefined`, and `Result` for calls that throw.
- `js_text.dfy` (`JsText`): the JavaScript string operations the handlers rely on.
  - `trim` and the `\s` class share one white-space set.
  - `toLowerCase`, limited to ASCII; `includes`, `startsWith` and `endsWith`.
  - The truthiness of an optional string and the `a || b || c` chain.
- `chat.dfy` (`Chat`): the data every revision shares.
  - Transcript messages with the roles `user`, `ai` and `system`.
  - Inbound frames (a `type` plus optional `content`, `text` and `message`), and a frame that does not parse.
  - The socket's ready state and the one outbound frame `{type:'message', content}`.
  - `UserFrames`: the frames that sending a transcript's user messages puts on the wire.
- `recognition.dfy` (`Recognition`): the `onresult` loop. Every revision walks the results from
  `resultIndex` and concatenates final and interim segments.
- `live_session.dfy` (`LiveSession`): the routed screen, `EverydayConversationWithRecording.js`.
  - The duplicate-connection guard, with the global `_welcomeTTSCompleted` flag as a field.
  - Welcome de-duplication and the reply, typing and close handlers.
  - Speech recognition, speech playback with pause, typed send, and end of session.
- `first_revision.dfy`, `second_revision.dfy`, `third_revision.dfy`: the earlier revisions of the same screen.
  - The first and second are the two components in `EverydayConversation_backup.js`.
  - The third is `EverydayConversation.js`.
  - Each is its own class over the same state shape, so the different dispatch policies sit side by side.
- `video_recorder.dfy` (`VideoRecorder`): `VideoRecorderService`.
  - The browser MediaRecorder is reduced to the state `Absent | Recording | Paused | Inactive`.
  - A Blob is its chunk sequence, and its size is the chunks' total length.
- `register.dfy` (`Registration`): the registration form's field edits, its validation and its submit branching.
- `otp.dfy` (`OtpScreen`): the e-mail verification screen.
  - The digit filter and the submit length check.
  - The resend cool-down and its one-second tick.

The environment enters as parameters.
- The token read from storage.
- Whether the browser granted the camera or offers recognition.
- What a call threw.
- The HTTP reply.
- The clock and the random digits of the recorder's session id.

Socket sends, utterances handed to the synthesis engine, and navigations are recorded in
sequence fields (`sent`, `utterances`, `navigatedTo`). The properties below are stated about those fields.

## Model

| member | source | states |
|---|---|---|
| JsText.FirstTruthy | src/components/EverydayConversationWithRecording.js:144 | `a \|\| b \|\| c` over optional strings: the result is the first truthy operand, and it is absent exactly when no operand is truthy |
| JsText.TrimIsInnerSlice | src/components/EverydayConversationWithRecording.js:463 | `trim()` keeps one contiguous piece of the string and cuts away only white space on either side |
| JsText.TrimEndsNotSpace | src/components/EverydayConversationWithRecording.js:468 | a trimmed string neither starts nor ends with white space |
| JsText.TrimEmptyIff | src/components/EverydayConversationWithRecording.js:463 | `!s.trim()` holds exactly when every character of `s` is white space |
| JsText.ToLower | src/components/EverydayConversationWithRecording.js:123 | `toLowerCase()` keeps the length, leaves no capital letter, and changes each character at most in case |
| JsText.ToLowerIdempotent | src/components/EverydayConversationWithRecording.js:123 | lowering an already lowered text changes nothing |
| JsText.ToLowerEqualIff | src/components/EverydayConversationWithRecording.js:123 | two texts lower to the same text exactly when they differ only in the case of their letters |
| JsText.NatToString | src/services/videoRecorder.js:61 | `Date.now()` printed in decimal: non-empty, digits only, no leading zero, and the digits denote the number |
| JsText.NatToStringInjective | src/services/videoRecorder.js:61 | different clock values print as different texts |
| Chat.UserFramesAppend | src/components/EverydayConversationWithRecording.js:314-321 | appending a message adds its outbound frame at the end, if it is a user message, and nothing otherwise |
| Chat.GreetingIgnoresCase | src/components/EverydayConversationWithRecording.js:121-124 | texts that differ only in letter case are both greetings or neither is |
| Chat.HasWelcomeAppend | src/components/EverydayConversationWithRecording.js:121-124 | after an append, some `ai` message greets exactly when one greeted before or the new message greets |
| Chat.SentEndsWithAppend | src/components/EverydayConversation_backup.js:814-817 | sending the same frames after both the sent log and its tail keeps the tail a suffix |
| Recognition.CollectedAppend | src/components/EverydayConversationWithRecording.js:288-295 | collecting the results of one finality distributes over concatenation of result lists |
| Recognition.CollectedEmptyIff | src/components/EverydayConversationWithRecording.js:297 | the final (or interim) text is empty exactly when every final (or interim) segment is empty |
| Recognition.CollectedPartition | src/components/EverydayConversationWithRecording.js:288-295 | the final and the interim text together hold every character of all the segments exactly as often as the segments do, so each character goes to exactly one of them |
| Recognition.Collect | src/components/EverydayConversationWithRecording.js:285-295 | the index loop from `resultIndex` returns exactly the concatenated final text and the concatenated interim text |
| LiveSession.WelcomeContent | src/components/EverydayConversationWithRecording.js:115 | the welcome text is the frame's `message`, or the built-in greeting; never empty |
| LiveSession.ConversationSession.constructor | src/components/EverydayConversationWithRecording.js:11-29 | a new screen: empty transcript and input, every flag false, no socket, no error, nothing sent or spoken |
| LiveSession.ConversationSession.Mount | src/components/EverydayConversationWithRecording.js:37-62 | the camera sets the stream and the video flag, or the camera error; on the shared recorder, whatever an earlier session left there, the hidden recording always empties the chunk list. A started recorder gets a fresh session id. When the recorder cannot be created or started, the old session id stays, and the failure is only logged |
| LiveSession.ConversationSession.Connect | src/components/EverydayConversationWithRecording.js:67-91 | with the guard set or a socket reference present, nothing changes. With no token: "Authentication required", guard released, no socket. Otherwise exactly one socket, at the token URL, stored in both the ref and the state variable |
| LiveSession.ConversationSession.OnOpen | src/components/EverydayConversationWithRecording.js:93-97 | connected, error cleared |
| LiveSession.ConversationSession.SpeakText | src/components/EverydayConversationWithRecording.js:398-404 | refused while speaking; otherwise speaking starts unpaused and exactly this text goes to the engine |
| LiveSession.ConversationSession.OnWelcome | src/components/EverydayConversationWithRecording.js:105-140 | with the global flag set or a greeting `ai` message already shown, nothing changes; otherwise one welcome is appended at the end, spoken (unless speaking), and the flag set; at most one welcome per mount |
| LiveSession.ConversationSession.AppendAi | src/components/EverydayConversationWithRecording.js:157 | an `ai` message is appended at the end; nothing is sent |
| LiveSession.ConversationSession.OnReply | src/components/EverydayConversationWithRecording.js:143-162 | reply text chosen `message` > `content` > `text`: when present, exactly one `ai` message is appended at the end, typing cleared and the text spoken; when absent or empty, nothing changes |
| LiveSession.ConversationSession.OnMessage | src/components/EverydayConversationWithRecording.js:99-181 | onmessage: a malformed frame and an unknown type change nothing; `connection` as OnWelcome; reply types as OnReply; `typing_start`/`typing_stop` set/clear typing and leave the transcript alone |
| LiveSession.ReceiveAll | src/components/EverydayConversationWithRecording.js:99-181 | over any run of inbound frames without a `connection` frame, the transcript gains exactly one `ai` message per reply frame with text, in the order received, after what it already held; nothing is sent and the screen invariant holds throughout |
| LiveSession.ConversationSession.OnClose | src/components/EverydayConversationWithRecording.js:183-187 | closed, disconnected, socket reference cleared |
| LiveSession.ConversationSession.OnSocketError | src/components/EverydayConversationWithRecording.js:189-192 | the connection error is shown |
| LiveSession.ConversationSession.Unmount | src/components/EverydayConversationWithRecording.js:194-207 | an open referenced socket starts closing; ref, state variable, connected flag, guard and global flag are all cleared |
| LiveSession.ConversationSession.AppendUser | src/components/EverydayConversationWithRecording.js:314-321 | the user message is appended before its frame is sent, and both at the end |
| LiveSession.ConversationSession.OnFinalText | src/components/EverydayConversationWithRecording.js:297-328 | transcript cleared, listening stopped; on an open referenced socket the untrimmed text is appended as one `user` message and sent, and the input cleared; otherwise the input holds the text and nothing is sent |
| LiveSession.ConversationSession.OnResult | src/components/EverydayConversationWithRecording.js:284-332 | with final text, as OnFinalText on that text; without it, the interim text replaces the transcript (never appended to it) and nothing else changes |
| LiveSession.ConversationSession.OnRecognitionEnded | src/components/EverydayConversationWithRecording.js:334-341 | onerror and onend stop listening |
| LiveSession.ConversationSession.StartListening | src/components/EverydayConversationWithRecording.js:346-381 | no-op while listening or without an engine; otherwise listening starts exactly when `start()` returns |
| LiveSession.ConversationSession.StopListening | src/components/EverydayConversationWithRecording.js:383-395 | acts only while listening; listening is off afterwards on both the normal and the throwing path |
| LiveSession.ConversationSession.ListenClick | src/components/EverydayConversationWithRecording.js:484-490 | the listen button toggles: on exactly when it was off, an engine exists and it starts |
| LiveSession.ConversationSession.OnSpeechReady | src/components/EverydayConversationWithRecording.js:416 | the controller becomes `currentAudio` |
| LiveSession.ConversationSession.OnSpeechFailed | src/components/EverydayConversationWithRecording.js:444-447 | a synthesis failure leaves the screen not speaking |
| LiveSession.ConversationSession.OnPlaybackEnded | src/components/EverydayConversationWithRecording.js:419-440 | onended and onerror stop speaking and clear `currentAudio` |
| LiveSession.ConversationSession.OnPlaybackPaused | src/components/EverydayConversationWithRecording.js:426-434 | onpause sets and onresume clears the paused flag |
| LiveSession.ConversationSession.TogglePause | src/components/EverydayConversationWithRecording.js:450-460 | flips the paused flag exactly when `currentAudio` exists; otherwise unchanged |
| LiveSession.ConversationSession.TypeInput | src/components/EverydayConversationWithRecording.js:609 | the input box holds what was typed |
| LiveSession.ConversationSession.SendTyped | src/components/EverydayConversationWithRecording.js:462-481 | blank input, no socket or not connected changes nothing; otherwise the trimmed text is appended as one `user` message and sent, and input and transcript cleared |
| LiveSession.ConversationSession.StopAndUpload | src/components/EverydayConversationWithRecording.js:238-247 | the recorder ends absent or inactive; an upload happens only for an active recorder with chunks, with the bearer token and the session's file name; upload failures are swallowed; a recorder that was never active is left untouched |
| LiveSession.ConversationSession.ReleaseAndLeave | src/components/EverydayConversationWithRecording.js:250-263 | stream released, the socket variable's socket closed, listening stopped, and the dashboard shown |
| LiveSession.ConversationSession.EndSession | src/components/EverydayConversationWithRecording.js:234-264 | stopVideo: stop and upload, then release and leave; navigation happens whatever the upload did; with no active recorder nothing is uploaded and the recorder is untouched |
| LiveSession.ConnectTwiceCreatesOneSocket | src/components/EverydayConversationWithRecording.js:69-91 | two connection attempts with a token create exactly one socket |
| LiveSession.RepeatedWelcomeShownOnce | src/components/EverydayConversationWithRecording.js:105-139 | two `connection` frames add at most one message, and only at the end |
| LiveSession.ReplyWhileSpeaking | src/components/EverydayConversationWithRecording.js:399-401 | a reply arriving while speaking is shown but not spoken |
| LiveSession.TypingLeavesTranscript | src/components/EverydayConversationWithRecording.js:166-174 | typing frames never touch the transcript |
| FirstRevision.FirstConversation.constructor | src/components/EverydayConversation_backup.js:7-22 | a new screen: empty transcript, every flag false, nothing sent or spoken |
| FirstRevision.FirstConversation.Connect | src/components/EverydayConversation_backup.js:33-36 | without the user's token no socket is made; with it one socket at the token URL |
| FirstRevision.FirstConversation.OnOpen | src/components/EverydayConversation_backup.js:38-42 | connected, error cleared |
| FirstRevision.FirstConversation.SpeakText | src/components/EverydayConversation_backup.js:226-233 | skipped for an empty text or while speaking; otherwise speaking starts with exactly that text |
| FirstRevision.FirstConversation.OnSpeechEnded | src/components/EverydayConversation_backup.js:262-281 | onend, onerror and the no-synthesis path stop speaking |
| FirstRevision.FirstConversation.OnMessage | src/components/EverydayConversation_backup.js:44-79 | `message` appends an `ai` message with the raw `content`, clears typing and speaks; `connection` appends a `system` message; `ack` sets typing; `error` shows its content and clears typing; other types and malformed frames change nothing |
| FirstRevision.FirstConversation.OnReply | src/components/EverydayConversation_backup.js:49-61 | the `message` branch: one `ai` message at the end, typing cleared, spoken through the guard |
| FirstRevision.FirstConversation.AppendMessage | src/components/EverydayConversation_backup.js:57 | a non-user message is appended at the end; nothing is sent |
| FirstRevision.FirstConversation.OnClose | src/components/EverydayConversation_backup.js:81-84 | closed and disconnected |
| FirstRevision.FirstConversation.OnSocketError | src/components/EverydayConversation_backup.js:86-90 | the connection error is shown and the screen disconnected |
| FirstRevision.FirstConversation.Unmount | src/components/EverydayConversation_backup.js:94-96 | the socket is closed |
| FirstRevision.FirstConversation.OnResult | src/components/EverydayConversation_backup.js:163-193 | only final text counts; on an open socket the trimmed text is appended, sent and the transcript cleared; otherwise the transcript shows it; without final text nothing changes |
| FirstRevision.FirstConversation.OnRecognitionEnded | src/components/EverydayConversation_backup.js:195-202 | onerror and onend stop listening |
| FirstRevision.FirstConversation.StartListening | src/components/EverydayConversation_backup.js:210-216 | with an engine and not listening, listening starts and the transcript clears; otherwise nothing |
| FirstRevision.FirstConversation.StopListening | src/components/EverydayConversation_backup.js:218-223 | only while listening; afterwards not listening |
| FirstRevision.FirstConversation.TypeInput | src/components/EverydayConversation_backup.js:447 | the input box holds what was typed |
| FirstRevision.FirstConversation.DismissError | src/components/EverydayConversation_backup.js:334 | the banner's dismiss clears the error |
| FirstRevision.FirstConversation.SendTyped | src/components/EverydayConversation_backup.js:305-322 | non-blank input on an open socket: the trimmed text is appended, sent, and the input cleared; otherwise nothing changes |
| SecondRevision.SecondConversation.constructor | src/components/EverydayConversation_backup.js:471-488 | a new screen: empty transcript, no socket and no engine |
| SecondRevision.SecondConversation.AppendKeeps | src/components/EverydayConversation_backup.js:810-817 | appending keeps the frames of the shown user messages a suffix of what was sent |
| SecondRevision.SecondConversation.SendKeeps | src/components/EverydayConversation_backup.js:810-817 | showing and sending a user text together keeps that suffix relation |
| SecondRevision.SecondConversation.Connect | src/components/EverydayConversation_backup.js:527-535 | without a stored token the error is shown and no socket made; with it one socket at the token URL |
| SecondRevision.SecondConversation.OnOpen | src/components/EverydayConversation_backup.js:537-550 | connected, error cleared, and the whole transcript replaced by exactly the one welcome `ai` message |
| SecondRevision.SecondConversation.SpeakText | src/components/EverydayConversation_backup.js:826-830 | skipped for an empty text or while speaking |
| SecondRevision.SecondConversation.OnSpeechEnded | src/components/EverydayConversation_backup.js:858-866 | onend and onerror stop speaking |
| SecondRevision.SecondConversation.OnMessage | src/components/EverydayConversation_backup.js:552-593 | `response` appends without speaking; `message` appends and speaks; `connection` appends a `system` message; `ack` sets typing; `error` shows its content; anything else changes nothing |
| SecondRevision.SecondConversation.OnReply | src/components/EverydayConversation_backup.js:565-575 | the `message` branch: one `ai` message at the end, typing cleared, spoken through the guard |
| SecondRevision.SecondConversation.AppendMessage | src/components/EverydayConversation_backup.js:563 | a non-user message is appended at the end; nothing is sent |
| SecondRevision.SecondConversation.OnClose | src/components/EverydayConversation_backup.js:595-603 | disconnected and typing cleared; the reconnect notice appears only when the close was not clean |
| SecondRevision.SecondConversation.OnSocketError | src/components/EverydayConversation_backup.js:605-609 | the backend error is shown and the screen disconnected |
| SecondRevision.SecondConversation.Unmount | src/components/EverydayConversation_backup.js:613-617 | only an open socket is closed |
| SecondRevision.SecondConversation.AppendUser | src/components/EverydayConversation_backup.js:810-817 | the user message is appended and its frame sent, both at the end |
| SecondRevision.SecondConversation.SendToChat | src/components/EverydayConversation_backup.js:802-823 | non-blank text on an open socket: trimmed text appended, sent, typing set; otherwise nothing but the not-connected error when disconnected |
| SecondRevision.SecondConversation.OnResult | src/components/EverydayConversation_backup.js:742-767 | final text goes through `sendMessageToChat` and the transcript ends cleared; otherwise the interim text replaces the transcript |
| SecondRevision.SecondConversation.OnRecognitionStarted | src/components/EverydayConversation_backup.js:737-740 | the engine's onstart turns listening on |
| SecondRevision.SecondConversation.OnRecognitionError | src/components/EverydayConversation_backup.js:769-773 | the error code is shown after a fixed prefix and listening stops |
| SecondRevision.SecondConversation.OnRecognitionEnded | src/components/EverydayConversation_backup.js:775-779 | listening stops and the transcript clears |
| SecondRevision.SecondConversation.StartListening | src/components/EverydayConversation_backup.js:723-794 | the first call builds the engine, or shows the unsupported error when the browser has none |
| SecondRevision.SecondConversation.TypeInput | src/components/EverydayConversation_backup.js:472 | the input box holds what was typed |
| SecondRevision.SecondConversation.DismissError | src/components/EverydayConversation_backup.js:986 | the banner's dismiss clears the error |
| SecondRevision.SecondConversation.SendTyped | src/components/EverydayConversation_backup.js:935-952 | non-blank input on an open socket: trimmed text appended, sent, input cleared; otherwise nothing |
| ThirdRevision.RecognitionErrorMessage | src/components/EverydayConversation.js:386-403 | an unknown code is shown after the generic prefix |
| ThirdRevision.KnownCodesDistinct | src/components/EverydayConversation.js:387-400 | `no-speech`, `audio-capture`, `not-allowed` and `network` get four different messages |
| ThirdRevision.OtherCodeNotKnown | src/components/EverydayConversation.js:386-402 | an unknown code's message differs from each of the four known codes' messages |
| ThirdRevision.OtherCodesDistinct | src/components/EverydayConversation.js:401-402 | two different unknown codes give two different messages, both under the generic prefix |
| ThirdRevision.SocketErrorMessage | src/components/EverydayConversation.js:163-169 | the socket error message starts "Connection error: " and names the event type when there is one |
| ThirdRevision.ThirdConversation.constructor | src/components/EverydayConversation.js:8-22 | a new screen: empty transcript, every flag false, nothing sent or spoken |
| ThirdRevision.ThirdConversation.Connect | src/components/EverydayConversation.js:50-71 | token from storage first, then the user's; with neither the login error and no socket |
| ThirdRevision.ThirdConversation.OnOpen | src/components/EverydayConversation.js:73-87 | connected, error cleared, and exactly `{type:'message', content:'Hello'}` sent |
| ThirdRevision.ThirdConversation.SpeakText | src/components/EverydayConversation.js:470-477 | skipped for an empty text, and while speaking unless paused |
| ThirdRevision.ThirdConversation.AppendAi | src/components/EverydayConversation.js:107-112 | an `ai` message is appended at the end; nothing is sent |
| ThirdRevision.ThirdConversation.AppendUser | src/components/EverydayConversation.js:366-372 | the user message is appended and its frame sent, both at the end |
| ThirdRevision.ThirdConversation.OnReply | src/components/EverydayConversation.js:98-117 | one `ai` message with `content` ‖ `text` ‖ `message` ‖ "No content received", typing cleared, the frame's text spoken when it has one |
| ThirdRevision.ThirdConversation.OnUnknown | src/components/EverydayConversation.js:128-141 | an unknown type with text appends one `ai` message and clears typing; without text nothing changes |
| ThirdRevision.ThirdConversation.OnMessage | src/components/EverydayConversation.js:89-146 | the full dispatch: replies, ignored `connection`/`welcome`, `ack`/`typing`, `error` with its default, the unknown-type fallback; a parse failure changes nothing |
| ThirdRevision.ThirdConversation.OnClose | src/components/EverydayConversation.js:149-161 | disconnected; no reconnect happens |
| ThirdRevision.ThirdConversation.OnSocketError | src/components/EverydayConversation.js:163-169 | the typed connection error is shown and the screen disconnected |
| ThirdRevision.ThirdConversation.Unmount | src/components/EverydayConversation.js:175-181 | the socket is closed |
| ThirdRevision.ThirdConversation.SetupRecognition | src/components/EverydayConversation.js:319-334 | an engine when the browser offers one; the unsupported error otherwise |
| ThirdRevision.ThirdConversation.OnFinalText | src/components/EverydayConversation.js:356-376 | interim cleared; on an open socket the trimmed text is appended then sent |
| ThirdRevision.ThirdConversation.OnResult | src/components/EverydayConversation.js:339-380 | final text as OnFinalText; a non-empty interim replaces the transcript; an empty one leaves it |
| ThirdRevision.ThirdConversation.OnRecognitionError | src/components/EverydayConversation.js:383-409 | the code's message is shown and every error clears listening |
| ThirdRevision.ThirdConversation.OnRecognitionEnded | src/components/EverydayConversation.js:411-414 | listening stops |
| ThirdRevision.ThirdConversation.StartListening | src/components/EverydayConversation.js:420-456 | with an engine and not listening: success listens and clears the transcript; denied or missing microphone show their messages; "already started" counts as listening; anything else shows its message |
| ThirdRevision.ThirdConversation.StopListening | src/components/EverydayConversation.js:458-467 | only while listening; afterwards not listening |
| ThirdRevision.ThirdConversation.ListenClick | src/components/EverydayConversation.js:420-467 | stop when listening, start otherwise |
| ThirdRevision.ThirdConversation.OnSpeechReady | src/components/EverydayConversation.js:493 | the controller becomes `currentAudio` |
| ThirdRevision.ThirdConversation.OnSpeechFailed | src/components/EverydayConversation.js:525-528 | a synthesis failure stops speaking and clears `currentAudio` |
| ThirdRevision.ThirdConversation.OnPlaybackEnded | src/components/EverydayConversation.js:497-519 | onended and onerror stop speaking and clear `currentAudio` |
| ThirdRevision.ThirdConversation.OnPlaybackPaused | src/components/EverydayConversation.js:504-512 | onpause sets and onplay clears the paused flag |
| ThirdRevision.ThirdConversation.TogglePause | src/components/EverydayConversation.js:536-546 | flips the paused flag exactly when `currentAudio` exists |
| ThirdRevision.ThirdConversation.TypeInput | src/components/EverydayConversation.js:848 | the input box holds what was typed |
| ThirdRevision.ThirdConversation.DismissError | src/components/EverydayConversation.js:707 | the banner's dismiss clears the error |
| ThirdRevision.ThirdConversation.SendTyped | src/components/EverydayConversation.js:642-682 | in order: blank input returns silently; no socket and a non-open socket each set their error; only then append, clear input and send the trimmed text |
| ThirdRevision.ThirdConversation.StopVideo | src/components/EverydayConversation.js:294-317 | listening stopped, stream released with the transcript cleared, dashboard shown; the socket stays open |
| VideoRecorder.SessionIdOf | src/services/videoRecorder.js:61 | a session id starts with `session-` |
| VideoRecorder.FileName | src/services/videoRecorder.js:134 | the upload is named `interview-<sessionId>.webm` |
| VideoRecorder.TotalSizeZeroIff | src/services/videoRecorder.js:42-43 | chunks that are each non-empty have total size zero exactly when there are none |
| VideoRecorder.VideoRecorderService.constructor | src/services/videoRecorder.js:3-9 | no recorder, no chunks, not recording, no session id |
| VideoRecorder.VideoRecorderService.StartRecording | src/services/videoRecorder.js:12-69 | a refused camera throws and changes nothing. Otherwise the stream is replaced and the chunks are emptied. Then either a recorder starts and the new `session-<ts>-<rand>` id is stored and returned, or creating or starting the recorder throws and the old session id stays |
| VideoRecorder.VideoRecorderService.OnDataAvailable | src/services/videoRecorder.js:41-45 | a chunk is appended at the end only when its size is positive; earlier chunks are untouched |
| VideoRecorder.VideoRecorderService.OnStart | src/services/videoRecorder.js:47-50 | onstart sets `isRecording` |
| VideoRecorder.VideoRecorderService.OnRecorderStopped | src/services/videoRecorder.js:52-55 | the original onstop clears `isRecording` when an active recorder stops on its own |
| VideoRecorder.VideoRecorderService.PauseRecording | src/services/videoRecorder.js:72-77 | acts only with a recorder and `isRecording`; pauses a recording recorder, throws on an inactive one; never clears `isRecording` |
| VideoRecorder.VideoRecorderService.ResumeRecording | src/services/videoRecorder.js:80-85 | acts only with a recorder and not `isRecording`; resumes a paused recorder, throws on an inactive one |
| VideoRecorder.VideoRecorderService.StopRecording | src/services/videoRecorder.js:88-110 | null without a recorder or when inactive; otherwise a blob of all chunks in order, tracks stopped, the onstop handler replaced, and `isRecording` left as it was |
| VideoRecorder.VideoRecorderService.UploadVideo | src/services/videoRecorder.js:113-164 | null and no request for a missing or empty blob; throws without a token; posts `interview-<sessionId>.webm` with the bearer token; throws on a non-OK reply, a failed fetch, an OK reply whose body is not JSON, or an OK reply whose JSON is `null` (reading `analysis_id` throws); otherwise returns the parsed reply |
| LiveSession.RefusedRecorderUploadsNothing | src/services/videoRecorder.js:34-39 | on a first mount where the recorder cannot be created, ending the session uploads nothing and the recording stream keeps running |
| VideoRecorder.RecordThenStopTwice | src/services/videoRecorder.js:41-110 | the blob holds the non-empty chunks in order, and a second stop resolves null |
| VideoRecorder.PauseThenResume | src/services/videoRecorder.js:72-85 | pausing keeps `isRecording`, so the resume that follows is a no-op and the recorder stays paused |
| Registration.WithField | src/components/Register.js:19-24 | the named field takes the value and every other field keeps its own |
| Registration.WithFieldTwice | src/components/Register.js:19-24 | editing a field twice keeps only the second value |
| Registration.PlainAddressMatches | src/components/Register.js:39 | `ann@example.com` matches `\S+@\S+\.\S+` |
| Registration.BrokenAddressesDoNotMatch | src/components/Register.js:39 | an address without a dot after `@`, or with a space between `@` and the dot, does not match |
| Registration.ShortEmailsDoNotMatch | src/components/Register.js:39 | fewer than five characters never match |
| Registration.NameError | src/components/Register.js:29-35 | a name error is present exactly when the name is all white space |
| Registration.EmailError | src/components/Register.js:37-41 | "required" exactly when the email is all white space; otherwise "invalid" exactly when the pattern does not match |
| Registration.PasswordError | src/components/Register.js:43-47 | "required" exactly when empty; otherwise an error exactly below six characters |
| Registration.ConfirmError | src/components/Register.js:49-51 | an error exactly when confirmation and password differ, whatever the other checks found |
| Registration.BlankChecksAreTrimChecks | src/components/Register.js:29-37 | the all-white-space tests are exactly Register.js's `!x.trim()` tests |
| Registration.RecordedFive | src/components/Register.js:27-53 | recording five optional messages in turn keys each message by its own field |
| Registration.ReportsEveryField | src/components/Register.js:27-53 | five per-field reports make a report on every field, and no entry means a valid form |
| Registration.FormValidIff | src/components/Register.js:26-54 | the form is valid exactly when none of the five checks yields a message |
| Registration.ValidateForm | src/components/Register.js:26-54 | each field has an entry exactly when its check fails, holding that check's message; no entries exactly when the form is valid |
| Registration.RegisterForm.constructor | src/components/Register.js:9-17 | empty form, no errors, nothing registered |
| Registration.RegisterForm.HandleChange | src/components/Register.js:19-24 | only the named field changes |
| Registration.RegisterForm.Register | src/components/Register.js:68-80 | `register` gets the form; success goes to OTP verification with the email or to the dashboard; failure shows its error |
| Registration.RegisterForm.HandleSubmit | src/components/Register.js:56-81 | errors reset and recomputed; `register` is called exactly when validation finds no error |
| OtpScreen.DigitsOnly | src/components/OTPVerification.js:71 | removes every non-digit and keeps every digit as often as it occurs; never longer than the input |
| OtpScreen.DigitsOnlyAppend | src/components/OTPVerification.js:71 | the filter distributes over concatenation |
| OtpScreen.DigitsOnlyFixedIff | src/components/OTPVerification.js:71 | the filter leaves a string unchanged exactly when it is all digits |
| OtpScreen.DigitsOnlyIdempotent | src/components/OTPVerification.js:71 | filtering twice is filtering once |
| OtpScreen.EmailFrom | src/components/OTPVerification.js:16 | the email is the navigation state's email when truthy, else empty |
| OtpScreen.OtpVerification.constructor | src/components/OTPVerification.js:11-16 | empty code, no error, no cool-down |
| OtpScreen.OtpVerification.Tick | src/components/OTPVerification.js:18-30 | no email redirects to `/register`; otherwise a running cool-down drops by exactly one |
| OtpScreen.OtpVerification.HandleOtpChange | src/components/OTPVerification.js:70-75 | the digits replace the code when there are at most six; otherwise the code is unchanged; the code stays all digits and at most six long |
| OtpScreen.OtpVerification.HandleSubmit | src/components/OTPVerification.js:32-55 | an empty code or one whose length is not six sets the 6-digit error and calls nothing; otherwise `verifyOTP` gets the email and code, and the result navigates to login or shows its error |
| OtpScreen.OtpVerification.HandleResend | src/components/OTPVerification.js:57-68 | a no-op while the cool-down runs; otherwise a 60-second cool-down starts |
| OtpScreen.OtpVerification.WaitOutCooldown | src/components/OTPVerification.js:26-29 | with an email, as many ticks as seconds remain bring the cool-down to zero |

## Left out

- The WebSocket transport and the browser's recognition, synthesis, camera, MediaRecorder, fetch, FormData and localStorage APIs. They appear only as parameters and as recorded outputs (`sent`, `utterances`, `navigatedTo`, the upload request).
- React's scheduling.
  - Every handler is one atomic event that reads the current field values; stale closure captures are not reproduced.
  - The `setTimeout(…, 0)` in the routed screen's `onresult` is folded into the handler.
  - The 3-second reconnect log timer is left out.
  - The asynchronous continuation of `speakText` (controller ready, controller failed) is a separate event.
- Ids, timestamps and `toLocaleTimeString` on messages are left out. The recorder's session id is built from a clock value and random digits passed in as parameters.
- Console logging, scrolling, rendering and CSS.
- The camera block at src/components/EverydayConversation.js:193-292 does not parse and is not modelled. Only `stopVideo` after it is.
- The truncated JSX and duplicate declarations of the backup file are not modelled; only its intact handlers are.
- The recorder's MIME type and bit rate values (src/services/videoRecorder.js:29-37). Whether the browser creates and starts a recorder with them is a parameter.
- `LiveSession.ConversationSession.StopAndUpload`: the final `dataavailable` and the `stop` event are folded into the `stopRecording` call as one `lastChunk` parameter.
- `VideoRecorder.VideoRecorderService.StopRecording`: a second call resolves null rather than the earlier data, because that is what the code does.
- `ThirdRevision.ThirdConversation.SpeakText`: its guard is `!text || (isSpeaking && !isTTSPaused)`, as written. A paused utterance therefore does not block a new one.
- `ThirdRevision.ThirdConversation.OnSpeechFailed`: the fallback to plain browser speech synthesis (`speakWithBrowserTTS`) after a failed controller is not modelled.
- `ThirdRevision.ThirdConversation.StartListening`: the `recognition.state === 'listening'` shortcut is not modelled. Recognition engines expose no `state` property, so that branch never fires.
- `LiveSession.ConversationSession.StartListening`: the `recognition.state` shortcut is not modelled, for the same reason. After an `InvalidStateError`, the `recognition.stop()` retry is an engine-only call. Listening stays off, as the contract states.
- `ThirdRevision.ThirdConversation.SendTyped`: the `catch` around `socket.send` is not modelled, since send on an open socket does not throw.
- The second revision's `stopListening` only calls the engine's `stop()`. Its effect on the screen arrives as `SecondRevision.SecondConversation.OnRecognitionEnded`.
- `FirstRevision.FirstConversation.SpeakText` and `SecondRevision.SecondConversation.SpeakText`: the error each revision's `catch` sets ("Could not play audio response: " in the second) is not modelled. Nothing inside either `try` throws, because speech-synthesis failures arrive through the utterance's `onerror`, which `OnSpeechEnded` models.
- `Registration.PasswordError`: lengths count Unicode scalar values, where JavaScript counts UTF-16 code units. The two differ only for characters outside the Basic Multilingual Plane.
- `JsText.ToLower`: only ASCII letters are lowered; the other case mappings of `toLowerCase` are not modelled.
- The third revision's mount effect (src/components/EverydayConversation.js:185-292) calls `initCamera`, `connectWebSocket`, `startHiddenRecording` and `stopHiddenRecordingAndUpload`, which that file does not define, and the block does not parse. Only the routed screen's camera and hidden recording are modelled (`Mount`).
- src/services/api.js, src/context/AuthContext.js, src/services/murfTTS.js, src/utils/WebSocketTest.js, test-upload.js, the dashboard, analytics, home and practice pages, and routing are not part of this model. They are network clients, thin wrappers, diagnostics or static markup.
- The speech-synthesis controller is an abstract handle. The controller src/services/murfTTS.js:48-57 returns never wires its `onended`, `onpause`, `onplay` and `onerror` to the utterance. In the shipped app, `OnPlaybackEnded` and `OnPlaybackPaused` of the routed screen and the third revision therefore never fire, and `isSpeaking` stays true after the first utterance. The model keeps those events as the screens define them.
