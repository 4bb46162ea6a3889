/**
 * The conversation-practice screen as it is routed today (EverydayConversationWithRecording):
 * one object whose fields are the screen's state, and one method per event that can reach it
 * (socket callbacks, recognition callbacks, speech-synthesis callbacks, user actions, mount
 * and unmount). Each method names the fields it may change and states their new values;
 * every other field keeps its value.
 */
module LiveSession {
  import opened Wrappers
  import opened JsText
  import opened Chat
  import Recognition
  import VideoRecorder

  const AuthRequired := "Authentication required"
  const ConnectionFailed := "Connection error. Please refresh the page."
  const CameraUnavailable := "Camera access denied or not available"
  const DefaultWelcome := "Hello! I'm here to help you improve your communication skills. How can I assist you today?"
  const Dashboard := "/dashboard"

  /** The frame types that carry an assistant reply. */
  predicate IsReplyKind(kind: string) {
    kind == "text_message" || kind == "message" || kind == "response"
  }

  /** A reply's text: `data.message || data.content || data.text`. */
  function ReplyContent(f: Frame): Option<string> {
    FirstTruthy([f.message, f.content, f.text])
  }

  /** A welcome's text: `data.message`, or the built-in greeting when that is missing or empty. */
  function WelcomeContent(f: Frame): (w: string)
    ensures w != ""
  {
    FirstTruthy([f.message]).GetOr(DefaultWelcome)
  }


  class ConversationSession {
    /** The module-wide `videoRecorder` instance. */
    const recorder: VideoRecorder.VideoRecorderService
    /** Whether the browser offers speech recognition (the recognition set-up effect built an engine). */
    const hasRecognition: bool

    var messages: seq<Message>
    var inputMessage: string
    var isConnected: bool
    var isTyping: bool
    var error: Option<string>
    var connectionAttempted: bool
    /** `socketRef.current` is set. */
    var socketRef: bool
    /** The `socket` state variable is set (onclose clears the ref but not this). */
    var socketVar: bool
    /** The ready state of the socket, once one is created. */
    var readyState: ReadyState
    var socketUrl: string
    /** How many `new WebSocket(...)` calls were made. */
    var socketsCreated: nat
    /** `window._welcomeTTSCompleted`. */
    var welcomeSpoken: bool
    var isListening: bool
    /** The interim transcript shown while the user speaks. */
    var transcript: string
    var isSpeaking: bool
    var isTTSPaused: bool
    /** `currentAudio` holds a synthesis controller. */
    var hasAudio: bool
    /** The texts handed to the synthesis engine, in order. */
    var utterances: seq<string>
    /** The frames sent on the socket, in order. */
    var sent: seq<Outgoing>
    var hasStream: bool
    var isVideoEnabled: bool
    var navigatedTo: Option<string>

    /** How many times the screen was torn down (each teardown releases the connection guard). */
    ghost var cleanups: nat
    /** Welcome messages appended since the last teardown. */
    ghost var welcomesShown: nat

    /**
     * The screen's invariant: every message has text; what was sent is exactly the user
     * messages, in order; at most one socket per mount; at most one welcome per mount, and
     * the global flag is set exactly when it was shown; listening needs an engine.
     */
    ghost predicate Valid()
      reads this`messages, this`sent, this`socketRef, this`socketVar, this`socketsCreated, this`cleanups,
        this`connectionAttempted, this`welcomesShown, this`welcomeSpoken, this`isListening
    {
      && AllFilled(messages)
      && sent == UserFrames(messages)
      && (socketRef ==> socketVar)
      && socketsCreated <= cleanups + (if connectionAttempted then 1 else 0)
      && welcomesShown <= 1
      && (welcomeSpoken <==> welcomesShown == 1)
      && (isListening ==> hasRecognition)
    }

    /**
     * What `speakText(text)` leaves, given the speaking flags and utterances before it: nothing
     * changes while an utterance is active; otherwise speaking starts unpaused and the text is
     * handed to the engine.
     */
    ghost predicate SpokeAfter(wasSpeaking: bool, wasPaused: bool, before: seq<string>, text: string)
      reads this`isSpeaking, this`isTTSPaused, this`utterances
    {
      if wasSpeaking then isSpeaking && isTTSPaused == wasPaused && utterances == before
      else isSpeaking && !isTTSPaused && utterances == before + [text]
    }

    constructor (hasRecognition: bool, recorder: VideoRecorder.VideoRecorderService)
      ensures Valid()
      ensures this.hasRecognition == hasRecognition && this.recorder == recorder
      ensures messages == [] && inputMessage == "" && !isConnected && !isTyping && error == None
      ensures !connectionAttempted && !socketRef && !socketVar && socketsCreated == 0
      ensures !welcomeSpoken && !isListening && transcript == ""
      ensures !isSpeaking && !isTTSPaused && !hasAudio && utterances == [] && sent == []
      ensures !hasStream && !isVideoEnabled && navigatedTo == None
    {
      this.hasRecognition := hasRecognition;
      this.recorder := recorder;
      messages, inputMessage := [], "";
      isConnected, isTyping, error := false, false, None;
      connectionAttempted, socketRef, socketVar := false, false, false;
      readyState, socketUrl, socketsCreated := Connecting, "", 0;
      welcomeSpoken := false;
      isListening, transcript := false, "";
      isSpeaking, isTTSPaused, hasAudio := false, false, false;
      utterances, sent := [], [];
      hasStream, isVideoEnabled, navigatedTo := false, false, None;
      cleanups, welcomesShown := 0, 0;
    }

    /**
     * The mount effect: the camera (`cameraGranted`: getUserMedia resolved) and then the
     * hidden recording on the shared recorder, whatever an earlier session left in it; a
     * recording that cannot start is only logged.
     */
    method Mount(cameraGranted: bool, recordingGranted: bool, outcome: VideoRecorder.StartOutcome, now: nat, rand: string)
      requires Valid() && recorder.Valid()
      modifies this`hasStream, this`isVideoEnabled, this`error, recorder
      ensures Valid() && recorder.Valid()
      ensures cameraGranted ==> hasStream && isVideoEnabled && error == old(error)
      ensures !cameraGranted ==>
        hasStream == old(hasStream) && isVideoEnabled == old(isVideoEnabled) && error == Some(CameraUnavailable)
      ensures recordingGranted ==> recorder.recordedChunks == [] && recorder.tracksLive
      ensures recordingGranted && outcome == VideoRecorder.Started ==>
        recorder.sessionId == Some(VideoRecorder.SessionIdOf(now, rand)) && recorder.mediaRecorder == VideoRecorder.Recording
      ensures recordingGranted && outcome != VideoRecorder.Started ==> recorder.sessionId == old(recorder.sessionId)
      ensures recordingGranted && outcome == VideoRecorder.ConstructorThrows ==>
        recorder.mediaRecorder == old(recorder.mediaRecorder)
      ensures !recordingGranted ==> unchanged(recorder)
    {
      if cameraGranted {
        hasStream := true;
        isVideoEnabled := true;
      } else {
        error := Some(CameraUnavailable);
      }
      var started := recorder.StartRecording(recordingGranted, outcome, now, rand);
    }

    /**
     * The connection effect. Nothing happens once a connection was attempted or while a
     * socket reference exists. Without a token the error is set and the guard released, and no
     * socket is made. Otherwise exactly one socket is created and stored in both places.
     */
    method Connect(token: Option<string>)
      requires Valid()
      modifies this`connectionAttempted, this`error, this`socketUrl, this`socketsCreated,
        this`readyState, this`socketRef, this`socketVar
      ensures Valid()
      ensures socketsCreated <= old(socketsCreated) + 1
      ensures old(connectionAttempted || socketRef) ==>
        (&& connectionAttempted == old(connectionAttempted) && error == old(error) && socketUrl == old(socketUrl)
         && socketsCreated == old(socketsCreated) && readyState == old(readyState) && socketRef == old(socketRef)
         && socketVar == old(socketVar))
      ensures !old(connectionAttempted || socketRef) && !Truthy(token) ==>
        (&& error == Some(AuthRequired) && !connectionAttempted
         && socketsCreated == old(socketsCreated) && socketRef == old(socketRef) && socketVar == old(socketVar)
         && readyState == old(readyState) && socketUrl == old(socketUrl))
      ensures !old(connectionAttempted || socketRef) && Truthy(token) ==>
        (&& connectionAttempted && socketRef && socketVar && readyState == Connecting
         && socketUrl == ChatEndpoint + token.value && socketsCreated == old(socketsCreated) + 1
         && error == old(error))
    {
      if connectionAttempted || socketRef {
        return;
      }
      connectionAttempted := true;
      if !Truthy(token) {
        error := Some(AuthRequired);
        connectionAttempted := false;
        return;
      }
      socketUrl := ChatEndpoint + token.value;
      socketsCreated := socketsCreated + 1;
      readyState := Connecting;
      socketRef := true;
      socketVar := true;
    }

    /** onopen: connected, and the error cleared. */
    method OnOpen()
      requires Valid()
      modifies this`readyState, this`isConnected, this`error
      ensures Valid()
      ensures readyState == Open && isConnected && error == None
    {
      readyState := Open;
      isConnected := true;
      error := None;
    }

    /** speakText up to its first await: refused while an utterance is active. */
    method SpeakText(text: string)
      requires Valid()
      modifies this`isSpeaking, this`isTTSPaused, this`utterances
      ensures Valid()
      ensures SpokeAfter(old(isSpeaking), old(isTTSPaused), old(utterances), text)
    {
      if isSpeaking {
        return;
      }
      isSpeaking := true;
      isTTSPaused := false;
      utterances := utterances + [text];
    }

    /** The `connection` frame: the welcome, shown and spoken at most once per mount. */
    method OnWelcome(data: Frame)
      requires Valid()
      modifies this`messages, this`welcomeSpoken, this`welcomesShown,
        this`isSpeaking, this`isTTSPaused, this`utterances
      ensures Valid()
      ensures old(welcomeSpoken) || HasWelcome(old(messages)) ==>
        (&& messages == old(messages) && welcomeSpoken == old(welcomeSpoken) && welcomesShown == old(welcomesShown)
         && isSpeaking == old(isSpeaking) && isTTSPaused == old(isTTSPaused) && utterances == old(utterances))
      ensures !old(welcomeSpoken) && !HasWelcome(old(messages)) ==>
        (&& messages == old(messages) + [AiSays(WelcomeContent(data))] && welcomeSpoken
         && SpokeAfter(old(isSpeaking), old(isTTSPaused), old(utterances), WelcomeContent(data)))
    {
      if welcomeSpoken {
        return;
      }
      var content := WelcomeContent(data);
      if HasWelcome(messages) {
        return;
      }
      AppendAi(content);
      welcomeSpoken := true;
      welcomesShown := welcomesShown + 1;
      SpeakText(content);
    }

    /** An assistant message with text joins the transcript; nothing is sent. */
    method AppendAi(text: string)
      requires Valid() && text != ""
      modifies this`messages
      ensures Valid()
      ensures messages == old(messages) + [AiSays(text)]
    {
      UserFramesAppend(messages, AiSays(text));
      messages := messages + [AiSays(text)];
    }

    /** A reply frame: its text, when it has one, is appended, typing cleared and the text spoken. */
    method OnReply(data: Frame)
      requires Valid()
      modifies this`messages, this`isTyping, this`isSpeaking, this`isTTSPaused, this`utterances
      ensures Valid()
      ensures ReplyContent(data).None? ==>
        (&& messages == old(messages) && isTyping == old(isTyping) && isSpeaking == old(isSpeaking)
         && isTTSPaused == old(isTTSPaused) && utterances == old(utterances))
      ensures ReplyContent(data).Some? ==>
        (&& messages == old(messages) + [AiSays(ReplyContent(data).value)] && !isTyping
         && SpokeAfter(old(isSpeaking), old(isTTSPaused), old(utterances), ReplyContent(data).value))
    {
      var content := ReplyContent(data);
      if content.None? {
        return;
      }
      AppendAi(content.value);
      isTyping := false;
      SpeakText(content.value);
    }

    /**
     * onmessage. A frame that does not parse changes nothing. `connection`: unless the global
     * flag is set or a greeting assistant message is already shown, the welcome is spoken,
     * the flag set and the welcome appended. A reply type with text appends one assistant
     * message, clears typing and speaks it; without text nothing happens. `typing_start` and
     * `typing_stop` set and clear typing. Any other type changes nothing.
     */
    method OnMessage(inbound: Inbound)
      requires Valid()
      modifies this`messages, this`isTyping, this`welcomeSpoken, this`welcomesShown,
        this`isSpeaking, this`isTTSPaused, this`utterances
      ensures Valid()
      ensures inbound.Malformed? ==>
        (&& messages == old(messages) && isTyping == old(isTyping) && welcomeSpoken == old(welcomeSpoken)
         && welcomesShown == old(welcomesShown) && isSpeaking == old(isSpeaking) && isTTSPaused == old(isTTSPaused)
         && utterances == old(utterances))
      ensures inbound.Parsed? && inbound.frame.kind == "connection" ==>
        if old(welcomeSpoken) || HasWelcome(old(messages)) then
          (&& messages == old(messages) && isTyping == old(isTyping) && welcomeSpoken == old(welcomeSpoken)
           && welcomesShown == old(welcomesShown) && isSpeaking == old(isSpeaking) && isTTSPaused == old(isTTSPaused)
           && utterances == old(utterances))
        else
          var w := WelcomeContent(inbound.frame);
          && messages == old(messages) + [AiSays(w)] && welcomeSpoken && isTyping == old(isTyping)
          && SpokeAfter(old(isSpeaking), old(isTTSPaused), old(utterances), w)
      ensures inbound.Parsed? && IsReplyKind(inbound.frame.kind) ==>
        match ReplyContent(inbound.frame)
        case None =>
          (&& messages == old(messages) && isTyping == old(isTyping) && welcomeSpoken == old(welcomeSpoken)
           && welcomesShown == old(welcomesShown) && isSpeaking == old(isSpeaking) && isTTSPaused == old(isTTSPaused)
           && utterances == old(utterances))
        case Some(c) =>
          && messages == old(messages) + [AiSays(c)] && !isTyping && welcomeSpoken == old(welcomeSpoken)
          && SpokeAfter(old(isSpeaking), old(isTTSPaused), old(utterances), c)
      ensures inbound.Parsed? && inbound.frame.kind in {"typing_start", "typing_stop"} ==>
        (&& isTyping == (inbound.frame.kind == "typing_start")
         && messages == old(messages) && welcomeSpoken == old(welcomeSpoken)
         && isSpeaking == old(isSpeaking) && isTTSPaused == old(isTTSPaused) && utterances == old(utterances))
      ensures (inbound.Parsed? && !IsReplyKind(inbound.frame.kind)
               && inbound.frame.kind !in {"connection", "typing_start", "typing_stop"}) ==>
                 (&& messages == old(messages) && isTyping == old(isTyping) && welcomeSpoken == old(welcomeSpoken)
                  && welcomesShown == old(welcomesShown) && isSpeaking == old(isSpeaking) && isTTSPaused == old(isTTSPaused)
                  && utterances == old(utterances))
    {
      if inbound.Malformed? {
        return;
      }
      var data := inbound.frame;
      if data.kind == "connection" {
        OnWelcome(data);
        return;
      }
      if IsReplyKind(data.kind) {
        OnReply(data);
        return;
      }
      if data.kind == "typing_start" {
        isTyping := true;
        return;
      }
      if data.kind == "typing_stop" {
        isTyping := false;
        return;
      }
    }

    /** onclose: disconnected, and the socket reference cleared (the `socket` variable stays). */
    method OnClose()
      requires Valid()
      modifies this`readyState, this`isConnected, this`socketRef
      ensures Valid()
      ensures readyState == Closed && !isConnected && !socketRef
    {
      readyState := Closed;
      isConnected := false;
      socketRef := false;
    }

    /** onerror of the socket: the connection error is shown. */
    method OnSocketError()
      requires Valid()
      modifies this`error
      ensures Valid()
      ensures error == Some(ConnectionFailed)
    {
      error := Some(ConnectionFailed);
    }

    /**
     * The connection effect's cleanup: an open socket is closed, the socket reference and
     * variable are cleared, the guard released and the global welcome flag deleted.
     */
    method Unmount()
      requires Valid()
      modifies this`readyState, this`socketRef, this`socketVar, this`isConnected,
        this`connectionAttempted, this`welcomeSpoken, this`welcomesShown, this`cleanups
      ensures Valid()
      ensures readyState == (if old(socketRef) && old(readyState) == Open then Closing else old(readyState))
      ensures !socketRef && !socketVar && !isConnected && !connectionAttempted && !welcomeSpoken
    {
      if socketRef && readyState == Open {
        readyState := Closing;
      }
      socketRef := false;
      socketVar := false;
      isConnected := false;
      connectionAttempted := false;
      if welcomeSpoken {
        welcomeSpoken := false;
      }
      welcomesShown := 0;
      cleanups := cleanups + 1;
    }

    /** Shows a user's text and sends it. */
    method AppendUser(text: string)
      requires Valid() && text != ""
      modifies this`messages, this`sent
      ensures Valid()
      ensures messages == old(messages) + [UserSays(text)] && sent == old(sent) + [ChatMessage(text)]
    {
      UserFramesAppend(messages, UserSays(text));
      messages := messages + [UserSays(text)];
      sent := sent + [ChatMessage(text)];
    }

    /**
     * The final-text branch of onresult: the input takes the text, the interim transcript is
     * cleared and listening stopped; on an open socket the untrimmed text is shown and sent
     * and the input cleared.
     */
    method OnFinalText(fin: string)
      requires Valid() && fin != ""
      modifies this`inputMessage, this`transcript, this`isListening, this`messages, this`sent
      ensures Valid()
      ensures transcript == "" && !isListening
      ensures socketRef && readyState == Open ==>
        (&& inputMessage == "" && messages == old(messages) + [UserSays(fin)]
         && sent == old(sent) + [ChatMessage(fin)])
      ensures !(socketRef && readyState == Open) ==>
        inputMessage == fin && messages == old(messages) && sent == old(sent)
    {
      inputMessage := fin;
      transcript := "";
      isListening := false;
      if socketRef && readyState == Open {
        AppendUser(fin);
        inputMessage := "";
      }
    }

    /**
     * onresult. With final text the input is set to it, the interim transcript cleared and
     * listening stopped; then, if the socket reference is open, the untrimmed final text is
     * appended as a user message, sent, and the input cleared. Without final text the interim
     * text replaces the transcript.
     */
    method OnResult(results: seq<Recognition.SpeechResult>, resultIndex: nat)
      requires Valid()
      modifies this`inputMessage, this`transcript, this`isListening, this`messages, this`sent
      ensures Valid()
      ensures Recognition.FinalText(results, resultIndex) == "" ==>
        (&& transcript == Recognition.InterimText(results, resultIndex)
         && inputMessage == old(inputMessage) && isListening == old(isListening)
         && messages == old(messages) && sent == old(sent))
      ensures
        var fin := Recognition.FinalText(results, resultIndex);
        fin != "" ==>
          && transcript == "" && !isListening
          && (if socketRef && readyState == Open
              then inputMessage == "" && messages == old(messages) + [UserSays(fin)]
                && sent == old(sent) + [ChatMessage(fin)]
              else inputMessage == fin && messages == old(messages) && sent == old(sent))
    {
      var finalTranscript, interimTranscript := Recognition.Collect(results, resultIndex);
      if finalTranscript != "" {
        OnFinalText(finalTranscript);
      } else {
        transcript := interimTranscript;
      }
    }

    /** The recognition engine's onerror and onend: listening stops. */
    method OnRecognitionEnded()
      requires Valid()
      modifies this`isListening
      ensures Valid()
      ensures !isListening
    {
      isListening := false;
    }

    /**
     * startListening: only with an engine and when not listening; `engineStarts` is whether
     * `recognition.start()` returned rather than threw (a throw leaves listening off).
     */
    method StartListening(engineStarts: bool)
      requires Valid()
      modifies this`isListening
      ensures Valid()
      ensures isListening == (old(isListening) || (hasRecognition && engineStarts))
    {
      if hasRecognition && !isListening {
        if engineStarts {
          isListening := true;
        } else {
          isListening := false;
        }
      }
    }

    /** stopListening: only while listening; the normal and the throwing path both stop listening. */
    method StopListening()
      requires Valid()
      modifies this`isListening
      ensures Valid()
      ensures !isListening
    {
      if hasRecognition && isListening {
        isListening := false;
      }
    }

    /** The listen button: stops when listening, starts otherwise. */
    method ListenClick(engineStarts: bool)
      requires Valid()
      modifies this`isListening
      ensures Valid()
      ensures isListening == (!old(isListening) && hasRecognition && engineStarts)
    {
      if isListening {
        StopListening();
      } else {
        StartListening(engineStarts);
      }
    }

    /** The synthesis engine produced its controller: it becomes `currentAudio`. */
    method OnSpeechReady()
      requires Valid()
      modifies this`hasAudio
      ensures Valid()
      ensures hasAudio
    {
      hasAudio := true;
    }

    /** The synthesis engine failed before playing: speaking stops. */
    method OnSpeechFailed()
      requires Valid()
      modifies this`isSpeaking
      ensures Valid()
      ensures !isSpeaking
    {
      isSpeaking := false;
    }

    /** The controller's onended and onerror: speaking stops and `currentAudio` is cleared. */
    method OnPlaybackEnded()
      requires Valid()
      modifies this`isSpeaking, this`hasAudio
      ensures Valid()
      ensures !isSpeaking && !hasAudio
    {
      isSpeaking := false;
      hasAudio := false;
    }

    /** The controller's onpause (`paused`) and onresume (`!paused`). */
    method OnPlaybackPaused(paused: bool)
      requires Valid()
      modifies this`isTTSPaused
      ensures Valid()
      ensures isTTSPaused == paused
    {
      isTTSPaused := paused;
    }

    /** toggleTTSPause: flips the paused flag, and only while a controller exists. */
    method TogglePause()
      requires Valid()
      modifies this`isTTSPaused
      ensures Valid()
      ensures isTTSPaused == (if hasAudio then !old(isTTSPaused) else old(isTTSPaused))
    {
      if hasAudio {
        if isTTSPaused {
          isTTSPaused := false;
        } else {
          isTTSPaused := true;
        }
      }
    }

    /** The input box's onChange. */
    method TypeInput(value: string)
      requires Valid()
      modifies this`inputMessage
      ensures Valid()
      ensures inputMessage == value
    {
      inputMessage := value;
    }

    /**
     * handleSendMessage: blank input, no socket or not connected changes nothing; otherwise the
     * trimmed input is appended as a user message and sent, and input and transcript cleared.
     */
    method SendTyped()
      requires Valid()
      modifies this`messages, this`sent, this`inputMessage, this`transcript
      ensures Valid()
      ensures Trim(old(inputMessage)) == "" || !socketVar || !isConnected ==>
        (&& messages == old(messages) && sent == old(sent) && inputMessage == old(inputMessage)
         && transcript == old(transcript))
      ensures Trim(old(inputMessage)) != "" && socketVar && isConnected ==>
        (&& messages == old(messages) + [UserSays(Trim(old(inputMessage)))]
         && sent == old(sent) + [ChatMessage(Trim(old(inputMessage)))]
         && inputMessage == "" && transcript == "")
    {
      var text := Trim(inputMessage);
      if text == "" || !socketVar || !isConnected {
        return;
      }
      AppendUser(text);
      inputMessage := "";
      transcript := "";
    }

    /**
     * The first half of stopVideo: the recording is stopped and, if a blob came back, uploaded;
     * a failed upload is only logged. The request is what was posted, if anything.
     */
    method StopAndUpload(lastChunk: VideoRecorder.Chunk, token: Option<string>, response: VideoRecorder.HttpResponse)
      returns (upload: Option<VideoRecorder.UploadRequest>)
      requires recorder.Valid()
      modifies recorder
      ensures recorder.Valid()
      ensures recorder.mediaRecorder == VideoRecorder.Absent || recorder.mediaRecorder == VideoRecorder.Inactive
      ensures !old(recorder.mediaRecorder.Recording? || recorder.mediaRecorder.Paused?) ==>
        upload == None && unchanged(recorder)
      ensures recorder.recordedChunks == [] ==> upload == None
      ensures (&& old(recorder.mediaRecorder.Recording? || recorder.mediaRecorder.Paused?)
               && recorder.recordedChunks != [] && Truthy(token)) ==>
        upload == Some(VideoRecorder.UploadRequest(
          VideoRecorder.UploadUrl, "Bearer " + token.value,
          VideoRecorder.FileName(recorder.sessionId), VideoRecorder.Blob(recorder.recordedChunks)))
    {
      upload := None;
      var videoBlob := recorder.StopRecording(lastChunk);
      if videoBlob.Some? {
        VideoRecorder.TotalSizeZeroIff(recorder.recordedChunks);
        var result;
        upload, result := recorder.UploadVideo(videoBlob, token, response);
      }
    }

    /**
     * The second half of stopVideo: the camera stream is stopped, the socket variable's
     * socket closed, listening stopped, and the screen goes to the dashboard.
     */
    method ReleaseAndLeave()
      requires Valid()
      modifies this`hasStream, this`isVideoEnabled, this`readyState, this`isListening, this`navigatedTo
      ensures Valid()
      ensures !hasStream && isVideoEnabled == (old(isVideoEnabled) && !old(hasStream))
      ensures readyState == (if socketVar then AfterClose(old(readyState)) else old(readyState))
      ensures !isListening && navigatedTo == Some(Dashboard)
    {
      if hasStream {
        hasStream := false;
        isVideoEnabled := false;
      }
      if socketVar {
        readyState := AfterClose(readyState);
      }
      if isListening {
        StopListening();
      }
      navigatedTo := Some(Dashboard);
    }

    /**
     * stopVideo, the end-session button: the recording is stopped and uploaded, then the
     * resources released and the dashboard shown, whatever happened to the upload.
     */
    method EndSession(lastChunk: VideoRecorder.Chunk, token: Option<string>, response: VideoRecorder.HttpResponse)
      returns (upload: Option<VideoRecorder.UploadRequest>)
      requires Valid() && recorder.Valid()
      modifies this`hasStream, this`isVideoEnabled, this`readyState, this`isListening, this`navigatedTo, recorder
      ensures Valid() && recorder.Valid()
      ensures !hasStream && isVideoEnabled == (old(isVideoEnabled) && !old(hasStream))
      ensures readyState == (if socketVar then AfterClose(old(readyState)) else old(readyState))
      ensures !isListening && navigatedTo == Some(Dashboard)
      ensures recorder.mediaRecorder == VideoRecorder.Absent || recorder.mediaRecorder == VideoRecorder.Inactive
      ensures (&& old(recorder.mediaRecorder.Recording? || recorder.mediaRecorder.Paused?)
               && recorder.recordedChunks != [] && Truthy(token)) ==>
        upload == Some(VideoRecorder.UploadRequest(
          VideoRecorder.UploadUrl, "Bearer " + token.value,
          VideoRecorder.FileName(recorder.sessionId), VideoRecorder.Blob(recorder.recordedChunks)))
      ensures !old(recorder.mediaRecorder.Recording? || recorder.mediaRecorder.Paused?) ==>
        upload == None && unchanged(recorder)
    {
      upload := StopAndUpload(lastChunk, token, response);
      ReleaseAndLeave();
    }
  }

  /** The assistant messages one frame adds when it is not a `connection` frame: its reply text, if it is a reply with text. */
  function ReplyOf(f: Inbound): seq<Message> {
    if f.Parsed? && IsReplyKind(f.frame.kind) && ReplyContent(f.frame).Some?
    then [AiSays(ReplyContent(f.frame).value)] else []
  }

  /** The assistant messages a run of frames adds: one per reply frame with text, in receipt order. */
  function RepliesOf(frames: seq<Inbound>): seq<Message> {
    if frames == [] then []
    else RepliesOf(frames[..|frames| - 1]) + ReplyOf(frames[|frames| - 1])
  }

  /** One frame that is not a `connection` frame adds exactly what ReplyOf says and sends nothing. */
  method ReceiveOne(s: ConversationSession, f: Inbound)
    requires s.Valid()
    requires !(f.Parsed? && f.frame.kind == "connection")
    modifies s
    ensures s.Valid()
    ensures s.messages == old(s.messages) + ReplyOf(f)
    ensures s.sent == old(s.sent)
  {
    s.OnMessage(f);
  }

  lemma RepliesOfPrefix(frames: seq<Inbound>, i: nat)
    requires i < |frames|
    ensures RepliesOf(frames[..i + 1]) == RepliesOf(frames[..i]) + ReplyOf(frames[i])
  {
    assert frames[..i + 1][..i] == frames[..i];
  }

  /**
   * A run of frames with no `connection` frame among them: the transcript gains exactly one
   * assistant message per reply frame with text, in the order received, after what it held.
   */
  method ReceiveAll(s: ConversationSession, frames: seq<Inbound>)
    requires s.Valid()
    requires forall i :: 0 <= i < |frames| ==> !(frames[i].Parsed? && frames[i].frame.kind == "connection")
    modifies s
    ensures s.Valid()
    ensures s.messages == old(s.messages) + RepliesOf(frames)
    ensures s.sent == old(s.sent)
  {
    ghost var before, sent0 := s.messages, s.sent;
    var i := 0;
    while i < |frames|
      invariant 0 <= i <= |frames|
      invariant s.Valid()
      invariant s.messages == before + RepliesOf(frames[..i])
      invariant s.sent == sent0
    {
      ghost var done := s.messages;
      ReceiveOne(s, frames[i]);
      RepliesOfPrefix(frames, i);
      assert s.messages == before + RepliesOf(frames[..i + 1]) by {
        assert s.messages == done + ReplyOf(frames[i]);
      }
      i := i + 1;
    }
    assert frames[..i] == frames;
  }

  /**
   * The first mount on a browser that refuses to create the recorder: ending the session
   * uploads nothing, and the recording stream's tracks are never stopped.
   */
  method RefusedRecorderUploadsNothing(lastChunk: VideoRecorder.Chunk, token: Option<string>, response: VideoRecorder.HttpResponse)
    returns (upload: Option<VideoRecorder.UploadRequest>, tracksLive: bool)
    ensures upload == None && tracksLive
  {
    var recorder := new VideoRecorder.VideoRecorderService();
    var s := new ConversationSession(true, recorder);
    s.Mount(true, true, VideoRecorder.ConstructorThrows, 0, "abc");
    upload := s.EndSession(lastChunk, token, response);
    tracksLive := recorder.tracksLive;
  }

  /** Two connection effects in a row with a token create exactly one socket. */
  method ConnectTwiceCreatesOneSocket(s: ConversationSession, token: Option<string>)
    requires s.Valid() && !s.connectionAttempted && !s.socketRef && Truthy(token)
    modifies s
    ensures s.Valid()
    ensures s.socketsCreated == old(s.socketsCreated) + 1 && s.socketRef && s.connectionAttempted
  {
    s.Connect(token);
    s.Connect(token);
  }

  /** Two `connection` frames add at most one message, at the end. */
  method RepeatedWelcomeShownOnce(s: ConversationSession, a: Frame, b: Frame)
    requires s.Valid() && a.kind == "connection" && b.kind == "connection"
    modifies s
    ensures s.Valid()
    ensures |old(s.messages)| <= |s.messages| <= |old(s.messages)| + 1 && s.messages[..|old(s.messages)|] == old(s.messages)
  {
    s.OnMessage(Parsed(a));
    s.OnMessage(Parsed(b));
  }

  /** A reply arriving while an utterance plays is shown but not spoken. */
  method ReplyWhileSpeaking(s: ConversationSession, text: string)
    requires s.Valid() && s.isSpeaking && text != ""
    modifies s
    ensures s.Valid()
    ensures s.messages == old(s.messages) + [AiSays(text)] && s.utterances == old(s.utterances)
  {
    s.OnMessage(Parsed(Frame("response", None, None, Some(text))));
  }

  /** Typing frames never touch the transcript. */
  method TypingLeavesTranscript(s: ConversationSession)
    requires s.Valid()
    modifies s
    ensures s.Valid()
    ensures s.messages == old(s.messages) && !s.isTyping
  {
    s.OnMessage(Parsed(Frame("typing_start", None, None, None)));
    s.OnMessage(Parsed(Frame("typing_stop", None, None, None)));
  }
}
