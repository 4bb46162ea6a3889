/**
 * The third revision of the conversation screen (EverydayConversation.js): the token comes
 * from local storage or the signed-in user, opening the socket sends a greeting, every
 * assistant frame has a fallback text, unknown frames with text are shown, recognition
 * errors get specific messages, and speech goes through a pausable synthesis controller.
 */
module ThirdRevision {
  import opened Wrappers
  import opened JsText
  import opened Chat
  import Recognition

  const LoginRequired := "Please log in to start chatting"
  const Greeting := "Hello"
  const NoContent := "No content received"
  const DefaultServerError := "An error occurred"
  const RecognitionUnsupported := "Speech recognition not supported. Please use Chrome, Edge, or Safari."
  const MicDenied := "Microphone access denied. Please allow microphone access and try again."
  const MicMissing := "No microphone found. Please check your device."
  const StartFailedPrefix := "Could not start speech recognition: "
  const NoConnection := "No connection to server. Please refresh the page."
  const NotReady := "Connection not ready. Please wait..."
  const Dashboard := "/dashboard"

  const NoSpeechMessage := "No speech detected. " + "Ready for your next input..."
  const AudioCaptureMessage := "Microphone not found or not working. " + "Please check your microphone settings."
  const NotAllowedMessage := "Microphone access denied. " + "Please allow microphone access in your browser settings."
  const NetworkMessage := "Network error with speech recognition. " + "Please check your connection."
  const OtherErrorPrefix := "Speech recognition error: "

  /** The message shown for a speech-recognition error code. */
  function RecognitionErrorMessage(code: string): (m: string)
    ensures code !in {"no-speech", "audio-capture", "not-allowed", "network"} ==> m == OtherErrorPrefix + code
  {
    if code == "no-speech" then NoSpeechMessage
    else if code == "audio-capture" then AudioCaptureMessage
    else if code == "not-allowed" then NotAllowedMessage
    else if code == "network" then NetworkMessage
    else OtherErrorPrefix + code
  }

  /** The four known codes get four different messages (their lengths differ). */
  lemma KnownCodesDistinct()
    ensures RecognitionErrorMessage("no-speech") != RecognitionErrorMessage("audio-capture")
    ensures RecognitionErrorMessage("no-speech") != RecognitionErrorMessage("not-allowed")
    ensures RecognitionErrorMessage("no-speech") != RecognitionErrorMessage("network")
    ensures RecognitionErrorMessage("audio-capture") != RecognitionErrorMessage("not-allowed")
    ensures RecognitionErrorMessage("audio-capture") != RecognitionErrorMessage("network")
    ensures RecognitionErrorMessage("not-allowed") != RecognitionErrorMessage("network")
  {
    assert |NoSpeechMessage| == 48 && |AudioCaptureMessage| == 75;
    assert |NotAllowedMessage| == 82 && |NetworkMessage| == 68;
  }

  /** Any other code is shown after the generic prefix, so different codes give different messages. */
  lemma OtherCodesDistinct(a: string, b: string)
    requires a !in {"no-speech", "audio-capture", "not-allowed", "network"}
    requires b !in {"no-speech", "audio-capture", "not-allowed", "network"}
    requires a != b
    ensures StartsWith(RecognitionErrorMessage(a), OtherErrorPrefix)
    ensures RecognitionErrorMessage(a) != RecognitionErrorMessage(b)
  {
    var prefix := OtherErrorPrefix;
    assert RecognitionErrorMessage(a)[..|prefix|] == prefix;
    assert RecognitionErrorMessage(a)[|prefix|..] == a;
    assert RecognitionErrorMessage(b)[|prefix|..] == b;
  }

  /**
   * An unknown code's message is none of the four known messages: it starts with the generic
   * prefix, and none of them does.
   */
  lemma OtherCodeNotKnown(code: string)
    requires code !in {"no-speech", "audio-capture", "not-allowed", "network"}
    ensures RecognitionErrorMessage(code) !in
      {NoSpeechMessage, AudioCaptureMessage, NotAllowedMessage, NetworkMessage}
  {
    assert RecognitionErrorMessage(code)[0] == 'S';
    assert NoSpeechMessage[0] == 'N' && AudioCaptureMessage[0] == 'M';
    assert NotAllowedMessage[0] == 'M' && NetworkMessage[0] == 'N';
  }

  /** The socket onerror's message; `eventType` is the error event's `type`. */
  function SocketErrorMessage(eventType: Option<string>): (m: string)
    ensures StartsWith(m, "Connection error: ")
    ensures Truthy(eventType) ==> Contains(m, eventType.value)
  {
    var shown := FirstTruthy([eventType]).GetOr("Unknown error");
    var m := "Connection error: " + shown + ". Please check if the backend is running.";
    assert m[..18] == "Connection error: ";
    assert OccursAt(m, shown, 18) by {
      assert m[18..18 + |shown|] == shown;
    }
    m
  }

  /** What `startListening`'s `try` block threw: the error's `name` and `message`. */
  datatype Thrown = Thrown(name: string, message: string)

  /** The assistant text of a frame: `data.content || data.text || data.message`. */
  function FrameText(f: Frame): Option<string> {
    FirstTruthy([f.content, f.text, f.message])
  }

  /** The frames of `sent` whose mark is off, in order: what was sent apart from the greetings. */
  function Unmarked(sent: seq<Outgoing>, marks: seq<bool>): seq<Outgoing>
    requires |marks| == |sent|
  {
    if sent == [] then []
    else Unmarked(sent[..|sent| - 1], marks[..|marks| - 1]) + (if marks[|marks| - 1] then [] else [sent[|sent| - 1]])
  }

  /** Sending one more frame adds it to the unmarked frames exactly when its mark is off. */
  lemma UnmarkedAppend(sent: seq<Outgoing>, marks: seq<bool>, f: Outgoing, greeting: bool)
    requires |marks| == |sent|
    ensures Unmarked(sent + [f], marks + [greeting]) == Unmarked(sent, marks) + (if greeting then [] else [f])
  {
    assert (sent + [f])[..|sent|] == sent;
    assert (marks + [greeting])[..|marks|] == marks;
  }

  class ThirdConversation {
    var messages: seq<Message>
    var inputMessage: string
    var isConnected: bool
    var isTyping: bool
    var error: Option<string>
    /** The `socket` state variable is set. */
    var hasSocket: bool
    var readyState: ReadyState
    var socketUrl: string
    /** The `recognition` state variable is set. */
    var hasRecognition: bool
    var isListening: bool
    var transcript: string
    var isSpeaking: bool
    var isTTSPaused: bool
    /** `currentAudio` holds a synthesis controller. */
    var hasAudio: bool
    /** The texts handed to the synthesis controller, in order. */
    var utterances: seq<string>
    /** The frames sent on the socket, in order. */
    var sent: seq<Outgoing>
    var hasStream: bool
    var isVideoEnabled: bool
    var navigatedTo: Option<string>

    /** For each frame sent, whether it is a greeting sent by `onopen`. */
    ghost var greetingMarks: seq<bool>

    /**
     * Every assistant message has text; every frame sent is a greeting or the frame of a
     * user message on screen, and the frames other than the greetings are exactly the user
     * messages, in order; listening needs an engine.
     */
    ghost predicate Valid()
      reads this`messages, this`sent, this`greetingMarks, this`isListening, this`hasRecognition
    {
      && (forall i :: 0 <= i < |messages| && messages[i].role == Ai ==> Truthy(messages[i].content))
      && |greetingMarks| == |sent|
      && (forall i :: 0 <= i < |sent| && greetingMarks[i] ==> sent[i] == ChatMessage(Greeting))
      && Unmarked(sent, greetingMarks) == UserFrames(messages)
      && (isListening ==> hasRecognition)
    }

    constructor ()
      ensures Valid()
      ensures messages == [] && inputMessage == "" && !isConnected && !isTyping && error == None
      ensures !hasSocket && !hasRecognition && !isListening && transcript == ""
      ensures !isSpeaking && !isTTSPaused && !hasAudio && utterances == [] && sent == []
      ensures !hasStream && !isVideoEnabled && navigatedTo == None
    {
      messages, inputMessage := [], "";
      isConnected, isTyping, error := false, false, None;
      hasSocket, readyState, socketUrl := false, Connecting, "";
      hasRecognition, isListening, transcript := false, false, "";
      isSpeaking, isTTSPaused, hasAudio := false, false, false;
      utterances, sent := [], [];
      hasStream, isVideoEnabled, navigatedTo := false, false, None;
      greetingMarks := [];
    }

    /** The connection effect: the stored token, else the user's; with neither the error is shown. */
    method Connect(storedToken: Option<string>, userToken: Option<string>)
      requires Valid()
      modifies this`error, this`hasSocket, this`readyState, this`socketUrl
      ensures Valid()
      ensures FirstTruthy([storedToken, userToken]).None? ==>
        (&& error == Some(LoginRequired) && hasSocket == old(hasSocket)
         && readyState == old(readyState) && socketUrl == old(socketUrl))
      ensures FirstTruthy([storedToken, userToken]).Some? ==>
        (&& hasSocket && readyState == Connecting && error == old(error)
         && socketUrl == ChatEndpoint + (if Truthy(storedToken) then storedToken.value else userToken.value))
    {
      var token := FirstTruthy([storedToken, userToken]);
      if token.None? {
        error := Some(LoginRequired);
        return;
      }
      socketUrl := ChatEndpoint + token.value;
      readyState := Connecting;
      hasSocket := true;
    }

    /** onopen: connected, the error cleared, and the greeting sent. */
    method OnOpen()
      requires Valid()
      modifies this`readyState, this`isConnected, this`error, this`sent, this`greetingMarks
      ensures Valid()
      ensures readyState == Open && isConnected && error == None
      ensures sent == old(sent) + [ChatMessage(Greeting)]
    {
      readyState := Open;
      isConnected := true;
      error := None;
      UnmarkedAppend(sent, greetingMarks, ChatMessage(Greeting), true);
      sent := sent + [ChatMessage(Greeting)];
      greetingMarks := greetingMarks + [true];
    }

    /**
     * speakText up to its first await: skipped for a missing or empty text, and while
     * speaking unless paused; otherwise speaking starts unpaused and the controller gets the text.
     */
    method SpeakText(text: Option<string>)
      requires Valid()
      modifies this`isSpeaking, this`isTTSPaused, this`utterances
      ensures Valid()
      ensures !Truthy(text) || (old(isSpeaking) && !old(isTTSPaused)) ==>
        (&& isSpeaking == old(isSpeaking) && isTTSPaused == old(isTTSPaused) && utterances == old(utterances))
      ensures Truthy(text) && !(old(isSpeaking) && !old(isTTSPaused)) ==>
        isSpeaking && !isTTSPaused && utterances == old(utterances) + [text.value]
    {
      if !Truthy(text) || (isSpeaking && !isTTSPaused) {
        return;
      }
      isSpeaking := true;
      isTTSPaused := false;
      utterances := utterances + [text.value];
    }

    /** Appends an assistant message whose text is known to be non-empty. */
    method AppendAi(text: string)
      requires Valid() && text != ""
      modifies this`messages
      ensures Valid()
      ensures messages == old(messages) + [AiSays(text)]
    {
      UserFramesAppend(messages, AiSays(text));
      messages := messages + [AiSays(text)];
    }

    /** Shows a user's text and sends it. */
    method AppendUser(text: string)
      requires Valid()
      modifies this`messages, this`sent, this`greetingMarks
      ensures Valid()
      ensures messages == old(messages) + [UserSays(text)] && sent == old(sent) + [ChatMessage(text)]
    {
      UserFramesAppend(messages, UserSays(text));
      UnmarkedAppend(sent, greetingMarks, ChatMessage(text), false);
      messages := messages + [UserSays(text)];
      sent := sent + [ChatMessage(text)];
      greetingMarks := greetingMarks + [false];
    }

    /**
     * A `message` or `response` frame: an assistant message with the frame's text, or "No
     * content received", typing stops and the frame's text, if any, is spoken.
     */
    method OnReply(data: Frame)
      requires Valid()
      modifies this`messages, this`isTyping, this`isSpeaking, this`isTTSPaused, this`utterances
      ensures Valid()
      ensures messages == old(messages) + [AiSays(FrameText(data).GetOr(NoContent))] && !isTyping
      ensures FrameText(data).None? || (old(isSpeaking) && !old(isTTSPaused)) ==>
        isSpeaking == old(isSpeaking) && isTTSPaused == old(isTTSPaused) && utterances == old(utterances)
      ensures FrameText(data).Some? && !(old(isSpeaking) && !old(isTTSPaused)) ==>
        isSpeaking && !isTTSPaused && utterances == old(utterances) + [FrameText(data).value]
    {
      var text := FrameText(data);
      AppendAi(text.GetOr(NoContent));
      isTyping := false;
      SpeakText(text);
    }

    /** A frame of any other type: shown as an assistant message, and typing cleared, when it has text. */
    method OnUnknown(data: Frame)
      requires Valid()
      modifies this`messages, this`isTyping
      ensures Valid()
      ensures FrameText(data).None? ==> messages == old(messages) && isTyping == old(isTyping)
      ensures FrameText(data).Some? ==> messages == old(messages) + [AiSays(FrameText(data).value)] && !isTyping
    {
      var text := FrameText(data);
      if text.Some? {
        AppendAi(text.value);
        isTyping := false;
      }
    }

    /**
     * onmessage. A frame that does not parse changes nothing. `message` and `response`: an
     * assistant message with the frame's text, or "No content received", typing stops and the
     * frame's text, if any, is spoken. `connection` and `welcome` are ignored. `ack` and `typing`
     * set typing. `error` shows its `content`, or "An error occurred", and clears typing. Any
     * other type with text is shown as an assistant message and clears typing.
     */
    method OnMessage(inbound: Inbound)
      requires Valid()
      modifies this`messages, this`isTyping, this`error, this`isSpeaking, this`isTTSPaused, this`utterances
      ensures Valid()
      ensures inbound.Malformed? ==>
        (&& messages == old(messages) && isTyping == old(isTyping) && error == old(error)
         && isSpeaking == old(isSpeaking) && isTTSPaused == old(isTTSPaused) && utterances == old(utterances))
      ensures inbound.Parsed? && inbound.frame.kind in {"message", "response"} ==>
        (&& messages == old(messages) + [AiSays(FrameText(inbound.frame).GetOr(NoContent))]
         && !isTyping && error == old(error)
         && (FrameText(inbound.frame).None? || (old(isSpeaking) && !old(isTTSPaused)) ==>
               isSpeaking == old(isSpeaking) && isTTSPaused == old(isTTSPaused) && utterances == old(utterances))
         && (FrameText(inbound.frame).Some? && !(old(isSpeaking) && !old(isTTSPaused)) ==>
               isSpeaking && !isTTSPaused && utterances == old(utterances) + [FrameText(inbound.frame).value]))
      ensures inbound.Parsed? && inbound.frame.kind in {"connection", "welcome"} ==>
        (&& messages == old(messages) && isTyping == old(isTyping) && error == old(error)
         && isSpeaking == old(isSpeaking) && isTTSPaused == old(isTTSPaused) && utterances == old(utterances))
      ensures inbound.Parsed? && inbound.frame.kind in {"ack", "typing"} ==>
        (&& isTyping && messages == old(messages) && error == old(error)
         && isSpeaking == old(isSpeaking) && isTTSPaused == old(isTTSPaused) && utterances == old(utterances))
      ensures inbound.Parsed? && inbound.frame.kind == "error" ==>
        (&& error == Some(FirstTruthy([inbound.frame.content]).GetOr(DefaultServerError)) && !isTyping
         && messages == old(messages)
         && isSpeaking == old(isSpeaking) && isTTSPaused == old(isTTSPaused) && utterances == old(utterances))
      ensures (inbound.Parsed? && inbound.frame.kind !in {"message", "response", "connection", "welcome", "ack", "typing", "error"}) ==>
        (&& (FrameText(inbound.frame).None? ==>
          (&& messages == old(messages) && isTyping == old(isTyping) && error == old(error)
           && isSpeaking == old(isSpeaking) && isTTSPaused == old(isTTSPaused) && utterances == old(utterances)))
         && (FrameText(inbound.frame).Some? ==>
               messages == old(messages) + [AiSays(FrameText(inbound.frame).value)] && !isTyping
               && error == old(error) && isSpeaking == old(isSpeaking) && isTTSPaused == old(isTTSPaused)
               && utterances == old(utterances)))
    {
      if inbound.Malformed? {
        return;
      }
      var data := inbound.frame;
      if data.kind == "message" || data.kind == "response" {
        OnReply(data);
        return;
      }
      if data.kind == "connection" || data.kind == "welcome" {
        return;
      }
      if data.kind == "ack" || data.kind == "typing" {
        isTyping := true;
        return;
      }
      if data.kind == "error" {
        error := Some(FirstTruthy([data.content]).GetOr(DefaultServerError));
        isTyping := false;
        return;
      }
      OnUnknown(data);
    }

    /** onclose: disconnected (the reconnect timer only logs). */
    method OnClose()
      requires Valid()
      modifies this`readyState, this`isConnected
      ensures Valid()
      ensures readyState == Closed && !isConnected
    {
      readyState := Closed;
      isConnected := false;
    }

    /** onerror of the socket: the error, naming the event type, is shown and the screen disconnected. */
    method OnSocketError(eventType: Option<string>)
      requires Valid()
      modifies this`error, this`isConnected
      ensures Valid()
      ensures error == Some(SocketErrorMessage(eventType)) && !isConnected
    {
      error := Some(SocketErrorMessage(eventType));
      isConnected := false;
    }

    /** The connection effect's cleanup: the socket is closed. */
    method Unmount()
      requires Valid()
      modifies this`readyState
      ensures Valid()
      ensures readyState == (if hasSocket then AfterClose(old(readyState)) else old(readyState))
    {
      if hasSocket {
        readyState := AfterClose(readyState);
      }
    }

    /** The recognition set-up effect: an engine when the browser offers one, the unsupported error otherwise. */
    method SetupRecognition(supported: bool)
      requires Valid()
      modifies this`hasRecognition, this`error
      ensures Valid()
      ensures supported ==> hasRecognition && error == old(error)
      ensures !supported ==> hasRecognition == old(hasRecognition) && error == Some(RecognitionUnsupported)
    {
      if !supported {
        error := Some(RecognitionUnsupported);
        return;
      }
      hasRecognition := true;
    }

    /** The final-text branch of onresult: the interim transcript is cleared and, on an open socket, the trimmed text shown and sent. */
    method OnFinalText(fin: string)
      requires Valid()
      modifies this`transcript, this`messages, this`sent, this`greetingMarks
      ensures Valid()
      ensures transcript == ""
      ensures hasSocket && readyState == Open ==>
        messages == old(messages) + [UserSays(Trim(fin))] && sent == old(sent) + [ChatMessage(Trim(fin))]
      ensures !(hasSocket && readyState == Open) ==> messages == old(messages) && sent == old(sent)
    {
      transcript := "";
      if hasSocket && readyState == Open {
        AppendUser(Trim(fin));
      }
    }

    /**
     * onresult. With final text the interim transcript is cleared and, if the socket is open,
     * the trimmed text is appended as a user message and sent. Without final text a non-empty
     * interim text replaces the transcript, and an empty one leaves it.
     */
    method OnResult(results: seq<Recognition.SpeechResult>, resultIndex: nat)
      requires Valid()
      modifies this`transcript, this`messages, this`sent, this`greetingMarks
      ensures Valid()
      ensures Recognition.FinalText(results, resultIndex) == "" ==>
        (&& messages == old(messages) && sent == old(sent)
         && transcript == (if Recognition.InterimText(results, resultIndex) != ""
                           then Recognition.InterimText(results, resultIndex) else old(transcript)))
      ensures
        var fin := Recognition.FinalText(results, resultIndex);
        fin != "" ==>
          && transcript == ""
          && (hasSocket && readyState == Open ==>
                messages == old(messages) + [UserSays(Trim(fin))] && sent == old(sent) + [ChatMessage(Trim(fin))])
          && (!(hasSocket && readyState == Open) ==> messages == old(messages) && sent == old(sent))
    {
      var finalTranscript, interimTranscript := Recognition.Collect(results, resultIndex);
      if finalTranscript != "" {
        OnFinalText(finalTranscript);
      } else if interimTranscript != "" {
        transcript := interimTranscript;
      }
    }

    /** The engine's onerror: the code's message is shown and listening stops. */
    method OnRecognitionError(code: string)
      requires Valid()
      modifies this`error, this`isListening
      ensures Valid()
      ensures error == Some(RecognitionErrorMessage(code)) && !isListening
    {
      error := Some(RecognitionErrorMessage(code));
      isListening := false;
    }

    /** The engine's onend: listening stops. */
    method OnRecognitionEnded()
      requires Valid()
      modifies this`isListening
      ensures Valid()
      ensures !isListening
    {
      isListening := false;
    }

    /**
     * startListening, with an engine and not listening: `thrown` is what the microphone check
     * or `recognition.start()` threw, if anything. Success starts listening and clears the
     * transcript; a denied or missing microphone shows its message; "already started" counts
     * as listening; anything else shows its message.
     */
    method StartListening(thrown: Option<Thrown>)
      requires Valid()
      modifies this`isListening, this`transcript, this`error
      ensures Valid()
      ensures !(hasRecognition && !old(isListening)) ==>
        (&& isListening == old(isListening) && transcript == old(transcript) && error == old(error))
      ensures hasRecognition && !old(isListening) ==>
        match thrown
        case None => isListening && transcript == "" && error == old(error)
        case Some(t) =>
          transcript == old(transcript)
          && (t.name == "NotAllowedError" ==> !isListening && error == Some(MicDenied))
          && (t.name == "NotFoundError" ==> !isListening && error == Some(MicMissing))
          && (t.name !in {"NotAllowedError", "NotFoundError"} && Contains(t.message, "already started") ==>
                isListening && error == old(error))
          && (t.name !in {"NotAllowedError", "NotFoundError"} && !Contains(t.message, "already started") ==>
                !isListening && error == Some(StartFailedPrefix + t.message))
    {
      if !(hasRecognition && !isListening) {
        return;
      }
      match thrown {
        case None =>
          isListening := true;
          transcript := "";
        case Some(t) =>
          if t.name == "NotAllowedError" {
            error := Some(MicDenied);
          } else if t.name == "NotFoundError" {
            error := Some(MicMissing);
          } else if Contains(t.message, "already started") {
            isListening := true;
          } else {
            error := Some(StartFailedPrefix + t.message);
          }
      }
    }

    /** stopListening: only while listening. */
    method StopListening()
      requires Valid()
      modifies this`isListening
      ensures Valid()
      ensures !isListening
    {
      if hasRecognition && isListening {
        isListening := false;
      }
    }

    /** The listen button: stops when listening, starts otherwise. */
    method ListenClick(thrown: Option<Thrown>)
      requires Valid()
      modifies this`isListening, this`transcript, this`error
      ensures Valid()
      ensures old(isListening) ==> !isListening && transcript == old(transcript) && error == old(error)
      ensures !old(isListening) && hasRecognition && thrown.None? ==> isListening && transcript == ""
      ensures !old(isListening) && !hasRecognition ==>
        (&& isListening == old(isListening) && transcript == old(transcript) && error == old(error))
    {
      if isListening {
        StopListening();
      } else {
        StartListening(thrown);
      }
    }

    /** The synthesis controller was created: it becomes `currentAudio`. */
    method OnSpeechReady()
      requires Valid()
      modifies this`hasAudio
      ensures Valid()
      ensures hasAudio
    {
      hasAudio := true;
    }

    /** Creating the controller failed: speaking stops and `currentAudio` is cleared. */
    method OnSpeechFailed()
      requires Valid()
      modifies this`isSpeaking, this`hasAudio
      ensures Valid()
      ensures !isSpeaking && !hasAudio
    {
      isSpeaking := false;
      hasAudio := false;
    }

    /** The controller's onended and onerror: speaking stops and `currentAudio` is cleared. */
    method OnPlaybackEnded()
      requires Valid()
      modifies this`isSpeaking, this`hasAudio
      ensures Valid()
      ensures !isSpeaking && !hasAudio
    {
      isSpeaking := false;
      hasAudio := false;
    }

    /** The controller's onpause (`paused`) and onplay (`!paused`). */
    method OnPlaybackPaused(paused: bool)
      requires Valid()
      modifies this`isTTSPaused
      ensures Valid()
      ensures isTTSPaused == paused
    {
      isTTSPaused := paused;
    }

    /** toggleTTSPause: flips the paused flag, and only while a controller exists. */
    method TogglePause()
      requires Valid()
      modifies this`isTTSPaused
      ensures Valid()
      ensures isTTSPaused == (if hasAudio then !old(isTTSPaused) else old(isTTSPaused))
    {
      if hasAudio {
        if isTTSPaused {
          isTTSPaused := false;
        } else {
          isTTSPaused := true;
        }
      }
    }

    /** The input box's onChange. */
    method TypeInput(value: string)
      requires Valid()
      modifies this`inputMessage
      ensures Valid()
      ensures inputMessage == value
    {
      inputMessage := value;
    }

    /** The error banner's dismiss button. */
    method DismissError()
      requires Valid()
      modifies this`error
      ensures Valid()
      ensures error == None
    {
      error := None;
    }

    /**
     * handleSendMessage, checked in order: blank input does nothing; no socket and a socket
     * that is not open each show their error; otherwise the trimmed input is appended as a
     * user message, the input cleared and the text sent.
     */
    method SendTyped()
      requires Valid()
      modifies this`messages, this`inputMessage, this`sent, this`error, this`greetingMarks
      ensures Valid()
      ensures Trim(old(inputMessage)) == "" ==>
        messages == old(messages) && inputMessage == old(inputMessage) && sent == old(sent) && error == old(error)
      ensures Trim(old(inputMessage)) != "" && !hasSocket ==>
        error == Some(NoConnection) && messages == old(messages) && sent == old(sent)
        && inputMessage == old(inputMessage)
      ensures Trim(old(inputMessage)) != "" && hasSocket && readyState != Open ==>
        error == Some(NotReady) && messages == old(messages) && sent == old(sent)
        && inputMessage == old(inputMessage)
      ensures Trim(old(inputMessage)) != "" && hasSocket && readyState == Open ==>
        (&& messages == old(messages) + [UserSays(Trim(old(inputMessage)))]
         && sent == old(sent) + [ChatMessage(Trim(old(inputMessage)))]
         && inputMessage == "" && error == old(error))
    {
      var text := Trim(inputMessage);
      if text == "" {
        return;
      }
      if !hasSocket {
        error := Some(NoConnection);
        return;
      }
      if readyState != Open {
        error := Some(NotReady);
        return;
      }
      AppendUser(text);
      inputMessage := "";
    }

    /**
     * stopVideo: listening stops, the camera stream is released with the transcript cleared,
     * and the screen goes to the dashboard. The socket stays open.
     */
    method StopVideo()
      requires Valid()
      modifies this`isListening, this`hasStream, this`isVideoEnabled, this`transcript, this`navigatedTo
      ensures Valid()
      ensures !isListening && !hasStream && navigatedTo == Some(Dashboard)
      ensures old(hasStream) ==> !isVideoEnabled && transcript == ""
      ensures !old(hasStream) ==> isVideoEnabled == old(isVideoEnabled) && transcript == old(transcript)
    {
      if isListening {
        StopListening();
      }
      if hasStream {
        hasStream := false;
        isVideoEnabled := false;
        transcript := "";
      }
      navigatedTo := Some(Dashboard);
    }
  }
}
