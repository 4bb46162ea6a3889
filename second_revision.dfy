/**
 * The second revision of the conversation screen (the component further down in
 * EverydayConversation_backup.js): the token comes from local storage, opening the socket
 * shows a fixed welcome in place of the transcript, the recognition engine is built on the
 * first listen, and final speech goes through `sendMessageToChat`.
 */
module SecondRevision {
  import opened Wrappers
  import opened JsText
  import opened Chat
  import Recognition

  const AuthRequired := "Authentication required. Please log in."
  const Welcome := "Hello! I'm your AI communication coach. How can I help you improve your everyday conversation skills today?"
  const ConnectionLost := "Connection lost. Attempting to reconnect..."
  const ConnectionFailed := "Connection error. Please check if the backend is running."
  const RecognitionUnsupported := "Speech recognition not supported in this browser"
  const NotConnected := "Not connected to AI. Please wait for connection or refresh the page."
  const RecognitionErrorPrefix := "Speech recognition error: "

  class SecondConversation {
    /** Whether the browser offers a speech recognition constructor. */
    const speechSupported: bool

    var messages: seq<Message>
    var inputMessage: string
    var isConnected: bool
    var isTyping: bool
    var error: Option<string>
    /** The `socket` state variable is set. */
    var hasSocket: bool
    var readyState: ReadyState
    var socketUrl: string
    /** The `recognition` state variable is set (the engine is built on the first listen). */
    var hasRecognition: bool
    var isListening: bool
    var transcript: string
    var isSpeaking: bool
    /** The texts handed to the synthesis engine, in order. */
    var utterances: seq<string>
    /** The frames sent on the socket, in order. */
    var sent: seq<Outgoing>

    /**
     * The frames of the user messages on screen are the last frames sent (opening the socket
     * replaces the transcript, so earlier frames may have scrolled away); an engine exists
     * whenever one is listening, and only in a browser that offers one.
     */
    ghost predicate Valid()
      reads this`sent, this`messages, this`isListening, this`hasRecognition
    {
      && SentEndsWith(sent, UserFrames(messages))
      && (isListening ==> hasRecognition)
      && (hasRecognition ==> speechSupported)
    }

    constructor (speechSupported: bool)
      ensures Valid()
      ensures this.speechSupported == speechSupported
      ensures messages == [] && inputMessage == "" && !isConnected && !isTyping && error == None
      ensures !hasSocket && !hasRecognition && !isListening && transcript == ""
      ensures !isSpeaking && utterances == [] && sent == []
    {
      this.speechSupported := speechSupported;
      messages, inputMessage := [], "";
      isConnected, isTyping, error := false, false, None;
      hasSocket, readyState, socketUrl := false, Connecting, "";
      hasRecognition, isListening, transcript := false, false, "";
      isSpeaking, utterances, sent := false, [], [];
    }

    /** Appending a message keeps the sent frames ending with the user frames when its own frame, if any, is sent with it. */
    static lemma AppendKeeps(sent: seq<Outgoing>, msgs: seq<Message>, m: Message)
      requires SentEndsWith(sent, UserFrames(msgs))
      ensures m.role != User ==> SentEndsWith(sent, UserFrames(msgs + [m]))
      ensures m.role == User ==> SentEndsWith(sent + [ChatMessage(m.content.GetOr(""))], UserFrames(msgs + [m]))
    {
      UserFramesAppend(msgs, m);
      SentEndsWithAppend(sent, UserFrames(msgs), FrameOf(m));
      assert sent + [] == sent;
    }

    /** Sending a user's text and showing it keeps the sent frames ending with the user frames. */
    static lemma SendKeeps(sent: seq<Outgoing>, msgs: seq<Message>, text: string)
      requires SentEndsWith(sent, UserFrames(msgs))
      ensures SentEndsWith(sent + [ChatMessage(text)], UserFrames(msgs + [UserSays(text)]))
    {
      AppendKeeps(sent, msgs, UserSays(text));
    }

    /** The connection effect: without a stored token the error is shown and no socket is made. */
    method Connect(storedToken: Option<string>)
      requires Valid()
      modifies this`error, this`hasSocket, this`readyState, this`socketUrl
      ensures Valid()
      ensures !Truthy(storedToken) ==>
        error == Some(AuthRequired) && hasSocket == old(hasSocket) && socketUrl == old(socketUrl)
        && readyState == old(readyState)
      ensures Truthy(storedToken) ==>
        (&& hasSocket && readyState == Connecting && socketUrl == ChatEndpoint + storedToken.value
         && error == old(error))
    {
      if !Truthy(storedToken) {
        error := Some(AuthRequired);
        return;
      }
      socketUrl := ChatEndpoint + storedToken.value;
      readyState := Connecting;
      hasSocket := true;
    }

    /** onopen: connected, the error cleared, and the transcript replaced by the one welcome. */
    method OnOpen()
      requires Valid()
      modifies this`readyState, this`isConnected, this`error, this`messages
      ensures Valid()
      ensures readyState == Open && isConnected && error == None && messages == [AiSays(Welcome)]
    {
      readyState := Open;
      isConnected := true;
      error := None;
      assert UserFrames([AiSays(Welcome)]) == UserFrames([]) + FrameOf(AiSays(Welcome));
      messages := [AiSays(Welcome)];
    }

    /** speakText up to its first await: skipped for a missing or empty text and while speaking. */
    method SpeakText(text: Option<string>)
      requires Valid()
      modifies this`isSpeaking, this`utterances
      ensures Valid()
      ensures !Truthy(text) || old(isSpeaking) ==>
        (&& isSpeaking == old(isSpeaking) && utterances == old(utterances))
      ensures Truthy(text) && !old(isSpeaking) ==> isSpeaking && utterances == old(utterances) + [text.value]
    {
      if !Truthy(text) || isSpeaking {
        return;
      }
      isSpeaking := true;
      utterances := utterances + [text.value];
    }

    /** The utterance's onend and onerror, and the path without speech synthesis: speaking stops. */
    method OnSpeechEnded()
      requires Valid()
      modifies this`isSpeaking
      ensures Valid()
      ensures !isSpeaking
    {
      isSpeaking := false;
    }

    /**
     * onmessage. A frame that does not parse changes nothing. `response`: its `content`
     * becomes an assistant message and typing stops, without speech. `message`: the same, and
     * it is spoken. `connection`: its `content` becomes a system message. `ack` sets typing.
     * `error` shows its `content` and clears typing. Any other type changes nothing.
     */
    method OnMessage(inbound: Inbound)
      requires Valid()
      modifies this`messages, this`isTyping, this`error, this`isSpeaking, this`utterances
      ensures Valid()
      ensures inbound.Malformed? ==>
        (&& messages == old(messages) && isTyping == old(isTyping) && error == old(error)
         && isSpeaking == old(isSpeaking) && utterances == old(utterances))
      ensures inbound.Parsed? && inbound.frame.kind == "response" ==>
        (&& messages == old(messages) + [Message(Ai, inbound.frame.content)] && !isTyping && error == old(error)
         && isSpeaking == old(isSpeaking) && utterances == old(utterances))
      ensures inbound.Parsed? && inbound.frame.kind == "message" ==>
        (&& messages == old(messages) + [Message(Ai, inbound.frame.content)] && !isTyping && error == old(error))
      ensures inbound.Parsed? && inbound.frame.kind == "message" && (!Truthy(inbound.frame.content) || old(isSpeaking)) ==>
        (&& isSpeaking == old(isSpeaking) && utterances == old(utterances))
      ensures inbound.Parsed? && inbound.frame.kind == "message" && Truthy(inbound.frame.content) && !old(isSpeaking) ==>
        (&& isSpeaking && utterances == old(utterances) + [inbound.frame.content.value])
      ensures inbound.Parsed? && inbound.frame.kind == "connection" ==>
        (&& messages == old(messages) + [Message(System, inbound.frame.content)]
         && isTyping == old(isTyping) && error == old(error)
         && isSpeaking == old(isSpeaking) && utterances == old(utterances))
      ensures inbound.Parsed? && inbound.frame.kind == "ack" ==>
        (&& isTyping && messages == old(messages) && error == old(error)
         && isSpeaking == old(isSpeaking) && utterances == old(utterances))
      ensures inbound.Parsed? && inbound.frame.kind == "error" ==>
        (&& error == inbound.frame.content && !isTyping && messages == old(messages)
         && isSpeaking == old(isSpeaking) && utterances == old(utterances))
      ensures (inbound.Parsed? && inbound.frame.kind !in {"response", "message", "connection", "ack", "error"}) ==>

          (&& messages == old(messages) && isTyping == old(isTyping) && error == old(error)
           && isSpeaking == old(isSpeaking) && utterances == old(utterances))
    {
      if inbound.Malformed? {
        return;
      }
      var data := inbound.frame;
      if data.kind == "response" {
        AppendMessage(Message(Ai, data.content));
        isTyping := false;
      } else if data.kind == "message" {
        OnReply(data);
      } else if data.kind == "connection" {
        AppendMessage(Message(System, data.content));
      } else if data.kind == "ack" {
        isTyping := true;
      } else if data.kind == "error" {
        error := data.content;
        isTyping := false;
      }
    }

    /** A `message` frame: its content joins the transcript, typing stops and it is spoken. */
    method OnReply(data: Frame)
      requires Valid()
      modifies this`messages, this`isTyping, this`isSpeaking, this`utterances
      ensures Valid()
      ensures messages == old(messages) + [Message(Ai, data.content)] && !isTyping
      ensures !Truthy(data.content) || old(isSpeaking) ==>
        (&& isSpeaking == old(isSpeaking) && utterances == old(utterances))
      ensures Truthy(data.content) && !old(isSpeaking) ==> isSpeaking && utterances == old(utterances) + [data.content.value]
    {
      AppendMessage(Message(Ai, data.content));
      isTyping := false;
      SpeakText(data.content);
    }

    /** A message that is not the user's joins the transcript; nothing is sent. */
    method AppendMessage(m: Message)
      requires Valid() && m.role != User
      modifies this`messages
      ensures Valid()
      ensures messages == old(messages) + [m]
    {
      AppendKeeps(sent, messages, m);
      messages := messages + [m];
    }

    /** onclose: disconnected and typing cleared; a close that was not clean shows the reconnect notice. */
    method OnClose(wasClean: bool)
      requires Valid()
      modifies this`readyState, this`isConnected, this`isTyping, this`error
      ensures Valid()
      ensures readyState == Closed && !isConnected && !isTyping
      ensures error == (if wasClean then old(error) else Some(ConnectionLost))
    {
      readyState := Closed;
      isConnected := false;
      isTyping := false;
      if !wasClean {
        error := Some(ConnectionLost);
      }
    }

    /** onerror of the socket: the connection error is shown and the screen is disconnected. */
    method OnSocketError()
      requires Valid()
      modifies this`error, this`isConnected
      ensures Valid()
      ensures error == Some(ConnectionFailed) && !isConnected
    {
      error := Some(ConnectionFailed);
      isConnected := false;
    }

    /** The connection effect's cleanup: an open socket is closed. */
    method Unmount()
      requires Valid()
      modifies this`readyState
      ensures Valid()
      ensures readyState == (if hasSocket && old(readyState) == Open then Closing else old(readyState))
    {
      if hasSocket && readyState == Open {
        readyState := Closing;
      }
    }

    /** Shows a user's text and sends it. */
    method AppendUser(text: string)
      requires Valid()
      modifies this`messages, this`sent
      ensures Valid()
      ensures messages == old(messages) + [UserSays(text)] && sent == old(sent) + [ChatMessage(text)]
    {
      SendKeeps(sent, messages, text);
      messages := messages + [UserSays(text)];
      sent := sent + [ChatMessage(text)];
    }

    /**
     * sendMessageToChat: non-blank text on an open socket is appended trimmed as a user
     * message, sent, and typing starts; otherwise, when not connected, the not-connected
     * error is shown.
     */
    method SendToChat(message: string)
      requires Valid()
      modifies this`messages, this`sent, this`isTyping, this`error
      ensures Valid()
      ensures Trim(message) != "" && hasSocket && readyState == Open ==>
        (&& messages == old(messages) + [UserSays(Trim(message))]
         && sent == old(sent) + [ChatMessage(Trim(message))] && isTyping && error == old(error))
      ensures !(Trim(message) != "" && hasSocket && readyState == Open) ==>
        (&& messages == old(messages) && sent == old(sent) && isTyping == old(isTyping)
         && error == (if isConnected then old(error) else Some(NotConnected)))
    {
      var text := Trim(message);
      if text != "" && hasSocket && readyState == Open {
        AppendUser(text);
        isTyping := true;
        return;
      }
      if !isConnected {
        error := Some(NotConnected);
      }
    }

    /**
     * onresult: final text goes to `sendMessageToChat` and the transcript ends cleared;
     * without final text the interim text replaces the transcript.
     */
    method OnResult(results: seq<Recognition.SpeechResult>, resultIndex: nat)
      requires Valid()
      modifies this`transcript, this`messages, this`sent, this`isTyping, this`error
      ensures Valid()
      ensures Recognition.FinalText(results, resultIndex) == "" ==>
        (&& transcript == Recognition.InterimText(results, resultIndex)
         && messages == old(messages) && sent == old(sent) && isTyping == old(isTyping) && error == old(error))
      ensures
        var fin := Recognition.FinalText(results, resultIndex);
        fin != "" ==>
          && transcript == ""
          && (Trim(fin) != "" && hasSocket && readyState == Open ==>
                messages == old(messages) + [UserSays(Trim(fin))]
                && sent == old(sent) + [ChatMessage(Trim(fin))] && isTyping)
          && (!(Trim(fin) != "" && hasSocket && readyState == Open) ==>
                messages == old(messages) && sent == old(sent)
                && error == (if isConnected then old(error) else Some(NotConnected)))
    {
      var finalTranscript, interimTranscript := Recognition.Collect(results, resultIndex);
      if finalTranscript != "" {
        transcript := finalTranscript;
        SendToChat(finalTranscript);
        transcript := "";
      } else {
        transcript := interimTranscript;
      }
    }

    /** The engine's onstart: listening begins. Only an engine that exists can fire it. */
    method OnRecognitionStarted()
      requires Valid() && hasRecognition
      modifies this`isListening
      ensures Valid()
      ensures isListening
    {
      isListening := true;
    }

    /** The engine's onerror: the error code is shown and listening stops. */
    method OnRecognitionError(code: string)
      requires Valid()
      modifies this`error, this`isListening
      ensures Valid()
      ensures error == Some(RecognitionErrorPrefix + code) && !isListening
    {
      error := Some(RecognitionErrorPrefix + code);
      isListening := false;
    }

    /** The engine's onend: listening stops and the transcript is cleared. */
    method OnRecognitionEnded()
      requires Valid()
      modifies this`isListening, this`transcript
      ensures Valid()
      ensures !isListening && transcript == ""
    {
      isListening := false;
      transcript := "";
    }

    /**
     * startListening: the first call builds the engine, or shows the unsupported error in a
     * browser without one; listening itself begins with the engine's onstart. `start()` on an
     * existing engine that is already running throws out of the handler and changes nothing.
     */
    method StartListening()
      requires Valid()
      modifies this`hasRecognition, this`error
      ensures Valid()
      ensures !old(hasRecognition) && !speechSupported ==>
        error == Some(RecognitionUnsupported) && !hasRecognition
      ensures !(!old(hasRecognition) && !speechSupported) ==> hasRecognition && error == old(error)
    {
      if !hasRecognition {
        if !speechSupported {
          error := Some(RecognitionUnsupported);
          return;
        }
        hasRecognition := true;
      }
    }

    /** The input box's onChange. */
    method TypeInput(value: string)
      requires Valid()
      modifies this`inputMessage
      ensures Valid()
      ensures inputMessage == value
    {
      inputMessage := value;
    }

    /** The error banner's dismiss button. */
    method DismissError()
      requires Valid()
      modifies this`error
      ensures Valid()
      ensures error == None
    {
      error := None;
    }

    /**
     * handleSendMessage: with non-blank input and an open socket the trimmed input is
     * appended as a user message, the input cleared and the text sent; otherwise nothing.
     */
    method SendTyped()
      requires Valid()
      modifies this`messages, this`inputMessage, this`sent
      ensures Valid()
      ensures Trim(old(inputMessage)) == "" || !hasSocket || readyState != Open ==>
        (&& messages == old(messages) && inputMessage == old(inputMessage) && sent == old(sent))
      ensures Trim(old(inputMessage)) != "" && hasSocket && readyState == Open ==>
        (&& messages == old(messages) + [UserSays(Trim(old(inputMessage)))]
         && sent == old(sent) + [ChatMessage(Trim(old(inputMessage)))] && inputMessage == "")
    {
      var text := Trim(inputMessage);
      if text == "" || !hasSocket || readyState != Open {
        return;
      }
      AppendUser(text);
      inputMessage := "";
    }
  }
}
