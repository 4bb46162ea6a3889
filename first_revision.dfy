/**
 * The first revision of the conversation screen (the component at the top of
 * EverydayConversation_backup.js): the socket is opened with the signed-in user's token,
 * assistant text is spoken through the browser's speech synthesis, and recognition reacts
 * to final text only.
 */
module FirstRevision {
  import opened Wrappers
  import opened JsText
  import opened Chat
  import Recognition

  const ConnectionFailed := "Connection error. Please refresh the page."

  class FirstConversation {
    /** Whether the browser offers speech recognition (the set-up effect built an engine). */
    const hasRecognition: bool

    var messages: seq<Message>
    var inputMessage: string
    var isConnected: bool
    var isTyping: bool
    var error: Option<string>
    /** The `socket` state variable is set. */
    var hasSocket: bool
    var readyState: ReadyState
    var socketUrl: string
    var isListening: bool
    var transcript: string
    var isSpeaking: bool
    /** The texts handed to the synthesis engine, in order. */
    var utterances: seq<string>
    /** The frames sent on the socket, in order. */
    var sent: seq<Outgoing>

    /** What was sent is exactly the user messages, in order; listening needs an engine. */
    ghost predicate Valid()
      reads this`sent, this`messages, this`isListening
    {
      && sent == UserFrames(messages)
      && (isListening ==> hasRecognition)
    }

    constructor (hasRecognition: bool)
      ensures Valid()
      ensures this.hasRecognition == hasRecognition
      ensures messages == [] && inputMessage == "" && !isConnected && !isTyping && error == None
      ensures !hasSocket && !isListening && transcript == "" && !isSpeaking && utterances == [] && sent == []
    {
      this.hasRecognition := hasRecognition;
      messages, inputMessage := [], "";
      isConnected, isTyping, error := false, false, None;
      hasSocket, readyState, socketUrl := false, Connecting, "";
      isListening, transcript := false, "";
      isSpeaking, utterances, sent := false, [], [];
    }

    /** The connection effect: without the user's token nothing happens; otherwise a socket is made. */
    method Connect(token: Option<string>)
      requires Valid()
      modifies this`hasSocket, this`readyState, this`socketUrl
      ensures Valid()
      ensures !Truthy(token) ==>
        (&& hasSocket == old(hasSocket) && readyState == old(readyState) && socketUrl == old(socketUrl))
      ensures Truthy(token) ==> hasSocket && readyState == Connecting && socketUrl == ChatEndpoint + token.value
    {
      if !Truthy(token) {
        return;
      }
      socketUrl := ChatEndpoint + token.value;
      readyState := Connecting;
      hasSocket := true;
    }

    /** onopen: connected, and the error cleared. */
    method OnOpen()
      requires Valid()
      modifies this`readyState, this`isConnected, this`error
      ensures Valid()
      ensures readyState == Open && isConnected && error == None
    {
      readyState := Open;
      isConnected := true;
      error := None;
    }

    /**
     * speakText up to its first await: skipped for a missing or empty text and while speaking;
     * otherwise speaking starts and the text goes to the synthesis engine.
     */
    method SpeakText(text: Option<string>)
      requires Valid()
      modifies this`isSpeaking, this`utterances
      ensures Valid()
      ensures !Truthy(text) || old(isSpeaking) ==>
        (&& isSpeaking == old(isSpeaking) && utterances == old(utterances))
      ensures Truthy(text) && !old(isSpeaking) ==> isSpeaking && utterances == old(utterances) + [text.value]
    {
      if !Truthy(text) || isSpeaking {
        return;
      }
      isSpeaking := true;
      utterances := utterances + [text.value];
    }

    /** The utterance's onend and onerror, and the path without speech synthesis: speaking stops. */
    method OnSpeechEnded()
      requires Valid()
      modifies this`isSpeaking
      ensures Valid()
      ensures !isSpeaking
    {
      isSpeaking := false;
    }

    /**
     * onmessage. A frame that does not parse changes nothing. `message`: the frame's
     * `content`, as it is, becomes an assistant message, typing stops and it is spoken.
     * `connection`: its `content` becomes a system message. `ack` sets typing. `error` shows its
     * `content` and clears typing. Any other type changes nothing.
     */
    method OnMessage(inbound: Inbound)
      requires Valid()
      modifies this`messages, this`isTyping, this`error, this`isSpeaking, this`utterances
      ensures Valid()
      ensures inbound.Malformed? ==>
        (&& messages == old(messages) && isTyping == old(isTyping) && error == old(error)
         && isSpeaking == old(isSpeaking) && utterances == old(utterances))
      ensures inbound.Parsed? && inbound.frame.kind == "message" ==>
        (&& messages == old(messages) + [Message(Ai, inbound.frame.content)] && !isTyping && error == old(error))
      ensures inbound.Parsed? && inbound.frame.kind == "message" && (!Truthy(inbound.frame.content) || old(isSpeaking)) ==>
        (&& isSpeaking == old(isSpeaking) && utterances == old(utterances))
      ensures inbound.Parsed? && inbound.frame.kind == "message" && Truthy(inbound.frame.content) && !old(isSpeaking) ==>
        (&& isSpeaking && utterances == old(utterances) + [inbound.frame.content.value])
      ensures inbound.Parsed? && inbound.frame.kind == "connection" ==>
        (&& messages == old(messages) + [Message(System, inbound.frame.content)]
         && isTyping == old(isTyping) && error == old(error)
         && isSpeaking == old(isSpeaking) && utterances == old(utterances))
      ensures inbound.Parsed? && inbound.frame.kind == "ack" ==>
        (&& isTyping && messages == old(messages) && error == old(error)
         && isSpeaking == old(isSpeaking) && utterances == old(utterances))
      ensures inbound.Parsed? && inbound.frame.kind == "error" ==>
        (&& error == inbound.frame.content && !isTyping && messages == old(messages)
         && isSpeaking == old(isSpeaking) && utterances == old(utterances))
      ensures (inbound.Parsed? && inbound.frame.kind !in {"message", "connection", "ack", "error"}) ==>

          (&& messages == old(messages) && isTyping == old(isTyping) && error == old(error)
           && isSpeaking == old(isSpeaking) && utterances == old(utterances))
    {
      if inbound.Malformed? {
        return;
      }
      var data := inbound.frame;
      if data.kind == "message" {
        OnReply(data);
      } else if data.kind == "connection" {
        AppendMessage(Message(System, data.content));
      } else if data.kind == "ack" {
        isTyping := true;
      } else if data.kind == "error" {
        error := data.content;
        isTyping := false;
      }
    }

    /** A `message` frame: its content joins the transcript, typing stops and it is spoken. */
    method OnReply(data: Frame)
      requires Valid()
      modifies this`messages, this`isTyping, this`isSpeaking, this`utterances
      ensures Valid()
      ensures messages == old(messages) + [Message(Ai, data.content)] && !isTyping
      ensures !Truthy(data.content) || old(isSpeaking) ==>
        (&& isSpeaking == old(isSpeaking) && utterances == old(utterances))
      ensures Truthy(data.content) && !old(isSpeaking) ==> isSpeaking && utterances == old(utterances) + [data.content.value]
    {
      AppendMessage(Message(Ai, data.content));
      isTyping := false;
      SpeakText(data.content);
    }

    /** A message that is not the user's joins the transcript; nothing is sent. */
    method AppendMessage(m: Message)
      requires Valid() && m.role != User
      modifies this`messages
      ensures Valid()
      ensures messages == old(messages) + [m]
    {
      UserFramesAppend(messages, m);
      messages := messages + [m];
    }

    /** onclose: disconnected. */
    method OnClose()
      requires Valid()
      modifies this`readyState, this`isConnected
      ensures Valid()
      ensures readyState == Closed && !isConnected
    {
      readyState := Closed;
      isConnected := false;
    }

    /** onerror of the socket: the connection error is shown and the screen is disconnected. */
    method OnSocketError()
      requires Valid()
      modifies this`error, this`isConnected
      ensures Valid()
      ensures error == Some(ConnectionFailed) && !isConnected
    {
      error := Some(ConnectionFailed);
      isConnected := false;
    }

    /** The connection effect's cleanup: the socket is closed. */
    method Unmount()
      requires Valid()
      modifies this`readyState
      ensures Valid()
      ensures readyState == (if hasSocket then AfterClose(old(readyState)) else old(readyState))
    {
      if hasSocket {
        readyState := AfterClose(readyState);
      }
    }

    /**
     * onresult: only final text counts. With final text the transcript shows it; then, if the
     * socket is open, the trimmed text is appended as a user message and sent, and the
     * transcript cleared. Without final text nothing changes.
     */
    method OnResult(results: seq<Recognition.SpeechResult>, resultIndex: nat)
      requires Valid()
      modifies this`transcript, this`messages, this`sent
      ensures Valid()
      ensures Recognition.FinalText(results, resultIndex) == "" ==>
        (&& transcript == old(transcript) && messages == old(messages) && sent == old(sent))
      ensures
        var fin := Recognition.FinalText(results, resultIndex);
        fin != "" ==>
          if hasSocket && readyState == Open then
            && transcript == "" && messages == old(messages) + [UserSays(Trim(fin))]
            && sent == old(sent) + [ChatMessage(Trim(fin))]
          else transcript == fin && messages == old(messages) && sent == old(sent)
    {
      var finalTranscript, _ := Recognition.Collect(results, resultIndex);
      if finalTranscript != "" {
        transcript := finalTranscript;
        if hasSocket && readyState == Open {
          UserFramesAppend(messages, UserSays(Trim(finalTranscript)));
          messages := messages + [UserSays(Trim(finalTranscript))];
          transcript := "";
          sent := sent + [ChatMessage(Trim(finalTranscript))];
        }
      }
    }

    /** The recognition engine's onerror and onend: listening stops. */
    method OnRecognitionEnded()
      requires Valid()
      modifies this`isListening
      ensures Valid()
      ensures !isListening
    {
      isListening := false;
    }

    /**
     * startListening: with an engine and not listening, the engine is started (`engineStarts`:
     * `start()` returned; a throw escapes the handler and changes nothing), listening starts and
     * the transcript is cleared.
     */
    method StartListening(engineStarts: bool)
      requires Valid()
      modifies this`isListening, this`transcript
      ensures Valid()
      ensures hasRecognition && !old(isListening) && engineStarts ==> isListening && transcript == ""
      ensures !(hasRecognition && !old(isListening) && engineStarts) ==>
        (&& isListening == old(isListening) && transcript == old(transcript))
    {
      if hasRecognition && !isListening {
        if !engineStarts {
          return;
        }
        isListening := true;
        transcript := "";
      }
    }

    /** stopListening: only while listening. */
    method StopListening()
      requires Valid()
      modifies this`isListening
      ensures Valid()
      ensures !isListening
    {
      if hasRecognition && isListening {
        isListening := false;
      }
    }

    /** The input box's onChange. */
    method TypeInput(value: string)
      requires Valid()
      modifies this`inputMessage
      ensures Valid()
      ensures inputMessage == value
    {
      inputMessage := value;
    }

    /** The error banner's dismiss button. */
    method DismissError()
      requires Valid()
      modifies this`error
      ensures Valid()
      ensures error == None
    {
      error := None;
    }

    /**
     * handleSendMessage: with non-blank input and an open socket the trimmed input is
     * appended as a user message, the input cleared and the text sent; otherwise nothing.
     */
    method SendTyped()
      requires Valid()
      modifies this`messages, this`inputMessage, this`sent
      ensures Valid()
      ensures Trim(old(inputMessage)) == "" || !hasSocket || readyState != Open ==>
        (&& messages == old(messages) && inputMessage == old(inputMessage) && sent == old(sent))
      ensures Trim(old(inputMessage)) != "" && hasSocket && readyState == Open ==>
        (&& messages == old(messages) + [UserSays(Trim(old(inputMessage)))]
         && sent == old(sent) + [ChatMessage(Trim(old(inputMessage)))] && inputMessage == "")
    {
      var text := Trim(inputMessage);
      if text != "" && hasSocket && readyState == Open {
        UserFramesAppend(messages, UserSays(text));
        messages := messages + [UserSays(text)];
        inputMessage := "";
        sent := sent + [ChatMessage(text)];
      }
    }
  }
}
