/**
 * The vocabulary shared by every revision of the conversation screen: transcript messages,
 * inbound socket frames, the socket's ready state and the one outbound frame shape.
 */
module Chat {
  import opened Wrappers
  import opened JsText

  /** The `type` of a transcript message: `user`, `ai` or `system`. */
  datatype Role = User | Ai | System

  /**
   * A transcript entry. Ids and display timestamps are left out. `content` is `None` when the
   * message was built from a frame field that was absent (`content: data.content`).
   */
  datatype Message = Message(role: Role, content: Option<string>)

  function UserSays(text: string): Message { Message(User, Some(text)) }
  function AiSays(text: string): Message { Message(Ai, Some(text)) }

  /**
   * A parsed inbound frame: its `type` and its optional `content`, `text` and `message`
   * fields (string fields only; a frame without `type` has kind "", which no revision matches).
   */
  datatype Frame = Frame(kind: string, content: Option<string>, text: Option<string>, message: Option<string>)

  /** What `JSON.parse(event.data)` gives: a frame, or a parse failure that the handler catches. */
  datatype Inbound = Parsed(frame: Frame) | Malformed

  /** WebSocket.readyState. */
  datatype ReadyState = Connecting | Open | Closing | Closed

  /** The ready state after `close()`: a connecting or open socket starts closing; otherwise nothing happens. */
  function AfterClose(r: ReadyState): ReadyState {
    if r == Connecting || r == Open then Closing else r
  }

  /** The only frame the client sends: `{type: 'message', content}`. */
  datatype Outgoing = ChatMessage(content: string)

  /** The socket endpoint; the bearer token is appended as the `token` query parameter. */
  const ChatEndpoint := "ws://localhost:8000/ws/chat?token="

  /** A text that greets: it contains "hello" or "welcome", ignoring case. */
  predicate IsGreeting(text: string) {
    Contains(ToLower(text), "hello") || Contains(ToLower(text), "welcome")
  }

  /** The greeting check ignores case: texts that differ only in letter case both greet or neither does. */
  lemma GreetingIgnoresCase(s: string, t: string)
    requires SameUpToCase(s, t)
    ensures IsGreeting(s) <==> IsGreeting(t)
  {
    ToLowerEqualIff(s, t);
  }

  /** Some assistant message of the transcript greets. */
  predicate HasWelcome(msgs: seq<Message>) {
    exists i :: 0 <= i < |msgs| && GreetsAt(msgs, i)
  }

  predicate GreetsAt(msgs: seq<Message>, i: int)
    requires 0 <= i < |msgs|
  {
    msgs[i].role == Ai && msgs[i].content.Some? && IsGreeting(msgs[i].content.value)
  }

  /** Every message of the transcript has non-empty content. */
  predicate AllFilled(msgs: seq<Message>) {
    forall i :: 0 <= i < |msgs| ==> Truthy(msgs[i].content)
  }

  /** The frames that sending the user messages of a transcript, in order, puts on the wire. */
  function UserFrames(msgs: seq<Message>): seq<Outgoing> {
    if msgs == [] then []
    else UserFrames(msgs[..|msgs| - 1]) + FrameOf(msgs[|msgs| - 1])
  }

  function FrameOf(m: Message): seq<Outgoing> {
    if m.role == User then [ChatMessage(m.content.GetOr(""))] else []
  }

  /** Appending a message adds its frame, if it is a user message, at the end. */
  lemma UserFramesAppend(msgs: seq<Message>, m: Message)
    ensures UserFrames(msgs + [m]) == UserFrames(msgs) + FrameOf(m)
  {
    assert (msgs + [m])[..|msgs|] == msgs;
  }

  /** A greeting stays in the transcript: appending never loses a welcome. */
  lemma HasWelcomeAppend(msgs: seq<Message>, m: Message)
    ensures HasWelcome(msgs + [m]) <==>
      (HasWelcome(msgs) || (m.role == Ai && m.content.Some? && IsGreeting(m.content.value)))
  {
    var all := msgs + [m];
    if HasWelcome(msgs) {
      var i :| 0 <= i < |msgs| && GreetsAt(msgs, i);
      assert GreetsAt(all, i);
    }
    if HasWelcome(all) {
      var i :| 0 <= i < |all| && GreetsAt(all, i);
      if i < |msgs| {
        assert GreetsAt(msgs, i);
      }
    }
    if m.role == Ai && m.content.Some? && IsGreeting(m.content.value) {
      assert GreetsAt(all, |msgs|);
    }
  }

  /** `tail` is what the last `|tail|` frames of `sent` were. */
  predicate SentEndsWith(sent: seq<Outgoing>, tail: seq<Outgoing>) {
    |tail| <= |sent| && sent[|sent| - |tail|..] == tail
  }

  /** Sending the same frames after both keeps one the tail of the other. */
  lemma SentEndsWithAppend(sent: seq<Outgoing>, tail: seq<Outgoing>, more: seq<Outgoing>)
    requires SentEndsWith(sent, tail)
    ensures SentEndsWith(sent + more, tail + more)
  {
    var all := sent + more;
    assert all[|all| - |tail + more|..] == sent[|sent| - |tail|..] + more;
  }
}
