/**
 * The hidden background recorder of the conversation screen (`VideoRecorderService`): it
 * collects the camera and microphone recording in chunks from session start and uploads the
 * finished recording for analysis. The browser's MediaRecorder is reduced to its state
 * (`inactive`, `recording`, `paused`) plus "not created yet"; a Blob is its chunk sequence.
 */
module VideoRecorder {
  import opened Wrappers
  import opened JsText

  /** The bytes of one `dataavailable` event. */
  type Chunk = seq<bv8>

  /** A Blob built from chunks: the chunks in order. */
  datatype Blob = Blob(chunks: seq<Chunk>) {
    /** Blob.size: the total length of the chunks. */
    function Size(): nat { TotalSize(chunks) }
  }

  function TotalSize(cs: seq<Chunk>): nat {
    if cs == [] then 0 else TotalSize(cs[..|cs| - 1]) + |cs[|cs| - 1]|
  }

  /** A list of chunks none of which is empty has size zero exactly when it is empty. */
  lemma {:induction false} TotalSizeZeroIff(cs: seq<Chunk>)
    requires forall i :: 0 <= i < |cs| ==> |cs[i]| > 0
    ensures TotalSize(cs) == 0 <==> cs == []
  {
    if cs != [] {
      var init := cs[..|cs| - 1];
      assert forall i :: 0 <= i < |init| ==> init[i] == cs[i];
      TotalSizeZeroIff(init);
    }
  }

  /** The MediaRecorder: not created yet, or created and in one of its three states. */
  datatype RecorderState = Absent | Recording | Paused | Inactive

  /**
   * The `onstop` handler in place: the one installed at start, which clears `isRecording`,
   * or the one `stopRecording` installs instead, which builds and resolves the blob.
   */
  datatype StopHandler = ClearFlag | ResolveBlob

  /**
   * Why a call threw: camera or microphone not granted, the browser refused to create or start
   * the recorder, or a MediaRecorder call made in the wrong state.
   */
  datatype RecorderError = MediaUnavailable | RecorderRefused | InvalidState

  /**
   * How `startRecording` goes once the camera and microphone are granted: the recorder is
   * created and started; `new MediaRecorder` throws (the VP8 fallback type is used without a
   * support check, so a browser without WebM recording refuses it); or `start(1000)` throws on
   * the new recorder.
   */
  datatype StartOutcome = Started | ConstructorThrows | StartThrows

  /**
   * What `response.json()` makes of a body: it rejects a body that is not JSON, resolves the
   * JSON `null` to null, and resolves anything else to a value.
   */
  datatype ParsedBody = NotJson | JsonNull | JsonValue(value: string)

  /** The reply of the analysis endpoint, or a fetch that never reached it. */
  datatype HttpResponse = Reply(ok: bool, status: nat, statusText: string, body: string, parsed: ParsedBody) | Unreachable

  /**
   * Why an upload threw: no token, a non-OK reply, a failed fetch, a body that is not JSON, or
   * a `null` result whose `analysis_id` cannot be read.
   */
  datatype UploadError = NoToken | HttpError(status: nat, statusText: string, body: string) | NetworkError
    | MalformedReply | NullResult

  /** The multipart POST the upload issues. */
  datatype UploadRequest = UploadRequest(url: string, authorization: string, fileName: string, file: Blob)

  const UploadUrl := "http://localhost:8000/interview/analyze-video/"

  /** `session-<Date.now()>-<random base-36 digits>`. */
  function SessionIdOf(now: nat, rand: string): (id: string)
    ensures StartsWith(id, "session-")
  {
    "session-" + NatToString(now) + "-" + rand
  }

  /** `interview-${this.sessionId}.webm`; an unset id is interpolated as `null`. */
  function FileName(sessionId: Option<string>): (name: string)
    ensures StartsWith(name, "interview-") && EndsWith(name, ".webm")
  {
    "interview-" + Interpolate(sessionId) + ".webm"
  }

  class VideoRecorderService {
    var mediaRecorder: RecorderState
    var recordedChunks: seq<Chunk>
    var hasStream: bool
    var tracksLive: bool
    var isRecording: bool
    var sessionId: Option<string>
    var onstop: StopHandler

    ghost predicate Valid()
      reads this
    {
      && (forall i :: 0 <= i < |recordedChunks| ==> |recordedChunks[i]| > 0)
      && (sessionId.Some? ==> mediaRecorder != Absent)
      && (sessionId.Some? ==> StartsWith(sessionId.value, "session-"))
      && (mediaRecorder != Absent ==> hasStream)
      && (tracksLive ==> hasStream)
      && (onstop == ResolveBlob ==> mediaRecorder == Inactive)
    }

    /** A new service: no recorder, no chunks, not recording, no session id. */
    constructor ()
      ensures Valid()
      ensures mediaRecorder == Absent && recordedChunks == [] && !isRecording && sessionId == None
      ensures !hasStream && !tracksLive && onstop == ClearFlag
    {
      mediaRecorder := Absent;
      recordedChunks := [];
      hasStream, tracksLive := false, false;
      isRecording := false;
      sessionId := None;
      onstop := ClearFlag;
    }

    /**
     * startRecording: acquires the camera and microphone (`granted` is whether getUserMedia
     * resolved), then replaces the stream and empties the chunk list. When the recorder is
     * created and started with the original handlers, the new session id built from the clock
     * and random digits is stored and returned. When creating it throws, the old recorder and
     * session id stay; when starting it throws, the new recorder stays, never started, and
     * the old session id stays. The new stream's tracks are left running in both cases.
     */
    method StartRecording(granted: bool, outcome: StartOutcome, now: nat, rand: string)
      returns (r: Result<string, RecorderError>)
      requires Valid()
      modifies this
      ensures Valid()
      ensures !granted ==> r == Failure(MediaUnavailable) && unchanged(this)
      ensures granted ==> recordedChunks == [] && hasStream && tracksLive && isRecording == old(isRecording)
      ensures granted && outcome == Started ==>
        && r == Success(SessionIdOf(now, rand)) && sessionId == Some(SessionIdOf(now, rand))
        && mediaRecorder == Recording && onstop == ClearFlag
      ensures granted && outcome == ConstructorThrows ==>
        && r == Failure(RecorderRefused) && sessionId == old(sessionId)
        && mediaRecorder == old(mediaRecorder) && onstop == old(onstop)
      ensures granted && outcome == StartThrows ==>
        && r == Failure(RecorderRefused) && sessionId == old(sessionId)
        && mediaRecorder == Inactive && onstop == ClearFlag
    {
      if !granted {
        return Failure(MediaUnavailable);
      }
      hasStream, tracksLive := true, true;
      recordedChunks := [];
      if outcome == ConstructorThrows {
        return Failure(RecorderRefused);
      }
      mediaRecorder := Inactive;
      onstop := ClearFlag;
      if outcome == StartThrows {
        return Failure(RecorderRefused);
      }
      mediaRecorder := Recording;
      var id := SessionIdOf(now, rand);
      sessionId := Some(id);
      r := Success(id);
    }

    /** ondataavailable: a non-empty chunk is appended at the end; earlier chunks stay as they were. */
    method OnDataAvailable(chunk: Chunk)
      requires Valid()
      modifies this`recordedChunks
      ensures Valid()
      ensures recordedChunks == old(recordedChunks) + (if |chunk| > 0 then [chunk] else [])
    {
      if |chunk| > 0 {
        recordedChunks := recordedChunks + [chunk];
      }
    }

    /** onstart: the recorder reports that it started. */
    method OnStart()
      requires Valid()
      modifies this`isRecording
      ensures Valid() && isRecording
    {
      isRecording := true;
    }

    /**
     * The recorder stopped on its own (its tracks ended): an active recorder becomes
     * inactive and the original `onstop` clears `isRecording`.
     */
    method OnRecorderStopped()
      requires Valid()
      modifies this`mediaRecorder, this`isRecording
      ensures Valid()
      ensures old(mediaRecorder) in {Recording, Paused} ==> mediaRecorder == Inactive && !isRecording
      ensures old(mediaRecorder) !in {Recording, Paused} ==> unchanged(this)
    {
      if mediaRecorder == Recording || mediaRecorder == Paused {
        mediaRecorder := Inactive;
        isRecording := false;
      }
    }

    /**
     * pauseRecording: acts only with a recorder and `isRecording`; MediaRecorder.pause throws
     * on an inactive recorder and pauses a recording one. `isRecording` is never cleared.
     */
    method PauseRecording() returns (thrown: Option<RecorderError>)
      requires Valid()
      modifies this`mediaRecorder
      ensures Valid()
      ensures old(mediaRecorder) != Absent && isRecording && old(mediaRecorder) == Recording
        ==> mediaRecorder == Paused && thrown == None
      ensures old(mediaRecorder) != Absent && isRecording && old(mediaRecorder) == Inactive
        ==> mediaRecorder == Inactive && thrown == Some(InvalidState)
      ensures (old(mediaRecorder) == Absent || !isRecording || old(mediaRecorder) == Paused)
        ==> unchanged(this) && thrown == None
    {
      thrown := None;
      if mediaRecorder != Absent && isRecording {
        if mediaRecorder == Inactive {
          thrown := Some(InvalidState);
        } else if mediaRecorder == Recording {
          mediaRecorder := Paused;
        }
      }
    }

    /**
     * resumeRecording: acts only with a recorder and NOT `isRecording`; MediaRecorder.resume
     * throws on an inactive recorder and resumes a paused one.
     */
    method ResumeRecording() returns (thrown: Option<RecorderError>)
      requires Valid()
      modifies this`mediaRecorder
      ensures Valid()
      ensures old(mediaRecorder) != Absent && !isRecording && old(mediaRecorder) == Paused
        ==> mediaRecorder == Recording && thrown == None
      ensures old(mediaRecorder) != Absent && !isRecording && old(mediaRecorder) == Inactive
        ==> mediaRecorder == Inactive && thrown == Some(InvalidState)
      ensures (old(mediaRecorder) == Absent || isRecording || old(mediaRecorder) == Recording)
        ==> unchanged(this) && thrown == None
    {
      thrown := None;
      if mediaRecorder != Absent && !isRecording {
        if mediaRecorder == Inactive {
          thrown := Some(InvalidState);
        } else if mediaRecorder == Paused {
          mediaRecorder := Recording;
        }
      }
    }

    /**
     * stopRecording: with no recorder, or an inactive one, it resolves null. Otherwise it
     * replaces `onstop`, stops the recorder (which delivers `lastChunk` through
     * `ondataavailable`, then fires `stop`), and resolves a blob of every recorded chunk in
     * order, stopping the stream's tracks. `isRecording` is left as it was, because the
     * original `onstop` no longer runs.
     */
    method StopRecording(lastChunk: Chunk) returns (blob: Option<Blob>)
      requires Valid()
      modifies this`mediaRecorder, this`recordedChunks, this`tracksLive, this`onstop
      ensures Valid()
      ensures old(mediaRecorder) in {Absent, Inactive} ==> blob == None && unchanged(this)
      ensures old(mediaRecorder) in {Recording, Paused} ==>
        && recordedChunks == old(recordedChunks) + (if |lastChunk| > 0 then [lastChunk] else [])
        && blob == Some(Blob(recordedChunks))
        && mediaRecorder == Inactive && onstop == ResolveBlob && !tracksLive
      ensures mediaRecorder in {Absent, Inactive} && isRecording == old(isRecording)
    {
      if mediaRecorder != Absent && mediaRecorder != Inactive {
        onstop := ResolveBlob;
        mediaRecorder := Inactive;
        if |lastChunk| > 0 {
          recordedChunks := recordedChunks + [lastChunk];
        }
        blob := Some(Blob(recordedChunks));
        tracksLive := false;
      } else {
        blob := None;
      }
    }

    /**
     * uploadVideo: a missing or empty blob is "nothing to upload" (null, no request); without
     * a token it throws; otherwise it posts the blob as `interview-<sessionId>.webm` with the
     * bearer token, throws on a non-OK reply, a failed fetch, an OK reply whose body is not
     * JSON, or a `null` result (reading its `analysis_id` throws), and returns the parsed reply.
     */
    method UploadVideo(blob: Option<Blob>, token: Option<string>, response: HttpResponse)
      returns (request: Option<UploadRequest>, r: Result<Option<string>, UploadError>)
      ensures (blob.None? || blob.value.Size() == 0) ==> request == None && r == Success(None)
      ensures blob.Some? && blob.value.Size() > 0 && !Truthy(token) ==> request == None && r == Failure(NoToken)
      ensures blob.Some? && blob.value.Size() > 0 && Truthy(token) ==>
        && request == Some(UploadRequest(UploadUrl, "Bearer " + token.value, FileName(sessionId), blob.value))
        && (response.Unreachable? ==> r == Failure(NetworkError))
        && (response.Reply? && !response.ok ==>
              r == Failure(HttpError(response.status, response.statusText, response.body)))
        && (response.Reply? && response.ok && response.parsed.JsonValue? ==> r == Success(Some(response.parsed.value)))
        && (response.Reply? && response.ok && response.parsed.NotJson? ==> r == Failure(MalformedReply))
        && (response.Reply? && response.ok && response.parsed.JsonNull? ==> r == Failure(NullResult))
    {
      if blob.None? || blob.value.Size() == 0 {
        return None, Success(None);
      }
      if !Truthy(token) {
        return None, Failure(NoToken);
      }
      request := Some(UploadRequest(UploadUrl, "Bearer " + token.value, FileName(sessionId), blob.value));
      match response
      case Unreachable =>
        r := Failure(NetworkError);
      case Reply(ok, status, statusText, body, parsed) =>
        if !ok {
          r := Failure(HttpError(status, statusText, body));
        } else if parsed.NotJson? {
          r := Failure(MalformedReply);
        } else if parsed.JsonNull? {
          r := Failure(NullResult);
        } else {
          r := Success(Some(parsed.value));
        }
    }

    /** isRecordingActive. */
    function IsRecordingActive(): bool
      reads this
    {
      isRecording
    }

    /** getSessionId. */
    function GetSessionId(): Option<string>
      reads this
    {
      sessionId
    }
  }

  /**
   * A whole recording: start, two chunks (one of them empty), stop. The blob holds the
   * non-empty chunk and the final one, in order; a second stop resolves null.
   */
  method RecordThenStopTwice(a: Chunk, last: Chunk) returns (first: Option<Blob>, second: Option<Blob>)
    requires |a| > 0
    ensures first == Some(Blob([a] + (if |last| > 0 then [last] else [])))
    ensures second == None
  {
    var rec := new VideoRecorderService();
    var id := rec.StartRecording(true, Started, 0, "abc");
    rec.OnStart();
    rec.OnDataAvailable(a);
    assert rec.recordedChunks == [a];
    rec.OnDataAvailable([]);
    assert rec.recordedChunks == [a] && rec.mediaRecorder == Recording;
    first := rec.StopRecording(last);
    second := rec.StopRecording(last);
  }

  /** Pausing keeps `isRecording`, so the resume that follows does nothing: the recorder stays paused. */
  method PauseThenResume() returns (state: RecorderState, recording: bool)
    ensures state == Paused && recording
  {
    var rec := new VideoRecorderService();
    var id := rec.StartRecording(true, Started, 0, "abc");
    rec.OnStart();
    var t1 := rec.PauseRecording();
    var t2 := rec.ResumeRecording();
    state, recording := rec.mediaRecorder, rec.IsRecordingActive();
  }
}
