/**
 * The callback-style recording server of server.js. It keeps the same three
 * tables as server/app.js, but reports every outcome through callbacks: a
 * `start` may answer more than once, `stop` answers only once the file has
 * been read and uploaded, and a `stop` it cannot match answers nothing.
 *
 * Errors reach the client as `{ id: 'error', message }` with the error text in
 * `message`; there is no production switch and no stack.
 */
module LegacyServer {
  import opened Wrappers
  import opened SessionTables
  import opened ClientMessages

  /** The messages this server sends back on the connection. */
  datatype LegacyReply =
      /** `sdpAnswer` is undefined (None) when the callback was called with no answer. */
    | StartResponse(sdpAnswer: Option<string>)
    | UploadSuccess(videoUrl: string)
    | Error(message: string)

  const UndefinedSessionId := "Cannot use undefined sessionId"

  /** The error getKurentoClient reports when the media server cannot be reached. */
  function MediaServerMissing(error: string): (text: string)
    ensures |text| >= |error|
    ensures text[..|text| - |error|] == "Could not find media server. Exiting with error "
    ensures text[|text| - |error|..] == error
  {
    "Could not find media server. Exiting with error " + error
  }

  /**
   * What the media server did during one `start`, callback by callback.
   * `laterErrors` are the failures of gatherCandidates, of the connection from
   * endpoint to recorder and of `record`, each of which calls the start
   * callback once more.
   */
  datatype LegacyMedia =
    | ClientUnavailable(error: string)
    | PipelineFailed(error: string)
    | ElementsFailed(pipeline: Pipeline, error: string)
    | ConnectFailed(pipeline: Pipeline, recorder: Recorder, endpoint: Endpoint, error: string)
    | OfferFailed(pipeline: Pipeline, recorder: Recorder, endpoint: Endpoint, error: string, laterErrors: seq<string>)
    | Answered(pipeline: Pipeline, recorder: Recorder, endpoint: Endpoint, sdpAnswer: string, laterErrors: seq<string>)

  /** One `error` reply per later failure, in the order given. */
  function ErrorReplies(errors: seq<string>): (replies: seq<LegacyReply>)
    ensures |replies| == |errors|
    ensures forall i :: 0 <= i < |errors| ==> replies[i] == Error(errors[i])
  {
    if errors == [] then [] else [Error(errors[0])] + ErrorReplies(errors[1..])
  }

  datatype StartDone = StartDone(state: Registry, released: Option<Pipeline>, replies: seq<LegacyReply>)

  /**
   * `start(sessionId, ws, sdpOffer, videoKey, callback)` with its callback
   * answering the client. A falsy session id is refused before anything else.
   * The recorder is saved and the queue flushed once the elements exist; the
   * session is registered only when processOffer answers; every failure after
   * the pipeline exists but before the offer is answered releases it.
   */
  function StartTransition(r: Registry, id: SessionId, media: LegacyMedia): (d: StartDone)
    ensures id == "" ==> d == StartDone(r, None, [Error(UndefinedSessionId)])
    ensures 1 <= |d.replies|
    ensures d.replies[0].StartResponse? <==> id != "" && media.Answered?
    ensures d.replies[0].StartResponse? ==>
      && d.replies[0].sdpAnswer == Some(media.sdpAnswer)
      && id in d.state.sessions && d.state.sessions[id] == Session(media.pipeline, media.endpoint)
      && id in d.state.recorders && d.state.recorders[id] == media.recorder
      && d.released == None
    ensures !d.replies[0].StartResponse? ==> d.state.sessions == r.sessions
    ensures id != "" && (media.ElementsFailed? || media.ConnectFailed? || media.OfferFailed?) ==>
      d.released == Some(media.pipeline) && d.replies[0] == Error(media.error)
    ensures id != "" && media.ClientUnavailable? ==>
      d == StartDone(r, None, [Error(MediaServerMissing(media.error))])
    ensures id != "" && (media.ClientUnavailable? || media.PipelineFailed? || media.ElementsFailed?) ==>
      d.state == r && |d.replies| == 1
    ensures id != "" && (media.OfferFailed? || media.Answered?) ==>
      d.replies[1..] == ErrorReplies(media.laterErrors)
    ensures id != "" && (media.ConnectFailed? || media.OfferFailed? || media.Answered?) ==>
      && Queue(d.state, id) == []
      && Applied(d.state, media.endpoint) == Applied(r, media.endpoint) + Queue(r, id)
    ensures forall other :: other != id ==> SameEntries(r, d.state, other)
  {
    if id == "" then StartDone(r, None, [Error(UndefinedSessionId)])
    else
      match media
      case ClientUnavailable(error) => StartDone(r, None, [Error(MediaServerMissing(error))])
      case PipelineFailed(error) => StartDone(r, None, [Error(error)])
      case ElementsFailed(pipeline, error) => StartDone(r, Some(pipeline), [Error(error)])
      case ConnectFailed(pipeline, recorder, ep, error) =>
        StartDone(FlushStep(r, id, recorder, ep), Some(pipeline), [Error(error)])
      case OfferFailed(pipeline, recorder, ep, error, later) =>
        StartDone(FlushStep(r, id, recorder, ep), Some(pipeline), [Error(error)] + ErrorReplies(later))
      case Answered(pipeline, recorder, ep, answer, later) =>
        StartDone(RegisterStep(FlushStep(r, id, recorder, ep), id, pipeline, ep), None,
                  [StartResponse(Some(answer))] + ErrorReplies(later))
  }

  /**
   * `start` as written: on a failed connection the callback is handed the
   * enclosing `error`, which is null on that path, so the client is told that
   * the start succeeded, with no answer, although the pipeline is released and
   * no session exists.
   */
  function StartAsWritten(r: Registry, id: SessionId, media: LegacyMedia): (d: StartDone)
    ensures d.state == StartTransition(r, id, media).state
    ensures d.released == StartTransition(r, id, media).released
    ensures 1 <= |d.replies|
    ensures d.replies[0].StartResponse? <==> id != "" && (media.Answered? || media.ConnectFailed?)
    ensures !(id != "" && media.ConnectFailed?) ==> d == StartTransition(r, id, media)
    ensures id != "" && media.ConnectFailed? ==>
      && d.replies == [StartResponse(None)]
      && d.released == Some(media.pipeline)
      && d.state.sessions == r.sessions
  {
    var d := StartTransition(r, id, media);
    if id != "" && media.ConnectFailed? then d.(replies := [StartResponse(None)]) else d
  }

  /** A failed connection is reported as a start without an answer, with nothing registered. */
  lemma ConnectFailureReportedAsStarted(r: Registry, id: SessionId, pipeline: Pipeline, recorder: Recorder,
                                        ep: Endpoint, error: string)
    requires id != ""
    ensures var d := StartAsWritten(r, id, ConnectFailed(pipeline, recorder, ep, error));
      && d.replies == [StartResponse(None)]
      && d.released == Some(pipeline)
      && d.state.sessions == r.sessions
  {
  }

  /** What reading the file, uploading it and unlinking it did during one `stop`. */
  datatype LegacyIo = LegacyIo(readError: Option<string>, upload: Result<string, string>, unlinkError: Option<string>)

  const ReadErrorDefault := "There was an error reading the video file."
  const UploadErrorDefault := "There was an error uploading the video."

  /** `message || fallback`: an empty message is falsy and gives way to the fallback. */
  function MessageOr(message: string, fallback: string): (text: string)
    ensures message != "" ==> text == message
    ensures message == "" ==> text == fallback
    ensures fallback != "" ==> text != ""
  {
    if message != "" then message else fallback
  }

  /**
   * The replies of the readFile callback: a read error is reported and the
   * upload still goes ahead; a successful upload is reported before the file
   * is unlinked, and a failing unlink is reported as an upload error after it.
   */
  function StopReplies(io: LegacyIo): (replies: seq<LegacyReply>)
    ensures |replies| == (if io.readError.Some? then 1 else 0) + (if io.upload.Ok? && io.unlinkError.Some? then 2 else 1)
    ensures io.readError.Some? ==> replies[0] == Error(MessageOr(io.readError.value, ReadErrorDefault))
    ensures io.upload.Ok? ==> UploadSuccess(io.upload.value) in replies
    ensures io.upload.Err? ==> forall i :: 0 <= i < |replies| ==> replies[i].Error?
    ensures replies[|replies| - 1].Error? <==> io.upload.Err? || io.unlinkError.Some?
    ensures io.upload.Err? ==> replies[|replies| - 1] == Error(MessageOr(io.upload.error, UploadErrorDefault))
    ensures io.upload.Ok? && io.unlinkError.Some? ==>
      && replies[|replies| - 2] == UploadSuccess(io.upload.value)
      && replies[|replies| - 1] == Error(MessageOr(io.unlinkError.value, UploadErrorDefault))
    ensures io.upload.Ok? && io.unlinkError.None? ==> replies[|replies| - 1] == UploadSuccess(io.upload.value)
  {
    var read := if io.readError.Some? then [Error(MessageOr(io.readError.value, ReadErrorDefault))] else [];
    var uploaded :=
      match io.upload
      case Ok(url) => [UploadSuccess(url)] + (if io.unlinkError.Some? then [Error(MessageOr(io.unlinkError.value, UploadErrorDefault))] else [])
      case Err(e) => [Error(MessageOr(e, UploadErrorDefault))];
    read + uploaded
  }

  /** The exception `path.join` throws when `stop` is called without a video key. */
  const PathNotString := Fault("TypeError", "Path must be a string. Received undefined")

  datatype LegacyStopDone = LegacyStopDone(
    state: Registry,
    stoppedRecorder: Option<Recorder>,
    released: Option<Pipeline>,
    thrown: Option<Fault>,
    replies: seq<LegacyReply>)

  /**
   * `stop(sessionId, connection, videoKey)`. An unknown id does nothing and
   * answers nothing. A known id has its recorder stopped; with a video key the
   * pipeline is released and the three entries deleted at once, and the
   * replies follow when the file callbacks run. Without a video key,
   * `path.join` throws after the recorder is stopped and before anything else.
   */
  function StopTransition(r: Registry, id: SessionId, videoKey: Option<string>, io: LegacyIo): (d: LegacyStopDone)
    ensures id !in r.sessions ==> d == LegacyStopDone(r, None, None, None, [])
    ensures id in r.sessions && id !in r.recorders ==> d == LegacyStopDone(r, None, None, Some(RecorderUndefined), [])
    ensures id in r.sessions && id in r.recorders ==> d.stoppedRecorder == Some(r.recorders[id])
    ensures id in r.sessions && id in r.recorders && videoKey.None? ==>
      d.state == r && d.released == None && d.thrown == Some(PathNotString) && d.replies == []
    ensures id in r.sessions && id in r.recorders && videoKey.Some? ==>
      && id !in d.state.sessions && id !in d.state.candidatesQueue && id !in d.state.recorders
      && d.released == Some(r.sessions[id].pipeline)
      && d.thrown == None
      && d.replies == StopReplies(io)
    ensures forall other :: other != id ==> SameEntries(r, d.state, other)
  {
    var stopped := StopStep(r, id);
    match stopped.target
    case NotRegistered => LegacyStopDone(r, None, None, None, [])
    case RecorderMissing => LegacyStopDone(r, None, None, Some(RecorderUndefined), [])
    case Found(pipeline, recorder) =>
      if videoKey.None? then LegacyStopDone(r, Some(recorder), None, Some(PathNotString), [])
      else LegacyStopDone(stopped.state, Some(recorder), Some(pipeline), None, StopReplies(io))
  }

  /**
   * The `close` and `error` handlers as written: `stop(sessionId)` with neither
   * the connection nor the video key.
   */
  function CloseAsWritten(r: Registry, id: SessionId, io: LegacyIo): (d: LegacyStopDone)
    ensures d.state == r
    ensures d.released == None && d.replies == []
    ensures d.thrown.Some? <==> id in r.sessions
  {
    StopTransition(r, id, None, io)
  }

  /**
   * A recording whose connection simply closes is never cleaned up: its
   * entries stay, its pipeline is never released and the count of sessions
   * keeps it, although its recorder has been stopped.
   */
  lemma ClosedSessionLeaks(r: Registry, id: SessionId, io: LegacyIo)
    requires id in r.sessions && id in r.recorders
    ensures var d := CloseAsWritten(r, id, io);
      && d.thrown == Some(PathNotString)
      && d.stoppedRecorder == Some(r.recorders[id])
      && id in d.state.sessions
      && |d.state.sessions| == |r.sessions|
  {
  }

  /**
   * The `close` and `error` handlers as intended: `stop` with the
   * connection's video key, so a closed connection cleans up like a `stop`.
   */
  function Close(r: Registry, id: SessionId, videoKey: string, io: LegacyIo): (d: LegacyStopDone)
    ensures id in r.sessions && id in r.recorders ==>
      && id !in d.state.sessions && id !in d.state.recorders && id !in d.state.candidatesQueue
      && d.released == Some(r.sessions[id].pipeline)
      && d.thrown == None
    ensures id !in r.sessions ==> d.state == r && d.thrown == None
  {
    StopTransition(r, id, Some(videoKey), io)
  }

  datatype LegacyHandled = LegacyHandled(state: Registry, replies: seq<LegacyReply>, thrown: Option<Fault>)

  /** One message of a connection, with every callback it sets off run to completion. */
  function MessageTransition(r: Registry, id: SessionId, videoKey: string, msg: ClientMessage,
                             media: LegacyMedia, io: LegacyIo): (h: LegacyHandled)
    ensures msg.Unrecognized? ==> h == LegacyHandled(r, [Error(InvalidMessageText)], None)
    ensures msg.OnIceCandidate? ==> h == LegacyHandled(IceCandidateStep(r, id, msg.candidate), [], None)
    ensures msg.Stop? && id !in r.sessions ==> h == LegacyHandled(r, [], None)
    ensures msg.Start? ==> h.thrown == None && |h.replies| >= 1
    ensures msg.Start? ==>
      h.state == StartAsWritten(r, id, media).state && h.replies == StartAsWritten(r, id, media).replies
    ensures msg.Stop? ==>
      && h.state == StopTransition(r, id, Some(videoKey), io).state
      && h.replies == StopTransition(r, id, Some(videoKey), io).replies
      && h.thrown == StopTransition(r, id, Some(videoKey), io).thrown
    ensures msg.Start? ==> (h.replies[0].StartResponse? <==> id != "" && (media.Answered? || media.ConnectFailed?))
    ensures msg.Start? && id != "" && media.ConnectFailed? ==>
      h.replies == [StartResponse(None)] && h.state.sessions == r.sessions
    ensures h.thrown.Some? ==> msg.Stop? && h.thrown == Some(RecorderUndefined) && h.state == r
    ensures forall other :: other != id ==> SameEntries(r, h.state, other)
  {
    match msg
    case Start(_) =>
      var d := StartAsWritten(r, id, media);
      LegacyHandled(d.state, d.replies, None)
    case Stop =>
      var d := StopTransition(r, id, Some(videoKey), io);
      LegacyHandled(d.state, d.replies, d.thrown)
    case OnIceCandidate(c) =>
      LegacyHandled(IceCandidateStep(r, id, c), [], None)
    case Unrecognized(_) =>
      LegacyHandled(r, [Error(InvalidMessageText)], None)
  }

  /**
   * What `/sessions` reports moves with registrations: a start answered for a
   * new id adds one, a stop of a registered id removes one, and a candidate
   * changes nothing.
   */
  lemma SessionCountTracksRegistrations(r: Registry, id: SessionId, videoKey: string, msg: ClientMessage,
                                        media: LegacyMedia, io: LegacyIo)
    ensures var h := MessageTransition(r, id, videoKey, msg, media, io);
      && (msg.Start? && id != "" && media.Answered? && id !in r.sessions ==> |h.state.sessions| == |r.sessions| + 1)
      && (msg.Stop? && id in r.sessions && id in r.recorders ==> |h.state.sessions| == |r.sessions| - 1)
      && (msg.OnIceCandidate? || msg.Unrecognized? ==> |h.state.sessions| == |r.sessions|)
  {
    var h := MessageTransition(r, id, videoKey, msg, media, io);
    if msg.Start? && id != "" && media.Answered? && id !in r.sessions {
      assert h.state.sessions.Keys == r.sessions.Keys + {id};
    }
    if msg.Stop? && id in r.sessions && id in r.recorders {
      assert h.state.sessions.Keys == r.sessions.Keys - {id};
    }
  }

  // ---------------------------------------------------------------------------
  // The handlers as they run against the process-wide tables.
  // ---------------------------------------------------------------------------

  /** `start` with the dispatcher's callback, as written; the answers are returned in order. */
  method Start(tables: Tables, id: SessionId, media: LegacyMedia)
    returns (released: Option<Pipeline>, replies: seq<LegacyReply>)
    modifies tables
    ensures StartDone(tables.State(), released, replies) == StartAsWritten(old(tables.State()), id, media)
  {
    if id == "" {
      released, replies := None, [Error(UndefinedSessionId)];
      return;
    }
    match media
    case ClientUnavailable(error) =>
      released, replies := None, [Error(MediaServerMissing(error))];
    case PipelineFailed(error) =>
      released, replies := None, [Error(error)];
    case ElementsFailed(pipeline, error) =>
      released, replies := Some(pipeline), [Error(error)];
    case ConnectFailed(pipeline, recorder, ep, error) =>
      tables.SaveRecorderAndFlush(id, recorder, ep);
      released, replies := Some(pipeline), [StartResponse(None)];
    case OfferFailed(pipeline, recorder, ep, error, later) =>
      tables.SaveRecorderAndFlush(id, recorder, ep);
      released, replies := Some(pipeline), [Error(error)] + ErrorReplies(later);
    case Answered(pipeline, recorder, ep, answer, later) =>
      tables.SaveRecorderAndFlush(id, recorder, ep);
      tables.Register(id, pipeline, ep);
      released, replies := None, [StartResponse(Some(answer))] + ErrorReplies(later);
  }

  /** `stop(sessionId, connection, videoKey)`; `videoKey` is None when the caller passed none. */
  method Stop(tables: Tables, id: SessionId, videoKey: Option<string>, io: LegacyIo)
    returns (stoppedRecorder: Option<Recorder>, released: Option<Pipeline>, thrown: Option<Fault>,
             replies: seq<LegacyReply>)
    modifies tables
    ensures LegacyStopDone(tables.State(), stoppedRecorder, released, thrown, replies)
      == StopTransition(old(tables.State()), id, videoKey, io)
  {
    var target := tables.LookUpStopTarget(id);
    match target
    case NotRegistered =>
      stoppedRecorder, released, thrown, replies := None, None, None, [];
    case RecorderMissing =>
      stoppedRecorder, released, thrown, replies := None, None, Some(RecorderUndefined), [];
    case Found(pipeline, recorder) =>
      stoppedRecorder := Some(recorder);
      if videoKey.None? {
        released, thrown, replies := None, Some(PathNotString), [];
      } else {
        tables.Remove(id);
        released, thrown, replies := Some(pipeline), None, StopReplies(io);
      }
  }

  /** The connection's `message` handler. */
  method OnMessage(tables: Tables, id: SessionId, videoKey: string, msg: ClientMessage,
                   media: LegacyMedia, io: LegacyIo) returns (replies: seq<LegacyReply>, thrown: Option<Fault>)
    modifies tables
    ensures LegacyHandled(tables.State(), replies, thrown)
      == MessageTransition(old(tables.State()), id, videoKey, msg, media, io)
  {
    match msg
    case Start(_) =>
      var _, startReplies := Start(tables, id, media);
      replies, thrown := startReplies, None;
    case Stop =>
      var _, _, stopThrown, stopReplies := Stop(tables, id, Some(videoKey), io);
      replies, thrown := stopReplies, stopThrown;
    case OnIceCandidate(c) =>
      tables.OnIceCandidate(id, c);
      replies, thrown := [], None;
    case Unrecognized(_) =>
      replies, thrown := [Error(InvalidMessageText)], None;
  }

  /** The connection's `close` and `error` handlers, as written: `stop(sessionId)` alone. */
  method OnClose(tables: Tables, id: SessionId, io: LegacyIo)
    returns (stoppedRecorder: Option<Recorder>, thrown: Option<Fault>)
    modifies tables
    ensures LegacyStopDone(tables.State(), stoppedRecorder, None, thrown, [])
      == CloseAsWritten(old(tables.State()), id, io)
  {
    var released, replies;
    stoppedRecorder, released, thrown, replies := Stop(tables, id, None, io);
  }

  /** `GET /sessions`: the number of registered sessions. */
  method SessionsEndpoint(tables: Tables) returns (count: nat)
    ensures count == |tables.State().sessions|
  {
    count := tables.SessionCount();
  }
}
