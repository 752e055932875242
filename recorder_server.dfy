/**
 * The recording server of server/app.js: one WebSocket connection per
 * recording, a session id and a storage key chosen when it connects, and a
 * dispatcher that handles `start`, `stop` and `onIceCandidate` messages over
 * the shared session tables.
 *
 * The media server and the file system are not called: what they do during a
 * `start` or a `stop` is a parameter (`MediaOutcome`, `RecordingIo`). A thrown
 * error is a `Fault`; the dispatcher catches every fault of a message and
 * answers it with an `error` reply.
 */
module RecorderServer {
  import opened Wrappers
  import opened SessionTables
  import opened ClientMessages
  import S3

  /** What the dispatcher throws for a message id it does not know. */
  const InvalidMessage := Fault("Error", InvalidMessageText)

  /**
   * Where the server runs: whether NODE_ENV is 'production', and the stack
   * frames the runtime prints below an error's first line.
   */
  datatype Environment = Environment(production: bool, frames: string)

  /**
   * The first line of `e.stack`, as the runtime writes it: the name and the
   * message joined by ": ", or only the one that is not empty.
   */
  function StackHeader(f: Fault): (head: string)
    ensures f.name == "" ==> head == f.message
    ensures f.name != "" && f.message == "" ==> head == f.name
    ensures f.name != "" && f.message != "" ==> head == f.name + ": " + f.message
  {
    if f.name == "" then f.message
    else if f.message == "" then f.name
    else f.name + ": " + f.message
  }

  /** `e.stack`: the header line, then the frames. */
  function Stack(env: Environment, f: Fault): (stack: string)
    ensures |stack| == |StackHeader(f)| + |env.frames|
    ensures stack[..|StackHeader(f)|] == StackHeader(f)
    ensures stack[|StackHeader(f)|..] == env.frames
  {
    var head := StackHeader(f);
    assert (head + env.frames)[..|head|] == head;
    assert (head + env.frames)[|head|..] == env.frames;
    head + env.frames
  }

  /** The header starts with the name and, when there is a message, ends with it. */
  lemma StackStartsWithName(env: Environment, f: Fault)
    ensures f.name <= Stack(env, f)
    ensures f.message != "" ==> f.message <= Stack(env, f)[|StackHeader(f)| - |f.message|..]
  {
    var stack := Stack(env, f);
    var head := StackHeader(f);
    assert stack[..|head|] == head;
    if f.name != "" {
      assert head[..|f.name|] == f.name;
    }
    if f.message != "" {
      assert head[|head| - |f.message|..] == f.message;
    }
  }

  /** The `error` field of an error reply: nothing about the fault leaves a production server. */
  function ErrorField(env: Environment, f: Fault): (text: string)
    ensures env.production ==> text == "Server Side Error"
    ensures !env.production ==> text == Stack(env, f)
  {
    if env.production then "Server Side Error" else Stack(env, f)
  }

  /** The messages this server sends back on the connection. */
  datatype Reply =
    | StartResponse(sdpAnswer: string)
      /** `videoUrl` holds whatever `stop` resolved to: the upload's result, or null. */
    | UploadSuccess(videoUrl: Option<S3.UploadInfo>)
    | Error(message: ClientMessage, error: string)

  /** What the media server did during one `start`. */
  datatype MediaOutcome =
      /** Getting the client, the pipeline or its two elements failed: nothing is stored. */
    | SetupFailed(fault: Fault)
      /** Elements were created; connect, record, processOffer or gatherCandidates then failed. */
    | NegotiationFailed(recorder: Recorder, endpoint: Endpoint, fault: Fault)
      /** Every call succeeded and processOffer produced an answer. */
    | Answered(pipeline: Pipeline, recorder: Recorder, endpoint: Endpoint, sdpAnswer: string)

  datatype Started = Started(state: Registry, result: Result<string, Fault>)

  /**
   * `start` run to completion with no other message in between: the recorder
   * is saved and the queue flushed once the elements exist, the session is
   * registered only once the offer is answered. The interleaved form is the
   * trace model of SessionTables.
   */
  function StartTransition(r: Registry, id: SessionId, media: MediaOutcome): (s: Started)
    ensures s.result.Ok? <==> media.Answered?
    ensures media.Answered? ==>
      && s.result.value == media.sdpAnswer
      && id in s.state.sessions && s.state.sessions[id] == Session(media.pipeline, media.endpoint)
      && id in s.state.recorders && s.state.recorders[id] == media.recorder
    ensures !media.Answered? ==> s.state.sessions == r.sessions
    ensures media.SetupFailed? ==> s.state == r && s.result == Err(media.fault)
    ensures !media.SetupFailed? ==>
      && Queue(s.state, id) == []
      && Applied(s.state, media.endpoint) == Applied(r, media.endpoint) + Queue(r, id)
    ensures forall other :: other != id ==> SameEntries(r, s.state, other)
  {
    match media
    case SetupFailed(f) => Started(r, Err(f))
    case NegotiationFailed(recorder, ep, f) => Started(FlushStep(r, id, recorder, ep), Err(f))
    case Answered(pipeline, recorder, ep, answer) =>
      Started(RegisterStep(FlushStep(r, id, recorder, ep), id, pipeline, ep), Ok(answer))
  }

  /** What reading, uploading and unlinking the recording file did during one `stop`. */
  datatype RecordingIo = RecordingIo(
    readError: Option<Fault>,
    upload: Result<S3.UploadInfo, Fault>,
    unlinkError: Option<Fault>)

  /** How a `stop` settles, and whether the recording file is gone from the disk afterwards. */
  datatype Saved = Saved(result: Result<S3.UploadInfo, Fault>, fileRemoved: bool)

  /**
   * The file handling of `stop` as written: the upload is started but not
   * awaited, the file is unlinked, and only then is the upload's outcome
   * awaited through the return value. A failed upload therefore finds the file
   * already removed.
   */
  function SaveRecordingAsWritten(io: RecordingIo): (s: Saved)
    ensures s.result.Ok? <==> io.readError.None? && io.unlinkError.None? && io.upload.Ok?
    ensures s.fileRemoved <==> io.readError.None? && io.unlinkError.None?
    ensures io.readError.Some? ==> s.result == Err(io.readError.value)
    ensures io.readError.None? && io.unlinkError.Some? ==> s.result == Err(io.unlinkError.value)
    ensures s.fileRemoved ==> s.result == io.upload
  {
    if io.readError.Some? then Saved(Err(io.readError.value), false)
    else if io.unlinkError.Some? then Saved(Err(io.unlinkError.value), false)
    else Saved(io.upload, true)
  }

  /** A failed upload loses the recording: the file was unlinked before the upload settled. */
  lemma FailedUploadLosesRecording(f: Fault)
    ensures var s := SaveRecordingAsWritten(RecordingIo(None, Err(f), None));
      s.fileRemoved && s.result == Err(f)
  {
  }

  /**
   * The file handling `stop` means to have: the upload is awaited before the
   * unlink, so the file is removed only once the upload has succeeded.
   */
  function SaveRecording(io: RecordingIo): (s: Saved)
    ensures s.result.Ok? <==> io.readError.None? && io.unlinkError.None? && io.upload.Ok?
    ensures s.result.Ok? ==> io.upload == s.result
    ensures s.fileRemoved ==> io.upload.Ok?
    ensures s.fileRemoved <==> s.result.Ok?
  {
    if io.readError.Some? then Saved(Err(io.readError.value), false)
    else if io.upload.Err? then Saved(io.upload, false)
    else if io.unlinkError.Some? then Saved(Err(io.unlinkError.value), false)
    else Saved(io.upload, true)
  }

  /** The two agree on every input where the upload succeeds. */
  lemma SaveRecordingDiffersOnlyOnFailedUpload(io: RecordingIo)
    requires io.upload.Ok?
    ensures SaveRecording(io) == SaveRecordingAsWritten(io)
  {
  }

  /** How `stop`'s promise settles once the upload's result is its resolution value. */
  function SomeUpload(result: Result<S3.UploadInfo, Fault>): (settled: Result<Option<S3.UploadInfo>, Fault>)
    ensures settled.Ok? <==> result.Ok?
    ensures settled.Ok? ==> settled.value == Some(result.value)
    ensures settled.Err? ==> settled.error == result.error
  {
    if result.Ok? then Ok(Some(result.value)) else Err(result.error)
  }

  datatype StopDone = StopDone(
    state: Registry,
    stoppedRecorder: Option<Recorder>,
    released: Option<Pipeline>,
    result: Result<Option<S3.UploadInfo>, Fault>,
    fileRemoved: bool)

  /**
   * `stop(sessionId, videoKey)`: an unknown id resolves to null and changes
   * nothing; a known id stops its recorder, releases its pipeline and loses its
   * three entries before the file is touched, so a file error still leaves the
   * session removed; a known id without a recorder throws before any delete.
   * The file is handled as written: it is unlinked whether or not the upload
   * succeeds.
   */
  function StopTransition(r: Registry, id: SessionId, io: RecordingIo): (d: StopDone)
    ensures d.result == Ok(None) <==> id !in r.sessions
    ensures id !in r.sessions ==> d.state == r && d.released == None && d.stoppedRecorder == None
    ensures id in r.sessions && id !in r.recorders ==>
      d.state == r && d.result == Err(RecorderUndefined) && d.released == None
    ensures id in r.sessions && id in r.recorders ==>
      && id !in d.state.sessions && id !in d.state.candidatesQueue && id !in d.state.recorders
      && d.released == Some(r.sessions[id].pipeline)
      && d.stoppedRecorder == Some(r.recorders[id])
    ensures d.fileRemoved ==> id in r.sessions && id in r.recorders
    ensures id in r.sessions && id in r.recorders ==>
      && (d.fileRemoved <==> io.readError.None? && io.unlinkError.None?)
      && (io.readError.Some? ==> d.result == Err(io.readError.value))
      && (io.readError.None? && io.unlinkError.Some? ==> d.result == Err(io.unlinkError.value))
      && (d.fileRemoved ==> d.result == SomeUpload(SaveRecordingAsWritten(io).result))
      && (d.result.Ok? <==> d.fileRemoved && io.upload.Ok?)
    ensures d.state.applied == r.applied
    ensures forall other :: other != id ==> SameEntries(r, d.state, other)
  {
    var stopped := StopStep(r, id);
    match stopped.target
    case NotRegistered => StopDone(r, None, None, Ok(None), false)
    case RecorderMissing => StopDone(r, None, None, Err(RecorderUndefined), false)
    case Found(pipeline, recorder) =>
      var saved := SaveRecordingAsWritten(io);
      StopDone(stopped.state, Some(recorder), Some(pipeline), SomeUpload(saved.result), saved.fileRemoved)
  }

  /**
   * A `stop` whose upload fails still removes the session and unlinks the
   * file: the client is answered with an error and the recording is gone.
   */
  lemma FailedUploadStopLosesRecording(r: Registry, id: SessionId, f: Fault)
    requires id in r.sessions && id in r.recorders
    ensures var d := StopTransition(r, id, RecordingIo(None, Err(f), None));
      && d.fileRemoved && d.result == Err(f)
      && id !in d.state.sessions && id !in d.state.recorders
  {
  }

  /** The reply the dispatcher sends for a message that settled with `result`. */
  datatype Handled = Handled(state: Registry, reply: Option<Reply>)

  /**
   * One message of a connection, handled to completion: `start` answers with
   * the SDP answer, `stop` with `uploadSuccess`, `onIceCandidate` with nothing,
   * and every thrown fault, an unknown message id included, with an `error`
   * reply that carries the message back.
   */
  function MessageTransition(r: Registry, id: SessionId, msg: ClientMessage, media: MediaOutcome,
                             io: RecordingIo, env: Environment): (h: Handled)
    ensures msg.OnIceCandidate? <==> h.reply.None?
    ensures msg.OnIceCandidate? ==> h.state == IceCandidateStep(r, id, msg.candidate)
    ensures msg.Unrecognized? ==> h.state == r && h.reply == Some(Error(msg, ErrorField(env, InvalidMessage)))
    ensures msg.Start? ==> h.state == StartTransition(r, id, media).state
    ensures msg.Start? ==> (h.reply.value.StartResponse? <==> media.Answered?)
    ensures msg.Start? && media.Answered? ==> h.reply == Some(StartResponse(media.sdpAnswer))
    ensures msg.Start? && !media.Answered? ==>
      h.reply == Some(Error(msg, ErrorField(env, StartTransition(r, id, media).result.error)))
    ensures msg.Stop? ==> h.state == StopTransition(r, id, io).state
    ensures msg.Stop? && StopTransition(r, id, io).result.Ok? ==>
      h.reply == Some(UploadSuccess(StopTransition(r, id, io).result.value))
    ensures msg.Stop? && StopTransition(r, id, io).result.Err? ==>
      h.reply == Some(Error(msg, ErrorField(env, StopTransition(r, id, io).result.error)))
    ensures msg.Stop? && id !in r.sessions ==> h.state == r && h.reply == Some(UploadSuccess(None))
    ensures msg.Stop? && id in r.sessions && id in r.recorders ==>
      (h.reply.value.UploadSuccess? <==> io.readError.None? && io.unlinkError.None? && io.upload.Ok?)
    ensures h.reply.Some? && h.reply.value.Error? ==>
      h.reply.value.message == msg && (env.production ==> h.reply.value.error == "Server Side Error")
    ensures forall other :: other != id ==> SameEntries(r, h.state, other)
  {
    match msg
    case Start(_) =>
      var s := StartTransition(r, id, media);
      Handled(s.state, Some(if s.result.Ok? then StartResponse(s.result.value)
                            else Error(msg, ErrorField(env, s.result.error))))
    case Stop =>
      var d := StopTransition(r, id, io);
      Handled(d.state, Some(if d.result.Ok? then UploadSuccess(d.result.value)
                            else Error(msg, ErrorField(env, d.result.error))))
    case OnIceCandidate(c) =>
      Handled(IceCandidateStep(r, id, c), None)
    case Unrecognized(_) =>
      Handled(r, Some(Error(msg, ErrorField(env, InvalidMessage))))
  }

  /**
   * A repeated `stop` is not rejected: once a stop has removed the session
   * (or found none), the next one changes nothing and is answered with
   * `uploadSuccess` carrying a null `videoUrl`.
   */
  lemma RepeatedStopAnsweredWithNull(r: Registry, id: SessionId, media: MediaOutcome,
                                     io1: RecordingIo, io2: RecordingIo, env: Environment)
    requires id !in r.sessions || id in r.recorders
    ensures var first := MessageTransition(r, id, ClientMessage.Stop, media, io1, env);
      var second := MessageTransition(first.state, id, ClientMessage.Stop, media, io2, env);
      second == Handled(first.state, Some(UploadSuccess(None)))
  {
    var first := MessageTransition(r, id, ClientMessage.Stop, media, io1, env);
    assert id !in first.state.sessions;
  }

  /**
   * A session started without a recorder (see RestartAfterStopLosesRecorder)
   * can never be stopped: every `stop` throws before its deletes.
   */
  lemma SessionWithoutRecorderNeverStops(r: Registry, id: SessionId, io: RecordingIo, env: Environment,
                                         media: MediaOutcome)
    requires id in r.sessions && id !in r.recorders
    ensures var h := MessageTransition(r, id, ClientMessage.Stop, media, io, env);
      h.state == r && h.reply == Some(Error(ClientMessage.Stop, ErrorField(env, RecorderUndefined)))
  {
  }

  // ---------------------------------------------------------------------------
  // The handlers as they run against the process-wide tables.
  // ---------------------------------------------------------------------------

  /** `start(sessionId, ws, sdpOffer, videoKey)`, resolved or rejected. */
  method Start(tables: Tables, id: SessionId, media: MediaOutcome) returns (result: Result<string, Fault>)
    modifies tables
    ensures Started(tables.State(), result) == StartTransition(old(tables.State()), id, media)
  {
    match media
    case SetupFailed(f) =>
      result := Err(f);
    case NegotiationFailed(recorder, ep, f) =>
      tables.SaveRecorderAndFlush(id, recorder, ep);
      result := Err(f);
    case Answered(pipeline, recorder, ep, answer) =>
      tables.SaveRecorderAndFlush(id, recorder, ep);
      tables.Register(id, pipeline, ep);
      result := Ok(answer);
  }

  /** `stop(sessionId, videoKey)`, resolved or rejected. */
  method Stop(tables: Tables, id: SessionId, io: RecordingIo)
    returns (stoppedRecorder: Option<Recorder>, released: Option<Pipeline>,
             result: Result<Option<S3.UploadInfo>, Fault>, fileRemoved: bool)
    modifies tables
    ensures StopDone(tables.State(), stoppedRecorder, released, result, fileRemoved)
      == StopTransition(old(tables.State()), id, io)
  {
    var target := tables.LookUpStopTarget(id);
    match target
    case NotRegistered =>
      stoppedRecorder, released, result, fileRemoved := None, None, Ok(None), false;
    case RecorderMissing =>
      stoppedRecorder, released, result, fileRemoved := None, None, Err(RecorderUndefined), false;
    case Found(pipeline, recorder) =>
      tables.Remove(id);
      var saved := SaveRecordingAsWritten(io);
      result := SomeUpload(saved.result);
      stoppedRecorder, released, fileRemoved := Some(recorder), Some(pipeline), saved.fileRemoved;
  }

  /** The connection's `message` handler: dispatch, then reply or catch and reply. */
  method OnMessage(tables: Tables, id: SessionId, msg: ClientMessage, media: MediaOutcome,
                   io: RecordingIo, env: Environment) returns (reply: Option<Reply>)
    modifies tables
    ensures Handled(tables.State(), reply) == MessageTransition(old(tables.State()), id, msg, media, io, env)
  {
    match msg
    case Start(_) =>
      var result := Start(tables, id, media);
      reply := Some(if result.Ok? then StartResponse(result.value) else Error(msg, ErrorField(env, result.error)));
    case Stop =>
      var _, _, result, _ := Stop(tables, id, io);
      reply := Some(if result.Ok? then UploadSuccess(result.value) else Error(msg, ErrorField(env, result.error)));
    case OnIceCandidate(c) =>
      tables.OnIceCandidate(id, c);
      reply := None;
    case Unrecognized(_) =>
      reply := Some(Error(msg, ErrorField(env, InvalidMessage)));
  }

  /** The connection's `close` and `error` handlers: `stop` with nobody to answer. */
  method OnClose(tables: Tables, id: SessionId, io: RecordingIo)
    modifies tables
    ensures tables.State() == StopTransition(old(tables.State()), id, io).state
  {
    var _, _, _, _ := Stop(tables, id, io);
  }
}
