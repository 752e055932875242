/**
 * The recording server's process-wide session tables, shared in shape by
 * server/app.js and its callback-style predecessor server.js:
 *
 *   sessions        session id -> { pipeline, webRtcEndpoint }
 *   candidatesQueue session id -> remote ICE candidates waiting for an endpoint
 *   recorders       session id -> the session's recorder element
 *
 * Media-server objects (pipelines, recorders, endpoints) are opaque handles.
 * What `webRtcEndpoint.addIceCandidate` does is recorded in a ghost log per
 * endpoint (`applied`), so that the model can say which candidates reached
 * which endpoint, and in what order.
 *
 * `start` is not atomic in the source: between flushing the queue into the new
 * endpoint and registering the session it awaits the media server several
 * times, and other messages of the same connection run in between. The model
 * therefore has two steps, `FlushStep` and `RegisterStep`, and a trace model
 * (`Event`, `Run`) in which any event may fall between them.
 */
module SessionTables {
  type SessionId = string

  /** The client's RTCIceCandidate as it arrives in an `onIceCandidate` message. */
  datatype IceCandidate = IceCandidate(candidate: string, sdpMid: string, sdpMLineIndex: nat)

  datatype Pipeline = Pipeline(handle: nat)
  datatype Recorder = Recorder(handle: nat)
  datatype Endpoint = Endpoint(handle: nat)

  /** The value stored in `sessions[sessionId]` once `start` has finished. */
  datatype Session = Session(pipeline: Pipeline, webRtcEndpoint: Endpoint)

  datatype Registry = Registry(
    sessions: map<SessionId, Session>,
    candidatesQueue: map<SessionId, seq<IceCandidate>>,
    recorders: map<SessionId, Recorder>,
    applied: map<Endpoint, seq<IceCandidate>>)

  /** The three module-level objects start empty. */
  const Initial := Registry(map[], map[], map[], map[])

  /** The queued candidates of a session; a missing queue reads as empty. */
  function Queue(r: Registry, id: SessionId): seq<IceCandidate> {
    if id in r.candidatesQueue then r.candidatesQueue[id] else []
  }

  /** The candidates an endpoint has been given, oldest first. */
  function Applied(r: Registry, ep: Endpoint): seq<IceCandidate> {
    if ep in r.applied then r.applied[ep] else []
  }

  /** `webRtcEndpoint.addIceCandidate(candidate)`. */
  function ApplyCandidate(r: Registry, ep: Endpoint, c: IceCandidate): (t: Registry)
    ensures Applied(t, ep) == Applied(r, ep) + [c]
    ensures forall e :: e != ep ==> Applied(t, e) == Applied(r, e)
    ensures t.sessions == r.sessions && t.candidatesQueue == r.candidatesQueue && t.recorders == r.recorders
  {
    r.(applied := r.applied[ep := Applied(r, ep) + [c]])
  }

  /**
   * onIceCandidate(sessionId, candidate): a registered session's endpoint gets
   * the candidate at once and the queues stay as they are; otherwise the
   * candidate goes to the end of the session's queue, which is created if it
   * does not exist yet, and no endpoint receives anything.
   */
  function IceCandidateStep(r: Registry, id: SessionId, c: IceCandidate): (t: Registry)
    ensures t.sessions == r.sessions && t.recorders == r.recorders
    ensures id in r.sessions ==>
      && t.candidatesQueue == r.candidatesQueue
      && Applied(t, r.sessions[id].webRtcEndpoint) == Applied(r, r.sessions[id].webRtcEndpoint) + [c]
      && forall e :: e != r.sessions[id].webRtcEndpoint ==> Applied(t, e) == Applied(r, e)
    ensures id !in r.sessions ==>
      && t.applied == r.applied
      && id in t.candidatesQueue && t.candidatesQueue[id] == Queue(r, id) + [c]
      && forall other :: other != id ==> Queue(t, other) == Queue(r, other)
    ensures t.candidatesQueue.Keys <= r.candidatesQueue.Keys + {id}
  {
    if id in r.sessions then
      ApplyCandidate(r, r.sessions[id].webRtcEndpoint, c)
    else
      r.(candidatesQueue := r.candidatesQueue[id := Queue(r, id) + [c]])
  }

  /**
   * The `while (candidatesQueue[id].length) { shift(); addIceCandidate() }` loop:
   * candidates leave the queue from the front and reach the endpoint in that
   * order, each once. A queue that exists stays, empty.
   */
  function Drain(r: Registry, id: SessionId, ep: Endpoint): (t: Registry)
    ensures Applied(t, ep) == Applied(r, ep) + Queue(r, id)
    ensures forall e :: e != ep ==> Applied(t, e) == Applied(r, e)
    ensures Queue(t, id) == []
    ensures t.sessions == r.sessions && t.recorders == r.recorders
    ensures t.candidatesQueue.Keys == r.candidatesQueue.Keys
    ensures forall other :: other != id ==> Queue(t, other) == Queue(r, other)
    decreases |Queue(r, id)|
  {
    if Queue(r, id) == [] then r
    else
      var q := r.candidatesQueue[id];
      var shifted := r.(candidatesQueue := r.candidatesQueue[id := q[1..]]);
      Drain(ApplyCandidate(shifted, ep, q[0]), id, ep)
  }

  /**
   * The first half of `start`, once the media elements exist: remember the
   * recorder under the session id, then flush the session's queue into the new
   * endpoint. Sessions are not touched: the session is not registered yet.
   */
  function FlushStep(r: Registry, id: SessionId, recorder: Recorder, ep: Endpoint): (t: Registry)
    ensures t.recorders == r.recorders[id := recorder]
    ensures t.sessions == r.sessions
    ensures Applied(t, ep) == Applied(r, ep) + Queue(r, id)
    ensures forall e :: e != ep ==> Applied(t, e) == Applied(r, e)
    ensures Queue(t, id) == []
    ensures forall other :: other != id ==> Queue(t, other) == Queue(r, other)
  {
    Drain(r.(recorders := r.recorders[id := recorder]), id, ep)
  }

  /** The second half of `start`: `sessions[sessionId] = { pipeline, webRtcEndpoint }`. */
  function RegisterStep(r: Registry, id: SessionId, pipeline: Pipeline, ep: Endpoint): (t: Registry)
    ensures id in t.sessions && t.sessions[id] == Session(pipeline, ep)
    ensures forall other :: other != id && other in r.sessions ==> other in t.sessions && t.sessions[other] == r.sessions[other]
    ensures t.sessions.Keys == r.sessions.Keys + {id}
    ensures t.candidatesQueue == r.candidatesQueue && t.recorders == r.recorders && t.applied == r.applied
  {
    r.(sessions := r.sessions[id := Session(pipeline, ep)])
  }

  /** What `stop` finds before it deletes anything. */
  datatype StopTarget =
    | NotRegistered                                  // `sessions[sessionId]` is falsy: stop returns null
    | RecorderMissing                                // `recorders[sessionId].stop()` throws a TypeError
    | Found(pipeline: Pipeline, recorder: Recorder)  // the pipeline to release, the recorder to stop

  function FindStopTarget(r: Registry, id: SessionId): (s: StopTarget)
    ensures s.NotRegistered? <==> id !in r.sessions
    ensures s.RecorderMissing? <==> id in r.sessions && id !in r.recorders
    ensures s.Found? ==>
      id in r.sessions && id in r.recorders && s.pipeline == r.sessions[id].pipeline && s.recorder == r.recorders[id]
  {
    if id !in r.sessions then NotRegistered
    else if id !in r.recorders then RecorderMissing
    else Found(r.sessions[id].pipeline, r.recorders[id])
  }

  /** The three `delete`s of `stop`: the id disappears from every table and nothing else changes. */
  function RemoveSession(r: Registry, id: SessionId): (t: Registry)
    ensures id !in t.sessions && id !in t.candidatesQueue && id !in t.recorders
    ensures t.sessions == r.sessions - {id}
    ensures t.candidatesQueue == r.candidatesQueue - {id}
    ensures t.recorders == r.recorders - {id}
    ensures t.applied == r.applied
  {
    Registry(r.sessions - {id}, r.candidatesQueue - {id}, r.recorders - {id}, r.applied)
  }

  datatype Stopped = Stopped(state: Registry, target: StopTarget)

  /**
   * The synchronous part of `stop`: a registered session with a recorder loses
   * its three entries; an unregistered id changes nothing (stop returns null);
   * a registered id without a recorder throws before any delete.
   */
  function StopStep(r: Registry, id: SessionId): (s: Stopped)
    ensures s.target == FindStopTarget(r, id)
    ensures s.target.Found? ==> s.state == RemoveSession(r, id)
    ensures !s.target.Found? ==> s.state == r
  {
    var target := FindStopTarget(r, id);
    if target.Found? then Stopped(RemoveSession(r, id), target) else Stopped(r, target)
  }

  /** A second `stop` finds nothing to do, whatever the first one did. */
  lemma StopTwiceIsNoOp(r: Registry, id: SessionId)
    ensures var first := StopStep(r, id);
      !first.target.RecorderMissing? ==> StopStep(first.state, id) == Stopped(first.state, NotRegistered)
    ensures var first := StopStep(r, id);
      first.target.RecorderMissing? ==> StopStep(first.state, id) == first
  {
  }

  // ---------------------------------------------------------------------------
  // Traces: the events of one server, in the order its event loop runs them.
  // ---------------------------------------------------------------------------

  datatype Event =
    | CandidateArrives(id: SessionId, candidate: IceCandidate)
    | StartFlushes(id: SessionId, recorder: Recorder, endpoint: Endpoint)
    | StartRegisters(id: SessionId, pipeline: Pipeline, endpoint: Endpoint)
    | StopArrives(id: SessionId)

  function Step(r: Registry, e: Event): Registry {
    match e
    case CandidateArrives(id, c) => IceCandidateStep(r, id, c)
    case StartFlushes(id, recorder, ep) => FlushStep(r, id, recorder, ep)
    case StartRegisters(id, pipeline, ep) => RegisterStep(r, id, pipeline, ep)
    case StopArrives(id) => StopStep(r, id).state
  }

  function Run(r: Registry, events: seq<Event>): Registry
    decreases |events|
  {
    if events == [] then r else Run(Step(r, events[0]), events[1..])
  }

  lemma {:induction false} RunAppend(r: Registry, a: seq<Event>, b: seq<Event>)
    ensures Run(r, a + b) == Run(Run(r, a), b)
    decreases |a|
  {
    if a == [] {
      assert a + b == b;
    } else {
      assert (a + b)[0] == a[0];
      assert (a + b)[1..] == a[1..] + b;
      RunAppend(Step(r, a[0]), a[1..], b);
    }
  }

  lemma RunSingle(r: Registry, e: Event)
    ensures Run(r, [e]) == Step(r, e)
  {
    assert [e][1..] == [];
  }

  /** The `onIceCandidate` messages of one session carrying `cs`, in order. */
  function Arrivals(id: SessionId, cs: seq<IceCandidate>): (es: seq<Event>)
    ensures |es| == |cs|
    ensures forall i :: 0 <= i < |es| ==> es[i].id == id
  {
    if cs == [] then [] else [CandidateArrives(id, cs[0])] + Arrivals(id, cs[1..])
  }

  /** Candidates of a session that is not registered pile up in its queue, in arrival order. */
  lemma {:induction false} ArrivalsBeforeRegistration(r: Registry, id: SessionId, cs: seq<IceCandidate>)
    requires id !in r.sessions
    ensures var t := Run(r, Arrivals(id, cs));
      && t.sessions == r.sessions && t.recorders == r.recorders && t.applied == r.applied
      && Queue(t, id) == Queue(r, id) + cs
      && forall other :: other != id ==> Queue(t, other) == Queue(r, other)
    decreases |cs|
  {
    if cs != [] {
      var s := IceCandidateStep(r, id, cs[0]);
      ArrivalsBeforeRegistration(s, id, cs[1..]);
      assert Queue(r, id) + [cs[0]] + cs[1..] == Queue(r, id) + cs;
    }
  }

  /** Candidates of a registered session go straight to its endpoint, in arrival order. */
  lemma {:induction false} ArrivalsAfterRegistration(r: Registry, id: SessionId, cs: seq<IceCandidate>)
    requires id in r.sessions
    ensures var t := Run(r, Arrivals(id, cs)); var ep := r.sessions[id].webRtcEndpoint;
      && t.sessions == r.sessions && t.recorders == r.recorders && t.candidatesQueue == r.candidatesQueue
      && Applied(t, ep) == Applied(r, ep) + cs
    decreases |cs|
  {
    if cs != [] {
      var ep := r.sessions[id].webRtcEndpoint;
      var s := IceCandidateStep(r, id, cs[0]);
      ArrivalsAfterRegistration(s, id, cs[1..]);
      assert Applied(r, ep) + [cs[0]] + cs[1..] == Applied(r, ep) + cs;
    }
  }

  /** One `start` of session `id`, with candidates arriving before, inside and after its window. */
  function StartTrace(id: SessionId, recorder: Recorder, pipeline: Pipeline, ep: Endpoint,
                      before: seq<IceCandidate>, during: seq<IceCandidate>, after: seq<IceCandidate>): seq<Event>
  {
    Arrivals(id, before) + [StartFlushes(id, recorder, ep)] + Arrivals(id, during)
      + [StartRegisters(id, pipeline, ep)] + Arrivals(id, after)
  }

  /** Up to and including the flush: everything queued so far reaches the endpoint. */
  lemma {:induction false} FlushAfterArrivals(r: Registry, id: SessionId, recorder: Recorder, ep: Endpoint,
                                              before: seq<IceCandidate>)
    requires id !in r.sessions
    ensures var t := Run(r, Arrivals(id, before) + [StartFlushes(id, recorder, ep)]);
      && Applied(t, ep) == Applied(r, ep) + Queue(r, id) + before
      && Queue(t, id) == [] && id !in t.sessions
      && id in t.recorders && t.recorders[id] == recorder
  {
    var a, f := Arrivals(id, before), StartFlushes(id, recorder, ep);
    var s1 := Run(r, a);
    ArrivalsBeforeRegistration(r, id, before);
    RunAppend(r, a, [f]);
    RunSingle(s1, f);
  }

  /** Up to and including the registration: what arrived inside the window is still queued. */
  lemma {:induction false} RegistrationAfterWindow(r: Registry, id: SessionId, recorder: Recorder, pipeline: Pipeline,
                                                   ep: Endpoint, before: seq<IceCandidate>, during: seq<IceCandidate>)
    requires id !in r.sessions
    ensures var t := Run(r, Arrivals(id, before) + [StartFlushes(id, recorder, ep)] + Arrivals(id, during)
                            + [StartRegisters(id, pipeline, ep)]);
      && Applied(t, ep) == Applied(r, ep) + Queue(r, id) + before
      && Queue(t, id) == during
      && id in t.sessions && t.sessions[id] == Session(pipeline, ep)
      && id in t.recorders && t.recorders[id] == recorder
  {
    var p, b, g := Arrivals(id, before) + [StartFlushes(id, recorder, ep)], Arrivals(id, during), StartRegisters(id, pipeline, ep);
    var s2 := Run(r, p);
    FlushAfterArrivals(r, id, recorder, ep, before);
    ArrivalsBeforeRegistration(s2, id, during);
    var s3 := Run(s2, b);
    RunAppend(r, p, b);
    RunAppend(r, p + b, [g]);
    RunSingle(s3, g);
  }

  /**
   * Candidates that arrive before the flush or after the registration reach the
   * new endpoint, in arrival order, each once. Candidates that arrive between
   * the two steps stay in the queue: nothing flushes it again.
   */
  lemma {:induction false} StartWindow(r: Registry, id: SessionId, recorder: Recorder, pipeline: Pipeline, ep: Endpoint,
                    before: seq<IceCandidate>, during: seq<IceCandidate>, after: seq<IceCandidate>)
    requires id !in r.sessions
    ensures var t := Run(r, StartTrace(id, recorder, pipeline, ep, before, during, after));
      && Applied(t, ep) == Applied(r, ep) + Queue(r, id) + before + after
      && Queue(t, id) == during
      && id in t.sessions && t.sessions[id] == Session(pipeline, ep)
      && id in t.recorders && t.recorders[id] == recorder
  {
    var p := Arrivals(id, before) + [StartFlushes(id, recorder, ep)] + Arrivals(id, during)
             + [StartRegisters(id, pipeline, ep)];
    var s4 := Run(r, p);
    RegistrationAfterWindow(r, id, recorder, pipeline, ep, before, during);
    ArrivalsAfterRegistration(s4, id, after);
    RunAppend(r, p, Arrivals(id, after));
  }

  /**
   * When nothing arrives inside the window, every candidate of the session
   * (queued before, or arriving after) reaches the endpoint in arrival order,
   * exactly once, and the queue ends empty.
   */
  lemma SequentialStartAppliesEveryCandidate(r: Registry, id: SessionId, recorder: Recorder, pipeline: Pipeline,
                                             ep: Endpoint, before: seq<IceCandidate>, after: seq<IceCandidate>)
    requires id !in r.sessions && id !in r.candidatesQueue && Applied(r, ep) == []
    ensures var t := Run(r, StartTrace(id, recorder, pipeline, ep, before, [], after));
      Applied(t, ep) == before + after && Queue(t, id) == []
  {
    StartWindow(r, id, recorder, pipeline, ep, before, [], after);
  }

  /**
   * Candidates that arrive inside the window are never applied: a later `stop`
   * deletes them with the queue.
   */
  lemma StrandedCandidatesAreDropped(r: Registry, id: SessionId, recorder: Recorder, pipeline: Pipeline, ep: Endpoint,
                                     before: seq<IceCandidate>, during: seq<IceCandidate>, after: seq<IceCandidate>)
    requires id !in r.sessions && id !in r.candidatesQueue && Applied(r, ep) == []
    ensures var t := Run(r, StartTrace(id, recorder, pipeline, ep, before, during, after) + [StopArrives(id)]);
      && Applied(t, ep) == before + after
      && id !in t.candidatesQueue && id !in t.sessions && id !in t.recorders
      && (during != [] ==> Applied(t, ep) != before + during + after)
  {
    var trace := StartTrace(id, recorder, pipeline, ep, before, during, after);
    StartWindow(r, id, recorder, pipeline, ep, before, during, after);
    var s := Run(r, trace);
    RunAppend(r, trace, [StopArrives(id)]);
    RunSingle(s, StopArrives(id));
    assert StopStep(s, id).state == RemoveSession(s, id);
    assert |before + during + after| == |before + after| + |during|;
  }

  /**
   * A `stop` that falls inside the window finds no session and does nothing;
   * the registration that follows leaves the session registered.
   */
  lemma StopInsideWindowIsLost(r: Registry, id: SessionId, recorder: Recorder, pipeline: Pipeline, ep: Endpoint)
    requires id !in r.sessions
    ensures var t := Run(r, [StartFlushes(id, recorder, ep), StopArrives(id), StartRegisters(id, pipeline, ep)]);
      id in t.sessions && t.sessions[id] == Session(pipeline, ep) && id in t.recorders && t.recorders[id] == recorder
  {
    var f, h, g := StartFlushes(id, recorder, ep), StopArrives(id), StartRegisters(id, pipeline, ep);
    var s1 := FlushStep(r, id, recorder, ep);
    assert StopStep(s1, id).state == s1;
    RunAppend(r, [f, h], [g]);
    RunAppend(r, [f], [h]);
    assert [f, h] == [f] + [h] && [f, h, g] == [f, h] + [g];
    RunSingle(r, f);
    RunSingle(s1, h);
    RunSingle(s1, g);
  }

  /** Every registered session has a recorder to stop. */
  ghost predicate RecordersCoverSessions(r: Registry) {
    forall id :: id in r.sessions ==> id in r.recorders
  }

  /**
   * Each step keeps every registered session paired with a recorder, provided a
   * registration only happens for an id whose recorder is still stored.
   */
  lemma StepKeepsRecorders(r: Registry, e: Event)
    requires RecordersCoverSessions(r)
    requires e.StartRegisters? ==> e.id in r.recorders
    ensures RecordersCoverSessions(Step(r, e))
  {
  }

  /**
   * Two `start`s on one connection can break that pairing: if a `stop` runs
   * between the first registration and the second, the second registers a
   * session whose recorder was deleted, and the next `stop` throws before it
   * deletes anything.
   */
  lemma RestartAfterStopLosesRecorder(id: SessionId, rec1: Recorder, rec2: Recorder, pipe1: Pipeline, pipe2: Pipeline,
                                      ep1: Endpoint, ep2: Endpoint)
    ensures var t := Run(Initial, [StartFlushes(id, rec1, ep1), StartFlushes(id, rec2, ep2),
                                   StartRegisters(id, pipe1, ep1), StopArrives(id), StartRegisters(id, pipe2, ep2)]);
      && id in t.sessions && id !in t.recorders
      && StopStep(t, id) == Stopped(t, RecorderMissing)
  {
    var e1, e2, e3, e4, e5 := StartFlushes(id, rec1, ep1), StartFlushes(id, rec2, ep2),
                              StartRegisters(id, pipe1, ep1), StopArrives(id), StartRegisters(id, pipe2, ep2);
    var s1 := Step(Initial, e1);
    var s2 := Step(s1, e2);
    var s3 := Step(s2, e3);
    assert StopStep(s3, id).target.Found?;
    var s4 := Step(s3, e4);
    var s5 := Step(s4, e5);
    assert [e1, e2, e3, e4, e5][1..] == [e2, e3, e4, e5];
    assert [e2, e3, e4, e5][1..] == [e3, e4, e5];
    assert [e3, e4, e5][1..] == [e4, e5];
    assert [e4, e5][1..] == [e5];
    RunSingle(s4, e5);
    assert Run(s3, [e4, e5]) == s5;
    assert Run(s2, [e3, e4, e5]) == s5;
    assert Run(s1, [e2, e3, e4, e5]) == s5;
    assert Run(Initial, [e1, e2, e3, e4, e5]) == s5;
  }

  /** Entries of a session that no event names are never touched. */
  ghost predicate SameEntries(r: Registry, t: Registry, id: SessionId) {
    && (id in t.sessions <==> id in r.sessions) && (id in r.sessions ==> t.sessions[id] == r.sessions[id])
    && (id in t.recorders <==> id in r.recorders) && (id in r.recorders ==> t.recorders[id] == r.recorders[id])
    && Queue(t, id) == Queue(r, id)
  }

  lemma {:induction false} OtherSessionsUntouched(r: Registry, events: seq<Event>, other: SessionId)
    requires forall i :: 0 <= i < |events| ==> events[i].id != other
    ensures SameEntries(r, Run(r, events), other)
    decreases |events|
  {
    if events != [] {
      var s := Step(r, events[0]);
      assert SameEntries(r, s, other);
      OtherSessionsUntouched(s, events[1..], other);
    }
  }

  // ---------------------------------------------------------------------------
  // The tables as the server holds them: three mutable maps.
  // ---------------------------------------------------------------------------

  class Tables {
    var sessions: map<SessionId, Session>
    var candidatesQueue: map<SessionId, seq<IceCandidate>>
    var recorders: map<SessionId, Recorder>
    /** What each endpoint has been given through addIceCandidate. */
    ghost var applied: map<Endpoint, seq<IceCandidate>>

    ghost function State(): Registry
      reads this
    {
      Registry(sessions, candidatesQueue, recorders, applied)
    }

    constructor ()
      ensures State() == Initial
    {
      sessions, candidatesQueue, recorders := map[], map[], map[];
      applied := map[];
    }

    /** onIceCandidate(sessionId, candidate) */
    method OnIceCandidate(id: SessionId, c: IceCandidate)
      modifies this
      ensures State() == IceCandidateStep(old(State()), id, c)
    {
      if id in sessions {
        var ep := sessions[id].webRtcEndpoint;
        applied := applied[ep := Applied(State(), ep) + [c]];
      } else {
        if id !in candidatesQueue {
          candidatesQueue := candidatesQueue[id := []];
        }
        candidatesQueue := candidatesQueue[id := candidatesQueue[id] + [c]];
      }
    }

    /** `recorders[sessionId] = recorder` and the queue flush of `start`. */
    method SaveRecorderAndFlush(id: SessionId, recorder: Recorder, ep: Endpoint)
      modifies this
      ensures State() == FlushStep(old(State()), id, recorder, ep)
    {
      recorders := recorders[id := recorder];
      ghost var target := Drain(State(), id, ep);
      if id in candidatesQueue {
        while |candidatesQueue[id]| > 0
          invariant id in candidatesQueue
          invariant Drain(State(), id, ep) == target
          decreases |candidatesQueue[id]|
        {
          var candidate := candidatesQueue[id][0];
          candidatesQueue := candidatesQueue[id := candidatesQueue[id][1..]];
          applied := applied[ep := Applied(State(), ep) + [candidate]];
        }
      }
    }

    /** `sessions[sessionId] = { pipeline, webRtcEndpoint }` */
    method Register(id: SessionId, pipeline: Pipeline, ep: Endpoint)
      modifies this
      ensures State() == RegisterStep(old(State()), id, pipeline, ep)
    {
      sessions := sessions[id := Session(pipeline, ep)];
    }

    /** The lookups `stop` makes before its deletes. */
    method LookUpStopTarget(id: SessionId) returns (target: StopTarget)
      ensures target == FindStopTarget(State(), id)
    {
      if id !in sessions {
        target := NotRegistered;
      } else if id !in recorders {
        target := RecorderMissing;
      } else {
        target := Found(sessions[id].pipeline, recorders[id]);
      }
    }

    /** `delete sessions[id]; delete candidatesQueue[id]; delete recorders[id]` */
    method Remove(id: SessionId)
      modifies this
      ensures State() == RemoveSession(old(State()), id)
    {
      sessions := sessions - {id};
      candidatesQueue := candidatesQueue - {id};
      recorders := recorders - {id};
    }

    /** `Object.keys(sessions).length` */
    function SessionCount(): (n: nat)
      reads this
      ensures n == |State().sessions|
    {
      |sessions|
    }
  }
}
