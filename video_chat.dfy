/**
 * The two-party video chat client of client/videoChat.js: it registers a
 * user over a WebSocket, places or receives a call, relays ICE candidates
 * and session descriptions through the server, and holds back remote
 * candidates until its peer connection is in the `stable` signaling state.
 *
 * The browser's RTCPeerConnection is reduced to its role, its signaling
 * state and the log of remote candidates it has been given. The browser
 * decides when the signaling state changes; that is an event of its own
 * (`SignalingChanges`). Each `await` in the source is a point where other
 * events run: the rest of the awaiting function is an event of its own
 * (`Delivered`, `CallResumes`, `OfferReady`, `AnswerReady`, `Disconnect`)
 * that does nothing unless the promise it waits for has been resolved.
 */
module VideoChat {
  import opened Wrappers

  type Candidate = string
  type Description = string

  datatype SignalingState = Stable | HaveLocalOffer | HaveRemoteOffer | HaveLocalPranswer | HaveRemotePranswer | Closed

  /** Which side created the peer connection: `call` makes a caller, an incoming offer a callee. */
  datatype Role = Caller | Callee

  datatype Peer = Peer(role: Role, signalingState: SignalingState, applied: seq<Candidate>)

  /** The flag that tells the server whom to pass a message on to. */
  datatype Relay = RelayToCaller | RelayToCallee

  /** The messages the client sends. */
  datatype Outgoing =
    | Register(name: string)
    | Call(name: string)
    | OnIceCandidate(relay: Relay, candidate: Candidate)
    | Offer(relay: Relay, desc: Description)
    | Answer(relay: Relay, desc: Description)

  /** The messages the client receives, by `id`. */
  datatype Incoming =
    | CallConnected
    | AnswerMessage(desc: Description)
    | OfferMessage(desc: Description)
    | Hangup
    | RegisterSuccess
    | RemoteCandidate(candidate: Candidate)
    | ErrorMessage(error: string)
    | Unrecognized(id: string)

  /** How far `ws.onopen` has got. */
  datatype OpenStage = Connecting | AwaitingRegistration | StreamerDelivered

  datatype Chat = Chat(
    pc: Option<Peer>,
    roles: set<Role>,              // roles of every connection created; each keeps its `icecandidate` listener
    queued: seq<Candidate>,        // queuedRemoteCandidates
    sent: seq<Outgoing>,
    registered: bool,              // registerPromise resolved
    callConnected: bool,           // callConnectedPromise resolved
    hungUp: bool,                  // resolveHangupPromise resolved
    answersPending: nat,           // receiveCall runs still to send their answer
    callsConnecting: nat,          // call() runs waiting for callConnectedPromise
    callsOffering: nat,            // call() runs with a new connection, still to send their offer
    openStage: OpenStage,
    logged: seq<string>,           // console.error
    unhandled: seq<string>)        // rejections nobody awaits

  const Initial := Chat(None, {}, [], [], false, false, false, 0, 0, 0, Connecting, [], [])

  const ClosedError := "PeerConnection object is closed"
  // TypeErrors of reading a property of a null `pc`, in the wording of
  // V8 9.3 and later (Chrome 93).
  const NullPeerError := "Cannot read properties of null (reading 'signalingState')"
  const NullPeerCloseError := "Cannot read properties of null (reading 'close')"
  const NullPeerAnswerError := "Cannot read properties of null (reading 'setRemoteDescription')"
  const UnrecognizedText := "Unrecognized message"

  /**
   * Where a local ICE candidate is relayed: a caller's candidates go to the
   * callee, a callee's to the caller, because the listener each side installs
   * carries its own fixed flag.
   */
  function LocalCandidateMessage(role: Role, candidate: Candidate): (m: Outgoing)
    ensures m.OnIceCandidate? && m.candidate == candidate
    ensures m.relay == RelayToCallee <==> role == Caller
  {
    match role
    case Caller => OnIceCandidate(RelayToCallee, candidate)
    case Callee => OnIceCandidate(RelayToCaller, candidate)
  }

  /**
   * `onRemoteIceCandidate`: a closed connection rejects, a stable one takes the
   * candidate at once, any other state queues it. Without a peer connection
   * reading its state throws. The rejections are returned, not awaited,
   * inside the handler's try, so they escape it.
   */
  function RemoteCandidateStep(c: Chat, candidate: Candidate): (t: Chat)
    ensures c.pc.None? ==> t == c.(unhandled := c.unhandled + [NullPeerError])
    ensures c.pc.Some? && c.pc.value.signalingState == Closed ==> t == c.(unhandled := c.unhandled + [ClosedError])
    ensures c.pc.Some? && c.pc.value.signalingState == Stable ==>
      t == c.(pc := Some(c.pc.value.(applied := c.pc.value.applied + [candidate])))
    ensures c.pc.Some? && c.pc.value.signalingState !in {Stable, Closed} ==>
      t == c.(queued := c.queued + [candidate])
  {
    if c.pc.None? then c.(unhandled := c.unhandled + [NullPeerError])
    else
      match c.pc.value.signalingState
      case Closed => c.(unhandled := c.unhandled + [ClosedError])
      case Stable => c.(pc := Some(c.pc.value.(applied := c.pc.value.applied + [candidate])))
      case _ => c.(queued := c.queued + [candidate])
  }

  /**
   * The `signalingstatechange` listener, after the browser has moved the
   * connection to `state`: on `stable` every queued candidate is given to the
   * connection, in queue order, and the queue is kept as it was.
   */
  function SignalingStep(c: Chat, state: SignalingState): (t: Chat)
    ensures c.pc.None? ==> t == c
    ensures c.pc.Some? && state == Stable ==>
      t == c.(pc := Some(c.pc.value.(signalingState := Stable, applied := c.pc.value.applied + c.queued)))
    ensures c.pc.Some? && state != Stable ==> t == c.(pc := Some(c.pc.value.(signalingState := state)))
    ensures t.queued == c.queued && t.sent == c.sent
  {
    if c.pc.None? then c
    else
      var p := c.pc.value;
      var applied := if state == Stable then p.applied + c.queued else p.applied;
      c.(pc := Some(Peer(p.role, state, applied)))
  }

  /**
   * `ws.onmessage`: the message handlers, with errors caught and logged. An
   * offer starts `receiveCall`, which replaces the connection with a fresh
   * callee connection at once and sends its answer later (`AnswerReady`); an
   * answer is handed to the connection without waiting, so only a missing
   * connection makes it fail.
   */
  function ReceiveStep(c: Chat, msg: Incoming): (t: Chat)
    ensures msg.CallConnected? ==> t == c.(callConnected := true)
    ensures msg.AnswerMessage? && c.pc.Some? ==> t == c
    ensures msg.AnswerMessage? && c.pc.None? ==> t == c.(logged := c.logged + [NullPeerAnswerError])
    ensures msg.OfferMessage? ==>
      t == c.(pc := Some(Peer(Callee, Stable, [])), roles := c.roles + {Callee}, answersPending := c.answersPending + 1)
    ensures msg.Hangup? ==> t == c.(hungUp := true)
    ensures msg.RegisterSuccess? ==> t == c.(registered := true)
    ensures msg.RemoteCandidate? ==> t == RemoteCandidateStep(c, msg.candidate)
    ensures msg.Unrecognized? ==> t == c.(logged := c.logged + [UnrecognizedText])
    ensures msg.ErrorMessage? ==> t == c.(logged := c.logged + [msg.error])
    ensures t.sent == c.sent && t.openStage == c.openStage
    ensures t.callsConnecting == c.callsConnecting && t.callsOffering == c.callsOffering
    ensures (c.registered ==> t.registered) && (c.callConnected ==> t.callConnected)
  {
    match msg
    case CallConnected => c.(callConnected := true)
    case AnswerMessage(_) => if c.pc.None? then c.(logged := c.logged + [NullPeerAnswerError]) else c
    case OfferMessage(_) =>
      c.(pc := Some(Peer(Callee, Stable, [])), roles := c.roles + {Callee}, answersPending := c.answersPending + 1)
    case Hangup => c.(hungUp := true)
    case RegisterSuccess => c.(registered := true)
    case RemoteCandidate(candidate) => RemoteCandidateStep(c, candidate)
    case ErrorMessage(error) => c.(logged := c.logged + [error])
    case Unrecognized(_) => c.(logged := c.logged + [UnrecognizedText])
  }

  datatype Event =
    | Opened(userId: string)                    // ws.onopen: sends `register`
    | Delivered                                 // ws.onopen after registerPromise: resolves the streamer
    | CallInvoked(callee: string)               // call(callee) on the delivered streamer: sends `call` every time
    | CallResumes                               // a call after callConnectedPromise: new caller connection
    | OfferReady(desc: Description)             // a call after setLocalDescription: sends the offer
    | AnswerReady(desc: Description)            // a receiveCall after setLocalDescription: sends the answer
    | Receive(msg: Incoming)
    | LocalCandidate(role: Role, candidate: Candidate)  // the `icecandidate` listener of a connection of that role
    | SignalingChanges(state: SignalingState)   // the `signalingstatechange` listener
    | Disconnect                                // waitForDisconnect after the hangup: pc.close()

  /**
   * One event of the client. Each `call()` and each incoming offer is a run of
   * its own: the counters say how many runs wait at each `await`, and a resumed
   * run acts on whatever connection `pc` holds by then.
   */
  function Step(c: Chat, e: Event): (t: Chat)
    ensures c.sent <= t.sent && |t.sent| <= |c.sent| + 1
    ensures e.Opened? && c.openStage == Connecting ==>
      t == c.(sent := c.sent + [Register(e.userId)], openStage := AwaitingRegistration)
    ensures e.Opened? && c.openStage != Connecting ==> t == c
    ensures e.Delivered? && c.openStage == AwaitingRegistration && c.registered ==> t == c.(openStage := StreamerDelivered)
    ensures e.Delivered? && !(c.openStage == AwaitingRegistration && c.registered) ==> t == c
    ensures e.CallInvoked? && c.openStage == StreamerDelivered ==>
      t == c.(sent := c.sent + [Call(e.callee)], callsConnecting := c.callsConnecting + 1)
    ensures e.CallInvoked? && c.openStage != StreamerDelivered ==> t == c
    ensures e.CallResumes? && c.callsConnecting > 0 && c.callConnected ==>
      t == c.(pc := Some(Peer(Caller, Stable, [])), roles := c.roles + {Caller},
              callsConnecting := c.callsConnecting - 1, callsOffering := c.callsOffering + 1)
    ensures e.CallResumes? && !(c.callsConnecting > 0 && c.callConnected) ==> t == c
    ensures e.OfferReady? && c.callsOffering > 0 ==>
      t == c.(sent := c.sent + [Offer(RelayToCallee, e.desc)], callsOffering := c.callsOffering - 1)
    ensures e.AnswerReady? && c.answersPending > 0 ==>
      t == c.(sent := c.sent + [Answer(RelayToCaller, e.desc)], answersPending := c.answersPending - 1)
    ensures (e.OfferReady? && c.callsOffering == 0) || (e.AnswerReady? && c.answersPending == 0) ==> t == c
    ensures e.Receive? ==> t == ReceiveStep(c, e.msg)
    ensures e.LocalCandidate? && e.role in c.roles ==> t == c.(sent := c.sent + [LocalCandidateMessage(e.role, e.candidate)])
    ensures e.LocalCandidate? && e.role !in c.roles ==> t == c
    ensures e.SignalingChanges? ==> t == SignalingStep(c, e.state)
    ensures e.Disconnect? && c.hungUp && c.pc.Some? ==> t == c.(pc := Some(c.pc.value.(signalingState := Closed)))
    ensures e.Disconnect? && c.hungUp && c.pc.None? ==> t == c.(unhandled := c.unhandled + [NullPeerCloseError])
    ensures e.Disconnect? && !c.hungUp ==> t == c
  {
    match e
    case Opened(userId) =>
      if c.openStage == Connecting then c.(sent := c.sent + [Register(userId)], openStage := AwaitingRegistration) else c
    case Delivered =>
      if c.openStage == AwaitingRegistration && c.registered then c.(openStage := StreamerDelivered) else c
    case CallInvoked(callee) =>
      if c.openStage == StreamerDelivered
      then c.(sent := c.sent + [Call(callee)], callsConnecting := c.callsConnecting + 1)
      else c
    case CallResumes =>
      if c.callsConnecting > 0 && c.callConnected
      then c.(pc := Some(Peer(Caller, Stable, [])), roles := c.roles + {Caller},
              callsConnecting := c.callsConnecting - 1, callsOffering := c.callsOffering + 1)
      else c
    case OfferReady(desc) =>
      if c.callsOffering > 0
      then c.(sent := c.sent + [Offer(RelayToCallee, desc)], callsOffering := c.callsOffering - 1)
      else c
    case AnswerReady(desc) =>
      if c.answersPending > 0
      then c.(sent := c.sent + [Answer(RelayToCaller, desc)], answersPending := c.answersPending - 1)
      else c
    case Receive(msg) => ReceiveStep(c, msg)
    case LocalCandidate(role, candidate) =>
      if role in c.roles then c.(sent := c.sent + [LocalCandidateMessage(role, candidate)]) else c
    case SignalingChanges(state) => SignalingStep(c, state)
    case Disconnect =>
      if !c.hungUp then c
      else if c.pc.None? then c.(unhandled := c.unhandled + [NullPeerCloseError])
      else c.(pc := Some(c.pc.value.(signalingState := Closed)))
  }

  function Run(c: Chat, events: seq<Event>): Chat
    decreases |events|
  {
    if events == [] then c else Run(Step(c, events[0]), events[1..])
  }

  // ---------------------------------------------------------------------------
  // Candidate gating.
  // ---------------------------------------------------------------------------

  function Arrivals(cs: seq<Candidate>): (es: seq<Event>)
    ensures |es| == |cs|
    ensures forall i :: 0 <= i < |cs| ==> es[i] == Receive(RemoteCandidate(cs[i]))
  {
    if cs == [] then [] else [Receive(RemoteCandidate(cs[0]))] + Arrivals(cs[1..])
  }

  /** While the connection is neither stable nor closed, arriving candidates join the queue in order. */
  lemma {:induction false} ArrivalsAreQueued(c: Chat, cs: seq<Candidate>)
    requires c.pc.Some? && c.pc.value.signalingState !in {Stable, Closed}
    ensures var t := Run(c, Arrivals(cs));
      t == c.(queued := c.queued + cs)
    decreases |cs|
  {
    if cs == [] {
      assert c.queued + cs == c.queued;
    } else {
      var e := Receive(RemoteCandidate(cs[0]));
      var s := c.(queued := c.queued + [cs[0]]);
      ArrivalIsQueued(c, cs[0]);
      assert Arrivals(cs) == [e] + Arrivals(cs[1..]);
      RunCons(c, e, Arrivals(cs[1..]));
      ArrivalsAreQueued(s, cs[1..]);
      assert s.(queued := s.queued + cs[1..]) == c.(queued := c.queued + cs) by {
        assert c.queued + [cs[0]] + cs[1..] == c.queued + cs;
      }
    }
  }

  lemma RunCons(c: Chat, e: Event, events: seq<Event>)
    ensures Run(c, [e] + events) == Run(Step(c, e), events)
  {
    assert ([e] + events)[1..] == events;
  }

  lemma ArrivalIsQueued(c: Chat, candidate: Candidate)
    requires c.pc.Some? && c.pc.value.signalingState !in {Stable, Closed}
    ensures Step(c, Receive(RemoteCandidate(candidate))) == c.(queued := c.queued + [candidate])
  {
  }

  lemma {:induction false} RunAppend(c: Chat, a: seq<Event>, b: seq<Event>)
    ensures Run(c, a + b) == Run(Run(c, a), b)
    decreases |a|
  {
    if a == [] {
      assert a + b == b;
    } else {
      assert (a + b)[0] == a[0];
      assert (a + b)[1..] == a[1..] + b;
      RunAppend(Step(c, a[0]), a[1..], b);
    }
  }

  /**
   * Candidates that arrive before the connection is stable are applied, in
   * arrival order after those already queued, when it becomes stable.
   */
  lemma QueuedCandidatesAppliedOnStable(c: Chat, cs: seq<Candidate>)
    requires c.pc.Some? && c.pc.value.signalingState !in {Stable, Closed}
    ensures var t := Run(c, Arrivals(cs) + [SignalingChanges(Stable)]);
      && t.pc.Some? && t.pc.value.signalingState == Stable
      && t.pc.value.applied == c.pc.value.applied + c.queued + cs
      && t.queued == c.queued + cs
  {
    RunAppend(c, Arrivals(cs), [SignalingChanges(Stable)]);
    ArrivalsAreQueued(c, cs);
  }

  /** `n` copies of `s`, one after another. */
  function Repeat(s: seq<Candidate>, n: nat): (r: seq<Candidate>)
    ensures |r| == n * |s|
  {
    if n == 0 then [] else Repeat(s, n - 1) + s
  }

  /** `n` round trips through a non-stable state back to `stable`. */
  function Renegotiations(n: nat): (es: seq<Event>)
    ensures |es| == 2 * n
  {
    if n == 0 then [] else Renegotiations(n - 1) + [SignalingChanges(HaveLocalOffer), SignalingChanges(Stable)]
  }

  /**
   * The queue is never cleared: every return to `stable` gives the same
   * queued candidates to the connection again.
   */
  lemma {:induction false} EveryStableReplaysQueue(c: Chat, n: nat)
    requires c.pc.Some?
    ensures var t := Run(c, Renegotiations(n));
      && t.pc.Some? && t.queued == c.queued
      && t.pc.value.applied == c.pc.value.applied + Repeat(c.queued, n)
  {
    if n == 0 {
      assert Repeat(c.queued, 0) == [];
      assert c.pc.value.applied + [] == c.pc.value.applied;
    } else {
      EveryStableReplaysQueue(c, n - 1);
      var s := Run(c, Renegotiations(n - 1));
      RunAppend(c, Renegotiations(n - 1), [SignalingChanges(HaveLocalOffer), SignalingChanges(Stable)]);
      var s1 := Step(s, SignalingChanges(HaveLocalOffer));
      var s2 := Step(s1, SignalingChanges(Stable));
      assert Run(s, [SignalingChanges(HaveLocalOffer), SignalingChanges(Stable)]) == s2;
      assert s2.pc.value.applied == s.pc.value.applied + c.queued;
      assert c.pc.value.applied + Repeat(c.queued, n - 1) + c.queued == c.pc.value.applied + Repeat(c.queued, n);
    }
  }

  // ---------------------------------------------------------------------------
  // Call-setup order.
  // ---------------------------------------------------------------------------

  ghost predicate SentBefore(sent: seq<Outgoing>, j: int, isCall: bool) {
    exists i :: 0 <= i < j && i < |sent| && (if isCall then sent[i].Call? else sent[i].Register?)
  }

  /** Some `call()` run has sent its `call` message and not yet its offer. */
  predicate CallUnderway(c: Chat) {
    c.callsConnecting > 0 || c.callsOffering > 0
  }

  /**
   * The order every run keeps: `register`, then `registerSuccess` and the
   * delivered streamer, then `call`, then `callConnected`, then the offer.
   * A `call` is sent only after `register` and once `registerSuccess`
   * arrived; an offer only after a `call` message and after `callConnected`;
   * a caller's connection exists only after `callConnected`; the streamer is
   * delivered only after `register` was sent and `registerSuccess` arrived;
   * an offer always goes to the callee and an answer to the caller.
   */
  ghost predicate SetupOrdered(c: Chat) {
    && (forall j :: 0 <= j < |c.sent| && c.sent[j].Call? ==> c.registered && SentBefore(c.sent, j, false))
    && (forall j :: 0 <= j < |c.sent| && c.sent[j].Offer? ==>
          c.callConnected && SentBefore(c.sent, j, true) && c.sent[j].relay == RelayToCallee)
    && (forall j :: 0 <= j < |c.sent| && c.sent[j].Answer? ==> c.sent[j].relay == RelayToCaller)
    && (CallUnderway(c) ==> SentBefore(c.sent, |c.sent|, true))
    && (c.callsOffering > 0 ==> c.callConnected)
    && (c.openStage != Connecting ==> SentBefore(c.sent, |c.sent|, false))
    && (c.openStage == StreamerDelivered ==> c.registered)
  }

  lemma SentBeforeGrows(a: seq<Outgoing>, m: Outgoing, j: int, isCall: bool)
    requires SentBefore(a, j, isCall) && 0 <= j <= |a|
    ensures SentBefore(a + [m], j, isCall)
    ensures SentBefore(a + [m], j + 1, isCall)
  {
    var i :| 0 <= i < j && i < |a| && (if isCall then a[i].Call? else a[i].Register?);
    assert (a + [m])[i] == a[i];
  }

  /** A step that sends nothing and moves no `call()` run or `onopen` stage keeps the order. */
  lemma QuietStepKeepsOrder(c: Chat, t: Chat)
    requires SetupOrdered(c)
    requires t.sent == c.sent && t.openStage == c.openStage
    requires t.callsConnecting == c.callsConnecting && t.callsOffering == c.callsOffering
    requires (c.callConnected ==> t.callConnected) && (c.registered ==> t.registered)
    ensures SetupOrdered(t)
  {
  }

  /** A step that sends `m` keeps the order of what was sent before. */
  lemma {:induction false} SendKeepsOrder(c: Chat, t: Chat, m: Outgoing)
    requires SetupOrdered(c)
    requires t.sent == c.sent + [m] && t.callConnected == c.callConnected && t.registered == c.registered
    requires m.Offer? ==> c.callConnected && SentBefore(c.sent, |c.sent|, true) && m.relay == RelayToCallee
    requires m.Answer? ==> m.relay == RelayToCaller
    requires m.Call? ==> c.registered && SentBefore(c.sent, |c.sent|, false)
    requires CallUnderway(t) ==> SentBefore(t.sent, |t.sent|, true)
    requires t.callsOffering > 0 ==> c.callConnected
    requires t.openStage != Connecting ==> SentBefore(t.sent, |t.sent|, false)
    requires t.openStage == StreamerDelivered ==> c.registered
    ensures SetupOrdered(t)
  {
    forall j | 0 <= j < |t.sent| && t.sent[j].Offer?
      ensures c.callConnected && SentBefore(t.sent, j, true) && t.sent[j].relay == RelayToCallee
    {
      if j < |c.sent| {
        assert t.sent[j] == c.sent[j];
        SentBeforeGrows(c.sent, m, j, true);
      } else {
        SentBeforeGrows(c.sent, m, |c.sent|, true);
      }
    }
    forall j | 0 <= j < |t.sent| && t.sent[j].Answer?
      ensures t.sent[j].relay == RelayToCaller
    {
      if j < |c.sent| {
        assert t.sent[j] == c.sent[j];
      }
    }
    forall j | 0 <= j < |t.sent| && t.sent[j].Call?
      ensures t.registered && SentBefore(t.sent, j, false)
    {
      if j < |c.sent| {
        assert t.sent[j] == c.sent[j];
        SentBeforeGrows(c.sent, m, j, false);
      } else {
        SentBeforeGrows(c.sent, m, |c.sent|, false);
      }
    }
  }

  /**
   * A step that sends `m` and moves no `call()` run and no `onopen` stage:
   * every earlier `call` and `register` stays before the end.
   */
  lemma PlainSendKeepsOrder(c: Chat, t: Chat, m: Outgoing)
    requires SetupOrdered(c)
    requires t.sent == c.sent + [m] && t.callConnected == c.callConnected && t.registered == c.registered
    requires t.callsConnecting == c.callsConnecting && t.callsOffering == c.callsOffering
    requires t.openStage == c.openStage
    requires !m.Offer? && !m.Call? && (m.Answer? ==> m.relay == RelayToCaller)
    ensures SetupOrdered(t)
  {
    if CallUnderway(c) {
      SentBeforeGrows(c.sent, m, |c.sent|, true);
    }
    if c.openStage != Connecting {
      SentBeforeGrows(c.sent, m, |c.sent|, false);
    }
    SendKeepsOrder(c, t, m);
  }

  /** `ws.onopen` sends `register` and keeps the order. */
  lemma OpenedKeepsOrder(c: Chat, userId: string)
    requires SetupOrdered(c)
    ensures SetupOrdered(Step(c, Opened(userId)))
  {
    var t := Step(c, Opened(userId));
    if c.openStage == Connecting {
      assert t.sent[|c.sent|] == Register(userId);
      if CallUnderway(c) {
        SentBeforeGrows(c.sent, Register(userId), |c.sent|, true);
      }
      SendKeepsOrder(c, t, Register(userId));
    }
  }

  /**
   * `call()` is reachable only through the delivered streamer, so its `call`
   * follows `register` and `registerSuccess`, and precedes its later offer.
   */
  lemma CallInvokedKeepsOrder(c: Chat, callee: string)
    requires SetupOrdered(c)
    ensures SetupOrdered(Step(c, CallInvoked(callee)))
  {
    if c.openStage == StreamerDelivered {
      var t := Step(c, CallInvoked(callee));
      assert t.sent[|c.sent|] == Call(callee);
      SentBeforeGrows(c.sent, Call(callee), |c.sent|, false);
      SendKeepsOrder(c, t, Call(callee));
    }
  }

  /** A resumed `call()` creates its connection only after `callConnected`. */
  lemma CallResumesKeepsOrder(c: Chat)
    requires SetupOrdered(c)
    ensures SetupOrdered(Step(c, CallResumes))
  {
  }

  /** A `call()` sends its offer to the callee, after its `call` and after `callConnected`. */
  lemma OfferReadyKeepsOrder(c: Chat, desc: Description)
    requires SetupOrdered(c)
    ensures SetupOrdered(Step(c, OfferReady(desc)))
  {
    var t := Step(c, OfferReady(desc));
    if c.callsOffering > 0 {
      var m := Offer(RelayToCallee, desc);
      SentBeforeGrows(c.sent, m, |c.sent|, true);
      if c.openStage != Connecting {
        SentBeforeGrows(c.sent, m, |c.sent|, false);
      }
      SendKeepsOrder(c, t, m);
    }
  }

  /** A `receiveCall` sends its answer to the caller. */
  lemma AnswerReadyKeepsOrder(c: Chat, desc: Description)
    requires SetupOrdered(c)
    ensures SetupOrdered(Step(c, AnswerReady(desc)))
  {
    if c.answersPending > 0 {
      PlainSendKeepsOrder(c, Step(c, AnswerReady(desc)), Answer(RelayToCaller, desc));
    }
  }

  /** A local candidate is relayed without disturbing the order. */
  lemma LocalCandidateKeepsOrder(c: Chat, role: Role, candidate: Candidate)
    requires SetupOrdered(c)
    ensures SetupOrdered(Step(c, LocalCandidate(role, candidate)))
  {
    if role in c.roles {
      PlainSendKeepsOrder(c, Step(c, LocalCandidate(role, candidate)), LocalCandidateMessage(role, candidate));
    }
  }

  lemma StepKeepsSetupOrder(c: Chat, e: Event)
    requires SetupOrdered(c)
    ensures SetupOrdered(Step(c, e))
  {
    match e
    case Opened(userId) => OpenedKeepsOrder(c, userId);
    case CallInvoked(callee) => CallInvokedKeepsOrder(c, callee);
    case CallResumes => CallResumesKeepsOrder(c);
    case OfferReady(desc) => OfferReadyKeepsOrder(c, desc);
    case AnswerReady(desc) => AnswerReadyKeepsOrder(c, desc);
    case LocalCandidate(role, candidate) => LocalCandidateKeepsOrder(c, role, candidate);
    case Delivered =>
    case Receive(msg) => QuietStepKeepsOrder(c, Step(c, e));
    case SignalingChanges(state) => QuietStepKeepsOrder(c, Step(c, e));
    case Disconnect => QuietStepKeepsOrder(c, Step(c, e));
  }

  lemma {:induction false} RunKeepsSetupOrder(c: Chat, events: seq<Event>)
    requires SetupOrdered(c)
    ensures SetupOrdered(Run(c, events))
    decreases |events|
  {
    if events != [] {
      StepKeepsSetupOrder(c, events[0]);
      RunKeepsSetupOrder(Step(c, events[0]), events[1..]);
    }
  }

  /** From a fresh client, whatever happens, call setup and registration keep their order. */
  lemma SetupOrderFromStart(events: seq<Event>)
    ensures SetupOrdered(Run(Initial, events))
  {
    RunKeepsSetupOrder(Initial, events);
  }

  /**
   * A caller connection replaced by an incoming offer keeps its listener and
   * its flag: its candidates still go to the callee although `pc` now holds a
   * callee connection, whose own candidates go to the caller.
   */
  lemma ReplacedConnectionKeepsItsFlag(c: Chat, desc: Description, candidate: Candidate)
    requires c.callsConnecting > 0 && c.callConnected
    ensures var s := Run(c, [CallResumes, Receive(OfferMessage(desc))]);
      && s.pc.Some? && s.pc.value.role == Callee
      && Step(s, LocalCandidate(Caller, candidate)).sent == s.sent + [OnIceCandidate(RelayToCallee, candidate)]
      && Step(s, LocalCandidate(Callee, candidate)).sent == s.sent + [OnIceCandidate(RelayToCaller, candidate)]
  {
    var s1 := Step(c, CallResumes);
    assert Caller in s1.roles;
    var s2 := Step(s1, Receive(OfferMessage(desc)));
    assert s2 == ReceiveStep(s1, OfferMessage(desc));
    assert Caller in s2.roles && Callee in s2.roles;
    assert Run(s1, [Receive(OfferMessage(desc))]) == s2;
  }

  // ---------------------------------------------------------------------------
  // One `call` message per `call()`.
  // ---------------------------------------------------------------------------

  function CallsSent(sent: seq<Outgoing>): (n: nat)
    ensures n <= |sent|
  {
    if sent == [] then 0 else CallsSent(sent[..|sent| - 1]) + (if sent[|sent| - 1].Call? then 1 else 0)
  }

  function CallInvocations(events: seq<Event>): (n: nat)
    ensures n <= |events|
  {
    if events == [] then 0 else (if events[0].CallInvoked? then 1 else 0) + CallInvocations(events[1..])
  }

  /**
   * No event but `call()` sends a `call` message, and each `call()` on the
   * delivered streamer sends exactly one.
   */
  lemma StepCallsSent(c: Chat, e: Event)
    ensures CallsSent(Step(c, e).sent) == CallsSent(c.sent) + (if e.CallInvoked? && c.openStage == StreamerDelivered then 1 else 0)
  {
    var t := Step(c, e);
    if t.sent != c.sent {
      assert t.sent[..|t.sent| - 1] == c.sent;
    }
  }

  /** Once delivered, the streamer stays delivered. */
  lemma StepKeepsDelivered(c: Chat, e: Event)
    requires c.openStage == StreamerDelivered
    ensures Step(c, e).openStage == StreamerDelivered
  {
    if e.Receive? {
      assert Step(c, e) == ReceiveStep(c, e.msg);
    }
  }

  /**
   * Over any run the client sends at most one `call` message per call of
   * `call()`, and once the streamer is delivered exactly one: a second call
   * while one is under way is not ignored.
   */
  lemma {:induction false} RunCallsSent(c: Chat, events: seq<Event>)
    ensures CallsSent(Run(c, events).sent) <= CallsSent(c.sent) + CallInvocations(events)
    ensures c.openStage == StreamerDelivered ==>
      CallsSent(Run(c, events).sent) == CallsSent(c.sent) + CallInvocations(events)
    decreases |events|
  {
    if events != [] {
      StepCallsSent(c, events[0]);
      if c.openStage == StreamerDelivered {
        StepKeepsDelivered(c, events[0]);
      }
      RunCallsSent(Step(c, events[0]), events[1..]);
    }
  }

  // ---------------------------------------------------------------------------
  // The client's closure state, updated in place.
  // ---------------------------------------------------------------------------

  class VideoChatClient {
    var pc: Option<Peer>
    var roles: set<Role>
    var queuedRemoteCandidates: seq<Candidate>
    var sent: seq<Outgoing>
    var registered: bool
    var callConnected: bool
    var hungUp: bool
    var answersPending: nat
    var callsConnecting: nat
    var callsOffering: nat
    var openStage: OpenStage
    var logged: seq<string>
    var unhandled: seq<string>

    function State(): Chat
      reads this
    {
      Chat(pc, roles, queuedRemoteCandidates, sent, registered, callConnected, hungUp, answersPending,
           callsConnecting, callsOffering, openStage, logged, unhandled)
    }

    constructor ()
      ensures State() == Initial
    {
      pc, roles, queuedRemoteCandidates, sent := None, {}, [], [];
      registered, callConnected, hungUp := false, false, false;
      answersPending, callsConnecting, callsOffering := 0, 0, 0;
      openStage, logged, unhandled := Connecting, [], [];
    }

    method OnRemoteIceCandidate(candidate: Candidate)
      modifies this
      ensures State() == RemoteCandidateStep(old(State()), candidate)
    {
      if pc.None? {
        unhandled := unhandled + [NullPeerError];
      } else if pc.value.signalingState == Closed {
        unhandled := unhandled + [ClosedError];
      } else if pc.value.signalingState == Stable {
        pc := Some(pc.value.(applied := pc.value.applied + [candidate]));
      } else {
        queuedRemoteCandidates := queuedRemoteCandidates + [candidate];
      }
    }

    /** The `signalingstatechange` listener with its `forEach` over the queue. */
    method OnSignalingStateChange(state: SignalingState)
      modifies this
      ensures State() == SignalingStep(old(State()), state)
    {
      if pc.Some? {
        pc := Some(pc.value.(signalingState := state));
        if state == Stable {
          for i := 0 to |queuedRemoteCandidates|
            invariant State() == old(State()).(pc := pc)
            invariant pc.Some?
            invariant pc.value == old(pc.value).(signalingState := state,
                                                 applied := old(pc.value.applied) + queuedRemoteCandidates[..i])
          {
            assert queuedRemoteCandidates[..i + 1] == queuedRemoteCandidates[..i] + [queuedRemoteCandidates[i]];
            pc := Some(pc.value.(applied := pc.value.applied + [queuedRemoteCandidates[i]]));
          }
          assert queuedRemoteCandidates[..|queuedRemoteCandidates|] == queuedRemoteCandidates;
        }
      }
    }

    method OnMessage(msg: Incoming)
      modifies this
      ensures State() == ReceiveStep(old(State()), msg)
    {
      match msg
      case CallConnected => callConnected := true;
      case AnswerMessage(_) =>
        if pc.None? {
          logged := logged + [NullPeerAnswerError];
        }
      case OfferMessage(_) =>
        pc := Some(Peer(Callee, Stable, []));
        roles := roles + {Callee};
        answersPending := answersPending + 1;
      case Hangup => hungUp := true;
      case RegisterSuccess => registered := true;
      case RemoteCandidate(candidate) => OnRemoteIceCandidate(candidate);
      case ErrorMessage(error) => logged := logged + [error];
      case Unrecognized(_) => logged := logged + [UnrecognizedText];
    }

    method Handle(e: Event)
      modifies this
      ensures State() == Step(old(State()), e)
    {
      match e
      case Opened(userId) =>
        if openStage == Connecting {
          sent := sent + [Register(userId)];
          openStage := AwaitingRegistration;
        }
      case Delivered =>
        if openStage == AwaitingRegistration && registered {
          openStage := StreamerDelivered;
        }
      case CallInvoked(callee) =>
        if openStage == StreamerDelivered {
          sent := sent + [Call(callee)];
          callsConnecting := callsConnecting + 1;
        }
      case CallResumes =>
        if callsConnecting > 0 && callConnected {
          pc := Some(Peer(Caller, Stable, []));
          roles := roles + {Caller};
          callsConnecting, callsOffering := callsConnecting - 1, callsOffering + 1;
        }
      case OfferReady(desc) =>
        if callsOffering > 0 {
          sent := sent + [Offer(RelayToCallee, desc)];
          callsOffering := callsOffering - 1;
        }
      case AnswerReady(desc) =>
        if answersPending > 0 {
          sent := sent + [Answer(RelayToCaller, desc)];
          answersPending := answersPending - 1;
        }
      case Receive(msg) => OnMessage(msg);
      case LocalCandidate(role, candidate) =>
        if role in roles {
          sent := sent + [LocalCandidateMessage(role, candidate)];
        }
      case SignalingChanges(state) => OnSignalingStateChange(state);
      case Disconnect =>
        if hungUp {
          if pc.None? {
            unhandled := unhandled + [NullPeerCloseError];
          } else {
            pc := Some(pc.value.(signalingState := Closed));
          }
        }
    }
  }
}
