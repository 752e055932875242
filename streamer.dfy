/**
 * The recording client of client/lib.js: it opens a WebSocket to the
 * recording server, streams through a send-only WebRTC peer, and asks the
 * server to stop and upload the recording.
 *
 * Its closure state is the peer (`webRtcPeer`) and the resolver of the stop
 * promise (`resolveStopStreaming`). The peer library is not called: creating
 * a peer takes a fresh handle, and the offer callback and the local ICE
 * candidates it produces are events of their own. Errors that escape a
 * handler are recorded in `thrown`.
 */
module Streamer {
  import opened Wrappers

  type Candidate = string

  /** The send-only peer, by its handle, with what the server has handed it. */
  datatype WebRtcPeer = WebRtcPeer(handle: nat, remoteCandidates: seq<Candidate>, answers: seq<string>)

  /** `webRtcPeer`: never assigned, cleared by `stop`, or holding a peer. */
  datatype PeerSlot = Unset | Cleared | Active(peer: WebRtcPeer)

  /** How the promise of the first `stop` stands. */
  datatype StopState = NotRequested | Pending | Resolved(videoUrl: Option<string>)

  datatype Outgoing = Start(sdpOffer: string) | OnIceCandidate(candidate: Candidate) | Stop

  datatype Incoming =
    | StartResponse(sdpAnswer: string)
    | ErrorMessage(message: string)
    | IceCandidate(candidate: Candidate)
    | UploadSuccess(videoUrl: Option<string>)
    | Unrecognized(id: string)

  datatype Client = Client(
    webRtcPeer: PeerSlot,
    stop: StopState,
    offersPending: nat,          // peers created whose offer callback has not run
    sent: seq<Outgoing>,
    socketOpen: bool,
    created: seq<nat>,           // handles of the peers every `start()` created
    disposed: seq<nat>,          // handles of peers disposed by `stop`
    thrown: seq<string>)

  const Initial := Client(Unset, NotRequested, 0, [], true, [], [], [])

  /**
   * Whether the `onicecandidate` listener of peer `handle` can still fire:
   * the peer was created and has not been disposed. A peer replaced by a
   * later `start()` is not disposed, so its listener keeps sending.
   */
  predicate Live(c: Client, handle: nat) {
    handle in c.created && handle !in c.disposed
  }

  const StopTwice := "Cannot stop stream twice"
  /** `onError` calls `onStreamError`, which nothing defines. */
  const OnStreamErrorMissing := "onStreamError is not defined"

  /**
   * The TypeError of reading `property` of a peer slot that holds none, in the
   * wording of V8 9.3 and later (Node.js 16.9, Chrome 93).
   */
  function PeerMissing(slot: PeerSlot, property: string): (text: string)
    requires !slot.Active?
  {
    "Cannot read properties of " + (if slot.Unset? then "undefined" else "null") + " (reading '" + property + "')"
  }

  /** What a call of `stop()` returns: a promise that is either rejected at once or left to the server. */
  datatype StopCall = Rejected(error: string) | Accepted

  datatype Stopped = Stopped(client: Client, call: StopCall)

  /**
   * `stop()`: a second call rejects and changes nothing; the first records
   * its resolver and, if a peer is active, disposes it, clears it and sends
   * the one `stop` message.
   */
  function StopStep(c: Client): (s: Stopped)
    ensures s.call.Rejected? <==> c.stop != NotRequested
    ensures s.call.Rejected? ==> s.call.error == StopTwice && s.client == c
    ensures s.call == Accepted ==> s.client.stop == Pending && !s.client.webRtcPeer.Active?
    ensures s.call == Accepted && c.webRtcPeer.Active? ==>
      s.client == c.(stop := Pending, webRtcPeer := Cleared, sent := c.sent + [Stop],
                     disposed := c.disposed + [c.webRtcPeer.peer.handle])
    ensures s.call == Accepted && !c.webRtcPeer.Active? ==> s.client == c.(stop := Pending)
  {
    if c.stop != NotRequested then Stopped(c, Rejected(StopTwice))
    else if c.webRtcPeer.Active? then
      Stopped(c.(stop := Pending, webRtcPeer := Cleared, disposed := c.disposed + [c.webRtcPeer.peer.handle],
                 sent := c.sent + [Stop]), Accepted)
    else Stopped(c.(stop := Pending), Accepted)
  }

  /** `onError`: the socket is closed, then the call of the missing `onStreamError` throws. */
  function ErrorStep(c: Client): (t: Client)
    ensures !t.socketOpen && t.thrown == c.thrown + [OnStreamErrorMissing]
    ensures t == c.(socketOpen := false, thrown := c.thrown + [OnStreamErrorMissing])
  {
    c.(socketOpen := false, thrown := c.thrown + [OnStreamErrorMissing])
  }

  /**
   * `ws.onmessage`. `uploadSuccess` settles a pending stop with its URL (a
   * stop promise, once settled, keeps its value) and always closes the socket.
   */
  function ReceiveStep(c: Client, msg: Incoming): (t: Client)
    ensures msg.UploadSuccess? && c.stop == Pending ==> t == c.(stop := Resolved(msg.videoUrl), socketOpen := false)
    ensures msg.UploadSuccess? && c.stop != Pending ==> t == c.(socketOpen := false)
    ensures !msg.UploadSuccess? ==> t.stop == c.stop
    ensures msg.IceCandidate? && c.webRtcPeer.Active? ==>
      t == c.(webRtcPeer := Active(c.webRtcPeer.peer.(remoteCandidates := c.webRtcPeer.peer.remoteCandidates + [msg.candidate])))
    ensures msg.StartResponse? && c.webRtcPeer.Active? ==>
      t == c.(webRtcPeer := Active(c.webRtcPeer.peer.(answers := c.webRtcPeer.peer.answers + [msg.sdpAnswer])))
    ensures (msg.IceCandidate? || msg.StartResponse?) && !c.webRtcPeer.Active? ==>
      t == c.(thrown := c.thrown + [PeerMissing(c.webRtcPeer, if msg.IceCandidate? then "addIceCandidate" else "processAnswer")])
    ensures msg.ErrorMessage? || msg.Unrecognized? ==> t == ErrorStep(c)
    ensures t.sent == c.sent
  {
    match msg
    case StartResponse(answer) =>
      if c.webRtcPeer.Active?
      then c.(webRtcPeer := Active(c.webRtcPeer.peer.(answers := c.webRtcPeer.peer.answers + [answer])))
      else c.(thrown := c.thrown + [PeerMissing(c.webRtcPeer, "processAnswer")])
    case ErrorMessage(_) => ErrorStep(c)
    case IceCandidate(candidate) =>
      if c.webRtcPeer.Active?
      then c.(webRtcPeer := Active(c.webRtcPeer.peer.(remoteCandidates := c.webRtcPeer.peer.remoteCandidates + [candidate])))
      else c.(thrown := c.thrown + [PeerMissing(c.webRtcPeer, "addIceCandidate")])
    case UploadSuccess(url) =>
      var settled := if c.stop == Pending then Resolved(url) else c.stop;
      c.(stop := settled, socketOpen := false)
    case Unrecognized(_) => ErrorStep(c)
  }

  datatype Event =
    | StartCalled(handle: nat)                  // start(): WebRtcPeerSendonly
    | OfferGenerated(offer: Result<string, string>)  // the peer's callback and generateOffer's
    | LocalCandidate(handle: nat, candidate: Candidate)  // the `onicecandidate` option of that peer
    | StopCalled                                // stop()
    | Receive(msg: Incoming)

  /**
   * One event of the client. Every `start()` creates a peer and waits for
   * its offer; each offer callback that runs sends one `start`, or goes to
   * `onError` when the offer failed. A local candidate is sent by whichever
   * live peer found it, whether or not it is the one `webRtcPeer` holds.
   */
  function Step(c: Client, e: Event): (t: Client)
    ensures c.sent <= t.sent && |t.sent| <= |c.sent| + 1
    ensures e.StartCalled? ==>
      t == c.(webRtcPeer := Active(WebRtcPeer(e.handle, [], [])), offersPending := c.offersPending + 1,
              created := c.created + [e.handle])
    ensures e.OfferGenerated? && c.offersPending == 0 ==> t == c
    ensures e.OfferGenerated? && c.offersPending > 0 && e.offer.Err? ==>
      t == ErrorStep(c.(offersPending := c.offersPending - 1))
    ensures e.OfferGenerated? && c.offersPending > 0 && e.offer.Ok? ==>
      t == c.(offersPending := c.offersPending - 1, sent := c.sent + [Start(e.offer.value)])
    ensures e.LocalCandidate? && Live(c, e.handle) ==> t == c.(sent := c.sent + [OnIceCandidate(e.candidate)])
    ensures e.LocalCandidate? && !Live(c, e.handle) ==> t == c
    ensures e.StopCalled? ==> t == StopStep(c).client
    ensures e.Receive? ==> t == ReceiveStep(c, e.msg)
  {
    match e
    case StartCalled(handle) =>
      c.(webRtcPeer := Active(WebRtcPeer(handle, [], [])), offersPending := c.offersPending + 1,
         created := c.created + [handle])
    case OfferGenerated(offer) =>
      if c.offersPending == 0 then c
      else if offer.Err? then ErrorStep(c.(offersPending := c.offersPending - 1))
      else c.(offersPending := c.offersPending - 1, sent := c.sent + [Start(offer.value)])
    case LocalCandidate(handle, candidate) =>
      if Live(c, handle) then c.(sent := c.sent + [OnIceCandidate(candidate)]) else c
    case StopCalled => StopStep(c).client
    case Receive(msg) => ReceiveStep(c, msg)
  }

  function Run(c: Client, events: seq<Event>): Client
    decreases |events|
  {
    if events == [] then c else Run(Step(c, events[0]), events[1..])
  }

  /** The number of `stop` messages in `sent`. */
  function StopsSent(sent: seq<Outgoing>): (n: nat)
    ensures n <= |sent|
  {
    if sent == [] then 0 else StopsSent(sent[..|sent| - 1]) + (if sent[|sent| - 1] == Stop then 1 else 0)
  }

  lemma StopsSentAppend(sent: seq<Outgoing>, m: Outgoing)
    ensures StopsSent(sent + [m]) == StopsSent(sent) + (if m == Stop then 1 else 0)
  {
    assert (sent + [m])[..|sent|] == sent;
  }

  /** At most one `stop` message is ever sent, and only once a stop has been asked for. */
  ghost predicate SingleStop(c: Client) {
    StopsSent(c.sent) <= 1 && (c.stop == NotRequested ==> StopsSent(c.sent) == 0)
  }

  lemma StepKeepsSingleStop(c: Client, e: Event)
    requires SingleStop(c)
    ensures SingleStop(Step(c, e))
  {
    var t := Step(c, e);
    match e
    case OfferGenerated(offer) =>
      if c.offersPending > 0 && offer.Ok? {
        StopsSentAppend(c.sent, Start(offer.value));
      }
    case LocalCandidate(handle, candidate) =>
      if Live(c, handle) {
        StopsSentAppend(c.sent, OnIceCandidate(candidate));
      }
    case StopCalled =>
      if c.stop == NotRequested && c.webRtcPeer.Active? {
        StopsSentAppend(c.sent, Stop);
      }
    case _ =>
  }

  lemma {:induction false} RunKeepsSingleStop(c: Client, events: seq<Event>)
    requires SingleStop(c)
    ensures SingleStop(Run(c, events))
    decreases |events|
  {
    if events != [] {
      StepKeepsSingleStop(c, events[0]);
      RunKeepsSingleStop(Step(c, events[0]), events[1..]);
    }
  }

  /** However often `stop` is called and whatever arrives, the server gets at most one `stop`. */
  lemma AtMostOneStopMessage(events: seq<Event>)
    ensures StopsSent(Run(Initial, events).sent) <= 1
  {
    RunKeepsSingleStop(Initial, events);
  }

  /** A settled stop promise keeps the URL it settled with. */
  lemma {:induction false} ResolvedStopIsFinal(c: Client, events: seq<Event>)
    requires c.stop.Resolved?
    ensures Run(c, events).stop == c.stop
    decreases |events|
  {
    if events != [] {
      var s := Step(c, events[0]);
      assert s.stop == c.stop;
      ResolvedStopIsFinal(s, events[1..]);
    }
  }

  /**
   * A stream started and stopped: `start` sends exactly one `start` carrying
   * the offer; `stop` sends `stop` after it; the server's `uploadSuccess`
   * settles the stop with its URL and closes the socket.
   */
  lemma StartThenStop(handle: nat, offer: string, url: Option<string>)
    ensures var t := Run(Initial, [StartCalled(handle), OfferGenerated(Ok(offer)), StopCalled,
                                   Receive(UploadSuccess(url))]);
      && t.sent == [Start(offer), Stop]
      && t.stop == Resolved(url)
      && !t.socketOpen
      && t.webRtcPeer == Cleared
      && t.disposed == [handle]
  {
    var e1, e2, e3, e4 := StartCalled(handle), OfferGenerated(Ok(offer)), StopCalled, Receive(UploadSuccess(url));
    var s1 := Step(Initial, e1);
    var s2 := Step(s1, e2);
    var s3 := Step(s2, e3);
    var s4 := Step(s3, e4);
    assert s2.sent == [Start(offer)];
    assert s3.sent == [Start(offer), Stop];
    assert Run(s3, [e4]) == s4;
    assert Run(s2, [e3, e4]) == s4;
    assert Run(s1, [e2, e3, e4]) == s4;
  }

  /**
   * A peer replaced by a second `start()` is never disposed: `stop` disposes
   * only the peer `webRtcPeer` holds, and the first peer's candidates are
   * still sent after the `stop` message.
   */
  lemma ReplacedPeerSendsAfterStop(first: nat, second: nat, candidate: Candidate)
    requires first != second
    ensures var t := Run(Initial, [StartCalled(first), StartCalled(second), StopCalled,
                                   LocalCandidate(first, candidate)]);
      && t.sent == [Stop, OnIceCandidate(candidate)]
      && t.disposed == [second]
  {
    var e1, e2, e3, e4 := StartCalled(first), StartCalled(second), StopCalled, LocalCandidate(first, candidate);
    var s1 := Step(Initial, e1);
    var s2 := Step(s1, e2);
    var s3 := Step(s2, e3);
    assert s3.disposed == [second] && s3.sent == [Stop];
    assert Live(s3, first);
    var s4 := Step(s3, e4);
    assert Run(s3, [e4]) == s4;
    assert Run(s2, [e3, e4]) == s4;
    assert Run(s1, [e2, e3, e4]) == s4;
  }

  // ---------------------------------------------------------------------------
  // Where the `start` messages come from.
  // ---------------------------------------------------------------------------

  /** The number of `start` messages in `sent`. */
  function StartsSent(sent: seq<Outgoing>): (n: nat)
    ensures n <= |sent|
  {
    if sent == [] then 0 else StartsSent(sent[..|sent| - 1]) + (if sent[|sent| - 1].Start? then 1 else 0)
  }

  /** The number of `start()` calls among `events`. */
  function StartCalls(events: seq<Event>): (n: nat)
    ensures n <= |events|
  {
    if events == [] then 0 else (if events[0].StartCalled? then 1 else 0) + StartCalls(events[1..])
  }

  /** A `start` is sent only by an offer callback, and each one uses up a pending offer. */
  lemma StepStartsSent(c: Client, e: Event)
    ensures var t := Step(c, e);
      StartsSent(t.sent) + t.offersPending <= StartsSent(c.sent) + c.offersPending + (if e.StartCalled? then 1 else 0)
  {
    var t := Step(c, e);
    if t.sent != c.sent {
      assert t.sent[..|t.sent| - 1] == c.sent;
    }
  }

  lemma {:induction false} RunStartsSent(c: Client, events: seq<Event>)
    ensures var t := Run(c, events);
      StartsSent(t.sent) + t.offersPending <= StartsSent(c.sent) + c.offersPending + StartCalls(events)
    decreases |events|
  {
    if events != [] {
      StepStartsSent(c, events[0]);
      RunStartsSent(Step(c, events[0]), events[1..]);
    }
  }

  /** The server gets no more `start` messages than there were calls of `start()`. */
  lemma AtMostOneStartPerCall(events: seq<Event>)
    ensures StartsSent(Run(Initial, events).sent) <= StartCalls(events)
  {
    RunStartsSent(Initial, events);
  }

  /** Every `start` sent carries an offer that the peer generated. */
  lemma {:induction false} StartsCarryGeneratedOffers(c: Client, events: seq<Event>, offer: string)
    requires Start(offer) in Run(c, events).sent
    ensures Start(offer) in c.sent || OfferGenerated(Ok(offer)) in events
    decreases |events|
  {
    if events != [] {
      var s := Step(c, events[0]);
      StartsCarryGeneratedOffers(s, events[1..], offer);
      if Start(offer) in s.sent && Start(offer) !in c.sent {
        var i :| 0 <= i < |s.sent| && s.sent[i] == Start(offer);
        assert i == |c.sent|;
        assert events[0] == OfferGenerated(Ok(offer));
      }
      if OfferGenerated(Ok(offer)) in events[1..] {
        assert events == [events[0]] + events[1..];
      }
    }
  }

  /** From a fresh client, every `start` sent comes from an `OfferGenerated(Ok(offer))` event. */
  lemma StartsFromOffers(events: seq<Event>, offer: string)
    requires Start(offer) in Run(Initial, events).sent
    ensures OfferGenerated(Ok(offer)) in events
  {
    StartsCarryGeneratedOffers(Initial, events, offer);
  }

  // ---------------------------------------------------------------------------
  // The closure state, updated in place.
  // ---------------------------------------------------------------------------

  class VideoStreamer {
    var webRtcPeer: PeerSlot
    var stopState: StopState
    var offersPending: nat
    var sent: seq<Outgoing>
    var socketOpen: bool
    var created: seq<nat>
    var disposed: seq<nat>
    var thrown: seq<string>

    function State(): Client
      reads this
    {
      Client(webRtcPeer, stopState, offersPending, sent, socketOpen, created, disposed, thrown)
    }

    /** `createVideoStreamer(url)` once the socket is open. */
    constructor ()
      ensures State() == Initial
    {
      webRtcPeer, stopState, offersPending, sent := Unset, NotRequested, 0, [];
      socketOpen, created, disposed, thrown := true, [], [], [];
    }

    method Stop() returns (call: StopCall)
      modifies this
      ensures Stopped(State(), call) == StopStep(old(State()))
    {
      if stopState != NotRequested {
        return Rejected(StopTwice);
      }
      stopState := Pending;
      if webRtcPeer.Active? {
        disposed := disposed + [webRtcPeer.peer.handle];
        webRtcPeer := Cleared;
        sent := sent + [Outgoing.Stop];
      }
      call := Accepted;
    }

    method OnError()
      modifies this
      ensures State() == ErrorStep(old(State()))
    {
      socketOpen := false;
      thrown := thrown + [OnStreamErrorMissing];
    }

    method OnMessage(msg: Incoming)
      modifies this
      ensures State() == ReceiveStep(old(State()), msg)
    {
      match msg
      case StartResponse(answer) =>
        if webRtcPeer.Active? {
          webRtcPeer := Active(webRtcPeer.peer.(answers := webRtcPeer.peer.answers + [answer]));
        } else {
          thrown := thrown + [PeerMissing(webRtcPeer, "processAnswer")];
        }
      case ErrorMessage(_) => OnError();
      case IceCandidate(candidate) =>
        if webRtcPeer.Active? {
          webRtcPeer := Active(webRtcPeer.peer.(remoteCandidates := webRtcPeer.peer.remoteCandidates + [candidate]));
        } else {
          thrown := thrown + [PeerMissing(webRtcPeer, "addIceCandidate")];
        }
      case UploadSuccess(url) =>
        if stopState == Pending {
          stopState := Resolved(url);
        }
        socketOpen := false;
      case Unrecognized(_) => OnError();
    }

    method Handle(e: Event)
      modifies this
      ensures State() == Step(old(State()), e)
    {
      match e
      case StartCalled(handle) =>
        webRtcPeer := Active(WebRtcPeer(handle, [], []));
        offersPending := offersPending + 1;
        created := created + [handle];
      case OfferGenerated(offer) =>
        if offersPending > 0 {
          offersPending := offersPending - 1;
          if offer.Err? {
            OnError();
          } else {
            sent := sent + [Start(offer.value)];
          }
        }
      case LocalCandidate(handle, candidate) =>
        if handle in created && handle !in disposed {
          sent := sent + [OnIceCandidate(candidate)];
        }
      case StopCalled =>
        var _ := Stop();
      case Receive(msg) => OnMessage(msg);
    }
  }
}
