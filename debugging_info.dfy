/**
 * The connection summary of client/getDebuggingInfo.js: from a WebRTC stats
 * report it adds up the bytes sent by the outbound RTP streams, picks the
 * candidate pair that has carried the most bytes, and describes the remote
 * and local candidates of that pair.
 *
 * A stats report is a map from stat id to stat, iterated in insertion order;
 * here it is the sequence of its entries, and `get` finds an entry by id.
 */
module DebuggingInfo {
  import opened Wrappers
  import opened Text

  /** One entry of the stats report, with the fields the summary reads. */
  datatype Stat = Stat(
    id: string,
    kind: string,                // `type`
    bytesSent: int,
    remoteCandidateId: string,
    localCandidateId: string,
    ip: string,
    port: nat,
    protocol: string,
    networkType: Option<string>)

  type Report = seq<Stat>

  const CandidatePair := "candidate-pair"
  const OutboundRtp := "outbound-rtp"

  /** `videoBytesSent`: the sum of `bytesSent` over the outbound-rtp entries. */
  function OutboundBytes(report: Report): int
    decreases |report|
  {
    if report == [] then 0
    else OutboundBytes(report[..|report| - 1])
         + (if report[|report| - 1].kind == OutboundRtp then report[|report| - 1].bytesSent else 0)
  }

  /** `candidatesPairs`: the candidate-pair entries, in report order. */
  function CandidatePairs(report: Report): (pairs: seq<Stat>)
    ensures |pairs| <= |report|
    ensures forall i :: 0 <= i < |pairs| ==> pairs[i].kind == CandidatePair
    decreases |report|
  {
    if report == [] then []
    else CandidatePairs(report[..|report| - 1])
         + (if report[|report| - 1].kind == CandidatePair then [report[|report| - 1]] else [])
  }

  /** The byte total of a concatenation is the sum of the totals. */
  lemma {:induction false} OutboundBytesAppend(a: Report, b: Report)
    ensures OutboundBytes(a + b) == OutboundBytes(a) + OutboundBytes(b)
    decreases |b|
  {
    if b == [] {
      assert a + b == a;
    } else {
      var b' := b[..|b| - 1];
      assert (a + b)[..|a + b| - 1] == a + b';
      assert (a + b)[|a + b| - 1] == b[|b| - 1];
      OutboundBytesAppend(a, b');
    }
  }

  /** Entries of other kinds add nothing to the byte total. */
  lemma {:induction false} OnlyOutboundCounts(report: Report)
    requires forall i :: 0 <= i < |report| ==> report[i].kind != OutboundRtp
    ensures OutboundBytes(report) == 0
    decreases |report|
  {
    if report != [] {
      OnlyOutboundCounts(report[..|report| - 1]);
    }
  }

  /** Exactly the candidate-pair entries of the report are collected. */
  lemma {:induction false} CandidatePairsMembership(report: Report, s: Stat)
    ensures s in CandidatePairs(report) <==> s in report && s.kind == CandidatePair
    decreases |report|
  {
    if report != [] {
      var front := report[..|report| - 1];
      CandidatePairsMembership(front, s);
      assert report == front + [report[|report| - 1]];
    }
  }

  /** Collecting pairs distributes over concatenation, so report order is kept. */
  lemma {:induction false} CandidatePairsAppend(a: Report, b: Report)
    ensures CandidatePairs(a + b) == CandidatePairs(a) + CandidatePairs(b)
    decreases |b|
  {
    if b == [] {
      assert a + b == a;
    } else {
      var b' := b[..|b| - 1];
      assert (a + b)[..|a + b| - 1] == a + b';
      assert (a + b)[|a + b| - 1] == b[|b| - 1];
      CandidatePairsAppend(a, b');
    }
  }

  /**
   * The index `reduce` settles on over the first `n` pairs: a later pair
   * replaces the one held when it has sent at least as many bytes, so the
   * result carries the most bytes and no later pair ties with it.
   */
  function BestIndex(pairs: seq<Stat>, n: nat): (k: nat)
    requires 1 <= n <= |pairs|
    ensures k < n
    ensures forall i :: 0 <= i < n ==> pairs[i].bytesSent <= pairs[k].bytesSent
    ensures forall i :: k < i < n ==> pairs[i].bytesSent < pairs[k].bytesSent
  {
    if n == 1 then 0
    else
      var k := BestIndex(pairs, n - 1);
      if pairs[n - 1].bytesSent >= pairs[k].bytesSent then n - 1 else k
  }

  /** Any index with the two properties of `BestIndex` is the one `reduce` picks. */
  lemma BestIndexUnique(pairs: seq<Stat>, j: nat)
    requires j < |pairs|
    requires forall i :: 0 <= i < |pairs| ==> pairs[i].bytesSent <= pairs[j].bytesSent
    requires forall i :: j < i < |pairs| ==> pairs[i].bytesSent < pairs[j].bytesSent
    ensures BestIndex(pairs, |pairs|) == j
  {
  }

  /** `video.get(id)`: the entry with that id, if there is one. */
  function Lookup(report: Report, id: string): (s: Option<Stat>)
    ensures s.Some? ==> s.value in report && s.value.id == id
    ensures s.None? <==> forall i :: 0 <= i < |report| ==> report[i].id != id
  {
    if report == [] then None
    else if report[0].id == id then Some(report[0])
    else Lookup(report[1..], id)
  }

  /** `destination`: `${ip}:${port} ${protocol}` of the remote candidate, when there is one. */
  function Destination(remote: Option<Stat>): (d: Option<string>)
    ensures d.Some? <==> remote.Some?
    ensures remote.Some? ==>
      d.value == remote.value.ip + ":" + NatToString(remote.value.port) + " " + remote.value.protocol
  {
    if remote.None? then None
    else Some(remote.value.ip + ":" + NatToString(remote.value.port) + " " + remote.value.protocol)
  }

  /** The returned object: `{}` when anything threw, the summary otherwise. */
  datatype DebugInfo =
    | Empty
    | Info(videoBytesSent: int, remoteCandidate: Option<Stat>, localCandidate: Option<Stat>,
           networkType: Option<string>, destination: Option<string>)

  /**
   * The summary of a report. With no candidate pair the `reduce` without an
   * initial value throws, the error is caught, and `{}` is returned.
   */
  function Summarize(report: Report): (info: DebugInfo)
    ensures info.Empty? <==> CandidatePairs(report) == []
    ensures info.Info? ==>
      var pairs := CandidatePairs(report);
      var pair := pairs[BestIndex(pairs, |pairs|)];
      && info.videoBytesSent == OutboundBytes(report)
      && info.remoteCandidate == Lookup(report, pair.remoteCandidateId)
      && info.localCandidate == Lookup(report, pair.localCandidateId)
      && (info.localCandidate.None? ==> info.networkType.None?)
      && (info.localCandidate.Some? ==> info.networkType == info.localCandidate.value.networkType)
      && info.destination == Destination(info.remoteCandidate)
  {
    var pairs := CandidatePairs(report);
    if pairs == [] then Empty
    else
      var pair := pairs[BestIndex(pairs, |pairs|)];
      var remote := Lookup(report, pair.remoteCandidateId);
      var local := Lookup(report, pair.localCandidateId);
      Info(OutboundBytes(report), remote, local, if local.Some? then local.value.networkType else None,
           Destination(remote))
  }

  /** A report without candidate pairs gives `{}`, whatever else it holds. */
  lemma NoPairsGivesEmpty(report: Report)
    requires forall i :: 0 <= i < |report| ==> report[i].kind != CandidatePair
    ensures Summarize(report) == Empty
  {
    if CandidatePairs(report) != [] {
      var s := CandidatePairs(report)[0];
      CandidatePairsMembership(report, s);
    }
  }

  /** The `forEach` over the report: the byte total and the candidate pairs. */
  method Tally(report: Report) returns (videoBytesSent: int, candidatesPairs: seq<Stat>)
    ensures videoBytesSent == OutboundBytes(report)
    ensures candidatesPairs == CandidatePairs(report)
  {
    videoBytesSent := 0;
    candidatesPairs := [];
    for i := 0 to |report|
      invariant videoBytesSent == OutboundBytes(report[..i])
      invariant candidatesPairs == CandidatePairs(report[..i])
    {
      var s := report[i];
      assert report[..i + 1][..i] == report[..i];
      if s.kind == CandidatePair {
        candidatesPairs := candidatesPairs + [s];
      }
      if s.kind == OutboundRtp {
        videoBytesSent := videoBytesSent + s.bytesSent;
      }
    }
    assert report[..|report|] == report;
  }

  /** The default export of getDebuggingInfo.js. */
  method GetDebuggingInfo(report: Report) returns (info: DebugInfo)
    ensures info == Summarize(report)
  {
    var videoBytesSent, candidatesPairs := Tally(report);
    if |candidatesPairs| == 0 {
      return Empty;
    }
    var best := candidatesPairs[BestIndex(candidatesPairs, |candidatesPairs|)];
    var remote := Lookup(report, best.remoteCandidateId);
    var local := Lookup(report, best.localCandidateId);
    var networkType := if local.Some? then local.value.networkType else None;
    info := Info(videoBytesSent, remote, local, networkType, Destination(remote));
  }
}
