# stream-recorder, modelled in Dafny

This project models the recording and video-chat core of the stream-recorder
repository. It has five parts.

- **The recording servers.** `server/app.js` is the current server and
  `server.js` is the older callback-style one. Each WebSocket connection gets a
  session id and an S3 video key. The client then sends `start` (an SDP offer),
  `onIceCandidate` and `stop`. Both servers share three process-wide tables:
  `sessions` (pipeline and WebRTC endpoint), `candidatesQueue` (candidates that
  arrive before the endpoint is registered) and `recorders`.
- **The S3 helpers.** `server/s3.js` and `s3util.js`: the video key layout
  `YYYY-MM-DD/kurento<epoch>-<rando>.<ext>`, the uploaded object's URL and size,
  and the expiry of signed download URLs.
- **The recording client.** `client/lib.js` is a send-only WebRTC peer that
  sends `start`, `onIceCandidate` and `stop`. A stop is resolved by
  `uploadSuccess`.
- **The video-chat client.** `client/videoChat.js` registers, calls or answers,
  relays offers, answers and ICE candidates through the signalling server, and
  queues remote candidates until the connection reaches `stable`.
- **The connection summary.** `client/getDebuggingInfo.js` summarises a WebRTC
  stats report.

The model is built in layers:

- Each operation is a pure step function on a value of the state, such as
  `SessionTables.Registry`, `VideoChat.Chat` or `Streamer.Client`.
- A trace model (`Event`, `Step`, `Run`) strings those steps together.
- Lemmas over traces state what holds across interleavings of messages.
- The objects whose fields the JavaScript updates in place are classes:
  - the tables are `SessionTables.Tables`;
  - the clients are `VideoChat.VideoChatClient` and `Streamer.VideoStreamer`.

  Each method of these classes is proved to move the object exactly as the
  step function says.

The servers' asynchronous media-server calls (Kurento) are not run. Each call's
outcome is a parameter, a datatype listing every way that call can end
(`RecorderServer.MediaOutcome` and `LegacyServer.LegacyMedia`). The same holds
for the file system and S3: `RecordingIo` and `LegacyIo` give each call's
outcome.

Modules: `Wrappers`, `Text` (digits, padding, prefix before a separator), `S3`,
`SessionTables`, `ClientMessages`, `RecorderServer` (server/app.js),
`LegacyServer` (server.js), `Streamer` (client/lib.js), `VideoChat`
(client/videoChat.js) and `DebuggingInfo` (client/getDebuggingInfo.js).

### Behaviour worth knowing before reading the proofs

- **ICE candidate queue.**
  - On both servers, the queue is flushed when `start` has created the
    endpoint, but the session is registered only after the offer is answered.
    Candidates that arrive in between are queued again. No one applies them,
    and `stop` deletes them (`StrandedCandidatesAreDropped`).
  - In the video-chat client the queue is never cleared. It is replayed on
    every transition to `stable` (`EveryStableReplaysQueue`).
- **Second `stop`.**
  - server/app.js answers it with `uploadSuccess` and a null URL.
  - server.js answers nothing.
  - client/lib.js rejects a second `stop()` with "Cannot stop stream twice".
- **Upload size.** The size is `byteLength` when that is non-zero and `length`
  otherwise.
- **Error texts.** A TypeError from reading a property of `undefined` or
  `null` is written as V8 9.3 and later (Node.js 16.9, Chrome 93) word it:
  "Cannot read properties of undefined (reading 'stop')".
- **Repeated calls.** Each `start()` of client/lib.js creates a new peer, and
  each `call()` of client/videoChat.js sends a new `call` message. Neither
  client refuses a second call.

## Model

| member | source | states |
|---|---|---|
| S3.FormatDate | s3util.js:29 | The date part of a key has at least ten characters, all digits or '-', so it holds no '/' |
| S3.CreateS3Key | server/s3.js:57-63 | The key's length is the prefix, the random id, the dot and the extension |
| S3.KeyEndsWithExtension | server/s3.js:62 | Every key ends with '.' followed by the requested file extension |
| S3.DateBeforeFirstSlash | s3util.js:29-33 | The text before the first '/' of a key is exactly the formatted date, so keys group by day |
| S3.DistinctRandomIdsGiveDistinctKeys | s3util.js:31-33 | Two keys made in the same millisecond differ whenever their random ids differ |
| S3.UploadSize | server/s3.js:51 | The reported size is the byte count of a buffer and, for a string, its length in characters (see Left out) |
| S3.ObjectUrl | server/s3.js:46-48 | The URL is https://, the bucket, the dual-stack us-east-1 host, then the key |
| S3.ObjectUrlDeterminesKey | server/s3.js:46-48 | Within one bucket, different keys give different object URLs |
| S3.Upload | server/s3.js:50-54 | The upload result carries the body's size, the object URL of bucket and key, and the signed URL |
| S3.SignedUrlExpiry | server/s3.js:28 | A signed URL never has a zero expiry: a missing or zero `expires` gives 600 seconds, any other value is kept |
| SessionTables.IceCandidateStep | server/app.js:176-188 | A candidate for a registered session goes to that session's endpoint; otherwise it is appended to the session's queue; the sessions and recorders do not change |
| SessionTables.Drain | server/app.js:111-116 | The flush loop applies the whole queue, in order, to the endpoint and leaves the queue empty; other queues and endpoints are untouched |
| SessionTables.FlushStep | server/app.js:106-116 | The first half of `start` stores the recorder and drains the queue into the new endpoint without registering the session |
| SessionTables.RegisterStep | server/app.js:138-141 | The second half of `start` registers the pipeline and endpoint under the id, adds exactly that id, and keeps every other session |
| SessionTables.FindStopTarget | server/app.js:147-149 | `stop` finds nothing iff the id is unregistered, finds no recorder iff the session exists without one, and otherwise finds that session's pipeline and recorder |
| SessionTables.RemoveSession | server/app.js:156-158 | The cleanup removes the id from all three tables and nothing else |
| SessionTables.StopStep | server/app.js:146-168 | `stop` removes the session only when both the session and its recorder exist, and otherwise changes nothing |
| SessionTables.StopTwiceIsNoOp | server/app.js:146-167 | A second `stop` for the same id finds no session and leaves the tables as the first left them |
| SessionTables.ArrivalsBeforeRegistration | server/app.js:182-187 | Candidates for an unregistered id are appended to its queue in arrival order, and none is applied |
| SessionTables.ArrivalsAfterRegistration | server/app.js:179-181 | Candidates for a registered id are applied to its endpoint in arrival order |
| SessionTables.FlushAfterArrivals | server/app.js:109-116 | Candidates queued before `start` reach the new endpoint, in order, at the flush |
| SessionTables.RegistrationAfterWindow | server/app.js:130-141 | Candidates that arrive between flush and registration stay queued after the session registers |
| SessionTables.StartWindow | server/app.js:106-141 | Across a whole `start`, the endpoint receives the old queue, the early candidates and the late ones; the candidates from inside the window remain queued |
| SessionTables.SequentialStartAppliesEveryCandidate | server/app.js:111-116 | With no candidate inside the window, every candidate reaches the endpoint exactly once and in order, and the queue ends empty |
| SessionTables.StrandedCandidatesAreDropped | server/app.js:130-158 | Candidates from inside the window are never applied, and a later `stop` deletes them |
| SessionTables.StopInsideWindowIsLost | server/app.js:130-167 | A `stop` between flush and registration does nothing, and the session is registered afterwards anyway |
| SessionTables.StepKeepsRecorders | server/app.js:109-141 | Every step keeps each registered session paired with a recorder, as long as a registration's recorder is still stored |
| SessionTables.RestartAfterStopLosesRecorder | server/app.js:146-158 | Two `start`s on one connection with a `stop` between the registrations leave a session without a recorder, which every later `stop` fails to remove |
| SessionTables.OtherSessionsUntouched | server/app.js:147-158 | Events for other ids never change a session's table entries or queue |
| SessionTables.Tables.constructor | server/app.js:50-52 | The tables start empty |
| SessionTables.Tables.OnIceCandidate | server/app.js:176-188 | Updates the tables exactly as `IceCandidateStep` |
| SessionTables.Tables.SaveRecorderAndFlush | server/app.js:108-116 | The shift loop leaves the tables exactly as `FlushStep` |
| SessionTables.Tables.Register | server/app.js:138-141 | Updates the tables exactly as `RegisterStep` |
| SessionTables.Tables.LookUpStopTarget | server/app.js:147-149 | Returns `FindStopTarget` of the current tables |
| SessionTables.Tables.Remove | server/app.js:156-158 | Updates the tables exactly as `RemoveSession` |
| SessionTables.Tables.SessionCount | server.js:324 | The count is the number of registered sessions |
| RecorderServer.StackHeader | server/app.js:256 | The first line of the stack is the name and message joined by ": ", or only the non-empty one of the two |
| RecorderServer.Stack | server/app.js:256 | The stack text is that first line followed by the frames, and nothing else |
| RecorderServer.StackStartsWithName | server/app.js:256 | The stack text starts with the error's name, and its first line ends with the message when there is one |
| RecorderServer.ErrorField | server/app.js:249-258 | The error field is "Server Side Error" in production and the stack otherwise |
| RecorderServer.StartTransition | server/app.js:91-144 | `start` answers iff the media server produced an answer, and only then registers the session. A failure before the elements exist changes nothing. Once the elements exist, the recorder is stored and the queue drained. Other sessions are untouched |
| RecorderServer.SaveRecordingAsWritten | server/app.js:161-164 | As written, the file is removed iff reading and unlinking succeed, whatever the upload does. A read error settles the stop with that error, then an unlink error does; otherwise the stop settles with the upload's result |
| RecorderServer.FailedUploadLosesRecording | server/app.js:161-164 | A failed upload still removes the local file, and `stop` fails with the upload's error |
| RecorderServer.SaveRecording | server/app.js:161-164 | The corrected order: the file is removed only after a successful upload, and the result is the upload's result iff every step succeeded |
| RecorderServer.SaveRecordingDiffersOnlyOnFailedUpload | server/app.js:161-164 | When the upload succeeds, the as-written and corrected orders agree |
| RecorderServer.StopTransition | server/app.js:146-168 | An unknown id gives null and no change. A session without a recorder throws and changes nothing. Otherwise the recorder is stopped, the pipeline released and the id removed from all tables, and the file is handled as written: it is removed iff reading and unlinking succeed; a read error, then an unlink error, is the outcome; otherwise the outcome is the upload's URL or the upload's error |
| RecorderServer.FailedUploadStopLosesRecording | server/app.js:146-164 | A `stop` whose upload fails removes the session and the file, and fails with the upload's error |
| RecorderServer.MessageTransition | server/app.js:205-262 | Every message except a candidate gets exactly one reply. `start` leaves the tables as `StartTransition` does and answers with a startResponse carrying the SDP answer iff one exists, otherwise with an error carrying that fault. `stop` leaves the tables as `StopTransition` does and answers with uploadSuccess carrying its result as `videoUrl`, or with an error carrying its fault; on an unknown id that is uploadSuccess(null), and on a session with a recorder uploadSuccess comes iff reading, unlinking and uploading all succeeded. An unknown id gets an error echoing the message, and errors carry "Server Side Error" in production. Other sessions are untouched |
| RecorderServer.RepeatedStopAnsweredWithNull | server/app.js:234-237 | A second `stop` on a connection is answered with uploadSuccess(null) and changes nothing |
| RecorderServer.SessionWithoutRecorderNeverStops | server/app.js:146-149 | `stop` for a session without a recorder is answered with an error and leaves the session registered |
| RecorderServer.Start | server/app.js:91-144 | Updates the tables and returns the answer exactly as `StartTransition` |
| RecorderServer.Stop | server/app.js:146-168 | Updates the tables and returns the outcome exactly as `StopTransition` |
| RecorderServer.OnMessage | server/app.js:205-262 | Updates the tables and returns the reply exactly as `MessageTransition` |
| RecorderServer.OnClose | server/app.js:197-203 | A closed or failed connection stops its session as `StopTransition` does |
| LegacyServer.MediaServerMissing | server.js:47-49 | The error text is the fixed prefix followed by the client error |
| LegacyServer.ErrorReplies | server.js:168-187 | Each later callback error becomes one error reply, in order |
| LegacyServer.StartTransition | server.js:101-195 | The corrected `start`. An empty id gets the guard error. The first reply is a startResponse iff the offer was answered. Failures after the pipeline exists release it and report their own error. Later errors become extra replies. The queue is drained once the elements exist. Other sessions are untouched |
| LegacyServer.StartAsWritten | server.js:101-195 | As written, the first reply is a startResponse iff the offer was answered or the connect failed. A failed connect is answered with one startResponse without an SDP answer, releases the pipeline and registers nothing. Every other outcome is handled as by `StartTransition` |
| LegacyServer.ConnectFailureReportedAsStarted | server.js:136-140 | A failed connect is answered with a startResponse with no SDP answer, and the pipeline is released |
| LegacyServer.MessageOr | server.js:205-233 | An error text is the error's message when it is non-empty and the given fallback otherwise, so it is never empty when the fallback is not |
| LegacyServer.StopReplies | server.js:205-233 | A read error is reported first. A successful upload is reported as uploadSuccess with its URL, and a failed upload only as errors. The last reply is an error iff the upload or the unlink failed: a failed upload ends with its message or "There was an error uploading the video.", and a failed unlink follows uploadSuccess with the same text. A read error carries its message or "There was an error reading the video file." |
| LegacyServer.StopTransition | server.js:197-240 | An unknown id changes nothing and sends nothing. A session without a recorder throws. With no video key the path join throws after the recorder stopped and before any cleanup. Otherwise the pipeline is released, the id removed from all tables, and the replies are `StopReplies` |
| LegacyServer.CloseAsWritten | server.js:269-275 | As written, closing a connection never changes the tables, never releases a pipeline and sends nothing; it throws iff the id is registered |
| LegacyServer.ClosedSessionLeaks | server.js:269-275 | Closing a recording session stops its recorder, throws, and leaves the session registered and counted |
| LegacyServer.Close | server.js:269-275 | Closing with the connection's video key removes the session and releases its pipeline |
| LegacyServer.MessageTransition | server.js:277-313 | An unknown id gets one "Invalid message" error. A candidate only updates the queue or endpoint, and `stop` on an unknown id is silent. `start` always replies, with the state and replies of `StartAsWritten`: its first reply is a startResponse iff the offer was answered or the connect failed, and a failed connect gets only that reply and registers nothing. `stop` gives the state, replies and throw of `StopTransition` with the connection's video key. Only `stop` can throw. Other sessions are untouched |
| LegacyServer.SessionCountTracksRegistrations | server.js:323-325 | The count served by `/sessions` rises by one on an answered `start` for a new id and falls by one on a completed `stop`; candidates do not change it |
| LegacyServer.Start | server.js:101-195 | Updates the tables and returns the replies exactly as `StartAsWritten` |
| LegacyServer.Stop | server.js:197-240 | Updates the tables and returns the outcome exactly as `StopTransition` |
| LegacyServer.OnMessage | server.js:277-313 | Updates the tables and returns the replies exactly as `MessageTransition` |
| LegacyServer.OnClose | server.js:269-275 | Leaves the tables and returns the stopped recorder and the thrown error exactly as `CloseAsWritten` |
| LegacyServer.SessionsEndpoint | server.js:323-325 | Returns the number of registered sessions and changes nothing |
| Streamer.StopStep | client/lib.js:102-117 | `stop()` is rejected iff it was already called, with "Cannot stop stream twice", and a rejected call changes nothing. An accepted call marks the stop pending; only when a peer existed does it dispose and clear that peer and send one `stop` message. Every other field is kept |
| Streamer.ErrorStep | client/lib.js:92-96 | An error closes the socket, and the missing `onStreamError` throws; every other field is kept |
| Streamer.ReceiveStep | client/lib.js:20-42 | uploadSuccess closes the socket and resolves a pending stop with the URL, changing nothing else. A candidate or answer is appended to the existing peer's list, changing nothing else, and without a peer throws. Error and unknown messages take the error path. Receiving never sends |
| Streamer.AtMostOneStopMessage | client/lib.js:102-117 | In every run from a fresh streamer, at most one `stop` message is sent |
| Streamer.ResolvedStopIsFinal | client/lib.js:33-38 | Once a stop has resolved, no later event changes its URL |
| Streamer.Step | client/lib.js:20-117 | Each `start()` installs a fresh peer and waits for one more offer. An offer callback with nothing pending changes nothing; a failed offer takes the error path; a generated offer sends one `start` carrying it. A local candidate is sent while the peer that found it exists and is not disposed, whether or not a later `start()` replaced it. Every event adds at most one message and never removes one |
| Streamer.StepStartsSent | client/lib.js:44-82 | A step adds a `start` message only by using up a pending offer, which only `start()` creates |
| Streamer.RunStartsSent | client/lib.js:44-82 | Over any run, `start` messages sent plus offers pending grow by at most the number of `start()` calls |
| Streamer.AtMostOneStartPerCall | client/lib.js:44-82 | From a fresh streamer, no more `start` messages are sent than `start()` was called |
| Streamer.StartsCarryGeneratedOffers | client/lib.js:69-77 | Every `start` sent in a run was already sent or carries an offer generated in that run |
| Streamer.StartsFromOffers | client/lib.js:69-77 | From a fresh streamer, every `start` sent carries an offer the peer generated |
| Streamer.ReplacedPeerSendsAfterStop | client/lib.js:44-117 | A peer replaced by a second `start()` is never disposed, so its candidate is still sent after `stop` |
| Streamer.StartThenStop | client/lib.js:44-117 | start, offer, stop and uploadSuccess send `start` then `stop`, and resolve the stop with the server's URL |
| Streamer.VideoStreamer.constructor | client/lib.js:5-14 | A new streamer starts with no peer, no stop and an open socket |
| Streamer.VideoStreamer.Stop | client/lib.js:102-117 | Updates the streamer and answers exactly as `StopStep` |
| Streamer.VideoStreamer.OnError | client/lib.js:92-96 | Updates the streamer exactly as `ErrorStep` |
| Streamer.VideoStreamer.OnMessage | client/lib.js:20-42 | Updates the streamer exactly as `ReceiveStep` |
| Streamer.VideoStreamer.Handle | client/lib.js:20-117 | Updates the streamer exactly as one trace `Step` |
| VideoChat.LocalCandidateMessage | client/videoChat.js:72-81 | A local candidate is relayed to the callee iff this side is the caller, and it carries the candidate |
| VideoChat.RemoteCandidateStep | client/videoChat.js:35-44 | A remote candidate is applied when the connection is stable and queued when it is negotiating. With no connection, or a closed one, it raises an unhandled error |
| VideoChat.SignalingStep | client/videoChat.js:87-92 | The connection takes the new state. Reaching `stable` applies the whole queue after what was applied before, and keeps the queue; other states apply nothing. Nothing else in the client changes |
| VideoChat.ReceiveStep | client/videoChat.js:110-150 | `callConnected`, `registerSuccess` and `hangup` set their flags. An offer replaces the connection with a fresh stable callee connection and leaves one more answer to send. An answer with no connection is logged as an error. A candidate goes through `RemoteCandidateStep`, and unknown ids and server errors are logged. Receiving never sends and never undoes registration or call connection |
| VideoChat.Step | client/videoChat.js:110-225 | `onopen` sends `register` once; the streamer is delivered once registered. `call()` exists only on the delivered streamer and there sends `call`; once `callConnected` arrived it creates a caller connection, then sends its offer to the callee. A received offer's answer goes to the caller. A local candidate is relayed, with the flag of the connection whose listener found it, once that connection was created, even after it was replaced. A disconnect after `hangup` closes the connection. Every event adds at most one message and never removes one |
| VideoChat.StepCallsSent | client/videoChat.js:152-225 | Only `call()` sends a `call` message, and each one on the delivered streamer sends exactly one |
| VideoChat.StepKeepsDelivered | client/videoChat.js:221-225 | Once the streamer is delivered, no event takes it back |
| VideoChat.RunCallsSent | client/videoChat.js:152-225 | Over any run, no more `call` messages are sent than `call()` was invoked; from a delivered streamer, exactly as many, a second call included |
| VideoChat.ArrivalsAreQueued | client/videoChat.js:41-42 | Remote candidates arriving during negotiation are queued in arrival order and none is applied |
| VideoChat.QueuedCandidatesAppliedOnStable | client/videoChat.js:87-92 | Candidates queued during negotiation are all applied, in order, when the connection reaches `stable` |
| VideoChat.EveryStableReplaysQueue | client/videoChat.js:180-185 | After n renegotiations the queue has been applied n times over, because it is never cleared |
| VideoChat.OpenedKeepsOrder | client/videoChat.js:221-225 | `onopen` keeps the setup order, and a delivered streamer has `register` before it |
| VideoChat.CallInvokedKeepsOrder | client/videoChat.js:152-225 | `call()` keeps the setup order: it runs only on the delivered streamer, so its `call` message follows `register` and `registerSuccess`, and comes before its later offer |
| VideoChat.CallResumesKeepsOrder | client/videoChat.js:154-156 | A caller connection is created only after `callConnected` |
| VideoChat.OfferReadyKeepsOrder | client/videoChat.js:199-205 | An offer goes to the callee, after a `call` message and after `callConnected` |
| VideoChat.AnswerReadyKeepsOrder | client/videoChat.js:98-107 | An answer goes to the caller and keeps the setup order |
| VideoChat.LocalCandidateKeepsOrder | client/videoChat.js:169-178 | Relaying a local candidate keeps the setup order |
| VideoChat.ReplacedConnectionKeepsItsFlag | client/videoChat.js:57-178 | After a received offer replaces the caller connection, a candidate from the old caller connection still goes to the callee and one from the new connection to the caller |
| VideoChat.StepKeepsSetupOrder | client/videoChat.js:110-225 | Every event keeps the setup order. A `call` follows `register` and `registerSuccess`; offers follow `call` and `callConnected` and go to the callee, answers go to the caller, and the streamer is delivered only after `register` and `registerSuccess` |
| VideoChat.SetupOrderFromStart | client/videoChat.js:152-225 | Every run from a fresh client keeps that setup order: register, registerSuccess, call, callConnected, offer |
| VideoChat.VideoChatClient.constructor | client/videoChat.js:5-29 | A new client has no connection, an empty queue and nothing sent |
| VideoChat.VideoChatClient.OnRemoteIceCandidate | client/videoChat.js:35-44 | Updates the client exactly as `RemoteCandidateStep` |
| VideoChat.VideoChatClient.OnSignalingStateChange | client/videoChat.js:87-92 | The forEach over the queue leaves the client exactly as `SignalingStep` |
| VideoChat.VideoChatClient.OnMessage | client/videoChat.js:110-150 | Updates the client exactly as `ReceiveStep` |
| VideoChat.VideoChatClient.Handle | client/videoChat.js:110-225 | Updates the client exactly as one trace `Step` |
| DebuggingInfo.CandidatePairs | client/getDebuggingInfo.js:7-9 | Only candidate-pair entries are collected, never more than the report holds |
| DebuggingInfo.OutboundBytesAppend | client/getDebuggingInfo.js:6-13 | The byte total of two reports together is the sum of their totals |
| DebuggingInfo.OnlyOutboundCounts | client/getDebuggingInfo.js:10-12 | A report with no outbound-rtp entry has a byte total of zero |
| DebuggingInfo.CandidatePairsMembership | client/getDebuggingInfo.js:7-9 | An entry is collected iff it is in the report and is a candidate pair |
| DebuggingInfo.CandidatePairsAppend | client/getDebuggingInfo.js:6-9 | Collection keeps report order across concatenation |
| DebuggingInfo.BestIndex | client/getDebuggingInfo.js:15-20 | The chosen pair has sent the most bytes, and no later pair ties with it, because ties go to the later pair |
| DebuggingInfo.BestIndexUnique | client/getDebuggingInfo.js:15-20 | Any pair with those two properties is the one chosen |
| DebuggingInfo.Lookup | client/getDebuggingInfo.js:22-23 | A found entry is in the report and has the id; nothing is found iff no entry has the id |
| DebuggingInfo.Destination | client/getDebuggingInfo.js:25-29 | A destination exists iff a remote candidate does, and reads ip:port protocol |
| DebuggingInfo.Summarize | client/getDebuggingInfo.js:1-43 | The summary is empty iff the report has no candidate pair. Otherwise it holds the outbound byte total, the best pair's candidates, the local network type and the destination |
| DebuggingInfo.NoPairsGivesEmpty | client/getDebuggingInfo.js:15-42 | A report without candidate pairs yields `{}` |
| DebuggingInfo.Tally | client/getDebuggingInfo.js:3-13 | The forEach loop computes the outbound byte total and the candidate pairs in report order |
| DebuggingInfo.GetDebuggingInfo | client/getDebuggingInfo.js:1-43 | The exported function returns exactly `Summarize` of the report |

## Findings

| source | as written | input that shows it | evidently intended | confidence | as-written member | corrected member |
|---|---|---|---|---|---|---|
| server.js:136-140 | a failed connect calls back with the outer, null `error` | `connectMediaElements` fails for a session | report `connectError` to the client | not executed | `LegacyServer.StartAsWritten` (shown by `LegacyServer.ConnectFailureReportedAsStarted`) | `LegacyServer.StartTransition` |
| server.js:269-275 | `close` and `error` call `stop(sessionId)` without the video key | the socket of a recording session closes | `stop(sessionId, wsConnection, videoKey)`, so the session is cleaned up | not executed | `LegacyServer.CloseAsWritten` (shown by `LegacyServer.ClosedSessionLeaks`) | `LegacyServer.Close` |
| server/app.js:161-164 | the upload is not awaited before the file is unlinked | the S3 upload fails | unlink only after a successful upload | not executed | `RecorderServer.SaveRecordingAsWritten` (shown by `RecorderServer.FailedUploadLosesRecording` and `RecorderServer.FailedUploadStopLosesRecording`) | `RecorderServer.SaveRecording` |

The handlers (`Start`, `Stop`, `OnMessage`, `OnClose` and the
`MessageTransition` functions) follow the code as written. Each corrected
member states the behaviour the code evidently intends, and its properties
are proved beside it.

Details of each finding:

1. **Connect failure in server.js.** `connectError` is checked, but the callback
   receives the `error` of the enclosing `getKurentoClient` callback, which is
   null there. The dispatcher therefore sends `startResponse` with an undefined
   SDP answer, and the pipeline has already been released.
2. **Close in server.js.** `path.join` throws on the undefined key after the
   recorder has been stopped. The session stays in all three tables, its
   pipeline is never released, and `/sessions` keeps counting it.
3. **Upload order in server/app.js.** The comment at line 163 asks for the file
   to be removed only after a successful upload. A rejected upload still
   leaves the file deleted.

## Left out

- **Kurento and the other external libraries.** Every call into the Kurento
  client, pipelines, endpoints and recorders is an outcome parameter or an
  opaque handle. This covers media-server connections, SDP processing and
  candidate gathering. kurento-utils, `RTCPeerConnection`, `ws`, express,
  JSON, Raven/Sentry, moment, shortid and the AWS SDK are not part of this
  model.
- **Clock, random ids and configuration.** The clock, the random id and the
  configured bucket are parameters of `S3.CreateS3Key` and `S3.ObjectUrl`.
  The `guid` session id is a parameter.
- **Asynchronous timing.** Concurrent callbacks are represented only by the
  orders the event traces allow.
  - In server.js a `start`'s replies are taken in one fixed order: the offer's
    outcome, then the later errors.
  - In server/app.js a `start` runs its two halves back to back in
    `RecorderServer.Start`. Their interleaving with other messages is modelled
    by the `SessionTables` traces.
- **Server-to-client ICE candidates.** The endpoint's `OnIceCandidate` listener
  that sends `iceCandidate` to the client is not modelled (server/app.js:118-127,
  server.js:142-153). It sends messages but changes no table.
- **Sending without a connection.** `sendMessage` throwing for a missing
  connection is left out: every handler is given its own connection.
- **The admin endpoint.** server/app.js's `/admin/api/sessions`, which
  serialises the sessions table as JSON, is not modelled. `/ping` is a constant
  reply and is left out too.
- **`/sessions` in server.js.** It hands a number to express's `res.send`.
  Whether express sends it as a body or as a status code is not part of this
  model. `SessionsEndpoint` returns the count itself.
- **`uploadS3` in s3util.js.** It is not syntactically valid JavaScript (an
  unnamed `600` inside an object literal). server.js's use of it is modelled
  only through the outcome in `LegacyIo`.
- **`getSignedDownloadUrl` type guards.** The runtime guards (`guard(string)`,
  `guard(number)`) are left out. Keys are strings and expiries integers by
  type.
- **Browser and logging effects in the clients.**
  - `window.onbeforeunload`, `ws.onerror` and console logging are left out.
  - In client/videoChat.js the `track` and `iceconnectionstatechange` handlers
    are left out, as are the promises `waitForCall` and `waitForDisconnect`
    resolve.
  - `VideoChat.Chat` records the observable effects instead: messages sent,
    candidates queued or applied, stage flags, logged and unhandled errors.
- **Numbers in the connection summary.** JavaScript number arithmetic on
  `bytesSent` is modelled with unbounded integers, with no floating-point
  rounding. A stats entry missing `bytesSent` (undefined) is not modelled.
  Only a report without candidate pairs takes the `catch` path.
- **Exceptions that escape a handler.** In server.js a throw outside a callback
  can end the process. The model records such a throw in `thrown` and does not
  model the process ending.
- RecorderServer.MessageTransition: the conversion of a candidate by Kurento's
  `getComplexType('IceCandidate')` (server/app.js:177) is not modelled. A
  malformed candidate would throw there and be answered with an error; the
  model takes every candidate as well formed.
- LegacyServer.MessageTransition: the same conversion (server.js:249) is not
  modelled. A malformed candidate would throw out of the message handler; the
  model takes every candidate as well formed.
- S3.CreateS3Key: its own contract states only the key's length. The layout
  facts are stated by `S3.KeyEndsWithExtension`, `S3.DateBeforeFirstSlash` and
  `S3.DistinctRandomIdsGiveDistinctKeys`.
- S3.UploadSize: a string body's `length` is counted in Dafny characters
  (Unicode scalar values), while JavaScript counts UTF-16 code units, so a
  string with characters outside the Basic Multilingual Plane gets a smaller
  size than JavaScript reports. The caller in server/app.js passes a Buffer,
  whose length is its byte count in both.
- S3.FormatDate: the model does not show the date as zero-padded
  `YYYY-MM-DD`. It states only the alphabet and the minimum length, which is
  what the key lemmas need.
