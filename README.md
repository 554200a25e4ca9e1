# FreeVoice session orchestration, modelled in Dafny

FreeVoice lets a few participants hold a peer-to-peer audio/video call. A
small WebSocket relay brokers the call. This project models the part of
FreeVoice that keeps the books:

- **The signaling relay** (`signaling-server.js`). It keeps three maps:
  rooms to members, connections to rooms, and connections to participant
  ids. It handles `join` (capacity 50), forwards `offer`, `answer`,
  `ice-candidate` and `chat` with `from` stamped, and handles
  `leave`/close.
- **The browser client `FreeVoiceWebRTC`** (`webrtc.js`). It covers:
  - the peer-connection map and the statistics timer map;
  - room and participant ids, the local role, and the reconnect counter;
  - message dispatch and the director-initiates rule;
  - the guarded send;
  - the offer/answer/candidate handlers;
  - `parseStats`, track replacement, `getDevices`, and teardown.
- **The helpers** in `config.js`: `generateRoomId`, the `Logger` level
  gate, and `parseURLParameters` with the `parseInt` it applies to
  `bitrate`.
- **`getSignalingServerUrl`** in `env-config.js`.
- **The page controller's bookkeeping** in `app.js`:
  - the `remotePeers` tiles and the participant count;
  - the recorder toggle;
  - `joinRoom`: the blank-room-id guard, then connect, media and `join`
    as a guest;
  - the `MM:SS` recording clock.

  As shipped, `app.js` does not parse: line 33 reads `this.navigate
  Page(page);`. The model follows its functions as written, so it
  describes the page as it would run once that line is mended.

Files:

| file | module | contents |
|---|---|---|
| `protocol.dfy` | `Protocol` | the message datatype both sides share |
| `relay.dfy` | `SignalingServer` | step functions over `RelayState` and their lemmas; class `Relay` |
| `stats.dfy` | `WebRtcStats` | `parseStats` and `getDevices` |
| `config.dfy` | `Config` | constants, `generateRoomId`, `Logger`, `parseInt`, `parseURLParameters` |
| `envconfig.dfy` | `EnvConfig` | `getSignalingServerUrl` |
| `webrtc.dfy` | `WebRtc` | class `FreeVoiceWebRTC` and its pure policies |
| `app.dfy` | `App` | class `FreeVoiceApp`, the join-form guard, the recording clock |
| `scenario.dfy` | `Scenario` | the relay and the client together |

**How the relay is modelled.** The relay's step functions are
`JoinStep`, `ForwardStep`, `LeaveStep`, `Receive` and `Run`.
- Each returns the new maps and the sends it performs.
- A room's member `Set` is a duplicate-free sequence, because a JS `Set`
  iterates in insertion order.
- The class `Relay` holds the same maps as fields, plus an outbox.
- Each of its methods is proved to perform exactly the corresponding
  step.

**How the client is modelled.** The client is the class `FreeVoiceWebRTC`,
as the page wires it: the page sets all six callbacks (app.js:137-164), so
the callbacks the code guards with `if (this.onX)` always fire.
- `State()` is a snapshot of its fields, and each method states its whole
  new state.
- Whatever a foreign call decides is a parameter: the negotiation engine's
  success, the description it generated, a capture's result, and whether
  the socket is OPEN.
- Every observable effect is appended to `trace`: a message sent, a
  warning or error logged, a callback fired, a reconnect scheduled.
- Errors logged by `getDevices`, which has no state, are reported by the
  flag it returns instead.
- `Valid()` is the invariant the methods keep. Every timer in the interval
  map belongs to a known peer and is an interval set for that peer, and
  the reconnect counter never exceeds its cap.
- Every interval ever set is recorded with the peer and the connection it
  samples. It ticks until it is cleared. `startStatsMonitoring` overwrites
  the peer's map entry without clearing the interval already there. That
  interval therefore keeps ticking after `handlePeerLeft` or `leaveRoom`,
  which clear only what the map holds.

**Quirks of the code that the model keeps:**
- `peer-joined` carries no role. The half of the offer rule that tests the
  role announced by the remote peer therefore never fires (`Scenario`).
- Re-joining does not leave the previous room.
- ICE candidates are applied immediately, never buffered.
- There is no per-session state machine.
- A relayed message's `to` is ignored, so every other open member
  receives it.
- The relay never reads the room password a `join` carries, so anyone who
  knows a room id can join it.

## Model

| member | source | states |
|---|---|---|
| SignalingServer.JoinStep | signaling-server.js:29-50 | the `join` branch as a step; characterised by `JoinPreservesInv`, `JoinFullRoom`, `JoinAnnounces` and `JoinTouchesOnlyJoiner` |
| SignalingServer.ForwardStep | signaling-server.js:52-68 | the relay branch as a step; characterised by `ForwardDelivers` and `ForwardFromUnjoined` |
| SignalingServer.LeaveStep | signaling-server.js:79-97 | `handleLeave` as a step; characterised by `LeavePreservesInv`, `LeaveNotifies`, `LeaveTouchesOnlyLeaver` and `LeaveIdempotent` |
| SignalingServer.Receive | signaling-server.js:25-77 | the message switch and the close handler; characterised by `ReceivePreservesInv` and `Run` |
| SignalingServer.Fanout | signaling-server.js:45-49 | every send carries the message and goes to a room member the audience admits; no more sends than members |
| SignalingServer.Admit | signaling-server.js:38 | `Set.add`: the joiner is a member afterwards, nobody else is added, a present member is not duplicated |
| SignalingServer.Remove | signaling-server.js:84 | `Set.delete`: exactly the other members remain, still duplicate-free, one fewer when the connection was a member |
| SignalingServer.FanoutCount | signaling-server.js:62-66 | over a duplicate-free room, each admitted member receives exactly one send and nobody else receives any |
| SignalingServer.JoinPreservesInv | signaling-server.js:31-41 | a join keeps rooms non-empty, within 50 and duplicate-free, and keeps each joined connection inside the room it is recorded in |
| SignalingServer.JoinFullRoom | signaling-server.js:31-36 | a join into a room of 50 or more sends only `Room full` to the joiner and changes no map |
| SignalingServer.JoinAnnounces | signaling-server.js:38-49 | after a successful join, the joiner is a member with `peerRooms`/`peerInfo` set; its first send is `joined{room, peerId}`; each other member gets `peer-joined` exactly once and the joiner never does |
| SignalingServer.JoinTouchesOnlyJoiner | signaling-server.js:31-41 | a join changes only the joined room and the joiner's own entries; every other room and connection is as before |
| SignalingServer.ForwardDelivers | signaling-server.js:56-67 | a forwarded message reaches each other OPEN member of the sender's room exactly once, never the sender, with `from` = the sender's participant id; maps unchanged |
| SignalingServer.ForwardFromUnjoined | signaling-server.js:56-57 | a relay-type message from a connection without a room, or whose recorded room is the falsy `""`, is dropped: no send, no change |
| SignalingServer.LeavePreservesInv | signaling-server.js:79-97 | `handleLeave` keeps the relay invariant |
| SignalingServer.LeaveNotifies | signaling-server.js:79-97 | the leaver leaves its room and both maps; the room keeps exactly its other members; each of them gets `peer-left` exactly once; the room is deleted iff it became empty |
| SignalingServer.LeaveTouchesOnlyLeaver | signaling-server.js:79-97 | a leave changes only the leaver's room and erases the leaver's own entries; every other room and connection is as before |
| SignalingServer.LeaveIdempotent | signaling-server.js:76-97 | a second `handleLeave` (close after an explicit leave) sends nothing and changes nothing |
| SignalingServer.ReceivePreservesInv | signaling-server.js:28-73 | every message and every close keeps the relay invariant |
| SignalingServer.Run | signaling-server.js:22-77 | any run of events from a valid state ends in a valid state |
| SignalingServer.RoomsStayBounded | signaling-server.js:31-39 | from no rooms, whatever arrives, every stored room has between 1 and 50 members |
| SignalingServer.Relay.constructor | signaling-server.js:18-20 | the relay starts with three empty maps and nothing sent |
| SignalingServer.Relay.Broadcast | signaling-server.js:45-49 | the `forEach` send loop produces exactly `Fanout` |
| SignalingServer.Relay.Join | signaling-server.js:29-50 | the `join` branch performs exactly `JoinStep` on the maps and the outbox, keeping the invariant |
| SignalingServer.Relay.Forward | signaling-server.js:52-68 | the relay branch performs exactly `ForwardStep`, maps unchanged |
| SignalingServer.Relay.HandleLeave | signaling-server.js:79-97 | `handleLeave` performs exactly `LeaveStep`, keeping the invariant |
| SignalingServer.Relay.OnMessage | signaling-server.js:25-74 | the message switch performs exactly `Receive` |
| SignalingServer.Relay.OnClose | signaling-server.js:76 | a close performs exactly `Receive` of a close event (`handleLeave`) |
| WebRtcStats.Kbps | webrtc.js:482 | `Math.round(bytes*8/1000)`: the nearest kilobit count, halves rounded up |
| WebRtcStats.LastInboundVideo | webrtc.js:480-487 | the report returned is an inbound video report of the list; none exactly when the list has no such report |
| WebRtcStats.LastSucceededPair | webrtc.js:489-491 | the report returned is a succeeded candidate pair of the list; none exactly when the list has no such pair |
| WebRtcStats.StatsOf | webrtc.js:472-495 | the sample `parseStats` builds; characterised by `ParseStats`, `OnlyRelevantReportsCount`, `NoMatchIsZero` and `SnapshotValues` |
| WebRtcStats.ParseStats | webrtc.js:472-495 | the `forEach` over the reports yields `StatsOf`: video fields from the last inbound video report, latency from the last succeeded pair |
| WebRtcStats.OnlyRelevantReportsCount | webrtc.js:480-492 | reports of any other type or state do not affect the sample |
| WebRtcStats.NoMatchIsZero | webrtc.js:473-478 | with no matching report every field is 0 |
| WebRtcStats.SnapshotValues | webrtc.js:480-494 | one inbound video report and one succeeded pair among others yield exactly their values |
| WebRtcStats.OfKind | webrtc.js:543-545 | `filter` by kind: a device is kept iff it was enumerated and has that kind |
| WebRtcStats.OfKindAppend | webrtc.js:543-545 | `filter` keeps order and multiplicity: filtering a concatenation is the concatenation of the filtered parts |
| WebRtcStats.GetDevices | webrtc.js:539-551 | cameras, microphones and speakers are exactly the enumerated devices of each kind, in enumeration order (`OfKindAppend`); when enumeration fails, three empty lists and an error is logged, and only then |
| WebRtcStats.DeviceListsPartition | webrtc.js:542-546 | the three lists together are no longer than the enumeration |
| Config.AlphabetDistinct | config.js:259 | the room-id alphabet has 32 pairwise different characters |
| Config.AlphabetHasNoLookalikes | config.js:259 | the alphabet contains none of I, O, 0, 1 |
| Config.GenerateRoomId | config.js:258-265 | the id has exactly `length` characters (none when not positive), the i-th being the alphabet's character at the i-th pick; each pick can be read back; no I, O, 0 or 1 |
| Config.GenerateDefaultRoomId | config.js:258-265 | `generateRoomId()` as the page calls it (app.js:255): exactly 8 characters, the i-th from the i-th pick, no I, O, 0 or 1 |
| Config.Emits | config.js:273-294 | whether a Logger call writes; characterised by `GateIsThreshold` and `LevelsNest` |
| Config.GateIsThreshold | config.js:273-294 | a Logger call emits iff the console is on and its severity reaches the configured level |
| Config.LevelsNest | config.js:274-293 | debug ⇒ info ⇒ warn ⇒ error; error emits iff the console is on; debug iff level `debug` and console on |
| Config.Magnitude | config.js:217 | a number is read only when the text after the sign starts with a digit |
| Config.ParseInt | config.js:217 | `parseInt` yields a number only when the text holds a digit |
| Config.ParseUnsigned | config.js:217 | text that starts with a digit is read as its magnitude (NaN when none) |
| Config.ParseNegated | config.js:217 | a leading `-` before such text negates that magnitude |
| Config.DecimalRoundTrip | config.js:217 | `parseInt` of any integer written in decimal (with `-` when negative) gives that integer |
| Config.ApplyQuery | config.js:183-219 | what the guarded assignments make of the parameters; characterised by `ParsedTextFromDefaults`, `ParsedFlagsFromDefaults`, `EmptyQueryKeepsParams` and `ParseIdempotent` |
| Config.ParsedTextFromDefaults | config.js:186-209 | from the defaults, `room`, `push`, `view`, `quality`, `password` and `name` are each set iff their key is present, to the value verbatim |
| Config.ParsedFlagsFromDefaults | config.js:198-218 | from the defaults, `audio`/`video` are set iff present, true iff the value is `1`; `director`/`scene` true iff present; `bitrate` set iff present, to `parseInt` of the value |
| Config.EmptyQueryKeepsParams | config.js:183-219 | an empty query string changes no parameter |
| Config.ParseIdempotent | config.js:183-219 | applying the same query twice equals applying it once |
| Config.FreeVoiceConfig.constructor | config.js:138-161 | `urlParams` starts all null, `director` and `scene` false |
| Config.FreeVoiceConfig.ParseUrlParameters | config.js:183-219 | the guarded assignments leave `urlParams` equal to `ApplyQuery` of the query and the old parameters |
| EnvConfig.GetSignalingServerUrl | env-config.js:7-40 | the address lookup; characterised by `ExplicitUrlWins`, `GitHubPagesBeforeLocalhost`, `LocalHostIsLocal`, `SameHostFollowsPageProtocol`, `AutoDetectedIsWebSocket` and `NoLocationIsLocal` |
| EnvConfig.ExplicitUrlWins | env-config.js:9-16 | a truthy process variable is returned first; otherwise a truthy window variable |
| EnvConfig.GitHubPagesBeforeLocalhost | env-config.js:24-27 | a `.github.io` host gets the public relay whatever its protocol, even when it also names localhost |
| EnvConfig.LocalHostIsLocal | env-config.js:30-32 | otherwise a host containing `localhost` or `127.0.0.1` gets `ws://localhost:8888` |
| EnvConfig.AutoDetectedIsWebSocket | env-config.js:19-39 | without an explicit address the result always starts with `ws://` or `wss://` |
| EnvConfig.SameHostFollowsPageProtocol | env-config.js:20-35 | any other host gets `//host`, over `wss:` iff the page is `https:` |
| EnvConfig.NoLocationIsLocal | env-config.js:39 | no window or no location: `ws://localhost:8888` |
| WebRtc.SendEffect | webrtc.js:422-428 | the message is sent iff a socket exists and is OPEN; otherwise only a warning |
| WebRtc.ShouldOffer | webrtc.js:149-154 | the director-initiates rule; `Dispatch` starts an offer exactly when it holds |
| WebRtc.Dispatch | webrtc.js:141-182 | an offer is started iff `peer-joined` arrives and the local role or the announced role is `director`; each other type maps to its handler, with the sender from `from` |
| WebRtc.DisconnectStep | webrtc.js:103-121 | below the cap the counter grows by exactly one, `reconnecting` is reported and one reconnect is scheduled after 2000 × the new attempt number; at the cap the counter stays, nothing is scheduled, and `failed` is reported once |
| WebRtc.CloseStep | webrtc.js:76-82 | the close handler's step; characterised by `CloseEffects` and `RepeatedCloses` |
| WebRtc.CloseEffects | webrtc.js:76-121 | one close schedules one reconnect after 2000 × the new attempt number below the cap, and reports `failed` at it |
| WebRtc.RepeatedCloses | webrtc.js:103-121 | after k closes the counter is min(attempts + k, 5); the reconnects are scheduled at 2000 × each attempt number, so the delays grow; every close beyond the cap reports `failed` |
| WebRtc.Offered | webrtc.js:240-264 | the state `createOffer` leaves; used as the contract of `CreateOffer` and `HandleSignalingMessage` |
| WebRtc.OfferAnswered | webrtc.js:267-292 | the state `handleOffer` leaves; used as the contract of `HandleOffer` and `HandleSignalingMessage` |
| WebRtc.AnswerApplied | webrtc.js:295-306 | the state `handleAnswer` leaves |
| WebRtc.CandidateApplied | webrtc.js:309-318 | the state `handleIceCandidate` leaves |
| WebRtc.PeerDropped | webrtc.js:321-335 | the state `handlePeerLeft` leaves |
| WebRtc.Monitored | webrtc.js:442-460 | the state `startStatsMonitoring` leaves: a new interval recorded for the peer's current connection, for a known peer only |
| WebRtc.Perform | webrtc.js:141-182 | the state the handler for a dispatched action leaves; characterised by `PerformKeeps` and `PerformSends` |
| WebRtc.PerformKeeps | webrtc.js:141-182 | no signaling message changes the room, the participant id, the role or the reconnect counter, and the trace only grows |
| WebRtc.PerformSends | webrtc.js:141-182 | only a `peer-joined` under the offer rule and an incoming `offer` make the client send: one `offer`, or one `answer`, to that peer, when the engine succeeds over an open socket; an answer, a candidate, `peer-left`, an error or a chat sends nothing |
| WebRtc.LeftRoom | webrtc.js:498-536 | the state `leaveRoom` leaves; used as the contract of `LeaveRoom` in both classes |
| WebRtc.FreeVoiceWebRTC.constructor | webrtc.js:7-24 | empty maps, no ids, role `guest`, counter 0, no socket |
| WebRtc.FreeVoiceWebRTC.Initialize | webrtc.js:27-59 | on capture success the stream and a fresh participant id are kept; on failure an error is logged and nothing else changes |
| WebRtc.FreeVoiceWebRTC.ConnectSignaling | webrtc.js:62-100 | a socket now exists; nothing else changes |
| WebRtc.FreeVoiceWebRTC.OnOpen | webrtc.js:67-74 | an open resets the counter to 0 and reports `connected` |
| WebRtc.FreeVoiceWebRTC.OnError | webrtc.js:84-89 | an error is logged; the connect promise is rejected iff no reconnect has been attempted |
| WebRtc.FreeVoiceWebRTC.HandleSignalingDisconnect | webrtc.js:103-121 | performs `DisconnectStep` on the counter and the trace, keeping the cap |
| WebRtc.FreeVoiceWebRTC.OnClose | webrtc.js:76-82 | a warning, `disconnected`, then the reconnect step |
| WebRtc.FreeVoiceWebRTC.SendSignaling | webrtc.js:422-428 | appends `SendEffect`: the message iff the socket exists and is OPEN |
| WebRtc.FreeVoiceWebRTC.JoinRoom | webrtc.js:124-138 | records the room and the role (`guest` unless a non-empty role is given) and sends `join` with the participant id |
| WebRtc.FreeVoiceWebRTC.CreatePeerConnection | webrtc.js:185-237 | a new handle stored under the peer id, replacing any previous one |
| WebRtc.FreeVoiceWebRTC.CreateOffer | webrtc.js:240-264 | the whole new state is `Offered`: the peer is added before the engine runs and stays on failure; on success exactly one `offer{to: peer, from: streamId}` |
| WebRtc.FreeVoiceWebRTC.HandleOffer | webrtc.js:267-292 | an existing connection is reused, otherwise one is created; on success the remote description is applied and one `answer` goes out |
| WebRtc.FreeVoiceWebRTC.HandleAnswer | webrtc.js:295-306 | an unknown peer changes nothing; a known one gets the description or an error is logged |
| WebRtc.FreeVoiceWebRTC.HandleIceCandidate | webrtc.js:309-318 | an unknown peer changes nothing; a known one gets the candidate at once (no buffering) or an error is logged |
| WebRtc.FreeVoiceWebRTC.StopStatsMonitoring | webrtc.js:463-469 | the peer's timer, if any, is cleared and removed; nothing else changes |
| WebRtc.FreeVoiceWebRTC.StartStatsMonitoring | webrtc.js:442-460 | the whole new state is `Monitored`: a new interval for a known peer, recorded with the connection it samples, overwriting the map entry without clearing the old interval; an unknown peer changes nothing |
| WebRtc.FreeVoiceWebRTC.StatsTick | webrtc.js:446-457 | a tick of any interval set and not cleared, including one whose map entry was overwritten, reports `StatsOf` the reports for the interval's own peer, or logs an error when fetching fails; a cleared interval does nothing |
| WebRtc.FreeVoiceWebRTC.HandlePeerLeft | webrtc.js:321-335 | the whole new state is `PeerDropped`: the peer leaves both maps, its connection is closed and its timer cleared, other entries unchanged; the disconnect callback fires once even for an unknown peer |
| WebRtc.FreeVoiceWebRTC.OnConnectionStateChange | webrtc.js:217-228 | `connected` fires the callback, then leaves the state `Monitored` gives; `disconnected`/`failed` leave exactly the state `PeerDropped` gives; other states change nothing |
| WebRtc.FreeVoiceWebRTC.OnLocalCandidate | webrtc.js:205-214 | each local candidate is sent to the peer; the end-of-candidates event sends nothing |
| WebRtc.FreeVoiceWebRTC.OnTrack | webrtc.js:197-202 | the remote stream callback fires with the peer id |
| WebRtc.FreeVoiceWebRTC.SendChat | webrtc.js:431-439 | one `chat` with the participant id and room goes through the guarded send |
| WebRtc.FreeVoiceWebRTC.HandleSignalingMessage | webrtc.js:141-182 | the whole new state is what the handler that `Dispatch` picks leaves (`Perform`), so `PerformKeeps` and `PerformSends` hold of it |
| WebRtc.FreeVoiceWebRTC.ReplaceVideoTrack | webrtc.js:351-356 | the loop over the peers replaces the track on exactly the connections that have a video sender |
| WebRtc.FreeVoiceWebRTC.StartScreenShare | webrtc.js:338-370 | on capture success the screen stream is kept and its track goes to every connection with a video sender; otherwise an error is logged |
| WebRtc.FreeVoiceWebRTC.StopScreenShare | webrtc.js:373-393 | drops the screen stream and restores the camera track when there is one; nothing without a screen stream |
| WebRtc.FreeVoiceWebRTC.SwitchCamera | webrtc.js:554-593 | succeeds iff there is a local stream and a new track, which then goes to every connection with a video sender |
| WebRtc.FreeVoiceWebRTC.CloseAll | webrtc.js:509-512 | the teardown loop closes exactly the connections in the peer map and clears exactly the timers in the interval map |
| WebRtc.FreeVoiceWebRTC.ClosePeers | webrtc.js:508-512 | the connections in the peer map are closed and the timers in the interval map cleared; the interval map is empty |
| WebRtc.FreeVoiceWebRTC.NotifyLeave | webrtc.js:499-506 | `leave` goes out only when the room id is set and not empty |
| WebRtc.FreeVoiceWebRTC.LeaveRoom | webrtc.js:498-536 | the whole new state is `LeftRoom`: both maps empty, their connections closed and their timers cleared, streams, socket and ids dropped; `leave` sent only when in a room |
| App.FreeVoiceApp.constructor | app.js:7-17 | no tiles, no recorder, a fresh client |
| App.FreeVoiceApp.RemoveRemoteVideo | app.js:363-369 | only the peer's entry is deleted; an absent peer changes nothing |
| App.FreeVoiceApp.AddRemoteVideo | app.js:333-360 | with the grid, exactly one entry for the peer holding the stream, others unchanged; without it nothing changes |
| App.FreeVoiceApp.UpdateParticipantCount | app.js:597-600 | the displayed count is 1 + the number of remote tiles |
| App.FreeVoiceApp.OnRemoteStream | app.js:138-140 | a remote stream gets its tile; the count is not updated |
| App.FreeVoiceApp.OnPeerConnected | app.js:142-145 | the count is refreshed to 1 + the tiles |
| App.FreeVoiceApp.OnPeerDisconnected | app.js:147-151 | the tile goes and the count drops by one for a peer that had one |
| App.FreeVoiceApp.StopRecording | app.js:546-551 | only a recording recorder is stopped |
| App.FreeVoiceApp.StartRecording | app.js:474-543 | a fresh recorder, recording |
| App.FreeVoiceApp.ToggleRecording | app.js:465-471 | starts iff there is no recorder or it is inactive, otherwise stops (a paused one stays paused) |
| App.FreeVoiceApp.LeaveRoom | app.js:554-562 | once confirmed: a running recording is stopped, the client's whole new state is `LeftRoom`, all tiles are removed; unconfirmed, nothing changes |
| App.TrimStart | app.js:281 | drops exactly the leading white space |
| App.TrimEnd | app.js:281 | drops exactly the trailing white space |
| App.Trim | app.js:281 | `trim()`; characterised by `JoinRefusedIffBlank` and `JoinIdIsTrimmed` |
| App.JoinRoomId | app.js:281-290 | the join form's guard; characterised by `JoinRefusedIffBlank` and `JoinIdIsTrimmed`, and by `FreeVoiceApp.JoinRoom`, which leaves the client untouched when it refuses |
| App.JoinRefusedIffBlank | app.js:281-290 | the join is refused iff every typed character is white space |
| App.JoinIdIsTrimmed | app.js:281 | an accepted id is the typed text minus the white space around it, neither starting nor ending with white space |
| App.FreeVoiceApp.JoinRoom | app.js:280-329 | a refused id returns before anything else and the client state is exactly the old one; otherwise the client's whole new state is `GuestJoin` of the trimmed id: connect, then media, then `join` as a guest; it reports joined iff the id is accepted, the socket opened and media was captured, and reports that its `catch` logged the failure iff the id is accepted and either the connect was rejected (an `error` before `open` with no reconnect attempted) or capture failed; an `error` after a reconnect attempt stalls the join with nothing logged; tiles and recorder are untouched |
| App.GuestJoin | app.js:292-315 | the client state after an accepted join, stage by stage; characterised by `GuestJoinOutcome` |
| App.GuestJoinOutcome | app.js:292-315 | the room, guest role and new participant id are recorded and one `join` carrying them is sent exactly when the socket opened, media was captured and the socket is open; otherwise an error is logged, nothing is sent and room, role, ids and streams are kept; peers, timers and closed connections never change |
| App.Pad2 | app.js:539 | `padStart(2, '0')`: at least two digits, exactly two below 100 |
| App.Pad2Value | app.js:539 | the padded text still reads as the number |
| App.FormatElapsed | app.js:534-540 | the `MM:SS` text; characterised by `ClockRoundTrip` |
| App.ClockArithmetic | app.js:536-537 | the seconds field stays below 60 and minutes·60 + seconds is the whole seconds elapsed |
| App.ClockRoundTrip | app.js:534-540 | reading the `MM:SS` text back gives the elapsed time in whole seconds |
| Scenario.RelayAnnouncesNoRole | signaling-server.js:47 | every `peer-joined` the relay sends names the newcomer and no role |
| Scenario.OnlyDirectorsOfferOnJoin | webrtc.js:149-154 | a client starts an offer on a relayed join iff it is a director and the message is `peer-joined`, and then for the newcomer |
| Scenario.NewcomerHearsOnlyAck | signaling-server.js:43-49 | the joiner receives only its `joined` (or `Room full`), never the list of members already there |
| Scenario.LateDirectorNobodyOffers | webrtc.js:149-154 | a director joining a room of non-directors makes no client start an offer |
| Scenario.DirectorJoinsFirst | signaling-server.js:29-50 | a director joining an empty room is acknowledged and is alone in it |
| Scenario.GuestJoinState | signaling-server.js:29-50 | after the guest's join both connections are members of R1 with their ids recorded |
| Scenario.GuestJoinSends | signaling-server.js:29-50 | the guest's join sends `joined` to the guest and `peer-joined` to the director only |
| Scenario.GuestJoinsSecond | signaling-server.js:29-50 | the guest is acknowledged and announced to the director, whose client starts an offer to it |
| Scenario.SessionNegotiates | signaling-server.js:52-68 | the offer reaches only the guest, stamped with the director's id, and the answer only the director, each dispatched to the right handler |
| Scenario.GuestDisconnects | signaling-server.js:79-97 | the guest's close tells the director, whose client drops the peer; the director is alone again |
| Scenario.DirectorLeavesLast | signaling-server.js:79-97 | the last member's leave tells nobody and deletes the room |

## Left out

- The WebSocket and HTTP transport, the health page, and JSON encoding.
  Messages are a datatype, connections are numbers, and malformed JSON is
  not modelled.
- The negotiation engine, capture service, `getStats`, `replaceTrack` and
  `enumerateDevices` are foreign calls. Their outcomes are parameters:
  success, the description produced, the stream or track captured, which
  connections have a video sender, and the reports returned.
- A handler that awaits several engine calls is one atomic step with one
  success flag. For example, a `handleOffer` whose `setRemoteDescription`
  succeeds and whose `createAnswer` then fails is not distinguished.
  Interleavings of concurrently awaited handlers are not modelled.
- Timers are recorded delays and timer ids, not time. The `setTimeout`
  reconnect is only recorded as scheduled; the reconnect it performs is a
  later `ConnectSignaling`.
- Info and debug logs are not traced. Warnings and errors the client
  logs are traced whatever the `Logger` gate says; the gate itself is
  modelled separately. Of the page's own logs, only the error of
  `joinRoom`'s `catch` is modelled, as the `reported` result of
  `FreeVoiceApp.JoinRoom`.
- The `join` message also carries the form's `password` and `name`,
  spread in from the options. `Join` has only the room, participant id and
  role, because the relay reads nothing else.
- `Math.random` and `generateStreamId`: random picks and the fresh
  participant id are parameters.
- The round-trip-time float conversion. A report carries its latency
  already in milliseconds.
- Frames per second is a whole number in `Report` and `Stats`. The
  browser reports a double (29.97, say), which `parseStats` passes
  through unchanged; floating point is not modelled.
- `localStorage` (`loadSavedSettings`, `saveSettings`) and the static
  configuration tables, beyond the reconnect delay, the attempt cap, the
  statistics interval and the `urlParams` defaults.
- The DOM, toasts, modals, clipboard, device selects and the canvas
  drawing of the recorder. The recorder is only its state; the download on
  stop is not modelled.
- `toggleVideo`, `toggleAudio` and the app's UI handlers beyond those
  listed, such as creating a room, screen-share buttons and chat display.
- The timestamp `sendChat` attaches and the chat callback receives.
- The local tracks `createPeerConnection` adds to each new connection, and
  the ICE-connection-state debug handler.
- The second `handleLeave` is proved to be a no-op (`LeaveIdempotent`),
  but the socket close that follows the client's own `leaveRoom` (and the
  reconnect it would trigger) is not composed with it.
- WebRtc.Dispatch: a forwarded message without `from` is ignored. The
  code would call its handler with an undefined peer id. The relay always
  stamps `from`, so this cannot arrive from it.
- WebRtc.FreeVoiceWebRTC.JoinRoom: it requires a participant id, so
  `initialize` must have succeeded. The code would send `join` with an
  undefined `streamId`.
- Config.ParseInt: only ASCII white space is skipped, and numbers are
  unbounded integers, not doubles. `URLSearchParams` is a map from each
  key to its first value.
- App.TrimStart: only the ASCII white space, no-break space and byte-order
  mark count as white space, not every Unicode space character.
- Config.FreeVoiceConfig.ParseUrlParameters updates a field copy and
  writes the record back once. The code assigns each property of the
  shared object in place.
- App.FreeVoiceApp.StartRecording: the recording clock itself is
  `FormatElapsed`. The interval that refreshes it is not modelled.
