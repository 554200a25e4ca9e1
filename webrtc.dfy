/**
  The browser client's session bookkeeping (`FreeVoiceWebRTC`): the map of
  peer connections, the map of statistics timers, the room and participant
  ids, the local role and the reconnect counter.

  Peer connections, timers, tracks and streams are opaque handles. Whatever
  the negotiation engine or the capture service answers is a parameter
  (success or failure, the description it produced). Whether the signaling
  socket's `readyState` is OPEN is a parameter `ready`. Each awaited handler
  runs as one atomic step. Everything observable (messages sent, warnings and
  errors logged, callbacks fired, timers scheduled) is appended to `trace`.
 */
module WebRtc {
  import opened Protocol
  import opened WebRtcStats
  import opened Config

  const Director: string := "director"
  const Guest: string := "guest"

  type Handle = nat
  type TimerId = nat
  type Track = nat
  type Stream = nat

  datatype SignalingState = Connected | Disconnected | Reconnecting | Failed

  datatype Effect =
    | Sent(msg: Message)                              // signalingSocket.send
    | Warned                                          // Logger.warn
    | LoggedError                                     // Logger.error
    | SignalingStateChanged(state: SignalingState)    // onSignalingStateChange
    | ReconnectScheduled(delay: nat)                  // setTimeout(connectSignaling, delay)
    | PeerConnected(peer: string)                     // onPeerConnected
    | PeerDisconnected(peer: string)                  // onPeerDisconnected
    | RemoteStream(peer: string, stream: Stream)      // onRemoteStream
    | ChatReceived(from: string, text: string)        // onChatMessage
    | RemoteDescriptionSet(pc: Handle, description: string)
    | CandidateAdded(pc: Handle, candidate: string)
    | StatsSample(peer: string, stats: Stats)         // onStats
    | TrackReplaced(pcs: set<Handle>, track: Track)   // sender.replaceTrack on each of pcs

  /** `sendSignaling`: the message goes out only over an existing, open
      socket; otherwise a warning is logged instead. */
  function SendEffect(m: Message, open: bool): (e: Effect)
    ensures e.Sent? <==> open
    ensures e.Sent? ==> e.msg == m
    ensures !e.Sent? ==> e == Warned
  {
    if open then Sent(m) else Warned
  }

  /** The director-initiates rule. */
  predicate ShouldOffer(localRole: string, announced: Option<string>) {
    localRole == Director || announced == Some(Director)
  }

  /** What `handleSignalingMessage` does with a message. */
  datatype Action =
    | Ignore
    | ReportError
    | StartOffer(peer: string)
    | AcceptOffer(peer: string, description: string)
    | AcceptAnswer(peer: string, description: string)
    | AddCandidate(peer: string, candidate: string)
    | DropPeer(peer: string)
    | DeliverChat(peer: string, text: string)

  /** The `switch` on the message type. A forwarded message without `from`
      cannot come from the relay and is ignored. */
  function Dispatch(role: string, m: Message): (a: Action)
    ensures a.StartOffer? <==> m.PeerJoined? && ShouldOffer(role, m.peerRole)
    ensures a.StartOffer? || a.DropPeer? ==> (m.PeerJoined? || m.PeerLeft?) && a.peer == m.peerId
    ensures a.AcceptOffer? || a.AcceptAnswer? || a.AddCandidate? || a.DeliverChat? ==>
      m.Relayed? && m.from == Some(a.peer)
    ensures a.AcceptOffer? <==> m.Relayed? && m.kind == Offer && m.from.Some?
    ensures a.AcceptAnswer? <==> m.Relayed? && m.kind == Answer && m.from.Some?
    ensures a.AddCandidate? <==> m.Relayed? && m.kind == IceCandidate && m.from.Some?
    ensures a.DeliverChat? <==> m.Relayed? && m.kind == Chat && m.from.Some?
    ensures a.DropPeer? <==> m.PeerLeft?
    ensures a.ReportError? <==> m.Error?
  {
    match m
    case PeerJoined(p, r) => if ShouldOffer(role, r) then StartOffer(p) else Ignore
    case Relayed(kind, body, _, _, Some(from)) =>
      (match kind
       case Offer => AcceptOffer(from, body)
       case Answer => AcceptAnswer(from, body)
       case IceCandidate => AddCandidate(from, body)
       case Chat => DeliverChat(from, body))
    case PeerLeft(p) => DropPeer(p)
    case Error(_) => ReportError
    case _ => Ignore
  }

  // -----------------------------------------------------------------------
  // Reconnection

  /** `handleSignalingDisconnect`: below the cap, one more attempt, scheduled
      after `ReconnectDelay` times the new attempt number; at the cap,
      `failed` and nothing scheduled. */
  function DisconnectStep(attempts: nat): (r: (nat, seq<Effect>))
    ensures attempts <= MaxReconnectAttempts ==> r.0 <= MaxReconnectAttempts
    ensures r.0 == if attempts < MaxReconnectAttempts then attempts + 1 else attempts
    ensures Delays(r.1) == if attempts < MaxReconnectAttempts then [ReconnectDelay * (attempts + 1)] else []
    ensures FailedCount(r.1) == if attempts < MaxReconnectAttempts then 0 else 1
    ensures SignalingStateChanged(Reconnecting) in r.1 <==> attempts < MaxReconnectAttempts
  {
    if attempts < MaxReconnectAttempts then
      var effects := [SignalingStateChanged(Reconnecting), ReconnectScheduled(ReconnectDelay * (attempts + 1))];
      assert effects[1..] == [effects[1]] && effects[1..][1..] == [];
      assert Delays(effects[1..]) == [ReconnectDelay * (attempts + 1)] && FailedCount(effects[1..]) == 0;
      (attempts + 1, effects)
    else
      var effects := [LoggedError, SignalingStateChanged(Failed)];
      assert effects[1..] == [effects[1]] && effects[1..][1..] == [];
      (attempts, effects)
  }

  /** The socket's `close` handler: a warning, `disconnected`, then the
      reconnect step. */
  function CloseStep(attempts: nat): (nat, seq<Effect>) {
    var (a, effects) := DisconnectStep(attempts);
    (a, [Warned, SignalingStateChanged(Disconnected)] + effects)
  }

  /** `k` closes in a row, with no successful open in between. */
  function Closes(attempts: nat, k: nat): (nat, seq<Effect>)
    decreases k
  {
    if k == 0 then (attempts, [])
    else
      var (a, effects) := CloseStep(attempts);
      var (b, more) := Closes(a, k - 1);
      (b, effects + more)
  }

  /** The delays of the reconnects scheduled, in order. */
  function Delays(effects: seq<Effect>): seq<nat> {
    if effects == [] then []
    else (if effects[0].ReconnectScheduled? then [effects[0].delay] else []) + Delays(effects[1..])
  }

  /** The number of `failed` notifications. */
  function FailedCount(effects: seq<Effect>): nat {
    if effects == [] then 0
    else (if effects[0] == SignalingStateChanged(Failed) then 1 else 0) + FailedCount(effects[1..])
  }

  function Min(a: nat, b: nat): nat { if a <= b then a else b }

  lemma {:induction false} DelaysConcat(a: seq<Effect>, b: seq<Effect>)
    ensures Delays(a + b) == Delays(a) + Delays(b)
    ensures FailedCount(a + b) == FailedCount(a) + FailedCount(b)
  {
    if a == [] {
      assert a + b == b;
    } else {
      assert (a + b)[1..] == a[1..] + b;
      DelaysConcat(a[1..], b);
    }
  }

  /** One close schedules one reconnect below the cap and reports `failed`
      at it. */
  lemma CloseEffects(attempts: nat)
    ensures var effects := CloseStep(attempts).1;
      && Delays(effects) == (if attempts < MaxReconnectAttempts then [ReconnectDelay * (attempts + 1)] else [])
      && FailedCount(effects) == (if attempts < MaxReconnectAttempts then 0 else 1)
  {
    var effects := CloseStep(attempts).1;
    var rest := effects[2..];
    assert effects == [Warned, SignalingStateChanged(Disconnected)] + rest;
    DelaysConcat([Warned, SignalingStateChanged(Disconnected)], rest);
    assert [Warned, SignalingStateChanged(Disconnected)][1..][1..] == [];
  }

  lemma DelaysShift(attempts: nat, n: nat)
    ensures [ReconnectDelay * (attempts + 1)] + seq(n, i => ReconnectDelay * (attempts + 1 + i + 1))
      == seq(n + 1, i => ReconnectDelay * (attempts + i + 1))
  {
  }

  /** After `k` consecutive closes starting from `attempts` retries, the
      counter stands at `attempts + k` capped at the maximum; the reconnects
      scheduled are exactly one per attempt number above `attempts`, each
      after `ReconnectDelay` times that number (so the delays grow); every
      close beyond the cap reports `failed` and schedules nothing. */
  lemma {:induction false} RepeatedCloses(attempts: nat, k: nat)
    requires attempts <= MaxReconnectAttempts
    ensures var (a, effects) := Closes(attempts, k);
      && a == Min(attempts + k, MaxReconnectAttempts)
      && Delays(effects) == seq(a - attempts, i => ReconnectDelay * (attempts + i + 1))
      && FailedCount(effects) == attempts + k - a
    decreases k
  {
    if k > 0 {
      var (a1, e1) := CloseStep(attempts);
      var (b, more) := Closes(a1, k - 1);
      RepeatedCloses(a1, k - 1);
      DelaysConcat(e1, more);
      CloseEffects(attempts);
      if attempts < MaxReconnectAttempts {
        DelaysShift(attempts, b - a1);
      }
    }
  }

  // -----------------------------------------------------------------------
  // The client object

  /** The values a map holds under those of the keys `ks` it has. */
  function Image<K, V>(m: map<K, V>, ks: set<K>): set<V> {
    set k | k in ks && k in m :: m[k]
  }

  lemma ImageAdd<K, V>(m: map<K, V>, ks: set<K>, k: K)
    ensures Image(m, ks + {k}) == Image(m, ks) + if k in m then {m[k]} else {}
  {
  }

  lemma ImageAll<K, V>(m: map<K, V>)
    ensures Image(m, m.Keys) == m.Values
  {
  }

  datatype ClientState = ClientState(
    peers: map<string, Handle>,
    statsIntervals: map<string, TimerId>,
    roomId: Option<string>,
    streamId: Option<string>,
    role: string,
    reconnectAttempts: nat,
    hasSocket: bool,
    localStream: Option<Stream>,
    screenStream: Option<Stream>,
    nextHandle: Handle,
    nextTimer: TimerId,
    timers: map<TimerId, (string, Handle)>,
    closed: set<Handle>,
    cleared: set<TimerId>,
    trace: seq<Effect>)

  /** `createOffer`: the connection is stored before the engine is asked
      and stays on failure; on success one `offer` goes out. */
  function Offered(s: ClientState, peerId: string, engineOk: bool, offer: string, ready: bool): ClientState {
    s.(peers := s.peers[peerId := s.nextHandle], nextHandle := s.nextHandle + 1,
       trace := s.trace + [if engineOk
                           then SendEffect(Relayed(Offer, offer, Some(peerId), s.roomId, s.streamId), s.hasSocket && ready)
                           else LoggedError])
  }

  /** `handleOffer`: the peer's connection is reused or created; on success
      the remote description is applied and one `answer` goes out. */
  function OfferAnswered(s: ClientState, peerId: string, offer: string, engineOk: bool, answer: string,
                         ready: bool): ClientState {
    var known := peerId in s.peers;
    var pc := if known then s.peers[peerId] else s.nextHandle;
    s.(peers := s.peers[peerId := pc], nextHandle := if known then s.nextHandle else s.nextHandle + 1,
       trace := s.trace + if engineOk
         then [RemoteDescriptionSet(pc, offer),
               SendEffect(Relayed(Answer, answer, Some(peerId), s.roomId, s.streamId), s.hasSocket && ready)]
         else [LoggedError])
  }

  /** `handleAnswer`: nothing at all for an unknown peer. */
  function AnswerApplied(s: ClientState, peerId: string, answer: string, engineOk: bool): ClientState {
    s.(trace := s.trace +
      if peerId !in s.peers then []
      else if engineOk then [RemoteDescriptionSet(s.peers[peerId], answer)]
      else [LoggedError])
  }

  /** `handleIceCandidate`: applied at once, never buffered; nothing at all
      for an unknown peer. */
  function CandidateApplied(s: ClientState, peerId: string, candidate: string, engineOk: bool): ClientState {
    s.(trace := s.trace +
      if peerId !in s.peers then []
      else if engineOk then [CandidateAdded(s.peers[peerId], candidate)]
      else [LoggedError])
  }

  /** `handlePeerLeft`: the peer's connection is closed and its timer
      cleared, it disappears from both maps, and the disconnect callback
      fires once, known peer or not. */
  function PeerDropped(s: ClientState, peerId: string): ClientState {
    s.(peers := s.peers - {peerId},
       statsIntervals := s.statsIntervals - {peerId},
       closed := if peerId in s.peers then s.closed + {s.peers[peerId]} else s.closed,
       cleared := if peerId in s.statsIntervals then s.cleared + {s.statsIntervals[peerId]} else s.cleared,
       trace := s.trace + [PeerDisconnected(peerId)])
  }

  /** `startStatsMonitoring`: for a known peer, a new interval sampling the
      peer's current connection; a timer already running for the peer is
      replaced in the map without being cleared. */
  function Monitored(s: ClientState, peerId: string): ClientState {
    if peerId !in s.peers then s
    else s.(statsIntervals := s.statsIntervals[peerId := s.nextTimer],
            timers := s.timers[s.nextTimer := (peerId, s.peers[peerId])],
            nextTimer := s.nextTimer + 1)
  }

  /** What the handler for action `a` of `handleSignalingMessage` leaves
      (`Dispatch` picks the action). */
  function Perform(s: ClientState, a: Action, ready: bool, engineOk: bool, produced: string): ClientState {
    match a
    case Ignore => s
    case ReportError => s.(trace := s.trace + [LoggedError])
    case StartOffer(p) => Offered(s, p, engineOk, produced, ready)
    case AcceptOffer(p, offer) => OfferAnswered(s, p, offer, engineOk, produced, ready)
    case AcceptAnswer(p, answer) => AnswerApplied(s, p, answer, engineOk)
    case AddCandidate(p, candidate) => CandidateApplied(s, p, candidate, engineOk)
    case DropPeer(p) => PeerDropped(s, p)
    case DeliverChat(p, text) => s.(trace := s.trace + [ChatReceived(p, text)])
  }

  /** `leaveRoom`: `leave` goes out only while in a room; the connections and
      timers of the two maps are closed and cleared; streams, socket and ids
      are dropped. */
  function LeftRoom(s: ClientState, ready: bool): ClientState {
    s.(peers := map[], statsIntervals := map[],
       roomId := None, streamId := None, hasSocket := false,
       localStream := None, screenStream := None,
       closed := s.closed + s.peers.Values,
       cleared := s.cleared + s.statsIntervals.Values,
       trace := s.trace + if s.roomId.Some? && s.roomId.value != ""
         then [SendEffect(Leave(s.roomId, s.streamId), s.hasSocket && ready)] else [])
  }

  /** The messages among `effects`, in order. */
  function SentMessages(effects: seq<Effect>): seq<Message> {
    if effects == [] then []
    else (if effects[0].Sent? then [effects[0].msg] else []) + SentMessages(effects[1..])
  }

  /** No message changes the room, the ids, the role or the reconnect
      counter, and the trace only grows. */
  lemma PerformKeeps(s: ClientState, a: Action, ready: bool, engineOk: bool, produced: string)
    ensures var r := Perform(s, a, ready, engineOk, produced);
      && r.roomId == s.roomId && r.streamId == s.streamId && r.role == s.role
      && r.reconnectAttempts == s.reconnectAttempts
      && |s.trace| <= |r.trace| && r.trace[..|s.trace|] == s.trace
  {
  }

  /** Only two kinds of message make the client send anything: a join it
      must answer with an offer, and an incoming offer. Each then sends one
      message (an `offer` or an `answer` to that peer) when the engine
      succeeds over an open socket, and none otherwise. */
  lemma PerformSends(s: ClientState, a: Action, ready: bool, engineOk: bool, produced: string)
    ensures |s.trace| <= |Perform(s, a, ready, engineOk, produced).trace|
    ensures var r := Perform(s, a, ready, engineOk, produced);
      var sends := engineOk && s.hasSocket && ready;
      SentMessages(r.trace[|s.trace|..]) == match a
        case StartOffer(p) => if sends then [Relayed(Offer, produced, Some(p), s.roomId, s.streamId)] else []
        case AcceptOffer(p, _) => if sends then [Relayed(Answer, produced, Some(p), s.roomId, s.streamId)] else []
        case _ => []
  {
    PerformKeeps(s, a, ready, engineOk, produced);
    var r := Perform(s, a, ready, engineOk, produced);
    match a
    case Ignore =>
      assert r.trace[|s.trace|..] == [];
    case ReportError =>
      AppendedOne(s.trace, LoggedError);
    case StartOffer(p) =>
      AppendedOne(s.trace, if engineOk
        then SendEffect(Relayed(Offer, produced, Some(p), s.roomId, s.streamId), s.hasSocket && ready)
        else LoggedError);
    case AcceptOffer(p, offer) =>
      var pc := if p in s.peers then s.peers[p] else s.nextHandle;
      if engineOk {
        AppendedTwo(s.trace, RemoteDescriptionSet(pc, offer),
          SendEffect(Relayed(Answer, produced, Some(p), s.roomId, s.streamId), s.hasSocket && ready));
      } else {
        AppendedOne(s.trace, LoggedError);
      }
    case AcceptAnswer(p, answer) =>
      if p !in s.peers {
        assert r.trace[|s.trace|..] == [];
      } else {
        AppendedOne(s.trace, if engineOk then RemoteDescriptionSet(s.peers[p], answer) else LoggedError);
      }
    case AddCandidate(p, candidate) =>
      if p !in s.peers {
        assert r.trace[|s.trace|..] == [];
      } else {
        AppendedOne(s.trace, if engineOk then CandidateAdded(s.peers[p], candidate) else LoggedError);
      }
    case DropPeer(p) =>
      AppendedOne(s.trace, PeerDisconnected(p));
    case DeliverChat(p, text) =>
      AppendedOne(s.trace, ChatReceived(p, text));
  }

  lemma AppendedOne(t: seq<Effect>, e: Effect)
    ensures (t + [e])[..|t|] == t && (t + [e])[|t|..] == [e]
    ensures SentMessages([e]) == if e.Sent? then [e.msg] else []
  {
    assert [e][1..] == [];
  }

  lemma AppendedTwo(t: seq<Effect>, e1: Effect, e2: Effect)
    requires !e1.Sent?
    ensures (t + [e1, e2])[..|t|] == t && (t + [e1, e2])[|t|..] == [e1, e2]
    ensures SentMessages([e1, e2]) == if e2.Sent? then [e2.msg] else []
  {
    assert [e1, e2][1..] == [e2];
    AppendedOne(t, e2);
  }

  class FreeVoiceWebRTC {
    var peers: map<string, Handle>
    var statsIntervals: map<string, TimerId>
    var roomId: Option<string>
    var streamId: Option<string>
    var role: string
    var reconnectAttempts: nat
    /** `signalingSocket` is not null. */
    var hasSocket: bool
    var localStream: Option<Stream>
    var screenStream: Option<Stream>
    /** The handle the engine gives the next `RTCPeerConnection`. */
    var nextHandle: Handle
    /** The id `setInterval` returns next (browsers start above 0). */
    var nextTimer: TimerId
    /** Every interval set so far: the peer it reports for and the
        connection it samples. */
    var timers: map<TimerId, (string, Handle)>
    /** Peer connections closed so far. */
    var closed: set<Handle>
    /** Timers cleared so far. */
    var cleared: set<TimerId>
    var trace: seq<Effect>

    function State(): ClientState
      reads this
    {
      ClientState(peers, statsIntervals, roomId, streamId, role, reconnectAttempts, hasSocket,
                  localStream, screenStream, nextHandle, nextTimer, timers, closed, cleared, trace)
    }

    /** Each monitored peer's timer is an interval set for that peer, and
        timer ids are never reused. */
    predicate TimersValid()
      reads this
    {
      && (forall p :: p in statsIntervals ==> statsIntervals[p] in timers && timers[statsIntervals[p]].0 == p)
      && (forall t :: t in timers ==> t < nextTimer)
    }

    /** Monitoring in the map runs only for known peers; the counter never
        passes its cap. */
    predicate Valid()
      reads this
    {
      && statsIntervals.Keys <= peers.Keys
      && reconnectAttempts <= MaxReconnectAttempts
      && TimersValid()
    }

    constructor ()
      ensures Valid()
      ensures State() == ClientState(map[], map[], None, None, Guest, 0, false, None, None, 0, 1, map[], {}, {}, [])
    {
      peers, statsIntervals := map[], map[];
      roomId, streamId, role := None, None, Guest;
      reconnectAttempts, hasSocket := 0, false;
      localStream, screenStream := None, None;
      nextHandle, nextTimer, timers := 0, 1, map[];
      closed, cleared, trace := {}, {}, [];
    }

    /** `initialize`: on capture success keep the stream and take the fresh
        participant id; on failure log and report failure. */
    method Initialize(captured: Option<Stream>, freshId: string) returns (ok: bool)
      requires Valid()
      modifies this
      ensures Valid()
      ensures ok <==> captured.Some?
      ensures ok ==> State() == old(State()).(localStream := captured, streamId := Some(freshId))
      ensures !ok ==> State() == old(State()).(trace := old(trace) + [LoggedError])
    {
      if captured.Some? {
        localStream := captured;
        streamId := Some(freshId);
        ok := true;
      } else {
        trace := trace + [LoggedError];
        ok := false;
      }
    }

    /** `connectSignaling`: a new socket replaces the old one. */
    method ConnectSignaling()
      requires Valid()
      modifies this
      ensures Valid()
      ensures State() == old(State()).(hasSocket := true)
    {
      hasSocket := true;
    }

    /** The socket's `open` handler. */
    method OnOpen()
      requires Valid()
      modifies this
      ensures Valid()
      ensures State() == old(State()).(reconnectAttempts := 0, trace := old(trace) + [SignalingStateChanged(Connected)])
    {
      reconnectAttempts := 0;
      trace := trace + [SignalingStateChanged(Connected)];
    }

    /** The socket's `error` handler: the connect promise is rejected only
        while no reconnect has been attempted. */
    method OnError() returns (rejects: bool)
      requires Valid()
      modifies this
      ensures Valid()
      ensures rejects <==> old(reconnectAttempts) == 0
      ensures State() == old(State()).(trace := old(trace) + [LoggedError])
    {
      trace := trace + [LoggedError];
      rejects := reconnectAttempts == 0;
    }

    method HandleSignalingDisconnect()
      requires Valid()
      modifies this
      ensures Valid()
      ensures var (a, effects) := DisconnectStep(old(reconnectAttempts));
        State() == old(State()).(reconnectAttempts := a, trace := old(trace) + effects)
    {
      if reconnectAttempts < MaxReconnectAttempts {
        reconnectAttempts := reconnectAttempts + 1;
        trace := trace + [SignalingStateChanged(Reconnecting), ReconnectScheduled(ReconnectDelay * reconnectAttempts)];
      } else {
        trace := trace + [LoggedError, SignalingStateChanged(Failed)];
      }
    }

    /** The socket's `close` handler. */
    method OnClose()
      requires Valid()
      modifies this
      ensures Valid()
      ensures var (a, effects) := CloseStep(old(reconnectAttempts));
        State() == old(State()).(reconnectAttempts := a, trace := old(trace) + effects)
    {
      trace := trace + [Warned, SignalingStateChanged(Disconnected)];
      HandleSignalingDisconnect();
    }

    method SendSignaling(m: Message, ready: bool)
      requires Valid()
      modifies this
      ensures Valid()
      ensures State() == old(State()).(trace := old(trace) + [SendEffect(m, old(hasSocket) && ready)])
    {
      if hasSocket && ready {
        trace := trace + [Sent(m)];
      } else {
        trace := trace + [Warned];
      }
    }

    /** `joinRoom`: record the room and the role (`guest` unless a non-empty
        role is given) and send `join`; the message's role is the option
        as given, when given. */
    method JoinRoom(room: string, roleOption: Option<string>, ready: bool)
      requires Valid()
      requires streamId.Some?   // callers initialize first
      modifies this
      ensures Valid()
      ensures var newRole := if roleOption.Some? && roleOption.value != "" then roleOption.value else Guest;
        var sentRole := if roleOption.Some? then roleOption.value else newRole;
        State() == old(State()).(roomId := Some(room), role := newRole,
          trace := old(trace) + [SendEffect(Join(room, old(streamId).value, sentRole), old(hasSocket) && ready)])
    {
      roomId := Some(room);
      role := if roleOption.Some? && roleOption.value != "" then roleOption.value else Guest;
      var messageRole := if roleOption.Some? then roleOption.value else role;
      SendSignaling(Join(room, streamId.value, messageRole), ready);
    }

    /** `createPeerConnection`: a new connection, stored under the peer id
        (replacing, without closing, any previous one). */
    method CreatePeerConnection(peerId: string) returns (pc: Handle)
      requires Valid()
      modifies this
      ensures Valid()
      ensures pc == old(nextHandle)
      ensures State() == old(State()).(peers := old(peers)[peerId := pc], nextHandle := pc + 1)
    {
      pc := nextHandle;
      nextHandle := nextHandle + 1;
      peers := peers[peerId := pc];
    }

    /** `createOffer`: the connection is stored before the engine is asked;
        it stays on failure. On success exactly one `offer` goes out. */
    method CreateOffer(peerId: string, engineOk: bool, offer: string, ready: bool)
      requires Valid()
      modifies this
      ensures Valid()
      ensures State() == Offered(old(State()), peerId, engineOk, offer, ready)
    {
      var pc := CreatePeerConnection(peerId);
      if engineOk {
        SendSignaling(Relayed(Offer, offer, Some(peerId), roomId, streamId), ready);
      } else {
        trace := trace + [LoggedError];
      }
    }

    /** `handleOffer`: reuse the peer's connection or create one; on success
        the remote description is applied and one `answer` goes out. */
    method HandleOffer(peerId: string, offer: string, engineOk: bool, answer: string, ready: bool)
      requires Valid()
      modifies this
      ensures Valid()
      ensures peerId in peers
      ensures peerId in old(peers) ==> peers == old(peers) && nextHandle == old(nextHandle)
      ensures peerId !in old(peers) ==> peers == old(peers)[peerId := old(nextHandle)] && nextHandle == old(nextHandle) + 1
      ensures State() == OfferAnswered(old(State()), peerId, offer, engineOk, answer, ready)
    {
      var pc;
      if peerId in peers {
        pc := peers[peerId];
      } else {
        pc := CreatePeerConnection(peerId);
      }
      if engineOk {
        trace := trace + [RemoteDescriptionSet(pc, offer)];
        SendSignaling(Relayed(Answer, answer, Some(peerId), roomId, streamId), ready);
      } else {
        trace := trace + [LoggedError];
      }
    }

    /** `handleAnswer`: nothing at all for an unknown peer. */
    method HandleAnswer(peerId: string, answer: string, engineOk: bool)
      requires Valid()
      modifies this
      ensures Valid()
      ensures State() == AnswerApplied(old(State()), peerId, answer, engineOk)
    {
      if peerId in peers {
        if engineOk {
          trace := trace + [RemoteDescriptionSet(peers[peerId], answer)];
        } else {
          trace := trace + [LoggedError];
        }
      }
    }

    /** `handleIceCandidate`: applied at once, never buffered; nothing at
        all for an unknown peer. */
    method HandleIceCandidate(peerId: string, candidate: string, engineOk: bool)
      requires Valid()
      modifies this
      ensures Valid()
      ensures State() == CandidateApplied(old(State()), peerId, candidate, engineOk)
    {
      if peerId in peers {
        if engineOk {
          trace := trace + [CandidateAdded(peers[peerId], candidate)];
        } else {
          trace := trace + [LoggedError];
        }
      }
    }

    /** `stopStatsMonitoring`: clears the peer's timer, if it has one. It may
        run just after the peer itself was dropped. */
    method StopStatsMonitoring(peerId: string)
      requires statsIntervals.Keys <= peers.Keys + {peerId}
      requires reconnectAttempts <= MaxReconnectAttempts
      requires TimersValid()
      modifies this
      ensures Valid()
      ensures State() == old(State()).(
        statsIntervals := old(statsIntervals) - {peerId},
        cleared := if peerId in old(statsIntervals) then old(cleared) + {old(statsIntervals)[peerId]} else old(cleared))
    {
      if peerId in statsIntervals {
        cleared := cleared + {statsIntervals[peerId]};
        statsIntervals := statsIntervals - {peerId};
      }
    }

    /** `startStatsMonitoring`. */
    method StartStatsMonitoring(peerId: string)
      requires Valid()
      modifies this
      ensures Valid()
      ensures State() == Monitored(old(State()), peerId)
    {
      if peerId !in peers {
        return;
      }
      timers := timers[nextTimer := (peerId, peers[peerId])];
      statsIntervals := statsIntervals[peerId := nextTimer];
      nextTimer := nextTimer + 1;
    }

    /** One tick of the interval `timer`: every interval set and not cleared
        keeps firing, including one whose map entry was overwritten.
        `reports` is what the sampled connection's `getStats` resolved to
        (`None`: it failed). */
    method StatsTick(timer: TimerId, reports: Option<seq<Report>>)
      requires Valid()
      modifies this
      ensures Valid()
      ensures State() == old(State()).(trace := old(trace) +
        if timer !in old(timers) || timer in old(cleared) then []
        else if reports.None? then [LoggedError]
        else [StatsSample(old(timers)[timer].0, StatsOf(reports.value))])
    {
      if timer in timers && timer !in cleared {
        if reports.Some? {
          var sample := ParseStats(reports.value);
          trace := trace + [StatsSample(timers[timer].0, sample)];
        } else {
          trace := trace + [LoggedError];
        }
      }
    }

    /** `handlePeerLeft`. */
    method HandlePeerLeft(peerId: string)
      requires Valid()
      modifies this
      ensures Valid()
      ensures peerId !in peers && peerId !in statsIntervals
      ensures State() == PeerDropped(old(State()), peerId)
    {
      if peerId in peers {
        closed := closed + {peers[peerId]};
        peers := peers - {peerId};
      }
      StopStatsMonitoring(peerId);
      trace := trace + [PeerDisconnected(peerId)];
    }

    /** A peer connection's `connectionstatechange`. */
    method OnConnectionStateChange(peerId: string, state: string)
      requires Valid()
      modifies this
      ensures Valid()
      ensures state == "connected" ==>
        State() == Monitored(old(State()).(trace := old(trace) + [PeerConnected(peerId)]), peerId)
      ensures state == "disconnected" || state == "failed" ==> State() == PeerDropped(old(State()), peerId)
      ensures state !in {"connected", "disconnected", "failed"} ==> State() == old(State())
    {
      if state == "connected" {
        trace := trace + [PeerConnected(peerId)];
        StartStatsMonitoring(peerId);
      } else if state == "disconnected" || state == "failed" {
        HandlePeerLeft(peerId);
      }
    }

    /** A peer connection's `icecandidate`: a local candidate is sent to the
        peer; the end-of-candidates event (`None`) sends nothing. */
    method OnLocalCandidate(peerId: string, candidate: Option<string>, ready: bool)
      requires Valid()
      modifies this
      ensures Valid()
      ensures State() == old(State()).(trace := old(trace) +
        if candidate.None? then []
        else [SendEffect(Relayed(IceCandidate, candidate.value, Some(peerId), old(roomId), None), old(hasSocket) && ready)])
    {
      if candidate.Some? {
        SendSignaling(Relayed(IceCandidate, candidate.value, Some(peerId), roomId, None), ready);
      }
    }

    /** A peer connection's `track`. */
    method OnTrack(peerId: string, stream: Stream)
      requires Valid()
      modifies this
      ensures Valid()
      ensures State() == old(State()).(trace := old(trace) + [RemoteStream(peerId, stream)])
    {
      trace := trace + [RemoteStream(peerId, stream)];
    }

    /** `sendChat`. */
    method SendChat(text: string, ready: bool)
      requires Valid()
      modifies this
      ensures Valid()
      ensures State() == old(State()).(trace := old(trace) +
        [SendEffect(Relayed(Chat, text, None, old(roomId), old(streamId)), old(hasSocket) && ready)])
    {
      SendSignaling(Relayed(Chat, text, None, roomId, streamId), ready);
    }

    /** `handleSignalingMessage`. `engineOk` and `produced` are the engine's
        answer to whatever the handler awaits: success, and the offer or
        answer description it generated. */
    method HandleSignalingMessage(m: Message, ready: bool, engineOk: bool, produced: string)
      requires Valid()
      modifies this
      ensures Valid()
      ensures State() == Perform(old(State()), Dispatch(old(role), m), ready, engineOk, produced)
    {
      match Dispatch(role, m) {
        case Ignore =>
        case ReportError =>
          trace := trace + [LoggedError];
        case StartOffer(p) =>
          CreateOffer(p, engineOk, produced, ready);
        case AcceptOffer(p, offer) =>
          HandleOffer(p, offer, engineOk, produced, ready);
        case AcceptAnswer(p, answer) =>
          HandleAnswer(p, answer, engineOk);
        case AddCandidate(p, candidate) =>
          HandleIceCandidate(p, candidate, engineOk);
        case DropPeer(p) =>
          HandlePeerLeft(p);
        case DeliverChat(p, text) =>
          trace := trace + [ChatReceived(p, text)];
      }
    }

    /** The `peers.forEach` of the track-replacement code: every connection
        whose first video sender exists (`videoSenders`, as the engine
        reports) gets `track`. Returns those connections. */
    method ReplaceVideoTrack(track: Track, videoSenders: set<Handle>) returns (replaced: set<Handle>)
      ensures replaced == peers.Values * videoSenders
    {
      replaced := {};
      var pending := peers.Keys;
      while pending != {}
        invariant pending <= peers.Keys
        invariant replaced == (set p | p in peers.Keys - pending :: peers[p]) * videoSenders
        decreases pending
      {
        var peerId :| peerId in pending;
        var pc := peers[peerId];
        if pc in videoSenders {
          replaced := replaced + {pc};
        }
        pending := pending - {peerId};
      }
      assert (set p | p in peers.Keys :: peers[p]) == peers.Values;
    }

    /** `startScreenShare`: on capture success keep the screen stream and
        put its video track on every connection's video sender. */
    method StartScreenShare(capture: Option<(Stream, Track)>, videoSenders: set<Handle>) returns (ok: bool)
      requires Valid()
      modifies this
      ensures Valid()
      ensures ok <==> capture.Some?
      ensures !ok ==> State() == old(State()).(trace := old(trace) + [LoggedError])
      ensures ok ==> State() == old(State()).(screenStream := Some(capture.value.0),
        trace := old(trace) + [TrackReplaced(old(peers).Values * videoSenders, capture.value.1)])
    {
      if capture.None? {
        trace := trace + [LoggedError];
        return false;
      }
      screenStream := Some(capture.value.0);
      var replaced := ReplaceVideoTrack(capture.value.1, videoSenders);
      trace := trace + [TrackReplaced(replaced, capture.value.1)];
      ok := true;
    }

    /** `stopScreenShare`: drop the screen stream and, when the camera
        stream has a video track, put it back on every connection. */
    method StopScreenShare(cameraTrack: Option<Track>, videoSenders: set<Handle>)
      requires Valid()
      modifies this
      ensures Valid()
      ensures old(screenStream).None? ==> State() == old(State())
      ensures old(screenStream).Some? ==> State() == old(State()).(screenStream := None,
        trace := old(trace) + if old(localStream).Some? && cameraTrack.Some?
                              then [TrackReplaced(old(peers).Values * videoSenders, cameraTrack.value)] else [])
    {
      if screenStream.Some? {
        screenStream := None;
        if localStream.Some? && cameraTrack.Some? {
          var replaced := ReplaceVideoTrack(cameraTrack.value, videoSenders);
          trace := trace + [TrackReplaced(replaced, cameraTrack.value)];
        }
      }
    }

    /** `switchCamera`: with a local stream and a newly captured track, put
        the track on every connection. */
    method SwitchCamera(newTrack: Option<Track>, videoSenders: set<Handle>) returns (ok: bool)
      requires Valid()
      modifies this
      ensures Valid()
      ensures ok <==> old(localStream).Some? && newTrack.Some?
      ensures old(localStream).None? ==> State() == old(State())
      ensures old(localStream).Some? && newTrack.None? ==> State() == old(State()).(trace := old(trace) + [LoggedError])
      ensures ok ==> State() == old(State()).(trace := old(trace) + [TrackReplaced(old(peers).Values * videoSenders, newTrack.value)])
    {
      if localStream.None? {
        return false;
      }
      if newTrack.None? {
        trace := trace + [LoggedError];
        return false;
      }
      var replaced := ReplaceVideoTrack(newTrack.value, videoSenders);
      trace := trace + [TrackReplaced(replaced, newTrack.value)];
      ok := true;
    }

    /** The `peers.forEach` of `leaveRoom`: each connection in the map is
        closed and its monitoring stopped, so every timer the interval map
        holds is cleared (replaced connections and overwritten intervals are
        not in the maps and stay as they are). */
    static method CloseAll(peers: map<string, Handle>, intervals: map<string, TimerId>)
      returns (shut: set<Handle>, stopped: set<TimerId>)
      requires intervals.Keys <= peers.Keys
      ensures shut == peers.Values && stopped == intervals.Values
    {
      ghost var done: set<string> := {};
      var pending := peers.Keys;
      var running := intervals;
      shut, stopped := {}, {};
      while pending != {}
        invariant pending !! done && pending + done == peers.Keys
        invariant running == intervals - done
        invariant shut == Image(peers, done)
        invariant stopped == Image(intervals, done)
        decreases pending
      {
        var peerId :| peerId in pending;
        ImageAdd(peers, done, peerId);
        ImageAdd(intervals, done, peerId);
        assert running - {peerId} == intervals - (done + {peerId});
        shut := shut + {peers[peerId]};
        if peerId in running {
          stopped := stopped + {running[peerId]};
          running := running - {peerId};
        }
        pending := pending - {peerId};
        done := done + {peerId};
      }
      ImageAll(peers);
      ImageAll(intervals);
      assert Image(intervals, done) == Image(intervals, intervals.Keys);
    }

    method ClosePeers()
      requires Valid()
      modifies this
      ensures Valid()
      ensures State() == old(State()).(statsIntervals := map[],
        closed := old(closed) + old(peers).Values, cleared := old(cleared) + old(statsIntervals).Values)
    {
      var shut, stopped := CloseAll(peers, statsIntervals);
      closed, cleared, statsIntervals := closed + shut, cleared + stopped, map[];
    }

    /** The first step of `leaveRoom`: `leave` goes out only while in a
        room (a non-empty room id). */
    method NotifyLeave(ready: bool)
      requires Valid()
      modifies this
      ensures Valid()
      ensures State() == old(State()).(trace := old(trace) + if old(roomId).Some? && old(roomId).value != ""
        then [SendEffect(Leave(old(roomId), old(streamId)), old(hasSocket) && ready)] else [])
    {
      if roomId.Some? && roomId.value != "" {
        SendSignaling(Leave(roomId, streamId), ready);
      }
    }

    /** `leaveRoom`. */
    method LeaveRoom(ready: bool)
      requires Valid()
      modifies this
      ensures Valid()
      ensures State() == LeftRoom(old(State()), ready)
    {
      NotifyLeave(ready);
      ClosePeers();
      peers, localStream, screenStream, hasSocket, roomId, streamId := map[], None, None, false, None, None;
    }
  }
}
