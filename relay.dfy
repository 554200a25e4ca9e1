/**
  The signaling relay: three in-memory maps (room -> members, connection ->
  room, connection -> participant id) and the `join`, forward and `leave`
  branches of its message switch.

  A room's member `Set` iterates in insertion order, so members are kept as
  a duplicate-free sequence. Every `send` the relay performs is appended to
  an outbox. The state changes are first given as pure step functions over
  `RelayState`; the class `Relay` holds the same maps as fields and its
  methods are proved to perform exactly those steps.
 */
module SignalingServer {
  import opened Protocol

  /** Room capacity. */
  const MaxRoomSize: nat := 50

  datatype Send = Send(to: ConnId, msg: Message)

  /** Which members of a room a broadcast reaches. */
  datatype Audience =
    | AllBut(sender: ConnId)                        // every member except the sender
    | OpenBut(sender: ConnId, open: set<ConnId>)    // ... whose socket is also OPEN
    | Everyone

  predicate Reaches(a: Audience, p: ConnId) {
    match a
    case AllBut(c) => p != c
    case OpenBut(c, open) => p != c && p in open
    case Everyone => true
  }

  predicate NoDup(s: seq<ConnId>) {
    forall i, j :: 0 <= i < j < |s| ==> s[i] != s[j]
  }

  datatype RelayState = RelayState(
    rooms: map<string, seq<ConnId>>,
    peerRooms: map<ConnId, string>,
    peerInfo: map<ConnId, string>)

  const Empty: RelayState := RelayState(map[], map[], map[])

  /** The relay's invariant: rooms are non-empty, within capacity and
      duplicate-free; the two connection maps share their keys; a joined
      connection is a member of the room it is recorded in. */
  predicate Inv(s: RelayState) {
    && (forall r :: r in s.rooms ==> 0 < |s.rooms[r]| <= MaxRoomSize && NoDup(s.rooms[r]))
    && s.peerRooms.Keys == s.peerInfo.Keys
    && (forall c :: c in s.peerRooms ==> s.peerRooms[c] in s.rooms && c in s.rooms[s.peerRooms[c]])
  }

  datatype Step = Step(state: RelayState, sends: seq<Send>)

  /** `m` sent, in member order, to each member that `a` reaches. */
  function Fanout(members: seq<ConnId>, a: Audience, m: Message): (out: seq<Send>)
    ensures |out| <= |members|
    ensures forall k :: 0 <= k < |out| ==> out[k].msg == m && out[k].to in members && Reaches(a, out[k].to)
  {
    if members == [] then []
    else
      var last := members[|members| - 1];
      Fanout(members[..|members| - 1], a, m) + (if Reaches(a, last) then [Send(last, m)] else [])
  }

  /** Number of sends addressed to `q`. */
  function CountTo(out: seq<Send>, q: ConnId): nat {
    if out == [] then 0
    else CountTo(out[..|out| - 1], q) + (if out[|out| - 1].to == q then 1 else 0)
  }

  /** `Set.delete`: drop `c`, keep the order of the others. */
  function Remove(s: seq<ConnId>, c: ConnId): (r: seq<ConnId>)
    ensures forall x :: x in r <==> x in s && x != c
    ensures NoDup(s) ==> NoDup(r)
    ensures NoDup(s) ==> |r| == if c in s then |s| - 1 else |s|
  {
    if s == [] then []
    else
      assert NoDup(s) ==> NoDup(s[1..]) && s[0] !in s[1..] by {
        if NoDup(s) {
          forall i, j | 0 <= i < j < |s| - 1 ensures s[1..][i] != s[1..][j] { assert s[i + 1] != s[j + 1]; }
          forall i | 0 <= i < |s| - 1 ensures s[1..][i] != s[0] { assert s[0] != s[i + 1]; }
        }
      }
      if s[0] == c then Remove(s[1..], c) else [s[0]] + Remove(s[1..], c)
  }

  function MembersOf(s: RelayState, room: string): seq<ConnId> {
    if room in s.rooms then s.rooms[room] else []
  }

  /** `Set.add`: a member already present changes nothing. */
  function Admit(members: seq<ConnId>, c: ConnId): (r: seq<ConnId>)
    ensures c in r && forall x :: x in r <==> x in members || x == c
    ensures |r| == if c in members then |members| else |members| + 1
    ensures NoDup(members) ==> NoDup(r)
  {
    if c in members then members else members + [c]
  }

  /** `join`: rejected with `Room full` when the room already holds
      `MaxRoomSize` members; otherwise the joiner is added (a `Set.add` of a
      present member changes nothing), recorded in both connection maps,
      acknowledged, and announced to every other member. A previous room is
      not left. */
  function JoinStep(s: RelayState, c: ConnId, room: string, sid: string): Step {
    var members := MembersOf(s, room);
    if |members| >= MaxRoomSize then
      Step(s, [Send(c, Error(RoomFull))])
    else
      var members' := Admit(members, c);
      Step(RelayState(s.rooms[room := members'], s.peerRooms[c := room], s.peerInfo[c := sid]),
           [Send(c, Joined(room, sid))] + Fanout(members', AllBut(c), PeerJoined(sid, None)))
  }

  /** `offer` / `answer` / `ice-candidate` / `chat`: when the sender's room
      is known (and, as JavaScript truthiness has it, not the empty string),
      the message with `from` overwritten goes to every other member whose
      socket is open. The `to` field is not consulted. */
  function ForwardStep(s: RelayState, c: ConnId, kind: Kind, body: string, to: Option<string>,
                       room: Option<string>, open: set<ConnId>): Step
    requires Inv(s)
  {
    if c in s.peerRooms && s.peerRooms[c] != "" then
      var stamped := Relayed(kind, body, to, room, Some(s.peerInfo[c]));
      Step(s, Fanout(s.rooms[s.peerRooms[c]], OpenBut(c, open), stamped))
    else
      Step(s, [])
  }

  /** `handleLeave`: remove the connection from its room, tell every
      remaining member, drop the room once empty; the connection's entries in
      both maps are erased in every case. */
  function LeaveStep(s: RelayState, c: ConnId): Step
    requires Inv(s)
  {
    var peerRooms', peerInfo' := s.peerRooms - {c}, s.peerInfo - {c};
    if c in s.peerRooms && s.peerRooms[c] != "" && s.peerRooms[c] in s.rooms then
      var room := s.peerRooms[c];
      var rest := Remove(s.rooms[room], c);
      var rooms' := if |rest| == 0 then s.rooms - {room} else s.rooms[room := rest];
      Step(RelayState(rooms', peerRooms', peerInfo'), Fanout(rest, Everyone, PeerLeft(s.peerInfo[c])))
    else
      Step(RelayState(s.rooms, peerRooms', peerInfo'), [])
  }

  /** What reaches the relay from one connection. */
  datatype Event =
    | Received(conn: ConnId, msg: Message, open: set<ConnId>)
    | Closed(conn: ConnId)

  /** The message switch and the `close` handler. */
  function Receive(s: RelayState, e: Event): Step
    requires Inv(s)
  {
    match e
    case Closed(c) => LeaveStep(s, c)
    case Received(c, m, open) =>
      match m
      case Join(room, sid, _) => JoinStep(s, c, room, sid)
      case Relayed(kind, body, to, room, _) => ForwardStep(s, c, kind, body, to, room, open)
      case Leave(_, _) => LeaveStep(s, c)
      case _ => Step(s, [])
  }

  // ---------------------------------------------------------------------
  // Counting lemmas

  lemma {:induction false} CountConcat(a: seq<Send>, b: seq<Send>, q: ConnId)
    ensures CountTo(a + b, q) == CountTo(a, q) + CountTo(b, q)
  {
    if b != [] {
      assert (a + b)[..|a + b| - 1] == a + b[..|b| - 1];
      assert (a + b)[|a + b| - 1] == b[|b| - 1];
      CountConcat(a, b[..|b| - 1], q);
    } else {
      assert a + b == a;
    }
  }

  /** A fanout over a duplicate-free member list reaches each member the
      audience admits exactly once and nobody else. */
  lemma {:induction false} FanoutCount(members: seq<ConnId>, a: Audience, m: Message, q: ConnId)
    requires NoDup(members)
    ensures CountTo(Fanout(members, a, m), q) == if q in members && Reaches(a, q) then 1 else 0
  {
    if members != [] {
      var init, last := members[..|members| - 1], members[|members| - 1];
      assert NoDup(init);
      assert last !in init by {
        forall i | 0 <= i < |init| ensures init[i] != last { assert members[i] == init[i]; }
      }
      assert members == init + [last];
      FanoutCount(init, a, m, q);
      var tail := if Reaches(a, last) then [Send(last, m)] else [];
      CountConcat(Fanout(init, a, m), tail, q);
      assert CountTo(tail, q) == if Reaches(a, last) && last == q then 1 else 0 by {
        if tail != [] { assert tail[..0] == []; }
      }
    }
  }

  // ---------------------------------------------------------------------
  // join

  lemma {:induction false} JoinPreservesInv(s: RelayState, c: ConnId, room: string, sid: string)
    requires Inv(s)
    ensures Inv(JoinStep(s, c, room, sid).state)
  {
    var members := MembersOf(s, room);
    assert NoDup(members) by { if room !in s.rooms { assert members == []; } }
  }

  /** A join into a full room sends only `Room full` to the joiner and
      changes none of the maps. */
  lemma JoinFullRoom(s: RelayState, c: ConnId, room: string, sid: string)
    requires room in s.rooms && |s.rooms[room]| >= MaxRoomSize
    ensures JoinStep(s, c, room, sid) == Step(s, [Send(c, Error(RoomFull))])
  {
  }

  /** A successful join records the joiner in all three maps, acknowledges it
      with `joined{room, peerId}` first, and sends `peer-joined{peerId}` once
      to every other member and never to the joiner. */
  lemma {:induction false} JoinAnnounces(s: RelayState, c: ConnId, room: string, sid: string, q: ConnId)
    requires Inv(s)
    requires |MembersOf(s, room)| < MaxRoomSize
    ensures var st := JoinStep(s, c, room, sid);
      && room in st.state.rooms && c in st.state.rooms[room]
      && st.state.peerRooms[c] == room && st.state.peerInfo[c] == sid
      && st.sends[0] == Send(c, Joined(room, sid))
      && CountTo(st.sends[1..], q) == (if q in MembersOf(s, room) && q != c then 1 else 0)
      && forall k :: 1 <= k < |st.sends| ==> st.sends[k].msg == PeerJoined(sid, None)
  {
    var members := MembersOf(s, room);
    assert NoDup(members) by { if room !in s.rooms { assert members == []; } }
    var members' := Admit(members, c);
    var st := JoinStep(s, c, room, sid);
    assert st.sends[1..] == Fanout(members', AllBut(c), PeerJoined(sid, None));
    FanoutCount(members', AllBut(c), PeerJoined(sid, None), q);
  }

  /** A join touches only the joined room's entry and the joiner's own
      entries: every other room and every other connection is left as it
      was. */
  lemma JoinTouchesOnlyJoiner(s: RelayState, c: ConnId, room: string, sid: string)
    ensures var t := JoinStep(s, c, room, sid).state;
      && t.rooms - {room} == s.rooms - {room}
      && t.peerRooms - {c} == s.peerRooms - {c}
      && t.peerInfo - {c} == s.peerInfo - {c}
  {
    var t := JoinStep(s, c, room, sid).state;
    if |MembersOf(s, room)| < MaxRoomSize {
      var members' := Admit(MembersOf(s, room), c);
      assert t.rooms == s.rooms[room := members'];
      assert s.rooms[room := members'] - {room} == s.rooms - {room};
      assert s.peerRooms[c := room] - {c} == s.peerRooms - {c};
      assert s.peerInfo[c := sid] - {c} == s.peerInfo - {c};
    }
  }

  // ---------------------------------------------------------------------
  // forward

  /** A forwarded message reaches every other open member of the sender's
      room exactly once, never the sender, always with `from` set to the
      sender's participant id; the maps are unchanged. */
  lemma {:induction false} ForwardDelivers(s: RelayState, c: ConnId, kind: Kind, body: string, to: Option<string>,
                                          room: Option<string>, open: set<ConnId>, q: ConnId)
    requires Inv(s) && c in s.peerRooms && s.peerRooms[c] != ""
    ensures var st := ForwardStep(s, c, kind, body, to, room, open);
      && st.state == s
      && CountTo(st.sends, q) == (if q in s.rooms[s.peerRooms[c]] && q != c && q in open then 1 else 0)
      && forall k :: 0 <= k < |st.sends| ==> st.sends[k].msg == Relayed(kind, body, to, room, Some(s.peerInfo[c]))
  {
    FanoutCount(s.rooms[s.peerRooms[c]], OpenBut(c, open), Relayed(kind, body, to, room, Some(s.peerInfo[c])), q);
  }

  /** A relay-type message from a connection that has not joined, or whose
      recorded room is the falsy `""`, is dropped. */
  lemma ForwardFromUnjoined(s: RelayState, c: ConnId, kind: Kind, body: string, to: Option<string>,
                            room: Option<string>, open: set<ConnId>)
    requires Inv(s) && (c !in s.peerRooms || s.peerRooms[c] == "")
    ensures ForwardStep(s, c, kind, body, to, room, open) == Step(s, [])
  {
  }

  // ---------------------------------------------------------------------
  // leave

  lemma {:induction false} LeavePreservesInv(s: RelayState, c: ConnId)
    requires Inv(s)
    ensures Inv(LeaveStep(s, c).state)
  {
    var t := LeaveStep(s, c).state;
    if c in s.peerRooms && s.peerRooms[c] != "" && s.peerRooms[c] in s.rooms {
      var room := s.peerRooms[c];
      var rest := Remove(s.rooms[room], c);
      forall d | d in t.peerRooms
        ensures t.peerRooms[d] in t.rooms && d in t.rooms[t.peerRooms[d]]
      {
        assert d != c && s.peerRooms[d] == t.peerRooms[d];
        if s.peerRooms[d] == room { assert d in rest; }
      }
    }
  }

  /** `handleLeave` on a joined connection: it leaves its room, each
      remaining member receives `peer-left` exactly once, the leaver none;
      the room is deleted exactly when it became empty; the connection's
      entries are erased. */
  lemma {:induction false} LeaveNotifies(s: RelayState, c: ConnId, q: ConnId)
    requires Inv(s) && c in s.peerRooms && s.peerRooms[c] != ""
    ensures var room := s.peerRooms[c];
      var st := LeaveStep(s, c);
      var rest := Remove(s.rooms[room], c);
      && c !in st.state.peerRooms && c !in st.state.peerInfo
      && (room in st.state.rooms <==> |s.rooms[room]| > 1)
      && (room in st.state.rooms ==> st.state.rooms[room] == rest && c !in rest && |rest| == |s.rooms[room]| - 1)
      && CountTo(st.sends, q) == (if q in s.rooms[room] && q != c then 1 else 0)
      && forall k :: 0 <= k < |st.sends| ==> st.sends[k].msg == PeerLeft(s.peerInfo[c])
  {
    var room := s.peerRooms[c];
    var rest := Remove(s.rooms[room], c);
    FanoutCount(rest, Everyone, PeerLeft(s.peerInfo[c]), q);
  }

  /** A leave touches only the leaver's room and the leaver's own entries:
      every other room and every other connection is left as it was. */
  lemma LeaveTouchesOnlyLeaver(s: RelayState, c: ConnId)
    requires Inv(s)
    ensures var t := LeaveStep(s, c).state;
      && (c in s.peerRooms ==> t.rooms - {s.peerRooms[c]} == s.rooms - {s.peerRooms[c]})
      && (c !in s.peerRooms ==> t.rooms == s.rooms)
      && t.peerRooms == s.peerRooms - {c}
      && t.peerInfo == s.peerInfo - {c}
  {
  }

  /** A second `handleLeave` (the `close` after an explicit `leave`) sends
      nothing and changes nothing. */
  lemma LeaveIdempotent(s: RelayState, c: ConnId)
    requires Inv(s)
    ensures var t := LeaveStep(s, c).state;
      Inv(t) && LeaveStep(t, c) == Step(t, [])
  {
    LeavePreservesInv(s, c);
    var t := LeaveStep(s, c).state;
    assert t.peerRooms - {c} == t.peerRooms && t.peerInfo - {c} == t.peerInfo;
  }

  // ---------------------------------------------------------------------
  // Any sequence of events

  lemma ReceivePreservesInv(s: RelayState, e: Event)
    requires Inv(s)
    ensures Inv(Receive(s, e).state)
  {
    match e
    case Closed(c) => LeavePreservesInv(s, c);
    case Received(c, m, open) =>
      match m {
        case Join(room, sid, _) => JoinPreservesInv(s, c, room, sid);
        case Leave(_, _) => LeavePreservesInv(s, c);
        case _ =>
      }
  }

  /** The state after a run of events, starting from `s`. */
  function Run(s: RelayState, events: seq<Event>): (t: RelayState)
    requires Inv(s)
    ensures Inv(t)
    decreases |events|
  {
    if events == [] then s
    else
      ReceivePreservesInv(s, events[0]);
      Run(Receive(s, events[0]).state, events[1..])
  }

  /** No room ever holds more than `MaxRoomSize` members and no stored room is
      empty, whatever the relay receives, starting from no rooms. */
  lemma RoomsStayBounded(events: seq<Event>, r: string)
    ensures var t := Run(Empty, events);
      r in t.rooms ==> 0 < |t.rooms[r]| <= MaxRoomSize
  {
  }

  // ---------------------------------------------------------------------
  // The relay process

  class Relay {
    var rooms: map<string, seq<ConnId>>
    var peerRooms: map<ConnId, string>
    var peerInfo: map<ConnId, string>
    /** Every `send`, in order. */
    var outbox: seq<Send>

    function State(): RelayState
      reads this
    {
      RelayState(rooms, peerRooms, peerInfo)
    }

    predicate Valid()
      reads this
    {
      Inv(State())
    }

    constructor ()
      ensures Valid() && State() == Empty && outbox == []
    {
      rooms, peerRooms, peerInfo, outbox := map[], map[], map[], [];
    }

    /** A room's `forEach` loop: one `send` per member the audience admits. */
    static method Broadcast(members: seq<ConnId>, a: Audience, m: Message) returns (sent: seq<Send>)
      ensures sent == Fanout(members, a, m)
    {
      sent := [];
      var i := 0;
      while i < |members|
        invariant 0 <= i <= |members|
        invariant sent == Fanout(members[..i], a, m)
      {
        assert members[..i + 1][..i] == members[..i];
        var peer := members[i];
        match a {
          case AllBut(c) =>
            if peer != c { sent := sent + [Send(peer, m)]; }
          case OpenBut(c, open) =>
            if peer != c && peer in open { sent := sent + [Send(peer, m)]; }
          case Everyone =>
            sent := sent + [Send(peer, m)];
        }
        i := i + 1;
      }
      assert members[..i] == members;
    }

    method Join(c: ConnId, room: string, sid: string)
      requires Valid()
      modifies this
      ensures Valid()
      ensures State() == JoinStep(old(State()), c, room, sid).state
      ensures outbox == old(outbox) + JoinStep(old(State()), c, room, sid).sends
    {
      ghost var step := JoinStep(State(), c, room, sid);
      JoinPreservesInv(State(), c, room, sid);
      var members := if room in rooms then rooms[room] else [];
      if |members| >= MaxRoomSize {
        outbox := outbox + [Send(c, Error(RoomFull))];
        return;
      }
      members := Admit(members, c);
      rooms, peerRooms, peerInfo := rooms[room := members], peerRooms[c := room], peerInfo[c := sid];
      assert State() == step.state;
      var sent := Broadcast(members, AllBut(c), PeerJoined(sid, None));
      assert [Send(c, Joined(room, sid))] + sent == step.sends;
      outbox := outbox + ([Send(c, Joined(room, sid))] + sent);
    }

    method Forward(c: ConnId, kind: Kind, body: string, to: Option<string>, room: Option<string>, open: set<ConnId>)
      requires Valid()
      modifies this
      ensures Valid()
      ensures State() == old(State())
      ensures outbox == old(outbox) + ForwardStep(old(State()), c, kind, body, to, room, open).sends
    {
      if c in peerRooms && peerRooms[c] != "" {
        var currentRoom := peerRooms[c];
        var roomPeers := rooms[currentRoom];
        var senderInfo := peerInfo[c];
        var sent := Broadcast(roomPeers, OpenBut(c, open), Relayed(kind, body, to, room, Some(senderInfo)));
        outbox := outbox + sent;
      }
    }

    method HandleLeave(c: ConnId)
      requires Valid()
      modifies this
      ensures Valid()
      ensures State() == LeaveStep(old(State()), c).state
      ensures outbox == old(outbox) + LeaveStep(old(State()), c).sends
    {
      ghost var step := LeaveStep(State(), c);
      LeavePreservesInv(State(), c);
      if c in peerRooms && peerRooms[c] != "" {
        var room := peerRooms[c];
        if room in rooms {
          var rest := Remove(rooms[room], c);
          rooms := rooms[room := rest];
          var sent := Broadcast(rest, Everyone, PeerLeft(peerInfo[c]));
          assert sent == step.sends;
          outbox := outbox + sent;
          if |rest| == 0 {
            rooms := rooms - {room};
            assert rooms == step.state.rooms;
          }
        }
      }
      peerRooms := peerRooms - {c};
      peerInfo := peerInfo - {c};
      assert State() == step.state;
    }

    /** The `message` handler. */
    method OnMessage(c: ConnId, m: Message, open: set<ConnId>)
      requires Valid()
      modifies this
      ensures Valid()
      ensures State() == Receive(old(State()), Received(c, m, open)).state
      ensures outbox == old(outbox) + Receive(old(State()), Received(c, m, open)).sends
    {
      match m {
        case Join(room, sid, _) => Join(c, room, sid);
        case Relayed(kind, body, to, room, _) => Forward(c, kind, body, to, room, open);
        case Leave(_, _) => HandleLeave(c);
        case _ =>
      }
    }

    /** The `close` handler. */
    method OnClose(c: ConnId)
      requires Valid()
      modifies this
      ensures Valid()
      ensures State() == Receive(old(State()), Closed(c)).state
      ensures outbox == old(outbox) + Receive(old(State()), Closed(c)).sends
    {
      HandleLeave(c);
    }
  }
}
