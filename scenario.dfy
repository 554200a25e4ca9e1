/**
  The relay and the client together: what a client does with the messages
  the relay actually produces.
 */
module Scenario {
  import opened Protocol
  import opened SignalingServer
  import opened WebRtc

  /** The relay's `peer-joined` never names the newcomer's role. */
  lemma {:induction false} RelayAnnouncesNoRole(s: RelayState, c: ConnId, room: string, sid: string, k: nat)
    requires Inv(s)
    requires k < |JoinStep(s, c, room, sid).sends|
    ensures var m := JoinStep(s, c, room, sid).sends[k].msg;
      m.PeerJoined? ==> m == PeerJoined(sid, None)
  {
    var st := JoinStep(s, c, room, sid);
    if |MembersOf(s, room)| < MaxRoomSize && k > 0 {
      var members := MembersOf(s, room);
      var members' := Admit(members, c);
      assert st.sends[k] == Fanout(members', AllBut(c), PeerJoined(sid, None))[k - 1];
    }
  }

  /** Hence only a director ever starts an offer in answer to a relayed
      join: a client of any other role never does, whoever joined. */
  lemma {:induction false} OnlyDirectorsOfferOnJoin(s: RelayState, c: ConnId, room: string, sid: string,
                                                    k: nat, role: string)
    requires Inv(s)
    requires k < |JoinStep(s, c, room, sid).sends|
    ensures var m := JoinStep(s, c, room, sid).sends[k].msg;
      Dispatch(role, m).StartOffer? <==> role == Director && m.PeerJoined?
    ensures var m := JoinStep(s, c, room, sid).sends[k].msg;
      Dispatch(role, m).StartOffer? ==> Dispatch(role, m).peer == sid
  {
    RelayAnnouncesNoRole(s, c, room, sid, k);
  }

  /** The joiner hears only its acknowledgement (or the refusal): the relay
      never tells a newcomer who is already in the room. */
  lemma {:induction false} NewcomerHearsOnlyAck(s: RelayState, c: ConnId, room: string, sid: string, k: nat)
    requires Inv(s)
    requires k < |JoinStep(s, c, room, sid).sends|
    ensures var send := JoinStep(s, c, room, sid).sends[k];
      send.to == c <==> k == 0
    ensures var send := JoinStep(s, c, room, sid).sends[k];
      send.to == c ==> send.msg.Joined? || send.msg == Error(RoomFull)
  {
    var st := JoinStep(s, c, room, sid);
    if |MembersOf(s, room)| < MaxRoomSize && k > 0 {
      var members := MembersOf(s, room);
      var members' := Admit(members, c);
      assert st.sends[k] == Fanout(members', AllBut(c), PeerJoined(sid, None))[k - 1];
    }
  }

  /** A director joining a room whose members are all of other roles: the
      members hear `peer-joined` without a role and the director hears only
      `joined`, so no recipient of the join's messages starts an offer and
      no connection is ever negotiated. */
  lemma {:induction false} LateDirectorNobodyOffers(s: RelayState, c: ConnId, room: string, sid: string,
                                                    roles: map<ConnId, string>, k: nat)
    requires Inv(s)
    requires c in roles && roles[c] == Director
    requires forall q :: q in roles && q != c ==> roles[q] != Director
    requires k < |JoinStep(s, c, room, sid).sends|
    ensures var send := JoinStep(s, c, room, sid).sends[k];
      send.to in roles ==> !Dispatch(roles[send.to], send.msg).StartOffer?
  {
    NewcomerHearsOnlyAck(s, c, room, sid, k);
    var send := JoinStep(s, c, room, sid).sends[k];
    if send.to in roles {
      OnlyDirectorsOfferOnJoin(s, c, room, sid, k, roles[send.to]);
    }
  }

  // The walk-through of a director P1 (connection 1) and a guest P2
  // (connection 2) in room R1.

  const DirectorAlone: RelayState := RelayState(map["R1" := [1]], map[1 := "R1"], map[1 := "P1"])

  const BothJoined: RelayState :=
    RelayState(map["R1" := [1, 2]], map[1 := "R1", 2 := "R1"], map[1 := "P1", 2 := "P2"])

  /** The director joins an empty R1 and is acknowledged. */
  lemma {:induction false} DirectorJoinsFirst()
    ensures JoinStep(Empty, 1, "R1", "P1") == Step(DirectorAlone, [Send(1, Joined("R1", "P1"))])
    ensures Inv(DirectorAlone)
  {
    JoinPreservesInv(Empty, 1, "R1", "P1");
    assert MembersOf(Empty, "R1") == [];
    assert [] + [1] == [1];
    assert Fanout([1], AllBut(1), PeerJoined("P1", None)) == [];
  }

  /** The guest's join puts it beside the director in R1. */
  lemma {:induction false} GuestJoinState()
    ensures JoinStep(DirectorAlone, 2, "R1", "P2").state == BothJoined
  {
    assert MembersOf(DirectorAlone, "R1") == [1];
    assert Admit([1], 2) == [1, 2];
  }

  /** The guest is acknowledged and announced to the director alone. */
  lemma {:induction false} GuestJoinSends()
    ensures JoinStep(DirectorAlone, 2, "R1", "P2").sends
      == [Send(2, Joined("R1", "P2")), Send(1, PeerJoined("P2", None))]
  {
    assert MembersOf(DirectorAlone, "R1") == [1];
    assert Admit([1], 2) == [1, 2];
    assert Fanout([1, 2], AllBut(2), PeerJoined("P2", None)) == [Send(1, PeerJoined("P2", None))];
  }

  /** The guest joins, is acknowledged and announced to the director, which
      therefore starts an offer to it. */
  lemma {:induction false} GuestJoinsSecond()
    requires Inv(DirectorAlone)
    ensures JoinStep(DirectorAlone, 2, "R1", "P2")
      == Step(BothJoined, [Send(2, Joined("R1", "P2")), Send(1, PeerJoined("P2", None))])
    ensures Inv(BothJoined)
    ensures Dispatch(Director, PeerJoined("P2", None)) == StartOffer("P2")
  {
    var st := JoinStep(DirectorAlone, 2, "R1", "P2");
    JoinPreservesInv(DirectorAlone, 2, "R1", "P2");
    GuestJoinState();
    GuestJoinSends();
    assert st == Step(st.state, st.sends);
  }

  /** The director's offer reaches the guest stamped with the director's id,
      and the guest's answer comes back stamped with the guest's. */
  lemma {:induction false} SessionNegotiates()
    requires Inv(BothJoined)
    ensures ForwardStep(BothJoined, 1, Offer, "o", Some("P2"), Some("R1"), {1, 2}).sends
      == [Send(2, Relayed(Offer, "o", Some("P2"), Some("R1"), Some("P1")))]
    ensures Dispatch(Guest, Relayed(Offer, "o", Some("P2"), Some("R1"), Some("P1"))) == AcceptOffer("P1", "o")
    ensures ForwardStep(BothJoined, 2, Answer, "a", Some("P1"), Some("R1"), {1, 2}).sends
      == [Send(1, Relayed(Answer, "a", Some("P1"), Some("R1"), Some("P2")))]
    ensures Dispatch(Director, Relayed(Answer, "a", Some("P1"), Some("R1"), Some("P2"))) == AcceptAnswer("P2", "a")
  {
    var offer := Relayed(Offer, "o", Some("P2"), Some("R1"), Some("P1"));
    assert Fanout([1, 2], OpenBut(1, {1, 2}), offer) == [Send(2, offer)];
    var answer := Relayed(Answer, "a", Some("P1"), Some("R1"), Some("P2"));
    assert Fanout([1, 2], OpenBut(2, {1, 2}), answer) == [Send(1, answer)];
  }

  /** The guest's socket closes: the director is told, drops the peer, and
      is alone in R1 again. */
  lemma {:induction false} GuestDisconnects()
    requires Inv(BothJoined)
    ensures LeaveStep(BothJoined, 2) == Step(DirectorAlone, [Send(1, PeerLeft("P2"))])
    ensures Dispatch(Director, PeerLeft("P2")) == DropPeer("P2")
  {
    assert Remove([1, 2], 2) == [1];
    assert Fanout([1], Everyone, PeerLeft("P2")) == [Send(1, PeerLeft("P2"))];
    assert map[1 := "R1", 2 := "R1"] - {2} == map[1 := "R1"];
    assert map[1 := "P1", 2 := "P2"] - {2} == map[1 := "P1"];
  }

  /** The director leaves last: nobody is told and R1 is gone. */
  lemma {:induction false} DirectorLeavesLast()
    requires Inv(DirectorAlone)
    ensures LeaveStep(DirectorAlone, 1) == Step(Empty, [])
  {
    assert Remove([1], 1) == [];
    assert Fanout([], Everyone, PeerLeft("P1")) == [];
    assert map["R1" := [1]] - {"R1"} == map[];
    assert map[1 := "R1"] - {1} == map[];
    assert map[1 := "P1"] - {1} == map[];
  }
}
