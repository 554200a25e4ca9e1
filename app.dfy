/**
  The page controller's own bookkeeping (`FreeVoiceApp`): which remote
  participants have a video tile, the participant count it displays, the
  recorder's state, the check on the room id typed into the join form, and
  the recording clock.
 */
module App {
  import opened Protocol
  import Config
  import WebRtc

  /** `MediaRecorder.state`. */
  datatype RecorderState = Inactive | Recording | Paused

  class FreeVoiceApp {
    /** The session client the page drives. */
    const webrtc: WebRtc.FreeVoiceWebRTC
    /** `remotePeers`: participant id to the stream shown in its tile. */
    var remotePeers: map<string, WebRtc.Stream>
    /** `recorder`: None until the first recording starts. */
    var recorder: Option<RecorderState>
    /** The participant count last written to the page. */
    var shownCount: nat
    /** How many recordings were started, each with a fresh recorder. */
    var recordings: nat

    constructor ()
      ensures fresh(webrtc) && webrtc.Valid()
      ensures webrtc.peers == map[] && webrtc.roomId == None
      ensures remotePeers == map[] && recorder == None && shownCount == 0 && recordings == 0
    {
      webrtc := new WebRtc.FreeVoiceWebRTC();
      remotePeers, recorder, shownCount, recordings := map[], None, 0, 0;
    }

    /** `removeRemoteVideo`: only `peerId`'s entry goes; an unknown id
        changes nothing. */
    method RemoveRemoteVideo(peerId: string)
      modifies this
      ensures remotePeers == old(remotePeers) - {peerId}
      ensures |remotePeers| == if peerId in old(remotePeers) then |old(remotePeers)| - 1 else |old(remotePeers)|
      ensures recorder == old(recorder) && shownCount == old(shownCount) && recordings == old(recordings)
    {
      if peerId in remotePeers {
        remotePeers := remotePeers - {peerId};
      }
    }

    /** `addRemoteVideo`: with the grid on the page, the participant ends up
        with exactly one tile, showing `stream`; without it nothing
        happens. */
    method AddRemoteVideo(peerId: string, stream: WebRtc.Stream, gridExists: bool)
      modifies this
      ensures gridExists ==> remotePeers == old(remotePeers)[peerId := stream]
      ensures gridExists ==> |remotePeers| == if peerId in old(remotePeers) then |old(remotePeers)| else |old(remotePeers)| + 1
      ensures !gridExists ==> remotePeers == old(remotePeers)
      ensures recorder == old(recorder) && shownCount == old(shownCount) && recordings == old(recordings)
    {
      if !gridExists {
        return;
      }
      RemoveRemoteVideo(peerId);
      remotePeers := remotePeers[peerId := stream];
    }

    /** `updateParticipantCount`: yourself plus every remote tile. */
    method UpdateParticipantCount()
      modifies this
      ensures shownCount == 1 + |remotePeers|
      ensures remotePeers == old(remotePeers) && recorder == old(recorder) && recordings == old(recordings)
    {
      shownCount := 1 + |remotePeers|;
    }

    /** The client's `onRemoteStream` callback: a tile, but the displayed
        count is left as it was. */
    method OnRemoteStream(peerId: string, stream: WebRtc.Stream, gridExists: bool)
      modifies this
      ensures gridExists ==> remotePeers == old(remotePeers)[peerId := stream]
      ensures !gridExists ==> remotePeers == old(remotePeers)
      ensures shownCount == old(shownCount) && recorder == old(recorder) && recordings == old(recordings)
    {
      AddRemoteVideo(peerId, stream, gridExists);
    }

    /** The client's `onPeerConnected` callback. */
    method OnPeerConnected(peerId: string)
      modifies this
      ensures shownCount == 1 + |remotePeers|
      ensures remotePeers == old(remotePeers) && recorder == old(recorder) && recordings == old(recordings)
    {
      UpdateParticipantCount();
    }

    /** The client's `onPeerDisconnected` callback: the tile goes and the
        count drops by one for a participant that had a tile. */
    method OnPeerDisconnected(peerId: string)
      modifies this
      ensures remotePeers == old(remotePeers) - {peerId}
      ensures shownCount == 1 + |remotePeers|
      ensures shownCount == if peerId in old(remotePeers) then |old(remotePeers)| else 1 + |old(remotePeers)|
      ensures recorder == old(recorder) && recordings == old(recordings)
    {
      RemoveRemoteVideo(peerId);
      UpdateParticipantCount();
    }

    /** `stopRecording`: only a recorder that is recording is stopped. */
    method StopRecording()
      modifies this
      ensures old(recorder) == Some(Recording) ==> recorder == Some(Inactive)
      ensures old(recorder) != Some(Recording) ==> recorder == old(recorder)
      ensures remotePeers == old(remotePeers) && shownCount == old(shownCount) && recordings == old(recordings)
    {
      if recorder == Some(Recording) {
        recorder := Some(Inactive);
      }
    }

    /** `startRecording`: a fresh recorder, started. */
    method StartRecording()
      modifies this
      ensures recorder == Some(Recording) && recordings == old(recordings) + 1
      ensures remotePeers == old(remotePeers) && shownCount == old(shownCount)
    {
      recorder := Some(Recording);
      recordings := recordings + 1;
    }

    /** `toggleRecording`: starts when there is no recorder or it is
        inactive, otherwise stops; a paused recorder is left paused. */
    method ToggleRecording()
      modifies this
      ensures old(recorder) in {None, Some(Inactive)} ==> recorder == Some(Recording) && recordings == old(recordings) + 1
      ensures old(recorder) == Some(Recording) ==> recorder == Some(Inactive) && recordings == old(recordings)
      ensures old(recorder) == Some(Paused) ==> recorder == Some(Paused) && recordings == old(recordings)
      ensures remotePeers == old(remotePeers) && shownCount == old(shownCount)
    {
      if recorder.None? || recorder.value == Inactive {
        StartRecording();
      } else {
        StopRecording();
      }
    }

    /** The page's `leaveRoom`: once the user confirms, a running recording
        is stopped, the client leaves the room (`ready`: its socket is
        open), and every remote tile is removed. */
    method LeaveRoom(confirmed: bool, ready: bool)
      requires webrtc.Valid()
      modifies this, webrtc
      ensures webrtc.Valid()
      ensures !confirmed ==> remotePeers == old(remotePeers) && recorder == old(recorder)
      ensures !confirmed ==> webrtc.State() == old(webrtc.State())
      ensures confirmed ==> remotePeers == map[]
      ensures confirmed ==> webrtc.State() == WebRtc.LeftRoom(old(webrtc.State()), ready)
      ensures confirmed && old(recorder) == Some(Recording) ==> recorder == Some(Inactive)
      ensures confirmed && old(recorder) != Some(Recording) ==> recorder == old(recorder)
      ensures shownCount == old(shownCount) && recordings == old(recordings)
    {
      if confirmed {
        if recorder == Some(Recording) {
          StopRecording();
        }
        webrtc.LeaveRoom(ready);
        remotePeers := map[];
      }
    }

    /** The page's `joinRoom`. A blank room id stops it before anything
        else: the client is left exactly as it was. Otherwise the client
        opens its socket; `socketOpened` says whether `open` fired before any
        `error`. An `error` first rejects the connect only while no
        reconnect has been attempted; otherwise the join stalls for good.
        Then media is requested (`captured`, with `freshId` the participant
        id it brings), and only with media does the client join as a guest
        (`ready`: the socket is open when `join` is sent). `reported` says
        whether the join's own `catch` logged the failure (and showed its
        toast): a rejected connect or failed capture, never a stall. */
    method JoinRoom(typed: string, socketOpened: bool, captured: Option<WebRtc.Stream>, freshId: string, ready: bool)
      returns (joined: bool, reported: bool)
      requires webrtc.Valid()
      modifies this, webrtc
      ensures webrtc.Valid()
      ensures joined <==> JoinRoomId(typed).Some? && socketOpened && captured.Some?
      ensures reported <==>
        (JoinRoomId(typed).Some? &&
         ((!socketOpened && old(webrtc.reconnectAttempts) == 0) || (socketOpened && captured.None?)))
      ensures JoinRoomId(typed).None? ==> webrtc.State() == old(webrtc.State())
      ensures JoinRoomId(typed).Some? ==>
        webrtc.State() == GuestJoin(old(webrtc.State()), JoinRoomId(typed).value, socketOpened, captured, freshId, ready)
      ensures remotePeers == old(remotePeers) && recorder == old(recorder)
      ensures shownCount == old(shownCount) && recordings == old(recordings)
    {
      joined, reported := false, false;
      var roomId := JoinRoomId(typed);
      if roomId.None? {
        return;
      }
      webrtc.ConnectSignaling();
      if !socketOpened {
        reported := webrtc.OnError();
        return;
      }
      webrtc.OnOpen();
      var ok := webrtc.Initialize(captured, freshId);
      if !ok {
        reported := true;
        return;
      }
      webrtc.JoinRoom(roomId.value, Some(WebRtc.Guest), ready);
      joined := true;
    }
  }

  // -----------------------------------------------------------------------
  // The room id of the join form

  /** The white space `String.prototype.trim` strips, as far as modelled:
      ASCII white space, the no-break space and the byte order mark. */
  predicate IsWhite(c: char) {
    c in {' ', '\t', '\n', '\r', '\U{0B}', '\U{0C}', '\U{A0}', '\U{FEFF}'}
  }

  function TrimStart(s: string): (r: string)
    ensures |r| <= |s| && r == s[|s| - |r|..]
    ensures r != [] ==> !IsWhite(r[0])
    ensures forall i :: 0 <= i < |s| - |r| ==> IsWhite(s[i])
  {
    if s != [] && IsWhite(s[0]) then TrimStart(s[1..]) else s
  }

  function TrimEnd(s: string): (r: string)
    ensures |r| <= |s| && r == s[..|r|]
    ensures r != [] ==> !IsWhite(r[|r| - 1])
    ensures forall i :: |r| <= i < |s| ==> IsWhite(s[i])
  {
    if s != [] && IsWhite(s[|s| - 1]) then TrimEnd(s[..|s| - 1]) else s
  }

  function Trim(s: string): string {
    TrimEnd(TrimStart(s))
  }

  /** The check at the top of the page's `joinRoom`: the trimmed room id,
      or None (a toast) when it is empty; `FreeVoiceApp.JoinRoom` then
      leaves the client untouched. */
  function JoinRoomId(typed: string): Option<string> {
    var roomId := Trim(typed);
    if roomId == "" then None else Some(roomId)
  }

  /** The join is refused exactly when every typed character is white
      space. */
  lemma {:induction false} JoinRefusedIffBlank(typed: string)
    ensures JoinRoomId(typed).None? <==> forall i :: 0 <= i < |typed| ==> IsWhite(typed[i])
  {
    var t := TrimStart(typed);
    var k := |typed| - |t|;
    if TrimEnd(t) != "" {
      assert typed[k] == t[0];
    }
  }

  /** An accepted id is what was typed minus the white space around it:
      `typed` splits into `lead` white characters, the id, and `trail`
      white characters, and the id neither starts nor ends with white
      space. */
  lemma {:induction false} JoinIdIsTrimmed(typed: string) returns (lead: nat, trail: nat)
    requires JoinRoomId(typed).Some?
    ensures JoinRoomId(typed).value == Trim(typed)
    ensures var id := Trim(typed);
      && lead + |id| + trail == |typed|
      && typed == typed[..lead] + id + typed[lead + |id|..]
      && (forall i :: 0 <= i < lead ==> IsWhite(typed[i]))
      && (forall i :: lead + |id| <= i < |typed| ==> IsWhite(typed[i]))
      && !IsWhite(id[0]) && !IsWhite(id[|id| - 1])
  {
    var t := TrimStart(typed);
    var id := TrimEnd(t);
    lead := |typed| - |t|;
    trail := |t| - |id|;
    TrimmedSlice(typed, t, id, lead);
  }

  lemma TrimmedSlice(typed: string, t: string, id: string, lead: nat)
    requires lead <= |typed| && t == typed[lead..]
    requires |id| <= |t| && id == t[..|id|]
    requires forall j :: |id| <= j < |t| ==> IsWhite(t[j])
    ensures lead + |id| <= |typed|
    ensures typed == typed[..lead] + id + typed[lead + |id|..]
    ensures forall i :: lead + |id| <= i < |typed| ==> IsWhite(typed[i])
  {
    assert id == typed[lead..lead + |id|];
    assert typed == typed[..lead] + typed[lead..lead + |id|] + typed[lead + |id|..];
    forall i | lead + |id| <= i < |typed|
      ensures IsWhite(typed[i])
    {
      assert typed[i] == t[i - lead];
    }
  }

  /** What a join with an accepted `id` leaves on the client: the socket
      exists; an `error` before `open` is logged and ends it; after `open`
      the reconnect counter is reset and `connected` reported; failed
      capture is logged and ends it; captured media and the participant id
      are kept, the room and the guest role recorded and `join` sent. */
  function GuestJoin(s: WebRtc.ClientState, id: string, socketOpened: bool, captured: Option<WebRtc.Stream>,
                     freshId: string, ready: bool): WebRtc.ClientState
  {
    if !socketOpened then
      s.(hasSocket := true, trace := s.trace + [WebRtc.LoggedError])
    else if captured.None? then
      s.(hasSocket := true, reconnectAttempts := 0,
         trace := s.trace + [WebRtc.SignalingStateChanged(WebRtc.Connected), WebRtc.LoggedError])
    else
      s.(hasSocket := true, reconnectAttempts := 0, localStream := captured, streamId := Some(freshId),
         roomId := Some(id), role := WebRtc.Guest,
         trace := s.trace + [WebRtc.SignalingStateChanged(WebRtc.Connected),
                             WebRtc.SendEffect(Join(id, freshId, WebRtc.Guest), ready)])
  }

  /** A join reaches the room only with the socket socketOpened and media
      captured: then the client records the room, the guest role and the
      new participant id, and sends exactly one `join`, carrying them, if
      the socket is open. Otherwise an error is logged, no message is sent
      and the room, role, ids and streams are as they were. Peers, timers
      and closed connections are never touched. */
  lemma GuestJoinOutcome(s: WebRtc.ClientState, id: string, socketOpened: bool, captured: Option<WebRtc.Stream>,
                         freshId: string, ready: bool)
    ensures var r := GuestJoin(s, id, socketOpened, captured, freshId, ready);
      var added := r.trace[|s.trace|..];
      && |s.trace| < |r.trace| && r.trace[..|s.trace|] == s.trace
      && WebRtc.SentMessages(added) == (if socketOpened && captured.Some? && ready then [Join(id, freshId, WebRtc.Guest)] else [])
      && (WebRtc.LoggedError in added <==> !(socketOpened && captured.Some?))
      && (socketOpened && captured.Some? ==>
            r.roomId == Some(id) && r.role == WebRtc.Guest && r.streamId == Some(freshId) && r.localStream == captured)
      && (!(socketOpened && captured.Some?) ==>
            r.roomId == s.roomId && r.role == s.role && r.streamId == s.streamId && r.localStream == s.localStream)
      && r.reconnectAttempts == (if socketOpened then 0 else s.reconnectAttempts)
      && r.hasSocket && r.peers == s.peers && r.statsIntervals == s.statsIntervals
      && r.timers == s.timers && r.closed == s.closed && r.cleared == s.cleared
  {
    var connected := WebRtc.SignalingStateChanged(WebRtc.Connected);
    if !socketOpened {
      WebRtc.AppendedOne(s.trace, WebRtc.LoggedError);
    } else if captured.None? {
      WebRtc.AppendedTwo(s.trace, connected, WebRtc.LoggedError);
    } else {
      var e := WebRtc.SendEffect(Join(id, freshId, WebRtc.Guest), ready);
      WebRtc.AppendedTwo(s.trace, connected, e);
    }
  }

  // -----------------------------------------------------------------------
  // The recording clock

  /** `n.toString().padStart(2, '0')`. */
  function Pad2(n: nat): (s: string)
    ensures |s| >= 2
    ensures forall i :: 0 <= i < |s| ==> '0' <= s[i] <= '9'
    ensures n < 100 ==> |s| == 2
  {
    assert n < 100 ==> |Config.Decimal(n)| <= 2;
    var d := Config.Decimal(n);
    if |d| < 2 then "0" + d else d
  }

  /** The `MM:SS` text of the recording clock after `elapsed` milliseconds;
      the minutes are not capped, so they may take more than two digits. */
  function FormatElapsed(elapsed: nat): string {
    var minutes := elapsed / 60000;
    var seconds := (elapsed % 60000) / 1000;
    Pad2(minutes) + ":" + Pad2(seconds)
  }

  predicate AllDecimal(s: string) {
    forall i :: 0 <= i < |s| ==> Config.IsDigit(s[i], 10)
  }

  /** Reads a clock text back as whole seconds: digits, a colon, and two
      digits for the seconds below 60. */
  function ReadClock(t: string): Option<nat> {
    if |t| < 4 || t[|t| - 3] != ':' then None
    else
      var mm, ss := t[..|t| - 3], t[|t| - 2..];
      if !AllDecimal(mm) || !AllDecimal(ss) then None
      else
        var m, s := Config.DigitsValue(mm, 10), Config.DigitsValue(ss, 10);
        if s < 60 then Some(m * 60 + s) else None
  }

  lemma {:induction false} LeadingZero(d: string)
    requires AllDecimal(d)
    ensures AllDecimal("0" + d)
    ensures Config.DigitsValue("0" + d, 10) == Config.DigitsValue(d, 10)
  {
    var z := "0" + d;
    assert forall i :: 0 <= i < |z| ==> z[i] == if i == 0 then '0' else d[i - 1];
    if d != [] {
      assert z[..|z| - 1] == "0" + d[..|d| - 1];
      LeadingZero(d[..|d| - 1]);
    }
  }

  lemma Pad2Value(n: nat)
    ensures AllDecimal(Pad2(n))
    ensures Config.DigitsValue(Pad2(n), 10) == n
  {
    var d := Config.Decimal(n);
    Config.DecimalValue(n);
    if |d| < 2 {
      LeadingZero(d);
    }
  }

  lemma ClockArithmetic(elapsed: nat)
    ensures (elapsed % 60000) / 1000 < 60
    ensures (elapsed / 60000) * 60 + (elapsed % 60000) / 1000 == elapsed / 1000
  {
    var m, r := elapsed / 60000, elapsed % 60000;
    assert elapsed == 1000 * (60 * m) + r;
    DivAfterMultiple(60 * m, r);
  }

  lemma DivAfterMultiple(q: nat, r: nat)
    ensures (1000 * q + r) / 1000 == q + r / 1000
  {
    var x := 1000 * q + r;
    assert x == 1000 * (q + r / 1000) + r % 1000;
  }

  /** The clock shows the elapsed time truncated to whole seconds: the
      seconds field stays below 60 and reading the text back gives
      `elapsed / 1000` seconds. */
  lemma {:induction false} ClockRoundTrip(elapsed: nat)
    ensures ReadClock(FormatElapsed(elapsed)) == Some(elapsed / 1000)
  {
    var minutes := elapsed / 60000;
    var seconds := (elapsed % 60000) / 1000;
    ClockArithmetic(elapsed);
    var mm, ss := Pad2(minutes), Pad2(seconds);
    var t := mm + ":" + ss;
    Pad2Value(minutes);
    Pad2Value(seconds);
    assert t[..|t| - 3] == mm;
    assert t[|t| - 2..] == ss;
    assert t[|t| - 3] == ':';
  }
}
