/**
  The two pure helpers of the browser client: the reduction of a statistics
  report list to one telemetry sample (`parseStats`), and the split of the
  enumerated media devices into cameras, microphones and speakers
  (`getDevices`).
 */
module WebRtcStats {
  import opened Protocol

  /** One entry of a statistics report. A numeric field the engine leaves
      out reads as 0, which is also what `field || 0` makes of it.
      `roundTripMs` is the candidate pair's round-trip time already converted
      to whole milliseconds (0 when absent). */
  datatype Report = Report(
    reportType: string,
    kind: string,
    state: string,
    bytesReceived: nat,
    packetsLost: int,
    frameWidth: nat,
    frameHeight: nat,
    framesPerSecond: nat,
    roundTripMs: nat)

  datatype Stats = Stats(bitrate: nat, packetsLost: int, latency: nat, width: nat, height: nat, fps: nat)

  const NoStats: Stats := Stats(0, 0, 0, 0, 0, 0)

  predicate IsInboundVideo(r: Report) {
    r.reportType == "inbound-rtp" && r.kind == "video"
  }

  predicate IsSucceededPair(r: Report) {
    r.reportType == "candidate-pair" && r.state == "succeeded"
  }

  /** `Math.round(bytes * 8 / 1000)`: kilobits, rounded half up. */
  function Kbps(bytes: nat): (k: nat)
    ensures 1000 * k <= 8 * bytes + 500 < 1000 * (k + 1)
  {
    (8 * bytes + 500) / 1000
  }

  /** The last inbound video report, if any. */
  function LastInboundVideo(rs: seq<Report>): (o: Option<Report>)
    ensures o.Some? ==> o.value in rs && IsInboundVideo(o.value)
    ensures o.None? <==> forall k :: 0 <= k < |rs| ==> !IsInboundVideo(rs[k])
  {
    if rs == [] then None
    else if IsInboundVideo(rs[|rs| - 1]) then Some(rs[|rs| - 1])
    else LastInboundVideo(rs[..|rs| - 1])
  }

  /** The last succeeded candidate pair, if any. */
  function LastSucceededPair(rs: seq<Report>): (o: Option<Report>)
    ensures o.Some? ==> o.value in rs && IsSucceededPair(o.value)
    ensures o.None? <==> forall k :: 0 <= k < |rs| ==> !IsSucceededPair(rs[k])
  {
    if rs == [] then None
    else if IsSucceededPair(rs[|rs| - 1]) then Some(rs[|rs| - 1])
    else LastSucceededPair(rs[..|rs| - 1])
  }

  /** The sample `parseStats` computes, stated by which report each field
      comes from. */
  function StatsOf(rs: seq<Report>): Stats {
    var video := LastInboundVideo(rs);
    var pair := LastSucceededPair(rs);
    Stats(
      if video.Some? then Kbps(video.value.bytesReceived) else 0,
      if video.Some? then video.value.packetsLost else 0,
      if pair.Some? then pair.value.roundTripMs else 0,
      if video.Some? then video.value.frameWidth else 0,
      if video.Some? then video.value.frameHeight else 0,
      if video.Some? then video.value.framesPerSecond else 0)
  }

  /** `parseStats`: one pass over the reports, each matching report
      overwriting the fields it supplies. */
  method ParseStats(stats: seq<Report>) returns (s: Stats)
    ensures s == StatsOf(stats)
  {
    var bitrate, packetsLost, latency, width, height, fps := 0, 0, 0, 0, 0, 0;
    var i := 0;
    while i < |stats|
      invariant 0 <= i <= |stats|
      invariant Stats(bitrate, packetsLost, latency, width, height, fps) == StatsOf(stats[..i])
    {
      assert stats[..i + 1][..i] == stats[..i];
      var report := stats[i];
      if report.reportType == "inbound-rtp" && report.kind == "video" {
        bitrate := Kbps(report.bytesReceived);
        packetsLost := report.packetsLost;
        width := report.frameWidth;
        height := report.frameHeight;
        fps := report.framesPerSecond;
      }
      if report.reportType == "candidate-pair" && report.state == "succeeded" {
        latency := report.roundTripMs;
      }
      i := i + 1;
    }
    assert stats[..i] == stats;
    s := Stats(bitrate, packetsLost, latency, width, height, fps);
  }

  predicate Relevant(r: Report) {
    IsInboundVideo(r) || IsSucceededPair(r)
  }

  function RelevantOnly(rs: seq<Report>): (out: seq<Report>)
    ensures forall k :: 0 <= k < |out| ==> Relevant(out[k])
    ensures forall r :: r in out ==> r in rs
  {
    if rs == [] then []
    else RelevantOnly(rs[..|rs| - 1]) + (if Relevant(rs[|rs| - 1]) then [rs[|rs| - 1]] else [])
  }

  /** Reports that are neither inbound video nor a succeeded candidate pair
      do not affect the sample. */
  lemma {:induction false} OnlyRelevantReportsCount(rs: seq<Report>)
    ensures StatsOf(RelevantOnly(rs)) == StatsOf(rs)
  {
    if rs != [] {
      var init, last := rs[..|rs| - 1], rs[|rs| - 1];
      OnlyRelevantReportsCount(init);
      var tail := if Relevant(last) then [last] else [];
      var out := RelevantOnly(init) + tail;
      if Relevant(last) {
        assert out[..|out| - 1] == RelevantOnly(init);
      } else {
        assert out == RelevantOnly(init);
      }
    }
  }

  /** With no matching report every field is 0. */
  lemma NoMatchIsZero(rs: seq<Report>)
    requires forall k :: 0 <= k < |rs| ==> !Relevant(rs[k])
    ensures StatsOf(rs) == NoStats
  {
  }

  /** A snapshot with one inbound video report and one succeeded candidate
      pair, among any number of reports of other kinds, yields exactly their
      values. */
  lemma {:induction false} SnapshotValues(before: seq<Report>, video: Report, between: seq<Report>,
                                          pair: Report, after: seq<Report>)
    requires IsInboundVideo(video) && IsSucceededPair(pair)
    requires forall r :: r in before + between + after ==> !Relevant(r)
    ensures var s := StatsOf(before + [video] + between + [pair] + after);
      && s.bitrate == Kbps(video.bytesReceived) && s.packetsLost == video.packetsLost
      && s.width == video.frameWidth && s.height == video.frameHeight && s.fps == video.framesPerSecond
      && s.latency == pair.roundTripMs
  {
    var rs := before + [video] + between + [pair] + after;
    var i, j := |before|, |before| + 1 + |between|;
    assert rs[i] == video && rs[j] == pair;
    forall k | i < k < |rs|
      ensures !IsInboundVideo(rs[k]) && (j < k ==> !IsSucceededPair(rs[k]))
    {
      if k < j {
        assert rs[k] == between[k - i - 1] && rs[k] in before + between + after;
      } else if j < k {
        assert rs[k] == after[k - j - 1] && rs[k] in before + between + after;
      }
    }
    LastAfter(rs, i, j);
  }

  lemma {:induction false} LastAfter(rs: seq<Report>, i: nat, j: nat)
    requires i < |rs| && j < |rs| && IsInboundVideo(rs[i]) && IsSucceededPair(rs[j])
    requires forall k :: i < k < |rs| ==> !IsInboundVideo(rs[k])
    requires forall k :: j < k < |rs| ==> !IsSucceededPair(rs[k])
    ensures LastInboundVideo(rs) == Some(rs[i]) && LastSucceededPair(rs) == Some(rs[j])
  {
    if |rs| - 1 != i || |rs| - 1 != j {
      var init := rs[..|rs| - 1];
      if |rs| - 1 == i {
        LastPairAfter(rs, j);
      } else if |rs| - 1 == j {
        LastVideoAfter(rs, i);
      } else {
        LastAfter(init, i, j);
      }
    }
  }

  lemma {:induction false} LastVideoAfter(rs: seq<Report>, i: nat)
    requires i < |rs| && IsInboundVideo(rs[i])
    requires forall k :: i < k < |rs| ==> !IsInboundVideo(rs[k])
    ensures LastInboundVideo(rs) == Some(rs[i])
  {
    if |rs| - 1 != i {
      LastVideoAfter(rs[..|rs| - 1], i);
    }
  }

  lemma {:induction false} LastPairAfter(rs: seq<Report>, j: nat)
    requires j < |rs| && IsSucceededPair(rs[j])
    requires forall k :: j < k < |rs| ==> !IsSucceededPair(rs[k])
    ensures LastSucceededPair(rs) == Some(rs[j])
  {
    if |rs| - 1 != j {
      LastPairAfter(rs[..|rs| - 1], j);
    }
  }

  // -----------------------------------------------------------------------
  // getDevices

  datatype Device = Device(kind: string, deviceId: string, deviceLabel: string)

  datatype DeviceLists = DeviceLists(cameras: seq<Device>, microphones: seq<Device>, speakers: seq<Device>)

  /** `devices.filter(d => d.kind === kind)`. */
  function OfKind(ds: seq<Device>, kind: string): (r: seq<Device>)
    ensures |r| <= |ds|
    ensures forall d :: d in r <==> d in ds && d.kind == kind
  {
    if ds == [] then []
    else (if ds[0].kind == kind then [ds[0]] else []) + OfKind(ds[1..], kind)
  }

  /** The filter keeps order and multiplicity: filtering a concatenation
      is filtering each part, so a device listed earlier in the enumeration
      comes earlier in its list, and every copy of it is kept. */
  lemma {:induction false} OfKindAppend(a: seq<Device>, b: seq<Device>, kind: string)
    ensures OfKind(a + b, kind) == OfKind(a, kind) + OfKind(b, kind)
  {
    if a == [] {
      assert a + b == b;
    } else {
      assert (a + b)[1..] == a[1..] + b;
      OfKindAppend(a[1..], b, kind);
    }
  }

  /** `getDevices`: the enumerated devices split by kind, in enumeration
      order; when enumeration fails (`None`), three empty lists. The flag
      says whether `Logger.error` was called. */
  function GetDevices(enumerated: Option<seq<Device>>): (r: (DeviceLists, bool))
    ensures r.1 <==> enumerated.None?
    ensures enumerated.None? ==> r.0 == DeviceLists([], [], [])
    ensures enumerated.Some? ==> forall d ::
      && (d in r.0.cameras <==> d in enumerated.value && d.kind == "videoinput")
      && (d in r.0.microphones <==> d in enumerated.value && d.kind == "audioinput")
      && (d in r.0.speakers <==> d in enumerated.value && d.kind == "audiooutput")
  {
    match enumerated
    case None => (DeviceLists([], [], []), true)
    case Some(ds) => (DeviceLists(OfKind(ds, "videoinput"), OfKind(ds, "audioinput"), OfKind(ds, "audiooutput")), false)
  }

  /** No device is listed twice over: the three lists together are no longer
      than the enumeration. */
  lemma {:induction false} DeviceListsPartition(ds: seq<Device>)
    ensures var r := GetDevices(Some(ds)).0;
      |r.cameras| + |r.microphones| + |r.speakers| <= |ds|
  {
    if ds != [] {
      DeviceListsPartition(ds[1..]);
    }
  }
}
