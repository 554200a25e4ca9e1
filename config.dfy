/**
  The client's configuration helpers: the constants the session logic reads,
  the room id generator, the Logger's level gate, and the mapping of the
  page's query string onto `urlParams`.
 */
module Config {
  import opened Protocol

  /** `signalingServer.reconnectDelay`, in milliseconds. */
  const ReconnectDelay: nat := 2000
  /** `signalingServer.maxReconnectAttempts`. */
  const MaxReconnectAttempts: nat := 5
  /** `statsInterval`, in milliseconds. */
  const StatsInterval: nat := 1000

  // -----------------------------------------------------------------------
  // generateRoomId

  /** Upper-case letters and digits without the look-alikes I, O, 0 and 1. */
  const Alphabet: string := "ABCDEFGHJKLMNPQRSTUVWXYZ23456789"
  const DefaultRoomIdLength: nat := 8

  /** Position of `c` in `s`, when it occurs. */
  function IndexOf(s: string, c: char): (k: nat)
    requires c in s
    ensures k < |s| && s[k] == c
    ensures forall j :: 0 <= j < k ==> s[j] != c
  {
    if s[0] == c then 0 else 1 + IndexOf(s[1..], c)
  }

  /** The 32 characters are pairwise different. */
  lemma AlphabetDistinct()
    ensures |Alphabet| == 32
    ensures forall i, j :: 0 <= i < j < |Alphabet| ==> Alphabet[i] != Alphabet[j]
  {
  }

  lemma AlphabetHasNoLookalikes()
    ensures forall k :: 0 <= k < |Alphabet| ==> Alphabet[k] !in {'I', 'O', '0', '1'}
  {
  }

  /** `generateRoomId(length)`: `picks[i]` stands for the i-th
      `Math.floor(Math.random() * 32)`. A length that is not positive gives
      the empty id. Every character comes from the alphabet, and each pick
      can be read back from its character, so different picks give
      different ids. */
  method GenerateRoomId(length: int, picks: seq<nat>) returns (id: string)
    requires |picks| >= length
    requires forall i :: 0 <= i < |picks| ==> picks[i] < |Alphabet|
    ensures |id| == if length < 0 then 0 else length
    ensures forall i :: 0 <= i < |id| ==> id[i] == Alphabet[picks[i]]
    ensures forall i :: 0 <= i < |id| ==> id[i] in Alphabet && IndexOf(Alphabet, id[i]) == picks[i]
    ensures 'I' !in id && 'O' !in id && '0' !in id && '1' !in id
  {
    id := "";
    var i := 0;
    while i < length
      invariant 0 <= i <= |picks|
      invariant if length < 0 then i == 0 else i <= length
      invariant |id| == i
      invariant forall j :: 0 <= j < i ==> id[j] == Alphabet[picks[j]]
    {
      id := id + [Alphabet[picks[i]]];
      i := i + 1;
    }
    AlphabetHasNoLookalikes();
    forall j | 0 <= j < |id|
      ensures id[j] in Alphabet && IndexOf(Alphabet, id[j]) == picks[j]
    {
      var k := IndexOf(Alphabet, id[j]);
      AlphabetDistinct();
      assert Alphabet[k] == Alphabet[picks[j]];
    }
  }

  /** `generateRoomId()`, as the page calls it: the default length of 8. */
  method GenerateDefaultRoomId(picks: seq<nat>) returns (id: string)
    requires |picks| >= DefaultRoomIdLength
    requires forall i :: 0 <= i < |picks| ==> picks[i] < |Alphabet|
    ensures |id| == DefaultRoomIdLength == 8
    ensures forall i :: 0 <= i < |id| ==> id[i] == Alphabet[picks[i]]
    ensures 'I' !in id && 'O' !in id && '0' !in id && '1' !in id
  {
    id := GenerateRoomId(DefaultRoomIdLength, picks);
  }

  // -----------------------------------------------------------------------
  // Logger

  /** `logging.level` is any string; `logging.console` switches output. */
  datatype LogConfig = LogConfig(level: string, console: bool)

  datatype Severity = Debug | Info | Warn | Err

  /** Whether `Logger.<severity>` writes to the console. */
  predicate Emits(c: LogConfig, s: Severity) {
    match s
    case Debug => c.level == "debug" && c.console
    case Info => c.level in ["debug", "info"] && c.console
    case Warn => c.level in ["debug", "info", "warn"] && c.console
    case Err => c.console
  }

  /** Threshold reading of the gate: levels rank debug < info < warn < the
      rest, and a message passes when its own rank reaches the level's. */
  function LevelRank(level: string): (r: nat)
    ensures r <= 3
  {
    if level == "debug" then 0 else if level == "info" then 1 else if level == "warn" then 2 else 3
  }

  function SeverityRank(s: Severity): nat {
    match s
    case Debug => 0
    case Info => 1
    case Warn => 2
    case Err => 3
  }

  lemma GateIsThreshold(c: LogConfig, s: Severity)
    ensures Emits(c, s) <==> c.console && LevelRank(c.level) <= SeverityRank(s)
  {
  }

  /** The levels nest, errors pass whenever the console is on, and nothing
      passes when it is off. */
  lemma LevelsNest(c: LogConfig)
    ensures Emits(c, Debug) ==> Emits(c, Info)
    ensures Emits(c, Info) ==> Emits(c, Warn)
    ensures Emits(c, Warn) ==> Emits(c, Err)
    ensures Emits(c, Err) <==> c.console
    ensures Emits(c, Debug) <==> c.level == "debug" && c.console
  {
  }

  // -----------------------------------------------------------------------
  // parseInt, as `parseURLParameters` applies it to `bitrate`

  /** A JavaScript number as far as `parseInt` can produce one. */
  datatype Number = NaN | Int(value: int)

  predicate IsSpace(c: char) {
    c in {' ', '\t', '\n', '\r', '\U{0B}', '\U{0C}'}
  }

  function DigitValue(c: char): (d: Option<nat>)
    ensures d.Some? ==> d.value < 16
  {
    if '0' <= c <= '9' then Some(c as nat - '0' as nat)
    else if 'a' <= c <= 'f' then Some(c as nat - 'a' as nat + 10)
    else if 'A' <= c <= 'F' then Some(c as nat - 'A' as nat + 10)
    else None
  }

  predicate IsDigit(c: char, radix: nat) {
    DigitValue(c).Some? && DigitValue(c).value < radix
  }

  /** Length of the longest prefix of `s` made of digits in `radix`. */
  function DigitRun(s: string, radix: nat): (n: nat)
    ensures n <= |s|
    ensures forall i :: 0 <= i < n ==> IsDigit(s[i], radix)
    ensures n < |s| ==> !IsDigit(s[n], radix)
  {
    if s == [] || !IsDigit(s[0], radix) then 0 else 1 + DigitRun(s[1..], radix)
  }

  lemma ProductOfNats(a: nat, b: nat)
    ensures a * b >= 0
  {
  }

  /** Value of a string of digits in `radix`, most significant first. */
  function DigitsValue(s: string, radix: nat): nat
    requires forall i :: 0 <= i < |s| ==> IsDigit(s[i], radix)
  {
    if s == [] then 0
    else
      var init, last := s[..|s| - 1], s[|s| - 1];
      assert IsDigit(last, radix);
      assert forall i :: 0 <= i < |init| ==> init[i] == s[i];
      var high := DigitsValue(init, radix);
      ProductOfNats(high, radix);
      high * radix + DigitValue(last).value
  }

  /** The digits after the sign: `0x`/`0X` selects base 16, otherwise base
      10; the value of the longest run of digits, if there is one. */
  function Magnitude(unsigned: string): (m: Option<nat>)
    ensures m.Some? ==> |unsigned| >= 1 && IsDigit(unsigned[0], 16)
  {
    var hex := |unsigned| >= 2 && unsigned[0] == '0' && (unsigned[1] == 'x' || unsigned[1] == 'X');
    var radix := if hex then 16 else 10;
    var digits := if hex then unsigned[2..] else unsigned;
    var n := DigitRun(digits, radix);
    if n == 0 then None else Some(DigitsValue(digits[..n], radix))
  }

  /** `parseInt(s)` with no radix: leading white space, an optional sign,
      then `Magnitude`; no digit at all is NaN. */
  function ParseInt(s: string): (r: Number)
    ensures r.Int? ==> exists k :: 0 <= k < |s| && IsDigit(s[k], 16)
  {
    if s != [] && IsSpace(s[0]) then
      var r := ParseInt(s[1..]);
      if r.Int? then
        var k :| 0 <= k < |s[1..]| && IsDigit(s[1..][k], 16);
        assert IsDigit(s[k + 1], 16);
        r
      else r
    else
      var signed := s != [] && (s[0] == '-' || s[0] == '+');
      var m := Magnitude(if signed then s[1..] else s);
      if m.None? then NaN
      else
        assert IsDigit(s[if signed then 1 else 0], 16);
        var v: int := m.value;
        Int(if signed && s[0] == '-' then -v else v)
  }

  /** Decimal digits of `n`, most significant first, without leading zeros. */
  function Decimal(n: nat): (s: string)
    ensures |s| >= 1
    ensures forall i :: 0 <= i < |s| ==> '0' <= s[i] <= '9'
    ensures |s| >= 2 ==> s[0] != '0'
    ensures n < 10 <==> |s| == 1
    ensures n < 100 ==> |s| <= 2
  {
    if n < 10 then [('0' as nat + n) as char]
    else Decimal(n / 10) + [('0' as nat + n % 10) as char]
  }

  lemma {:induction false} DecimalValue(n: nat)
    ensures forall i :: 0 <= i < |Decimal(n)| ==> IsDigit(Decimal(n)[i], 10)
    ensures DigitsValue(Decimal(n), 10) == n
  {
    var s := Decimal(n);
    if n >= 10 {
      DecimalValue(n / 10);
      assert s[..|s| - 1] == Decimal(n / 10);
    }
  }

  lemma DecimalMagnitude(n: nat)
    ensures Magnitude(Decimal(n)) == Some(n)
  {
    DecimalValue(n);
    MagnitudeOfDigits(Decimal(n));
  }

  /** A run of decimal digits that does not start with `0x` reads as its
      value in base 10. */
  lemma MagnitudeOfDigits(d: string)
    requires d != [] && forall i :: 0 <= i < |d| ==> IsDigit(d[i], 10)
    ensures Magnitude(d) == Some(DigitsValue(d, 10))
  {
    assert |d| >= 2 ==> d[1] != 'x' && d[1] != 'X';
    var run := DigitRun(d, 10);
    assert run == |d|;
    assert d[..run] == d;
  }

  /** Text starting with a digit is read from its first character. */
  lemma ParseUnsigned(d: string)
    requires d != [] && '0' <= d[0] <= '9'
    ensures ParseInt(d) == if Magnitude(d).Some? then Int(Magnitude(d).value) else NaN
  {
    assert !IsSpace(d[0]) && d[0] != '-' && d[0] != '+';
  }

  /** A `-` before such text negates it. */
  lemma ParseNegated(d: string)
    requires d != [] && '0' <= d[0] <= '9'
    ensures ParseInt("-" + d) == if Magnitude(d).Some? then Int(-(Magnitude(d).value as int)) else NaN
  {
    var s := "-" + d;
    assert s[0] == '-' && !IsSpace(s[0]) && s[1..] == d;
  }

  /** `?bitrate=` followed by an integer written in decimal, such as the
      `2000` of `?bitrate=2000`, reads back as that integer. */
  lemma DecimalRoundTrip(n: int)
    ensures ParseInt(if n < 0 then "-" + Decimal(-n) else Decimal(n)) == Int(n)
  {
    var m: nat := if n < 0 then -n else n;
    DecimalMagnitude(m);
    if n < 0 {
      ParseNegated(Decimal(m));
    } else {
      ParseUnsigned(Decimal(m));
    }
  }

  // -----------------------------------------------------------------------
  // parseURLParameters

  datatype UrlParams = UrlParams(
    room: Option<string>,
    push: Option<string>,
    view: Option<string>,
    quality: Option<string>,
    audio: Option<bool>,
    video: Option<bool>,
    password: Option<string>,
    name: Option<string>,
    director: bool,
    scene: bool,
    bitrate: Option<Number>)

  /** `value === '1'`: the only spelling that turns a media flag on. */
  predicate IsOne(value: string) {
    value == "1"
  }

  /** The defaults `urlParams` starts from: all null, both flags off. */
  const DefaultUrlParams: UrlParams :=
    UrlParams(None, None, None, None, None, None, None, None, false, false, None)

  /** `if (urlParams.has(key)) field = urlParams.get(key)`. */
  function TextParam(query: map<string, string>, key: string, current: Option<string>): Option<string> {
    if key in query then Some(query[key]) else current
  }

  /** `if (urlParams.has(key)) field = urlParams.get(key) === '1'`. */
  function FlagParam(query: map<string, string>, key: string, current: Option<bool>): Option<bool> {
    if key in query then Some(IsOne(query[key])) else current
  }

  /** `if (urlParams.has(key)) field = true`. */
  function PresenceParam(query: map<string, string>, key: string, current: bool): bool {
    if key in query then true else current
  }

  /** `if (urlParams.has(key)) field = parseInt(urlParams.get(key))`. */
  function NumberParam(query: map<string, string>, key: string, current: Option<Number>): Option<Number> {
    if key in query then Some(ParseInt(query[key])) else current
  }

  /** What `parseURLParameters` makes of `current`: `query` holds the first
      value of each key of the page's query string. Each key present
      overwrites its field; a key that is absent leaves its field as it was. */
  function ApplyQuery(query: map<string, string>, current: UrlParams): UrlParams {
    UrlParams(
      room := TextParam(query, "room", current.room),
      push := TextParam(query, "push", current.push),
      view := TextParam(query, "view", current.view),
      quality := TextParam(query, "quality", current.quality),
      audio := FlagParam(query, "audio", current.audio),
      video := FlagParam(query, "video", current.video),
      password := TextParam(query, "password", current.password),
      name := TextParam(query, "name", current.name),
      director := PresenceParam(query, "director", current.director),
      scene := PresenceParam(query, "scene", current.scene),
      bitrate := NumberParam(query, "bitrate", current.bitrate))
  }

  /** On page load (from the defaults) a text field is set exactly when its
      key is present, and then holds the value verbatim. */
  lemma ParsedTextFromDefaults(query: map<string, string>)
    ensures var p := ApplyQuery(query, DefaultUrlParams);
      && (p.room.Some? <==> "room" in query) && (p.room.Some? ==> p.room.value == query["room"])
      && (p.push.Some? <==> "push" in query) && (p.push.Some? ==> p.push.value == query["push"])
      && (p.view.Some? <==> "view" in query) && (p.view.Some? ==> p.view.value == query["view"])
      && (p.quality.Some? <==> "quality" in query) && (p.quality.Some? ==> p.quality.value == query["quality"])
      && (p.password.Some? <==> "password" in query) && (p.password.Some? ==> p.password.value == query["password"])
      && (p.name.Some? <==> "name" in query) && (p.name.Some? ==> p.name.value == query["name"])
  {
  }

  /** On page load `audio` and `video` are set exactly when their key is
      present, and are true only for the value `1`; `director` and `scene`
      turn on whatever their value; `bitrate` is set exactly when present,
      to `parseInt` of its value. */
  lemma ParsedFlagsFromDefaults(query: map<string, string>)
    ensures var p := ApplyQuery(query, DefaultUrlParams);
      && (p.audio == Some(true) <==> "audio" in query && query["audio"] == "1")
      && (p.audio == Some(false) <==> "audio" in query && query["audio"] != "1")
      && (p.video == Some(true) <==> "video" in query && query["video"] == "1")
      && (p.video == Some(false) <==> "video" in query && query["video"] != "1")
      && (p.director <==> "director" in query)
      && (p.scene <==> "scene" in query)
      && (p.bitrate.Some? <==> "bitrate" in query)
      && (p.bitrate.Some? ==> p.bitrate.value == ParseInt(query["bitrate"]))
  {
  }

  /** An empty query string changes nothing. */
  lemma EmptyQueryKeepsParams(current: UrlParams)
    ensures ApplyQuery(map[], current) == current
  {
  }

  /** Applying the same query twice is the same as applying it once. */
  lemma ParseIdempotent(query: map<string, string>, current: UrlParams)
    ensures var p := ApplyQuery(query, current);
      ApplyQuery(query, p) == p
  {
  }

  /** The part of `FreeVoiceConfig` that the page's query string sets. */
  class FreeVoiceConfig {
    var urlParams: UrlParams

    constructor ()
      ensures urlParams == DefaultUrlParams
    {
      urlParams := DefaultUrlParams;
    }

    /** `parseURLParameters`: one guarded assignment per key, in the
        source's order. */
    method ParseUrlParameters(query: map<string, string>)
      modifies this
      ensures urlParams == ApplyQuery(query, old(urlParams))
    {
      var UrlParams(room, push, view, quality, audio, video, password, name, director, scene, bitrate) := urlParams;
      room := TextParam(query, "room", room);
      push := TextParam(query, "push", push);
      view := TextParam(query, "view", view);
      quality := TextParam(query, "quality", quality);
      audio := FlagParam(query, "audio", audio);
      video := FlagParam(query, "video", video);
      password := TextParam(query, "password", password);
      name := TextParam(query, "name", name);
      director := PresenceParam(query, "director", director);
      scene := PresenceParam(query, "scene", scene);
      bitrate := NumberParam(query, "bitrate", bitrate);
      urlParams := UrlParams(room, push, view, quality, audio, video, password, name, director, scene, bitrate);
    }
  }
}
