/**
  `getSignalingServerUrl`: where the client finds the signaling relay. An
  explicitly configured address wins (the process environment first, then a
  variable on the page's window); otherwise the address is derived from the
  page's own location.
 */
module EnvConfig {
  import opened Protocol

  datatype Location = Location(protocol: string, host: string)

  /** The page's window, when there is one: its `SIGNALING_SERVER_URL`
      variable and its `location`. */
  datatype Window = Window(serverUrl: Option<string>, location: Option<Location>)

  /** `processUrl` is `process.env.SIGNALING_SERVER_URL`, None when there is
      no `process`, no `env` or no such variable. */
  datatype Env = Env(processUrl: Option<string>, window: Option<Window>)

  const GitHubPagesServer: string := "wss://your-signaling-server.onrender.com"
  const LocalServer: string := "ws://localhost:8888"

  /** A string value is truthy unless it is missing or empty. */
  predicate Truthy(v: Option<string>) {
    v.Some? && v.value != ""
  }

  predicate EndsWith(s: string, suffix: string) {
    |suffix| <= |s| && s[|s| - |suffix|..] == suffix
  }

  /** `s.includes(sub)`. */
  predicate Contains(s: string, sub: string)
    decreases |s|
  {
    sub <= s || (s != [] && Contains(s[1..], sub))
  }

  /** `window.location.protocol === 'https:' ? 'wss:' : 'ws:'`. */
  function SocketScheme(pageProtocol: string): string {
    if pageProtocol == "https:" then "wss:" else "ws:"
  }

  function GetSignalingServerUrl(env: Env): string {
    if Truthy(env.processUrl) then env.processUrl.value
    else if env.window.Some? && Truthy(env.window.value.serverUrl) then env.window.value.serverUrl.value
    else if env.window.Some? && env.window.value.location.Some? then
      var host := env.window.value.location.value.host;
      if EndsWith(host, ".github.io") then GitHubPagesServer
      else if Contains(host, "localhost") || Contains(host, "127.0.0.1") then LocalServer
      else SocketScheme(env.window.value.location.value.protocol) + "//" + host
    else LocalServer
  }

  /** No address is configured explicitly. */
  predicate AutoDetected(env: Env) {
    !Truthy(env.processUrl) && !(env.window.Some? && Truthy(env.window.value.serverUrl))
  }

  /** An explicit address is returned verbatim, the process environment's
      before the window's. */
  lemma ExplicitUrlWins(env: Env)
    ensures Truthy(env.processUrl) ==> GetSignalingServerUrl(env) == env.processUrl.value
    ensures !Truthy(env.processUrl) && env.window.Some? && Truthy(env.window.value.serverUrl) ==>
      GetSignalingServerUrl(env) == env.window.value.serverUrl.value
  {
  }

  /** A GitHub Pages host gets the public relay even when its name also
      mentions localhost, and whatever the page protocol. */
  lemma GitHubPagesBeforeLocalhost(env: Env, loc: Location)
    requires AutoDetected(env) && env.window.Some? && env.window.value.location == Some(loc)
    requires EndsWith(loc.host, ".github.io")
    ensures GetSignalingServerUrl(env) == GitHubPagesServer
  {
  }

  /** Otherwise a host naming localhost or 127.0.0.1 anywhere gets the local
      relay, whatever the page protocol. */
  lemma LocalHostIsLocal(env: Env, loc: Location)
    requires AutoDetected(env) && env.window.Some? && env.window.value.location == Some(loc)
    requires !EndsWith(loc.host, ".github.io")
    requires Contains(loc.host, "localhost") || Contains(loc.host, "127.0.0.1")
    ensures GetSignalingServerUrl(env) == LocalServer
  {
  }

  lemma {:induction false} StartsWith(prefix: string, rest: string, pattern: string)
    requires pattern <= prefix
    ensures pattern <= prefix + rest
  {
    assert (prefix + rest)[..|pattern|] == prefix[..|pattern|];
  }

  /** Whenever no address is configured, the result is a WebSocket URL:
      `ws://` or `wss://`. */
  lemma AutoDetectedIsWebSocket(env: Env)
    requires AutoDetected(env)
    ensures var url := GetSignalingServerUrl(env);
      "ws://" <= url || "wss://" <= url
  {
    if env.window.Some? && env.window.value.location.Some? {
      var loc := env.window.value.location.value;
      var scheme := SocketScheme(loc.protocol);
      StartsWith(scheme + "//", loc.host, if scheme == "wss:" then "wss://" else "ws://");
      assert scheme + "//" + loc.host == (scheme + "//") + loc.host;
    }
  }

  /** For any other host the relay is the page's own host, reached over
      `wss://` exactly when the page was served over `https:`. */
  lemma {:induction false} SameHostFollowsPageProtocol(env: Env, loc: Location)
    requires AutoDetected(env) && env.window.Some? && env.window.value.location == Some(loc)
    requires !EndsWith(loc.host, ".github.io")
    requires !Contains(loc.host, "localhost") && !Contains(loc.host, "127.0.0.1")
    ensures var url := GetSignalingServerUrl(env);
      && EndsWith(url, "//" + loc.host)
      && ("wss://" <= url <==> loc.protocol == "https:")
  {
    var url := GetSignalingServerUrl(env);
    var scheme := SocketScheme(loc.protocol);
    assert url == scheme + ("//" + loc.host);
    assert url[|url| - |"//" + loc.host|..] == "//" + loc.host;
    if loc.protocol == "https:" {
      StartsWith("wss://", loc.host, "wss://");
    } else {
      assert url[2] == ':';
    }
  }

  /** Without a window, or a window without a location, the local relay. */
  lemma NoLocationIsLocal(env: Env)
    requires AutoDetected(env)
    requires env.window.None? || env.window.value.location.None?
    ensures GetSignalingServerUrl(env) == LocalServer
  {
  }
}
