// The host proxy endpoint, read twice: by the orchestrator, which probes it, and by the
// Firefox backend, which writes it into the browser's preferences.
module ProxyEndpoint {
  import opened Errors
  import opened Text
  import opened Decimal

  const SEPARATOR := "://"

  // ---- splitting --------------------------------------------------------------------------

  predicate StartsAt(s: string, i: nat) {
    i + 3 <= |s| && s[i] == ':' && s[i + 1] == '/' && s[i + 2] == '/'
  }

  function FirstSeparator(s: string, from: nat): (r: Option<nat>)
    requires from <= |s|
    ensures r.Some? ==> from <= r.value && StartsAt(s, r.value)
    ensures forall i :: from <= i < (if r.Some? then r.value else |s|) ==> !StartsAt(s, i)
    decreases |s| - from
  {
    if from == |s| then None
    else if StartsAt(s, from) then Some(from)
    else FirstSeparator(s, from + 1)
  }

  // The last piece of a left-to-right split at every separator.
  function LastPiece(s: string): string
    decreases |s|
  {
    var i := FirstSeparator(s, 0);
    if i.Some? then LastPiece(s[i.value + 3..]) else s
  }

  function LastColon(s: string): (r: Option<nat>)
    ensures r.Some? ==> r.value < |s| && s[r.value] == ':'
    ensures forall k :: (if r.Some? then r.value else -1) < k < |s| ==> s[k] != ':'
  {
    if s == "" then None
    else if s[|s| - 1] == ':' then Some(|s| - 1)
    else LastColon(s[..|s| - 1])
  }

  predicate AllDigits(s: string) {
    forall c | c in s :: IsDigit(c)
  }

  // A 16-bit number: an optional plus sign and at least one digit.
  function ParsePort(s: string): Option<nat> {
    var digits := if s != "" && s[0] == '+' then s[1..] else s;
    if digits == "" || !AllDigits(digits) || Value(digits) >= 0x1_0000 then None else Some(Value(digits))
  }

  // ---- the two parsers -----------------------------------------------------------------------

  datatype HostProxy = HostProxy(endpoint: string, probeHost: string, probePort: nat)

  function ParseHostProxy(endpoint: string): Result<HostProxy> {
    var authority := LastPiece(endpoint);
    var colon := LastColon(authority);
    if colon.None? then Err(Config)
    else
      var port := ParsePort(authority[colon.value + 1..]);
      if port.None? then Err(Config)
      else
        var host := authority[..colon.value];
        if host == "" then Err(Config) else Ok(HostProxy(endpoint, host, port.value))
  }

  function ParseSocksEndpoint(endpoint: string): Result<(string, nat)> {
    var authority := LastPiece(endpoint);
    var colon := LastColon(authority);
    if colon.None? then Err(Config)
    else
      var host := authority[..colon.value];
      if host == "" then Err(Config)
      else
        var port := ParsePort(authority[colon.value + 1..]);
        if port.None? then Err(Config) else Ok((host, port.value))
  }

  // ---- the callers -----------------------------------------------------------------------------

  datatype ProxyProtocol = Socks5 | HttpConnect

  datatype ProxyConfig = ProxyConfig(protocol: ProxyProtocol, host: string, port: nat)

  datatype NetworkMode = Tor | Proxy(config: ProxyConfig) | Vpn

  function Scheme(p: ProxyProtocol): string {
    match p
    case Socks5 => "socks5h"
    case HttpConnect => "http"
  }

  function Format(scheme: string, host: string, port: nat): string {
    scheme + SEPARATOR + host + ":" + Show(port)
  }

  // `over` is the environment's override of the Tor endpoint; a blank one does not count.
  function HostProxyEndpoint(mode: NetworkMode, over: Option<string>): Result<HostProxy> {
    match mode
    case Tor =>
      ParseHostProxy(if over.Some? && Trim(over.value) != "" then over.value else "socks5h://127.0.0.1:9050")
    case Proxy(c) => ParseHostProxy(Format(Scheme(c.protocol), c.host, c.port))
    case Vpn => Err(Unsupported)
  }

  datatype Json = Number(n: nat) | Text(s: string) | Flag(b: bool)

  // The proxy part of the hardened preferences.
  method RenderProxyPreferences(endpoint: string) returns (r: Result<map<string, Json>>)
    ensures r.Ok? <==> ParseSocksEndpoint(endpoint).Ok?
    ensures r.Ok? ==>
              var (host, port) := ParseSocksEndpoint(endpoint).value;
              r.value == map["network.proxy.type" := Number(1),
                             "network.proxy.socks" := Text(host),
                             "network.proxy.socks_port" := Number(port),
                             "network.proxy.socks_version" := Number(5),
                             "network.proxy.socks_remote_dns" := Flag(true),
                             "network.proxy.no_proxies_on" := Text("")]
  {
    var parsed := ParseSocksEndpoint(endpoint);
    if parsed.Err? {
      return Err(parsed.error);
    }
    var (host, port) := parsed.value;
    var prefs: map<string, Json> := map[];
    prefs := prefs["network.proxy.type" := Number(1)];
    prefs := prefs["network.proxy.socks" := Text(host)];
    prefs := prefs["network.proxy.socks_port" := Number(port)];
    prefs := prefs["network.proxy.socks_version" := Number(5)];
    prefs := prefs["network.proxy.socks_remote_dns" := Flag(true)];
    prefs := prefs["network.proxy.no_proxies_on" := Text("")];
    return Ok(prefs);
  }

  // What a host-mode start does with its proxy: probe one address, hand the endpoint to
  // the backend, which writes the other.
  method ProbeAndRender(mode: NetworkMode, over: Option<string>)
    returns (r: Result<(HostProxy, map<string, Json>)>)
    ensures r.Ok? <==> HostProxyEndpoint(mode, over).Ok?
    ensures r.Ok? ==>
              var (probe, prefs) := r.value;
              && "network.proxy.socks" in prefs && prefs["network.proxy.socks"] == Text(probe.probeHost)
              && "network.proxy.socks_port" in prefs && prefs["network.proxy.socks_port"] == Number(probe.probePort)
              && probe.probeHost != "" && probe.probePort < 0x1_0000
  {
    hide ParseHostProxy, ParseSocksEndpoint, Format, Trim;
    var proxy := HostProxyEndpoint(mode, over);
    if proxy.Err? {
      return Err(proxy.error);
    }
    EndpointIsKept(mode, over);
    ParsersAgree(proxy.value.endpoint);
    ParsedIsUsable(proxy.value.endpoint);
    var prefs := RenderProxyPreferences(proxy.value.endpoint);
    assert prefs.Ok?;  // a parsed endpoint parses again
    return Ok((proxy.value, prefs.value));
  }

  // ---- properties ----------------------------------------------------------------------------------

  // On every string both parsers fail, or both give the same host and port.
  lemma ParsersAgree(s: string)
    ensures match ParseHostProxy(s)
            case Ok(p) => ParseSocksEndpoint(s) == Ok((p.probeHost, p.probePort))
            case Err(e) => ParseSocksEndpoint(s) == Err(e)
  {}

  lemma ParsedIsUsable(s: string)
    ensures ParseHostProxy(s).Ok? ==>
              var p := ParseHostProxy(s).value;
              p.endpoint == s && p.probeHost != "" && p.probePort < 0x1_0000
  {}

  // The endpoint handed on is the one that was parsed, verbatim.
  lemma EndpointIsKept(mode: NetworkMode, over: Option<string>)
    ensures HostProxyEndpoint(mode, over).Ok? ==>
              ParseHostProxy(HostProxyEndpoint(mode, over).value.endpoint) == HostProxyEndpoint(mode, over)
  {}

  predicate HasSeparator(s: string) {
    FirstSeparator(s, 0).Some?
  }

  // Everything up to a separator can be dropped.
  lemma {:induction false} LastPieceAfter(p: string, q: string)
    ensures LastPiece(p + SEPARATOR + q) == LastPiece(q)
    decreases |p|
  {
    var s := p + SEPARATOR + q;
    assert StartsAt(s, |p|) && s[|p| + 3..] == q;
    var i := FirstSeparator(s, 0).value;
    if i < |p| {
      assert s[i + 1] != s[|p|] && s[i + 2] != s[|p|];
      var p' := p[i + 3..];
      assert s[i + 3..] == p' + SEPARATOR + q;
      LastPieceAfter(p', q);
    }
  }

  lemma {:induction false} LastPieceIsSuffix(s: string)
    ensures |LastPiece(s)| <= |s| && s[|s| - |LastPiece(s)|..] == LastPiece(s)
    ensures HasSeparator(s) <==> |LastPiece(s)| < |s|
    ensures !HasSeparator(LastPiece(s))
    decreases |s|
  {
    var i := FirstSeparator(s, 0);
    if i.Some? {
      var rest := s[i.value + 3..];
      LastPieceIsSuffix(rest);
      assert rest[|rest| - |LastPiece(rest)|..] == s[|s| - |LastPiece(rest)|..];
    }
  }

  // A separator cannot straddle the colon before the port.
  lemma {:induction false} SeparatorsStayInHost(host: string, digits: string)
    requires AllDigits(digits)
    ensures LastPiece(host + ":" + digits) == LastPiece(host) + ":" + digits
    decreases |host|
  {
    var s := host + ":" + digits;
    SameSeparators(host, digits);
    var i := FirstSeparator(host, 0);
    if i.Some? {
      assert StartsAt(s, i.value);
      var rest := host[i.value + 3..];
      assert s[i.value + 3..] == rest + ":" + digits;
      SeparatorsStayInHost(rest, digits);
    }
  }

  lemma SameSeparators(host: string, digits: string)
    requires AllDigits(digits)
    ensures FirstSeparator(host + ":" + digits, 0) == FirstSeparator(host, 0)
  {
    var s := host + ":" + digits;
    forall k | 0 <= k <= |s|
      ensures StartsAt(s, k) <==> StartsAt(host, k)
    {
      if k + 3 <= |s| && k + 2 > |host| {
        assert s[k + 2] == digits[k + 2 - |host| - 1];
        assert digits[k + 2 - |host| - 1] in digits;
      }
    }
    var i, j := FirstSeparator(s, 0), FirstSeparator(host, 0);
    if i.Some? {
      assert StartsAt(host, i.value);
    }
    if j.Some? {
      assert StartsAt(s, j.value);
    }
  }

  lemma PortRoundTrip(port: nat)
    ensures ParsePort(Show(port)) == if port < 0x1_0000 then Some(port) else None
  {
    ValueOfShow(port);
    assert Show(port)[0] in Show(port);
  }

  lemma LastColonIs(s: string, k: nat)
    requires k < |s| && s[k] == ':' && forall j :: k < j < |s| ==> s[j] != ':'
    ensures LastColon(s) == Some(k)
  {}

  lemma OnlyDigitsAfter(host: string, digits: string, s: string)
    requires AllDigits(digits) && s == host + ":" + digits
    ensures |host| < |s| && s[|host|] == ':' && forall k :: |host| < k < |s| ==> s[k] != ':'
  {
    forall k | |host| < k < |s|
      ensures s[k] != ':'
    {
      var d := digits[k - |host| - 1];
      assert d in digits && IsDigit(d) && s[k] == d;
    }
  }

  lemma ColonBeforePort(host: string, digits: string)
    requires AllDigits(digits)
    ensures LastColon(host + ":" + digits) == Some(|host|)
  {
    hide *;
    var s := host + ":" + digits;
    OnlyDigitsAfter(host, digits, s);
    LastColonIs(s, |host|);
  }

  // Parsing a formatted 16-bit endpoint gives back its host and port if and only if the
  // host is not empty and contains no separator.
  lemma FormattedEndpointRoundTrips(scheme: string, host: string, port: nat)
    requires port < 0x1_0000
    ensures ParseSocksEndpoint(Format(scheme, host, port)) == Ok((host, port)) <==> host != "" && !HasSeparator(host)
  {
    var digits := Show(port);
    assert Format(scheme, host, port) == scheme + SEPARATOR + (host + ":" + digits);
    LastPieceAfter(scheme, host + ":" + digits);
    SeparatorsStayInHost(host, digits);
    LastPieceIsSuffix(host);
    ColonBeforePort(LastPiece(host), digits);
    PortRoundTrip(port);
    var authority := LastPiece(host) + ":" + digits;
    assert authority[..|LastPiece(host)|] == LastPiece(host);
    assert authority[|LastPiece(host)| + 1..] == digits;
  }

  // A port is a 16-bit number in decimal digits, with or without a plus sign before it.
  lemma PortIff(s: string, port: nat)
    ensures ParsePort(s) == Some(port)
       <==> && port < 0x1_0000
            && exists digits :: digits != "" && AllDigits(digits) && Value(digits) == port
                                && (s == digits || s == "+" + digits)
  {
    if ParsePort(s) == Some(port) {
      assert s[0] == '+' ==> s == "+" + s[1..];
    }
    if digits :| digits != "" && AllDigits(digits) && Value(digits) == port && (s == digits || s == "+" + digits) {
      assert digits[0] in digits;
      assert s[0] == '+' ==> s[1..] == digits;
    }
  }

  // ---- whose address it is ----------------------------------------------------------------------

  lemma FormattedEndpointParses(scheme: string, host: string, port: nat)
    requires port < 0x1_0000 && host != "" && !HasSeparator(host)
    ensures ParseHostProxy(Format(scheme, host, port)) == Ok(HostProxy(Format(scheme, host, port), host, port))
  {
    hide *;
    FormattedEndpointRoundTrips(scheme, host, port);
    ParsersAgree(Format(scheme, host, port));
    ParsedIsUsable(Format(scheme, host, port));
  }

  // A configured proxy is probed at its own host and port, and handed on under the scheme
  // of its protocol, for every host a URL can hold.
  lemma ConfiguredProxyIsUsed(c: ProxyConfig, over: Option<string>)
    requires c.port < 0x1_0000 && c.host != "" && !HasSeparator(c.host)
    ensures HostProxyEndpoint(Proxy(c), over)
         == Ok(HostProxy((if c.protocol == Socks5 then "socks5h://" else "http://") + c.host + ":" + Show(c.port),
                         c.host, c.port))
  {
    hide ParseHostProxy, Show;
    FormattedEndpointParses(Scheme(c.protocol), c.host, c.port);
    assert Scheme(c.protocol) + SEPARATOR == if c.protocol == Socks5 then "socks5h://" else "http://";
  }

  // In Tor mode an override that is not blank decides, and is handed on verbatim; without
  // one it is the local Tor port. A VPN has no proxy.
  lemma TorEndpointIs(over: Option<string>)
    ensures var r := HostProxyEndpoint(Tor, over);
            if over.None? || IsBlank(over.value)
            then r == Ok(HostProxy("socks5h://127.0.0.1:9050", "127.0.0.1", 9050))
            else r.Ok? ==> r.value.endpoint == over.value
    ensures HostProxyEndpoint(Vpn, over) == Err(Unsupported)
  {
    hide ParseHostProxy, Trim;
    DefaultEndpointParses();
    if over.Some? {
      BlankIff(over.value);
      ParsedIsUsable(over.value);
    }
  }

  // So an override that spells a host and a port is probed there.
  lemma OverrideIsUsed(scheme: string, host: string, port: nat)
    requires port < 0x1_0000 && host != "" && !HasSeparator(host)
    ensures var endpoint := scheme + "://" + host + ":" + Show(port);
            HostProxyEndpoint(Tor, Some(endpoint)) == Ok(HostProxy(endpoint, host, port))
  {
    hide ParseHostProxy, Trim, Show;
    var endpoint := Format(scheme, host, port);
    FormattedEndpointParses(scheme, host, port);
    assert ':' in endpoint && !IsSpace(':');
    BlankIff(endpoint);
  }

  lemma BlankIff(s: string)
    ensures Trim(s) == "" <==> IsBlank(s)
  {
    TrimmedIff(s, "");
    if IsBlank(s) {
      assert IsBlank("") && s == s + "" + "";
    }
  }

  lemma DefaultEndpointParses()
    ensures ParseHostProxy("socks5h://127.0.0.1:9050")
         == Ok(HostProxy("socks5h://127.0.0.1:9050", "127.0.0.1", 9050))
  {
    hide *;
    DefaultIsFormatted();
    FormattedEndpointParses("socks5h", "127.0.0.1", 9050);
  }

  lemma DefaultIsFormatted()
    ensures Format("socks5h", "127.0.0.1", 9050) == "socks5h://127.0.0.1:9050"
    ensures !HasSeparator("127.0.0.1")
  {
    assert Show(9) == "9" && Show(90) == "90" && Show(905) == "905" && Show(9050) == "9050";
  }
}
