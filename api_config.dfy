/**
 * The API server's address and its CORS allow-list, built from the
 * `[server]` and `[frontend.web]` / `[frontend.admin]` sections of the
 * configuration. Reading the file (`AppConfig::load`) is not modelled.
 */
module ApiConfig {

  import opened Wrappers
  import opened Text

  type Port = p: int | 0 <= p < 0x1_0000

  datatype ServerConfig = ServerConfig(host: string, port: Option<Port>)

  datatype FrontendConfigs = FrontendConfigs(web: ServerConfig, admin: ServerConfig)

  datatype AppConfig = AppConfig(server: ServerConfig, frontend: FrontendConfigs)

  /** `AppConfig::server_address`: "host:port", or the host alone without a port. */
  function ServerAddress(config: AppConfig): (address: string)
    ensures config.server.port.None? ==> address == config.server.host
    ensures config.server.port.Some? ==>
      && |address| > |config.server.host| + 1
      && address[..|config.server.host|] == config.server.host
      && address[|config.server.host|] == ':'
      && AllDigits(address[|config.server.host| + 1..])
      && ParseDigits(address[|config.server.host| + 1..]) == config.server.port.value
  {
    match config.server.port
    case Some(port) =>
      var address := config.server.host + ":" + NatToString(port);
      ParseNatToString(port);
      assert address[|config.server.host| + 1..] == NatToString(port);
      address
    case None => config.server.host
  }

  /** Splits an address at its last ':' when what follows is a port number. */
  function ParseAddress(address: string): (r: (string, Option<Port>))
  {
    var i := LastColon(address);
    if i < 0 then (address, None)
    else
      var digits := address[i + 1..];
      if |digits| > 0 && AllDigits(digits) && ParseDigits(digits) < 0x1_0000
      then (address[..i], Some(ParseDigits(digits) as Port))
      else (address, None)
  }

  /** Index of the last ':' in `s`, or -1. */
  function LastColon(s: string): (i: int)
    ensures -1 <= i < |s|
    ensures i >= 0 ==> s[i] == ':'
    ensures forall k :: i < k < |s| ==> s[k] != ':'
    decreases |s|
  {
    if s == [] then -1
    else if s[|s| - 1] == ':' then |s| - 1
    else LastColon(s[..|s| - 1])
  }

  /** A prefix, ':' and a port's digits split back at the last ':' into that prefix and port. */
  lemma {:induction false} AddressWithPortParses(prefix: string, port: Port)
    ensures ParseAddress(prefix + ":" + NatToString(port)) == (prefix, Some(port))
  {
    var digits := NatToString(port);
    var address := prefix + ":" + digits;
    assert address[|prefix|] == ':';
    assert forall k :: |prefix| < k < |address| ==> address[k] == digits[k - |prefix| - 1];
    var i := LastColon(address);
    assert i == |prefix|;
    assert address[i + 1..] == digits;
    assert address[..i] == prefix;
    ParseNatToString(port);
  }

  /**
   * The host and the optional port come back out of the address built from
   * them. With a port any host does; without one the host must not itself
   * contain ':'.
   */
  lemma {:induction false} ServerAddressRoundTrip(config: AppConfig)
    requires config.server.port.Some? || forall k :: 0 <= k < |config.server.host| ==> config.server.host[k] != ':'
    ensures ParseAddress(ServerAddress(config)) == (config.server.host, config.server.port)
  {
    var address := ServerAddress(config);
    match config.server.port
    case None =>
      assert LastColon(address) == -1;
    case Some(port) =>
      AddressWithPortParses(config.server.host, port);
  }

  /** Without the ':' restriction the address is ambiguous: host "h:80" alone reads like host "h" on port 80. */
  lemma ServerAddressNotInjective()
    ensures ServerAddress(AppConfig(ServerConfig("h:80", None), FrontendConfigs(ServerConfig("w", None), ServerConfig("a", None))))
         == ServerAddress(AppConfig(ServerConfig("h", Some(80)), FrontendConfigs(ServerConfig("w", None), ServerConfig("a", None))))
  {
    assert NatToString(80) == NatToString(8) + [DigitChar(0)];
  }

  /** The origins one frontend contributes, in the order they are pushed. */
  function FrontendOrigins(frontend: ServerConfig): (origins: seq<string>)
    ensures |origins| == if frontend.port.Some? then 2 else 1
    ensures frontend.port.None? ==> origins == [frontend.host]
  {
    match frontend.port
    case Some(port) =>
      ["http://" + frontend.host + ":" + NatToString(port), "http://localhost:" + NatToString(port)]
    case None => [frontend.host]
  }

  /** `AppConfig::cors_origins`: the web frontend's origins, then the admin frontend's. */
  method CorsOrigins(config: AppConfig) returns (origins: seq<string>)
    ensures origins == FrontendOrigins(config.frontend.web) + FrontendOrigins(config.frontend.admin)
  {
    origins := [];
    var web := config.frontend.web;
    match web.port {
      case Some(port) =>
        origins := origins + ["http://" + web.host + ":" + NatToString(port)];
        origins := origins + ["http://localhost:" + NatToString(port)];
      case None =>
        origins := origins + [web.host];
    }
    var admin := config.frontend.admin;
    match admin.port {
      case Some(port) =>
        origins := origins + ["http://" + admin.host + ":" + NatToString(port)];
        origins := origins + ["http://localhost:" + NatToString(port)];
      case None =>
        origins := origins + [admin.host];
    }
  }

  /**
   * Each origin pushed for a frontend with a port splits at its last ':'
   * into the http origin of the host (then of localhost) and that port.
   */
  lemma {:induction false} FrontendOriginsParseBack(frontend: ServerConfig)
    requires frontend.port.Some?
    ensures var origins := FrontendOrigins(frontend);
      && ParseAddress(origins[0]) == ("http://" + frontend.host, frontend.port)
      && ParseAddress(origins[1]) == ("http://localhost", frontend.port)
  {
    var port := frontend.port.value;
    AddressWithPortParses("http://" + frontend.host, port);
    AddressWithPortParses("http://localhost", port);
    assert "http://localhost:" + NatToString(port) == "http://localhost" + ":" + NatToString(port);
  }

  /** The allow-list has two to four entries, one more for each frontend with a port. */
  lemma CorsOriginsCount(config: AppConfig)
    ensures var n := |FrontendOrigins(config.frontend.web) + FrontendOrigins(config.frontend.admin)|;
      && n == 2 + (if config.frontend.web.port.Some? then 1 else 0) + (if config.frontend.admin.port.Some? then 1 else 0)
      && 2 <= n <= 4
  {
  }
}
