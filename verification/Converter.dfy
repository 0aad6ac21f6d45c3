/** Translation of a module spec into the configuration type of the upstream exporter. */
module Converter {
  import opened Base
  import opened Api

  // ---- upstream configuration ----

  datatype Regexp = Regexp(source: string)

  datatype HeaderMatch = HeaderMatch(header: string, regexp: Regexp, allowMissing: bool)

  datatype TLSSettings = TLSSettings(
    insecureSkipVerify: bool,
    serverName: string,
    minVersion: nat,
    maxVersion: nat,
    ca: string,
    cert: string,
    key: string)

  datatype BasicAuthSettings = BasicAuthSettings(username: string, password: string)

  datatype OAuth2Settings = OAuth2Settings(clientID: string, clientSecret: string, tokenURL: string, scopes: seq<string>)

  datatype HTTPProbe = HTTPProbe(
    httpMethod: string,
    headers: Option<map<string, string>>,
    body: string,
    validStatusCodes: seq<int>,
    validHTTPVersions: seq<string>,
    followRedirects: bool,
    failIfSSL: bool,
    failIfNotSSL: bool,
    failIfBodyMatchesRegexp: seq<Regexp>,
    failIfBodyNotMatchesRegexp: seq<Regexp>,
    failIfHeaderMatchesRegexp: seq<HeaderMatch>,
    failIfHeaderNotMatchesRegexp: seq<HeaderMatch>,
    ipProtocol: string,
    tlsConfig: TLSSettings,
    proxyURL: Option<string>,
    basicAuth: Option<BasicAuthSettings>,
    oauth2: Option<OAuth2Settings>)

  datatype QueryResponse = QueryResponse(send: string, expected: Option<Regexp>, startTLS: bool)

  datatype TCPProbe = TCPProbe(ipProtocol: string, tls: bool, tlsConfig: TLSSettings, queryResponse: seq<QueryResponse>)

  datatype DNSProbe = DNSProbe(
    queryName: string,
    queryType: string,
    queryClass: string,
    recursion: bool,
    validRcodes: seq<string>,
    transportProtocol: string,
    dnsOverTLS: bool,
    ipProtocol: string,
    validateAnswer: Option<DNSRRValidator>,
    validateAuthority: Option<DNSRRValidator>,
    validateAdditional: Option<DNSRRValidator>)

  datatype ICMPProbe = ICMPProbe(ipProtocol: string, payloadSize: int, dontFragment: bool, ttl: int, sourceIPAddress: string)

  datatype GRPCProbe = GRPCProbe(service: string, tls: bool, preferredIPProtocol: string, tlsConfig: TLSSettings)

  datatype UnixProbe = UnixProbe(queryResponse: seq<QueryResponse>)

  datatype WebsocketProbe = WebsocketProbe(headers: Option<map<string, seq<string>>>)

  /** A section that the upstream type leaves at its zero value is None here. */
  datatype ExporterModule = ExporterModule(
    prober: string,
    timeout: int,
    http: Option<HTTPProbe>,
    tcp: Option<TCPProbe>,
    dns: Option<DNSProbe>,
    icmp: Option<ICMPProbe>,
    grpc: Option<GRPCProbe>,
    unix: Option<UnixProbe>,
    websocket: Option<WebsocketProbe>)

  const ZERO_MODULE := ExporterModule("", 0, None, None, None, None, None, None, None)

  datatype Defaults = Defaults(
    http: HTTPProbe,
    tcp: TCPProbe,
    dns: DNSProbe,
    icmp: ICMPProbe,
    grpc: GRPCProbe,
    websocket: WebsocketProbe)

  /** Library behaviour the model does not define: any total functions will do. */
  datatype Lib = Lib(
    parseDuration: string -> Result<int, string>,
    compiles: string -> bool,
    parseURL: string -> Option<string>,
    quote: string -> string,
    render: map<string, ExporterModule> -> string,
    defaults: Defaults)

  datatype ResolvedSecrets = ResolvedSecrets(
    basicAuthPassword: string,
    oauth2ClientSecret: string,
    tlsCA: string,
    tlsCert: string,
    tlsKey: string)

  const NO_SECRETS := ResolvedSecrets("", "", "", "", "")

  /** An error return carries the module built so far; MustNewRegexp panics on a pattern that does not compile. */
  datatype Conversion =
    | Converted(m: ExporterModule)
    | Rejected(partial: ExporterModule, message: string)
    | Panics

  // ---- sections ----

  datatype Section = HTTP | TCP | DNS | ICMP | GRPC | UNIX | WEBSOCKET

  predicate IsSet(spec: ModuleSpec, s: Section) {
    match s
    case HTTP => spec.http.Some?
    case TCP => spec.tcp.Some?
    case DNS => spec.dns.Some?
    case ICMP => spec.icmp.Some?
    case GRPC => spec.grpc.Some?
    case UNIX => spec.unix.Some?
    case WEBSOCKET => spec.websocket.Some?
  }

  function Prober(s: Section): string {
    match s
    case HTTP => "http"
    case TCP => "tcp"
    case DNS => "dns"
    case ICMP => "icmp"
    case GRPC => "grpc"
    case UNIX => "tcp"
    case WEBSOCKET => "websocket"
  }

  /** The section the switch of the source takes. */
  function Chosen(spec: ModuleSpec): (r: Option<Section>)
    ensures r.Some? ==> IsSet(spec, r.value)
    ensures r.None? ==> forall s :: !IsSet(spec, s)
  {
    if spec.http.Some? then Some(HTTP)
    else if spec.tcp.Some? then Some(TCP)
    else if spec.dns.Some? then Some(DNS)
    else if spec.icmp.Some? then Some(ICMP)
    else if spec.grpc.Some? then Some(GRPC)
    else if spec.unix.Some? then Some(UNIX)
    else if spec.websocket.Some? then Some(WEBSOCKET)
    else None
  }

  /** The section a switch whose cases stand in another order takes. */
  function FirstSet(order: seq<Section>, spec: ModuleSpec): (r: Option<Section>)
    ensures r.Some? ==> r.value in order && IsSet(spec, r.value)
    ensures r.None? ==> forall s :: s in order ==> !IsSet(spec, s)
  {
    if order == [] then None
    else if IsSet(spec, order[0]) then Some(order[0])
    else FirstSet(order[1..], spec)
  }

  // ---- the patterns a section compiles ----

  function HeaderPatterns(hs: seq<HeaderMatchConfig>): seq<string> {
    seq(|hs|, i requires 0 <= i < |hs| => hs[i].regexp)
  }

  function Expectations(qs: seq<QueryResponseConfig>): seq<string> {
    if qs == [] then []
    else (if qs[0].expected != "" then [qs[0].expected] else []) + Expectations(qs[1..])
  }

  function Patterns(spec: ModuleSpec, s: Section): seq<string>
    requires IsSet(spec, s)
  {
    match s
    case HTTP =>
      var h := spec.http.value;
      h.failIfBodyMatchesRegexp + h.failIfBodyNotMatchesRegexp
      + HeaderPatterns(h.failIfHeaderMatchesRegexp) + HeaderPatterns(h.failIfHeaderNotMatchesRegexp)
    case TCP => Expectations(spec.tcp.value.queryResponse)
    case UNIX => Expectations(spec.unix.value.queryResponse)
    case _ => []
  }

  ghost predicate AllCompile(lib: Lib, patterns: seq<string>) {
    forall p :: p in patterns ==> lib.compiles(p)
  }

  // ---- what each section becomes ----

  function Regexps(ps: seq<string>): seq<Regexp> {
    seq(|ps|, i requires 0 <= i < |ps| => Regexp(ps[i]))
  }

  function HeaderMatches(hs: seq<HeaderMatchConfig>): seq<HeaderMatch> {
    seq(|hs|, i requires 0 <= i < |hs| => HeaderMatch(hs[i].header, Regexp(hs[i].regexp), hs[i].allowMissing))
  }

  function QueryResponses(qs: seq<QueryResponseConfig>): seq<QueryResponse> {
    seq(|qs|, i requires 0 <= i < |qs| =>
      QueryResponse(qs[i].send, if qs[i].expected != "" then Some(Regexp(qs[i].expected)) else None, qs[i].startTLS))
  }

  function OrElse(s: string, default: string): string {
    if s != "" then s else default
  }

  function TLSVersion(name: string): nat {
    match name
    case "TLS10" => 0x0301
    case "TLS11" => 0x0302
    case "TLS12" => 0x0303
    case "TLS13" => 0x0304
    case _ => 0
  }

  function TLSOf(spec: TLSConfig, secrets: Option<ResolvedSecrets>): TLSSettings {
    var r := if secrets.Some? then secrets.value else NO_SECRETS;
    TLSSettings(spec.insecureSkipVerify, spec.serverName, TLSVersion(spec.minVersion), TLSVersion(spec.maxVersion),
                r.tlsCA, r.tlsCert, r.tlsKey)
  }

  /** The fields that are copied over the default when they are set. */
  function HTTPPlain(d: HTTPProbe, spec: HTTPProbeConfig): HTTPProbe {
    d.(httpMethod := OrElse(spec.httpMethod, d.httpMethod),
       headers := if spec.headers.Some? then spec.headers else d.headers,
       body := OrElse(spec.body, d.body),
       validStatusCodes := if spec.validStatusCodes != [] then spec.validStatusCodes else d.validStatusCodes,
       validHTTPVersions := if spec.validHTTPVersions != [] then spec.validHTTPVersions else d.validHTTPVersions,
       followRedirects := if spec.followRedirects.Some? then spec.followRedirects.value else d.followRedirects,
       failIfSSL := spec.failIfSSL,
       failIfNotSSL := spec.failIfNotSSL)
  }

  function HTTPPatterns(d: HTTPProbe, spec: HTTPProbeConfig): HTTPProbe {
    d.(failIfBodyMatchesRegexp := d.failIfBodyMatchesRegexp + Regexps(spec.failIfBodyMatchesRegexp),
       failIfBodyNotMatchesRegexp := d.failIfBodyNotMatchesRegexp + Regexps(spec.failIfBodyNotMatchesRegexp),
       failIfHeaderMatchesRegexp := d.failIfHeaderMatchesRegexp + HeaderMatches(spec.failIfHeaderMatchesRegexp),
       failIfHeaderNotMatchesRegexp := d.failIfHeaderNotMatchesRegexp + HeaderMatches(spec.failIfHeaderNotMatchesRegexp))
  }

  function HTTPClient(lib: Lib, d: HTTPProbe, spec: HTTPProbeConfig, secrets: Option<ResolvedSecrets>): HTTPProbe {
    var r := if secrets.Some? then secrets.value else NO_SECRETS;
    d.(ipProtocol := OrElse(spec.preferredIPProtocol, d.ipProtocol),
       tlsConfig := if spec.tlsConfig.Some? then TLSOf(spec.tlsConfig.value, secrets) else d.tlsConfig,
       proxyURL := if spec.proxyURL != "" && lib.parseURL(spec.proxyURL).Some? then lib.parseURL(spec.proxyURL) else d.proxyURL,
       basicAuth := if spec.basicAuth.Some? then
         Some(BasicAuthSettings(spec.basicAuth.value.username, r.basicAuthPassword)) else d.basicAuth,
       oauth2 := if spec.oauth2.Some? then
         var o := spec.oauth2.value;
         Some(OAuth2Settings(o.clientID, r.oauth2ClientSecret, o.tokenURL, o.scopes))
       else d.oauth2)
  }

  function HTTPOf(lib: Lib, spec: HTTPProbeConfig, secrets: Option<ResolvedSecrets>): HTTPProbe {
    HTTPClient(lib, HTTPPatterns(HTTPPlain(lib.defaults.http, spec), spec), spec, secrets)
  }

  function TCPOf(lib: Lib, spec: TCPProbeConfig, secrets: Option<ResolvedSecrets>): TCPProbe {
    var d := lib.defaults.tcp;
    TCPProbe(
      OrElse(spec.preferredIPProtocol, d.ipProtocol),
      spec.tls,
      if spec.tlsConfig.Some? then TLSOf(spec.tlsConfig.value, secrets) else d.tlsConfig,
      d.queryResponse + QueryResponses(spec.queryResponse))
  }

  function DNSOf(lib: Lib, spec: DNSProbeConfig): DNSProbe {
    var d := lib.defaults.dns;
    DNSProbe(
      spec.queryName,
      OrElse(spec.queryType, d.queryType),
      OrElse(spec.queryClass, d.queryClass),
      if spec.recursionDesired.Some? then spec.recursionDesired.value else d.recursion,
      if spec.validRcodes != [] then spec.validRcodes else d.validRcodes,
      OrElse(spec.transportProtocol, d.transportProtocol),
      spec.dnsOverTLS,
      OrElse(spec.preferredIPProtocol, d.ipProtocol),
      if spec.validateAnswer.Some? then spec.validateAnswer else d.validateAnswer,
      if spec.validateAuthority.Some? then spec.validateAuthority else d.validateAuthority,
      if spec.validateAdditional.Some? then spec.validateAdditional else d.validateAdditional)
  }

  function ICMPOf(lib: Lib, spec: ICMPProbeConfig): ICMPProbe {
    var d := lib.defaults.icmp;
    ICMPProbe(
      OrElse(spec.preferredIPProtocol, d.ipProtocol),
      if spec.payloadSize > 0 then spec.payloadSize else d.payloadSize,
      spec.dontFragment,
      if spec.ttl > 0 then spec.ttl else d.ttl,
      OrElse(spec.sourceIPAddress, d.sourceIPAddress))
  }

  function GRPCOf(lib: Lib, spec: GRPCProbeConfig, secrets: Option<ResolvedSecrets>): GRPCProbe {
    var d := lib.defaults.grpc;
    GRPCProbe(
      spec.service,
      spec.tls,
      OrElse(spec.preferredIPProtocol, d.preferredIPProtocol),
      if spec.tlsConfig.Some? then TLSOf(spec.tlsConfig.value, secrets) else d.tlsConfig)
  }

  function WebsocketOf(lib: Lib, spec: WebsocketProbeConfig): WebsocketProbe {
    if |spec.headers| > 0 then
      WebsocketProbe(Some(map name | name in spec.headers :: [spec.headers[name]]))
    else
      lib.defaults.websocket
  }

  function SectionOf(lib: Lib, spec: ModuleSpec, s: Section, secrets: Option<ResolvedSecrets>, m: ExporterModule): ExporterModule
    requires IsSet(spec, s)
  {
    match s
    case HTTP => m.(http := Some(HTTPOf(lib, spec.http.value, secrets)))
    case TCP => m.(tcp := Some(TCPOf(lib, spec.tcp.value, secrets)))
    case DNS => m.(dns := Some(DNSOf(lib, spec.dns.value)))
    case ICMP => m.(icmp := Some(ICMPOf(lib, spec.icmp.value)))
    case GRPC => m.(grpc := Some(GRPCOf(lib, spec.grpc.value, secrets)))
    case UNIX => m.(unix := Some(UnixProbe(QueryResponses(spec.unix.value.queryResponse))))
    case WEBSOCKET => m.(websocket := Some(WebsocketOf(lib, spec.websocket.value)))
  }

  function InvalidTimeout(lib: Lib, timeout: string, cause: string): string {
    "invalid timeout " + lib.quote(timeout) + ": " + cause
  }

  /** The result of converting a spec when the switch takes the case `choice`. */
  ghost function ConvertAs(choice: Option<Section>, lib: Lib, spec: ModuleSpec, secrets: Option<ResolvedSecrets>): Conversion
    requires choice.Some? ==> IsSet(spec, choice.value)
  {
    match lib.parseDuration(spec.timeout)
    case Err(cause) => Rejected(ZERO_MODULE, InvalidTimeout(lib, spec.timeout, cause))
    case Ok(d) =>
      match choice
      case None => Rejected(ZERO_MODULE.(timeout := d), "no prober configuration set")
      case Some(s) =>
        if AllCompile(lib, Patterns(spec, s)) then
          Converted(SectionOf(lib, spec, s, secrets, ZERO_MODULE.(timeout := d, prober := Prober(s))))
        else
          Panics
  }

  ghost function Convert(lib: Lib, spec: ModuleSpec, secrets: Option<ResolvedSecrets>): Conversion {
    ConvertAs(Chosen(spec), lib, spec, secrets)
  }

  // ---- the conversion as the source performs it: copy a default, overwrite, append in loops ----
  // A result of None stands for the panic of MustNewRegexp.

  method CompileRegexps(lib: Lib, start: seq<Regexp>, patterns: seq<string>) returns (r: Option<seq<Regexp>>)
    ensures r == if AllCompile(lib, patterns) then Some(start + Regexps(patterns)) else None
  {
    var out := start;
    for i := 0 to |patterns|
      invariant AllCompile(lib, patterns[..i])
      invariant out == start + Regexps(patterns[..i])
    {
      if !lib.compiles(patterns[i]) {
        assert patterns[i] in patterns;
        return None;
      }
      out := out + [Regexp(patterns[i])];
      assert Regexps(patterns[..i + 1]) == Regexps(patterns[..i]) + [Regexp(patterns[i])];
    }
    assert patterns[..|patterns|] == patterns;
    return Some(out);
  }

  method CompileHeaderMatches(lib: Lib, start: seq<HeaderMatch>, hs: seq<HeaderMatchConfig>) returns (r: Option<seq<HeaderMatch>>)
    ensures r == if AllCompile(lib, HeaderPatterns(hs)) then Some(start + HeaderMatches(hs)) else None
  {
    var out := start;
    for i := 0 to |hs|
      invariant forall j :: 0 <= j < i ==> lib.compiles(hs[j].regexp)
      invariant out == start + HeaderMatches(hs[..i])
    {
      if !lib.compiles(hs[i].regexp) {
        assert HeaderPatterns(hs)[i] in HeaderPatterns(hs);
        return None;
      }
      out := out + [HeaderMatch(hs[i].header, Regexp(hs[i].regexp), hs[i].allowMissing)];
      assert HeaderMatches(hs[..i + 1]) == HeaderMatches(hs[..i]) + [HeaderMatch(hs[i].header, Regexp(hs[i].regexp), hs[i].allowMissing)];
    }
    assert hs[..|hs|] == hs;
    return Some(out);
  }

  lemma ExpectationsAppend(a: seq<QueryResponseConfig>, q: QueryResponseConfig)
    ensures Expectations(a + [q]) == Expectations(a) + (if q.expected != "" then [q.expected] else [])
  {
    if a == [] {
      assert [q][1..] == [];
    } else {
      assert (a + [q])[1..] == a[1..] + [q];
    }
  }

  lemma ExpectationsMember(qs: seq<QueryResponseConfig>, i: nat)
    requires i < |qs| && qs[i].expected != ""
    ensures qs[i].expected in Expectations(qs)
  {
    if i > 0 {
      ExpectationsMember(qs[1..], i - 1);
    }
  }

  method CompileQueryResponses(lib: Lib, start: seq<QueryResponse>, qs: seq<QueryResponseConfig>) returns (r: Option<seq<QueryResponse>>)
    ensures r == if AllCompile(lib, Expectations(qs)) then Some(start + QueryResponses(qs)) else None
  {
    var out := start;
    for i := 0 to |qs|
      invariant AllCompile(lib, Expectations(qs[..i]))
      invariant out == start + QueryResponses(qs[..i])
    {
      var entry := QueryResponse(qs[i].send, None, qs[i].startTLS);
      if qs[i].expected != "" {
        if !lib.compiles(qs[i].expected) {
          ExpectationsMember(qs, i);
          return None;
        }
        entry := entry.(expected := Some(Regexp(qs[i].expected)));
      }
      out := out + [entry];
      ExpectationsAppend(qs[..i], qs[i]);
      assert qs[..i + 1] == qs[..i] + [qs[i]];
      assert QueryResponses(qs[..i + 1]) == QueryResponses(qs[..i]) + [entry];
    }
    assert qs[..|qs|] == qs;
    return Some(out);
  }

  method ConvertTLSConfig(spec: TLSConfig, secrets: Option<ResolvedSecrets>) returns (r: TLSSettings)
    ensures r == TLSOf(spec, secrets)
  {
    r := TLSSettings(spec.insecureSkipVerify, spec.serverName, 0, 0, "", "", "");
    var versions := map["TLS10" := 0x0301, "TLS11" := 0x0302, "TLS12" := 0x0303, "TLS13" := 0x0304];
    if spec.minVersion in versions {
      r := r.(minVersion := versions[spec.minVersion]);
    }
    if spec.maxVersion in versions {
      r := r.(maxVersion := versions[spec.maxVersion]);
    }
    if secrets.Some? {
      if secrets.value.tlsCA != "" {
        r := r.(ca := secrets.value.tlsCA);
      }
      if secrets.value.tlsCert != "" {
        r := r.(cert := secrets.value.tlsCert);
      }
      if secrets.value.tlsKey != "" {
        r := r.(key := secrets.value.tlsKey);
      }
    }
  }

  method CopyHTTPFields(start: HTTPProbe, spec: HTTPProbeConfig) returns (probe: HTTPProbe)
    ensures probe == HTTPPlain(start, spec)
  {
    var httpMethod, headers, body := start.httpMethod, start.headers, start.body;
    var codes, versions, follow := start.validStatusCodes, start.validHTTPVersions, start.followRedirects;
    if spec.httpMethod != "" {
      httpMethod := spec.httpMethod;
    }
    if spec.headers.Some? {
      headers := spec.headers;
    }
    if spec.body != "" {
      body := spec.body;
    }
    if |spec.validStatusCodes| > 0 {
      codes := spec.validStatusCodes;
    }
    if |spec.validHTTPVersions| > 0 {
      versions := spec.validHTTPVersions;
    }
    if spec.followRedirects.Some? {
      follow := spec.followRedirects.value;
    }
    probe := start.(
      httpMethod := httpMethod, headers := headers, body := body,
      validStatusCodes := codes, validHTTPVersions := versions, followRedirects := follow,
      failIfSSL := spec.failIfSSL, failIfNotSSL := spec.failIfNotSSL);
  }

  ghost predicate HTTPPatternsCompile(lib: Lib, spec: HTTPProbeConfig) {
    && AllCompile(lib, spec.failIfBodyMatchesRegexp)
    && AllCompile(lib, spec.failIfBodyNotMatchesRegexp)
    && AllCompile(lib, HeaderPatterns(spec.failIfHeaderMatchesRegexp))
    && AllCompile(lib, HeaderPatterns(spec.failIfHeaderNotMatchesRegexp))
  }

  method AppendHTTPPatterns(lib: Lib, start: HTTPProbe, spec: HTTPProbeConfig) returns (r: Option<HTTPProbe>)
    ensures r == if HTTPPatternsCompile(lib, spec) then Some(HTTPPatterns(start, spec)) else None
  {
    var bodyMatches := CompileRegexps(lib, start.failIfBodyMatchesRegexp, spec.failIfBodyMatchesRegexp);
    if bodyMatches.None? { return None; }
    var bodyNotMatches := CompileRegexps(lib, start.failIfBodyNotMatchesRegexp, spec.failIfBodyNotMatchesRegexp);
    if bodyNotMatches.None? { return None; }
    var headerMatches := CompileHeaderMatches(lib, start.failIfHeaderMatchesRegexp, spec.failIfHeaderMatchesRegexp);
    if headerMatches.None? { return None; }
    var headerNotMatches := CompileHeaderMatches(lib, start.failIfHeaderNotMatchesRegexp, spec.failIfHeaderNotMatchesRegexp);
    if headerNotMatches.None? { return None; }
    return Some(start.(
      failIfBodyMatchesRegexp := bodyMatches.value,
      failIfBodyNotMatchesRegexp := bodyNotMatches.value,
      failIfHeaderMatchesRegexp := headerMatches.value,
      failIfHeaderNotMatchesRegexp := headerNotMatches.value));
  }

  method SetHTTPClient(lib: Lib, start: HTTPProbe, spec: HTTPProbeConfig, secrets: Option<ResolvedSecrets>) returns (probe: HTTPProbe)
    ensures probe == HTTPClient(lib, start, spec, secrets)
  {
    var ipProtocol, tlsConfig, proxyURL := start.ipProtocol, start.tlsConfig, start.proxyURL;
    var basicAuth, oauth2 := start.basicAuth, start.oauth2;
    if spec.preferredIPProtocol != "" {
      ipProtocol := spec.preferredIPProtocol;
    }
    if spec.tlsConfig.Some? {
      tlsConfig := ConvertTLSConfig(spec.tlsConfig.value, secrets);
    }
    if spec.proxyURL != "" {
      var parsed := lib.parseURL(spec.proxyURL);
      if parsed.Some? {
        proxyURL := parsed;
      }
    }
    if spec.basicAuth.Some? {
      var password := "";
      if secrets.Some? && secrets.value.basicAuthPassword != "" {
        password := secrets.value.basicAuthPassword;
      }
      basicAuth := Some(BasicAuthSettings(spec.basicAuth.value.username, password));
    }
    if spec.oauth2.Some? {
      var o := spec.oauth2.value;
      var clientSecret := "";
      if secrets.Some? && secrets.value.oauth2ClientSecret != "" {
        clientSecret := secrets.value.oauth2ClientSecret;
      }
      oauth2 := Some(OAuth2Settings(o.clientID, clientSecret, o.tokenURL, o.scopes));
    }
    probe := start.(
      ipProtocol := ipProtocol, tlsConfig := tlsConfig, proxyURL := proxyURL, basicAuth := basicAuth, oauth2 := oauth2);
  }

  method ConvertHTTPProbe(lib: Lib, spec: HTTPProbeConfig, secrets: Option<ResolvedSecrets>) returns (r: Option<HTTPProbe>)
    ensures r == if HTTPPatternsCompile(lib, spec) then Some(HTTPOf(lib, spec, secrets)) else None
  {
    var probe := CopyHTTPFields(lib.defaults.http, spec);
    var withPatterns := AppendHTTPPatterns(lib, probe, spec);
    if withPatterns.None? {
      return None;
    }
    probe := SetHTTPClient(lib, withPatterns.value, spec, secrets);
    return Some(probe);
  }

  method ConvertTCPProbe(lib: Lib, spec: TCPProbeConfig, secrets: Option<ResolvedSecrets>) returns (r: Option<TCPProbe>)
    ensures r == if AllCompile(lib, Expectations(spec.queryResponse)) then Some(TCPOf(lib, spec, secrets)) else None
  {
    var probe := lib.defaults.tcp.(tls := spec.tls);
    if spec.preferredIPProtocol != "" {
      probe := probe.(ipProtocol := spec.preferredIPProtocol);
    }
    if spec.tlsConfig.Some? {
      var tls := ConvertTLSConfig(spec.tlsConfig.value, secrets);
      probe := probe.(tlsConfig := tls);
    }
    var qs := CompileQueryResponses(lib, probe.queryResponse, spec.queryResponse);
    if qs.None? { return None; }
    return Some(probe.(queryResponse := qs.value));
  }

  method ConvertDNSProbe(lib: Lib, spec: DNSProbeConfig) returns (r: DNSProbe)
    ensures r == DNSOf(lib, spec)
  {
    var d := lib.defaults.dns;
    var queryType, queryClass, recursion, rcodes := d.queryType, d.queryClass, d.recursion, d.validRcodes;
    var transport, ipProtocol := d.transportProtocol, d.ipProtocol;
    var answer, authority, additional := d.validateAnswer, d.validateAuthority, d.validateAdditional;
    if spec.queryType != "" { queryType := spec.queryType; }
    if spec.queryClass != "" { queryClass := spec.queryClass; }
    if spec.recursionDesired.Some? { recursion := spec.recursionDesired.value; }
    if |spec.validRcodes| > 0 { rcodes := spec.validRcodes; }
    if spec.transportProtocol != "" { transport := spec.transportProtocol; }
    if spec.preferredIPProtocol != "" { ipProtocol := spec.preferredIPProtocol; }
    if spec.validateAnswer.Some? { answer := spec.validateAnswer; }
    if spec.validateAuthority.Some? { authority := spec.validateAuthority; }
    if spec.validateAdditional.Some? { additional := spec.validateAdditional; }
    r := d.(
      queryName := spec.queryName, queryType := queryType, queryClass := queryClass, recursion := recursion,
      validRcodes := rcodes, transportProtocol := transport, dnsOverTLS := spec.dnsOverTLS, ipProtocol := ipProtocol,
      validateAnswer := answer, validateAuthority := authority, validateAdditional := additional);
  }

  method ConvertICMPProbe(lib: Lib, spec: ICMPProbeConfig) returns (r: ICMPProbe)
    ensures r == ICMPOf(lib, spec)
  {
    r := lib.defaults.icmp;
    if spec.preferredIPProtocol != "" {
      r := r.(ipProtocol := spec.preferredIPProtocol);
    }
    if spec.payloadSize > 0 {
      r := r.(payloadSize := spec.payloadSize);
    }
    r := r.(dontFragment := spec.dontFragment);
    if spec.ttl > 0 {
      r := r.(ttl := spec.ttl);
    }
    if spec.sourceIPAddress != "" {
      r := r.(sourceIPAddress := spec.sourceIPAddress);
    }
  }

  method ConvertGRPCProbe(lib: Lib, spec: GRPCProbeConfig, secrets: Option<ResolvedSecrets>) returns (r: GRPCProbe)
    ensures r == GRPCOf(lib, spec, secrets)
  {
    r := lib.defaults.grpc.(service := spec.service, tls := spec.tls);
    if spec.preferredIPProtocol != "" {
      r := r.(preferredIPProtocol := spec.preferredIPProtocol);
    }
    if spec.tlsConfig.Some? {
      var tls := ConvertTLSConfig(spec.tlsConfig.value, secrets);
      r := r.(tlsConfig := tls);
    }
  }

  method ConvertUnixProbe(lib: Lib, spec: UnixProbeConfig) returns (r: Option<UnixProbe>)
    ensures r == if AllCompile(lib, Expectations(spec.queryResponse)) then Some(UnixProbe(QueryResponses(spec.queryResponse))) else None
  {
    var qs := CompileQueryResponses(lib, [], spec.queryResponse);
    assert [] + QueryResponses(spec.queryResponse) == QueryResponses(spec.queryResponse);
    r := if qs.None? then None else Some(UnixProbe(qs.value));
  }

  method ConvertWebsocketProbe(lib: Lib, spec: WebsocketProbeConfig) returns (r: WebsocketProbe)
    ensures r == WebsocketOf(lib, spec)
  {
    r := lib.defaults.websocket;
    if |spec.headers| > 0 {
      var headers: map<string, seq<string>> := map[];
      var rest := spec.headers.Keys;
      while rest != {}
        invariant rest <= spec.headers.Keys
        invariant headers == map name | name in spec.headers && name !in rest :: [spec.headers[name]]
      {
        var name :| name in rest;
        headers := headers[name := [spec.headers[name]]];
        rest := rest - {name};
      }
      assert headers == map name | name in spec.headers :: [spec.headers[name]];
      r := r.(headers := Some(headers));
    }
  }

  method ConvertModule(lib: Lib, spec: ModuleSpec, secrets: Option<ResolvedSecrets>) returns (r: Conversion)
    ensures r == Convert(lib, spec, secrets)
  {
    var m := ZERO_MODULE;
    var timeout := lib.parseDuration(spec.timeout);
    if timeout.Err? {
      return Rejected(m, InvalidTimeout(lib, spec.timeout, timeout.error));
    }
    m := m.(timeout := timeout.value);
    if spec.http.Some? {
      var probe := ConvertHTTPProbe(lib, spec.http.value, secrets);
      PatternsOfHTTP(lib, spec);
      r := if probe.None? then Panics else Converted(m.(prober := "http", http := probe));
    } else if spec.tcp.Some? {
      var probe := ConvertTCPProbe(lib, spec.tcp.value, secrets);
      r := if probe.None? then Panics else Converted(m.(prober := "tcp", tcp := probe));
    } else if spec.dns.Some? {
      var probe := ConvertDNSProbe(lib, spec.dns.value);
      r := Converted(m.(prober := "dns", dns := Some(probe)));
    } else if spec.icmp.Some? {
      var probe := ConvertICMPProbe(lib, spec.icmp.value);
      r := Converted(m.(prober := "icmp", icmp := Some(probe)));
    } else if spec.grpc.Some? {
      var probe := ConvertGRPCProbe(lib, spec.grpc.value, secrets);
      r := Converted(m.(prober := "grpc", grpc := Some(probe)));
    } else if spec.unix.Some? {
      var probe := ConvertUnixProbe(lib, spec.unix.value);
      r := if probe.None? then Panics else Converted(m.(prober := "tcp", unix := probe));
    } else if spec.websocket.Some? {
      var probe := ConvertWebsocketProbe(lib, spec.websocket.value);
      r := Converted(m.(prober := "websocket", websocket := Some(probe)));
    } else {
      r := Rejected(m, "no prober configuration set");
    }
  }

  lemma PatternsOfHTTP(lib: Lib, spec: ModuleSpec)
    requires spec.http.Some?
    ensures AllCompile(lib, Patterns(spec, HTTP)) <==> HTTPPatternsCompile(lib, spec.http.value)
  {
    var h := spec.http.value;
    var a, b := h.failIfBodyMatchesRegexp, h.failIfBodyNotMatchesRegexp;
    var c, d := HeaderPatterns(h.failIfHeaderMatchesRegexp), HeaderPatterns(h.failIfHeaderNotMatchesRegexp);
    assert forall p :: p in Patterns(spec, HTTP) <==> p in a || p in b || p in c || p in d;
  }

  // ---- what of a section reaches the exporter ----

  function WithDNSDefault(lib: Lib, d: DNSProbe): Lib {
    lib.(defaults := lib.defaults.(dns := d))
  }

  function WithICMPDefault(lib: Lib, d: ICMPProbe): Lib {
    lib.(defaults := lib.defaults.(icmp := d))
  }

  function WithGRPCDefault(lib: Lib, d: GRPCProbe): Lib {
    lib.(defaults := lib.defaults.(grpc := d))
  }

  /** A text that neither section holds. */
  function Neither(a: string, b: string): string {
    a + b + "-"
  }

  lemma NeitherIs(a: string, b: string)
    ensures Neither(a, b) != a && Neither(a, b) != b && Neither(a, b) != ""
  {
    assert |Neither(a, b)| == |a| + |b| + 1;
  }

  /** A default that shows which fields of two sections are set, and to what. */
  function TellingDNS(a: DNSProbeConfig, b: DNSProbeConfig): DNSProbe {
    var recursion := if a.recursionDesired.Some? then !a.recursionDesired.value
                     else b.recursionDesired.Some? && !b.recursionDesired.value;
    DNSProbe("", Neither(a.queryType, b.queryType), Neither(a.queryClass, b.queryClass), recursion,
             a.validRcodes + b.validRcodes + [""], Neither(a.transportProtocol, b.transportProtocol), false,
             Neither(a.preferredIPProtocol, b.preferredIPProtocol), None, None, None)
  }

  /** Nothing of a DNS section is lost: two sections convert alike over every default exactly if they are equal. */
  lemma DNSSectionKeptExactly(lib: Lib, a: DNSProbeConfig, b: DNSProbeConfig)
    ensures (forall d :: DNSOf(WithDNSDefault(lib, d), a) == DNSOf(WithDNSDefault(lib, d), b)) <==> a == b
  {
    var d := TellingDNS(a, b);
    if DNSOf(WithDNSDefault(lib, d), a) == DNSOf(WithDNSDefault(lib, d), b) {
      NeitherIs(a.queryType, b.queryType);
      NeitherIs(a.queryClass, b.queryClass);
      NeitherIs(a.transportProtocol, b.transportProtocol);
      NeitherIs(a.preferredIPProtocol, b.preferredIPProtocol);
      assert |d.validRcodes| == |a.validRcodes| + |b.validRcodes| + 1;
      assert a.validRcodes == b.validRcodes;
    }
  }

  /** Equal, except that all numbers below one are the same. */
  predicate SameICMP(a: ICMPProbeConfig, b: ICMPProbeConfig) {
    && a.preferredIPProtocol == b.preferredIPProtocol && a.dontFragment == b.dontFragment
    && a.sourceIPAddress == b.sourceIPAddress
    && (a.payloadSize == b.payloadSize || (a.payloadSize <= 0 && b.payloadSize <= 0))
    && (a.ttl == b.ttl || (a.ttl <= 0 && b.ttl <= 0))
  }

  /** Two ICMP sections convert alike over every default exactly if they differ at most in numbers below one. */
  lemma ICMPSectionKeptExactly(lib: Lib, a: ICMPProbeConfig, b: ICMPProbeConfig)
    ensures (forall d :: ICMPOf(WithICMPDefault(lib, d), a) == ICMPOf(WithICMPDefault(lib, d), b)) <==> SameICMP(a, b)
  {
    var d := ICMPProbe(Neither(a.preferredIPProtocol, b.preferredIPProtocol), 0, false, 0,
                       Neither(a.sourceIPAddress, b.sourceIPAddress));
    if ICMPOf(WithICMPDefault(lib, d), a) == ICMPOf(WithICMPDefault(lib, d), b) {
      NeitherIs(a.preferredIPProtocol, b.preferredIPProtocol);
      NeitherIs(a.sourceIPAddress, b.sourceIPAddress);
    }
  }

  /** Equal but for the secret references, all unknown version names being the same. */
  predicate SameTLS(a: TLSConfig, b: TLSConfig) {
    && a.insecureSkipVerify == b.insecureSkipVerify && a.serverName == b.serverName
    && TLSVersion(a.minVersion) == TLSVersion(b.minVersion) && TLSVersion(a.maxVersion) == TLSVersion(b.maxVersion)
  }

  predicate SameGRPC(a: GRPCProbeConfig, b: GRPCProbeConfig) {
    && a.service == b.service && a.tls == b.tls && a.preferredIPProtocol == b.preferredIPProtocol
    && (a.tlsConfig.Some? <==> b.tlsConfig.Some?)
    && (a.tlsConfig.Some? ==> SameTLS(a.tlsConfig.value, b.tlsConfig.value))
  }

  /** Two gRPC sections convert alike over every default and under the same secrets exactly if they differ at most in
      secret references and in the spelling of unknown TLS versions. */
  lemma GRPCSectionKeptExactly(lib: Lib, a: GRPCProbeConfig, b: GRPCProbeConfig, secrets: Option<ResolvedSecrets>)
    ensures (forall d :: GRPCOf(WithGRPCDefault(lib, d), a, secrets) == GRPCOf(WithGRPCDefault(lib, d), b, secrets)) <==>
            SameGRPC(a, b)
  {
    var x := if a.tlsConfig.Some? then a.tlsConfig.value.serverName else "";
    var y := if b.tlsConfig.Some? then b.tlsConfig.value.serverName else "";
    var d := GRPCProbe("", false, Neither(a.preferredIPProtocol, b.preferredIPProtocol),
                       TLSSettings(false, Neither(x, y), 0, 0, "", "", ""));
    if GRPCOf(WithGRPCDefault(lib, d), a, secrets) == GRPCOf(WithGRPCDefault(lib, d), b, secrets) {
      NeitherIs(a.preferredIPProtocol, b.preferredIPProtocol);
      NeitherIs(x, y);
    }
  }

  /** `bodySizeLimit` reaches nothing: a module converts the same whatever it says. */
  lemma BodySizeLimitUnread(lib: Lib, spec: ModuleSpec, limit: int, secrets: Option<ResolvedSecrets>)
    requires spec.http.Some?
    ensures Convert(lib, spec.(http := Some(spec.http.value.(bodySizeLimit := limit))), secrets) == Convert(lib, spec, secrets)
  {
    var h := spec.http.value;
    var other := h.(bodySizeLimit := limit);
    assert HTTPPlain(lib.defaults.http, other) == HTTPPlain(lib.defaults.http, h);
    var d := HTTPPlain(lib.defaults.http, h);
    assert HTTPPatterns(d, other) == HTTPPatterns(d, h);
    assert HTTPClient(lib, HTTPPatterns(d, h), other, secrets) == HTTPClient(lib, HTTPPatterns(d, h), h, secrets);
  }

  // ---- the dry run of the module controller predicts the exporter controller ----

  function RedactTLS(t: TLSSettings): TLSSettings {
    t.(ca := "", cert := "", key := "")
  }

  function RedactHTTP(h: HTTPProbe): HTTPProbe {
    h.(tlsConfig := RedactTLS(h.tlsConfig),
       basicAuth := if h.basicAuth.Some? then Some(h.basicAuth.value.(password := "")) else None,
       oauth2 := if h.oauth2.Some? then Some(h.oauth2.value.(clientSecret := "")) else None)
  }

  /** The module with every secret value blanked. */
  function Redact(m: ExporterModule): ExporterModule {
    m.(http := if m.http.Some? then Some(RedactHTTP(m.http.value)) else None,
       tcp := if m.tcp.Some? then Some(m.tcp.value.(tlsConfig := RedactTLS(m.tcp.value.tlsConfig))) else None,
       grpc := if m.grpc.Some? then Some(m.grpc.value.(tlsConfig := RedactTLS(m.grpc.value.tlsConfig))) else None)
  }

  function RedactConversion(c: Conversion): Conversion {
    match c
    case Converted(m) => Converted(Redact(m))
    case Rejected(m, e) => Rejected(Redact(m), e)
    case Panics => Panics
  }

  lemma RedactedHTTP(lib: Lib, spec: HTTPProbeConfig, s1: Option<ResolvedSecrets>, s2: Option<ResolvedSecrets>)
    ensures RedactHTTP(HTTPOf(lib, spec, s1)) == RedactHTTP(HTTPOf(lib, spec, s2))
  {
    var d := HTTPPatterns(HTTPPlain(lib.defaults.http, spec), spec);
    assert RedactHTTP(HTTPClient(lib, d, spec, s1)) == RedactHTTP(HTTPClient(lib, d, spec, s2));
  }

  lemma RedactedSection(lib: Lib, spec: ModuleSpec, s: Section, m: ExporterModule, s1: Option<ResolvedSecrets>, s2: Option<ResolvedSecrets>)
    requires IsSet(spec, s)
    ensures Redact(SectionOf(lib, spec, s, s1, m)) == Redact(SectionOf(lib, spec, s, s2, m))
  {
    match s
    case HTTP => RedactedHTTP(lib, spec.http.value, s1, s2);
    case TCP =>
    case GRPC =>
    case _ =>
  }

  /** Conversions under any two sets of secrets differ in nothing but the secret values. */
  lemma SecretsOnlyFillSecretFields(lib: Lib, spec: ModuleSpec, s1: Option<ResolvedSecrets>, s2: Option<ResolvedSecrets>)
    ensures RedactConversion(Convert(lib, spec, s1)) == RedactConversion(Convert(lib, spec, s2))
  {
    var section := Chosen(spec);
    var timeout := lib.parseDuration(spec.timeout);
    if section.Some? && timeout.Ok? {
      var m := ZERO_MODULE.(timeout := timeout.value, prober := Prober(section.value));
      RedactedSection(lib, spec, section.value, m, s1, s2);
    }
  }

  /** Success, prober and timeout of the dry run are those of the conversion that gets rendered. */
  lemma DryRunPredictsRendering(lib: Lib, spec: ModuleSpec, secrets: ResolvedSecrets)
    ensures var dry, rendered := Convert(lib, spec, None), Convert(lib, spec, Some(secrets));
            && (dry.Converted? <==> rendered.Converted?)
            && (dry.Rejected? <==> rendered.Rejected?)
            && (dry.Converted? ==> dry.m.prober == rendered.m.prober && dry.m.timeout == rendered.m.timeout)
            && (dry.Rejected? ==> dry == rendered)
  {
    SecretsOnlyFillSecretFields(lib, spec, None, Some(secrets));
  }

  // ---- one section set: the switch order is irrelevant ----

  /** Any reordering of the switch converts such a spec in the same way, and only that section is populated. */
  lemma SwitchOrderIrrelevant(order: seq<Section>, lib: Lib, spec: ModuleSpec, secrets: Option<ResolvedSecrets>, s: Section)
    requires forall t: Section :: t in order
    requires IsSet(spec, s) && forall t :: IsSet(spec, t) ==> t == s
    ensures ConvertAs(FirstSet(order, spec), lib, spec, secrets) == Convert(lib, spec, secrets)
    ensures Convert(lib, spec, secrets).Converted? ==>
              var m := Convert(lib, spec, secrets).m;
              && m.prober == Prober(s)
              && m.http.Some? == (s == HTTP) && m.tcp.Some? == (s == TCP) && m.dns.Some? == (s == DNS)
              && m.icmp.Some? == (s == ICMP) && m.grpc.Some? == (s == GRPC) && m.unix.Some? == (s == UNIX)
              && m.websocket.Some? == (s == WEBSOCKET)
  {
    assert s in order;
    assert FirstSet(order, spec) == Some(s);
    assert Chosen(spec) == Some(s);
  }
}
