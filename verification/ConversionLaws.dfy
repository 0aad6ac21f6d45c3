/** What a converted module says, field by field: each field of the result against the field the user wrote, or against
    the default of the upstream exporter. */
module ConversionLaws {
  import opened Base
  import opened Api
  import opened Converter

  // ---- lists and TLS settings ----

  /** The default's patterns, then the sources in order. */
  ghost predicate PatternsFollow(r: seq<Regexp>, start: seq<Regexp>, sources: seq<string>) {
    && |r| == |start| + |sources|
    && (forall i :: 0 <= i < |start| ==> r[i] == start[i])
    && (forall i :: 0 <= i < |sources| ==> r[|start| + i].source == sources[i])
  }

  ghost predicate HeadersFollow(r: seq<HeaderMatch>, start: seq<HeaderMatch>, hs: seq<HeaderMatchConfig>) {
    && |r| == |start| + |hs|
    && (forall i :: 0 <= i < |start| ==> r[i] == start[i])
    && (forall i :: 0 <= i < |hs| ==>
          && r[|start| + i].header == hs[i].header
          && r[|start| + i].regexp.source == hs[i].regexp
          && r[|start| + i].allowMissing == hs[i].allowMissing)
  }

  /** An empty expectation stays without a pattern. */
  ghost predicate ExchangesFollow(r: seq<QueryResponse>, start: seq<QueryResponse>, qs: seq<QueryResponseConfig>) {
    && |r| == |start| + |qs|
    && (forall i :: 0 <= i < |start| ==> r[i] == start[i])
    && (forall i :: 0 <= i < |qs| ==>
          && r[|start| + i].send == qs[i].send
          && r[|start| + i].startTLS == qs[i].startTLS
          && r[|start| + i].expected.Some? == (qs[i].expected != "")
          && (qs[i].expected != "" ==> r[|start| + i].expected.value.source == qs[i].expected))
  }

  ghost predicate VersionRead(name: string, number: nat) {
    && (name == "TLS10" ==> number == 0x0301) && (name == "TLS11" ==> number == 0x0302)
    && (name == "TLS12" ==> number == 0x0303) && (name == "TLS13" ==> number == 0x0304)
    && (name !in ["TLS10", "TLS11", "TLS12", "TLS13"] ==> number == 0)
  }

  ghost predicate TLSRead(t: TLSSettings, c: TLSConfig, secrets: Option<ResolvedSecrets>) {
    && t.insecureSkipVerify == c.insecureSkipVerify && t.serverName == c.serverName
    && VersionRead(c.minVersion, t.minVersion) && VersionRead(c.maxVersion, t.maxVersion)
    && (secrets.None? ==> t.ca == "" && t.cert == "" && t.key == "")
    && (secrets.Some? ==> t.ca == secrets.value.tlsCA && t.cert == secrets.value.tlsCert && t.key == secrets.value.tlsKey)
  }

  /** TLS settings are those of the section, or the default's when it has none. */
  ghost predicate TLSGiven(t: TLSSettings, c: Option<TLSConfig>, default: TLSSettings, secrets: Option<ResolvedSecrets>) {
    && (c.Some? ==> TLSRead(t, c.value, secrets))
    && (c.None? ==> t == default)
  }

  lemma TLSLaw(c: TLSConfig, secrets: Option<ResolvedSecrets>)
    ensures TLSRead(TLSOf(c, secrets), c, secrets)
  {
  }

  // ---- the whole module ----

  /** The timeout is the parsed one, the prober has this name, and no other section is populated. */
  ghost predicate OnlySection(lib: Lib, spec: ModuleSpec, m: ExporterModule, prober: string, populated: nat) {
    && lib.parseDuration(spec.timeout) == Ok(m.timeout)
    && m.prober == prober
    && m.http.Some? == (populated == 0) && m.tcp.Some? == (populated == 1) && m.dns.Some? == (populated == 2)
    && m.icmp.Some? == (populated == 3) && m.grpc.Some? == (populated == 4) && m.unix.Some? == (populated == 5)
    && m.websocket.Some? == (populated == 6)
  }

  lemma HTTPFields(lib: Lib, spec: ModuleSpec, secrets: Option<ResolvedSecrets>)
    requires spec.http.Some? && Convert(lib, spec, secrets).Converted?
    ensures var m, h, d := Convert(lib, spec, secrets).m, spec.http.value, lib.defaults.http;
            && OnlySection(lib, spec, m, "http", 0)
            && var r := m.http.value;
            && r.httpMethod == (if h.httpMethod != "" then h.httpMethod else d.httpMethod)
            && r.headers == (if h.headers.Some? then h.headers else d.headers)
            && r.body == (if h.body != "" then h.body else d.body)
            && r.validStatusCodes == (if |h.validStatusCodes| > 0 then h.validStatusCodes else d.validStatusCodes)
            && r.validHTTPVersions == (if |h.validHTTPVersions| > 0 then h.validHTTPVersions else d.validHTTPVersions)
            && r.followRedirects == (if h.followRedirects.Some? then h.followRedirects.value else d.followRedirects)
            && r.failIfSSL == h.failIfSSL && r.failIfNotSSL == h.failIfNotSSL
            && r.ipProtocol == (if h.preferredIPProtocol != "" then h.preferredIPProtocol else d.ipProtocol)
  {
  }

  lemma HTTPPatternFields(lib: Lib, spec: ModuleSpec, secrets: Option<ResolvedSecrets>)
    requires spec.http.Some? && Convert(lib, spec, secrets).Converted?
    ensures Convert(lib, spec, secrets).m.http.Some?
    ensures var r, h, d := Convert(lib, spec, secrets).m.http.value, spec.http.value, lib.defaults.http;
            && PatternsFollow(r.failIfBodyMatchesRegexp, d.failIfBodyMatchesRegexp, h.failIfBodyMatchesRegexp)
            && PatternsFollow(r.failIfBodyNotMatchesRegexp, d.failIfBodyNotMatchesRegexp, h.failIfBodyNotMatchesRegexp)
            && HeadersFollow(r.failIfHeaderMatchesRegexp, d.failIfHeaderMatchesRegexp, h.failIfHeaderMatchesRegexp)
            && HeadersFollow(r.failIfHeaderNotMatchesRegexp, d.failIfHeaderNotMatchesRegexp, h.failIfHeaderNotMatchesRegexp)
  {
  }

  /** A proxy URL that does not parse is ignored. Credentials come from the resolved secrets, or are empty. */
  lemma HTTPClientFields(lib: Lib, spec: ModuleSpec, secrets: Option<ResolvedSecrets>)
    requires spec.http.Some? && Convert(lib, spec, secrets).Converted?
    ensures Convert(lib, spec, secrets).m.http.Some?
    ensures var r, h, d := Convert(lib, spec, secrets).m.http.value, spec.http.value, lib.defaults.http;
            && TLSGiven(r.tlsConfig, h.tlsConfig, d.tlsConfig, secrets)
            && r.proxyURL == (if h.proxyURL != "" && lib.parseURL(h.proxyURL).Some? then lib.parseURL(h.proxyURL) else d.proxyURL)
            && (h.basicAuth.None? ==> r.basicAuth == d.basicAuth)
            && (h.basicAuth.Some? ==>
                  && r.basicAuth.Some? && r.basicAuth.value.username == h.basicAuth.value.username
                  && r.basicAuth.value.password == (if secrets.Some? then secrets.value.basicAuthPassword else ""))
            && (h.oauth2.None? ==> r.oauth2 == d.oauth2)
            && (h.oauth2.Some? ==>
                  && r.oauth2.Some? && r.oauth2.value.clientID == h.oauth2.value.clientID
                  && r.oauth2.value.tokenURL == h.oauth2.value.tokenURL && r.oauth2.value.scopes == h.oauth2.value.scopes
                  && r.oauth2.value.clientSecret == (if secrets.Some? then secrets.value.oauth2ClientSecret else ""))
  {
    if spec.http.value.tlsConfig.Some? {
      TLSLaw(spec.http.value.tlsConfig.value, secrets);
    }
    hide TLSRead;
  }

  lemma TCPFields(lib: Lib, spec: ModuleSpec, secrets: Option<ResolvedSecrets>)
    requires spec.http.None? && spec.tcp.Some? && Convert(lib, spec, secrets).Converted?
    ensures var m, t, d := Convert(lib, spec, secrets).m, spec.tcp.value, lib.defaults.tcp;
            && OnlySection(lib, spec, m, "tcp", 1)
            && var r := m.tcp.value;
            && r.tls == t.tls
            && r.ipProtocol == (if t.preferredIPProtocol != "" then t.preferredIPProtocol else d.ipProtocol)
            && TLSGiven(r.tlsConfig, t.tlsConfig, d.tlsConfig, secrets)
            && ExchangesFollow(r.queryResponse, d.queryResponse, t.queryResponse)
  {
    if spec.tcp.value.tlsConfig.Some? {
      TLSLaw(spec.tcp.value.tlsConfig.value, secrets);
    }
    hide TLSRead;
  }

  ghost predicate ValidatorRead(r: Option<DNSRRValidator>, v: Option<DNSRRValidator>, default: Option<DNSRRValidator>) {
    && (v.None? ==> r == default)
    && (v.Some? ==>
          && r.Some? && r.value.failIfMatchesRegexp == v.value.failIfMatchesRegexp
          && r.value.failIfNotMatchesRegexp == v.value.failIfNotMatchesRegexp)
  }

  lemma DNSFields(lib: Lib, spec: ModuleSpec, secrets: Option<ResolvedSecrets>)
    requires spec.http.None? && spec.tcp.None? && spec.dns.Some? && Convert(lib, spec, secrets).Converted?
    ensures var m, q, d := Convert(lib, spec, secrets).m, spec.dns.value, lib.defaults.dns;
            && OnlySection(lib, spec, m, "dns", 2)
            && var r := m.dns.value;
            && r.queryName == q.queryName && r.dnsOverTLS == q.dnsOverTLS
            && r.queryType == (if q.queryType != "" then q.queryType else d.queryType)
            && r.queryClass == (if q.queryClass != "" then q.queryClass else d.queryClass)
            && r.recursion == (if q.recursionDesired.Some? then q.recursionDesired.value else d.recursion)
            && r.validRcodes == (if |q.validRcodes| > 0 then q.validRcodes else d.validRcodes)
            && r.transportProtocol == (if q.transportProtocol != "" then q.transportProtocol else d.transportProtocol)
            && r.ipProtocol == (if q.preferredIPProtocol != "" then q.preferredIPProtocol else d.ipProtocol)
            && ValidatorRead(r.validateAnswer, q.validateAnswer, d.validateAnswer)
            && ValidatorRead(r.validateAuthority, q.validateAuthority, d.validateAuthority)
            && ValidatorRead(r.validateAdditional, q.validateAdditional, d.validateAdditional)
  {
  }

  lemma ICMPFields(lib: Lib, spec: ModuleSpec, secrets: Option<ResolvedSecrets>)
    requires spec.http.None? && spec.tcp.None? && spec.dns.None? && spec.icmp.Some? && Convert(lib, spec, secrets).Converted?
    ensures var m, i, d := Convert(lib, spec, secrets).m, spec.icmp.value, lib.defaults.icmp;
            && OnlySection(lib, spec, m, "icmp", 3)
            && var r := m.icmp.value;
            && r.ipProtocol == (if i.preferredIPProtocol != "" then i.preferredIPProtocol else d.ipProtocol)
            && r.payloadSize == (if i.payloadSize > 0 then i.payloadSize else d.payloadSize)
            && r.dontFragment == i.dontFragment
            && r.ttl == (if i.ttl > 0 then i.ttl else d.ttl)
            && r.sourceIPAddress == (if i.sourceIPAddress != "" then i.sourceIPAddress else d.sourceIPAddress)
  {
  }

  lemma GRPCFields(lib: Lib, spec: ModuleSpec, secrets: Option<ResolvedSecrets>)
    requires spec.http.None? && spec.tcp.None? && spec.dns.None? && spec.icmp.None? && spec.grpc.Some?
    requires Convert(lib, spec, secrets).Converted?
    ensures var m, g, d := Convert(lib, spec, secrets).m, spec.grpc.value, lib.defaults.grpc;
            && OnlySection(lib, spec, m, "grpc", 4)
            && var r := m.grpc.value;
            && r.service == g.service && r.tls == g.tls
            && r.preferredIPProtocol == (if g.preferredIPProtocol != "" then g.preferredIPProtocol else d.preferredIPProtocol)
            && TLSGiven(r.tlsConfig, g.tlsConfig, d.tlsConfig, secrets)
  {
    if spec.grpc.value.tlsConfig.Some? {
      TLSLaw(spec.grpc.value.tlsConfig.value, secrets);
    }
    hide TLSRead;
  }

  /** A Unix section runs under the TCP prober and starts from nothing. */
  lemma UnixFields(lib: Lib, spec: ModuleSpec, secrets: Option<ResolvedSecrets>)
    requires spec.http.None? && spec.tcp.None? && spec.dns.None? && spec.icmp.None? && spec.grpc.None? && spec.unix.Some?
    requires Convert(lib, spec, secrets).Converted?
    ensures var m := Convert(lib, spec, secrets).m;
            && OnlySection(lib, spec, m, "tcp", 5)
            && ExchangesFollow(m.unix.value.queryResponse, [], spec.unix.value.queryResponse)
  {
  }

  lemma WebsocketFields(lib: Lib, spec: ModuleSpec, secrets: Option<ResolvedSecrets>)
    requires spec.http.None? && spec.tcp.None? && spec.dns.None? && spec.icmp.None? && spec.grpc.None? && spec.unix.None?
    requires spec.websocket.Some? && Convert(lib, spec, secrets).Converted?
    ensures var m, given := Convert(lib, spec, secrets).m, spec.websocket.value.headers;
            && OnlySection(lib, spec, m, "websocket", 6)
            && var r := m.websocket.value;
            && (|given| == 0 ==> r == lib.defaults.websocket)
            && (|given| > 0 ==>
                  && r.headers.Some? && r.headers.value.Keys == given.Keys
                  && forall name :: name in given ==> r.headers.value[name] == [given[name]])
  {
  }

  // ---- outcomes ----

  ghost predicate HeaderPatternsCompile(lib: Lib, hs: seq<HeaderMatchConfig>) {
    forall i :: 0 <= i < |hs| ==> lib.compiles(hs[i].regexp)
  }

  ghost predicate ExpectationsCompile(lib: Lib, qs: seq<QueryResponseConfig>) {
    forall i :: 0 <= i < |qs| ==> qs[i].expected == "" || lib.compiles(qs[i].expected)
  }

  ghost predicate StringsCompile(lib: Lib, ps: seq<string>) {
    forall i :: 0 <= i < |ps| ==> lib.compiles(ps[i])
  }

  lemma {:induction false} ExpectationsMembers(qs: seq<QueryResponseConfig>, p: string)
    ensures p in Expectations(qs) <==> exists i :: 0 <= i < |qs| && qs[i].expected == p != ""
  {
    if qs != [] {
      ExpectationsMembers(qs[1..], p);
      if i :| 0 <= i < |qs| && qs[i].expected == p != "" {
        if i > 0 {
          assert qs[1..][i - 1].expected == p;
        }
      }
    }
  }

  lemma ExpectationsCompileAlike(lib: Lib, qs: seq<QueryResponseConfig>)
    ensures AllCompile(lib, Expectations(qs)) <==> ExpectationsCompile(lib, qs)
  {
    forall i | 0 <= i < |qs| && qs[i].expected != "" ensures qs[i].expected in Expectations(qs) {
      ExpectationsMembers(qs, qs[i].expected);
    }
    forall p | p in Expectations(qs) ensures exists i :: 0 <= i < |qs| && qs[i].expected == p != "" {
      ExpectationsMembers(qs, p);
    }
  }

  lemma HeaderPatternsCompileAlike(lib: Lib, hs: seq<HeaderMatchConfig>)
    ensures AllCompile(lib, HeaderPatterns(hs)) <==> HeaderPatternsCompile(lib, hs)
  {
    assert forall i :: 0 <= i < |hs| ==> HeaderPatterns(hs)[i] == hs[i].regexp;
  }

  lemma StringsCompileAlike(lib: Lib, ps: seq<string>)
    ensures AllCompile(lib, ps) <==> StringsCompile(lib, ps)
  {
  }

  /** The section that counts has a pattern that does not compile. Sections behind it are not looked at. */
  ghost predicate BadPattern(lib: Lib, spec: ModuleSpec) {
    if spec.http.Some? then
      !(&& StringsCompile(lib, spec.http.value.failIfBodyMatchesRegexp)
        && StringsCompile(lib, spec.http.value.failIfBodyNotMatchesRegexp)
        && HeaderPatternsCompile(lib, spec.http.value.failIfHeaderMatchesRegexp)
        && HeaderPatternsCompile(lib, spec.http.value.failIfHeaderNotMatchesRegexp))
    else if spec.tcp.Some? then !ExpectationsCompile(lib, spec.tcp.value.queryResponse)
    else if spec.dns.Some? || spec.icmp.Some? || spec.grpc.Some? then false
    else spec.unix.Some? && !ExpectationsCompile(lib, spec.unix.value.queryResponse)
  }

  /** A conversion is rejected for its timeout first, then for having no section; it panics exactly on a bad pattern. */
  lemma ConversionOutcome(lib: Lib, spec: ModuleSpec, secrets: Option<ResolvedSecrets>)
    ensures var r, timeout := Convert(lib, spec, secrets), lib.parseDuration(spec.timeout);
            var sectionless := spec.http.None? && spec.tcp.None? && spec.dns.None? && spec.icmp.None? && spec.grpc.None?
                               && spec.unix.None? && spec.websocket.None?;
            && (r.Rejected? <==> timeout.Err? || sectionless)
            && (timeout.Err? ==>
                  r.message == "invalid timeout " + lib.quote(spec.timeout) + ": " + timeout.error)
            && (timeout.Ok? && sectionless ==> r.message == "no prober configuration set")
            && (r.Panics? <==> timeout.Ok? && BadPattern(lib, spec))
            && (r.Rejected? ==> r.partial.prober == "")
  {
    if spec.http.Some? {
      PatternsOfHTTP(lib, spec);
      StringsCompileAlike(lib, spec.http.value.failIfBodyMatchesRegexp);
      StringsCompileAlike(lib, spec.http.value.failIfBodyNotMatchesRegexp);
      HeaderPatternsCompileAlike(lib, spec.http.value.failIfHeaderMatchesRegexp);
      HeaderPatternsCompileAlike(lib, spec.http.value.failIfHeaderNotMatchesRegexp);
    } else if spec.tcp.Some? {
      ExpectationsCompileAlike(lib, spec.tcp.value.queryResponse);
    } else if spec.unix.Some? {
      ExpectationsCompileAlike(lib, spec.unix.value.queryResponse);
    }
    hide AllCompile, HTTPOf, TCPOf, DNSOf, ICMPOf, GRPCOf, WebsocketOf, QueryResponses, Expectations,
         StringsCompile, HeaderPatternsCompile, ExpectationsCompile;
  }
}
