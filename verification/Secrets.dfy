/** Resolution of the secret references of a module, and where the values end up. */
module Secrets {
  import opened Base
  import opened Api
  import opened Converter

  /** The data of every Secret, by namespaced name. */
  type SecretStore = map<Key, map<string, string>>

  datatype ResolveError = ResolveError(field: string, ref: SecretKeySelector)

  function DataAt(store: SecretStore, ns: string, ref: SecretKeySelector): Option<string> {
    var key := Key(ns, ref.name);
    if key in store && ref.key in store[key] then Some(store[key][ref.key]) else None
  }

  /** The value of an optional reference; an absent one contributes the empty string. */
  function Value(store: SecretStore, ns: string, ref: Option<SecretKeySelector>): Option<string> {
    if ref.None? then Some("") else DataAt(store, ns, ref.value)
  }

  function PasswordRef(spec: ModuleSpec): Option<SecretKeySelector> {
    if spec.http.Some? && spec.http.value.basicAuth.Some? then Some(spec.http.value.basicAuth.value.passwordRef) else None
  }

  function ClientSecretRef(spec: ModuleSpec): Option<SecretKeySelector> {
    if spec.http.Some? && spec.http.value.oauth2.Some? then Some(spec.http.value.oauth2.value.clientSecretRef) else None
  }

  /** The TLS settings whose references are read: those of the HTTP section, else of TCP, else of gRPC. */
  function TLSSource(spec: ModuleSpec): Option<TLSConfig> {
    if spec.http.None? then None
    else if spec.http.value.tlsConfig.Some? then spec.http.value.tlsConfig
    else if spec.tcp.Some? then spec.tcp.value.tlsConfig
    else if spec.grpc.Some? then spec.grpc.value.tlsConfig
    else None
  }

  function CARef(spec: ModuleSpec): Option<SecretKeySelector> {
    var tls := TLSSource(spec); if tls.Some? then tls.value.caRef else None
  }

  function CertRef(spec: ModuleSpec): Option<SecretKeySelector> {
    var tls := TLSSource(spec); if tls.Some? then tls.value.certRef else None
  }

  function KeyRef(spec: ModuleSpec): Option<SecretKeySelector> {
    var tls := TLSSource(spec); if tls.Some? then tls.value.keyRef else None
  }

  /** The outcome of resolving all references: the first dangling one in this order, or all values. */
  ghost function Resolved(store: SecretStore, ns: string, spec: ModuleSpec): Result<ResolvedSecrets, ResolveError> {
    var password, secret := Value(store, ns, PasswordRef(spec)), Value(store, ns, ClientSecretRef(spec));
    var ca, cert, key := Value(store, ns, CARef(spec)), Value(store, ns, CertRef(spec)), Value(store, ns, KeyRef(spec));
    if password.None? then Err(ResolveError("basicAuth.passwordRef", PasswordRef(spec).value))
    else if secret.None? then Err(ResolveError("oauth2.clientSecretRef", ClientSecretRef(spec).value))
    else if ca.None? then Err(ResolveError("tlsConfig.caRef", CARef(spec).value))
    else if cert.None? then Err(ResolveError("tlsConfig.certRef", CertRef(spec).value))
    else if key.None? then Err(ResolveError("tlsConfig.keyRef", KeyRef(spec).value))
    else Ok(ResolvedSecrets(password.value, secret.value, ca.value, cert.value, key.value))
  }

  method ResolveSecretKey(store: SecretStore, ns: string, ref: SecretKeySelector) returns (r: Option<string>)
    ensures r == DataAt(store, ns, ref)
  {
    if Key(ns, ref.name) !in store {
      return None;
    }
    var data := store[Key(ns, ref.name)];
    if ref.key !in data {
      return None;
    }
    return Some(data[ref.key]);
  }

  /** The references of TLS settings, filled into what is resolved already. */
  method ResolveTLS(store: SecretStore, ns: string, tls: TLSConfig, start: ResolvedSecrets) returns (r: Result<ResolvedSecrets, ResolveError>)
    ensures var ca, cert, key := Value(store, ns, tls.caRef), Value(store, ns, tls.certRef), Value(store, ns, tls.keyRef);
            r == if ca.None? then Err(ResolveError("tlsConfig.caRef", tls.caRef.value))
                 else if cert.None? then Err(ResolveError("tlsConfig.certRef", tls.certRef.value))
                 else if key.None? then Err(ResolveError("tlsConfig.keyRef", tls.keyRef.value))
                 else Ok(start.(tlsCA := if tls.caRef.Some? then ca.value else start.tlsCA,
                                tlsCert := if tls.certRef.Some? then cert.value else start.tlsCert,
                                tlsKey := if tls.keyRef.Some? then key.value else start.tlsKey))
  {
    var resolved := start;
    if tls.caRef.Some? {
      var val := ResolveSecretKey(store, ns, tls.caRef.value);
      if val.None? {
        return Err(ResolveError("tlsConfig.caRef", tls.caRef.value));
      }
      resolved := resolved.(tlsCA := val.value);
    }
    if tls.certRef.Some? {
      var val := ResolveSecretKey(store, ns, tls.certRef.value);
      if val.None? {
        return Err(ResolveError("tlsConfig.certRef", tls.certRef.value));
      }
      resolved := resolved.(tlsCert := val.value);
    }
    if tls.keyRef.Some? {
      var val := ResolveSecretKey(store, ns, tls.keyRef.value);
      if val.None? {
        return Err(ResolveError("tlsConfig.keyRef", tls.keyRef.value));
      }
      resolved := resolved.(tlsKey := val.value);
    }
    return Ok(resolved);
  }

  /** The references of an HTTP section outside its TLS settings. */
  method ResolveCredentials(store: SecretStore, ns: string, http: HTTPProbeConfig) returns (r: Result<ResolvedSecrets, ResolveError>)
    ensures var passwordRef := if http.basicAuth.Some? then Some(http.basicAuth.value.passwordRef) else None;
            var secretRef := if http.oauth2.Some? then Some(http.oauth2.value.clientSecretRef) else None;
            var password, secret := Value(store, ns, passwordRef), Value(store, ns, secretRef);
            r == if password.None? then Err(ResolveError("basicAuth.passwordRef", passwordRef.value))
                 else if secret.None? then Err(ResolveError("oauth2.clientSecretRef", secretRef.value))
                 else Ok(NO_SECRETS.(basicAuthPassword := password.value, oauth2ClientSecret := secret.value))
  {
    hide DataAt;
    var resolved := NO_SECRETS;
    if http.basicAuth.Some? {
      var val := ResolveSecretKey(store, ns, http.basicAuth.value.passwordRef);
      if val.None? {
        return Err(ResolveError("basicAuth.passwordRef", http.basicAuth.value.passwordRef));
      }
      resolved := resolved.(basicAuthPassword := val.value);
    }
    if http.oauth2.Some? {
      var val := ResolveSecretKey(store, ns, http.oauth2.value.clientSecretRef);
      if val.None? {
        return Err(ResolveError("oauth2.clientSecretRef", http.oauth2.value.clientSecretRef));
      }
      resolved := resolved.(oauth2ClientSecret := val.value);
    }
    return Ok(resolved);
  }

  method ResolveModuleSecrets(store: SecretStore, ns: string, spec: ModuleSpec) returns (r: Result<ResolvedSecrets, ResolveError>)
    ensures r == Resolved(store, ns, spec)
  {
    hide DataAt;
    if spec.http.None? {
      return Ok(NO_SECRETS);
    }
    var http := spec.http.value;
    var resolved := ResolveCredentials(store, ns, http);
    if resolved.Err? {
      return resolved;
    }
    var tlsConfig := http.tlsConfig;
    if tlsConfig.None? {
      if spec.tcp.Some? {
        tlsConfig := spec.tcp.value.tlsConfig;
      } else if spec.grpc.Some? {
        tlsConfig := spec.grpc.value.tlsConfig;
      }
    }
    if tlsConfig.Some? {
      resolved := ResolveTLS(store, ns, tlsConfig.value, resolved.value);
    }
    return resolved;
  }

  /** What the exporter controller puts in the configuration: a failed resolution converts with empty secrets. */
  ghost function Rendered(lib: Lib, store: SecretStore, ns: string, spec: ModuleSpec): Conversion {
    var secrets := Resolved(store, ns, spec);
    Convert(lib, spec, Some(if secrets.Ok? then secrets.value else NO_SECRETS))
  }

  /** The Secret a reference names, in this namespace, has an entry under the key it names. */
  ghost predicate Stands(store: SecretStore, ns: string, ref: SecretKeySelector) {
    Key(ns, ref.name) in store && ref.key in store[Key(ns, ref.name)]
  }

  /** The data an optional reference must deliver. */
  ghost predicate Delivers(store: SecretStore, ns: string, ref: Option<SecretKeySelector>, value: string) {
    && (ref.None? ==> value == "")
    && (ref.Some? ==> Stands(store, ns, ref.value) && store[Key(ns, ref.value.name)][ref.value.key] == value)
  }

  ghost predicate Dangling(store: SecretStore, ns: string, ref: Option<SecretKeySelector>) {
    ref.Some? && !Stands(store, ns, ref.value)
  }

  /** Resolution for a spec with an HTTP section, whose TLS settings count before those of TCP and gRPC: it fails exactly
      on a dangling reference and names the first; otherwise each value is the entry its reference names. */
  lemma ResolutionExactly(store: SecretStore, ns: string, spec: ModuleSpec)
    requires spec.http.Some?
    ensures var http, r := spec.http.value, Resolved(store, ns, spec);
            var tls := if http.tlsConfig.Some? then http.tlsConfig
                       else if spec.tcp.Some? then spec.tcp.value.tlsConfig
                       else if spec.grpc.Some? then spec.grpc.value.tlsConfig
                       else None;
            var password := if http.basicAuth.Some? then Some(http.basicAuth.value.passwordRef) else None;
            var secret := if http.oauth2.Some? then Some(http.oauth2.value.clientSecretRef) else None;
            var ca, cert, key := if tls.Some? then tls.value.caRef else None, if tls.Some? then tls.value.certRef else None,
                                 if tls.Some? then tls.value.keyRef else None;
            if Dangling(store, ns, password) then r == Err(ResolveError("basicAuth.passwordRef", password.value))
            else if Dangling(store, ns, secret) then r == Err(ResolveError("oauth2.clientSecretRef", secret.value))
            else if Dangling(store, ns, ca) then r == Err(ResolveError("tlsConfig.caRef", ca.value))
            else if Dangling(store, ns, cert) then r == Err(ResolveError("tlsConfig.certRef", cert.value))
            else if Dangling(store, ns, key) then r == Err(ResolveError("tlsConfig.keyRef", key.value))
            else
              && r.Ok?
              && Delivers(store, ns, password, r.value.basicAuthPassword)
              && Delivers(store, ns, secret, r.value.oauth2ClientSecret)
              && Delivers(store, ns, ca, r.value.tlsCA)
              && Delivers(store, ns, cert, r.value.tlsCert)
              && Delivers(store, ns, key, r.value.tlsKey)
  {
  }

  /** For a module whose only section is HTTP: resolution fails exactly on a dangling reference, and otherwise
      every secret field of the rendered module is the data at its reference in the module's own namespace. */
  lemma HTTPSecretFlow(lib: Lib, store: SecretStore, ns: string, spec: ModuleSpec)
    requires spec.http.Some? && forall s :: IsSet(spec, s) ==> s == HTTP
    ensures var http := spec.http.value;
            Resolved(store, ns, spec).Err? <==>
              || (http.basicAuth.Some? && !Stands(store, ns, http.basicAuth.value.passwordRef))
              || (http.oauth2.Some? && !Stands(store, ns, http.oauth2.value.clientSecretRef))
              || (http.tlsConfig.Some? &&
                  var tls := http.tlsConfig.value;
                  Dangling(store, ns, tls.caRef) || Dangling(store, ns, tls.certRef) || Dangling(store, ns, tls.keyRef))
    ensures Resolved(store, ns, spec).Ok? && Rendered(lib, store, ns, spec).Converted? ==>
              var http, out := spec.http.value, Rendered(lib, store, ns, spec).m.http;
              && out.Some?
              && (http.basicAuth.Some? ==>
                    && out.value.basicAuth.Some?
                    && Delivers(store, ns, Some(http.basicAuth.value.passwordRef), out.value.basicAuth.value.password))
              && (http.oauth2.Some? ==>
                    && out.value.oauth2.Some?
                    && Delivers(store, ns, Some(http.oauth2.value.clientSecretRef), out.value.oauth2.value.clientSecret))
              && (http.tlsConfig.Some? ==>
                    var tls, t := http.tlsConfig.value, out.value.tlsConfig;
                    && Delivers(store, ns, tls.caRef, t.ca)
                    && Delivers(store, ns, tls.certRef, t.cert)
                    && Delivers(store, ns, tls.keyRef, t.key))
  {
    assert !IsSet(spec, TCP) && !IsSet(spec, GRPC) && IsSet(spec, HTTP);
    ResolutionExactly(store, ns, spec);
  }

  /** A failed resolution renders the module with every secret field blank instead of dropping it. */
  lemma FailedResolutionRendersBlank(lib: Lib, store: SecretStore, ns: string, spec: ModuleSpec)
    requires Resolved(store, ns, spec).Err?
    ensures Rendered(lib, store, ns, spec) == Convert(lib, spec, None)
  {
    if Chosen(spec) == Some(HTTP) {
      var d := HTTPPatterns(HTTPPlain(lib.defaults.http, spec.http.value), spec.http.value);
      assert HTTPClient(lib, d, spec.http.value, Some(NO_SECRETS)) == HTTPClient(lib, d, spec.http.value, None);
    }
  }

  predicate NoCertificates(t: TLSSettings) {
    t.ca == "" && t.cert == "" && t.key == ""
  }

  /** Without an HTTP section no reference is read: TCP and gRPC client certificates are never injected. */
  lemma OtherSectionsGetNoSecrets(lib: Lib, store: SecretStore, ns: string, spec: ModuleSpec)
    requires spec.http.None?
    ensures Resolved(store, ns, spec) == Ok(NO_SECRETS)
    ensures Rendered(lib, store, ns, spec) == Convert(lib, spec, None)
    ensures Rendered(lib, store, ns, spec).Converted? ==>
              var m := Rendered(lib, store, ns, spec).m;
              && (spec.tcp.Some? && spec.tcp.value.tlsConfig.Some? && m.tcp.Some? ==> NoCertificates(m.tcp.value.tlsConfig))
              && (spec.grpc.Some? && spec.grpc.value.tlsConfig.Some? && m.grpc.Some? ==> NoCertificates(m.grpc.value.tlsConfig))
  {
  }

  ghost predicate SameInNamespace(s1: SecretStore, s2: SecretStore, ns: string) {
    forall name :: (Key(ns, name) in s1 <==> Key(ns, name) in s2)
                   && (Key(ns, name) in s1 ==> s1[Key(ns, name)] == s2[Key(ns, name)])
  }

  lemma SameValue(s1: SecretStore, s2: SecretStore, ns: string, ref: Option<SecretKeySelector>)
    requires SameInNamespace(s1, s2, ns)
    ensures Value(s1, ns, ref) == Value(s2, ns, ref)
  {
    if ref.Some? {
      assert Key(ns, ref.value.name) in s1 <==> Key(ns, ref.value.name) in s2;
    }
  }

  /** Secrets of other namespaces have no influence. */
  lemma SecretsStayInNamespace(lib: Lib, s1: SecretStore, s2: SecretStore, ns: string, spec: ModuleSpec)
    requires SameInNamespace(s1, s2, ns)
    ensures Rendered(lib, s1, ns, spec) == Rendered(lib, s2, ns, spec)
  {
    hide Convert, Value, SameInNamespace, TLSSource, CARef, CertRef, KeyRef, PasswordRef, ClientSecretRef;
    SameValue(s1, s2, ns, PasswordRef(spec));
    SameValue(s1, s2, ns, ClientSecretRef(spec));
    SameValue(s1, s2, ns, CARef(spec));
    SameValue(s1, s2, ns, CertRef(spec));
    SameValue(s1, s2, ns, KeyRef(spec));
  }

  /** Whether a module is rendered, under which prober and timeout, does not depend on the secrets at all. */
  lemma RenderedAsValidated(lib: Lib, store: SecretStore, ns: string, spec: ModuleSpec)
    ensures var dry, out := Convert(lib, spec, None), Rendered(lib, store, ns, spec);
            && (dry.Converted? <==> out.Converted?) && (dry.Panics? <==> out.Panics?)
            && (dry.Converted? ==> dry.m.prober == out.m.prober && dry.m.timeout == out.m.timeout)
  {
    var secrets := Resolved(store, ns, spec);
    DryRunPredictsRendering(lib, spec, if secrets.Ok? then secrets.value else NO_SECRETS);
  }
}
