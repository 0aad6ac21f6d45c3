/** The API types of the operator: what users write and what the controllers report back. */
module Api {
  import opened Base
  import opened Conditions

  datatype ObjectMeta = ObjectMeta(
    key: Key,
    labels: map<string, string>,
    annotations: map<string, string>,
    generation: nat,
    resourceVersion: nat)

  /** A stored object: metadata, the part users write, and the part controllers write. */
  datatype Object<S, T> = Object(meta: ObjectMeta, spec: S, status: T)

  // ---- BlackboxModule ----

  datatype SecretKeySelector = SecretKeySelector(name: string, key: string)

  datatype TLSConfig = TLSConfig(
    insecureSkipVerify: bool,
    caRef: Option<SecretKeySelector>,
    certRef: Option<SecretKeySelector>,
    keyRef: Option<SecretKeySelector>,
    serverName: string,
    minVersion: string,
    maxVersion: string)

  datatype BasicAuth = BasicAuth(username: string, passwordRef: SecretKeySelector)

  datatype OAuth2Config = OAuth2Config(
    clientID: string,
    clientSecretRef: SecretKeySelector,
    tokenURL: string,
    scopes: seq<string>)

  datatype HeaderMatchConfig = HeaderMatchConfig(header: string, regexp: string, allowMissing: bool)

  datatype HTTPProbeConfig = HTTPProbeConfig(
    httpMethod: string,
    headers: Option<map<string, string>>,
    body: string,
    validStatusCodes: seq<int>,
    validHTTPVersions: seq<string>,
    followRedirects: Option<bool>,
    failIfSSL: bool,
    failIfNotSSL: bool,
    failIfBodyMatchesRegexp: seq<string>,
    failIfBodyNotMatchesRegexp: seq<string>,
    failIfHeaderMatchesRegexp: seq<HeaderMatchConfig>,
    failIfHeaderNotMatchesRegexp: seq<HeaderMatchConfig>,
    preferredIPProtocol: string,
    tlsConfig: Option<TLSConfig>,
    basicAuth: Option<BasicAuth>,
    oauth2: Option<OAuth2Config>,
    proxyURL: string,
    bodySizeLimit: int)

  datatype QueryResponseConfig = QueryResponseConfig(send: string, expected: string, startTLS: bool)

  datatype TCPProbeConfig = TCPProbeConfig(
    queryResponse: seq<QueryResponseConfig>,
    tls: bool,
    tlsConfig: Option<TLSConfig>,
    preferredIPProtocol: string)

  datatype DNSRRValidator = DNSRRValidator(
    failIfMatchesRegexp: seq<string>,
    failIfNotMatchesRegexp: seq<string>)

  datatype DNSProbeConfig = DNSProbeConfig(
    queryName: string,
    queryType: string,
    queryClass: string,
    recursionDesired: Option<bool>,
    validRcodes: seq<string>,
    validateAnswer: Option<DNSRRValidator>,
    validateAuthority: Option<DNSRRValidator>,
    validateAdditional: Option<DNSRRValidator>,
    transportProtocol: string,
    dnsOverTLS: bool,
    preferredIPProtocol: string)

  datatype ICMPProbeConfig = ICMPProbeConfig(
    preferredIPProtocol: string,
    payloadSize: int,
    dontFragment: bool,
    ttl: int,
    sourceIPAddress: string)

  datatype GRPCProbeConfig = GRPCProbeConfig(
    service: string,
    tls: bool,
    tlsConfig: Option<TLSConfig>,
    preferredIPProtocol: string)

  datatype UnixProbeConfig = UnixProbeConfig(queryResponse: seq<QueryResponseConfig>)

  datatype WebsocketProbeConfig = WebsocketProbeConfig(headers: map<string, string>)

  datatype ModuleSpec = ModuleSpec(
    timeout: string,
    http: Option<HTTPProbeConfig>,
    tcp: Option<TCPProbeConfig>,
    dns: Option<DNSProbeConfig>,
    icmp: Option<ICMPProbeConfig>,
    grpc: Option<GRPCProbeConfig>,
    unix: Option<UnixProbeConfig>,
    websocket: Option<WebsocketProbeConfig>)

  datatype ModuleStatus = ModuleStatus(
    conditions: seq<Condition>,
    referencedByExporters: seq<Key>,
    prober: string,
    observedGeneration: nat)

  type Module = Object<ModuleSpec, ModuleStatus>

  // ---- BlackboxExporter ----

  datatype NamespaceSelector = NamespaceSelector(any: bool, matchNames: seq<string>)

  datatype ModuleSelector = ModuleSelector(
    namespaceSelector: NamespaceSelector,
    matchLabels: map<string, string>)

  datatype ImageSpec = ImageSpec(repository: string, tag: string, pullPolicy: string)

  datatype ServiceMonitorConfig = ServiceMonitorConfig(
    enabled: bool,
    interval: string,
    labels: map<string, string>)

  /** A value of a Kubernetes type that the operator only copies, as text. */
  type Manifest = string

  datatype ExporterSpec = ExporterSpec(
    replicas: Option<int>,
    image: ImageSpec,
    resources: Manifest,
    port: int,
    additionalArgs: seq<string>,
    serviceMonitor: ServiceMonitorConfig,
    moduleSelector: ModuleSelector,
    nodeSelector: map<string, string>,
    tolerations: seq<Manifest>,
    affinity: Option<Manifest>,
    additionalLabels: map<string, string>,
    additionalAnnotations: map<string, string>,
    enableICMP: bool)

  datatype ExporterStatus = ExporterStatus(
    conditions: seq<Condition>,
    moduleCount: nat,
    readyReplicas: int,
    observedGeneration: nat)

  type Exporter = Object<ExporterSpec, ExporterStatus>

  // ---- BlackboxProbe ----

  /** A reference whose namespace may be empty, meaning the namespace of the referring object. */
  datatype NamespacedReference = NamespacedReference(name: string, ns: string)

  datatype EmbeddedMetadata = EmbeddedMetadata(labels: map<string, string>, annotations: map<string, string>)

  datatype RelabelConfig = RelabelConfig(
    sourceLabels: seq<string>,
    separator: string,
    targetLabel: string,
    regex: string,
    replacement: string,
    action: string,
    modulus: nat)

  datatype IngressTargetConfig = IngressTargetConfig(
    selector: map<string, string>,
    namespaceSelector: NamespaceSelector,
    labels: map<string, string>,
    relabelConfigs: seq<RelabelConfig>)

  datatype ProbeSpec = ProbeSpec(
    exporterRef: NamespacedReference,
    moduleRef: NamespacedReference,
    targets: seq<string>,
    targetLabels: map<string, string>,
    ingress: Option<IngressTargetConfig>,
    interval: string,
    scrapeTimeout: string,
    probeMetadata: Option<EmbeddedMetadata>,
    additionalLabels: map<string, string>,
    metricRelabelings: seq<RelabelConfig>)

  datatype ProbeStatus = ProbeStatus(
    conditions: seq<Condition>,
    targetCount: nat,
    probeRef: Option<NamespacedReference>,
    observedGeneration: nat)

  type Probe = Object<ProbeSpec, ProbeStatus>

  // ---- condition types, internal/controller ----

  const CONDITION_READY := "Ready"
  const CONDITION_CONFIG := "ConfigValid"
}
