/** The objects an exporter owns: their contents, their names, and who may write them. */
module Owned {
  import opened Base
  import opened Api
  import opened Names

  datatype Controller = ByExporter(key: Key) | ByOther(id: string)

  /** Annotations are not the operator's: an update keeps the ones it finds, a creation sets none. */
  type Annotations = map<string, string>

  datatype ConfigMap = ConfigMap(
    labels: map<string, string>,
    annotations: Annotations,
    data: map<string, string>,
    controller: Option<Controller>)

  datatype ContainerPort = ContainerPort(name: string, number: int, protocol: string)

  /** An HTTP liveness or readiness probe of the kubelet. */
  datatype HTTPCheck = HTTPCheck(path: string, port: int)

  datatype Mount = Mount(volume: string, path: string, readOnly: bool)

  datatype ContainerSecurity = ContainerSecurity(
    allowPrivilegeEscalation: bool,
    readOnlyRootFilesystem: bool,
    drop: seq<string>,
    add: seq<string>)

  datatype PodSecurity = PodSecurity(runAsNonRoot: bool, user: int, group: int, fsGroup: int, seccomp: string)

  datatype Container = Container(
    name: string,
    image: string,
    pullPolicy: string,
    args: seq<string>,
    port: ContainerPort,
    resources: Manifest,
    security: ContainerSecurity,
    mount: Mount,
    liveness: HTTPCheck,
    readiness: HTTPCheck)

  /** The pod template. The volume of this name holds the ConfigMap. */
  datatype Pod = Pod(
    labels: map<string, string>,
    annotations: Annotations,
    security: PodSecurity,
    nodeSelector: map<string, string>,
    tolerations: seq<Manifest>,
    affinity: Option<Manifest>,
    container: Container,
    volume: string,
    configMap: string)

  datatype Deployment = Deployment(
    labels: map<string, string>,
    annotations: Annotations,
    replicas: int,
    selector: map<string, string>,
    pod: Pod,
    controller: Option<Controller>)

  datatype ServicePort = ServicePort(name: string, number: int, targetPort: string, protocol: string)

  datatype Service = Service(
    labels: map<string, string>,
    annotations: Annotations,
    selector: map<string, string>,
    port: ServicePort,
    controller: Option<Controller>)

  datatype Endpoint = Endpoint(port: string, path: string, interval: string)

  datatype ServiceMonitor = ServiceMonitor(
    labels: map<string, string>,
    annotations: Annotations,
    selector: map<string, string>,
    endpoint: Endpoint,
    controller: Option<Controller>)

  const CONFIG_FILE := "blackbox.yml"
  const MOUNT_PATH := "/etc/blackbox_exporter"
  const NOBODY := 65534
  const NAME_LABEL := "app.kubernetes.io/name"
  const INSTANCE_LABEL := "app.kubernetes.io/instance"
  const MANAGED_BY_LABEL := "app.kubernetes.io/managed-by"
  const COMPONENT_LABEL := "app.kubernetes.io/component"

  function OwnedKey(exporter: Key): Key {
    Key(exporter.ns, ResourceName(exporter.name))
  }

  function CommonLabels(key: Key, spec: ExporterSpec): map<string, string> {
    map[NAME_LABEL := "blackbox-exporter",
        INSTANCE_LABEL := key.name,
        MANAGED_BY_LABEL := "blackbox-exporter-operator",
        COMPONENT_LABEL := "exporter"] + spec.additionalLabels
  }

  function SelectorLabels(key: Key): map<string, string> {
    map[NAME_LABEL := "blackbox-exporter", INSTANCE_LABEL := key.name]
  }

  function Port(spec: ExporterSpec): int {
    if spec.port != 0 then spec.port else 9115
  }

  function Image(image: ImageSpec): string {
    (if image.repository == "" then "quay.io/prometheus/blackbox-exporter" else image.repository)
    + ":" + (if image.tag == "" then "v0.29.1" else image.tag)
  }

  function DesiredConfigMap(key: Key, spec: ExporterSpec, config: string, kept: Annotations): ConfigMap {
    ConfigMap(CommonLabels(key, spec), kept, map[CONFIG_FILE := config], Some(ByExporter(key)))
  }

  function DesiredSecurity(enableICMP: bool): ContainerSecurity {
    ContainerSecurity(false, true, ["ALL"], if enableICMP then ["NET_RAW"] else [])
  }

  function DesiredContainer(spec: ExporterSpec): Container {
    Container(
      "blackbox-exporter",
      Image(spec.image),
      spec.image.pullPolicy,
      ["--config.file=" + MOUNT_PATH + "/" + CONFIG_FILE, "--config.enable-auto-reload"] + spec.additionalArgs,
      ContainerPort("http", Port(spec), "TCP"),
      spec.resources,
      DesiredSecurity(spec.enableICMP),
      Mount("config", MOUNT_PATH, true),
      HTTPCheck("/-/healthy", Port(spec)),
      HTTPCheck("/-/healthy", Port(spec)))
  }

  function DesiredPod(key: Key, spec: ExporterSpec, kept: Annotations): Pod {
    Pod(CommonLabels(key, spec), kept, PodSecurity(true, NOBODY, NOBODY, NOBODY, "RuntimeDefault"),
        spec.nodeSelector, spec.tolerations, spec.affinity, DesiredContainer(spec), "config", ResourceName(key.name))
  }

  function DesiredDeployment(key: Key, spec: ExporterSpec, kept: Annotations, podKept: Annotations): Deployment {
    Deployment(CommonLabels(key, spec), kept, if spec.replicas.Some? then spec.replicas.value else 1, SelectorLabels(key),
               DesiredPod(key, spec, podKept), Some(ByExporter(key)))
  }

  function DesiredService(key: Key, spec: ExporterSpec, kept: Annotations): Service {
    Service(CommonLabels(key, spec), kept, SelectorLabels(key), ServicePort("http", Port(spec), "http", "TCP"), Some(ByExporter(key)))
  }

  function DesiredMonitor(key: Key, spec: ExporterSpec, kept: Annotations): ServiceMonitor {
    ServiceMonitor(
      CommonLabels(key, spec) + spec.serviceMonitor.labels,
      kept,
      SelectorLabels(key),
      Endpoint("http", "/metrics", if spec.serviceMonitor.interval != "" then spec.serviceMonitor.interval else "30s"),
      Some(ByExporter(key)))
  }

  /** Everything but the ConfigMap, annotations aside: a function of the exporter alone, once it is complete. */
  datatype Workload = Workload(deployment: Option<Deployment>, service: Option<Service>, monitor: Option<ServiceMonitor>)

  const NO_WORKLOAD := Workload(None, None, None)

  function DesiredWorkload(key: Key, spec: ExporterSpec): (w: Workload)
    ensures w.deployment.Some?
  {
    Workload(Some(DesiredDeployment(key, spec, map[], map[])), Some(DesiredService(key, spec, map[])),
             if spec.serviceMonitor.enabled then Some(DesiredMonitor(key, spec, map[])) else None)
  }

  // ---- writing them ----

  datatype Objects = Objects(
    configMaps: map<Key, ConfigMap>,
    deployments: map<Key, Deployment>,
    services: map<Key, Service>,
    monitors: map<Key, ServiceMonitor>)

  /** SetControllerReference refuses an object that another controller owns. */
  predicate MayControl(existing: Option<Controller>, key: Key) {
    existing.None? || existing == Some(ByExporter(key))
  }

  predicate ConfigMapFree(cs: map<Key, ConfigMap>, key: Key) {
    OwnedKey(key) in cs ==> MayControl(cs[OwnedKey(key)].controller, key)
  }

  predicate DeploymentFree(ds: map<Key, Deployment>, key: Key) {
    OwnedKey(key) in ds ==> MayControl(ds[OwnedKey(key)].controller, key)
  }

  predicate ServiceFree(ss: map<Key, Service>, key: Key) {
    OwnedKey(key) in ss ==> MayControl(ss[OwnedKey(key)].controller, key)
  }

  predicate MonitorFree(ms: map<Key, ServiceMonitor>, key: Key) {
    OwnedKey(key) in ms ==> MayControl(ms[OwnedKey(key)].controller, key)
  }

  function ConfigMapAnnotations(cs: map<Key, ConfigMap>, key: Key): Annotations {
    if OwnedKey(key) in cs then cs[OwnedKey(key)].annotations else map[]
  }

  function DeploymentAnnotations(ds: map<Key, Deployment>, key: Key): Annotations {
    if OwnedKey(key) in ds then ds[OwnedKey(key)].annotations else map[]
  }

  function PodAnnotations(ds: map<Key, Deployment>, key: Key): Annotations {
    if OwnedKey(key) in ds then ds[OwnedKey(key)].pod.annotations else map[]
  }

  function ServiceAnnotations(ss: map<Key, Service>, key: Key): Annotations {
    if OwnedKey(key) in ss then ss[OwnedKey(key)].annotations else map[]
  }

  function MonitorAnnotations(ms: map<Key, ServiceMonitor>, key: Key): Annotations {
    if OwnedKey(key) in ms then ms[OwnedKey(key)].annotations else map[]
  }

  // what CreateOrUpdate makes of the stored objects

  function WithConfigMap(cs: map<Key, ConfigMap>, key: Key, spec: ExporterSpec, config: string): map<Key, ConfigMap> {
    cs[OwnedKey(key) := DesiredConfigMap(key, spec, config, ConfigMapAnnotations(cs, key))]
  }

  function WithDeployment(ds: map<Key, Deployment>, key: Key, spec: ExporterSpec): map<Key, Deployment> {
    ds[OwnedKey(key) := DesiredDeployment(key, spec, DeploymentAnnotations(ds, key), PodAnnotations(ds, key))]
  }

  function WithService(ss: map<Key, Service>, key: Key, spec: ExporterSpec): map<Key, Service> {
    ss[OwnedKey(key) := DesiredService(key, spec, ServiceAnnotations(ss, key))]
  }

  function WithMonitor(ms: map<Key, ServiceMonitor>, key: Key, spec: ExporterSpec): map<Key, ServiceMonitor> {
    ms[OwnedKey(key) := DesiredMonitor(key, spec, MonitorAnnotations(ms, key))]
  }

  /** The store after reconciling the owned objects of one exporter, and whether all writes went through. */
  function Reconciled(o: Objects, key: Key, spec: ExporterSpec, config: string): (Objects, bool) {
    if !ConfigMapFree(o.configMaps, key) then (o, false)
    else
      var o1 := o.(configMaps := WithConfigMap(o.configMaps, key, spec, config));
      if !DeploymentFree(o.deployments, key) then (o1, false)
      else
        var o2 := o1.(deployments := WithDeployment(o.deployments, key, spec));
        if !ServiceFree(o.services, key) then (o2, false)
        else
          var o3 := o2.(services := WithService(o.services, key, spec));
          if !spec.serviceMonitor.enabled then (o3.(monitors := o3.monitors - {OwnedKey(key)}), true)
          else if !MonitorFree(o.monitors, key) then (o3, false)
          else (o3.(monitors := WithMonitor(o.monitors, key, spec)), true)
  }

  /** The one container of the pod. */
  method BuildContainer(spec: ExporterSpec) returns (container: Container)
    ensures container == DesiredContainer(spec)
  {
    var port := 9115;
    if spec.port != 0 {
      port := spec.port;
    }
    var repo, tag := spec.image.repository, spec.image.tag;
    if repo == "" {
      repo := "quay.io/prometheus/blackbox-exporter";
    }
    if tag == "" {
      tag := "v0.29.1";
    }
    var args := ["--config.file=" + MOUNT_PATH + "/" + CONFIG_FILE, "--config.enable-auto-reload"];
    args := args + spec.additionalArgs;
    var security := ContainerSecurity(false, true, ["ALL"], []);
    if spec.enableICMP {
      security := security.(add := ["NET_RAW"]);
    }
    container := Container("blackbox-exporter", repo + ":" + tag, spec.image.pullPolicy, args, ContainerPort("http", port, "TCP"),
                           spec.resources, security, Mount("config", MOUNT_PATH, true),
                           HTTPCheck("/-/healthy", port), HTTPCheck("/-/healthy", port));
  }

  /** The part of the API server that holds owned objects. */
  class OwnedObjects {
    var configMaps: map<Key, ConfigMap>
    var deployments: map<Key, Deployment>
    var services: map<Key, Service>
    var monitors: map<Key, ServiceMonitor>

    ghost function View(): Objects
      reads this
    {
      Objects(configMaps, deployments, services, monitors)
    }

    constructor ()
      ensures View() == Objects(map[], map[], map[], map[])
    {
      configMaps, deployments, services, monitors := map[], map[], map[], map[];
    }

    method ReconcileConfigMap(key: Key, spec: ExporterSpec, config: string) returns (ok: bool)
      modifies `configMaps
      ensures ok == ConfigMapFree(old(configMaps), key)
      ensures configMaps == if ok then WithConfigMap(old(configMaps), key, spec, config) else old(configMaps)
    {
      var at := OwnedKey(key);
      var cm := if at in configMaps then configMaps[at] else ConfigMap(map[], map[], map[], None);
      cm := cm.(labels := CommonLabels(key, spec), data := map[CONFIG_FILE := config]);
      if !MayControl(cm.controller, key) {
        return false;
      }
      cm := cm.(controller := Some(ByExporter(key)));
      configMaps := configMaps[at := cm];
      return true;
    }

    method ReconcileDeployment(key: Key, spec: ExporterSpec) returns (ok: bool)
      modifies `deployments
      ensures ok == DeploymentFree(old(deployments), key)
      ensures deployments == if ok then WithDeployment(old(deployments), key, spec) else old(deployments)
    {
      var replicas := 1;
      if spec.replicas.Some? {
        replicas := spec.replicas.value;
      }
      var labels := CommonLabels(key, spec);
      var container := BuildContainer(spec);
      if !DeploymentFree(deployments, key) {
        return false;
      }
      var annotations, podAnnotations := DeploymentAnnotations(deployments, key), PodAnnotations(deployments, key);
      var pod := Pod(labels, podAnnotations, PodSecurity(true, NOBODY, NOBODY, NOBODY, "RuntimeDefault"),
                     spec.nodeSelector, spec.tolerations, spec.affinity, container, "config", ResourceName(key.name));
      deployments := deployments[OwnedKey(key) :=
        Deployment(labels, annotations, replicas, SelectorLabels(key), pod, Some(ByExporter(key)))];
      return true;
    }

    method ReconcileService(key: Key, spec: ExporterSpec) returns (ok: bool)
      modifies `services
      ensures ok == ServiceFree(old(services), key)
      ensures services == if ok then WithService(old(services), key, spec) else old(services)
    {
      var at := OwnedKey(key);
      var port := 9115;
      if spec.port != 0 {
        port := spec.port;
      }
      if !ServiceFree(services, key) {
        return false;
      }
      var annotations := ServiceAnnotations(services, key);
      services := services[at := Service(CommonLabels(key, spec), annotations, SelectorLabels(key),
                                         ServicePort("http", port, "http", "TCP"), Some(ByExporter(key)))];
      return true;
    }

    method ReconcileServiceMonitor(key: Key, spec: ExporterSpec) returns (ok: bool)
      modifies `monitors
      ensures ok == (!spec.serviceMonitor.enabled
                     || MonitorFree(old(monitors), key))
      ensures monitors == if !spec.serviceMonitor.enabled then old(monitors) - {OwnedKey(key)}
                          else if ok then WithMonitor(old(monitors), key, spec) else old(monitors)
    {
      var at := OwnedKey(key);
      if !spec.serviceMonitor.enabled {
        if at in monitors {
          monitors := monitors - {at};
        }
        return true;
      }
      var interval := "30s";
      if spec.serviceMonitor.interval != "" {
        interval := spec.serviceMonitor.interval;
      }
      var labels := CommonLabels(key, spec) + spec.serviceMonitor.labels;
      if !MonitorFree(monitors, key) {
        return false;
      }
      var annotations := MonitorAnnotations(monitors, key);
      monitors := monitors[at := ServiceMonitor(labels, annotations, SelectorLabels(key),
                                                Endpoint("http", "/metrics", interval), Some(ByExporter(key)))];
      return true;
    }

    method ReconcileOwned(key: Key, spec: ExporterSpec, config: string) returns (ok: bool)
      modifies this
      ensures (View(), ok) == Reconciled(old(View()), key, spec, config)
    {
      ok := ReconcileConfigMap(key, spec, config);
      if !ok { return; }
      ok := ReconcileDeployment(key, spec);
      if !ok { return; }
      ok := ReconcileService(key, spec);
      if !ok { return; }
      ok := ReconcileServiceMonitor(key, spec);
    }
  }

  // ---- what reconciling keeps, reaches and leaves alone ----

  lemma OwnedKeyInjective(a: Key, b: Key)
    requires OwnedKey(a) == OwnedKey(b)
    ensures a == b
  {
    ResourceNameInjective(a.name, b.name);
  }

  ghost predicate SameEntry<T>(a: map<Key, T>, b: map<Key, T>, at: Key) {
    (at in a <==> at in b) && (at in a ==> a[at] == b[at])
  }

  ghost predicate SameAt(o1: Objects, o2: Objects, at: Key) {
    && SameEntry(o1.configMaps, o2.configMaps, at)
    && SameEntry(o1.deployments, o2.deployments, at)
    && SameEntry(o1.services, o2.services, at)
    && SameEntry(o1.monitors, o2.monitors, at)
  }

  lemma OtherEntries<T>(a: map<Key, T>, k: Key, x: T, at: Key)
    requires at != k
    ensures SameEntry(a, a[k := x], at) && SameEntry(a, a - {k}, at) && SameEntry(a, a, at)
  {
  }

  lemma OnePassTouchesOneKey(o: Objects, key: Key, spec: ExporterSpec, config: string, at: Key)
    requires at != OwnedKey(key)
    ensures SameAt(o, Reconciled(o, key, spec, config).0, at)
  {
    hide SameEntry, DesiredConfigMap, DesiredDeployment, DesiredService, DesiredMonitor, MayControl, ConfigMapAnnotations,
         DeploymentAnnotations, PodAnnotations, ServiceAnnotations, MonitorAnnotations;
    var k := OwnedKey(key);
    OtherEntries(o.configMaps, k, DesiredConfigMap(key, spec, config, ConfigMapAnnotations(o.configMaps, key)), at);
    OtherEntries(o.deployments, k,
      DesiredDeployment(key, spec, DeploymentAnnotations(o.deployments, key), PodAnnotations(o.deployments, key)), at);
    OtherEntries(o.services, k, DesiredService(key, spec, ServiceAnnotations(o.services, key)), at);
    OtherEntries(o.monitors, k, DesiredMonitor(key, spec, MonitorAnnotations(o.monitors, key)), at);
  }

  /** One reconcile of the objects of one exporter. */
  datatype OwnedPass = OwnedPass(key: Key, spec: ExporterSpec, config: string)

  function AfterPasses(o: Objects, passes: seq<OwnedPass>): Objects
    decreases |passes|
  {
    if passes == [] then o
    else AfterPasses(Reconciled(o, passes[0].key, passes[0].spec, passes[0].config).0, passes[1..])
  }

  /** However long the run, reconciling other exporters never changes the objects of this one. */
  lemma {:induction false} OtherExportersUntouched(o: Objects, passes: seq<OwnedPass>, key: Key)
    requires forall p :: p in passes ==> p.key != key
    ensures SameAt(o, AfterPasses(o, passes), OwnedKey(key))
    decreases |passes|
  {
    if passes != [] {
      var p := passes[0];
      if OwnedKey(p.key) == OwnedKey(key) {
        OwnedKeyInjective(p.key, key);
      }
      OnePassTouchesOneKey(o, p.key, p.spec, p.config, OwnedKey(key));
      OtherExportersUntouched(Reconciled(o, p.key, p.spec, p.config).0, passes[1..], key);
    }
  }

  function Desired(o: Objects, key: Key, spec: ExporterSpec, config: string): Objects {
    Objects(WithConfigMap(o.configMaps, key, spec, config),
            WithDeployment(o.deployments, key, spec),
            WithService(o.services, key, spec),
            if spec.serviceMonitor.enabled then WithMonitor(o.monitors, key, spec) else o.monitors - {OwnedKey(key)})
  }

  lemma CompletePassIsDesired(o: Objects, key: Key, spec: ExporterSpec, config: string)
    ensures Reconciled(o, key, spec, config).1 <==>
              && ConfigMapFree(o.configMaps, key) && DeploymentFree(o.deployments, key) && ServiceFree(o.services, key)
              && (spec.serviceMonitor.enabled ==> MonitorFree(o.monitors, key))
    ensures Reconciled(o, key, spec, config).1 ==> Reconciled(o, key, spec, config).0 == Desired(o, key, spec, config)
  {
  }

  lemma KeepsAnnotations(key: Key, spec: ExporterSpec, config: string, kept: Annotations, podKept: Annotations)
    ensures DesiredConfigMap(key, spec, config, kept).annotations == kept
    ensures DesiredDeployment(key, spec, kept, podKept).annotations == kept
    ensures DesiredDeployment(key, spec, kept, podKept).pod.annotations == podKept
    ensures DesiredService(key, spec, kept).annotations == kept
    ensures DesiredMonitor(key, spec, kept).annotations == kept
  {
  }

  lemma DesiredTwice(o: Objects, key: Key, spec: ExporterSpec, config: string)
    ensures Desired(Desired(o, key, spec, config), key, spec, config) == Desired(o, key, spec, config)
  {
    hide DesiredConfigMap, DesiredDeployment, DesiredService, DesiredMonitor;
    KeepsAnnotations(key, spec, config, ConfigMapAnnotations(o.configMaps, key), map[]);
    KeepsAnnotations(key, spec, config, DeploymentAnnotations(o.deployments, key), PodAnnotations(o.deployments, key));
    KeepsAnnotations(key, spec, config, ServiceAnnotations(o.services, key), map[]);
    KeepsAnnotations(key, spec, config, MonitorAnnotations(o.monitors, key), map[]);
    var d1 := Desired(o, key, spec, config);
    var d2 := Desired(d1, key, spec, config);
    assert d2.configMaps == d1.configMaps;
    assert d2.deployments == d1.deployments;
    assert d2.services == d1.services;
    assert d2.monitors == d1.monitors;
  }

  /** The stored objects with the annotations of others left aside. */
  function WorkloadAt(o: Objects, at: Key): Workload
    requires at in o.deployments && at in o.services
  {
    var d := o.deployments[at];
    Workload(Some(d.(annotations := map[], pod := d.pod.(annotations := map[]))), Some(o.services[at].(annotations := map[])),
             if at in o.monitors then Some(o.monitors[at].(annotations := map[])) else None)
  }

  /** A complete pass stores exactly the desired objects, and repeating it changes nothing. */
  lemma CompletePassReachesDesired(o: Objects, key: Key, spec: ExporterSpec, config: string)
    requires Reconciled(o, key, spec, config).1
    ensures var after, at := Reconciled(o, key, spec, config).0, OwnedKey(key);
            && at in after.configMaps && after.configMaps[at].data == map[CONFIG_FILE := config]
            && at in after.deployments && at in after.services
            && WorkloadAt(after, at) == DesiredWorkload(key, spec)
            && Reconciled(after, key, spec, config) == (after, true)
  {
    var after := Desired(o, key, spec, config);
    CompletePassIsDesired(o, key, spec, config);
    CompletePassIsDesired(after, key, spec, config);
    DesiredTwice(o, key, spec, config);
  }

  ghost predicate Carries(found: Annotations, wanted: Annotations) {
    forall k :: k in wanted ==> k in found && found[k] == wanted[k]
  }

  lemma SameDesired(key: Key, spec: ExporterSpec, config: string, wanted: Annotations, kept: Annotations, podKept: Annotations)
    ensures var other := spec.(additionalAnnotations := wanted);
            && DesiredConfigMap(key, other, config, kept) == DesiredConfigMap(key, spec, config, kept)
            && DesiredDeployment(key, other, kept, podKept) == DesiredDeployment(key, spec, kept, podKept)
            && DesiredService(key, other, kept) == DesiredService(key, spec, kept)
            && DesiredMonitor(key, other, kept) == DesiredMonitor(key, spec, kept)
  {
  }

  /** No object depends on `additionalAnnotations`, whatever they say. */
  lemma AnnotationsUnread(o: Objects, key: Key, spec: ExporterSpec, config: string, wanted: Annotations)
    ensures Reconciled(o, key, spec.(additionalAnnotations := wanted), config) == Reconciled(o, key, spec, config)
  {
    hide DesiredConfigMap, DesiredDeployment, DesiredService, DesiredMonitor, MayControl, ConfigMapAnnotations,
         DeploymentAnnotations, PodAnnotations, ServiceAnnotations, MonitorAnnotations;
    SameDesired(key, spec, config, wanted, ConfigMapAnnotations(o.configMaps, key), map[]);
    SameDesired(key, spec, config, wanted, DeploymentAnnotations(o.deployments, key), PodAnnotations(o.deployments, key));
    SameDesired(key, spec, config, wanted, ServiceAnnotations(o.services, key), map[]);
    SameDesired(key, spec, config, wanted, MonitorAnnotations(o.monitors, key), map[]);
  }

  /** The documentation promises `additionalAnnotations` on all managed objects. They carry them after a complete pass
      exactly if they did before: a pass leaves each object with the annotations it had, or with none if it creates it. */
  lemma AnnotationsCarriedExactly(o: Objects, key: Key, spec: ExporterSpec, config: string)
    requires Reconciled(o, key, spec, config).1
    ensures var after, wanted := Reconciled(o, key, spec, config).0, spec.additionalAnnotations;
            && (Carries(ConfigMapAnnotations(after.configMaps, key), wanted) <==> Carries(ConfigMapAnnotations(o.configMaps, key), wanted))
            && (Carries(DeploymentAnnotations(after.deployments, key), wanted) <==> Carries(DeploymentAnnotations(o.deployments, key), wanted))
            && (Carries(PodAnnotations(after.deployments, key), wanted) <==> Carries(PodAnnotations(o.deployments, key), wanted))
            && (Carries(ServiceAnnotations(after.services, key), wanted) <==> Carries(ServiceAnnotations(o.services, key), wanted))
            && (spec.serviceMonitor.enabled ==>
                  (Carries(MonitorAnnotations(after.monitors, key), wanted) <==> Carries(MonitorAnnotations(o.monitors, key), wanted)))
  {
    CompletePassIsDesired(o, key, spec, config);
    hide Reconciled, MayControl, OwnedKey, CommonLabels, SelectorLabels, Image, Port, ResourceName, Carries;
  }

  /** Objects under another controller survive a pass, with one exception: a disabled ServiceMonitor is deleted
      by name alone, so a foreign one of that name is lost exactly when the pass gets that far. */
  lemma ForeignObjectsSurvive(o: Objects, key: Key, spec: ExporterSpec, config: string)
    ensures var after, at := Reconciled(o, key, spec, config).0, OwnedKey(key);
            && (at in o.configMaps && o.configMaps[at].controller !in {None, Some(ByExporter(key))} ==> after == o)
            && (at in o.deployments && o.deployments[at].controller !in {None, Some(ByExporter(key))} ==> after.deployments == o.deployments)
            && (at in o.services && o.services[at].controller !in {None, Some(ByExporter(key))} ==> after.services == o.services)
            && (at in o.monitors && o.monitors[at].controller !in {None, Some(ByExporter(key))} ==>
                  (at !in after.monitors <==> !spec.serviceMonitor.enabled && Reconciled(o, key, spec, config).1)
                  && (at in after.monitors ==> after.monitors[at] == o.monitors[at]))
  {
  }

  ghost predicate Satisfies(labels: map<string, string>, selector: map<string, string>) {
    forall k :: k in selector ==> k in labels && labels[k] == selector[k]
  }

  ghost predicate AbsentOrAgrees(labels: map<string, string>, k: string, v: string) {
    k in labels ==> labels[k] == v
  }

  /** The pods carry what the Deployment and Service select, and the Service what the ServiceMonitor selects,
      exactly when additionalLabels leave the two selector keys alone or repeat their values. */
  lemma SelectorsSatisfiedExactly(key: Key, spec: ExporterSpec)
    ensures var w := DesiredWorkload(key, spec);
            var fits := AbsentOrAgrees(spec.additionalLabels, NAME_LABEL, "blackbox-exporter")
                        && AbsentOrAgrees(spec.additionalLabels, INSTANCE_LABEL, key.name);
            var pod := w.deployment.value.pod;
            && (Satisfies(pod.labels, w.deployment.value.selector) <==> fits)
            && (Satisfies(pod.labels, w.service.value.selector) <==> fits)
            && (w.monitor.Some? ==> (Satisfies(w.service.value.labels, w.monitor.value.selector) <==> fits))
  {
    var labels, selector := CommonLabels(key, spec), SelectorLabels(key);
    assert INSTANCE_LABEL != NAME_LABEL by { assert |INSTANCE_LABEL| != |NAME_LABEL|; }
    assert MANAGED_BY_LABEL != NAME_LABEL && MANAGED_BY_LABEL != INSTANCE_LABEL by {
      assert |MANAGED_BY_LABEL| != |NAME_LABEL| && |MANAGED_BY_LABEL| != |INSTANCE_LABEL|;
    }
    assert COMPONENT_LABEL != NAME_LABEL && COMPONENT_LABEL != INSTANCE_LABEL by {
      assert |COMPONENT_LABEL| != |NAME_LABEL| && |COMPONENT_LABEL| != |INSTANCE_LABEL|;
    }
    assert NAME_LABEL in selector && INSTANCE_LABEL in selector;
  }

  /** The names and numbers of ports fit together: the monitor scrapes the port of the Service, which leads to the port of
      the container, which is the one its checks ask; and the ConfigMap is mounted where the container looks for it. */
  lemma PortsAndMountFit(key: Key, spec: ExporterSpec)
    ensures var w, container := DesiredWorkload(key, spec), DesiredContainer(spec);
            var pod := w.deployment.value.pod;
            && pod.container == container
            && w.service.value.port.targetPort == container.port.name && w.service.value.port.number == container.port.number
            && (w.monitor.Some? ==> w.monitor.value.endpoint.port == w.service.value.port.name)
            && container.liveness.port == container.port.number && container.readiness.port == container.port.number
            && pod.volume == container.mount.volume && pod.configMap == OwnedKey(key).name
            && container.args[0] == "--config.file=" + container.mount.path + "/" + CONFIG_FILE
  {
    hide CommonLabels, SelectorLabels, Image, DesiredSecurity, Port;
  }

  /** The restricted Pod Security Standard, in what the operator decides. */
  predicate Restricted(pod: Pod) {
    && pod.security.runAsNonRoot && pod.security.user != 0 && pod.security.seccomp in {"RuntimeDefault", "Localhost"}
    && !pod.container.security.allowPrivilegeEscalation
    && "ALL" in pod.container.security.drop
    && (forall c :: c in pod.container.security.add ==> c == "NET_BIND_SERVICE")
  }

  /** The pods meet it exactly if ICMP probes are not enabled. */
  lemma RestrictedExactly(key: Key, spec: ExporterSpec, kept: Annotations)
    ensures Restricted(DesiredPod(key, spec, kept)) <==> !spec.enableICMP
  {
    if spec.enableICMP {
      assert "NET_RAW" in DesiredPod(key, spec, kept).container.security.add;
      assert "NET_RAW"[4] != "NET_BIND_SERVICE"[4];
    }
  }
}
