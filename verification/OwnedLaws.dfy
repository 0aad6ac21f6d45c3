/** What the owned objects say, field by field, against the spec of their exporter. */
module OwnedLaws {
  import opened Base
  import opened Api
  import opened Owned

  /** The four common labels, each unless additionalLabels override it, and additionalLabels. */
  ghost predicate CommonLabelsRead(labels: map<string, string>, exporterName: string, additional: map<string, string>) {
    && labels.Keys == {"app.kubernetes.io/name", "app.kubernetes.io/instance", "app.kubernetes.io/managed-by",
                       "app.kubernetes.io/component"} + additional.Keys
    && (forall k :: k in additional ==> labels[k] == additional[k])
    && ("app.kubernetes.io/name" !in additional ==> labels["app.kubernetes.io/name"] == "blackbox-exporter")
    && ("app.kubernetes.io/instance" !in additional ==> labels["app.kubernetes.io/instance"] == exporterName)
    && ("app.kubernetes.io/managed-by" !in additional ==> labels["app.kubernetes.io/managed-by"] == "blackbox-exporter-operator")
    && ("app.kubernetes.io/component" !in additional ==> labels["app.kubernetes.io/component"] == "exporter")
  }

  ghost predicate SelectsInstance(selector: map<string, string>, exporterName: string) {
    selector == map["app.kubernetes.io/name" := "blackbox-exporter", "app.kubernetes.io/instance" := exporterName]
  }

  ghost predicate PortRead(port: int, spec: ExporterSpec) {
    && (spec.port != 0 ==> port == spec.port)
    && (spec.port == 0 ==> port == 9115)
  }

  ghost predicate ImageRead(image: string, given: ImageSpec) {
    image == (if given.repository != "" then given.repository else "quay.io/prometheus/blackbox-exporter") + ":"
             + (if given.tag != "" then given.tag else "v0.29.1")
  }

  ghost predicate ConfigMapRead(cm: ConfigMap, key: Key, spec: ExporterSpec, config: string) {
    && CommonLabelsRead(cm.labels, key.name, spec.additionalLabels)
    && cm.data == map["blackbox.yml" := config]
    && cm.controller == Some(ByExporter(key))
  }

  ghost predicate ContainerRead(c: Container, spec: ExporterSpec) {
    && c.name == "blackbox-exporter"
    && ImageRead(c.image, spec.image) && c.pullPolicy == spec.image.pullPolicy
    && c.args == ["--config.file=" + "/etc/blackbox_exporter" + "/" + "blackbox.yml", "--config.enable-auto-reload"] + spec.additionalArgs
    && c.port.name == "http" && PortRead(c.port.number, spec) && c.port.protocol == "TCP"
    && c.resources == spec.resources
    && c.mount == Mount("config", "/etc/blackbox_exporter", true)
    && c.liveness.path == "/-/healthy" && PortRead(c.liveness.port, spec)
    && c.readiness.path == "/-/healthy" && PortRead(c.readiness.port, spec)
    && !c.security.allowPrivilegeEscalation && c.security.readOnlyRootFilesystem && c.security.drop == ["ALL"]
    && (spec.enableICMP ==> c.security.add == ["NET_RAW"]) && (!spec.enableICMP ==> c.security.add == [])
  }

  ghost predicate DeploymentRead(d: Deployment, key: Key, spec: ExporterSpec) {
    && CommonLabelsRead(d.labels, key.name, spec.additionalLabels)
    && (spec.replicas.Some? ==> d.replicas == spec.replicas.value) && (spec.replicas.None? ==> d.replicas == 1)
    && SelectsInstance(d.selector, key.name)
    && d.controller == Some(ByExporter(key))
    && CommonLabelsRead(d.pod.labels, key.name, spec.additionalLabels)
    && d.pod.nodeSelector == spec.nodeSelector && d.pod.tolerations == spec.tolerations && d.pod.affinity == spec.affinity
    && d.pod.security.runAsNonRoot && d.pod.security.seccomp == "RuntimeDefault"
    && d.pod.security.user == 65534 && d.pod.security.group == 65534 && d.pod.security.fsGroup == 65534
    && d.pod.volume == "config" && d.pod.configMap == key.name + "-blackbox-exporter"
    && ContainerRead(d.pod.container, spec)
  }

  ghost predicate ServiceRead(s: Service, key: Key, spec: ExporterSpec) {
    && CommonLabelsRead(s.labels, key.name, spec.additionalLabels)
    && SelectsInstance(s.selector, key.name)
    && s.port.name == "http" && PortRead(s.port.number, spec) && s.port.targetPort == "http" && s.port.protocol == "TCP"
    && s.controller == Some(ByExporter(key))
  }

  /** The labels of the ServiceMonitor settings come over the common ones. */
  ghost predicate MonitorRead(m: ServiceMonitor, key: Key, spec: ExporterSpec) {
    && CommonLabelsRead(m.labels, key.name, spec.additionalLabels + spec.serviceMonitor.labels)
    && SelectsInstance(m.selector, key.name)
    && m.endpoint.port == "http" && m.endpoint.path == "/metrics"
    && (spec.serviceMonitor.interval != "" ==> m.endpoint.interval == spec.serviceMonitor.interval)
    && (spec.serviceMonitor.interval == "" ==> m.endpoint.interval == "30s")
    && m.controller == Some(ByExporter(key))
  }

  // ---- the specification reads so ----

  lemma FourNames()
    ensures |"app.kubernetes.io/name"| == 22 && |"app.kubernetes.io/instance"| == 26 && |"app.kubernetes.io/managed-by"| == 28
            && |"app.kubernetes.io/component"| == 27
  {
  }

  lemma CommonLabelsLaw(key: Key, spec: ExporterSpec)
    ensures CommonLabelsRead(CommonLabels(key, spec), key.name, spec.additionalLabels)
    ensures CommonLabelsRead(CommonLabels(key, spec) + spec.serviceMonitor.labels, key.name,
                             spec.additionalLabels + spec.serviceMonitor.labels)
  {
    FourNames();
  }

  lemma SelectorLaw(key: Key)
    ensures SelectsInstance(SelectorLabels(key), key.name)
  {
  }

  lemma ContainerLaw(spec: ExporterSpec)
    ensures ContainerRead(DesiredContainer(spec), spec)
  {
  }

  lemma DesiredLaw(key: Key, spec: ExporterSpec, config: string, kept: Annotations, podKept: Annotations)
    ensures ConfigMapRead(DesiredConfigMap(key, spec, config, kept), key, spec, config)
    ensures DeploymentRead(DesiredDeployment(key, spec, kept, podKept), key, spec)
    ensures ServiceRead(DesiredService(key, spec, kept), key, spec)
    ensures MonitorRead(DesiredMonitor(key, spec, kept), key, spec)
  {
    CommonLabelsLaw(key, spec);
    SelectorLaw(key);
    ContainerLaw(spec);
    hide CommonLabelsRead, CommonLabels, SelectsInstance, SelectorLabels, ContainerRead, DesiredContainer;
  }

  // ---- what a pass stores ----

  /** SetControllerReference refuses: something else controls the object. */
  ghost predicate Foreign(controller: Option<Controller>, key: Key) {
    controller.Some? && controller.value != ByExporter(key)
  }

  ghost predicate Refused(o: Objects, key: Key, at: Key, kind: nat) {
    match kind
    case 0 => at in o.configMaps && Foreign(o.configMaps[at].controller, key)
    case 1 => at in o.deployments && Foreign(o.deployments[at].controller, key)
    case 2 => at in o.services && Foreign(o.services[at].controller, key)
    case _ => at in o.monitors && Foreign(o.monitors[at].controller, key)
  }

  /** The pass gets as far as writing the object of this kind: ConfigMap, Deployment, Service and ServiceMonitor in turn,
      up to the first that something else controls. */
  ghost predicate Reaches(o: Objects, key: Key, at: Key, kind: nat) {
    && !Refused(o, key, at, 0)
    && (kind >= 1 ==> !Refused(o, key, at, 1))
    && (kind >= 2 ==> !Refused(o, key, at, 2))
    && (kind >= 3 ==> !Refused(o, key, at, 3))
  }

  /** Nothing but the entry at this key differs. */
  ghost predicate SameButAt<T>(a: map<Key, T>, b: map<Key, T>, at: Key) {
    a - {at} == b - {at}
  }

  lemma OwnedName(key: Key)
    ensures OwnedKey(key) == Key(key.ns, key.name + "-blackbox-exporter")
  {
  }

  /** The pass, kind by kind. */
  lemma PassByKind(o: Objects, key: Key, spec: ExporterSpec, config: string)
    ensures var (after, ok) := Reconciled(o, key, spec, config);
            var first := ConfigMapFree(o.configMaps, key);
            var second := first && DeploymentFree(o.deployments, key);
            var third := second && ServiceFree(o.services, key);
            var on := spec.serviceMonitor.enabled;
            && after.configMaps == (if first then WithConfigMap(o.configMaps, key, spec, config) else o.configMaps)
            && after.deployments == (if second then WithDeployment(o.deployments, key, spec) else o.deployments)
            && after.services == (if third then WithService(o.services, key, spec) else o.services)
            && ok == (third && (on ==> MonitorFree(o.monitors, key)))
            && after.monitors == (if !ok then o.monitors
                                  else if on then WithMonitor(o.monitors, key, spec) else o.monitors - {OwnedKey(key)})
  {
    hide ConfigMapFree, DeploymentFree, ServiceFree, MonitorFree, WithConfigMap, WithDeployment, WithService, WithMonitor, OwnedKey;
  }

  lemma FreeUnlessRefused(o: Objects, key: Key, at: Key)
    requires at == OwnedKey(key)
    ensures Reaches(o, key, at, 0) == ConfigMapFree(o.configMaps, key)
    ensures Reaches(o, key, at, 1) == (ConfigMapFree(o.configMaps, key) && DeploymentFree(o.deployments, key))
    ensures Reaches(o, key, at, 2) == (Reaches(o, key, at, 1) && ServiceFree(o.services, key))
    ensures Reaches(o, key, at, 3) == (Reaches(o, key, at, 2) && MonitorFree(o.monitors, key))
  {
    hide OwnedKey;
  }

  lemma StoredConfigMap(o: Objects, key: Key, spec: ExporterSpec, config: string, at: Key)
    requires at == Key(key.ns, key.name + "-blackbox-exporter")
    ensures var after := Reconciled(o, key, spec, config).0;
            && (!Reaches(o, key, at, 0) ==> after.configMaps == o.configMaps)
            && (Reaches(o, key, at, 0) ==>
                  && at in after.configMaps && ConfigMapRead(after.configMaps[at], key, spec, config)
                  && after.configMaps[at].annotations == (if at in o.configMaps then o.configMaps[at].annotations else map[])
                  && SameButAt(o.configMaps, after.configMaps, at))
  {
    OwnedName(key);
    PassByKind(o, key, spec, config);
    FreeUnlessRefused(o, key, at);
    DesiredLaw(key, spec, config, ConfigMapAnnotations(o.configMaps, key), map[]);
    KeepsAnnotations(key, spec, config, ConfigMapAnnotations(o.configMaps, key), map[]);
    hide OwnedKey, Reconciled, Reaches, ConfigMapFree, DeploymentFree, ServiceFree, MonitorFree, ConfigMapRead, DesiredConfigMap;
  }

  lemma StoredDeployment(o: Objects, key: Key, spec: ExporterSpec, config: string, at: Key)
    requires at == Key(key.ns, key.name + "-blackbox-exporter")
    ensures var after := Reconciled(o, key, spec, config).0;
            && (!Reaches(o, key, at, 1) ==> after.deployments == o.deployments)
            && (Reaches(o, key, at, 1) ==>
                  && at in after.deployments && DeploymentRead(after.deployments[at], key, spec)
                  && after.deployments[at].annotations == (if at in o.deployments then o.deployments[at].annotations else map[])
                  && after.deployments[at].pod.annotations == (if at in o.deployments then o.deployments[at].pod.annotations else map[])
                  && SameButAt(o.deployments, after.deployments, at))
  {
    OwnedName(key);
    PassByKind(o, key, spec, config);
    FreeUnlessRefused(o, key, at);
    DesiredLaw(key, spec, config, DeploymentAnnotations(o.deployments, key), PodAnnotations(o.deployments, key));
    KeepsAnnotations(key, spec, config, DeploymentAnnotations(o.deployments, key), PodAnnotations(o.deployments, key));
    hide OwnedKey, Reconciled, Reaches, ConfigMapFree, DeploymentFree, ServiceFree, MonitorFree, DeploymentRead, DesiredDeployment;
  }

  lemma StoredService(o: Objects, key: Key, spec: ExporterSpec, config: string, at: Key)
    requires at == Key(key.ns, key.name + "-blackbox-exporter")
    ensures var after := Reconciled(o, key, spec, config).0;
            && (!Reaches(o, key, at, 2) ==> after.services == o.services)
            && (Reaches(o, key, at, 2) ==>
                  && at in after.services && ServiceRead(after.services[at], key, spec)
                  && after.services[at].annotations == (if at in o.services then o.services[at].annotations else map[])
                  && SameButAt(o.services, after.services, at))
  {
    OwnedName(key);
    PassByKind(o, key, spec, config);
    FreeUnlessRefused(o, key, at);
    DesiredLaw(key, spec, config, ServiceAnnotations(o.services, key), map[]);
    KeepsAnnotations(key, spec, config, ServiceAnnotations(o.services, key), map[]);
    hide OwnedKey, Reconciled, Reaches, ConfigMapFree, DeploymentFree, ServiceFree, MonitorFree, ServiceRead, DesiredService;
  }

  /** A ServiceMonitor that is not enabled is removed, whatever controls it; one that is enabled completes the pass only
      under the exporter's control. */
  lemma StoredMonitor(o: Objects, key: Key, spec: ExporterSpec, config: string, at: Key)
    requires at == Key(key.ns, key.name + "-blackbox-exporter")
    ensures var after := Reconciled(o, key, spec, config).0;
            var on := spec.serviceMonitor.enabled;
            && Reconciled(o, key, spec, config).1 == Reaches(o, key, at, if on then 3 else 2)
            && (!Reaches(o, key, at, if on then 3 else 2) ==> after.monitors == o.monitors)
            && (!on && Reaches(o, key, at, 2) ==> after.monitors == o.monitors - {at})
            && (on && Reaches(o, key, at, 3) ==>
                  && at in after.monitors && MonitorRead(after.monitors[at], key, spec)
                  && after.monitors[at].annotations == (if at in o.monitors then o.monitors[at].annotations else map[])
                  && SameButAt(o.monitors, after.monitors, at))
  {
    OwnedName(key);
    PassByKind(o, key, spec, config);
    FreeUnlessRefused(o, key, at);
    DesiredLaw(key, spec, config, MonitorAnnotations(o.monitors, key), map[]);
    KeepsAnnotations(key, spec, config, MonitorAnnotations(o.monitors, key), map[]);
    hide OwnedKey, Reconciled, Reaches, ConfigMapFree, DeploymentFree, ServiceFree, MonitorFree, MonitorRead, DesiredMonitor;
  }

  /** What is written of a workload reads as the spec says. */
  ghost predicate WorkloadRead(w: Workload, key: Key, spec: ExporterSpec) {
    && w.deployment.Some? && DeploymentRead(w.deployment.value, key, spec)
    && w.service.Some? && ServiceRead(w.service.value, key, spec)
    && w.monitor.Some? == spec.serviceMonitor.enabled
    && (w.monitor.Some? ==> MonitorRead(w.monitor.value, key, spec))
  }

  lemma WorkloadLaw(key: Key, spec: ExporterSpec)
    ensures WorkloadRead(DesiredWorkload(key, spec), key, spec)
  {
    DesiredLaw(key, spec, "", map[], map[]);
    hide DeploymentRead, ServiceRead, MonitorRead, DesiredDeployment, DesiredService, DesiredMonitor;
  }
}
