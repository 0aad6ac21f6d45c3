/** The probe controller: references, the generated Probe object, and its meaning. */
module Probes {
  import opened Base
  import opened Conditions
  import opened Api
  import opened Names
  import opened Sorting
  import opened Relabel
  import opened Converter
  import opened Owned
  import opened ApiServer
  import Admission

  datatype StaticConfig = StaticConfig(targets: seq<string>, labels: map<string, string>)

  datatype IngressTargets = IngressTargets(
    selector: map<string, string>,
    namespaceSelector: NamespaceSelector,
    relabelConfigs: seq<Rule>)

  datatype Targets = Targets(staticConfig: Option<StaticConfig>, ingress: Option<IngressTargets>)

  /** The generated object of the prometheus-operator. */
  datatype PromProbe = PromProbe(
    key: Key,
    labels: map<string, string>,
    annotations: map<string, string>,
    controller: Key,
    url: string,
    scheme: string,
    path: string,
    moduleName: string,
    interval: string,
    scrapeTimeout: string,
    targets: Targets,
    metricRelabelConfigs: seq<Rule>)

  const EXPORTER_LABEL := "monitoring.gaiser.bayern/exporter"
  const MODULE_LABEL := "monitoring.gaiser.bayern/module"
  const OPERATOR := "blackbox-exporter-operator"

  // ---- metadata and targets ----

  function MetadataLabels(spec: ProbeSpec): map<string, string> {
    if spec.probeMetadata.Some? then spec.probeMetadata.value.labels else map[]
  }

  function MetadataAnnotations(spec: ProbeSpec): map<string, string> {
    if spec.probeMetadata.Some? then spec.probeMetadata.value.annotations else map[]
  }

  function Reserved(exporterName: string, moduleName: string): map<string, string> {
    map[MANAGED_BY_LABEL := OPERATOR][EXPORTER_LABEL := exporterName][MODULE_LABEL := moduleName]
  }

  function ObjectLabels(spec: ProbeSpec, exporterName: string, moduleName: string): map<string, string> {
    spec.additionalLabels + MetadataLabels(spec) + Reserved(exporterName, moduleName)
  }

  method BuildProbeMetadata(spec: ProbeSpec, exporterName: string, moduleName: string)
    returns (labels: map<string, string>, annotations: map<string, string>)
    ensures labels == ObjectLabels(spec, exporterName, moduleName)
    ensures annotations == MetadataAnnotations(spec)
  {
    labels, annotations := map[], map[];
    labels := labels + spec.additionalLabels;
    if spec.probeMetadata.Some? {
      labels := labels + spec.probeMetadata.value.labels;
      annotations := spec.probeMetadata.value.annotations;
    }
    labels := labels[MANAGED_BY_LABEL := OPERATOR];
    labels := labels[EXPORTER_LABEL := exporterName];
    labels := labels[MODULE_LABEL := moduleName];
  }

  function StaticTargets(spec: ProbeSpec): Option<StaticConfig> {
    if spec.targets == [] then None
    else Some(StaticConfig(spec.targets, spec.additionalLabels + spec.targetLabels))
  }

  function ConvertedRules(rls: seq<RelabelConfig>): seq<Rule> {
    seq(|rls|, i requires 0 <= i < |rls| => ConvertedRule(rls[i]))
  }

  function CopiedSelector(sel: NamespaceSelector): NamespaceSelector {
    if sel.any then NamespaceSelector(true, [])
    else NamespaceSelector(false, sel.matchNames)
  }

  /** `order` is the order in which the iteration over the label map happened to run. */
  ghost predicate Enumerates(order: seq<string>, spec: ProbeSpec) {
    spec.ingress.Some? ==> Lists(order, spec.ingress.value.labels.Keys)
  }

  ghost function IngressFor(spec: ProbeSpec, order: seq<string>): (r: Option<IngressTargets>)
    requires Enumerates(order, spec)
  {
    if spec.ingress.None? then None
    else
      var i := spec.ingress.value;
      SortedIsSorted(order, i.labels.Keys);
      Some(IngressTargets(i.selector, CopiedSelector(i.namespaceSelector),
                          LabelRules(Sorted(order), i.labels) + ConvertedRules(i.relabelConfigs)))
  }

  method ConvertRelabelings(rls: seq<RelabelConfig>, start: seq<Rule>) returns (rules: seq<Rule>)
    ensures rules == start + ConvertedRules(rls)
  {
    rules := start;
    var i := 0;
    while i < |rls|
      invariant 0 <= i <= |rls|
      invariant rules == start + ConvertedRules(rls)[..i]
    {
      var rc := ConvertRelabelConfig(rls[i]);
      rules := rules + [rc];
      i := i + 1;
    }
  }

  method BuildProbeTargets(spec: ProbeSpec, order: seq<string>) returns (targets: Targets)
    requires Enumerates(order, spec)
    ensures targets == Targets(StaticTargets(spec), IngressFor(spec, order))
  {
    targets := Targets(None, None);
    if |spec.targets| > 0 {
      var labels: map<string, string> := map[];
      if |spec.additionalLabels| > 0 || |spec.targetLabels| > 0 {
        labels := labels + spec.additionalLabels;
        labels := labels + spec.targetLabels;
      }
      assert labels == spec.additionalLabels + spec.targetLabels;
      targets := targets.(staticConfig := Some(StaticConfig(spec.targets, labels)));
    }
    if spec.ingress.None? {
      return;
    }
    var ingress := spec.ingress.value;
    var namespaces := NamespaceSelector(false, []);
    if ingress.namespaceSelector.any {
      namespaces := NamespaceSelector(true, []);
    } else if |ingress.namespaceSelector.matchNames| > 0 {
      namespaces := NamespaceSelector(false, ingress.namespaceSelector.matchNames);
    }
    SortedIsSorted(order, ingress.labels.Keys);
    var keys := Sorted(order);
    var rules: seq<Rule> := [];
    var i := 0;
    while i < |keys|
      invariant 0 <= i <= |keys|
      invariant rules == LabelRules(keys, ingress.labels)[..i]
    {
      assert keys[i] in keys;
      rules := rules + [EMPTY_RULE.(targetLabel := keys[i], replacement := Some(ingress.labels[keys[i]]), action := "replace")];
      i := i + 1;
    }
    assert rules == LabelRules(keys, ingress.labels);
    rules := ConvertRelabelings(ingress.relabelConfigs, rules);
    targets := targets.(ingress := Some(IngressTargets(ingress.selector, namespaces, rules)));
  }

  // ---- the generated object ----

  function IntText(n: int): string {
    if n >= 0 then Decimal(n) else "-" + Decimal(-n)
  }

  /** The in-cluster address of a Service port. */
  function ServiceURL(service: Key, port: int): string {
    service.name + "." + service.ns + ".svc.cluster.local:" + IntText(port)
  }

  ghost function Generated(p: Probe, exporter: Exporter, m: Module, order: seq<string>): (g: PromProbe)
    requires Enumerates(order, p.spec)
    ensures g.key == p.meta.key && g.controller == p.meta.key
  {
    PromProbe(
      p.meta.key,
      ObjectLabels(p.spec, exporter.meta.key.name, m.meta.key.name),
      MetadataAnnotations(p.spec),
      p.meta.key,
      ServiceURL(OwnedKey(exporter.meta.key), Port(exporter.spec)),
      "http",
      "/probe",
      ModuleName(m.meta.key.ns, m.meta.key.name),
      OrElse(p.spec.interval, Admission.DEFAULT_INTERVAL),
      OrElse(p.spec.scrapeTimeout, Admission.DEFAULT_TIMEOUT),
      Targets(StaticTargets(p.spec), IngressFor(p.spec, order)),
      ConvertedRules(p.spec.metricRelabelings))
  }

  method BuildProbe(p: Probe, exporter: Exporter, m: Module, order: seq<string>) returns (prom: PromProbe)
    requires Enumerates(order, p.spec)
    ensures prom == Generated(p, exporter, m, order)
  {
    var moduleName := ModuleName(m.meta.key.ns, m.meta.key.name);
    var exporterPort := 9115;
    if exporter.spec.port != 0 {
      exporterPort := exporter.spec.port;
    }
    var proberURL := ResourceName(exporter.meta.key.name) + "." + exporter.meta.key.ns + ".svc.cluster.local:" + IntText(exporterPort);
    var interval := "60s";
    if p.spec.interval != "" {
      interval := p.spec.interval;
    }
    var scrapeTimeout := "10s";
    if p.spec.scrapeTimeout != "" {
      scrapeTimeout := p.spec.scrapeTimeout;
    }
    var labels, annotations := BuildProbeMetadata(p.spec, exporter.meta.key.name, m.meta.key.name);
    var targets := BuildProbeTargets(p.spec, order);
    var rules := ConvertRelabelings(p.spec.metricRelabelings, []);
    assert [] + ConvertedRules(p.spec.metricRelabelings) == ConvertedRules(p.spec.metricRelabelings);
    prom := PromProbe(p.meta.key, labels, annotations, p.meta.key, proberURL, "http", "/probe", moduleName,
                      interval, scrapeTimeout, targets, rules);
  }

  /** The generated object does not depend on the order in which the label map was iterated. */
  lemma GeneratedIsDeterministic(p: Probe, exporter: Exporter, m: Module, order: seq<string>, order': seq<string>)
    requires Enumerates(order, p.spec) && Enumerates(order', p.spec)
    ensures Generated(p, exporter, m, order) == Generated(p, exporter, m, order')
  {
    if p.spec.ingress.Some? {
      SortedKeysIndependent(order, order', p.spec.ingress.value.labels.Keys);
    }
  }

  /** Object labels: reserved labels win, then probeMetadata, then additionalLabels. */
  lemma ObjectLabelLayers(spec: ProbeSpec, exporterName: string, moduleName: string, k: string)
    ensures var labels, base := ObjectLabels(spec, exporterName, moduleName), spec.additionalLabels;
            var meta := if spec.probeMetadata.Some? then spec.probeMetadata.value.labels else map[];
            && labels[MANAGED_BY_LABEL] == OPERATOR && labels[EXPORTER_LABEL] == exporterName && labels[MODULE_LABEL] == moduleName
            && (k !in {MANAGED_BY_LABEL, EXPORTER_LABEL, MODULE_LABEL} ==>
                  if k in meta then k in labels && labels[k] == meta[k]
                  else if k in base then k in labels && labels[k] == base[k]
                  else k !in labels)
  {
    assert |MANAGED_BY_LABEL| == 28 && |EXPORTER_LABEL| == 33 && |MODULE_LABEL| == 31;
  }

  /** Series labels and object labels are separate: probeMetadata reaches no target, and targetLabels, ingress
      labels and relabelings reach no object metadata. */
  lemma LabelsAreSeparate(p: Probe, q: Probe, exporter: Exporter, m: Module, order: seq<string>, order': seq<string>)
    requires Enumerates(order, p.spec) && Enumerates(order', q.spec)
    ensures q.spec == p.spec.(probeMetadata := q.spec.probeMetadata) ==>
              Generated(q, exporter, m, order').targets == Generated(p, exporter, m, order).targets
    ensures q.meta.key == p.meta.key
            && q.spec == p.spec.(targetLabels := q.spec.targetLabels, ingress := q.spec.ingress, targets := q.spec.targets) ==>
              var g, h := Generated(p, exporter, m, order), Generated(q, exporter, m, order');
              g == h.(targets := g.targets)
  {
    if q.spec == p.spec.(probeMetadata := q.spec.probeMetadata) && p.spec.ingress.Some? {
      SortedKeysIndependent(order, order', p.spec.ingress.value.labels.Keys);
    }
  }

  /** Scraped series of a discovered ingress carry `ingress.labels`, and the user's relabelings see them. */
  lemma IngressSeriesLabels(en: Engine, p: Probe, exporter: Exporter, m: Module, order: seq<string>, ls: Labels)
    requires Enumerates(order, p.spec) && p.spec.ingress.Some? && Lawful(en)
    requires forall k :: k in p.spec.ingress.value.labels ==> Assignable(en, k, p.spec.ingress.value.labels[k])
    ensures var i, g := p.spec.ingress.value, Generated(p, exporter, m, order);
            && g.targets.ingress.Some?
            && ApplyAll(en, g.targets.ingress.value.relabelConfigs, ls)
               == ApplyAll(en, ConvertedRules(i.relabelConfigs), Overlay(ls, i.labels))
  {
    UserRulesSeeOverlay(en, order, p.spec.ingress.value.labels, ConvertedRules(p.spec.ingress.value.relabelConfigs), ls);
  }

  // ---- Reconcile ----

  /** What the probe controller reads and writes. `exporters` and `modules` are the caches it resolves references in. */
  datatype ProbeState = ProbeState(
    clock: nat,
    probes: Store<ProbeSpec, ProbeStatus>,
    generated: map<Key, PromProbe>)

  /** An empty namespace in a reference means the namespace of the probe. */
  function Resolve(p: Probe, ref: NamespacedReference): Key {
    Key(if ref.ns != "" then ref.ns else p.meta.key.ns, ref.name)
  }

  function NotReady(p: Probe, reason: string, message: string, now: int): ProbeStatus {
    p.status.(
      conditions := Put(p.status.conditions, Condition(CONDITION_READY, False, p.meta.generation, reason, message, 0), now),
      observedGeneration := p.meta.generation)
  }

  const PROBE_CREATED := "prometheus-operator Probe CR created"

  function ReadyStatus(p: Probe, now: int): ProbeStatus {
    ProbeStatus(
      Put(p.status.conditions, Condition(CONDITION_READY, True, p.meta.generation, "ProbeCreated", PROBE_CREATED, 0), now),
      |p.spec.targets|,
      Some(NamespacedReference(p.meta.key.name, p.meta.key.ns)),
      p.meta.generation)
  }

  /** What the Get of the generated object says, possibly from a cache that lags. */
  datatype Lookup = LookupFails | Absent | Present

  /** How the API answered the calls of one Reconcile: the Get of the probe, the Gets of exporter and module, setting the
      owner reference, the Get of the generated object, its Create or Update, and the status update. */
  datatype Answers = Answers(read: bool, exporter: bool, mod: bool, owner: bool, lookup: Lookup, write: bool, status: bool)

  function AllWell(s: ProbeState, k: Key): Answers {
    Answers(true, true, true, true, if k in s.generated then Present else Absent, true, true)
  }

  /** Status().Update: rejected if the probe was read at another version. */
  function SaveProbeStatus(s: ProbeState, p: Probe, status: ProbeStatus, answered: bool): ProbeState {
    if answered && Accepts(s.probes, p) then
      var next := s.probes.stored[p.meta.key].(status := status);
      s.(clock := Tick(s.probes, next, s.clock), probes := Save(s.probes, next, s.clock))
    else s
  }

  datatype ProbeOutcome =
    | Gone
    | ReadFailed
    | ExporterMissing
    | ModuleMissing
    | OwnerFailed
    | LookupFailed
    | CreateFailed
    | UpdateFailed
    | Written(statusAccepted: bool)

  /** One Reconcile. A reference whose Get fails for any reason is reported as not found. A Create is refused when the
      object exists, an Update when it does not. */
  ghost function ProbePass(s: ProbeState, exporters: map<Key, Exporter>, modules: map<Key, Module>,
                            k: Key, order: seq<string>, now: int, a: Answers): (ProbeState, ProbeOutcome)
    requires k in s.probes.cache ==> Enumerates(order, s.probes.cache[k].spec)
  {
    if !a.read then (s, ReadFailed)
    else if k !in s.probes.cache then (s, Gone)
    else
      var p := s.probes.cache[k];
      var e, m := Resolve(p, p.spec.exporterRef), Resolve(p, p.spec.moduleRef);
      if !(a.exporter && e in exporters) then
        var status := NotReady(p, "ExporterNotFound", "BlackboxExporter " + e.ns + "/" + e.name + " not found", now);
        (SaveProbeStatus(s, p, status, a.status), ExporterMissing)
      else if !(a.mod && m in modules) then
        var status := NotReady(p, "ModuleNotFound", "BlackboxModule " + m.ns + "/" + m.name + " not found", now);
        (SaveProbeStatus(s, p, status, a.status), ModuleMissing)
      else if !a.owner then (s, OwnerFailed)
      else if a.lookup.LookupFails? then (s, LookupFailed)
      else if a.lookup.Absent? && !(a.write && p.meta.key !in s.generated) then (s, CreateFailed)
      else if a.lookup.Present? && !(a.write && p.meta.key in s.generated) then (s, UpdateFailed)
      else
        var t := s.(generated := s.generated[p.meta.key := Generated(p, exporters[e], modules[m], order)]);
        (SaveProbeStatus(t, p, ReadyStatus(p, now), a.status), Written(a.status && Accepts(s.probes, p)))
  }

  class ProbeController {
    var clock: nat
    var probes: Store<ProbeSpec, ProbeStatus>
    var generated: map<Key, PromProbe>

    ghost function View(): ProbeState
      reads this
    {
      ProbeState(clock, probes, generated)
    }

    constructor ()
      ensures View() == ProbeState(0, Store(map[], map[], map[], {}), map[])
    {
      clock, probes, generated := 0, Store(map[], map[], map[], {}), map[];
    }

    method UpdateStatus(p: Probe, status: ProbeStatus, answered: bool) returns (ok: bool)
      modifies `clock, `probes
      ensures ok == (answered && Accepts(old(probes), p))
      ensures View() == SaveProbeStatus(old(View()), p, status, answered)
    {
      ok := answered && Accepts(probes, p);
      if ok {
        var next := probes.stored[p.meta.key].(status := status);
        var tick := Tick(probes, next, clock);
        probes := Save(probes, next, clock);
        clock := tick;
      }
    }

    method SetNotReady(p: Probe, reason: string, message: string, now: int, answered: bool)
      modifies `clock, `probes
      ensures View() == SaveProbeStatus(old(View()), p, NotReady(p, reason, message, now), answered)
    {
      var conditions := new ConditionList(p.status.conditions);
      conditions.SetCondition(Condition(CONDITION_READY, False, p.meta.generation, reason, message, 0), now);
      var ok := UpdateStatus(p, p.status.(conditions := conditions.items, observedGeneration := p.meta.generation), answered);
    }

    method SetReady(p: Probe, now: int, answered: bool) returns (ok: bool)
      modifies `clock, `probes
      ensures ok == (answered && Accepts(old(probes), p))
      ensures View() == SaveProbeStatus(old(View()), p, ReadyStatus(p, now), answered)
    {
      var targetCount := |p.spec.targets|;
      var probeRef := Some(NamespacedReference(p.meta.key.name, p.meta.key.ns));
      var conditions := new ConditionList(p.status.conditions);
      conditions.SetCondition(Condition(CONDITION_READY, True, p.meta.generation, "ProbeCreated", PROBE_CREATED, 0), now);
      ok := UpdateStatus(p, ProbeStatus(conditions.items, targetCount, probeRef, p.meta.generation), answered);
    }

    method CreateGenerated(prom: PromProbe, answered: bool) returns (ok: bool)
      modifies `generated
      ensures ok == (answered && prom.key !in old(generated))
      ensures generated == if ok then old(generated)[prom.key := prom] else old(generated)
    {
      ok := answered && prom.key !in generated;
      if ok {
        generated := generated[prom.key := prom];
      }
    }

    method UpdateGenerated(prom: PromProbe, answered: bool) returns (ok: bool)
      modifies `generated
      ensures ok == (answered && prom.key in old(generated))
      ensures generated == if ok then old(generated)[prom.key := prom] else old(generated)
    {
      ok := answered && prom.key in generated;
      if ok {
        generated := generated[prom.key := prom];
      }
    }

    method Reconcile(exporters: map<Key, Exporter>, modules: map<Key, Module>, k: Key, order: seq<string>, now: int, a: Answers)
      returns (outcome: ProbeOutcome)
      requires k in probes.cache ==> Enumerates(order, probes.cache[k].spec)
      modifies this
      ensures (View(), outcome) == ProbePass(old(View()), exporters, modules, k, order, now, a)
    {
      hide Generated, NotReady, ReadyStatus;
      if !a.read {
        return ReadFailed;
      }
      if k !in probes.cache {
        return Gone;
      }
      var p := probes.cache[k];
      var exporterNS := p.meta.key.ns;
      if p.spec.exporterRef.ns != "" {
        exporterNS := p.spec.exporterRef.ns;
      }
      var e := Key(exporterNS, p.spec.exporterRef.name);
      if !(a.exporter && e in exporters) {
        SetNotReady(p, "ExporterNotFound", "BlackboxExporter " + e.ns + "/" + e.name + " not found", now, a.status);
        return ExporterMissing;
      }
      var moduleNS := p.meta.key.ns;
      if p.spec.moduleRef.ns != "" {
        moduleNS := p.spec.moduleRef.ns;
      }
      var m := Key(moduleNS, p.spec.moduleRef.name);
      if !(a.mod && m in modules) {
        SetNotReady(p, "ModuleNotFound", "BlackboxModule " + m.ns + "/" + m.name + " not found", now, a.status);
        return ModuleMissing;
      }
      var prom := BuildProbe(p, exporters[e], modules[m], order);
      if !a.owner {
        return OwnerFailed;
      }
      match a.lookup {
        case LookupFails =>
          return LookupFailed;
        case Absent =>
          var created := CreateGenerated(prom, a.write);
          if !created {
            return CreateFailed;
          }
        case Present =>
          var updated := UpdateGenerated(prom, a.write);
          if !updated {
            return UpdateFailed;
          }
      }
      var ok := SetReady(p, now, a.status);
      return Written(ok);
    }
  }

  predicate SaysReady(status: ProbeStatus) {
    var i := IndexOf(status.conditions, CONDITION_READY);
    i < |status.conditions| && status.conditions[i].status == True
  }

  ghost predicate SameElsewhere(a: map<Key, PromProbe>, b: map<Key, PromProbe>, k: Key) {
    a - {k} == b - {k}
  }

  lemma PutShows(cs: seq<Condition>, c: Condition, now: int)
    ensures var ds := Put(cs, c, now); IndexOf(ds, c.kind) < |ds| && ds[IndexOf(ds, c.kind)].status == c.status
  {
    EntryAfterCall(cs, c, now);
  }

  /** A status write that says Ready=True happens only in a Reconcile whose references resolved and whose generated
      object, the one for this probe, exporter and module, is stored. A reference that did not resolve leaves the
      generated object alone and is reported, unless the report itself fails. */
  lemma ReadyOnlyWhenGenerated(s: ProbeState, exporters: map<Key, Exporter>, modules: map<Key, Module>,
                               k: Key, order: seq<string>, now: int, a: Answers)
    requires k in s.probes.cache && Enumerates(order, s.probes.cache[k].spec) && s.probes.cache[k].meta.key == k
    requires k in s.probes.stored ==> s.probes.stored[k].meta.key == k
    ensures var (t, outcome) := ProbePass(s, exporters, modules, k, order, now, a);
            var p := s.probes.cache[k];
            var e, m := Resolve(p, p.spec.exporterRef), Resolve(p, p.spec.moduleRef);
            && (k in s.probes.stored && t.probes.stored[k] != s.probes.stored[k] && SaysReady(t.probes.stored[k].status) ==>
                  && e in exporters && m in modules && outcome == Written(true)
                  && k in t.generated && t.generated[k] == Generated(p, exporters[e], modules[m], order))
            && (a.read && !(a.exporter && e in exporters && a.mod && m in modules) ==>
                  t.generated == s.generated && (a.status && Accepts(s.probes, p) ==> !SaysReady(t.probes.stored[k].status)))
            && (t.generated != s.generated ==>
                  outcome.Written? && k in t.generated && t.generated[k] == Generated(p, exporters[e], modules[m], order))
            && SameElsewhere(s.generated, t.generated, k)
  {
    hide Generated, Put, SaysReady, NotReady, ReadyStatus;
    var p := s.probes.cache[k];
    var e, m := Resolve(p, p.spec.exporterRef), Resolve(p, p.spec.moduleRef);
    NotReadySaysSo(p, "ExporterNotFound", "BlackboxExporter " + e.ns + "/" + e.name + " not found", now);
    NotReadySaysSo(p, "ModuleNotFound", "BlackboxModule " + m.ns + "/" + m.name + " not found", now);
  }

  lemma NotReadySaysSo(p: Probe, reason: string, message: string, now: int)
    ensures !SaysReady(NotReady(p, reason, message, now))
  {
    PutShows(p.status.conditions, Condition(CONDITION_READY, False, p.meta.generation, reason, message, 0), now);
  }

  /** Once the informer has caught up, a second Reconcile, whenever and in whatever map order, changes nothing. */
  lemma SecondReconcileChangesNothing(s: ProbeState, exporters: map<Key, Exporter>, modules: map<Key, Module>,
                                      k: Key, order: seq<string>, now: int, order': seq<string>, now': int)
    requires k in s.probes.cache && Enumerates(order, s.probes.cache[k].spec) && s.probes.cache[k].meta.key == k
    requires Enumerates(order', s.probes.cache[k].spec)
    requires k in s.probes.stored && s.probes.stored[k] == s.probes.cache[k]
    requires ProbePass(s, exporters, modules, k, order, now, AllWell(s, k)).1 == Written(true)
    ensures var t := ProbePass(s, exporters, modules, k, order, now, AllWell(s, k)).0;
            var caught := t.(probes := t.probes.(cache := t.probes.cache[k := t.probes.stored[k]]));
            && k in t.probes.stored && t.probes.stored[k].spec == s.probes.stored[k].spec
            && ProbePass(caught, exporters, modules, k, order', now', AllWell(caught, k)) == (caught, Written(true))
  {
    var p := s.probes.cache[k];
    var e, m := Resolve(p, p.spec.exporterRef), Resolve(p, p.spec.moduleRef);
    var t := ProbePass(s, exporters, modules, k, order, now, AllWell(s, k)).0;
    var q := t.probes.stored[k];
    var c := Condition(CONDITION_READY, True, p.meta.generation, "ProbeCreated", PROBE_CREATED, 0);
    PutMakesHold(p.status.conditions, c, now);
    assert q.status == ReadyStatus(p, now);
    PutIsIdentityWhenHolding(q.status.conditions, c, now');
    assert ReadyStatus(q, now') == q.status;
    SameGenerated(p, q, exporters[e], modules[m], order, order');
    assert q.(status := q.status) == q;
    assert t.generated[k := t.generated[k]] == t.generated;
  }

  lemma SameGenerated(p: Probe, q: Probe, exporter: Exporter, m: Module, order: seq<string>, order': seq<string>)
    requires p.meta.key == q.meta.key && p.spec == q.spec
    requires Enumerates(order, p.spec) && Enumerates(order', p.spec)
    ensures Generated(q, exporter, m, order') == Generated(p, exporter, m, order)
  {
    GeneratedIsDeterministic(p, exporter, m, order, order');
  }
}
