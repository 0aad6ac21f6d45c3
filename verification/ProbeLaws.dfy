/** What the generated Probe and the status of its source say, field by field, against the spec users wrote. */
module ProbeLaws {
  import opened Base
  import opened Conditions
  import opened Api
  import opened ApiServer
  import opened Reports
  import opened Sorting
  import opened Relabel
  import opened Probes
  import Owned

  // ---- relabelings ----

  /** Each field of a relabeling is kept, an empty one stays unset; only a modulus beyond a signed number changes. */
  ghost predicate RuleRead(r: Rule, given: RelabelConfig) {
    && r.sourceLabels == given.sourceLabels && r.targetLabel == given.targetLabel
    && r.regex == given.regex && r.action == given.action
    && r.separator.Some? == (given.separator != "") && (r.separator.Some? ==> r.separator.value == given.separator)
    && r.replacement.Some? == (given.replacement != "") && (r.replacement.Some? ==> r.replacement.value == given.replacement)
    && (given.modulus < 0x8000_0000_0000_0000 ==> r.modulus == given.modulus)
    && (0x8000_0000_0000_0000 <= given.modulus < 0x1_0000_0000_0000_0000 ==>
          r.modulus == given.modulus - 0x1_0000_0000_0000_0000)
  }

  lemma RuleLaw(given: RelabelConfig)
    ensures RuleRead(ConvertedRule(given), given)
  {
  }

  ghost predicate RulesRead(rules: seq<Rule>, given: seq<RelabelConfig>) {
    |rules| == |given| && forall i :: 0 <= i < |given| ==> RuleRead(rules[i], given[i])
  }

  lemma RulesLaw(given: seq<RelabelConfig>)
    ensures RulesRead(ConvertedRules(given), given)
  {
    hide RuleRead, ConvertedRule;
    forall i | 0 <= i < |given| ensures RuleRead(ConvertedRules(given)[i], given[i]) {
      RuleLaw(given[i]);
    }
  }

  /** The rule that replaces a label by a constant. */
  ghost predicate Assigns(r: Rule, name: string, value: string) {
    && r.sourceLabels == [] && r.separator.None? && r.regex == "" && r.modulus == 0
    && r.targetLabel == name && r.replacement == Some(value) && r.action == "replace"
  }

  // ---- targets ----

  /** Per key, what stands in the upper map wins, then what stands in the lower one; nothing else appears. */
  ghost predicate Layered(labels: map<string, string>, lower: map<string, string>, upper: map<string, string>) {
    && labels.Keys == lower.Keys + upper.Keys
    && (forall k :: k in upper ==> labels[k] == upper[k])
    && (forall k :: k in lower && k !in upper ==> labels[k] == lower[k])
  }

  ghost predicate StaticRead(t: Option<StaticConfig>, spec: ProbeSpec) {
    && t.Some? == (spec.targets != [])
    && (t.Some? ==> t.value.targets == spec.targets && Layered(t.value.labels, spec.additionalLabels, spec.targetLabels))
  }

  /** The labels come first, in the order of their names, then the user's relabelings. */
  ghost predicate IngressRead(t: Option<IngressTargets>, given: Option<IngressTargetConfig>) {
    && t.Some? == given.Some?
    && (t.Some? ==>
          var n, rules := |given.value.labels|, t.value.relabelConfigs;
          && t.value.selector == given.value.selector
          && t.value.namespaceSelector.any == given.value.namespaceSelector.any
          && t.value.namespaceSelector.matchNames
             == (if given.value.namespaceSelector.any then [] else given.value.namespaceSelector.matchNames)
          && n <= |rules|
          && (forall i :: 0 <= i < n ==>
                rules[i].targetLabel in given.value.labels && Assigns(rules[i], rules[i].targetLabel, given.value.labels[rules[i].targetLabel]))
          && (forall i, j :: 0 <= i < j < n ==> Less(rules[i].targetLabel, rules[j].targetLabel))
          && RulesRead(rules[n..], given.value.relabelConfigs))
  }

  lemma StaticLaw(spec: ProbeSpec)
    ensures StaticRead(StaticTargets(spec), spec)
  {
  }

  lemma {:induction false} DistinctCount(s: seq<string>, keys: set<string>)
    requires StrictlySorted(s) && forall k :: k in s <==> k in keys
    ensures |s| == |keys|
    decreases |s|
  {
    if s == [] {
      assert keys == {};
    } else {
      var n := |s| - 1;
      forall i | 0 <= i < n ensures s[i] != s[n] {
        LessTotal(s[i], s[n]);
      }
      assert s == s[..n] + [s[n]];
      DistinctCount(s[..n], keys - {s[n]});
    }
  }

  lemma IngressLaw(spec: ProbeSpec, order: seq<string>)
    requires Enumerates(order, spec)
    ensures IngressRead(IngressFor(spec, order), spec.ingress)
  {
    hide RulesRead;
    if spec.ingress.Some? {
      var given := spec.ingress.value;
      SortedIsSorted(order, given.labels.Keys);
      DistinctCount(Sorted(order), given.labels.Keys);
      RulesLaw(given.relabelConfigs);
      var first, rest := LabelRules(Sorted(order), given.labels), ConvertedRules(given.relabelConfigs);
      assert (first + rest)[|first|..] == rest;
      assert forall i :: 0 <= i < |first| ==> (first + rest)[i] == first[i];
      assert forall i :: 0 <= i < |first| ==> Sorted(order)[i] in Sorted(order);
    }
  }

  // ---- the object ----

  predicate Bookkeeping(k: string) {
    k == "app.kubernetes.io/managed-by" || k == "monitoring.gaiser.bayern/exporter" || k == "monitoring.gaiser.bayern/module"
  }

  ghost predicate MetadataRead(labels: map<string, string>, annotations: map<string, string>, spec: ProbeSpec,
                               exporterName: string, moduleName: string) {
    var given := if spec.probeMetadata.Some? then spec.probeMetadata.value else EmbeddedMetadata(map[], map[]);
    && annotations == given.annotations
    && labels.Keys == {"app.kubernetes.io/managed-by", "monitoring.gaiser.bayern/exporter", "monitoring.gaiser.bayern/module"}
                      + given.labels.Keys + spec.additionalLabels.Keys
    && labels["app.kubernetes.io/managed-by"] == "blackbox-exporter-operator"
    && labels["monitoring.gaiser.bayern/exporter"] == exporterName
    && labels["monitoring.gaiser.bayern/module"] == moduleName
    && (forall k :: k in labels && !Bookkeeping(k) ==>
          && (k in given.labels ==> labels[k] == given.labels[k])
          && (k !in given.labels ==> labels[k] == spec.additionalLabels[k]))
  }

  lemma MetadataLaw(spec: ProbeSpec, exporterName: string, moduleName: string)
    ensures MetadataRead(ObjectLabels(spec, exporterName, moduleName), MetadataAnnotations(spec), spec, exporterName, moduleName)
  {
    assert |"app.kubernetes.io/managed-by"| == 28 && |"monitoring.gaiser.bayern/exporter"| == 33
           && |"monitoring.gaiser.bayern/module"| == 31;
  }

  ghost predicate PortText(text: string, port: int) {
    text == if port < 0 then "-" + Decimal(-port) else Decimal(port)
  }

  /** The address of the exporter's Service: its name, its namespace, the cluster suffix, its port. */
  ghost predicate AddressRead(url: string, exporter: Key, port: int) {
    exists text: string ::
      PortText(text, port) && url == exporter.name + "-blackbox-exporter" + "." + exporter.ns + ".svc.cluster.local:" + text
  }

  ghost predicate EndpointRead(g: PromProbe, spec: ProbeSpec, exporter: Exporter, m: Module) {
    && AddressRead(g.url, exporter.meta.key, if exporter.spec.port != 0 then exporter.spec.port else 9115)
    && g.scheme == "http" && g.path == "/probe"
    && g.moduleName == m.meta.key.ns + "-" + m.meta.key.name
    && g.interval == (if spec.interval != "" then spec.interval else "60s")
    && g.scrapeTimeout == (if spec.scrapeTimeout != "" then spec.scrapeTimeout else "10s")
  }

  ghost predicate ObjectRead(g: PromProbe, p: Probe, exporter: Exporter, m: Module) {
    && g.key == p.meta.key && g.controller == p.meta.key
    && EndpointRead(g, p.spec, exporter, m)
    && MetadataRead(g.labels, g.annotations, p.spec, exporter.meta.key.name, m.meta.key.name)
    && StaticRead(g.targets.staticConfig, p.spec) && IngressRead(g.targets.ingress, p.spec.ingress)
    && RulesRead(g.metricRelabelConfigs, p.spec.metricRelabelings)
  }

  lemma AddressLaw(exporter: Exporter)
    ensures AddressRead(ServiceURL(Owned.OwnedKey(exporter.meta.key), Owned.Port(exporter.spec)), exporter.meta.key,
                        if exporter.spec.port != 0 then exporter.spec.port else 9115)
  {
    assert PortText(IntText(Owned.Port(exporter.spec)), if exporter.spec.port != 0 then exporter.spec.port else 9115);
  }

  lemma EndpointLaw(p: Probe, exporter: Exporter, m: Module, order: seq<string>)
    requires Enumerates(order, p.spec)
    ensures EndpointRead(Generated(p, exporter, m, order), p.spec, exporter, m)
  {
    hide AddressRead, ServiceURL, ObjectLabels, MetadataAnnotations, StaticTargets, IngressFor, ConvertedRules;
    AddressLaw(exporter);
  }

  lemma ObjectLaw(p: Probe, exporter: Exporter, m: Module, order: seq<string>)
    requires Enumerates(order, p.spec)
    ensures ObjectRead(Generated(p, exporter, m, order), p, exporter, m)
  {
    hide EndpointRead, MetadataRead, StaticRead, IngressRead, RulesRead, ObjectLabels, MetadataAnnotations, StaticTargets, IngressFor,
         ConvertedRules, Enumerates;
    EndpointLaw(p, exporter, m, order);
    MetadataLaw(p.spec, exporter.meta.key.name, m.meta.key.name);
    StaticLaw(p.spec);
    IngressLaw(p.spec, order);
    RulesLaw(p.spec.metricRelabelings);
  }

  // ---- Reconcile ----

  /** An empty namespace in a reference means the namespace of the probe. */
  ghost predicate RefersTo(ref: NamespacedReference, home: string, target: Key) {
    && target.name == ref.name
    && (ref.ns != "" ==> target.ns == ref.ns)
    && (ref.ns == "" ==> target.ns == home)
  }

  /** What a Reconcile of a probe does to generated objects: they change exactly if the references lead to an exporter and
      a module and every call on the way goes through, and then it is this probe's object, which reads as its spec, that
      exporter and that module say. */
  lemma ReconcileStores(s: ProbeState, exporters: map<Key, Exporter>, modules: map<Key, Module>,
                        k: Key, order: seq<string>, now: int, a: Answers, e: Key, m: Key)
    requires k in s.probes.cache && Enumerates(order, s.probes.cache[k].spec) && s.probes.cache[k].meta.key == k
    requires RefersTo(s.probes.cache[k].spec.exporterRef, k.ns, e) && RefersTo(s.probes.cache[k].spec.moduleRef, k.ns, m)
    ensures var (t, outcome) := ProbePass(s, exporters, modules, k, order, now, a);
            && (outcome.ReadFailed? <==> !a.read) && !outcome.Gone?
            && (outcome.ExporterMissing? <==> a.read && !(a.exporter && e in exporters))
            && (outcome.ModuleMissing? <==> a.read && a.exporter && e in exporters && !(a.mod && m in modules))
            && (outcome.Written? <==>
                  && a.read && a.exporter && e in exporters && a.mod && m in modules && a.owner && a.write
                  && (if k in s.generated then a.lookup.Present? else a.lookup.Absent?))
            && (outcome.Written? ==>
                  k in t.generated && ObjectRead(t.generated[k], s.probes.cache[k], exporters[e], modules[m]))
            && (!outcome.Written? ==> t.generated == s.generated)
            && SameElsewhere(s.generated, t.generated, k)
  {
    hide Generated, NotReady, ReadyStatus, SaveProbeStatus, ObjectRead;
    var p := s.probes.cache[k];
    assert e == Resolve(p, p.spec.exporterRef) && m == Resolve(p, p.spec.moduleRef);
    if e in exporters && m in modules {
      ObjectLaw(p, exporters[e], modules[m], order);
    }
    SavesStatusOnly(s, p, now, a.status);
  }

  lemma SavesStatusOnly(s: ProbeState, p: Probe, now: int, answered: bool)
    ensures forall u: ProbeState, status {:trigger SaveProbeStatus(u, p, status, answered)} ::
              SaveProbeStatus(u, p, status, answered).generated == u.generated
  {
  }

  /** The status update goes through: it is answered, and the probe was not written since it was read. */
  ghost predicate GoesThrough(s: ProbeState, p: Probe, a: Answers) {
    a.status && p.meta.key in s.probes.stored && s.probes.stored[p.meta.key].meta.resourceVersion == p.meta.resourceVersion
  }

  lemma StatusSaved(s: ProbeState, p: Probe, status: ProbeStatus, a: Answers)
    requires p.meta.key in s.probes.stored ==> s.probes.stored[p.meta.key].meta.key == p.meta.key
    ensures var t := SaveProbeStatus(s, p, status, a.status);
            && (!GoesThrough(s, p, a) ==> t == s)
            && (GoesThrough(s, p, a) ==>
                  && p.meta.key in t.probes.stored && t.probes.stored[p.meta.key].status == status
                  && t.probes.stored[p.meta.key].spec == s.probes.stored[p.meta.key].spec)
  {
  }

  lemma ProbeStatusShows(p: Probe, reason: string, message: string, now: int)
    ensures var r := ReadyStatus(p, now);
            && r.targetCount == |p.spec.targets| && r.probeRef == Some(NamespacedReference(p.meta.key.name, p.meta.key.ns))
            && r.observedGeneration == p.meta.generation
            && Shows(r.conditions, "Ready", True, p.meta.generation, "ProbeCreated", "prometheus-operator Probe CR created")
    ensures var r := NotReady(p, reason, message, now);
            && r.targetCount == p.status.targetCount && r.probeRef == p.status.probeRef
            && r.observedGeneration == p.meta.generation
            && Shows(r.conditions, "Ready", False, p.meta.generation, reason, message)
  {
    var g := p.meta.generation;
    EntryAfterCall(p.status.conditions, Condition(CONDITION_READY, True, g, "ProbeCreated", PROBE_CREATED, 0), now);
    EntryAfterCall(p.status.conditions, Condition(CONDITION_READY, False, g, reason, message, 0), now);
    hide Put;
  }

  lemma ReconcileSaves(s: ProbeState, exporters: map<Key, Exporter>, modules: map<Key, Module>,
                       k: Key, order: seq<string>, now: int, a: Answers)
    requires k in s.probes.cache && Enumerates(order, s.probes.cache[k].spec)
    ensures var p, (t, outcome) := s.probes.cache[k], ProbePass(s, exporters, modules, k, order, now, a);
            var e, m := Resolve(p, p.spec.exporterRef), Resolve(p, p.spec.moduleRef);
            && (outcome.Written? ==>
                  && outcome.statusAccepted == (a.status && Accepts(s.probes, p))
                  && t == SaveProbeStatus(s.(generated := t.generated), p, ReadyStatus(p, now), a.status))
            && (outcome.ExporterMissing? ==>
                  t == SaveProbeStatus(s, p, NotReady(p, "ExporterNotFound", "BlackboxExporter " + e.ns + "/" + e.name + " not found", now),
                                       a.status))
            && (outcome.ModuleMissing? ==>
                  t == SaveProbeStatus(s, p, NotReady(p, "ModuleNotFound", "BlackboxModule " + m.ns + "/" + m.name + " not found", now),
                                       a.status))
            && (!outcome.Written? && !outcome.ExporterMissing? && !outcome.ModuleMissing? ==> t == s)
  {
    hide NotReady, ReadyStatus, SaveProbeStatus, Generated, Resolve, Enumerates, Accepts;
    var p := s.probes.cache[k];
    SavesStatusOnly(s, p, now, a.status);
  }

  /** What it reports: Ready with the number of targets and the object's name after storing it, the missing reference if
      one did not resolve, and nothing otherwise or if the update does not go through. */
  lemma ReconcileReports(s: ProbeState, exporters: map<Key, Exporter>, modules: map<Key, Module>,
                         k: Key, order: seq<string>, now: int, a: Answers, e: Key, m: Key)
    requires k in s.probes.cache && Enumerates(order, s.probes.cache[k].spec) && s.probes.cache[k].meta.key == k
    requires k in s.probes.stored ==> s.probes.stored[k].meta.key == k
    requires RefersTo(s.probes.cache[k].spec.exporterRef, k.ns, e) && RefersTo(s.probes.cache[k].spec.moduleRef, k.ns, m)
    ensures var p, (t, outcome) := s.probes.cache[k], ProbePass(s, exporters, modules, k, order, now, a);
            var g, reports := p.meta.generation, outcome.Written? || outcome.ExporterMissing? || outcome.ModuleMissing?;
            && (outcome.Written? ==> outcome.statusAccepted == GoesThrough(s, p, a))
            && (!reports || !GoesThrough(s, p, a) ==> t.probes == s.probes)
            && (reports && GoesThrough(s, p, a) ==>
                  && k in t.probes.stored && t.probes.stored[k].spec == s.probes.stored[k].spec
                  && var r := t.probes.stored[k].status;
                  && r.observedGeneration == g
                  && (outcome.Written? ==>
                        && r.targetCount == |p.spec.targets| && r.probeRef == Some(NamespacedReference(k.name, k.ns))
                        && Shows(r.conditions, "Ready", True, g, "ProbeCreated", "prometheus-operator Probe CR created"))
                  && (outcome.ExporterMissing? ==>
                        Shows(r.conditions, "Ready", False, g, "ExporterNotFound", "BlackboxExporter " + e.ns + "/" + e.name + " not found"))
                  && (outcome.ModuleMissing? ==>
                        Shows(r.conditions, "Ready", False, g, "ModuleNotFound", "BlackboxModule " + m.ns + "/" + m.name + " not found")))
  {
    var p := s.probes.cache[k];
    assert e == Resolve(p, p.spec.exporterRef) && m == Resolve(p, p.spec.moduleRef);
    var noExporter := "BlackboxExporter " + e.ns + "/" + e.name + " not found";
    var noModule := "BlackboxModule " + m.ns + "/" + m.name + " not found";
    ProbeStatusShows(p, "ExporterNotFound", noExporter, now);
    ProbeStatusShows(p, "ModuleNotFound", noModule, now);
    StatusSaved(s, p, NotReady(p, "ExporterNotFound", noExporter, now), a);
    StatusSaved(s, p, NotReady(p, "ModuleNotFound", noModule, now), a);
    ReconcileSaves(s, exporters, modules, k, order, now, a);
    var (t, outcome) := ProbePass(s, exporters, modules, k, order, now, a);
    StatusSaved(s.(generated := t.generated), p, ReadyStatus(p, now), a);
    hide NotReady, ReadyStatus, SaveProbeStatus, Shows, ProbePass, Resolve, RefersTo, Enumerates;
  }
}
