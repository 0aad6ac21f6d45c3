/** The three controllers together: what a probe names is what its exporter serves. */
module EndToEnd {
  import opened Base
  import opened Conditions
  import opened Api
  import opened Selector
  import opened Converter
  import opened Secrets
  import opened Rendering
  import opened Reports
  import opened Owned
  import opened ApiServer
  import opened Steps
  import opened LostUpdates
  import opened Convergence
  import Outcome
  import opened OwnedLaws
  import opened Probes
  import opened ProbeLaws

  /** When nothing is pending for the exporter, a generated Probe that reads as its spec says names a module of the
      exporter's configuration, that name is bound to exactly the conversion of the referenced module, and the URL is the
      address and port of the exporter's Service. */
  lemma ProbeReachesItsModule(w: World, history: seq<Step>, s: State, p: Probe, e: Key, k: Key, g: PromProbe)
    requires CoveredRun(w, START, history, s)
    requires RefersTo(p.spec.exporterRef, p.meta.key.ns, e) && RefersTo(p.spec.moduleRef, p.meta.key.ns, k)
    requires e in s.exporters.stored && k in s.modules.stored && Outcome.NothingPending(s, e)
    requires ObjectRead(g, p, s.exporters.stored[e], s.modules.stored[k])
    requires Matches(s.modules.stored[k], s.exporters.stored[e]) && Convertible(w, s.modules.stored[k])
    requires Outcome.OnlyBearer(w, s.modules.stored, s.exporters.stored[e], k)
    ensures e in s.out.configs && e in s.out.workloads
    ensures exists bbModules ::
              && s.out.configs[e] == w.lib.render(bbModules)
              && g.moduleName == k.ns + "-" + k.name && g.moduleName in bbModules
              && bbModules[g.moduleName] == ConversionOf(w, s.modules.stored[k]).m
    ensures s.out.workloads[e].service.Some? && AddressRead(g.url, e, s.out.workloads[e].service.value.port.number)
  {
    hide Matches, ConversionOf, Served, Outcome.NothingPending, Outcome.RendersRight, Outcome.OnlyBearer, AddressRead, MetadataRead,
         StaticRead, IngressRead, RulesRead;
    Outcome.PendingOrRight(w, history, s, e);
    ReachableServed(w, history, s);
    var x := s.exporters.stored[e];
    assert x.meta.key == e && s.modules.stored[k].meta.key == k;
    var listing, bbModules :| Outcome.RendersRight(w, s.modules.stored, x, listing, bbModules)
                              && s.out.configs[e] == w.lib.render(bbModules);
    Outcome.RenderedValue(w, s.modules.stored, x, listing, bbModules, k);
    assert g.moduleName == NameOf(s.modules.stored[k]);
  }

  /** When nothing is pending for an exporter, what runs for it reads as its current spec says. */
  lemma WorkloadReadsSpec(w: World, history: seq<Step>, s: State, e: Key)
    requires CoveredRun(w, START, history, s) && e in s.exporters.stored && Outcome.NothingPending(s, e)
    ensures e in s.out.workloads && WorkloadRead(s.out.workloads[e], e, s.exporters.stored[e].spec)
  {
    hide CoveredRun, WorkloadRead, DesiredWorkload, Outcome.NothingPending;
    Outcome.PendingOrRight(w, history, s, e);
    WorkloadLaw(e, s.exporters.stored[e].spec);
  }

  ghost predicate SaysValid(status: ModuleStatus) {
    var i := IndexOf(status.conditions, CONDITION_CONFIG);
    i < |status.conditions| && status.conditions[i].status == True
  }

  ghost predicate SaysReady(status: ModuleStatus) {
    var i := IndexOf(status.conditions, CONDITION_READY);
    i < |status.conditions| && status.conditions[i].status == True
  }

  /** The module controller, which never reads a Secret, reports ConfigValid and Ready exactly for the modules the exporter
      controller renders, whatever the Secrets hold, and reports the prober that gets rendered. */
  lemma ReportedValidExactly(w: World, m: Module, refs: seq<Key>, t1: int, t2: int)
    requires !Convert(w.lib, m.spec, None).Panics?
    ensures var status := ModuleReport(Convert(w.lib, m.spec, None), m, refs, t1, t2);
            && (SaysValid(status) <==> Convertible(w, m))
            && (SaysReady(status) <==> Convertible(w, m))
            && (Convertible(w, m) ==> status.prober == ConversionOf(w, m).m.prober)
  {
    hide Convert;
    RenderedAsValidated(w.lib, w.secrets, m.meta.key.ns, m.spec);
    ModuleReportShows(Convert(w.lib, m.spec, None), m, refs, t1, t2);
  }
}
