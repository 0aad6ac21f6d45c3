/** The module and exporter controllers as they run: Reconcile over a cluster whose informers keep pace. */
module Controllers {
  import opened Base
  import opened Conditions
  import opened Api
  import opened Selector
  import opened Converter
  import opened Rendering
  import opened Owned
  import opened Reports
  import opened ApiServer
  import opened Steps
  import opened Passes
  import opened Failures

  class Cluster {
    var clock: nat
    var modules: Store<ModuleSpec, ModuleStatus>
    var exporters: Store<ExporterSpec, ExporterStatus>
    var out: Outputs

    /** The state of the step system, with the workers at the given points. */
    ghost function At(mw: ModuleWorker, ew: ExporterWorker): State
      reads this
    {
      State(clock, modules, exporters, out, mw, ew)
    }

    ghost function View(): State
      reads this
    {
      At(ModuleIdle, ExporterIdle)
    }

    constructor ()
      ensures View() == START
    {
      clock := 0;
      modules, exporters := Store(map[], map[], map[], {}), Store(map[], map[], map[], {});
      out := Outputs(map[], map[], map[], map[]);
    }

    // ---- the API ----

    method GetModule(k: Key) returns (m: Option<Module>)
      ensures m == if k in modules.cache then Some(modules.cache[k]) else None
    {
      m := if k in modules.cache then Some(modules.cache[k]) else None;
    }

    method GetExporter(k: Key) returns (e: Option<Exporter>)
      ensures e == if k in exporters.cache then Some(exporters.cache[k]) else None
    {
      e := if k in exporters.cache then Some(exporters.cache[k]) else None;
    }

    method ListModules(order: seq<Key>) returns (all: seq<Module>)
      requires forall k :: k in order ==> k in modules.cache
      ensures all == Items(order, modules.cache)
    {
      all := Items(order, modules.cache);
    }

    method ListExporters(order: seq<Key>) returns (all: seq<Exporter>)
      requires forall k :: k in order ==> k in exporters.cache
      ensures all == Items(order, exporters.cache)
    {
      all := Items(order, exporters.cache);
    }

    /** Status().Update of a module, and the informer's delivery of the result. */
    method UpdateModuleStatus(m: Module, status: ModuleStatus) returns (updated: Option<Module>)
      modifies `clock, `modules
      ensures updated.None? <==> !Accepts(old(modules), m)
      ensures updated.None? ==> clock == old(clock) && modules == old(modules)
      ensures updated.Some? ==>
                var t := WriteStatus(old(At(Prepared(m, status), ExporterIdle)));
                && t.mw == Touching(updated.value, status.referencedByExporters)
                && At(t.mw, ExporterIdle) == ModuleNews(t, m.meta.key)
    {
      var k := m.meta.key;
      if !Accepts(modules, m) {
        return None;
      }
      var next := modules.stored[k].(status := status);
      var tick := Tick(modules, next, clock);
      modules := Save(modules, next, clock);
      clock := tick;
      updated := Some(modules.stored[k]);
      modules := NewsOf(modules, k);
    }

    /** Update of an exporter, and the informer's delivery of the result. */
    method UpdateExporter(sent: Exporter, answered: bool) returns (ok: bool)
      modifies `clock, `exporters
      ensures ok == (answered && Accepts(old(exporters), sent))
      ensures ok ==>
                var next := Merged(old(exporters).stored[sent.meta.key], sent);
                && clock == Tick(old(exporters), next, old(clock))
                && exporters == NewsOf(Save(old(exporters), next, old(clock)), sent.meta.key)
      ensures !ok ==> clock == old(clock) && exporters == NewsOf(old(exporters), sent.meta.key)
    {
      var k := sent.meta.key;
      ok := answered && Accepts(exporters, sent);
      if ok {
        var next := Merged(exporters.stored[k], sent);
        var tick := Tick(exporters, next, clock);
        exporters := Save(exporters, next, clock);
        clock := tick;
      }
      exporters := NewsOf(exporters, k);
    }

    /** Status().Update of an exporter, and the informer's delivery of the result. */
    method UpdateExporterStatus(x: Exporter, status: ExporterStatus) returns (ok: bool)
      modifies `clock, `exporters
      ensures ok == Accepts(old(exporters), x)
      ensures ok ==>
                var next := old(exporters).stored[x.meta.key].(status := status);
                && clock == Tick(old(exporters), next, old(clock))
                && exporters == NewsOf(Save(old(exporters), next, old(clock)), x.meta.key)
      ensures !ok ==> clock == old(clock) && exporters == NewsOf(old(exporters), x.meta.key)
    {
      var k := x.meta.key;
      ok := Accepts(exporters, x);
      if ok {
        var next := exporters.stored[k].(status := status);
        var tick := Tick(exporters, next, clock);
        exporters := Save(exporters, next, clock);
        clock := tick;
      }
      exporters := NewsOf(exporters, k);
    }

    /** CreateOrUpdate of the ConfigMap; a change sends an event to the owner's queue. */
    method WriteConfigMap(k: Key, data: string, snap: Snapshot)
      modifies `out, `exporters
      ensures out == old(out).(configs := old(out).configs[k := data], basis := old(out).basis[k := snap])
      ensures exporters == if k in old(out).configs && old(out).configs[k] == data then old(exporters) else Enqueue(old(exporters), k)
    {
      if !(k in out.configs && out.configs[k] == data) {
        exporters := Enqueue(exporters, k);
      }
      out := out.(configs := out.configs[k := data], basis := out.basis[k := snap]);
    }

    /** CreateOrUpdate of one of the other owned objects, or Delete of the ServiceMonitor; again a change sends an event. */
    method WriteWorkload(k: Key, workload: Workload)
      modifies `out, `exporters
      ensures out == old(out).(workloads := old(out).workloads[k := workload])
      ensures exporters == if WorkloadOf(old(out), k) == workload then old(exporters) else Enqueue(old(exporters), k)
    {
      if WorkloadOf(out, k) != workload {
        exporters := Enqueue(exporters, k);
      }
      out := out.(workloads := out.workloads[k := workload]);
    }

    // ---- the module controller ----

    /** Reconcile of a module. The result tells whether the framework must retry. */
    method ReconcileModule(w: World, k: Key, a: ModuleAnswers, t1: int, t2: int) returns (retry: bool)
      requires ModuleAnswerable(View(), a)
      requires k in modules.cache ==> modules.cache[k].meta.key == k
      modifies this
      ensures !a.read ==> retry && View() == old(View())
      ensures a.read && k !in old(modules).cache ==> !retry && View() == old(View())
      ensures a.read && k in old(modules).cache ==>
                var l := old(At(Loaded(modules.cache[k]), ExporterIdle));
                var b := Prepare(w, l, a.listing, t1, t2);
                if b.mw.ModuleIdle? || !a.status then retry && View() == old(View())
                else
                  var c := WriteStatus(b);
                  if c.mw.ModuleIdle? then retry && View() == old(View())
                  else !retry && View() == TouchReached(ModuleNews(c, k), a.reached)
    {
      hide TouchReached, NewsOf;
      if !a.read {
        return true;
      }
      var found := GetModule(k);
      if found.None? {
        return false;
      }
      var mod := found.value;
      var converted := ConvertModule(w.lib, mod.spec, None);
      if converted.Panics? {
        return true;
      }
      var status := ObserveModule(mod, converted, a.listing, t1, t2);
      if !a.status {
        return true;
      }
      var updated := UpdateModuleStatus(mod, status);
      if updated.None? {
        return true;
      }
      TouchReferences(updated.value, status.referencedByExporters, a.reached);
      return false;
    }

    /** The status a Reconcile arrives at: conditions, back references, prober. A failed List leaves no references. */
    method ObserveModule(mod: Module, converted: Conversion, listing: Option<seq<Key>>, t1: int, t2: int) returns (status: ModuleStatus)
      requires !converted.Panics? && (listing.Some? ==> forall k :: k in listing.value ==> k in exporters.cache)
      ensures status ==
              ModuleReport(converted, mod, if listing.None? then [] else Referencing(Items(listing.value, exporters.cache), mod), t1, t2)
    {
      var configValid, reason, message := True, "Valid", "Module configuration is valid";
      if converted.Rejected? {
        configValid, reason, message := False, "Invalid", "Module configuration is invalid: " + converted.message;
      }
      var generation := mod.meta.generation;
      var conditions := new ConditionList(mod.status.conditions);
      conditions.SetCondition(Condition(CONDITION_CONFIG, configValid, generation, reason, message, 0), t1);

      var refs: seq<Key> := [];
      if listing.Some? {
        var all := ListExporters(listing.value);
        refs := FindReferences(mod, all);
      }

      var readyReason, readyMessage := reason, message;
      if configValid == True {
        readyReason, readyMessage := CONDITION_READY, "Module is ready";
      }
      conditions.SetCondition(Condition(CONDITION_READY, configValid, generation, readyReason, readyMessage, 0), t2);
      var prober := if converted.Converted? then converted.m.prober else converted.partial.prober;
      status := ModuleStatus(conditions.items, refs, prober, generation);
    }

    method FindReferences(m: Module, all: seq<Exporter>) returns (refs: seq<Key>)
      ensures refs == Referencing(all, m)
    {
      refs := [];
      for i := 0 to |all|
        invariant refs == Referencing(all[..i], m)
      {
        assert all[..i + 1][..i] == all[..i];
        var matches := ModuleMatchesSelector(m, all[i]);
        if matches {
          refs := refs + [all[i].meta.key];
        }
      }
      assert all[..|all|] == all;
    }

    /** The loop that wakes the referencing exporters; a failed update is only logged. */
    method TouchReferences(m: Module, refs: seq<Key>, reached: set<Key>)
      modifies `clock, `exporters
      ensures View() == TouchReached(old(At(Touching(m, refs), ExporterIdle)), reached)
    {
      ghost var start := At(Touching(m, refs), ExporterIdle);
      var i := 0;
      while i < |refs|
        invariant 0 <= i <= |refs|
        invariant modules == old(modules) && out == old(out)
        invariant TouchReached(At(Touching(m, refs[i..]), ExporterIdle), reached) == TouchReached(start, reached)
      {
        ghost var before := At(Touching(m, refs[i..]), ExporterIdle);
        var found := GetExporter(refs[i]);
        if found.Some? {
          var ok := UpdateExporter(Touched(found.value, m.meta.resourceVersion), refs[i] in reached);
        }
        assert refs[i..][1..] == refs[i + 1..];
        i := i + 1;
        assert TouchReached(before, reached) == TouchReached(At(Touching(m, refs[i..]), ExporterIdle), reached);
      }
    }

    /** One turn of the module worker: take a queued key, reconcile, queue it again on failure. */
    method ProcessModule(w: World, k: Key, a: ModuleAnswers, t1: int, t2: int)
      requires ModuleAnswerable(View(), a)
      requires k in modules.cache ==> modules.cache[k].meta.key == k
      modifies this
      ensures View() == ModulePassUnder(w, old(View()), k, a, t1, t2)
    {
      hide Convert, TouchReached, NewsOf, ModuleReport, Referencing, Items;
      modules := Dequeue(modules, k);
      var retry := ReconcileModule(w, k, a, t1, t2);
      if retry {
        modules := Enqueue(modules, k);
      }
    }

    // ---- the exporter controller ----

    /** Reconcile of an exporter. The result tells whether the framework must retry. */
    method ReconcileExporter(w: World, k: Key, a: ExporterAnswers, t1: int, t2: int) returns (retry: bool)
      requires ExporterAnswerable(View(), a)
      requires k in exporters.cache ==> exporters.cache[k].meta.key == k
      modifies this
      ensures !a.read ==> retry && View() == old(View())
      ensures a.read && k !in old(exporters).cache ==> !retry && View() == old(View())
      ensures a.read && k in old(exporters).cache && a.listing.None? ==> retry && View() == old(View())
      ensures a.read && k in old(exporters).cache && a.listing.Some? ==>
                var l := old(At(ModuleIdle, Fetched(exporters.cache[k])));
                var b := RenderAll(w, l, a.listing.value);
                if b.ew.ExporterIdle? then retry && View() == old(View())
                else
                  (if retry then View().(exporters := Enqueue(exporters, k)) else View()) == WritePhaseUnder(w, b, k, a, t1, t2)
    {
      if !a.read {
        return true;
      }
      var found := GetExporter(k);
      if found.None? {
        return false;
      }
      if a.listing.None? {
        return true;
      }
      var exporter := found.value;
      var morder := a.listing.value;
      ghost var l := At(ModuleIdle, Fetched(exporter));
      ghost var snap := Snapshot(exporter, morder, modules.cache);
      var all := ListModules(morder);
      var selected := CollectModules(all, exporter);
      var bbModules := BuildModuleMap(w, selected);
      if bbModules.None? {
        return true;
      }
      ghost var b := RenderAll(w, l, morder);
      assert b == At(ModuleIdle, Gathered(exporter, snap, bbModules.value));
      retry := WriteAndReport(w, exporter, Snapshot(exporter, morder, modules.cache), bbModules.value, a, t1, t2);
    }

    /** The writes of the owned objects, stopping at the first that fails. */
    method WriteOwned(w: World, exporter: Exporter, snap: Snapshot, bbModules: map<string, ExporterModule>, a: ExporterAnswers)
      returns (ok: bool)
      modifies `out, `exporters
      ensures ok == (a.rendered && a.config && a.deployment && a.service && a.monitor)
      ensures var k, b := exporter.meta.key, old(At(ModuleIdle, Gathered(exporter, snap, bbModules)));
              if ok then
                && At(ModuleIdle, Applied(exporter, |bbModules|)) == OwnedNews(b, WorkloadWritten(ConfigWritten(w, b)), k)
                && At(ModuleIdle, ExporterIdle).(exporters := Enqueue(exporters, k)) == ExporterRetry(WorkloadWritten(ConfigWritten(w, b)), k)
              else At(ModuleIdle, ExporterIdle).(exporters := Enqueue(exporters, k)) == WritePhaseUnder(w, b, k, a, 0, 0)
    {
      hide DesiredWorkload, ReportWritten;
      var k := exporter.meta.key;
      ghost var queue := exporters.queue;
      assert queue + {k} + {k} == queue + {k};
      if !a.rendered || !a.config {
        return false;
      }
      WriteConfigMap(k, w.lib.render(bbModules), snap);
      ok := WriteParts(exporter, a);
    }

    method WriteParts(exporter: Exporter, a: ExporterAnswers) returns (ok: bool)
      modifies `out, `exporters
      ensures ok == (a.deployment && a.service && a.monitor)
      ensures var k, desired, was := exporter.meta.key, DesiredWorkload(exporter.meta.key, exporter.spec), WorkloadOf(old(out), exporter.meta.key);
              var reached :=
                if ok then desired
                else if !a.deployment then was
                else if !a.service then was.(deployment := desired.deployment)
                else was.(deployment := desired.deployment, service := desired.service);
              && out == (if a.deployment then old(out).(workloads := old(out).workloads[k := reached]) else old(out))
              && exporters == if reached == was then old(exporters) else Enqueue(old(exporters), k)
    {
      hide DesiredWorkload;
      var k, desired := exporter.meta.key, DesiredWorkload(exporter.meta.key, exporter.spec);
      assert exporters.queue + {k} + {k} == exporters.queue + {k};
      if !a.deployment {
        return false;
      }
      WriteWorkload(k, WorkloadOf(out, k).(deployment := desired.deployment));
      if !a.service {
        return false;
      }
      WriteWorkload(k, WorkloadOf(out, k).(service := desired.service));
      if !a.monitor {
        return false;
      }
      WriteWorkload(k, WorkloadOf(out, k).(monitor := desired.monitor));
      return true;
    }

    method MakeReport(exporter: Exporter, count: nat, observed: Option<int>, t1: int, t2: int) returns (status: ExporterStatus)
      ensures status == ExporterReport(exporter, count, observed, t1, t2)
    {
      var readyReplicas := exporter.status.readyReplicas;
      if observed.Some? {
        readyReplicas := observed.value;
      }
      var ready, reason, message := False, "Reconciling", "Reconciliation in progress";
      if readyReplicas > 0 {
        ready, reason, message := True, "DeploymentAvailable", "Deployment has minimum availability";
      }
      var generation := exporter.meta.generation;
      var conditions := new ConditionList(exporter.status.conditions);
      conditions.SetCondition(Condition(CONDITION_READY, ready, generation, reason, message, 0), t1);
      conditions.SetCondition(
        Condition(CONDITION_CONFIG, True, generation, "ConfigRendered",
                  "Configuration rendered from " + Decimal(count) + " modules", 0), t2);
      status := ExporterStatus(conditions.items, count, readyReplicas, generation);
    }

    /** The end of Reconcile: read the readiness of the Deployment, when its Get goes through, and report. */
    method Report(exporter: Exporter, count: nat, readiness: bool, t1: int, t2: int) returns (retry: bool)
      modifies `clock, `exporters
      ensures (if retry then View().(exporters := Enqueue(exporters, exporter.meta.key)) else View())
              == ExporterNews(ReportWritten(old(At(ModuleIdle, Applied(exporter, count))), t1, t2, readiness), exporter.meta.key)
    {
      hide ExporterReport;
      var k := exporter.meta.key;
      var status := MakeReport(exporter, count, if readiness then Observed(out, k) else None, t1, t2);
      ghost var before := exporters;
      var ok := UpdateExporterStatus(exporter, status);
      if !ok {
        NewsThenQueue(before, k);
      }
      return !ok;
    }

    method WriteAndReport(w: World, exporter: Exporter, snap: Snapshot, bbModules: map<string, ExporterModule>, a: ExporterAnswers,
                          t1: int, t2: int)
      returns (retry: bool)
      modifies this
      ensures (if retry then View().(exporters := Enqueue(exporters, exporter.meta.key)) else View())
              == WritePhaseUnder(w, old(At(ModuleIdle, Gathered(exporter, snap, bbModules))), exporter.meta.key, a, t1, t2)
    {
      hide ReportWritten, ConfigWritten, WorkloadWritten, NewsOf, OwnedNews;
      var ok := WriteOwned(w, exporter, snap, bbModules, a);
      if !ok {
        return true;
      }
      if !a.status {
        return true;
      }
      retry := Report(exporter, |bbModules|, a.readiness, t1, t2);
    }

    /** One turn of the exporter worker. */
    method ProcessExporter(w: World, k: Key, a: ExporterAnswers, t1: int, t2: int)
      requires ExporterAnswerable(View(), a)
      requires k in exporters.cache ==> exporters.cache[k].meta.key == k
      modifies this
      ensures View() == ExporterPassUnder(w, old(View()), k, a, t1, t2)
    {
      hide WritePhaseUnder, ModuleMap, Selected, Items;
      exporters := Dequeue(exporters, k);
      var retry := ReconcileExporter(w, k, a, t1, t2);
      if retry {
        exporters := Enqueue(exporters, k);
      }
    }
  }

  lemma NewsThenQueue(st: Store<ExporterSpec, ExporterStatus>, k: Key)
    ensures Enqueue(NewsOf(st, k), k) == NewsOf(Enqueue(st, k), k)
  {
    assert st.queue + {k} + {k} == st.queue + {k};
  }
}
