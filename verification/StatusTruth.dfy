/** What statuses say once nothing is pending: the current generation, and the truth about it. */
module StatusTruth {
  import opened Base
  import opened Conditions
  import opened Api
  import opened Converter
  import opened Rendering
  import opened Reports
  import opened ApiServer
  import opened Steps
  import opened LostUpdates
  import opened Convergence
  import opened EndToEnd
  import Secrets

  // ---- the claims ----

  /** The status speaks of the current generation, and of its conversion correctly: valid and ready exactly if the module
      is rendered, with the error in both entries if it is not. */
  ghost predicate TruthfulModule(w: World, m: Module) {
    var g, cs := m.meta.generation, m.status.conditions;
    && m.status.observedGeneration == g
    && !Convert(w.lib, m.spec, None).Panics?
    && (SaysValid(m.status) <==> Convertible(w, m))
    && (SaysReady(m.status) <==> Convertible(w, m))
    && (Convertible(w, m) ==>
          && m.status.prober == ConversionOf(w, m).m.prober
          && Shows(cs, "ConfigValid", True, g, "Valid", "Module configuration is valid")
          && Shows(cs, "Ready", True, g, "Ready", "Module is ready"))
    && (!Convertible(w, m) ==>
          && Convert(w.lib, m.spec, None).Rejected?
          && var error := "Module configuration is invalid: " + Convert(w.lib, m.spec, None).message;
             Shows(cs, "ConfigValid", False, g, "Invalid", error) && Shows(cs, "Ready", False, g, "Invalid", error))
  }

  /** The status speaks of the current generation; it says ready exactly if it counts a ready replica. */
  ghost predicate TruthfulExporter(x: Exporter) {
    var g, cs := x.meta.generation, x.status.conditions;
    && x.status.observedGeneration == g
    && Shows(cs, "ConfigValid", True, g, "ConfigRendered",
             "Configuration rendered from " + Decimal(x.status.moduleCount) + " modules")
    && (x.status.readyReplicas > 0 ==>
          Shows(cs, "Ready", True, g, "DeploymentAvailable", "Deployment has minimum availability"))
    && (x.status.readyReplicas <= 0 ==>
          Shows(cs, "Ready", False, g, "Reconciling", "Reconciliation in progress"))
  }

  /** The module worker holds m and has not written its status yet. */
  ghost predicate InHand(s: State, m: Key) {
    (s.mw.Loaded? || s.mw.Prepared?) && s.mw.m.meta.key == m
  }

  ghost predicate ModuleReported(w: World, s: State, m: Key)
    requires m in s.modules.stored
  {
    Owing(s, m) || InHand(s, m) || TruthfulModule(w, s.modules.stored[m])
  }

  ghost predicate PreparedTruthful(w: World, s: State) {
    s.mw.Prepared? ==> TruthfulModule(w, s.mw.m.(status := s.mw.status))
  }

  ghost predicate CountIs(w: World, s: State, e: Key, count: nat) {
    e in s.out.basis && exists bbModules :: RendersTo(w, s.out.basis[e], bbModules) && count == |bbModules|
  }

  /** The worker is between rendering e and reporting on it. */
  ghost predicate InProgress(s: State, e: Key) {
    (s.ew.Gathered? || s.ew.Configured? || s.ew.Applied?) && s.ew.x.meta.key == e
  }

  /** The status speaks of the current generation and counts the modules of the ConfigMap. */
  ghost predicate ExporterReported(w: World, s: State, e: Key)
    requires e in s.exporters.stored
  {
    || Dirty(s, e) || InProgress(s, e)
    || (TruthfulExporter(s.exporters.stored[e]) && CountIs(w, s, e, s.exporters.stored[e].status.moduleCount))
  }

  ghost predicate CountHeld(w: World, s: State) {
    (s.ew.Configured? || s.ew.Applied?) ==> CountIs(w, s, s.ew.x.meta.key, s.ew.count)
  }

  ghost predicate ModulesReported(w: World, s: State) {
    PreparedTruthful(w, s) && forall m :: m in s.modules.stored ==> ModuleReported(w, s, m)
  }

  ghost predicate ExportersReported(w: World, s: State) {
    CountHeld(w, s) && forall e :: e in s.exporters.stored ==> ExporterReported(w, s, e)
  }

  // ---- modules ----

  /** Steps that store no module, and leave the worker where it is or past its status write. */
  lemma ModulesFrame(w: World, s: State, t: State)
    requires ModulesReported(w, s)
    requires t.modules.stored == s.modules.stored
    requires forall m :: m in s.modules.stored && Owing(s, m) ==> Owing(t, m)
    requires t.mw == s.mw || !(s.mw.Loaded? || s.mw.Prepared? || t.mw.Prepared?)
             || (t.mw.ModuleIdle? && (s.mw.m.meta.key in s.modules.stored ==> Owing(t, s.mw.m.meta.key)))
    ensures ModulesReported(w, t)
  {
    hide TruthfulModule, Owing;
    forall m | m in t.modules.stored ensures ModuleReported(w, t, m) {
      assert ModuleReported(w, s, m);
    }
  }

  /** A write that keeps the spec, status and generation, or moves the generation on. */
  lemma ModuleEditReported(w: World, s: State, next: Module)
    requires ModulesReported(w, s) && Served(s) && StoresSound(s)
    requires next.meta.key in s.modules.stored ==>
               var m := s.modules.stored[next.meta.key];
               next.meta.generation > m.meta.generation
               || (next.meta.generation == m.meta.generation && next.spec == m.spec && next.status == m.status)
    ensures ModulesReported(w, SaveModule(s, next))
  {
    hide TruthfulModule, Served;
    var t, k := SaveModule(s, next), next.meta.key;
    forall m | m in t.modules.stored ensures ModuleReported(w, t, m) {
      if m != k {
        assert ModuleReported(w, s, m);
        assert Owing(s, m) ==> Owing(t, m);
      } else if k in s.modules.stored {
        assert ModuleReported(w, s, k);
        if k in s.modules.cache {
          CachedGeneration(s, k);
        }
        SameTruth(w, s.modules.stored[k], t.modules.stored[k]);
      } else {
        assert Behind(t.modules, k) by {
          if k in s.modules.cache {
            CachedGeneration(s, k);
          }
        }
      }
    }
  }

  lemma SameTruth(w: World, m: Module, n: Module)
    ensures m.meta.key == n.meta.key && m.meta.generation == n.meta.generation && m.spec == n.spec && m.status == n.status
            ==> (TruthfulModule(w, m) <==> TruthfulModule(w, n))
  {
    hide Convert, SaysValid, SaysReady, Shows;
  }

  lemma PreparedReported(w: World, s: State, listing: Option<seq<Key>>, t1: int, t2: int)
    requires ModulesReported(w, s) && s.mw.Loaded?
    requires listing.Some? ==> Lists(listing.value, s.exporters.cache.Keys)
    ensures ModulesReported(w, Prepare(w, s, listing, t1, t2))
  {
    hide Convert, Convertible, SaysValid, SaysReady, ConversionOf, Shows, ModuleReport;
    var t := Prepare(w, s, listing, t1, t2);
    var m := s.mw.m;
    if t.mw.Prepared? {
      var refs := if listing.None? then [] else Selector.Referencing(Items(listing.value, s.exporters.cache), m);
      ReportedValidExactly(w, m, refs, t1, t2);
      ReportIsTruthful(w, m, refs, t1, t2);
    }
    forall j | j in t.modules.stored ensures ModuleReported(w, t, j) {
      assert ModuleReported(w, s, j);
    }
  }

  lemma ReportIsTruthful(w: World, m: Module, refs: seq<Key>, t1: int, t2: int)
    requires !Convert(w.lib, m.spec, None).Panics?
    ensures TruthfulModule(w, m.(status := ModuleReport(Convert(w.lib, m.spec, None), m, refs, t1, t2)))
  {
    hide Convert, ModuleReport, SaysValid, SaysReady, Shows;
    ReportedValidExactly(w, m, refs, t1, t2);
    ModuleReportShows(Convert(w.lib, m.spec, None), m, refs, t1, t2);
    Secrets.RenderedAsValidated(w.lib, w.secrets, m.meta.key.ns, m.spec);
    var n := m.(status := ModuleReport(Convert(w.lib, m.spec, None), m, refs, t1, t2));
    assert ConversionOf(w, n) == ConversionOf(w, m);
  }

  lemma WriteReported(w: World, s: State)
    requires ModulesReported(w, s) && StoresSound(s) && s.mw.Prepared? && Version(s.modules, s.mw.m)
    ensures ModulesReported(w, WriteStatus(s))
  {
    hide TruthfulModule, Logged;
    var t, m := WriteStatus(s), s.mw.m;
    if Accepts(s.modules, m) {
      AcceptedIsCurrent(s.modules, s.clock, m);
      var k := m.meta.key;
      SameTruth(w, m.(status := s.mw.status), t.modules.stored[k]);
      forall j | j in t.modules.stored ensures ModuleReported(w, t, j) {
        if j != k {
          assert ModuleReported(w, s, j);
          assert Owing(s, j) ==> Owing(t, j);
        }
      }
    } else {
      ModulesFrame(w, s, t);
    }
  }

  lemma LoadReported(w: World, s: State, k: Key)
    requires ModulesReported(w, s) && StoresSound(s) && s.mw.ModuleIdle?
    ensures ModulesReported(w, Load(s, k))
  {
    hide TruthfulModule;
    var t := Load(s, k);
    forall m | m in t.modules.stored ensures ModuleReported(w, t, m) {
      assert ModuleReported(w, s, m);
    }
  }

  // ---- exporters ----

  /** Steps that keep the provenance of ConfigMaps and the worker, and change an exporter only by making it dirty. */
  lemma ExportersFrame(w: World, s: State, t: State)
    requires ExportersReported(w, s)
    requires t.out.basis == s.out.basis && t.ew == s.ew
    requires forall e :: e in t.exporters.stored ==>
               || Dirty(t, e)
               || (e in s.exporters.stored && t.exporters.stored[e] == s.exporters.stored[e] && !Dirty(s, e))
    ensures ExportersReported(w, t)
  {
    hide Dirty;
    forall e | e in t.exporters.stored ensures ExporterReported(w, t, e) {
      if !Dirty(t, e) {
        assert ExporterReported(w, s, e);
      }
    }
  }

  lemma SaveMakesDirty(s: State, next: Exporter)
    requires StoresSound(s)
    ensures Changes(s.exporters, next) ==> Unseen(SaveExporter(s, next).exporters, next.meta.key)
  {
    var k := next.meta.key;
    if k in s.exporters.cache {
      assert Version(s.exporters, s.exporters.cache[k]);
    }
  }

  lemma ExporterSaveReported(w: World, s: State, next: Exporter)
    requires ExportersReported(w, s) && StoresSound(s)
    ensures ExportersReported(w, SaveExporter(s, next))
  {
    var t := SaveExporter(s, next);
    SaveMakesDirty(s, next);
    ExportersFrame(w, s, t);
  }

  lemma ExporterRetryReported(w: World, s: State, k: Key)
    requires ExportersReported(w, s) && !s.ew.ExporterIdle? && s.ew.x.meta.key == k
    ensures ExportersReported(w, ExporterRetry(s, k))
  {
    var t := ExporterRetry(s, k);
    forall e | e in t.exporters.stored ensures ExporterReported(w, t, e) {
      assert ExporterReported(w, s, e);
    }
  }

  lemma FetchReported(w: World, s: State, k: Key)
    requires ExportersReported(w, s) && StoresSound(s) && s.ew.ExporterIdle?
    ensures ExportersReported(w, Fetch(s, k))
  {
    var t := Fetch(s, k);
    forall e | e in t.exporters.stored ensures ExporterReported(w, t, e) {
      assert ExporterReported(w, s, e);
    }
  }

  lemma RenderReported(w: World, s: State, order: seq<Key>)
    requires ExportersReported(w, s) && s.ew.Fetched? && Lists(order, s.modules.cache.Keys)
    ensures ExportersReported(w, RenderAll(w, s, order))
  {
    hide ModuleMap, Selector.Selected;
    var t := RenderAll(w, s, order);
    if t.ew.Gathered? {
      forall e | e in t.exporters.stored ensures ExporterReported(w, t, e) {
        assert ExporterReported(w, s, e);
      }
    } else {
      ExporterRetryReported(w, s, s.ew.x.meta.key);
    }
  }

  lemma ConfigReported(w: World, s: State)
    requires ExportersReported(w, s) && s.ew.Gathered? && RendersTo(w, s.ew.snap, s.ew.bbModules)
    ensures ExportersReported(w, ConfigWritten(w, s))
  {
    hide RendersTo;
    var t := ConfigWritten(w, s);
    assert CountIs(w, t, s.ew.x.meta.key, |s.ew.bbModules|);
    forall e | e in t.exporters.stored ensures ExporterReported(w, t, e) {
      assert ExporterReported(w, s, e);
    }
  }

  lemma WorkloadReported(w: World, s: State)
    requires ExportersReported(w, s) && s.ew.Configured?
    ensures ExportersReported(w, WorkloadWritten(s))
  {
    hide RendersTo, Owned.DesiredWorkload;
    var t := WorkloadWritten(s);
    forall e | e in t.exporters.stored ensures ExporterReported(w, t, e) {
      assert ExporterReported(w, s, e);
    }
  }

  lemma ExporterReportIsTruthful(x: Exporter, count: nat, observed: Option<int>, t1: int, t2: int, rv: nat)
    ensures var y := x.(status := ExporterReport(x, count, observed, t1, t2));
            TruthfulExporter(y) && TruthfulExporter(Stamped(y, rv)) && y.status.moduleCount == count
  {
    hide ExporterReport, Shows;
    ExporterReportShows(x, count, observed, t1, t2);
  }

  lemma ReportReported(w: World, s: State, t1: int, t2: int, seen: bool)
    requires ExportersReported(w, s) && StoresSound(s) && s.ew.Applied? && Version(s.exporters, s.ew.x)
    ensures ExportersReported(w, ReportWritten(s, t1, t2, seen))
  {
    hide ExporterReport, RendersTo, CountIs, TruthfulExporter;
    var x, k := s.ew.x, s.ew.x.meta.key;
    if Accepts(s.exporters, x) {
      AcceptedIsCurrent(s.exporters, s.clock, x);
      var observed := if seen then Observed(s.out, k) else None;
      var report := ExporterReport(x, s.ew.count, observed, t1, t2);
      ExporterReportIsTruthful(x, s.ew.count, observed, t1, t2, s.clock + 1);
      var next := x.(status := report);
      ExporterSaveReported(w, s, next);
      var u, t := SaveExporter(s, next), ReportWritten(s, t1, t2, seen);
      assert t == u.(ew := ExporterIdle);
      SaveMakesDirty(s, next);
      forall e | e in t.exporters.stored ensures ExporterReported(w, t, e) {
        assert ExporterReported(w, u, e);
        if e == k && !Changes(s.exporters, next) {
          assert CountIs(w, s, k, s.ew.count);
          SameCount(w, s, t, k, s.ew.count);
        } else {
          SameCount(w, u, t, e, u.exporters.stored[e].status.moduleCount);
        }
      }
    } else {
      ExporterRetryReported(w, s, k);
    }
  }

  lemma SameCount(w: World, s: State, t: State, e: Key, count: nat)
    requires t.out == s.out
    ensures CountIs(w, s, e, count) <==> CountIs(w, t, e, count)
  {
  }

  // ---- every covered step ----

  /** Steps of users and informers that store no module. */
  lemma QuietModules(w: World, s: State, t: State)
    requires ModulesReported(w, s)
    requires t.modules.stored == s.modules.stored && t.mw == s.mw
    requires t.modules.cache == s.modules.cache && s.modules.queue <= t.modules.queue
    ensures ModulesReported(w, t)
  {
    ModulesFrame(w, s, t);
  }

  lemma ModuleDeliveredReported(w: World, s: State, x: Module)
    requires ModulesReported(w, s) && ExportersReported(w, s)
    ensures ModulesReported(w, s.(modules := Deliver(s.modules, x))) && ExportersReported(w, s.(modules := Deliver(s.modules, x)))
  {
    var t := s.(modules := Deliver(s.modules, x));
    ModulesFrame(w, s, t);
    ExportersFrame(w, s, t);
  }

  /** Steps on the exporter store that leave each remaining exporter as it was or make it dirty. */
  lemma QuietExporters(w: World, s: State, t: State)
    requires ExportersReported(w, s)
    requires t.out.basis == s.out.basis && t.ew == s.ew
    requires forall e :: e in t.exporters.stored ==> e in s.exporters.stored && t.exporters.stored[e] == s.exporters.stored[e]
    requires forall e :: e in t.exporters.stored && (e in s.exporters.queue || Unseen(s.exporters, e)) ==>
               e in t.exporters.queue || Unseen(t.exporters, e)
    ensures ExportersReported(w, t)
  {
    ExportersFrame(w, s, t);
  }

  lemma ExporterNewsReported(w: World, s: State, step: Step)
    requires ModulesReported(w, s) && ExportersReported(w, s) && Enabled(s, step)
    requires step.UserDeletesExporter? || step.ExporterDelivered? || step.ExporterDropped? || step.ExporterRequeued?
    ensures ModulesReported(w, Apply(w, s, step)) && ExportersReported(w, Apply(w, s, step))
  {
    hide ModulesReported, ExportersReported, SaveModule, SaveExporter, ModuleRetry, ExporterRetry;
    hide Load, Prepare, WriteStatus, ReadRef, TouchRef, Fetch, RenderAll, ConfigWritten, WorkloadWritten, ReportWritten;
    var t := Apply(w, s, step);
    QuietModules(w, s, t);
    QuietExporters(w, s, t);
  }

  lemma OutsideReported(w: World, s: State, step: Step)
    requires ModulesReported(w, s) && ExportersReported(w, s) && Enabled(s, step)
    requires step.UserDeletesExporter? || step.ReadinessChanges? || step.ModuleDelivered? || step.ExporterDelivered?
             || step.ExporterDropped? || step.ModuleRequeued? || step.ExporterRequeued?
    ensures ModulesReported(w, Apply(w, s, step)) && ExportersReported(w, Apply(w, s, step))
  {
    hide ModulesReported, ExportersReported, SaveModule, SaveExporter, ModuleRetry, ExporterRetry;
    hide Load, Prepare, WriteStatus, ReadRef, TouchRef, Fetch, RenderAll, ConfigWritten, WorkloadWritten, ReportWritten;
    var t := Apply(w, s, step);
    if step.ModuleDelivered? {
      ModuleDeliveredReported(w, s, s.modules.log[step.rv]);
    } else if step.ModuleRequeued? || step.ReadinessChanges? {
      QuietModules(w, s, t);
      QuietExporters(w, s, t);
    } else {
      ExporterNewsReported(w, s, step);
    }
  }

  lemma WriteStepReported(w: World, s: State, step: Step)
    requires Sound(w, s) && Served(s) && ModulesReported(w, s) && ExportersReported(w, s)
    requires Enabled(s, step) && Covered(s, step)
    requires step.UserCreatesModule? || step.UserEditsModule? || step.UserCreatesExporter? || step.UserEditsExporter?
    ensures ModulesReported(w, Apply(w, s, step)) && ExportersReported(w, Apply(w, s, step))
  {
    hide Served, ModulesReported, ExportersReported, ModuleWorkerSound, ExporterWorkerSound, ConfigsSound, Logged;
    hide Load, Prepare, WriteStatus, ReadRef, TouchRef, Fetch, RenderAll, ConfigWritten, WorkloadWritten, ReportWritten;
    var t := Apply(w, s, step);
    match step {
      case UserCreatesModule(k, labels, annotations, spec) =>
        ModuleEditReported(w, s, Created(k, labels, annotations, spec, NEW_MODULE_STATUS));
        QuietExporters(w, s, t);
      case UserEditsModule(k, labels, annotations, spec) =>
        StoredKey(s, k);
        ModuleEditReported(w, s, Edited(s.modules.stored[k], labels, annotations, spec));
        QuietExporters(w, s, t);
      case UserCreatesExporter(k, labels, annotations, spec) =>
        ExporterSaveReported(w, s, Created(k, labels, annotations, spec, NEW_EXPORTER_STATUS));
        QuietModules(w, s, t);
      case UserEditsExporter(k, labels, annotations, spec) =>
        ExporterSaveReported(w, s, Edited(s.exporters.stored[k], labels, annotations, spec));
        QuietModules(w, s, t);
    }
  }

  lemma StoredKey(s: State, k: Key)
    requires StoresSound(s) && k in s.modules.stored
    ensures s.modules.stored[k].meta.key == k
  {
  }

  lemma ModuleRetryReported(w: World, s: State)
    requires ModulesReported(w, s) && ExportersReported(w, s) && (s.mw.Loaded? || s.mw.Prepared?)
    ensures ModulesReported(w, ModuleRetry(s, s.mw.m.meta.key)) && ExportersReported(w, ModuleRetry(s, s.mw.m.meta.key))
  {
    ModulesFrame(w, s, ModuleRetry(s, s.mw.m.meta.key));
    QuietExporters(w, s, ModuleRetry(s, s.mw.m.meta.key));
  }

  lemma TouchReported(w: World, s: State)
    requires ModulesReported(w, s) && ExportersReported(w, s) && StoresSound(s) && s.mw.Holding?
    ensures ModulesReported(w, TouchRef(s, true)) && ExportersReported(w, TouchRef(s, true))
  {
    var done := s.(mw := Touching(s.mw.m, s.mw.refs));
    QuietExporters(w, s, done);
    if Accepts(s.exporters, s.mw.held) {
      ExporterSaveReported(w, done,
        Merged(s.exporters.stored[s.mw.held.meta.key], Touched(s.mw.held, s.mw.m.meta.resourceVersion)));
    }
    ModulesFrame(w, s, TouchRef(s, true));
  }

  lemma ModuleStepReported(w: World, s: State, step: Step)
    requires Sound(w, s) && ModulesReported(w, s) && ExportersReported(w, s)
    requires Enabled(s, step) && Covered(s, step)
    requires step.LoadModule? || step.PrepareStatus? || step.WriteModuleStatus? || step.ReadReference?
             || step.TouchReference? || step.FinishModule? || step.ModuleCallFails?
    ensures ModulesReported(w, Apply(w, s, step)) && ExportersReported(w, Apply(w, s, step))
  {
    hide ModulesReported, ExportersReported, ExporterWorkerSound, ConfigsSound, Logged, ModulesWithin, ExportersWithin;
    hide Convert, ModuleReport, TouchRef, Fetch, RenderAll, ConfigWritten, WorkloadWritten, ReportWritten;
    var t := Apply(w, s, step);
    match step {
      case LoadModule(k) =>
        LoadReported(w, s, k);
        QuietExporters(w, s, t);
      case PrepareStatus(listing, t1, t2) =>
        PreparedReported(w, s, listing, t1, t2);
        QuietExporters(w, s, t);
      case WriteModuleStatus =>
        WriteReported(w, s);
        QuietExporters(w, s, t);
      case ReadReference =>
        ModulesFrame(w, s, t);
        QuietExporters(w, s, t);
      case TouchReference(_) => TouchReported(w, s);
      case FinishModule =>
        ModulesFrame(w, s, t);
        QuietExporters(w, s, t);
      case ModuleCallFails => ModuleRetryReported(w, s);
    }
  }

  lemma ExporterStepReported(w: World, s: State, step: Step)
    requires Sound(w, s) && ModulesReported(w, s) && ExportersReported(w, s) && Enabled(s, step)
    requires step.FetchExporter? || step.RenderModules? || step.WriteConfig? || step.WriteWorkload?
             || step.WritePart? || step.WriteExporterStatus? || step.ExporterCallFails?
    ensures ModulesReported(w, Apply(w, s, step)) && ExportersReported(w, Apply(w, s, step))
  {
    hide ModulesReported, ExportersReported, ModuleWorkerSound, ConfigsSound, StoresSound, SnapshotSound, RendersTo, WrittenFrom;
    hide Load, Prepare, WriteStatus, ReadRef, TouchRef, ModuleMap, ExporterReport, Owned.DesiredWorkload;
    var t := Apply(w, s, step);
    match step {
      case FetchExporter(k) => FetchReported(w, s, k);
      case RenderModules(order) => RenderReported(w, s, order);
      case WriteConfig => ConfigReported(w, s);
      case WriteWorkload => WorkloadReported(w, s);
      case WritePart(_) => QuietExporters(w, s, t);
      case WriteExporterStatus(t1, t2, seen) =>
        AppliedVersion(w, s);
        ReportReported(w, s, t1, t2, seen);
      case ExporterCallFails => ExporterRetryReported(w, s, s.ew.x.meta.key);
    }
    QuietModules(w, s, t);
  }

  lemma AppliedVersion(w: World, s: State)
    requires Sound(w, s) && s.ew.Applied?
    ensures Version(s.exporters, s.ew.x)
  {
  }

  lemma {:induction false} RunReported(w: World, s: State, steps: seq<Step>, end: State)
    requires Sound(w, s) && Served(s) && ModulesReported(w, s) && ExportersReported(w, s) && CoveredRun(w, s, steps, end)
    ensures Sound(w, end) && Served(end) && ModulesReported(w, end) && ExportersReported(w, end)
    decreases |steps|
  {
    hide Sound, Served, Apply, ModulesReported, ExportersReported;
    if steps != [] {
      var step := steps[0];
      StepSound(w, s, step);
      StepKeeps(w, s, step);
      if step.UserCreatesModule? || step.UserEditsModule? || step.UserCreatesExporter? || step.UserEditsExporter? {
        WriteStepReported(w, s, step);
      } else if step.LoadModule? || step.PrepareStatus? || step.WriteModuleStatus? || step.ReadReference?
                || step.TouchReference? || step.FinishModule? || step.ModuleCallFails? {
        ModuleStepReported(w, s, step);
      } else if step.FetchExporter? || step.RenderModules? || step.WriteConfig? || step.WriteWorkload?
                || step.WritePart? || step.WriteExporterStatus? || step.ExporterCallFails? {
        ExporterStepReported(w, s, step);
      } else {
        OutsideReported(w, s, step);
      }
      RunReported(w, Apply(w, s, step), steps[1..], end);
    }
  }

  /** In every state a covered run can reach: a module the controller neither owes a reconcile nor holds reports its
      current generation, ConfigValid and Ready exactly if it is rendered, and the prober it is rendered with; and an
      exporter that is not dirty and not in the worker's hands reports its current generation, the size of the module map
      its ConfigMap was rendered from, and Ready exactly if the number of ready replicas it reports is positive. */
  lemma StatusesTellTheTruth(w: World, steps: seq<Step>, s: State)
    requires CoveredRun(w, START, steps, s)
    ensures forall m :: m in s.modules.stored && !Owing(s, m) && !InHand(s, m) ==> TruthfulModule(w, s.modules.stored[m])
    ensures forall e :: e in s.exporters.stored && !Dirty(s, e) && !InProgress(s, e) ==>
              && TruthfulExporter(s.exporters.stored[e])
              && CountIs(w, s, e, s.exporters.stored[e].status.moduleCount)
  {
    hide TruthfulModule, TruthfulExporter, CountIs;
    ReachableServed(w, [], START);
    RunReported(w, START, steps, s);
    forall m | m in s.modules.stored && !Owing(s, m) && !InHand(s, m) ensures TruthfulModule(w, s.modules.stored[m]) {
      assert ModuleReported(w, s, m);
    }
    forall e | e in s.exporters.stored && !Dirty(s, e) && !InProgress(s, e)
      ensures TruthfulExporter(s.exporters.stored[e])
      ensures CountIs(w, s, e, s.exporters.stored[e].status.moduleCount)
    {
      assert ExporterReported(w, s, e);
    }
  }

  /** An accepted status write reports the readiness of the Deployment if it could be read, else the number reported
      before, and is truthful about it. Nothing but that status and the version changes. */
  lemma WrittenStatusIsTruthful(w: World, steps: seq<Step>, s: State, t1: int, t2: int, seen: bool)
    requires Runs(w, START, steps, s) && s.ew.Applied? && Accepts(s.exporters, s.ew.x)
    ensures var k, t := s.ew.x.meta.key, ReportWritten(s, t1, t2, seen);
            && k in s.exporters.stored && k in t.exporters.stored
            && t.exporters.stored[k].status.readyReplicas
               == (if seen && k in s.out.ready then s.out.ready[k] else s.exporters.stored[k].status.readyReplicas)
            && t.exporters.stored[k].status.moduleCount == s.ew.count
            && TruthfulExporter(t.exporters.stored[k])
            && t.exporters.stored[k].(status := s.exporters.stored[k].status, meta := s.exporters.stored[k].meta) == s.exporters.stored[k]
  {
    hide Runs, Sound, Logged, Shows, ExporterReport, TruthfulExporter;
    ReachableSound(w, steps, s);
    AppliedVersion(w, s);
    SoundStores(w, s);
    AcceptedIsCurrent(s.exporters, s.clock, s.ew.x);
    var x, k := s.ew.x, s.ew.x.meta.key;
    var observed := if seen then Observed(s.out, k) else None;
    ExporterReportIsTruthful(x, s.ew.count, observed, t1, t2, s.clock + 1);
    ExporterReportShows(x, s.ew.count, observed, t1, t2);
  }

  lemma SoundStores(w: World, s: State)
    requires Sound(w, s)
    ensures Logged(s.exporters, s.clock)
  {
  }
}
