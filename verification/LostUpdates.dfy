/** Optimistic concurrency at work: what holds in every reachable state, however stale the reads. */
module LostUpdates {
  import opened Base
  import opened Api
  import opened Selector
  import opened Converter
  import opened Rendering
  import opened Owned
  import opened Reports
  import opened ApiServer
  import opened Steps

  ghost predicate ModulesWithin(st: Store<ModuleSpec, ModuleStatus>) {
    forall r :: r in st.log ==> ModuleStatusWithin(st.log[r].status, st.log[r].meta.generation)
  }

  ghost predicate ExportersWithin(st: Store<ExporterSpec, ExporterStatus>) {
    forall r :: r in st.log ==> ExporterStatusWithin(st.log[r].status, st.log[r].meta.generation)
  }

  ghost predicate StoresSound(s: State) {
    && Logged(s.modules, s.clock)
    && Logged(s.exporters, s.clock)
    && ModulesWithin(s.modules)
    && ExportersWithin(s.exporters)
  }

  ghost predicate ModuleWorkerSound(s: State) {
    match s.mw
    case ModuleIdle => true
    case Loaded(m) => Version(s.modules, m)
    case Prepared(m, status) => Version(s.modules, m) && ModuleStatusWithin(status, m.meta.generation)
    case Touching(m, _) => Version(s.modules, m)
    case Holding(m, held, _) => Version(s.modules, m) && Version(s.exporters, held)
  }

  /** The snapshot lists stored versions under their keys. */
  ghost predicate SnapshotSound(s: State, snap: Snapshot) {
    && Version(s.exporters, snap.exporter)
    && (forall k :: k in snap.items ==> snap.items[k].meta.key == k && Version(s.modules, snap.items[k]))
    && Lists(snap.order, snap.items.Keys)
  }

  /** `bbModules` is the module map of the snapshot. */
  ghost predicate RendersTo(w: World, snap: Snapshot, bbModules: map<string, ExporterModule>) {
    && (forall k :: k in snap.order ==> k in snap.items)
    && ModuleMap(w, Selected(Items(snap.order, snap.items), snap.exporter)) == Some(bbModules)
  }

  ghost predicate WrittenFrom(s: State, x: Exporter) {
    && Version(s.exporters, x)
    && x.meta.key in s.out.basis && s.out.basis[x.meta.key].exporter == x
  }

  ghost predicate ExporterWorkerSound(w: World, s: State) {
    match s.ew
    case ExporterIdle => true
    case Fetched(x) => Version(s.exporters, x)
    case Gathered(x, snap, bbModules) => snap.exporter == x && SnapshotSound(s, snap) && RendersTo(w, snap, bbModules)
    case Configured(x, _) => WrittenFrom(s, x)
    case Applied(x, _) =>
      && WrittenFrom(s, x)
      && x.meta.key in s.out.workloads && s.out.workloads[x.meta.key] == DesiredWorkload(x.meta.key, x.spec)
  }

  /** Every ConfigMap holds the rendering of the snapshot recorded beside it. */
  ghost predicate ConfigSound(w: World, s: State, k: Key) {
    && k in s.out.basis && k in s.out.configs
    && s.out.basis[k].exporter.meta.key == k
    && SnapshotSound(s, s.out.basis[k])
    && exists bbModules :: RendersTo(w, s.out.basis[k], bbModules) && s.out.configs[k] == w.lib.render(bbModules)
  }

  ghost predicate ConfigsSound(w: World, s: State) {
    forall k :: k in s.out.basis ==> ConfigSound(w, s, k)
  }

  ghost predicate Sound(w: World, s: State) {
    && StoresSound(s)
    && ModuleWorkerSound(s)
    && ExporterWorkerSound(w, s)
    && ConfigsSound(w, s)
  }

  // ---- versions persist ----

  ghost predicate Evolves(s: State, t: State) {
    Grows(s.modules, t.modules) && Grows(s.exporters, t.exporters)
  }

  lemma SnapshotPersists(s: State, t: State, snap: Snapshot)
    requires Evolves(s, t) && SnapshotSound(s, snap)
    ensures SnapshotSound(t, snap)
  {
    forall k | k in snap.items ensures Version(t.modules, snap.items[k]) {
      VersionPersists(s.modules, t.modules, snap.items[k]);
    }
    VersionPersists(s.exporters, t.exporters, snap.exporter);
  }

  lemma ConfigsPersist(w: World, s: State, t: State)
    requires ConfigsSound(w, s) && Evolves(s, t)
    requires t.out.basis == s.out.basis && t.out.configs == s.out.configs
    ensures ConfigsSound(w, t)
  {
    forall k | k in t.out.basis ensures ConfigSound(w, t, k) {
      assert ConfigSound(w, s, k);
      SnapshotPersists(s, t, s.out.basis[k]);
    }
  }

  lemma ModuleWorkerPersists(s: State, t: State)
    requires ModuleWorkerSound(s) && Evolves(s, t) && t.mw == s.mw
    ensures ModuleWorkerSound(t)
  {
  }

  lemma ExporterWorkerPersists(w: World, s: State, t: State)
    requires ExporterWorkerSound(w, s) && Evolves(s, t) && t.ew == s.ew
    requires t.out.basis == s.out.basis && t.out.workloads == s.out.workloads
    ensures ExporterWorkerSound(w, t)
  {
    if s.ew.Gathered? {
      SnapshotPersists(s, t, s.ew.snap);
    }
  }

  // ---- writes ----

  lemma SaveModuleSound(w: World, s: State, next: Module)
    requires Sound(w, s)
    requires ModuleStatusWithin(next.status, next.meta.generation)
    ensures Sound(w, SaveModule(s, next)) && Evolves(s, SaveModule(s, next))
  {
    var t := SaveModule(s, next);
    SaveLogged(s.modules, next, s.clock);
    LaterClock(s.exporters, s.clock, t.clock);
    ModuleWorkerPersists(s, t);
    ExporterWorkerPersists(w, s, t);
    ConfigsPersist(w, s, t);
  }

  lemma SaveExporterSound(w: World, s: State, next: Exporter)
    requires Sound(w, s)
    requires ExporterStatusWithin(next.status, next.meta.generation)
    ensures Sound(w, SaveExporter(s, next)) && Evolves(s, SaveExporter(s, next))
  {
    var t := SaveExporter(s, next);
    SaveLogged(s.exporters, next, s.clock);
    LaterClock(s.modules, s.clock, t.clock);
    ModuleWorkerPersists(s, t);
    ExporterWorkerPersists(w, s, t);
    ConfigsPersist(w, s, t);
  }

  /** Replacing a store by one with the same log. */
  lemma SameLogsSound(w: World, s: State, t: State)
    requires Sound(w, s)
    requires t.clock == s.clock && t.modules.log == s.modules.log && t.exporters.log == s.exporters.log
    requires Logged(t.modules, t.clock) && Logged(t.exporters, t.clock)
    requires t.out.basis == s.out.basis && t.out.configs == s.out.configs && t.out.workloads == s.out.workloads
    requires t.mw == s.mw || ModuleWorkerSound(t)
    requires t.ew == s.ew || ExporterWorkerSound(w, t)
    ensures Sound(w, t)
  {
    if t.mw == s.mw {
      ModuleWorkerPersists(s, t);
    }
    if t.ew == s.ew {
      ExporterWorkerPersists(w, s, t);
    }
    ConfigsPersist(w, s, t);
  }

  lemma StoredWithin(s: State)
    requires StoresSound(s)
    ensures forall k :: k in s.modules.stored ==>
              ModuleStatusWithin(s.modules.stored[k].status, s.modules.stored[k].meta.generation)
    ensures forall k :: k in s.exporters.stored ==>
              ExporterStatusWithin(s.exporters.stored[k].status, s.exporters.stored[k].meta.generation)
  {
    forall k | k in s.modules.stored
      ensures ModuleStatusWithin(s.modules.stored[k].status, s.modules.stored[k].meta.generation)
    {
      assert Version(s.modules, s.modules.stored[k]);
    }
    forall k | k in s.exporters.stored
      ensures ExporterStatusWithin(s.exporters.stored[k].status, s.exporters.stored[k].meta.generation)
    {
      assert Version(s.exporters, s.exporters.stored[k]);
    }
  }

  // ---- every step keeps the invariant ----

  lemma UserModuleStepSound(w: World, s: State, step: Step)
    requires Sound(w, s) && Enabled(s, step)
    requires step.UserCreatesModule? || step.UserEditsModule? || step.UserDeletesModule? || step.ReadinessChanges?
    ensures Sound(w, Apply(w, s, step))
  {
    hide ModuleWorkerSound, ExporterWorkerSound, ConfigsSound, Logged, ModulesWithin, ExportersWithin;
    hide Load, Prepare, WriteStatus, ReadRef, TouchRef, Fetch, RenderAll, ConfigWritten, WorkloadWritten, ReportWritten, SaveExporter;
    StoredWithin(s);
    match step {
      case UserCreatesModule(k, labels, annotations, spec) =>
        SaveModuleSound(w, s, Created(k, labels, annotations, spec, NEW_MODULE_STATUS));
      case UserEditsModule(k, labels, annotations, spec) =>
        SaveModuleSound(w, s, Edited(s.modules.stored[k], labels, annotations, spec));
      case UserDeletesModule(k) =>
        ShrinkLogged(s.modules, Delete(s.modules, k), s.clock);
        SameLogsSound(w, s, Apply(w, s, step));
      case ReadinessChanges(_, _) =>
        SameLogsSound(w, s, Apply(w, s, step));
    }
  }

  lemma UserExporterStepSound(w: World, s: State, step: Step)
    requires Sound(w, s) && Enabled(s, step)
    requires step.UserCreatesExporter? || step.UserEditsExporter? || step.UserDeletesExporter?
    ensures Sound(w, Apply(w, s, step))
  {
    hide ModuleWorkerSound, ExporterWorkerSound, ConfigsSound, Logged, ModulesWithin, ExportersWithin;
    hide Load, Prepare, WriteStatus, ReadRef, TouchRef, Fetch, RenderAll, ConfigWritten, WorkloadWritten, ReportWritten, SaveModule;
    StoredWithin(s);
    match step {
      case UserCreatesExporter(k, labels, annotations, spec) =>
        SaveExporterSound(w, s, Created(k, labels, annotations, spec, NEW_EXPORTER_STATUS));
      case UserEditsExporter(k, labels, annotations, spec) =>
        SaveExporterSound(w, s, Edited(s.exporters.stored[k], labels, annotations, spec));
      case UserDeletesExporter(k) =>
        ShrinkLogged(s.exporters, Delete(s.exporters, k), s.clock);
        SameLogsSound(w, s, Apply(w, s, step));
    }
  }

  lemma LogEntry<S, T>(st: Store<S, T>, clock: nat, rv: nat)
    requires Logged(st, clock) && rv in st.log
    ensures Version(st, st.log[rv])
  {
  }

  lemma InformerStepSound(w: World, s: State, step: Step)
    requires Sound(w, s) && Enabled(s, step)
    requires step.ModuleDelivered? || step.ModuleDropped? || step.ExporterDelivered? || step.ExporterDropped?
             || step.ModuleRequeued? || step.ExporterRequeued?
    ensures Sound(w, Apply(w, s, step))
  {
    hide ModuleWorkerSound, ExporterWorkerSound, ConfigsSound, Logged, ModulesWithin, ExportersWithin;
    hide Load, Prepare, WriteStatus, ReadRef, TouchRef, Fetch, RenderAll, ConfigWritten, WorkloadWritten, ReportWritten, SaveModule, SaveExporter;
    match step {
      case ModuleDelivered(k, rv) =>
        LogEntry(s.modules, s.clock, rv);
        DeliverLogged(s.modules, s.modules.log[rv], s.clock);
      case ModuleDropped(k) => ShrinkLogged(s.modules, Drop(s.modules, k), s.clock);
      case ExporterDelivered(k, rv) =>
        LogEntry(s.exporters, s.clock, rv);
        DeliverLogged(s.exporters, s.exporters.log[rv], s.clock);
      case ExporterDropped(k) => ShrinkLogged(s.exporters, Drop(s.exporters, k), s.clock);
      case ModuleRequeued(k) => ShrinkLogged(s.modules, Enqueue(s.modules, k), s.clock);
      case ExporterRequeued(k) => ShrinkLogged(s.exporters, Enqueue(s.exporters, k), s.clock);
    }
    SameLogsSound(w, s, Apply(w, s, step));
  }

  lemma ModuleRetrySound(w: World, s: State, k: Key)
    requires Sound(w, s)
    ensures Sound(w, ModuleRetry(s, k))
  {
    ShrinkLogged(s.modules, Enqueue(s.modules, k), s.clock);
    SameLogsSound(w, s, ModuleRetry(s, k));
  }

  lemma ExporterRetrySound(w: World, s: State, k: Key)
    requires Sound(w, s)
    ensures Sound(w, ExporterRetry(s, k))
  {
    ShrinkLogged(s.exporters, Enqueue(s.exporters, k), s.clock);
    SameLogsSound(w, s, ExporterRetry(s, k));
  }

  lemma LoadSound(w: World, s: State, k: Key)
    requires Sound(w, s)
    ensures Sound(w, Load(s, k))
  {
    ShrinkLogged(s.modules, Dequeue(s.modules, k), s.clock);
    SameLogsSound(w, s, Load(s, k));
  }

  lemma FetchSound(w: World, s: State, k: Key)
    requires Sound(w, s)
    ensures Sound(w, Fetch(s, k))
  {
    ShrinkLogged(s.exporters, Dequeue(s.exporters, k), s.clock);
    SameLogsSound(w, s, Fetch(s, k));
  }

  lemma PrepareSound(w: World, s: State, listing: Option<seq<Key>>, t1: int, t2: int)
    requires Sound(w, s) && s.mw.Loaded?
    requires listing.Some? ==> Lists(listing.value, s.exporters.cache.Keys)
    ensures Sound(w, Prepare(w, s, listing, t1, t2))
  {
    var m := s.mw.m;
    var c := Convert(w.lib, m.spec, None);
    if c.Panics? {
      ModuleRetrySound(w, s, m.meta.key);
    } else {
      var refs := if listing.None? then [] else Referencing(Items(listing.value, s.exporters.cache), m);
      ModuleReportWithin(c, m, refs, t1, t2);
      SameLogsSound(w, s, s.(mw := Prepared(m, ModuleReport(c, m, refs, t1, t2))));
    }
  }

  lemma WriteStatusSound(w: World, s: State)
    requires Sound(w, s) && s.mw.Prepared?
    ensures Sound(w, WriteStatus(s))
  {
    var m := s.mw.m;
    if Accepts(s.modules, m) {
      AcceptedIsCurrent(s.modules, s.clock, m);
      var next := s.modules.stored[m.meta.key].(status := s.mw.status);
      SaveModuleSound(w, s, next);
      var t := SaveModule(s, next);
      assert Version(t.modules, t.modules.stored[m.meta.key]);
      SameLogsSound(w, t, WriteStatus(s));
    } else {
      ModuleRetrySound(w, s, m.meta.key);
    }
  }

  lemma TouchRefSound(w: World, s: State, delivered: bool)
    requires Sound(w, s) && s.mw.Holding?
    ensures Sound(w, TouchRef(s, delivered))
  {
    var done := s.(mw := Touching(s.mw.m, s.mw.refs));
    SameLogsSound(w, s, done);
    StoredWithin(s);
    if delivered && Accepts(s.exporters, s.mw.held) {
      SaveExporterSound(w, done,
        Merged(s.exporters.stored[s.mw.held.meta.key], Touched(s.mw.held, s.mw.m.meta.resourceVersion)));
    }
  }

  lemma ConfigWrittenSound(w: World, s: State)
    requires Sound(w, s) && s.ew.Gathered?
    ensures Sound(w, ConfigWritten(w, s))
  {
    var t := ConfigWritten(w, s);
    ModuleWorkerPersists(s, t);
    forall k | k in t.out.basis ensures ConfigSound(w, t, k) {
      if k == s.ew.x.meta.key {
        SnapshotPersists(s, t, s.ew.snap);
      } else {
        assert ConfigSound(w, s, k);
        SnapshotPersists(s, t, s.out.basis[k]);
      }
    }
  }

  lemma WorkloadWrittenSound(w: World, s: State)
    requires Sound(w, s) && s.ew.Configured?
    ensures Sound(w, WorkloadWritten(s))
  {
    var t := WorkloadWritten(s);
    ModuleWorkerPersists(s, t);
    ConfigsPersist(w, s, t);
  }

  lemma PartWrittenSound(w: World, s: State, service: bool)
    requires Sound(w, s) && s.ew.Configured?
    ensures Sound(w, PartWritten(s, service))
  {
    var t := PartWritten(s, service);
    ModuleWorkerPersists(s, t);
    ConfigsPersist(w, s, t);
  }

  lemma ReportWrittenSound(w: World, s: State, t1: int, t2: int, seen: bool)
    requires Sound(w, s) && s.ew.Applied?
    ensures Sound(w, ReportWritten(s, t1, t2, seen))
  {
    var observed := if seen then Observed(s.out, s.ew.x.meta.key) else None;
    var x, k := s.ew.x, s.ew.x.meta.key;
    if Accepts(s.exporters, x) {
      AcceptedIsCurrent(s.exporters, s.clock, x);
      assert Version(s.exporters, x);
      ExporterReportWithin(x, s.ew.count, observed, t1, t2);
      var next := s.exporters.stored[k].(status := ExporterReport(x, s.ew.count, observed, t1, t2));
      SaveExporterSound(w, s, next);
      SameLogsSound(w, SaveExporter(s, next), ReportWritten(s, t1, t2, seen));
    } else {
      ExporterRetrySound(w, s, k);
    }
  }

  lemma ReadRefSound(w: World, s: State)
    requires Sound(w, s) && s.mw.Touching? && s.mw.refs != []
    ensures Sound(w, ReadRef(s))
  {
    SameLogsSound(w, s, ReadRef(s));
  }

  lemma RenderAllSound(w: World, s: State, order: seq<Key>)
    requires Sound(w, s) && s.ew.Fetched? && Lists(order, s.modules.cache.Keys)
    ensures Sound(w, RenderAll(w, s, order))
  {
    var x := s.ew.x;
    var bbModules := ModuleMap(w, Selected(Items(order, s.modules.cache), x));
    if bbModules.None? {
      ExporterRetrySound(w, s, x.meta.key);
    } else {
      var snap := Snapshot(x, order, s.modules.cache);
      assert RendersTo(w, snap, bbModules.value);
      SameLogsSound(w, s, s.(ew := Gathered(x, snap, bbModules.value)));
    }
  }

  lemma ModuleStepSound(w: World, s: State, step: Step)
    requires Sound(w, s) && Enabled(s, step)
    requires step.LoadModule? || step.PrepareStatus? || step.WriteModuleStatus? || step.ReadReference? || step.TouchReference?
             || step.FinishModule? || step.ModuleCallFails?
    ensures Sound(w, Apply(w, s, step))
  {
    match step {
      case LoadModule(k) => LoadSound(w, s, k);
      case PrepareStatus(listing, t1, t2) => PrepareSound(w, s, listing, t1, t2);
      case WriteModuleStatus => WriteStatusSound(w, s);
      case ReadReference => ReadRefSound(w, s);
      case TouchReference(delivered) => TouchRefSound(w, s, delivered);
      case FinishModule => SameLogsSound(w, s, s.(mw := ModuleIdle));
      case ModuleCallFails => ModuleRetrySound(w, s, s.mw.m.meta.key);
    }
  }

  lemma ExporterStepSound(w: World, s: State, step: Step)
    requires Sound(w, s) && Enabled(s, step)
    requires step.FetchExporter? || step.RenderModules? || step.WriteConfig?
             || step.WriteWorkload? || step.WritePart? || step.WriteExporterStatus? || step.ExporterCallFails?
    ensures Sound(w, Apply(w, s, step))
  {
    match step {
      case FetchExporter(k) => FetchSound(w, s, k);
      case RenderModules(order) => RenderAllSound(w, s, order);
      case WriteConfig => ConfigWrittenSound(w, s);
      case WriteWorkload => WorkloadWrittenSound(w, s);
      case WritePart(service) => PartWrittenSound(w, s, service);
      case WriteExporterStatus(t1, t2, seen) => ReportWrittenSound(w, s, t1, t2, seen);
      case ExporterCallFails => ExporterRetrySound(w, s, s.ew.x.meta.key);
    }
  }

  lemma StepSound(w: World, s: State, step: Step)
    requires Sound(w, s) && Enabled(s, step)
    ensures Sound(w, Apply(w, s, step))
  {
    hide Sound, Apply, Enabled;
    match step
    case UserCreatesModule(_, _, _, _) => UserModuleStepSound(w, s, step);
    case UserEditsModule(_, _, _, _) => UserModuleStepSound(w, s, step);
    case UserDeletesModule(_) => UserModuleStepSound(w, s, step);
    case UserCreatesExporter(_, _, _, _) => UserExporterStepSound(w, s, step);
    case UserEditsExporter(_, _, _, _) => UserExporterStepSound(w, s, step);
    case UserDeletesExporter(_) => UserExporterStepSound(w, s, step);
    case ReadinessChanges(_, _) => UserModuleStepSound(w, s, step);
    case ModuleDelivered(_, _) => InformerStepSound(w, s, step);
    case ModuleDropped(_) => InformerStepSound(w, s, step);
    case ExporterDelivered(_, _) => InformerStepSound(w, s, step);
    case ExporterDropped(_) => InformerStepSound(w, s, step);
    case ModuleRequeued(_) => InformerStepSound(w, s, step);
    case ExporterRequeued(_) => InformerStepSound(w, s, step);
    case FetchExporter(_) => ExporterStepSound(w, s, step);
    case RenderModules(_) => ExporterStepSound(w, s, step);
    case WriteConfig => ExporterStepSound(w, s, step);
    case WriteWorkload => ExporterStepSound(w, s, step);
    case WritePart(_) => ExporterStepSound(w, s, step);
    case WriteExporterStatus(_, _, _) => ExporterStepSound(w, s, step);
    case ExporterCallFails => ExporterStepSound(w, s, step);
    case _ => ModuleStepSound(w, s, step);
  }

  lemma {:induction false} RunSound(w: World, s: State, steps: seq<Step>, end: State)
    requires Sound(w, s) && Runs(w, s, steps, end)
    ensures Sound(w, end)
    decreases |steps|
  {
    if steps != [] {
      StepSound(w, s, steps[0]);
      RunSound(w, Apply(w, s, steps[0]), steps[1..], end);
    }
  }

  lemma ReachableSound(w: World, steps: seq<Step>, end: State)
    requires Runs(w, START, steps, end)
    ensures Sound(w, end)
  {
    RunSound(w, START, steps, end);
  }

  // ---- the guarantees ----

  /** In every reachable state no status speaks of a generation that does not exist yet. */
  lemma ObservedNeverAhead(w: World, steps: seq<Step>, s: State)
    requires Runs(w, START, steps, s)
    ensures forall k :: k in s.modules.stored ==>
              ModuleStatusWithin(s.modules.stored[k].status, s.modules.stored[k].meta.generation)
    ensures forall k :: k in s.exporters.stored ==>
              ExporterStatusWithin(s.exporters.stored[k].status, s.exporters.stored[k].meta.generation)
  {
    ReachableSound(w, steps, s);
    StoredWithin(s);
  }

  /** However stale the cached copy the worker read: if its status write is accepted, that copy was the stored
      object, spec and all, and nothing but status and version changes. */
  lemma AcceptedModuleStatusIsCurrent(w: World, steps: seq<Step>, s: State)
    requires Runs(w, START, steps, s) && s.mw.Prepared?
    requires WriteStatus(s).mw.Touching?
    ensures var k, t := s.mw.m.meta.key, WriteStatus(s);
            && k in s.modules.stored && s.modules.stored[k] == s.mw.m
            && t.modules.stored.Keys == s.modules.stored.Keys
            && t.modules.stored[k] == s.mw.m.(status := s.mw.status, meta := t.modules.stored[k].meta)
            && t.modules.stored[k].meta == s.mw.m.meta.(resourceVersion := t.modules.stored[k].meta.resourceVersion)
            && (forall j :: j in s.modules.stored && j != k ==> t.modules.stored[j] == s.modules.stored[j])
            && t.exporters == s.exporters
  {
    ReachableSound(w, steps, s);
    AcceptedIsCurrent(s.modules, s.clock, s.mw.m);
  }

  lemma AppliedIsWritten(w: World, s: State)
    requires Sound(w, s) && s.ew.Applied?
    ensures Logged(s.exporters, s.clock) && Version(s.exporters, s.ew.x)
    ensures var k := s.ew.x.meta.key;
            && k in s.out.basis && s.out.basis[k].exporter == s.ew.x
            && k in s.out.workloads && s.out.workloads[k] == DesiredWorkload(k, s.ew.x.spec)
  {
    hide Logged, ModulesWithin, ExportersWithin, ModuleWorkerSound, ConfigsSound, DesiredWorkload, SnapshotSound;
  }

  /** An accepted exporter status describes a ConfigMap and a workload that were written for the stored spec. */
  lemma AcceptedExporterStatusIsCurrent(w: World, steps: seq<Step>, s: State, t1: int, t2: int, seen: bool)
    requires Runs(w, START, steps, s) && s.ew.Applied?
    requires Accepts(s.exporters, s.ew.x)
    ensures var k, t := s.ew.x.meta.key, ReportWritten(s, t1, t2, seen);
            && s.exporters.stored[k] == s.ew.x
            && k in s.out.basis && s.out.basis[k].exporter == s.exporters.stored[k]
            && k in s.out.workloads && s.out.workloads[k] == DesiredWorkload(k, s.exporters.stored[k].spec)
            && k in t.exporters.stored && t.exporters.stored[k].spec == s.ew.x.spec
            && t.exporters.stored[k].status.observedGeneration == t.exporters.stored[k].meta.generation
            && t.modules == s.modules
  {
    hide Runs, Sound, Logged, DesiredWorkload;
    ReachableSound(w, steps, s);
    AppliedIsWritten(w, s);
    AcceptedIsCurrent(s.exporters, s.clock, s.ew.x);
  }

  ghost predicate OtherAnnotationsKept(a: map<string, string>, b: map<string, string>) {
    forall k :: k != TOUCH ==> (k in a <==> k in b) && (k in a ==> a[k] == b[k])
  }

  ghost predicate SameButForTouch(f: Exporter, e: Exporter) {
    && f.spec == e.spec && f.status == e.status
    && f.meta.generation == e.meta.generation && f.meta.labels == e.meta.labels
    && OtherAnnotationsKept(f.meta.annotations, e.meta.annotations)
  }

  lemma TouchedIsSame(e: Exporter, rv: nat, freshRv: nat)
    ensures SameButForTouch(Merged(e, Touched(e, rv)), e)
    ensures SameButForTouch(Stamped(Merged(e, Touched(e, rv)), freshRv), e)
  {
  }

  lemma SameAsItself(e: Exporter)
    ensures SameButForTouch(e, e)
  {
  }

  lemma HeldIsVersion(w: World, s: State)
    requires Sound(w, s) && s.mw.Holding?
    ensures Logged(s.exporters, s.clock) && Version(s.exporters, s.mw.held)
  {
    hide Logged, ModulesWithin, ExportersWithin, ExporterWorkerSound, ConfigsSound;
  }

  /** Waking an exporter never changes its spec, status, labels or generation, nor any other object. */
  lemma TouchOnlyAnnotates(w: World, steps: seq<Step>, s: State, delivered: bool)
    requires Runs(w, START, steps, s) && s.mw.Holding?
    ensures var t := TouchRef(s, delivered);
            && t.exporters.stored.Keys == s.exporters.stored.Keys && t.modules == s.modules && t.out == s.out
            && (forall k :: k in s.exporters.stored ==> SameButForTouch(t.exporters.stored[k], s.exporters.stored[k]))
  {
    hide Runs, Sound, SameButForTouch, OtherAnnotationsKept;
    ReachableSound(w, steps, s);
    HeldIsVersion(w, s);
    forall k | k in s.exporters.stored ensures SameButForTouch(s.exporters.stored[k], s.exporters.stored[k]) {
      SameAsItself(s.exporters.stored[k]);
    }
    if Accepts(s.exporters, s.mw.held) {
      AcceptedIsCurrent(s.exporters, s.clock, s.mw.held);
      TouchedIsSame(s.mw.held, s.mw.m.meta.resourceVersion, s.clock + 1);
    }
  }
}
