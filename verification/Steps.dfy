/** The operator as a step system. Each API call of a Reconcile is one step; users, informers and the other
    controller may act between any two of them. Each controller has one worker, the default of the framework. */
module Steps {
  import opened Base
  import opened Api
  import opened Selector
  import opened Converter
  import opened Rendering
  import opened Owned
  import opened Reports
  import opened ApiServer

  /** What a ConfigMap was rendered from. The model keeps it beside each ConfigMap as a record of provenance. */
  datatype Snapshot = Snapshot(exporter: Exporter, order: seq<Key>, items: map<Key, Module>)

  /** The objects the exporter controller writes, by exporter; `ready` is the readiness of each Deployment. */
  datatype Outputs = Outputs(
    configs: map<Key, string>,
    basis: map<Key, Snapshot>,
    workloads: map<Key, Workload>,
    ready: map<Key, int>)

  /** Where the module worker stands between two API calls. `m` is the object it read or got back. */
  datatype ModuleWorker =
    | ModuleIdle
    | Loaded(m: Module)
    | Prepared(m: Module, status: ModuleStatus)
    | Touching(m: Module, refs: seq<Key>)
    | Holding(m: Module, held: Exporter, refs: seq<Key>)

  /** Where the exporter worker stands. `x` is the exporter it read. */
  datatype ExporterWorker =
    | ExporterIdle
    | Fetched(x: Exporter)
    | Gathered(x: Exporter, snap: Snapshot, bbModules: map<string, ExporterModule>)
    | Configured(x: Exporter, count: nat)
    | Applied(x: Exporter, count: nat)

  datatype State = State(
    clock: nat,
    modules: Store<ModuleSpec, ModuleStatus>,
    exporters: Store<ExporterSpec, ExporterStatus>,
    out: Outputs,
    mw: ModuleWorker,
    ew: ExporterWorker)

  const START :=
    State(0, Store(map[], map[], map[], {}), Store(map[], map[], map[], {}), Outputs(map[], map[], map[], map[]),
          ModuleIdle, ExporterIdle)

  const NEW_MODULE_STATUS := ModuleStatus([], [], "", 0)
  const NEW_EXPORTER_STATUS := ExporterStatus([], 0, 0, 0)

  datatype Step =
    // users and the cluster
    | UserCreatesModule(k: Key, labels: map<string, string>, annotations: map<string, string>, mspec: ModuleSpec)
    | UserEditsModule(k: Key, labels: map<string, string>, annotations: map<string, string>, mspec: ModuleSpec)
    | UserDeletesModule(k: Key)
    | UserCreatesExporter(k: Key, labels: map<string, string>, annotations: map<string, string>, spec: ExporterSpec)
    | UserEditsExporter(k: Key, labels: map<string, string>, annotations: map<string, string>, spec: ExporterSpec)
    | UserDeletesExporter(k: Key)
    | ReadinessChanges(k: Key, replicas: int)
    // informers and queues
    | ModuleDelivered(k: Key, rv: nat)
    | ModuleDropped(k: Key)
    | ExporterDelivered(k: Key, rv: nat)
    | ExporterDropped(k: Key)
    | ModuleRequeued(k: Key)
    | ExporterRequeued(k: Key)
    // the module worker
    | LoadModule(k: Key)
    | PrepareStatus(listing: Option<seq<Key>>, t1: int, t2: int)
    | WriteModuleStatus
    | ReadReference
    | TouchReference(delivered: bool)
    | FinishModule
    | ModuleCallFails
    // the exporter worker
    | FetchExporter(k: Key)
    | RenderModules(order: seq<Key>)
    | WriteConfig
    | WriteWorkload
    | WritePart(service: bool)
    | WriteExporterStatus(t1: int, t2: int, seen: bool := true)
    | ExporterCallFails

  // ---- writes ----

  function SaveModule(s: State, next: Module): State {
    s.(clock := Tick(s.modules, next, s.clock), modules := Save(s.modules, next, s.clock))
  }

  function SaveExporter(s: State, next: Exporter): State {
    s.(clock := Tick(s.exporters, next, s.clock), exporters := Save(s.exporters, next, s.clock))
  }

  // ---- the module worker ----

  function Load(s: State, k: Key): State {
    s.(modules := Dequeue(s.modules, k), mw := if k in s.modules.cache then Loaded(s.modules.cache[k]) else ModuleIdle)
  }

  function ModuleRetry(s: State, k: Key): State {
    s.(modules := Enqueue(s.modules, k), mw := ModuleIdle)
  }

  /** The dry run and the back references. A failed List leaves the references empty; a panic is retried. */
  ghost function Prepare(w: World, s: State, listing: Option<seq<Key>>, t1: int, t2: int): State
    requires s.mw.Loaded?
    requires listing.Some? ==> Lists(listing.value, s.exporters.cache.Keys)
  {
    var m := s.mw.m;
    var c := Convert(w.lib, m.spec, None);
    var refs := if listing.None? then [] else Referencing(Items(listing.value, s.exporters.cache), m);
    if c.Panics? then ModuleRetry(s, m.meta.key)
    else s.(mw := Prepared(m, ModuleReport(c, m, refs, t1, t2)))
  }

  function WriteStatus(s: State): State
    requires s.mw.Prepared?
  {
    var m := s.mw.m;
    if !Accepts(s.modules, m) then ModuleRetry(s, m.meta.key)
    else
      var t := SaveModule(s, s.modules.stored[m.meta.key].(status := s.mw.status));
      t.(mw := Touching(t.modules.stored[m.meta.key], s.mw.status.referencedByExporters))
  }

  function ReadRef(s: State): State
    requires s.mw.Touching? && s.mw.refs != []
  {
    var k, rest := s.mw.refs[0], s.mw.refs[1..];
    s.(mw := if k in s.exporters.cache then Holding(s.mw.m, s.exporters.cache[k], rest) else Touching(s.mw.m, rest))
  }

  /** The outcome of the update, conflict included, is only logged. */
  function TouchRef(s: State, delivered: bool): State
    requires s.mw.Holding?
  {
    var done := s.(mw := Touching(s.mw.m, s.mw.refs));
    if delivered && Accepts(s.exporters, s.mw.held) then
      SaveExporter(done, Merged(s.exporters.stored[s.mw.held.meta.key], Touched(s.mw.held, s.mw.m.meta.resourceVersion)))
    else done
  }

  // ---- the exporter worker ----

  function Fetch(s: State, k: Key): State {
    s.(exporters := Dequeue(s.exporters, k), ew := if k in s.exporters.cache then Fetched(s.exporters.cache[k]) else ExporterIdle)
  }

  function ExporterRetry(s: State, k: Key): State {
    s.(exporters := Enqueue(s.exporters, k), ew := ExporterIdle)
  }

  ghost function RenderAll(w: World, s: State, order: seq<Key>): State
    requires s.ew.Fetched?
    requires Lists(order, s.modules.cache.Keys)
  {
    var x := s.ew.x;
    var bbModules := ModuleMap(w, Selected(Items(order, s.modules.cache), x));
    if bbModules.None? then ExporterRetry(s, x.meta.key)
    else s.(ew := Gathered(x, Snapshot(x, order, s.modules.cache), bbModules.value))
  }

  function ConfigWritten(w: World, s: State): State
    requires s.ew.Gathered?
  {
    var k := s.ew.x.meta.key;
    s.(out := s.out.(configs := s.out.configs[k := w.lib.render(s.ew.bbModules)], basis := s.out.basis[k := s.ew.snap]),
       ew := Configured(s.ew.x, |s.ew.bbModules|))
  }

  function WorkloadWritten(s: State): State
    requires s.ew.Configured?
  {
    var k := s.ew.x.meta.key;
    s.(out := s.out.(workloads := s.out.workloads[k := DesiredWorkload(k, s.ew.x.spec)]), ew := Applied(s.ew.x, s.ew.count))
  }

  function WorkloadOf(out: Outputs, k: Key): Workload {
    if k in out.workloads then out.workloads[k] else NO_WORKLOAD
  }

  /** The writes of Deployment and perhaps Service alone, before a later one fails. */
  function PartWritten(s: State, service: bool): State
    requires s.ew.Configured?
  {
    var k := s.ew.x.meta.key;
    var was, desired := WorkloadOf(s.out, k), DesiredWorkload(k, s.ew.x.spec);
    var part := was.(deployment := desired.deployment, service := if service then desired.service else was.service);
    s.(out := s.out.(workloads := s.out.workloads[k := part]))
  }

  function Observed(out: Outputs, k: Key): Option<int> {
    if k in out.ready then Some(out.ready[k]) else None
  }

  /** `seen` tells whether the Get of the Deployment went through. */
  function ReportWritten(s: State, t1: int, t2: int, seen: bool := true): State
    requires s.ew.Applied?
  {
    var x, k := s.ew.x, s.ew.x.meta.key;
    if !Accepts(s.exporters, x) then ExporterRetry(s, k)
    else
      var report := ExporterReport(x, s.ew.count, if seen then Observed(s.out, k) else None, t1, t2);
      SaveExporter(s, s.exporters.stored[k].(status := report)).(ew := ExporterIdle)
  }

  // ---- the transition relation ----

  ghost predicate Enabled(s: State, step: Step) {
    match step
    case UserCreatesModule(k, _, _, _) => k !in s.modules.stored
    case UserEditsModule(k, _, _, _) => k in s.modules.stored
    case UserDeletesModule(k) => k in s.modules.stored
    case UserCreatesExporter(k, _, _, _) => k !in s.exporters.stored
    case UserEditsExporter(k, _, _, _) => k in s.exporters.stored
    case UserDeletesExporter(k) => k in s.exporters.stored
    case ReadinessChanges(_, _) => true
    case ModuleDelivered(k, rv) =>
      && rv in s.modules.log && s.modules.log[rv].meta.key == k
      && (k in s.modules.cache ==> s.modules.cache[k].meta.resourceVersion < rv)
    case ModuleDropped(k) => k !in s.modules.stored && k in s.modules.cache
    case ExporterDelivered(k, rv) =>
      && rv in s.exporters.log && s.exporters.log[rv].meta.key == k
      && (k in s.exporters.cache ==> s.exporters.cache[k].meta.resourceVersion < rv)
    case ExporterDropped(k) => k !in s.exporters.stored && k in s.exporters.cache
    case ModuleRequeued(_) => true
    case ExporterRequeued(_) => true
    case LoadModule(k) => s.mw.ModuleIdle? && k in s.modules.queue
    case PrepareStatus(listing, _, _) => s.mw.Loaded? && (listing.Some? ==> Lists(listing.value, s.exporters.cache.Keys))
    case WriteModuleStatus => s.mw.Prepared?
    case ReadReference => s.mw.Touching? && s.mw.refs != []
    case TouchReference(_) => s.mw.Holding?
    case FinishModule => s.mw.Touching? && s.mw.refs == []
    case ModuleCallFails => s.mw.Loaded? || s.mw.Prepared?
    case FetchExporter(k) => s.ew.ExporterIdle? && k in s.exporters.queue
    case RenderModules(order) => s.ew.Fetched? && Lists(order, s.modules.cache.Keys)
    case WriteConfig => s.ew.Gathered?
    case WriteWorkload => s.ew.Configured?
    case WritePart(_) => s.ew.Configured?
    case WriteExporterStatus(_, _, _) => s.ew.Applied?
    case ExporterCallFails => !s.ew.ExporterIdle?
  }

  ghost function Apply(w: World, s: State, step: Step): State
    requires Enabled(s, step)
  {
    match step
    case UserCreatesModule(k, labels, annotations, spec) => SaveModule(s, Created(k, labels, annotations, spec, NEW_MODULE_STATUS))
    case UserEditsModule(k, labels, annotations, spec) => SaveModule(s, Edited(s.modules.stored[k], labels, annotations, spec))
    case UserDeletesModule(k) => s.(modules := Delete(s.modules, k))
    case UserCreatesExporter(k, labels, annotations, spec) => SaveExporter(s, Created(k, labels, annotations, spec, NEW_EXPORTER_STATUS))
    case UserEditsExporter(k, labels, annotations, spec) => SaveExporter(s, Edited(s.exporters.stored[k], labels, annotations, spec))
    case UserDeletesExporter(k) => s.(exporters := Delete(s.exporters, k))
    case ReadinessChanges(k, replicas) => s.(out := s.out.(ready := s.out.ready[k := replicas]))
    case ModuleDelivered(k, rv) => s.(modules := Deliver(s.modules, s.modules.log[rv]))
    case ModuleDropped(k) => s.(modules := Drop(s.modules, k))
    case ExporterDelivered(k, rv) => s.(exporters := Deliver(s.exporters, s.exporters.log[rv]))
    case ExporterDropped(k) => s.(exporters := Drop(s.exporters, k))
    case ModuleRequeued(k) => s.(modules := Enqueue(s.modules, k))
    case ExporterRequeued(k) => s.(exporters := Enqueue(s.exporters, k))
    case LoadModule(k) => Load(s, k)
    case PrepareStatus(listing, t1, t2) => Prepare(w, s, listing, t1, t2)
    case WriteModuleStatus => WriteStatus(s)
    case ReadReference => ReadRef(s)
    case TouchReference(delivered) => TouchRef(s, delivered)
    case FinishModule => s.(mw := ModuleIdle)
    case ModuleCallFails => ModuleRetry(s, s.mw.m.meta.key)
    case FetchExporter(k) => Fetch(s, k)
    case RenderModules(order) => RenderAll(w, s, order)
    case WriteConfig => ConfigWritten(w, s)
    case WriteWorkload => WorkloadWritten(s)
    case WritePart(service) => PartWritten(s, service)
    case WriteExporterStatus(t1, t2, seen) => ReportWritten(s, t1, t2, seen)
    case ExporterCallFails => ExporterRetry(s, s.ew.x.meta.key)
  }

  /** The states a sequence of steps leads through, all of them enabled. */
  ghost predicate Runs(w: World, s: State, steps: seq<Step>, end: State)
    decreases |steps|
  {
    if steps == [] then s == end
    else Enabled(s, steps[0]) && Runs(w, Apply(w, s, steps[0]), steps[1..], end)
  }
}
