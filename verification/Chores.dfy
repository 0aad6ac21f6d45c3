/** What is left to do in the eyes of the controllers, whatever their caches show, and how much each piece weighs. */
module Chores {
  import opened Base
  import opened Api
  import opened Selector
  import opened Converter
  import opened Rendering
  import opened Owned
  import opened Reports
  import opened ApiServer
  import opened Informers
  import opened Steps
  import opened Outcome
  import opened Termination

  /** The world, the reference answers of the two List calls, and keys that cover the objects of a run. */
  datatype Setting = Setting(
    w: World,
    mlist: set<Key> -> seq<Key>,
    elist: set<Key> -> seq<Key>,
    mkeys: set<Key>,
    ekeys: set<Key>)

  ghost predicate Listing(c: Setting) {
    forall keys: set<Key> :: Lists(c.mlist(keys), keys) && Lists(c.elist(keys), keys)
  }

  ghost function MapIn(c: Setting, mcache: map<Key, Module>, x: Exporter): Option<map<string, ExporterModule>>
    requires Listing(c)
  {
    ModuleMap(c.w, Selected(Items(c.mlist(mcache.Keys), mcache), x))
  }

  ghost function RefsIn(c: Setting, ecache: map<Key, Exporter>, m: Module): seq<Key>
    requires Listing(c)
  {
    Referencing(Items(c.elist(ecache.Keys), ecache), m)
  }

  // ---- the module controller's part ----

  /** The status is what a Reconcile of m would arrive at. */
  ghost predicate Reported(c: Setting, ecache: map<Key, Exporter>, m: Module)
    requires Listing(c)
  {
    DryRun(c.w, m).Panics? || ModuleReport(DryRun(c.w, m), m, RefsIn(c, ecache, m), 0, 0) == m.status
  }

  ghost function ModulesOff(c: Setting, mstored: map<Key, Module>, ecache: map<Key, Exporter>): set<Key>
    requires Listing(c)
  {
    set k | k in mstored && !Reported(c, ecache, mstored[k])
  }

  /** A prepared status that still fits what the cache shows. */
  ghost predicate Fitting(c: Setting, ecache: map<Key, Exporter>, m: Module, status: ModuleStatus)
    requires Listing(c)
  {
    !DryRun(c.w, m).Panics? && exists t1, t2 :: status == ModuleReport(DryRun(c.w, m), m, RefsIn(c, ecache, m), t1, t2)
  }

  // ---- the exporter controller's part ----

  /** The four owned objects, and the status with the Deployment's readiness read or not. */
  datatype Part = ConfigPart | DeploymentPart | ServicePart | MonitorPart | StatusPart | BlindPart

  datatype Chore = Chore(k: Key, part: Part)

  predicate WorkloadPart(p: Part) {
    p.DeploymentPart? || p.ServicePart? || p.MonitorPart?
  }

  predicate ReportPart(p: Part) {
    p.StatusPart? || p.BlindPart?
  }

  predicate PartDone(workloads: map<Key, Workload>, k: Key, spec: ExporterSpec, p: Part) {
    var now := if k in workloads then workloads[k] else NO_WORKLOAD;
    var desired := DesiredWorkload(k, spec);
    match p
    case DeploymentPart => now.deployment == desired.deployment
    case ServicePart => now.service == desired.service
    case MonitorPart => now.monitor == desired.monitor
    case _ => true
  }

  ghost predicate ConfigDone(c: Setting, mcache: map<Key, Module>, configs: map<Key, string>, k: Key, x: Exporter)
    requires Listing(c)
  {
    MapIn(c, mcache, x).Some? ==> k in configs && configs[k] == c.w.lib.render(MapIn(c, mcache, x).value)
  }

  ghost predicate StatusDone(c: Setting, mcache: map<Key, Module>, x: Exporter, observed: Option<int>)
    requires Listing(c)
  {
    MapIn(c, mcache, x).Some? ==> ExporterReport(x, |MapIn(c, mcache, x).value|, observed, 0, 0) == x.status
  }

  ghost predicate OutputOff(c: Setting, mcache: map<Key, Module>, x: Exporter, out: Outputs, k: Key, p: Part)
    requires Listing(c)
  {
    if p.ConfigPart? then !ConfigDone(c, mcache, out.configs, k, x) else !PartDone(out.workloads, k, x.spec, p)
  }

  ghost predicate ReportOff(c: Setting, mcache: map<Key, Module>, x: Exporter, out: Outputs, k: Key, p: Part)
    requires Listing(c)
  {
    !StatusDone(c, mcache, x, if p.StatusPart? then Observed(out, k) else None)
  }

  /** Owned objects are compared with the exporter the cache shows, statuses with the stored one. */
  ghost predicate Off(c: Setting, mcache: map<Key, Module>, ecache: map<Key, Exporter>, estored: map<Key, Exporter>, out: Outputs,
                      k: Key, p: Part)
    requires Listing(c)
  {
    if ReportPart(p) then k in estored && ReportOff(c, mcache, estored[k], out, k, p)
    else k in ecache && OutputOff(c, mcache, ecache[k], out, k, p)
  }

  ghost function ChoresOff(c: Setting, mcache: map<Key, Module>, ecache: map<Key, Exporter>, estored: map<Key, Exporter>,
                           out: Outputs): set<Chore>
    requires Listing(c)
  {
    set k, p: Part | k in ecache.Keys + estored.Keys && Off(c, mcache, ecache, estored, out, k, p) :: Chore(k, p)
  }

  ghost function AllChores(keys: set<Key>): set<Chore> {
    set k, p: Part | k in keys :: Chore(k, p)
  }

  /** The exporter in hand is the one the cache shows, and what was rendered is what would be rendered now. */
  ghost predicate HandCurrent(c: Setting, mcache: map<Key, Module>, ecache: map<Key, Exporter>, ew: ExporterWorker)
    requires Listing(c) && !ew.ExporterIdle?
  {
    var x := ew.x;
    && x.meta.key in ecache && ecache[x.meta.key].meta.key == x.meta.key && ecache[x.meta.key].spec == x.spec
    && match ew
       case Fetched(_) => true
       case Gathered(_, _, bbModules) => RendersAlike(c.w, MapIn(c, mcache, x), Some(bbModules))
       case Configured(_, count) => MapIn(c, mcache, x).Some? && |MapIn(c, mcache, x).value| == count
       case Applied(_, count) => MapIn(c, mcache, x).Some? && |MapIn(c, mcache, x).value| == count
  }

  ghost predicate RendersAlike(w: World, a: Option<map<string, ExporterModule>>, b: Option<map<string, ExporterModule>>) {
    (a.None? && b.None?) || (a.Some? && b.Some? && w.lib.render(a.value) == w.lib.render(b.value) && |a.value| == |b.value|)
  }

  /** The parts of the workload that are not as the exporter in hand wants them. */
  function HandParts(workloads: map<Key, Workload>, x: Exporter): set<Part> {
    set p: Part | WorkloadPart(p) && !PartDone(workloads, x.meta.key, x.spec, p)
  }

  lemma HandPartsFew(workloads: map<Key, Workload>, x: Exporter)
    ensures |HandParts(workloads, x)| <= 3
  {
    var all := {DeploymentPart, ServicePart, MonitorPart};
    assert HandParts(workloads, x) <= all;
    SubsetSize(HandParts(workloads, x), all);
  }

  // ---- weights ----

  function Times(n: nat, a: nat): nat {
    n * a
  }

  lemma TimesLess(n: nat, a: nat, b: nat)
    requires b < a
    ensures Times(n, b) + n <= Times(n, a)
  {
    assert n * (b + 1) <= n * a;
  }

  lemma TimesAtMost(n: nat, a: nat, b: nat, d: nat)
    requires b <= a + d
    ensures Times(n, b) <= Times(n, a) + Times(n, d)
  {
    assert n * b <= n * (a + d);
  }

  ghost function Turnover(c: Setting): nat {
    |c.ekeys| + 1
  }

  /** What a prepared status or an exporter in hand that the cache has overtaken may still spoil. */
  ghost function ModuleHandWeight(c: Setting, ecache: map<Key, Exporter>, mw: ModuleWorker): nat
    requires Listing(c)
  {
    match mw
    case ModuleIdle => 0
    case Loaded(_) => Turnover(c)
    case Prepared(m, status) =>
      var n := |status.referencedByExporters|;
      (if n < Turnover(c) then Turnover(c) else n + 1) + (if Fitting(c, ecache, m, status) then 0 else 2 * Turnover(c))
    case Touching(_, refs) => |refs|
    case Holding(_, _, refs) => |refs| + 1
  }

  ghost function ExporterHandWeight(c: Setting, mcache: map<Key, Module>, ecache: map<Key, Exporter>, workloads: map<Key, Workload>,
                                    ew: ExporterWorker): nat
    requires Listing(c)
  {
    if ew.ExporterIdle? || HandCurrent(c, mcache, ecache, ew) then 0
    else if ew.Configured? then 3 + 2 * |HandParts(workloads, ew.x)|
    else if ew.Applied? then 3
    else 11
  }

  ghost function ViewWeight(c: Setting): nat {
    Times(Turnover(c), |c.mkeys|) + 3 * Turnover(c) + |AllChores(c.ekeys)| + 12
  }

  ghost function ModuleSide(c: Setting, s: State): nat
    requires Listing(c)
  {
    Times(Turnover(c), |ModulesOff(c, s.modules.stored, s.exporters.cache)| + |s.modules.queue| + |Undelivered(s.modules)|)
    + ModuleHandWeight(c, s.exporters.cache, s.mw)
  }

  ghost function ExporterSide(c: Setting, s: State): nat
    requires Listing(c)
  {
    |ChoresOff(c, s.modules.cache, s.exporters.cache, s.exporters.stored, s.out)|
    + ExporterHandWeight(c, s.modules.cache, s.exporters.cache, s.out.workloads, s.ew)
  }

  /** An upper bound on the effective writes to come. */
  ghost function Budget(c: Setting, s: State): nat
    requires Listing(c)
  {
    Times(ViewWeight(c), Unseen(s.modules) + Unseen(s.exporters)) + ModuleSide(c, s) + ExporterSide(c, s)
  }

  ghost predicate Fits(c: Setting, s: State) {
    && s.modules.stored.Keys <= c.mkeys
    && s.exporters.stored.Keys + s.exporters.cache.Keys <= c.ekeys
  }

  // ---- what depends on the view alone ----

  lemma MapInSame(c: Setting, a: map<Key, Module>, b: map<Key, Module>, x: Exporter, y: Exporter)
    requires Listing(c) && SameView(a, b) && x.meta.key == y.meta.key && x.spec == y.spec
    ensures MapIn(c, a, x) == MapIn(c, b, y)
  {
    MapSame(c.w, c.mlist(a.Keys), a, x, b, y);
  }

  lemma RefsInSame(c: Setting, a: map<Key, Exporter>, b: map<Key, Exporter>, m: Module, n: Module)
    requires Listing(c) && SameView(a, b) && m.meta.key == n.meta.key && m.meta.labels == n.meta.labels
    ensures RefsIn(c, a, m) == RefsIn(c, b, n)
  {
    ReferencingSame(c.elist(a.Keys), a, b, m);
    ReferencingByLabels(Items(c.elist(b.Keys), b), m, n);
  }

  lemma ModulesOffSameView(c: Setting, mstored: map<Key, Module>, a: map<Key, Exporter>, b: map<Key, Exporter>)
    requires Listing(c) && SameView(a, b)
    ensures ModulesOff(c, mstored, a) == ModulesOff(c, mstored, b)
  {
    hide DryRun, ModuleReport, RefsIn;
    forall k | k in mstored ensures Reported(c, a, mstored[k]) <==> Reported(c, b, mstored[k]) {
      RefsInSame(c, a, b, mstored[k], mstored[k]);
    }
  }

  lemma ModuleHandSameView(c: Setting, mw: ModuleWorker, a: map<Key, Exporter>, b: map<Key, Exporter>)
    requires Listing(c) && SameView(a, b)
    ensures ModuleHandWeight(c, a, mw) == ModuleHandWeight(c, b, mw)
  {
    hide DryRun, ModuleReport, RefsIn;
    if mw.Prepared? {
      RefsInSame(c, a, b, mw.m, mw.m);
    }
  }

  /** The stored exporters differ in annotations and versions only. */
  ghost predicate SameReports(a: map<Key, Exporter>, b: map<Key, Exporter>) {
    a.Keys == b.Keys && forall k :: k in a ==> Termination.SameContent(a[k], b[k])
  }

  lemma OutputSameView(c: Setting, m1: map<Key, Module>, m2: map<Key, Module>, x: Exporter, y: Exporter, out: Outputs, k: Key, p: Part)
    requires Listing(c) && SameView(m1, m2) && Interchangeable(x, y)
    ensures OutputOff(c, m1, x, out, k, p) <==> OutputOff(c, m2, y, out, k, p)
  {
    hide MapIn, SameView, PartDone;
    MapInSame(c, m1, m2, x, y);
  }

  lemma ReportSameView(c: Setting, m1: map<Key, Module>, m2: map<Key, Module>, x: Exporter, y: Exporter, out: Outputs, k: Key, p: Part)
    requires Listing(c) && SameView(m1, m2) && Termination.SameContent(x, y)
    ensures ReportOff(c, m1, x, out, k, p) <==> ReportOff(c, m2, y, out, k, p)
  {
    hide MapIn, SameView;
    MapInSame(c, m1, m2, x, y);
    var map1 := MapIn(c, m1, x);
    if map1.Some? {
      SameExporterReport(x, y, |map1.value|, if p.StatusPart? then Observed(out, k) else None);
    }
  }

  lemma OffSameView(c: Setting, m1: map<Key, Module>, m2: map<Key, Module>, e1: map<Key, Exporter>, e2: map<Key, Exporter>,
                    s1: map<Key, Exporter>, s2: map<Key, Exporter>, out: Outputs, k: Key, p: Part)
    requires Listing(c) && SameView(m1, m2) && SameView(e1, e2) && SameReports(s1, s2)
    ensures Off(c, m1, e1, s1, out, k, p) <==> Off(c, m2, e2, s2, out, k, p)
  {
    hide OutputOff, ReportOff, Listing, Interchangeable, Termination.SameContent;
    if k in s1 {
      ReportSameView(c, m1, m2, s1[k], s2[k], out, k, p);
    }
    if k in e1 {
      OutputSameView(c, m1, m2, e1[k], e2[k], out, k, p);
    }
  }

  lemma SameKeys<S, T>(a: map<Key, Object<S, T>>, b: map<Key, Object<S, T>>, k: Key)
    requires SameView(a, b)
    ensures k in a <==> k in b
    ensures k in a ==> Interchangeable(a[k], b[k])
    ensures a.Keys == b.Keys
  {
  }

  lemma ChoresSameView(c: Setting, m1: map<Key, Module>, m2: map<Key, Module>, e1: map<Key, Exporter>, e2: map<Key, Exporter>,
                       s1: map<Key, Exporter>, s2: map<Key, Exporter>, out: Outputs)
    requires Listing(c) && SameView(m1, m2) && SameView(e1, e2) && SameReports(s1, s2)
    ensures ChoresOff(c, m1, e1, s1, out) == ChoresOff(c, m2, e2, s2, out)
  {
    forall k, p: Part ensures Off(c, m1, e1, s1, out, k, p) <==> Off(c, m2, e2, s2, out, k, p) {
      OffSameView(c, m1, m2, e1, e2, s1, s2, out, k, p);
    }
    assert e1.Keys == e2.Keys && s1.Keys == s2.Keys;
    hide Off, SameView, SameReports;
  }

  lemma ExporterHandSameView(c: Setting, m1: map<Key, Module>, m2: map<Key, Module>, e1: map<Key, Exporter>, e2: map<Key, Exporter>,
                             workloads: map<Key, Workload>, ew: ExporterWorker)
    requires Listing(c) && SameView(m1, m2) && SameView(e1, e2)
    ensures ExporterHandWeight(c, m1, e1, workloads, ew) == ExporterHandWeight(c, m2, e2, workloads, ew)
  {
    hide MapIn, SameView, DesiredWorkload;
    if !ew.ExporterIdle? {
      SameKeys(e1, e2, ew.x.meta.key);
      MapInSame(c, m1, m2, ew.x, ew.x);
    }
  }

  // ---- bounds ----

  lemma ChoresBounded(c: Setting, s: State)
    requires Listing(c) && Fits(c, s)
    ensures |ChoresOff(c, s.modules.cache, s.exporters.cache, s.exporters.stored, s.out)| <= |AllChores(c.ekeys)|
  {
    hide Off;
    var off := ChoresOff(c, s.modules.cache, s.exporters.cache, s.exporters.stored, s.out);
    assert off <= AllChores(c.ekeys);
    SubsetSize(off, AllChores(c.ekeys));
  }

  lemma ModulesOffBounded(c: Setting, s: State)
    requires Listing(c) && Fits(c, s)
    ensures |ModulesOff(c, s.modules.stored, s.exporters.cache)| <= |c.mkeys|
  {
    hide Reported;
    SubsetSize(ModulesOff(c, s.modules.stored, s.exporters.cache), c.mkeys);
  }

  lemma HandsBounded(c: Setting, s: State, mcache: map<Key, Module>, ecache: map<Key, Exporter>)
    requires Listing(c)
    ensures ExporterHandWeight(c, mcache, ecache, s.out.workloads, s.ew) <= 11
    ensures ModuleHandWeight(c, ecache, s.mw) <= ModuleHandWeight(c, s.exporters.cache, s.mw) + 2 * Turnover(c)
  {
    hide HandCurrent, Fitting, HandParts;
    if s.ew.Configured? {
      HandPartsFew(s.out.workloads, s.ew.x);
    }
  }
}
