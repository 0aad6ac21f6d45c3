/** Left alone, the operator comes to rest: every whole Reconcile lowers a natural number. */
module Termination {
  import opened Base
  import opened Api
  import opened Selector
  import opened Converter
  import opened Rendering
  import Secrets
  import opened Owned
  import opened Reports
  import opened ApiServer
  import opened Steps
  import opened LostUpdates
  import opened Convergence
  import opened Outcome
  import opened Passes

  ghost predicate WellKeyed<S, T>(st: Store<S, T>) {
    forall k :: k in st.stored ==> st.stored[k].meta.key == k
  }

  /** Synced, objects under their keys, and the two list orders the informers answer with. */
  ghost predicate Ready(s: State, morder: seq<Key>, eorder: seq<Key>) {
    && Synced(s) && WellKeyed(s.modules) && WellKeyed(s.exporters)
    && Lists(morder, s.modules.stored.Keys) && Lists(eorder, s.exporters.stored.Keys)
  }

  // ---- what touching does ----

  /** Equal but for annotations and resource version. */
  ghost predicate SameContent(e: Exporter, f: Exporter) {
    e.meta.key == f.meta.key && e.meta.generation == f.meta.generation && e.spec == f.spec && e.status == f.status
  }

  ghost predicate SameExporters(s: State, t: State) {
    && s.exporters.stored.Keys == t.exporters.stored.Keys
    && (forall k :: k in s.exporters.stored ==> SameContent(s.exporters.stored[k], t.exporters.stored[k]))
  }

  /** Only the annotations and versions of exporters changed, and some of them were queued. */
  ghost predicate OnlyTouched(s: State, t: State) {
    && t.modules == s.modules && t.out == s.out && t.ew == s.ew
    && t.exporters.cache == t.exporters.stored
    && SameExporters(s, t)
    && s.exporters.queue <= t.exporters.queue <= s.exporters.queue + s.exporters.stored.Keys
  }

  lemma OneTouch(s: State)
    requires s.mw.Touching? && s.mw.refs != []
    requires s.exporters.cache == s.exporters.stored && WellKeyed(s.exporters)
    ensures var h := ReadRef(s);
            var u := if h.mw.Holding? then ExporterNews(TouchRef(h, true), h.mw.held.meta.key) else h;
            OnlyTouched(s, u) && u.mw.Touching? && u.mw.refs == s.mw.refs[1..]
  {
    var k := s.mw.refs[0];
    var h := ReadRef(s);
    if h.mw.Holding? {
      var held := s.exporters.stored[k];
      assert h.mw.held == held && Accepts(h.exporters, held);
      var next := Merged(held, Touched(held, s.mw.m.meta.resourceVersion));
      assert SameContent(held, next) && SameContent(held, Stamped(next, s.clock + 1));
      if Changes(s.exporters, next) {
        assert TouchRef(h, true).exporters == StoreAt(s.exporters, next, s.clock + 1);
      } else {
        assert TouchRef(h, true).exporters == s.exporters;
      }
    }
  }

  lemma {:induction false} TouchAllEffect(s: State)
    requires s.mw.Touching?
    requires s.exporters.cache == s.exporters.stored && WellKeyed(s.exporters)
    ensures OnlyTouched(s, TouchAll(s)) && TouchAll(s).mw.ModuleIdle?
    decreases |s.mw.refs|
  {
    if s.mw.refs != [] {
      OneTouch(s);
      var h := ReadRef(s);
      var u := if h.mw.Holding? then ExporterNews(TouchRef(h, true), h.mw.held.meta.key) else h;
      hide ReadRef, TouchRef, ExporterNews;
      TouchAllEffect(u);
    }
  }

  // ---- what a module pass does ----

  ghost function DryRun(w: World, m: Module): Conversion {
    Convert(w.lib, m.spec, None)
  }

  ghost function References(s: State, eorder: seq<Key>, m: Module): seq<Key>
    requires Lists(eorder, s.exporters.stored.Keys)
  {
    Referencing(Items(eorder, s.exporters.stored), m)
  }

  /** The status the module already has is the one a pass would write. */
  ghost predicate ModuleFixed(w: World, s: State, eorder: seq<Key>, k: Key)
    requires k in s.modules.stored && Lists(eorder, s.exporters.stored.Keys)
  {
    var m := s.modules.stored[k];
    !DryRun(w, m).Panics? && ModuleReport(DryRun(w, m), m, References(s, eorder, m), 0, 0) == m.status
  }

  lemma WriteStatusEffect(b: State, k: Key)
    requires b.mw.Prepared? && k in b.modules.stored && b.modules.stored[k] == b.mw.m && b.mw.m.meta.key == k
    requires b.modules.cache == b.modules.stored
    ensures var c := WriteStatus(b);
            var d := ModuleNews(c, k);
            && c.mw.Touching? && c.mw.m.meta.key == k && d.mw == c.mw
            && d.exporters == b.exporters && d.out == b.out && d.ew == b.ew
            && d.modules.cache == d.modules.stored
            && (if b.mw.status == b.mw.m.status then d.modules == b.modules
                else
                  && d.modules.stored == b.modules.stored[k := Stamped(b.mw.m.(status := b.mw.status), b.clock + 1)]
                  && d.modules.queue == b.modules.queue + {k})
  {
    var next := b.mw.m.(status := b.mw.status);
    if b.mw.status == b.mw.m.status {
      assert next == b.mw.m;
    } else {
      assert next.status != b.modules.stored[k].status;
      var n := Stamped(next, b.clock + 1);
      assert n.status != b.modules.stored[k].status;
    }
  }

  /** The modules after a pass over k that arrived at `report`. */
  ghost predicate ModulesAfter(s: State, t: State, k: Key, report: ModuleStatus)
    requires k in s.modules.stored
  {
    if report == s.modules.stored[k].status then
      t.modules == Dequeue(s.modules, k)
    else
      && t.modules.stored == s.modules.stored[k := Stamped(s.modules.stored[k].(status := report), s.clock + 1)]
      && t.modules.cache == t.modules.stored
      && t.modules.queue == s.modules.queue
  }

  lemma ModulePassEffect(w: World, s: State, k: Key, eorder: seq<Key>, t1: int, t2: int)
    requires Synced(s) && WellKeyed(s.modules) && WellKeyed(s.exporters)
    requires k in s.modules.queue && k in s.modules.stored
    requires Lists(eorder, s.exporters.stored.Keys)
    requires !DryRun(w, s.modules.stored[k]).Panics?
    ensures var m, t := s.modules.stored[k], ModulePass(w, s, k, eorder, t1, t2);
            && Synced(t) && t.out == s.out && SameExporters(s, t)
            && s.exporters.queue <= t.exporters.queue <= s.exporters.queue + s.exporters.stored.Keys
            && ModulesAfter(s, t, k, ModuleReport(DryRun(w, m), m, References(s, eorder, m), t1, t2))
  {
    hide ModuleReport, Convert, Referencing, Items, TouchAll;
    var m := s.modules.stored[k];
    var report := ModuleReport(DryRun(w, m), m, References(s, eorder, m), t1, t2);
    var a := Load(s, k);
    assert a.mw == Loaded(m);
    var b := Prepare(w, a, Some(eorder), t1, t2);
    assert b == a.(mw := Prepared(m, report));
    WriteStatusEffect(b, k);
    var d := ModuleNews(WriteStatus(b), k);
    hide WriteStatus, ModuleNews;
    assert s.modules.queue - {k} + {k} == s.modules.queue;
    TouchAllEffect(d);
  }

  /** A pass over a deleted module, or over one that panics, changes nothing but the queue, or nothing at all. */
  lemma ModulePassIdle(w: World, s: State, k: Key, eorder: seq<Key>, t1: int, t2: int)
    requires Synced(s) && WellKeyed(s.modules) && k in s.modules.queue
    requires Lists(eorder, s.exporters.stored.Keys)
    ensures k !in s.modules.stored ==> ModulePass(w, s, k, eorder, t1, t2) == s.(modules := Dequeue(s.modules, k))
    ensures k in s.modules.stored && DryRun(w, s.modules.stored[k]).Panics? ==> ModulePass(w, s, k, eorder, t1, t2) == s
  {
    hide ModuleReport, Convert, Referencing, Items, TouchAll, WriteStatus;
    assert s.modules.queue - {k} + {k} == s.modules.queue;
  }

  // ---- what an exporter pass does ----

  ghost function MapFor(w: World, s: State, morder: seq<Key>, x: Exporter): Option<map<string, ExporterModule>>
    requires Lists(morder, s.modules.stored.Keys)
  {
    ModuleMap(w, Selected(Items(morder, s.modules.stored), x))
  }

  ghost predicate OutputsFixed(w: World, s: State, k: Key, x: Exporter, bbModules: map<string, ExporterModule>) {
    && k in s.out.configs && s.out.configs[k] == w.lib.render(bbModules)
    && k in s.out.workloads && s.out.workloads[k] == DesiredWorkload(k, x.spec)
  }

  /** Owned objects and status are the ones a pass would write. */
  ghost predicate ExporterFixed(w: World, s: State, morder: seq<Key>, k: Key)
    requires k in s.exporters.stored && Lists(morder, s.modules.stored.Keys)
  {
    var x := s.exporters.stored[k];
    var bbModules := MapFor(w, s, morder, x);
    && bbModules.Some?
    && OutputsFixed(w, s, k, x, bbModules.value)
    && ExporterReport(x, |bbModules.value|, Observed(s.out, k), 0, 0) == x.status
  }

  ghost predicate OutputsAfter(w: World, s: State, t: State, k: Key, x: Exporter, bbModules: map<string, ExporterModule>) {
    && t.out.configs == s.out.configs[k := w.lib.render(bbModules)]
    && t.out.workloads == s.out.workloads[k := DesiredWorkload(k, x.spec)]
    && t.out.ready == s.out.ready
  }

  ghost predicate ExportersAfter(w: World, s: State, t: State, k: Key, report: ExporterStatus, bbModules: map<string, ExporterModule>)
    requires k in s.exporters.stored
  {
    && t.exporters.cache == t.exporters.stored
    && t.exporters.stored == (if report == s.exporters.stored[k].status then s.exporters.stored
                              else s.exporters.stored[k := Stamped(s.exporters.stored[k].(status := report), s.clock + 1)])
    && t.exporters.queue == (if report == s.exporters.stored[k].status && OutputsFixed(w, s, k, s.exporters.stored[k], bbModules)
                             then s.exporters.queue - {k} else s.exporters.queue)
  }

  lemma ReportEffect(u: State, k: Key, t1: int, t2: int)
    requires u.ew.Applied? && k in u.exporters.stored && u.exporters.stored[k] == u.ew.x && u.ew.x.meta.key == k
    requires u.exporters.cache == u.exporters.stored
    ensures var report := ExporterReport(u.ew.x, u.ew.count, Observed(u.out, k), t1, t2);
            var t := ExporterNews(ReportWritten(u, t1, t2), k);
            && t.modules == u.modules && t.out == u.out && t.mw == u.mw && t.ew.ExporterIdle?
            && t.exporters.cache == t.exporters.stored
            && (if report == u.ew.x.status then t.exporters == u.exporters
                else
                  && t.exporters.stored == u.exporters.stored[k := Stamped(u.ew.x.(status := report), u.clock + 1)]
                  && t.exporters.queue == u.exporters.queue + {k})
  {
    hide ExporterReport;
    var report := ExporterReport(u.ew.x, u.ew.count, Observed(u.out, k), t1, t2);
    var next := u.ew.x.(status := report);
    if report == u.ew.x.status {
      assert next == u.ew.x;
    } else {
      assert next.status != u.exporters.stored[k].status;
      assert Stamped(next, u.clock + 1).status != u.exporters.stored[k].status;
    }
  }

  lemma ExporterPassEffect(w: World, s: State, k: Key, morder: seq<Key>, t1: int, t2: int)
    requires Synced(s) && WellKeyed(s.exporters)
    requires k in s.exporters.queue && k in s.exporters.stored
    requires Lists(morder, s.modules.stored.Keys)
    requires MapFor(w, s, morder, s.exporters.stored[k]).Some?
    ensures var x, t := s.exporters.stored[k], ExporterPass(w, s, k, morder, t1, t2);
            var bbModules := MapFor(w, s, morder, x).value;
            && Synced(t) && t.modules == s.modules
            && OutputsAfter(w, s, t, k, x, bbModules)
            && ExportersAfter(w, s, t, k, ExporterReport(x, |bbModules|, Observed(s.out, k), t1, t2), bbModules)
  {
    hide ExporterReport, ModuleMap, Selected, Items, DesiredWorkload;
    var x := s.exporters.stored[k];
    var bbModules := MapFor(w, s, morder, x).value;
    var a := Fetch(s, k);
    var b := RenderAll(w, a, morder);
    assert b == a.(ew := Gathered(x, Snapshot(x, morder, s.modules.cache), bbModules));
    var d := WorkloadWritten(ConfigWritten(w, b));
    assert d.ew == Applied(x, |bbModules|);
    assert OwnedChanged(b, d, k) <==> !OutputsFixed(w, s, k, x, bbModules);
    var u := OwnedNews(b, d, k);
    assert s.exporters.queue - {k} + {k} == s.exporters.queue;
    ReportEffect(u, k, t1, t2);
  }

  lemma ExporterPassIdle(w: World, s: State, k: Key, morder: seq<Key>, t1: int, t2: int)
    requires Synced(s) && WellKeyed(s.exporters) && k in s.exporters.queue
    requires Lists(morder, s.modules.stored.Keys)
    ensures k !in s.exporters.stored ==> ExporterPass(w, s, k, morder, t1, t2) == s.(exporters := Dequeue(s.exporters, k))
    ensures k in s.exporters.stored && MapFor(w, s, morder, s.exporters.stored[k]).None? ==>
              ExporterPass(w, s, k, morder, t1, t2) == s
  {
    hide ModuleMap, Selected, Items, WritePhase;
    assert s.exporters.queue - {k} + {k} == s.exporters.queue;
  }

  // ---- what a pass leaves fixed ----

  ghost predicate SameSelectors(a: map<Key, Exporter>, b: map<Key, Exporter>) {
    a.Keys == b.Keys && forall k :: k in a ==> a[k].meta.key == b[k].meta.key && a[k].spec == b[k].spec
  }

  lemma {:induction false} ReferencingSame(order: seq<Key>, a: map<Key, Exporter>, b: map<Key, Exporter>, m: Module)
    requires forall k :: k in order ==> k in a && k in b
    requires SameSelectors(a, b)
    ensures Referencing(Items(order, a), m) == Referencing(Items(order, b), m)
  {
    if order != [] {
      var n := |order| - 1;
      ReferencingSame(order[..n], a, b, m);
      assert Items(order, a)[..n] == Items(order[..n], a);
      assert Items(order, b)[..n] == Items(order[..n], b);
      MatchesBySpec(m, a[order[n]], b[order[n]]);
    }
  }

  ghost predicate AlikeModules(a: map<Key, Module>, b: map<Key, Module>) {
    a.Keys == b.Keys && forall k :: k in a ==> Alike(a[k], b[k]) && a[k].meta.labels == b[k].meta.labels
  }

  lemma MapSame(w: World, order: seq<Key>, a: map<Key, Module>, x: Exporter, b: map<Key, Module>, y: Exporter)
    requires Lists(order, a.Keys) && AlikeModules(a, b)
    requires x.meta.key == y.meta.key && x.spec == y.spec
    ensures ModuleMap(w, Selected(Items(order, a), x)) == ModuleMap(w, Selected(Items(order, b), y))
  {
    hide Matches;
    forall k | k in order ensures Matches(a[k], x) <==> Matches(b[k], y) {
      MatchesByLabels(a[k], b[k], x);
      MatchesBySpec(b[k], x, y);
    }
    SameEntries(w, order, a, x, b, y);
  }

  /** A module's fixed status is fixed at any time of the clock. */
  lemma ModuleFixedAnytime(w: World, s: State, eorder: seq<Key>, k: Key, t1: int, t2: int)
    requires k in s.modules.stored && Lists(eorder, s.exporters.stored.Keys)
    requires ModuleFixed(w, s, eorder, k)
    ensures var m := s.modules.stored[k];
            ModuleReport(DryRun(w, m), m, References(s, eorder, m), t1, t2) == m.status
  {
    var m := s.modules.stored[k];
    ModuleReportSettles(DryRun(w, m), m, References(s, eorder, m), 0, 0, t1, t2);
  }

  lemma ExporterFixedAnytime(w: World, s: State, morder: seq<Key>, k: Key, t1: int, t2: int)
    requires k in s.exporters.stored && Lists(morder, s.modules.stored.Keys)
    requires ExporterFixed(w, s, morder, k)
    ensures var x := s.exporters.stored[k];
            ExporterReport(x, |MapFor(w, s, morder, x).value|, Observed(s.out, k), t1, t2) == x.status
  {
    var x := s.exporters.stored[k];
    ExporterReportSettles(x, |MapFor(w, s, morder, x).value|, Observed(s.out, k), 0, 0, t1, t2);
  }

  /** After a pass that wrote `report`, the module is fixed. */
  lemma WrittenModuleFixed(w: World, s: State, t: State, eorder: seq<Key>, k: Key, t1: int, t2: int)
    requires k in s.modules.stored && k in t.modules.stored
    requires Lists(eorder, s.exporters.stored.Keys)
    requires SameSelectors(s.exporters.stored, t.exporters.stored)
    requires !DryRun(w, s.modules.stored[k]).Panics?
    requires var m := s.modules.stored[k];
             t.modules.stored[k] == Stamped(m.(status := ModuleReport(DryRun(w, m), m, References(s, eorder, m), t1, t2)), s.clock + 1)
    ensures ModuleFixed(w, t, eorder, k)
  {
    hide Convert, Matches, Referencing;
    var m, n := s.modules.stored[k], t.modules.stored[k];
    var c, refs := DryRun(w, m), References(s, eorder, m);
    ReferencesSame(s, t, eorder, m, n);
    assert DryRun(w, n) == c;
    ModuleReportSettles(c, m, refs, t1, t2, 0, 0);
    SameReport(c, m.(status := n.status), n, refs);
  }

  lemma SameReport(c: Conversion, m: Module, n: Module, refs: seq<Key>)
    requires !c.Panics? && m.status == n.status && m.meta.generation == n.meta.generation
    ensures ModuleReport(c, m, refs, 0, 0) == ModuleReport(c, n, refs, 0, 0)
  {
  }

  lemma ReferencesSame(s: State, t: State, eorder: seq<Key>, m: Module, n: Module)
    requires Lists(eorder, s.exporters.stored.Keys) && SameSelectors(s.exporters.stored, t.exporters.stored)
    requires m.meta.key == n.meta.key && m.meta.labels == n.meta.labels
    ensures References(t, eorder, n) == References(s, eorder, m)
  {
    ReferencingSame(eorder, s.exporters.stored, t.exporters.stored, n);
    ReferencingByLabels(Items(eorder, s.exporters.stored), m, n);
  }

  lemma {:induction false} ReferencingByLabels(all: seq<Exporter>, m: Module, n: Module)
    requires m.meta.key == n.meta.key && m.meta.labels == n.meta.labels
    ensures Referencing(all, m) == Referencing(all, n)
  {
    if all != [] {
      ReferencingByLabels(all[..|all| - 1], m, n);
      MatchesByLabels(m, n, all[|all| - 1]);
    }
  }

  lemma OtherModuleSame(w: World, s: State, t: State, eorder: seq<Key>, j: Key)
    requires j in s.modules.stored && j in t.modules.stored && t.modules.stored[j] == s.modules.stored[j]
    requires Lists(eorder, s.exporters.stored.Keys) && SameSelectors(s.exporters.stored, t.exporters.stored)
    ensures ModuleFixed(w, t, eorder, j) <==> ModuleFixed(w, s, eorder, j)
  {
    hide ModuleReport, Convert, Referencing;
    ReferencesSame(s, t, eorder, s.modules.stored[j], t.modules.stored[j]);
  }

  lemma OtherExporterSame(w: World, s: State, t: State, morder: seq<Key>, j: Key)
    requires Lists(morder, s.modules.stored.Keys) && AlikeModules(s.modules.stored, t.modules.stored)
    requires j in s.exporters.stored && j in t.exporters.stored
    requires SameContent(s.exporters.stored[j], t.exporters.stored[j])
    requires Observed(t.out, j) == Observed(s.out, j)
    requires (j in s.out.configs <==> j in t.out.configs) && (j in s.out.configs ==> s.out.configs[j] == t.out.configs[j])
    requires (j in s.out.workloads <==> j in t.out.workloads) && (j in s.out.workloads ==> s.out.workloads[j] == t.out.workloads[j])
    ensures ExporterFixed(w, t, morder, j) <==> ExporterFixed(w, s, morder, j)
  {
    hide ModuleMap, Selected, DesiredWorkload;
    MapSame(w, morder, s.modules.stored, s.exporters.stored[j], t.modules.stored, t.exporters.stored[j]);
  }

  /** After a pass the exporter is fixed. */
  lemma WrittenExporterFixed(w: World, s: State, t: State, morder: seq<Key>, k: Key, t1: int, t2: int)
    requires Lists(morder, s.modules.stored.Keys) && t.modules == s.modules
    requires k in s.exporters.stored && MapFor(w, s, morder, s.exporters.stored[k]).Some?
    requires var x := s.exporters.stored[k];
             var bbModules := MapFor(w, s, morder, x).value;
             && OutputsAfter(w, s, t, k, x, bbModules)
             && ExportersAfter(w, s, t, k, ExporterReport(x, |bbModules|, Observed(s.out, k), t1, t2), bbModules)
    ensures ExporterFixed(w, t, morder, k)
  {
    hide ModuleMap, Selected, Items, DesiredWorkload, ExporterReport;
    var x, y := s.exporters.stored[k], t.exporters.stored[k];
    var bbModules := MapFor(w, s, morder, x).value;
    MapSame(w, morder, s.modules.stored, x, t.modules.stored, y);
    ExporterReportSettles(x, |bbModules|, Observed(s.out, k), t1, t2, 0, 0);
    SameExporterReport(x.(status := y.status), y, |bbModules|, Observed(s.out, k));
    assert Observed(t.out, k) == Observed(s.out, k);
    assert y.status == ExporterReport(x, |bbModules|, Observed(s.out, k), t1, t2);
  }

  lemma SameExporterReport(x: Exporter, y: Exporter, count: nat, observed: Option<int>)
    requires x.status == y.status && x.meta.generation == y.meta.generation
    ensures ExporterReport(x, count, observed, 0, 0) == ExporterReport(y, count, observed, 0, 0)
  {
  }

  // ---- the measure ----

  ghost function UnfixedModules(w: World, s: State, eorder: seq<Key>): set<Key>
    requires Lists(eorder, s.exporters.stored.Keys)
  {
    set k | k in s.modules.stored && !ModuleFixed(w, s, eorder, k)
  }

  ghost function UnfixedExporters(w: World, s: State, morder: seq<Key>): set<Key>
    requires Lists(morder, s.modules.stored.Keys)
  {
    set k | k in s.exporters.stored && !ExporterFixed(w, s, morder, k)
  }

  ghost function ModuleWork(w: World, s: State, eorder: seq<Key>): nat
    requires Lists(eorder, s.exporters.stored.Keys)
  {
    |UnfixedModules(w, s, eorder)| + |s.modules.queue|
  }

  ghost function ExporterWork(w: World, s: State, morder: seq<Key>): nat
    requires Lists(morder, s.modules.stored.Keys)
  {
    |UnfixedExporters(w, s, morder)| + |s.exporters.queue|
  }

  /** Every module pass may queue all exporters, hence its weight. */
  ghost function Work(w: World, s: State, morder: seq<Key>, eorder: seq<Key>): nat
    requires Lists(morder, s.modules.stored.Keys) && Lists(eorder, s.exporters.stored.Keys)
  {
    (|s.exporters.stored| + 1) * ModuleWork(w, s, eorder) + ExporterWork(w, s, morder)
  }

  lemma ModulePassWork(w: World, s: State, t: State, eorder: seq<Key>, k: Key, t1: int, t2: int)
    requires WellKeyed(s.modules) && Lists(eorder, s.exporters.stored.Keys)
    requires k in s.modules.queue && k in s.modules.stored
    requires !DryRun(w, s.modules.stored[k]).Panics?
    requires SameSelectors(s.exporters.stored, t.exporters.stored)
    requires var m := s.modules.stored[k];
             ModulesAfter(s, t, k, ModuleReport(DryRun(w, m), m, References(s, eorder, m), t1, t2))
    ensures Lists(eorder, t.exporters.stored.Keys)
    ensures ModuleWork(w, t, eorder) < ModuleWork(w, s, eorder)
  {
    hide ModuleReport, Convert, Referencing, Items;
    var m := s.modules.stored[k];
    var report := ModuleReport(DryRun(w, m), m, References(s, eorder, m), t1, t2);
    var before, after := UnfixedModules(w, s, eorder), UnfixedModules(w, t, eorder);
    forall j | j in after && j != k ensures j in before {
      OtherModuleSame(w, s, t, eorder, j);
    }
    if report == m.status {
      OtherModuleSame(w, s, t, eorder, k);
      SubsetSize(after, before);
    } else {
      WrittenModuleFixed(w, s, t, eorder, k, t1, t2);
      if ModuleFixed(w, s, eorder, k) {
        ModuleFixedAnytime(w, s, eorder, k, t1, t2);
      }
      SubsetSize(after, before - {k});
    }
  }

  lemma ExporterPassWork(w: World, s: State, t: State, morder: seq<Key>, k: Key, t1: int, t2: int)
    requires Lists(morder, s.modules.stored.Keys) && t.modules == s.modules
    requires k in s.exporters.queue && k in s.exporters.stored
    requires MapFor(w, s, morder, s.exporters.stored[k]).Some?
    requires var x := s.exporters.stored[k];
             var bbModules := MapFor(w, s, morder, x).value;
             && OutputsAfter(w, s, t, k, x, bbModules)
             && ExportersAfter(w, s, t, k, ExporterReport(x, |bbModules|, Observed(s.out, k), t1, t2), bbModules)
    ensures ExporterWork(w, t, morder) < ExporterWork(w, s, morder)
  {
    hide ExporterReport, ModuleMap, Selected, Items, DesiredWorkload;
    var x := s.exporters.stored[k];
    var bbModules := MapFor(w, s, morder, x).value;
    var report := ExporterReport(x, |bbModules|, Observed(s.out, k), t1, t2);
    var before, after := UnfixedExporters(w, s, morder), UnfixedExporters(w, t, morder);
    forall j | j in after && j != k ensures j in before {
      OtherExporterSame(w, s, t, morder, j);
    }
    WrittenExporterFixed(w, s, t, morder, k, t1, t2);
    if report == x.status && OutputsFixed(w, s, k, x, bbModules) {
      SubsetSize(after, before);
    } else {
      if ExporterFixed(w, s, morder, k) {
        ExporterFixedAnytime(w, s, morder, k, t1, t2);
      }
      SubsetSize(after, before - {k});
    }
  }

  // ---- sequences of passes ----

  datatype Pass = ModuleReconcile(k: Key, t1: int, t2: int) | ExporterReconcile(k: Key, t1: int, t2: int)

  predicate Queued(s: State, p: Pass) {
    match p
    case ModuleReconcile(k, _, _) => k in s.modules.queue
    case ExporterReconcile(k, _, _) => k in s.exporters.queue
  }

  ghost function AfterPass(w: World, s: State, p: Pass, morder: seq<Key>, eorder: seq<Key>): State
    requires Ready(s, morder, eorder)
  {
    match p
    case ModuleReconcile(k, t1, t2) => ModulePass(w, s, k, eorder, t1, t2)
    case ExporterReconcile(k, t1, t2) => ExporterPass(w, s, k, morder, t1, t2)
  }

  /** Reconciles of queued keys, in any order and at any times, lead from s to end. */
  ghost predicate PassRun(w: World, s: State, passes: seq<Pass>, end: State, morder: seq<Key>, eorder: seq<Key>)
    decreases |passes|
  {
    if passes == [] then s == end
    else
      && Ready(s, morder, eorder) && Queued(s, passes[0])
      && PassRun(w, AfterPass(w, s, passes[0], morder, eorder), passes[1..], end, morder, eorder)
  }

  ghost predicate NoPanics(w: World, s: State) {
    forall k :: k in s.modules.stored ==> !DryRun(w, s.modules.stored[k]).Panics?
  }

  lemma AlikePanicsAlike(w: World, s: State, t: State)
    requires AlikeModules(s.modules.stored, t.modules.stored)
    ensures NoPanics(w, s) <==> NoPanics(w, t)
  {
    hide Convert;
    assert forall k :: k in s.modules.stored ==> DryRun(w, s.modules.stored[k]) == DryRun(w, t.modules.stored[k]);
  }

  lemma MapForSome(w: World, s: State, morder: seq<Key>, x: Exporter)
    requires Lists(morder, s.modules.stored.Keys) && NoPanics(w, s)
    ensures MapFor(w, s, morder, x).Some?
  {
    hide Matches, Convert, Selected;
    var ms := Selected(Items(morder, s.modules.stored), x);
    var es := Entries(w, ms);
    CollectedFailsExactly(es);
    forall i | 0 <= i < |es| ensures !es[i].conversion.Panics? {
      SelectedAt(morder, s.modules.stored, x, i);
      var j :| j in s.modules.stored && ms[i] == s.modules.stored[j];
      Secrets.RenderedAsValidated(w.lib, w.secrets, ms[i].meta.key.ns, ms[i].spec);
    }
  }

  lemma ModuleKeysKept(s: State, t: State, k: Key, report: ModuleStatus)
    requires WellKeyed(s.modules) && Synced(s) && k in s.modules.stored && ModulesAfter(s, t, k, report)
    ensures t.modules.stored.Keys == s.modules.stored.Keys && WellKeyed(t.modules)
    ensures AlikeModules(s.modules.stored, t.modules.stored)
    ensures t.modules.cache == t.modules.stored
  {
  }

  /** t differs from s as a pass over the stored module k does; enough to compare the work. */
  ghost predicate PassedModule(w: World, s: State, t: State, k: Key, eorder: seq<Key>, t1: int, t2: int)
    requires k in s.modules.stored && Lists(eorder, s.exporters.stored.Keys)
    requires !DryRun(w, s.modules.stored[k]).Panics?
  {
    var m := s.modules.stored[k];
    && t.out == s.out && SameExporters(s, t)
    && t.exporters.queue <= s.exporters.queue + s.exporters.stored.Keys
    && ModulesAfter(s, t, k, ModuleReport(DryRun(w, m), m, References(s, eorder, m), t1, t2))
  }

  lemma PassedModuleReady(w: World, s: State, t: State, k: Key, morder: seq<Key>, eorder: seq<Key>, t1: int, t2: int)
    requires Ready(s, morder, eorder) && NoPanics(w, s) && k in s.modules.stored && Synced(t)
    requires PassedModule(w, s, t, k, eorder, t1, t2)
    ensures Ready(t, morder, eorder) && NoPanics(w, t) && |t.exporters.stored| == |s.exporters.stored|
  {
    hide ModuleReport, Convert, Matches;
    var m := s.modules.stored[k];
    ModuleKeysKept(s, t, k, ModuleReport(DryRun(w, m), m, References(s, eorder, m), t1, t2));
    assert |t.exporters.stored| == |t.exporters.stored.Keys|;
    assert |s.exporters.stored| == |s.exporters.stored.Keys|;
  }

  lemma PassedModuleExporterWork(w: World, s: State, t: State, k: Key, morder: seq<Key>, eorder: seq<Key>, t1: int, t2: int)
    requires Ready(s, morder, eorder) && NoPanics(w, s) && k in s.modules.stored
    requires PassedModule(w, s, t, k, eorder, t1, t2)
    ensures Lists(morder, t.modules.stored.Keys)
    ensures ExporterWork(w, t, morder) <= ExporterWork(w, s, morder) + |s.exporters.stored|
  {
    PassedModuleKeys(w, s, t, k, morder, eorder, t1, t2);
    hide DryRun, References, ModuleReport, ModulesAfter, NoPanics, AlikeModules, SameExporters, ExporterFixed;
    SameUnfixedExporters(w, s, t, morder);
    QueueGrowth(s, t);
  }

  lemma PassedModuleModuleWork(w: World, s: State, t: State, k: Key, morder: seq<Key>, eorder: seq<Key>, t1: int, t2: int)
    requires Ready(s, morder, eorder) && NoPanics(w, s) && k in s.modules.stored && k in s.modules.queue
    requires PassedModule(w, s, t, k, eorder, t1, t2)
    ensures Lists(eorder, t.exporters.stored.Keys)
    ensures ModuleWork(w, t, eorder) < ModuleWork(w, s, eorder)
  {
    PassedModuleKeys(w, s, t, k, morder, eorder, t1, t2);
    hide DryRun, References, ModuleReport, ModulesAfter, AlikeModules, SameExporters, SameSelectors, UnfixedModules;
    ModulePassWork(w, s, t, eorder, k, t1, t2);
  }

  lemma PassedModuleWork(w: World, s: State, t: State, k: Key, morder: seq<Key>, eorder: seq<Key>, t1: int, t2: int)
    requires Ready(s, morder, eorder) && NoPanics(w, s) && k in s.modules.stored && k in s.modules.queue
    requires Ready(t, morder, eorder) && |t.exporters.stored| == |s.exporters.stored|
    requires PassedModule(w, s, t, k, eorder, t1, t2)
    ensures Work(w, t, morder, eorder) < Work(w, s, morder, eorder)
  {
    hide PassedModule, DryRun, NoPanics, ModuleWork, ExporterWork;
    PassedModuleModuleWork(w, s, t, k, morder, eorder, t1, t2);
    PassedModuleExporterWork(w, s, t, k, morder, eorder, t1, t2);
    Weigh(|s.exporters.stored|, ModuleWork(w, s, eorder), ModuleWork(w, t, eorder),
          ExporterWork(w, s, morder), ExporterWork(w, t, morder));
  }

  lemma PassedModuleKeys(w: World, s: State, t: State, k: Key, morder: seq<Key>, eorder: seq<Key>, t1: int, t2: int)
    requires Ready(s, morder, eorder) && NoPanics(w, s) && k in s.modules.stored
    requires PassedModule(w, s, t, k, eorder, t1, t2)
    ensures AlikeModules(s.modules.stored, t.modules.stored) && SameSelectors(s.exporters.stored, t.exporters.stored)
  {
    hide ModuleReport, Convert, Matches, References, Lists;
    var m := s.modules.stored[k];
    ModuleKeysKept(s, t, k, ModuleReport(DryRun(w, m), m, References(s, eorder, m), t1, t2));
  }

  /** Taking a key without an object off a queue leaves all else as it was. */
  lemma UnfixedUnchanged(w: World, s: State, t: State, morder: seq<Key>, eorder: seq<Key>)
    requires Lists(morder, s.modules.stored.Keys) && Lists(eorder, s.exporters.stored.Keys)
    requires t.modules.stored == s.modules.stored && t.exporters.stored == s.exporters.stored && t.out == s.out
    ensures UnfixedModules(w, t, eorder) == UnfixedModules(w, s, eorder)
    ensures UnfixedExporters(w, t, morder) == UnfixedExporters(w, s, morder)
  {
    hide ModuleReport, Convert, Matches, ExporterReport, ModuleMap, Selected, Referencing, DesiredWorkload;
  }

  lemma StoredModulePassDecreases(w: World, s: State, k: Key, morder: seq<Key>, eorder: seq<Key>, t1: int, t2: int)
    requires Ready(s, morder, eorder) && NoPanics(w, s) && k in s.modules.queue && k in s.modules.stored
    ensures var t := ModulePass(w, s, k, eorder, t1, t2);
            && Ready(t, morder, eorder) && NoPanics(w, t)
            && |t.exporters.stored| == |s.exporters.stored|
            && Work(w, t, morder, eorder) < Work(w, s, morder, eorder)
  {
    hide ModulePass, ModuleReport, DryRun, References, Lists, ModulesAfter, SameExporters, Work;
    var t := ModulePass(w, s, k, eorder, t1, t2);
    ModulePassEffect(w, s, k, eorder, t1, t2);
    assert PassedModule(w, s, t, k, eorder, t1, t2);
    hide PassedModule;
    PassedModuleReady(w, s, t, k, morder, eorder, t1, t2);
    PassedModuleWork(w, s, t, k, morder, eorder, t1, t2);
  }

  /** Without panics every pass does some of the remaining work. */
  lemma ModulePassDecreases(w: World, s: State, k: Key, morder: seq<Key>, eorder: seq<Key>, t1: int, t2: int)
    requires Ready(s, morder, eorder) && NoPanics(w, s) && k in s.modules.queue
    ensures var t := ModulePass(w, s, k, eorder, t1, t2);
            && Ready(t, morder, eorder) && NoPanics(w, t)
            && |t.exporters.stored| == |s.exporters.stored|
            && Work(w, t, morder, eorder) < Work(w, s, morder, eorder)
  {
    hide ModulePass, DryRun, UnfixedModules, UnfixedExporters, Lists;
    if k in s.modules.stored {
      StoredModulePassDecreases(w, s, k, morder, eorder, t1, t2);
    } else {
      var t := ModulePass(w, s, k, eorder, t1, t2);
      ModulePassIdle(w, s, k, eorder, t1, t2);
      UnfixedUnchanged(w, s, t, morder, eorder);
      Weigh(|s.exporters.stored|, ModuleWork(w, s, eorder), ModuleWork(w, t, eorder),
            ExporterWork(w, s, morder), ExporterWork(w, t, morder));
    }
  }

  lemma Weigh(n: nat, m: nat, m': nat, e: nat, e': nat)
    requires m' < m && e' <= e + n
    ensures (n + 1) * m' + e' < (n + 1) * m + e
  {
    assert (n + 1) * m' <= (n + 1) * (m - 1);
  }

  lemma QueueGrowth(s: State, t: State)
    requires t.exporters.queue <= s.exporters.queue + s.exporters.stored.Keys
    ensures |t.exporters.queue| <= |s.exporters.queue| + |s.exporters.stored|
  {
    SubsetSize(t.exporters.queue, s.exporters.queue + s.exporters.stored.Keys);
    SubsetSize(s.exporters.stored.Keys - s.exporters.queue, s.exporters.stored.Keys);
    assert s.exporters.queue + s.exporters.stored.Keys == s.exporters.queue + (s.exporters.stored.Keys - s.exporters.queue);
    assert |s.exporters.stored.Keys| == |s.exporters.stored|;
  }

  lemma SameUnfixedExporters(w: World, s: State, t: State, morder: seq<Key>)
    requires Lists(morder, s.modules.stored.Keys) && AlikeModules(s.modules.stored, t.modules.stored)
    requires SameExporters(s, t) && t.out == s.out
    ensures Lists(morder, t.modules.stored.Keys)
    ensures UnfixedExporters(w, t, morder) == UnfixedExporters(w, s, morder)
  {
    hide ExporterFixed, AlikeModules;
    AlikeKeys(s.modules.stored, t.modules.stored);
    forall j | j in s.exporters.stored ensures ExporterFixed(w, t, morder, j) <==> ExporterFixed(w, s, morder, j) {
      OtherExporterSame(w, s, t, morder, j);
    }
  }

  lemma AlikeKeys(a: map<Key, Module>, b: map<Key, Module>)
    requires AlikeModules(a, b)
    ensures a.Keys == b.Keys
  {
  }

  lemma PassedExporterReady(w: World, s: State, t: State, k: Key, morder: seq<Key>, eorder: seq<Key>,
                            report: ExporterStatus, bbModules: map<string, ExporterModule>)
    requires Ready(s, morder, eorder) && Synced(t) && t.modules == s.modules && k in s.exporters.stored
    requires ExportersAfter(w, s, t, k, report, bbModules)
    ensures Ready(t, morder, eorder) && |t.exporters.stored| == |s.exporters.stored|
    ensures SameSelectors(s.exporters.stored, t.exporters.stored)
  {
    hide OutputsFixed;
    assert t.exporters.stored.Keys == s.exporters.stored.Keys;
    assert |t.exporters.stored| == |t.exporters.stored.Keys|;
    assert |s.exporters.stored| == |s.exporters.stored.Keys|;
  }

  lemma SameUnfixedModules(w: World, s: State, t: State, eorder: seq<Key>)
    requires t.modules == s.modules
    requires Lists(eorder, s.exporters.stored.Keys) && SameSelectors(s.exporters.stored, t.exporters.stored)
    ensures Lists(eorder, t.exporters.stored.Keys)
    ensures UnfixedModules(w, t, eorder) == UnfixedModules(w, s, eorder)
  {
    hide ModuleFixed;
    forall j | j in s.modules.stored ensures ModuleFixed(w, t, eorder, j) <==> ModuleFixed(w, s, eorder, j) {
      OtherModuleSame(w, s, t, eorder, j);
    }
  }

  /** The work compared part by part. */
  lemma WorkLess(w: World, s: State, t: State, morder: seq<Key>, eorder: seq<Key>)
    requires Lists(morder, s.modules.stored.Keys) && Lists(eorder, s.exporters.stored.Keys)
    requires Lists(morder, t.modules.stored.Keys) && Lists(eorder, t.exporters.stored.Keys)
    requires |t.exporters.stored| == |s.exporters.stored|
    requires ModuleWork(w, t, eorder) == ModuleWork(w, s, eorder)
    requires ExporterWork(w, t, morder) < ExporterWork(w, s, morder)
    ensures Work(w, t, morder, eorder) < Work(w, s, morder, eorder)
  {
    hide ModuleWork, ExporterWork, Lists;
  }

  lemma StoredExporterPassDecreases(w: World, s: State, k: Key, morder: seq<Key>, eorder: seq<Key>, t1: int, t2: int)
    requires Ready(s, morder, eorder) && NoPanics(w, s) && k in s.exporters.queue && k in s.exporters.stored
    ensures var t := ExporterPass(w, s, k, morder, t1, t2);
            && Ready(t, morder, eorder) && t.modules == s.modules
            && |t.exporters.stored| == |s.exporters.stored|
            && Work(w, t, morder, eorder) < Work(w, s, morder, eorder)
  {
    hide ExporterPass, ExporterReport, NoPanics, ModuleMap, Selected, Items, UnfixedModules, UnfixedExporters, Lists;
    var t := ExporterPass(w, s, k, morder, t1, t2);
    var x := s.exporters.stored[k];
    MapForSome(w, s, morder, x);
    ExporterPassEffect(w, s, k, morder, t1, t2);
    ExporterPassWork(w, s, t, morder, k, t1, t2);
    var bbModules := MapFor(w, s, morder, x).value;
    PassedExporterReady(w, s, t, k, morder, eorder, ExporterReport(x, |bbModules|, Observed(s.out, k), t1, t2), bbModules);
    hide ExportersAfter, OutputsAfter, MapFor, ExporterWork, Work;
    SameUnfixedModules(w, s, t, eorder);
    WorkLess(w, s, t, morder, eorder);
  }

  lemma ExporterPassDecreases(w: World, s: State, k: Key, morder: seq<Key>, eorder: seq<Key>, t1: int, t2: int)
    requires Ready(s, morder, eorder) && NoPanics(w, s) && k in s.exporters.queue
    ensures var t := ExporterPass(w, s, k, morder, t1, t2);
            && Ready(t, morder, eorder) && NoPanics(w, t)
            && |t.exporters.stored| == |s.exporters.stored|
            && Work(w, t, morder, eorder) < Work(w, s, morder, eorder)
  {
    hide ExporterPass, DryRun, UnfixedModules, UnfixedExporters, Lists;
    var t := ExporterPass(w, s, k, morder, t1, t2);
    if k in s.exporters.stored {
      StoredExporterPassDecreases(w, s, k, morder, eorder, t1, t2);
    } else {
      ExporterPassIdle(w, s, k, morder, t1, t2);
      UnfixedUnchanged(w, s, t, morder, eorder);
      WorkLess(w, s, t, morder, eorder);
    }
  }

  /** No sequence of Reconciles of queued keys is longer than the work there was at the start. */
  lemma {:induction false} PassesBounded(w: World, s: State, passes: seq<Pass>, end: State, morder: seq<Key>, eorder: seq<Key>)
    requires Ready(s, morder, eorder) && NoPanics(w, s) && PassRun(w, s, passes, end, morder, eorder)
    ensures Ready(end, morder, eorder) && |passes| + Work(w, end, morder, eorder) <= Work(w, s, morder, eorder)
    decreases |passes|
  {
    hide ModulePass, ExporterPass, Ready, NoPanics, Work;
    if passes != [] {
      match passes[0] {
        case ModuleReconcile(k, t1, t2) => ModulePassDecreases(w, s, k, morder, eorder, t1, t2);
        case ExporterReconcile(k, t1, t2) => ExporterPassDecreases(w, s, k, morder, eorder, t1, t2);
      }
      PassesBounded(w, AfterPass(w, s, passes[0], morder, eorder), passes[1..], end, morder, eorder);
    }
  }

  lemma {:induction false} PassesCovered(w: World, s: State, passes: seq<Pass>, end: State, morder: seq<Key>, eorder: seq<Key>)
    returns (steps: seq<Step>)
    requires Sound(w, s) && PassRun(w, s, passes, end, morder, eorder)
    ensures CoveredRun(w, s, steps, end)
    ensures AllByOperator(steps)
    decreases |passes|
  {
    hide ModulePass, ExporterPass, Sound, CoveredRun, Lists;
    if passes == [] {
      steps := [];
      EmptyRun(w, s);
    } else {
      var t := AfterPass(w, s, passes[0], morder, eorder);
      match passes[0] {
        case ModuleReconcile(k, t1, t2) => steps := ModulePassRuns(w, s, k, eorder, t1, t2);
        case ExporterReconcile(k, t1, t2) => steps := ExporterPassRuns(w, s, k, morder, t1, t2);
      }
      CoveredRunSound(w, s, steps, t);
      var rest := PassesCovered(w, t, passes[1..], end, morder, eorder);
      CoveredConcat(w, s, steps, t, rest, end);
      steps := steps + rest;
    }
  }

  lemma EmptyRun(w: World, s: State)
    ensures CoveredRun(w, s, [], s)
  {
  }

  // ---- a panic is retried forever ----

  ghost predicate Stuck(w: World, s: State, k: Key) {
    k in s.modules.queue && k in s.modules.stored && DryRun(w, s.modules.stored[k]).Panics?
  }

  lemma PassKeepsStuck(w: World, s: State, p: Pass, k: Key, morder: seq<Key>, eorder: seq<Key>)
    requires Ready(s, morder, eorder) && Queued(s, p) && Stuck(w, s, k)
    ensures Stuck(w, AfterPass(w, s, p, morder, eorder), k)
  {
    hide ModulePass, ExporterPass, ModuleReport, Convert, Referencing, Items, ModuleMap, ExporterReport;
    match p {
      case ModuleReconcile(j, t1, t2) =>
        ModulePassIdle(w, s, j, eorder, t1, t2);
        if j in s.modules.stored && !DryRun(w, s.modules.stored[j]).Panics? {
          ModulePassEffect(w, s, j, eorder, t1, t2);
        }
      case ExporterReconcile(j, t1, t2) =>
        ExporterPassIdle(w, s, j, morder, t1, t2);
        if j in s.exporters.stored && MapFor(w, s, morder, s.exporters.stored[j]).Some? {
          ExporterPassEffect(w, s, j, morder, t1, t2);
        }
    }
  }

  /** A queued module whose dry run panics stays queued through every sequence of Reconciles. */
  lemma {:induction false} PanicNeverSettles(w: World, s: State, passes: seq<Pass>, end: State, k: Key, morder: seq<Key>, eorder: seq<Key>)
    requires PassRun(w, s, passes, end, morder, eorder) && Stuck(w, s, k)
    ensures Stuck(w, end, k)
    decreases |passes|
  {
    hide AfterPass, Ready, Stuck;
    if passes != [] {
      PassKeepsStuck(w, s, passes[0], k, morder, eorder);
      PanicNeverSettles(w, AfterPass(w, s, passes[0], morder, eorder), passes[1..], end, k, morder, eorder);
    }
  }
}
