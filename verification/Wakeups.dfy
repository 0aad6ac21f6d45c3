/** Whom a module reconcile wakes, and what nobody is woken for. */
module Wakeups {
  import opened Base
  import opened Api
  import opened Selector
  import opened Converter
  import opened Rendering
  import opened Reports
  import opened ApiServer
  import opened Steps
  import opened Passes
  import opened Termination

  ghost predicate Untouched(s: State, t: State, e: Key) {
    && e in s.exporters.stored && e in t.exporters.stored
    && t.exporters.stored[e] == s.exporters.stored[e]
    && (e in t.exporters.queue <==> e in s.exporters.queue)
  }

  /** The touch annotation of e carries the version of m. */
  ghost predicate Carries(t: State, e: Key, rv: nat) {
    && e in t.exporters.stored
    && TOUCH in t.exporters.stored[e].meta.annotations
    && t.exporters.stored[e].meta.annotations[TOUCH] == Decimal(rv)
  }

  lemma OneTouchReaches(s: State, e: Key)
    requires s.mw.Touching? && s.mw.refs != []
    requires s.exporters.cache == s.exporters.stored && WellKeyed(s.exporters) && e in s.exporters.stored
    ensures var h := ReadRef(s);
            var u := if h.mw.Holding? then ExporterNews(TouchRef(h, true), h.mw.held.meta.key) else h;
            && (e == s.mw.refs[0] ==> Carries(u, e, s.mw.m.meta.resourceVersion))
            && (e in u.exporters.queue || Untouched(s, u, e))
            && (e in s.exporters.queue ==> e in u.exporters.queue)
            && (e != s.mw.refs[0] ==> Untouched(s, u, e))
            && u.mw.Touching? && u.mw.m == s.mw.m && u.mw.refs == s.mw.refs[1..]
  {
    var k := s.mw.refs[0];
    var h := ReadRef(s);
    if h.mw.Holding? {
      var held := s.exporters.stored[k];
      var next := Merged(held, Touched(held, s.mw.m.meta.resourceVersion));
      assert next.meta.key == k;
      if Changes(s.exporters, next) {
        assert TouchRef(h, true).exporters == StoreAt(s.exporters, next, s.clock + 1);
      } else {
        assert TouchRef(h, true).exporters == s.exporters;
        assert next == held;
      }
    }
  }

  lemma {:induction false} TouchAllReaches(s: State, e: Key)
    requires s.mw.Touching?
    requires s.exporters.cache == s.exporters.stored && WellKeyed(s.exporters) && e in s.exporters.stored
    requires forall i, j :: 0 <= i < j < |s.mw.refs| ==> s.mw.refs[i] != s.mw.refs[j]
    ensures e in s.mw.refs ==> Carries(TouchAll(s), e, s.mw.m.meta.resourceVersion)
    ensures e !in s.mw.refs ==> Untouched(s, TouchAll(s), e)
    ensures e in TouchAll(s).exporters.queue || Untouched(s, TouchAll(s), e)
    ensures e in s.exporters.queue ==> e in TouchAll(s).exporters.queue
    decreases |s.mw.refs|
  {
    if s.mw.refs != [] {
      OneTouch(s);
      OneTouchReaches(s, e);
      var h := ReadRef(s);
      var u := if h.mw.Holding? then ExporterNews(TouchRef(h, true), h.mw.held.meta.key) else h;
      hide ReadRef, TouchRef, ExporterNews;
      assert s.mw.refs == [s.mw.refs[0]] + s.mw.refs[1..];
      TouchAllReaches(u, e);
    }
  }

  lemma {:induction false} ReferencesDistinct(order: seq<Key>, a: map<Key, Exporter>, m: Module)
    requires forall k :: k in order ==> k in a && a[k].meta.key == k
    requires forall i, j :: 0 <= i < j < |order| ==> order[i] != order[j]
    ensures var refs := Referencing(Items(order, a), m);
            && (forall i, j :: 0 <= i < j < |refs| ==> refs[i] != refs[j])
            && (forall e :: e in refs <==> e in order && Matches(m, a[e]))
  {
    hide Matches;
    if order != [] {
      var n := |order| - 1;
      ReferencesDistinct(order[..n], a, m);
      assert Items(order, a)[..n] == Items(order[..n], a);
      assert order == order[..n] + [order[n]];
      var before := Referencing(Items(order[..n], a), m);
      assert order[n] !in before;
    }
  }

  /** A module pass writes the module's version into the annotation of exactly the exporters that select it; every
      other exporter keeps its object and its place in or out of the queue. So relabelling a module out of a
      selector wakes nobody, and the ConfigMap of the exporter it left stays as it was. */
  lemma PassTouchesExactlyMatching(w: World, s: State, k: Key, eorder: seq<Key>, t1: int, t2: int, e: Key)
    requires Synced(s) && WellKeyed(s.modules) && WellKeyed(s.exporters)
    requires k in s.modules.queue && k in s.modules.stored && e in s.exporters.stored
    requires Lists(eorder, s.exporters.stored.Keys)
    requires !DryRun(w, s.modules.stored[k]).Panics?
    ensures var t := ModulePass(w, s, k, eorder, t1, t2);
            && k in t.modules.stored && t.out == s.out
            && (Matches(s.modules.stored[k], s.exporters.stored[e]) ==> Carries(t, e, t.modules.stored[k].meta.resourceVersion))
            && (!Matches(s.modules.stored[k], s.exporters.stored[e]) ==> Untouched(s, t, e))
            && (e in t.exporters.queue || Untouched(s, t, e))
  {
    hide ModuleReport, Convert, Referencing, Items, TouchAll, Matches;
    var m := s.modules.stored[k];
    var report := ModuleReport(DryRun(w, m), m, References(s, eorder, m), t1, t2);
    var a := Load(s, k);
    var b := Prepare(w, a, Some(eorder), t1, t2);
    assert b == a.(mw := Prepared(m, report));
    WriteStatusEffect(b, k);
    var d := ModuleNews(WriteStatus(b), k);
    ReportRefs(DryRun(w, m), m, References(s, eorder, m), t1, t2);
    WrittenVersion(b, k);
    hide WriteStatus, ModuleNews;
    ReferencesDistinct(eorder, s.exporters.stored, m);
    TouchAllEffect(d);
    TouchAllReaches(d, e);
  }

  lemma ReportRefs(c: Conversion, m: Module, refs: seq<Key>, t1: int, t2: int)
    requires !c.Panics?
    ensures ModuleReport(c, m, refs, t1, t2).referencedByExporters == refs
  {
  }

  lemma WrittenVersion(b: State, k: Key)
    requires b.mw.Prepared? && k in b.modules.stored && b.modules.stored[k] == b.mw.m && b.mw.m.meta.key == k
    requires b.modules.cache == b.modules.stored
    ensures var d := ModuleNews(WriteStatus(b), k);
            && d.mw.Touching? && k in d.modules.stored
            && d.mw.m.meta.resourceVersion == d.modules.stored[k].meta.resourceVersion
            && d.mw.refs == b.mw.status.referencedByExporters
  {
  }

  /** Creating or editing an exporter wakes no module: with no module queued, no sequence of Reconciles changes a
      module, so the back references in module statuses can stay behind the selectors forever. */
  lemma {:induction false} BackReferencesStay(w: World, s: State, passes: seq<Pass>, end: State, morder: seq<Key>, eorder: seq<Key>)
    requires PassRun(w, s, passes, end, morder, eorder) && s.modules.queue == {}
    ensures end.modules == s.modules
    decreases |passes|
  {
    if passes != [] {
      var t := AfterPass(w, s, passes[0], morder, eorder);
      match passes[0] {
        case ExporterReconcile(k, t1, t2) =>
          ExporterPassIdle(w, s, k, morder, t1, t2);
          if k in s.exporters.stored && MapFor(w, s, morder, s.exporters.stored[k]).Some? {
            ExporterPassEffect(w, s, k, morder, t1, t2);
          }
          hide ExporterPass, MapFor;
          assert t.modules == s.modules;
      }
      BackReferencesStay(w, t, passes[1..], end, morder, eorder);
    }
  }
}
