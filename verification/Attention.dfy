/** An exporter that is queued, or about to be woken, ends up right, however the operator got into its state. */
module Attention {
  import opened Base
  import opened Api
  import opened Selector
  import opened Converter
  import opened Rendering
  import Owned
  import opened Reports
  import opened ApiServer
  import opened Steps
  import opened LostUpdates
  import opened Convergence
  import opened Outcome
  import opened Passes
  import opened Termination
  import opened Wakeups
  import opened Rest

  /** No touch annotation names a version still to come. */
  ghost predicate NamesPast(s: State) {
    && (forall e, r: nat :: e in s.exporters.stored && NamesVersion(s.exporters.stored[e], r) ==> r <= s.clock)
    && (forall k :: k in s.modules.stored ==> s.modules.stored[k].meta.resourceVersion <= s.clock)
  }

  /** A queued module that e selects, and that e's touch annotation does not name yet. */
  ghost predicate Waking(s: State, k: Key, e: Key)
    requires e in s.exporters.stored
  {
    && k in s.modules.queue && k in s.modules.stored && Matches(s.modules.stored[k], s.exporters.stored[e])
    && !NamesVersion(s.exporters.stored[e], s.modules.stored[k].meta.resourceVersion)
  }

  /** The exporter is queued, will be woken, or has nothing left to do. */
  ghost predicate Attended(w: World, s: State, morder: seq<Key>, e: Key)
    requires Lists(morder, s.modules.stored.Keys)
  {
    && e in s.exporters.stored
    && (e in s.exporters.queue || (exists k :: Waking(s, k, e)) || ExporterFixed(w, s, morder, e))
  }

  lemma {:induction false} TouchAllClock(s: State)
    requires s.mw.Touching?
    ensures TouchAll(s).clock >= s.clock
    decreases |s.mw.refs|
  {
    if s.mw.refs != [] {
      var h := ReadRef(s);
      var u := if h.mw.Holding? then ExporterNews(TouchRef(h, true), h.mw.held.meta.key) else h;
      TouchKeepsClock(s);
      hide ReadRef, TouchRef, ExporterNews;
      TouchAllClock(u);
    }
  }

  lemma TouchKeepsClock(s: State)
    requires s.mw.Touching? && s.mw.refs != []
    ensures var h := ReadRef(s);
            var u := if h.mw.Holding? then ExporterNews(TouchRef(h, true), h.mw.held.meta.key) else h;
            u.clock >= s.clock && u.mw.Touching? && |u.mw.refs| < |s.mw.refs|
  {
    hide Merged;
  }

  lemma ModulePassClock(w: World, s: State, k: Key, eorder: seq<Key>, t1: int, t2: int)
    requires Synced(s) && WellKeyed(s.modules) && k in s.modules.stored
    requires Lists(eorder, s.exporters.stored.Keys) && !DryRun(w, s.modules.stored[k]).Panics?
    ensures var t := ModulePass(w, s, k, eorder, t1, t2);
            var m := s.modules.stored[k];
            && s.clock <= t.clock
            && (ModuleReport(DryRun(w, m), m, References(s, eorder, m), t1, t2) != m.status ==> s.clock + 1 <= t.clock)
  {
    hide ModuleReport, Convert, Referencing, Items, TouchAll;
    var m := s.modules.stored[k];
    var report := ModuleReport(DryRun(w, m), m, References(s, eorder, m), t1, t2);
    var a := Load(s, k);
    var b := Prepare(w, a, Some(eorder), t1, t2);
    assert b == a.(mw := Prepared(m, report));
    WriteStatusEffect(b, k);
    WriteStatusClock(b, k);
    var d := ModuleNews(WriteStatus(b), k);
    hide WriteStatus, ModuleNews;
    TouchAllClock(d);
  }

  lemma WriteStatusClock(b: State, k: Key)
    requires b.mw.Prepared? && k in b.modules.stored && b.modules.stored[k] == b.mw.m && b.mw.m.meta.key == k
    ensures var d := ModuleNews(WriteStatus(b), k);
            d.clock == if b.mw.status == b.mw.m.status then b.clock else b.clock + 1
  {
    assert b.mw.m.(status := b.mw.m.status) == b.mw.m;
    assert b.mw.m.(status := b.mw.status).status == b.mw.status;
  }

  lemma ExporterPassClock(w: World, s: State, k: Key, morder: seq<Key>, t1: int, t2: int)
    requires Synced(s) && Lists(morder, s.modules.stored.Keys)
    ensures ExporterPass(w, s, k, morder, t1, t2).clock >= s.clock
  {
    hide ExporterReport, ModuleMap, Selected, Items, Owned.DesiredWorkload, OwnedChanged;
  }

  lemma ModulePassNamesPast(w: World, s: State, k: Key, eorder: seq<Key>, t1: int, t2: int)
    requires Synced(s) && WellKeyed(s.modules) && WellKeyed(s.exporters) && k in s.modules.queue && k in s.modules.stored
    requires Lists(eorder, s.exporters.stored.Keys) && !DryRun(w, s.modules.stored[k]).Panics?
    requires NamesPast(s)
    ensures NamesPast(ModulePass(w, s, k, eorder, t1, t2))
  {
    hide ModulePass, ModuleReport, DryRun, References, Matches;
    var t := ModulePass(w, s, k, eorder, t1, t2);
    ModulePassEffect(w, s, k, eorder, t1, t2);
    ModulePassClock(w, s, k, eorder, t1, t2);
    assert t.modules.stored[k].meta.resourceVersion <= t.clock;
    forall e, r: nat | e in t.exporters.stored && NamesVersion(t.exporters.stored[e], r) ensures r <= t.clock {
      PassTouchesExactlyMatching(w, s, k, eorder, t1, t2, e);
      if Matches(s.modules.stored[k], s.exporters.stored[e]) {
        DecimalInjective(r, t.modules.stored[k].meta.resourceVersion);
      } else {
        assert NamesVersion(s.exporters.stored[e], r);
      }
    }
  }

  /** A pass over a module that e's annotation does not name yet queues e. */
  lemma WakingWakes(w: World, s: State, k: Key, eorder: seq<Key>, t1: int, t2: int, e: Key)
    requires Synced(s) && WellKeyed(s.modules) && WellKeyed(s.exporters) && e in s.exporters.stored && Waking(s, k, e)
    requires Lists(eorder, s.exporters.stored.Keys) && !DryRun(w, s.modules.stored[k]).Panics?
    requires NamesPast(s)
    ensures e in ModulePass(w, s, k, eorder, t1, t2).exporters.queue
  {
    hide ModulePass, ModuleReport, DryRun, References, Matches;
    var t := ModulePass(w, s, k, eorder, t1, t2);
    ModulePassEffect(w, s, k, eorder, t1, t2);
    PassTouchesExactlyMatching(w, s, k, eorder, t1, t2, e);
    assert Untouched(s, t, e) ==> NamesVersion(s.exporters.stored[e], t.modules.stored[k].meta.resourceVersion);
  }

  lemma ModulePassAttends(w: World, s: State, k: Key, morder: seq<Key>, eorder: seq<Key>, t1: int, t2: int, e: Key)
    requires Ready(s, morder, eorder) && k in s.modules.queue && k in s.modules.stored && !DryRun(w, s.modules.stored[k]).Panics?
    requires NamesPast(s) && Attended(w, s, morder, e)
    ensures var t := ModulePass(w, s, k, eorder, t1, t2);
            Lists(morder, t.modules.stored.Keys) && Attended(w, t, morder, e)
  {
    hide ModulePass, ModuleReport, DryRun, References, Matches, ExporterFixed, Lists;
    var t := ModulePass(w, s, k, eorder, t1, t2);
    ModulePassEffect(w, s, k, eorder, t1, t2);
    PassTouchesExactlyMatching(w, s, k, eorder, t1, t2, e);
    ModuleKeysKept(s, t, k, ModuleReport(DryRun(w, s.modules.stored[k]), s.modules.stored[k],
                                         References(s, eorder, s.modules.stored[k]), t1, t2));
    if e !in t.exporters.queue {
      if ExporterFixed(w, s, morder, e) {
        OtherExporterSame(w, s, t, morder, e);
      } else {
        var j :| Waking(s, j, e);
        if j == k {
          WakingWakes(w, s, k, eorder, t1, t2, e);
        } else {
          assert Waking(t, j, e);
        }
      }
    }
  }

  lemma ExporterPassAttends(w: World, s: State, k: Key, morder: seq<Key>, eorder: seq<Key>, t1: int, t2: int, e: Key)
    requires Ready(s, morder, eorder) && NoPanics(w, s) && k in s.exporters.queue && k in s.exporters.stored
    requires NamesPast(s) && Attended(w, s, morder, e)
    ensures var t := ExporterPass(w, s, k, morder, t1, t2);
            Lists(morder, t.modules.stored.Keys) && Attended(w, t, morder, e) && NamesPast(t)
  {
    hide ExporterPass, ExporterReport, MapFor, Matches, ExporterFixed, Lists, NoPanics, OutputsFixed;
    var t := ExporterPass(w, s, k, morder, t1, t2);
    MapForSome(w, s, morder, s.exporters.stored[k]);
    ExporterPassEffect(w, s, k, morder, t1, t2);
    ExporterPassClock(w, s, k, morder, t1, t2);
    SameAnnotations(w, s, t, k, morder, t1, t2);
    if k == e {
      WrittenExporterFixed(w, s, t, morder, k, t1, t2);
    } else if ExporterFixed(w, s, morder, e) {
      OtherExporterSame(w, s, t, morder, e);
    } else if j :| Waking(s, j, e) {
      assert Waking(t, j, e);
    }
  }

  lemma SameAnnotations(w: World, s: State, t: State, k: Key, morder: seq<Key>, t1: int, t2: int)
    requires Lists(morder, s.modules.stored.Keys) && k in s.exporters.stored && t.modules == s.modules && s.clock <= t.clock
    requires MapFor(w, s, morder, s.exporters.stored[k]).Some? && NamesPast(s)
    requires var x := s.exporters.stored[k];
             var bbModules := MapFor(w, s, morder, x).value;
             ExportersAfter(w, s, t, k, ExporterReport(x, |bbModules|, Observed(s.out, k), t1, t2), bbModules)
    ensures NamesPast(t)
    ensures t.exporters.stored.Keys == s.exporters.stored.Keys
    ensures forall e :: e in s.exporters.stored ==> t.exporters.stored[e].meta.annotations == s.exporters.stored[e].meta.annotations
  {
    hide ExporterReport, MapFor, OutputsFixed;
    forall e, r: nat | e in t.exporters.stored && NamesVersion(t.exporters.stored[e], r) ensures r <= t.clock {
      assert NamesVersion(s.exporters.stored[e], r);
    }
  }

  lemma PassAttends(w: World, s: State, p: Pass, morder: seq<Key>, eorder: seq<Key>, e: Key)
    requires Ready(s, morder, eorder) && NoPanics(w, s) && Queued(s, p)
    requires NamesPast(s) && Attended(w, s, morder, e)
    ensures var t := AfterPass(w, s, p, morder, eorder);
            Lists(morder, t.modules.stored.Keys) && Attended(w, t, morder, e) && NamesPast(t)
  {
    hide ModulePass, ExporterPass, ExporterFixed, DryRun;
    match p {
      case ModuleReconcile(k, t1, t2) =>
        if k in s.modules.stored {
          ModulePassAttends(w, s, k, morder, eorder, t1, t2, e);
          ModulePassNamesPast(w, s, k, eorder, t1, t2);
        } else {
          ModulePassIdle(w, s, k, eorder, t1, t2);
          DequeueAttends(w, s, ModulePass(w, s, k, eorder, t1, t2), morder, e);
        }
      case ExporterReconcile(k, t1, t2) =>
        if k in s.exporters.stored {
          ExporterPassAttends(w, s, k, morder, eorder, t1, t2, e);
        } else {
          ExporterPassIdle(w, s, k, morder, t1, t2);
          DequeueAttends(w, s, ExporterPass(w, s, k, morder, t1, t2), morder, e);
        }
    }
  }

  /** Taking the keys of missing objects off the queues changes nothing. */
  lemma DequeueAttends(w: World, s: State, t: State, morder: seq<Key>, e: Key)
    requires Lists(morder, s.modules.stored.Keys) && Attended(w, s, morder, e) && NamesPast(s)
    requires t.modules.stored == s.modules.stored && t.exporters.stored == s.exporters.stored && t.out == s.out && t.clock == s.clock
    requires forall k :: k in s.modules.queue && k in s.modules.stored ==> k in t.modules.queue
    requires forall k :: k in s.exporters.queue && k in s.exporters.stored ==> k in t.exporters.queue
    ensures Lists(morder, t.modules.stored.Keys) && Attended(w, t, morder, e) && NamesPast(t)
  {
    hide Matches, ModuleMap, Selected, Items, ExporterReport, Owned.DesiredWorkload;
    if e !in s.exporters.queue && !ExporterFixed(w, s, morder, e) {
      var k :| Waking(s, k, e);
      assert Waking(t, k, e);
    }
  }

  lemma {:induction false} RunAttends(w: World, s: State, passes: seq<Pass>, end: State, morder: seq<Key>, eorder: seq<Key>, e: Key)
    requires Ready(s, morder, eorder) && NoPanics(w, s) && PassRun(w, s, passes, end, morder, eorder)
    requires NamesPast(s) && Attended(w, s, morder, e)
    ensures Lists(morder, end.modules.stored.Keys) && Attended(w, end, morder, e)
    decreases |passes|
  {
    hide Ready, NoPanics, AfterPass, NamesPast, Attended, Lists;
    ListsOfReady(s, morder, eorder);
    if passes != [] {
      PassAttends(w, s, passes[0], morder, eorder, e);
      PassGoesOn(w, s, passes[0], morder, eorder);
      RunAttends(w, AfterPass(w, s, passes[0], morder, eorder), passes[1..], end, morder, eorder, e);
    }
  }

  lemma ListsOfReady(s: State, morder: seq<Key>, eorder: seq<Key>)
    requires Ready(s, morder, eorder)
    ensures Lists(morder, s.modules.stored.Keys)
  {
  }

  /** From any synced state without panics: an exporter that is queued, or selects a queued module its annotation does
      not name yet, is right whenever the operator comes to rest. */
  lemma AttendedEndsRight(w: World, s: State, passes: seq<Pass>, end: State, morder: seq<Key>, eorder: seq<Key>, e: Key)
    requires Ready(s, morder, eorder) && NoPanics(w, s) && PassRun(w, s, passes, end, morder, eorder)
    requires NamesPast(s) && Attended(w, s, morder, e) && Settled(end)
    ensures e in end.exporters.stored && e in end.out.configs
    ensures RightConfig(w, end.modules.stored, end.exporters.stored[e], end.out.configs[e])
  {
    hide Ready, NoPanics, PassRun, NamesPast, ModuleMap, Selected, Matches, Lists;
    RunAttends(w, s, passes, end, morder, eorder, e);
    var bbModules := MapFor(w, end, morder, end.exporters.stored[e]);
    assert RendersRight(w, end.modules.stored, end.exporters.stored[e], morder, bbModules.value);
  }
}
