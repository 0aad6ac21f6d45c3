/** What the convergence invariant is worth: ConfigMaps are right wherever nothing is pending. */
module Outcome {
  import opened Base
  import opened Api
  import opened Selector
  import opened Converter
  import opened Rendering
  import opened Owned
  import opened ApiServer
  import opened Steps
  import opened LostUpdates
  import opened Convergence

  /** `config` is the rendering of exactly the stored modules that e selects and that convert, in some list order. */
  ghost predicate RightConfig(w: World, modules: map<Key, Module>, e: Exporter, config: string) {
    exists order: seq<Key>, bbModules :: RendersRight(w, modules, e, order, bbModules) && config == w.lib.render(bbModules)
  }

  ghost predicate RendersRight(w: World, modules: map<Key, Module>, e: Exporter, order: seq<Key>, bbModules: map<string, ExporterModule>) {
    Lists(order, modules.Keys) && ModuleMap(w, Selected(Items(order, modules), e)) == Some(bbModules)
  }

  lemma {:induction false} SomeListing(keys: set<Key>) returns (order: seq<Key>)
    ensures Lists(order, keys)
    decreases |keys|
  {
    if keys == {} {
      order := [];
    } else {
      var k :| k in keys;
      var rest := SomeListing(keys - {k});
      order := rest + [k];
    }
  }

  /** Two modules that convert alike under the same name. */
  ghost predicate Alike(m: Module, n: Module) {
    m.meta.key == n.meta.key && m.spec == n.spec
  }

  lemma AlikeEntries(w: World, m: Module, n: Module)
    requires Alike(m, n)
    ensures EntryOf(w, m) == EntryOf(w, n)
  {
  }

  lemma EntriesSnoc(w: World, ms: seq<Module>, m: Module)
    ensures Entries(w, ms + [m]) == Entries(w, ms) + [EntryOf(w, m)]
  {
    hide EntryOf;
  }

  lemma ItemsSnoc(order: seq<Key>, a: map<Key, Module>)
    requires order != [] && forall k :: k in order ==> k in a
    ensures Items(order, a) != []
    ensures Items(order, a)[..|order| - 1] == Items(order[..|order| - 1], a)
    ensures Items(order, a)[|order| - 1] == a[order[|order| - 1]]
  {
  }

  /** Snapshots that agree on the selected modules render the same. */
  lemma {:induction false} SameEntries(w: World, order: seq<Key>, a: map<Key, Module>, x: Exporter, b: map<Key, Module>, e: Exporter)
    requires forall k :: k in order ==> k in a && k in b
    requires forall k :: k in order ==> (Matches(a[k], x) <==> Matches(b[k], e)) && (Matches(b[k], e) ==> Alike(a[k], b[k]))
    ensures Entries(w, Selected(Items(order, a), x)) == Entries(w, Selected(Items(order, b), e))
  {
    hide Matches, EntryOf, Entries;
    if order != [] {
      var n := |order| - 1;
      var k := order[n];
      SameEntries(w, order[..n], a, x, b, e);
      EntriesSnoc(w, Selected(Items(order[..n], a), x), a[k]);
      EntriesSnoc(w, Selected(Items(order[..n], b), e), b[k]);
      ItemsSnoc(order, a);
      ItemsSnoc(order, b);
      var before, before' := Selected(Items(order[..n], a), x), Selected(Items(order[..n], b), e);
      if Matches(b[k], e) {
        AlikeEntries(w, a[k], b[k]);
        assert Selected(Items(order, a), x) == before + [a[k]];
        assert Selected(Items(order, b), e) == before' + [b[k]];
      } else {
        assert Selected(Items(order, a), x) == before + [] == before;
        assert Selected(Items(order, b), e) == before' + [] == before';
      }
    }
  }

  lemma {:induction false} NoneSelected(order: seq<Key>, b: map<Key, Module>, e: Exporter)
    requires forall k :: k in order ==> k in b && !Matches(b[k], e)
    ensures Selected(Items(order, b), e) == []
  {
    hide Matches;
    if order != [] {
      ItemsSnoc(order, b);
      NoneSelected(order[..|order| - 1], b, e);
    }
  }

  /** The snapshot agrees with the stored modules on everything e selects. */
  ghost predicate SnapshotAgrees(snap: Snapshot, modules: map<Key, Module>, e: Exporter) {
    && Lists(snap.order, snap.items.Keys)
    && snap.items.Keys <= modules.Keys
    && (forall k :: k in snap.items ==>
          (Matches(snap.items[k], snap.exporter) <==> Matches(modules[k], e))
          && (Matches(modules[k], e) ==> Alike(snap.items[k], modules[k])))
    && (forall k :: k in modules && Matches(modules[k], e) ==> k in snap.items)
  }

  lemma ListsConcat(a: seq<Key>, b: seq<Key>, part: set<Key>, all: set<Key>)
    requires Lists(a, part) && Lists(b, all - part) && part <= all
    ensures Lists(a + b, all)
  {
    var ab := a + b;
    forall i, j | 0 <= i < j < |ab| ensures ab[i] != ab[j] {
      if i < |a| <= j {
        assert ab[i] in part && b[j - |a|] in all - part;
      }
    }
    forall k ensures k in ab <==> k in all {
      assert k in ab <==> k in a || k in b;
    }
  }

  lemma ItemsConcat(a: seq<Key>, b: seq<Key>, items: map<Key, Module>)
    requires forall k :: k in a || k in b ==> k in items
    requires forall k :: k in a + b ==> k in items
    ensures Items(a + b, items) == Items(a, items) + Items(b, items)
  {
  }

  lemma AgreeingSnapshotRendersRight(w: World, snap: Snapshot, modules: map<Key, Module>, e: Exporter, bbModules: map<string, ExporterModule>)
    requires SnapshotAgrees(snap, modules, e) && RendersTo(w, snap, bbModules)
    ensures exists order :: RendersRight(w, modules, e, order, bbModules)
  {
    hide Matches, Lists, Items, Selected, Entries, Collected, Alike;
    var rest := SomeListing(modules.Keys - snap.items.Keys);
    var order := snap.order + rest;
    ListsConcat(snap.order, rest, snap.items.Keys, modules.Keys);
    ListedKeys(snap.order, snap.items.Keys);
    ListedKeys(rest, modules.Keys - snap.items.Keys);
    ListedKeys(order, modules.Keys);
    SameEntries(w, snap.order, snap.items, snap.exporter, modules, e);
    NoneSelected(rest, modules, e);
    ItemsConcat(snap.order, rest, modules);
    SelectedConcat(Items(snap.order, modules), Items(rest, modules), e);
    assert Selected(Items(order, modules), e) == Selected(Items(snap.order, modules), e);
    assert RendersRight(w, modules, e, order, bbModules);
  }

  lemma ListedKeys(order: seq<Key>, keys: set<Key>)
    requires Lists(order, keys)
    ensures forall k :: k in order <==> k in keys
  {
  }

  /** Nothing is pending for e: neither the exporter itself nor a module it selects. */
  ghost predicate NothingPending(s: State, e: Key)
    requires e in s.exporters.stored
  {
    && !Dirty(s, e) && !WritingWorkload(s, e)
    && (forall m :: m in s.modules.stored && Matches(s.modules.stored[m], s.exporters.stored[e]) ==>
          !Owing(s, m) && !AboutToTouch(s, e, m))
  }

  lemma MatchesBySpec(m: Module, x: Exporter, e: Exporter)
    requires x.meta.key == e.meta.key && x.spec == e.spec
    ensures Matches(m, x) == Matches(m, e)
  {
  }

  lemma BasisAgrees(w: World, s: State, e: Key)
    requires Sound(w, s) && Served(s)
    requires e in s.exporters.stored && NothingPending(s, e)
    ensures e in s.out.basis && SnapshotAgrees(s.out.basis[e], s.modules.stored, s.exporters.stored[e])
  {
    hide Matches, DesiredWorkload, TouchesMean, RendersTo, ModuleWorkerSound, ExporterWorkerSound, GenerationsGrow;
    var x := s.exporters.stored[e];
    assert ExporterServed(s, e);
    var snap := s.out.basis[e];
    assert ConfigSound(w, s, e);
    forall k | k in snap.items
      ensures k in s.modules.stored
      ensures Matches(snap.items[k], snap.exporter) <==> Matches(s.modules.stored[k], x)
      ensures Matches(s.modules.stored[k], x) ==> Alike(snap.items[k], s.modules.stored[k])
    {
      assert Version(s.modules, snap.items[k]);
      MatchesByLabels(snap.items[k], s.modules.stored[k], snap.exporter);
      MatchesBySpec(s.modules.stored[k], snap.exporter, x);
      assert PairServed(s, e, k);
    }
    forall k | k in s.modules.stored && Matches(s.modules.stored[k], x) ensures k in snap.items {
      assert PairServed(s, e, k);
    }
  }

  /** In every state a covered run can reach, between any two API calls: an exporter is pending, or some module it
      selects is pending, or its ConfigMap is the rendering of exactly the current matching convertible modules and
      its workload is the one its current spec asks for. */
  lemma PendingOrRight(w: World, steps: seq<Step>, s: State, e: Key)
    requires CoveredRun(w, START, steps, s)
    requires e in s.exporters.stored && NothingPending(s, e)
    ensures e in s.out.configs && RightConfig(w, s.modules.stored, s.exporters.stored[e], s.out.configs[e])
    ensures e in s.out.workloads && s.out.workloads[e] == DesiredWorkload(e, s.exporters.stored[e].spec)
  {
    ReachableServed(w, steps, s);
    ServedIsRight(w, s, e);
  }

  lemma ServedIsRight(w: World, s: State, e: Key)
    requires Sound(w, s) && Served(s)
    requires e in s.exporters.stored && NothingPending(s, e)
    ensures e in s.out.configs && RightConfig(w, s.modules.stored, s.exporters.stored[e], s.out.configs[e])
    ensures e in s.out.workloads && s.out.workloads[e] == DesiredWorkload(e, s.exporters.stored[e].spec)
  {
    hide Matches, DesiredWorkload, TouchesMean, PairsServed, RendersTo, SnapshotAgrees;
    assert ExporterServed(s, e);
    BasisAgrees(w, s, e);
    assert ConfigSound(w, s, e);
    var bbModules :| RendersTo(w, s.out.basis[e], bbModules) && s.out.configs[e] == w.lib.render(bbModules);
    AgreeingSnapshotRendersRight(w, s.out.basis[e], s.modules.stored, s.exporters.stored[e], bbModules);
  }

  /** No key queued, no worker busy, the informers up to date. */
  ghost predicate Settled(s: State) {
    && s.modules.queue == {} && s.exporters.queue == {}
    && s.mw.ModuleIdle? && s.ew.ExporterIdle?
    && s.modules.cache == s.modules.stored && s.exporters.cache == s.exporters.stored
  }

  /** Once a covered run has settled, every exporter is right. */
  lemma SettledIsRight(w: World, s: State, e: Key)
    requires Sound(w, s) && Served(s) && Settled(s)
    requires e in s.exporters.stored
    ensures e in s.out.configs && RightConfig(w, s.modules.stored, s.exporters.stored[e], s.out.configs[e])
    ensures e in s.out.workloads && s.out.workloads[e] == DesiredWorkload(e, s.exporters.stored[e].spec)
  {
    hide Sound, Served, Settled, NothingPending, RightConfig, DesiredWorkload;
    SettledNothingPending(s, e);
    ServedIsRight(w, s, e);
  }

  lemma SettledNothingPending(s: State, e: Key)
    requires Settled(s) && e in s.exporters.stored
    ensures NothingPending(s, e)
  {
    hide Matches;
  }

  /** No other stored module that e selects and that converts is rendered under m's name. */
  ghost predicate OnlyBearer(w: World, modules: map<Key, Module>, e: Exporter, k: Key)
    requires k in modules
  {
    forall j :: j in modules && j != k && Matches(modules[j], e) && Convertible(w, modules[j]) ==> NameOf(modules[j]) != NameOf(modules[k])
  }

  lemma SelectedAt(order: seq<Key>, modules: map<Key, Module>, e: Exporter, i: nat)
    requires Lists(order, modules.Keys)
    requires i < |Selected(Items(order, modules), e)|
    ensures exists j :: j in modules && Selected(Items(order, modules), e)[i] == modules[j] && Matches(modules[j], e)
  {
    hide Matches;
    var m := Selected(Items(order, modules), e)[i];
    SelectedMembers(Items(order, modules), e, m);
    var p :| 0 <= p < |order| && Items(order, modules)[p] == m;
    assert order[p] in modules;
  }

  /** A name is in the rendered map exactly if some stored module that e selects converts under it. */
  lemma RenderedNames(w: World, modules: map<Key, Module>, e: Exporter, order: seq<Key>, bbModules: map<string, ExporterModule>, name: string)
    requires RendersRight(w, modules, e, order, bbModules)
    ensures name in bbModules <==> exists j :: j in modules && Matches(modules[j], e) && Convertible(w, modules[j]) && NameOf(modules[j]) == name
  {
    hide Matches, ConversionOf, Selected;
    var ms := Selected(Items(order, modules), e);
    var es := Entries(w, ms);
    CollectedNames(es, name);
    if name in bbModules {
      var i :| 0 <= i < |es| && Binds(es[i], name);
      SelectedAt(order, modules, e, i);
    }
    if j :| j in modules && Matches(modules[j], e) && Convertible(w, modules[j]) && NameOf(modules[j]) == name {
      var p :| 0 <= p < |order| && order[p] == j;
      assert Items(order, modules)[p] == modules[j];
      SelectedMembers(Items(order, modules), e, modules[j]);
      var i :| 0 <= i < |ms| && ms[i] == modules[j];
      assert Binds(es[i], name);
    }
  }

  /** A module that alone bears its name is rendered under it, as its own conversion. */
  lemma RenderedValue(w: World, modules: map<Key, Module>, e: Exporter, order: seq<Key>, bbModules: map<string, ExporterModule>, k: Key)
    requires RendersRight(w, modules, e, order, bbModules)
    requires k in modules && Matches(modules[k], e) && Convertible(w, modules[k]) && OnlyBearer(w, modules, e, k)
    ensures NameOf(modules[k]) in bbModules && bbModules[NameOf(modules[k])] == ConversionOf(w, modules[k]).m
  {
    hide Matches, ConversionOf, Selected;
    var name := NameOf(modules[k]);
    RenderedNames(w, modules, e, order, bbModules, name);
    var es := Entries(w, Selected(Items(order, modules), e));
    var i := BoundValue(es, name);
    SelectedAt(order, modules, e, i);
  }
}
