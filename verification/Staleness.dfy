/** Deleting a module and relabelling it: when the ConfigMaps stay right, exactly. */
module Staleness {
  import opened Base
  import opened Api
  import opened Selector
  import opened Converter
  import opened Rendering
  import opened Reports
  import opened ApiServer
  import opened Steps
  import opened LostUpdates
  import opened Convergence
  import opened Outcome
  import opened Passes
  import opened Termination
  import opened Wakeups
  import opened Rest
  import opened Attention

  /** The text of a configuration shows which names it binds. */
  ghost predicate ShowsNames(w: World) {
    forall a, b, name: string :: name in a && name !in b ==> w.lib.render(a) != w.lib.render(b)
  }

  /** What the text of a configuration says of one entry. Conversions that differ may read alike: secrets are masked,
      and an empty section is left out like a missing one. */
  function EntryText(w: World, name: string, m: ExporterModule): string {
    w.lib.render(map[name := m])
  }

  ghost predicate SameTexts(w: World, a: map<string, ExporterModule>, b: map<string, ExporterModule>) {
    a.Keys == b.Keys && forall name :: name in a && name in b ==> EntryText(w, name, a[name]) == EntryText(w, name, b[name])
  }

  /** The text of a configuration shows its names, and each entry by itself. */
  ghost predicate ShowsEntries(w: World) {
    forall a, b :: w.lib.render(a) == w.lib.render(b) <==> SameTexts(w, a, b)
  }

  /** An entry may be exchanged for one that reads alike. */
  lemma ExchangeEntry(w: World, a: map<string, ExporterModule>, b: map<string, ExporterModule>, name: string)
    requires ShowsEntries(w) && w.lib.render(a) == w.lib.render(b) && name in a
    ensures name in b && w.lib.render(a[name := b[name]]) == w.lib.render(a)
  {
    assert SameTexts(w, a, b);
    assert SameTexts(w, a[name := b[name]], a);
  }

  // ---- the module map of a listing, one key more or less ----

  ghost function MapOf(w: World, order: seq<Key>, modules: map<Key, Module>, e: Exporter): Option<map<string, ExporterModule>>
    requires forall k :: k in order ==> k in modules
  {
    ModuleMap(w, Selected(Items(order, modules), e))
  }

  ghost predicate Renders(w: World, m: Module, e: Exporter) {
    Matches(m, e) && Convertible(w, m)
  }

  /** The map after the loop has passed one more module. */
  ghost function Then(w: World, before: Option<map<string, ExporterModule>>, m: Module, e: Exporter): Option<map<string, ExporterModule>> {
    if !Matches(m, e) then before
    else if before.None? || ConversionOf(w, m).Panics? then None
    else if ConversionOf(w, m).Rejected? then before
    else Some(before.value[NameOf(m) := ConversionOf(w, m).m])
  }

  lemma MapSnoc(w: World, order: seq<Key>, modules: map<Key, Module>, e: Exporter)
    requires order != [] && forall k :: k in order ==> k in modules
    ensures MapOf(w, order, modules, e) == Then(w, MapOf(w, order[..|order| - 1], modules, e), modules[order[|order| - 1]], e)
  {
    hide Matches, ConversionOf;
    var n := |order| - 1;
    var before, m := Selected(Items(order[..n], modules), e), modules[order[n]];
    ItemsSnoc(order, modules);
    if Matches(m, e) {
      assert Selected(Items(order, modules), e) == before + [m];
      EntriesSnoc(w, before, m);
      var es := Entries(w, before + [m]);
      assert es[..|es| - 1] == Entries(w, before);
    } else {
      assert Selected(Items(order, modules), e) == before + [] == before;
    }
  }

  function Without(order: seq<Key>, k: Key): seq<Key> {
    if order == [] then []
    else
      var n := |order| - 1;
      Without(order[..n], k) + (if order[n] == k then [] else [order[n]])
  }

  lemma ListsInit(order: seq<Key>, keys: set<Key>)
    requires Lists(order, keys) && order != []
    ensures Lists(order[..|order| - 1], keys - {order[|order| - 1]})
  {
    var n := |order| - 1;
    assert order == order[..n] + [order[n]];
    forall k | k in order[..n] ensures k != order[n] {
      var i :| 0 <= i < n && order[i] == k;
    }
  }

  lemma ListsSnoc(order: seq<Key>, keys: set<Key>, k: Key)
    requires Lists(order, keys) && k !in keys
    ensures Lists(order + [k], keys + {k})
  {
    forall i, j | 0 <= i < j < |order + [k]| ensures (order + [k])[i] != (order + [k])[j] {
      if j == |order| {
        assert order[i] in keys;
      }
    }
  }

  lemma {:induction false} WithoutLists(order: seq<Key>, keys: set<Key>, k: Key)
    requires Lists(order, keys)
    ensures Lists(Without(order, k), keys - {k})
  {
    if order == [] {
      forall j ensures j !in keys {
        assert j in keys <==> j in order;
      }
    } else {
      hide Lists;
      var n := |order| - 1;
      var last := order[n];
      ListsInit(order, keys);
      LastListed(order, keys);
      WithoutLists(order[..n], keys - {last}, k);
      if last == k {
        assert Without(order, k) == Without(order[..n], k);
        assert keys - {last} - {k} == keys - {k};
      } else {
        ListsSnoc(Without(order[..n], k), keys - {last} - {k}, last);
        assert keys - {last} - {k} + {last} == keys - {k};
      }
    }
  }

  lemma LastListed(order: seq<Key>, keys: set<Key>)
    requires Lists(order, keys) && order != []
    ensures order[|order| - 1] in keys
  {
  }

  ghost predicate AgreeOff(a: map<string, ExporterModule>, b: map<string, ExporterModule>, name: string) {
    forall n :: n != name ==> (n in a <==> n in b) && (n in a ==> a[n] == b[n])
  }

  lemma WithoutKeys(order: seq<Key>, k: Key)
    ensures forall j :: j in Without(order, k) <==> j in order && j != k
  {
    if order != [] {
      var n := |order| - 1;
      assert order == order[..n] + [order[n]];
    }
  }

  /** Passing the same module keeps two maps in agreement. */
  lemma ThenAgrees(w: World, a: Option<map<string, ExporterModule>>, b: Option<map<string, ExporterModule>>, m: Module, e: Exporter, name: string)
    requires a.Some? && b.Some? && AgreeOff(a.value, b.value, name) && Then(w, b, m, e).Some?
    ensures Then(w, a, m, e).Some? && AgreeOff(Then(w, a, m, e).value, Then(w, b, m, e).value, name)
  {
    hide Matches, ConversionOf;
  }

  /** A module changes the map at its own name, and only if it is rendered. */
  lemma ThenChangesOneName(w: World, a: Option<map<string, ExporterModule>>, m: Module, e: Exporter)
    requires Then(w, a, m, e).Some?
    ensures a.Some? && AgreeOff(a.value, Then(w, a, m, e).value, NameOf(m))
    ensures !Renders(w, m, e) ==> Then(w, a, m, e) == a
  {
    hide Matches, ConversionOf;
  }

  lemma AgreeTransitive(a: map<string, ExporterModule>, b: map<string, ExporterModule>, c: map<string, ExporterModule>, name: string)
    requires AgreeOff(a, b, name) && AgreeOff(b, c, name)
    ensures AgreeOff(a, c, name)
  {
  }

  lemma WithoutSnoc(order: seq<Key>, k: Key)
    requires order != []
    ensures var n := |order| - 1;
            && (order[n] == k ==> Without(order, k) == Without(order[..n], k))
            && (order[n] != k ==> Without(order, k) != [] && Without(order, k)[|Without(order, k)| - 1] == order[n]
                                  && Without(order, k)[..|Without(order, k)| - 1] == Without(order[..n], k))
  {
  }

  /** Dropping a module from a listing changes the map at most at the module's name, and only if it is rendered. */
  lemma {:induction false} WithoutAgrees(w: World, order: seq<Key>, modules: map<Key, Module>, e: Exporter, k: Key)
    requires k in modules && (forall j :: j in order ==> j in modules)
    requires MapOf(w, order, modules, e).Some?
    ensures forall j :: j in Without(order, k) ==> j in modules
    ensures MapOf(w, Without(order, k), modules, e).Some?
    ensures AgreeOff(MapOf(w, Without(order, k), modules, e).value, MapOf(w, order, modules, e).value, NameOf(modules[k]))
    ensures !Renders(w, modules[k], e) ==> MapOf(w, Without(order, k), modules, e) == MapOf(w, order, modules, e)
    decreases |order|
  {
    WithoutKeys(order, k);
    if order == [] {
      assert Without(order, k) == order;
    } else {
      hide Renders, Then, AgreeOff, MapOf, NameOf, Without;
      var n := |order| - 1;
      var name := NameOf(modules[k]);
      var before := MapOf(w, order[..n], modules, e);
      MapSnoc(w, order, modules, e);
      WithoutSnoc(order, k);
      ThenChangesOneName(w, before, modules[order[n]], e);
      WithoutAgrees(w, order[..n], modules, e, k);
      var less := MapOf(w, Without(order[..n], k), modules, e);
      if order[n] == k {
        AgreeTransitive(less.value, before.value, MapOf(w, order, modules, e).value, name);
      } else {
        MapSnoc(w, Without(order, k), modules, e);
        ThenAgrees(w, less, before, modules[order[n]], e, name);
      }
    }
  }

  lemma SameItems(w: World, order: seq<Key>, a: map<Key, Module>, b: map<Key, Module>, e: Exporter)
    requires forall k :: k in order ==> k in a && k in b && a[k] == b[k]
    ensures MapOf(w, order, a, e) == MapOf(w, order, b, e)
  {
    assert Items(order, a) == Items(order, b);
  }

  // ---- one module less ----

  /** Another selected module bears k's name and converts to what the map binds the name to. */
  ghost predicate StandsIn(w: World, modules: map<Key, Module>, e: Exporter, k: Key, j: Key, bbModules: map<string, ExporterModule>)
    requires k in modules
  {
    && j in modules && j != k && Renders(w, modules[j], e)
    && NameOf(modules[j]) == NameOf(modules[k]) && NameOf(modules[k]) in bbModules
    && ConversionOf(w, modules[j]).m == bbModules[NameOf(modules[k])]
  }

  /** The same, told from the text of the ConfigMap. */
  ghost predicate Replaced(w: World, modules: map<Key, Module>, e: Exporter, k: Key, config: string)
    requires k in modules
  {
    exists j, bbModules :: StandsIn(w, modules, e, k, j, bbModules) && config == w.lib.render(bbModules)
  }

  lemma UnrenderedIsNotMissed(w: World, modules: map<Key, Module>, e: Exporter, k: Key, config: string)
    requires k in modules && !Renders(w, modules[k], e) && RightConfig(w, modules, e, config)
    ensures RightConfig(w, modules - {k}, e, config)
  {
    hide Lists, MapOf, Renders;
    var order, bbModules :| RendersRight(w, modules, e, order, bbModules) && config == w.lib.render(bbModules);
    ListedKeys(order, modules.Keys);
    RightIsMapOf(w, order, modules, e, bbModules);
    WithoutAgrees(w, order, modules, e, k);
    WithoutLists(order, modules.Keys, k);
    assert (modules - {k}).Keys == modules.Keys - {k};
    ListedKeys(Without(order, k), modules.Keys - {k});
    SameItems(w, Without(order, k), modules, modules - {k}, e);
    MapOfIsRight(w, Without(order, k), modules - {k}, e, bbModules);
  }

  lemma RightIsMapOf(w: World, order: seq<Key>, modules: map<Key, Module>, e: Exporter, bbModules: map<string, ExporterModule>)
    requires RendersRight(w, modules, e, order, bbModules)
    ensures Lists(order, modules.Keys) && (forall k :: k in order ==> k in modules)
    ensures MapOf(w, order, modules, e) == Some(bbModules)
  {
    hide ModuleMap, Selected;
  }

  lemma MapOfIsRight(w: World, order: seq<Key>, modules: map<Key, Module>, e: Exporter, bbModules: map<string, ExporterModule>)
    requires Lists(order, modules.Keys) && (forall k :: k in order ==> k in modules)
    requires MapOf(w, order, modules, e) == Some(bbModules)
    ensures RendersRight(w, modules, e, order, bbModules)
  {
    hide ModuleMap, Selected;
  }

  lemma MovedLists(order: seq<Key>, keys: set<Key>, k: Key, j: Key)
    requires Lists(order, keys) && j in keys && j != k
    ensures Lists(Without(Without(order, k), j) + [j], keys - {k})
  {
    hide Lists, Without;
    WithoutLists(order, keys, k);
    WithoutLists(Without(order, k), keys - {k}, j);
    ListsSnoc(Without(Without(order, k), j), keys - {k} - {j}, j);
    assert keys - {k} - {j} + {j} == keys - {k};
  }

  /** With j moved to the end of the listing and k dropped, only the shared name changes, to j's conversion. */
  lemma StandInTakesOver(w: World, order: seq<Key>, modules: map<Key, Module>, e: Exporter, k: Key, j: Key, bbModules: map<string, ExporterModule>)
    requires k in modules && Lists(order, modules.Keys) && (forall i :: i in order ==> i in modules)
    requires MapOf(w, order, modules, e) == Some(bbModules)
    requires j in modules && j != k && Renders(w, modules[j], e) && NameOf(modules[j]) == NameOf(modules[k])
    ensures RendersRight(w, modules - {k}, e, Without(Without(order, k), j) + [j],
                         bbModules[NameOf(modules[k]) := ConversionOf(w, modules[j]).m])
  {
    hide Lists, MapOf, Matches, ConversionOf, NameOf, Without;
    var less := modules - {k};
    var first := Without(order, k);
    var rest := Without(first, j);
    var name, m := NameOf(modules[j]), ConversionOf(w, modules[j]).m;
    WithoutAgrees(w, order, modules, e, k);
    WithoutAgrees(w, first, modules, e, j);
    MovedLists(order, modules.Keys, k, j);
    assert modules.Keys - {k} == less.Keys;
    ListedKeys(rest + [j], less.Keys);
    assert (rest + [j])[..|rest + [j]| - 1] == rest;
    MapSnoc(w, rest + [j], modules, e);
    SameButOne(MapOf(w, rest, modules, e).value, MapOf(w, first, modules, e).value, bbModules, name, m);
    SameItems(w, rest + [j], modules, less, e);
    MapOfIsRight(w, rest + [j], less, e, bbModules[name := m]);
  }

  lemma SameButOne(a: map<string, ExporterModule>, b: map<string, ExporterModule>, c: map<string, ExporterModule>, name: string, m: ExporterModule)
    requires AgreeOff(a, b, name) && AgreeOff(b, c, name)
    ensures a[name := m] == c[name := m]
  {
  }

  /** A rendered module is not missed only if another one stands in. */
  lemma NotMissedHasStandIn(w: World, modules: map<Key, Module>, e: Exporter, k: Key, bbModules: map<string, ExporterModule>, order: seq<Key>)
    requires k in modules && Renders(w, modules[k], e)
    requires NameOf(modules[k]) in bbModules && RendersRight(w, modules - {k}, e, order, bbModules)
    ensures exists j :: StandsIn(w, modules, e, k, j, bbModules)
  {
    hide Matches, ConversionOf, Selected, NameOf;
    var less := modules - {k};
    var name := NameOf(modules[k]);
    var es := Entries(w, Selected(Items(order, less), e));
    var i := BoundValue(es, name);
    SelectedAt(order, less, e, i);
    var j :| j in less && Selected(Items(order, less), e)[i] == less[j] && Matches(less[j], e);
    assert StandsIn(w, modules, e, k, j, bbModules);
  }

  /** A right ConfigMap stays right without module k exactly if k is not rendered in it or another module stands in. */
  lemma RightWithoutExactly(w: World, modules: map<Key, Module>, e: Exporter, k: Key, config: string)
    requires ShowsEntries(w) && k in modules && RightConfig(w, modules, e, config)
    ensures RightConfig(w, modules - {k}, e, config) <==> !Renders(w, modules[k], e) || Replaced(w, modules, e, k, config)
  {
    hide Matches, ConversionOf, RendersRight, NameOf, ShowsEntries;
    if !Renders(w, modules[k], e) {
      UnrenderedIsNotMissed(w, modules, e, k, config);
    } else {
      var name := NameOf(modules[k]);
      var order, bbModules :| RendersRight(w, modules, e, order, bbModules) && config == w.lib.render(bbModules);
      RenderedNames(w, modules, e, order, bbModules, name);
      if RightConfig(w, modules - {k}, e, config) {
        var order', bb' :| RendersRight(w, modules - {k}, e, order', bb') && config == w.lib.render(bb');
        ExchangeEntry(w, bbModules, bb', name);
        NotMissedHasStandIn(w, modules, e, k, bb', order');
      }
      if j, bb' :| StandsIn(w, modules, e, k, j, bb') && config == w.lib.render(bb') {
        RightIsMapOf(w, order, modules, e, bbModules);
        ExchangeEntry(w, bbModules, bb', name);
        StandInTakesOver(w, order, modules, e, k, j, bbModules);
      }
    }
  }

  /** A module out of the selector is as good as none. */
  lemma UnselectedIsAbsent(w: World, modules: map<Key, Module>, e: Exporter, k: Key, config: string)
    requires k in modules && !Matches(modules[k], e)
    ensures RightConfig(w, modules, e, config) <==> RightConfig(w, modules - {k}, e, config)
  {
    hide Lists, MapOf, Matches, RendersRight;
    var less := modules - {k};
    if RightConfig(w, modules, e, config) {
      UnrenderedIsNotMissed(w, modules, e, k, config);
    }
    if RightConfig(w, less, e, config) {
      var order, bbModules :| RendersRight(w, less, e, order, bbModules) && config == w.lib.render(bbModules);
      RightIsMapOf(w, order, less, e, bbModules);
      ListsSnoc(order, less.Keys, k);
      assert less.Keys + {k} == modules.Keys;
      ListedKeys(order + [k], modules.Keys);
      SameItems(w, order, modules, less, e);
      assert (order + [k])[..|order|] == order;
      MapSnoc(w, order + [k], modules, e);
      MapOfIsRight(w, order + [k], modules, e, bbModules);
    }
  }

  // ---- deleting a module ----

  /** Deleting a module wakes no exporter: the operator settles again with every ConfigMap as it was. */
  lemma DeletionChangesNoConfig(w: World, s: State, k: Key)
    requires Settled(s) && k in s.modules.stored
    ensures var steps := [UserDeletesModule(k), ModuleDropped(k), LoadModule(k)];
            var t := s.(modules := s.modules.(stored := s.modules.stored - {k}, cache := s.modules.cache - {k}));
            Runs(w, s, steps, t) && Settled(t)
  {
    var t := s.(modules := s.modules.(stored := s.modules.stored - {k}, cache := s.modules.cache - {k}));
    var s1 := s.(modules := Delete(s.modules, k));
    var s2 := s1.(modules := Drop(s1.modules, k));
    assert Apply(w, s, UserDeletesModule(k)) == s1;
    assert Apply(w, s1, ModuleDropped(k)) == s2;
    assert s2.modules.queue == {k};
    assert Dequeue(s2.modules, k).queue == {};
    assert Apply(w, s2, LoadModule(k)) == t;
    assert Runs(w, t, [], t);
    assert [LoadModule(k)][1..] == [];
    assert Runs(w, s2, [LoadModule(k)], t);
    assert [ModuleDropped(k), LoadModule(k)][1..] == [LoadModule(k)];
    assert Runs(w, s1, [ModuleDropped(k), LoadModule(k)], t);
    assert [UserDeletesModule(k), ModuleDropped(k), LoadModule(k)][1..] == [ModuleDropped(k), LoadModule(k)];
  }

  /** At rest, and still after the deletion of module k: e's ConfigMap is right exactly if it does not render k or
      another module stands in for it. */
  lemma DeletionStaysRightExactly(w: World, s: State, k: Key, e: Key)
    requires Sound(w, s) && Served(s) && Settled(s) && ShowsEntries(w)
    requires k in s.modules.stored && e in s.exporters.stored
    ensures e in s.out.configs
    ensures RightConfig(w, s.modules.stored - {k}, s.exporters.stored[e], s.out.configs[e]) <==>
            || !Renders(w, s.modules.stored[k], s.exporters.stored[e])
            || Replaced(w, s.modules.stored, s.exporters.stored[e], k, s.out.configs[e])
  {
    hide Sound, Served, Settled, RightConfig, ShowsEntries, Renders, Replaced;
    SettledIsRight(w, s, e);
    RightWithoutExactly(w, s.modules.stored, s.exporters.stored[e], k, s.out.configs[e]);
  }

  /** Some stored module that e selects converts under this name. */
  ghost predicate Borne(w: World, modules: map<Key, Module>, e: Exporter, name: string) {
    exists j :: j in modules && Renders(w, modules[j], e) && NameOf(modules[j]) == name
  }

  /** A ConfigMap that was right once is wrong when a name it binds has no bearer any more. */
  lemma StaleWhenNameGone(w: World, was: map<Key, Module>, x: Exporter, now: map<Key, Module>, y: Exporter, name: string, config: string)
    requires ShowsNames(w)
    requires RightConfig(w, was, x, config) && Borne(w, was, x, name) && !Borne(w, now, y, name)
    ensures !RightConfig(w, now, y, config)
  {
    hide Matches, Convertible, RendersRight;
    var order, bbModules :| RendersRight(w, was, x, order, bbModules) && config == w.lib.render(bbModules);
    RenderedNames(w, was, x, order, bbModules, name);
    forall order', bb' | RendersRight(w, now, y, order', bb') ensures w.lib.render(bb') != config {
      RenderedNames(w, now, y, order', bb', name);
      assert name !in bb' && name in bbModules;
    }
  }

  /** For a module that bears its name alone, it is enough that the text shows names: right exactly if not rendered. */
  lemma LoneDeletionStaysRightExactly(w: World, s: State, k: Key, e: Key)
    requires Sound(w, s) && Served(s) && Settled(s) && ShowsNames(w)
    requires k in s.modules.stored && e in s.exporters.stored
    requires OnlyBearer(w, s.modules.stored, s.exporters.stored[e], k)
    ensures e in s.out.configs
    ensures RightConfig(w, s.modules.stored - {k}, s.exporters.stored[e], s.out.configs[e]) <==>
            !Renders(w, s.modules.stored[k], s.exporters.stored[e])
  {
    hide Sound, Served, Settled, Matches, Convertible, RightConfig, ShowsNames;
    var x, m := s.exporters.stored[e], s.modules.stored[k];
    SettledIsRight(w, s, e);
    if Renders(w, m, x) {
      StaleWhenNameGone(w, s.modules.stored, x, s.modules.stored - {k}, x, NameOf(m), s.out.configs[e]);
    } else {
      UnrenderedIsNotMissed(w, s.modules.stored, x, k, s.out.configs[e]);
    }
  }

  /** So the convergence theorem needs its coverage: for every module and exporter that match, there is a run from an
      empty cluster that deletes the module and comes to rest with its entry still configured. */
  lemma DeletionReachesWrongRest(w: World, m: Module, x: Exporter) returns (steps: seq<Step>, end: State)
    requires New(m, x) && !DryRun(w, m).Panics? && ShowsNames(w)
    requires Matches(m, x) && Convertible(w, m)
    ensures Runs(w, START, steps, end) && Settled(end)
    ensures end.modules.stored == map[] && x.meta.key in end.exporters.stored && x.meta.key in end.out.configs
    ensures !RightConfig(w, end.modules.stored, end.exporters.stored[x.meta.key], end.out.configs[x.meta.key])
  {
    hide CoveredRun, Runs, DryRun, Matches, ShowsNames, RightConfig, Sound, Served, ConversionOf;
    var k, e := m.meta.key, x.meta.key;
    var before, rest := FreshClusterRests(w, m, x);
    ReachableServed(w, before, rest);
    FreshKept(w, m, x, rest);
    DeletionChangesNoConfig(w, rest, k);
    LoneDeletionStaysRightExactly(w, rest, k, e);
    var after := [UserDeletesModule(k), ModuleDropped(k), LoadModule(k)];
    end := rest.(modules := rest.modules.(stored := rest.modules.stored - {k}, cache := rest.modules.cache - {k}));
    CoveredIsRun(w, START, before, rest);
    RunsConcat(w, START, before, rest, after, end);
    steps := before + after;
  }

  // ---- relabelling a module ----

  /** The cluster at rest after a user changed the labels of k and the informer saw it. */
  function Relabelled(s: State, k: Key, labels: map<string, string>): State
    requires k in s.modules.stored
  {
    var m := s.modules.stored[k].(meta := s.modules.stored[k].meta.(labels := labels, resourceVersion := s.clock + 1));
    s.(clock := s.clock + 1,
       modules := Store(s.modules.stored[k := m], s.modules.cache[k := m], s.modules.log[s.clock + 1 := m], s.modules.queue + {k}))
  }

  lemma RelabellingRuns(w: World, s: State, k: Key, labels: map<string, string>) returns (steps: seq<Step>)
    requires Logged(s.modules, s.clock) && Settled(s) && k in s.modules.stored && s.modules.stored[k].meta.labels != labels
    ensures |steps| == 2 && steps[0] == UserEditsModule(k, labels, s.modules.stored[k].meta.annotations, s.modules.stored[k].spec)
    ensures Runs(w, s, steps, Relabelled(s, k, labels))
  {
    hide Runs;
    var m := s.modules.stored[k];
    var a := UserEditsModule(k, labels, m.meta.annotations, m.spec);
    var t := Apply(w, s, a);
    assert t == SaveModule(s, m.(meta := m.meta.(labels := labels)));
    var b := ModuleDelivered(k, s.clock + 1);
    assert Enabled(t, b);
    assert Apply(w, t, b) == Relabelled(s, k, labels);
    StepRuns(w, s, a, b);
    steps := [a, b];
  }

  lemma RelabelledReady(w: World, s: State, k: Key, labels: map<string, string>, morder: seq<Key>, eorder: seq<Key>)
    requires Ready(s, morder, eorder) && NoPanics(w, s) && k in s.modules.stored
    ensures Ready(Relabelled(s, k, labels), morder, eorder) && NoPanics(w, Relabelled(s, k, labels))
  {
    hide Convert;
    assert Relabelled(s, k, labels).modules.stored.Keys == s.modules.stored.Keys;
  }

  lemma RestIsReady(w: World, s: State) returns (morder: seq<Key>, eorder: seq<Key>)
    requires Sound(w, s) && Settled(s)
    ensures Ready(s, morder, eorder)
  {
    hide ModuleWorkerSound, ExporterWorkerSound, ConfigsSound, Lists;
    morder := SomeListing(s.modules.stored.Keys);
    eorder := SomeListing(s.exporters.stored.Keys);
  }

  lemma RestIsLogged(w: World, s: State)
    requires Sound(w, s)
    ensures Logged(s.modules, s.clock)
  {
    hide ModuleWorkerSound, ExporterWorkerSound, ConfigsSound;
  }

  /** The operator does come to rest after the edit. */
  lemma RelabellingComesToRest(w: World, s: State, k: Key, labels: map<string, string>)
    returns (edit: seq<Step>, passes: seq<Pass>, end: State, morder: seq<Key>, eorder: seq<Key>)
    requires Sound(w, s) && Settled(s) && NoPanics(w, s) && k in s.modules.stored && s.modules.stored[k].meta.labels != labels
    ensures |edit| == 2 && edit[0] == UserEditsModule(k, labels, s.modules.stored[k].meta.annotations, s.modules.stored[k].spec)
    ensures Runs(w, s, edit, Relabelled(s, k, labels)) && Ready(s, morder, eorder)
    ensures PassRun(w, Relabelled(s, k, labels), passes, end, morder, eorder) && Settled(end)
  {
    hide NoPanics, Runs, PassRun, Ready, Settled, Sound;
    morder, eorder := RestIsReady(w, s);
    RelabelledReady(w, s, k, labels, morder, eorder);
    RestIsLogged(w, s);
    edit := RelabellingRuns(w, s, k, labels);
    passes, end := RestReached(w, Relabelled(s, k, labels), morder, eorder);
  }

  lemma RelabelledAttended(w: World, s: State, k: Key, labels: map<string, string>, morder: seq<Key>, e: Key)
    requires Sound(w, s) && Served(s) && Settled(s) && Lists(morder, s.modules.stored.Keys)
    requires k in s.modules.stored && e in s.exporters.stored
    ensures NamesPast(Relabelled(s, k, labels)) && Lists(morder, Relabelled(s, k, labels).modules.stored.Keys)
    ensures Matches(Relabelled(s, k, labels).modules.stored[k], s.exporters.stored[e]) ==>
              Attended(w, Relabelled(s, k, labels), morder, e)
  {
    hide Matches, ExporterFixed, ModuleWorkerSound, ExporterWorkerSound, ConfigsSound, GenerationsGrow, ModuleWorkerFresh,
         ExporterWorkerFresh, ExportersServed, PairsServed, Reflects, SeenAtLeast;
    var r := Relabelled(s, k, labels);
    assert r.modules.stored.Keys == s.modules.stored.Keys;
    forall j | j in r.modules.stored ensures r.modules.stored[j].meta.resourceVersion <= r.clock {
      assert j != k ==> Version(s.modules, s.modules.stored[j]);
    }
    forall x, q: nat | x in s.exporters.stored && NamesVersion(s.exporters.stored[x], q) ensures q <= s.clock {
      assert TouchMeans(s, x, q);
    }
    if Matches(r.modules.stored[k], s.exporters.stored[e]) {
      assert Waking(r, k, e);
    }
  }

  /** Statuses and versions do not matter for what is right. */
  lemma RightForSameObjects(w: World, s: State, t: State, e: Key, config: string)
    requires SameObjects(s, t) && e in s.exporters.stored
    ensures e in t.exporters.stored
    ensures RightConfig(w, s.modules.stored, s.exporters.stored[e], config) <==>
            RightConfig(w, t.modules.stored, t.exporters.stored[e], config)
  {
    hide Matches, ModuleMap, Selected, Items, Lists;
    var a, b, x, y := s.modules.stored, t.modules.stored, s.exporters.stored[e], t.exporters.stored[e];
    if order, bb :| RendersRight(w, a, x, order, bb) && config == w.lib.render(bb) {
      MapSame(w, order, a, x, b, y);
      assert RendersRight(w, b, y, order, bb);
    }
    if order, bb :| RendersRight(w, b, y, order, bb) && config == w.lib.render(bb) {
      AlikeSymmetric(a, b);
      MapSame(w, order, b, y, a, x);
      assert RendersRight(w, a, x, order, bb);
    }
  }

  lemma AlikeSymmetric(a: map<Key, Module>, b: map<Key, Module>)
    requires AlikeModules(a, b)
    ensures AlikeModules(b, a)
  {
  }

  lemma RelabelledUnwoken(s: State, k: Key, labels: map<string, string>, e: Key)
    requires Settled(s) && k in s.modules.stored && e in s.exporters.stored
    requires !Matches(Relabelled(s, k, labels).modules.stored[k], s.exporters.stored[e])
    ensures Unwoken(Relabelled(s, k, labels), e)
  {
    hide Matches;
  }

  /** Left out of e's selector by the edit, k is missed or not as after a deletion. */
  lemma UnmatchedRelabellingExactly(w: World, s: State, k: Key, labels: map<string, string>, passes: seq<Pass>, end: State,
                                    morder: seq<Key>, eorder: seq<Key>, e: Key)
    requires Sound(w, s) && Served(s) && Settled(s)
    requires k in s.modules.stored && e in s.exporters.stored
    requires PassRun(w, Relabelled(s, k, labels), passes, end, morder, eorder)
    requires !Matches(Relabelled(s, k, labels).modules.stored[k], s.exporters.stored[e])
    ensures e in s.out.configs && e in end.exporters.stored && e in end.out.configs
    ensures RightConfig(w, end.modules.stored, end.exporters.stored[e], end.out.configs[e]) <==>
            RightConfig(w, s.modules.stored - {k}, s.exporters.stored[e], s.out.configs[e])
  {
    hide Sound, Served, Settled, RightConfig, PassRun, Matches, SameObjects, Unwoken;
    var r, x := Relabelled(s, k, labels), s.exporters.stored[e];
    SettledIsRight(w, s, e);
    RelabelledUnwoken(s, k, labels, e);
    UnwokenStays(w, r, passes, end, morder, eorder, e);
    RunKeepsObjects(w, r, passes, end, morder, eorder);
    RightForSameObjects(w, r, end, e, s.out.configs[e]);
    UnselectedIsAbsent(w, r.modules.stored, x, k, s.out.configs[e]);
    assert r.modules.stored - {k} == s.modules.stored - {k};
  }

  /** At every rest that the operator reaches after a user relabelled module k, e's ConfigMap is right exactly if e
      selects k now, or did not render k before, or another module stands in. */
  lemma RelabellingStaysRightExactly(w: World, s: State, k: Key, labels: map<string, string>, passes: seq<Pass>, end: State,
                                     morder: seq<Key>, eorder: seq<Key>, e: Key)
    requires Sound(w, s) && Served(s) && Settled(s) && NoPanics(w, s) && ShowsEntries(w) && Ready(s, morder, eorder)
    requires k in s.modules.stored && e in s.exporters.stored
    requires PassRun(w, Relabelled(s, k, labels), passes, end, morder, eorder) && Settled(end)
    ensures e in s.out.configs && e in end.exporters.stored && e in end.out.configs
    ensures RightConfig(w, end.modules.stored, end.exporters.stored[e], end.out.configs[e]) <==>
            || Matches(Relabelled(s, k, labels).modules.stored[k], s.exporters.stored[e])
            || !Renders(w, s.modules.stored[k], s.exporters.stored[e])
            || Replaced(w, s.modules.stored, s.exporters.stored[e], k, s.out.configs[e])
  {
    hide Sound, Served, Settled, NoPanics, ShowsEntries, RightConfig, PassRun, Matches, Renders, Replaced, Attended, NamesPast;
    DeletionStaysRightExactly(w, s, k, e);
    if Matches(Relabelled(s, k, labels).modules.stored[k], s.exporters.stored[e]) {
      RelabelledReady(w, s, k, labels, morder, eorder);
      RelabelledAttended(w, s, k, labels, morder, e);
      AttendedEndsRight(w, Relabelled(s, k, labels), passes, end, morder, eorder, e);
    } else {
      UnmatchedRelabellingExactly(w, s, k, labels, passes, end, morder, eorder, e);
    }
  }

  /** For a module that bears its name alone, it is enough that the text shows names. */
  lemma LoneRelabellingStaysRightExactly(w: World, s: State, k: Key, labels: map<string, string>, passes: seq<Pass>, end: State,
                                         morder: seq<Key>, eorder: seq<Key>, e: Key)
    requires Sound(w, s) && Served(s) && Settled(s) && NoPanics(w, s) && ShowsNames(w) && Ready(s, morder, eorder)
    requires k in s.modules.stored && e in s.exporters.stored && OnlyBearer(w, s.modules.stored, s.exporters.stored[e], k)
    requires PassRun(w, Relabelled(s, k, labels), passes, end, morder, eorder) && Settled(end)
    ensures e in end.exporters.stored && e in end.out.configs
    ensures RightConfig(w, end.modules.stored, end.exporters.stored[e], end.out.configs[e]) <==>
            || Matches(Relabelled(s, k, labels).modules.stored[k], s.exporters.stored[e])
            || !Renders(w, s.modules.stored[k], s.exporters.stored[e])
  {
    hide Sound, Served, Settled, NoPanics, ShowsNames, RightConfig, PassRun, Matches, Renders, OnlyBearer, Attended, NamesPast;
    LoneDeletionStaysRightExactly(w, s, k, e);
    if Matches(Relabelled(s, k, labels).modules.stored[k], s.exporters.stored[e]) {
      RelabelledReady(w, s, k, labels, morder, eorder);
      RelabelledAttended(w, s, k, labels, morder, e);
      AttendedEndsRight(w, Relabelled(s, k, labels), passes, end, morder, eorder, e);
    } else {
      UnmatchedRelabellingExactly(w, s, k, labels, passes, end, morder, eorder, e);
    }
  }
}
