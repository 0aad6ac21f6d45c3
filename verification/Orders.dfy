/** Informer caches answer a List in no particular order, and in another one each time. When the operator comes to rest
    all the same. */
module Orders {
  import opened Base
  import opened Api
  import opened Selector
  import opened Converter
  import opened Rendering
  import Secrets
  import opened Reports
  import opened ApiServer
  import opened Steps
  import opened LostUpdates
  import opened Convergence
  import opened Outcome
  import opened Passes
  import opened Termination
  import opened Wakeups
  import opened Rest
  import opened Staleness

  // ---- when the order of modules matters ----

  /** Modules that are rendered under the same name convert alike. */
  ghost predicate ConvertAlike(w: World, modules: map<Key, Module>, e: Exporter) {
    forall i, j :: i in modules && j in modules && Renders(w, modules[i], e) && Renders(w, modules[j], e)
                   && NameOf(modules[i]) == NameOf(modules[j]) ==>
      ConversionOf(w, modules[i]).m == ConversionOf(w, modules[j]).m
  }

  /** Modules that are rendered under the same name read alike in the configuration. */
  ghost predicate TextsAgree(w: World, modules: map<Key, Module>, e: Exporter) {
    forall i, j :: i in modules && j in modules && Renders(w, modules[i], e) && Renders(w, modules[j], e)
                   && NameOf(modules[i]) == NameOf(modules[j]) ==>
      EntryText(w, NameOf(modules[i]), ConversionOf(w, modules[i]).m) == EntryText(w, NameOf(modules[i]), ConversionOf(w, modules[j]).m)
  }

  ghost predicate SameMap(w: World, modules: map<Key, Module>, e: Exporter, o1: seq<Key>, o2: seq<Key>) {
    Lists(o1, modules.Keys) && Lists(o2, modules.Keys) ==> MapOf(w, o1, modules, e) == MapOf(w, o2, modules, e)
  }

  lemma BoundInMap(w: World, modules: map<Key, Module>, e: Exporter, order: seq<Key>, bbModules: map<string, ExporterModule>, name: string)
    returns (j: Key)
    requires RendersRight(w, modules, e, order, bbModules) && name in bbModules
    ensures j in modules && Renders(w, modules[j], e) && NameOf(modules[j]) == name
    ensures bbModules[name] == ConversionOf(w, modules[j]).m
  {
    hide Matches, ConversionOf, Selected, NameOf;
    var es := Entries(w, Selected(Items(order, modules), e));
    var i := BoundValue(es, name);
    SelectedAt(order, modules, e, i);
    j :| j in modules && Selected(Items(order, modules), e)[i] == modules[j] && Matches(modules[j], e);
  }

  lemma SameNames(w: World, modules: map<Key, Module>, e: Exporter, o1: seq<Key>, o2: seq<Key>,
                  b1: map<string, ExporterModule>, b2: map<string, ExporterModule>)
    requires RendersRight(w, modules, e, o1, b1) && RendersRight(w, modules, e, o2, b2)
    ensures b1.Keys == b2.Keys
  {
    hide RendersRight, Matches, ConversionOf, NameOf;
    forall name ensures name in b1 <==> name in b2 {
      RenderedNames(w, modules, e, o1, b1, name);
      RenderedNames(w, modules, e, o2, b2, name);
    }
  }

  lemma AlikeFixMap(w: World, modules: map<Key, Module>, e: Exporter, o1: seq<Key>, o2: seq<Key>,
                    b1: map<string, ExporterModule>, b2: map<string, ExporterModule>)
    requires ConvertAlike(w, modules, e) && RendersRight(w, modules, e, o1, b1) && RendersRight(w, modules, e, o2, b2)
    ensures b1 == b2
  {
    hide RendersRight, Matches, ConversionOf, NameOf;
    SameNames(w, modules, e, o1, o2, b1, b2);
    forall name | name in b1 ensures name in b2 && b1[name] == b2[name] {
      assert name in b2.Keys;
      var i := BoundInMap(w, modules, e, o1, b1, name);
      var j := BoundInMap(w, modules, e, o2, b2, name);
    }
  }

  lemma AgreeingTextsFixText(w: World, modules: map<Key, Module>, e: Exporter, o1: seq<Key>, o2: seq<Key>,
                             b1: map<string, ExporterModule>, b2: map<string, ExporterModule>)
    requires ShowsEntries(w) && TextsAgree(w, modules, e)
    requires RendersRight(w, modules, e, o1, b1) && RendersRight(w, modules, e, o2, b2)
    ensures w.lib.render(b1) == w.lib.render(b2)
  {
    hide RendersRight, Matches, ConversionOf, NameOf, EntryText;
    SameNames(w, modules, e, o1, o2, b1, b2);
    forall name | name in b1 && name in b2 ensures EntryText(w, name, b1[name]) == EntryText(w, name, b2[name]) {
      var i := BoundInMap(w, modules, e, o1, b1, name);
      var j := BoundInMap(w, modules, e, o2, b2, name);
    }
    assert SameTexts(w, b1, b2);
  }

  lemma MovedLastLists(order: seq<Key>, keys: set<Key>, j: Key)
    requires Lists(order, keys) && j in keys
    ensures Lists(Without(order, j) + [j], keys)
  {
    hide Lists;
    WithoutLists(order, keys, j);
    ListsSnoc(Without(order, j), keys - {j}, j);
    assert keys - {j} + {j} == keys;
  }

  /** A listing with j last binds j's name to j's conversion. */
  lemma LastWins(w: World, modules: map<Key, Module>, e: Exporter, order: seq<Key>, j: Key) returns (last: seq<Key>)
    requires Lists(order, modules.Keys) && j in modules && Renders(w, modules[j], e)
    requires (forall k :: k in order ==> k in modules) && MapOf(w, order, modules, e).Some?
    ensures Lists(last, modules.Keys) && (forall k :: k in last ==> k in modules)
    ensures MapOf(w, last, modules, e).Some? && NameOf(modules[j]) in MapOf(w, last, modules, e).value
    ensures MapOf(w, last, modules, e).value[NameOf(modules[j])] == ConversionOf(w, modules[j]).m
  {
    hide Lists, MapOf, Matches, ConversionOf, NameOf, Without, AgreeOff;
    var rest := Without(order, j);
    last := rest + [j];
    MovedLastLists(order, modules.Keys, j);
    ListedKeys(last, modules.Keys);
    WithoutAgrees(w, order, modules, e, j);
    assert last[..|last| - 1] == rest && last[|last| - 1] == j;
    MapSnoc(w, last, modules, e);
  }

  lemma SomeMap(w: World, modules: map<Key, Module>, e: Exporter, order: seq<Key>)
    requires Lists(order, modules.Keys)
    requires forall k :: k in modules ==> !DryRun(w, modules[k]).Panics?
    ensures (forall k :: k in order ==> k in modules) && MapOf(w, order, modules, e).Some?
  {
    hide Matches, Convert, Selected;
    var ms := Selected(Items(order, modules), e);
    var es := Entries(w, ms);
    CollectedFailsExactly(es);
    forall i | 0 <= i < |es| ensures !es[i].conversion.Panics? {
      SelectedAt(order, modules, e, i);
      var j :| j in modules && ms[i] == modules[j];
      Secrets.RenderedAsValidated(w.lib, w.secrets, ms[i].meta.key.ns, ms[i].spec);
    }
  }

  /** The module map does not depend on the order of the List exactly if modules of the same name convert alike. */
  lemma OrderIrrelevantExactly(w: World, modules: map<Key, Module>, e: Exporter)
    requires forall k :: k in modules ==> !DryRun(w, modules[k]).Panics?
    ensures (forall o1, o2 :: SameMap(w, modules, e, o1, o2)) <==> ConvertAlike(w, modules, e)
  {
    hide Lists, MapOf, Matches, ConversionOf, NameOf, DryRun;
    if ConvertAlike(w, modules, e) {
      forall o1, o2 ensures SameMap(w, modules, e, o1, o2) {
        if Lists(o1, modules.Keys) && Lists(o2, modules.Keys) {
          var b1 := ListedMap(w, modules, e, o1);
          var b2 := ListedMap(w, modules, e, o2);
          AlikeFixMap(w, modules, e, o1, o2, b1, b2);
        }
      }
    }
    if forall o1, o2 :: SameMap(w, modules, e, o1, o2) {
      forall i, j | i in modules && j in modules && Renders(w, modules[i], e) && Renders(w, modules[j], e)
                    && NameOf(modules[i]) == NameOf(modules[j])
        ensures ConversionOf(w, modules[i]).m == ConversionOf(w, modules[j]).m
      {
        var order := SomeListing(modules.Keys);
        SomeMap(w, modules, e, order);
        var o1 := LastWins(w, modules, e, order, i);
        var o2 := LastWins(w, modules, e, order, j);
        assert SameMap(w, modules, e, o1, o2);
      }
    }
  }

  lemma ListedMap(w: World, modules: map<Key, Module>, e: Exporter, order: seq<Key>) returns (bbModules: map<string, ExporterModule>)
    requires Lists(order, modules.Keys)
    requires forall k :: k in modules ==> !DryRun(w, modules[k]).Panics?
    ensures (forall k :: k in order ==> k in modules) && MapOf(w, order, modules, e) == Some(bbModules)
    ensures RendersRight(w, modules, e, order, bbModules)
  {
    hide Lists, MapOf, DryRun, RendersRight;
    SomeMap(w, modules, e, order);
    bbModules := MapOf(w, order, modules, e).value;
    MapOfIsRight(w, order, modules, e, bbModules);
  }

  ghost predicate SameText(w: World, modules: map<Key, Module>, e: Exporter, o1: seq<Key>, o2: seq<Key>) {
    Lists(o1, modules.Keys) && Lists(o2, modules.Keys) && MapOf(w, o1, modules, e).Some? && MapOf(w, o2, modules, e).Some? ==>
      w.lib.render(MapOf(w, o1, modules, e).value) == w.lib.render(MapOf(w, o2, modules, e).value)
  }

  /** The text of the ConfigMap does not depend on the order of the List exactly if modules of the same name read alike. */
  lemma TextFixedExactly(w: World, modules: map<Key, Module>, e: Exporter)
    requires ShowsEntries(w) && forall k :: k in modules ==> !DryRun(w, modules[k]).Panics?
    ensures (forall o1, o2 :: SameText(w, modules, e, o1, o2)) <==> TextsAgree(w, modules, e)
  {
    hide Lists, MapOf, Matches, ConversionOf, NameOf, DryRun, ShowsEntries, EntryText;
    if TextsAgree(w, modules, e) {
      forall o1, o2 ensures SameText(w, modules, e, o1, o2) {
        if Lists(o1, modules.Keys) && Lists(o2, modules.Keys) {
          var b1 := ListedMap(w, modules, e, o1);
          var b2 := ListedMap(w, modules, e, o2);
          AgreeingTextsFixText(w, modules, e, o1, o2, b1, b2);
        }
      }
    }
    if forall o1, o2 :: SameText(w, modules, e, o1, o2) {
      forall i, j | i in modules && j in modules && Renders(w, modules[i], e) && Renders(w, modules[j], e)
                    && NameOf(modules[i]) == NameOf(modules[j])
        ensures EntryText(w, NameOf(modules[i]), ConversionOf(w, modules[i]).m)
                == EntryText(w, NameOf(modules[i]), ConversionOf(w, modules[j]).m)
      {
        var order := SomeListing(modules.Keys);
        SomeMap(w, modules, e, order);
        var o1 := LastWins(w, modules, e, order, i);
        var o2 := LastWins(w, modules, e, order, j);
        assert SameText(w, modules, e, o1, o2);
        SameTextEntries(w, MapOf(w, o1, modules, e).value, MapOf(w, o2, modules, e).value, NameOf(modules[i]));
      }
    }
  }

  lemma SameTextEntries(w: World, a: map<string, ExporterModule>, b: map<string, ExporterModule>, name: string)
    requires ShowsEntries(w) && w.lib.render(a) == w.lib.render(b) && name in a && name in b
    ensures EntryText(w, name, a[name]) == EntryText(w, name, b[name])
  {
    assert SameTexts(w, a, b);
  }

  // ---- when the order of exporters matters ----

  /** No two exporters select the module. */
  ghost predicate OneSelector(exporters: map<Key, Exporter>, m: Module) {
    forall e, f :: e in exporters && f in exporters && Matches(m, exporters[e]) && Matches(m, exporters[f]) ==> e == f
  }

  lemma {:induction false} OnlyReference(exporters: map<Key, Exporter>, m: Module, order: seq<Key>, e: Key)
    requires e in exporters && Matches(m, exporters[e]) && (forall k :: k in order ==> k in exporters)
    requires (forall k :: k in exporters ==> exporters[k].meta.key == k) && OneSelector(exporters, m)
    requires forall i, j :: 0 <= i < j < |order| ==> order[i] != order[j]
    ensures Referencing(Items(order, exporters), m) == if e in order then [e] else []
    decreases |order|
  {
    hide Matches, OneSelector;
    if order != [] {
      var n := |order| - 1;
      var before, last := order[..n], order[n];
      assert order == before + [last];
      OneMoreReference(exporters, m, order);
      SoleMatch(exporters, m, e, last);
      hide Referencing, Items;
      OnlyReference(exporters, m, before, e);
    }
  }

  lemma SoleMatch(exporters: map<Key, Exporter>, m: Module, e: Key, k: Key)
    requires e in exporters && Matches(m, exporters[e]) && OneSelector(exporters, m) && k in exporters
    ensures Matches(m, exporters[k]) <==> k == e
  {
    hide Matches;
  }

  lemma OneMoreReference(exporters: map<Key, Exporter>, m: Module, order: seq<Key>)
    requires order != [] && (forall k :: k in order ==> k in exporters) && exporters[order[|order| - 1]].meta.key == order[|order| - 1]
    ensures var n := |order| - 1;
            Referencing(Items(order, exporters), m)
            == Referencing(Items(order[..n], exporters), m) + if Matches(m, exporters[order[n]]) then [order[n]] else []
  {
    hide Matches;
    assert Items(order, exporters)[..|order| - 1] == Items(order[..|order| - 1], exporters);
  }

  lemma FewReferences(exporters: map<Key, Exporter>, m: Module, o1: seq<Key>, o2: seq<Key>)
    requires Lists(o1, exporters.Keys) && Lists(o2, exporters.Keys)
    requires (forall k :: k in exporters ==> exporters[k].meta.key == k) && OneSelector(exporters, m)
    ensures Referencing(Items(o1, exporters), m) == Referencing(Items(o2, exporters), m)
  {
    hide Matches, OneSelector;
    if e :| e in exporters && Matches(m, exporters[e]) {
      OnlyReference(exporters, m, o1, e);
      OnlyReference(exporters, m, o2, e);
    } else {
      NoReferences(exporters, m, o1);
      NoReferences(exporters, m, o2);
    }
  }

  lemma {:induction false} NoReferences(exporters: map<Key, Exporter>, m: Module, order: seq<Key>)
    requires forall k :: k in order ==> k in exporters && !Matches(m, exporters[k])
    ensures Referencing(Items(order, exporters), m) == []
    decreases |order|
  {
    hide Matches;
    if order != [] {
      var n := |order| - 1;
      assert Items(order, exporters)[..n] == Items(order[..n], exporters);
      NoReferences(exporters, m, order[..n]);
    }
  }

  lemma {:induction false} FirstReference(all: seq<Exporter>, m: Module)
    requires all != [] && Matches(m, all[0])
    ensures Referencing(all, m) != [] && Referencing(all, m)[0] == all[0].meta.key
  {
    hide Matches;
    if |all| > 1 {
      FirstReference(all[..|all| - 1], m);
    }
  }

  /** A listing with e first names e first among the references. */
  lemma ListedFirst(exporters: map<Key, Exporter>, m: Module, e: Key) returns (order: seq<Key>)
    requires e in exporters && (forall k :: k in exporters ==> exporters[k].meta.key == k) && Matches(m, exporters[e])
    ensures Lists(order, exporters.Keys)
    ensures Referencing(Items(order, exporters), m) != [] && Referencing(Items(order, exporters), m)[0] == e
  {
    hide Matches;
    var rest := SomeListing(exporters.Keys - {e});
    order := [e] + rest;
    forall i, j | 0 <= i < j < |order| ensures order[i] != order[j] {
      if i == 0 {
        assert rest[j - 1] in rest;
      }
    }
    FirstReference(Items(order, exporters), m);
  }

  // ---- Reconciles under any order ----

  /** A Reconcile, with the order in which the List it makes is answered. */
  datatype FreePass =
    | OfModule(k: Key, order: seq<Key>, t1: int, t2: int)
    | OfExporter(k: Key, order: seq<Key>, t1: int, t2: int)

  ghost predicate Steady(s: State) {
    Synced(s) && WellKeyed(s.modules) && WellKeyed(s.exporters)
  }

  /** The key is queued, and the List may be answered in this order. */
  ghost predicate Possible(s: State, p: FreePass) {
    match p
    case OfModule(k, order, _, _) => k in s.modules.queue && Lists(order, s.exporters.stored.Keys)
    case OfExporter(k, order, _, _) => k in s.exporters.queue && Lists(order, s.modules.stored.Keys)
  }

  ghost function AfterFree(w: World, s: State, p: FreePass): State
    requires Steady(s) && Possible(s, p)
  {
    match p
    case OfModule(k, order, t1, t2) => ModulePass(w, s, k, order, t1, t2)
    case OfExporter(k, order, t1, t2) => ExporterPass(w, s, k, order, t1, t2)
  }

  ghost predicate FreeRun(w: World, s: State, passes: seq<FreePass>, end: State)
    decreases |passes|
  {
    if passes == [] then s == end
    else Steady(s) && Possible(s, passes[0]) && FreeRun(w, AfterFree(w, s, passes[0]), passes[1..], end)
  }

  ghost predicate OrderFree(w: World, s: State) {
    && (forall k :: k in s.modules.stored ==> OneSelector(s.exporters.stored, s.modules.stored[k]))
    && (forall e :: e in s.exporters.stored ==> TextsAgree(w, s.modules.stored, s.exporters.stored[e]))
  }

  lemma OrderFreeKept(w: World, s: State, t: State)
    requires SameObjects(s, t) && OrderFree(w, s)
    ensures OrderFree(w, t)
  {
    hide Matches, ConversionOf;
    forall k | k in t.modules.stored ensures OneSelector(t.exporters.stored, t.modules.stored[k]) {
      forall e | e in t.exporters.stored
        ensures Matches(s.modules.stored[k], s.exporters.stored[e]) <==> Matches(t.modules.stored[k], t.exporters.stored[e])
      {
        MatchesAlike(s, t, k, e);
      }
      assert OneSelector(s.exporters.stored, s.modules.stored[k]);
    }
    forall e | e in t.exporters.stored ensures TextsAgree(w, t.modules.stored, t.exporters.stored[e]) {
      assert TextsAgree(w, s.modules.stored, s.exporters.stored[e]);
      forall k | k in t.modules.stored
        ensures Renders(w, t.modules.stored[k], t.exporters.stored[e]) <==> Renders(w, s.modules.stored[k], s.exporters.stored[e])
        ensures NameOf(t.modules.stored[k]) == NameOf(s.modules.stored[k])
        ensures ConversionOf(w, t.modules.stored[k]) == ConversionOf(w, s.modules.stored[k])
      {
        MatchesAlike(s, t, k, e);
        AlikeEntries(w, s.modules.stored[k], t.modules.stored[k]);
      }
    }
  }

  lemma MatchesAlike(s: State, t: State, k: Key, e: Key)
    requires SameObjects(s, t) && k in s.modules.stored && e in s.exporters.stored
    ensures Matches(s.modules.stored[k], s.exporters.stored[e]) <==> Matches(t.modules.stored[k], t.exporters.stored[e])
  {
    hide Matches;
    MatchesByLabels(s.modules.stored[k], t.modules.stored[k], s.exporters.stored[e]);
    MatchesBySpec(t.modules.stored[k], s.exporters.stored[e], t.exporters.stored[e]);
  }

  /** Where no two exporters select the module, the order of the List makes no difference to its Reconcile. */
  lemma ModulePassAnyOrder(w: World, s: State, k: Key, o1: seq<Key>, o2: seq<Key>, t1: int, t2: int)
    requires Steady(s) && Lists(o1, s.exporters.stored.Keys) && Lists(o2, s.exporters.stored.Keys)
    requires k in s.modules.stored ==> OneSelector(s.exporters.stored, s.modules.stored[k])
    ensures ModulePass(w, s, k, o1, t1, t2) == ModulePass(w, s, k, o2, t1, t2)
  {
    hide Matches, Referencing, Items, ModuleReport, Convert, TouchAll, WriteStatus, Lists;
    if k in s.modules.stored {
      FewReferences(s.exporters.stored, s.modules.stored[k], o1, o2);
    }
  }

  lemma FreeModulePassDecreases(w: World, s: State, k: Key, order: seq<Key>, morder: seq<Key>, eorder: seq<Key>, t1: int, t2: int)
    requires Ready(s, morder, eorder) && NoPanics(w, s) && OrderFree(w, s) && k in s.modules.queue && Lists(order, s.exporters.stored.Keys)
    ensures var t := ModulePass(w, s, k, order, t1, t2);
            && Ready(t, morder, eorder) && NoPanics(w, t) && SameObjects(s, t)
            && Work(w, t, morder, eorder) < Work(w, s, morder, eorder)
  {
    hide ModulePass, Work, NoPanics, OneSelector, TextsAgree, Lists, SameObjects;
    ModulePassAnyOrder(w, s, k, order, eorder, t1, t2);
    ModulePassDecreases(w, s, k, morder, eorder, t1, t2);
    ModulePassKeepsObjects(w, s, k, morder, eorder, t1, t2);
  }

  /** Another map of the same size and text is as good. */
  lemma TextIsAllThatCounts(w: World, s: State, t: State, k: Key, x: Exporter, report: ExporterStatus,
                            b1: map<string, ExporterModule>, b2: map<string, ExporterModule>)
    requires k in s.exporters.stored && w.lib.render(b1) == w.lib.render(b2)
    requires OutputsAfter(w, s, t, k, x, b1) && ExportersAfter(w, s, t, k, report, b1)
    ensures OutputsAfter(w, s, t, k, x, b2) && ExportersAfter(w, s, t, k, report, b2)
  {
  }

  lemma StoredExporterDecreases(w: World, s: State, k: Key, order: seq<Key>, morder: seq<Key>, eorder: seq<Key>, t1: int, t2: int)
    requires Ready(s, morder, eorder) && NoPanics(w, s) && Lists(order, s.modules.stored.Keys)
    requires k in s.exporters.queue && k in s.exporters.stored
    requires MapFor(w, s, order, s.exporters.stored[k]).Some? && MapFor(w, s, morder, s.exporters.stored[k]).Some?
    requires var b1, b2 := MapFor(w, s, order, s.exporters.stored[k]).value, MapFor(w, s, morder, s.exporters.stored[k]).value;
             w.lib.render(b1) == w.lib.render(b2) && |b1| == |b2|
    ensures var t := ExporterPass(w, s, k, order, t1, t2);
            && Ready(t, morder, eorder) && t.modules == s.modules
            && Work(w, t, morder, eorder) < Work(w, s, morder, eorder)
  {
    hide ExporterPass, ExporterReport, NoPanics, MapFor, UnfixedModules, UnfixedExporters, Lists, ExportersAfter, OutputsAfter;
    var t := ExporterPass(w, s, k, order, t1, t2);
    var x := s.exporters.stored[k];
    var b1, b2 := MapFor(w, s, order, x).value, MapFor(w, s, morder, x).value;
    var report := ExporterReport(x, |b2|, Observed(s.out, k), t1, t2);
    ExporterPassEffect(w, s, k, order, t1, t2);
    TextIsAllThatCounts(w, s, t, k, x, report, b1, b2);
    ExporterPassWork(w, s, t, morder, k, t1, t2);
    PassedExporterReady(w, s, t, k, morder, eorder, report, b2);
    hide ExporterWork, Work;
    SameUnfixedModules(w, s, t, eorder);
    WorkLess(w, s, t, morder, eorder);
  }

  lemma MapForAnyOrder(w: World, s: State, e: Key, o1: seq<Key>, o2: seq<Key>)
    requires ShowsEntries(w) && NoPanics(w, s) && e in s.exporters.stored && TextsAgree(w, s.modules.stored, s.exporters.stored[e])
    requires Lists(o1, s.modules.stored.Keys) && Lists(o2, s.modules.stored.Keys)
    ensures MapFor(w, s, o1, s.exporters.stored[e]).Some? && MapFor(w, s, o2, s.exporters.stored[e]).Some?
    ensures var b1, b2 := MapFor(w, s, o1, s.exporters.stored[e]).value, MapFor(w, s, o2, s.exporters.stored[e]).value;
            w.lib.render(b1) == w.lib.render(b2) && |b1| == |b2|
  {
    hide TextsAgree, ModuleMap, Selected, Items, Lists, DryRun, RendersRight;
    var ms, x := s.modules.stored, s.exporters.stored[e];
    var b1 := ListedMap(w, ms, x, o1);
    var b2 := ListedMap(w, ms, x, o2);
    AgreeingTextsFixText(w, ms, x, o1, o2, b1, b2);
    SameNames(w, ms, x, o1, o2, b1, b2);
    assert |b1| == |b1.Keys| && |b2| == |b2.Keys|;
  }

  lemma FreeExporterPassDecreases(w: World, s: State, k: Key, order: seq<Key>, morder: seq<Key>, eorder: seq<Key>, t1: int, t2: int)
    requires ShowsEntries(w) && Ready(s, morder, eorder) && NoPanics(w, s) && OrderFree(w, s) && k in s.exporters.queue && Lists(order, s.modules.stored.Keys)
    ensures var t := ExporterPass(w, s, k, order, t1, t2);
            && Ready(t, morder, eorder) && NoPanics(w, t) && SameObjects(s, t)
            && Work(w, t, morder, eorder) < Work(w, s, morder, eorder)
  {
    hide ExporterPass, DryRun, Lists, OneSelector, TextsAgree, UnfixedModules, UnfixedExporters, ShowsEntries;
    ExporterPassKeepsObjects(w, s, k, order, eorder, t1, t2);
    if k in s.exporters.stored {
      MapForAnyOrder(w, s, k, order, morder);
      StoredExporterDecreases(w, s, k, order, morder, eorder, t1, t2);
    } else {
      ExporterPassIdle(w, s, k, order, t1, t2);
      ExporterPassIdle(w, s, k, morder, t1, t2);
      ExporterPassDecreases(w, s, k, morder, eorder, t1, t2);
    }
  }

  /** With these two conditions, no answer of the informers keeps the operator busy for longer than the work there is. */
  lemma {:induction false} FreeRunBounded(w: World, s: State, passes: seq<FreePass>, end: State, morder: seq<Key>, eorder: seq<Key>)
    requires ShowsEntries(w) && Ready(s, morder, eorder) && NoPanics(w, s) && OrderFree(w, s) && FreeRun(w, s, passes, end)
    ensures |passes| <= Work(w, s, morder, eorder)
    decreases |passes|
  {
    hide ModulePass, ExporterPass, Work, NoPanics, OrderFree, SameObjects, Lists, ShowsEntries;
    if passes != [] {
      match passes[0] {
        case OfModule(k, order, t1, t2) => FreeModulePassDecreases(w, s, k, order, morder, eorder, t1, t2);
        case OfExporter(k, order, t1, t2) => FreeExporterPassDecreases(w, s, k, order, morder, eorder, t1, t2);
      }
      var t := AfterFree(w, s, passes[0]);
      OrderFreeKept(w, s, t);
      FreeRunBounded(w, t, passes[1..], end, morder, eorder);
    }
  }

  // ---- otherwise it can go on forever ----

  lemma Onward(w: World, s: State, p: FreePass, rest: seq<FreePass>, end: State) returns (passes: seq<FreePass>)
    requires Steady(s) && Possible(s, p) && FreeRun(w, AfterFree(w, s, p), rest, end)
    ensures FreeRun(w, s, passes, end) && |passes| == |rest| + 1
  {
    hide Steady, Possible, AfterFree;
    passes := [p] + rest;
    assert passes[1..] == rest;
  }

  /** Two exporters select the module: some order of the List gives references that the status does not hold yet. */
  lemma AnotherOrder(s: State, k: Key, e: Key, f: Key) returns (order: seq<Key>)
    requires WellKeyed(s.exporters) && k in s.modules.stored && e != f && e in s.exporters.stored && f in s.exporters.stored
    requires Matches(s.modules.stored[k], s.exporters.stored[e]) && Matches(s.modules.stored[k], s.exporters.stored[f])
    ensures Lists(order, s.exporters.stored.Keys)
    ensures References(s, order, s.modules.stored[k]) != s.modules.stored[k].status.referencedByExporters
  {
    hide Matches, Referencing, Items, Lists;
    var m := s.modules.stored[k];
    var o1 := ListedFirst(s.exporters.stored, m, e);
    var o2 := ListedFirst(s.exporters.stored, m, f);
    order := if References(s, o1, m) != m.status.referencedByExporters then o1 else o2;
  }

  lemma AnotherModulePass(w: World, s: State, k: Key, e: Key, f: Key) returns (p: FreePass)
    requires Steady(s) && NoPanics(w, s) && k in s.modules.queue && k in s.modules.stored
    requires e != f && e in s.exporters.stored && f in s.exporters.stored
    requires Matches(s.modules.stored[k], s.exporters.stored[e]) && Matches(s.modules.stored[k], s.exporters.stored[f])
    ensures Possible(s, p)
    ensures var t := AfterFree(w, s, p);
            Steady(t) && NoPanics(w, t) && SameObjects(s, t) && k in t.modules.queue && k in t.modules.stored
  {
    hide ModulePass, ModuleReport, DryRun, Matches, References, Lists, AlikeModules, SameSelectors, NoPanics;
    var m := s.modules.stored[k];
    var order := AnotherOrder(s, k, e, f);
    p := OfModule(k, order, 0, 0);
    StoredDryRun(w, s, k);
    ReportRefs(DryRun(w, m), m, References(s, order, m), 0, 0);
    ModulePassEffect(w, s, k, order, 0, 0);
    var t := AfterFree(w, s, p);
    ModuleKeysKept(s, t, k, ModuleReport(DryRun(w, m), m, References(s, order, m), 0, 0));
    var morder := SomeListing(s.modules.stored.Keys);
    ModulePassKeepsObjects(w, s, k, morder, order, 0, 0);
    AlikePanicsAlike(w, s, t);
  }

  lemma StoredDryRun(w: World, s: State, k: Key)
    requires NoPanics(w, s) && k in s.modules.stored
    ensures !DryRun(w, s.modules.stored[k]).Panics?
  {
  }

  lemma {:induction false} ModuleNeverRests(w: World, s: State, k: Key, e: Key, f: Key, n: nat) returns (passes: seq<FreePass>, end: State)
    requires Steady(s) && NoPanics(w, s) && k in s.modules.queue && k in s.modules.stored
    requires e != f && e in s.exporters.stored && f in s.exporters.stored
    requires Matches(s.modules.stored[k], s.exporters.stored[e]) && Matches(s.modules.stored[k], s.exporters.stored[f])
    ensures FreeRun(w, s, passes, end) && |passes| == n
    decreases n
  {
    hide Steady, NoPanics, AfterFree, Matches;
    if n == 0 {
      passes, end := [], s;
    } else {
      var p := AnotherModulePass(w, s, k, e, f);
      var t := AfterFree(w, s, p);
      MatchesAlike(s, t, k, e);
      MatchesAlike(s, t, k, f);
      var rest;
      rest, end := ModuleNeverRests(w, t, k, e, f, n - 1);
      passes := Onward(w, s, p, rest, end);
    }
  }

  /** Modules of the same name read differently: some order of the List gives a text the ConfigMap does not hold yet. */
  lemma AnotherText(w: World, s: State, e: Key) returns (order: seq<Key>)
    requires NoPanics(w, s) && ShowsEntries(w) && e in s.exporters.stored
    requires !TextsAgree(w, s.modules.stored, s.exporters.stored[e])
    ensures Lists(order, s.modules.stored.Keys) && MapFor(w, s, order, s.exporters.stored[e]).Some?
    ensures !OutputsFixed(w, s, e, s.exporters.stored[e], MapFor(w, s, order, s.exporters.stored[e]).value)
  {
    hide DryRun, TextsAgree, ModuleMap, Selected, Items, Lists, ShowsEntries;
    var x := s.exporters.stored[e];
    TextFixedExactly(w, s.modules.stored, x);
    var o1, o2 :| !SameText(w, s.modules.stored, x, o1, o2);
    order := if e in s.out.configs && s.out.configs[e] == w.lib.render(MapFor(w, s, o1, x).value) then o2 else o1;
  }

  lemma AnotherExporterPass(w: World, s: State, e: Key) returns (p: FreePass)
    requires Steady(s) && NoPanics(w, s) && ShowsEntries(w) && e in s.exporters.queue && e in s.exporters.stored
    requires !TextsAgree(w, s.modules.stored, s.exporters.stored[e])
    ensures Possible(s, p)
    ensures var t := AfterFree(w, s, p);
            Steady(t) && NoPanics(w, t) && SameObjects(s, t) && e in t.exporters.queue && e in t.exporters.stored
  {
    hide ExporterPass, ExporterReport, MapFor, OutputsFixed, TextsAgree, Lists, AlikeModules, SameSelectors, NoPanics, ShowsEntries;
    var order := AnotherText(w, s, e);
    p := OfExporter(e, order, 0, 0);
    ExporterPassEffect(w, s, e, order, 0, 0);
    var eorder := SomeListing(s.exporters.stored.Keys);
    ExporterPassKeepsObjects(w, s, e, order, eorder, 0, 0);
    AlikePanicsAlike(w, s, AfterFree(w, s, p));
  }

  lemma {:induction false} ExporterNeverRests(w: World, s: State, e: Key, n: nat) returns (passes: seq<FreePass>, end: State)
    requires Steady(s) && NoPanics(w, s) && ShowsEntries(w) && e in s.exporters.queue && e in s.exporters.stored
    requires !TextsAgree(w, s.modules.stored, s.exporters.stored[e])
    ensures FreeRun(w, s, passes, end) && |passes| == n
    decreases n
  {
    hide Steady, NoPanics, AfterFree, TextsAgree, ShowsEntries;
    if n == 0 {
      passes, end := [], s;
    } else {
      var p := AnotherExporterPass(w, s, e);
      var t := AfterFree(w, s, p);
      DisagreementKept(w, s, t, e);
      var rest;
      rest, end := ExporterNeverRests(w, t, e, n - 1);
      passes := Onward(w, s, p, rest, end);
    }
  }

  lemma DisagreementKept(w: World, s: State, t: State, e: Key)
    requires SameObjects(s, t) && e in s.exporters.stored
    ensures TextsAgree(w, s.modules.stored, s.exporters.stored[e]) <==> TextsAgree(w, t.modules.stored, t.exporters.stored[e])
  {
    hide Matches, ConversionOf;
    forall k | k in s.modules.stored
      ensures Renders(w, t.modules.stored[k], t.exporters.stored[e]) <==> Renders(w, s.modules.stored[k], s.exporters.stored[e])
      ensures NameOf(t.modules.stored[k]) == NameOf(s.modules.stored[k])
      ensures ConversionOf(w, t.modules.stored[k]) == ConversionOf(w, s.modules.stored[k])
    {
      MatchesAlike(s, t, k, e);
      AlikeEntries(w, s.modules.stored[k], t.modules.stored[k]);
    }
  }

  // ---- the exact condition ----

  /** Every stored object is queued, as after a start of the operator: the first List of an informer queues what it finds. */
  ghost predicate Started(s: State) {
    Steady(s) && s.modules.stored.Keys <= s.modules.queue && s.exporters.stored.Keys <= s.exporters.queue
  }

  ghost predicate Bounded(w: World, s: State, n: nat) {
    forall passes, end :: FreeRun(w, s, passes, end) ==> |passes| <= n
  }

  /** A module that panics is retried forever. */
  lemma {:induction false} PanicNeverRests(w: World, s: State, k: Key, n: nat) returns (passes: seq<FreePass>)
    requires Steady(s) && k in s.modules.queue && k in s.modules.stored && DryRun(w, s.modules.stored[k]).Panics?
    ensures FreeRun(w, s, passes, s) && |passes| == n
    decreases n
  {
    hide ModulePass, DryRun, Lists;
    if n == 0 {
      passes := [];
    } else {
      var order := SomeListing(s.exporters.stored.Keys);
      ModulePassIdle(w, s, k, order, 0, 0);
      var rest := PanicNeverRests(w, s, k, n - 1);
      passes := Onward(w, s, OfModule(k, order, 0, 0), rest, s);
    }
  }

  lemma LongRun(w: World, s: State, n: nat) returns (passes: seq<FreePass>, end: State)
    requires Started(s) && ShowsEntries(w) && !(NoPanics(w, s) && OrderFree(w, s))
    ensures FreeRun(w, s, passes, end) && |passes| == n
  {
    hide ShowsEntries, FreeRun, TextsAgree, Matches, DryRun;
    if k :| k in s.modules.stored && DryRun(w, s.modules.stored[k]).Panics? {
      end := s;
      passes := PanicNeverRests(w, s, k, n);
    } else if k :| k in s.modules.stored && !OneSelector(s.exporters.stored, s.modules.stored[k]) {
      var e, f :| e in s.exporters.stored && f in s.exporters.stored && e != f
                  && Matches(s.modules.stored[k], s.exporters.stored[e]) && Matches(s.modules.stored[k], s.exporters.stored[f]);
      passes, end := ModuleNeverRests(w, s, k, e, f, n);
    } else {
      var e :| e in s.exporters.stored && !TextsAgree(w, s.modules.stored, s.exporters.stored[e]);
      passes, end := ExporterNeverRests(w, s, e, n);
    }
  }

  /** After a start, the operator comes to rest within a fixed number of Reconciles, however the Lists are ordered,
      exactly if no module panics, none is selected by two exporters, and no exporter renders two modules of one name
      in different words. */
  lemma RestsUnderAnyOrderExactly(w: World, s: State)
    requires Started(s) && ShowsEntries(w)
    ensures (exists n :: Bounded(w, s, n)) <==> NoPanics(w, s) && OrderFree(w, s)
  {
    hide NoPanics, ShowsEntries, FreeRun, OrderFree;
    if NoPanics(w, s) && OrderFree(w, s) {
      var morder := SomeListing(s.modules.stored.Keys);
      var eorder := SomeListing(s.exporters.stored.Keys);
      forall passes, end | FreeRun(w, s, passes, end) ensures |passes| <= Work(w, s, morder, eorder) {
        FreeRunBounded(w, s, passes, end, morder, eorder);
      }
      assert Bounded(w, s, Work(w, s, morder, eorder));
    } else {
      forall n: nat ensures !Bounded(w, s, n) {
        var passes, end := LongRun(w, s, n + 1);
      }
    }
  }

  lemma {:induction false} FreeRunCovered(w: World, s: State, passes: seq<FreePass>, end: State) returns (steps: seq<Step>)
    requires Sound(w, s) && FreeRun(w, s, passes, end)
    ensures CoveredRun(w, s, steps, end)
    decreases |passes|
  {
    hide ModulePass, ExporterPass, Sound, CoveredRun, Lists;
    if passes == [] {
      steps := [];
      EmptyRun(w, s);
    } else {
      var t := AfterFree(w, s, passes[0]);
      match passes[0] {
        case OfModule(k, order, t1, t2) => steps := ModulePassRuns(w, s, k, order, t1, t2);
        case OfExporter(k, order, t1, t2) => steps := ExporterPassRuns(w, s, k, order, t1, t2);
      }
      CoveredRunSound(w, s, steps, t);
      var rest := FreeRunCovered(w, t, passes[1..], end);
      CoveredConcat(w, s, steps, t, rest, end);
      steps := steps + rest;
    }
  }

  /** And if it does come to rest, every ConfigMap is right, whatever the orders were. */
  lemma RestUnderAnyOrderIsRight(w: World, history: seq<Step>, s: State, passes: seq<FreePass>, end: State, e: Key)
    requires CoveredRun(w, START, history, s) && FreeRun(w, s, passes, end) && Settled(end)
    requires e in end.exporters.stored
    ensures e in end.out.configs && RightConfig(w, end.modules.stored, end.exporters.stored[e], end.out.configs[e])
  {
    hide CoveredRun, FreeRun, Sound, Served, Settled, RightConfig;
    ReachableServed(w, history, s);
    var steps := FreeRunCovered(w, s, passes, end);
    RunKeeps(w, s, steps, end);
    SettledIsRight(w, end, e);
  }
}
