/** Rest can always be reached, from an empty cluster on; and an exporter nobody wakes stays as it is. */
module Rest {
  import opened Base
  import opened Api
  import opened Selector
  import opened Converter
  import opened Rendering
  import opened Reports
  import opened ApiServer
  import opened Steps
  import opened LostUpdates
  import opened Convergence
  import opened Outcome
  import opened Passes
  import opened Termination
  import opened Wakeups

  /** The same objects with the same keys and specs, the modules with the same labels. */
  ghost predicate SameObjects(s: State, t: State) {
    AlikeModules(s.modules.stored, t.modules.stored) && SameSelectors(s.exporters.stored, t.exporters.stored)
  }

  lemma ModulePassKeepsObjects(w: World, s: State, k: Key, morder: seq<Key>, eorder: seq<Key>, t1: int, t2: int)
    requires Ready(s, morder, eorder) && k in s.modules.queue
    ensures SameObjects(s, ModulePass(w, s, k, eorder, t1, t2))
  {
    hide ModulePass, ModuleReport, Convert, Referencing, Items;
    ModulePassIdle(w, s, k, eorder, t1, t2);
    if k in s.modules.stored && !DryRun(w, s.modules.stored[k]).Panics? {
      ModulePassEffect(w, s, k, eorder, t1, t2);
    }
  }

  lemma ExporterPassKeepsObjects(w: World, s: State, k: Key, morder: seq<Key>, eorder: seq<Key>, t1: int, t2: int)
    requires Ready(s, morder, eorder) && k in s.exporters.queue
    ensures SameObjects(s, ExporterPass(w, s, k, morder, t1, t2))
  {
    hide ExporterPass, Items, ModuleMap, Selected, ExporterReport, OutputsFixed;
    ExporterPassIdle(w, s, k, morder, t1, t2);
    if k in s.exporters.stored && MapFor(w, s, morder, s.exporters.stored[k]).Some? {
      ExporterPassEffect(w, s, k, morder, t1, t2);
    }
  }

  lemma ObjectsReflexive(s: State)
    ensures SameObjects(s, s)
  {
  }

  lemma ObjectsTransitive(s: State, t: State, u: State)
    requires SameObjects(s, t) && SameObjects(t, u)
    ensures SameObjects(s, u)
  {
  }

  lemma EmptyQueuesAreRest(s: State, morder: seq<Key>, eorder: seq<Key>)
    requires Ready(s, morder, eorder) && s.modules.queue == {} && s.exporters.queue == {}
    ensures Settled(s)
  {
  }

  lemma PassGoesOn(w: World, s: State, p: Pass, morder: seq<Key>, eorder: seq<Key>)
    requires Ready(s, morder, eorder) && NoPanics(w, s) && Queued(s, p)
    ensures var t := AfterPass(w, s, p, morder, eorder);
            && Ready(t, morder, eorder) && NoPanics(w, t) && SameObjects(s, t)
            && Work(w, t, morder, eorder) < Work(w, s, morder, eorder)
  {
    hide ModulePass, ExporterPass, Ready, NoPanics, Work, SameObjects;
    match p {
      case ModuleReconcile(k, t1, t2) =>
        ModulePassDecreases(w, s, k, morder, eorder, t1, t2);
        ModulePassKeepsObjects(w, s, k, morder, eorder, t1, t2);
      case ExporterReconcile(k, t1, t2) =>
        ExporterPassDecreases(w, s, k, morder, eorder, t1, t2);
        ExporterPassKeepsObjects(w, s, k, morder, eorder, t1, t2);
    }
  }

  /** Some sequence of Reconciles brings the operator to rest, and no Reconcile changes what users wrote. */
  lemma {:induction false} RestReached(w: World, s: State, morder: seq<Key>, eorder: seq<Key>) returns (passes: seq<Pass>, end: State)
    requires Ready(s, morder, eorder) && NoPanics(w, s)
    ensures PassRun(w, s, passes, end, morder, eorder) && Settled(end) && SameObjects(s, end)
    decreases Work(w, s, morder, eorder)
  {
    hide Ready, NoPanics, Work, AfterPass, Settled, SameObjects;
    if s.modules.queue == {} && s.exporters.queue == {} {
      passes, end := [], s;
      EmptyQueuesAreRest(s, morder, eorder);
      ObjectsReflexive(s);
    } else {
      var p;
      if s.modules.queue != {} {
        var k :| k in s.modules.queue;
        p := ModuleReconcile(k, 0, 0);
      } else {
        var k :| k in s.exporters.queue;
        p := ExporterReconcile(k, 0, 0);
      }
      var t := AfterPass(w, s, p, morder, eorder);
      PassGoesOn(w, s, p, morder, eorder);
      var rest;
      rest, end := RestReached(w, t, morder, eorder);
      ObjectsTransitive(s, t, end);
      passes := [p] + rest;
      assert passes[1..] == rest;
    }
  }

  /** No sequence of Reconciles changes what users wrote. */
  lemma {:induction false} RunKeepsObjects(w: World, s: State, passes: seq<Pass>, end: State, morder: seq<Key>, eorder: seq<Key>)
    requires PassRun(w, s, passes, end, morder, eorder)
    ensures SameObjects(s, end)
    decreases |passes|
  {
    hide ModulePass, ExporterPass, Ready, SameObjects;
    if passes == [] {
      ObjectsReflexive(s);
    } else {
      var t := AfterPass(w, s, passes[0], morder, eorder);
      match passes[0] {
        case ModuleReconcile(k, t1, t2) => ModulePassKeepsObjects(w, s, k, morder, eorder, t1, t2);
        case ExporterReconcile(k, t1, t2) => ExporterPassKeepsObjects(w, s, k, morder, eorder, t1, t2);
      }
      RunKeepsObjects(w, t, passes[1..], end, morder, eorder);
      ObjectsTransitive(s, t, end);
    }
  }

  // ---- an exporter nobody wakes ----

  /** The exporter is not queued, and no queued module is selected by it. */
  ghost predicate Unwoken(s: State, e: Key) {
    && e in s.exporters.stored && e !in s.exporters.queue
    && (forall k :: k in s.modules.queue && k in s.modules.stored ==> !Matches(s.modules.stored[k], s.exporters.stored[e]))
  }

  ghost predicate SameConfig(s: State, t: State, e: Key) {
    (e in s.out.configs <==> e in t.out.configs) && (e in s.out.configs ==> t.out.configs[e] == s.out.configs[e])
  }

  lemma ModulePassKeepsUnwoken(w: World, s: State, k: Key, morder: seq<Key>, eorder: seq<Key>, t1: int, t2: int, e: Key)
    requires Ready(s, morder, eorder) && k in s.modules.queue && Unwoken(s, e)
    ensures var t := ModulePass(w, s, k, eorder, t1, t2); Unwoken(t, e) && SameConfig(s, t, e)
  {
    hide ModulePass, ModuleReport, Convert, Referencing, Items, Matches;
    var t := ModulePass(w, s, k, eorder, t1, t2);
    ModulePassIdle(w, s, k, eorder, t1, t2);
    if k in s.modules.stored && !DryRun(w, s.modules.stored[k]).Panics? {
      ModulePassEffect(w, s, k, eorder, t1, t2);
      PassTouchesExactlyMatching(w, s, k, eorder, t1, t2, e);
      MatchesByLabels(s.modules.stored[k], t.modules.stored[k], s.exporters.stored[e]);
    }
  }

  lemma ExporterPassKeepsUnwoken(w: World, s: State, k: Key, morder: seq<Key>, eorder: seq<Key>, t1: int, t2: int, e: Key)
    requires Ready(s, morder, eorder) && k in s.exporters.queue && Unwoken(s, e)
    ensures var t := ExporterPass(w, s, k, morder, t1, t2); Unwoken(t, e) && SameConfig(s, t, e)
  {
    hide ExporterPass, ModuleMap, Selected, Items, ExporterReport, OutputsFixed, Matches;
    ExporterPassIdle(w, s, k, morder, t1, t2);
    if k in s.exporters.stored && MapFor(w, s, morder, s.exporters.stored[k]).Some? {
      ExporterPassEffect(w, s, k, morder, t1, t2);
    }
  }

  /** An exporter that is not queued and selects no queued module keeps its ConfigMap through every sequence of
      Reconciles, whatever it should hold. */
  lemma {:induction false} UnwokenStays(w: World, s: State, passes: seq<Pass>, end: State, morder: seq<Key>, eorder: seq<Key>, e: Key)
    requires PassRun(w, s, passes, end, morder, eorder) && Unwoken(s, e)
    ensures Unwoken(end, e) && SameConfig(s, end, e)
    decreases |passes|
  {
    hide ModulePass, ExporterPass, Unwoken, Ready;
    if passes != [] {
      match passes[0] {
        case ModuleReconcile(k, t1, t2) => ModulePassKeepsUnwoken(w, s, k, morder, eorder, t1, t2, e);
        case ExporterReconcile(k, t1, t2) => ExporterPassKeepsUnwoken(w, s, k, morder, eorder, t1, t2, e);
      }
      UnwokenStays(w, AfterPass(w, s, passes[0], morder, eorder), passes[1..], end, morder, eorder, e);
    }
  }

  // ---- from an empty cluster ----

  /** One module and one exporter as users create them, seen by the informers. */
  function Fresh(m: Module, x: Exporter): State {
    State(2, Store(map[m.meta.key := m], map[m.meta.key := m], map[1 := m], {m.meta.key}),
          Store(map[x.meta.key := x], map[x.meta.key := x], map[2 := x], {x.meta.key}),
          Outputs(map[], map[], map[], map[]), ModuleIdle, ExporterIdle)
  }

  ghost predicate New(m: Module, x: Exporter) {
    && m == Stamped(Created(m.meta.key, m.meta.labels, m.meta.annotations, m.spec, NEW_MODULE_STATUS), 1)
    && x == Stamped(Created(x.meta.key, x.meta.labels, x.meta.annotations, x.spec, NEW_EXPORTER_STATUS), 2)
    && TOUCH !in x.meta.annotations
  }

  lemma FreshRun(w: World, m: Module, x: Exporter) returns (steps: seq<Step>)
    requires New(m, x)
    ensures CoveredRun(w, START, steps, Fresh(m, x))
  {
    var c, d := ModuleDelivered(m.meta.key, 1), ExporterDelivered(x.meta.key, 2);
    var s1 := START.(clock := 1, modules := Store(map[m.meta.key := m], map[], map[1 := m], {}));
    var s2 := s1.(clock := 2, exporters := Store(map[x.meta.key := x], map[], map[2 := x], {}));
    var s3 := s2.(modules := Fresh(m, x).modules);
    var a, b := FreshCreation(w, m, x, s1, s2);
    assert Covered(s2, c) && Apply(w, s2, c) == s3;
    assert Covered(s3, d) && Apply(w, s3, d) == Fresh(m, x);
    hide Apply, Covered, Enabled;
    CoveredPair(w, START, a, s1, b, s2);
    CoveredPair(w, s2, c, s3, d, Fresh(m, x));
    CoveredConcat(w, START, [a, b], s2, [c, d], Fresh(m, x));
    steps := [a, b] + [c, d];
  }

  lemma FreshCreation(w: World, m: Module, x: Exporter, s1: State, s2: State) returns (a: Step, b: Step)
    requires New(m, x)
    requires s1 == START.(clock := 1, modules := Store(map[m.meta.key := m], map[], map[1 := m], {}))
    requires s2 == s1.(clock := 2, exporters := Store(map[x.meta.key := x], map[], map[2 := x], {}))
    ensures Enabled(START, a) && Covered(START, a) && Apply(w, START, a) == s1
    ensures Enabled(s1, b) && Covered(s1, b) && Apply(w, s1, b) == s2
  {
    a := UserCreatesModule(m.meta.key, m.meta.labels, m.meta.annotations, m.spec);
    b := UserCreatesExporter(x.meta.key, x.meta.labels, x.meta.annotations, x.spec);
  }

  lemma CoveredPair(w: World, s: State, a: Step, t: State, b: Step, u: State)
    requires Enabled(s, a) && Covered(s, a) && Apply(w, s, a) == t
    requires Enabled(t, b) && Covered(t, b) && Apply(w, t, b) == u
    ensures CoveredRun(w, s, [a, b], u)
  {
    hide Apply, Covered, Enabled;
    assert [a, b][1..] == [b] && [b][1..] == [];
    assert CoveredRun(w, u, [], u);
    assert CoveredRun(w, t, [b], u);
  }

  /** From an empty cluster a user can create any module and exporter whose conversion does not panic, and a covered
      run leads to rest with both in place. */
  lemma FreshClusterRests(w: World, m: Module, x: Exporter) returns (steps: seq<Step>, end: State)
    requires New(m, x) && !DryRun(w, m).Panics?
    ensures CoveredRun(w, START, steps, end) && Settled(end) && SameObjects(Fresh(m, x), end)
  {
    hide CoveredRun, PassRun, DryRun, Settled, SameObjects, Sound;
    var s := Fresh(m, x);
    assert Ready(s, [m.meta.key], [x.meta.key]) && NoPanics(w, s);
    steps := FreshRun(w, m, x);
    var passes;
    passes, end := RestReached(w, s, [m.meta.key], [x.meta.key]);
    ReachableServed(w, steps, s);
    var more := PassesCovered(w, s, passes, end, [m.meta.key], [x.meta.key]);
    CoveredConcat(w, START, steps, s, more, end);
    steps := steps + more;
  }

  lemma FreshKept(w: World, m: Module, x: Exporter, s: State)
    requires SameObjects(Fresh(m, x), s)
    ensures s.modules.stored.Keys == {m.meta.key} && s.exporters.stored.Keys == {x.meta.key}
    ensures Matches(s.modules.stored[m.meta.key], s.exporters.stored[x.meta.key]) == Matches(m, x)
    ensures Convertible(w, s.modules.stored[m.meta.key]) == Convertible(w, m)
    ensures OnlyBearer(w, s.modules.stored, s.exporters.stored[x.meta.key], m.meta.key)
  {
    hide ConversionOf, Matches;
    var n, y := s.modules.stored[m.meta.key], s.exporters.stored[x.meta.key];
    assert Fresh(m, x).modules.stored.Keys == {m.meta.key} && Fresh(m, x).exporters.stored.Keys == {x.meta.key};
    MatchesByLabels(m, n, x);
    MatchesBySpec(n, x, y);
    AlikeEntries(w, m, n);
  }
}
