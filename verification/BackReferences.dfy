/** status.referencedByExporters: when it names exactly the exporters that select the module. */
module BackReferences {
  import opened Base
  import opened Api
  import opened Selector
  import opened Converter
  import opened Rendering
  import opened Reports
  import opened ApiServer
  import opened Steps
  import opened LostUpdates
  import opened Convergence
  import opened Outcome
  import opened Passes
  import opened Termination
  import opened Wakeups
  import opened Rest

  ghost predicate SelectsNow(s: State, e: Key, k: Key)
    requires k in s.modules.stored
  {
    e in s.exporters.stored && Matches(s.modules.stored[k], s.exporters.stored[e])
  }

  /** What the documentation says of the field: it lists the exporters that include this module. */
  ghost predicate ReferencesRight(s: State, k: Key)
    requires k in s.modules.stored
  {
    forall e :: e in s.modules.stored[k].status.referencedByExporters <==> SelectsNow(s, e, k)
  }

  // ---- what Reconciles make of it ----

  lemma SameSelection(s: State, t: State, k: Key)
    requires SameObjects(s, t) && k in s.modules.stored
    ensures forall e :: SelectsNow(s, e, k) <==> SelectsNow(t, e, k)
  {
    hide Matches;
    forall e | e in s.exporters.stored
      ensures Matches(s.modules.stored[k], s.exporters.stored[e]) <==> Matches(t.modules.stored[k], t.exporters.stored[e])
    {
      MatchesByLabels(s.modules.stored[k], t.modules.stored[k], s.exporters.stored[e]);
      MatchesBySpec(t.modules.stored[k], s.exporters.stored[e], t.exporters.stored[e]);
    }
  }

  /** A Reconcile of the module gets its references right. */
  lemma PassRecordsReferences(w: World, s: State, k: Key, morder: seq<Key>, eorder: seq<Key>, t1: int, t2: int)
    requires Ready(s, morder, eorder) && k in s.modules.queue && k in s.modules.stored && !DryRun(w, s.modules.stored[k]).Panics?
    ensures var t := ModulePass(w, s, k, eorder, t1, t2); k in t.modules.stored && ReferencesRight(t, k)
  {
    hide ModulePass, ModuleReport, DryRun, Matches, Referencing, Items, SameObjects;
    var m, t := s.modules.stored[k], ModulePass(w, s, k, eorder, t1, t2);
    ModulePassEffect(w, s, k, eorder, t1, t2);
    ReportRefs(DryRun(w, m), m, References(s, eorder, m), t1, t2);
    ReferencesDistinct(eorder, s.exporters.stored, m);
    ModulePassKeepsObjects(w, s, k, morder, eorder, t1, t2);
    SameSelection(s, t, k);
  }

  /** Any other Reconcile leaves them, and the module's place in the queue, as they were. */
  lemma OtherPassKeepsReferences(w: World, s: State, p: Pass, morder: seq<Key>, eorder: seq<Key>, k: Key)
    requires Ready(s, morder, eorder) && Queued(s, p) && k in s.modules.stored && !(p.ModuleReconcile? && p.k == k)
    ensures var t := AfterPass(w, s, p, morder, eorder);
            && k in t.modules.stored && t.modules.stored[k] == s.modules.stored[k]
            && (k in t.modules.queue <==> k in s.modules.queue)
            && (ReferencesRight(t, k) <==> ReferencesRight(s, k))
  {
    hide ModulePass, ExporterPass, ModuleReport, DryRun, References, MapFor, ExporterReport, SameObjects, SelectsNow;
    var t := AfterPass(w, s, p, morder, eorder);
    match p {
      case ModuleReconcile(j, t1, t2) =>
        ModulePassIdle(w, s, j, eorder, t1, t2);
        ModulePassKeepsObjects(w, s, j, morder, eorder, t1, t2);
        if j in s.modules.stored && !DryRun(w, s.modules.stored[j]).Panics? {
          ModulePassEffect(w, s, j, eorder, t1, t2);
        }
      case ExporterReconcile(j, t1, t2) =>
        ExporterPassIdle(w, s, j, morder, t1, t2);
        ExporterPassKeepsObjects(w, s, j, morder, eorder, t1, t2);
        if j in s.exporters.stored && MapFor(w, s, morder, s.exporters.stored[j]).Some? {
          ExporterPassEffect(w, s, j, morder, t1, t2);
        }
    }
    SameSelection(s, t, k);
  }

  /** Once a module is not queued any more, after whatever Reconciles, its references are right exactly if it was queued
      at the start or they were right at the start. */
  lemma {:induction false} ReferencesRightExactly(w: World, s: State, passes: seq<Pass>, end: State, morder: seq<Key>, eorder: seq<Key>, k: Key)
    requires PassRun(w, s, passes, end, morder, eorder)
    requires k in s.modules.stored && !DryRun(w, s.modules.stored[k]).Panics? && k !in end.modules.queue
    ensures k in end.modules.stored
    ensures ReferencesRight(end, k) <==> k in s.modules.queue || ReferencesRight(s, k)
    decreases |passes|
  {
    hide ModulePass, ExporterPass, Ready, ReferencesRight, Convert;
    if passes != [] {
      var t := AfterPass(w, s, passes[0], morder, eorder);
      if passes[0].ModuleReconcile? && passes[0].k == k {
        PassRecordsReferences(w, s, k, morder, eorder, passes[0].t1, passes[0].t2);
        ModulePassKeepsObjects(w, s, k, morder, eorder, passes[0].t1, passes[0].t2);
      } else {
        OtherPassKeepsReferences(w, s, passes[0], morder, eorder, k);
      }
      ReferencesRightExactly(w, t, passes[1..], end, morder, eorder, k);
    }
  }

  // ---- users who create, edit or delete an exporter ----

  /** Only exporter x may differ. */
  ghost predicate OthersSame(s: State, t: State, x: Key) {
    && t.modules == s.modules
    && (forall e :: e != x ==> (e in s.exporters.stored <==> e in t.exporters.stored))
    && (forall e :: e != x && e in s.exporters.stored ==>
          t.exporters.stored[e].meta.key == s.exporters.stored[e].meta.key && t.exporters.stored[e].spec == s.exporters.stored[e].spec)
  }

  /** Users write the exporter x; informers deliver exporters. */
  predicate AboutExporter(step: Step, x: Key) {
    match step
    case UserCreatesExporter(k, _, _, _) => k == x
    case UserEditsExporter(k, _, _, _) => k == x
    case UserDeletesExporter(k) => k == x
    case ExporterDelivered(_, _) => true
    case ExporterDropped(_) => true
    case _ => false
  }

  lemma OneStepOthersSame(w: World, s: State, step: Step, x: Key)
    requires Enabled(s, step) && AboutExporter(step, x) && WellKeyed(s.exporters)
    ensures OthersSame(s, Apply(w, s, step), x) && WellKeyed(Apply(w, s, step).exporters)
  {
    hide Load, Prepare, WriteStatus, ReadRef, TouchRef, Fetch, RenderAll, ConfigWritten, WorkloadWritten, ReportWritten;
  }

  lemma {:induction false} StepsOthersSame(w: World, s: State, steps: seq<Step>, t: State, x: Key)
    requires Runs(w, s, steps, t) && WellKeyed(s.exporters)
    requires forall step :: step in steps ==> AboutExporter(step, x)
    ensures OthersSame(s, t, x)
    decreases |steps|
  {
    hide Apply, Enabled, AboutExporter;
    if steps != [] {
      OneStepOthersSame(w, s, steps[0], x);
      StepsOthersSame(w, Apply(w, s, steps[0]), steps[1..], t, x);
    }
  }

  lemma ReferencesAfterChange(s: State, t: State, x: Key, k: Key)
    requires k in s.modules.stored && OthersSame(s, t, x) && ReferencesRight(s, k)
    ensures ReferencesRight(t, k) <==> (SelectsNow(s, x, k) <==> SelectsNow(t, x, k))
  {
    hide Matches;
    forall e | e != x ensures SelectsNow(s, e, k) <==> SelectsNow(t, e, k) {
      if e in s.exporters.stored {
        MatchesBySpec(s.modules.stored[k], s.exporters.stored[e], t.exporters.stored[e]);
      }
    }
    assert x in s.modules.stored[k].status.referencedByExporters <==> SelectsNow(s, x, k);
  }

  /** Users create, edit or delete exporter x, informers deliver it, and Reconciles run until module k is not queued. Then
      k's references, right before, are right exactly if k was queued anyway or x selects k as it did before. */
  lemma ExporterChangeKeepsReferencesExactly(w: World, s: State, steps: seq<Step>, t: State, x: Key, passes: seq<Pass>, end: State,
                                             morder: seq<Key>, eorder: seq<Key>, k: Key)
    requires Runs(w, s, steps, t) && WellKeyed(s.exporters) && (forall step :: step in steps ==> AboutExporter(step, x))
    requires k in s.modules.stored && !DryRun(w, s.modules.stored[k]).Panics? && ReferencesRight(s, k)
    requires PassRun(w, t, passes, end, morder, eorder) && k !in end.modules.queue
    ensures k in t.modules.stored && k in end.modules.stored
    ensures ReferencesRight(end, k) <==> k in s.modules.queue || (SelectsNow(s, x, k) <==> SelectsNow(t, x, k))
  {
    hide Runs, PassRun, ReferencesRight, SelectsNow, Convert, AboutExporter;
    StepsOthersSame(w, s, steps, t, x);
    ReferencesAfterChange(s, t, x, k);
    ReferencesRightExactly(w, t, passes, end, morder, eorder, k);
  }

  // ---- a run that leaves them wrong ----

  /** The cluster at rest after a user created exporter x and the informer saw it. */
  function Joined(s: State, x: Exporter): State {
    var y := Stamped(x, s.clock + 1);
    s.(clock := s.clock + 1,
       exporters := Store(s.exporters.stored[x.meta.key := y], s.exporters.cache[x.meta.key := y], s.exporters.log[s.clock + 1 := y],
                          s.exporters.queue + {x.meta.key}))
  }

  ghost predicate NewExporter(x: Exporter) {
    x == Created(x.meta.key, x.meta.labels, x.meta.annotations, x.spec, NEW_EXPORTER_STATUS) && TOUCH !in x.meta.annotations
  }

  lemma JoiningRuns(w: World, s: State, x: Exporter) returns (steps: seq<Step>)
    requires NewExporter(x) && Settled(s) && x.meta.key !in s.exporters.stored
    ensures CoveredRun(w, s, steps, Joined(s, x)) && Runs(w, s, steps, Joined(s, x))
    ensures forall step :: step in steps ==> AboutExporter(step, x.meta.key)
  {
    hide CoveredRun;
    var a := UserCreatesExporter(x.meta.key, x.meta.labels, x.meta.annotations, x.spec);
    var t := Apply(w, s, a);
    assert t == SaveExporter(s, x);
    var b := ExporterDelivered(x.meta.key, s.clock + 1);
    assert Enabled(t, b) && Covered(t, b);
    assert Apply(w, t, b) == Joined(s, x);
    CoveredPair(w, s, a, t, b, Joined(s, x));
    steps := [a, b];
    CoveredIsRun(w, s, steps, Joined(s, x));
  }

  /** One module as a user creates it, seen by the informer. */
  function Alone(m: Module): State {
    START.(clock := 1, modules := Store(map[m.meta.key := m], map[m.meta.key := m], map[1 := m], {m.meta.key}))
  }

  lemma AloneRuns(w: World, m: Module) returns (steps: seq<Step>)
    requires m == Stamped(Created(m.meta.key, m.meta.labels, m.meta.annotations, m.spec, NEW_MODULE_STATUS), 1)
    ensures CoveredRun(w, START, steps, Alone(m))
  {
    hide CoveredRun;
    var a := UserCreatesModule(m.meta.key, m.meta.labels, m.meta.annotations, m.spec);
    var t := Apply(w, START, a);
    assert t == START.(clock := 1, modules := Store(map[m.meta.key := m], map[], map[1 := m], {}));
    var b := ModuleDelivered(m.meta.key, 1);
    assert Enabled(t, b) && Covered(t, b);
    assert Apply(w, t, b) == Alone(m);
    CoveredPair(w, START, a, t, b, Alone(m));
    steps := [a, b];
  }

  lemma AloneRests(w: World, m: Module) returns (steps: seq<Step>, end: State)
    requires m == Stamped(Created(m.meta.key, m.meta.labels, m.meta.annotations, m.spec, NEW_MODULE_STATUS), 1)
    requires !DryRun(w, m).Panics?
    ensures CoveredRun(w, START, steps, end) && Settled(end) && SameObjects(Alone(m), end)
    ensures m.meta.key in end.modules.stored && ReferencesRight(end, m.meta.key)
  {
    hide CoveredRun, PassRun, DryRun, Settled, SameObjects, Sound, ReferencesRight;
    var s, k := Alone(m), m.meta.key;
    assert Ready(s, [k], []) && NoPanics(w, s);
    steps := AloneRuns(w, m);
    var passes;
    passes, end := RestReached(w, s, [k], []);
    ReachableServed(w, steps, s);
    var more := PassesCovered(w, s, passes, end, [k], []);
    CoveredConcat(w, START, steps, s, more, end);
    steps := steps + more;
    RestQueues(end);
    ReferencesRightExactly(w, s, passes, end, [k], [], k);
  }

  lemma RestQueues(s: State)
    requires Settled(s)
    ensures s.modules.queue == {} && s.exporters.queue == {}
  {
  }

  lemma JoinedReady(w: World, s: State, m: Module, x: Exporter)
    requires SameObjects(Alone(m), s) && Settled(s) && !DryRun(w, m).Panics? && x.meta.key !in s.exporters.stored
    ensures Ready(Joined(s, x), [m.meta.key], [x.meta.key]) && NoPanics(w, Joined(s, x)) && NoPanics(w, s)
    ensures WellKeyed(s.exporters) && s.modules.stored.Keys == {m.meta.key}
  {
    hide Convert;
    assert Alone(m).modules.stored.Keys == {m.meta.key};
    assert s.exporters.stored == map[];
    assert Joined(s, x).exporters.stored.Keys == {x.meta.key};
  }

  /** An exporter created after the module it selects is never entered: for every such pair a covered run from an empty
      cluster comes to rest with the exporter missing from the references. */
  lemma LateExporterIsMissing(w: World, m: Module, x: Exporter) returns (steps: seq<Step>, end: State)
    requires m == Stamped(Created(m.meta.key, m.meta.labels, m.meta.annotations, m.spec, NEW_MODULE_STATUS), 1)
    requires NewExporter(x) && !DryRun(w, m).Panics? && Matches(m, x)
    ensures CoveredRun(w, START, steps, end) && Settled(end)
    ensures m.meta.key in end.modules.stored && SelectsNow(end, x.meta.key, m.meta.key)
    ensures !ReferencesRight(end, m.meta.key)
    ensures x.meta.key !in end.modules.stored[m.meta.key].status.referencedByExporters
  {
    hide CoveredRun, Runs, PassRun, DryRun, Settled, SameObjects, Sound, Served, Ready, NoPanics, Matches, AboutExporter;
    var k, e := m.meta.key, x.meta.key;
    var before, rest := AloneRests(w, m);
    AloneHasNoExporters(m, rest);
    JoinedReady(w, rest, m, x);
    var joining := JoiningRuns(w, rest, x);
    var s := Joined(rest, x);
    var passes;
    passes, end := RestReached(w, s, [k], [e]);
    RestQueues(rest);
    RestQueues(end);
    JoinedSelects(w, m, x, rest);
    ExporterChangeKeepsReferencesExactly(w, rest, joining, s, e, passes, end, [k], [e], k);
    BackReferencesStay(w, s, passes, end, [k], [e]);
    SameSelection(s, end, k);
    CoveredConcat(w, START, before, rest, joining, s);
    ReachableServed(w, before + joining, s);
    var more := PassesCovered(w, s, passes, end, [k], [e]);
    CoveredConcat(w, START, before + joining, s, more, end);
    steps := before + joining + more;
  }

  lemma AloneHasNoExporters(m: Module, s: State)
    requires SameObjects(Alone(m), s)
    ensures s.exporters.stored == map[] && s.modules.stored.Keys == {m.meta.key}
  {
    assert Alone(m).modules.stored.Keys == {m.meta.key};
  }

  lemma JoinedSelects(w: World, m: Module, x: Exporter, s: State)
    requires SameObjects(Alone(m), s) && Matches(m, x) && x.meta.key !in s.exporters.stored
    requires m.meta.key in s.modules.stored && !DryRun(w, m).Panics? && ReferencesRight(s, m.meta.key)
    ensures !SelectsNow(s, x.meta.key, m.meta.key) && SelectsNow(Joined(s, x), x.meta.key, m.meta.key)
    ensures !DryRun(w, s.modules.stored[m.meta.key]).Panics?
    ensures x.meta.key !in s.modules.stored[m.meta.key].status.referencedByExporters
  {
    hide Matches;
    MatchesByLabels(m, s.modules.stored[m.meta.key], x);
    MatchesBySpec(s.modules.stored[m.meta.key], x, Stamped(x, s.clock + 1));
  }
}
