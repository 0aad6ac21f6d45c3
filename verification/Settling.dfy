/** Whatever the workers hold and however stale the caches are: the operator alone can come to rest, unless a stored
    module makes the converter panic. */
module Settling {
  import opened Base
  import opened Api
  import opened Selector
  import opened Converter
  import opened Rendering
  import Owned
  import Reports
  import opened ApiServer
  import opened Steps
  import opened LostUpdates
  import opened Convergence
  import opened Outcome
  import opened Passes
  import opened Termination
  import opened Rest
  import opened StatusTruth
  import EndToEnd

  // ---- what the operator keeps ----

  lemma WriteKeepsModules(s: State)
    requires Logged(s.modules, s.clock) && s.mw.Prepared?
    ensures AlikeModules(s.modules.stored, WriteStatus(s).modules.stored)
  {
  }

  lemma StepKeepsModules(w: World, s: State, step: Step)
    requires Logged(s.modules, s.clock) && Enabled(s, step) && ByOperator(step)
    ensures AlikeModules(s.modules.stored, Apply(w, s, step).modules.stored)
  {
    hide Logged, WriteStatus, Convert, Reports.ModuleReport, Referencing, Items, ModuleMap, Selected, Reports.ExporterReport,
         Owned.DesiredWorkload, Merged;
    if step.WriteModuleStatus? {
      WriteKeepsModules(s);
    } else {
      assert Apply(w, s, step).modules.stored == s.modules.stored;
    }
  }

  lemma {:induction false} RunKeepsModules(w: World, s: State, steps: seq<Step>, end: State)
    requires Sound(w, s) && CoveredRun(w, s, steps, end) && AllByOperator(steps)
    ensures AlikeModules(s.modules.stored, end.modules.stored)
    decreases |steps|
  {
    hide Apply, Covered, Enabled, ByOperator, Sound, Logged;
    if steps != [] {
      LoggedStores(w, s);
      StepKeepsModules(w, s, steps[0]);
      StepSound(w, s, steps[0]);
      RunKeepsModules(w, Apply(w, s, steps[0]), steps[1..], end);
    }
  }

  // ---- the workers finish ----

  lemma Ahead(w: World, s: State, step: Step, rest: seq<Step>, end: State) returns (steps: seq<Step>)
    requires Enabled(s, step) && Covered(s, step) && ByOperator(step)
    requires CoveredRun(w, Apply(w, s, step), rest, end) && AllByOperator(rest)
    ensures CoveredRun(w, s, steps, end) && AllByOperator(steps)
  {
    hide Apply, Covered, Enabled, ByOperator;
    steps := [step] + rest;
    assert steps[1..] == rest;
  }

  function ModuleStage(mw: ModuleWorker): nat {
    match mw
    case ModuleIdle => 0
    case Loaded(_) => 3
    case Prepared(_, _) => 2
    case Touching(_, _) => 1
    case Holding(_, _, _) => 1
  }

  function RefsLeft(mw: ModuleWorker): nat {
    match mw
    case Touching(_, refs) => 2 * |refs|
    case Holding(_, _, refs) => 2 * |refs| + 1
    case _ => 0
  }

  lemma ModuleWorkerAdvances(w: World, s: State) returns (step: Step)
    requires !s.mw.ModuleIdle?
    ensures Enabled(s, step) && Covered(s, step) && ByOperator(step)
    ensures var t := Apply(w, s, step);
            && t.ew == s.ew
            && (ModuleStage(t.mw) < ModuleStage(s.mw) || (ModuleStage(t.mw) == ModuleStage(s.mw) && RefsLeft(t.mw) < RefsLeft(s.mw)))
  {
    hide Convert, Reports.ModuleReport, Referencing, Merged;
    match s.mw {
      case Loaded(_) =>
        var order := SomeListing(s.exporters.cache.Keys);
        step := PrepareStatus(Some(order), 0, 0);
      case Prepared(_, _) => step := WriteModuleStatus;
      case Touching(_, refs) => step := if refs == [] then FinishModule else ReadReference;
      case Holding(_, _, _) => step := TouchReference(true);
    }
  }

  lemma {:induction false} ModuleWorkerFinishes(w: World, s: State) returns (steps: seq<Step>, end: State)
    requires Sound(w, s)
    ensures CoveredRun(w, s, steps, end) && AllByOperator(steps)
    ensures Sound(w, end) && end.mw.ModuleIdle? && end.ew == s.ew
    decreases ModuleStage(s.mw), RefsLeft(s.mw)
  {
    hide Sound, CoveredRun, Apply, Covered, Enabled, ByOperator;
    if s.mw.ModuleIdle? {
      steps, end := [], s;
      EmptyRun(w, s);
    } else {
      var step := ModuleWorkerAdvances(w, s);
      StepSound(w, s, step);
      var rest;
      rest, end := ModuleWorkerFinishes(w, Apply(w, s, step));
      steps := Ahead(w, s, step, rest, end);
    }
  }

  lemma ExporterWorkerRenders(w: World, s: State) returns (step: Step)
    requires s.ew.Fetched?
    ensures Enabled(s, step) && Covered(s, step) && ByOperator(step)
    ensures var t := Apply(w, s, step); t.mw == s.mw && ExporterPhase(t.ew) < ExporterPhase(s.ew)
  {
    hide ModuleMap, Selected, Items, Lists;
    var order := SomeListing(s.modules.cache.Keys);
    step := RenderModules(order);
    assert Apply(w, s, step) == RenderAll(w, s, order);
  }

  lemma ExporterWorkerAdvances(w: World, s: State) returns (step: Step)
    requires !s.ew.ExporterIdle?
    ensures Enabled(s, step) && Covered(s, step) && ByOperator(step)
    ensures var t := Apply(w, s, step); t.mw == s.mw && ExporterPhase(t.ew) < ExporterPhase(s.ew)
  {
    hide RenderAll, Reports.ExporterReport, Owned.DesiredWorkload, Load, Prepare, WriteStatus, ReadRef, TouchRef, Fetch;
    match s.ew {
      case Fetched(_) => step := ExporterWorkerRenders(w, s);
      case Gathered(_, _, _) => step := WriteConfig;
      case Configured(_, _) => step := WriteWorkload;
      case Applied(_, _) => step := WriteExporterStatus(0, 0);
    }
  }

  lemma {:induction false} ExporterWorkerFinishes(w: World, s: State) returns (steps: seq<Step>, end: State)
    requires Sound(w, s)
    ensures CoveredRun(w, s, steps, end) && AllByOperator(steps)
    ensures Sound(w, end) && end.ew.ExporterIdle? && end.mw == s.mw
    decreases ExporterPhase(s.ew)
  {
    hide Sound, CoveredRun, Apply, Covered, Enabled, ByOperator;
    if s.ew.ExporterIdle? {
      steps, end := [], s;
      EmptyRun(w, s);
    } else {
      var step := ExporterWorkerAdvances(w, s);
      StepSound(w, s, step);
      var rest;
      rest, end := ExporterWorkerFinishes(w, Apply(w, s, step));
      steps := Ahead(w, s, step, rest, end);
    }
  }

  // ---- the informers catch up ----

  ghost function Stale<S, T>(st: Store<S, T>): set<Key> {
    set k | k in st.stored && (k !in st.cache || st.cache[k] != st.stored[k])
  }

  /** Cached objects that were deleted. */
  ghost function Leftover<S, T>(st: Store<S, T>): set<Key> {
    set k | k in st.cache && k !in st.stored
  }

  lemma DeliveryIsNews<S, T>(st: Store<S, T>, clock: nat, k: Key)
    requires Logged(st, clock) && k in Stale(st)
    ensures var rv := st.stored[k].meta.resourceVersion;
            && rv in st.log && st.log[rv] == st.stored[k] && st.log[rv].meta.key == k
            && (k in st.cache ==> st.cache[k].meta.resourceVersion < rv)
    ensures Stale(Deliver(st, st.stored[k])) == Stale(st) - {k} && Leftover(Deliver(st, st.stored[k])) == Leftover(st)
  {
    assert Version(st, st.stored[k]);
    if k in st.cache {
      assert Version(st, st.cache[k]);
    }
  }

  lemma LoggedStores(w: World, s: State)
    requires Sound(w, s)
    ensures Logged(s.modules, s.clock) && Logged(s.exporters, s.clock)
  {
    hide ModuleWorkerSound, ExporterWorkerSound, ConfigsSound, Logged;
  }

  lemma ModuleNewsArrives(w: World, s: State, k: Key) returns (step: Step)
    requires Logged(s.modules, s.clock) && k in Stale(s.modules)
    ensures Enabled(s, step) && Covered(s, step) && ByOperator(step)
    ensures Apply(w, s, step) == s.(modules := Deliver(s.modules, s.modules.stored[k]))
    ensures Stale(Apply(w, s, step).modules) == Stale(s.modules) - {k}
  {
    DeliveryIsNews(s.modules, s.clock, k);
    hide Logged;
    step := ModuleDelivered(k, s.modules.stored[k].meta.resourceVersion);
  }

  lemma {:induction false} ModuleInformerCatchesUp(w: World, s: State) returns (steps: seq<Step>, end: State)
    requires Sound(w, s)
    ensures CoveredRun(w, s, steps, end) && AllByOperator(steps)
    ensures Sound(w, end) && end == s.(modules := end.modules) && Stale(end.modules) == {}
    decreases |Stale(s.modules)|
  {
    hide Sound, CoveredRun, Apply, Covered, Enabled, ByOperator, Stale;
    if Stale(s.modules) == {} {
      steps, end := [], s;
      EmptyRun(w, s);
    } else {
      var k :| k in Stale(s.modules);
      LoggedStores(w, s);
      var step := ModuleNewsArrives(w, s, k);
      StepSound(w, s, step);
      var rest;
      rest, end := ModuleInformerCatchesUp(w, Apply(w, s, step));
      steps := Ahead(w, s, step, rest, end);
    }
  }

  /** What the exporter informer still has to do: deliveries and deletions. */
  ghost function Missed(s: State): nat {
    |Stale(s.exporters)| + |Leftover(s.exporters)|
  }

  lemma ExporterNewsArrives(w: World, s: State) returns (step: Step)
    requires Logged(s.exporters, s.clock) && Missed(s) > 0
    ensures Enabled(s, step) && Covered(s, step) && ByOperator(step)
    ensures var t := Apply(w, s, step); t == s.(exporters := t.exporters) && Missed(t) < Missed(s)
  {
    if Stale(s.exporters) != {} {
      var k :| k in Stale(s.exporters);
      DeliveryIsNews(s.exporters, s.clock, k);
      step := ExporterDelivered(k, s.exporters.stored[k].meta.resourceVersion);
      assert Apply(w, s, step).exporters == Deliver(s.exporters, s.exporters.stored[k]);
    } else {
      var k :| k in Leftover(s.exporters);
      step := ExporterDropped(k);
      var t := Apply(w, s, step);
      assert Leftover(t.exporters) == Leftover(s.exporters) - {k};
      assert Stale(t.exporters) == {};
    }
  }

  lemma {:induction false} ExporterInformerCatchesUp(w: World, s: State) returns (steps: seq<Step>, end: State)
    requires Sound(w, s)
    ensures CoveredRun(w, s, steps, end) && AllByOperator(steps)
    ensures Sound(w, end) && end == s.(exporters := end.exporters) && Missed(end) == 0
    decreases Missed(s)
  {
    hide Sound, CoveredRun, Apply, Covered, Enabled, ByOperator, Missed;
    if Missed(s) == 0 {
      steps, end := [], s;
      EmptyRun(w, s);
    } else {
      LoggedStores(w, s);
      var step := ExporterNewsArrives(w, s);
      StepSound(w, s, step);
      var rest;
      rest, end := ExporterInformerCatchesUp(w, Apply(w, s, step));
      steps := Ahead(w, s, step, rest, end);
    }
  }

  /** In a covered run no module is ever deleted, so a module cache without news is the store. */
  lemma CaughtUp(w: World, s: State)
    requires Sound(w, s) && Served(s) && s.mw.ModuleIdle? && s.ew.ExporterIdle?
    requires Stale(s.modules) == {} && Missed(s) == 0
    ensures Synced(s) && WellKeyed(s.modules) && WellKeyed(s.exporters)
  {
    hide TouchesMean, ExportersServed, PairsServed, GenerationsGrow, ConfigsSound, ModuleWorkerSound, ExporterWorkerSound;
    forall k | k in s.modules.cache ensures k in s.modules.stored {
      assert Version(s.modules, s.modules.cache[k]);
    }
    CacheIsStore(s.modules);
    assert Leftover(s.exporters) == {} && Stale(s.exporters) == {};
    forall k | k in s.exporters.cache ensures k in s.exporters.stored {
      assert k !in Leftover(s.exporters);
    }
    CacheIsStore(s.exporters);
  }

  lemma CacheIsStore<S, T>(st: Store<S, T>)
    requires Stale(st) == {} && forall k :: k in st.cache ==> k in st.stored
    ensures st.cache == st.stored
  {
    forall k | k in st.stored ensures k in st.cache && st.cache[k] == st.stored[k] {
      assert k !in Stale(st);
    }
  }

  lemma Chain(w: World, a: State, p: seq<Step>, b: State, q: seq<Step>, c: State) returns (steps: seq<Step>)
    requires CoveredRun(w, a, p, b) && CoveredRun(w, b, q, c) && AllByOperator(p) && AllByOperator(q)
    ensures CoveredRun(w, a, steps, c) && AllByOperator(steps)
  {
    hide CoveredRun, ByOperator;
    CoveredConcat(w, a, p, b, q, c);
    steps := p + q;
  }

  /** From any state of a covered run, the operator alone can finish what it is doing and catch up. */
  lemma OperatorCatchesUp(w: World, s: State) returns (steps: seq<Step>, end: State)
    requires Sound(w, s) && Served(s)
    ensures CoveredRun(w, s, steps, end) && AllByOperator(steps)
    ensures Sound(w, end) && Served(end) && Synced(end) && WellKeyed(end.modules) && WellKeyed(end.exporters)
  {
    hide Sound, Served, CoveredRun, AllByOperator, Stale, Missed;
    var s1, s2, s3, more;
    steps, s1 := ModuleWorkerFinishes(w, s);
    more, s2 := ExporterWorkerFinishes(w, s1);
    steps := Chain(w, s, steps, s1, more, s2);
    more, s3 := ModuleInformerCatchesUp(w, s2);
    steps := Chain(w, s, steps, s2, more, s3);
    more, end := ExporterInformerCatchesUp(w, s3);
    steps := Chain(w, s, steps, s3, more, end);
    RunKeeps(w, s, steps, end);
    CaughtUp(w, end);
  }

  /** From any state a covered run reaches, without panics: some continuation of the operator alone comes to rest, and
      every ConfigMap is then right. */
  lemma OperatorCanRest(w: World, history: seq<Step>, s: State) returns (steps: seq<Step>, end: State)
    requires CoveredRun(w, START, history, s) && NoPanics(w, s)
    ensures AllByOperator(steps) && CoveredRun(w, s, steps, end) && Settled(end)
    ensures forall e :: e in end.exporters.stored ==>
              e in end.out.configs && RightConfig(w, end.modules.stored, end.exporters.stored[e], end.out.configs[e])
  {
    hide Sound, Served, CoveredRun, PassRun, AllByOperator, Settled, NoPanics, SameObjects, RightConfig, AlikeModules, Lists;
    ReachableServed(w, history, s);
    var t;
    steps, t := OperatorCatchesUp(w, s);
    RunKeepsModules(w, s, steps, t);
    AlikePanicsAlike(w, s, t);
    var morder := SomeListing(t.modules.stored.Keys);
    var eorder := SomeListing(t.exporters.stored.Keys);
    var passes;
    passes, end := RestReached(w, t, morder, eorder);
    var more := PassesCovered(w, t, passes, end, morder, eorder);
    steps := Chain(w, s, steps, t, more, end);
    RunKeeps(w, s, steps, end);
    forall e | e in end.exporters.stored
      ensures e in end.out.configs && RightConfig(w, end.modules.stored, end.exporters.stored[e], end.out.configs[e])
    {
      SettledIsRight(w, end, e);
    }
  }

  // ---- panics are the only obstacle ----

  lemma AtRestNothingPanics(w: World, history: seq<Step>, s: State)
    requires CoveredRun(w, START, history, s) && Settled(s)
    ensures NoPanics(w, s)
  {
    hide CoveredRun, Convert, EndToEnd.SaysValid;
    StatusesTellTheTruth(w, history, s);
    forall k | k in s.modules.stored ensures !DryRun(w, s.modules.stored[k]).Panics? {
      assert !Owing(s, k) && !InHand(s, k);
      assert TruthfulModule(w, s.modules.stored[k]);
    }
  }

  /** In every state a covered run reaches, between any two API calls: the operator alone can come to rest exactly if no
      stored module makes the converter panic. */
  lemma RestPossibleExactly(w: World, history: seq<Step>, s: State)
    requires CoveredRun(w, START, history, s)
    ensures (exists steps, end :: AllByOperator(steps) && CoveredRun(w, s, steps, end) && Settled(end)) <==> NoPanics(w, s)
  {
    hide CoveredRun, AllByOperator, Settled, NoPanics, Sound, Served, AlikeModules, RightConfig;
    if NoPanics(w, s) {
      var steps, end := OperatorCanRest(w, history, s);
    }
    if steps, end :| AllByOperator(steps) && CoveredRun(w, s, steps, end) && Settled(end) {
      CoveredConcat(w, START, history, s, steps, end);
      AtRestNothingPanics(w, history + steps, end);
      ReachableServed(w, history, s);
      RunKeepsModules(w, s, steps, end);
      AlikePanicsAlike(w, s, end);
    }
  }

  /** A stored module that panics is queued once the operator has caught up. */
  lemma PanickingIsStuck(w: World, history: seq<Step>, s: State, k: Key)
    requires CoveredRun(w, START, history, s) && Synced(s)
    requires k in s.modules.stored && DryRun(w, s.modules.stored[k]).Panics?
    ensures Stuck(w, s, k)
  {
    hide CoveredRun, Convert, EndToEnd.SaysValid;
    assert !TruthfulModule(w, s.modules.stored[k]);
    StatusesTellTheTruth(w, history, s);
  }

  /** The same for whole Reconciles, once the informers have caught up: some sequence of them comes to rest exactly if
      nothing stored panics. So panics are the only obstacle, and a single one is never overcome. */
  lemma PassesReachRestExactly(w: World, history: seq<Step>, s: State, morder: seq<Key>, eorder: seq<Key>)
    requires CoveredRun(w, START, history, s) && Ready(s, morder, eorder)
    ensures (exists passes, end :: PassRun(w, s, passes, end, morder, eorder) && Settled(end)) <==> NoPanics(w, s)
  {
    hide CoveredRun, PassRun, DryRun;
    if NoPanics(w, s) {
      var passes, end := RestReached(w, s, morder, eorder);
    } else {
      var k :| k in s.modules.stored && DryRun(w, s.modules.stored[k]).Panics?;
      PanickingIsStuck(w, history, s, k);
      forall passes, end | PassRun(w, s, passes, end, morder, eorder) ensures !Settled(end) {
        PanicNeverSettles(w, s, passes, end, k, morder, eorder);
      }
    }
  }
}
