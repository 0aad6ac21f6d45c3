/** The two workers interleave at every API call, with informers that deliver each write at once. No interleaving goes on
    forever, whatever the workers hold at its start. */
module Interleaving {
  import opened Base
  import opened Api
  import opened Selector
  import opened Converter
  import opened Rendering
  import opened Owned
  import opened Reports
  import opened ApiServer
  import opened Informers
  import opened Steps
  import opened LostUpdates
  import opened Convergence
  import opened Outcome
  import opened Passes
  import opened Termination
  import opened Chores
  import opened Writes

  // ---- one API call, and its delivery ----

  function AfterConfig(w: World, s: State): State
    requires s.ew.Gathered?
  {
    var k, t := s.ew.x.meta.key, ConfigWritten(w, s);
    if k in s.out.configs && s.out.configs[k] == t.out.configs[k] then t else t.(exporters := Enqueue(t.exporters, k))
  }

  function AfterWorkload(s: State): State
    requires s.ew.Configured?
  {
    var k, t := s.ew.x.meta.key, WorkloadWritten(s);
    if k in s.out.workloads && s.out.workloads[k] == t.out.workloads[k] then t else t.(exporters := Enqueue(t.exporters, k))
  }

  /** The module worker goes on by one call; idle, it takes up the key k. A List call answers with `order`. */
  ghost function ModuleMoves(w: World, s: State, k: Key, order: seq<Key>, t1: int, t2: int): State
    requires Lists(order, s.exporters.cache.Keys)
  {
    match s.mw
    case ModuleIdle => Load(s, k)
    case Loaded(_) => Prepare(w, s, Some(order), t1, t2)
    case Prepared(m, _) => ModuleNews(WriteStatus(s), m.meta.key)
    case Touching(_, refs) => if refs == [] then s.(mw := ModuleIdle) else ReadRef(s)
    case Holding(_, held, _) => ExporterNews(TouchRef(s, true), held.meta.key)
  }

  /** The same for the exporter worker. */
  ghost function ExporterMoves(w: World, s: State, k: Key, order: seq<Key>, t1: int, t2: int): State
    requires Lists(order, s.modules.cache.Keys)
  {
    match s.ew
    case ExporterIdle => Fetch(s, k)
    case Fetched(_) => RenderAll(w, s, order)
    case Gathered(_, _, _) => AfterConfig(w, s)
    case Configured(_, _) => AfterWorkload(s)
    case Applied(x, _) => ExporterNews(ReportWritten(s, t1, t2), x.meta.key)
  }

  /** The readiness of a Deployment changes, which sends an event to its owner's queue. */
  function ReadinessMoves(s: State, k: Key, replicas: int): State {
    s.(out := s.out.(ready := s.out.ready[k := replicas]), exporters := Enqueue(s.exporters, k))
  }

  datatype Turn =
    | ModuleTurn(k: Key, order: seq<Key>, t1: int, t2: int)
    | ExporterTurn(k: Key, order: seq<Key>, t1: int, t2: int)
    | ReadinessTurn(k: Key, replicas: int)

  ghost predicate CanMove(c: Setting, s: State, turn: Turn)
    requires Listing(c)
  {
    match turn
    case ModuleTurn(k, order, _, _) =>
      && Lists(order, s.exporters.cache.Keys)
      && (s.mw.ModuleIdle? ==> k in s.modules.queue) && (s.mw.Loaded? ==> AnswersRefs(c, s, order))
    case ExporterTurn(k, order, _, _) =>
      && Lists(order, s.modules.cache.Keys)
      && (s.ew.ExporterIdle? ==> k in s.exporters.queue) && (s.ew.Fetched? ==> AnswersText(c, s, order))
    case ReadinessTurn(_, _) => true
  }

  // ---- what holds between any two calls ----

  /** The caches show what is stored. Nothing is asked of what the workers hold. */
  ghost predicate Prompt(s: State) {
    s.modules.cache == s.modules.stored && s.exporters.cache == s.exporters.stored
  }

  ghost predicate Steady(c: Setting, s: State)
    requires Listing(c)
  {
    Sound(c.w, s) && Fits(c, s) && Prompt(s) && NoPanics(c.w, s)
  }

  // ---- the measure ----

  /** The calls a module still takes, all touches included. */
  ghost function Lap(c: Setting): nat {
    2 * |c.ekeys| + 5
  }

  function ModulePhase(mw: ModuleWorker, n: nat): nat {
    match mw
    case ModuleIdle => 0
    case Loaded(_) => 2 * n + 4
    case Prepared(_, status) => 2 * |status.referencedByExporters| + 3
    case Touching(_, refs) => 2 * |refs| + 1
    case Holding(_, _, refs) => 2 * |refs| + 2
  }

  /** The module in hand was written since it was read: its status will be rejected. */
  predicate OutdatedModule(s: State) {
    (s.mw.Loaded? || s.mw.Prepared?) && !(s.mw.m.meta.key in s.modules.stored && s.modules.stored[s.mw.m.meta.key] == s.mw.m)
  }

  predicate OutdatedExporter(s: State) {
    !s.ew.ExporterIdle? && !Accepts(s.exporters, s.ew.x)
  }

  function One(b: bool): nat {
    if b then 1 else 0
  }

  ghost function ModuleCalls(c: Setting, s: State): nat {
    Times(Lap(c), |s.modules.queue| + One(OutdatedModule(s))) + ModulePhase(s.mw, |c.ekeys|)
  }

  function ExporterCalls(s: State): nat {
    6 * (|s.exporters.queue| + One(OutdatedExporter(s))) + ExporterPhase(s.ew)
  }

  /** Between two effective writes the calls run out; one effective write brings at most a lap and two exporters back. */
  ghost function Remaining(c: Setting, s: State): nat
    requires Listing(c)
  {
    Times(Lap(c) + 12, Budget(c, s)) + ModuleCalls(c, s) + ExporterCalls(s)
  }

  /** One call further: it writes, or there are fewer calls to come. */
  ghost predicate Further(c: Setting, s: State, t: State) {
    && Prompt(t) && NoPanics(c.w, t)
    && if Effective(s, t) then ModuleCalls(c, t) + ExporterCalls(t) < ModuleCalls(c, s) + ExporterCalls(s) + Lap(c) + 12
       else ModuleCalls(c, t) + ExporterCalls(t) < ModuleCalls(c, s) + ExporterCalls(s)
  }

  // ---- moves of the module worker ----

  lemma LoadFurther(c: Setting, s: State, k: Key)
    requires Prompt(s) && NoPanics(c.w, s) && Logged(s.modules, s.clock) && s.mw.ModuleIdle? && k in s.modules.queue
    ensures Further(c, s, Load(s, k))
  {
    hide Times, Convert;
    assert |s.modules.queue - {k}| + 1 == |s.modules.queue|;
    TimesNext(Lap(c), |s.modules.queue - {k}|);
  }

  lemma ModuleRetryFurther(c: Setting, s: State, k: Key)
    requires Prompt(s) && NoPanics(c.w, s) && OutdatedModule(s)
    ensures Further(c, s, ModuleRetry(s, k))
  {
    hide Times, Convert;
    var t := ModuleRetry(s, k);
    assert |t.modules.queue| <= |s.modules.queue| + 1;
    TimesAtMost(Lap(c), |s.modules.queue| + 1, |t.modules.queue|, 0);
    TimesZero(Lap(c));
  }

  lemma PrepareFurther(c: Setting, s: State, order: seq<Key>, t1: int, t2: int)
    requires Prompt(s) && NoPanics(c.w, s) && Fits(c, s) && s.mw.Loaded? && Lists(order, s.exporters.cache.Keys)
    ensures Further(c, s, Prepare(c.w, s, Some(order), t1, t2))
  {
    hide Times, Convert, ModuleReport, Referencing, Items, Further;
    var m, t := s.mw.m, Prepare(c.w, s, Some(order), t1, t2);
    if DryRun(c.w, m).Panics? {
      assert OutdatedModule(s);
      ModuleRetryFurther(c, s, m.meta.key);
    } else {
      var refs := Referencing(Items(order, s.exporters.cache), m);
      ReportNames(DryRun(c.w, m), m, refs, t1, t2);
      ReferencesWithin(c, s, order, m);
      HandFurther(c, s, t);
    }
  }

  lemma HandFurther(c: Setting, s: State, t: State)
    requires Prompt(s) && NoPanics(c.w, s) && t == s.(mw := t.mw)
    requires OutdatedModule(t) ==> OutdatedModule(s)
    requires ModulePhase(t.mw, |c.ekeys|) < ModulePhase(s.mw, |c.ekeys|)
    ensures Further(c, s, t)
  {
    hide Times, Convert, OutdatedModule, ModulePhase;
    TimesAtMost(Lap(c), |s.modules.queue| + One(OutdatedModule(s)), |s.modules.queue| + One(OutdatedModule(t)), 0);
    TimesZero(Lap(c));
  }

  lemma WriteFurther(c: Setting, s: State)
    requires Prompt(s) && NoPanics(c.w, s) && Logged(s.modules, s.clock) && s.mw.Prepared? && Version(s.modules, s.mw.m)
    ensures Further(c, s, ModuleNews(WriteStatus(s), s.mw.m.meta.key))
  {
    hide Times, Logged, Version, Further;
    var m, k := s.mw.m, s.mw.m.meta.key;
    if !Accepts(s.modules, m) {
      StoredHasNoNews(s, ModuleRetry(s, k), k);
      ModuleRetryFurther(c, s, k);
    } else {
      AcceptedWrite(s);
      if s.mw.status == m.status {
        StoredHasNoNews(s, WriteStatus(s), k);
        HandFurther(c, s, WriteStatus(s));
      } else {
        ChangedStatusFurther(c, s, WriteStatus(s));
      }
    }
  }

  lemma StoredHasNoNews(s: State, t: State, k: Key)
    requires Prompt(s) && t.modules == s.modules.(queue := t.modules.queue)
    ensures ModuleNews(t, k) == t
  {
  }

  lemma ChangedStatusFurther(c: Setting, s: State, t: State)
    requires Prompt(s) && NoPanics(c.w, s) && s.mw.Prepared?
    requires var m := s.mw.m;
             && m.meta.key in s.modules.stored && s.modules.stored[m.meta.key] == m && s.mw.status != m.status
             && t.modules == StoreAt(s.modules, m.(status := s.mw.status), s.clock + 1)
             && t == s.(clock := t.clock, modules := t.modules, mw := t.mw)
             && t.mw.Touching? && t.mw.refs == s.mw.status.referencedByExporters
    ensures Further(c, s, ModuleNews(t, s.mw.m.meta.key))
  {
    hide Times, Convert;
    var m, k := s.mw.m, s.mw.m.meta.key;
    var u := ModuleNews(t, k);
    var n := Stamped(m.(status := s.mw.status), s.clock + 1);
    assert n.status != m.status;
    assert u == t.(modules := Deliver(t.modules, n));
    assert u.modules.stored == s.modules.stored[k := n];
    assert |u.modules.queue| <= |s.modules.queue| + 1;
    assert Effective(s, u);
    assert AlikeModules(s.modules.stored, u.modules.stored);
    AlikePanicsAlike(c.w, s, u);
    TimesAtMost(Lap(c), |s.modules.queue|, |u.modules.queue|, 1);
    TimesNext(Lap(c), 0);
    TimesZero(Lap(c));
  }

  lemma ReadFurther(c: Setting, s: State)
    requires Prompt(s) && NoPanics(c.w, s) && s.mw.Touching?
    ensures Further(c, s, if s.mw.refs == [] then s.(mw := ModuleIdle) else ReadRef(s))
  {
    hide Further;
    HandFurther(c, s, if s.mw.refs == [] then s.(mw := ModuleIdle) else ReadRef(s));
  }

  lemma TouchFurther(c: Setting, s: State)
    requires Prompt(s) && NoPanics(c.w, s) && Logged(s.exporters, s.clock) && s.mw.Holding? && Version(s.exporters, s.mw.held)
    ensures Further(c, s, ExporterNews(TouchRef(s, true), s.mw.held.meta.key))
  {
    hide Logged, Version, Further, Times;
    var held := s.mw.held;
    var next := Touched(held, s.mw.m.meta.resourceVersion);
    var done := s.(mw := Touching(s.mw.m, s.mw.refs));
    if Accepts(s.exporters, held) {
      AcceptedIsCurrent(s.exporters, s.clock, held);
      VersionPast(s.exporters, s.clock, held);
      assert Merged(held, next) == next;
    }
    if Accepts(s.exporters, held) && Changes(s.exporters, next) {
      TouchedFurther(c, s, SaveExporter(done, next), next);
    } else {
      HandFurther(c, s, done);
    }
  }

  lemma VersionPast<S, T>(st: Store<S, T>, clock: nat, o: Object<S, T>)
    requires Logged(st, clock) && Version(st, o)
    ensures o.meta.resourceVersion <= clock
  {
  }

  lemma TouchedFurther(c: Setting, s: State, t: State, next: Exporter)
    requires Prompt(s) && NoPanics(c.w, s) && s.mw.Holding? && next.meta.key in s.exporters.stored
    requires next.meta.key == s.mw.held.meta.key && Changes(s.exporters, next) && next.meta.resourceVersion <= s.clock
    requires t == SaveExporter(s.(mw := Touching(s.mw.m, s.mw.refs)), next)
    ensures Further(c, s, ExporterNews(t, next.meta.key))
  {
    hide Times, Convert;
    var k, u := next.meta.key, ExporterNews(t, next.meta.key);
    assert t.exporters == StoreAt(s.exporters, next, s.clock + 1);
    assert |u.exporters.queue| <= |s.exporters.queue| + 1;
    assert u.modules == s.modules;
  }

  lemma ModuleMovesFurther(c: Setting, s: State, k: Key, order: seq<Key>, t1: int, t2: int)
    requires Listing(c) && Steady(c, s) && CanMove(c, s, ModuleTurn(k, order, t1, t2))
    ensures Further(c, s, ModuleMoves(c.w, s, k, order, t1, t2))
  {
    hide Further, Load, Prepare, WriteStatus, ReadRef, TouchRef, NewsOf, Lists, Listing, Logged, Version, NoPanics, Fits, Prompt,
         AnswersRefs, ExporterWorkerSound, ConfigsSound, ModulesWithin, ExportersWithin;
    match s.mw {
      case ModuleIdle => LoadFurther(c, s, k);
      case Loaded(_) => PrepareFurther(c, s, order, t1, t2);
      case Prepared(_, _) => WriteFurther(c, s);
      case Touching(_, _) => ReadFurther(c, s);
      case Holding(_, _, _) => TouchFurther(c, s);
    }
  }

  // ---- moves of the exporter worker ----

  lemma ExporterHandFurther(c: Setting, s: State, t: State)
    requires Prompt(s) && NoPanics(c.w, s) && t == s.(out := t.out, ew := t.ew)
    requires OutdatedExporter(t) ==> OutdatedExporter(s)
    requires ExporterPhase(t.ew) < ExporterPhase(s.ew)
    ensures Further(c, s, t)
  {
    hide OutdatedExporter, Convert, Times;
  }

  lemma FetchFurther(c: Setting, s: State, k: Key)
    requires Prompt(s) && NoPanics(c.w, s) && Logged(s.exporters, s.clock) && s.ew.ExporterIdle? && k in s.exporters.queue
    ensures Further(c, s, Fetch(s, k))
  {
    hide Times, Convert;
    assert |s.exporters.queue - {k}| + 1 == |s.exporters.queue|;
  }

  lemma RenderFurther(c: Setting, s: State, order: seq<Key>)
    requires Prompt(s) && NoPanics(c.w, s) && s.ew.Fetched? && Lists(order, s.modules.cache.Keys)
    ensures Further(c, s, RenderAll(c.w, s, order))
  {
    hide Further, ModuleMap, Selected, Items, NoPanics;
    MapForSome(c.w, s, order, s.ew.x);
    ExporterHandFurther(c, s, RenderAll(c.w, s, order));
  }

  /** A write of an owned object, with its event if it changed something. */
  lemma OwnedFurther(c: Setting, s: State, t: State, k: Key)
    requires Prompt(s) && NoPanics(c.w, s)
    requires t.out.ready == s.out.ready && ExporterPhase(t.ew) < ExporterPhase(s.ew) && (OutdatedExporter(t) ==> OutdatedExporter(s))
    requires t == s.(out := t.out, ew := t.ew, exporters := t.exporters)
    requires t.exporters == if Effective(s, t) then Enqueue(s.exporters, k) else s.exporters
    ensures Further(c, s, t)
  {
    hide OutdatedExporter, Convert, Times;
    assert |s.exporters.queue + {k}| <= |s.exporters.queue| + 1;
  }

  lemma ConfigFurther(c: Setting, s: State)
    requires Prompt(s) && NoPanics(c.w, s) && s.ew.Gathered?
    ensures Further(c, s, AfterConfig(c.w, s))
  {
    hide Further, NoPanics;
    OwnedFurther(c, s, AfterConfig(c.w, s), s.ew.x.meta.key);
  }

  lemma WorkloadFurther(c: Setting, s: State)
    requires Prompt(s) && NoPanics(c.w, s) && s.ew.Configured?
    ensures Further(c, s, AfterWorkload(s))
  {
    hide Further, NoPanics, DesiredWorkload;
    OwnedFurther(c, s, AfterWorkload(s), s.ew.x.meta.key);
  }

  lemma ReportFurther(c: Setting, s: State, t1: int, t2: int)
    requires Prompt(s) && NoPanics(c.w, s) && s.ew.Applied? && Logged(s.exporters, s.clock) && Version(s.exporters, s.ew.x)
    ensures Further(c, s, ExporterNews(ReportWritten(s, t1, t2), s.ew.x.meta.key))
  {
    hide Logged, Version, ExporterReport, Times, Convert;
    var x, k := s.ew.x, s.ew.x.meta.key;
    assert |s.exporters.queue + {k}| <= |s.exporters.queue| + 1;
    if Accepts(s.exporters, x) {
      AcceptedReport(s, t1, t2, true);
      var report := ExporterReport(x, s.ew.count, Observed(s.out, k), t1, t2);
      if report != x.status {
        assert x.(status := report).status != x.status;
      }
    }
  }

  lemma ExporterMovesFurther(c: Setting, s: State, k: Key, order: seq<Key>, t1: int, t2: int)
    requires Listing(c) && Steady(c, s) && CanMove(c, s, ExporterTurn(k, order, t1, t2))
    ensures Further(c, s, ExporterMoves(c.w, s, k, order, t1, t2))
  {
    hide Further, Fetch, RenderAll, AfterConfig, AfterWorkload, ReportWritten, NewsOf, Lists, Listing, Logged, Version, NoPanics, Fits,
         Prompt, AnswersText, ModuleWorkerSound, ConfigsSound, ModulesWithin, ExportersWithin, SnapshotSound, RendersTo;
    match s.ew {
      case ExporterIdle => FetchFurther(c, s, k);
      case Fetched(_) => RenderFurther(c, s, order);
      case Gathered(_, _, _) => ConfigFurther(c, s);
      case Configured(_, _) => WorkloadFurther(c, s);
      case Applied(_, _) => ReportFurther(c, s, t1, t2);
    }
  }

  // ---- what a move costs ----

  /** A call and what follows it: the budget pays for the write. */
  ghost predicate Afforded(c: Setting, s: State, t: State)
    requires Listing(c)
  {
    Sound(c.w, t) && Paid(c, s, t)
  }

  lemma CallAfforded(c: Setting, s: State, step: Step)
    requires Listing(c) && Sound(c.w, s) && Fits(c, s) && Enabled(s, step) && Unattended(c, s, step) && !Disturbs(step)
    ensures Afforded(c, s, Apply(c.w, s, step))
  {
    hide Sound, Fits, Enabled, Unattended, Apply, Budget, Effective, Listing;
    StepCharged(c, s, step);
    StepSound(c.w, s, step);
  }

  /** A delivery or an event after a call costs nothing. */
  lemma ThenFree(c: Setting, s: State, t: State, step: Step)
    requires Listing(c) && Afforded(c, s, t) && Enabled(t, step) && Unattended(c, t, step)
    requires step.ModuleDelivered? || step.ExporterDelivered? || step.ExporterRequeued?
    ensures Afforded(c, s, Apply(c.w, t, step))
  {
    hide Sound, Fits, Enabled, Unattended, Apply, Budget, Listing;
    CallAfforded(c, t, step);
    WritesNothing(c, t, step);
  }

  lemma WritesNothing(c: Setting, t: State, step: Step)
    requires Enabled(t, step)
    requires step.ModuleDelivered? || step.ExporterDelivered? || step.ExporterRequeued?
    ensures var u := Apply(c.w, t, step);
            && u.modules.stored == t.modules.stored && u.exporters.stored == t.exporters.stored && u.out == t.out
  {
    hide Prepare, WriteStatus, ReadRef, TouchRef, RenderAll, ConfigWritten, WorkloadWritten, PartWritten, ReportWritten;
  }

  lemma ModuleNewsFree(c: Setting, s: State, t: State, k: Key)
    requires Listing(c) && Afforded(c, s, t)
    ensures Afforded(c, s, ModuleNews(t, k))
  {
    hide Afforded, Listing, Lists, AnswersRefs, AnswersText;
    if NewsOf(t.modules, k) != t.modules {
      var step := ModuleDelivered(k, t.modules.stored[k].meta.resourceVersion);
      NewestDelivered(c, s, t, k);
      ThenFree(c, s, t, step);
    } else {
      assert ModuleNews(t, k) == t;
    }
  }

  lemma NewestDelivered(c: Setting, s: State, t: State, k: Key)
    requires Listing(c) && Afforded(c, s, t)
    ensures k in t.modules.stored && NewsOf(t.modules, k) != t.modules ==>
              var step := ModuleDelivered(k, t.modules.stored[k].meta.resourceVersion);
              Enabled(t, step) && Unattended(c, t, step) && Apply(c.w, t, step) == ModuleNews(t, k)
    ensures k in t.exporters.stored && NewsOf(t.exporters, k) != t.exporters ==>
              var step := ExporterDelivered(k, t.exporters.stored[k].meta.resourceVersion);
              Enabled(t, step) && Unattended(c, t, step) && Apply(c.w, t, step) == ExporterNews(t, k)
  {
    hide ModuleWorkerSound, ExporterWorkerSound, ConfigsSound, ModulesWithin, ExportersWithin, Fits, Budget, Effective, Lists, Listing,
         Prepare, WriteStatus, ReadRef, TouchRef, RenderAll, ConfigWritten, WorkloadWritten, PartWritten, ReportWritten;
    NewestIsNews(t.modules, t.clock, k);
    NewestIsNews(t.exporters, t.clock, k);
  }

  lemma NewestIsNews<S, T>(st: Store<S, T>, clock: nat, k: Key)
    requires Logged(st, clock)
    ensures k in st.stored ==>
              var rv := st.stored[k].meta.resourceVersion;
              && rv in st.log && st.log[rv] == st.stored[k] && st.stored[k].meta.key == k
              && (k in st.cache && st.cache[k] != st.stored[k] ==> st.cache[k].meta.resourceVersion < rv)
  {
    if k in st.stored {
      assert Version(st, st.stored[k]);
    }
    if k in st.cache {
      assert Version(st, st.cache[k]);
    }
  }

  lemma ExporterNewsFree(c: Setting, s: State, t: State, k: Key)
    requires Listing(c) && Afforded(c, s, t)
    ensures Afforded(c, s, ExporterNews(t, k))
  {
    hide Afforded, Listing, Lists, AnswersRefs, AnswersText;
    if NewsOf(t.exporters, k) != t.exporters {
      var step := ExporterDelivered(k, t.exporters.stored[k].meta.resourceVersion);
      NewestDelivered(c, s, t, k);
      ThenFree(c, s, t, step);
    } else {
      assert ExporterNews(t, k) == t;
    }
  }

  lemma EventFree(c: Setting, s: State, t: State, u: State, k: Key)
    requires Listing(c) && Afforded(c, s, t)
    requires u == t || u == t.(exporters := Enqueue(t.exporters, k))
    ensures Afforded(c, s, u)
  {
    hide Afforded, Listing, Prepare, WriteStatus, ReadRef, TouchRef, RenderAll, ConfigWritten, WorkloadWritten, PartWritten, ReportWritten;
    if u != t {
      assert Apply(c.w, t, ExporterRequeued(k)) == u;
      ThenFree(c, s, t, ExporterRequeued(k));
    }
  }

  lemma ModuleMovesAfforded(c: Setting, s: State, k: Key, order: seq<Key>, t1: int, t2: int)
    requires Listing(c) && Steady(c, s) && CanMove(c, s, ModuleTurn(k, order, t1, t2))
    ensures Afforded(c, s, ModuleMoves(c.w, s, k, order, t1, t2))
  {
    hide Afforded, Sound, Fits, Listing, Lists, NoPanics, AnswersRefs, Load, Prepare, WriteStatus, ReadRef, TouchRef, NewsOf;
    match s.mw {
      case ModuleIdle => CallAfforded(c, s, LoadModule(k));
      case Loaded(_) => CallAfforded(c, s, PrepareStatus(Some(order), t1, t2));
      case Prepared(m, _) =>
        CallAfforded(c, s, WriteModuleStatus);
        ModuleNewsFree(c, s, WriteStatus(s), m.meta.key);
      case Touching(_, refs) => CallAfforded(c, s, if refs == [] then FinishModule else ReadReference);
      case Holding(_, held, _) =>
        CallAfforded(c, s, TouchReference(true));
        ExporterNewsFree(c, s, TouchRef(s, true), held.meta.key);
    }
  }

  lemma ExporterMovesAfforded(c: Setting, s: State, k: Key, order: seq<Key>, t1: int, t2: int)
    requires Listing(c) && Steady(c, s) && CanMove(c, s, ExporterTurn(k, order, t1, t2))
    ensures Afforded(c, s, ExporterMoves(c.w, s, k, order, t1, t2))
  {
    hide Afforded, Sound, Fits, Listing, Lists, NoPanics, AnswersText, Fetch, RenderAll, ConfigWritten, WorkloadWritten, ReportWritten, NewsOf;
    match s.ew {
      case ExporterIdle => CallAfforded(c, s, FetchExporter(k));
      case Fetched(_) => CallAfforded(c, s, RenderModules(order));
      case Gathered(x, _, _) =>
        CallAfforded(c, s, WriteConfig);
        EventFree(c, s, ConfigWritten(c.w, s), AfterConfig(c.w, s), x.meta.key);
      case Configured(x, _) =>
        CallAfforded(c, s, WriteWorkload);
        EventFree(c, s, WorkloadWritten(s), AfterWorkload(s), x.meta.key);
      case Applied(x, _) =>
        CallAfforded(c, s, WriteExporterStatus(t1, t2));
        ExporterNewsFree(c, s, ReportWritten(s, t1, t2), x.meta.key);
    }
  }

  // ---- every turn, every interleaving ----

  lemma FurtherDecreases(c: Setting, s: State, t: State)
    requires Listing(c) && Steady(c, s) && Afforded(c, s, t) && Further(c, s, t)
    ensures Steady(c, t) && Remaining(c, t) < Remaining(c, s)
  {
    hide Sound, Fits, Listing, NoPanics, Prompt, Effective, Budget, ModuleCalls, ExporterCalls, Lap, Times;
    if Effective(s, t) {
      TimesLess(Lap(c) + 12, Budget(c, s), Budget(c, t));
    } else {
      TimesAtMost(Lap(c) + 12, Budget(c, s), Budget(c, t), 0);
      TimesZero(Lap(c) + 12);
    }
  }

  lemma ModuleTurnDecreases(c: Setting, s: State, k: Key, order: seq<Key>, t1: int, t2: int)
    requires Listing(c) && Steady(c, s) && CanMove(c, s, ModuleTurn(k, order, t1, t2))
    ensures var t := ModuleMoves(c.w, s, k, order, t1, t2);
            Steady(c, t) && Remaining(c, t) < Remaining(c, s)
  {
    hide Steady, Afforded, Further, Remaining, ModuleMoves, Lists, Listing, AnswersRefs;
    ModuleMovesFurther(c, s, k, order, t1, t2);
    ModuleMovesAfforded(c, s, k, order, t1, t2);
    FurtherDecreases(c, s, ModuleMoves(c.w, s, k, order, t1, t2));
  }

  lemma ExporterTurnDecreases(c: Setting, s: State, k: Key, order: seq<Key>, t1: int, t2: int)
    requires Listing(c) && Steady(c, s) && CanMove(c, s, ExporterTurn(k, order, t1, t2))
    ensures var t := ExporterMoves(c.w, s, k, order, t1, t2);
            Steady(c, t) && Remaining(c, t) < Remaining(c, s)
  {
    hide Steady, Afforded, Further, Remaining, ExporterMoves, Lists, Listing, AnswersText;
    ExporterMovesFurther(c, s, k, order, t1, t2);
    ExporterMovesAfforded(c, s, k, order, t1, t2);
    FurtherDecreases(c, s, ExporterMoves(c.w, s, k, order, t1, t2));
  }

  /** What a change of readiness may bring back. */
  ghost function ReadinessCost(c: Setting): nat {
    Lap(c) + 19
  }

  lemma ReadinessAfforded(c: Setting, s: State, k: Key, replicas: int)
    requires Listing(c) && Steady(c, s)
    ensures var t := ReadinessMoves(s, k, replicas);
            Steady(c, t) && Budget(c, t) <= Budget(c, s) + 1
  {
    hide Fits, Listing, NoPanics, Budget, Sound, Apply, Enabled;
    var ready, t := s.(out := s.out.(ready := s.out.ready[k := replicas])), ReadinessMoves(s, k, replicas);
    ReadinessPaid(c, s, k, replicas);
    ReadinessIsStep(c.w, s, k, replicas);
    StepSound(c.w, s, ReadinessChanges(k, replicas));
    EventFree(c, ready, ready, t, k);
    SameModulesCalm(c.w, s, t);
  }

  lemma ReadinessTurnCosts(c: Setting, s: State, k: Key, replicas: int)
    requires Listing(c) && Steady(c, s)
    ensures var t := ReadinessMoves(s, k, replicas);
            Steady(c, t) && Remaining(c, t) < Remaining(c, s) + ReadinessCost(c)
  {
    hide Steady, Listing, Budget, Times, Lap;
    var t := ReadinessMoves(s, k, replicas);
    ReadinessAfforded(c, s, k, replicas);
    assert |t.exporters.queue| <= |s.exporters.queue| + 1;
    TimesAtMost(Lap(c) + 12, Budget(c, s), Budget(c, t), 1);
    TimesNext(Lap(c) + 12, 0);
    TimesZero(Lap(c) + 12);
  }

  lemma ReadinessIsStep(w: World, s: State, k: Key, replicas: int)
    ensures var step := ReadinessChanges(k, replicas);
            Enabled(s, step) && Apply(w, s, step) == s.(out := s.out.(ready := s.out.ready[k := replicas]))
  {
    hide Prepare, WriteStatus, ReadRef, TouchRef, RenderAll, ConfigWritten, WorkloadWritten, PartWritten, ReportWritten;
  }

  lemma SameModulesCalm(w: World, s: State, t: State)
    requires NoPanics(w, s) && t.modules == s.modules
    ensures NoPanics(w, t)
  {
    hide Convert;
  }

  ghost function AfterTurn(c: Setting, s: State, turn: Turn): State
    requires Listing(c) && CanMove(c, s, turn)
  {
    match turn
    case ModuleTurn(k, order, t1, t2) => ModuleMoves(c.w, s, k, order, t1, t2)
    case ExporterTurn(k, order, t1, t2) => ExporterMoves(c.w, s, k, order, t1, t2)
    case ReadinessTurn(k, replicas) => ReadinessMoves(s, k, replicas)
  }

  ghost predicate TurnRun(c: Setting, s: State, turns: seq<Turn>, end: State)
    requires Listing(c)
    decreases |turns|
  {
    if turns == [] then s == end
    else CanMove(c, s, turns[0]) && TurnRun(c, AfterTurn(c, s, turns[0]), turns[1..], end)
  }

  function ReadinessTurns(turns: seq<Turn>): nat {
    if turns == [] then 0 else One(turns[0].ReadinessTurn?) + ReadinessTurns(turns[1..])
  }

  lemma {:induction false} TurnsBounded(c: Setting, s: State, turns: seq<Turn>, end: State)
    requires Listing(c) && Steady(c, s) && TurnRun(c, s, turns, end)
    ensures Steady(c, end)
    ensures |turns| + Remaining(c, end) <= Remaining(c, s) + Times(ReadinessCost(c), ReadinessTurns(turns))
    decreases |turns|
  {
    hide ModuleMoves, ExporterMoves, ReadinessMoves, Steady, Remaining, ReadinessCost, Lists, Listing, CanMove;
    if turns == [] {
      TimesZero(ReadinessCost(c));
    } else {
      match turns[0] {
        case ModuleTurn(k, order, t1, t2) => ModuleTurnDecreases(c, s, k, order, t1, t2);
        case ExporterTurn(k, order, t1, t2) => ExporterTurnDecreases(c, s, k, order, t1, t2);
        case ReadinessTurn(k, replicas) =>
          ReadinessTurnCosts(c, s, k, replicas);
          TimesNext(ReadinessCost(c), ReadinessTurns(turns[1..]));
      }
      TurnsBounded(c, AfterTurn(c, s, turns[0]), turns[1..], end);
    }
  }

  // ---- each move is a run of covered steps ----

  lemma StatusMoveRuns(w: World, s: State, k: Key) returns (steps: seq<Step>)
    requires Sound(w, s) && s.mw.Prepared?
    ensures CoveredRun(w, s, steps, ModuleNews(WriteStatus(s), k))
  {
    hide Sound, CoveredRun, WriteStatus, NewsOf;
    OneStep(w, s, WriteModuleStatus);
    StepSound(w, s, WriteModuleStatus);
    var t := WriteStatus(s);
    assert Apply(w, s, WriteModuleStatus) == t;
    var news := ModuleNewsAfter(w, t, k);
    CoveredConcat(w, s, [WriteModuleStatus], t, news, ModuleNews(t, k));
    steps := [WriteModuleStatus] + news;
  }

  lemma TouchMoveRuns(w: World, s: State, k: Key) returns (steps: seq<Step>)
    requires Sound(w, s) && s.mw.Holding?
    ensures CoveredRun(w, s, steps, ExporterNews(TouchRef(s, true), k))
  {
    hide Sound, CoveredRun, TouchRef, NewsOf;
    OneStep(w, s, TouchReference(true));
    StepSound(w, s, TouchReference(true));
    var t := TouchRef(s, true);
    assert Apply(w, s, TouchReference(true)) == t;
    var news := ExporterNewsAfter(w, t, k);
    CoveredConcat(w, s, [TouchReference(true)], t, news, ExporterNews(t, k));
    steps := [TouchReference(true)] + news;
  }

  lemma ModuleMovesRun(w: World, s: State, k: Key, order: seq<Key>, t1: int, t2: int) returns (steps: seq<Step>)
    requires Sound(w, s) && Lists(order, s.exporters.cache.Keys) && (s.mw.ModuleIdle? ==> k in s.modules.queue)
    ensures CoveredRun(w, s, steps, ModuleMoves(w, s, k, order, t1, t2))
  {
    hide Sound, CoveredRun, Load, Prepare, WriteStatus, ReadRef, TouchRef, NewsOf, Lists;
    match s.mw {
      case ModuleIdle =>
        steps := [LoadModule(k)];
        OneStep(w, s, LoadModule(k));
      case Loaded(_) =>
        steps := [PrepareStatus(Some(order), t1, t2)];
        OneStep(w, s, PrepareStatus(Some(order), t1, t2));
      case Prepared(m, _) => steps := StatusMoveRuns(w, s, m.meta.key);
      case Touching(_, refs) =>
        var step := if refs == [] then FinishModule else ReadReference;
        steps := [step];
        OneStep(w, s, step);
      case Holding(_, held, _) => steps := TouchMoveRuns(w, s, held.meta.key);
    }
  }

  /** A write of an owned object, and its event if it changed something. */
  lemma WriteThenEvent(w: World, s: State, step: Step, t: State, u: State, k: Key) returns (steps: seq<Step>)
    requires Enabled(s, step) && Covered(s, step) && Apply(w, s, step) == t
    requires u == t || u == t.(exporters := Enqueue(t.exporters, k))
    ensures CoveredRun(w, s, steps, u)
  {
    hide CoveredRun, Load, Prepare, WriteStatus, ReadRef, TouchRef, Fetch, RenderAll, ConfigWritten, WorkloadWritten, ReportWritten;
    OneStep(w, s, step);
    steps := [step];
    if u != t {
      assert Apply(w, t, ExporterRequeued(k)) == u;
      steps := Passes.Then(w, s, steps, t, ExporterRequeued(k));
    }
  }

  lemma ReportMoveRuns(w: World, s: State, k: Key, t1: int, t2: int) returns (steps: seq<Step>)
    requires Sound(w, s) && s.ew.Applied?
    ensures CoveredRun(w, s, steps, ExporterNews(ReportWritten(s, t1, t2), k))
  {
    hide Sound, CoveredRun, ReportWritten, NewsOf;
    var report := WriteExporterStatus(t1, t2);
    OneStep(w, s, report);
    StepSound(w, s, report);
    var t := ReportWritten(s, t1, t2);
    assert Apply(w, s, report) == t;
    var news := ExporterNewsAfter(w, t, k);
    CoveredConcat(w, s, [report], t, news, ExporterNews(t, k));
    steps := [report] + news;
  }

  lemma OwnedMoveRuns(w: World, s: State) returns (steps: seq<Step>)
    requires s.ew.Gathered? || s.ew.Configured?
    ensures CoveredRun(w, s, steps, if s.ew.Gathered? then AfterConfig(w, s) else AfterWorkload(s))
  {
    hide CoveredRun, ConfigWritten, WorkloadWritten, Load, Prepare, WriteStatus, ReadRef, TouchRef, Fetch, RenderAll, ReportWritten;
    if s.ew.Gathered? {
      steps := WriteThenEvent(w, s, WriteConfig, ConfigWritten(w, s), AfterConfig(w, s), s.ew.x.meta.key);
    } else {
      steps := WriteThenEvent(w, s, WriteWorkload, WorkloadWritten(s), AfterWorkload(s), s.ew.x.meta.key);
    }
  }

  lemma ExporterMovesRun(w: World, s: State, k: Key, order: seq<Key>, t1: int, t2: int) returns (steps: seq<Step>)
    requires Sound(w, s) && Lists(order, s.modules.cache.Keys) && (s.ew.ExporterIdle? ==> k in s.exporters.queue)
    ensures CoveredRun(w, s, steps, ExporterMoves(w, s, k, order, t1, t2))
  {
    hide Sound, CoveredRun, Fetch, RenderAll, AfterConfig, AfterWorkload, ReportWritten, NewsOf, Lists;
    match s.ew {
      case ExporterIdle =>
        steps := [FetchExporter(k)];
        OneStep(w, s, FetchExporter(k));
      case Fetched(_) =>
        steps := [RenderModules(order)];
        OneStep(w, s, RenderModules(order));
      case Gathered(_, _, _) => steps := OwnedMoveRuns(w, s);
      case Configured(_, _) => steps := OwnedMoveRuns(w, s);
      case Applied(x, _) => steps := ReportMoveRuns(w, s, x.meta.key, t1, t2);
    }
  }

  lemma ReadinessMovesRun(w: World, s: State, k: Key, replicas: int) returns (steps: seq<Step>)
    ensures CoveredRun(w, s, steps, ReadinessMoves(s, k, replicas))
  {
    hide CoveredRun, Load, Prepare, WriteStatus, ReadRef, TouchRef, Fetch, RenderAll, ConfigWritten, WorkloadWritten, PartWritten, ReportWritten;
    ReadinessIsStep(w, s, k, replicas);
    OneStep(w, s, ReadinessChanges(k, replicas));
    var t := s.(out := s.out.(ready := s.out.ready[k := replicas]));
    assert Apply(w, t, ExporterRequeued(k)) == ReadinessMoves(s, k, replicas);
    steps := Passes.Then(w, s, [ReadinessChanges(k, replicas)], t, ExporterRequeued(k));
  }

  lemma {:induction false} TurnsCovered(c: Setting, s: State, turns: seq<Turn>, end: State) returns (steps: seq<Step>)
    requires Listing(c) && Sound(c.w, s) && TurnRun(c, s, turns, end)
    ensures CoveredRun(c.w, s, steps, end)
    decreases |turns|
  {
    hide ModuleMoves, ExporterMoves, ReadinessMoves, Sound, CoveredRun, Lists, Listing, AnswersRefs, AnswersText;
    if turns == [] {
      steps := [];
      EmptyRun(c.w, s);
    } else {
      var t := AfterTurn(c, s, turns[0]);
      match turns[0] {
        case ModuleTurn(k, order, t1, t2) => steps := ModuleMovesRun(c.w, s, k, order, t1, t2);
        case ExporterTurn(k, order, t1, t2) => steps := ExporterMovesRun(c.w, s, k, order, t1, t2);
        case ReadinessTurn(k, replicas) => steps := ReadinessMovesRun(c.w, s, k, replicas);
      }
      CoveredRunSound(c.w, s, steps, t);
      var rest := TurnsCovered(c, t, turns[1..], end);
      CoveredConcat(c.w, s, steps, t, rest, end);
      steps := steps + rest;
    }
  }

  /** Neither worker can go on. */
  ghost predicate Standstill(c: Setting, s: State)
    requires Listing(c)
  {
    forall turn: Turn :: !turn.ReadinessTurn? ==> !CanMove(c, s, turn)
  }

  lemma StandstillIsRest(c: Setting, s: State)
    requires Listing(c) && Prompt(s) && Standstill(c, s)
    ensures Settled(s)
  {
    hide Lists, MapIn, RefsIn;
    var eorder, morder := c.elist(s.exporters.cache.Keys), c.mlist(s.modules.cache.Keys);
    ReferenceAnswers(c, s);
    var k := Key("", "");
    assert !CanMove(c, s, ModuleTurn(k, eorder, 0, 0)) && !CanMove(c, s, ExporterTurn(k, morder, 0, 0));
    forall j ensures j !in s.modules.queue && j !in s.exporters.queue {
      assert !CanMove(c, s, ModuleTurn(j, eorder, 0, 0)) && !CanMove(c, s, ExporterTurn(j, morder, 0, 0));
    }
  }

  lemma ReferenceAnswers(c: Setting, s: State)
    requires Listing(c)
    ensures Lists(c.elist(s.exporters.cache.Keys), s.exporters.cache.Keys) && Lists(c.mlist(s.modules.cache.Keys), s.modules.cache.Keys)
    ensures s.mw.Loaded? ==> AnswersRefs(c, s, c.elist(s.exporters.cache.Keys))
    ensures s.ew.Fetched? ==> AnswersText(c, s, c.mlist(s.modules.cache.Keys))
  {
  }

  /** Left alone, without panics and with prompt informers, the two workers come to rest whatever they hold and whatever
      way their API calls interleave: no sequence of calls is longer than what remains at its start and what changes of
      readiness add, and where neither worker can go on every ConfigMap and workload is right. */
  lemma InterleavedOperatorSettles(c: Setting, history: seq<Step>, s: State, turns: seq<Turn>, end: State)
    requires Listing(c) && Fits(c, s) && CoveredRun(c.w, START, history, s)
    requires Prompt(s) && NoPanics(c.w, s) && TurnRun(c, s, turns, end)
    ensures |turns| <= Remaining(c, s) + Times(ReadinessCost(c), ReadinessTurns(turns))
    ensures Standstill(c, end) ==>
              forall e :: e in end.exporters.stored ==>
                && e in end.out.configs && RightConfig(c.w, end.modules.stored, end.exporters.stored[e], end.out.configs[e])
                && e in end.out.workloads && end.out.workloads[e] == DesiredWorkload(e, end.exporters.stored[e].spec)
  {
    hide Sound, Served, Fits, NoPanics, Prompt, Remaining, ReadinessCost, CoveredRun, TurnRun, Settled, RightConfig, DesiredWorkload,
         Lists, Listing, Standstill;
    ReachableServed(c.w, history, s);
    TurnsBounded(c, s, turns, end);
    if Standstill(c, end) {
      var steps := TurnsCovered(c, s, turns, end);
      RunKeeps(c.w, s, steps, end);
      StandstillIsRest(c, end);
      forall e | e in end.exporters.stored
        ensures e in end.out.configs && RightConfig(c.w, end.modules.stored, end.exporters.stored[e], end.out.configs[e])
        ensures e in end.out.workloads && end.out.workloads[e] == DesiredWorkload(e, end.exporters.stored[e].spec)
      {
        SettledIsRight(c.w, end, e);
      }
    }
  }
}
