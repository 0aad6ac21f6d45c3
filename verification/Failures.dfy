/** A whole Reconcile when calls to the API may fail: what it leaves behind, and that it is a run of steps. */
module Failures {
  import opened Base
  import opened Api
  import opened Selector
  import opened Converter
  import opened Rendering
  import opened Reports
  import Owned
  import opened ApiServer
  import opened Steps
  import opened LostUpdates
  import opened Convergence
  import opened Passes

  // ---- modules ----

  /** How the API answers the calls of one module Reconcile: the Get, the List (None when it fails), the status update,
      and the exporters whose Get and Update go through. */
  datatype ModuleAnswers = ModuleAnswers(read: bool, listing: Option<seq<Key>>, status: bool, reached: set<Key>)

  ghost predicate ModuleAnswerable(s: State, a: ModuleAnswers) {
    a.listing.Some? ==> Lists(a.listing.value, s.exporters.cache.Keys)
  }

  /** The touching loop, reaching only some exporters; failures are skipped or logged. */
  function TouchReached(s: State, reached: set<Key>): State
    requires s.mw.Touching?
    decreases |s.mw.refs|
  {
    if s.mw.refs == [] then s.(mw := ModuleIdle)
    else
      var answered := s.mw.refs[0] in reached;
      var h := ReadRef(s);
      TouchReached(if h.mw.Holding? then ExporterNews(TouchRef(h, answered), h.mw.held.meta.key) else h, reached)
  }

  ghost function ModulePassUnder(w: World, s: State, k: Key, a: ModuleAnswers, t1: int, t2: int): State
    requires ModuleAnswerable(s, a)
  {
    var l := Load(s, k);
    if !a.read then ModuleRetry(s.(modules := Dequeue(s.modules, k)), k)
    else if l.mw.ModuleIdle? then l
    else
      var b := Prepare(w, l, a.listing, t1, t2);
      if b.mw.ModuleIdle? then b
      else if !a.status then ModuleRetry(b, k)
      else
        var c := WriteStatus(b);
        if c.mw.ModuleIdle? then c else TouchReached(ModuleNews(c, k), a.reached)
  }

  lemma {:induction false} AllReached(s: State, reached: set<Key>)
    requires s.mw.Touching? && s.exporters.cache.Keys <= reached
    requires forall k :: k in s.exporters.cache ==> s.exporters.cache[k].meta.key == k
    requires forall k :: k in s.exporters.stored ==> s.exporters.stored[k].meta.key == k
    ensures TouchReached(s, reached) == TouchAll(s)
    decreases |s.mw.refs|
  {
    if s.mw.refs != [] {
      var h := ReadRef(s);
      if h.mw.Holding? {
        TouchKeepsKeys(h);
        AllReached(ExporterNews(TouchRef(h, true), h.mw.held.meta.key), reached);
      } else {
        AllReached(h, reached);
      }
    }
  }

  lemma TouchKeepsKeys(h: State)
    requires h.mw.Holding? && h.mw.held.meta.key in h.exporters.cache
    requires forall k :: k in h.exporters.cache ==> h.exporters.cache[k].meta.key == k
    requires forall k :: k in h.exporters.stored ==> h.exporters.stored[k].meta.key == k
    ensures var u := ExporterNews(TouchRef(h, true), h.mw.held.meta.key);
            && u.mw == Touching(h.mw.m, h.mw.refs)
            && u.exporters.cache.Keys == h.exporters.cache.Keys
            && (forall k :: k in u.exporters.cache ==> u.exporters.cache[k].meta.key == k)
            && (forall k :: k in u.exporters.stored ==> u.exporters.stored[k].meta.key == k)
  {
  }

  function WellAnswered(s: State, eorder: seq<Key>): ModuleAnswers {
    ModuleAnswers(true, Some(eorder), true, s.exporters.cache.Keys)
  }

  /** When no call fails this is the module pass. */
  lemma ModulePassWell(w: World, s: State, k: Key, eorder: seq<Key>, t1: int, t2: int)
    requires Lists(eorder, s.exporters.cache.Keys)
    requires forall j :: j in s.exporters.cache ==> s.exporters.cache[j].meta.key == j
    requires forall j :: j in s.exporters.stored ==> s.exporters.stored[j].meta.key == j
    ensures ModulePassUnder(w, s, k, WellAnswered(s, eorder), t1, t2) == ModulePass(w, s, k, eorder, t1, t2)
  {
    hide Convert, ModuleReport, Referencing, Items, Lists, TouchAll, TouchReached;
    var l := Load(s, k);
    if l.mw.Loaded? {
      var b := Prepare(w, l, Some(eorder), t1, t2);
      PrepareUnderShape(w, l, Some(eorder), t1, t2);
      if b.mw.Prepared? {
        WriteShape(b);
        var c := WriteStatus(b);
        if c.mw.Touching? {
          AllReached(ModuleNews(c, k), s.exporters.cache.Keys);
        }
      }
    }
  }

  lemma OneRun(w: World, s: State, step: Step)
    requires Enabled(s, step)
    ensures Runs(w, s, [step], Apply(w, s, step))
  {
    hide Apply, Enabled;
    assert [step][1..] == [];
  }

  lemma ThenRun(w: World, a: State, p: seq<Step>, b: State, step: Step) returns (q: seq<Step>)
    requires Runs(w, a, p, b) && Enabled(b, step)
    ensures Runs(w, a, q, Apply(w, b, step))
  {
    hide Apply, Enabled;
    OneRun(w, b, step);
    RunsConcat(w, a, p, b, [step], Apply(w, b, step));
    q := p + [step];
  }

  lemma NewsRun(w: World, a: State, p: seq<Step>, t: State, k: Key) returns (q: seq<Step>)
    requires Sound(w, t) && Runs(w, a, p, t)
    ensures Runs(w, a, q, ExporterNews(t, k)) && Sound(w, ExporterNews(t, k))
  {
    hide Sound, Runs, CoveredRun, NewsOf;
    var news := ExporterNewsAfter(w, t, k);
    CoveredIsRun(w, t, news, ExporterNews(t, k));
    RunsConcat(w, a, p, t, news, ExporterNews(t, k));
    q := p + news;
  }

  lemma TouchShape(h: State, answered: bool, k: Key)
    requires h.mw.Holding?
    ensures ExporterNews(TouchRef(h, answered), k).mw == Touching(h.mw.m, h.mw.refs)
  {
  }

  lemma {:induction false} TouchReachedRuns(w: World, s: State, reached: set<Key>) returns (steps: seq<Step>)
    requires Sound(w, s) && s.mw.Touching?
    ensures Runs(w, s, steps, TouchReached(s, reached))
    decreases |s.mw.refs|
  {
    hide Sound, Runs, TouchRef, NewsOf;
    if s.mw.refs == [] {
      OneRun(w, s, FinishModule);
      steps := [FinishModule];
    } else {
      var k := s.mw.refs[0];
      OneRun(w, s, ReadReference);
      steps := [ReadReference];
      var h := ReadRef(s);
      assert Apply(w, s, ReadReference) == h;
      StepSound(w, s, ReadReference);
      var u := h;
      if h.mw.Holding? {
        var t := TouchRef(h, k in reached);
        assert Apply(w, h, TouchReference(k in reached)) == t;
        steps := ThenRun(w, s, steps, h, TouchReference(k in reached));
        StepSound(w, h, TouchReference(k in reached));
        steps := NewsRun(w, s, steps, t, h.mw.held.meta.key);
        u := ExporterNews(t, h.mw.held.meta.key);
        TouchShape(h, k in reached, h.mw.held.meta.key);
      }
      var rest := TouchReachedRuns(w, u, reached);
      RunsConcat(w, s, steps, u, rest, TouchReached(u, reached));
      steps := steps + rest;
    }
  }

  lemma PrepareUnderShape(w: World, l: State, listing: Option<seq<Key>>, t1: int, t2: int)
    requires l.mw.Loaded? && (listing.Some? ==> Lists(listing.value, l.exporters.cache.Keys))
    ensures var b := Prepare(w, l, listing, t1, t2); b.mw.ModuleIdle? || (b.mw.Prepared? && b.mw.m == l.mw.m)
  {
    hide Convert, ModuleReport, Referencing, Items;
  }

  /** A failed Get: the key goes back on the queue. */
  lemma FailedReadRuns(w: World, s: State, k: Key) returns (steps: seq<Step>)
    requires s.mw.ModuleIdle? && k in s.modules.queue
    requires k in s.modules.cache ==> s.modules.cache[k].meta.key == k
    ensures Runs(w, s, steps, ModuleRetry(s.(modules := Dequeue(s.modules, k)), k))
  {
    hide Runs, Prepare, WriteStatus, ReadRef, TouchRef, Fetch, RenderAll, ConfigWritten, WorkloadWritten, ReportWritten;
    var l := Load(s, k);
    var end := ModuleRetry(s.(modules := Dequeue(s.modules, k)), k);
    OneRun(w, s, LoadModule(k));
    assert Apply(w, s, LoadModule(k)) == l;
    if l.mw.ModuleIdle? {
      assert Apply(w, l, ModuleRequeued(k)) == end;
      steps := ThenRun(w, s, [LoadModule(k)], l, ModuleRequeued(k));
    } else {
      assert Apply(w, l, ModuleCallFails) == end;
      steps := ThenRun(w, s, [LoadModule(k)], l, ModuleCallFails);
    }
  }

  lemma StatusFails(w: World, s: State, before: seq<Step>, b: State, k: Key) returns (steps: seq<Step>)
    requires Runs(w, s, before, b) && b.mw.Prepared? && b.mw.m.meta.key == k
    ensures Runs(w, s, steps, ModuleRetry(b, k))
  {
    hide Runs;
    assert Apply(w, b, ModuleCallFails) == ModuleRetry(b, k);
    steps := ThenRun(w, s, before, b, ModuleCallFails);
  }

  /** Whatever calls fail, a module Reconcile is a run of steps, so everything proved of all runs holds of it. */
  lemma ModulePassUnderRuns(w: World, s: State, k: Key, a: ModuleAnswers, t1: int, t2: int) returns (steps: seq<Step>)
    requires Sound(w, s) && s.mw.ModuleIdle? && k in s.modules.queue && ModuleAnswerable(s, a)
    requires k in s.modules.cache ==> s.modules.cache[k].meta.key == k
    ensures Runs(w, s, steps, ModulePassUnder(w, s, k, a, t1, t2))
  {
    hide Sound, Runs, Prepare, WriteStatus, NewsOf, TouchReached, Lists;
    var load, prepare := LoadModule(k), PrepareStatus(a.listing, t1, t2);
    if !a.read {
      steps := FailedReadRuns(w, s, k);
      return;
    }
    var l := Load(s, k);
    OneRun(w, s, load);
    assert Apply(w, s, load) == l;
    steps := [load];
    if l.mw.ModuleIdle? {
      return;
    }
    StepSound(w, s, load);
    var b := Prepare(w, l, a.listing, t1, t2);
    assert Apply(w, l, prepare) == b;
    steps := ThenRun(w, s, steps, l, prepare);
    StepSound(w, l, prepare);
    PrepareUnderShape(w, l, a.listing, t1, t2);
    if b.mw.ModuleIdle? {
      return;
    }
    if !a.status {
      steps := StatusFails(w, s, steps, b, k);
      return;
    }
    steps := WriteAndTouchRuns(w, s, steps, b, k, a.reached);
  }

  lemma WriteAndTouchRuns(w: World, s: State, before: seq<Step>, b: State, k: Key, reached: set<Key>) returns (steps: seq<Step>)
    requires Sound(w, b) && Runs(w, s, before, b) && b.mw.Prepared?
    ensures var c := WriteStatus(b);
            Runs(w, s, steps, if c.mw.ModuleIdle? then c else if c.mw.Touching? then TouchReached(ModuleNews(c, k), reached) else c)
    ensures WriteStatus(b).mw.ModuleIdle? || WriteStatus(b).mw.Touching?
  {
    hide Sound, Runs, WriteStatus, NewsOf, TouchReached;
    var c := WriteStatus(b);
    assert Apply(w, b, WriteModuleStatus) == c;
    steps := ThenRun(w, s, before, b, WriteModuleStatus);
    StepSound(w, b, WriteModuleStatus);
    WriteShape(b);
    if c.mw.Touching? {
      var d := ModuleNews(c, k);
      var news := ModuleNewsAfter(w, c, k);
      CoveredIsRun(w, c, news, d);
      RunsConcat(w, s, steps, c, news, d);
      var rest := TouchReachedRuns(w, d, reached);
      RunsConcat(w, s, steps + news, d, rest, TouchReached(d, reached));
      steps := steps + news + rest;
    }
  }

  // ---- exporters ----

  /** The same for an exporter Reconcile: the Get, the List, the rendering, the writes of the four owned objects in their
      order, the Get of the Deployment's readiness, and the status update. */
  datatype ExporterAnswers = ExporterAnswers(
    read: bool,
    listing: Option<seq<Key>>,
    rendered: bool,
    config: bool,
    deployment: bool,
    service: bool,
    monitor: bool,
    readiness: bool,
    status: bool)

  ghost predicate ExporterAnswerable(s: State, a: ExporterAnswers) {
    a.listing.Some? ==> Lists(a.listing.value, s.modules.cache.Keys)
  }

  ghost function ExporterPassUnder(w: World, s: State, k: Key, a: ExporterAnswers, t1: int, t2: int): State
    requires ExporterAnswerable(s, a)
  {
    var l := Fetch(s, k);
    if !a.read then ExporterRetry(s.(exporters := Dequeue(s.exporters, k)), k)
    else if l.ew.ExporterIdle? then l
    else if a.listing.None? then ExporterRetry(l, k)
    else
      var b := RenderAll(w, l, a.listing.value);
      if b.ew.ExporterIdle? then b else WritePhaseUnder(w, b, k, a, t1, t2)
  }

  function WritePhaseUnder(w: World, b: State, k: Key, a: ExporterAnswers, t1: int, t2: int): State
    requires b.ew.Gathered?
  {
    var c := ConfigWritten(w, b);
    if !a.rendered || !a.config then ExporterRetry(b, k)
    else if !a.deployment then ExporterRetry(c, k)
    else if !a.service then ExporterRetry(PartWritten(c, false), k)
    else if !a.monitor then ExporterRetry(PartWritten(c, true), k)
    else
      var d := WorkloadWritten(c);
      if !a.status then ExporterRetry(d, k)
      else ExporterNews(ReportWritten(OwnedNews(b, d, k), t1, t2, a.readiness), k)
  }

  /** When no call fails this is the exporter pass. */
  lemma ExporterPassWell(w: World, s: State, k: Key, morder: seq<Key>, t1: int, t2: int)
    requires Lists(morder, s.modules.cache.Keys)
    ensures ExporterPassUnder(w, s, k, ExporterAnswers(true, Some(morder), true, true, true, true, true, true, true), t1, t2)
            == ExporterPass(w, s, k, morder, t1, t2)
  {
    hide ConfigWritten, WorkloadWritten, ReportWritten, OwnedNews, NewsOf, ModuleMap, Selected, Items, Lists;
  }

  lemma FailedFetchRuns(w: World, s: State, k: Key) returns (steps: seq<Step>)
    requires s.ew.ExporterIdle? && k in s.exporters.queue
    requires k in s.exporters.cache ==> s.exporters.cache[k].meta.key == k
    ensures Runs(w, s, steps, ExporterRetry(s.(exporters := Dequeue(s.exporters, k)), k))
  {
    hide Runs, Load, Prepare, WriteStatus, ReadRef, TouchRef, RenderAll, ConfigWritten, WorkloadWritten, ReportWritten;
    var l := Fetch(s, k);
    var end := ExporterRetry(s.(exporters := Dequeue(s.exporters, k)), k);
    OneRun(w, s, FetchExporter(k));
    assert Apply(w, s, FetchExporter(k)) == l;
    if l.ew.ExporterIdle? {
      assert Apply(w, l, ExporterRequeued(k)) == end;
      steps := ThenRun(w, s, [FetchExporter(k)], l, ExporterRequeued(k));
    } else {
      assert Apply(w, l, ExporterCallFails) == end;
      steps := ThenRun(w, s, [FetchExporter(k)], l, ExporterCallFails);
    }
  }

  lemma FailsNow(w: World, s: State, before: seq<Step>, b: State, k: Key) returns (steps: seq<Step>)
    requires Runs(w, s, before, b) && !b.ew.ExporterIdle? && b.ew.x.meta.key == k
    ensures Runs(w, s, steps, ExporterRetry(b, k))
  {
    hide Runs, Load, Prepare, WriteStatus, ReadRef, TouchRef, Fetch, RenderAll, ConfigWritten, WorkloadWritten, PartWritten, ReportWritten;
    assert Apply(w, b, ExporterCallFails) == ExporterRetry(b, k);
    steps := ThenRun(w, s, before, b, ExporterCallFails);
  }

  lemma ConfigStep(w: World, b: State)
    requires b.ew.Gathered?
    ensures Enabled(b, WriteConfig) && Apply(w, b, WriteConfig) == ConfigWritten(w, b)
    ensures ConfigWritten(w, b).ew == Configured(b.ew.x, |b.ew.bbModules|)
  {
  }

  lemma WorkloadSteps(w: World, c: State, service: bool)
    requires c.ew.Configured?
    ensures Enabled(c, WritePart(service)) && Apply(w, c, WritePart(service)) == PartWritten(c, service)
    ensures Enabled(c, WriteWorkload) && Apply(w, c, WriteWorkload) == WorkloadWritten(c)
    ensures PartWritten(c, service).ew == c.ew && WorkloadWritten(c).ew == Applied(c.ew.x, c.ew.count)
  {
    hide Owned.DesiredWorkload;
  }

  lemma WritePhaseUnderRuns(w: World, s: State, before: seq<Step>, b: State, k: Key, a: ExporterAnswers, t1: int, t2: int)
    returns (steps: seq<Step>)
    requires Sound(w, b) && Runs(w, s, before, b) && b.ew.Gathered? && b.ew.x.meta.key == k
    ensures Runs(w, s, steps, WritePhaseUnder(w, b, k, a, t1, t2))
  {
    hide Sound, Runs, Apply, Enabled, PartWritten, WorkloadWritten, ConfigWritten, ReportWritten, OwnedNews, NewsOf, ExporterRetry;
    if !a.rendered || !a.config {
      steps := FailsNow(w, s, before, b, k);
      return;
    }
    var c := ConfigWritten(w, b);
    ConfigStep(w, b);
    WorkloadSteps(w, c, a.service);
    steps := ThenRun(w, s, before, b, WriteConfig);
    StepSound(w, b, WriteConfig);
    if !a.deployment {
      steps := FailsNow(w, s, steps, c, k);
    } else if !a.service || !a.monitor {
      steps := ThenRun(w, s, steps, c, WritePart(a.service));
      steps := FailsNow(w, s, steps, PartWritten(c, a.service), k);
    } else {
      var d := WorkloadWritten(c);
      steps := ThenRun(w, s, steps, c, WriteWorkload);
      StepSound(w, c, WriteWorkload);
      if !a.status {
        steps := FailsNow(w, s, steps, d, k);
      } else {
        steps := ReportUnderRuns(w, s, steps, b, d, k, t1, t2, a.readiness);
      }
    }
  }

  /** The event of a changed owned object, the status write, and its delivery. */
  lemma ReportUnderRuns(w: World, s: State, before: seq<Step>, b: State, d: State, k: Key, t1: int, t2: int, seen: bool)
    returns (steps: seq<Step>)
    requires Sound(w, d) && Runs(w, s, before, d) && d.ew.Applied?
    ensures Runs(w, s, steps, ExporterNews(ReportWritten(OwnedNews(b, d, k), t1, t2, seen), k))
  {
    hide Sound, Runs, ReportWritten, NewsOf, OwnedChanged;
    var u := OwnedNews(b, d, k);
    steps := before;
    if OwnedChanged(b, d, k) {
      assert Apply(w, d, ExporterRequeued(k)) == u;
      StepSound(w, d, ExporterRequeued(k));
      steps := ThenRun(w, s, steps, d, ExporterRequeued(k));
    }
    var report := WriteExporterStatus(t1, t2, seen);
    assert Apply(w, u, report) == ReportWritten(u, t1, t2, seen);
    StepSound(w, u, report);
    steps := ThenRun(w, s, steps, u, report);
    steps := NewsRun(w, s, steps, ReportWritten(u, t1, t2, seen), k);
  }

  lemma RenderUnderShape(w: World, l: State, order: seq<Key>)
    requires l.ew.Fetched? && Lists(order, l.modules.cache.Keys)
    ensures var b := RenderAll(w, l, order); b.ew.ExporterIdle? || (b.ew.Gathered? && b.ew.x == l.ew.x)
  {
    hide ModuleMap, Selected, Items;
  }

  /** Whatever calls fail, an exporter Reconcile is a run of steps. */
  lemma ExporterPassUnderRuns(w: World, s: State, k: Key, a: ExporterAnswers, t1: int, t2: int) returns (steps: seq<Step>)
    requires Sound(w, s) && s.ew.ExporterIdle? && k in s.exporters.queue && ExporterAnswerable(s, a)
    requires k in s.exporters.cache ==> s.exporters.cache[k].meta.key == k
    ensures Runs(w, s, steps, ExporterPassUnder(w, s, k, a, t1, t2))
  {
    hide Sound, Runs, RenderAll, WritePhaseUnder, Lists;
    if !a.read {
      steps := FailedFetchRuns(w, s, k);
      return;
    }
    var l := Fetch(s, k);
    OneRun(w, s, FetchExporter(k));
    assert Apply(w, s, FetchExporter(k)) == l;
    steps := [FetchExporter(k)];
    if l.ew.ExporterIdle? {
      return;
    }
    if a.listing.None? {
      steps := FailsNow(w, s, steps, l, k);
      return;
    }
    StepSound(w, s, FetchExporter(k));
    var order := a.listing.value;
    var b := RenderAll(w, l, order);
    assert Apply(w, l, RenderModules(order)) == b;
    steps := ThenRun(w, s, steps, l, RenderModules(order));
    StepSound(w, l, RenderModules(order));
    RenderUnderShape(w, l, order);
    if b.ew.Gathered? {
      steps := WritePhaseUnderRuns(w, s, steps, b, k, a, t1, t2);
    }
  }
}
