/** A whole Reconcile, with the informers keeping pace: the composition of the steps of one worker. */
module Passes {
  import opened Base
  import opened Api
  import opened Selector
  import opened Converter
  import opened Rendering
  import opened Owned
  import opened Reports
  import opened ApiServer
  import opened Steps
  import opened LostUpdates
  import opened Convergence

  /** Workers idle, informers up to date. */
  ghost predicate Synced(s: State) {
    && s.mw.ModuleIdle? && s.ew.ExporterIdle?
    && s.modules.cache == s.modules.stored && s.exporters.cache == s.exporters.stored
  }

  /** How many calls the exporter worker has ahead of it. */
  function ExporterPhase(ew: ExporterWorker): nat {
    match ew
    case ExporterIdle => 0
    case Fetched(_) => 4
    case Gathered(_, _, _) => 3
    case Configured(_, _) => 2
    case Applied(_, _) => 1
  }

  /** The informer delivers the stored version, if it has news. */
  function NewsOf<S(==), T(==)>(st: Store<S, T>, k: Key): Store<S, T> {
    if k in st.stored && (k in st.cache ==> st.cache[k] != st.stored[k]) then Deliver(st, st.stored[k]) else st
  }

  function ModuleNews(s: State, k: Key): State {
    s.(modules := NewsOf(s.modules, k))
  }

  function ExporterNews(s: State, k: Key): State {
    s.(exporters := NewsOf(s.exporters, k))
  }

  /** The loop that touches the referencing exporters. */
  function TouchAll(s: State): State
    requires s.mw.Touching?
    decreases |s.mw.refs|
  {
    if s.mw.refs == [] then s.(mw := ModuleIdle)
    else
      var h := ReadRef(s);
      TouchAll(if h.mw.Holding? then ExporterNews(TouchRef(h, true), h.mw.held.meta.key) else h)
  }

  ghost function ModulePass(w: World, s: State, k: Key, eorder: seq<Key>, t1: int, t2: int): State
    requires Lists(eorder, s.exporters.cache.Keys)
  {
    var a := Load(s, k);
    if a.mw.ModuleIdle? then a
    else
      var b := Prepare(w, a, Some(eorder), t1, t2);
      if b.mw.ModuleIdle? then b
      else
        var c := WriteStatus(b);
        if c.mw.ModuleIdle? then c else TouchAll(ModuleNews(c, k))
  }

  /** Whether the pass changed an owned object, which sends an event to the exporter's queue. */
  predicate OwnedChanged(s: State, t: State, k: Key) {
    || !(k in s.out.configs && k in t.out.configs && s.out.configs[k] == t.out.configs[k])
    || !(k in s.out.workloads && k in t.out.workloads && s.out.workloads[k] == t.out.workloads[k])
  }

  function OwnedNews(s: State, t: State, k: Key): State {
    if OwnedChanged(s, t, k) then t.(exporters := Enqueue(t.exporters, k)) else t
  }

  ghost function ExporterPass(w: World, s: State, k: Key, morder: seq<Key>, t1: int, t2: int): State
    requires Lists(morder, s.modules.cache.Keys)
  {
    var a := Fetch(s, k);
    if a.ew.ExporterIdle? then a
    else
      var b := RenderAll(w, a, morder);
      if b.ew.ExporterIdle? then b
      else
        WritePhase(w, b, k, t1, t2)
  }

  /** The second half of an exporter pass: owned objects, then the status. */
  function WritePhase(w: World, b: State, k: Key, t1: int, t2: int): State
    requires b.ew.Gathered?
  {
    var d := WorkloadWritten(ConfigWritten(w, b));
    ExporterNews(ReportWritten(OwnedNews(b, d, k), t1, t2), k)
  }

  // ---- a pass is a run of covered steps ----

  /** The steps of the operator itself when no call fails: informers, workers, and the events its owned objects send. */
  predicate ByOperator(step: Step) {
    || step.ModuleDelivered? || step.ExporterDelivered? || step.ExporterDropped? || step.ExporterRequeued?
    || step.LoadModule? || step.PrepareStatus? || step.WriteModuleStatus? || step.ReadReference? || step.TouchReference?
    || step.FinishModule? || step.FetchExporter? || step.RenderModules? || step.WriteConfig? || step.WriteWorkload?
    || step.WriteExporterStatus?
  }

  ghost predicate AllByOperator(steps: seq<Step>) {
    forall step :: step in steps ==> ByOperator(step)
  }

  lemma OneStep(w: World, s: State, step: Step)
    requires Enabled(s, step) && Covered(s, step)
    ensures CoveredRun(w, s, [step], Apply(w, s, step))
  {
    hide Apply, Covered, Enabled;
    assert [step][1..] == [];
  }

  lemma {:induction false} CoveredConcat(w: World, a: State, p: seq<Step>, b: State, q: seq<Step>, c: State)
    requires CoveredRun(w, a, p, b) && CoveredRun(w, b, q, c)
    ensures CoveredRun(w, a, p + q, c)
    decreases |p|
  {
    hide Apply, Covered, Enabled;
    if p == [] {
      assert p + q == q;
    } else {
      CoveredConcat(w, Apply(w, a, p[0]), p[1..], b, q, c);
      assert (p + q)[0] == p[0] && (p + q)[1..] == p[1..] + q;
    }
  }

  // ---- runs joined ----

  lemma {:induction false} CoveredIsRun(w: World, s: State, steps: seq<Step>, end: State)
    requires CoveredRun(w, s, steps, end)
    ensures Runs(w, s, steps, end)
    decreases |steps|
  {
    hide Apply, Covered, Enabled;
    if steps != [] {
      CoveredIsRun(w, Apply(w, s, steps[0]), steps[1..], end);
    }
  }

  lemma {:induction false} RunsConcat(w: World, a: State, p: seq<Step>, b: State, q: seq<Step>, c: State)
    requires Runs(w, a, p, b) && Runs(w, b, q, c)
    ensures Runs(w, a, p + q, c)
    decreases |p|
  {
    hide Apply, Enabled;
    if p == [] {
      assert p + q == q;
    } else {
      RunsConcat(w, Apply(w, a, p[0]), p[1..], b, q, c);
      assert (p + q)[0] == p[0] && (p + q)[1..] == p[1..] + q;
    }
  }

  lemma StepRuns(w: World, s: State, a: Step, b: Step)
    requires Enabled(s, a) && Enabled(Apply(w, s, a), b)
    ensures Runs(w, s, [a, b], Apply(w, Apply(w, s, a), b))
  {
    hide Apply, Enabled;
    var t := Apply(w, s, a);
    assert [a, b][1..] == [b] && [b][1..] == [];
    assert Runs(w, Apply(w, t, b), [], Apply(w, t, b));
    assert Runs(w, t, [b], Apply(w, t, b));
  }

  /** Delivering news is an informer step, or nothing. */
  lemma ModuleNewsRuns(w: World, s: State, k: Key) returns (steps: seq<Step>)
    requires Logged(s.modules, s.clock)
    ensures CoveredRun(w, s, steps, ModuleNews(s, k))
    ensures AllByOperator(steps)
  {
    if NewsOf(s.modules, k) == s.modules {
      steps := [];
    } else {
      var rv := s.modules.stored[k].meta.resourceVersion;
      assert Version(s.modules, s.modules.stored[k]);
      if k in s.modules.cache {
        assert Version(s.modules, s.modules.cache[k]);
      }
      steps := [ModuleDelivered(k, rv)];
      OneStep(w, s, ModuleDelivered(k, rv));
      assert Apply(w, s, ModuleDelivered(k, rv)) == ModuleNews(s, k);
    }
  }

  lemma ExporterNewsRuns(w: World, s: State, k: Key) returns (steps: seq<Step>)
    requires Logged(s.exporters, s.clock)
    ensures CoveredRun(w, s, steps, ExporterNews(s, k))
    ensures AllByOperator(steps)
  {
    if NewsOf(s.exporters, k) == s.exporters {
      steps := [];
    } else {
      var rv := s.exporters.stored[k].meta.resourceVersion;
      assert Version(s.exporters, s.exporters.stored[k]);
      if k in s.exporters.cache {
        assert Version(s.exporters, s.exporters.cache[k]);
      }
      steps := [ExporterDelivered(k, rv)];
      OneStep(w, s, ExporterDelivered(k, rv));
      assert Apply(w, s, ExporterDelivered(k, rv)) == ExporterNews(s, k);
    }
  }

  lemma Then(w: World, a: State, p: seq<Step>, b: State, step: Step) returns (q: seq<Step>)
    requires CoveredRun(w, a, p, b) && Enabled(b, step) && Covered(b, step)
    ensures CoveredRun(w, a, q, Apply(w, b, step))
    ensures AllByOperator(p) && ByOperator(step) ==> AllByOperator(q)
  {
    hide Apply, Covered, Enabled;
    OneStep(w, b, step);
    CoveredConcat(w, a, p, b, [step], Apply(w, b, step));
    q := p + [step];
  }

  lemma {:induction false} TouchAllRuns(w: World, s: State) returns (steps: seq<Step>)
    requires Sound(w, s) && s.mw.Touching?
    ensures CoveredRun(w, s, steps, TouchAll(s))
    ensures AllByOperator(steps)
    decreases |s.mw.refs|
  {
    hide Sound, CoveredRun, TouchRef, NewsOf;
    if s.mw.refs == [] {
      OneStep(w, s, FinishModule);
      steps := [FinishModule];
    } else {
      OneStep(w, s, ReadReference);
      steps := [ReadReference];
      var h := ReadRef(s);
      assert Apply(w, s, ReadReference) == h;
      StepSound(w, s, ReadReference);
      var u := h;
      if h.mw.Holding? {
        var t := TouchRef(h, true);
        assert Apply(w, h, TouchReference(true)) == t;
        steps := Then(w, s, steps, h, TouchReference(true));
        StepSound(w, h, TouchReference(true));
        var news := ExporterNewsAfter(w, t, h.mw.held.meta.key);
        u := ExporterNews(t, h.mw.held.meta.key);
        CoveredConcat(w, s, steps, t, news, u);
        steps := steps + news;
        TouchKeepsRefs(h);
      }
      var rest := TouchAllRuns(w, u);
      CoveredConcat(w, s, steps, u, rest, TouchAll(u));
      steps := steps + rest;
    }
  }

  lemma TouchKeepsRefs(h: State)
    requires h.mw.Holding?
    ensures ExporterNews(TouchRef(h, true), h.mw.held.meta.key).mw == Touching(h.mw.m, h.mw.refs)
  {
  }

  lemma ExporterNewsAfter(w: World, t: State, k: Key) returns (steps: seq<Step>)
    requires Sound(w, t)
    ensures CoveredRun(w, t, steps, ExporterNews(t, k)) && Sound(w, ExporterNews(t, k))
    ensures AllByOperator(steps)
  {
    steps := ExporterNewsRuns(w, t, k);
    CoveredRunSound(w, t, steps, ExporterNews(t, k));
  }

  lemma {:induction false} CoveredRunSound(w: World, s: State, steps: seq<Step>, end: State)
    requires Sound(w, s) && CoveredRun(w, s, steps, end)
    ensures Sound(w, end)
    decreases |steps|
  {
    hide Sound, Apply, Covered, Enabled;
    if steps != [] {
      StepSound(w, s, steps[0]);
      CoveredRunSound(w, Apply(w, s, steps[0]), steps[1..], end);
    }
  }

  /** A module pass is one of the runs the convergence claim covers. */
  lemma ModulePassRuns(w: World, s: State, k: Key, eorder: seq<Key>, t1: int, t2: int) returns (steps: seq<Step>)
    requires Sound(w, s) && Synced(s) && k in s.modules.queue
    requires Lists(eorder, s.exporters.cache.Keys)
    ensures CoveredRun(w, s, steps, ModulePass(w, s, k, eorder, t1, t2))
    ensures AllByOperator(steps)
  {
    hide Sound, CoveredRun, Prepare, WriteStatus, NewsOf, TouchAll, Lists;
    var load, prepare := LoadModule(k), PrepareStatus(Some(eorder), t1, t2);
    var a := Load(s, k);
    OneStep(w, s, load);
    assert Apply(w, s, load) == a;
    steps := [load];
    if !a.mw.ModuleIdle? {
      StepSound(w, s, load);
      var b := Prepare(w, a, Some(eorder), t1, t2);
      assert Apply(w, a, prepare) == b;
      steps := Then(w, s, steps, a, prepare);
      if !b.mw.ModuleIdle? {
        StepSound(w, a, prepare);
        PrepareShape(w, a, eorder, t1, t2);
        var c := WriteStatus(b);
        assert Apply(w, b, WriteModuleStatus) == c;
        steps := Then(w, s, steps, b, WriteModuleStatus);
        if !c.mw.ModuleIdle? {
          StepSound(w, b, WriteModuleStatus);
          WriteShape(b);
          var news := ModuleNewsAfter(w, c, k);
          var d := ModuleNews(c, k);
          CoveredConcat(w, s, steps, c, news, d);
          var rest := TouchAllRuns(w, d);
          CoveredConcat(w, s, steps + news, d, rest, TouchAll(d));
          steps := steps + news + rest;
        }
      }
    }
  }

  lemma ModuleNewsAfter(w: World, t: State, k: Key) returns (steps: seq<Step>)
    requires Sound(w, t)
    ensures CoveredRun(w, t, steps, ModuleNews(t, k)) && Sound(w, ModuleNews(t, k))
    ensures AllByOperator(steps)
  {
    steps := ModuleNewsRuns(w, t, k);
    CoveredRunSound(w, t, steps, ModuleNews(t, k));
  }

  lemma PrepareShape(w: World, a: State, eorder: seq<Key>, t1: int, t2: int)
    requires a.mw.Loaded? && Lists(eorder, a.exporters.cache.Keys)
    ensures var b := Prepare(w, a, Some(eorder), t1, t2); b.mw.ModuleIdle? || b.mw.Prepared?
  {
  }

  lemma WriteShape(b: State)
    requires b.mw.Prepared?
    ensures WriteStatus(b).mw.ModuleIdle? || WriteStatus(b).mw.Touching?
  {
  }

  lemma WritePhaseRuns(w: World, b: State, k: Key, t1: int, t2: int) returns (steps: seq<Step>)
    requires Sound(w, b) && b.ew.Gathered?
    ensures CoveredRun(w, b, steps, WritePhase(w, b, k, t1, t2))
    ensures AllByOperator(steps)
  {
    hide Sound, CoveredRun, ConfigWritten, WorkloadWritten, ReportWritten, NewsOf, OwnedChanged;
    WrittenShape(w, b);
    var c := ConfigWritten(w, b);
    OneStep(w, b, WriteConfig);
    assert Apply(w, b, WriteConfig) == c;
    StepSound(w, b, WriteConfig);
    var d := WorkloadWritten(c);
    assert Apply(w, c, WriteWorkload) == d;
    steps := Then(w, b, [WriteConfig], c, WriteWorkload);
    StepSound(w, c, WriteWorkload);
    var more := ReportPhaseRuns(w, b, d, k, t1, t2);
    CoveredConcat(w, b, steps, d, more, WritePhase(w, b, k, t1, t2));
    steps := steps + more;
  }

  lemma ReportPhaseRuns(w: World, b: State, d: State, k: Key, t1: int, t2: int) returns (steps: seq<Step>)
    requires Sound(w, d) && d.ew.Applied?
    ensures CoveredRun(w, d, steps, ExporterNews(ReportWritten(OwnedNews(b, d, k), t1, t2), k))
    ensures AllByOperator(steps)
  {
    hide Sound, CoveredRun, ReportWritten, NewsOf, OwnedChanged;
    var u, report := OwnedNews(b, d, k), WriteExporterStatus(t1, t2);
    var f := ReportWritten(u, t1, t2);
    assert u.ew == d.ew;
    assert Apply(w, u, report) == f;
    OneStep(w, u, report);
    steps := [report];
    if OwnedChanged(b, d, k) {
      assert Apply(w, d, ExporterRequeued(k)) == u;
      OneStep(w, d, ExporterRequeued(k));
      StepSound(w, d, ExporterRequeued(k));
      CoveredConcat(w, d, [ExporterRequeued(k)], u, [report], f);
      steps := [ExporterRequeued(k)] + [report];
    }
    StepSound(w, u, report);
    var news := ExporterNewsAfter(w, f, k);
    CoveredConcat(w, d, steps, f, news, ExporterNews(f, k));
    steps := steps + news;
  }

  /** An exporter pass is one of them too. */
  lemma ExporterPassRuns(w: World, s: State, k: Key, morder: seq<Key>, t1: int, t2: int) returns (steps: seq<Step>)
    requires Sound(w, s) && Synced(s) && k in s.exporters.queue
    requires Lists(morder, s.modules.cache.Keys)
    ensures CoveredRun(w, s, steps, ExporterPass(w, s, k, morder, t1, t2))
    ensures AllByOperator(steps)
  {
    hide Sound, CoveredRun, RenderAll, WritePhase, NewsOf, Lists;
    var fetch, render := FetchExporter(k), RenderModules(morder);
    var a := Fetch(s, k);
    OneStep(w, s, fetch);
    assert Apply(w, s, fetch) == a;
    steps := [fetch];
    if !a.ew.ExporterIdle? {
      StepSound(w, s, fetch);
      var b := RenderAll(w, a, morder);
      assert Apply(w, a, render) == b;
      steps := Then(w, s, steps, a, render);
      if !b.ew.ExporterIdle? {
        StepSound(w, a, render);
        RenderShape(w, a, morder);
        var more := WritePhaseRuns(w, b, k, t1, t2);
        CoveredConcat(w, s, steps, b, more, WritePhase(w, b, k, t1, t2));
        steps := steps + more;
      }
    }
  }

  lemma RenderShape(w: World, a: State, morder: seq<Key>)
    requires a.ew.Fetched? && Lists(morder, a.modules.cache.Keys)
    ensures var b := RenderAll(w, a, morder); b.ew.ExporterIdle? || b.ew.Gathered?
  {
  }

  lemma WrittenShape(w: World, b: State)
    requires b.ew.Gathered?
    ensures ConfigWritten(w, b).ew.Configured? && WorkloadWritten(ConfigWritten(w, b)).ew.Applied?
  {
  }
}
