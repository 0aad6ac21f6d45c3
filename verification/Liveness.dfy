/** Runs without end, with informers that lag and catch up: the operator stays busy only while calls keep failing. */
module Liveness {
  import opened Base
  import opened Api
  import opened Selector
  import opened Converter
  import opened Rendering
  import opened Owned
  import opened Reports
  import opened ApiServer
  import opened Informers
  import opened Steps
  import opened LostUpdates
  import opened Convergence
  import opened Outcome
  import opened Passes
  import opened Termination
  import opened Chores
  import opened Writes
  import opened Interleaving

  /** No call of this step failed. */
  predicate Answered(step: Step) {
    && !step.ModuleCallFails? && !step.ExporterCallFails? && !step.WritePart?
    && (step.TouchReference? ==> step.delivered) && (step.WriteExporterStatus? ==> step.seen)
  }

  /** Again and again the informers catch up. */
  ghost predicate CatchingUp(run: nat -> State) {
    forall i: nat :: CatchesUpAfter(run, i)
  }

  ghost predicate CatchesUpAfter(run: nat -> State, i: nat) {
    exists j: nat :: i <= j && Prompt(run(j))
  }

  /** Events of owned objects follow writes to them, of which there are finitely many. */
  ghost predicate EventsCease(acts: nat -> Step) {
    exists n: nat :: NoEventsFrom(acts, n)
  }

  ghost predicate NoEventsFrom(acts: nat -> Step, n: nat) {
    forall i: nat :: n <= i ==> !acts(i).ExporterRequeued?
  }

  ghost predicate AnsweredFrom(acts: nat -> Step, n: nat) {
    forall i: nat :: n <= i ==> Answered(acts(i))
  }

  /** Calls fail over and over. */
  ghost predicate FailsForever(acts: nat -> Step) {
    forall n: nat :: !AnsweredFrom(acts, n)
  }

  // ---- specs stay ----

  lemma SpecsStay(c: Setting, s: State, step: Step)
    requires Listing(c) && Sound(c.w, s) && Enabled(s, step) && Unattended(c, s, step)
    ensures AlikeModules(s.modules.stored, Apply(c.w, s, step).modules.stored)
  {
    hide Prepare, ReadRef, TouchRef, RenderAll, ConfigWritten, WorkloadWritten, PartWritten, ReportWritten, AnswersRefs, AnswersText,
         Listing, Lists, ExporterWorkerSound, ConfigsSound, ModulesWithin, ExportersWithin;
    if step.WriteModuleStatus? {
      hide Enabled, Unattended, Apply;
      WriteKeepsSpecs(s);
    } else {
      OtherKeepsModules(c, s, step);
    }
  }

  lemma OtherKeepsModules(c: Setting, s: State, step: Step)
    requires Listing(c) && Enabled(s, step) && Unattended(c, s, step) && !step.WriteModuleStatus?
    ensures Apply(c.w, s, step).modules.stored == s.modules.stored
  {
    hide Convert, ModuleReport, Referencing, Items, ModuleMap, Selected, DesiredWorkload, ExporterReport, AnswersRefs, AnswersText, Listing;
  }

  lemma WriteKeepsSpecs(s: State)
    requires s.mw.Prepared? && Logged(s.modules, s.clock) && Version(s.modules, s.mw.m)
    ensures AlikeModules(s.modules.stored, WriteStatus(s).modules.stored)
  {
    if Accepts(s.modules, s.mw.m) {
      AcceptedWrite(s);
    }
  }

  /** Every state of an endless run is sound, and the conversions that do not panic at its start never do. */
  lemma {:induction false} CalmThroughout(c: Setting, run: nat -> State, acts: nat -> Step, i: nat)
    requires Listing(c) && Endless(c, run, acts) && Sound(c.w, run(0)) && Fits(c, run(0)) && NoPanics(c.w, run(0))
    ensures Sound(c.w, run(i)) && Fits(c, run(i)) && NoPanics(c.w, run(i))
  {
    hide Sound, Fits, NoPanics, Apply, Enabled, Unattended, Listing, Charged, AlikeModules;
    if i > 0 {
      var j: nat := i - 1;
      CalmThroughout(c, run, acts, j);
      assert run(j + 1) == Apply(c.w, run(j), acts(j));
      StepCharged(c, run(j), acts(j));
      StepSound(c.w, run(j), acts(j));
      ChargedFits(c, run(j), acts(j), run(i));
      SpecsStay(c, run(j), acts(j));
      AlikePanicsAlike(c.w, run(j), run(i));
    }
  }

  lemma ChargedFits(c: Setting, s: State, step: Step, t: State)
    requires Listing(c) && Charged(c, s, step, t)
    ensures Fits(c, t)
  {
  }

  // ---- calls run out ----

  lemma NothingToDeliver(s: State, step: Step)
    requires Prompt(s) && Logged(s.modules, s.clock) && Logged(s.exporters, s.clock)
    requires Enabled(s, step) && (step.ModuleDelivered? ==> Tracked(s.modules, step.k)) && (step.ExporterDelivered? ==> Tracked(s.exporters, step.k))
    ensures !step.ModuleDelivered? && !step.ModuleDropped? && !step.ExporterDelivered? && !step.ExporterDropped?
  {
    hide Lists;
  }

  lemma ModuleStepFurther(c: Setting, s: State, step: Step)
    requires Listing(c) && Steady(c, s) && Enabled(s, step) && Unattended(c, s, step) && !Disturbs(step) && Answered(step)
    requires step.LoadModule? || step.PrepareStatus? || step.WriteModuleStatus? || step.ReadReference? || step.TouchReference? || step.FinishModule?
    requires !Effective(s, Apply(c.w, s, step))
    ensures Further(c, s, Apply(c.w, s, step))
  {
    hide Further, Load, Prepare, WriteStatus, ReadRef, TouchRef, RenderAll, ConfigWritten, WorkloadWritten, PartWritten, ReportWritten,
         Listing, Logged, Version, NoPanics, Fits, AnswersRefs, Lists, ExporterWorkerSound, ConfigsSound, ModulesWithin, ExportersWithin;
    match step {
      case LoadModule(k) => LoadFurther(c, s, k);
      case PrepareStatus(listing, t1, t2) => PrepareFurther(c, s, listing.value, t1, t2);
      case WriteModuleStatus =>
        WriteFurther(c, s);
        WriteLeavesCache(s);
      case TouchReference(_) =>
        TouchFurther(c, s);
        TouchLeavesCache(s);
      case _ => ReadFurther(c, s);
    }
  }

  lemma WriteLeavesCache(s: State)
    requires s.mw.Prepared?
    ensures WriteStatus(s).modules.cache == s.modules.cache
  {
  }

  lemma TouchLeavesCache(s: State)
    requires s.mw.Holding?
    ensures TouchRef(s, true).exporters.cache == s.exporters.cache
  {
  }

  lemma ReportLeavesCache(s: State, t1: int, t2: int)
    requires s.ew.Applied?
    ensures ReportWritten(s, t1, t2).exporters.cache == s.exporters.cache
  {
    hide ExporterReport;
  }

  lemma OwnedWithoutEvent(c: Setting, s: State)
    ensures s.ew.Gathered? && !Effective(s, ConfigWritten(c.w, s)) ==> AfterConfig(c.w, s) == ConfigWritten(c.w, s)
    ensures s.ew.Configured? && !Effective(s, WorkloadWritten(s)) ==> AfterWorkload(s) == WorkloadWritten(s)
  {
    hide DesiredWorkload;
  }

  lemma ExporterStepFurther(c: Setting, s: State, step: Step)
    requires Listing(c) && Steady(c, s) && Enabled(s, step) && Unattended(c, s, step) && Answered(step)
    requires step.FetchExporter? || step.RenderModules? || step.WriteConfig? || step.WriteWorkload? || step.WriteExporterStatus?
    requires !Effective(s, Apply(c.w, s, step))
    ensures Further(c, s, Apply(c.w, s, step))
  {
    hide Further, Fetch, RenderAll, ConfigWritten, WorkloadWritten, PartWritten, ReportWritten, Load, Prepare, WriteStatus, ReadRef, TouchRef,
         AfterConfig, AfterWorkload, Listing, Logged, Version, NoPanics, Fits, AnswersText, Lists, ModuleWorkerSound, ConfigsSound,
         ModulesWithin, ExportersWithin, SnapshotSound, RendersTo;
    OwnedWithoutEvent(c, s);
    match step {
      case FetchExporter(k) => FetchFurther(c, s, k);
      case RenderModules(order) => RenderFurther(c, s, order);
      case WriteConfig => ConfigFurther(c, s);
      case WriteWorkload => WorkloadFurther(c, s);
      case WriteExporterStatus(t1, t2, _) =>
        ReportFurther(c, s, t1, t2);
        ReportLeavesCache(s, t1, t2);
    }
  }

  /** With caches that show what is stored, a step that is answered and writes nothing leaves fewer calls to come. */
  lemma StepFurther(c: Setting, s: State, step: Step)
    requires Listing(c) && Steady(c, s) && Enabled(s, step) && Unattended(c, s, step) && !Disturbs(step) && Answered(step)
    requires !step.ExporterRequeued? && !Effective(s, Apply(c.w, s, step))
    ensures Further(c, s, Apply(c.w, s, step))
  {
    StoresOf(c, s);
    NothingToDeliver(s, step);
    hide Steady, Further, Apply, Listing, Effective, Lists, AnswersRefs, AnswersText;
    match step {
      case FetchExporter(_) => ExporterStepFurther(c, s, step);
      case RenderModules(_) => ExporterStepFurther(c, s, step);
      case WriteConfig => ExporterStepFurther(c, s, step);
      case WriteWorkload => ExporterStepFurther(c, s, step);
      case WriteExporterStatus(_, _, _) => ExporterStepFurther(c, s, step);
      case _ => ModuleStepFurther(c, s, step);
    }
  }

  lemma StoresOf(c: Setting, s: State)
    requires Listing(c) && Steady(c, s)
    ensures Prompt(s) && Logged(s.modules, s.clock) && Logged(s.exporters, s.clock)
  {
  }

  /** From a state whose caches show what is stored, sooner or later something is written, a call fails or an event comes. */
  lemma {:induction false} CallsRunOut(c: Setting, run: nat -> State, acts: nat -> Step, j: nat) returns (i: nat)
    requires Listing(c) && Endless(c, run, acts) && Steady(c, run(j))
    ensures j <= i && (Effective(run(i), run(i + 1)) || !Answered(acts(i)) || acts(i).ExporterRequeued?)
    decreases ModuleCalls(c, run(j)) + ExporterCalls(run(j))
  {
    hide Enabled, Unattended, Apply, Listing, Sound, Fits, NoPanics, Prompt, Budget, Effective, ModuleCalls, ExporterCalls, Charged;
    if Effective(run(j), run(j + 1)) || !Answered(acts(j)) || acts(j).ExporterRequeued? {
      i := j;
    } else {
      assert run(j + 1) == Apply(c.w, run(j), acts(j));
      StepFurther(c, run(j), acts(j));
      StepCharged(c, run(j), acts(j));
      ChargedFits(c, run(j), acts(j), run(j + 1));
      StepSound(c.w, run(j), acts(j));
      i := CallsRunOut(c, run, acts, j + 1);
    }
  }

  /** A run without end that users leave alone, without panics, with informers that catch up again and again and with
      finitely many events: calls fail over and over. So wherever calls fail finitely often the operator stops. */
  lemma BusyOnlyByFailures(c: Setting, run: nat -> State, acts: nat -> Step)
    requires Listing(c) && Endless(c, run, acts) && Sound(c.w, run(0)) && Fits(c, run(0)) && NoPanics(c.w, run(0))
    requires CatchingUp(run) && EventsCease(acts)
    ensures FailsForever(acts)
  {
    hide Sound, Fits, NoPanics, Enabled, Unattended, Apply, Listing, Effective, Prompt, Answered, Disturbs;
    var quiet := EventuallyQuiet(c, run, acts, 0);
    var ceased: nat :| NoEventsFrom(acts, ceased);
    forall n: nat ensures !AnsweredFrom(acts, n) {
      assert CatchesUpAfter(run, quiet + ceased + n);
      var j: nat :| quiet + ceased + n <= j && Prompt(run(j));
      CalmThroughout(c, run, acts, j);
      var i := CallsRunOut(c, run, acts, j);
      assert !Effective(run(i), run(i + 1)) && !acts(i).ExporterRequeued?;
    }
  }

  // ---- where a run stops ----

  /** The step could still be taken. */
  ghost predicate Open(c: Setting, s: State, step: Step)
    requires Listing(c)
  {
    Enabled(s, step) && Unattended(c, s, step) && Answered(step) && !Disturbs(step) && !step.ExporterRequeued?
  }

  /** The operator can do nothing more: no call, no delivery. */
  ghost predicate Stops(c: Setting, s: State)
    requires Listing(c)
  {
    forall step: Step :: !Open(c, s, step)
  }

  lemma UndeliveredOpen(c: Setting, s: State, k: Key)
    requires Listing(c) && Logged(s.modules, s.clock) && Logged(s.exporters, s.clock)
    ensures k in s.modules.stored && !(k in s.modules.cache && s.modules.cache[k] == s.modules.stored[k]) ==>
              Open(c, s, ModuleDelivered(k, s.modules.stored[k].meta.resourceVersion))
    ensures k in s.modules.cache && k !in s.modules.stored ==> Open(c, s, ModuleDropped(k))
    ensures k in s.exporters.stored && !(k in s.exporters.cache && s.exporters.cache[k] == s.exporters.stored[k]) ==>
              Open(c, s, ExporterDelivered(k, s.exporters.stored[k].meta.resourceVersion))
    ensures k in s.exporters.cache && k !in s.exporters.stored ==> Open(c, s, ExporterDropped(k))
  {
    hide Logged, Lists, Listing, AnswersRefs, AnswersText;
    NewestIsNews(s.modules, s.clock, k);
    NewestIsNews(s.exporters, s.clock, k);
  }

  lemma StoppedCaches(c: Setting, s: State)
    requires Listing(c) && Stops(c, s) && Logged(s.modules, s.clock) && Logged(s.exporters, s.clock)
    ensures Prompt(s)
  {
    hide Logged, Listing, Open;
    forall k
      ensures k in s.modules.stored ==> k in s.modules.cache && s.modules.cache[k] == s.modules.stored[k]
      ensures k in s.modules.cache ==> k in s.modules.stored
      ensures k in s.exporters.stored ==> k in s.exporters.cache && s.exporters.cache[k] == s.exporters.stored[k]
      ensures k in s.exporters.cache ==> k in s.exporters.stored
    {
      UndeliveredOpen(c, s, k);
    }
  }

  lemma QueuedOpen(c: Setting, s: State, k: Key)
    requires Listing(c)
    ensures s.mw.ModuleIdle? && k in s.modules.queue ==> Open(c, s, LoadModule(k))
    ensures s.ew.ExporterIdle? && k in s.exporters.queue ==> Open(c, s, FetchExporter(k))
  {
    hide Listing, Lists, AnswersRefs, AnswersText;
  }

  lemma PrepareOpen(c: Setting, s: State)
    requires Listing(c)
    ensures s.mw.Loaded? ==> Open(c, s, PrepareStatus(Some(c.elist(s.exporters.cache.Keys)), 0, 0))
  {
    hide Listing, Lists, AnswersRefs, AnswersText;
    ReferenceAnswers(c, s);
  }

  lemma RenderOpen(c: Setting, s: State)
    requires Listing(c)
    ensures s.ew.Fetched? ==> Open(c, s, RenderModules(c.mlist(s.modules.cache.Keys)))
  {
    hide Listing, Lists, AnswersRefs, AnswersText;
    ReferenceAnswers(c, s);
  }

  lemma TouchesOpen(c: Setting, s: State)
    requires Listing(c)
    ensures s.mw.Prepared? ==> Open(c, s, WriteModuleStatus)
    ensures s.mw.Touching? ==> Open(c, s, if s.mw.refs == [] then FinishModule else ReadReference)
    ensures s.mw.Holding? ==> Open(c, s, TouchReference(true))
  {
    hide Listing, Lists, AnswersRefs, AnswersText;
  }

  lemma WritesOpen(c: Setting, s: State)
    requires Listing(c)
    ensures s.ew.Gathered? ==> Open(c, s, WriteConfig)
    ensures s.ew.Configured? ==> Open(c, s, WriteWorkload)
    ensures s.ew.Applied? ==> Open(c, s, WriteExporterStatus(0, 0))
  {
    hide Listing, Lists, AnswersRefs, AnswersText;
  }

  lemma StoppedWorkers(c: Setting, s: State)
    requires Listing(c) && Stops(c, s)
    ensures s.mw.ModuleIdle? && s.ew.ExporterIdle? && s.modules.queue == {} && s.exporters.queue == {}
  {
    hide Listing, Open;
    PrepareOpen(c, s);
    RenderOpen(c, s);
    TouchesOpen(c, s);
    WritesOpen(c, s);
    forall k ensures k !in s.modules.queue && k !in s.exporters.queue {
      QueuedOpen(c, s, k);
    }
  }

  /** Where the operator can do nothing more, with informers as they are, every exporter has been served. */
  lemma StoppedIsRight(c: Setting, history: seq<Step>, s: State, e: Key)
    requires Listing(c) && CoveredRun(c.w, START, history, s) && Stops(c, s) && e in s.exporters.stored
    ensures e in s.out.configs && RightConfig(c.w, s.modules.stored, s.exporters.stored[e], s.out.configs[e])
    ensures e in s.out.workloads && s.out.workloads[e] == DesiredWorkload(e, s.exporters.stored[e].spec)
  {
    hide Served, CoveredRun, Stops, RightConfig, DesiredWorkload, Listing, ModuleWorkerSound, ExporterWorkerSound, ConfigsSound, Logged;
    ReachableServed(c.w, history, s);
    StoppedCaches(c, s);
    StoppedWorkers(c, s);
    SettledIsRight(c.w, s, e);
  }
}
