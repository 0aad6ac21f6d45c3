/** Why a ConfigMap ends up right: every exporter is queued, or will be touched, or already holds the current
    modules. The invariant holds between any two API calls, under stale caches and rejected touches. */
module Convergence {
  import opened Base
  import opened Api
  import opened Selector
  import opened Converter
  import opened Rendering
  import opened Owned
  import opened Reports
  import opened ApiServer
  import opened Steps
  import opened LostUpdates

  /** The steps the convergence claim covers. Left out are module deletion, relabelling a module, a failing List,
      a touch that fails for another reason than a conflict, and users who invent values for the touch annotation. */
  ghost predicate Covered(s: State, step: Step)
    requires Enabled(s, step)
  {
    match step
    case UserEditsModule(k, labels, _, _) => labels == s.modules.stored[k].meta.labels
    case UserDeletesModule(_) => false
    case ModuleDropped(_) => false
    case UserCreatesExporter(_, _, annotations, _) => TOUCH !in annotations
    case UserEditsExporter(k, _, annotations, _) =>
      var before := s.exporters.stored[k].meta.annotations;
      TOUCH in annotations ==> TOUCH in before && annotations[TOUCH] == before[TOUCH]
    case PrepareStatus(listing, _, _) => listing.Some?
    case TouchReference(delivered) => delivered
    case _ => true
  }

  // ---- what is pending ----

  /** The informer has not seen the stored version yet. */
  ghost predicate Unseen<S, T>(st: Store<S, T>, k: Key)
    requires k in st.stored
  {
    k !in st.cache || st.cache[k].meta.resourceVersion != st.stored[k].meta.resourceVersion
  }

  /** The informer has not seen the stored spec yet. */
  ghost predicate Behind<S, T>(st: Store<S, T>, k: Key)
    requires k in st.stored
  {
    k !in st.cache || st.cache[k].meta.generation != st.stored[k].meta.generation
  }

  /** The exporter will be rendered afresh: queued, about to be queued, or fetched but not yet rendered. */
  ghost predicate Dirty(s: State, e: Key)
    requires e in s.exporters.stored
  {
    || e in s.exporters.queue
    || Unseen(s.exporters, e)
    || (s.ew.Fetched? && s.ew.x.meta.key == e)
  }

  /** The worker has rendered e but not yet written the ConfigMap. */
  ghost predicate WritingConfig(s: State, e: Key) {
    s.ew.Gathered? && s.ew.x.meta.key == e
  }

  ghost predicate WritingWorkload(s: State, e: Key) {
    (s.ew.Gathered? || s.ew.Configured?) && s.ew.x.meta.key == e
  }

  /** The snapshot e's ConfigMap is or is about to be rendered from covers e's spec. */
  ghost predicate SpecCurrent(s: State, e: Key)
    requires e in s.exporters.stored
  {
    if WritingConfig(s, e) then s.ew.snap.exporter.spec == s.exporters.stored[e].spec
    else e in s.out.basis && s.out.basis[e].exporter.spec == s.exporters.stored[e].spec
  }

  /** That snapshot holds the current spec of m. */
  ghost predicate ModuleCurrent(s: State, e: Key, m: Key)
    requires m in s.modules.stored
  {
    var g := s.modules.stored[m].meta.generation;
    if WritingConfig(s, e) then m in s.ew.snap.items && s.ew.snap.items[m].meta.generation == g
    else e in s.out.basis && m in s.out.basis[e].items && s.out.basis[e].items[m].meta.generation == g
  }

  ghost predicate WorkloadCurrent(s: State, e: Key)
    requires e in s.exporters.stored
  {
    if WritingWorkload(s, e) then s.ew.x.spec == s.exporters.stored[e].spec
    else e in s.out.workloads && s.out.workloads[e] == DesiredWorkload(e, s.exporters.stored[e].spec)
  }

  ghost predicate Reflects(s: State, e: Key, m: Key)
    requires e in s.exporters.stored && m in s.modules.stored
  {
    Dirty(s, e) || ModuleCurrent(s, e, m)
  }

  /** The module worker will take m up again. */
  ghost predicate Owing(s: State, m: Key)
    requires m in s.modules.stored
  {
    m in s.modules.queue || Behind(s.modules, m)
  }

  /** The module worker holds m and has e still ahead of it. */
  ghost predicate AboutToTouch(s: State, e: Key, m: Key) {
    match s.mw
    case ModuleIdle => false
    case Loaded(x) => x.meta.key == m
    case Prepared(x, status) => x.meta.key == m && e in status.referencedByExporters
    case Touching(x, refs) => x.meta.key == m && e in refs
    case Holding(x, held, refs) =>
      x.meta.key == m && (e in refs || (held.meta.key == e && e in s.exporters.stored && held == s.exporters.stored[e]))
  }

  /** e's touch annotation names the version r of some module. */
  ghost predicate NamesVersion(e: Exporter, r: nat) {
    TOUCH in e.meta.annotations && e.meta.annotations[TOUCH] == Decimal(r)
  }

  // ---- the invariant ----

  /** Versions of one module agree on labels, and on the spec per generation; the stored one is the latest. */
  ghost predicate SpecsFollowGenerations(s: State) {
    forall r :: r in s.modules.log ==>
      var x := s.modules.log[r];
      && x.meta.key in s.modules.stored
      && x.meta.labels == s.modules.stored[x.meta.key].meta.labels
      && x.meta.generation <= s.modules.stored[x.meta.key].meta.generation
      && (x.meta.generation == s.modules.stored[x.meta.key].meta.generation ==> x.spec == s.modules.stored[x.meta.key].spec)
  }

  ghost predicate GenerationsGrow(s: State) {
    forall q, r :: q in s.modules.log && r in s.modules.log && q <= r && s.modules.log[q].meta.key == s.modules.log[r].meta.key ==>
      s.modules.log[q].meta.generation <= s.modules.log[r].meta.generation
  }

  ghost predicate SeenAtLeast(s: State, x: Module) {
    x.meta.key in s.modules.cache && x.meta.generation <= s.modules.cache[x.meta.key].meta.generation
  }

  /** What the module worker holds was seen by the informer, and is current or will be taken up again. */
  ghost predicate ModuleWorkerFresh(s: State) {
    s.mw.ModuleIdle?
    || (SeenAtLeast(s, s.mw.m)
        && s.mw.m.meta.key in s.modules.stored
        && (s.mw.m.meta.generation == s.modules.stored[s.mw.m.meta.key].meta.generation || Owing(s, s.mw.m.meta.key)))
  }

  ghost predicate ExporterWorkerFresh(s: State) {
    s.ew.ExporterIdle?
    || (s.ew.x.meta.key in s.exporters.stored ==>
          || s.ew.x.meta.resourceVersion == s.exporters.stored[s.ew.x.meta.key].meta.resourceVersion
          || s.ew.x.meta.key in s.exporters.queue
          || Unseen(s.exporters, s.ew.x.meta.key))
  }

  /** A version named by a touch was seen by the informer, and unless outdated it is reflected. */
  ghost predicate TouchMeans(s: State, e: Key, r: nat)
    requires e in s.exporters.stored && SpecsFollowGenerations(s)
  {
    && r in s.modules.log
    && SeenAtLeast(s, s.modules.log[r])
    && (s.modules.log[r].meta.generation == s.modules.stored[s.modules.log[r].meta.key].meta.generation ==>
          Reflects(s, e, s.modules.log[r].meta.key))
  }

  ghost predicate TouchesMean(s: State)
    requires SpecsFollowGenerations(s)
  {
    forall e, r :: e in s.exporters.stored && NamesVersion(s.exporters.stored[e], r) ==> TouchMeans(s, e, r)
  }

  ghost predicate ExporterServed(s: State, e: Key)
    requires e in s.exporters.stored
  {
    Dirty(s, e) || (SpecCurrent(s, e) && WorkloadCurrent(s, e))
  }

  ghost predicate ExportersServed(s: State) {
    forall e :: e in s.exporters.stored ==> ExporterServed(s, e)
  }

  ghost predicate PairServed(s: State, e: Key, m: Key)
    requires e in s.exporters.stored && m in s.modules.stored
  {
    Matches(s.modules.stored[m], s.exporters.stored[e]) ==> Reflects(s, e, m) || Owing(s, m) || AboutToTouch(s, e, m)
  }

  ghost predicate PairsServed(s: State) {
    forall e, m :: e in s.exporters.stored && m in s.modules.stored ==> PairServed(s, e, m)
  }

  ghost predicate Served(s: State) {
    && SpecsFollowGenerations(s)
    && GenerationsGrow(s)
    && ModuleWorkerFresh(s)
    && ExporterWorkerFresh(s)
    && TouchesMean(s)
    && ExportersServed(s)
    && PairsServed(s)
  }

  // ---- queues and informers ----

  ghost predicate OnlyQueuesGrow(s: State, t: State) {
    && t.modules == s.modules.(queue := t.modules.queue) && s.modules.queue <= t.modules.queue
    && t.exporters == s.exporters.(queue := t.exporters.queue) && s.exporters.queue <= t.exporters.queue
    && t.out.basis == s.out.basis && t.out.workloads == s.out.workloads && t.mw == s.mw && t.ew == s.ew
  }

  lemma QueueKeepsPairs(s: State, t: State, e: Key, m: Key)
    requires OnlyQueuesGrow(s, t) && e in s.exporters.stored && m in s.modules.stored
    ensures Reflects(s, e, m) ==> Reflects(t, e, m)
    ensures PairServed(s, e, m) ==> PairServed(t, e, m)
  {
    hide Matches;
  }

  lemma QueueKeepsExporters(s: State, t: State, e: Key)
    requires OnlyQueuesGrow(s, t) && e in s.exporters.stored
    ensures ExporterServed(s, e) ==> ExporterServed(t, e)
  {
    hide DesiredWorkload;
  }

  /** Growing the queues disturbs nothing. */
  lemma QueueKeeps(s: State, t: State)
    requires Served(s)
    requires t.modules == s.modules.(queue := t.modules.queue) && s.modules.queue <= t.modules.queue
    requires t.exporters == s.exporters.(queue := t.exporters.queue) && s.exporters.queue <= t.exporters.queue
    requires t.out.basis == s.out.basis && t.out.workloads == s.out.workloads && t.mw == s.mw && t.ew == s.ew
    ensures Served(t)
  {
    hide Matches, DesiredWorkload, Reflects, PairServed, ExporterServed;
    forall e, r | e in t.exporters.stored && NamesVersion(t.exporters.stored[e], r) ensures TouchMeans(t, e, r) {
      assert TouchMeans(s, e, r);
      QueueKeepsPairs(s, t, e, s.modules.log[r].meta.key);
    }
    forall e | e in t.exporters.stored ensures ExporterServed(t, e) {
      QueueKeepsExporters(s, t, e);
    }
    forall e, m | e in t.exporters.stored && m in t.modules.stored ensures PairServed(t, e, m) {
      QueueKeepsPairs(s, t, e, m);
    }
  }

  lemma ModuleDeliveredKeeps(s: State, x: Module)
    requires Served(s) && StoresSound(s)
    requires Version(s.modules, x)
    requires x.meta.key in s.modules.cache ==> s.modules.cache[x.meta.key].meta.resourceVersion < x.meta.resourceVersion
    ensures Served(s.(modules := Deliver(s.modules, x)))
  {
    var t := s.(modules := Deliver(s.modules, x));
    var k := x.meta.key;
    assert k in s.modules.cache ==> s.modules.cache[k].meta.generation <= x.meta.generation by {
      if k in s.modules.cache {
        assert Version(s.modules, s.modules.cache[k]);
      }
    }
    assert forall y: Module :: SeenAtLeast(s, y) ==> SeenAtLeast(t, y);
    assert k in t.modules.queue;
    assert forall m :: m in s.modules.stored && Owing(s, m) ==> Owing(t, m);
    ModuleCacheKeeps(s, t);
  }

  /** Steps on the module caches and queue: what was seen stays seen, what was owed stays owed. */
  lemma ModuleCacheKeeps(s: State, t: State)
    requires Served(s)
    requires t == s.(modules := t.modules) && t.modules.stored == s.modules.stored && t.modules.log == s.modules.log
    requires forall y: Module :: SeenAtLeast(s, y) ==> SeenAtLeast(t, y)
    requires forall m :: m in s.modules.stored && Owing(s, m) ==> Owing(t, m)
    ensures Served(t)
  {
    hide Matches, DesiredWorkload;
    assert ModuleWorkerFresh(t);
    forall e, r | e in t.exporters.stored && NamesVersion(t.exporters.stored[e], r) ensures TouchMeans(t, e, r) {
      assert TouchMeans(s, e, r);
    }
    forall e | e in t.exporters.stored ensures ExporterServed(t, e) {
      assert ExporterServed(s, e);
    }
    forall e, m | e in t.exporters.stored && m in t.modules.stored ensures PairServed(t, e, m) {
      assert PairServed(s, e, m);
    }
  }

  lemma ExporterDeliveredKeeps(s: State, x: Exporter)
    requires Served(s)
    ensures Served(s.(exporters := Deliver(s.exporters, x)))
  {
    var t := s.(exporters := Deliver(s.exporters, x));
    ExporterCacheKeeps(s, t);
  }

  lemma ExporterDroppedKeeps(s: State, k: Key)
    requires Served(s) && k !in s.exporters.stored
    ensures Served(s.(exporters := Drop(s.exporters, k)))
  {
    ExporterCacheKeeps(s, s.(exporters := Drop(s.exporters, k)));
  }

  /** Steps on the exporter caches and queue, and deletions: what was dirty stays dirty. */
  lemma ExporterCacheKeeps(s: State, t: State)
    requires Served(s)
    requires t == s.(exporters := t.exporters) && t.exporters.log == s.exporters.log
    requires forall e :: e in t.exporters.stored ==> e in s.exporters.stored && t.exporters.stored[e] == s.exporters.stored[e]
    requires forall e :: e in t.exporters.stored && (e in s.exporters.queue || Unseen(s.exporters, e)) ==>
               e in t.exporters.queue || Unseen(t.exporters, e)
    ensures Served(t)
  {
    forall e, r | e in t.exporters.stored && NamesVersion(t.exporters.stored[e], r) ensures TouchMeans(t, e, r) {
      assert TouchMeans(s, e, r);
    }
    forall e | e in t.exporters.stored ensures ExporterServed(t, e) {
      assert ExporterServed(s, e);
    }
    forall e, m | e in t.exporters.stored && m in t.modules.stored ensures PairServed(t, e, m) {
      assert PairServed(s, e, m);
    }
  }

  // ---- writes of modules ----

  lemma MatchesByLabels(m: Module, n: Module, e: Exporter)
    requires m.meta.key == n.meta.key && m.meta.labels == n.meta.labels
    ensures Matches(m, e) == Matches(n, e)
  {
  }

  /** t stores n, a version the log did not hold before, and is s otherwise. */
  ghost predicate StoresModule(s: State, t: State, n: Module) {
    && t == s.(clock := t.clock, modules := t.modules)
    && t.modules.stored == s.modules.stored[n.meta.key := n]
    && t.modules.log == s.modules.log[n.meta.resourceVersion := n]
    && n.meta.resourceVersion !in s.modules.log
    && t.modules.cache == s.modules.cache
    && t.modules.queue == s.modules.queue
    && (forall r :: r in s.modules.log ==> r <= n.meta.resourceVersion)
  }

  /** n is new, or keeps the labels and either the spec with its generation or moves the generation on. */
  ghost predicate Succeeds(s: State, n: Module) {
    if n.meta.key in s.modules.stored then
      var m := s.modules.stored[n.meta.key];
      && m.meta.key == n.meta.key && n.meta.labels == m.meta.labels
      && m.meta.generation <= n.meta.generation
      && (m.meta.generation == n.meta.generation ==> n.spec == m.spec)
      && (n.meta.key in s.modules.cache ==> s.modules.cache[n.meta.key].meta.generation <= m.meta.generation)
    else n.meta.key !in s.modules.cache
  }

  lemma StoredModuleVersions(s: State, t: State, n: Module)
    requires Served(s) && StoresModule(s, t, n) && Succeeds(s, n)
    ensures SpecsFollowGenerations(t) && GenerationsGrow(t)
  {
    hide Matches, DesiredWorkload;
  }

  lemma StoredModuleTouches(s: State, t: State, n: Module)
    requires Served(s) && StoresModule(s, t, n) && Succeeds(s, n) && SpecsFollowGenerations(t)
    ensures TouchesMean(t) && ModuleWorkerFresh(t) && ExporterWorkerFresh(t)
  {
    hide Matches, DesiredWorkload;
    forall e, r | e in t.exporters.stored && NamesVersion(t.exporters.stored[e], r) ensures TouchMeans(t, e, r) {
      assert TouchMeans(s, e, r);
    }
  }

  lemma StoredModulePair(s: State, t: State, n: Module, e: Key, m: Key)
    requires Served(s) && StoresModule(s, t, n) && Succeeds(s, n)
    requires e in t.exporters.stored && m in t.modules.stored
    ensures PairServed(t, e, m)
  {
    hide DesiredWorkload, TouchesMean, ExportersServed, SpecsFollowGenerations, GenerationsGrow;
    if m == n.meta.key && (m !in s.modules.stored || s.modules.stored[m].meta.generation != n.meta.generation) {
      assert Behind(t.modules, m);
    } else {
      assert PairServed(s, e, m);
      MatchesByLabels(s.modules.stored[m], t.modules.stored[m], s.exporters.stored[e]);
    }
  }

  lemma ModuleStoredKeeps(s: State, t: State, n: Module)
    requires Served(s) && StoresModule(s, t, n) && Succeeds(s, n)
    ensures Served(t)
  {
    hide Matches, DesiredWorkload;
    StoredModuleVersions(s, t, n);
    StoredModuleTouches(s, t, n);
    forall e | e in t.exporters.stored ensures ExporterServed(t, e) {
      assert ExporterServed(s, e);
    }
    forall e, m | e in t.exporters.stored && m in t.modules.stored ensures PairServed(t, e, m) {
      StoredModulePair(s, t, n, e, m);
    }
  }

  lemma ModuleCreatedKeeps(s: State, next: Module)
    requires Served(s) && StoresSound(s)
    requires next.meta.key !in s.modules.stored
    ensures Served(SaveModule(s, next))
  {
    hide Served;
    assert next.meta.key !in s.modules.cache by {
      if next.meta.key in s.modules.cache {
        CachedGeneration(s, next.meta.key);
      }
    }
    ModuleStoredKeeps(s, SaveModule(s, next), Stamped(next, s.clock + 1));
  }

  lemma CachedGeneration(s: State, k: Key)
    requires Served(s) && StoresSound(s) && k in s.modules.cache
    ensures k in s.modules.stored
    ensures s.modules.cache[k].meta.generation <= s.modules.stored[k].meta.generation
    ensures s.modules.cache[k].meta.labels == s.modules.stored[k].meta.labels
  {
    hide Matches, DesiredWorkload;
    assert Version(s.modules, s.modules.cache[k]);
  }

  lemma ModuleSavedKeeps(s: State, next: Module)
    requires Served(s) && StoresSound(s)
    requires next.meta.key in s.modules.stored
    requires var was := s.modules.stored[next.meta.key];
             && next.meta.labels == was.meta.labels
             && was.meta.generation <= next.meta.generation
             && (was.meta.generation == next.meta.generation ==> next.spec == was.spec)
    ensures Served(SaveModule(s, next))
  {
    hide Served;
    if Changes(s.modules, next) {
      if next.meta.key in s.modules.cache {
        CachedGeneration(s, next.meta.key);
      }
      ModuleStoredKeeps(s, SaveModule(s, next), Stamped(next, s.clock + 1));
    }
  }

  // ---- writes of exporters ----

  /** t stores n, a version the informer has not seen, and is s otherwise. */
  ghost predicate StoresExporter(s: State, t: State, n: Exporter) {
    && t == s.(clock := t.clock, exporters := t.exporters)
    && t.exporters.stored == s.exporters.stored[n.meta.key := n]
    && t.exporters.cache == s.exporters.cache
    && t.exporters.queue == s.exporters.queue
    && (n.meta.key in s.exporters.cache ==> s.exporters.cache[n.meta.key].meta.resourceVersion != n.meta.resourceVersion)
  }

  /** n's touch annotation comes from before, or names a version the informer has seen. */
  ghost predicate HonestTouch(s: State, n: Exporter) {
    forall r: nat :: NamesVersion(n, r) ==>
      || (n.meta.key in s.exporters.stored && NamesVersion(s.exporters.stored[n.meta.key], r))
      || (r in s.modules.log && SeenAtLeast(s, s.modules.log[r]))
  }

  lemma StoredExporterTouches(s: State, t: State, n: Exporter)
    requires Served(s) && StoresExporter(s, t, n) && HonestTouch(s, n)
    ensures TouchesMean(t) && ModuleWorkerFresh(t) && ExporterWorkerFresh(t)
  {
    hide Matches, DesiredWorkload;
    assert Dirty(t, n.meta.key);
    forall e, r | e in t.exporters.stored && NamesVersion(t.exporters.stored[e], r) ensures TouchMeans(t, e, r) {
      if e in s.exporters.stored && NamesVersion(s.exporters.stored[e], r) {
        assert TouchMeans(s, e, r);
      }
    }
  }

  lemma StoredExporterPair(s: State, t: State, n: Exporter, e: Key, m: Key)
    requires Served(s) && StoresExporter(s, t, n)
    requires e in t.exporters.stored && m in t.modules.stored
    ensures PairServed(t, e, m) && ExporterServed(t, e)
  {
    hide DesiredWorkload, Matches, TouchesMean, SpecsFollowGenerations, GenerationsGrow;
    if e == n.meta.key {
      assert Dirty(t, e);
    } else {
      assert PairServed(s, e, m) && ExporterServed(s, e);
    }
  }

  lemma ExporterStoredKeeps(s: State, t: State, n: Exporter)
    requires Served(s) && StoresExporter(s, t, n) && HonestTouch(s, n)
    ensures Served(t)
    ensures Dirty(t, n.meta.key)
  {
    hide Matches, DesiredWorkload;
    StoredExporterTouches(s, t, n);
    forall e | e in t.exporters.stored ensures ExporterServed(t, e) {
      if e == n.meta.key {
        assert Dirty(t, e);
      } else {
        assert ExporterServed(s, e);
      }
    }
    forall e, m | e in t.exporters.stored && m in t.modules.stored ensures PairServed(t, e, m) {
      StoredExporterPair(s, t, n, e, m);
    }
  }

  lemma ExporterSavedKeeps(s: State, next: Exporter)
    requires Served(s) && StoresSound(s) && HonestTouch(s, next)
    ensures Served(SaveExporter(s, next))
    ensures Changes(s.exporters, next) ==> Dirty(SaveExporter(s, next), next.meta.key)
  {
    hide Served;
    if Changes(s.exporters, next) {
      var n := Stamped(next, s.clock + 1);
      assert n.meta.key in s.exporters.cache ==> s.exporters.cache[n.meta.key].meta.resourceVersion <= s.clock by {
        if n.meta.key in s.exporters.cache {
          assert Version(s.exporters, s.exporters.cache[n.meta.key]);
        }
      }
      assert HonestTouch(s, n) by {
        forall r: nat | NamesVersion(n, r) ensures NamesVersion(next, r) {
        }
      }
      ExporterStoredKeeps(s, SaveExporter(s, next), n);
    }
  }

  // ---- the module worker ----

  /** The module worker moves on; whatever it was about to touch it still is, or needs no more. */
  lemma ModuleWorkerMoves(s: State, t: State)
    requires Served(s)
    requires t == s.(mw := t.mw) && ModuleWorkerFresh(t)
    requires forall e, m ::
               (e in s.exporters.stored && m in s.modules.stored && AboutToTouch(s, e, m)
                && Matches(s.modules.stored[m], s.exporters.stored[e]))
               ==> Reflects(s, e, m) || Owing(s, m) || AboutToTouch(t, e, m)
    ensures Served(t)
  {
    forall e, r | e in t.exporters.stored && NamesVersion(t.exporters.stored[e], r) ensures TouchMeans(t, e, r) {
      assert TouchMeans(s, e, r);
    }
    forall e | e in t.exporters.stored ensures ExporterServed(t, e) {
      assert ExporterServed(s, e);
    }
    forall e, m | e in t.exporters.stored && m in t.modules.stored ensures PairServed(t, e, m) {
      assert PairServed(s, e, m);
    }
  }

  /** Taking k off the queue is safe once the worker holds its cached version, or nothing is cached. */
  lemma DequeueModuleKeeps(s: State, k: Key)
    requires Served(s)
    requires if k in s.modules.cache then s.mw == Loaded(s.modules.cache[k]) && s.mw.m.meta.key == k else s.mw.ModuleIdle?
    ensures Served(s.(modules := Dequeue(s.modules, k)))
  {
    hide Matches, DesiredWorkload, Behind, ModuleCurrent, SpecCurrent, WorkloadCurrent;
    var t := s.(modules := Dequeue(s.modules, k));
    assert forall m :: m in s.modules.stored ==> (Behind(t.modules, m) <==> Behind(s.modules, m)) by {
      DequeueKeepsBehind(s.modules, k);
    }
    assert forall y: Module :: SeenAtLeast(s, y) ==> SeenAtLeast(t, y);
    assert ModuleWorkerFresh(t) by {
      DequeueKeepsBehind(s.modules, k);
    }
    forall e, r | e in t.exporters.stored && NamesVersion(t.exporters.stored[e], r) ensures TouchMeans(t, e, r) {
      assert TouchMeans(s, e, r);
      SameSnapshots(s, t, e, s.modules.log[r].meta.key);
    }
    forall e | e in t.exporters.stored ensures ExporterServed(t, e) {
      assert ExporterServed(s, e);
      SameExporterSide(s, t, e);
    }
    forall e, m | e in t.exporters.stored && m in t.modules.stored ensures PairServed(t, e, m) {
      assert PairServed(s, e, m);
      SameSnapshots(s, t, e, m);
      if m == k && k !in s.modules.cache {
        DequeueKeepsBehind(s.modules, k);
      }
    }
  }

  lemma DequeueKeepsBehind(st: Store<ModuleSpec, ModuleStatus>, k: Key)
    ensures forall m :: m in st.stored ==> (Behind(Dequeue(st, k), m) <==> Behind(st, m))
    ensures k in st.stored && k !in st.cache ==> Behind(st, k)
    ensures k in st.stored && k in st.cache && st.cache[k].meta.generation != st.stored[k].meta.generation ==> Behind(st, k)
  {
  }

  lemma SameSnapshots(s: State, t: State, e: Key, m: Key)
    requires t == s.(modules := t.modules) && t.modules.stored == s.modules.stored
    requires e in s.exporters.stored && m in s.modules.stored
    ensures Reflects(t, e, m) <==> Reflects(s, e, m)
  {
  }

  lemma SameExporterSide(s: State, t: State, e: Key)
    requires t == s.(modules := t.modules)
    requires e in s.exporters.stored
    ensures ExporterServed(t, e) <==> ExporterServed(s, e)
  {
  }

  lemma LoadKeeps(s: State, k: Key)
    requires Served(s) && StoresSound(s)
    requires s.mw.ModuleIdle?
    ensures Served(Load(s, k))
  {
    if k in s.modules.cache {
      CachedGeneration(s, k);
      var u := s.(mw := Loaded(s.modules.cache[k]));
      assert s.modules.cache[k].meta.key == k;
      assert ModuleWorkerFresh(u) by {
        DequeueKeepsBehind(s.modules, k);
        hide Matches, DesiredWorkload;
      }
      ModuleWorkerMoves(s, u);
      DequeueModuleKeeps(u, k);
    } else {
      DequeueModuleKeeps(s, k);
    }
  }

  lemma ModuleRetryKeeps(s: State)
    requires Served(s) && !s.mw.ModuleIdle?
    ensures Served(ModuleRetry(s, s.mw.m.meta.key))
  {
    hide Matches, DesiredWorkload;
    var k := s.mw.m.meta.key;
    var q := s.(modules := Enqueue(s.modules, k));
    QueueKeeps(s, q);
    ModuleWorkerMoves(q, ModuleRetry(s, k));
  }

  /** A version with the stored resource version is the stored object. */
  lemma SeenIsStored(s: State, e: Exporter)
    requires StoresSound(s) && Version(s.exporters, e)
    requires e.meta.key in s.exporters.stored
    requires s.exporters.stored[e.meta.key].meta.resourceVersion == e.meta.resourceVersion
    ensures s.exporters.stored[e.meta.key] == e
  {
    AcceptedIsCurrent(s.exporters, s.clock, e);
  }

  lemma CachedExporter(s: State, k: Key)
    requires StoresSound(s) && k in s.exporters.stored && !Unseen(s.exporters, k)
    ensures s.exporters.cache[k] == s.exporters.stored[k]
  {
    assert Version(s.exporters, s.exporters.cache[k]);
    SeenIsStored(s, s.exporters.cache[k]);
  }

  /** The back references list every exporter that matches, unless its latest version is still unseen. */
  lemma ReferencesComplete(s: State, listing: seq<Key>, x: Module, e: Key)
    requires StoresSound(s) && SpecsFollowGenerations(s)
    requires Lists(listing, s.exporters.cache.Keys)
    requires Version(s.modules, x)
    requires e in s.exporters.stored && !Unseen(s.exporters, e)
    requires Matches(s.modules.stored[x.meta.key], s.exporters.stored[e])
    ensures e in Referencing(Items(listing, s.exporters.cache), x)
  {
    CachedExporter(s, e);
    var all := Items(listing, s.exporters.cache);
    assert x.meta.labels == s.modules.stored[x.meta.key].meta.labels;
    assert s.modules.stored[x.meta.key].meta.key == x.meta.key;
    MatchesByLabels(x, s.modules.stored[x.meta.key], s.exporters.stored[e]);
    var i :| 0 <= i < |listing| && listing[i] == e;
    assert all[i].meta.key == e && Matches(x, all[i]);
    ReferencingMembers(all, x, e);
  }

  lemma PreparedKeeps(s: State, listing: seq<Key>, status: ModuleStatus)
    requires Served(s) && StoresSound(s) && s.mw.Loaded? && Version(s.modules, s.mw.m)
    requires Lists(listing, s.exporters.cache.Keys)
    requires status.referencedByExporters == Referencing(Items(listing, s.exporters.cache), s.mw.m)
    ensures Served(s.(mw := Prepared(s.mw.m, status)))
  {
    hide DesiredWorkload, ModuleCurrent, SpecCurrent, WorkloadCurrent;
    var t := s.(mw := Prepared(s.mw.m, status));
    forall e, m | e in s.exporters.stored && m in s.modules.stored && AboutToTouch(s, e, m)
                  && Matches(s.modules.stored[m], s.exporters.stored[e])
      ensures Reflects(s, e, m) || Owing(s, m) || AboutToTouch(t, e, m)
    {
      if !Unseen(s.exporters, e) {
        ReferencesComplete(s, listing, s.mw.m, e);
      }
    }
    ModuleWorkerMoves(s, t);
  }

  lemma WriteStatusKeeps(s: State)
    requires Served(s) && StoresSound(s) && s.mw.Prepared? && Version(s.modules, s.mw.m)
    ensures Served(WriteStatus(s))
  {
    hide DesiredWorkload, Matches, ModuleCurrent, SpecCurrent, WorkloadCurrent;
    var m := s.mw.m;
    if Accepts(s.modules, m) {
      AcceptedIsCurrent(s.modules, s.clock, m);
      var next := s.modules.stored[m.meta.key].(status := s.mw.status);
      ModuleSavedKeeps(s, next);
      var u := SaveModule(s, next);
      assert u.mw == s.mw && u.modules.cache == s.modules.cache;
      assert u.modules.stored[m.meta.key].meta.generation == m.meta.generation;
      assert u.modules.stored[m.meta.key].meta.key == m.meta.key;
      ModuleWorkerMoves(u, WriteStatus(s));
    } else {
      ModuleRetryKeeps(s);
    }
  }

  lemma ReadRefPair(s: State, e: Key, m: Key)
    requires StoresSound(s) && s.mw.Touching? && s.mw.refs != []
    requires e in s.exporters.stored && m in s.modules.stored && AboutToTouch(s, e, m)
    ensures Reflects(s, e, m) || AboutToTouch(ReadRef(s), e, m)
  {
    hide ModuleCurrent;
    var k, rest := s.mw.refs[0], s.mw.refs[1..];
    if e !in rest {
      assert s.mw.refs == [k] + rest;
      if !Unseen(s.exporters, k) {
        CachedExporter(s, k);
        assert s.exporters.cache[k].meta.key == k;
      }
    }
  }

  lemma ReadRefKeeps(s: State)
    requires Served(s) && StoresSound(s) && s.mw.Touching? && s.mw.refs != []
    ensures Served(ReadRef(s))
  {
    hide AboutToTouch, Reflects, Matches, SpecsFollowGenerations, GenerationsGrow, TouchesMean, ExportersServed, PairsServed;
    forall e, m | e in s.exporters.stored && m in s.modules.stored && AboutToTouch(s, e, m)
      ensures Reflects(s, e, m) || AboutToTouch(ReadRef(s), e, m)
    {
      ReadRefPair(s, e, m);
    }
    ModuleWorkerMoves(s, ReadRef(s));
  }

  /** A rejected touch is harmless: the conflict means that the exporter changed and is dirty for that reason. */
  lemma TouchRejectedKeeps(s: State)
    requires Served(s) && s.mw.Holding? && !Accepts(s.exporters, s.mw.held)
    ensures Served(s.(mw := Touching(s.mw.m, s.mw.refs)))
  {
    hide DesiredWorkload, Matches, ModuleCurrent, SpecCurrent, WorkloadCurrent;
    ModuleWorkerMoves(s, s.(mw := Touching(s.mw.m, s.mw.refs)));
  }

  /** A touch that stores nothing is harmless too: the annotation already names this version. */
  lemma TouchAcceptedKeeps(s: State)
    requires Served(s) && StoresSound(s) && s.mw.Holding? && Version(s.modules, s.mw.m) && Version(s.exporters, s.mw.held)
    requires Accepts(s.exporters, s.mw.held)
    ensures Served(TouchRef(s, true))
  {
    hide DesiredWorkload, Matches, ModuleCurrent, SpecCurrent, WorkloadCurrent;
    var held, rv := s.mw.held, s.mw.m.meta.resourceVersion;
    var k := held.meta.key;
    AcceptedIsCurrent(s.exporters, s.clock, held);
    var next := Merged(s.exporters.stored[k], Touched(held, rv));
    assert next.meta.annotations[TOUCH] == Decimal(rv);
    forall r: nat | NamesVersion(next, r) ensures r in s.modules.log && SeenAtLeast(s, s.modules.log[r]) {
      DecimalInjective(r, rv);
    }
    ExporterSavedKeeps(s, next);
    var u, t := SaveExporter(s, next), TouchRef(s, true);
    assert t == u.(mw := Touching(s.mw.m, s.mw.refs));
    forall e, m | e in u.exporters.stored && m in u.modules.stored && AboutToTouch(u, e, m)
      ensures Reflects(u, e, m) || Owing(u, m) || AboutToTouch(t, e, m)
    {
      if e == k && !Changes(s.exporters, next) {
        assert NamesVersion(s.exporters.stored[k], rv);
        assert TouchMeans(s, k, rv);
      }
    }
    ModuleWorkerMoves(u, t);
  }

  // ---- the exporter worker ----

  lemma ExporterRetryKeeps(s: State)
    requires Served(s) && !s.ew.ExporterIdle?
    ensures Served(ExporterRetry(s, s.ew.x.meta.key))
  {
    hide DesiredWorkload, Matches;
    var k := s.ew.x.meta.key;
    var q := s.(exporters := Enqueue(s.exporters, k));
    QueueKeeps(s, q);
    ExporterWorkerMoves(q, ExporterRetry(s, k));
  }

  /** The exporter worker moves on with its exporter, or starts or stops: every other exporter is unaffected, and
      this one must be dirty or keep what it showed. */
  lemma ExporterWorkerMoves(s: State, t: State)
    requires Served(s)
    requires t == s.(ew := t.ew, out := t.out) && ExporterWorkerFresh(t)
    requires s.ew.ExporterIdle? || t.ew.ExporterIdle? || s.ew.x == t.ew.x
    requires forall e :: e in s.exporters.stored ==>
               || Dirty(t, e)
               || (!Dirty(s, e) && (SpecCurrent(s, e) && WorkloadCurrent(s, e) ==> SpecCurrent(t, e) && WorkloadCurrent(t, e))
                   && (forall m :: m in s.modules.stored && ModuleCurrent(s, e, m) ==> ModuleCurrent(t, e, m)))
    ensures Served(t)
  {
    hide DesiredWorkload, Matches, ModuleCurrent, SpecCurrent, WorkloadCurrent, Unseen;
    forall e, r | e in t.exporters.stored && NamesVersion(t.exporters.stored[e], r) ensures TouchMeans(t, e, r) {
      assert TouchMeans(s, e, r);
    }
    forall e | e in t.exporters.stored ensures ExporterServed(t, e) {
      assert ExporterServed(s, e);
    }
    forall e, m | e in t.exporters.stored && m in t.modules.stored ensures PairServed(t, e, m) {
      assert PairServed(s, e, m);
    }
  }

  lemma FetchKeeps(s: State, k: Key)
    requires Served(s) && StoresSound(s) && s.ew.ExporterIdle?
    ensures Served(Fetch(s, k))
  {
    hide DesiredWorkload, Matches;
    if k in s.exporters.cache {
      var u := s.(ew := Fetched(s.exporters.cache[k]));
      ExporterWorkerMoves(s, u);
      DequeueExporterKeeps(u, k);
    } else {
      DequeueExporterKeeps(s, k);
    }
  }

  /** Taking k off the queue is safe once the worker holds its cached version, or nothing is cached. */
  lemma DequeueExporterKeeps(s: State, k: Key)
    requires Served(s)
    requires if k in s.exporters.cache then s.ew == Fetched(s.exporters.cache[k]) && s.ew.x.meta.key == k else s.ew.ExporterIdle?
    ensures Served(s.(exporters := Dequeue(s.exporters, k)))
  {
    hide DesiredWorkload, Matches;
    var t := s.(exporters := Dequeue(s.exporters, k));
    assert forall e :: e in s.exporters.stored && Dirty(s, e) ==> Dirty(t, e);
    forall e, r | e in t.exporters.stored && NamesVersion(t.exporters.stored[e], r) ensures TouchMeans(t, e, r) {
      assert TouchMeans(s, e, r);
    }
    forall e | e in t.exporters.stored ensures ExporterServed(t, e) {
      assert ExporterServed(s, e);
    }
    forall e, m | e in t.exporters.stored && m in t.modules.stored ensures PairServed(t, e, m) {
      assert PairServed(s, e, m);
    }
  }

  ghost function AfterRendering(s: State, order: seq<Key>, bbModules: map<string, ExporterModule>): State
    requires s.ew.Fetched?
  {
    s.(ew := Gathered(s.ew.x, Snapshot(s.ew.x, order, s.modules.cache), bbModules))
  }

  /** What the worker renders is what the caches hold, so only what is behind or unseen is missing from it. */
  lemma RenderedFromCache(s: State, order: seq<Key>, bbModules: map<string, ExporterModule>, e: Key)
    requires ExporterWorkerFresh(s) && StoresSound(s) && s.ew.Fetched? && Version(s.exporters, s.ew.x)
    requires e in s.exporters.stored
    ensures var t := AfterRendering(s, order, bbModules);
            if e == s.ew.x.meta.key then
              && (Dirty(t, e) || (SpecCurrent(t, e) && WorkloadCurrent(t, e)))
              && (forall m :: m in s.modules.stored && !Behind(s.modules, m) ==> Reflects(t, e, m))
            else
              && (ExporterServed(s, e) ==> ExporterServed(t, e))
              && (forall m :: m in s.modules.stored && Reflects(s, e, m) ==> Reflects(t, e, m))
  {
    hide DesiredWorkload;
    var t := AfterRendering(s, order, bbModules);
    if e == s.ew.x.meta.key && !Dirty(t, e) {
      SeenIsStored(s, s.ew.x);
    }
  }

  lemma GatheredTouch(s: State, order: seq<Key>, bbModules: map<string, ExporterModule>, e: Key, r: nat)
    requires Served(s) && StoresSound(s) && s.ew.Fetched? && Version(s.exporters, s.ew.x)
    requires e in s.exporters.stored && TouchMeans(s, e, r)
    ensures TouchMeans(AfterRendering(s, order, bbModules), e, r)
  {
    hide DesiredWorkload, Dirty, SpecCurrent, WorkloadCurrent, ModuleCurrent, TouchesMean, ExportersServed, PairsServed;
    var t := AfterRendering(s, order, bbModules);
    var x := s.modules.log[r];
    CachedGeneration(s, x.meta.key);
    RenderedFromCache(s, order, bbModules, e);
    assert SeenAtLeast(t, x);
    if x.meta.generation == s.modules.stored[x.meta.key].meta.generation {
      assert !Behind(s.modules, x.meta.key);
      assert Reflects(t, e, x.meta.key);
    }
  }

  lemma GatheredPair(s: State, order: seq<Key>, bbModules: map<string, ExporterModule>, e: Key, m: Key)
    requires ExporterWorkerFresh(s) && StoresSound(s) && s.ew.Fetched? && Version(s.exporters, s.ew.x)
    requires e in s.exporters.stored && m in s.modules.stored && PairServed(s, e, m)
    ensures PairServed(AfterRendering(s, order, bbModules), e, m)
  {
    hide DesiredWorkload, Matches, Reflects;
    RenderedFromCache(s, order, bbModules, e);
  }

  lemma GatheredKeeps(s: State, order: seq<Key>, bbModules: map<string, ExporterModule>)
    requires Served(s) && StoresSound(s) && s.ew.Fetched? && Version(s.exporters, s.ew.x)
    ensures Served(AfterRendering(s, order, bbModules))
  {
    hide DesiredWorkload, Matches, Dirty, SpecCurrent, WorkloadCurrent, ModuleCurrent, TouchMeans, PairServed;
    var t := AfterRendering(s, order, bbModules);
    forall e, r | e in t.exporters.stored && NamesVersion(t.exporters.stored[e], r) ensures TouchMeans(t, e, r) {
      GatheredTouch(s, order, bbModules, e, r);
    }
    forall e | e in t.exporters.stored ensures ExporterServed(t, e) {
      assert ExporterServed(s, e);
      RenderedFromCache(s, order, bbModules, e);
    }
    forall e, m | e in t.exporters.stored && m in t.modules.stored ensures PairServed(t, e, m) {
      GatheredPair(s, order, bbModules, e, m);
    }
  }

  lemma WriteConfigKeeps(w: World, s: State)
    requires Served(s) && s.ew.Gathered?
    ensures Served(ConfigWritten(w, s))
  {
    hide DesiredWorkload, Matches;
    ExporterWorkerMoves(s, ConfigWritten(w, s));
  }

  lemma WriteWorkloadKeeps(s: State)
    requires Served(s) && s.ew.Configured?
    ensures Served(WorkloadWritten(s))
  {
    hide DesiredWorkload, Matches;
    ExporterWorkerMoves(s, WorkloadWritten(s));
  }

  lemma WritePartKeeps(s: State, service: bool)
    requires Served(s) && s.ew.Configured?
    ensures Served(PartWritten(s, service))
  {
    hide DesiredWorkload, Matches;
    ExporterWorkerMoves(s, PartWritten(s, service));
  }

  lemma ReportKeeps(s: State, t1: int, t2: int, seen: bool)
    requires Served(s) && StoresSound(s) && s.ew.Applied?
    ensures Served(ReportWritten(s, t1, t2, seen))
  {
    hide DesiredWorkload, Matches, ExporterReport;
    var x, k := s.ew.x, s.ew.x.meta.key;
    if Accepts(s.exporters, x) {
      var observed := if seen then Observed(s.out, k) else None;
      var next := s.exporters.stored[k].(status := ExporterReport(x, s.ew.count, observed, t1, t2));
      assert next.meta.key == k;
      ExporterSavedKeeps(s, next);
      ExporterWorkerMoves(SaveExporter(s, next), ReportWritten(s, t1, t2, seen));
    } else {
      ExporterRetryKeeps(s);
    }
  }

  // ---- every covered step keeps the invariant ----

  lemma UserEditsModuleKeeps(s: State, k: Key, labels: map<string, string>, annotations: map<string, string>, spec: ModuleSpec)
    requires Served(s) && StoresSound(s) && k in s.modules.stored && labels == s.modules.stored[k].meta.labels
    ensures Served(SaveModule(s, Edited(s.modules.stored[k], labels, annotations, spec)))
  {
    hide Served;
    assert s.modules.stored[k].meta.key == k;
    ModuleSavedKeeps(s, Edited(s.modules.stored[k], labels, annotations, spec));
  }

  lemma UserEditsExporterKeeps(s: State, k: Key, labels: map<string, string>, annotations: map<string, string>, spec: ExporterSpec)
    requires Served(s) && StoresSound(s) && k in s.exporters.stored
    requires var before := s.exporters.stored[k].meta.annotations;
             TOUCH in annotations ==> TOUCH in before && annotations[TOUCH] == before[TOUCH]
    ensures Served(SaveExporter(s, Edited(s.exporters.stored[k], labels, annotations, spec)))
  {
    hide Served;
    assert s.exporters.stored[k].meta.key == k;
    ExporterSavedKeeps(s, Edited(s.exporters.stored[k], labels, annotations, spec));
  }

  lemma OutsideStepKeeps(w: World, s: State, step: Step)
    requires Sound(w, s) && Served(s) && Enabled(s, step) && Covered(s, step)
    requires step.UserCreatesModule? || step.UserEditsModule? || step.UserCreatesExporter? || step.UserEditsExporter?
             || step.UserDeletesExporter? || step.ReadinessChanges? || step.ModuleDelivered? || step.ExporterDelivered?
             || step.ExporterDropped? || step.ModuleRequeued? || step.ExporterRequeued?
    ensures Served(Apply(w, s, step))
  {
    hide Served, Matches, DesiredWorkload, ModuleReport, ExporterReport;
    match step {
      case UserCreatesModule(k, labels, annotations, spec) =>
        ModuleCreatedKeeps(s, Created(k, labels, annotations, spec, NEW_MODULE_STATUS));
      case UserEditsModule(k, labels, annotations, spec) =>
        UserEditsModuleKeeps(s, k, labels, annotations, spec);
      case UserCreatesExporter(k, labels, annotations, spec) =>
        ExporterSavedKeeps(s, Created(k, labels, annotations, spec, NEW_EXPORTER_STATUS));
      case UserEditsExporter(k, labels, annotations, spec) =>
        UserEditsExporterKeeps(s, k, labels, annotations, spec);
      case UserDeletesExporter(k) => ExporterCacheKeeps(s, s.(exporters := Delete(s.exporters, k)));
      case ReadinessChanges(_, _) => QueueKeeps(s, Apply(w, s, step));
      case ModuleDelivered(k, rv) => ModuleDeliveredKeeps(s, s.modules.log[rv]);
      case ExporterDelivered(k, rv) => ExporterDeliveredKeeps(s, s.exporters.log[rv]);
      case ExporterDropped(k) => ExporterDroppedKeeps(s, k);
      case ModuleRequeued(k) => QueueKeeps(s, Apply(w, s, step));
      case ExporterRequeued(k) => QueueKeeps(s, Apply(w, s, step));
    }
  }

  lemma PrepareKeeps(w: World, s: State, listing: seq<Key>, t1: int, t2: int)
    requires Sound(w, s) && Served(s) && s.mw.Loaded? && Lists(listing, s.exporters.cache.Keys)
    ensures Served(Prepare(w, s, Some(listing), t1, t2))
  {
    hide Served, Matches, DesiredWorkload, Convert;
    var m := s.mw.m;
    var c := Convert(w.lib, m.spec, None);
    if c.Panics? {
      ModuleRetryKeeps(s);
    } else {
      PreparedKeeps(s, listing, ModuleReport(c, m, Referencing(Items(listing, s.exporters.cache), m), t1, t2));
    }
  }

  lemma RenderKeeps(w: World, s: State, order: seq<Key>)
    requires Sound(w, s) && Served(s) && s.ew.Fetched? && Lists(order, s.modules.cache.Keys)
    ensures Served(RenderAll(w, s, order))
  {
    hide Served, Matches, DesiredWorkload, ModuleMap;
    var bbModules := ModuleMap(w, Selected(Items(order, s.modules.cache), s.ew.x));
    if bbModules.None? {
      ExporterRetryKeeps(s);
    } else {
      GatheredKeeps(s, order, bbModules.value);
    }
  }

  lemma FinishKeeps(s: State)
    requires Served(s) && s.mw.Touching? && s.mw.refs == []
    ensures Served(s.(mw := ModuleIdle))
  {
    hide DesiredWorkload, Matches, ModuleCurrent, SpecCurrent, WorkloadCurrent;
    ModuleWorkerMoves(s, s.(mw := ModuleIdle));
  }

  lemma TouchKeeps(w: World, s: State)
    requires Sound(w, s) && Served(s) && s.mw.Holding?
    ensures Served(TouchRef(s, true))
  {
    hide Served, Matches, DesiredWorkload;
    if Accepts(s.exporters, s.mw.held) {
      TouchAcceptedKeeps(s);
    } else {
      TouchRejectedKeeps(s);
    }
  }

  lemma ModuleWorkerStepKeeps(w: World, s: State, step: Step)
    requires Sound(w, s) && Served(s) && Enabled(s, step) && Covered(s, step)
    requires step.LoadModule? || step.PrepareStatus? || step.WriteModuleStatus? || step.ReadReference?
             || step.TouchReference? || step.FinishModule? || step.ModuleCallFails?
    ensures Served(Apply(w, s, step))
  {
    hide Served, Matches, DesiredWorkload, Prepare, WriteStatus, ReadRef, TouchRef, Load;
    match step {
      case LoadModule(k) => LoadKeeps(s, k);
      case PrepareStatus(listing, t1, t2) => PrepareKeeps(w, s, listing.value, t1, t2);
      case WriteModuleStatus => WriteStatusKeeps(s);
      case ReadReference => ReadRefKeeps(s);
      case TouchReference(_) => TouchKeeps(w, s);
      case FinishModule => FinishKeeps(s);
      case ModuleCallFails => ModuleRetryKeeps(s);
    }
  }

  lemma RenderingStepKeeps(w: World, s: State, step: Step)
    requires Sound(w, s) && Served(s) && Enabled(s, step)
    requires step.FetchExporter? || step.RenderModules? || step.WriteConfig?
    ensures Served(Apply(w, s, step))
  {
    hide Served, StoresSound, ModuleWorkerSound, ExporterWorkerSound, ConfigsSound;
    hide RenderAll, ConfigWritten, Fetch;
    match step {
      case FetchExporter(k) => FetchKeeps(s, k);
      case RenderModules(order) => RenderKeeps(w, s, order);
      case WriteConfig => WriteConfigKeeps(w, s);
    }
  }

  lemma ReportingStepKeeps(w: World, s: State, step: Step)
    requires Sound(w, s) && Served(s) && Enabled(s, step)
    requires step.WriteWorkload? || step.WritePart? || step.WriteExporterStatus? || step.ExporterCallFails?
    ensures Served(Apply(w, s, step))
  {
    hide Served, StoresSound, ModuleWorkerSound, ExporterWorkerSound, ConfigsSound;
    hide WorkloadWritten, PartWritten, ReportWritten;
    match step {
      case WriteWorkload => WriteWorkloadKeeps(s);
      case WritePart(service) => WritePartKeeps(s, service);
      case WriteExporterStatus(t1, t2, seen) => ReportKeeps(s, t1, t2, seen);
      case ExporterCallFails => ExporterRetryKeeps(s);
    }
  }

  lemma StepKeeps(w: World, s: State, step: Step)
    requires Sound(w, s) && Served(s) && Enabled(s, step) && Covered(s, step)
    ensures Served(Apply(w, s, step))
  {
    hide Sound, Served, Apply;
    match step
    case LoadModule(_) => ModuleWorkerStepKeeps(w, s, step);
    case PrepareStatus(_, _, _) => ModuleWorkerStepKeeps(w, s, step);
    case WriteModuleStatus => ModuleWorkerStepKeeps(w, s, step);
    case ReadReference => ModuleWorkerStepKeeps(w, s, step);
    case TouchReference(_) => ModuleWorkerStepKeeps(w, s, step);
    case FinishModule => ModuleWorkerStepKeeps(w, s, step);
    case ModuleCallFails => ModuleWorkerStepKeeps(w, s, step);
    case FetchExporter(_) => RenderingStepKeeps(w, s, step);
    case RenderModules(_) => RenderingStepKeeps(w, s, step);
    case WriteConfig => RenderingStepKeeps(w, s, step);
    case WriteWorkload => ReportingStepKeeps(w, s, step);
    case WritePart(_) => ReportingStepKeeps(w, s, step);
    case WriteExporterStatus(_, _, _) => ReportingStepKeeps(w, s, step);
    case ExporterCallFails => ReportingStepKeeps(w, s, step);
    case _ => OutsideStepKeeps(w, s, step);
  }

  /** A run all of whose steps are covered. */
  ghost predicate CoveredRun(w: World, s: State, steps: seq<Step>, end: State)
    decreases |steps|
  {
    if steps == [] then s == end
    else Enabled(s, steps[0]) && Covered(s, steps[0]) && CoveredRun(w, Apply(w, s, steps[0]), steps[1..], end)
  }

  lemma {:induction false} RunKeeps(w: World, s: State, steps: seq<Step>, end: State)
    requires Sound(w, s) && Served(s) && CoveredRun(w, s, steps, end)
    ensures Sound(w, end) && Served(end)
    decreases |steps|
  {
    hide Sound, Served, Apply;
    if steps != [] {
      StepSound(w, s, steps[0]);
      StepKeeps(w, s, steps[0]);
      RunKeeps(w, Apply(w, s, steps[0]), steps[1..], end);
    }
  }

  /** The convergence invariant holds in every state a covered run can reach. */
  lemma ReachableServed(w: World, steps: seq<Step>, s: State)
    requires CoveredRun(w, START, steps, s)
    ensures Sound(w, s) && Served(s)
  {
    assert Sound(w, START);
    assert Served(START);
    RunKeeps(w, START, steps, s);
  }
}
