/** How often the operator writes when users leave it alone: whatever the informers do, whatever calls fail and whatever
    panics, the effective writes of a run are bounded in advance. */
module Writes {
  import opened Base
  import opened Api
  import opened Selector
  import opened Converter
  import opened Rendering
  import opened Owned
  import opened Reports
  import opened ApiServer
  import opened Informers
  import opened Steps
  import opened LostUpdates
  import opened Outcome
  import opened Termination
  import opened Chores

  /** A write that changes a stored module or exporter, a ConfigMap or a workload. */
  ghost predicate Effective(s: State, t: State) {
    || t.modules.stored != s.modules.stored || t.exporters.stored != s.exporters.stored
    || t.out.configs != s.out.configs || t.out.workloads != s.out.workloads
  }

  /** What may set the operator to work again: a change of readiness, an event without a delivery, a failed List. */
  predicate Disturbs(step: Step) {
    step.ReadinessChanges? || step.ModuleRequeued? || (step.PrepareStatus? && step.listing.None?)
  }

  /** Every step but those of users. An informer does not show again what it has dropped; a List may answer in any order
      that leads to the same references and the same text. */
  ghost predicate Unattended(c: Setting, s: State, step: Step)
    requires Listing(c) && Enabled(s, step)
  {
    match step
    case UserCreatesModule(_, _, _, _) => false
    case UserEditsModule(_, _, _, _) => false
    case UserDeletesModule(_) => false
    case UserCreatesExporter(_, _, _, _) => false
    case UserEditsExporter(_, _, _, _) => false
    case UserDeletesExporter(_) => false
    case ModuleDelivered(k, _) => Tracked(s.modules, k)
    case ExporterDelivered(k, _) => Tracked(s.exporters, k)
    case PrepareStatus(listing, _, _) => listing.Some? ==> AnswersRefs(c, s, listing.value)
    case RenderModules(order) => AnswersText(c, s, order)
    case _ => true
  }

  ghost predicate AnswersRefs(c: Setting, s: State, order: seq<Key>)
    requires Listing(c) && s.mw.Loaded? && Lists(order, s.exporters.cache.Keys)
  {
    Referencing(Items(order, s.exporters.cache), s.mw.m) == RefsIn(c, s.exporters.cache, s.mw.m)
  }

  ghost predicate AnswersText(c: Setting, s: State, order: seq<Key>)
    requires Listing(c) && s.ew.Fetched? && Lists(order, s.modules.cache.Keys)
  {
    RendersAlike(c.w, MapIn(c, s.modules.cache, s.ew.x), ModuleMap(c.w, Selected(Items(order, s.modules.cache), s.ew.x)))
  }

  /** One step costs the budget what it writes. */
  ghost predicate Paid(c: Setting, s: State, t: State)
    requires Listing(c)
  {
    Fits(c, t) && Budget(c, t) + (if Effective(s, t) then 1 else 0) <= Budget(c, s)
  }

  // ---- informers ----

  lemma ViewsStay(c: Setting, s: State, t: State)
    requires Listing(c) && t == s.(modules := t.modules, exporters := t.exporters)
    requires t.modules.stored == s.modules.stored && t.exporters.stored == s.exporters.stored
    requires SameView(s.modules.cache, t.modules.cache) && SameView(s.exporters.cache, t.exporters.cache)
    requires Unseen(t.modules) + Unseen(t.exporters) <= Unseen(s.modules) + Unseen(s.exporters)
    requires |t.modules.queue| + |Undelivered(t.modules)| <= |s.modules.queue| + |Undelivered(s.modules)|
    ensures Budget(c, t) <= Budget(c, s)
  {
    hide SameView, Unseen, Undelivered, ViewWeight, Turnover, ModulesOff, ChoresOff, ModuleHandWeight, ExporterHandWeight, Times;
    ModulesOffSameView(c, s.modules.stored, s.exporters.cache, t.exporters.cache);
    ModuleHandSameView(c, s.mw, s.exporters.cache, t.exporters.cache);
    ChoresSameView(c, s.modules.cache, t.modules.cache, s.exporters.cache, t.exporters.cache,
                   s.exporters.stored, t.exporters.stored, s.out);
    ExporterHandSameView(c, s.modules.cache, t.modules.cache, s.exporters.cache, t.exporters.cache, s.out.workloads, s.ew);
    TimesAtMost(ViewWeight(c), Unseen(s.modules) + Unseen(s.exporters), Unseen(t.modules) + Unseen(t.exporters), 0);
    TimesAtMost(Turnover(c), |ModulesOff(c, s.modules.stored, s.exporters.cache)| + |s.modules.queue| + |Undelivered(s.modules)|,
                |ModulesOff(c, t.modules.stored, t.exporters.cache)| + |t.modules.queue| + |Undelivered(t.modules)|, 0);
    TimesZero(ViewWeight(c));
    TimesZero(Turnover(c));
  }

  lemma TimesZero(n: nat)
    ensures Times(n, 0) == 0
  {
  }

  lemma TimesNext(n: nat, a: nat)
    ensures Times(n, a + 1) == Times(n, a) + n
  {
  }

  lemma ViewsChange(c: Setting, s: State, t: State)
    requires Listing(c) && Fits(c, s) && Fits(c, t) && t == s.(modules := t.modules, exporters := t.exporters)
    requires t.modules.stored == s.modules.stored && t.exporters.stored == s.exporters.stored
    requires Unseen(t.modules) + Unseen(t.exporters) < Unseen(s.modules) + Unseen(s.exporters)
    requires |t.modules.queue| + |Undelivered(t.modules)| <= |s.modules.queue| + |Undelivered(s.modules)| + 1
    ensures Budget(c, t) <= Budget(c, s)
  {
    hide Unseen, Undelivered, Turnover, ModulesOff, ChoresOff, ModuleHandWeight, ExporterHandWeight, Times, Fits;
    ModulesOffBounded(c, t);
    ChoresBounded(c, t);
    HandsBounded(c, s, t.modules.cache, t.exporters.cache);
    TimesLess(ViewWeight(c), Unseen(s.modules) + Unseen(s.exporters), Unseen(t.modules) + Unseen(t.exporters));
    TimesAtMost(Turnover(c), |ModulesOff(c, s.modules.stored, s.exporters.cache)| + |s.modules.queue| + |Undelivered(s.modules)|,
                |ModulesOff(c, t.modules.stored, t.exporters.cache)| + |t.modules.queue| + |Undelivered(t.modules)|, |c.mkeys| + 1);
    TimesNext(Turnover(c), |c.mkeys|);
  }

  lemma ModuleInformerPaid(c: Setting, s: State, step: Step)
    requires Listing(c) && Fits(c, s) && Logged(s.modules, s.clock) && Enabled(s, step) && Unattended(c, s, step)
    requires step.ModuleDelivered? || step.ModuleDropped?
    ensures Paid(c, s, Apply(c.w, s, step))
  {
    hide Logged, Budget, SameView, Unseen, Undelivered;
    var t := Apply(c.w, s, step);
    SameViewItself(s.exporters.cache);
    if step.ModuleDelivered? {
      DeliveryShows(s.modules, s.clock, step.rv);
      if SameView(s.modules.cache, t.modules.cache) {
        ViewsStay(c, s, t);
      } else {
        ViewsChange(c, s, t);
      }
    } else {
      DropShows(s.modules, s.clock, step.k);
      ViewsChange(c, s, t);
    }
  }

  lemma SameViewItself<S, T>(a: map<Key, Object<S, T>>)
    ensures SameView(a, a)
  {
  }

  lemma ExporterInformerPaid(c: Setting, s: State, step: Step)
    requires Listing(c) && Fits(c, s) && Logged(s.exporters, s.clock) && Enabled(s, step) && Unattended(c, s, step)
    requires step.ExporterDelivered? || step.ExporterDropped?
    ensures Paid(c, s, Apply(c.w, s, step))
  {
    hide Logged, Budget, SameView, Unseen, Undelivered;
    var t := Apply(c.w, s, step);
    SameViewItself(s.modules.cache);
    if step.ExporterDelivered? {
      DeliveryShows(s.exporters, s.clock, step.rv);
      if SameView(s.exporters.cache, t.exporters.cache) {
        ViewsStay(c, s, t);
      } else {
        ViewsChange(c, s, t);
      }
    } else {
      DropShows(s.exporters, s.clock, step.k);
      ViewsChange(c, s, t);
    }
  }

  // ---- the module worker ----

  /** Changes of queues and of the module worker's hand, with nothing written. */
  ghost predicate OnlyModuleTurn(s: State, t: State) {
    && t == s.(modules := t.modules, mw := t.mw)
    && t.modules == s.modules.(queue := t.modules.queue)
  }

  lemma ModuleTurnPaid(c: Setting, s: State, t: State)
    requires Listing(c) && Fits(c, s) && Fits(c, t) && OnlyModuleTurn(s, t)
    requires Times(Turnover(c), |t.modules.queue|) + ModuleHandWeight(c, s.exporters.cache, t.mw)
             <= Times(Turnover(c), |s.modules.queue|) + ModuleHandWeight(c, s.exporters.cache, s.mw)
    ensures Paid(c, s, t)
  {
    hide Unseen, Undelivered, Turnover, ModulesOff, ChoresOff, ModuleHandWeight, ExporterHandWeight, ViewWeight, Fits;
    QueueUnseen(s.modules, t.modules);
    var off, und := |ModulesOff(c, s.modules.stored, s.exporters.cache)|, |Undelivered(s.modules)|;
    TimesSum(Turnover(c), off, |s.modules.queue|, und);
    TimesSum(Turnover(c), off, |t.modules.queue|, und);
    hide Times;
  }

  lemma TimesSum(n: nat, a: nat, b: nat, d: nat)
    ensures Times(n, a + b + d) == Times(n, a) + Times(n, b) + Times(n, d)
  {
  }

  lemma LoadPaid(c: Setting, s: State, k: Key)
    requires Listing(c) && Fits(c, s) && s.mw.ModuleIdle? && k in s.modules.queue
    ensures Paid(c, s, Load(s, k))
  {
    hide Paid, Turnover, Times;
    assert |s.modules.queue - {k}| + 1 == |s.modules.queue|;
    TimesNext(Turnover(c), |s.modules.queue - {k}|);
    ModuleTurnPaid(c, s, Load(s, k));
  }

  /** A retry trades the object in hand for a queued key. */
  lemma RetryPaid(c: Setting, s: State, k: Key)
    requires Listing(c) && Fits(c, s) && (s.mw.Loaded? || s.mw.Prepared?)
    ensures Paid(c, s, ModuleRetry(s, k))
  {
    hide Paid, Times, Fitting;
    var t := ModuleRetry(s, k);
    assert |t.modules.queue| <= |s.modules.queue| + 1;
    TimesAtMost(Turnover(c), |s.modules.queue|, |t.modules.queue|, 1);
    TimesNext(Turnover(c), 0);
    TimesZero(Turnover(c));
    ModuleTurnPaid(c, s, t);
  }

  lemma ReferencesWithin(c: Setting, s: State, order: seq<Key>, m: Module)
    requires Fits(c, s) && Lists(order, s.exporters.cache.Keys)
    ensures |Referencing(Items(order, s.exporters.cache), m)| <= |c.ekeys|
  {
    FewReferences(Items(order, s.exporters.cache), m);
    NoMoreThanKeys(order, s.exporters.cache.Keys);
    SubsetSize(s.exporters.cache.Keys, c.ekeys);
  }

  lemma {:induction false} FewReferences(all: seq<Exporter>, m: Module)
    ensures |Referencing(all, m)| <= |all|
  {
    hide Matches;
    if all != [] {
      FewReferences(all[..|all| - 1], m);
    }
  }

  lemma {:induction false} NoMoreThanKeys(order: seq<Key>, keys: set<Key>)
    requires forall i, j :: 0 <= i < j < |order| ==> order[i] != order[j]
    requires forall k :: k in order ==> k in keys
    ensures |order| <= |keys|
  {
    if order != [] {
      var n := |order| - 1;
      NoMoreThanKeys(order[..n], keys - {order[n]});
    }
  }

  lemma PreparePaid(c: Setting, s: State, listing: Option<seq<Key>>, t1: int, t2: int)
    requires Listing(c) && Fits(c, s) && s.mw.Loaded?
    requires listing.Some? ==> Lists(listing.value, s.exporters.cache.Keys) && AnswersRefs(c, s, listing.value)
    ensures var t := Prepare(c.w, s, listing, t1, t2);
            if listing.Some? then Paid(c, s, t)
            else Fits(c, t) && !Effective(s, t) && Budget(c, t) <= Budget(c, s) + 2 * Turnover(c)
  {
    hide Convert, ModuleReport, Referencing, Items, RefsIn, Budget;
    var m, t := s.mw.m, Prepare(c.w, s, listing, t1, t2);
    if DryRun(c.w, m).Panics? {
      RetryPaid(c, s, m.meta.key);
    } else {
      var refs := if listing.None? then [] else Referencing(Items(listing.value, s.exporters.cache), m);
      assert t == s.(mw := Prepared(m, ModuleReport(DryRun(c.w, m), m, refs, t1, t2)));
      ReportNames(DryRun(c.w, m), m, refs, t1, t2);
      if listing.Some? {
        ReferencesWithin(c, s, listing.value, m);
        assert Fitting(c, s.exporters.cache, m, t.mw.status);
        ModuleTurnPaid(c, s, t);
      } else {
        HandChanged(c, s, t);
      }
    }
  }

  lemma ReportNames(d: Conversion, m: Module, refs: seq<Key>, t1: int, t2: int)
    requires !d.Panics?
    ensures ModuleReport(d, m, refs, t1, t2).referencedByExporters == refs
  {
  }

  lemma HandChanged(c: Setting, s: State, t: State)
    requires Listing(c) && t == s.(mw := t.mw)
    requires ModuleHandWeight(c, s.exporters.cache, t.mw) <= ModuleHandWeight(c, s.exporters.cache, s.mw) + 2 * Turnover(c)
    ensures Budget(c, t) <= Budget(c, s) + 2 * Turnover(c)
  {
    hide Unseen, Undelivered, Turnover, ModulesOff, ChoresOff, ModuleHandWeight, ExporterHandWeight, ViewWeight, Times;
  }

  lemma ReadPaid(c: Setting, s: State)
    requires Listing(c) && Fits(c, s) && s.mw.Touching?
    ensures Paid(c, s, if s.mw.refs == [] then s.(mw := ModuleIdle) else ReadRef(s))
  {
    hide Paid;
    ModuleTurnPaid(c, s, if s.mw.refs == [] then s.(mw := ModuleIdle) else ReadRef(s));
  }

  // ---- a module status ----

  lemma WrittenReported(c: Setting, ecache: map<Key, Exporter>, m: Module, n: Module, t1: int, t2: int)
    requires Listing(c) && !DryRun(c.w, m).Panics?
    requires n == Stamped(m.(status := ModuleReport(DryRun(c.w, m), m, RefsIn(c, ecache, m), t1, t2)), n.meta.resourceVersion)
    ensures Reported(c, ecache, n)
  {
    hide Convert, Referencing, Items;
    var d, refs := DryRun(c.w, m), RefsIn(c, ecache, m);
    SameViewItself(ecache);
    RefsInSame(c, ecache, ecache, m, n);
    ModuleReportSettles(d, m, refs, t1, t2, 0, 0);
    SameReport(d, m.(status := n.status), n, refs);
  }

  lemma ReportedAnytime(c: Setting, ecache: map<Key, Exporter>, m: Module, t1: int, t2: int)
    requires Listing(c) && !DryRun(c.w, m).Panics? && Reported(c, ecache, m)
    ensures ModuleReport(DryRun(c.w, m), m, RefsIn(c, ecache, m), t1, t2) == m.status
  {
    hide Convert, RefsIn;
    ModuleReportSettles(DryRun(c.w, m), m, RefsIn(c, ecache, m), 0, 0, t1, t2);
  }

  /** A changed status that fits settles its module; any other unsettles at most that one. */
  lemma StatusSettles(c: Setting, ecache: map<Key, Exporter>, mstored: map<Key, Module>, k: Key, n: Module)
    requires Listing(c) && k in mstored && n.status != mstored[k].status
    requires n == Stamped(mstored[k].(status := n.status), n.meta.resourceVersion)
    ensures var before, after := ModulesOff(c, mstored, ecache), ModulesOff(c, mstored[k := n], ecache);
            && |after| <= |before| + 1
            && (Fitting(c, ecache, mstored[k], n.status) ==> |after| + 1 <= |before|)
  {
    hide Reported, Fitting;
    var m := mstored[k];
    var before, after := ModulesOff(c, mstored, ecache), ModulesOff(c, mstored[k := n], ecache);
    assert after <= before + {k};
    SubsetSize(after, before + {k});
    assert |before + {k}| <= |before| + 1;
    if Fitting(c, ecache, m, n.status) {
      FittingSettles(c, ecache, m, n);
      SmallerSubset(after, before, k);
    }
  }

  lemma FittingSettles(c: Setting, ecache: map<Key, Exporter>, m: Module, n: Module)
    requires Listing(c) && Fitting(c, ecache, m, n.status) && n.status != m.status
    requires n == Stamped(m.(status := n.status), n.meta.resourceVersion)
    ensures Reported(c, ecache, n) && !Reported(c, ecache, m)
  {
    hide Convert, ModuleReport, RefsIn, Reported;
    var t1, t2 :| n.status == ModuleReport(DryRun(c.w, m), m, RefsIn(c, ecache, m), t1, t2);
    WrittenReported(c, ecache, m, n, t1, t2);
    if Reported(c, ecache, m) {
      ReportedAnytime(c, ecache, m, t1, t2);
    }
  }

  lemma AcceptedWrite(s: State)
    requires s.mw.Prepared? && Logged(s.modules, s.clock) && Version(s.modules, s.mw.m) && Accepts(s.modules, s.mw.m)
    ensures var m, t := s.mw.m, WriteStatus(s);
            && m.meta.key in s.modules.stored && s.modules.stored[m.meta.key] == m
            && (if s.mw.status == m.status then t == s.(mw := Touching(m, s.mw.status.referencedByExporters))
                else
                  && t.modules == StoreAt(s.modules, m.(status := s.mw.status), s.clock + 1)
                  && t == s.(clock := t.clock, modules := t.modules, mw := t.mw)
                  && t.mw.Touching? && t.mw.refs == s.mw.status.referencedByExporters)
  {
    AcceptedIsCurrent(s.modules, s.clock, s.mw.m);
    var m := s.mw.m;
    if s.mw.status == m.status {
      assert m.(status := s.mw.status) == m;
    } else {
      assert m.(status := s.mw.status).status != m.status;
    }
  }

  lemma ChangedStatusPaid(c: Setting, s: State, t: State)
    requires Listing(c) && Fits(c, s) && s.mw.Prepared? && Logged(s.modules, s.clock)
    requires var m := s.mw.m;
             && m.meta.key in s.modules.stored && s.modules.stored[m.meta.key] == m && s.mw.status != m.status
             && t.modules == StoreAt(s.modules, m.(status := s.mw.status), s.clock + 1)
             && t == s.(clock := t.clock, modules := t.modules, mw := t.mw)
             && t.mw.Touching? && t.mw.refs == s.mw.status.referencedByExporters
    ensures Paid(c, s, t)
  {
    hide Unseen, Undelivered, ModulesOff, ChoresOff, ExporterHandWeight, ViewWeight, Fitting, Times, Logged;
    var m, k := s.mw.m, s.mw.m.meta.key;
    var n := t.modules.stored[k];
    WriteShowsNothing(s.modules, m.(status := s.mw.status), s.clock);
    StatusSettles(c, s.exporters.cache, s.modules.stored, k, n);
    var before, after := |ModulesOff(c, s.modules.stored, s.exporters.cache)|, |ModulesOff(c, t.modules.stored, t.exporters.cache)|;
    var queue, was, now := |s.modules.queue|, |Undelivered(s.modules)|, |Undelivered(t.modules)|;
    if Fitting(c, s.exporters.cache, m, s.mw.status) {
      TimesAtMost(Turnover(c), before + queue + was, after + queue + now, 0);
      TimesZero(Turnover(c));
    } else {
      TimesAtMost(Turnover(c), before + queue + was, after + queue + now, 2);
      TimesNext(Turnover(c), 1);
      TimesNext(Turnover(c), 0);
      TimesZero(Turnover(c));
    }
    assert t.modules.stored.Keys == s.modules.stored.Keys;
  }

  lemma WriteStatusPaid(c: Setting, s: State)
    requires Listing(c) && Fits(c, s) && s.mw.Prepared? && Logged(s.modules, s.clock) && Version(s.modules, s.mw.m)
    ensures Paid(c, s, WriteStatus(s))
  {
    hide Paid, Logged, Version, Budget, Fitting;
    if !Accepts(s.modules, s.mw.m) {
      RetryPaid(c, s, s.mw.m.meta.key);
    } else {
      AcceptedWrite(s);
      if s.mw.status == s.mw.m.status {
        ModuleTurnPaid(c, s, WriteStatus(s));
      } else {
        ChangedStatusPaid(c, s, WriteStatus(s));
      }
    }
  }

  // ---- a touch ----

  lemma TouchPaid(c: Setting, s: State, delivered: bool)
    requires Listing(c) && Fits(c, s) && s.mw.Holding? && Logged(s.exporters, s.clock) && Version(s.exporters, s.mw.held)
    ensures Paid(c, s, TouchRef(s, delivered))
  {
    hide Logged, Version, Budget, Paid;
    var held, t := s.mw.held, TouchRef(s, delivered);
    var next := Touched(held, s.mw.m.meta.resourceVersion);
    var done := s.(mw := Touching(s.mw.m, s.mw.refs));
    if delivered && Accepts(s.exporters, held) {
      AcceptedIsCurrent(s.exporters, s.clock, held);
      var merged := Merged(held, next);
      assert merged == next;
      if Changes(s.exporters, next) {
        TouchWritten(c, s, t, next);
      } else {
        ModuleTurnPaid(c, s, done);
      }
    } else {
      ModuleTurnPaid(c, s, done);
    }
  }

  lemma TouchWritten(c: Setting, s: State, t: State, next: Exporter)
    requires Listing(c) && Fits(c, s) && s.mw.Holding? && Logged(s.exporters, s.clock)
    requires next.meta.key in s.exporters.stored && SameContent(s.exporters.stored[next.meta.key], next)
    requires Interchangeable(s.exporters.stored[next.meta.key], next)
    requires t.exporters == StoreAt(s.exporters, next, s.clock + 1)
    requires t == s.(clock := t.clock, exporters := t.exporters, mw := t.mw) && t.mw == Touching(s.mw.m, s.mw.refs)
    ensures Paid(c, s, t)
  {
    hide Unseen, Undelivered, ModulesOff, ChoresOff, ExporterHandWeight, ViewWeight, Times, Logged;
    WriteShowsNothing(s.exporters, next, s.clock);
    SameViewItself(s.modules.cache);
    SameViewItself(s.exporters.cache);
    assert SameReports(s.exporters.stored, t.exporters.stored);
    ChoresSameView(c, s.modules.cache, s.modules.cache, s.exporters.cache, s.exporters.cache,
                   s.exporters.stored, t.exporters.stored, s.out);
    assert t.exporters.stored.Keys == s.exporters.stored.Keys;
  }

  // ---- the exporter worker ----

  /** Changes of the exporter queue and of the exporter worker's hand, with nothing written. */
  ghost predicate OnlyExporterTurn(s: State, t: State) {
    && t == s.(exporters := t.exporters, ew := t.ew)
    && t.exporters == s.exporters.(queue := t.exporters.queue)
  }

  lemma ExporterTurnPaid(c: Setting, s: State, t: State)
    requires Listing(c) && Fits(c, s) && OnlyExporterTurn(s, t)
    requires ExporterHandWeight(c, s.modules.cache, s.exporters.cache, s.out.workloads, t.ew)
             <= ExporterHandWeight(c, s.modules.cache, s.exporters.cache, s.out.workloads, s.ew)
    ensures Paid(c, s, t)
  {
    hide Unseen, Undelivered, Turnover, ModulesOff, ChoresOff, ModuleHandWeight, ExporterHandWeight, ViewWeight, Times;
    QueueUnseen(s.exporters, t.exporters);
  }

  lemma FetchPaid(c: Setting, s: State, k: Key)
    requires Listing(c) && Fits(c, s) && s.ew.ExporterIdle? && Logged(s.exporters, s.clock)
    ensures Paid(c, s, Fetch(s, k))
  {
    hide Paid, MapIn;
    ExporterTurnPaid(c, s, Fetch(s, k));
  }

  lemma RenderPaid(c: Setting, s: State, order: seq<Key>)
    requires Listing(c) && Fits(c, s) && s.ew.Fetched? && Lists(order, s.modules.cache.Keys) && AnswersText(c, s, order)
    ensures Paid(c, s, RenderAll(c.w, s, order))
  {
    hide Paid, MapIn, ModuleMap, Selected, Items;
    ExporterTurnPaid(c, s, RenderAll(c.w, s, order));
  }

  lemma ExporterRetryPaid(c: Setting, s: State, k: Key)
    requires Listing(c) && Fits(c, s)
    ensures Paid(c, s, ExporterRetry(s, k))
  {
    hide Paid, HandCurrent;
    ExporterTurnPaid(c, s, ExporterRetry(s, k));
  }

  /** A step that writes owned objects or a status, and does not touch what the caches show. */
  lemma ExporterWritePaid(c: Setting, s: State, t: State)
    requires Listing(c) && Fits(c, s) && Fits(c, t)
    requires t == s.(clock := t.clock, exporters := t.exporters, out := t.out, ew := t.ew)
    requires t.exporters.cache == s.exporters.cache && Unseen(t.exporters) == Unseen(s.exporters)
    requires ExporterSide(c, t) + (if Effective(s, t) then 1 else 0) <= ExporterSide(c, s)
    ensures Paid(c, s, t)
  {
    hide Unseen, Undelivered, Turnover, ModulesOff, ExporterSide, ModuleHandWeight, ViewWeight, Times;
  }

  /** Two sides that differ in one chore. */
  lemma OneChore(before: set<Chore>, after: set<Chore>, ch: Chore)
    requires forall d :: d != ch ==> (d in after <==> d in before)
    ensures |after| <= |before| + 1
    ensures ch !in after ==> |after| <= |before|
    ensures ch !in after && ch in before ==> |after| + 1 <= |before|
  {
    assert after <= before + {ch};
    SubsetSize(after, before + {ch});
    assert |before + {ch}| <= |before| + 1;
    if ch !in after {
      assert after <= before;
      SubsetSize(after, before);
      if ch in before {
        SmallerSubset(after, before, ch);
      }
    }
  }

  lemma OtherConfigSame(c: Setting, s: State, out: Outputs, k: Key, text: string, j: Key, p: Part)
    requires Listing(c) && out == s.out.(configs := s.out.configs[k := text], basis := out.basis)
    requires Chore(j, p) != Chore(k, ConfigPart)
    ensures Off(c, s.modules.cache, s.exporters.cache, s.exporters.stored, out, j, p)
            <==> Off(c, s.modules.cache, s.exporters.cache, s.exporters.stored, s.out, j, p)
  {
    hide MapIn, PartDone, StatusDone, Listing;
  }

  lemma CurrentConfig(c: Setting, s: State, out: Outputs, k: Key)
    requires Listing(c) && s.ew.Gathered? && k == s.ew.x.meta.key
    requires HandCurrent(c, s.modules.cache, s.exporters.cache, s.ew)
    requires out == s.out.(configs := s.out.configs[k := c.w.lib.render(s.ew.bbModules)], basis := out.basis)
    ensures k in s.exporters.cache
    ensures !Off(c, s.modules.cache, s.exporters.cache, s.exporters.stored, out, k, ConfigPart)
    ensures out.configs != s.out.configs ==> Off(c, s.modules.cache, s.exporters.cache, s.exporters.stored, s.out, k, ConfigPart)
  {
    hide MapIn, PartDone, StatusDone;
    SameViewItself(s.modules.cache);
    MapInSame(c, s.modules.cache, s.modules.cache, s.ew.x, s.exporters.cache[k]);
  }

  lemma ConfigChores(c: Setting, s: State, t: State)
    requires Listing(c) && s.ew.Gathered?
    requires t.out == s.out.(configs := s.out.configs[s.ew.x.meta.key := c.w.lib.render(s.ew.bbModules)], basis := t.out.basis)
    ensures var before, after := ChoresOff(c, s.modules.cache, s.exporters.cache, s.exporters.stored, s.out),
                                 ChoresOff(c, s.modules.cache, s.exporters.cache, s.exporters.stored, t.out);
            && |after| <= |before| + 1
            && (HandCurrent(c, s.modules.cache, s.exporters.cache, s.ew) ==> |after| <= |before|)
            && (HandCurrent(c, s.modules.cache, s.exporters.cache, s.ew) && t.out.configs != s.out.configs ==> |after| + 1 <= |before|)
  {
    hide HandCurrent, Off;
    var k, text := s.ew.x.meta.key, c.w.lib.render(s.ew.bbModules);
    var mcache, ecache, estored := s.modules.cache, s.exporters.cache, s.exporters.stored;
    var before, after := ChoresOff(c, mcache, ecache, estored, s.out), ChoresOff(c, mcache, ecache, estored, t.out);
    forall j, p: Part | Chore(j, p) != Chore(k, ConfigPart)
      ensures Off(c, mcache, ecache, estored, t.out, j, p) <==> Off(c, mcache, ecache, estored, s.out, j, p)
    {
      OtherConfigSame(c, s, t.out, k, text, j, p);
    }
    if HandCurrent(c, mcache, ecache, s.ew) {
      CurrentConfig(c, s, t.out, k);
    }
    OneChore(before, after, Chore(k, ConfigPart));
  }

  lemma ConfigPaid(c: Setting, s: State)
    requires Listing(c) && Fits(c, s) && s.ew.Gathered?
    ensures Paid(c, s, ConfigWritten(c.w, s))
  {
    hide Paid, ChoresOff, HandParts, MapIn;
    var t := ConfigWritten(c.w, s);
    ConfigChores(c, s, t);
    HandPartsFew(t.out.workloads, s.ew.x);
    ExporterWritePaid(c, s, t);
  }

  // ---- a workload ----

  function ChoresAt(k: Key, parts: set<Part>): set<Chore> {
    set p | p in parts :: Chore(k, p)
  }

  lemma {:induction false} ChoresAtSize(k: Key, parts: set<Part>)
    ensures |ChoresAt(k, parts)| == |parts|
  {
    if parts != {} {
      var p :| p in parts;
      ChoresAtSize(k, parts - {p});
      assert ChoresAt(k, parts) == ChoresAt(k, parts - {p}) + {Chore(k, p)};
    }
  }

  /** `part` is what stands after some of the three writes of the exporter in hand, the Deployment's at least. */
  ghost predicate PartlyWritten(was: Workload, part: Workload, desired: Workload) {
    && part.deployment == desired.deployment
    && (part.service == desired.service || part.service == was.service)
    && (part.monitor == desired.monitor || part.monitor == was.monitor)
  }

  lemma PartsShrink(workloads: map<Key, Workload>, x: Exporter, part: Workload)
    requires PartlyWritten(if x.meta.key in workloads then workloads[x.meta.key] else NO_WORKLOAD, part, DesiredWorkload(x.meta.key, x.spec))
    ensures var after := workloads[x.meta.key := part];
            && HandParts(after, x) <= HandParts(workloads, x)
            && (after != workloads ==> HandParts(after, x) != HandParts(workloads, x))
  {
    hide DesiredWorkload;
    var k := x.meta.key;
    var after := workloads[k := part];
    if HandParts(after, x) == HandParts(workloads, x) {
      assert !(DeploymentPart in HandParts(after, x)) && !(DeploymentPart in HandParts(workloads, x));
      assert ServicePart in HandParts(after, x) <==> ServicePart in HandParts(workloads, x);
      assert MonitorPart in HandParts(after, x) <==> MonitorPart in HandParts(workloads, x);
      assert k in workloads && workloads[k] == part;
    }
  }

  lemma PartOffSame(c: Setting, s: State, out: Outputs, x: Exporter, part: Workload, j: Key, p: Part)
    requires Listing(c) && out == s.out.(workloads := s.out.workloads[x.meta.key := part])
    requires PartlyWritten(WorkloadOf(s.out, x.meta.key), part, DesiredWorkload(x.meta.key, x.spec))
    requires j != x.meta.key || p !in HandParts(s.out.workloads, x) - HandParts(out.workloads, x)
    ensures Off(c, s.modules.cache, s.exporters.cache, s.exporters.stored, out, j, p)
            <==> Off(c, s.modules.cache, s.exporters.cache, s.exporters.stored, s.out, j, p)
  {
    hide MapIn, ConfigDone, StatusDone, Listing, DesiredWorkload;
  }

  lemma PartsChores(c: Setting, s: State, out: Outputs, x: Exporter, part: Workload)
    requires Listing(c) && out == s.out.(workloads := s.out.workloads[x.meta.key := part])
    requires PartlyWritten(WorkloadOf(s.out, x.meta.key), part, DesiredWorkload(x.meta.key, x.spec))
    ensures var before, after := ChoresOff(c, s.modules.cache, s.exporters.cache, s.exporters.stored, s.out),
                                 ChoresOff(c, s.modules.cache, s.exporters.cache, s.exporters.stored, out);
            var was, now := |HandParts(s.out.workloads, x)|, |HandParts(out.workloads, x)|;
            && now <= was && (out.workloads != s.out.workloads ==> now < was)
            && |after| <= |before| + was - now
            && (x.meta.key in s.exporters.cache && s.exporters.cache[x.meta.key].spec == x.spec ==> |after| + was - now <= |before|)
  {
    hide Off, HandParts, Listing, DesiredWorkload, PartlyWritten;
    var k := x.meta.key;
    var mcache, ecache, estored := s.modules.cache, s.exporters.cache, s.exporters.stored;
    var before, after := ChoresOff(c, mcache, ecache, estored, s.out), ChoresOff(c, mcache, ecache, estored, out);
    var was, now := HandParts(s.out.workloads, x), HandParts(out.workloads, x);
    PartsShrink(s.out.workloads, x, part);
    var fixed := was - now;
    assert was == now + fixed;
    ChoresAtSize(k, fixed);
    forall j, p: Part | Chore(j, p) !in ChoresAt(k, fixed)
      ensures Off(c, mcache, ecache, estored, out, j, p) <==> Off(c, mcache, ecache, estored, s.out, j, p)
    {
      PartOffSame(c, s, out, x, part, j, p);
    }
    assert after <= before + ChoresAt(k, fixed);
    SubsetSize(after, before + ChoresAt(k, fixed));
    assert |before + ChoresAt(k, fixed)| <= |before| + |fixed|;
    if k in ecache && ecache[k].spec == x.spec {
      forall p | p in fixed
        ensures Chore(k, p) in before && Chore(k, p) !in after
      {
        FixedPart(c, s, out, x, p);
      }
      assert after <= before - ChoresAt(k, fixed);
      SubsetSize(after, before - ChoresAt(k, fixed));
      assert ChoresAt(k, fixed) <= before;
      assert |before - ChoresAt(k, fixed)| == |before| - |fixed|;
    }
  }

  lemma FixedPart(c: Setting, s: State, out: Outputs, x: Exporter, p: Part)
    requires Listing(c) && x.meta.key in s.exporters.cache && s.exporters.cache[x.meta.key].spec == x.spec
    requires p in HandParts(s.out.workloads, x) - HandParts(out.workloads, x)
    ensures Off(c, s.modules.cache, s.exporters.cache, s.exporters.stored, s.out, x.meta.key, p)
    ensures !Off(c, s.modules.cache, s.exporters.cache, s.exporters.stored, out, x.meta.key, p)
  {
    hide MapIn, ConfigDone, StatusDone, Listing, DesiredWorkload;
  }

  lemma WorkloadPaid(c: Setting, s: State, part: Workload, ew: ExporterWorker)
    requires Listing(c) && Fits(c, s) && s.ew.Configured?
    requires PartlyWritten(WorkloadOf(s.out, s.ew.x.meta.key), part, DesiredWorkload(s.ew.x.meta.key, s.ew.x.spec))
    requires ew == s.ew || ew == Applied(s.ew.x, s.ew.count)
    ensures Paid(c, s, s.(out := s.out.(workloads := s.out.workloads[s.ew.x.meta.key := part]), ew := ew))
  {
    hide Paid, ChoresOff, HandParts, MapIn, DesiredWorkload, PartlyWritten;
    var t := s.(out := s.out.(workloads := s.out.workloads[s.ew.x.meta.key := part]), ew := ew);
    PartsChores(c, s, t.out, s.ew.x, part);
    ExporterWritePaid(c, s, t);
  }

  // ---- an exporter status ----

  lemma AcceptedReport(s: State, t1: int, t2: int, seen: bool)
    requires s.ew.Applied? && Logged(s.exporters, s.clock) && Version(s.exporters, s.ew.x) && Accepts(s.exporters, s.ew.x)
    ensures var x, k, t := s.ew.x, s.ew.x.meta.key, ReportWritten(s, t1, t2, seen);
            var report := ExporterReport(x, s.ew.count, if seen then Observed(s.out, k) else None, t1, t2);
            && k in s.exporters.stored && s.exporters.stored[k] == x
            && (if report == x.status then t == s.(ew := ExporterIdle)
                else
                  && t.exporters == StoreAt(s.exporters, x.(status := report), s.clock + 1)
                  && t == s.(clock := t.clock, exporters := t.exporters, ew := ExporterIdle))
  {
    hide ExporterReport;
    AcceptedIsCurrent(s.exporters, s.clock, s.ew.x);
    var x := s.ew.x;
    var report := ExporterReport(x, s.ew.count, if seen then Observed(s.out, x.meta.key) else None, t1, t2);
    if report == x.status {
      assert x.(status := report) == x;
    } else {
      assert x.(status := report).status != x.status;
    }
  }

  /** A report that did not see the Deployment repeats the readiness recorded last. */
  lemma BlindReport(x: Exporter, count: nat, t1: int, t2: int)
    ensures ExporterReport(x, count, None, t1, t2) == ExporterReport(x, count, Some(x.status.readyReplicas), t1, t2)
  {
  }

  /** What the stored status says after a report was written over it. */
  lemma ReportSettles(c: Setting, mcache: map<Key, Module>, x: Exporter, y: Exporter, count: nat, observed: Option<int>, t1: int, t2: int)
    requires Listing(c) && MapIn(c, mcache, x).Some? && |MapIn(c, mcache, x).value| == count
    requires y == Stamped(x.(status := ExporterReport(x, count, observed, t1, t2)), y.meta.resourceVersion)
    ensures StatusDone(c, mcache, y, observed)
    ensures StatusDone(c, mcache, x, observed) ==> y.status == x.status
    ensures StatusDone(c, mcache, y, None)
  {
    hide MapIn;
    SameViewItself(mcache);
    MapInSame(c, mcache, mcache, x, y);
    ExporterReportSettles(x, count, observed, t1, t2, 0, 0);
    SameExporterReport(x.(status := y.status), y, count, observed);
    if StatusDone(c, mcache, x, observed) {
      ExporterReportSettles(x, count, observed, 0, 0, t1, t2);
    }
    BlindReport(y, count, 0, 0);
    RecordedReadiness(x, count, observed, t1, t2);
    ExporterReportSettles(x, count, Some(y.status.readyReplicas), t1, t2, 0, 0);
    SameExporterReport(x.(status := y.status), y, count, Some(y.status.readyReplicas));
  }

  lemma RecordedReadiness(x: Exporter, count: nat, observed: Option<int>, t1: int, t2: int)
    ensures var r := ExporterReport(x, count, observed, t1, t2).readyReplicas;
            ExporterReport(x, count, Some(r), t1, t2) == ExporterReport(x, count, observed, t1, t2)
  {
  }

  /** A status that is right with the readiness seen is right without it. */
  lemma SeenThenBlind(c: Setting, mcache: map<Key, Module>, x: Exporter, observed: Option<int>)
    requires Listing(c) && StatusDone(c, mcache, x, observed)
    ensures StatusDone(c, mcache, x, None)
  {
    hide MapIn;
    if MapIn(c, mcache, x).Some? {
      var count := |MapIn(c, mcache, x).value|;
      BlindReport(x, count, 0, 0);
      RecordedReadiness(x, count, observed, 0, 0);
    }
  }

  lemma OtherReportSame(c: Setting, s: State, stored: map<Key, Exporter>, k: Key, j: Key, p: Part)
    requires Listing(c) && k in s.exporters.stored && k in stored && stored == s.exporters.stored[k := stored[k]]
    requires j != k || !ReportPart(p)
    ensures Off(c, s.modules.cache, s.exporters.cache, stored, s.out, j, p)
            <==> Off(c, s.modules.cache, s.exporters.cache, s.exporters.stored, s.out, j, p)
  {
    hide MapIn, PartDone, StatusDone, ConfigDone, Listing;
  }

  /** A changed status of k concerns two chores at most. */
  lemma ReportChores(c: Setting, s: State, stored: map<Key, Exporter>, k: Key)
    requires Listing(c) && k in s.exporters.stored && k in stored && stored == s.exporters.stored[k := stored[k]]
    ensures var before, after := ChoresOff(c, s.modules.cache, s.exporters.cache, s.exporters.stored, s.out),
                                 ChoresOff(c, s.modules.cache, s.exporters.cache, stored, s.out);
            var seen, blind := Chore(k, StatusPart), Chore(k, BlindPart);
            && |after| <= |before| + 2
            && (seen !in after && blind !in after && (seen in before || blind in before) ==> |after| + 1 <= |before|)
            && (seen in before && blind in before && blind !in after ==> |after| + 1 <= |before|)
  {
    hide Off, Listing;
    var mcache, ecache := s.modules.cache, s.exporters.cache;
    var before, after := ChoresOff(c, mcache, ecache, s.exporters.stored, s.out), ChoresOff(c, mcache, ecache, stored, s.out);
    var seen, blind := Chore(k, StatusPart), Chore(k, BlindPart);
    forall j, p: Part | Chore(j, p) != seen && Chore(j, p) != blind
      ensures Off(c, mcache, ecache, stored, s.out, j, p) <==> Off(c, mcache, ecache, s.exporters.stored, s.out, j, p)
    {
      OtherReportSame(c, s, stored, k, j, p);
    }
    assert stored.Keys == s.exporters.stored.Keys;
    assert forall d :: d != seen && d != blind ==> (d in after <==> d in before);
    hide ChoresOff;
    TwoChores(before, after, seen, blind);
  }

  lemma TwoChores(before: set<Chore>, after: set<Chore>, a: Chore, b: Chore)
    requires a != b && forall d :: d != a && d != b ==> (d in after <==> d in before)
    ensures |after| <= |before| + 2
    ensures a !in after && b !in after && (a in before || b in before) ==> |after| + 1 <= |before|
    ensures a in before && b in before && b !in after ==> |after| + 1 <= |before|
  {
    assert after <= before + {a, b};
    SubsetSize(after, before + {a, b});
    assert |before + {a, b}| <= |before| + 2;
    if a !in after && b !in after {
      if a in before {
        SmallerSubset(after, before, a);
      } else if b in before {
        SmallerSubset(after, before, b);
      }
    }
    if a in before && b in before && b !in after {
      SmallerSubset(after, before, b);
    }
  }

  lemma ReportOffAt(c: Setting, s: State, stored: map<Key, Exporter>, k: Key, p: Part)
    requires Listing(c) && k in stored && ReportPart(p)
    ensures Chore(k, p) in ChoresOff(c, s.modules.cache, s.exporters.cache, stored, s.out)
            <==> !StatusDone(c, s.modules.cache, stored[k], if p.StatusPart? then Observed(s.out, k) else None)
  {
    hide StatusDone, OutputOff, Listing;
  }

  lemma CurrentReportChores(c: Setting, s: State, y: Exporter, seen: bool, t1: int, t2: int)
    requires Listing(c) && s.ew.Applied? && HandCurrent(c, s.modules.cache, s.exporters.cache, s.ew)
    requires s.ew.x.meta.key in s.exporters.stored && s.exporters.stored[s.ew.x.meta.key] == s.ew.x && y.status != s.ew.x.status
    requires y == Stamped(s.ew.x.(status := ExporterReport(s.ew.x, s.ew.count, if seen then Observed(s.out, s.ew.x.meta.key) else None, t1, t2)),
                          y.meta.resourceVersion)
    ensures |ChoresOff(c, s.modules.cache, s.exporters.cache, s.exporters.stored[y.meta.key := y], s.out)| + 1
            <= |ChoresOff(c, s.modules.cache, s.exporters.cache, s.exporters.stored, s.out)|
  {
    hide MapIn, ExporterReport, StatusDone, ChoresOff;
    var x, k := s.ew.x, s.ew.x.meta.key;
    var stored, observed := s.exporters.stored[k := y], Observed(s.out, k);
    ReportSettles(c, s.modules.cache, x, y, s.ew.count, if seen then observed else None, t1, t2);
    if StatusDone(c, s.modules.cache, x, observed) {
      SeenThenBlind(c, s.modules.cache, x, observed);
    }
    ReportOffAt(c, s, s.exporters.stored, k, StatusPart);
    ReportOffAt(c, s, s.exporters.stored, k, BlindPart);
    ReportOffAt(c, s, stored, k, StatusPart);
    ReportOffAt(c, s, stored, k, BlindPart);
    ReportChores(c, s, stored, k);
  }

  lemma ChangedReportPaid(c: Setting, s: State, t: State, next: Exporter, seen: bool, t1: int, t2: int)
    requires Listing(c) && Fits(c, s) && s.ew.Applied? && Logged(s.exporters, s.clock)
    requires s.ew.x.meta.key in s.exporters.stored && s.exporters.stored[s.ew.x.meta.key] == s.ew.x && next.status != s.ew.x.status
    requires next == s.ew.x.(status := ExporterReport(s.ew.x, s.ew.count, if seen then Observed(s.out, s.ew.x.meta.key) else None, t1, t2))
    requires t.exporters == StoreAt(s.exporters, next, s.clock + 1)
    requires t == s.(clock := t.clock, exporters := t.exporters, ew := ExporterIdle)
    ensures Paid(c, s, t)
  {
    hide Paid, Logged, MapIn, ExporterReport, ChoresOff, Unseen, Undelivered;
    var k := s.ew.x.meta.key;
    WriteShowsNothing(s.exporters, next, s.clock);
    assert t.exporters.stored.Keys == s.exporters.stored.Keys;
    if HandCurrent(c, s.modules.cache, s.exporters.cache, s.ew) {
      CurrentReportChores(c, s, t.exporters.stored[k], seen, t1, t2);
    } else {
      ReportChores(c, s, t.exporters.stored, k);
    }
    ExporterWritePaid(c, s, t);
  }

  lemma ReportPaid(c: Setting, s: State, t1: int, t2: int, seen: bool)
    requires Listing(c) && Fits(c, s) && s.ew.Applied? && Logged(s.exporters, s.clock) && Version(s.exporters, s.ew.x)
    ensures Paid(c, s, ReportWritten(s, t1, t2, seen))
  {
    hide Paid, Logged, Version, Budget, HandCurrent, ExporterReport;
    var k := s.ew.x.meta.key;
    if !Accepts(s.exporters, s.ew.x) {
      ExporterRetryPaid(c, s, k);
    } else {
      AcceptedReport(s, t1, t2, seen);
      var report := ExporterReport(s.ew.x, s.ew.count, if seen then Observed(s.out, k) else None, t1, t2);
      if report == s.ew.x.status {
        ExporterTurnPaid(c, s, ReportWritten(s, t1, t2, seen));
      } else {
        ChangedReportPaid(c, s, ReportWritten(s, t1, t2, seen), s.ew.x.(status := report), seen, t1, t2);
      }
    }
  }

  // ---- every step ----

  lemma ReadinessPaid(c: Setting, s: State, k: Key, replicas: int)
    requires Listing(c) && Fits(c, s)
    ensures var t := s.(out := s.out.(ready := s.out.ready[k := replicas]));
            Fits(c, t) && !Effective(s, t) && Budget(c, t) <= Budget(c, s) + 1
  {
    hide Unseen, Undelivered, Turnover, ModulesOff, Off, ModuleHandWeight, ExporterHandWeight, ViewWeight, Times;
    var t := s.(out := s.out.(ready := s.out.ready[k := replicas]));
    var mcache, ecache, estored := s.modules.cache, s.exporters.cache, s.exporters.stored;
    forall j, p: Part | Chore(j, p) != Chore(k, StatusPart)
      ensures Off(c, mcache, ecache, estored, t.out, j, p) <==> Off(c, mcache, ecache, estored, s.out, j, p)
    {
      OtherReadinessSame(c, s, k, replicas, j, p);
    }
    OneChore(ChoresOff(c, mcache, ecache, estored, s.out), ChoresOff(c, mcache, ecache, estored, t.out), Chore(k, StatusPart));
  }

  lemma OtherReadinessSame(c: Setting, s: State, k: Key, replicas: int, j: Key, p: Part)
    requires Listing(c) && Chore(j, p) != Chore(k, StatusPart)
    ensures Off(c, s.modules.cache, s.exporters.cache, s.exporters.stored, s.out.(ready := s.out.ready[k := replicas]), j, p)
            <==> Off(c, s.modules.cache, s.exporters.cache, s.exporters.stored, s.out, j, p)
  {
    hide MapIn, PartDone, ConfigDone, StatusDone, Listing;
  }

  lemma RequeuePaid(c: Setting, s: State, k: Key)
    requires Listing(c) && Fits(c, s)
    ensures var t := s.(modules := Enqueue(s.modules, k));
            Fits(c, t) && !Effective(s, t) && Budget(c, t) <= Budget(c, s) + Turnover(c)
  {
    hide Unseen, Undelivered, Turnover, ModulesOff, ChoresOff, ModuleHandWeight, ExporterHandWeight, ViewWeight, Times;
    var t := s.(modules := Enqueue(s.modules, k));
    QueueUnseen(s.modules, t.modules);
    assert |t.modules.queue| <= |s.modules.queue| + 1;
    var off, und := |ModulesOff(c, s.modules.stored, s.exporters.cache)|, |Undelivered(s.modules)|;
    TimesAtMost(Turnover(c), off + |s.modules.queue| + und, off + |t.modules.queue| + und, 1);
    TimesNext(Turnover(c), 0);
    TimesZero(Turnover(c));
  }

  /** What one step costs: nothing but what it writes, unless it disturbs. */
  ghost predicate Charged(c: Setting, s: State, step: Step, t: State)
    requires Listing(c)
  {
    && Fits(c, t)
    && Budget(c, t) + (if Effective(s, t) then 1 else 0) <= Budget(c, s) + (if Disturbs(step) then 2 * Turnover(c) else 0)
  }

  lemma OutsideStepCharged(c: Setting, s: State, step: Step)
    requires Listing(c) && Fits(c, s) && Sound(c.w, s) && Enabled(s, step) && Unattended(c, s, step)
    requires step.ReadinessChanges? || step.ModuleRequeued? || step.ExporterRequeued?
             || step.ModuleDelivered? || step.ModuleDropped? || step.ExporterDelivered? || step.ExporterDropped?
    ensures Charged(c, s, step, Apply(c.w, s, step))
  {
    hide Logged, Budget, Fits, Effective, ExporterWorkerSound, ModuleWorkerSound, ConfigsSound, Tracked, ExporterHandWeight,
         Prepare, WriteStatus, ReadRef, TouchRef, RenderAll, ConfigWritten, WorkloadWritten, PartWritten, ReportWritten;
    if step.ReadinessChanges? {
      ReadinessPaid(c, s, step.k, step.replicas);
    } else if step.ModuleRequeued? {
      RequeuePaid(c, s, step.k);
    } else if step.ExporterRequeued? {
      ExporterTurnPaid(c, s, Apply(c.w, s, step));
    } else if step.ModuleDelivered? || step.ModuleDropped? {
      ModuleInformerPaid(c, s, step);
    } else {
      ExporterInformerPaid(c, s, step);
    }
  }

  lemma ModuleWorkerStepCharged(c: Setting, s: State, step: Step)
    requires Listing(c) && Fits(c, s) && Sound(c.w, s) && Enabled(s, step) && Unattended(c, s, step)
    requires step.LoadModule? || step.PrepareStatus? || step.WriteModuleStatus? || step.ReadReference? || step.TouchReference?
             || step.FinishModule? || step.ModuleCallFails?
    ensures Charged(c, s, step, Apply(c.w, s, step))
  {
    hide Logged, Budget, Fits, Effective, ExporterWorkerSound, ConfigsSound, Version, AnswersRefs, Lists, ModulesWithin, ExportersWithin,
         Load, Prepare, WriteStatus, ReadRef, TouchRef, RenderAll, ConfigWritten, WorkloadWritten, PartWritten, ReportWritten;
    if step.LoadModule? {
      LoadPaid(c, s, step.k);
    } else if step.PrepareStatus? {
      PreparePaid(c, s, step.listing, step.t1, step.t2);
    } else if step.WriteModuleStatus? {
      WriteStatusPaid(c, s);
    } else if step.ReadReference? || step.FinishModule? {
      ReadPaid(c, s);
    } else if step.TouchReference? {
      TouchPaid(c, s, step.delivered);
    } else {
      RetryPaid(c, s, s.mw.m.meta.key);
    }
  }

  lemma ExporterWorkerStepCharged(c: Setting, s: State, step: Step)
    requires Listing(c) && Fits(c, s) && Sound(c.w, s) && Enabled(s, step) && Unattended(c, s, step)
    requires step.FetchExporter? || step.RenderModules? || step.WriteConfig? || step.WriteWorkload? || step.WritePart?
             || step.WriteExporterStatus? || step.ExporterCallFails?
    ensures Charged(c, s, step, Apply(c.w, s, step))
  {
    hide Logged, Budget, Fits, Effective, ModuleWorkerSound, ConfigsSound, Version, AnswersText, Lists, ModulesWithin, ExportersWithin,
         Load, Prepare, WriteStatus, ReadRef, TouchRef, RenderAll, ConfigWritten, DesiredWorkload, ReportWritten, SnapshotSound, RendersTo;
    if step.FetchExporter? {
      FetchPaid(c, s, step.k);
    } else if step.RenderModules? {
      RenderPaid(c, s, step.order);
    } else if step.WriteConfig? {
      ConfigPaid(c, s);
    } else if step.WriteWorkload? {
      WorkloadPaid(c, s, DesiredWorkload(s.ew.x.meta.key, s.ew.x.spec), Applied(s.ew.x, s.ew.count));
    } else if step.WritePart? {
      WorkloadPaid(c, s, WorkloadOf(PartWritten(s, step.service).out, s.ew.x.meta.key), s.ew);
    } else if step.WriteExporterStatus? {
      ReportPaid(c, s, step.t1, step.t2, step.seen);
    } else {
      ExporterRetryPaid(c, s, s.ew.x.meta.key);
    }
  }

  lemma StepCharged(c: Setting, s: State, step: Step)
    requires Listing(c) && Fits(c, s) && Sound(c.w, s) && Enabled(s, step) && Unattended(c, s, step)
    ensures Charged(c, s, step, Apply(c.w, s, step))
  {
    hide Charged, Sound, Fits, Apply, Lists, Listing, AnswersRefs, AnswersText, Tracked;
    match step {
      case LoadModule(_) => ModuleWorkerStepCharged(c, s, step);
      case PrepareStatus(_, _, _) => ModuleWorkerStepCharged(c, s, step);
      case WriteModuleStatus => ModuleWorkerStepCharged(c, s, step);
      case ReadReference => ModuleWorkerStepCharged(c, s, step);
      case TouchReference(_) => ModuleWorkerStepCharged(c, s, step);
      case FinishModule => ModuleWorkerStepCharged(c, s, step);
      case ModuleCallFails => ModuleWorkerStepCharged(c, s, step);
      case FetchExporter(_) => ExporterWorkerStepCharged(c, s, step);
      case RenderModules(_) => ExporterWorkerStepCharged(c, s, step);
      case WriteConfig => ExporterWorkerStepCharged(c, s, step);
      case WriteWorkload => ExporterWorkerStepCharged(c, s, step);
      case WritePart(_) => ExporterWorkerStepCharged(c, s, step);
      case WriteExporterStatus(_, _, _) => ExporterWorkerStepCharged(c, s, step);
      case ExporterCallFails => ExporterWorkerStepCharged(c, s, step);
      case _ => OutsideStepCharged(c, s, step);
    }
  }

  // ---- every run ----

  ghost predicate UnattendedRun(c: Setting, s: State, steps: seq<Step>, end: State)
    requires Listing(c)
    decreases |steps|
  {
    if steps == [] then s == end
    else
      && Enabled(s, steps[0]) && Unattended(c, s, steps[0])
      && UnattendedRun(c, Apply(c.w, s, steps[0]), steps[1..], end)
  }

  ghost function EffectiveWrites(c: Setting, s: State, steps: seq<Step>, end: State): nat
    requires Listing(c) && UnattendedRun(c, s, steps, end)
    decreases |steps|
  {
    if steps == [] then 0
    else
      var t := Apply(c.w, s, steps[0]);
      (if Effective(s, t) then 1 else 0) + EffectiveWrites(c, t, steps[1..], end)
  }

  function Disturbances(steps: seq<Step>): nat {
    if steps == [] then 0 else (if Disturbs(steps[0]) then 1 else 0) + Disturbances(steps[1..])
  }

  /** Left alone by users, the operator writes no more often than its budget at the start allows, plus a fixed number of
      times for every disturbance: informers may lag and skip, calls may fail, modules may panic. */
  lemma {:induction false} WritesBounded(c: Setting, s: State, steps: seq<Step>, end: State)
    requires Listing(c) && Fits(c, s) && Sound(c.w, s) && UnattendedRun(c, s, steps, end)
    ensures Sound(c.w, end) && Fits(c, end)
    ensures EffectiveWrites(c, s, steps, end) + Budget(c, end) <= Budget(c, s) + Times(2 * Turnover(c), Disturbances(steps))
    decreases |steps|
  {
    hide Sound, Fits, Apply, Enabled, Unattended, Budget, Turnover, Listing, Effective;
    if steps != [] {
      var t := Apply(c.w, s, steps[0]);
      StepCharged(c, s, steps[0]);
      StepSound(c.w, s, steps[0]);
      WritesBounded(c, t, steps[1..], end);
      TimesNext(2 * Turnover(c), Disturbances(steps[1..]));
    } else {
      TimesZero(2 * Turnover(c));
    }
  }

  // ---- runs without end ----

  /** An infinite run that users leave alone and nothing disturbs. */
  ghost predicate Endless(c: Setting, run: nat -> State, acts: nat -> Step)
    requires Listing(c)
  {
    forall i: nat ::
      && Enabled(run(i), acts(i)) && Unattended(c, run(i), acts(i)) && !Disturbs(acts(i))
      && run(i + 1) == Apply(c.w, run(i), acts(i))
  }

  lemma {:induction false} EndlessBudget(c: Setting, run: nat -> State, acts: nat -> Step, i: nat, j: nat)
    requires Listing(c) && Endless(c, run, acts) && i <= j && Sound(c.w, run(i)) && Fits(c, run(i))
    ensures Sound(c.w, run(j)) && Fits(c, run(j)) && Budget(c, run(j)) <= Budget(c, run(i))
    decreases j - i
  {
    hide Sound, Fits, Apply, Enabled, Unattended, Budget, Listing, Effective;
    if i < j {
      assert run(i + 1) == Apply(c.w, run(i), acts(i));
      StepCharged(c, run(i), acts(i));
      StepSound(c.w, run(i), acts(i));
      EndlessBudget(c, run, acts, i + 1, j);
    }
  }

  ghost predicate QuietFrom(run: nat -> State, n: nat) {
    forall i: nat :: n <= i ==> !Effective(run(i), run(i + 1))
  }

  /** However it goes on, from some point nothing is written any more. */
  lemma {:induction false} EventuallyQuiet(c: Setting, run: nat -> State, acts: nat -> Step, start: nat) returns (n: nat)
    requires Listing(c) && Endless(c, run, acts) && Sound(c.w, run(start)) && Fits(c, run(start))
    ensures QuietFrom(run, n)
    decreases Budget(c, run(start))
  {
    hide Sound, Fits, Apply, Enabled, Unattended, Budget, Listing, Effective;
    if i: nat :| start <= i && Effective(run(i), run(i + 1)) {
      EndlessBudget(c, run, acts, start, i);
      assert run(i + 1) == Apply(c.w, run(i), acts(i));
      StepCharged(c, run(i), acts(i));
      StepSound(c.w, run(i), acts(i));
      n := EventuallyQuiet(c, run, acts, i + 1);
    } else {
      n := start;
    }
  }
}
