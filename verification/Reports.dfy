/** The status each controller writes, as a function of what it observed. */
module Reports {
  import opened Base
  import opened Conditions
  import opened Api
  import opened Converter

  function ConfigCondition(c: Conversion, generation: nat): Condition
    requires !c.Panics?
  {
    match c
    case Converted(_) => Condition(CONDITION_CONFIG, True, generation, "Valid", "Module configuration is valid", 0)
    case Rejected(_, cause) =>
      Condition(CONDITION_CONFIG, False, generation, "Invalid", "Module configuration is invalid: " + cause, 0)
  }

  function ReadyCondition(c: Conversion, generation: nat): Condition
    requires !c.Panics?
  {
    match c
    case Converted(_) => Condition(CONDITION_READY, True, generation, CONDITION_READY, "Module is ready", 0)
    case Rejected(_, cause) =>
      Condition(CONDITION_READY, False, generation, "Invalid", "Module configuration is invalid: " + cause, 0)
  }

  function ProberOf(c: Conversion): string
    requires !c.Panics?
  {
    match c
    case Converted(m) => m.prober
    case Rejected(m, _) => m.prober
  }

  /** The status of a module after a dry run `c` that found the back references `refs`. */
  function ModuleReport(c: Conversion, m: Module, refs: seq<Key>, t1: int, t2: int): ModuleStatus
    requires !c.Panics?
  {
    var g := m.meta.generation;
    var conditions := Put(Put(m.status.conditions, ConfigCondition(c, g), t1), ReadyCondition(c, g), t2);
    ModuleStatus(conditions, refs, ProberOf(c), g)
  }

  function AvailableCondition(readyReplicas: int, generation: nat): Condition {
    if readyReplicas > 0 then
      Condition(CONDITION_READY, True, generation, "DeploymentAvailable", "Deployment has minimum availability", 0)
    else
      Condition(CONDITION_READY, False, generation, "Reconciling", "Reconciliation in progress", 0)
  }

  function RenderedCondition(count: nat, generation: nat): Condition {
    Condition(CONDITION_CONFIG, True, generation, "ConfigRendered",
              "Configuration rendered from " + Decimal(count) + " modules", 0)
  }

  function ReadyReplicas(x: Exporter, observed: Option<int>): int {
    if observed.Some? then observed.value else x.status.readyReplicas
  }

  /** The status of an exporter after rendering `count` modules; `observed` is its Deployment's readiness, if found. */
  function ExporterReport(x: Exporter, count: nat, observed: Option<int>, t1: int, t2: int): ExporterStatus {
    var g := x.meta.generation;
    var rr := ReadyReplicas(x, observed);
    var conditions := Put(Put(x.status.conditions, AvailableCondition(rr, g), t1), RenderedCondition(count, g), t2);
    ExporterStatus(conditions, count, rr, g)
  }

  lemma TwoConditionsSettle(cs: seq<Condition>, c: Condition, d: Condition, t1: int, t2: int, t3: int, t4: int)
    requires c.kind != d.kind
    ensures var once := Put(Put(cs, c, t1), d, t2);
            Put(Put(once, c, t3), d, t4) == once
  {
    var mid := Put(cs, c, t1);
    var once := Put(mid, d, t2);
    PutMakesHold(cs, c, t1);
    PutKeepsOthers(mid, d, t2, c);
    PutIsIdentityWhenHolding(once, c, t3);
    PutMakesHold(mid, d, t2);
    PutIsIdentityWhenHolding(once, d, t4);
  }

  /** Writing the same observations again, at any later times, produces the same status. */
  lemma ModuleReportSettles(c: Conversion, m: Module, refs: seq<Key>, t1: int, t2: int, t3: int, t4: int)
    requires !c.Panics?
    ensures var s := ModuleReport(c, m, refs, t1, t2);
            ModuleReport(c, m.(status := s), refs, t3, t4) == s
  {
    var g := m.meta.generation;
    TwoConditionsSettle(m.status.conditions, ConfigCondition(c, g), ReadyCondition(c, g), t1, t2, t3, t4);
  }

  lemma ExporterReportSettles(x: Exporter, count: nat, observed: Option<int>, t1: int, t2: int, t3: int, t4: int)
    ensures var s := ExporterReport(x, count, observed, t1, t2);
            ExporterReport(x.(status := s), count, observed, t3, t4) == s
  {
    var g := x.meta.generation;
    var rr := ReadyReplicas(x, observed);
    TwoConditionsSettle(x.status.conditions, AvailableCondition(rr, g), RenderedCondition(count, g), t1, t2, t3, t4);
  }

  ghost predicate ObservedWithin(cs: seq<Condition>, generation: nat) {
    forall i :: 0 <= i < |cs| ==> cs[i].observedGeneration <= generation
  }

  ghost predicate ModuleStatusWithin(s: ModuleStatus, generation: nat) {
    s.observedGeneration <= generation && ObservedWithin(s.conditions, generation)
  }

  ghost predicate ExporterStatusWithin(s: ExporterStatus, generation: nat) {
    s.observedGeneration <= generation && ObservedWithin(s.conditions, generation)
  }

  lemma PutKeepsWithin(cs: seq<Condition>, c: Condition, now: int, generation: nat)
    requires ObservedWithin(cs, generation) && c.observedGeneration <= generation
    ensures ObservedWithin(Put(cs, c, now), generation)
  {
  }

  lemma ModuleReportWithin(c: Conversion, m: Module, refs: seq<Key>, t1: int, t2: int)
    requires !c.Panics?
    requires ModuleStatusWithin(m.status, m.meta.generation)
    ensures ModuleStatusWithin(ModuleReport(c, m, refs, t1, t2), m.meta.generation)
  {
    var g := m.meta.generation;
    PutKeepsWithin(m.status.conditions, ConfigCondition(c, g), t1, g);
    PutKeepsWithin(Put(m.status.conditions, ConfigCondition(c, g), t1), ReadyCondition(c, g), t2, g);
  }

  lemma ExporterReportWithin(x: Exporter, count: nat, observed: Option<int>, t1: int, t2: int)
    requires ExporterStatusWithin(x.status, x.meta.generation)
    ensures ExporterStatusWithin(ExporterReport(x, count, observed, t1, t2), x.meta.generation)
  {
    var g := x.meta.generation;
    var rr := ReadyReplicas(x, observed);
    PutKeepsWithin(x.status.conditions, AvailableCondition(rr, g), t1, g);
    PutKeepsWithin(Put(x.status.conditions, AvailableCondition(rr, g), t1), RenderedCondition(count, g), t2, g);
  }

  // ---- what readers of a status see ----

  /** The entry that readers find for a type. */
  ghost predicate Shows(cs: seq<Condition>, kind: string, status: Status, generation: nat, reason: string, message: string) {
    var i := IndexOf(cs, kind);
    && i < |cs|
    && cs[i].status == status && cs[i].observedGeneration == generation && cs[i].reason == reason && cs[i].message == message
  }

  lemma TwoConditionsShow(cs: seq<Condition>, c: Condition, d: Condition, t1: int, t2: int)
    requires c.kind != d.kind
    ensures var once := Put(Put(cs, c, t1), d, t2);
            && Shows(once, c.kind, c.status, c.observedGeneration, c.reason, c.message)
            && Shows(once, d.kind, d.status, d.observedGeneration, d.reason, d.message)
  {
    var mid := Put(cs, c, t1);
    EntryAfterCall(cs, c, t1);
    EntryAfterCall(mid, d, t2);
    PutFrame(mid, d, t2, c.kind);
  }

  /** A module whose dry run converts is reported valid and ready under its prober; a rejected one neither, with the
      error in both entries. */
  lemma ModuleReportShows(c: Conversion, m: Module, refs: seq<Key>, t1: int, t2: int)
    requires !c.Panics?
    ensures var s, g := ModuleReport(c, m, refs, t1, t2), m.meta.generation;
            && s.observedGeneration == g && s.referencedByExporters == refs
            && (c.Converted? ==>
                  && s.prober == c.m.prober
                  && Shows(s.conditions, "ConfigValid", True, g, "Valid", "Module configuration is valid")
                  && Shows(s.conditions, "Ready", True, g, "Ready", "Module is ready"))
            && (c.Rejected? ==>
                  && s.prober == c.partial.prober
                  && Shows(s.conditions, "ConfigValid", False, g, "Invalid", "Module configuration is invalid: " + c.message)
                  && Shows(s.conditions, "Ready", False, g, "Invalid", "Module configuration is invalid: " + c.message))
  {
    TwoConditionsShow(m.status.conditions, ConfigCondition(c, m.meta.generation), ReadyCondition(c, m.meta.generation), t1, t2);
    hide Put, Shows;
  }

  /** An exporter is reported ready exactly while a replica of its Deployment is; without a look at the Deployment the
      last number stands. */
  lemma ExporterReportShows(x: Exporter, count: nat, observed: Option<int>, t1: int, t2: int)
    ensures var s, g := ExporterReport(x, count, observed, t1, t2), x.meta.generation;
            && s.observedGeneration == g && s.moduleCount == count
            && (observed.Some? ==> s.readyReplicas == observed.value)
            && (observed.None? ==> s.readyReplicas == x.status.readyReplicas)
            && Shows(s.conditions, "ConfigValid", True, g, "ConfigRendered",
                     "Configuration rendered from " + Decimal(count) + " modules")
            && (s.readyReplicas > 0 ==>
                  Shows(s.conditions, "Ready", True, g, "DeploymentAvailable", "Deployment has minimum availability"))
            && (s.readyReplicas <= 0 ==>
                  Shows(s.conditions, "Ready", False, g, "Reconciling", "Reconciliation in progress"))
  {
    var g, rr := x.meta.generation, ReadyReplicas(x, observed);
    TwoConditionsShow(x.status.conditions, AvailableCondition(rr, g), RenderedCondition(count, g), t1, t2);
    hide Put, Shows;
  }
}
