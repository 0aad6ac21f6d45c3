/** The validating webhooks of modules and probes, and what their acceptance is worth to the controllers. */
module Admission {
  import opened Base
  import opened Api
  import opened Converter

  datatype ModuleError =
    | NoProber
    | ManyProbers(count: nat)
    | BadTimeout(timeout: string, cause: string)
    | NoQueryName

  ghost function SetSections(spec: ModuleSpec): set<Section> {
    set s: Section | IsSet(spec, s)
  }

  ghost predicate TimeoutAdmitted(lib: Lib, spec: ModuleSpec) {
    spec.timeout == "" || lib.parseDuration(spec.timeout).Ok?
  }

  /** The specs the webhook accepts. */
  ghost predicate Admitted(lib: Lib, spec: ModuleSpec) {
    && |SetSections(spec)| == 1
    && TimeoutAdmitted(lib, spec)
    && (spec.dns.Some? ==> spec.dns.value.queryName != "")
  }

  function One(b: bool): nat {
    if b then 1 else 0
  }

  lemma AddSection(sections: set<Section>, spec: ModuleSpec, s: Section) returns (out: set<Section>)
    requires s !in sections
    ensures |out| == |sections| + One(IsSet(spec, s))
    ensures forall t :: t in out <==> t in sections || (t == s && IsSet(spec, s))
  {
    out := if IsSet(spec, s) then sections + {s} else sections;
  }

  lemma CountSections(spec: ModuleSpec)
    ensures |SetSections(spec)| ==
            One(spec.http.Some?) + One(spec.tcp.Some?) + One(spec.dns.Some?) + One(spec.icmp.Some?)
            + One(spec.grpc.Some?) + One(spec.unix.Some?) + One(spec.websocket.Some?)
  {
    var found := AddSection({}, spec, HTTP);
    found := AddSection(found, spec, TCP);
    found := AddSection(found, spec, DNS);
    found := AddSection(found, spec, ICMP);
    found := AddSection(found, spec, GRPC);
    found := AddSection(found, spec, UNIX);
    found := AddSection(found, spec, WEBSOCKET);
    assert found == SetSections(spec);
  }

  method ValidateModuleSpec(lib: Lib, spec: ModuleSpec) returns (r: Result<(), ModuleError>)
    ensures r.Ok? <==> Admitted(lib, spec)
    ensures r == Err(NoProber) <==> SetSections(spec) == {}
    ensures forall n: nat :: r == Err(ManyProbers(n)) <==> n == |SetSections(spec)| > 1
    ensures r.Err? && r.error.BadTimeout? <==> |SetSections(spec)| == 1 && !TimeoutAdmitted(lib, spec)
    ensures var count := (if spec.http.Some? then 1 else 0) + (if spec.tcp.Some? then 1 else 0) + (if spec.dns.Some? then 1 else 0)
                         + (if spec.icmp.Some? then 1 else 0) + (if spec.grpc.Some? then 1 else 0)
                         + (if spec.unix.Some? then 1 else 0) + (if spec.websocket.Some? then 1 else 0);
            var timely := spec.timeout == "" || lib.parseDuration(spec.timeout).Ok?;
            var nameless := spec.dns.Some? && spec.dns.value.queryName == "";
            && (r.Ok? <==> count == 1 && timely && !nameless)
            && (r == Err(NoProber) <==> count == 0)
            && (r.Err? && r.error.ManyProbers? <==> count > 1)
            && (r.Err? && r.error.ManyProbers? ==> r.error.count == count)
            && (r.Err? && r.error.BadTimeout? ==>
                  r.error.timeout == spec.timeout && lib.parseDuration(spec.timeout) == Err(r.error.cause))
            && (r == Err(NoQueryName) <==> count == 1 && timely && nameless)
  {
    CountSections(spec);
    var count := 0;
    if spec.http.Some? { count := count + 1; }
    if spec.tcp.Some? { count := count + 1; }
    if spec.dns.Some? { count := count + 1; }
    if spec.icmp.Some? { count := count + 1; }
    if spec.grpc.Some? { count := count + 1; }
    if spec.unix.Some? { count := count + 1; }
    if spec.websocket.Some? { count := count + 1; }

    if count == 0 {
      return Err(NoProber);
    }
    if count > 1 {
      return Err(ManyProbers(count));
    }
    if spec.timeout != "" {
      var d := lib.parseDuration(spec.timeout);
      if d.Err? {
        return Err(BadTimeout(spec.timeout, d.error));
      }
    }
    if spec.dns.Some? && spec.dns.value.queryName == "" {
      return Err(NoQueryName);
    }
    return Ok(());
  }

  lemma SingletonMembers<T>(s: set<T>, a: T, b: T)
    requires |s| == 1 && a in s && b in s
    ensures a == b
  {
    assert |s - {a}| == 0;
  }

  lemma OneSection(spec: ModuleSpec) returns (s: Section)
    requires |SetSections(spec)| == 1
    ensures forall t :: IsSet(spec, t) <==> t == s
  {
    s :| s in SetSections(spec);
    forall t | IsSet(spec, t) ensures t == s {
      SingletonMembers(SetSections(spec), s, t);
    }
  }

  /** Admission is not enough for conversion. An admitted spec converts exactly when its timeout is not empty and
      its patterns compile; an empty timeout is rejected by the converter, a bad pattern makes it panic. */
  lemma AdmittedConvertsExactly(lib: Lib, spec: ModuleSpec, secrets: Option<ResolvedSecrets>)
    requires Admitted(lib, spec)
    requires lib.parseDuration("").Err?
    ensures Chosen(spec).Some?
    ensures Convert(lib, spec, secrets).Converted? <==>
              spec.timeout != "" && AllCompile(lib, Patterns(spec, Chosen(spec).value))
    ensures Convert(lib, spec, secrets).Rejected? <==> spec.timeout == ""
    ensures Convert(lib, spec, secrets).Converted? ==>
              Convert(lib, spec, secrets).m.prober == Prober(Chosen(spec).value)
  {
    var s := OneSection(spec);
    assert IsSet(spec, s);
  }

  // ---- probes ----

  datatype ProbeError =
    | NoExporterRef
    | NoModuleRef
    | NoTargets
    | BadInterval(cause: string)
    | BadScrapeTimeout(cause: string)
    | TimeoutAboveInterval

  function Duration(lib: Lib, text: string): int {
    if text != "" && lib.parseDuration(text).Ok? then lib.parseDuration(text).value else 0
  }

  ghost predicate DurationAdmitted(lib: Lib, text: string) {
    text != "" ==> lib.parseDuration(text).Ok?
  }

  ghost predicate ProbeAdmitted(lib: Lib, spec: ProbeSpec) {
    && spec.exporterRef.name != ""
    && spec.moduleRef.name != ""
    && (spec.targets != [] || spec.ingress.Some?)
    && DurationAdmitted(lib, spec.interval)
    && DurationAdmitted(lib, spec.scrapeTimeout)
    && (spec.scrapeTimeout != "" && Duration(lib, spec.interval) > 0 ==>
          Duration(lib, spec.scrapeTimeout) <= Duration(lib, spec.interval))
  }

  method ValidateProbeSpec(lib: Lib, spec: ProbeSpec) returns (r: Result<(), ProbeError>)
    ensures r.Ok? <==> ProbeAdmitted(lib, spec)
    ensures r == Err(TimeoutAboveInterval) ==>
              Duration(lib, spec.scrapeTimeout) > Duration(lib, spec.interval) > 0
    ensures r.Err? && r.error.BadInterval? ==> !DurationAdmitted(lib, spec.interval)
    ensures r.Err? && r.error.BadScrapeTimeout? ==> DurationAdmitted(lib, spec.interval) && !DurationAdmitted(lib, spec.scrapeTimeout)
    ensures var named, targeted := spec.exporterRef.name != "" && spec.moduleRef.name != "", spec.targets != [] || spec.ingress.Some?;
            var interval, timeout := lib.parseDuration(spec.interval), lib.parseDuration(spec.scrapeTimeout);
            var wellTimed := (spec.interval == "" || interval.Ok?) && (spec.scrapeTimeout == "" || timeout.Ok?);
            var late := spec.interval != "" && spec.scrapeTimeout != "" && interval.Ok? && timeout.Ok?
                        && interval.value > 0 && timeout.value > interval.value;
            && (r.Ok? <==> named && targeted && wellTimed && !late)
            && (r == Err(NoExporterRef) <==> spec.exporterRef.name == "")
            && (r == Err(NoModuleRef) <==> spec.exporterRef.name != "" && spec.moduleRef.name == "")
            && (r == Err(NoTargets) <==> named && !targeted)
            && (r == Err(TimeoutAboveInterval) <==> named && targeted && late)
            && (r.Err? && r.error.BadInterval? ==> interval == Err(r.error.cause))
            && (r.Err? && r.error.BadScrapeTimeout? ==> timeout == Err(r.error.cause))
  {
    if spec.exporterRef.name == "" {
      return Err(NoExporterRef);
    }
    if spec.moduleRef.name == "" {
      return Err(NoModuleRef);
    }
    if |spec.targets| == 0 && spec.ingress.None? {
      return Err(NoTargets);
    }
    var intervalDuration := 0;
    if spec.interval != "" {
      var d := lib.parseDuration(spec.interval);
      if d.Err? {
        return Err(BadInterval(d.error));
      }
      intervalDuration := d.value;
    }
    if spec.scrapeTimeout != "" {
      var d := lib.parseDuration(spec.scrapeTimeout);
      if d.Err? {
        return Err(BadScrapeTimeout(d.error));
      }
      if intervalDuration > 0 && d.value > intervalDuration {
        return Err(TimeoutAboveInterval);
      }
    }
    return Ok(());
  }

  const DEFAULT_INTERVAL := "60s"
  const DEFAULT_TIMEOUT := "10s"
  const SECOND := 1_000_000_000

  /** The documentation promises scrapeTimeout <= interval for the generated object. With the controller's defaults
      for empty fields this holds exactly when: both are given with a positive interval; or the side that is given
      respects the default of the other; or, for an interval of zero or less, the timeout is no greater. */
  lemma TimeoutWithinIntervalExactly(lib: Lib, spec: ProbeSpec)
    requires ProbeAdmitted(lib, spec)
    requires lib.parseDuration(DEFAULT_INTERVAL) == Ok(60 * SECOND) && lib.parseDuration(DEFAULT_TIMEOUT) == Ok(10 * SECOND)
    ensures Duration(lib, OrElse(spec.scrapeTimeout, DEFAULT_TIMEOUT)) <= Duration(lib, OrElse(spec.interval, DEFAULT_INTERVAL))
            <==>
            if spec.interval == "" then Duration(lib, spec.scrapeTimeout) <= 60 * SECOND
            else if spec.scrapeTimeout == "" then Duration(lib, spec.interval) >= 10 * SECOND
            else Duration(lib, spec.interval) > 0 || Duration(lib, spec.scrapeTimeout) <= Duration(lib, spec.interval)
  {
  }

  /** A probe that sets only the target and the two references, and an interval of five seconds. */
  const SHORT_INTERVAL_PROBE :=
    ProbeSpec(NamespacedReference("main", ""), NamespacedReference("http", ""), ["https://example.com"], map[], None, "5s", "",
              None, map[], [])

  /** The webhook admits a probe whose generated object breaks the documented bound: with an interval of five seconds
      the default timeout of ten is too long. */
  lemma ShortIntervalBreaksBound(lib: Lib)
    requires lib.parseDuration("5s") == Ok(5 * SECOND) && lib.parseDuration(DEFAULT_TIMEOUT) == Ok(10 * SECOND)
    ensures var spec := SHORT_INTERVAL_PROBE;
            && ProbeAdmitted(lib, spec)
            && Duration(lib, OrElse(spec.scrapeTimeout, DEFAULT_TIMEOUT)) > Duration(lib, OrElse(spec.interval, DEFAULT_INTERVAL))
  {
  }
}
