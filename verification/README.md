# Verification of the blackbox exporter operator

A Dafny 4.11 model of the operator's three controllers, its module converter and its two webhooks, with proofs. Check it with `dafny verify dfyconfig.toml`.

## What is modelled

- **The control loop** (`ApiServer`, `Steps`). The API server keeps modules and exporters with generation and resourceVersion; a stale update is rejected, an update that changes nothing is not a write, only spec changes move the generation. Both controllers read from informer caches that may lag arbitrarily, and take keys from work queues. Every API call of a `Reconcile` is a step of its own, so users, informers and the other controller act between any two of them. Each controller has one worker, the framework's default. A failed call and a panic put the key back on the queue.
- **Whole Reconciles** (`Passes`, `Failures`, `Controllers`). `Controllers.Cluster` runs the two reconcilers statement by statement on fields updated in place, with every call to the API free to fail; each is proved equal to a composition of steps, and each composition is proved to be a run of the step system.
- **Selection, conversion, secrets, rendering** (`Selector`, `Converter`, `ConversionLaws`, `Secrets`, `Rendering`), the **status conditions** (`Conditions`, `Reports`), the **owned objects** (`Owned`, `OwnedLaws`), **names** (`Names`), the **webhooks** (`Admission`).
- **The probe controller** (`Probes`, `ProbeLaws`) with the **relabelings** it generates and their meaning in Prometheus (`Sorting`, `Relabel`), and the three controllers together (`EndToEnd`).

Library behaviour the operator only calls is a parameter, and except where a theorem names a hypothesis it holds for all of it: `time.ParseDuration`, regular expressions, URL parsing, `%q`, YAML rendering and the upstream defaults (`Converter.Lib`), the data of all Secrets (`Rendering.World`), list orders, clock readings, Deployment readiness, and the parts of Prometheus relabeling that are not fixed by its documented `replace` action (`Relabel.Engine`). The hypotheses are these. `NoPanics`: no stored module makes the converter panic. `ShowsNames`: the text of a configuration shows which names it binds. `ShowsEntries`: it shows the names and each entry by itself, so two configurations read alike exactly if their entries do; different conversions may read alike, as masked secrets and left-out empty sections do.

## Main results

1. *Convergence* (`Convergence`, `Outcome`). Between any two API calls of any covered run, every exporter is pending, or a module it selects is pending, or its ConfigMap is the rendering of exactly the current matching convertible modules and its workload is the current one. Caches may be stale and touches may be rejected by conflicts: a conflict implies that the exporter is already due for rendering. A touch that stores nothing is also shown to be harmless, because fresh resource versions make the annotation name a version that is already reflected.
2. *Rest* (`Writes`, `Liveness`, `Interleaving`, `Settling`, `Orders`).
   - In every run that users leave alone, the effective writes are bounded by a number computed from the state at its start, plus a fixed number for each change of readiness, failed List or event without a delivery. Informers may lag and skip, calls may fail, writes may be partial, modules may panic; Lists need only be answered so that references and texts come out the same. So from some point of an endless run on, nothing is written any more.
   - Without panics, with informers that catch up again and again and events that follow writes, such a run is endless only if calls fail over and over; where a covered run stops, every exporter is right.
   - With informers that deliver each write at once, the two workers come to rest after at most a computable number of API calls, however they interleave and whatever they held, also objects that users have edited since.
   - From every state of a covered run the operator alone can reach rest if and only if no stored module panics.
   - When each List may be answered in any order, and if the text shows entries (`ShowsEntries`), the number of Reconciles after a start is bounded if and only if no module panics, none is selected by two exporters, and no exporter renders two modules of one name in different words.
3. *What convergence does not cover* (`Staleness`, `Attention`). After a module is deleted, or relabelled, and no stored module panics, an exporter's ConfigMap is right at the next rest if and only if the exporter selects the module now, or did not render it before, or another module of that name converts to what reads the same. This needs `ShowsEntries`; for a module that alone bears its name `ShowsNames` is enough.
4. *Back references* (`BackReferences`). After any Reconciles, the references of a module that is not queued any more are right if and only if it was queued at the start or they were right at the start; so creating, editing or deleting an exporter keeps them right if and only if that exporter selects the module as it did before.
5. *Lost updates* (`LostUpdates`) and *truth of statuses* (`StatusTruth`) in every reachable state: ConfigValid and Ready say exactly whether a module is rendered, an exporter is Ready exactly if it counts a ready replica, and that number is the one observed last.
6. *Ingress labels* (`Relabel`): the generated relabel program is the promised overlay if and only if Prometheus accepts every name and finds nothing to expand in names and values.
7. *Conditions* (`Conditions`): the list refines a map, and `lastTransitionTime` is characterised over every call history.
8. *What is written, field by field* (`ConversionLaws`, `OwnedLaws`, `ProbeLaws`, `Secrets`, `Reports`). Each field of a converted module, of the four owned objects, of a generated Probe and of the statuses is tied to the field users wrote or to its literal default, independently of the functions the Reconciles are proved against; and each outcome of a conversion, a pass over owned objects and a probe Reconcile happens exactly under the stated conditions.

## Where code and documentation differ

- `docs/architecture.md:100` says the exporter controller watches modules. It does not (`internal/controller/blackboxexporter_controller.go:408-417`); deleting a module or relabelling it out of a selector wakes nobody (`Staleness.DeletionReachesWrongRest`); `Staleness.DeletionStaysRightExactly` and `Staleness.RelabellingStaysRightExactly` say when that matters.
- `docs/blackboxmodule.md:13` promises rendered names that are unique across namespaces. They are not when a namespace contains a dash (`Names.ModuleNameCollision`, `Names.ModuleNameNotInjective`).
- `docs/blackboxprobe.md:194` promises `scrapeTimeout <= interval`. The webhook skips the check when one of them is empty or the interval is not positive (`Admission.TimeoutWithinIntervalExactly`, `Admission.ShortIntervalBreaksBound`).
- The webhook accepts an empty module timeout and patterns that do not compile; the converter rejects the first and panics on the second (`Admission.AdmittedConvertsExactly`).
- Secret references in the TCP and gRPC sections of modules without an HTTP section are never read (`Secrets.OtherSectionsGetNoSecrets`), although the comment at `internal/converter/secrets.go:56` says they are.
- A disabled ServiceMonitor is deleted by name, whoever controls it (`Owned.ForeignObjectsSurvive`).
- `docs/blackboxmodule.md:252` says `referencedByExporters` lists the exporters that include the module. An exporter created after the module is never entered (`BackReferences.LateExporterIsMissing`); `BackReferences.ExporterChangeKeepsReferencesExactly` says when the list stays right.
- Two exporters that select one module can keep it busy forever, because the order of the references follows the order of the List (`Orders.RestsUnderAnyOrderExactly`).
- `docs/blackboxprobe.md:191` promises that `ingress.labels` are assigned. Dollars in values are expanded, and the relabeling engine, given a rule whose target is a name Prometheus does not accept, such as `app.kubernetes.io/name` under its classic naming scheme, assigns nothing; where the configuration is validated first, such a rule is refused there (`Relabel.IngressLabelsExactly`, `Relabel.InvalidNameIsDropped`).
- `matchLabels` with an empty value also selects modules that lack the label, unlike label selectors elsewhere in Kubernetes (`Selector.StrictMeaningExactly`).
- `docs/architecture.md:15` says that all workloads comply with the `restricted` Pod Security Standard. They do if and only if `enableICMP` is not set (`Owned.RestrictedExactly`), as line 94 of that file says.
- `bodySizeLimit` and `additionalAnnotations` are accepted and never used (`Converter.BodySizeLimitUnread`, `Owned.AnnotationsUnread`, `Owned.AnnotationsCarriedExactly`).

## Model

| member | source | states |
|---|---|---|
| Conditions.ConditionList.SetCondition | internal/controller/blackboxexporter_controller.go:457-472 | the in-place loop leaves the list that `Put` defines, for every list and clock |
| Conditions.PutRefinesMapUpdate | internal/controller/blackboxexporter_controller.go:457-472 | one call is a map update by type: uniqueness, order and all other entries are kept, and the list grows by one exactly if the type was absent |
| Conditions.PutIsIdentityWhenHolding | internal/controller/blackboxexporter_controller.go:460-467 | repeating a call leaves the list identical at any later time |
| Conditions.ConditionHistory | internal/controller/blackboxexporter_controller.go:457-472 | after any history of calls an entry carries the fields of the latest call of its type and the time of the call that opened its current status streak |
| Conditions.AbsentUntilCalled | internal/controller/blackboxexporter_controller.go:470-471 | a type is in the list exactly if some call named it, and types stay unique |
| Conditions.StreakExists | internal/controller/blackboxexporter_controller.go:461-465 | every type that was ever set has a call that opened its current streak |
| Names.ModuleNameCollision | internal/converter/module.go:25-28 | two modules with namespaces of different length share a rendered name if and only if a dash-led part moves from the longer namespace into the other name |
| Names.ModuleNameInjectiveAtLength | internal/converter/module.go:25-28 | names are unique within one namespace |
| Names.ModuleNameInjectiveWithoutDashes | internal/converter/module.go:25-28 | names are unique over namespaces without dashes |
| Names.ModuleNameNotInjective | internal/converter/module.go:25-28 | a concrete collision across namespaces |
| Names.ResourceNameInjective | internal/controller/blackboxexporter_controller.go:419-421 | exporters of different names own objects of different names |
| Selector.CollectModules | internal/controller/blackboxexporter_controller.go:147-196 | the selected modules are the order-preserving filter of the list by the selector: all namespaces, the named ones, or the exporter's own, and every label asked for; nothing that qualifies is left out |
| Selector.ModuleMatchesSelector | internal/controller/blackboxmodule_controller.go:116-147 | the second implementation decides the same: namespace taken, named, or the exporter's own, and every label asked for |
| Selector.SelectedMembers | internal/controller/blackboxexporter_controller.go:156-193 | a module is collected if and only if it is listed and matches |
| Selector.ReferencingMembers | internal/controller/blackboxmodule_controller.go:62-74 | a key is a back reference if and only if a listed exporter with that key matches |
| Selector.SelectedInOrder | internal/controller/blackboxexporter_controller.go:147-196 | the collected modules stand at increasing positions of the list, which are exactly the positions of matching modules |
| Selector.ReferencingInOrder | internal/controller/blackboxmodule_controller.go:62-74 | the same for back references |
| Selector.ReferencedExactly | internal/controller/blackboxmodule_controller.go:116-147 | a key is a back reference if and only if an exporter of that key takes all namespaces, or names the module's, or names none and shares it, and the module carries its labels |
| Selector.MovedModule | internal/controller/blackboxexporter_controller.go:159-176 | where all namespaces are selected, moving a module changes neither selection nor back references |
| Selector.ForwardAndBackReferencesAgree | internal/controller/blackboxmodule_controller.go:62-74 | on one snapshot the references of the two controllers are inverse relations |
| Selector.StrictMeaningExactly | internal/controller/blackboxexporter_controller.go:178-189 | the selector means what label selectors mean elsewhere, for all modules, if and only if it asks for no empty value |
| Converter.CompileRegexps | internal/converter/module.go:102-111 | the loop appends all patterns in order, or panics if and only if one does not compile |
| Converter.CompileHeaderMatches | internal/converter/module.go:112-129 | the same for header matches, which keep header and allowMissing with their pattern |
| Converter.CompileQueryResponses | internal/converter/module.go:179-188 | query responses keep their order; an empty expectation is not compiled |
| Converter.ConvertHTTPProbe | internal/converter/module.go:78-166 | every set field overrides the default, unset fields keep it, secrets fill only their fields, and the probe exists if and only if all four pattern lists compile |
| Converter.ConvertTCPProbe | internal/converter/module.go:168-191 | the TCP section over its default, or a panic on a pattern that does not compile |
| Converter.DNSSectionKeptExactly | internal/converter/module.go:193-228 | no two DNS sections are confused: they convert alike over every default if and only if they are equal |
| Converter.ICMPSectionKeptExactly | internal/converter/module.go:230-248 | two ICMP sections convert alike over every default if and only if they differ at most in numbers below one |
| Converter.GRPCSectionKeptExactly | internal/converter/module.go:250-263 | two gRPC sections convert alike over every default and under the same secrets if and only if they differ at most in secret references and unknown TLS version names |
| Converter.ConvertUnixProbe | internal/converter/module.go:265-280 | the Unix section, or a panic on a pattern that does not compile |
| Converter.ConvertWebsocketProbe | internal/converter/module.go:321-333 | each header becomes a one-element list, in whatever order the map is iterated; no headers keep the default |
| Converter.ConvertTLSConfig | internal/converter/module.go:282-312 | known version names map to their numbers, unknown ones to none, and secrets fill CA, certificate and key |
| Converter.ConvertModule | internal/converter/module.go:32-68 | conversion succeeds, is rejected with the partial module, or panics, exactly as the specification says |
| Converter.SecretsOnlyFillSecretFields | internal/converter/module.go:145-163 | conversions of one spec under any two sets of secrets are equal once the five secret values are blanked |
| Converter.DryRunPredictsRendering | internal/controller/blackboxmodule_controller.go:39-60 | success, error, prober and timeout of the dry run without secrets are those of the real conversion |
| Converter.SwitchOrderIrrelevant | internal/converter/module.go:41-65 | with one section set, any order of the switch converts the same, only that section is populated, and unix is reported as tcp |
| Converter.BodySizeLimitUnread | internal/converter/module.go:78-166 | a module converts the same whatever `bodySizeLimit` says |
| ConversionLaws.HTTPFields | internal/converter/module.go:78-100 | each plain field of a converted HTTP module is the spec's if set and the default's if not; failIfSSL and failIfNotSSL are the spec's; prober, timeout and the one populated section are fixed |
| ConversionLaws.HTTPPatternFields | internal/converter/module.go:102-129 | each of the four pattern lists is the default's followed by its own sources in order, header and allowMissing with them |
| ConversionLaws.HTTPClientFields | internal/converter/module.go:131-166 | protocol, TLS settings with their literal version numbers, proxy, basic auth and OAuth2, each from the spec, the secrets or the default |
| ConversionLaws.TCPFields | internal/converter/module.go:168-191 | the same for each field of a TCP section, query responses in order |
| ConversionLaws.DNSFields | internal/converter/module.go:193-228 | the same for each field of a DNS section, each validator from its own |
| ConversionLaws.ICMPFields | internal/converter/module.go:230-248 | the same for each field of an ICMP section, numbers below one meaning unset |
| ConversionLaws.GRPCFields | internal/converter/module.go:250-263 | the same for each field of a gRPC section |
| ConversionLaws.UnixFields | internal/converter/module.go:265-280 | query responses in order from an empty start, under the TCP prober |
| ConversionLaws.WebsocketFields | internal/converter/module.go:321-333 | every header with its one value, or the default if there are none |
| ConversionLaws.ConversionOutcome | internal/converter/module.go:32-68 | rejected if and only if the timeout does not parse or no section is set, with the message of the first; panics if and only if a pattern of the section that counts does not compile |
| Secrets.ResolveModuleSecrets | internal/converter/secrets.go:31-101 | the stepwise resolution yields all values or the first dangling reference |
| Secrets.ResolutionExactly | internal/converter/secrets.go:38-101 | with an HTTP section, resolution fails with the first reference whose Secret or key is missing, and otherwise each value is the entry at the referenced key of the referenced Secret |
| Secrets.HTTPSecretFlow | internal/converter/secrets.go:38-88 | resolution fails if and only if a reference dangles; otherwise each secret field of the rendered module is the data at its reference in the module's namespace |
| Secrets.FailedResolutionRendersBlank | internal/controller/blackboxexporter_controller.go:72-77 | a failed resolution renders the module as the dry run sees it, without any secret |
| Secrets.OtherSectionsGetNoSecrets | internal/converter/secrets.go:34-36 | without an HTTP section the result is empty for every secret store, and TCP and gRPC certificates are blank |
| Secrets.SecretsStayInNamespace | internal/converter/secrets.go:91-101 | secrets of other namespaces have no influence on a rendered module |
| Secrets.RenderedAsValidated | internal/controller/blackboxexporter_controller.go:68-83 | the exporter includes exactly the modules the dry run accepts, even when resolution fails |
| Admission.ValidateModuleSpec | api/v1alpha1/blackboxmodule_webhook.go:30-72 | acceptance if and only if exactly one section is set, the timeout is empty or parses, and DNS has a query name; each error says which part failed, with the exact count |
| Admission.AdmittedConvertsExactly | api/v1alpha1/blackboxmodule_webhook.go:61-65 | an admitted spec converts if and only if its timeout is not empty and its patterns compile |
| Admission.ValidateProbeSpec | api/v1alpha1/blackboxprobe_webhook.go:30-63 | acceptance if and only if both references are named, there is a target, durations parse, and a given timeout respects a positive interval |
| Admission.TimeoutWithinIntervalExactly | internal/controller/blackboxprobe_controller.go:96-103 | for an admitted probe, exactly when the generated timeout stays within the generated interval |
| Admission.ShortIntervalBreaksBound | api/v1alpha1/blackboxprobe_webhook.go:44-60 | a concrete probe that is admitted and generates a timeout above its interval |
| Rendering.BuildModuleMap | internal/controller/blackboxexporter_controller.go:68-83 | the loop computes the module map of the list, or panics |
| Rendering.RenderedCredentials | internal/controller/blackboxexporter_controller.go:71-83 | the rendered password is the entry the reference names in the module's own namespace |
| Rendering.CollectedFailsExactly | internal/controller/blackboxexporter_controller.go:70-83 | the loop panics if and only if some module's conversion does |
| Rendering.CollectedNames | internal/controller/blackboxexporter_controller.go:71-82 | the map has exactly the names of the convertible modules |
| Rendering.LastOfNameWins | internal/controller/blackboxexporter_controller.go:82 | each name is bound to the conversion of the last convertible module of that name in list order |
| Rendering.ModuleCountExactly | internal/controller/blackboxexporter_controller.go:106 | moduleCount is at most the number of convertible modules, with equality if and only if their names differ |
| Owned.OwnedObjects.ReconcileConfigMap | internal/controller/blackboxexporter_controller.go:198-214 | writes the desired ConfigMap unless another controller owns it, and changes nothing else |
| Owned.OwnedObjects.ReconcileDeployment | internal/controller/blackboxexporter_controller.go:216-328 | the same for the Deployment with its whole pod: image, arguments, port, resources, checks, mounts, scheduling and security contexts |
| Owned.OwnedObjects.ReconcileService | internal/controller/blackboxexporter_controller.go:330-357 | the same for the Service |
| Owned.OwnedObjects.ReconcileServiceMonitor | internal/controller/blackboxexporter_controller.go:359-405 | the same for an enabled ServiceMonitor; a disabled one is deleted by name |
| Owned.OwnedObjects.ReconcileOwned | internal/controller/blackboxexporter_controller.go:91-103 | the four writes in order, stopping at the first refusal |
| Owned.OtherExportersUntouched | internal/controller/blackboxexporter_controller.go:91-103 | no run of reconciles of other exporters changes an object owned by this one |
| Owned.CompletePassReachesDesired | internal/controller/blackboxexporter_controller.go:198-405 | a pass without refusal stores the desired objects and repeating it changes nothing |
| OwnedLaws.StoredConfigMap | internal/controller/blackboxexporter_controller.go:198-214 | unless something else controls it, the ConfigMap of that name holds the text under blackbox.yml with the common labels, keeps its annotations, and no other ConfigMap changes |
| OwnedLaws.StoredDeployment | internal/controller/blackboxexporter_controller.go:216-328 | if the pass gets that far, replicas, image, arguments, port, resources, checks, mounts, scheduling, security and labels of the stored Deployment are the spec's or their literal defaults |
| OwnedLaws.StoredService | internal/controller/blackboxexporter_controller.go:330-357 | the same for the Service: port, target port, selector and labels |
| OwnedLaws.StoredMonitor | internal/controller/blackboxexporter_controller.go:359-405 | the same for the ServiceMonitor: interval, labels over the common ones, endpoint; removed if not enabled; and the pass is complete exactly if nothing was refused |
| Owned.ForeignObjectsSurvive | internal/controller/blackboxexporter_controller.go:363-370 | objects of other controllers survive, except a ServiceMonitor, which is lost if and only if monitoring is disabled and the pass gets that far |
| Owned.SelectorsSatisfiedExactly | internal/controller/blackboxexporter_controller.go:423-441 | pods satisfy the Deployment and Service selectors, and the Service the ServiceMonitor selector, if and only if additionalLabels is absent on or agrees with the two selector keys |
| Owned.BuildContainer | internal/controller/blackboxexporter_controller.go:230-303 | the stepwise container is the desired one, with NET_RAW added exactly when ICMP is enabled |
| Owned.PortsAndMountFit | internal/controller/blackboxexporter_controller.go:216-405 | the monitor scrapes the Service's port, which leads to the container's port, which both checks ask; the ConfigMap is mounted where the container reads it |
| Owned.RestrictedExactly | internal/controller/blackboxexporter_controller.go:443-455 | the pods meet the restricted standard if and only if ICMP is not enabled |
| Owned.AnnotationsUnread | internal/controller/blackboxexporter_controller.go:198-405 | no owned object depends on `additionalAnnotations` |
| Owned.AnnotationsCarriedExactly | internal/controller/blackboxexporter_controller.go:198-405 | after a complete pass each object carries `additionalAnnotations` if and only if it did before |
| Reports.ModuleReportSettles | internal/controller/blackboxmodule_controller.go:52-92 | reporting the same observations again, at any later time, gives the same module status |
| Reports.ExporterReportSettles | internal/controller/blackboxexporter_controller.go:105-138 | the same for exporters |
| Reports.ModuleReportShows | internal/controller/blackboxmodule_controller.go:42-90 | after a dry run that converts both entries say True, else both say False with the error; prober, references and generation are the ones found |
| Reports.ExporterReportShows | internal/controller/blackboxexporter_controller.go:105-138 | Ready is True if and only if the number of ready replicas is positive; that number is the observed one, or the last one if the Deployment was not read |
| ApiServer.AcceptedIsCurrent | internal/controller/blackboxexporter_controller.go:140-142 | an update that is accepted was made from the stored object itself, because a resource version names one content |
| LostUpdates.StepSound | internal/controller/blackboxexporter_controller.go:50-145 | every step, covered or not, keeps versions unique, observed generations within bounds, and each ConfigMap the rendering of its recorded snapshot |
| LostUpdates.ObservedNeverAhead | internal/controller/blackboxexporter_controller.go:107-138 | in every reachable state observedGeneration, of status and of every condition, is at most the generation |
| LostUpdates.AcceptedModuleStatusIsCurrent | internal/controller/blackboxmodule_controller.go:92-96 | if a module status write is accepted, the copy read was the stored module, and only status and version change |
| LostUpdates.AcceptedExporterStatusIsCurrent | internal/controller/blackboxexporter_controller.go:105-142 | an accepted exporter status describes a ConfigMap and workload that were written for the stored spec |
| LostUpdates.TouchOnlyAnnotates | internal/controller/blackboxmodule_controller.go:98-111 | waking an exporter changes no spec, status, label, generation or other annotation, and no other object |
| Convergence.StepKeeps | internal/controller/blackboxmodule_controller.go:28-114 | every covered step keeps the convergence invariant |
| Convergence.TouchRejectedKeeps | internal/controller/blackboxmodule_controller.go:107-109 | a touch rejected by a conflict, which is only logged, loses nothing |
| Convergence.TouchAcceptedKeeps | internal/controller/blackboxmodule_controller.go:102-107 | an accepted touch, effective or not, discharges the module's duty to the exporter |
| Convergence.GatheredKeeps | internal/controller/blackboxexporter_controller.go:61-94 | rendering from stale caches leaves out nothing that is not still pending |
| Convergence.ReachableServed | internal/controller/blackboxexporter_controller.go:50-145 | the convergence invariant holds in every state a covered run reaches |
| Outcome.PendingOrRight | internal/controller/blackboxexporter_controller.go:61-103 | in every such state, an exporter for which nothing is pending has the ConfigMap of exactly the current matching convertible modules and the workload of its current spec |
| Outcome.SettledIsRight | internal/controller/blackboxexporter_controller.go:61-103 | at rest every exporter is right |
| Outcome.RenderedNames | internal/controller/blackboxexporter_controller.go:68-83 | a name is rendered if and only if a stored, selected, convertible module bears it |
| Passes.ModulePassRuns | internal/controller/blackboxmodule_controller.go:28-114 | a whole module Reconcile is a covered run of steps |
| Passes.ExporterPassRuns | internal/controller/blackboxexporter_controller.go:50-145 | a whole exporter Reconcile is a covered run of steps |
| Failures.ModulePassUnderRuns | internal/controller/blackboxmodule_controller.go:28-114 | whichever calls fail, a module Reconcile is a run of steps, so what is proved of all runs holds of it |
| Failures.ExporterPassUnderRuns | internal/controller/blackboxexporter_controller.go:50-145 | the same for an exporter Reconcile |
| Failures.ModulePassWell | internal/controller/blackboxmodule_controller.go:28-114 | with no call failing it is the module pass |
| Failures.ExporterPassWell | internal/controller/blackboxexporter_controller.go:50-145 | with no call failing it is the exporter pass |
| Controllers.Cluster.ReconcileModule | internal/controller/blackboxmodule_controller.go:28-114 | the statements of Reconcile leave the cluster in the state the steps define, whichever calls fail, and ask for a retry exactly on a failed Get, a panic, or a status that was rejected or failed |
| Controllers.Cluster.ObserveModule | internal/controller/blackboxmodule_controller.go:42-90 | the statements build the reported status; a failed List leaves no references |
| Controllers.Cluster.TouchReferences | internal/controller/blackboxmodule_controller.go:98-111 | the loop touches each reference in turn, skipping those whose Get or Update fails |
| Controllers.Cluster.ReconcileExporter | internal/controller/blackboxexporter_controller.go:50-145 | the statements of Reconcile leave the cluster in the state the steps define, whichever of its calls fails: reading, listing, rendering, each of the four writes, the Get of the Deployment, the status |
| Controllers.Cluster.WriteParts | internal/controller/blackboxexporter_controller.go:94-103 | Deployment, Service and ServiceMonitor are written in order, and those before the first failure stay written |
| Controllers.Cluster.ProcessModule | internal/controller/blackboxmodule_controller.go:150-155 | one turn of the module worker is the module Reconcile under those answers |
| Controllers.Cluster.ProcessExporter | internal/controller/blackboxexporter_controller.go:408-417 | one turn of the exporter worker is the exporter Reconcile under those answers |
| Termination.ModulePassDecreases | internal/controller/blackboxmodule_controller.go:28-114 | without panics a module pass lowers the remaining work |
| Termination.ExporterPassDecreases | internal/controller/blackboxexporter_controller.go:50-145 | without panics an exporter pass lowers the remaining work and never touches a module |
| Termination.PassesBounded | internal/controller/blackboxexporter_controller.go:408-417 | no sequence of Reconciles of queued keys is longer than the work at its start |
| Writes.StatusSettles | internal/controller/blackboxmodule_controller.go:52-92 | a changed module status that fits the caches settles its module; any other unsettles that one at most |
| Writes.ReportSettles | internal/controller/blackboxexporter_controller.go:105-138 | a written exporter status is final for what was observed, whether or not the Deployment could be read |
| Writes.StepCharged | internal/controller/blackboxexporter_controller.go:50-145 | every step but those of users pays for what it writes out of the budget, and raises it only for a disturbance |
| Writes.WritesBounded | internal/controller/blackboxmodule_controller.go:28-114 | in every run that users leave alone, effective writes are at most the budget at its start plus a fixed number per disturbance, with lagging informers, failing calls and panics |
| Writes.EventuallyQuiet | internal/controller/blackboxmodule_controller.go:98-111 | in every endless undisturbed run there is a point after which nothing is written, although writes of one controller wake the other and itself |
| Liveness.CallsRunOut | internal/controller/blackboxexporter_controller.go:50-145 | whenever the caches show what is stored, sooner or later something is written, a call fails or an event comes |
| Liveness.BusyOnlyByFailures | internal/controller/blackboxmodule_controller.go:150-155 | an endless run without panics, whose informers catch up again and again and whose events cease, has calls failing over and over |
| Liveness.StoppedIsRight | internal/controller/blackboxexporter_controller.go:61-103 | where a covered run stops, with no call and no delivery possible, every ConfigMap and workload is right |
| Interleaving.ModuleTurnDecreases | internal/controller/blackboxmodule_controller.go:28-114 | every single API call of the module worker lowers what remains to be done, whatever both workers hold |
| Interleaving.ExporterTurnDecreases | internal/controller/blackboxexporter_controller.go:50-145 | every single API call of the exporter worker does, rejected writes included |
| Interleaving.ReadinessTurnCosts | internal/controller/blackboxexporter_controller.go:111-116 | a change of readiness adds a fixed number of calls at most |
| Interleaving.TurnsBounded | internal/controller/blackboxexporter_controller.go:408-417 | no interleaving of the calls of the two workers is longer than what remains at its start plus what changes of readiness add |
| Interleaving.InterleavedOperatorSettles | internal/controller/blackboxmodule_controller.go:150-155 | from any state of a covered run without panics whose caches show what is stored, whatever the workers hold, every interleaving stays within that bound, and where neither worker can go on every ConfigMap and workload is right |
| Rest.RestReached | internal/controller/blackboxmodule_controller.go:28-114 | without panics some sequence of Reconciles brings the operator to rest, and none changes what users wrote |
| Rest.UnwokenStays | internal/controller/blackboxexporter_controller.go:408-417 | an exporter that is not queued and selects no queued module keeps its ConfigMap through every sequence of Reconciles |
| Rest.FreshClusterRests | internal/controller/blackboxexporter_controller.go:50-145 | from an empty cluster any module and exporter can be created, and a covered run leads to rest with both in place |
| Settling.OperatorCanRest | internal/controller/blackboxmodule_controller.go:28-114 | from every state of a covered run without panics, the operator alone can come to rest, with every ConfigMap right |
| Settling.RestPossibleExactly | internal/converter/module.go:102-129 | from every state of a covered run, between any two API calls, the operator alone can come to rest if and only if no stored module panics |
| Settling.PassesReachRestExactly | internal/converter/module.go:102-129 | once the informers have caught up, some sequence of Reconciles comes to rest if and only if no stored module panics |
| Orders.OrderIrrelevantExactly | internal/controller/blackboxexporter_controller.go:68-83 | the module map does not depend on the order of the List if and only if selected modules of one name convert alike |
| Orders.TextFixedExactly | internal/controller/blackboxexporter_controller.go:68-89 | if the text shows entries, it does not depend on the order of the List if and only if selected modules of one name read alike |
| Orders.RestsUnderAnyOrderExactly | internal/controller/blackboxmodule_controller.go:62-92 | if the text shows entries, the number of Reconciles after a start is bounded, however the Lists are ordered, if and only if no module panics, none is selected by two exporters, and no exporter renders two modules of one name in different words |
| Orders.RestUnderAnyOrderIsRight | internal/controller/blackboxexporter_controller.go:61-103 | whatever the orders were, at rest every ConfigMap is right |
| Attention.AttendedEndsRight | internal/controller/blackboxmodule_controller.go:98-111 | an exporter that is queued, or selects a queued module its annotation does not name yet, is right whenever the operator comes to rest |
| Staleness.RightWithoutExactly | internal/controller/blackboxexporter_controller.go:68-83 | if the text shows entries, a right ConfigMap stays right without a module if and only if the module is not rendered or another of its name converts to what reads like the bound one |
| Staleness.DeletionChangesNoConfig | internal/controller/blackboxmodule_controller.go:31-37 | after a module deletion the operator settles with every ConfigMap as before |
| Staleness.DeletionStaysRightExactly | internal/controller/blackboxmodule_controller.go:31-37 | if the text shows entries, an exporter is right after the deletion if and only if it did not render the module or another one that reads alike stands in |
| Staleness.LoneDeletionStaysRightExactly | internal/controller/blackboxmodule_controller.go:31-37 | for a module that alone bears its name: if and only if it was not rendered, already if the text shows names |
| Staleness.DeletionReachesWrongRest | internal/controller/blackboxmodule_controller.go:31-37 | for every module and exporter that match, some run from an empty cluster deletes the module and rests with its entry still configured |
| Staleness.RelabellingComesToRest | internal/controller/blackboxmodule_controller.go:62-111 | after a user changes a module's labels the operator comes to rest again |
| Staleness.RelabellingStaysRightExactly | internal/controller/blackboxmodule_controller.go:62-111 | if the text shows entries, at every such rest an exporter is right if and only if it selects the module now, or did not render it before, or another one that reads alike stands in |
| Staleness.LoneRelabellingStaysRightExactly | internal/controller/blackboxmodule_controller.go:62-111 | the same for a module that alone bears its name, already if the text shows names |
| BackReferences.PassRecordsReferences | internal/controller/blackboxmodule_controller.go:62-92 | a Reconcile of a module makes its references name exactly the exporters that select it |
| BackReferences.ReferencesRightExactly | internal/controller/blackboxmodule_controller.go:62-92 | after any Reconciles, the references of a module that is not queued are right if and only if it was queued at the start or they were right then |
| BackReferences.ExporterChangeKeepsReferencesExactly | internal/controller/blackboxexporter_controller.go:408-417 | after a user created, edited or deleted an exporter they stay right if and only if the module was queued anyway or that exporter selects it as before |
| BackReferences.LateExporterIsMissing | internal/controller/blackboxexporter_controller.go:408-417 | for every module and exporter that match, some covered run from an empty cluster rests with the exporter missing from the references |
| Wakeups.PassTouchesExactlyMatching | internal/controller/blackboxmodule_controller.go:62-111 | a module pass marks exactly the exporters that select the module; all others keep object, queue state and ConfigMap |
| StatusTruth.StatusesTellTheTruth | internal/controller/blackboxmodule_controller.go:52-92 | in every state a covered run reaches, a module not pending reports its current generation, ConfigValid and Ready exactly if it is rendered, the error otherwise, and the rendered prober; an exporter not pending reports its current generation and module count, and Ready exactly if it counts a ready replica |
| StatusTruth.WrittenStatusIsTruthful | internal/controller/blackboxexporter_controller.go:105-142 | in every reachable state, an accepted exporter status carries the observed readiness, or the previous one if the Get failed, and is truthful about it |
| EndToEnd.ReportedValidExactly | internal/controller/blackboxmodule_controller.go:42-60 | the reported ConfigValid and Ready are True exactly for the modules the exporter renders, whatever the Secrets hold |
| EndToEnd.ProbeReachesItsModule | internal/controller/blackboxprobe_controller.go:87-126 | when nothing is pending, the generated module name is bound in the exporter's configuration to exactly the referenced module's conversion, and the URL is the name, namespace and port of the exporter's Service |
| EndToEnd.WorkloadReadsSpec | internal/controller/blackboxexporter_controller.go:91-103 | in every state a covered run reaches, the Deployment, Service and ServiceMonitor of an exporter with nothing pending read as its current spec says |
| Sorting.SortedKeysIndependent | internal/controller/blackboxprobe_controller.go:242 | the sorted keys of a map do not depend on its iteration order |
| Sorting.LessExactly | internal/controller/blackboxprobe_controller.go:242 | the order of keys is the lexicographic one |
| Base.DecimalDenotes | internal/controller/blackboxprobe_controller.go:93-94 | the decimal text of a port is its digits without leading zeros |
| Relabel.IngressLabelsExactly | internal/controller/blackboxprobe_controller.go:240-249 | the generated relabelings assign `ingress.labels` on every label set if and only if every name is valid and no name or value holds anything to expand |
| Relabel.InvalidNameIsDropped | internal/controller/blackboxprobe_controller.go:240-249 | the relabeling engine, given the rule for a name Prometheus does not accept, assigns nothing |
| Relabel.UserRulesSeeOverlay | internal/controller/blackboxprobe_controller.go:240-252 | the full list equals the user's relabelings applied to the overlaid labels |
| Relabel.ExpandIdentity | internal/controller/blackboxprobe_controller.go:244-248 | expansion with nothing captured leaves a value alone if and only if it is plain |
| Relabel.ConvertRelabelConfig | internal/controller/blackboxprobe_controller.go:258-284 | the field-by-field copy yields the converted rule |
| ProbeLaws.RuleLaw | internal/controller/blackboxprobe_controller.go:258-284 | every field of a relabeling, the action included, is kept, an empty separator or replacement stays unset, and a modulus changes only from 2^63 on |
| Relabel.ConvertedRuleMeans | internal/controller/blackboxprobe_controller.go:258-284 | an empty field means its documented default; an empty replacement copies the first group |
| Relabel.ModulusSurvivesExactly | internal/controller/blackboxprobe_controller.go:279-281 | a modulus survives the signed conversion if and only if it is below 2^63 |
| Probes.BuildProbeMetadata | internal/controller/blackboxprobe_controller.go:190-206 | labels are the three layers, annotations those of probeMetadata |
| Probes.ObjectLabelLayers | internal/controller/blackboxprobe_controller.go:186-206 | per key: reserved labels win, then probeMetadata, then additionalLabels, and nothing else appears |
| Probes.BuildProbeTargets | internal/controller/blackboxprobe_controller.go:209-256 | static and ingress targets, with label relabelings in sorted key order before the user's |
| Probes.BuildProbe | internal/controller/blackboxprobe_controller.go:87-132 | the object built stepwise is the generated Probe |
| ProbeLaws.ObjectLaw | internal/controller/blackboxprobe_controller.go:87-132 | the generated object field by field: address, module name, durations or their literal defaults, labels per key, targets, relabelings |
| ProbeLaws.IngressLaw | internal/controller/blackboxprobe_controller.go:227-253 | selector and namespaces are copied, then one constant assignment per label in the order of names, then the user's relabelings |
| ProbeLaws.StaticLaw | internal/controller/blackboxprobe_controller.go:209-225 | the targets are the spec's; per key targetLabels win, then additionalLabels, and nothing else appears |
| Probes.GeneratedIsDeterministic | internal/controller/blackboxprobe_controller.go:242-249 | the generated object does not depend on map iteration order |
| Probes.LabelsAreSeparate | internal/controller/blackboxprobe_controller.go:190-256 | probeMetadata reaches no target; targets, targetLabels and ingress settings reach nothing but targets |
| Probes.IngressSeriesLabels | internal/controller/blackboxprobe_controller.go:240-253 | series of a discovered ingress carry `ingress.labels` before the user's relabelings run |
| Probes.ProbeController.Reconcile | internal/controller/blackboxprobe_controller.go:36-174 | the statements of Reconcile have exactly the specified effect and outcome, whichever call fails: the three Gets, setting the owner, the lookup, which may be stale, Create or Update, the status |
| ProbeLaws.ReconcileStores | internal/controller/blackboxprobe_controller.go:47-154 | references without a namespace mean the probe's own; each outcome happens exactly under its condition, and only a Reconcile that goes through stores, namely the object for that exporter and module |
| ProbeLaws.ReconcileReports | internal/controller/blackboxprobe_controller.go:51-171 | the status written says Ready with count and name after storing, the missing reference if one did not resolve, and nothing is written otherwise |
| Probes.ReadyOnlyWhenGenerated | internal/controller/blackboxprobe_controller.go:47-85 | Ready=True is written only when references resolved and the right object is stored; a missing reference leaves generated objects alone and is reported; generated objects change only to the right object of this probe, and only in a Reconcile that goes through |
| Probes.SecondReconcileChangesNothing | internal/controller/blackboxprobe_controller.go:138-171 | a second Reconcile, at any time and in any map order, changes nothing |

## Left out

- Covered runs exclude module deletion and relabelling (the code wakes nobody for them, see above), a List call that fails (the module controller then reports no references and touches nobody), a touch that fails for another reason than a conflict (only logged), and users who write the touch annotation with values of their own. All of these are steps of the system and `LostUpdates` holds for them.
- Edits of Secrets: fixed during a run. The code watches no Secret, so an edit is picked up only by the next rendering.
- Convergence.ReachableServed: a covered run may be unfair; that pending work gets done is the subject of `Writes`, `Liveness`, `Interleaving`, `Orders` and `Settling`.
- Writes.WritesBounded: an informer does not show again an object whose deletion it has shown, nor an object it never showed and that is gone.
- Liveness.BusyOnlyByFailures: that events of owned objects follow writes to them is a hypothesis (`EventsCease`); the step system lets such an event come at any time.
- The step system keeps the owned objects of an exporter as one ConfigMap text and one workload record; refusals by foreign controllers appear there as failing calls, and in `Owned` in full.
- Garbage collection of owned objects after an exporter is deleted, and object UIDs.
- Probes: the watch of generated Probe objects and the queue of the probe controller; `Reconcile` is modelled as one call on caches and answers of the API given as arguments.
- Conversions of lengths to int32 (moduleCount, targetCount) are taken as exact.
- Nil and empty maps or lists are one value where the code treats them alike.
- The exporter webhook, deep copies, the manager, flags, Helm charts, CRD manifests and RBAC.
