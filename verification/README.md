# Verified model of the assessment backend

This project models the parts of the security-assessment backend whose correctness does not show
in any single function: the scan lifecycle with its concurrent workers, the agent loop and the
gates in front of its tools, discovery and DNS enrichment, live authorizations, and the asset
forest. Everything is written in Dafny 4.11; `dafny verify dfyconfig.toml` checks it.

## What is modelled

- **Scan lifecycle** (`ScanState`, `ScanLifecycle`, `LifecycleSafety`, `LifecycleSteps`, `ScanManager`). Rows, the
  registry, cancel events and worker program counters form one step system; a step is one database
  transaction, one locked registry operation, or one local move of a worker. Committing a
  cancellation and signalling the worker are two steps. Restarts may leave any set of threads
  alive. The class `ScanManager` is the code; each of its methods is one step of the system.
- **Agent loop** (`AgentRuntime`, `RuntimeTrace`, `RuntimeSteps`, `EventSink`). Planner, validator, tools and
  cancellation are arbitrary functions of the state they see, which no two iterations share.
- **Gates and planner** (`Targets`, `TargetTexts`, `SafetyGates`, `GateParameters`, `PipelinePlanner`,
  `PlannerTargets`, `PipelineSchedule`, `ScanPipeline`). Targets are normalized as `urllib` and the policy do it, character by
  character; the narrow gate is the original one plus a text search in the rejection reason.
- **Discovery and DNS** (`Discovery`, `DiscoveryAccounting`, `DiscoveryFacts`, `DiscoveryStore`,
  `DnsEnrichment`, `DnsConfluence`, `DnsColumns`, `Smallest`). The n-th poll of the cancel event may be the first to see it set, for any n.
- **Live authorization** (`Origins`, `OriginTexts`, `Timestamps`, `ExecutionProfiles`, `LiveAuthorization`,
  `LiveVerification`, `LiveIssue`). Stored documents are arbitrary JSON; SHA-256 is an arbitrary
  function, and soundness asks only that it tells the compared renderings apart.
- **Assets, capping, replay** (`AssetForest`, `AssetFacts`, `AssetTree`, `AssetCycles`, `AssetView`,
  `Capping`, `EventCursor`), on top of
  `Text` (strings, sorting, deduplication) and `Hostnames` (names and label-aware descent).

Most methods are proved against specification functions. The modules `LifecycleSteps`,
`RuntimeSteps`, `GateParameters`, `TargetTexts`, `OriginTexts`, `PlannerTargets`, `DiscoveryFacts`,
`DnsColumns` and `AssetFacts`, and the contracts of `FinishScan`, `CreateAuthorization` and `Run`, then say what those
functions mean without them: on rows, raw parameters, observations, answers and columns.

## Where the code and its documentation disagree

Four properties that comments promise do not hold for every input. Each is stated with the exact
condition under which it holds, and with an input that breaks it.

- A host name is *normalized* once, but normalizing again can change it: the pattern's `$` accepts
  a newline before the root dot (`"a\n."`). See `NormalizeIdempotentIff`, `NormalizeNotIdempotent`.
  CNAME answers of this kind are the only DNS records whose order matters: `CommutesIff`, with
  `NewlineRecordDoesNotCommute` as the record. Promoted hosts of this kind are the only ones the
  planner would alter (`SanitizedUnchangedIff`), but the shipped Subfinder refuses whitespace and
  never emits one: `ShippedPromotedPass`.
- Pipeline runs are all-or-nothing, but a URL entry whose host starts with a blank (`http:// a`)
  yields a host that nmap results never cover. The run then spends its budget on nmap and never
  probes. See `ScheduleIff` and `HostFormIff`.
- A tool-run row whose tool name exceeds the column is never found again and stays `running`:
  `NoRowLeftRunningIff`, with `LongNameStaysRunning` as the input. Runs of the registered tools
  never leave such a row: `ShippedRowsSettle`.
- A worker is meant to settle its scan before it leaves. An exception after an accepted cancellation
  leaves the scan `cancelling`, and an exception inside the settling transaction itself leaves it as
  it was, with no worker until the next startup: `UnsettledIff`, `ExceptionStrandsIffCancelling`,
  with `StrandedScanExists` and `LostFinishExists` as the runs. In the second way even a scan that
  no worker has claimed yet can be left `queued`, out of the registry: `LostPickupExists`.

## Assumptions

- A database transaction commits as a whole or not at all; writes of the event sink succeed.
- Event ids become visible in increasing order, and time does not go backwards.
- Text is ASCII where case or whitespace matters; network locations carry no IPv6 brackets.
- The tools are the five real ones, whose parameter models forbid extra keys.
- An nmap result names no target, or the validated target of its call.
- `ipaddress` reads back the text that it prints for an IPv6 address (`Canonical6`), and takes no
  empty text; a DNSX result has at most 500 records (`SmallAnswers`).

## Model

| member | source | states |
|---|---|---|
| ScanState.LoadedScan.ApplyTransition | backend/services/scan_state.py:52-78 | raises exactly on transitions outside the table, leaving the row alone; otherwise the whole new row |
| ScanState.MovedFits | backend/services/scan_state.py:60-78 | a legal move keeps timestamps and error fitting the status |
| ScanState.TransitionsProgress | backend/services/scan_state.py:21-30 | every legal transition increases a rank, so no status is revisited |
| ScanState.TerminalIffStuck | backend/services/scan_state.py:21-36 | the terminal statuses are exactly those without a way out |
| ScanState.TableMeans | backend/services/scan_state.py:21-30 | the ten transitions there are |
| ScanLifecycle.DoKeepsInv | backend/services/scan_manager.py:105-134 | every step of every actor keeps the invariant on rows, workers, signals and log |
| ScanLifecycle.RunKeepsInv | backend/services/scan_manager.py:207-391 | the invariant holds after every interleaving |
| ScanLifecycle.ClaimKeeps | backend/services/scan_manager.py:221-266 | claiming, refusing a live scan, or leaving keeps the invariant |
| ScanLifecycle.FinishKeeps | backend/services/scan_manager.py:513-568 | the terminal mapping keeps the invariant, so its transition is legal |
| ScanLifecycle.SignalKeeps | backend/services/scan_manager.py:123-134 | a cancel event is only ever set for a scan whose cancellation was accepted |
| ScanLifecycle.RecoverKeeps | backend/services/scan_manager.py:140-192 | startup recovery in any order keeps the invariant |
| LifecycleSafety.CancelEventMeansAccepted | backend/services/scan_manager.py:123-134 | over all runs, a set cancel event implies the row is cancelling or cancelled |
| LifecycleSafety.TerminalMappingIsLegal | backend/services/scan_manager.py:513-533 | the terminal mapping always finds a legal transition; its running-to-cancelled branch is unreachable |
| LifecycleSafety.StepMovesLegally | backend/services/scan_state.py:52-78 | whatever step is taken, a row changes by at most one legal transition |
| LifecycleSafety.TerminalAbsorbs | backend/services/scan_state.py:21-36 | a terminal row keeps status, timestamps and error for the rest of every run |
| LifecycleSafety.CancelWins | backend/services/scan_manager.py:523-526 | once a cancellation is accepted, no outcome, exception or restart leaves the scan anything but cancelling or cancelled |
| LifecycleSafety.InitializedAtMostOnce | backend/services/scan_manager.py:217-259 | a scan enters initializing at most once despite duplicate submits and restarts |
| LifecycleSafety.RowsAreConsistent | backend/db/models.py:161-170 | at most one active scan per project; timestamps and error fit; live scans never start |
| LifecycleSafety.LogIsConsistent | backend/services/scan_manager.py:513-568 | at most one start and one terminal event per scan, agreeing with the final status |
| LifecycleSafety.WorkerLeavesScanSettled | backend/services/scan_manager.py:207-215 | a worker that claimed its scan leaves it terminal, unless an exception met an accepted cancel or the settling transaction itself raised; one that did not claim it leaves it queued only in the latter case, or when it was registered before the scan existed |
| LifecycleSafety.UnsettledIff | backend/services/scan_manager.py:513-615 | any worker's last step, claimed or not, leaves an unsettled row exactly when it was rolled back, or marked a cancelling scan failed |
| LifecycleSafety.LostFinishExists | backend/services/scan_manager.py:567-568 | a run that ends with a running scan and no worker |
| LifecycleSafety.LostPickupExists | backend/services/scan_manager.py:207-215 | a run that ends with a queued scan, no worker and no registry entry |
| LifecycleSafety.ExceptionStrandsIffCancelling | backend/services/scan_manager.py:597-615 | marking failed misses exactly the scans whose cancellation was accepted |
| LifecycleSafety.StrandedScanExists | backend/services/scan_manager.py:207-215 | a run that ends with a cancelling scan and no worker |
| LifecycleSafety.RecoverSettles | backend/services/scan_manager.py:140-192 | recovery fails or cancels interrupted scans and leaves the others |
| LifecycleSafety.RecoverTwice | backend/services/scan_manager.py:140-192 | a second recovery changes no row and records nothing |
| LifecycleSafety.CrashRecovery | backend/services/scan_manager.py:140-192 | after a crash anywhere, recovery leaves terminal rows and registered queued ones |
| LifecycleSteps.FinishMeans | backend/services/scan_manager.py:513-568 | the terminal mapping for every status and outcome: the whole new row, exactly its two events, and no other row |
| LifecycleSteps.FinishSettles | backend/services/scan_manager.py:513-533 | over all runs an active row becomes cancelled iff it was cancelling, else completed iff the run finished, and failed with the very error iff it failed |
| LifecycleSteps.OutcomesHaveSources | backend/services/scan_manager.py:513-615 | over all runs and restarts, a completed scan had a worker whose agent run finished, and the error of a failed one is that of its run, a refusal, an internal error or a restart |
| LifecycleSteps.CancelSkipsTheLoop | backend/services/scan_manager.py:314-322 | a cancellation seen at the end of discovery leads to a cancelled scan without an agent run |
| LifecycleSteps.ClaimMeans | backend/services/scan_manager.py:221-266 | what the first transaction writes: a start, a refusal with its text, or nothing |
| LifecycleSteps.MarkFailedMeans | backend/services/scan_manager.py:597-615 | what the exception handler writes, and on which statuses |
| LifecycleSteps.CancelMeans | backend/services/scan_service.py:178-201 | what a cancellation writes in each status |
| LifecycleSteps.RecoverMeans | backend/services/scan_manager.py:140-192 | each row after recovery, by its status before |
| LifecycleSteps.ShutdownMeans | backend/services/scan_manager.py:193-204 | after a shutdown nothing is submitted, and rows and log stay |
| ScanManagement.ScanManager.CreateScan | backend/services/scan_service.py:103-141 | one step: a queued row, or refusal while the project has an active scan |
| ScanManagement.ScanManager.CancelScan | backend/services/scan_service.py:178-201 | the two steps of a cancellation, and when it is accepted |
| ScanManagement.ScanManager.Submit | backend/services/scan_manager.py:105-121 | registers at most one worker per scan and hands it to the pool |
| ScanManagement.ScanManager.RequestCancel | backend/services/scan_manager.py:123-134 | sets the event of the registered worker, if any |
| ScanManagement.ScanManager.ClaimScan | backend/services/scan_manager.py:221-266 | the first worker transaction, including the refusal of live scans |
| ScanManagement.ScanManager.StartScan | backend/services/scan_manager.py:274-287 | the second worker transaction |
| ScanManagement.ScanManager.FinishScan | backend/services/scan_manager.py:513-568 | cancelling rows become cancelled, running ones completed or failed with the run's error, with exactly the two events; nothing is written when the transaction faults or the row is terminal |
| ScanManagement.ScanManager.MarkScanFailed | backend/services/scan_manager.py:597-615 | the exception handler, with the same treatment of a fault |
| ScanManagement.ScanManager.LeaveRegistry | backend/services/scan_manager.py:207-215 | a worker drops the entry of its own registry when it leaves |
| ScanManagement.ScanManager.RecoverScans | backend/services/scan_manager.py:140-192 | recovery followed by submission, and the three counters it returns |
| AgentRuntime.Runtime.Execute | agent_core/runtime/agent.py:89-180 | terminates; final state and trace are those of the loop function |
| AgentRuntime.Runtime.OneStep | agent_core/runtime/agent.py:108-178 | one iteration: decide, validate, execute, record, with its events |
| AgentRuntime.Runtime.ExecuteTool | agent_core/runtime/agent.py:185-218 | the observation and the two events of an execution, raising tools included |
| RuntimeTrace.TraceGrammar | agent_core/runtime/agent.py:89-180 | for any planner, validator and tools the events match the grammar and end in exactly one final event matching the status |
| RuntimeTrace.LoopEnds | agent_core/runtime/agent.py:99-107 | a run stops within max_steps and records one step per completed iteration |
| RuntimeTrace.FindingsAreObserved | agent_core/runtime/agent.py:160-178 | the findings are those of the observations, in order |
| RuntimeTrace.CancelledMeansObserved | agent_core/runtime/agent.py:99-107 | a run is cancelled exactly when one of its own polls saw the event set; it is the last poll, and the final state is the polled one |
| RuntimeSteps.ExitMeans | agent_core/runtime/agent.py:99-107 | the ways the loop ends before a step, cancellation before the budget |
| RuntimeSteps.PlannerRaises | agent_core/runtime/agent.py:115-119 | a raising planner fails the run; nothing is proposed, recorded or executed |
| RuntimeSteps.RejectionMeans | agent_core/runtime/agent.py:126-137 | a rejected decision becomes an observation with its reason, and no tool is run |
| RuntimeSteps.FinishMeans | agent_core/runtime/agent.py:138-178 | an accepted Finish is recorded and ends the run |
| RuntimeSteps.CallRaises | agent_core/runtime/agent.py:185-211 | a raising tool is observed as failed without data, and the run goes on |
| RuntimeSteps.CallReturns | agent_core/runtime/agent.py:185-218 | a returning tool is observed with its data and findings, in full and in order |
| EventSink.DatabaseEventSink.Handle | backend/services/db_sink.py:102-132 | the whole effect of one event on proposals and rows |
| EventSink.DatabaseEventSink.CloseToolRun | backend/services/db_sink.py:164-189 | finishes the newest running row of the tool, and no other |
| EventSink.ProjectionOfRun | backend/services/db_sink.py:102-189 | the trace of any run becomes one row per accepted call among the recorded steps, in order, with its own parameters and final status |
| EventSink.NoRowLeftRunningIff | backend/services/db_sink.py:146-189 | no row is left running exactly when every executed tool's name fits the column |
| EventSink.LongNameStaysRunning | backend/services/db_sink.py:146-189 | a run of a tool whose name is one character too long leaves its row running, whatever the tool answers |
| EventSink.ShippedRowsSettle | backend/services/scan_manager.py:446-462 | no run of the registered tools leaves a row running, whatever they answer or raise |
| EventSink.RowMeans | backend/services/db_sink.py:146-189 | completed, failed and timed out are told apart by what the tool said; a raising tool counts as failed |
| EventSink.CallLeavesRow | backend/services/db_sink.py:134-189 | the three events of one call add exactly one row, with the parameters of its own proposal |
| Hostnames.SuffixIffLabelSuffix | backend/services/subdomain_policy.py:50-59 | equality or dot-suffix of texts is label-list suffix |
| Hostnames.DescentIsLabelSuffix | backend/services/subdomain_policy.py:50-59 | on normal forms, descent holds exactly for label suffixes |
| Hostnames.DescentIsPartialOrder | backend/services/subdomain_policy.py:50-59 | descent is reflexive, antisymmetric and transitive |
| Hostnames.DescentOfNormalForms | backend/services/subdomain_policy.py:50-59 | descent only looks at the normal forms of its arguments |
| Hostnames.NormalizeIdempotentIff | backend/services/subdomain_policy.py:31-47 | normalization is idempotent exactly on inputs without an inner newline |
| Hostnames.NormalizeNotIdempotent | backend/services/scope_service.py:68-110 | an input on which a second normalization changes the name |
| Hostnames.NormalForm | backend/services/scope_service.py:68-110 | a normal form is a name of section 2.1 of RFC 1123, apart from one final newline |
| Targets.NormalizeIgnoresCase | agent_core/safety/policy.py:29-42 | letter case never changes what a target means |
| Targets.NormalizeIgnoresPadding | agent_core/safety/policy.py:29-42 | surrounding whitespace never changes what a target means |
| Targets.HostFormIff | agent_core/safety/policy.py:29-42 | normalization is idempotent exactly on targets that are no URL or whose text between '@' and ':' has no padding |
| Targets.NamesAreHostForms | agent_core/safety/policy.py:29-42 | every DNS name is its own host form |
| Targets.PaddedUrlHost | agent_core/safety/policy.py:29-42 | a URL whose host form is not fixed |
| Targets.ResolveScope | backend/services/scope_resolution.py:60-97 | the allowlist holds exactly the snapshot host forms and their forward-DNS answers, each once |
| Targets.SnapshotParents | backend/services/subdomain_policy.py:85-111 | exactly the name-shaped snapshot values, each once |
| TargetTexts.NormalizeMeans | backend/services/subdomain_policy.py:31-47 | exactly name-shaped text has a normal form, and it is the text in lower case without its root dot |
| TargetTexts.LabelMeans | backend/services/scope_service.py:68-110 | labels have 1 to 63 letters, digits and hyphens, with no hyphen at either end |
| TargetTexts.IPv4Iff | backend/services/scope_service.py:68-110 | an IPv4 literal is four numbers up to 255 in plain decimal between dots |
| TargetTexts.UrlTargetMeans | agent_core/safety/policy.py:29-42 | a URL means its host in lower case; scheme, user, port, path and query play no part |
| TargetTexts.AuthorizedMeans | backend/services/scope_resolution.py:60-97 | host, URL and domain entries and their forward-DNS answers are authorized, CIDR entries are not |
| TargetTexts.ParentMeans | backend/services/subdomain_policy.py:85-111 | parents are the names of host and domain entries and the name hosts of URL entries |
| TargetTexts.LessMeans | backend/services/result_persistence.py:451-453 | sorted lists are ordered by the first differing character, a proper prefix first |
| SafetyGates.CheckedMeans | agent_core/safety/validator.py:38-90 | which kind of reason the validator gives when it refuses |
| SafetyGates.PhraseMarksAllowlist | backend/services/httpx_eligibility.py:104-146 | among httpx rejections exactly those of the allowlist carry the searched phrase |
| SafetyGates.NarrowGate | backend/services/httpx_eligibility.py:92-146 | equals the base gate off httpx; on httpx accepts exactly what the run-local policy accepts |
| SafetyGates.OnlyAllowlistIsRescued | backend/services/httpx_eligibility.py:104-146 | only rejections for a target outside the allowlist are ever overturned |
| SafetyGates.BuildHttpxRuntimePolicy | backend/services/httpx_eligibility.py:43-60 | the derived policy allows the union of allowed and eligible targets |
| SafetyGates.RecheckNeverRefuses | agent_core/tools/httpx.py:157-172 | the recheck inside the tools never refuses what the gate accepted |
| GateParameters.NmapAccepted | agent_core/safety/validator.py:38-90 | an nmap call is accepted iff tool, cap and model allow it and its raw target is in the allowlist |
| GateParameters.SubfinderAccepted | agent_core/safety/validator.py:38-90 | the same for the raw domain of a subfinder call |
| GateParameters.ListAccepted | agent_core/safety/validator.py:72-80 | an httpx, nuclei or dnsx call is accepted iff every single item of its list is in the allowlist, besides tool, cap and model |
| GateParameters.PromotedAccepted | backend/services/httpx_eligibility.py:92-146 | under the promoted gate every item is allowed or eligible, and nothing more is asked |
| GateParameters.RefusalNamesTheFirst | agent_core/safety/validator.py:72-80 | a refusal names the first item that is neither allowed nor eligible |
| GateParameters.ExecutedMeans | agent_core/tools/nuclei.py:41-56 | one executed target per item and none besides: the stripped text, or the normal form of the name |
| GateParameters.NmapSchemaMeans | agent_core/tools/nmap.py:32-73 | what the nmap model takes, parameter by parameter |
| GateParameters.ListSchemaMeans | agent_core/tools/nuclei.py:32-56 | what the models of httpx and nuclei take: 1 to 20 texts without blanks, flags or shell characters |
| GateParameters.DnsTargetMeans | agent_core/tools/subfinder.py:62-86 | what subfinder and dnsx take for a name, and what becomes of it |
| PipelinePlanning.CollectNmapUrls | backend/services/pipeline_planner.py:95-121 | the first ten distinct URLs of open ports, across three nested loops with early exit |
| PipelinePlanning.CollectHttpxUrls | backend/services/pipeline_planner.py:124-152 | successes before the rest, by first sighting, capped |
| PipelinePlanning.SnapshotHosts | backend/services/pipeline_planner.py:57-68 | the first ten distinct host forms of host and url entries |
| PipelinePlanning.SanitizePromotedHosts | backend/services/pipeline_planner.py:155-195 | the sorted first fifty distinct names below the snapshot, whatever order its parents are in |
| PipelinePlanning.SanitizedUnchangedIff | backend/services/pipeline_planner.py:155-195 | discovery's first fifty hosts pass unchanged exactly when none has a newline |
| PipelinePlanning.NmapPendingHosts | backend/services/pipeline_planner.py:244-269 | the hosts covered neither by a result nor by a proposal |
| PipelinePlanning.DecideNext | backend/services/pipeline_planner.py:294-342 | the decision for a state, with the loops that compute it |
| PlannerTargets.DecideMeans | backend/services/pipeline_planner.py:294-342 | when the planner finishes, and otherwise which tool comes next; the whole nmap call |
| PlannerTargets.HttpxDecision | backend/services/pipeline_planner.py:271-292 | the items of an httpx decision: https at open port 443 and http at other open ports, else seeds, else hosts, before promoted hosts; at most ten, none left out below ten |
| PlannerTargets.NucleiDecision | backend/services/pipeline_planner.py:271-292 | the items of a nuclei decision: URLs that httpx observed, 2xx first, else seeds, else hosts; never a promoted host |
| PlannerTargets.NmapUrlsMean | backend/services/pipeline_planner.py:95-121 | each URL is that of a port reported open; below ten every open port has one |
| PlannerTargets.NmapUrlsGrow | backend/services/pipeline_planner.py:95-121 | later results never displace the URLs of earlier ones |
| PlannerTargets.SeedsMean | backend/services/pipeline_planner.py:71-92 | the http and https URL entries, verbatim, ten at most, each once |
| PlannerTargets.HostsMean | backend/services/pipeline_planner.py:57-68 | the host forms of host and URL entries, ten at most, each once |
| PlannerTargets.HttpxUrlsMean | backend/services/pipeline_planner.py:124-152 | observed URLs, the requested one before the final one, first sightings with 2xx before all others |
| PlannerTargets.SanitizedMeans | backend/services/pipeline_planner.py:155-195 | the names below the snapshot that promoted hosts normalize to, sorted, fifty at most |
| PipelineSchedule.NothingOrAll | backend/services/pipeline_planner.py:294-328 | without targets or budget for everything, the run finishes at step one without a tool call |
| PipelineSchedule.ScheduleIff | backend/services/pipeline_planner.py:236-342 | otherwise it makes exactly the scheduled decisions and finishes, whatever tools and gate do, if and only if every scanned host is a host form |
| PipelineSchedule.UndisturbedRun | backend/services/pipeline_planner.py:294-342 | every run from a fresh state goes as one of the two results above says |
| PipelineSchedule.ScheduleTurn | backend/services/pipeline_planner.py:294-342 | step plus remaining stays constant and exactly the first open slot is filled |
| PipelineSchedule.RunSticks | backend/services/pipeline_planner.py:244-269 | with a padded host the run stays with nmap and still finishes |
| PipelineSchedule.PaddedSnapshotIsNotClean | backend/services/pipeline_planner.py:57-68 | a snapshot for which the schedule is not followed |
| ScanPipeline.AcceptedIsSound | backend/services/httpx_eligibility.py:92-146 | every single item of an accepted call comes from the snapshot, or for httpx from below it |
| ScanPipeline.RunIsSound | backend/services/scan_manager.py:324-386 | along every run of any planner all executed calls are sound |
| ScanPipeline.RunUsesPipelineTools | backend/services/pipeline_planner.py:294-342 | a pipeline run calls nmap, httpx and nuclei only |
| ScanPipeline.PlannedNmapIsAccepted | backend/services/pipeline_planner.py:329-335 | the gate takes every nmap call the planner proposes on a host the nmap model accepts |
| ScanPipeline.DiscoveryIsSound | backend/services/discovery_service.py:366-449 | Subfinder runs for snapshot targets only, and DNSX only for names below the snapshot |
| ScanPipeline.PlainEntryIsPermitted | backend/services/discovery_service.py:244-262 | Subfinder may be run for every plain domain and host entry of the snapshot |
| ScanPipeline.GatedRowsSettle | backend/services/scan_manager.py:345-386 | behind the gate, no run of any planner leaves a tool-run row running |
| ScanPipeline.LoopEnvGated | backend/services/scan_manager.py:354-370 | picking the plain validator when nothing was promoted is the promoted gate on an empty list |
| ScanPipeline.PromotedPassUnchangedIff | backend/services/scan_manager.py:345-371 | discovery's promoted list reaches the planner unchanged exactly when its first fifty hosts have no newline |
| ScanPipeline.ShippedPromotedPass | backend/services/scan_manager.py:345-371 | with the shipped Subfinder the planner gets the first fifty promoted hosts unchanged, without condition |
| ScanPipeline.RunPipelineScan | backend/services/scan_manager.py:268-386 | scope, discovery, sanitizing, gate and loop composed: Subfinder and DNSX run for snapshot targets and names below them only, and Subfinder for every plain domain and host entry unless cancelled; a cancelled discovery runs no pipeline, otherwise the run is the gated loop under the resolved allowlist with danger cap active_scan, every executed call is sound, and undisturbed it goes as scheduled |
| ScanPipeline.RunLoop | backend/services/scan_manager.py:345-386 | the part after discovery, for any promoted list |
| Discovery.DiscoveryService.Run | backend/services/discovery_service.py:198-364 | cancelled exactly when a poll saw the event, then nothing is promoted; otherwise the determined outcome, each eligible host in one batch; Subfinder is run for permitted names of domain and host entries only, and for every one of them unless cancelled |
| Discovery.DiscoveryService.AskParent | backend/services/discovery_service.py:244-290 | one parent: found, rejected and failed sets, and no storing after cancellation |
| Discovery.DiscoveryService.ResolveBatch | backend/services/discovery_service.py:306-349 | one batch: its hosts end up verified or unverified |
| Discovery.DiscoveryService.InvokeDnsx | backend/services/discovery_service.py:366-414 | validated under the batch's own policy, executed only if no poll saw the event |
| Discovery.DiscoveryService.ValidatedDiscoveries | backend/services/discovery_service.py:430-449 | the proper descendants among the first 500 candidates, and the rejected texts |
| Discovery.ParentsMean | backend/services/discovery_service.py:99-112 | the parents are exactly the normal forms of domain and host entries, each once |
| DiscoveryFacts.SubfinderAllowedIff | backend/services/discovery_service.py:366-397 | Subfinder may be run for a plain name iff it is registered and the name is in the allowlist |
| DiscoveryFacts.DnsxIsQueryOnly | backend/services/discovery_service.py:416-428 | whatever DNSX call passes names hosts of its batch only |
| DiscoveryFacts.FoundIff | backend/services/discovery_service.py:430-449 | found iff one of the first 500 entries of an answer about the parent names it as a proper descendant |
| DiscoveryFacts.RejectedIff | backend/services/discovery_service.py:430-449 | which texts are reported as rejected, and how they are cut |
| DiscoveryFacts.EligibleIff | backend/services/discovery_service.py:268-300 | eligible iff found below a parent whose answer was stored |
| DiscoveryFacts.VerifiedIff | backend/services/discovery_service.py:323-349 | verified iff the batch was answered, storing the own records reached an asset, and one of them lists an address |
| DiscoveryFacts.ResultMeans | backend/services/discovery_service.py:301-305 | the discovered and rejected lists of a result; without an eligible host no name is listed |
| DiscoveryAccounting.BatchesCover | backend/services/discovery_service.py:306-314 | batches of one to twenty, in order, losing nothing, ceil(n / 20) in number |
| DiscoveryAccounting.OneBatchEach | backend/services/discovery_service.py:306-314 | no host is queried twice |
| DiscoveryAccounting.VerifiedByItsBatch | backend/services/discovery_service.py:323-349 | a host is verified by the batch that asked for it |
| DiscoveryAccounting.Partition | backend/services/discovery_service.py:306-349 | verified and unverified hosts partition the eligible ones |
| DiscoveryAccounting.PromotedMeans | backend/services/discovery_service.py:355-364 | promoted hosts are the verified ones with an asset, each below a parent whose discovery was persisted |
| DiscoveryAccounting.BatchAllowedIff | backend/services/discovery_service.py:416-428 | the query-only policy refuses no plain batch unless DNSX is not registered |
| DiscoveryAccounting.EmittedLacksNewline | agent_core/tools/subfinder.py:49-86 | the shape check every emitted name goes through lets no newline pass |
| DiscoveryAccounting.EligibleIsPlain | backend/services/discovery_service.py:430-449 | with the shipped Subfinder every eligible host is a plain name in normal form, never an address |
| DiscoveryAccounting.PromotedIsPlain | backend/services/discovery_service.py:355-364 | so is every promoted host |
| DiscoveryAccounting.ShippedBatchAllowedIff | backend/services/discovery_service.py:416-428 | and every batch it leads to is allowed exactly when DNSX is registered |
| DiscoveryStore.ApplyDnsxEnrichment | backend/services/result_persistence.py:521-542 | every row ends as its own queried records among the first 500 leave it, with the number of rows concerned |
| DiscoveryStore.Replay | backend/services/discovery_service.py:323-349 | hand-overs one after the other: the row after all of them, and counts that earlier ones do not change |
| DiscoveryStore.PromotedIsVerified | backend/services/discovery_service.py:355-364 | on the asset table, with the shipped Subfinder, the final asset check takes no verified host away |
| DiscoveryStore.PromotedIff | backend/services/discovery_service.py:323-364 | on that table a host is promoted exactly when it is eligible, an asset carries it, and DNSX answered for it with an address |
| DiscoveryStore.RunLeavesBulk | backend/services/discovery_service.py:306-349 | a run's hand-overs leave each row as one call for the batch of its host would, and other rows alone |
| DiscoveryStore.DiscoverOnTable | backend/services/discovery_service.py:198-364 | the run on a table of assets: promoted is verified, and every row is as the bulk call of its batch leaves it |
| DnsEnrichment.AssetStore.ApplyDnsEnrichment | backend/services/result_persistence.py:361-409 | every row ends as the fold of its own records among the first 500, with the number of rows concerned |
| DnsEnrichment.ClosedForm | backend/services/result_persistence.py:375-453 | what a list of records leaves: twenty smallest of old and new per touched key, resolved iff an address, nothing else |
| DnsEnrichment.MergedKeyIs | backend/services/result_persistence.py:412-453 | truncating both sides before merging loses nothing of the union's twenty smallest |
| Smallest.LeastIsMinK | backend/services/result_persistence.py:451-453 | sorting and cutting keeps exactly the elements with fewer than k smaller ones |
| Smallest.LeastAbsorbs | backend/services/result_persistence.py:451-453 | an earlier truncation of either side makes no difference |
| DnsConfluence.OrderIndependent | backend/services/result_persistence.py:375-453 | lists with the same records, in any order and multiplicity, leave the same row |
| DnsConfluence.TwentySmallest | backend/services/result_persistence.py:396-400 | a touched attribute holds the sorted twenty smallest of the union |
| DnsConfluence.ResolvedIff | backend/services/result_persistence.py:401-402 | unverified becomes resolved iff some record has a valid address |
| DnsConfluence.GroupingIrrelevant | backend/services/result_persistence.py:361-409 | two calls do what one call with all records does |
| DnsConfluence.PerHostIsBulk | backend/services/discovery_service.py:323-349 | for up to 500 records, one call per host equals one call for the batch |
| DnsConfluence.CommutesIff | backend/services/result_persistence.py:412-448 | a record commutes with all plain ones exactly when it contributes no CNAME with a newline |
| DnsConfluence.NewlineRecordDoesNotCommute | backend/services/result_persistence.py:412-448 | a record with one CNAME that does not commute |
| DnsConfluence.StoredIff | backend/services/result_persistence.py:396-404 | the attributes these results apply to: capped, and no stored CNAME with a newline |
| DnsColumns.ColumnMeans | backend/services/result_persistence.py:396-400 | dns_a takes IPv4, dns_aaaa IPv6 and dns_cname names, from the records about the row: the sorted twenty smallest of old and new, or no change |
| DnsColumns.StatusMeans | backend/services/result_persistence.py:401-402 | unverified becomes resolved iff some record about the row lists an address; everything else stays |
| DnsColumns.QueriedMeans | backend/services/result_persistence.py:521-542 | a dnsx result counts for the queried hosts only |
| Capping.TruncateOutput | agent_core/tools/subprocess.py:39-61 | the longest whole-character prefix of 2000 lines within 51200 bytes, marked exactly when cut |
| Capping.CutDecodes | agent_core/tools/subprocess.py:55-58 | cutting UTF-8 anywhere and decoding leniently yields the longest fitting prefix (section 3 of RFC 3629) |
| Capping.RoundTrip | agent_core/tools/subprocess.py:55-58 | decoding an encoded text gives the text back |
| Capping.LinesRejoin | agent_core/tools/subprocess.py:49-54 | splitting and joining lines loses only a final newline |
| Capping.NextLine | agent_core/tools/subprocess.py:49-54 | text is cut at each of the ten boundaries of splitlines, a carriage return taking its newline along |
| Capping.KnownEncodings | agent_core/tools/subprocess.py:55-58 | the bytes of one character of each length (section 3 of RFC 3629) |
| Capping.CapGraph | backend/services/result_persistence.py:61-80 | capping any object graph, cyclic ones included, ends in a tree of bounded strings |
| Capping.GraphIsShallow | backend/services/result_persistence.py:61-80 | the tree is no deeper than the number of containers plus one |
| Capping.AcyclicGraphIsCapped | backend/services/result_persistence.py:61-80 | without cycles the result is the unfolded payload with its strings capped |
| Capping.CapJsonTwice | backend/services/result_persistence.py:61-80 | capping twice is capping once |
| Capping.CapJsonMeans | backend/services/result_persistence.py:61-80 | capping keeps shape, keys and strings up to 8192 characters, and cuts and marks longer ones |
| Capping.SelfReference | backend/services/result_persistence.py:75-79 | a list that contains itself becomes one level and the marker |
| Capping.SelfContained | backend/services/result_persistence.py:71-74 | a dictionary that contains itself becomes one level and the marker as a text |
| Origins.ParseIsIdempotent | backend/services/live_authorization_service.py:91-169 | a canonical origin parses to itself |
| OriginTexts.ParseOriginIff | backend/services/live_authorization_service.py:91-225 | accepted iff the text is http or https, a name in any case that resembles no address, and at most the default port - no user, path, query or fragment |
| OriginTexts.TextIsOrigin | backend/services/live_authorization_service.py:91-169 | what such a text is stored as |
| Origins.ParsedIsCanonical | backend/services/live_authorization_service.py:91-225 | an accepted origin is scheme, default port and a DNS name that resembles no address |
| Origins.ParseOriginList | backend/services/live_authorization_service.py:228-251 | all values parse or none is returned; each origin once, sorted |
| Origins.ParsedListIsCanonical | backend/services/live_authorization_service.py:228-251 | an accepted list is strictly sorted and canonical |
| Origins.CanonicalListIsFixed | backend/services/live_authorization_service.py:228-251 | parsing the origins of a canonical list gives the list back |
| Origins.EffectiveIsCanonical | backend/services/live_authorization_service.py:462-465 | removing exclusions keeps a list canonical and removes exactly the excluded |
| Timestamps.UtcRoundTrip | backend/core/time.py:11-14 | the stored text of an instant reads back as that instant |
| Timestamps.LayoutMeans | backend/core/time.py:11-14 | the layout of a stored instant, character by character |
| Timestamps.RankIsChronological | backend/services/live_authorization_service.py:344-360 | the rank that compares instants orders them as the calendar does |
| ExecutionProfiles.ProfileRoundTrip | backend/services/live_probe_budgets.py:151-225 | a rendered profile passes strict parsing unchanged |
| ExecutionProfiles.PinnedFieldwise | backend/services/live_authorization_service.py:820-877 | the comparisons field by field leave none out: together they are equality with the pinned records, and a budget refusal comes before a binding one |
| ExecutionProfiles.ProfileExact | backend/services/live_authorization_service.py:757-878 | a profile is accepted exactly when it parses to the pinned rendering on the live ids under its digest |
| ExecutionProfiles.RenderingAccepted | backend/services/live_probe_budgets.py:176-225 | every rendering is accepted |
| LiveVerification.VerifyIff | backend/services/live_authorization_service.py:652-709 | a live scan is accepted exactly when nothing has drifted |
| LiveVerification.AcceptedIsUndrifted | backend/services/live_authorization_service.py:652-709 | acceptance implies parent, status, window, policy, snapshot, ids and profile all agree |
| LiveVerification.VerifyCoreIff | backend/services/live_authorization_service.py:577-649 | a rendering verifies on its own exactly when its record is renderable at that time |
| LiveVerification.PayloadIff | backend/services/live_authorization_service.py:478-548 | when a record with canonical origins renders |
| LiveVerification.RenderingMeans | backend/services/live_authorization_service.py:536-548 | the keys of a rendering and its fixed values: GET on "/" only, no redirects, no discovery |
| LiveVerification.PolicyMeans | backend/services/live_authorization_service.py:577-649 | the policy fields that a stored core must state |
| LiveVerification.CanonicalNamesIff | backend/services/live_authorization_service.py:525-535 | the canonicity check means non-empty, strictly sorted, each name canonical |
| LiveIssue.IssueThenVerify | backend/services/live_authorization_service.py:895-978 | a scan created from an issued record verifies throughout the window |
| LiveIssue.IssueIsIssued | backend/services/live_authorization_service.py:313-387 | whatever is accepted for issue satisfies what rendering will check later |
| LiveIssue.IssueMeans | backend/services/live_authorization_service.py:313-387 | issued iff origins, evidence and window are acceptable, and then column by column as asked |
| LiveIssue.WindowMeans | backend/services/live_authorization_service.py:344-364 | the window is accepted iff its end lies after the start and within max(1, days), and which error is given otherwise |
| LiveIssue.EvidenceMeans | backend/services/live_authorization_service.py:254-276 | a reference or a digest is given, and a digest is 64 hexadecimal digits in either case |
| LiveIssue.InactiveNeverVerifies | backend/services/live_authorization_service.py:500-504 | a suspended or revoked record never verifies, whatever the scan carries |
| LiveIssue.LiveAuthorizationService.CreateAuthorization | backend/services/live_authorization_service.py:313-387 | when a request is accepted, and the whole record: it starts when asked or now, ends as asked, after the start and within the cap, or exactly at the cap; a refusal changes nothing |
| LiveIssue.LiveAuthorizationService.Suspend | backend/services/live_authorization_service.py:390-410 | active to suspended, once |
| LiveIssue.LiveAuthorizationService.Revoke | backend/services/live_authorization_service.py:413-428 | to revoked, once |
| LiveIssue.LiveAuthorizationService.CreateLiveScan | backend/services/live_authorization_service.py:895-978 | when a scan is created, what it carries, and that it verifies from then on |
| LiveIssue.LiveAuthorizationService.VerifyLiveScan | backend/services/live_authorization_service.py:652-709 | over issued records, success means exactly that nothing has drifted |
| AssetForest.AssetTable.Persist | backend/services/result_persistence.py:833-899 | appends each new identity once and links it after all ids are known |
| AssetForest.AssetTable.PersistObservations | backend/services/result_persistence.py:833-899 | stopping at the cap makes no difference: the rows are those of the capped assets of all observations |
| AssetForest.RunShape | backend/services/result_persistence.py:850-859 | the capped assets of any observations have every domain before its subdomains |
| AssetForest.ObservedAssetsAreLinked | backend/services/result_persistence.py:833-899 | whatever a run observed, its subdomain rows are linked to domain rows and links stay typed |
| AssetForest.PersistTwice | backend/services/result_persistence.py:833-899 | persisting the same assets again inserts nothing and changes no row |
| AssetForest.SubdomainsAreLinked | backend/services/result_persistence.py:676-739 | every inserted subdomain is linked to a domain row of the same scan |
| AssetForest.LinksStayTyped | backend/services/result_persistence.py:893-898 | links lead from subdomains to domains and from endpoints to pages |
| AssetForest.ParentsAreRoots | backend/services/result_persistence.py:893-898 | typed links close no cycle |
| AssetForest.SubfinderShape | backend/services/result_persistence.py:676-739 | the domain comes before the subdomains that want it |
| AssetForest.JoinKeepsParents | backend/services/result_persistence.py:850-857 | joining the assets of several observations keeps domains before their subdomains |
| AssetForest.CutKeepsParents | backend/services/result_persistence.py:857-859 | so does the cap of 500 assets per run |
| AssetFacts.SubfinderAssetsMean | backend/services/result_persistence.py:676-739 | an answer about a snapshot parent becomes its domain asset and one subdomain asset per listed proper descendant; any other answer nothing |
| AssetFacts.PersistedIdentitiesMean | backend/services/result_persistence.py:833-899 | exactly the old identities and those of the derived assets have a row |
| AssetFacts.PersistedRowMeans | backend/services/result_persistence.py:871-898 | each new row comes from the first asset with its identity and is linked to the row that one wants |
| AssetTree.BuildHierarchy | frontend/src/components/assets/AttackSurfaceTree.tsx:39-77 | roots and children lists are what the links say, in list order |
| AssetTree.HierarchyMeans | frontend/src/components/assets/AttackSurfaceTree.tsx:39-77 | an asset is listed below the listed asset that its link names, and at the root without such a link |
| AssetTree.BelowInOrder | frontend/src/components/assets/AttackSurfaceTree.tsx:39-77 | roots and children keep the order of the assets |
| AssetTree.TreeConserves | frontend/src/components/assets/AttackSurfaceTree.tsx:39-77 | without cycles the tree shows every asset exactly once |
| AssetCycles.TreeShowsAnchored | frontend/src/components/assets/AttackSurfaceTree.tsx:39-77 | on any links the tree shows exactly the assets whose climb ends at a root, each once |
| AssetCycles.CycleIsHidden | frontend/src/components/assets/AttackSurfaceTree.tsx:39-77 | an asset on a link cycle or below one is never shown |
| AssetCycles.TreeShowsAllIff | frontend/src/components/assets/AttackSurfaceTree.tsx:39-77 | the tree shows every asset exactly when the links have no cycle |
| AssetView.ListingAcyclic | backend/services/result_persistence.py:893-898 | the typed links that persistence leaves close no cycle in the tree |
| AssetView.EveryAssetShownOnce | backend/services/result_persistence.py:833-899 | the rows of any scan form a tree that shows every asset exactly once |
| AssetTree.IncludeAncestors | frontend/src/components/assets/AttackSurfaceTree.tsx:353-363 | the early-break walk computes the least ancestor-closed superset, and ends on any links |
| AssetTree.FilteredRoots | frontend/src/components/assets/AttackSurfaceTree.tsx:365-377 | in the filtered tree an asset is a root exactly when it is one in the full tree |
| EventCursor.Replay | backend/services/event_service.py:45-66 | following the cursor to a short page yields all events in order, without loss or duplicate, while more are appended |
| EventCursor.CursorContinues | backend/services/event_service.py:56-66 | filtering by the last id seen continues exactly where the received prefix ends |
| EventCursor.OfScanWithin | backend/services/event_service.py:56-66 | exactly the events of the scan are listed |

## Left out

- Routers, transfer objects, tokens, passwords, envelopes, dashboards: plumbing without deep state.
- Subprocesses, sockets, signal handling and DNS itself: tools and the resolver are functions.
- Database internals, migrations and isolation anomalies: tables are maps or sequences with atomic steps.
- Tool-output parsers, argument builders, summaries, prompts and model planners: any planner is covered.
- Enrichment of tool runs after the scan, finding rows, finding links and stored agent events.
- The text of error messages, except the rejection reasons that the narrow gate searches.
- The `errors` list of a discovery result, and its log lines.
- Katana endpoints beyond their parent hints, and ports and schemes of asset rows.
- Non-string keys of payloads, and the size cap on a serialized event.
- Lone surrogates in tool output, which encoding replaces.
- PipelineSchedule.ScheduleIff: budgets of zero steps are excluded, as scans are created with at least one.
- Timestamps.UtcRoundTrip: only the layout that the backend writes is parsed; a snapshot in another layout would not match a fresh rendering.
- LiveVerification.VerifyIff: ids in documents that are not text are taken as malformed.
- Origins.ParseOriginList: checks all values before collecting them; the original does both in one loop.
- Discovery.DiscoveryService.Run: persistence is a function of what it is handed, as each host and parent is handed over once (`Replay` shows it for DNS persistence); what Subfinder persistence inserts is not tied to the table that DNS persistence finds.
- AssetForest.AssetTable.Persist: concurrent runs of one scan are not modelled.
