# CIRT Lens: verified model of detection, correlation, ingestion and response

This project models the backend of CIRT Lens (`backend/app`), an incident-response platform, and proves
what its central components promise. All times are integer microseconds, strings are sequences of
characters, and everything the code reads from outside (clocks, provider replies, pipeline outcomes,
generated ids, hashes) is a parameter.

| part | files | what is proved |
|---|---|---|
| Correlation graph | `Components`, `Correlation`, `Groups`, `Scores` | what links two events and what makes a group, bucketed candidates against all pairs, the depth-first search against reachability classes, order independence, the exact gap of pruning |
| Detection | `Detection`, `Fatigue`, `Rules`, `Reports`, `Citations` | sliding-window detectors against quadratic specifications; every flag a run reports or a batch stores, and what each finding cites, told from the events alone |
| Pipeline | `Pipeline`, `Ingestion`, `Incremental`, `Columns` | batch-by-batch processing against one run over the whole history, first-write-wins records, derived columns |
| Ingestion queue | `Queue`, `QueueLaws`, `QueueCauses`, `Consumer` | a step machine with any number of workers and a crash or failed call between any two effects; conservation, attempts, termination, order, and what must have happened to a job for each status |
| Provider connector | `Breaker`, `Connector` | the circuit breaker's bound on calls over time, and which account can be blocked |
| Incidents | `Playbook`, `Risk`, `Incidents`, `IncidentLaws`, `Absorption`, `Matching`, `Evidence`, `Sessions`, `Transactions`, `Aborts`, `Correlator` | where a group goes and what it leaves in every column, monotone enrichment, and which batches abort, with a session that does not flush before it queries |
| Responses | `Response`, `Handlers`, `Answers`, `Writes`, `Workflow`, `WorkflowLaws`, `Tenants`, `IncidentRuns`, `Continuations`, `History`, `Batches`, `Scenarios`, `LateLogins` | every answer and what it writes, tenant isolation, approvals, connector idempotency and incident life cycles over every run, what can still happen after it, and runs from raw telemetry in which it does |
| Pagination | `Pagination` | pages and cursor walks are exact |

`Base` and `Settings` hold shared vocabulary. Objects the code updates in place are classes
(`TelemetryStore`, `IngestionWorker`, `Auth0IdentityConnector`, `IncidentStore`, `ResponseDesk`); their methods
are proved against functions of the old state, and the laws are lemmas about those functions.

## Where code and documentation disagree

The model follows the code in each case.

- `README.md:81,99` and `docs/architecture.md:47` call the original risk immutable. Enrichment overwrites
  `risk_score` (`backend/app/services/correlation_engine.py:329`): `Absorption.EnrichKeepsRiskIff` says part by part
  exactly when the score stays, `Absorption.NewThreatRaisesRisk` gives groups that always raise it, and
  `IncidentRuns.RiskChangesOnlyByEnrichment` shows that nothing else changes it.
- `docs/architecture.md:47` says that only high-impact actions can mark a case contained. A high-impact action is
  always involved (`Playbook.ContainmentNeedsHighImpact`), but a low-impact one can complete containment:
  `Playbook.LowImpactCompletesIff` says which two, and `Playbook.LowImpactCanCompleteIff` on which types.
- `docs/security-model.md:7` calls RESOLVED an explicit analyst decision. An execution can still turn a resolved
  incident into a contained one: exactly when is `Continuations.ResolvedBecomesContainedIff`, and
  `Continuations.ResolvedThenContained` with `Scenarios.EndpointReached` is a run in which it happens, from two raw
  endpoint events on.
- `README.md:103` says that deterministic fingerprints make reprocessing idempotent. The session does not flush before
  it queries (`backend/app/database.py:14`), so a batch aborts when a group is created with a fingerprint that an
  earlier group of the batch has given to another incident (`Transactions.PendingFingerprintClash`), although the same
  groups in two batches do not (`Transactions.SplitBatchCommits`); `LateLogins.LateLoginsAbort` gets there from six raw
  events in two batches (`LateLogins.StoryExists` and `Scenarios.AttackExists` have such events). A group whose incident was resolved twice aborts its batch
  (`Transactions.ThirdIncidentAborts`, `Scenarios.ThirdEndpointAborts`), and goes on doing so as long as it asks for the
  same fingerprint and matches no open incident (`IncidentRuns.AbortRepeats`). A group with two signals but neither user
  nor host aborts as well (`Absorption.IndexErrorIff`, `Scenarios.AnonymousTransfersAbort`). The exact conditions are
  `Aborts.OneGroupAbortsIff` and `Aborts.TwoGroupsAbortIff` for a batch, over the tables before it, and
  `Sessions.ClashIff` and `Sessions.EnrichClashesIff` for a group inside a longer one.
- `README.md:22` promises that approvals expire. The second expiry of the same tenant, incident and action violates a
  unique constraint, and so does a second use. `Continuations.ExecutableIff` says exactly which pending high-impact
  actions can still be executed.
- `backend/app/worker.py:1` mentions pending recovery, but the loop reads only new messages: a message lost to a crash
  is never delivered again (`QueueLaws.LostForEver`), and after any faults a fault-free drain finishes exactly the jobs
  whose message was not lost (`QueueLaws.DrainedAfterFaultsIff`). A raising acknowledgement overwrites a committed
  COMPLETED (`QueueLaws.TerminalStatusChangesIff`), and a raising PROCESSING commit retries without counting an attempt
  (`QueueLaws.FailedBeginCountsNothing`).

## Model

| member | source | states |
|---|---|---|
| Correlation.ConnectionScoreSymmetric | backend/app/services/correlation_engine.py:19-37 | the pair score does not depend on the order of the two events |
| Correlation.AnchoredMeaning | backend/app/services/correlation_engine.py:47-61 | two events share a bucket exactly when they have a non-empty user, host, source IP, device or destination IP in common |
| Correlation.FillBuckets | backend/app/services/correlation_engine.py:48-61 | each bucket holds exactly the events with that key, in order, and no key of any event is missing |
| Correlation.CandidatePairs | backend/app/services/correlation_engine.py:47-67 | the candidates are exactly the unordered id pairs of distinct events that share a bucket |
| Correlation.UnanchoredScore | backend/app/services/correlation_engine.py:24-37 | what a pair without a common bucket can still score: at most 5, and 5 only through an address overlap within 900 s |
| Correlation.PruningLosesNothing | backend/app/services/correlation_engine.py:70-78 | at any threshold of at least 6 a pair is accepted by the pruned search exactly when it is accepted by comparing all pairs |
| Correlation.PruningGap | backend/app/services/correlation_engine.py:70-78 | at threshold 5 the dropped qualifying pairs are exactly those that score 5 by an address overlap across source and destination (or an empty address) within 900 s |
| Scores.ScoreIs | backend/app/services/correlation_engine.py:22-37 | the score of a pair, attribute by attribute: 4 for user and host, 3 for device and source address, 2 for a common address across the two address fields, 3 within 15 minutes and else 1; nothing outside the window |
| Scores.LinkedIff | backend/app/services/correlation_engine.py:24-78 | at the default minimum of 5 two events are linked exactly by a common user, host or source address, by a common device if they are close in time or meet on an address, or by a common destination if they are close in time |
| Components.ClassesPartition | backend/app/services/correlation_engine.py:79-92 | the reachability classes of a symmetric relation cover all events and are pairwise disjoint |
| Components.SameClassesIff | backend/app/services/correlation_engine.py:79-92 | dropping edges leaves all classes the same exactly when every dropped edge joins events that stay connected |
| Groups.CohesionPermuted | backend/app/services/correlation_engine.py:40-44 | cohesion is the same for every order of the group |
| Groups.GateOfArrangement | backend/app/services/correlation_engine.py:93-104 | size, span and cohesion gates decide alike for every time-sorted order of a component |
| Scores.CohesionIs | backend/app/services/correlation_engine.py:40-44 | cohesion is the mean of the scores of all pairs, each event with those before it, scored 0 or not |
| Scores.QualifiesIff | backend/app/services/correlation_engine.py:93-104 | a set of events is a group exactly if it has two, no two further apart than the incident span, and its pairs reach the minimum cohesion on average |
| Groups.Adjacency | backend/app/services/correlation_engine.py:73-78 | the adjacency lists hold each candidate pair that reaches the threshold, in both directions, and nothing else |
| Groups.Explore | backend/app/services/correlation_engine.py:84-92 | the stack search, duplicates on the stack included, terminates and collects exactly the unvisited events reachable from its root, each once |
| Groups.NextComponent | backend/app/services/correlation_engine.py:84-93 | the component of an unvisited event, time-sorted, is its reachability class |
| Groups.ConnectedGroups | backend/app/services/correlation_engine.py:70-105 | the emitted groups are exactly the classes of the accepted-edge graph that pass the gates, each once, time-sorted and disjoint, in the order of their first events |
| Groups.GroupingOrderIndependent | backend/app/services/correlation_engine.py:70-105 | any two orders of the same events yield the same groups as sets |
| Groups.PrunedGroupsEqualAllPairs | backend/app/services/correlation_engine.py:70-105 | at thresholds of at least 6 the groups equal those found by comparing every pair |
| Groups.PruningKeepsClassesIff | backend/app/services/correlation_engine.py:70-105 | at any threshold pruning keeps all classes exactly when each dropped pair stays connected another way |
| Groups.PruningKeepsGroupsIff | backend/app/services/correlation_engine.py:70-105 | at any threshold pruning emits the same groups, after the gates, exactly when no dropped pair leads out of a group found with pruning, and the pruned edges connect each group found without it |
| Groups.PruningLosesAGroup | backend/app/services/correlation_engine.py:54-58 | at the default settings two events on their own that the buckets never compare, though they score enough, form a group by all pairs and none by the code |
| Batches.RelayIsLost | backend/app/services/correlation_engine.py:47-61 | two stored network events within 900 s, without user or host, the source address of one the destination of the other, are such a pair |
| Detection.LatestConflictMeaning | backend/app/services/detection_engine.py:92-95 | the partner chosen by the specification is the latest earlier login of the user in another country within the window, if there is one |
| Detection.DetectImpossibleTravel | backend/app/services/detection_engine.py:80-123 | the detector with its evicting window returns exactly the findings of the quadratic specification |
| Detection.CheckLogin | backend/app/services/detection_engine.py:88-122 | one login gets the pair of findings with its latest conflicting partner, or none, and the windows stay those of the logins seen |
| Detection.Evict | backend/app/services/detection_engine.py:89-91 | popping from the front drops only logins that are too old for this and every later login |
| Detection.WindowDecides | backend/app/services/detection_engine.py:88-95 | searching the evicted per-user window finds the same partner as searching all earlier logins |
| Fatigue.BurstNotMissed | backend/app/services/detection_engine.py:134-137 | if any `threshold` denials, consecutive or not, fit in the window, then some consecutive run that ends no later does |
| Fatigue.FatigueIff | backend/app/services/detection_engine.py:126-151 | a user is flagged exactly when some `threshold` denials fit in the window |
| Fatigue.FatiguePoints | backend/app/services/detection_engine.py:139-149 | a flagged user gets exactly `threshold` findings worth 6 * threshold + 1 points |
| Fatigue.DetectMfaFatigue | backend/app/services/detection_engine.py:126-151 | the detector returns for each user with denials, in order of first denial, the findings of the earliest-ending burst |
| Fatigue.GroupByUser | backend/app/services/detection_engine.py:129-133 | the per-user lists hold exactly the user's denials in time order |
| Rules.DetectTemporalPrivilege | backend/app/services/detection_engine.py:287-321 | a privileged cloud action is flagged with all anomalous successful logins of its user in the window before it, if there are any |
| Rules.RunDetection | backend/app/services/detection_engine.py:324-333 | a run returns the findings of all detectors in the order the code adds them; the rows below say which those are, from the events alone |
| Reports.SingleReportedIff | backend/app/services/detection_engine.py:154-284 | a run reports a flag of a single event, with its points, exactly if the event shows it: the ten conditions, thresholds and names in one table |
| Reports.TravelReportedIff | backend/app/services/detection_engine.py:80-123 | a run gives 30 points of impossible travel to exactly the logins that follow one from another country within the window, and 0 points to the latest login each of them follows |
| Reports.FatigueReportedIff | backend/app/services/detection_engine.py:126-151 | a run reports MFA fatigue about a user exactly if as many denied prompts as the threshold says fit in the window; then it is that many findings, worth 6 each and one more |
| Reports.EscalationReportedIff | backend/app/services/detection_engine.py:287-333 | a run reports privilege escalation about exactly the privileged cloud actions that follow, within the window, a successful login of their user with a new device or impossible travel |
| Citations.TravelIff | backend/app/services/detection_engine.py:99-121 | exactly the two findings of impossible travel are reported for each login and the latest one that has travelled to it, and they cite each other |
| Citations.PromptsCited | backend/app/services/detection_engine.py:139-149 | a finding of MFA fatigue cites as many denied prompts of one user as the threshold says, all within the window, its own among them; the last gets 7 points, the others 6 |
| Citations.LoginsCited | backend/app/services/detection_engine.py:306-319 | a finding of privilege escalation cites exactly the flagged logins that may have led to the action |
| Citations.NothingCited | backend/app/services/detection_engine.py:16-78 | every other finding cites nothing, and carries the rule and version of its flag |
| Reports.StoredFlagIff | backend/app/services/pipeline.py:139-173 | after a batch an event has the flags it had and those the run over its slice reports |
| Reports.FatigueStoredIff | backend/app/services/pipeline.py:139-173 | a batch leaves a user flagged for MFA fatigue exactly if it was before, or enough prompts of the slice fit in the window |
| Reports.EscalationStoredIff | backend/app/services/pipeline.py:139-173 | a batch leaves a privilege escalation on an event of its slice exactly if it had one, or the slice shows one |
| Reports.RunsKeepExact | backend/app/services/pipeline.py:123-188 | after any batches of distinct events, in any order of delivery, the flags of single events are exactly those each stored event shows |
| Reports.FatigueRunIff | backend/app/services/pipeline.py:80-173 | however a history is split into batches in time order, a user is flagged exactly if enough denied prompts of the whole history fit in the window |
| Reports.TravelRunIff | backend/app/services/pipeline.py:80-173 | and a login has the 30 points exactly if another login of that history has travelled to it |
| Pipeline.TelemetryStore.Process | backend/app/services/pipeline.py:123-188 | one batch takes the tables to the state given by persist, look back, detect, store new keys, recompute affected columns; a batch that repeats an id not stored yet changes nothing |
| Pipeline.TelemetryStore.Persist | backend/app/services/pipeline.py:130-138 | only events whose id is not stored are inserted and existing columns stay; the flush fails exactly when such an id occurs twice in the batch |
| Pipeline.FlushFailsIff | backend/app/services/pipeline.py:130-138 | the rows to insert violate the primary key exactly when the batch repeats an id that is not stored yet |
| Pipeline.TelemetryStore.StoreFindings | backend/app/services/pipeline.py:145-167 | findings whose key is not stored yet are appended, also when a key repeats within the run |
| Pipeline.TelemetryStore.Reannotate | backend/app/services/pipeline.py:168-188 | every event with a finding gets the flags and capped points of all its records, every other event keeps its columns |
| Ingestion.ProcessKeepsConsistent | backend/app/services/pipeline.py:168-173 | in every reachable state each event's flags and risk are those of its records, and every record belongs to a stored event |
| Columns.EventsShowFindings | backend/app/services/pipeline.py:168-188 | after any batches, repeated ones included, every stored event shows exactly the flags of its findings and the sum of their points, up to 100 |
| Columns.ContextIff | backend/app/services/pipeline.py:82-117 | a stored event is looked at with a batch exactly if it is at most the longest of the four windows older than the oldest of the batch, not newer than the newest, and shares a user, source address, host or named address with one of them |
| Columns.NormalizedAs | backend/app/services/pipeline.py:29-63 | the row stored for each kind of telemetry, field by field |
| Ingestion.ReprocessingChangesNothing | backend/app/services/pipeline.py:123-188 | processing the same batch twice in a row, even a refused one, leaves rows, records and columns as after the first time |
| Ingestion.RecordAppends | backend/app/services/pipeline.py:151-166 | the finding table only grows, a stored finding is never overwritten, and no key occurs twice |
| Incremental.IncrementalEqualsBatch | backend/app/services/pipeline.py:80-166 | for any split of a history into batches delivered in time order, the events stored with the 30-point travel finding are exactly those one run over the whole history flags as later login |
| Incremental.StepExactly | backend/app/services/pipeline.py:139-166 | in any delivery order, one batch flags an event exactly when it was flagged before, or has no travel record yet and conflicts with an earlier login of the context |
| Incremental.StoredFlagsAreGenuine | backend/app/services/pipeline.py:139-166 | in any delivery order a stored 30-point finding is about a login that does conflict with an earlier stored one |
| Incremental.FlaggedIff | backend/app/services/pipeline.py:139-166 | in any delivery order an event ends up with the 30-point finding exactly when some batch finds no travel record about it yet and a conflicting earlier login in its context |
| Incremental.LateDeliveryMisses | backend/app/services/pipeline.py:151-153 | if the earlier login of a pair arrives after the later one, in a batch wholly before it, that batch does not flag the later one although a single run does |
| Incremental.LaterBatchFlags | backend/app/services/pipeline.py:80-117 | a later batch that has both logins in its context flags the later one if it has no travel record yet |
| Queue.StepKeepsInv | backend/app/worker.py:32-77 | every step, crashes and failing calls included, keeps one live message per live job, one dead-letter record per dead-lettered job, and the attempt bound |
| QueueLaws.QueueSafety | backend/app/worker.py:26-83 | in every reachable state a job has at most one undelivered or running message, never both; a finished job has none; attempts do not exceed the maximum |
| QueueLaws.OneRowWritten | backend/app/worker.py:43-68 | a step changes at most the row it names, and never a job's tenant or key |
| QueueLaws.TerminalStatusChangesIff | backend/app/worker.py:52-68 | a committed terminal status changes exactly when the acknowledgement right after COMPLETED raises; no later delivery overwrites it |
| QueueLaws.CompletionCanBeUndone | backend/app/worker.py:55-68 | that step is possible after every completion |
| QueueLaws.OneJobPerKey | backend/app/platform_api.py:192-213 | in every reachable state a tenant's idempotency key names at most one job |
| QueueLaws.CleanBudget | backend/app/worker.py:43-46 | in a run without faults, deliveries plus remaining attempts never exceed what submissions have added |
| QueueLaws.DrainTerminates | backend/app/worker.py:26-83 | without faults the workers can take only a bounded number of steps |
| QueueLaws.StuckIsEmpty | backend/app/worker.py:32-36 | workers can stop only when nothing is undelivered and nobody holds a message |
| QueueCauses.DrainedQueue | backend/app/worker.py:26-83 | after a drained fault-free run the jobs whose enqueue failed were refused and never delivered; every other one is COMPLETED by its last and only successful delivery, or DEAD_LETTER after `max` deliveries that all failed; stream and pending list are empty, and the dead letters match |
| QueueCauses.StatusByRun | backend/app/worker.py:43-68 | in any run, faults included, the status of a job is that of the last thing that happened to it, and its attempts are the deliveries begun |
| QueueCauses.EndsHaveCauses | backend/app/platform_api.py:192-232 | in any run a job was submitted by its tenant under its key; it is QUEUE_UNAVAILABLE exactly if its own enqueue failed, and then never delivered; a COMPLETED one has had a successful delivery; a DEAD_LETTER one has used all its attempts and failed last |
| QueueCauses.OldestFirst | backend/app/worker.py:32-34 | in every reachable state a worker is given the ten oldest undelivered messages, or all if there are fewer |
| QueueCauses.PendingIs | backend/app/worker.py:32-77 | a delivered message stays pending, whatever crashes and fails, until the worker that holds it acknowledges it, and becomes pending only by being delivered |
| QueueLaws.LostIff | backend/app/worker.py:36-77 | a job's only message is lost exactly by a crash of the submission or of the worker that holds it |
| QueueLaws.LostForEver | backend/app/worker.py:32-34 | once it is lost, no step of any continuation delivers it or writes the job's row again |
| QueueLaws.DrainedAfterFaultsIff | backend/app/worker.py:26-83 | after any crashes and failures, a fault-free drain ends exactly the jobs whose message was not lost, and buries exactly the dead-lettered ones whose record was not lost |
| QueueLaws.FailedBeginCountsNothing | backend/app/worker.py:43-46 | if the PROCESSING commit raises, the message comes back with no attempt counted and the same steps can follow again |
| Consumer.DistinctJobs | backend/app/worker.py:35-42 | the messages in a worker's hands belong to distinct existing jobs, so the missing-job branch is not taken |
| Consumer.IngestionWorker.ReadBatch | backend/app/worker.py:32-34 | up to ten messages move from the stream to the pending list, as one step of the machine |
| Consumer.IngestionWorker.HandleMessage | backend/app/worker.py:36-76 | a processed message completes its job; a failed one goes back on the stream or to the dead letters according to its attempts; either way it is acknowledged |
| Consumer.IngestionWorker.RunOnce | backend/app/worker.py:26-83 | one call is a fault-free run of the step machine that settles each job of the batch once, in order, and leaves nothing pending |
| Consumer.SettledRows | backend/app/worker.py:35-77 | a batch changes only the rows of its own jobs, and each of them once |
| Breaker.CallsOfOperation | backend/app/connectors.py:80-116 | an operation sends at most three requests, exactly three when it is exhausted, none while the circuit is open, and its outcome is that of the last one |
| Breaker.OperationMeaning | backend/app/connectors.py:80-116 | how many requests an operation sends and what comes of it, told from the replies: five statuses and network errors are tried again, other statuses from 400 on are rejected, and those below are accepted |
| Breaker.RefusedIff | backend/app/connectors.py:81-121 | after any run an operation is refused at a time exactly if, less than 30 s before, an operation was exhausted that was not the first since the last success |
| Breaker.CounterMeaning | backend/app/connectors.py:104-121 | the failure counter is the number of exhausted operations since the last success |
| Breaker.FailuresAreSpaced | backend/app/connectors.py:81-84 | until a success, exhausted operations from the second on end at least 30 s apart, whatever is rejected in between |
| Breaker.CallBound | backend/app/connectors.py:80-121 | while every operation fails, at most 3 * (2 + floor((T - t2) / 30 s)) requests are sent by time T, t2 being the end of the second failure |
| Connector.Auth0IdentityConnector.Send | backend/app/connectors.py:80-116 | the retry loop is the breaker's operation; its missing-response branch is unreachable |
| Connector.Auth0IdentityConnector.AccessToken | backend/app/connectors.py:123-145 | a cached token is used while it lasts without any request; otherwise a grant is requested only with credentials, and only an accepted grant changes the cache; one with an unreadable lifetime leaves its token but not an expiry |
| Connector.TokenOutlivesUseIff | backend/app/connectors.py:144 | a cached token is never used beyond its grant exactly when the grant is for at least 30 s |
| Connector.StripMeaning | backend/app/connectors.py:74-75 | stripping a subject takes off just the blanks at both ends |
| Connector.Auth0IdentityConnector.Execute | backend/app/connectors.py:74-178 | the address is the override, or else the stripped lower-case subject; nothing is sent for another action, an address off the allowlist or a dry run; otherwise at most nine requests in order, every lookup for that address, and only the one user the provider named for it is ever blocked, with the current token; success exactly when the last request was that block and its status below 400, and always when the provider answers at once |
| Playbook.RecommendationsFollowType | backend/app/services/playbook_engine.py:57-89 | playbook selection and type inference agree on every flag set, so the recommended actions depend on the type alone |
| Playbook.MoreFlagsRankHigher | backend/app/services/correlation_engine.py:108-148 | more flags never make the type less specific |
| Playbook.ContainedIff | backend/app/services/playbook_engine.py:92-109 | the progress counts agree exactly when a playbook applies and executed actions cover all its required objectives |
| Playbook.ContainmentNeedsHighImpact | backend/app/services/playbook_engine.py:13-54 | containment always includes an executed action worth at least 12 points |
| Playbook.LowImpactCompletesIff | backend/app/services/playbook_engine.py:13-109 | whatever the flags and the order of executions, the completing action is worth less than 12 points exactly if it kills the process on an endpoint incident or resets the password on a credential incident |
| Playbook.LowImpactCanCompleteIff | backend/app/services/playbook_engine.py:13-109 | such a completion exists exactly for endpoint and credential incidents |
| Playbook.Playbooks | backend/app/services/playbook_engine.py:1-54 | the three playbooks, action by action, with the objectives and the reduction of each of the ten actions |
| Playbook.TypeIff | backend/app/services/correlation_engine.py:108-148 | which flags make which incident type |
| Playbook.MitigatedIff | backend/app/services/playbook_engine.py:92-109 | objectives are met exactly if the playbook of the flags applies and executed actions provide both objectives it requires, named outright |
| Playbook.ExecutingOne | backend/app/services/playbook_engine.py:95-119 | executing a pending action adds exactly its objectives and its reduction to those of the executed actions |
| Playbook.ResidualFalls | backend/app/services/playbook_engine.py:112-119 | executing a pending action takes exactly its points off the residual risk, down to 0 |
| Playbook.CarryRestores | backend/app/services/correlation_engine.py:290-304 | enrichment without reclassification keeps every recommended action as it was |
| Risk.AssetImpact | backend/app/services/risk_engine.py:17-32 | the loop's score is 20 if any event is critical, else 15 if any is privileged, else 0 |
| Risk.CalculateRisk | backend/app/services/risk_engine.py:35-50 | the score is the sum of its parts and at most 100; the overflow branch is unreachable |
| Risk.RiskMonotone | backend/app/services/risk_engine.py:35-50 | more findings about more events never lower the risk |
| Risk.BreakdownPermuted | backend/app/services/risk_engine.py:35-50 | no part of the score depends on the order of findings or events |
| Risk.RiskIs | backend/app/services/risk_engine.py:1-50 | the parts outright: at most 12 points of each finding up to 40, 20 or 15 for the evidence, 7 for each of five behavioural flags up to 20, and 20 for threat intelligence |
| IncidentLaws.GroupFindingsAreAll | backend/app/services/correlation_engine.py:209-216 | collecting a group's findings event by event yields the findings one query yields |
| IncidentLaws.IngestKeepsIncident | backend/app/services/correlation_engine.py:259-280 | new telemetry keeps every incident's derived state, and the risk of its current evidence stays at or above the stored one |
| Matching.PrincipalIs | backend/app/services/correlation_engine.py:220-222 | a group is named after its most common user, or after its most common host if no event has a user |
| Matching.FingerprintIff | backend/app/services/correlation_engine.py:151-155 | without collisions two groups ask for the same fingerprint exactly if tenant, type, principal and the stretch of the incident span they start in agree |
| Matching.AbsorbIs | backend/app/services/correlation_engine.py:211-250 | a group with fewer than two signals is skipped, an anonymous one raises an exception, and any other goes to the first open incident of its tenant with its fingerprint, else to the first with one of its events, else becomes a new one unless its fingerprint clashes |
| Evidence.ReachableTells | backend/app/services/correlation_engine.py:252-262 | in every reachable state each incident lists stored events of its tenant, each once and in time order, and its user and host are those met most often among them |
| Evidence.CreatedFingerprint | backend/app/services/correlation_engine.py:355-360 | a new incident takes the fingerprint its group asks for, or the second digest if a row of its tenant has that one; it is NEW, unassigned and not triaged |
| Evidence.EnrichedFingerprint | backend/app/services/correlation_engine.py:312-325 | an enriched incident takes the fingerprint of its whole evidence unless another row of its tenant has it, and then keeps its own; status, assignment and triage stay |
| Evidence.EnrichedHistory | backend/app/services/correlation_engine.py:306-353 | an enrichment adds a history row exactly if risk, residual risk or type has changed or an event is new |
| Absorption.LeaderIsMode | backend/app/services/correlation_engine.py:222 | the principal is a most frequent value and the first met among equals |
| Absorption.IndexErrorIff | backend/app/services/correlation_engine.py:217-222 | correlating a group raises an index error exactly when it has two distinct flags and no event names a user or a host |
| Absorption.AbsorbEffect | backend/app/services/correlation_engine.py:211-399 | a group either enriches one open incident of its tenant, changing no other, or creates a NEW incident whose evidence no open incident of the tenant holds |
| Absorption.AbsorbKeepsEvidence | backend/app/services/correlation_engine.py:211-399 | the derived state of all incidents survives every group, and old incidents stay as they are or grow |
| Transactions.BatchEffect | backend/app/services/correlation_engine.py:208-400 | a committed batch keeps all incident invariants, unique fingerprints and ids included; its old incidents are as before or were open and have grown, its new ones are NEW |
| Sessions.EnrichClashesIff | backend/app/services/correlation_engine.py:312-321 | an enrichment leaves two equal fingerprints pending exactly when the one it asks for is in no other row of the tenant but in the memory of another incident |
| Sessions.ClashIff | backend/app/services/correlation_engine.py:355-390 | a group violates the unique fingerprint exactly when no open row matches and either two pending fingerprints are equal already or the one it gets, possibly rehashed, is held in memory |
| Sessions.FirstGroupClashIff | backend/app/services/correlation_engine.py:355-390 | the first group of a batch does so exactly when both its fingerprint and its rehash are taken |
| Sessions.FlushOrderIrrelevant | backend/app/database.py:14 | a flush succeeds exactly when the fingerprints in memory differ, in whatever order it updates the rows |
| Transactions.BatchKeepsApart | backend/app/services/correlation_engine.py:312-321 | between the groups of a batch no pending fingerprint is another row's, as that requires |
| Sessions.PipeFreeTenantsSeparated | backend/app/services/correlation_engine.py:151-155 | if the digest does not collide, tenants without the separator in their names share no hash value |
| Transactions.PendingFingerprintClash | backend/app/services/correlation_engine.py:225-233 | a batch aborts when one group gives an incident a new fingerprint and another asks for the same without sharing evidence |
| Transactions.SplitBatchCommits | backend/app/services/correlation_engine.py:225-233 | in two batches the same two groups both enrich that incident |
| Transactions.ThirdIncidentAborts | backend/app/services/correlation_engine.py:355-390 | a group made into an incident and resolved twice aborts its batch the third time |
| Transactions.TwoRoundsIff | backend/app/services/correlation_engine.py:355-390 | the two rounds before that happen exactly when neither the fingerprint nor its rehash is taken and the two differ |
| Aborts.OneGroupAbortsIff | backend/app/services/correlation_engine.py:208-400 | a batch of one group aborts exactly when the group has two flags and either nobody to name it after, or no open match and both fingerprints taken |
| Aborts.TwoGroupsAbortIff | backend/app/services/correlation_engine.py:208-400 | a batch of two groups of a tenant aborts exactly if the first does alone, or the second does on what the first leaves: the tables as they were, one more incident, or one enriched incident whose new fingerprint the lookups do not see |
| IncidentRuns.AbortRepeats | backend/app/services/correlation_engine.py:355-390 | from then on every batch that starts with the group aborts, in any later state, while it asks for that fingerprint and no open incident matches |
| Absorption.ReenrichWritesHistoryIff | backend/app/services/correlation_engine.py:306-353 | enriching an incident with events it already has writes a history row exactly when its current findings score or classify it differently |
| Absorption.EnrichKeepsRiskIff | backend/app/services/correlation_engine.py:329 | enrichment keeps the risk score exactly when detection points are capped or unchanged, no impact class is new, no further behavioural flag counts and threat intelligence does not speak for the first time; otherwise it rises |
| Absorption.NewThreatRaisesRisk | backend/app/services/correlation_engine.py:248-329 | a group whose event brings the first threat-intelligence finding raises the stored risk by at least 20 |
| Correlator.IncidentStore.Locate | backend/app/services/correlation_engine.py:225-246 | the open incident with the fingerprint in the table is found first, else the first open one whose evidence in memory meets the group's |
| Correlator.IncidentStore.CreateOrUpdate | backend/app/services/correlation_engine.py:208-400 | all connected groups are absorbed in order and committed, incidents only growing, or the tables are as before |
| Batches.BatchIsStep | backend/app/services/pipeline.py:119-228 | a batch of one tenant among others, with the groups the search emits for its candidate query, is one step of the incident machine: it commits what the pipeline has stored together with its incidents, or changes nothing |
| Batches.CandidateGroups | backend/app/services/pipeline.py:189-226 | the groups emitted for the flagged events around a batch are groups of stored events of the tenant |
| Batches.CandidatesIff | backend/app/services/pipeline.py:189-204 | exactly those stored events of the tenant are correlated that lie at most the correlation window from the span of the batch and have a finding that scores |
| Batches.EmittedInTimeOrder | backend/app/services/correlation_engine.py:93-105 | the groups of a batch are in time order, as `Evidence.ReachableTells` asks |
| Batches.OtherTenantsKept | backend/app/services/pipeline.py:80-117 | what a batch stores leaves the rows and findings of every other tenant as they were |
| Handlers.ResponseDesk.RequestApproval | backend/app/platform_api.py:86-126 | a pending approval is reused, otherwise one is added; an unknown incident is refused |
| Handlers.ResponseDesk.Approve | backend/app/platform_api.py:129-161 | only a pending approval of the tenant can be approved, by somebody else, once, and not while another approval of the slot stands |
| Handlers.ResponseDesk.RequireApproval | backend/app/services/response_actions.py:95-120 | a high-impact action needs the approved row of its slot; a stale one is marked expired unless that violates the unique constraint |
| Handlers.ResponseDesk.Execute | backend/app/services/response_actions.py:35-93 | every answer of the handler with the state it leaves, and the invariants kept |
| Handlers.ResponseDesk.UpdateIncident | backend/app/main.py:357-397 | CONTAINED cannot be assigned, only listed transitions or the same status are accepted, and the triage time is set once |
| Answers.RequestAnswers | backend/app/platform_api.py:86-126 | a request is refused exactly for an incident the tenant does not have, and adds a row exactly if none waits for the slot |
| Answers.ApproveAnswers | backend/app/platform_api.py:129-161 | each answer exactly: not found for a row of another tenant, refused for the requester or a decided row, violated if another approval of the slot stands; only an accepted one changes anything, the named row |
| Answers.UpdateAnswers | backend/app/main.py:357-397 | only an incident of the caller's tenant changes, exactly if its status allows, and what changes |
| Answers.ExecuteRefuses | backend/app/services/response_actions.py:35-47 | nothing happens without such an incident of the tenant, such an action in any case of letters, or one that waits |
| Answers.NobodyApproved | backend/app/services/response_actions.py:95-112 | an action of 12 points or more is refused while no approval of its slot stands |
| Answers.LapsedAnswers | backend/app/services/response_actions.py:113-119 | an approval older than its time to live is marked expired, or aborts if the slot has an expired one already |
| Answers.InForceAnswers | backend/app/services/response_actions.py:95-159 | one in force lets the action through unless an approval of the slot was used before; the connector is asked exactly if the slot was never executed |
| Answers.LowAnswers | backend/app/services/response_actions.py:95-159 | an action below 12 points, or without authentication, needs no approval |
| Writes.AcceptedWrites | backend/app/services/response_actions.py:46-93 | an accepted execution, column by column: the action, the residual risk less its points down to 0, CONTAINED exactly when the objectives of the current flags are provided, history, audit, the used approval, and one connector call and row for a slot never executed before; nothing else changes |
| Writes.ReachableResidual | backend/app/services/playbook_engine.py:112-119 | in every reachable state the residual risk is the risk less the points of the executed actions, down to 0, and the whole risk while nothing has been executed |
| Writes.EnrichedResidual | backend/app/services/correlation_engine.py:290-331 | after an enrichment the points of the actions executed before come off the new risk, unless the type has changed; then nothing does |
| Tenants.TenantsApart | backend/app/platform_api.py:86-161 | a run without a step of the tenant leaves its incidents, approvals, executions and audit rows as they are and adds none |
| Tenants.OwnTenantDecides | backend/app/platform_api.py:129-161 | over any run every approval was asked for by its requester, and one that no longer waits was decided afterwards by a second user of the tenant of the approval |
| Workflow.KeyInjective | backend/app/services/response_actions.py:123 | an idempotency key determines tenant, incident and action, even if tenants contain the separator |
| Workflow.StepKeepsInv | backend/app/services/response_actions.py:35-159 | every handler and every batch keeps all incident and response invariants |
| WorkflowLaws.TwoPersonRule | backend/app/services/response_actions.py:46-65 | every committed high-impact execution has used up one approval of its slot, granted by another person and still within the time to live when it was checked, before the connector call |
| WorkflowLaws.ExecutedOnce | backend/app/models.py:141-148 | no approval serves two executions and no high-impact slot is executed twice, reclassification or not |
| WorkflowLaws.OneSuccessfulCall | backend/app/services/response_actions.py:122-159 | over a whole run each key has exactly one successful connector call if it is recorded, else none |
| WorkflowLaws.FailuresLeaveNoTrace | backend/app/services/response_actions.py:66-81 | a connector error changes no table, and a constraint abort never follows a successful call |
| WorkflowLaws.SecondExpiryBlocksForever | backend/app/services/response_actions.py:114-119 | once a slot has an expired row and a stale approved one, no continuation of the run executes it |
| WorkflowLaws.LapsingAgainGetsStuck | backend/app/services/response_actions.py:114-119 | after one expiry, a new approval that lapses as well leads to that situation |
| WorkflowLaws.UsedBlocksForever | backend/app/models.py:141-148 | once the slot's approval has been used, no continuation executes it again, even if a change of type makes its action pending anew |
| Continuations.ExecutableIff | backend/app/services/response_actions.py:95-120 | some continuation executes a pending high-impact action exactly when its slot has neither a used approval nor a stale one beside an expired one |
| IncidentRuns.ReachableIncident | backend/app/services/correlation_engine.py:279-400 | in every reachable state each incident's parts add up to its risk, 0 <= residual <= risk <= 100, the severity is that of the risk, the actions are those of its type, and current evidence scores at least as much; `Writes.ReachableResidual` says what the residual is |
| IncidentRuns.RunAdvances | backend/app/services/correlation_engine.py:248-304 | over any run evidence and risk grow, the type becomes only more specific, NEW is not re-entered, the time of triage is set once, and executed actions are lost only with a change of type |
| History.HistoryShowsCurrentRisk | backend/app/services/correlation_engine.py:343-399 | in every reachable state the last history row of an incident shows its current risk and residual |
| IncidentRuns.AtMostThreeReclassifications | backend/app/services/correlation_engine.py:108-148 | an incident is reclassified at most three times in any run, several groups of one batch included |
| IncidentRuns.RiskChangesOnlyByEnrichment | backend/app/services/correlation_engine.py:329 | the risk score changes only when an open incident is enriched, and then it rises |
| IncidentRuns.ContainedOnlyByResponse | backend/app/services/response_actions.py:55-59 | CONTAINED is entered only by an execution after which all objectives required for the current flags are covered |
| IncidentRuns.ClosedForEver | backend/app/services/correlation_engine.py:225-246 | an incident that is CONTAINED or RESOLVED is never open again, and correlation never touches its evidence, risk or type |
| Continuations.ResolvedBecomesContainedIff | backend/app/services/response_actions.py:55-59 | an accepted execution on a RESOLVED incident makes it CONTAINED exactly when the objectives covered before and those of the executed action include all required ones |
| Continuations.ResolvedThenContained | backend/app/services/response_actions.py:55-59 | a new endpoint incident is investigated by isolating the host, resolved, and then contained by killing the process |
| Scenarios.EndpointReached | backend/app/services/pipeline.py:119-228 | suspicious PowerShell and access to the credential store by one user on one host within 15 minutes, as the first batch, lead through detection, the candidate query and the group search to such an incident |
| Scenarios.ThirdEndpointAborts | backend/app/services/correlation_engine.py:355-390 | the group of such a pair is made an incident and resolved twice, and aborts its batch the third time |
| Scenarios.AnonymousTransfersAbort | backend/app/services/correlation_engine.py:217-222 | two large transfers to a malicious address without user or host raise the index error as the first batch, which stores nothing |
| LateLogins.LateLoginsAbort | backend/app/services/correlation_engine.py:225-233 | a suspicious incident is open; four late logins of its user form two groups over an hour apart in one fingerprint bucket, the first of which turns it into a credential compromise; the batch aborts and stores nothing |
| LateLogins.LateSplitCommits | backend/app/services/correlation_engine.py:225-233 | on the same tables the two groups, correlated in two batches, both enrich the incident |
| Base.LessIff | backend/app/platform_api.py:451-455 | ids are ordered character by character, a proper prefix first |
| Pagination.QueryContinues | backend/app/platform_api.py:451-455 | asking again after the k-th answer returns exactly the remaining answers |
| Pagination.WalkReturnsTenantEvents | backend/app/platform_api.py:444-469 | following the cursor from the start returns every event of the tenant once, in id order, and nothing else |
| Pagination.PageIs | backend/app/platform_api.py:444-469 | a page lists events of the tenant behind the cursor in id order; it leaves one out only if it is full, of the wanted size between 1 and 500, and then the next cursor is its last id, before all that are left out |
| Pagination.WalkPages | backend/app/platform_api.py:444-469 | a walk has max(1, ceil(n / size)) pages, the size being the limit brought between 1 and 500 |

## Left out

- Pipeline.TelemetryStore.Process: the 1000-row limits of the context and candidate queries are not modelled; the claims hold for histories within them.
- Pipeline.TelemetryStore.Process: whether stored text mentions a destination address (the LIKE clause) is a parameter, because the JSON text is not modelled.
- Groups.CohesionPermuted: cohesion is an exact rational; floating-point rounding of the mean is not modelled.
- Correlator.IncidentStore.CreateOrUpdate: rows without an ORDER BY are taken in insertion order, which the database does not promise.
- Sessions.ClashIff: assumes that tenants share no hash value; `Sessions.PipeFreeTenantsSeparated` derives it for a digest without collisions and tenants without the separator. Truncated SHA-256 values are otherwise uninterpreted.
- Sessions.FlushOrderIrrelevant: a flush updates rows before it inserts the new one, as the object-relational mapper does.
- Consumer.IngestionWorker.RunOnce: describes calls without faults; crashes, failing commits and failing acknowledgements are steps of `Queue` and covered by its invariants.
- Queue.StepKeepsInv: an XADD that raises after it was applied is not a step.
- QueueLaws.TerminalStatusChangesIff: does not cover the API's own handler with the message already on the stream: if its XADD raises after it was applied, or the commit of the stream id after the XADD raises, the handler writes QUEUE_UNAVAILABLE and can overwrite a worker's COMPLETED (`backend/app/platform_api.py:214-232`).
- Handlers.ResponseDesk.Execute: one handler is one serialisable transaction; interleavings inside it, and connector calls outliving a failed database connection, are not modelled.
- Connector.Auth0IdentityConnector.Send: operations do not overlap; the counters are not protected against concurrent requests in the code either. Back-off times are part of the given clock readings.
- Case mapping and stripping are ASCII; the database order of ids is by code point.
- Event ids are unique per deployment; an id reused by another tenant is not modelled.
- A settings value of zero or less for the span limit is excluded, since the fingerprint divides by it.
- Titles, descriptions, techniques, confidence, timestamps of rows, correlation graph rendering and metrics: derived text and numbers that nothing else reads.
- Rule catalogue life cycle, retention, seeding, scenario generation, evaluation, migrations, AI summaries, authentication, RBAC and the frontend.
- The fake and routed connectors: constant answers and a single dispatch.
