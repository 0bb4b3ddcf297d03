# Verified model of the incident-intervention protocol

KubeCouncil keeps one durable record per incident. Services and people advance that record by atomic store
operations: an alert consumer opens and extends it, a council of specialists investigates, a deterministic policy
validates one proposed change, a responder approves it, an executor performs it under an expiring lease against
Kubernetes, and a recovery verifier watches the outcome until it is stable. This project models that protocol and
proves what it promises, for every input and every interleaving of the modelled steps.

## How the project is organised

| files | what they model |
|---|---|
| `Incidents`, `ApprovalBinding`, `RecordOperations` | the domain values with their validators, the transition tables, the binding hashes, and every store operation as a checked function of one record |
| `RecordInvariants`, `Stabilization`, `RecordRuns` | what every operation and every run of operations keeps |
| `IncidentStores` | the in-memory store and the document store as classes, the refinement between them, and the event timeline |
| `WorkloadLeases`, `LeaseRuns` | the lease store as a class, and every interleaving on one lease document |
| `ProposalPolicy`, `PolicyEngine` | the policy as functions, and as the service that appends checks, dry-runs and records its decision |
| `IncidentApi` | the close endpoint |
| `InterventionQueue`, `Approvals` | the request builder and queue, and the review and decision service |
| `Protocol`, `ProtocolInvariants`, `ProtocolSteps`, `ProtocolSafety`, `ProtocolRuns` | executors, leases, the Kubernetes register and all other callers as one state machine, its invariant, and the theorems over all its runs |
| `ProtocolTrail`, `TrailSteps`, `TrailRuns` | the trail of deeds of a run, and what stands before every write, behind every outcome and at every exit |
| `Host` | the clock, the fresh identifiers and the raising calls of the process |
| `ExecutorRuns`, `FailureRuns`, `Executors`, `KubernetesProviders` | one delivery among harmless steps of others, succeeding or failing, the executor as a program whose every run is a run of the state machine, the provider contract and the fake that meets it |
| `RecoveryVerifier` | one recovery window, and the agreement of verifier and store |
| `Alerts`, `AlertJoins`, `AlertService` | alert ingestion with redelivery and crashes, which incident a signal joins over whole runs, and the service as a program |
| `EvidenceGateway`, `Council` | the query gateway and one specialist's bounded loop |
| `Rehearsal` | the rehearsal plan validator and what applying a valid plan does |

`RecordOperations.Apply` is the store's step relation. A store class method is proved equal to it; all other results
are about it. In `Protocol`, each executor has a program counter over the atomic operations of `consume`. Between any
two of them may come: any other executor's operation, a crash, a redelivery, the passing of time, a foreign write or
deletion in Kubernetes, foreign lease operations, and every store operation that other services perform. Every call of
`consume`, those of its safe halt, refusal and release included, may raise without an effect (the `fault` answer); a
patch request that lands without an answer is a reply of its own. `TrailRuns` names what the answering calls
established: `Deeds` is the sequence of authority passed, policy accepted, leases renewed, patches written, convergence
answers seen, outcomes recorded and halts lost, each with the shared state it happened in.

## Main results

- **Write ledger.** One approval causes at most one forward write and at most one restoration, and the recorded outcome
  fixes how many there were (`WriteLedger`). Every write was authorised and bounded where it landed, and a restoration
  asks for the replicas the first write had found (`EveryWriteAuthorised`).
- **Trail.** Before every write the same executor passed authority, then policy on that patch, then renewed a lease it
  still held (`EveryWriteIsBacked`); every recorded success, failure and rollback rests on the convergence answers that
  prove it (`EveryOutcomeIsBacked`).
- **Fail-stop.** A claimed `consume` that exits leaves a terminal Intervention exactly when neither call of its safe halt
  raised or another executor finished it (`ExitsAreTerminal`, `LostHaltLeavesItRunning`); the store never refuses the
  halt and records exactly it (`HaltNeverRefused`, `HaltIsRecorded`); the lease is given up exactly when the release does
  not raise (`ReleaseIsExact`); a delivery performs at most 34 operations (`DeliveriesAreShort`).
- **Staleness.** After evidence is added to a decided record no `consume` that has not passed its authority checks yet
  ever writes (`StaleConsumeNeverWrites`).
- **Completeness.** With current authority, the approved state, a free lease and healthy answers, a fresh or redelivered
  request writes once and leaves the incident monitoring, whatever harmless steps others take in between (`HappyPath`).
  When the action definitely failed, a scale whose failed state is still live is undone by one second write
  (`FailedScaleIsRestored`) and anything else is escalated without one (`FailedActionIsEscalated`). Each of these runs
  leaves exactly its audit events, in order.
- **Record.** Every run keeps the record valid, append-only and coupled (`RunKeepsHistory`, `CoupledStates`,
  `HeaderHistory`), progress is the exact length of the stable run (`ResolvedRuns`, `ResolvesExactlyWhenStable`), and
  the document store answers like the in-memory one (`DocumentStoreRefines`). A proposal, hypothesis or guidance in a
  record is that of the one accepted completion (`CompletionStores`, `RunCompletesOnce`).
- **Decision.** At most one decision, fresh in the state that stores it (`OneFreshDecision`), about exactly what was
  reviewed (`DecisionIsAboutTheReview`), and always publishable (`PublicationNeverFails`).
- **Policy.** When a decision passes (`PolicyVerdict`), which state it pins and why it was rejected (`DecisionsReport`),
  and what its patch says to the API server (`DecidedPatchContents`).
- **Recovery.** When a window can be verified, on whose evidence, and what every recorded check means (`WindowVerdict`,
  `WindowReports`); the store accepts what the verifier computed (`VerifierAndStoreAgree`).
- **Alerts and investigation.** `AcknowledgedExactlyOnce`, `EverySignalBelongs`, `StoredOnActiveExactly`; the exact
  condition and effect of `AlertIngestionService.Consume`, `EvidenceQueryGateway.Execute` and `RunSpecialist`.
- **Rehearsal.** A plan is valid exactly when its actions fit together and all pods it leads to fit the quota
  (`PlanVerdict`, `TotalsCountPods`), in any order (`VerdictIsOrderFree`), and applying it ends as validated exactly
  under the stated conditions (`AppliedAsValidated`).

## Where the code is weaker than its documentation

- `update_intervention` says it must terminate an Intervention but also accepts the state pending. `PendingUpdateAccepted`
  shows that this is accepted for every running Intervention and breaks the coupling of the state machines. The executor
  never sends it, so the other results assume its four terminal states.
- `compare_and_set` does not consult the transition tables. Respecting the tables would not be enough either:
  `LifecycleChangeKeepsCoupling` gives the exact lifecycle changes that keep the coupling. The two real callers, the
  council and the close endpoint, make only such changes.
- The lease key joins namespace, kind and name by a separator that names may contain, so two workloads of different
  namespaces can share a lease (`KeysCollide`). Among legal references this happens exactly between namespaces of which one
  is the other followed by `--deployment`, or by the separator and text that does not begin with a dash
  (`KeysCollideExactly`).
- A lease is acquired with the clock reading taken when `consume` started. With such stale readings the recorded
  validity intervals of two leases can overlap (`StaleClockOverlaps`). They are disjoint in grant order exactly when no
  granted reading is earlier than the end of an earlier grant (`RecordedIntervalsExactly`), so always with punctual
  readings (`RecordedIntervalsDisjoint`); real possession is never shared (`LeaseBelief`).
- Fail-stop does not cover an exception of the safe halt's own store calls: the Intervention then stays running
  (`LostHaltLeavesItRunning`, `ExitsAreTerminal`).
- The alert consumer looks for an active incident but appends without asking again, so a signal can land on an incident
  that another caller closed or resolved in between (`SignalLandsOnClosed`), and exactly then
  (`StoredOnActiveExactly`).
- The publisher runs after the decision is stored. When it raises, the approval stays unpublished and can never be decided
  again (`Decide`, `DecidedIsFinal`).
- A policy decision also fails when a rollback's target revision has an empty template (`PolicyVerdict`,
  `ShapeAcceptsBuiltPatches`).
- A crash right after an alert created its incident leaves an incident without signals that no later signal ever joins
  (`StrandedIsNeverJoined`); the redelivered alert opens another one.
- The executor fake derives the next resource version from the current one, so after a scheduled outside writer it can
  hand out a version that was used before (`ExternalVersionMayCollide`); it keeps the contract exactly when the derived
  version is new (`FakeLandsExactly`), and always while it alone hands out versions (`FakeMeetsContract`).
- The rehearsal client sets resource requests by a merge patch, which replaces the whole container list by one container
  without an image; the API server refuses it, so a valid plan that sets requests can never be applied
  (`ValidPlanNeverApplies`). A valid plan is applied exactly when it sets no requests, every autoscaler and ConfigMap it
  patches exists, and no autoscaler is refused a minimum of zero (`AppliedAsValidated`); the validator looks for none of
  this.

## Assumptions

- Hashes are injective: a hash is a constructor applied to the hashed material. Identifiers that the code derives from
  part of a hash, such as the first 24 characters of the idempotency key, are injective too. Uuids are fresh: they come
  from a counter.
- Store and lease transactions are atomic; one that raises had no effect. Dumping a record and reading it back
  loses nothing.
- In Kubernetes a resource version determines the whole state the policy reads, quota headroom included, and an accepted
  patch compares the version, yields a version never used before, raises the generation and sets the requested replicas.
- Time is an integer and does not run backwards. The wall clock that the store itself reads when it records a decision
  is a parameter of that operation. Success rates are real numbers.
- Identifiers of foreign callers' audit events are not uuids that will be handed out later.
- In ingestion runs other callers derive a header replacement by a legal transition from the header whose version they
  pass; the council and the close endpoint do (`CallersDeriveHeaders`).
- Of the rehearsal commands on objects that exist, the API server refuses only the resource patch and, where it does not
  allow it, an autoscaler minimum of zero; rollouts finish in time.
- Free text (messages, summaries, explanations, reasons, excerpts), model token counts and latencies are dropped; a
  rejection reason is the code of the failed check.

## Model

| member | source | states |
|---|---|---|
| ProtocolRuns.WriteLedger | backend/app/services/intervention_executor.py:63-451 | in every reachable state: at most one forward write and one restoration; succeeded or failed means exactly one forward write and no restoration; rolled back means one of each and only for a scale; no Intervention means no write |
| ProtocolRuns.EveryWriteAuthorised | backend/app/services/intervention_executor.py:179-224 | every landed write carries the one approved decision's patch and lands on the approved version, generation and revision, or is the second write and asks for exactly the replicas of the state the first one landed on; every scale stays inside the declared bounds and the headroom of the state it lands on |
| TrailRuns.TrailIsComplete | backend/app/services/intervention_executor.py:63-451 | in every run the writes in the trail of deeds are the write ledger, and the trail holds exactly the one recorded outcome or none |
| TrailRuns.EveryWriteIsBacked | backend/app/services/intervention_executor.py:129-231 | before every write of every run the same instance passed authority (approved, unexpired, proposal, evidence and policy hashes of the record, the reviewed patch), then policy accepted the live state and built this very patch, then a lease still held and unexpired was renewed; before a restoration a scale had landed and its convergence had definitely failed, and policy accepted the replicas that scale had started from |
| TrailRuns.EveryOutcomeIsBacked | backend/app/services/intervention_executor.py:236-451 | a recorded success rests on an earlier confirmed convergence from the state the own write landed on, a failure on a definite failure of it, a rollback on that failure, then a restoring write, then confirmed convergence back to the first replicas |
| TrailRuns.ExitsAreTerminal | backend/app/services/intervention_executor.py:278-311 | a `consume` that claimed and then exited without a crash leaves a terminal Intervention if and only if neither call of its safe halt raised, or another executor recorded the outcome |
| ExecutorRuns.LostHaltLeavesItRunning | backend/app/services/intervention_executor.py:476-506 | a run in which a call after the claim raises and the read of the safe halt raises too: the lease is released and the Intervention is still running |
| ProtocolRuns.ExitsAreSafe | backend/app/services/intervention_executor.py:278-311 | every exit without a crash gave its lease up or had lost it unless the release call itself raised, and left a claim settled unless its halt raised |
| ProtocolRuns.ReleaseIsExact | backend/app/services/intervention_executor.py:299-311 | after the release call the lease is gone if and only if the call did not raise or the lease was gone before |
| ProtocolRuns.HaltNeverRefused | backend/app/services/intervention_executor.py:476-506 | in every reachable state the store accepts the safe halt of a running Intervention, also after a concurrent close |
| ProtocolRuns.PublicationNeverFails | backend/app/services/approval.py:148-166 | in every reachable state after an approved decision its request can be built, and the decision is still the record's only one |
| ProtocolRuns.StaleConsumeNeverWrites | backend/app/services/intervention_executor.py:132-153 | once the decision no longer matches the record, no delivery that has not passed its checks, and no later delivery, ever writes |
| ProtocolRuns.DeliveriesAreShort | backend/app/services/intervention_executor.py:63-451 | in every run, whatever the answers and whoever interferes, at most 34 operations are performed for one delivery before it exits or crashes |
| ProtocolRuns.StepsAreNeverBlocked | backend/app/services/intervention_executor.py:136-145 | every guarded delivery has a recorded proposal at hand, so the side condition on its steps excludes nothing |
| ProtocolRuns.RunKeepsSystem | backend/app/services/intervention_executor.py:45-542 | the protocol invariant holds in every reachable state of the whole system |
| ExecutorRuns.HappyPath | backend/app/services/intervention_executor.py:63-311 | with current authority, the approved state, a free lease and healthy answers, a fresh or redelivered request succeeds whatever harmless steps others take before each of its fifteen operations (time, additions to the record's logs, the publisher, other leases, other Deployments), provided the renewal comes before the lease runs out: one write of the reviewed patch, incident monitoring, lease released, and the executor's six audit events in order |
| ExecutorRuns.DuplicateIsAnswered | backend/app/services/intervention_executor.py:75-89 | a redelivery of a finished request answers with the recorded Intervention, adds one audit event and changes nothing else |
| ExecutorRuns.HaltIsRecorded | backend/app/services/intervention_executor.py:476-506 | a safe halt whose calls answer records the Intervention and the outcome safe halted, adds one audit event, writes nothing and gives the lease up |
| FailureRuns.FailedScaleIsRestored | backend/app/services/intervention_executor.py:312-451 | from a held lease and one landed write, a scale that definitely failed, whose failed state is still live and whose undoing policy accepts, ends rolled back with the lease gone after eleven answering operations among harmless steps of others: the second write asks for the replicas the first had found, and four audit events tell it in order |
| FailureRuns.FailedActionIsEscalated | backend/app/services/intervention_executor.py:312-368 | a rollback or restart that definitely failed writes nothing more and ends failed after four answering operations, with the lease gone and two audit events |
| Executors.DeterministicInterventionExecutor.Consume | backend/app/services/intervention_executor.py:63-311 | every sequential run over the real store, leases and provider, any call of which may raise, is a run of the protocol from its start to its exit with exactly the answers its calls gave (each fault a call that raised, each dry-run, patch reply and convergence one the provider gave, in order), with the protocol's result, and it stops as the protocol does; an unknown incident changes nothing |
| Executors.DeterministicInterventionExecutor.Authorise | backend/app/services/intervention_executor.py:129-177 | re-checks and claim or resume follow the protocol: refusal before the claim, halt after it, also when a call raises |
| Executors.DeterministicInterventionExecutor.Mutate | backend/app/services/intervention_executor.py:223-235 | renewal, the single patch request and its audit event follow the protocol |
| Executors.DeterministicInterventionExecutor.Conclude | backend/app/services/intervention_executor.py:236-277 | convergence handling follows the protocol and ends in a result or a halt |
| Executors.DeterministicInterventionExecutor.RestoreFailedScale | backend/app/services/intervention_executor.py:370-451 | re-inspection, policy, renewal, one restoring write and its verification follow the protocol with the answers the calls gave, and end in the rolled-back Intervention or a halt |
| Executors.DeterministicInterventionExecutor.RecordSafeHalt | backend/app/services/intervention_executor.py:476-506 | halts the Intervention unless someone already finished it, or raises and says so |
| Executors.DeterministicInterventionExecutor.Release | backend/app/services/intervention_executor.py:299-311 | releases the own lease, reports that it is lost, or raises; the claim keeps what became of it |
| KubernetesProviders.FakeExecutorKubernetesProvider.ApplyDeploymentPatch | backend/app/services/intervention_executor.py:615-676 | compare-and-swap: lands exactly when the version matches and the patch is accepted, with the patched state; otherwise leaves what it met |
| KubernetesProviders.FakeExecutorKubernetesProvider.VerifyConvergence | backend/app/services/intervention_executor.py:678-700 | answers the next scripted status, or success, with the current state |
| KubernetesProviders.FakeLandsExactly | backend/app/services/intervention_executor.py:633-676 | on any register a patch the fake accepts lands as the provider contract says if and only if the derived version was not used before |
| KubernetesProviders.ExternalVersionMayCollide | backend/app/services/intervention_executor.py:617-636 | after a scheduled writer set the resource version alone, to one never used, the next derived version can be one used before |
| KubernetesProviders.FakeAppliesBuiltPatches | backend/app/services/intervention_executor.py:645-676 | a built scale or restart patch is applied and satisfies the action's convergence condition |
| KubernetesProviders.FakeAppliesRollbacks | backend/app/services/intervention_executor.py:637-644 | a built rollback patch is applied if and only if its template is labelled with a decimal revision, and converges if and only if that is the requested one |
| WorkloadLeases.WorkloadLeaseStore.Acquire | backend/app/services/workload_lease.py:122-153 | grants a lease exactly when none or an expired one is stored |
| WorkloadLeases.WorkloadLeaseStore.Renew | backend/app/services/workload_lease.py:155-173 | extends exactly a held, unexpired lease; errors leave the document |
| WorkloadLeases.WorkloadLeaseStore.Release | backend/app/services/workload_lease.py:175-184 | removes the own document or nothing; never another owner's |
| WorkloadLeases.KeysCollideExactly | backend/app/services/workload_lease.py:187-188 | some distinct workloads with legal names in two legal namespaces share a lease key if and only if one namespace is the other followed by `--deployment`, or by the separator and text that does not begin with a dash |
| LeaseRuns.LeaseBelief | backend/app/services/workload_lease.py:122-184 | in every run an unreleased lease that has not expired by its holder's last copy is still in the document, with no earlier expiry and no later grant; possession intervals are disjoint |
| LeaseRuns.RecordedIntervalsExactly | backend/app/services/workload_lease.py:122-184 | in every run the recorded validity intervals of distinct tokens are disjoint, in the order of their grants, if and only if every granted acquisition used a reading not earlier than the end of every grant before it |
| LeaseRuns.StaleClockOverlaps | backend/app/services/intervention_executor.py:75-114 | a run with a stale reading, as the executor takes it, whose recorded intervals overlap |
| RecordInvariants.ApplyPreservesValidity | backend/app/domain/incidents.py:1214-1306 | the whole record validator holds after every accepted operation, also after the appends that skip it |
| RecordInvariants.StepKeepsRecord | backend/app/domain/incident_fakes.py:426-880 | every service call only extends the record, moves the header only with its version, and keeps it valid and coupled |
| RecordRuns.RunKeepsHistory | backend/app/domain/incident_fakes.py:426-880 | over every run of service calls: append-only history, one version step per header change, valid and coupled records, exact progress, decisions bound to what they reviewed |
| RecordRuns.RunKeepsEntries | backend/app/domain/incident_fakes.py:426-535 | over every run of any operations: evidence lies inside the immutable window and nothing is recorded twice |
| RecordRuns.CoupledStates | backend/app/domain/incidents.py:492-601 | a running Intervention means mitigating or closed with outcome not started; monitoring, resolved and awaiting approval mean what they say; an Intervention means one approved decision, passed policy and proposal; each terminal state has its outcome |
| RecordRuns.HeaderHistory | backend/app/domain/incident_fakes.py:426-880 | versions grow by at most one per call, equal versions mean equal headers, and nothing leaves closed |
| RecordRuns.ResolvedRuns | backend/app/domain/incident_fakes.py:732-842 | every resolved record of a run rests on the required number of satisfied, adjacent, full-length, sufficiently trafficked windows of its succeeded Intervention |
| RecordRuns.FreshUntilEvidence | backend/app/domain/approval.py:71-90 | after a matching decision, matching lasts exactly until the evidence differs |
| RecordRuns.CompletionStores | backend/app/domain/incident_fakes.py:537-558 | a completion is accepted exactly for a not yet investigated, open or investigated incident whose output is about it, cites recorded evidence and targets an enrolled workload; it stores the output's hypotheses, proposal, guidance and outcome and changes nothing else but lifecycle and version |
| RecordRuns.RunCompletesOnce | backend/app/domain/incident_fakes.py:537-558 | over every run at most one completion is accepted, and the record's hypotheses, proposal, guidance and outcome are exactly those of that one output |
| RecordRuns.VersionedCalls | backend/app/domain/incident_fakes.py:583-880 | a decision, claim, assessment or header replacement is accepted against exactly the version it names and moves it on by one |
| RecordRuns.WindowsNeverOverlap | backend/app/domain/incident_fakes.py:732-842 | over every run the recovery windows of an Intervention follow each other and never overlap |
| RecordRuns.PendingUpdateAccepted | backend/app/domain/incident_fakes.py:696-706 | an update to pending is accepted for every running Intervention and breaks the coupling |
| RecordRuns.LifecycleChangeKeepsCoupling | backend/app/domain/incident_fakes.py:859-880 | which lifecycle changes allowed by the table keep the coupling, exactly |
| RecordRuns.CreatedRecordInvariant | backend/app/domain/incident_fakes.py:381-415 | a created record satisfies the invariant, is open at version zero, and its window is not empty and within the budget |
| Stabilization.ResolvesExactlyWhenStable | backend/app/domain/incident_fakes.py:795-842 | an accepted window resolves the incident if and only if it completes the required contiguous run |
| Stabilization.ProgressIsRunLength | backend/app/domain/incident_fakes.py:788-799 | the progress recomputed from the previous assessment alone is the length of the whole contiguous satisfied run |
| Stabilization.SyntheticWindowNeverCounts | backend/app/services/recovery_verifier.py:147-156 | a window below the minimum traffic is never satisfied and resets progress |
| IncidentStores.DocumentStoreRefines | backend/app/services/incident_store.py:313-331 | any sequence of calls gets the same answers from both stores, documents mirror records, and every document parses |
| IncidentStores.FirestoreIncidentStore.Mutate | backend/app/services/incident_store.py:313-331 | one transaction on a parsed document, through a fresh delegate, is the document step |
| IncidentStores.FirestoreIncidentStore.Create | backend/app/services/incident_store.py:173-177 | creates the document of a created record, never over an existing one |
| IncidentStores.InMemoryIncidentStore.Perform | backend/app/domain/incident_fakes.py:926-934 | an operation replaces the stored record exactly when its checks pass |
| IncidentStores.InMemoryIncidentStore.List | backend/app/domain/incident_fakes.py:420-424 | lists every incident once, latest opened first |
| IncidentStores.TimelineIsSuffix | backend/app/domain/incident_fakes.py:855-857 | with cursors 1..n the events after a cursor are the remaining suffix |
| IncidentStores.Poll | backend/app/api/incidents.py:451-463 | one poll sends exactly the unseen events and ends with the reader's new cursor |
| IncidentStores.Stream | backend/app/api/incidents.py:449-463 | over successive states of a growing record the stream sends each event after the start cursor once and in order |
| IncidentApi.IncidentsEndpoint.CloseIncident | backend/app/api/incidents.py:345-378 | closes from every lifecycle exactly under the current version, with one event, and changes nothing else; a refusal changes nothing |
| ProposalPolicy.PolicyVerdict | backend/app/services/proposal_policy.py:53-228 | passed exactly when scope, evidence, enrolment, target, action, live state and action checks hold, the template is not empty, and the dry-run accepts |
| ProposalPolicy.DecisionsAreValid | backend/app/domain/incidents.py:957-982 | every decision satisfies its own validator and pins the version its patch was built for |
| ProposalPolicy.DecidedPatchContents | backend/app/services/proposal_policy.py:294-362 | whatever was decided, the patch body is that of a Deployment with exactly the target's name and namespace and the inspected version, and its one change is the requested count, the template of the target revision, or the proposed token under the restart annotation; a pass always has a patch |
| ProposalPolicy.DecisionsReport | backend/app/services/proposal_policy.py:53-228 | every decision carries the inspected version, generation and revision and its time, begins with the preflight checks, and reports the first of its checks that failed |
| ProposalPolicy.EvidenceHashContents | backend/app/services/proposal_policy.py:35-39 | the evidence hash is that of all content hashes with their multiplicities, in whatever order |
| ProposalPolicy.ShapeAcceptsBuiltPatches | backend/app/services/proposal_policy.py:294-362 | the shape check accepts every built scale and restart patch, and a rollback patch exactly when its template is not empty |
| PolicyEngine.DeterministicProposalPolicy.EvaluateProposal | backend/app/services/proposal_policy.py:53-228 | the running service computes the specified decision and dry-runs its patch exactly once, exactly when the decision got past preflight and shape; the patch addresses the inspected target at its inspected version and asks for the proposed action only |
| PolicyEngine.DeterministicProposalPolicy.CollectPreflight | backend/app/services/proposal_policy.py:56-169 | the appended checks are the specified ones, in order, on the inspected state |
| PolicyEngine.DeterministicProposalPolicy.EvaluateAndRecord | backend/app/services/proposal_policy.py:230-261 | records a valid decision exactly when none is recorded and, for a pass, the incident is under investigation, and then appends the audit event of its verdict; a recorded pass means the proposal was acceptable on the inspected state; a refused decision or a missing proposal leaves the store unchanged |
| PolicyEngine.DecisionRecordedExactly | backend/app/domain/incident_fakes.py:560-581 | the store takes a decision on the recorded proposal exactly when none is recorded, and a passed one exactly while investigating |
| ApprovalBindings.BindingIsExact | backend/app/domain/approval.py:36-68 | two bindings are equal exactly when version, proposal, policy, window and evidence are |
| ApprovalBindings.MatchesExactly | backend/app/domain/approval.py:71-90 | an approval matches a record exactly when it is the one that a decision on a binding of this very record would record |
| InterventionQueues.BuiltRequestIsBound | backend/app/services/intervention_queue.py:22-70 | a request is built only for an approved, unexpired and matching approval, and carries its own hash, the reviewed patch, and the identifiers and the one key of that approval |
| InterventionQueues.InMemoryInterventionQueue.Publish | backend/app/services/intervention_queue.py:80-85 | a key is accepted again only for the identical message; nothing queued is lost |
| Approvals.OneFreshDecision | backend/app/domain/incident_fakes.py:583-616 | over every run at most one decision is recorded and it matches the very state that stores it |
| Approvals.DecisionIsAboutTheReview | backend/app/services/approval.py:88-146 | whatever happened between review, decision and store, the store accepts a decision only on exactly the reviewed version, proposal, policy, window and evidence |
| Approvals.LateEvidenceRefuses | backend/app/domain/incident_fakes.py:598-606 | evidence appended after the binding was checked makes the store refuse, though the version did not move |
| Approvals.ApprovalService.Review | backend/app/services/approval.py:42-72 | a review's binding is one that could be decided right away; it fails only when none could |
| Approvals.ApprovalService.CheckReview | backend/app/services/approval.py:83-110 | passes exactly for a decidable review |
| Approvals.ApprovalService.Decide | backend/app/services/approval.py:74-166 | for a review decidable at storing time one bound decision is stored unless the store raises, and an approved one is queued unless the publisher raises; in every other case neither store nor queue changes, and a call is reported to have raised exactly when one did |
| Approvals.DecidedIsFinal | backend/app/services/approval.py:74-90 | a stored decision can never be decided again in any later state, so an approval whose publication failed stays unpublished |
| RecoveryVerifier.VerifierAndStoreAgree | backend/app/services/recovery_verifier.py:44-246 | in every run, if the version has not moved since the read, what the verifier computed is a valid assessment and the store accepts it |
| RecoveryVerifier.EqualVersionsEqualAuthority | backend/app/domain/incident_fakes.py:583-842 | decisions, Interventions and assessments change only together with the version |
| RecoveryVerifier.WindowVerdict | backend/app/services/recovery_verifier.py:49-107 | a window can be verified exactly for a monitoring incident, after the last window, on an observation of the approved workload and declared journey, with the declared probe's result when traffic is short and the fallback applies; otherwise the reason names what failed |
| RecoveryVerifier.WindowReports | backend/app/services/recovery_verifier.py:109-216 | for satisfied and unsatisfied windows alike: what convergence, symptoms, traffic, availability, latency, evidence, probe use and successes record about the observation, and that the progress is the length of the contiguous satisfied run |
| RecoveryVerifier.SatisfiedWindow | backend/app/services/recovery_verifier.py:104-168 | a verified window observed the succeeded Intervention's workload and the declared journey, and is satisfied exactly when the deployment settled on the approved action, symptoms are gone, traffic suffices, and rate and latency hold against limits and baseline |
| RecoveryVerifier.DeterministicRecoveryVerifier.Assess | backend/app/services/recovery_verifier.py:49-216 | the running verifier computes the specified assessment or raises |
| RecoveryVerifier.DeterministicRecoveryVerifier.VerifyNextWindow | backend/app/services/recovery_verifier.py:44-246 | exactly for a verifiable window it observes the Intervention's target over that window, runs the probe exactly when one is due, records the reported assessment with one fitting audit event and resolves exactly on a completed stable run; otherwise it raises the fitting reason with the store untouched |
| Alerts.AcknowledgedExactlyOnce | backend/app/services/alerts.py:209-242 | under redelivery, crashes between any two store calls and other callers, every acknowledged notification is in exactly one incident, once, with one audit event |
| Alerts.CorrelationRule | backend/app/services/alerts.py:267-292 | a signal joins the latest opened incident among those that are unresolved, unclosed, inside the window and related, and only if one exists |
| Alerts.QualifiesExactly | backend/app/services/alerts.py:267-334 | an incident qualifies exactly when it is of the application, neither resolved nor closed, opened within the window, and some signal of it has the same provider incident, the same workload, or a workload that declares or is declared a dependency |
| AlertJoins.EverySignalBelongs | backend/app/services/alerts.py:267-334 | in every run each stored signal is of the incident's application, and each but the first lies within the window of the opening and shares a provider incident, a workload or a declared dependency with an earlier signal |
| AlertJoins.StoredOnActiveExactly | backend/app/services/alerts.py:209-292 | the append to the incident found is always accepted, and the incident is unresolved and unclosed there if and only if no other caller resolved or closed it since the lookup |
| AlertJoins.SignalLandsOnClosed | backend/app/domain/incident_fakes.py:452-465 | a close by another caller between lookup and append leaves the signal on a closed incident |
| Alerts.ClosureNeverCreates | backend/app/services/alerts.py:223-227 | the consumer creates an incident only for an open alert, never for a provider closure |
| Alerts.IngestionLeavesLifecycle | backend/app/services/alerts.py:209-323 | a consumer step never changes header, decision or Intervention of an existing incident |
| Alerts.StrandedIsNeverJoined | backend/app/services/alerts.py:223-238 | an incident without signals is never joined |
| AlertServices.AlertIngestionService.Consume | backend/app/services/alerts.py:209-242 | succeeds exactly for an enrolled target whose signal is stored already, joins an incident, or is open and may open one; then the incident is that one, the latest opened that qualifies, or a new one, with the signal as notified and at most one audit event added and nothing else changed; it acknowledges exactly on success and otherwise leaves the store as it was |
| AlertServices.AlertIngestionService.EnsureAudit | backend/app/services/alerts.py:294-323 | adds the audit event, of the type of the notification, unless the record just read has it |
| EvidenceGateway.EvidenceQueryGateway.Execute | backend/app/services/evidence_gateway.py:301-375 | rejects without a trace, for an unlisted mapping, a spent budget or a missing provider, or records one allowlisted query and then exactly one observation or one retrieval failure: the observation exactly when the last answer was timely and stayed inside source, kind, scope, window and size, with its content hash and time |
| EvidenceGateway.EvidenceQueryGateway.QueryProvider | backend/app/services/evidence_gateway.py:431-444 | asks again after retryable failures only, at most the allowed number of times, and returns the last answer unless it failed or came too late |
| EvidenceGateway.EvidenceQueryGateway.Retain | backend/app/services/evidence_gateway.py:446-479 | keeps an answer exactly when it stayed inside the mapping's source, kind and scope, the window and the size limit; what it keeps carries the answer's content hash and time and the query |
| Council.BoundedIncidentCouncil.RunSpecialist | backend/app/services/council.py:260-434 | for any model behaviour and any moves of the other specialists: at most three analyses, one invocation record each, tool calls equal to answered queries, at most two queries and never more than the budget; the last answer decides, success comes exactly with one fitting finding recorded, and a finding that does not fit aborts |
| Council.BoundedIncidentCouncil.Query | backend/app/services/council.py:311-380 | one query step records one invocation, and one query exactly when fewer than two rounds are over and the role's mapping, its provider and the budget allow it |
| Council.BoundedIncidentCouncil.Report | backend/app/services/council.py:412-434 | after its invocation a finding is recorded exactly when it is about this incident, the first of its identifier and specialist, and cites recorded evidence only; any other aborts and records none |
| Rehearsal.VerdictIsOrderFree | backend/app/agents/council.py:97-268 | permuting the actions never changes the verdict nor a valid plan's final allocation |
| Rehearsal.PlanVerdict | backend/app/agents/council.py:97-203 | valid exactly when every action is permitted on its service, no two set the same thing of one service, every service ends within its bounds, and the requests of all pods together fit the quota; infeasible exactly when declared so without actions |
| Rehearsal.ErrorsExactly | backend/app/agents/council.py:97-268 | the errors of a plan are exactly those whose statement is true of the plan and of the allocation it leads to |
| Rehearsal.ValidPlanAllocates | backend/app/agents/council.py:205-268 | a valid plan ends with every action's setting and with the profile's wherever no action sets anything |
| Rehearsal.TotalsCountPods | backend/app/agents/council.py:184-191 | both quota sums are the sums over one entry for each replica of each service |
| Rehearsal.OneServiceMovesTotals | backend/app/agents/council.py:184-191 | changing one service's replicas and requests moves both sums by its replicas times its requests, after minus before |
| Rehearsal.NoReplicasNoTotals | backend/app/agents/council.py:184-191 | without replicas both sums are zero |
| Rehearsal.LastProfileCounts | backend/app/agents/council.py:106 | of two profiles with one name the last counts |
| Rehearsal.DependencyLoopIsImplied | backend/app/agents/council.py:171-182 | the critical-dependency loop finds nothing the bounds loop has not refused |
| Rehearsal.AppliedAsValidated | backend/app/kubernetes/client.py:119-166 | applying a valid plan action by action to the matching cluster ends in the validated allocation if and only if no action sets resource requests, every autoscaler and ConfigMap an action patches exists, and no autoscaler is refused a minimum of zero |
| Rehearsal.ValidPlanNeverApplies | backend/app/kubernetes/client.py:275-317 | a valid plan with a single resource-request action is refused by every cluster |
| Rehearsal.CouncilPlanValidator.Validate | backend/app/agents/council.py:97-203 | the loops compute the specified verdict and, for a feasible plan, all its errors in order |

## Left out

- ExecutorRuns.HappyPath: the harmless steps in between do not include redeliveries of the same request, which only add audit events while the lease is held.
- FailureRuns.FailedScaleIsRestored: the same harmless steps as for success.
- AlertServices.AlertIngestionService.Consume: one consumer running alone; crashes and other callers are covered by the step machine.
- Executors.DeterministicInterventionExecutor.Consume: the store is an attribute of the executor, and what other parties do during the run is covered by the state machine.
- A store or lease transaction whose effect happened but whose answer was lost: after such a claim the executor would refuse instead of halting.
- A release that raises the very error with which the lease store refuses would be reported as a lost lease.
- Firestore transaction retries and snapshots, Pub/Sub delivery, the live Kubernetes, logging, monitoring and model adapters: only their contracts remain.
- Live convergence polling and rollback revision overrides: any convergence answer is possible instead.
- The figures an assessment repeats next to its verdicts (generations, replica counts, rates, latencies) and its explanation.
- Redaction, excerpts, truncation and log-line limits of evidence content; only the item limit of other evidence is kept.
- Enrolment checking, profile loading and identity: a readiness answer, a profile and a role.
- The coordinator, and the start and end of `investigate` beyond the store operations they use.
- Python's integer parsing of a revision label accepts signs, blanks and underscores; the fake's model accepts digits only.
- Rolling rehearsal workloads back, which sends the same refused resource patch.
- The default resource quota, the repair loop and the audit of rehearsal plans; warnings, which the validator never emits.
- Routes, readiness, frontend, demo target, overlay writing, pull requests, bootstrap and the wire format of server-sent events (section 9.2 of the WHATWG HTML standard).
