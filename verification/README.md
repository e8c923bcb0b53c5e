# KubePilot: a verified model of its incident workflow

KubePilot diagnoses Kubernetes incidents with a language model in the loop and repairs them with a
small set of registered actions. This project models the parts of it where the outcome is decided by
code rather than by the model's answers, and proves what that code guarantees whatever the model, the
tools, the cluster, Redis or the operator answer.

`dafny verify dfyconfig.toml` checks the whole project.

## What is modelled

**The workflow as one step machine.** `Domain` and `WorkflowSpec` hold the values and say what every
node of the supervisor graph and of the Brain sub-graph does to the state; `WorkflowGraph` adds nodes,
edges, branches and what each tool may answer; `Workflow` is the same state as one object whose fields
the node methods update, each method proved against its function. A run is the machine driven by any
admissible inputs. Over all runs:

- `BrainLoop`, `WorkflowTermination`: one stay in the Brain with T turns visits fewer than 12T + 16
  nodes (at most 11T + 3 before the last one), and the whole attempt, replanning and failed recoveries
  included, ends inside both step limits of the graph engine.
- `BrainBudgets`: turns, tool calls, corrections and reflection costs stay inside their limits and match
  what is recorded; once the tool budget is spent no later turn adds hypotheses, groundings, belief
  changes or a recovery plan.
- `BeliefLedger`, `CurrentBeliefs`: revisions keep their identity, confidence moves only at the commit node
  and as its changes say, and a supported hypothesis was always validated on the evidence the run holds.
- `RecoveryEligibility`: a recovery is proposed exactly when the diagnosis is grounded, separated from every
  rival and of one version with its plan.
- `RecoveryChain`, `WorkflowSafety`: a mutation that passes the executor's checks is the one that was dry-run, and
  plan, diagnosis, evidence snapshot, code snapshot, dry run and a fresh approval form one version
  chain; the executor runs at most once in an attempt.
- `AfterExecution`, `VerificationRounds`: what happens after the mutation, when it counts as resolved, and when
  a failed recovery is still finalized.
- `NodeOutcomes`: what single nodes decide, and what no node undoes.
- `ConcreteRuns`: runs from the start of an attempt, turn by turn, that reach the failing cases.

**Two at-most-once protocols.** `GuardedAction` is the guarded Kubernetes mutation, first one call with
every answer as an input, then any number of workers that crash, resume, lose replies and outlive their
claims. `ParseOnce` is the Drain3 sidecar's request cache together with the client that resends a batch.

**Graph algorithms.** `SkillGraph` (cycle check, topological order, dependency closure),
`SkillResolution` (choosing the Skills of a turn under a budget), `CausalModel` and `CausalPath` (all
maximal observed causal paths and the best of them, over values) and `SharedPaths` (the same search over
slices that share arrays, as the source stores them, with `MixedPath` following one such path downstream).

**The diagnosis pipeline.** `CandidateVerification` (generate, then verify), `Arbitration` (scores,
gates, acceptance), `CognitiveRounds` (what a language model's reply can and cannot reach), `StateAssertions`
(signals turned into facts, round after round), `RankFusion` (five retrieval channels fused into one ranking).

**Exact numeric algorithms.** `EditDistance`, `McNemar`, `Wilcoxon`, `Holm`, `Ndcg`.

`MessageHistory` is the window of past messages; `NodeFrames` says what each workflow node leaves alone;
`Sequences`, `Sorting` and `Text` are shared tools.

Floating-point numbers are modelled as reals, a hash by the value that is hashed, a clock reading by a
parameter, Go's library sorts by a stable sorting function (where the Go sort is unstable, by any sorted
permutation).

## What the proofs found

Each of these comes with a concrete input and with a condition that holds if and only if the code meets
the property.

1. *A failed recovery is often not finalized.* RECOVERY_FAILED may only move to RECEIVED, so when a failed
   execution or verification sends the run back to the Brain for reflection, the permission node later
   fails the graph both when it wants to stop and when it wants to propose again. A refused execution
   reaches the finalizer exactly when no reflection is pending and none can be paid for, a failed
   verification exactly when none can be paid for (`AfterExecution.RefusedExecutionIsFinalizedIff`,
   `FailedVerificationIsFinalizedIff`); `ConcreteRuns.RefusedIsSentBack` and `FailedVerificationIsSentBack`
   are such runs, from an incident with nothing collected.
2. *A confirmed mutation can go unverified.* When the model finishes in the same batch in which another
   call is denied, the reflection that the denial raised is still pending when the run is handed over, and
   the executor's branch then goes back to the Brain instead of to the verification. A confirmed mutation
   is verified exactly when no reflection was pending at the permission node
   (`AfterExecution.ConfirmedMutationIsVerifiedIff`); `ConcreteRuns.ConfirmedButNotVerified` is a whole run
   from the same start.
3. *The strongest causal path can be overwritten.* The search appends to a slice whose array its branches
   share and stores it without a copy. For r → a → b → {d, e} the stored path to d reads as the path to e
   at the end, and the path to e is returned although d is the symptom (`SharedPaths.SiblingOverwritesPath`).
   A stored path keeps its nodes up to the allocation of its array and reads, at each later index, the node
   of the last long enough walk below them (`StoredIsReading`), so it survives exactly when it took the last
   open child at every step since (`StoredPathIsIntactIff`, `StoredIsFoundIff`), in particular when no node at
   a length with spare capacity branches (`UnbranchedIsIntact`). The strongest path is returned exactly when it
   survives and no other reads as a better one (`StrongestIsReturnedIff`; `ChosenIsStrongest` when all survive).
   Otherwise what is returned need not be a path at all: for r → a → b → c → d → {x → z, y} it ends in y, z,
   which no edge joins (`MixedPath.ReturnedPathIsNoPath`). What `CandidateVerification` proves of generated
   paths is about eligible paths, that is, about intact ones.
4. *Two belief changes for one revision in one batch fail the graph*, since all calls of a batch are
   checked against the state before it, exactly then (`BeliefLedger.CommitFailsIffRevisionRepeated`).
5. *A recorded "failed" does not mean that nothing was sent* (`GuardedAction.FailedMayHaveCalled`): while the
   claim is retained it does exactly when no worker of the key panicked after its call had left
   (`FailedMeansNothingSentIff`). *A claim that expired lets a second worker call*, and the bound of one call
   plus one for each expiration is reached (`AtMostOneCallPerClaim`, `ExpiredClaimAllowsSecondCall`).
6. *Cache pruning relies on a clock that does not run backwards* (`ParseOnce.PruneNeedsMonotoneClock`): it
   leaves only fresh entries exactly when the expired ones come first among the newest 5000
   (`PruneLeavesFreshIff`).
7. *The message window counts results instead of matching them*: two results for one call can stand for
   an answer to two (`MessageHistory.RepeatedResultHidesMissingOne`); with distinct call IDs every call is
   answered exactly when no result is repeated (`AllAnsweredIffResultsDistinct`).
8. *Mandatory Skills are activated without what they require* (`SkillResolution.MandatoryIsNotClosed`); bundles
   are closed exactly when the mandatory Skills of the phase are (`ClosedIffMandatoryClosed`).
9. *Generated candidates lose causal coverage* when a source name has surrounding blanks or two active
   patterns share a node ID (`CandidateVerification.PaddedSourceLosesCoverage`, `SharedIdLosesCoverage`); the
   exact condition, on the evidence as collected, is `FullyVerifiedIff`.
10. *A ranking with duplicates can score above one* (`Ndcg.DuplicatesExceedOne`); it cannot under any falling
    discount exactly when no prefix gains more than the ideal prefix (`ScoreAtMostOneIff`).
11. *A node ID that contains NUL makes the choice of a path depend on map order*
    (`CausalPath.NulLetsOrderDecide`); two strongest paths always share their joined text
    (`StrongestShareText`).
12. *A decision can be accepted while its own gate list is not empty*, because the ranker asks neither for
    the supporting score nor for the coverage: exactly when the coverage of the top candidate is below one
    (`Arbitration.AcceptedWithFailedGateIff`). For paths chained throughout and for the observations that a
    draft without causal nodes cites this cannot happen, and the decision is accepted exactly when the gate
    list is empty (`AcceptedIffNoGateFailed` with `VerifiedIsConsistent` and `CitedObservationsAreConsistent`).
    The mixed path of finding 3 is neither: measured on its own two items it is accepted
    (`MixedPath.MixedPathIsAccepted`).
13. *A contradicted assertion comes back to life.* Every round reads the whole evidence again, and the abnormal
    signal that a normal one has contradicted since makes the assertion active again in the next round, although
    nothing new was collected (`StateAssertions.ContradictionIsRevived`); a contradiction lasts exactly when the
    evidence shows its group nowhere abnormal (`ContradictionSurvivesIff`). The first time of an assertion depends
    on the order of the evidence, unless the items that mention it agree on it (`FirstSeenIgnoresOrderIff`).
14. *A retrieval channel that lists an incident twice lifts it above the attainable rank sum*, and cutting at one
    hides it (`RankFusion.RepeatedHitIsCut`); the sum stays within the bound for all weights exactly when no channel
    repeats the incident to more than its first rank is worth (`FusedWithinBoundIff`).

The repository's README describes a confirmed failure as leading to reflection and a new plan; finding 1
is where the code differs, and the model follows the code.

## Model

| member | source | states |
|---|---|---|
| `Workflow.WorkflowState.ContextBuilder` | agent/brain_graph.go:289-391 | allocates the turn: budget defaults, phase, closed tool budget, reflection, Skill categories, evidence and code snapshot; fails on unresolved Skills or a changed snapshot |
| `Workflow.WorkflowState.RecordAssistantTurn` | agent/brain_graph.go:669-700 | a model answer replaces the newest audit slot of the current turn, or the graph fails |
| `Workflow.WorkflowState.ActionGateway` | agent/brain_graph.go:394-419 | keeps a prefix of the calls that fits the read limit and the tool budget; closes the budget when nothing is left |
| `Workflow.WorkflowState.ApplyCapabilityOutput` | agent/brain_state.go:84-268 | one tool output applied to evidence, beliefs, version chain, phase, termination and pending reflection, in the order of the branches |
| `Workflow.WorkflowState.ClassifyResults` | agent/brain_state.go:19-82 | every Tool message is counted and applied in order |
| `Workflow.WorkflowState.RetireParents` | agent/brain_state.go:110-135 | a revision retires exactly its parents, wherever they occur |
| `Workflow.WorkflowState.ObservationUpdate` | agent/brain_state.go:301-344 | new evidence invalidates supported revisions, and a diagnosis over other evidence loses plan, proposal and dry run |
| `Workflow.WorkflowState.UpdateBelief` | agent/brain_state.go:346-359 | the newest grounding change asks for a reflection when it must |
| `Workflow.WorkflowState.CommitBeliefs` | agent/brain_state.go:364-393 | commits pending belief changes in order; the first unacceptable one fails the graph |
| `Workflow.WorkflowState.RejectUnstructured` | agent/brain_state.go:395-454 | an answer without calls costs one correction or ends the run |
| `Workflow.WorkflowState.RejectInvalidArguments` | agent/brain_state.go:461-537 | a batch with invalid arguments is counted call by call, costs one correction and drops the reflection |
| `Workflow.WorkflowState.RouteTermination` | agent/brain_state.go:565-578 | the turn budget ends the run |
| `Workflow.WorkflowState.RouteReflection` | agent/brain_graph.go:421-466 | turn budget, tool budget, disabled and unaffordable reflections, in this order |
| `Workflow.WorkflowState.EnterToolBudgetFinalization` | agent/brain_graph.go:472-486 | a spent tool budget leaves only the closing phases |
| `Workflow.WorkflowState.DecideEligibility` | internal/brainruntime/runtime.go:461-494 | the loops over evidence and groundings compute exactly the recovery eligibility rules |
| `Workflow.WorkflowState.DecidePermission` | agent/brain_recovery.go:15-84 | a proposal only from a grounded decision and a plan for the same diagnosis and snapshots |
| `Workflow.WorkflowState.StopWithoutRecovery` | agent/brain_recovery.go:154-172 | ends at needs-attention and keeps an earlier reason |
| `Workflow.WorkflowState.DryRunStage` | agent/brain_recovery.go:86-115 | a failed dry run destroys plan, permission and proposal and sends the run back |
| `Workflow.WorkflowState.ResumeAfterApproval` | agent/supervisor.go:722-756 | rejection, an invalid context and a valid approval, with the status each leads to |
| `Workflow.WorkflowState.ExecuteRecovery` | agent/supervisor.go:230-284 | the execution record, status and reflection after each kind of executor answer |
| `Workflow.WorkflowState.RunVerificationController` | agent/supervisor.go:401-475 | three healthy rounds in a row resolve, the deadline fails, the end of the context aborts |
| `Workflow.WorkflowState.TakeIn` | agent/supervisor.go:180-200 | received to collecting in two checked steps |
| `Workflow.WorkflowState.CheckProposal` | agent/supervisor.go:211-224 | a proposal without its own successful dry run ends at needs-attention |
| `Workflow.WorkflowState.AwaitApproval` | agent/supervisor.go:710-721 | the incident waits for the operator |
| `BrainLoop.BrainStayIsBounded` | agent/brain_graph.go:22-33 | whatever is answered, one stay in the Brain with T > 0 turns stays within 11T + 3 further visits and so below the 12T + 16 bound |
| `BrainLoop.StepUsesVisit` | agent/brain_graph.go:229-286 | every Brain step lowers the bound on the visits still to come, and a context is only built while a turn is left |
| `BrainLoop.RouterClearsPendingReflection` | agent/brain_graph.go:421-466 | the reflection router never returns to the termination router with a pending reflection unless the run has ended |
| `BrainBudgets.BudgetsOverRuns` | agent/brain_graph.go:303-351 | every reachable state: turns = allocated turns = audit slots within the limit, tool calls and corrections within their limits, reflection cost = sum of the recorded costs within its limit |
| `BrainBudgets.GateFits` | agent/brain_graph.go:394-419 | the calls let through fit the remaining budget, or the budget is closed and at most one passes |
| `BrainBudgets.ClosedBudgetSilencesTools` | agent/brain_tools.go:1409-1426 | once the budget is closed no tool answer adds hypotheses, groundings, belief changes or a plan |
| `BrainBudgets.SpentToolBudgetIsFinal` | agent/brain_tools.go:1409-1426 | from the first state with a spent tool budget on, over every continuation, nothing of the kind is ever added |
| `WorkflowTermination.StepSpends` | agent/supervisor.go:307-373 | every step of the whole graph pays from a bound on node visits and from one on engine steps |
| `WorkflowTermination.WorkflowTerminates` | agent/supervisor.go:307-376 | every attempt ends within 16 x 50 + 20 node visits and within 3 x 50 + 12 engine steps of the outer graph |
| `BeliefLedger.CommitOutcome` | agent/brain_state.go:364-393 | the commit succeeds exactly when the pending changes name different revisions, and then sets exactly their confidences |
| `BeliefLedger.LedgerOverRuns` | agent/brain_state.go:84-135 | over all runs revision IDs stay unique and every pending change was checked against its revision |
| `BeliefLedger.ConfidenceMovesOnlyAtCommit` | agent/brain_tools.go:955-1007 | no node but the commit changes the confidence of an existing revision |
| `BeliefLedger.CommitFailsIffRevisionRepeated` | agent/brain_state.go:364-393 | after a batch of tool results the commit fails the graph if and only if two changes of the batch name one revision |
| `RecoveryChain.PermissionOpensChain` | agent/brain_recovery.go:15-84 | a proposal comes with a grounded final diagnosis and a plan for exactly it and the current snapshots |
| `RecoveryChain.DryRunDescribesProposal` | agent/recovery.go:61-98 | a successful dry run describes the completed proposal: action, target, identity and mutation hash, and keeps what the plan decided |
| `RecoveryChain.DryRunBinds` | agent/brain_recovery.go:86-115 | success binds proposal and dry run into the chain, failure leaves no chain at all |
| `RecoveryChain.ChainOverRuns` | agent/supervisor.go:201-284 | what each recovery stage relies on holds in every reachable state |
| `RecoveryChain.FinalDiagnosisIsCurrent` | agent/brain_state.go:301-344 | over all runs a diagnosis that is not provisional rests on the current evidence snapshot |
| `WorkflowSafety.GuardsAgree` | agent/supervisor.go:117-119 | the check over the workflow state and the check over the incident alone agree at any one time; with a clock reading each, the second fails what the first passed exactly when the approval has expired in between |
| `WorkflowSafety.ExecutedMutationWasApproved` | agent/supervisor.go:710-817 | over all runs: what passes the first check is the dry-run proposal, its recomputed hash the approved one, one version chain, approved one step before, with no stage in between; it is executed if and only if the approval is still fresh at the second look |
| `WorkflowSafety.ExecutorRunsAtMostOnce` | agent/supervisor.go:230-284 | over all runs the executor is entered at most once, and counts a confirmed mutation exactly when it was authorized and confirmed |
| `WorkflowSafety.PastExecutionForever` | agent/supervisor.go:307-373 | after an execution no run enters the executor again or changes the execution record |
| `WorkflowSafety.FailedRecoveryNeverFinishes` | internal/domain/incident.go:1024-1066 | from any point of a run that is back at the Brain with a failed recovery, the finalizer is never reached |
| `WorkflowSafety.ServerApprovalIsAccepted` | internal/service/incidents.go:462-508 | at every reachable approval, the context the server builds is accepted if and only if it is fresh, its namespace allowed, and key, approval and dry-run time set |
| `AfterExecution.RefusedExecutionIsFinalizedIff` | agent/supervisor.go:246-284 | over all runs: a refused execution goes to the finalizer if and only if no reflection is pending and none can be paid for; otherwise no later node is the finalizer |
| `AfterExecution.FailedVerificationIsFinalizedIff` | agent/supervisor.go:401-475 | over all runs: a verification that ran out of time goes to the finalizer if and only if no reflection can be paid for; otherwise no later node is the finalizer |
| `AfterExecution.ConfirmedMutationIsVerifiedIff` | agent/supervisor.go:353-373 | a confirmed mutation is verified if and only if no reflection was pending at the permission node; otherwise the run is never verified or finalized |
| `AfterExecution.UnknownOutcomeIsNotReplayed` | agent/supervisor.go:246-281 | an unconfirmed call ends in needs-attention with an unknown outcome and is never made again in the attempt |
| `AfterExecution.FinishBesideFailureKeepsPending` | agent/brain_graph.go:441-465 | the classifier turns a batch of a finish and a denied call into a termination with a pending reflection, and both routers pass it on |
| `AfterExecution.PendingSurvivesTermination` | agent/brain_graph.go:421-466 | over all runs: a batch that leaves a termination and a pending reflection behind reaches the permission node, through observation, belief update, commit and both routers, with the reflection still pending |
| `AfterExecution.ReturnIsRefused` | agent/brain_recovery.go:15-84 | the permission node fails the graph for a run that returns over an executed plan |
| `AfterExecution.ResolvedIff` | agent/supervisor.go:401-475 | over every run the incident is resolved if and only if three such rounds of its one verification follow each other in time, and has failed if and only if the time is up first |
| `AfterExecution.VerifiedAtMostOnce` | agent/supervisor.go:353-376 | an attempt reaches the verification at most once |
| `ConcreteRuns.RefusedIsSentBack` | agent/supervisor.go:246-284 | a whole run from an incident with nothing collected to a refused execution that is sent back with a failed recovery |
| `ConcreteRuns.FailedVerificationIsSentBack` | agent/supervisor.go:353-373 | a whole run from an incident with nothing collected to a confirmed execution whose verification runs out of time and is sent back |
| `ConcreteRuns.ConfirmedButNotVerified` | agent/supervisor.go:353-373 | a whole run from an incident with nothing collected: evidence, hypotheses, validation, diagnosis, plan, finish beside a denied call, permission, dry run, approval, confirmed mutation, and back to the Brain without verification |
| `GuardedAction.KubernetesExecutor.Execute` | agent/recovery.go:134-192 | at most one mutation call, only under a confirmed fresh claim; refused means no call; a taken claim or missing answer is unknown; the recorded status says which |
| `GuardedAction.ActionGuard.ClaimAction` | internal/store/redis.go:76-78 | only the first claim of a key stores anything, whether or not the answer arrives |
| `GuardedAction.ActionGuard.CompleteAction` | internal/store/redis.go:80-83 | a completion is stored only over an existing claim |
| `GuardedAction.StepKeepsLedger` | agent/recovery.go:148-192 | claims and expirations of a key alternate and every call uses up one claim, under any step of any worker |
| `GuardedAction.StepKeepsHonesty` | agent/recovery.go:148-192 | a recorded success follows a confirmed call; confirmed and refused reports are true of the worker |
| `GuardedAction.AtMostOneCallPerClaim` | agent/recovery.go:134-192 | for any number of workers, crashes, lost replies: at most one call per key plus one per expired claim |
| `GuardedAction.RetainedClaimMeansOneCall` | agent/recovery.go:152-163 | while the claim is retained there is at most one call, and a stored success stands for a confirmed one |
| `GuardedAction.ReportsAreHonest` | agent/recovery.go:183-192 | a worker that reports confirmed saw its call confirmed; one that reports refused made none |
| `GuardedAction.ExpiredClaimAllowsSecondCall` | agent/recovery.go:152-159 | the bound is reached: a run with one expiration and two calls |
| `GuardedAction.FailedMayHaveCalled` | agent/recovery.go:160-163 | a run that records failed after its call was sent |
| `GuardedAction.FailedMeansNothingSentIff` | agent/recovery.go:148-192 | while the claim is retained, a recorded failure means that no call was confirmed, and that none was sent if and only if no worker of the key panicked after its call had left |
| `GuardedAction.ExecuteIsARun` | agent/recovery.go:134-192 | an undisturbed Execute, which the method is proved to be, is a run of the machine: one more worker with its report, what it leaves in the guard, and the calls it sent |
| `ParseOnce.Server.PruneCache` | drain3-sidecar/server.py:32-37 | drops from the old end while the cache is too large or its oldest entry too old |
| `ParseOnce.Server.ParseBatch` | drain3-sidecar/server.py:46-74 | mines nothing unless the whole batch is valid, then every message in order |
| `ParseOnce.Server.Handler` | drain3-sidecar/server.py:77-112 | refused, answered from the cache, or applied once and cached |
| `ParseOnce.PruneKeepsExactly` | drain3-sidecar/server.py:32-37 | an entry survives pruning if and only if it is within the TTL and among the newest 5000 |
| `ParseOnce.PruneNeedsMonotoneClock` | drain3-sidecar/server.py:32-37 | with a clock set back an expired entry survives behind a younger one |
| `ParseOnce.PruneLeavesFreshIff` | drain3-sidecar/server.py:32-37 | for any cache: only fresh entries are left if and only if, among the newest 5000, the expired ones come first |
| `ParseOnce.PruneKeepsGood` | drain3-sidecar/server.py:32-37 | after pruning at most 5000 entries are left, all within the TTL, and they are the newest applications |
| `ParseOnce.HandleKeepsGood` | drain3-sidecar/server.py:91-101 | two applications of one request ID lie more than the TTL or at least 5000 other applications apart |
| `ParseOnce.ServeKeepsFaithful` | drain3-sidecar/server.py:60-74 | the miner has advanced by the logged applications and nothing else, and each response is what its own advance computed |
| `ParseOnce.WSParser.ParseBatch` | retrieval/websocket.go:65-116 | the first decisive attempt settles the call; at most five copies leave, all within 157.5 seconds; statistics and connection as stated |
| `ParseOnce.WSParser.Exchange` | retrieval/websocket.go:85-104 | one attempt: no answer is ever left unread on an open connection |
| `ParseOnce.WindowFits` | retrieval/websocket.go:74-104 | the worst case over five attempts is 157.5 seconds, below the ten minutes of the cache |
| `ParseOnce.OneCallOneApplication` | retrieval/websocket.go:65-116 | over lost replies, reconnects, other clients and late copies one call advances the miner at most once, and every positive reply carries exactly that advance |
| `ParseOnce.ReturnedResultsAreTheApplication` | retrieval/websocket.go:65-116 | when the connection carries what the sidecar answers to each frame, the results the client returns to its caller are those that the one application of its batch computed |
| `ParseOnce.MinedInOrder` | drain3-sidecar/server.py:46-74 | records are mined in order: what a record yields depends on the records before it alone |
| `SkillGraph.Visitor.VisitNode` | agent/brain_skills.go:247-265 | the recursive search over shared maps computes the functional one |
| `SkillGraph.ValidateCatalog` | agent/brain_skills.go:229-273 | accepts exactly the catalogs with a kernel, known references and acyclic requirements, in any map order |
| `SkillGraph.SearchIff` | agent/brain_skills.go:247-272 | the search succeeds if and only if the graph has no cycle, and yields a permutation with dependencies first |
| `SkillGraph.OrderExcludesCycles` | agent/brain_skills.go:247-272 | a dependency order of all nodes leaves no room for a cycle |
| `SkillGraph.VisitFindsCycle` | agent/brain_skills.go:247-257 | a failed visit comes with a concrete cycle |
| `SkillGraph.OrderSelection` | agent/brain_skills.go:491-528 | orders a selection as the function does |
| `SkillGraph.TopologicalOrderIff` | agent/brain_skills.go:491-528 | a selection is ordered if and only if it has no cycle, always for a valid catalog: every selected Skill once, its selected dependencies earlier |
| `SkillGraph.OrderIsDeterministic` | agent/brain_skills.go:491-528 | the order does not depend on the map iteration |
| `SkillGraph.DependencyClosure` | agent/brain_skills.go:470-489 | exactly the reachable Skills, each once, dependencies first, the requested one last |
| `SkillGraph.IndependentSkillsAreSorted` | agent/brain_skills.go:491-528 | selected Skills that need nothing of each other come in the order of their IDs |
| `SkillResolution.Resolve` | agent/brain_skills.go:285-384 | fails exactly for a blank turn, an empty selection or a conflict; otherwise the fold of the requests, ordered |
| `SkillResolution.TakeRequest` | agent/brain_skills.go:299-348 | each rejection reason and what an accepted request adds |
| `SkillResolution.SelectionFacts` | agent/brain_skills.go:285-348 | every mandatory phase Skill is in, the counted optional Skills are exactly the active ones and within the budget |
| `SkillResolution.AcceptedRequestIsClosed` | agent/brain_skills.go:320-347 | an accepted request has its whole closure active, whatever follows |
| `SkillResolution.NothingElseIsActive` | agent/brain_skills.go:293-347 | nothing is active but phase Skills and what accepted requests need |
| `SkillResolution.RejectedRequestsLeaveNoTrace` | agent/brain_skills.go:299-347 | deleting rejected requests changes nothing but the audit |
| `SkillResolution.RepeatedRequestIsFree` | agent/brain_skills.go:320-347 | asking again costs nothing and is never refused for the budget |
| `SkillResolution.MandatoryIsNotClosed` | agent/brain_skills.go:293-298 | in a valid catalog a mandatory Skill is activated without what it requires |
| `SkillResolution.ClosedIffMandatoryClosed` | agent/brain_skills.go:293-347 | for all requests and any budget the bundle is closed under requirements, if and only if the mandatory Skills of the phase are |
| `SkillResolution.BudgetRejectionIff` | agent/brain_skills.go:318-346 | a valid request is turned down if and only if the Skills then active would hold more optional ones than the budget |
| `MessageHistory.CompleteUnits` | agent/brain_graph.go:731-781 | the cursor loop cuts the history into the units of the function |
| `MessageHistory.BoundedHistory` | agent/brain_graph.go:592-621 | selects the window of the function |
| `MessageHistory.UnitsAreComplete` | agent/brain_graph.go:731-781 | every unit is a request with exactly as many results, each answering one of its calls, or one other message |
| `MessageHistory.StartIsLongestFit` | agent/brain_graph.go:592-615 | the window is the longest suffix of complete units within both budgets |
| `MessageHistory.LongestFitIsUnique` | agent/brain_graph.go:592-615 | there is only one such suffix |
| `MessageHistory.WindowHasNoOrphans` | agent/brain_graph.go:592-621 | no tool result is shown without the request it answers earlier in the same unit |
| `MessageHistory.WindowIsIdempotent` | agent/brain_graph.go:592-621 | feeding a window back in yields the same window |
| `MessageHistory.AllAnsweredIffResultsDistinct` | agent/brain_graph.go:756-776 | with distinct call IDs every call has a result if and only if no result is repeated |
| `MessageHistory.RepeatedResultHidesMissingOne` | agent/brain_graph.go:762-776 | two results for one call pass for an answer to two |
| `MessageHistory.TruncationIsIdempotent` | agent/brain_graph.go:783-795 | cutting a long message twice changes nothing |
| `MessageHistory.UnitsByMessage` | agent/brain_graph.go:729-783 | each message starts one unit, itself and the results that answer it, or none, and a unit keeps what its messages say |
| `MessageHistory.WindowIsWithinBudgets` | agent/brain_graph.go:592-621 | what is shown stays within both budgets, message by message and byte by byte, and every longer suffix of units is over one of them |
| `CausalPath.PathCollector.Visit` | reasoning/candidates.go:589-608 | over values: the recursive closure appends exactly the walks of the function |
| `CausalPath.CandidatesAreMaximalPaths` | reasoning/candidates.go:589-614 | the paths the search finds are exactly the non-extendable simple observed paths of at least two nodes from a root, on any graph |
| `CausalPath.NothingBeatsBest` | reasoning/candidates.go:618-629 | no path is better than the head of the sort |
| `CausalPath.JoinInjective` | reasoning/candidates.go:628-628 | without NUL in the IDs the joined text determines the path |
| `CausalPath.NulLetsOrderDecide` | reasoning/candidates.go:618-629 | a pattern with NUL in two IDs and its evidence: two eligible paths, and the order of the admission map decides which is returned |
| `CausalPath.ObservedPatternPath` | reasoning/candidates.go:566-630 | over values: an eligible path that no eligible path beats, by symptom, then length, then text; nothing if there is none |
| `CausalPath.StrongestIsUnique` | reasoning/candidates.go:609-630 | without NUL in the IDs there is one strongest path, whatever the iteration order of the admission map |
| `CausalPath.StrongestShareText` | reasoning/candidates.go:618-629 | another eligible path is as strong as a strongest one if and only if it ends alike, is as long, and has the same joined text |
| `CausalPath.LeadsIff` | reasoning/candidates.go:618-629 | not being beaten read off the paths: the symptom at the end, then the length, then the joined text |
| `SharedPaths.SliceCollector.Visit` | reasoning/candidates.go:589-608 | the recursive closure over slices that share arrays: the heap and the stored slices of the function |
| `SharedPaths.ObservedPathOverSlices` | reasoning/candidates.go:566-630 | the source as it stands, with doubling arrays, returns a path that none beats among the paths as they read at the end |
| `SharedPaths.StoredPathIsIntactIff` | reasoning/candidates.go:589-608 | a stored path is read back as found if and only if it took the last open child at every step since its array was allocated |
| `SharedPaths.StoredIsFoundIff` | reasoning/candidates.go:589-614 | the stored list is the list of found paths if and only if that holds of each of them |
| `SharedPaths.StoredIsReading` | reasoning/candidates.go:589-614 | every stored path, intact or not: its first nodes as found, then at each index the node of the last long enough walk below them |
| `SharedPaths.UnbranchedIsIntact` | reasoning/candidates.go:589-608 | the two lists agree when no walk node at a length with spare capacity has two different open children |
| `SharedPaths.ChosenIsStrongest` | reasoning/candidates.go:609-630 | with every eligible path intact the source returns a strongest one, or nothing if there is none |
| `SharedPaths.NothingChosenIff` | reasoning/candidates.go:609-630 | whatever is overwritten, the source returns nothing if and only if no path is eligible |
| `SharedPaths.StrongestIsReturnedIff` | reasoning/candidates.go:566-630 | with IDs without NUL the strongest path is returned if and only if it took the last open child at every step since its array was allocated and no eligible path reads as a better one at the end |
| `SharedPaths.SiblingOverwritesPath` | reasoning/candidates.go:589-630 | r to a to b to d and e: the path to the symptom d is stronger, and the path to e is returned, whether or not e is a symptom |
| `MixedPath.ReturnedPathIsNoPath` | reasoning/candidates.go:589-630 | r to a to b to c to d, d to x and y, x to the symptom z: the source returns r, a, b, c, d, y, z, although y and z are not joined |
| `MixedPath.MixedPathIsAccepted` | reasoning/engine.go:1192-1212 | on its own two items, from two sources, that sequence measures coverage five sixths with nothing missing, and the candidate measured on this sequence and these items, citing both, is accepted while its gate list names the coverage |
| `CausalModel.ChildrenAreDeclared` | reasoning/candidates.go:573-587 | the children of a node are the targets of its declared edges between known nodes |
| `CausalModel.ChildrenAreSorted` | reasoning/candidates.go:587-589 | children come in the order of their text |
| `CandidateVerification.AnnotateCausalNodes` | reasoning/engine.go:770-813 | every item keeps its node IDs and gains exactly those of the active nodes its signals match |
| `CandidateVerification.CanonicalCausalCoverage` | reasoning/engine.go:1464-1536 | the loops compute the share of observed nodes times the share of known edges, and the missing nodes |
| `CandidateVerification.CoverageIsOneIff` | reasoning/engine.go:1464-1536 | coverage is one if and only if every node is observed and all neighbours are joined by known edges |
| `CandidateVerification.NothingDecisiveIsMissing` | reasoning/engine.go:1542-1580 | with disjoint node IDs no decisive node of a generated path is missing |
| `CandidateVerification.GeneratedPathIsFullyVerified` | reasoning/engine.go:1192-1212 | a generated path is verified with coverage exactly one and nothing missing, for trimmed sources and disjoint node IDs |
| `CandidateVerification.FullyVerifiedIff` | reasoning/engine.go:1192-1212 | for any sources and shared IDs, read off the evidence before annotation: fully verified if and only if every path node is attached under the source as written, and no path node is decisive or some decisive one is observed in a pattern that admits it; trimmed sources give the first, disjoint IDs the second |
| `CandidateVerification.NothingMissingIff` | reasoning/engine.go:1542-1580 | what the verifier finds missing on annotated evidence is empty if and only if the collected evidence already shows a decisive node, or the path has none |
| `CandidateVerification.PaddedSourceLosesCoverage` | reasoning/engine.go:800-806 | a padded source name: eligible for the generator, coverage below one for the verifier |
| `CandidateVerification.SharedIdLosesCoverage` | reasoning/engine.go:1545-1577 | a shared node ID: eligible and observed, yet coverage zero |
| `CandidateVerification.CoverageIsCounted` | reasoning/engine.go:1464-1536 | coverage is the observed share of the nodes times the known share of the steps, and exactly the unobserved nodes are missing |
| `Arbitration.CombineSources` | reasoning/engine.go:1170-1182 | the loop over the sources computes the bounded noisy-or |
| `Arbitration.SourceOrderIsIrrelevant` | reasoning/engine.go:1170-1182 | the combined support does not depend on the map order of the sources |
| `Arbitration.RankRootCause` | agent/root_cause_ranker.go:24-60 | the first supported candidate that misses no node and passes the ranker decides |
| `Arbitration.ArbitrateHypotheses` | agent/baseline_reasoning.go:105-162 | ranks, applies the gates and accepts; nobody outscores the selected candidate, among equal scores its ID comes first, and the margin is its distance to the best of the others |
| `Arbitration.AcceptedIff` | agent/baseline_reasoning.go:105-162 | for any scores: accepted if and only if the top candidate misses no node and fails at most the two gates the ranker does not ask for |
| `Arbitration.AcceptedIffNoGateFailed` | agent/baseline_reasoning.go:105-192 | for verified candidates whose paths are chained throughout or not at all: accepted if and only if the top gate list is empty, and every rival then scores at least 0.15 less |
| `Arbitration.VerifiedIsConsistent` | reasoning/engine.go:1183-1240 | verification supplies what the two missing gates stand for: support by its threshold, and full coverage or a score below the gate for a path chained throughout or not at all |
| `Arbitration.CitedObservationsAreConsistent` | reasoning/engine.go:1130-1140 | so do drafts without causal nodes, whose path is the observations they cite |
| `Arbitration.AcceptedWithFailedGateIff` | agent/baseline_reasoning.go:105-192 | for whatever verification measured: an accepted decision has a failed gate on record if and only if the top coverage is below one, and it is the only one |
| `Arbitration.AcceptedHasNoContradiction` | reasoning/engine.go:1186-1191 | an accepted decision rests on no contradicting evidence |
| `Arbitration.DecisionIgnoresInputOrder` | agent/baseline_reasoning.go:105-117 | with distinct IDs the decision does not depend on the input order |
| `Arbitration.AcceptedDespiteFailedGates` | agent/root_cause_ranker.go:35-57 | for every coverage from one half to below one, a candidate measured with full support from two sources is accepted with its coverage gate on record as failed |
| `Arbitration.MeasuredVerdict` | reasoning/engine.go:1180-1240 | one source counts three quarters, two contradicting items refute, and one prevents support |
| `Arbitration.ConfidenceIsMonotone` | internal/safety/hypothesis.go:120-123 | more support, coverage or observation never lowers a score, more contradiction never raises it |
| `CognitiveRounds.DiagnosisState.EvidenceCollection` | agent/cognitive_graph.go:118-154 | collects only unseen requests and stops without new evidence |
| `CognitiveRounds.UniqueEvidenceRequests` | agent/cognitive_diagnosis.go:47-58 | lets each fingerprint through once and remembers it |
| `CognitiveRounds.DiagnosisState.CandidateGeneration` | agent/cognitive_graph.go:206-238 | replaces the evidence by its annotated copy and verifies all drafts but the unresolved one |
| `CognitiveRounds.DiagnosisState.ObjectiveArbitration` | agent/cognitive_graph.go:318-368 | decides, displays, and either completes the diagnosis or opens the next round |
| `CognitiveRounds.DiagnosisState.Run` | agent/baseline_graph.go:129-164 | the graph runs rounds until the diagnosis is completed |
| `CognitiveRounds.ReplyCannotMoveDecision` | agent/cognitive_graph.go:263-368 | in any mode and for any reply a round decides what its evidence decides: selection, acceptance, margin, gates, hypotheses |
| `CognitiveRounds.ModesAgree` | agent/cognitive_graph.go:16-33 | rule-only, evidence-only and cognitive runs end with the same hypotheses, decision and permission |
| `CognitiveRounds.EmptyRoundKeepsDecision` | agent/cognitive_graph.go:141-152 | a round without new evidence keeps the decision |
| `CognitiveRounds.UnresolvedIsNotVerified` | agent/cognitive_graph.go:218-227 | the unresolved candidate never reaches verification |
| `CognitiveRounds.RoundsAreBounded` | agent/cognitive_graph.go:318-368 | at most two rounds, and no request fingerprint is collected twice |
| `CognitiveRounds.DiagnosisEnds` | agent/cognitive_graph.go:318-368 | every diagnosis in any mode is completed after two replies at most, with every collected fingerprint different |
| `CognitiveRounds.DisplayIsNearTie` | agent/cognitive_diagnosis.go:382-405 | the displayed candidate is the selected one or within a tenth of its score |
| `CognitiveRounds.UnseenIff` | agent/cognitive_diagnosis.go:47-58 | exactly the first request of every new kind passes |
| `EditDistance.NormalizedEditDistance` | benchmark/causaldiscovery/benchmark.go:142-163 | the two-row loop computes the recursive distance over the longer length, in [0,1], zero only for equal paths |
| `EditDistance.NormalizedIsMetric` | benchmark/causaldiscovery/benchmark.go:142-163 | the normalized distance is symmetric, in [0,1], and zero only for equal paths |
| `EditDistance.NextRow` | benchmark/causaldiscovery/benchmark.go:150-161 | one row of the table from the row before |
| `EditDistance.DistanceIsLowerBound` | benchmark/causaldiscovery/benchmark.go:142-163 | no edit script is cheaper than the distance |
| `EditDistance.CheapestScript` | benchmark/causaldiscovery/benchmark.go:142-163 | some edit script costs exactly the distance |
| `EditDistance.TriangleInequality` | benchmark/causaldiscovery/benchmark.go:142-163 | the distance satisfies the triangle inequality |
| `EditDistance.DistanceSymmetric` | benchmark/causaldiscovery/benchmark.go:142-163 | the distance is symmetric |
| `EditDistance.DistanceBounds` | benchmark/causaldiscovery/benchmark.go:142-163 | at least the difference and at most the maximum of the lengths, zero if and only if equal |
| `EditDistance.DisjointPathsAreFarthest` | benchmark/causaldiscovery/benchmark.go:142-163 | paths without a common node are as far apart as the longer is long |
| `EditDistance.NormalizedScale` | benchmark/causaldiscovery/benchmark.go:142-163 | the normalized distance is the distance in units of the longer length |
| `EditDistance.DisjointPathsAreOneApart` | benchmark/causaldiscovery/benchmark.go:142-163 | paths without a common node are exactly one apart |
| `McNemar.McNemarExact` | benchmark/comparison/statistics.go:371-385 | the loop computes twice the lower binomial tail, cut at one |
| `McNemar.ChooseStep` | benchmark/comparison/statistics.go:380-383 | the ratio of neighbouring terms that the loop multiplies by |
| `McNemar.ClampOnlyWhenBalanced` | benchmark/comparison/statistics.go:384-384 | the cut at one is active if and only if both counts are equal |
| `McNemar.PValueIsTwoSided` | benchmark/comparison/statistics.go:371-385 | symmetric, in (0,1], exactly the doubled tail unless the counts are equal |
| `Wilcoxon.WilcoxonSignedRank` | benchmark/comparison/statistics.go:387-422 | the loops compute the midrank sums, the effect is in [-1,1] |
| `Wilcoxon.RankMassIsConserved` | benchmark/comparison/statistics.go:400-414 | for any ties the two rank sums add up to n(n+1)/2 |
| `Wilcoxon.RankSumsIgnoreTieOrder` | benchmark/comparison/statistics.go:399-414 | two orderings of the same samples by magnitude have the same rank sums, whatever the order of ties |
| `Wilcoxon.ValueOrderIsIrrelevant` | benchmark/comparison/statistics.go:387-422 | p-value and effect do not depend on the order of the values |
| `Wilcoxon.NegationFlipsEffect` | benchmark/comparison/statistics.go:387-422 | negating every value negates the effect and keeps the p-value |
| `Wilcoxon.EffectIsSignedSum` | benchmark/comparison/statistics.go:387-422 | with magnitudes that are equal or apart: the effect times n(n+1)/2 is the sum of sign times counted midrank, and the p-value is the tail at half its size |
| `Wilcoxon.OneSidedEffect` | benchmark/comparison/statistics.go:420-420 | all kept values positive give the effect one, all negative minus one |
| `Holm.ApplyHolm` | benchmark/comparison/statistics.go:424-439 | writes the running maximum of the scaled p-values in place |
| `Holm.AdjustedIsLargestBound` | benchmark/comparison/statistics.go:424-439 | the adjusted value is the largest bound among the items with no larger p-value, a form without any order |
| `Holm.TieOrderIsIrrelevant` | benchmark/comparison/statistics.go:429-429 | the order of equal p-values makes no difference |
| `Holm.AdjustedDecides` | benchmark/comparison/statistics.go:424-439 | below level one an adjusted value is within the level if and only if the step-down procedure rejects |
| `Holm.LevelOneDiffers` | benchmark/comparison/statistics.go:424-439 | at level one the two differ |
| `Holm.AdjustedRange` | benchmark/comparison/statistics.go:424-439 | adjusted values lie between the raw ones and one and keep their order |
| `Ndcg.NdcgOf` | benchmark/evaluator/metrics.go:92-117 | the loops compute the discounted gain over the ideal one |
| `Ndcg.PrefixesDecide` | benchmark/evaluator/metrics.go:97-115 | ahead in every prefix means ahead under every falling discount |
| `Ndcg.TopSum` | benchmark/evaluator/metrics.go:103-115 | at most k gains never add up to more than the k largest |
| `Ndcg.DuplicateFreeIsAtMostIdeal` | benchmark/evaluator/metrics.go:92-117 | a ranking that repeats no relevant ID never collects more than the ideal one |
| `Ndcg.ScoreInUnit` | benchmark/evaluator/metrics.go:92-117 | so its score lies in [0,1] |
| `Ndcg.ScoreAtMostOneIff` | benchmark/evaluator/metrics.go:92-117 | a ranking scores at most one under every falling discount if and only if no prefix of it gains more than the ideal prefix |
| `Ndcg.DuplicatesExceedOne` | benchmark/evaluator/metrics.go:97-102 | a ranking that repeats a relevant ID scores above one |
| `Ndcg.EndsOfTheScale` | benchmark/evaluator/metrics.go:92-117 | the ideal gains score exactly one, a ranking without a relevant ID scores nothing |
| `StateAssertions.BuildStateAssertions` | reasoning/assertions.go:16-99 | one sorted assertion for each group of subject and property that the evidence or the previous round knows, made of the own observations of the group |
| `StateAssertions.TakeSignal` | reasoning/assertions.go:35-74 | one signal enters its group: confidence, state, last seen, signal IDs, status and what was observed since the previous round |
| `StateAssertions.ListIsUnique` | reasoning/assertions.go:77-98 | there is one such sorted list, whatever order the groups are visited in |
| `StateAssertions.EvidenceOrderIsIrrelevant` | reasoning/assertions.go:31-75 | state, confidence, last seen, status and the sets of signal IDs depend on which items there are, not on their order or repetition |
| `StateAssertions.FirstSeenIgnoresOrderIff` | reasoning/assertions.go:38-45 | the first time of a new assertion is the same for every order of the items if and only if the first observations of all items that have one are of the same time |
| `StateAssertions.FirstSeenIsTheFirst` | reasoning/assertions.go:38-45 | that first time is the time of the first observation of the group |
| `StateAssertions.ContradictedIff` | reasoning/assertions.go:80-86 | contradicted if and only if something normal and nothing abnormal was seen since the previous round, or it was before and the whole evidence shows nothing abnormal |
| `StateAssertions.ContradictionSurvivesIff` | reasoning/assertions.go:57-86 | the next round over the same dated evidence keeps a contradiction if and only if that evidence shows the group nowhere abnormal |
| `StateAssertions.ContradictionIsRevived` | reasoning/assertions.go:57-86 | three rounds with one abnormal and one normal sample: active, contradicted, and active again with nothing new collected |
| `StateAssertions.StaleIff` | reasoning/assertions.go:80-89 | what is not contradicted is stale if and only if it is ten minutes old, unless it was stale and saw nothing abnormal |
| `StateAssertions.IndependenceScales` | reasoning/assertions.go:51-56 | an unset independence counts as full, any other as its share |
| `RankFusion.FuseHybridChannels` | retrieval/hybrid_pipeline.go:240-304 | the loops over channels in any order and over ranks return the first candidates of the one ranking: scores never rise along the result, equal scores come in order of incident ID, and no named incident left out scores more |
| `RankFusion.RankingIsUnique` | retrieval/hybrid_pipeline.go:246-304 | lists and weights decide the ranking; the order in which the channels are visited does not |
| `RankFusion.FusedWithinBoundIff` | retrieval/hybrid_pipeline.go:267-287 | for all weights the rank sum stays within that of an incident ranked first everywhere if and only if no channel repeats the incident to more than a first rank is worth |
| `RankFusion.NothingIsCut` | retrieval/hybrid_pipeline.go:283-291 | without repeated hits neither the normalized rank sum nor the blended score is cut, and both lie in [0,1] |
| `RankFusion.TopScoreIff` | retrieval/hybrid_pipeline.go:283-288 | without repeated hits the normalized score is one if and only if every channel that counts ranks the incident first |
| `RankFusion.RepeatedHitIsCut` | retrieval/hybrid_pipeline.go:254-288 | a channel that lists an incident twice lifts its rank sum above the attainable one |
| `RankFusion.AheadHasLargerSum` | retrieval/hybrid_pipeline.go:254-268 | an incident that every channel ranks before another has no smaller rank sum |
| `RankFusion.UnreportedScoreFalls` | retrieval/hybrid_pipeline.go:318-329 | a hit without a score of its own counts one at the first rank and less at every later one |
| `RankFusion.BestComeFirst` | retrieval/pipeline.go:316-323 | final scores never rise along the ranking, and equal ones come in the order of the incident IDs |
| `RecoveryEligibility.RivalIsLargest` | agent/brain_recovery.go:33-43 | the loop keeps the largest support of another hypothesis, and zero without one |
| `RecoveryEligibility.ProposedIff` | agent/brain_recovery.go:15-84 | over every run the permission node goes on to a dry run if and only if the diagnosis is qualified, with every other hypothesis at least 0.15 behind, the plan fits and the status allows it; it leaves no proposal of its own without that |
| `RecoveryEligibility.RivalsAreBehind` | agent/brain_recovery.go:33-43 | over every run that goes on to a dry run, every grounding of another hypothesis has support at least 0.15 below that of the diagnosed one |
| `RecoveryEligibility.DecisionIff` | internal/brainruntime/runtime.go:461-494 | the eligibility rules read off groundings, hypotheses, admissions and evidence |
| `CurrentBeliefs.ObservationDemotesStale` | agent/brain_state.go:301-344 | an observation that changes the snapshot leaves no hypothesis supported by other evidence, makes those it demotes open again, touches no other, and takes plan, dry run and proposal from a diagnosis of other evidence |
| `CurrentBeliefs.SupportedIsCurrent` | internal/brainruntime/runtime.go:419-427 | in every state of every run a supported hypothesis was validated on the snapshot the run holds, and each hypothesis has one grounding |
| `CurrentBeliefs.CommittedConfidences` | internal/brainruntime/runtime.go:429-459 | over every run a commit gives exactly the named hypotheses the confidence of their change, in the unit interval and in the declared direction |
| `VerificationRounds.VerdictIff` | agent/supervisor.go:401-475 | for any carried-in count: resolved if and only if three healthy rounds in a row end before the time is up, failed if and only if a round runs out of time with no such row ending at or before it |
| `VerificationRounds.VerdictFromZeroIff` | agent/supervisor.go:401-475 | from a count of zero the row is rounds k-2, k-1 and k, each successful with the restart count not risen |
| `NodeOutcomes.GateKeepsMost` | agent/brain_graph.go:394-419 | the gateway lets the longest prefix pass that the read limit and the tool budget allow |
| `NodeOutcomes.NewerEvidenceWins` | agent/strategy.go:345-358 | of two records with one ID the newer stays, nothing is lost, nothing has an empty ID |
| `NodeOutcomes.ParentsAreRetired` | agent/brain_state.go:99-114 | a merge marks its parents as merged, any other revision but a root as replaced, and nobody else |
| `NodeOutcomes.GroundingMarks` | agent/brain_state.go:122-139 | a grounding marks the hypothesis it names alone: supported, refuted or open, and the snapshot it was validated on |
| `NodeOutcomes.NewestChangeSpeaks` | agent/brain_state.go:346-359 | only the newest unseen grounding change raises a reflection, a needed revision before a conflict |
| `NodeOutcomes.NewPlanStartsOver` | agent/brain_state.go:84-268 | a new plan leaves no permission, dry run or proposal of an older one |
| `NodeOutcomes.ReflectsIff` | agent/brain_graph.go:421-466 | a pending reflection is taken if and only if the run goes on with turns, tool calls and cost to spare; an unaffordable one about a failed recovery ends the run |
| `NodeOutcomes.ReflectionEnds` | agent/brain_state.go:247-267 | a belief change, a hypothesis or a Skill request ends a reflection and marks its newest record alone |
| `NodeOutcomes.StopKeepsReason` | agent/brain_recovery.go:154-172 | a reason other than a confident diagnosis survives the stop |
| `NodeOutcomes.DryRunSucceedsIff` | agent/recovery.go:61-98 | a dry run succeeds if and only if the target is found, a registered action with one to ten replicas may run on it, and the server accepts it |
| `NodeOutcomes.ApprovalOutcome` | agent/supervisor.go:722-756 | rejected, recovering or needing attention, by the answer and the validity of the context |
| `NodeOutcomes.ExecutionIsRecorded` | agent/supervisor.go:230-284 | the recorded attempt, outcome and status by the two checks and the answer of the executor |
| `NodeOutcomes.NothingIsUndone` | agent/brain_graph.go:289-391 | between any two points of a run no evidence is lost, and a code version that was fixed stays |
| `NodeOutcomes.WithoutReflections` | agent/brain_graph.go:421-466 | the method without reflections never builds a reflection context in any run |
| `NodeOutcomes.ModelSeesPreparedContext` | agent/brain_graph.go:289-391 | whenever the model is asked: an open turn, the current snapshot, an allowed category, and only the closing phases once the tool calls are spent |
| `NodeOutcomes.ReflectionOpens` | agent/brain_graph.go:289-391 | a reflection remembers the phase it interrupts |
| `NodeOutcomes.AnswerIsRecorded` | agent/brain_graph.go:669-700 | an answer is recorded in the turn it was asked in, and nowhere else |
| `NodeOutcomes.ResultRaises` | agent/brain_state.go:225-242 | which reflection a tool result raises, and that no other result raises one |

## Left out

- `CausalPath.PathCollector.Visit`: paths are values here, which is what the search is meant to collect; `SharedPaths.SliceCollector.Visit` is the same closure over the slices it stores.
- `CausalPath.CandidatesAreMaximalPaths`: true of the paths as they are found; how the stored slices read at the end is `SharedPaths.StoredIsReading`.
- `CausalPath.ObservedPatternPath`: over values, the intended contract of the choice; what the source stores and returns is `SharedPaths.ObservedPathOverSlices`.
- `SharedPaths.ObservedPathOverSlices`: capacities double at every length, as Go grows slices of strings up to a few hundred elements; `StoredPathIsIntactIff` holds for any growth.
- `WorkflowSafety.ExecutedMutationWasApproved`: does not claim that the target's UID and resource version still hold when the mutation arrives; the source compares them before the claim and not atomically with the call.
- `GuardedAction.AtMostOneCallPerClaim`: bounds calls by claims and expirations; that a claim outlives the slowest worker is not part of this model.
- `ParseOnce.OneCallOneApplication`: needs a fresh request ID, a clock that does not run backwards, late copies within the TTL and at most 5000 applications meanwhile; a sidecar restarted between two attempts keeps its persisted miner but loses its cache and may mine a batch twice.
- `ParseOnce.Server.Handler`: a frame above the size limit is one that cannot be read; cluster IDs, templates and parameters are the uninterpreted result of one miner step.
- `Wilcoxon.EffectIsSignedSum`: for magnitudes that are equal or at least a rounding error apart; chains of near-equal magnitudes, which the source groups by their first member, have the conserved rank mass and the order-free sums only.
- `WorkflowTermination.WorkflowTerminates`: node visits and engine steps, not wall-clock time; a verification is one node visit however many rounds it waits.
- `Arbitration.VerifiedIsConsistent`: scores from signals, temporal fit, topology and history enter as numbers.
- `AfterExecution.UnknownOutcomeIsNotReplayed`: within one workflow attempt; an operator's explicit retry starts another one.
- Unique lineage versions and a hard limit on active hypotheses: not promised by the code, because all calls of one batch see the state before it.
- The no-information streak behind a finish for evidence saturation: the model allows that finish whenever the tool offers it.
- The parameter map shared between a recovery plan and its proposal: the restart stamp of the dry run is written into the proposal only.
- The finalizer's bookkeeping, the audit trail of tool executions, memory reads and retrieval candidates, and the budget's wall-clock and token limits.
- Rounding: scores, p-values, ranks and gains are reals, and the square root, the error function and the logarithm enter as function parameters.
- Unicode: names fold and trim as ASCII text, and message truncation cuts characters rather than bytes of UTF-8.
- The JSON text of projected tool calls in the message history: one fixed rendering stands for it.
- Errors of the ranking and verification services and the goroutines that collect evidence: the answer, or its absence, is an input.
- The choice of a category's pattern and the generator's static path (`bestCandidatePattern`, `patternPath`, `patternEvidence`): table lookups around the observed path modelled here.
- `StateAssertions.BuildStateAssertions`: the hashed ID of an assertion stands for its group; a clock reading is never the zero time.
- `RankFusion.FuseHybridChannels`: hits carry no rank sum or stage score of their own, since no search service sets one; merged texts, terms and ranking reasons are left out.
- The investigation-policy tables and evidence taxonomies: table lookups; the diagnosis rounds take the assertions as the service's answer.
- Query understanding, channel weights by keyword, reranking, precision and hit rates: short sums and table lookups beside the rankings modelled here.
- The freshness check of a stored dry run (`ValidateDryRunFreshness`): the workflow's executor does not depend on it.
- Collectors, Kubernetes, Milvus, Loki, Jaeger and Prometheus clients, model calls, prompts, Skill texts, the graph engine and its checkpoint encoding: every answer they may give is an input.
- Metrics, tracing, redaction, benchmark provisioning, fault injection and report writing.
