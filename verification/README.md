# RevPilot core: a verified model

RevPilot investigates business anomalies, proposes actions, lets humans approve them and dispatches them. This project
models the parts of it that decide something, in Dafny, and proves what they promise for every input and every run.

| files | what they model |
|---|---|
| TaskGraph, DagValidator, DagFanOut, PlanLimits | the check of investigation plans: Kahn's sort fused with longest-path depth, fan-out as checked against fan-out as documented, and the limits in numbers |
| LinearSolver, LinearSystems | Gaussian elimination with partial pivoting and a jitter for singular columns |
| RidgeRegression, RidgeOptimality, JitterFree, Aipw, AipwMeaning | ridge regression over that solver, data on which it never takes the jitter branch, and the doubly robust effect estimate on top |
| ApprovalDispatch, DispatchKeys, StrandedRecords, DispatchTenants, DispatchHistory | the approval router: handlers as atomic steps over two shared caches, in any interleaving; its idempotency keys, the records it leaves behind, whose requests change a record, and the requests behind records, signatures, calls and outcomes |
| TenantStore, ApprovalService, ApprovalHistory, ApprovalTheorems, ApprovalGrounds | the approval service over its repository, and the calls behind its records |
| ActionLedger, LedgerHistory, LedgerTheorems, LedgerGrounds | intents under idempotency keys and numbered dispatch attempts, and the calls behind them |
| AnomalyLifecycle, Reconciliation | the anomaly aggregate with audit trail and outbox, and recomputation after late data |
| TimeSlices, CartesianProduct, MetricData, MetricGroups, MetricGateway, SliceMeaning | the metric query, and what reaches a calculation |
| Sequences, StableSort, FdrControl | sorting, and Benjamini-Hochberg selection with contribution ranking |
| HypothesisVerifier, VerdictMeaning | the verdict on hypotheses against an evidence bundle |
| SseStream, StreamMeaning | the printer and the incremental parser of event-stream frames (section 9.2 of the WHATWG HTML Standard, last data line wins) |
| StringOrder, CanonicalJson, JsonReading | the canonical JSON text behind payload digests |

State that the source changes in place is a class or a loop here; each such method is proved equal to a step function on
values, and the theorems are about runs of those steps. `dafny verify dfyconfig.toml` checks everything.

What holds only with a condition, and the condition:

- The solver's docstring promises to solve A x = b. With a jittered column it does not; it does for every b exactly when no
  column of A takes the jitter branch (`LinearSystems.ExactForAllIffNoJitter`). The normal equations of a ridge regression
  are safe as soon as one sample has covariates of ordinary size for the penalty (`JitterFree.ScaledDataNeedNoJitter`); at
  the penalty of 0.01 and p covariates that means up to about 5e9 / p. Beyond, the fit may miss the minimum
  (`JitterFree.HugeCovariatesMissMinimum`).
- An amendment supersedes the original before digest, tier and new record are made. A payload that cannot be written as
  JSON, a negative cost, or one that is not finite then leaves a link to a record that never existed, and never will
  (`ApprovalTheorems.DanglingRuns`, `ApprovalTheorems.DanglingLinkIsDead`). Links stay live exactly when no such amendment
  is made (`ApprovalTheorems.LinksStayLiveIff`).
- The approval service checks separation of duties against a requester that it never records, so the check cannot fire
  (`ApprovalTheorems.SeparationNeverFires`). The router does record it, and there the check holds
  (`ApprovalDispatch.SignedRecordsAreProper`).
- An idempotency key sees at most one gateway call as long as no two dispatches under it overlap, none gets a failed answer
  and none is abandoned (`DispatchKeys.OneCallPerKey`); without any one of the three, two approvals go out under one key
  (`DispatchKeys.DisturbanceCallsTwice`), from empty caches too (`DispatchKeys.KeyCalledTwiceFromStart`).
- A record is left DISPATCHING for good exactly when a dispatch that passed every check gets stuck after the status write, or
  when its handler is dropped while it waits for the gateway (`StrandedRecords.StrandedIffAccident`). A dispatch gets stuck
  exactly when no gateway is attached outside the test environment, or key or action is empty
  (`StrandedRecords.MarkingStrandsIff`); each of these happens (`StrandedRecords.AccidentsHappen`). Without a gateway at hand
  every dispatch ends that way (`StrandedRecords.NothingGoesOutWithoutGateway`).
- Approving and dispatching compare the caller's tenant with the record's, rejecting does not. A record changes for another
  tenant exactly when somebody who may decide rejects it while it is PENDING (`DispatchTenants.OnlyRejectionsCross`,
  `DispatchTenants.RejectionCrosses`).
- Canonical JSON prints keys unescaped, so every object with two fields shares its text with one whose only key holds a
  quote before a colon (`CanonicalJson.SeparatorInKeyCollides`). Values in which no key does are told apart
  (`CanonicalJson.PrintsAlikeIffSame`).
- A reconciliation that raises, for example on a blank metric version, leaves that candidate RECALCULATING and does not reach
  those behind it. No candidate is left RECALCULATING exactly when none raises
  (`Reconciliation.NothingLeftRecalculatingIff`, `Reconciliation.BlankVersionStops`).
- A candidate of a reconciliation settles for the default actor; for another actor that the lifecycle does not accept, a
  candidate that returned to normal stays as it was (`Reconciliation.CandidatesSettle`).
- The plan validator documents fan-out as a number of dependents and counts mentions. The two agree exactly when no task
  lists the prerequisite twice (`DagFanOut.FanOutIsDependentsIff`); the plans on which the answer then differs from the
  documented one are named by `DagFanOut.AcceptedIffDocumented`, and `DagFanOut.NineMentionsRejected` is one of them.
- The hypothesis verifier's coverage threshold of 0.70 never decides: a hypothesis with nothing unsupported has full coverage
  (`HypothesisVerifier.EvaluateTop`).

## Model

| member | source | states |
|---|---|---|
| DagValidator.Validate | packages/backend/src/revpilot/modules/agent/dag_validator.py:45-194 | Accepts a plan if and only if it is well formed: 1 to 20 tasks, concurrency and fan-out at most 8, at most 8 roots, unique ids, known dependencies, no cycle, no path of more than 4 tasks. Every rejection carries a reason that is true of the plan. |
| DagValidator.ValidateGraph | packages/backend/src/revpilot/modules/agent/dag_validator.py:107-194 | The same equivalence for the graph part alone, for task lists of any length. |
| DagValidator.KahnSort | packages/backend/src/revpilot/modules/agent/dag_validator.py:137-169 | On any closed graph: a depth failure names a task that ends a path of exactly 5 tasks from a root; otherwise each ordered task has its longest path from a root as its depth, and fewer tasks than the graph holds are visited exactly when there is a cycle. The depth test after a pop never fires. |
| DagValidator.UpdateDependents | packages/backend/src/revpilot/modules/agent/dag_validator.py:156-169 | One popped task: the loop over its dependents keeps counters, depths and queue in step with the edges applied so far, or stops at a task that really ends a path past the limit. |
| DagValidator.BuildEdges | packages/backend/src/revpilot/modules/agent/dag_validator.py:107-114 | Both edge tables agree with the prerequisite lists, repeated mentions included. |
| DagValidator.DependentsMirrorPrerequisites | packages/backend/src/revpilot/modules/agent/dag_validator.py:111-114 | The edge between two tasks is counted equally often from either end. |
| DagValidator.FanOutIsDependentCount | packages/backend/src/revpilot/modules/agent/dag_validator.py:116-118 | The length that is tested against the fan-out limit is the number of mentions as a prerequisite. |
| DagFanOut.FanOutSplits | packages/backend/src/revpilot/modules/agent/dag_validator.py:111-118 | That number is the number of dependents plus the mentions that a list repeats. |
| DagFanOut.FanOutIsDependentsIff | packages/backend/src/revpilot/modules/agent/dag_validator.py:41 | It is the number of dependents, as documented, if and only if no task lists the prerequisite more than once. |
| DagFanOut.AcceptedIffDocumented | packages/backend/src/revpilot/modules/agent/dag_validator.py:38-44 | What is accepted is what the documented limits accept, less exactly the plans with a task that only repeated mentions take over the limit. |
| DagFanOut.AnswerIsDocumented | packages/backend/src/revpilot/modules/agent/dag_validator.py:38-44 | When no list repeats a prerequisite, the answer is the documented one. |
| DagFanOut.NineMentionsRejected | packages/backend/src/revpilot/modules/agent/dag_validator.py:116-126 | A concrete plan that the documentation accepts and the validator rejects: one dependent that lists its prerequisite nine times. |
| PlanLimits.WellFormedInNumbers | packages/backend/src/revpilot/modules/agent/dag_validator.py:38-105 | The limits on the task list itself: accepted is a plan of 1 to 20 tasks under distinct ids, with a concurrency of at most 8, known prerequisites, at most 8 mentions of a task, at most 8 tasks without prerequisites, and no five tasks that wait in a row, which excludes cycles. |
| DagValidator.LeftoverTasksFormCycle | packages/backend/src/revpilot/modules/agent/dag_validator.py:171-182 | When the queue runs dry before every task was visited, the graph has a cycle. |
| DagValidator.LastEdgeSettles | packages/backend/src/revpilot/modules/agent/dag_validator.py:156-169 | When the last incoming edge of a task is applied, its recorded depth is its longest path from a root. |
| DagValidator.QueueEmpty | packages/backend/src/revpilot/modules/agent/dag_validator.py:171-194 | At the end of the loop: too few visits mean a cycle, and a full visit means that no path exceeds 4 tasks, so the closing depth test never fires. |
| DagValidator.SelfDependencyIsCycle | packages/backend/src/revpilot/modules/agent/dag_validator.py:88-97 | Reporting a self-dependency as a cycle is right. |
| TaskGraph.StuckTasksFormCycle | packages/backend/src/revpilot/modules/agent/dag_validator.py:171-182 | In a finite graph a set of tasks that all wait for one of the set contains a cycle. |
| TaskGraph.BoundedPathsMeanAcyclic | packages/backend/src/revpilot/modules/agent/dag_validator.py:171-194 | A bound on path length excludes cycles. |
| TaskGraph.LongestFromPrerequisites | packages/backend/src/revpilot/modules/agent/dag_validator.py:157 | A task settles at one more than the longest path of its prerequisites. |
| LinearSolver.SolveLinearSystem | packages/backend/src/revpilot/modules/causal/estimators.py:15-50 | For every square system the elimination runs without dividing by zero, jitter branch followed by a row swap included, and returns the specified solution vector. |
| LinearSolver.FindPivot | packages/backend/src/revpilot/modules/causal/estimators.py:22-28 | The row at or below the diagonal with the largest absolute entry, the diagonal row on ties. |
| LinearSolver.ForwardEliminate | packages/backend/src/revpilot/modules/causal/estimators.py:21-42 | In-place elimination reaches the matrix that the specification reaches step by step. |
| LinearSolver.RunLeavesPivots | packages/backend/src/revpilot/modules/causal/estimators.py:30-48 | Every pivot that elimination leaves behind is nonzero. |
| LinearSystems.SolvesJitteredSystem | packages/backend/src/revpilot/modules/causal/estimators.py:15-50 | The answer is the one and only solution of the input system with 1e-6 added at the marked positions, for every matrix and right-hand side. |
| LinearSystems.SolutionResidual | packages/backend/src/revpilot/modules/causal/estimators.py:30-50 | How far each original equation is missed: minus the jitter times the unknowns whose jitter fell into that row. |
| LinearSystems.SolvesIff | packages/backend/src/revpilot/modules/causal/estimators.py:15-50 | The answer solves the original system if and only if in each row the jittered unknowns add up to zero. |
| LinearSystems.ExactWithoutJitter | packages/backend/src/revpilot/modules/causal/estimators.py:16-50 | When no column took the jitter branch, the original system has exactly one solution and the solver returns it. |
| LinearSystems.MarksIgnoreRightHandSide | packages/backend/src/revpilot/modules/causal/estimators.py:30-32 | Which columns are jittered depends on the matrix alone. |
| LinearSystems.JitterSpoilsSomeRightHandSide | packages/backend/src/revpilot/modules/causal/estimators.py:30-32 | Each jittered column has a right-hand side that the solver answers wrongly. |
| LinearSystems.ExactForAllIffNoJitter | packages/backend/src/revpilot/modules/causal/estimators.py:16 | The promise to solve A x = b is kept for every b if and only if no column of A takes the jitter branch. |
| LinearSystems.SingularExample | packages/backend/src/revpilot/modules/causal/estimators.py:30-32 | A concrete input on which the promise fails: 0 x = 1 is answered with 1000000. |
| LinearSystems.NeedsJitterIff | packages/backend/src/revpilot/modules/causal/estimators.py:30 | A column is jittered exactly when all its entries from the diagonal down lie strictly within 1e-12 of zero. |
| RidgeRegression.FitRidgeLinearRegression | packages/backend/src/revpilot/modules/causal/estimators.py:53-89 | Fails exactly on an empty sample or a length mismatch, else returns the fit specified by the penalised normal equations. |
| RidgeRegression.NormalEquations | packages/backend/src/revpilot/modules/causal/estimators.py:73-83 | The triple loop accumulates the cross products of the columns, intercept included. |
| RidgeRegression.AddPenalty | packages/backend/src/revpilot/modules/causal/estimators.py:85-87 | The penalty goes on every diagonal entry but the intercept. |
| RidgeRegression.PredictLinear | packages/backend/src/revpilot/modules/causal/estimators.py:92-99 | Every prediction is the dot product of the coefficients with the row behind a leading one. |
| RidgeOptimality.NormalEquationsIffNoSlope | packages/backend/src/revpilot/modules/causal/estimators.py:61-89 | Solving the normal equations means that the loss has no slope at the coefficients. |
| RidgeOptimality.LossAround | packages/backend/src/revpilot/modules/causal/estimators.py:61-89 | The loss gap between two coefficient vectors is a quadratic form in their difference less twice the slope along it. |
| RidgeOptimality.NoSlopeMinimises | packages/backend/src/revpilot/modules/causal/estimators.py:85-89 | With a positive penalty the quadratic form is positive definite, so a point without slope is the only global minimiser. |
| RidgeOptimality.MinimiserHasNoSlope | packages/backend/src/revpilot/modules/causal/estimators.py:61-89 | Conversely a minimiser has no slope. |
| RidgeOptimality.NormalEquationsIffMinimiser | packages/backend/src/revpilot/modules/causal/estimators.py:61-89 | Solving the normal equations and minimising squared error plus lambda times the squared non-intercept coefficients are the same. |
| RidgeOptimality.FitMinimisesIff | packages/backend/src/revpilot/modules/causal/estimators.py:53-89 | The returned fit is a minimiser if and only if its jittered unknowns cancel in every row; the condition is read off the answer, and JitterFree gives one on the data. |
| RidgeOptimality.FitIsUniqueMinimiser | packages/backend/src/revpilot/modules/causal/estimators.py:53-89 | Without a jitter the fit is the unique minimiser. |
| JitterFree.JitterMeansNearKernel | packages/backend/src/revpilot/modules/causal/estimators.py:22-32 | For every system on which the jitter branch is taken there is a direction, with an entry that is one, that the matrix moves by less than 1e-12 in every row. |
| JitterFree.EnergyIsQuadratic | packages/backend/src/revpilot/modules/causal/estimators.py:72-87 | The normal matrix, applied to a direction and paired with it, gives the squared predictions plus the penalty of that direction. |
| JitterFree.ScaledDataNeedNoJitter | packages/backend/src/revpilot/modules/causal/estimators.py:30-32 | If the p covariates x of any one sample satisfy 2 p (1 + abs x) 1e-12 <= lambda, no column of the normal equations takes the jitter branch, whatever the other samples hold. |
| JitterFree.ScaledFitIsUniqueMinimiser | packages/backend/src/revpilot/modules/causal/estimators.py:53-89 | On such data and with a positive penalty the returned fit is the unique minimiser, for every outcome vector. |
| JitterFree.HugeCovariatesMissMinimum | packages/backend/src/revpilot/modules/causal/estimators.py:30-32 | A family of samples beyond that bound on which, with the penalty 0.01, the returned fit is not a minimiser: covariates x and x + 1 for any x of at least 1e12, outcomes 0 and 1. |
| Aipw.PropensityScores | packages/backend/src/revpilot/modules/causal/overlap.py:26-38 | Rejects an empty or mismatched sample; without covariates every score is the treatment rate held between 0.001 and 0.999. |
| Aipw.EstimateAipwAte | packages/backend/src/revpilot/modules/causal/estimators.py:123-166 | Fails exactly for fewer than 4 samples, mismatched labels, or an empty arm; otherwise returns the mean of the influence scores around the two arm fits; without covariates, without given propensities and with labels 0 and 1 that is the difference of the arm means. |
| Aipw.ArmResidualsCancel | packages/backend/src/revpilot/modules/causal/estimators.py:85-87 | Because the intercept is unpenalised, the residuals of an arm add up to what a jittered intercept row leaks, and to nothing else. |
| Aipw.ConstantPropensityEstimate | packages/backend/src/revpilot/modules/causal/estimators.py:153-166 | Under any constant propensity the estimate is the mean modelled effect plus those leaks. |
| Aipw.ConstantPropensityExact | packages/backend/src/revpilot/modules/causal/estimators.py:146-166 | Without jitters the correction terms cancel, whatever the constant is. |
| Aipw.ConstantPropensityScaled | packages/backend/src/revpilot/modules/causal/estimators.py:146-166 | One sample in each arm whose covariates meet the bound of ScaledDataNeedNoJitter is all it takes for that. |
| Aipw.NoCovariatesEstimate | packages/backend/src/revpilot/modules/causal/estimators.py:146-166 | Without covariates the estimate is the difference of the arm means. |
| Aipw.InterceptOnlyFit | packages/backend/src/revpilot/modules/causal/estimators.py:77-89 | Without covariates no jitter occurs and the fit of an arm is its mean. |
| Aipw.TrivialScoresAreConstant | packages/backend/src/revpilot/modules/causal/overlap.py:33-38 | The scores computed without covariates are constant and, once clamped, lie strictly between 0 and 1. |
| Aipw.TrivialScoresEstimate | packages/backend/src/revpilot/modules/causal/estimators.py:123-166 | Without covariates and with labels 0 and 1, the estimate under the scores that the estimator computes itself is the difference of the arm means. |
| AipwMeaning.EstimateByArms | packages/backend/src/revpilot/modules/causal/estimators.py:146-166 | For any scores and labels 0 and 1, n times the estimate is the sum of the modelled effects, plus the residual of each treated sample over its own clamped score, minus that of each control sample over one minus its own. |
| AipwMeaning.ScoresActLocally | packages/backend/src/revpilot/modules/causal/estimators.py:153-166 | Changing the score of one sample changes the sum of the influence values by the change of that sample alone. |
| AipwMeaning.ClampMeaning | packages/backend/src/revpilot/modules/causal/estimators.py:156 | Clamping takes a score to the nearest value between the bounds. |
| AipwMeaning.TrivialScoresAreTreatedShare | packages/backend/src/revpilot/modules/causal/overlap.py:33-38 | Without covariates every score is the share of the treated, but at least 0.001 and at most 0.999. |
| AipwMeaning.ArmFitMinimises | packages/backend/src/revpilot/modules/causal/estimators.py:134-148 | The model of an arm is the unique minimiser, over the samples of that arm alone, of the squared error plus 0.01 times the squared slopes, as soon as one of its samples meets the bound of ScaledDataNeedNoJitter. |
| ApprovalDispatch.Router.constructor | apps/api/routers/approvals.py:104-107 | A router starts with empty caches. |
| ApprovalDispatch.Router.CreateApproval | apps/api/routers/approvals.py:58-120 | Caches a PENDING record sealed with the digest of its artifact and a one-day expiry. |
| ApprovalDispatch.Router.GrantApproval | apps/api/routers/approvals.py:231-357 | One atomic step with the checks in the source order; only the expired and the granted outcome write. |
| ApprovalDispatch.Router.RejectApproval | apps/api/routers/approvals.py:360-402 | One atomic step; an id that is not cached is answered REJECTED and nothing is written. |
| ApprovalDispatch.Router.BeginDispatch | apps/api/routers/approvals.py:443-577 | From the idempotency check to the call of the gateway, without a suspension in between. |
| ApprovalDispatch.Router.ResumeAfterGateway | apps/api/routers/approvals.py:576-615 | What a dispatch handler does when the gateway answers, up to its next suspension. |
| ApprovalDispatch.Router.ResumeAfterLedger | apps/api/routers/approvals.py:626-639 | The end of a dispatch, which alone fills the intent cache. |
| ApprovalDispatch.RunKeepsInv | apps/api/routers/approvals.py:231-639 | Every interleaving of handler steps keeps the invariant of the shared caches. |
| ApprovalDispatch.GatewayAtMostOnce | apps/api/routers/approvals.py:467-577 | In every interleaving the log of gateway calls holds at most one call for each approval. |
| ApprovalDispatch.CallsCarrySealedArtifact | apps/api/routers/approvals.py:563-574 | Every call in the log carries the action, targets and payload of its approval, whose digest is the one sealed at creation. |
| ApprovalDispatch.WaitingRecordIsDispatching | apps/api/routers/approvals.py:543-609 | A record that waits for the gateway is still DISPATCHING when its handler resumes, and no other handler holds it. |
| ApprovalDispatch.StatusWritesFollowTable | packages/backend/src/revpilot/modules/approval/state_machine.py:25-52 | Every status write is an edge of the transition table, and a record sees at most three. |
| ApprovalDispatch.SignedRecordsAreProper | apps/api/routers/approvals.py:285-345 | Each record at or past APPROVED was signed by someone other than its requester, within tier and spend limit, and its seal still matches its artifact. |
| ApprovalDispatch.RunKeepsRecords | apps/api/routers/approvals.py:231-609 | Records are never lost, their terms never change, and a terminal record stays exactly as it is. |
| DispatchHistory.RecordIsAsRequested | apps/api/routers/approvals.py:58-120 | Over every run from empty caches each cached record was created by a request for exactly its tenant, requester, tier, cost, action, targets and payload, lives for one day, and carries the digest of exactly those terms. |
| DispatchHistory.GrantedIff | apps/api/routers/approvals.py:247-345 | A grant goes through if and only if the record is cached and PENDING, tenants agree, the time is before the expiry, the approver is not the requester, may sign for tier and cost (tier 3 or more than 1000, tier 2 or more than 250, at most 10000) and is no agent, and an expected digest is the stored one; it then changes status and approver only. |
| DispatchHistory.SignaturesAreEntitled | apps/api/routers/approvals.py:285-345 | Over every run each record at or past APPROVED was signed under these conditions. |
| DispatchHistory.KillSwitchStops | apps/api/routers/approvals.py:433-441 | With the kill switch engaged a dispatch changes nothing in any state and calls nobody. |
| DispatchHistory.CallsAreAllowed | apps/api/routers/approvals.py:424-577 | Over every run each gateway call was made with the kill switch off, by somebody allowed to dispatch, strictly before the record expired, in the name of its tenant, under a key, and under the policy in force. |
| DispatchHistory.GoesOutIff | apps/api/routers/approvals.py:424-577 | In every reachable state a dispatch reaches the gateway if and only if the caller may dispatch, the switch is off, the key is not empty and not answered yet, a gateway is at hand, and the record is APPROVED, of the tenant, not expired and names an action. |
| DispatchHistory.OutcomeIsAnswer | apps/api/routers/approvals.py:576-609 | Over every run a record is SUCCEEDED if and only if the gateway answered its call well, and PROVIDER_FAILED if and only if it answered badly. |
| DispatchHistory.ExpiresIff | apps/api/routers/approvals.py:269-283 | A step expires a record if and only if it grants a PENDING or dispatches an APPROVED one, past the checks before, at or after its expiry. |
| DispatchHistory.TableIs | packages/backend/src/revpilot/modules/approval/state_machine.py:25-52 | The transition table edge by edge; a status is terminal exactly when no edge leaves it. |
| DispatchHistory.GrantAnswers | apps/api/routers/approvals.py:231-357 | Which refusal a grant is answered with, and exactly when. |
| DispatchHistory.RejectAnswers | apps/api/routers/approvals.py:360-402 | A rejection takes effect exactly on a PENDING record when the caller may decide, and changes its status alone; an unknown id is answered as if it had. |
| DispatchHistory.DispatchAnswers | apps/api/routers/approvals.py:424-541 | Which refusal a dispatch is answered with in every reachable state, in the order of the checks. |
| DispatchKeys.RunKeepsIntentsBacked | apps/api/routers/approvals.py:602-637 | Every entry of the intent cache belongs to an approval whose gateway call succeeded. |
| DispatchKeys.OneCallPerKey | apps/api/routers/approvals.py:443-457 | Over every run from empty caches a key of a tenant sees at most one gateway call, as long as no dispatch under it begins while another is in flight, none gets a failed answer, and none is abandoned. |
| DispatchKeys.DisturbanceCallsTwice | apps/api/routers/approvals.py:576-637 | Each of the three conditions is needed: from any state with two approvals ready under one key, overlap, a failed answer, or a handler that is dropped at the gateway or at the ledger lets both go out. |
| DispatchKeys.KeyCalledTwiceFromStart | apps/api/routers/approvals.py:231-637 | Such states are reached: from empty caches, two creates, two grants and each disturbance make two gateway calls under one key. |
| DispatchKeys.KeysStayWithoutOverlap | apps/api/routers/approvals.py:449-457 | Once a key is answered, it keeps its approval and its answer as long as no two dispatches under it overlap. |
| DispatchKeys.OverlapRebindsKey | apps/api/routers/approvals.py:634-637 | When they do overlap, two approvals go out under one key and the later answer replaces the earlier. |
| StrandedRecords.StrandsIff | apps/api/routers/approvals.py:535-578 | In every state that keeps the invariant, a step leaves a record DISPATCHING with no handler at the gateway for it if and only if it is a dispatch of that record that gets stuck between the status write and the call of the gateway, or it drops the handler that waits at the gateway for it. |
| StrandedRecords.MarkingStrandsIff | apps/api/routers/approvals.py:543-578 | Of the dispatches that mark their record, exactly those get stuck and strand it that have no gateway at hand (none attached, and the environment is not test), an empty key, or an empty action; the others call the gateway. |
| StrandedRecords.NothingGoesOutWithoutGateway | packages/backend/src/revpilot/modules/tool_gateway/action/gateway.py:155-172 | Without a gateway at hand no run from empty caches ever calls one or ends a dispatch, and every record that is marked is stranded. |
| StrandedRecords.StrandedIffAccident | apps/api/routers/approvals.py:535-578 | Over every run from empty caches a record ends up stranded if and only if one of those steps happened to it, and then it is stranded in every continuation. |
| StrandedRecords.AccidentsHappen | apps/api/routers/approvals.py:535-578 | Four runs from empty caches that strand a record: no gateway at hand, an empty key, an empty action, and a handler dropped at the gateway. |
| StrandedRecords.StrandedForGood | apps/api/routers/approvals.py:535-578 | A stranded record stays DISPATCHING in every later state. |
| DispatchTenants.OnlyRejectionsCross | apps/api/routers/approvals.py:231-609 | In every reachable state, a step in the name of a tenant that does not own the record changes it if and only if the step rejects it, it is PENDING, and the caller may decide; it then becomes REJECTED and is otherwise unchanged. |
| DispatchTenants.RejectionCrosses | apps/api/routers/approvals.py:369-391 | Such a rejection is reached: a record created for one tenant is rejected in the name of any tenant. |
| TenantStore.PutIsUpdate | packages/backend/src/revpilot/modules/approval/ports.py:53-59 | Opening the tenant on demand and storing under it is an update of one flat table. |
| TenantStore.Get | packages/backend/src/revpilot/modules/approval/ports.py:61-67 | A lookup in the nested dictionaries is a lookup in the flat table, with nothing found when either level lacks the key. |
| ApprovalService.ApprovalRepository.constructor | packages/backend/src/revpilot/modules/approval/ports.py:49-51 | An empty repository. |
| ApprovalService.ApprovalRepository.Save | packages/backend/src/revpilot/modules/approval/ports.py:53-59 | Stores one record under its tenant and id and touches no other entry. |
| ApprovalService.ApprovalRepository.Find | packages/backend/src/revpilot/modules/approval/ports.py:61-67 | Finds exactly the record stored under tenant and id. |
| ApprovalService.ApprovalRepository.Update | packages/backend/src/revpilot/modules/approval/ports.py:69-75 | Replaces one record and touches no other entry. |
| ApprovalService.ApprovalRepository.ListPending | packages/backend/src/revpilot/modules/approval/ports.py:77-87 | Exactly the tenant's pending records, each once, oldest first. |
| ApprovalService.Service.constructor | packages/backend/src/revpilot/modules/approval/service.py:29-30 | A service over an empty repository. |
| ApprovalService.Service.CreateRequest | packages/backend/src/revpilot/modules/approval/service.py:32-102 | Result and new state of a create, each error included, as one step of the specification. |
| ApprovalService.Service.GrantApproval | packages/backend/src/revpilot/modules/approval/service.py:104-212 | The same for a grant; a grant that comes too late writes EXPIRED before it fails. |
| ApprovalService.Service.RejectRequest | packages/backend/src/revpilot/modules/approval/service.py:214-239 | The same for a rejection, which is possible from PENDING only. |
| ApprovalService.Service.RevokeApproval | packages/backend/src/revpilot/modules/approval/service.py:241-265 | The same for a revocation, which only EXECUTING and COMPLETED block. |
| ApprovalService.Service.AmendRequest | packages/backend/src/revpilot/modules/approval/service.py:267-337 | The same for an amendment; the original is superseded before the new record is validated. |
| ApprovalService.Service.ExpireStaleRequests | packages/backend/src/revpilot/modules/approval/service.py:339-350 | Exactly the stale pending records of the tenant become EXPIRED and are counted, in whatever order the scan meets them. |
| ApprovalService.ComputeTier | packages/backend/src/revpilot/modules/approval/service.py:352-358 | The tier of risk and cost, where an infinite cost is above or below every limit, and an error exactly when a cost that is no number is compared, which high risk alone avoids. |
| ApprovalHistory.StepKeepsInv | packages/backend/src/revpilot/modules/approval/service.py:32-350 | Each call keeps the invariant: seals, tiers, links and grant log. |
| ApprovalHistory.RunKeepsInv | packages/backend/src/revpilot/modules/approval/service.py:32-350 | So does every run of calls. |
| ApprovalHistory.ReachableInv | packages/backend/src/revpilot/modules/approval/service.py:32-350 | Hence it holds in every reachable state. |
| ApprovalTheorems.ChainLinks | packages/backend/src/revpilot/modules/approval/service.py:295-337 | Following superseded_by: each link leads to a record whose id was generated later, of the same tenant, decision and action type, whose causation id points back; the chain stops at a record without a stored successor. |
| ApprovalTheorems.ChainsEnd | packages/backend/src/revpilot/modules/approval/service.py:295-302 | A chain visits no record twice, so following links always terminates. |
| ApprovalTheorems.OneOriginal | packages/backend/src/revpilot/modules/approval/service.py:333 | No two records are superseded by the same stored record. |
| ApprovalTheorems.AmendSucceedsIff | packages/backend/src/revpilot/modules/approval/service.py:280-337 | An amendment succeeds exactly when the record exists, is not SUPERSEDED, the new payload can be digested and the cost is finite and not negative; its chain then runs on to a fresh pending record that nobody has granted. |
| ApprovalTheorems.LinksStayLiveIff | packages/backend/src/revpilot/modules/approval/service.py:295-336 | Every link leads to a stored record after a call if and only if the call is not an amendment of an amendable record with a payload that cannot be digested or a cost that is negative or not finite. |
| ApprovalTheorems.UnbuildableDangles | packages/backend/src/revpilot/modules/approval/service.py:295-325 | For every such payload or cost, one create and one amendment after which the original is SUPERSEDED by an id that was never stored. |
| ApprovalTheorems.DanglingRuns | packages/backend/src/revpilot/modules/approval/service.py:302-325 | Three of these runs side by side: a negative cost, a cost that is no number, a payload that JSON cannot hold. |
| ApprovalTheorems.DanglingLinkIsDead | packages/backend/src/revpilot/modules/approval/service.py:295-336 | The id behind such a link is not stored in any later state either. |
| ApprovalTheorems.RunExtends | packages/backend/src/revpilot/modules/approval/service.py:104-350 | Over every run records are kept, sealed fields never change, PENDING is never re-entered, no decision is replaced by another, and the grant log only grows. |
| ApprovalTheorems.GrantSucceedsIff | packages/backend/src/revpilot/modules/approval/service.py:119-212 | In every reachable state a grant succeeds exactly for an existing PENDING record, a human, a time before expiry, the sealed digest and a tier of 3 for high risk or more than 1000, 2 for medium risk or more than 250, else 1. |
| ApprovalTheorems.SeparationNeverFires | packages/backend/src/revpilot/modules/approval/service.py:134-139 | The separation-of-duties error is unreachable, because the service never records a requester. |
| ApprovalTheorems.GrantedOnce | packages/backend/src/revpilot/modules/approval/service.py:141-166 | An id granted once is never granted again, whatever happens in between. |
| ApprovalTheorems.GrantsAreProper | packages/backend/src/revpilot/modules/approval/service.py:168-212 | Every grant was made before expiry, for the digest of the stored payload, by a tier that risk and cost ask for, and is the only one of its id. |
| ApprovalTheorems.ApprovedWasGranted | packages/backend/src/revpilot/modules/approval/service.py:203-211 | An APPROVED record has a grant in the log, by its recorded approver. |
| ApprovalTheorems.OtherTenantsUntouched | packages/backend/src/revpilot/modules/approval/ports.py:53-87 | A call for one tenant leaves all other tenants' records as they were. |
| ApprovalGrounds.CreateSucceedsIff | packages/backend/src/revpilot/modules/approval/service.py:52-102 | A create succeeds if and only if tenant and customer are not blank, the cost is a finite amount of at least zero, and payload and policy can be digested; the stored record then carries each term of the request, and expires after its hours to live. |
| ApprovalGrounds.AmendedAsAsked | packages/backend/src/revpilot/modules/approval/service.py:280-337 | An amendment that succeeds stores a pending record with the new payload, the new cost and targets or those of the original, and every other term of the original, for 24 hours; the original is SUPERSEDED by its id and nothing else changes. |
| ApprovalGrounds.RejectTakesEffect | packages/backend/src/revpilot/modules/approval/service.py:214-239 | In every reachable state a rejection goes through exactly for a PENDING record, which then has status, decider and reason; nothing else changes. |
| ApprovalGrounds.RevokeTakesEffect | packages/backend/src/revpilot/modules/approval/service.py:241-265 | In every reachable state a revocation goes through exactly for a stored record, which then has status and reason; nothing else changes. |
| ApprovalGrounds.ExpiresAtItsExpiry | packages/backend/src/revpilot/modules/approval/service.py:339-350 | An expiry run changes exactly the tenant's PENDING records whose own expiry has come, and only their status. |
| ApprovalGrounds.LateGrantExpires | packages/backend/src/revpilot/modules/approval/service.py:168-183 | A grant of a PENDING record expires it if and only if it is by a human and not before the expiry. |
| ApprovalGrounds.CreateRefusals | packages/backend/src/revpilot/modules/approval/service.py:52-99 | Which error a create fails with, and exactly when. |
| ApprovalGrounds.GrantRefusals | packages/backend/src/revpilot/modules/approval/service.py:119-201 | In every reachable state: which error a grant fails with, and exactly when, by status, time, tier and digest. |
| ApprovalGrounds.OtherRefusals | packages/backend/src/revpilot/modules/approval/service.py:214-293 | The same for a rejection, a revocation and an amendment. |
| ApprovalGrounds.ChecksInAnyState | packages/backend/src/revpilot/modules/approval/service.py:119-265 | The conditions of a grant and a revocation over any records, those with a requester and those in execution included. |
| ApprovalGrounds.RecordIsAsAsked | packages/backend/src/revpilot/modules/approval/service.py:77-99 | Over every run each stored record is what one call asked for, field by field: a create, or an amendment of an older record of the tenant that is stored too. |
| ApprovalGrounds.OriginOf | packages/backend/src/revpilot/modules/approval/service.py:306-337 | Following amendments back leads to a create with the risk, action, customer, decision and rules of the record, and to a call that names its cost. |
| ApprovalGrounds.GrantsFitRequests | packages/backend/src/revpilot/modules/approval/service.py:104-212 | Over every run each logged grant has the tier that the requested risk and the named cost demand: 3 for high or critical risk or more than 1000, 2 for medium risk or more than 250, else 1. |
| ApprovalGrounds.StatusHasCause | packages/backend/src/revpilot/modules/approval/service.py:104-350 | Over every run a record has its status from a call that asked for it, with the decider, reason, moment or successor noted there; APPROVED comes from a human before the expiry, EXPIRED from a call at or after it. |
| ActionLedger.IntentRepository.constructor | packages/backend/src/revpilot/modules/action/ports.py:68-71 | An empty repository with an empty index. |
| ActionLedger.IntentRepository.Save | packages/backend/src/revpilot/modules/action/ports.py:73-81 | Stores the intent and its index entry; the index dictionary of the tenant is always open when it is needed. |
| ActionLedger.IntentRepository.Find | packages/backend/src/revpilot/modules/action/ports.py:83-89 | Finds exactly the intent stored under tenant and id. |
| ActionLedger.IntentRepository.FindByIdempotencyKey | packages/backend/src/revpilot/modules/action/ports.py:91-99 | Looks the id up in the index and the intent under that id. |
| ActionLedger.IntentRepository.Update | packages/backend/src/revpilot/modules/action/ports.py:101-109 | Rewrites the intent and its index entry. |
| ActionLedger.LedgerRepository.constructor | packages/backend/src/revpilot/modules/action/ports.py:115-117 | An empty journal. |
| ActionLedger.LedgerRepository.Save | packages/backend/src/revpilot/modules/action/ports.py:119-125 | Stores one attempt and touches no other. |
| ActionLedger.LedgerRepository.Find | packages/backend/src/revpilot/modules/action/ports.py:127-133 | Finds exactly the attempt stored under tenant and id. |
| ActionLedger.LedgerRepository.ListByIntent | packages/backend/src/revpilot/modules/action/ports.py:135-142 | All attempts of the intent and nothing else, each once, sorted by number. |
| ActionLedger.LedgerRepository.Update | packages/backend/src/revpilot/modules/action/ports.py:144-150 | Replaces one attempt and touches no other. |
| ActionLedger.Service.constructor | packages/backend/src/revpilot/modules/action/ledger.py:33-39 | A service over two empty repositories. |
| ActionLedger.Service.CreateIntent | packages/backend/src/revpilot/modules/action/ledger.py:41-89 | Result and new state of a create, each error included, as one step of the specification. |
| ActionLedger.Service.RecordAttemptStart | packages/backend/src/revpilot/modules/action/ledger.py:112-149 | The same for the start of an attempt, which is numbered one above the attempts so far. |
| ActionLedger.Service.RecordAttemptCompletion | packages/backend/src/revpilot/modules/action/ledger.py:151-191 | The same for a completion and its effect on the parent intent. |
| LedgerHistory.RunKeepsInv | packages/backend/src/revpilot/modules/action/ledger.py:41-191 | Every sequential run keeps index, storage, numbering and statuses consistent. |
| LedgerHistory.ReachableInv | packages/backend/src/revpilot/modules/action/ledger.py:41-191 | Hence they are consistent in every reachable state. |
| LedgerHistory.KeyFinds | packages/backend/src/revpilot/modules/action/ports.py:91-99 | In a consistent state an indexed key finds exactly the one stored intent with that key, and an unindexed key none. |
| LedgerHistory.InitializedIffUntried | packages/backend/src/revpilot/modules/action/ledger.py:144-147 | An intent is INITIALIZED exactly while it has no attempts. |
| LedgerTheorems.AttemptsListInOrder | packages/backend/src/revpilot/modules/action/ledger.py:127-131 | The listed attempts of an intent carry the numbers 1 to n in order. |
| LedgerTheorems.StatusIsLastWord | packages/backend/src/revpilot/modules/action/ledger.py:181-189 | An intent is COMPLETED, FAILED or RECONCILING exactly when the last decisive completion of any of its attempts reported success, a provider error or an unknown timeout; so COMPLETED is not final. |
| LedgerTheorems.OneIntentPerKey | packages/backend/src/revpilot/modules/action/ports.py:80-81 | Two stored intents of a tenant never share a key. |
| LedgerTheorems.CreateSucceedsIff | packages/backend/src/revpilot/modules/action/ledger.py:53-89 | A create succeeds exactly for a matching tenant and either a taken key or a nonempty free one with a dry run or an approved request. |
| LedgerTheorems.RunExtends | packages/backend/src/revpilot/modules/action/ledger.py:41-191 | Over every run intents and index entries stay, and all of an intent but its status is fixed. |
| LedgerTheorems.RepeatingCreateReturnsIt | packages/backend/src/revpilot/modules/action/ledger.py:60-66 | After any run, repeating a create under the same key returns the first intent and changes nothing, whatever else the request says. |
| LedgerTheorems.IntentsAreGrounded | packages/backend/src/revpilot/modules/action/ledger.py:68-88 | Every stored intent that is not a dry run was created for an approval that was APPROVED when presented. |
| LedgerTheorems.IntentRestsOnGrant | packages/backend/src/revpilot/modules/action/ledger.py:68-88 | If that approval came from the approval service, a timely grant of exactly the digested payload stands in its log. |
| LedgerGrounds.CreateStoresIt | packages/backend/src/revpilot/modules/action/ledger.py:74-89 | A create under a free key stores the id, tenant, approval, key, action, classification, number of targets, digest and dry-run flag asked for; any other create changes nothing. |
| LedgerGrounds.CreateRefusals | packages/backend/src/revpilot/modules/action/ledger.py:53-87 | Which error a create fails with, and exactly when; a taken key is answered before approval and key are looked at. |
| LedgerGrounds.StartSucceedsIff | packages/backend/src/revpilot/modules/action/ledger.py:112-149 | A start goes through exactly for a stored intent; it stores an attempt as asked for, with the next number and nothing reported, and moves an INITIALIZED intent to DISPATCHED. |
| LedgerGrounds.CompletionSucceedsIff | packages/backend/src/revpilot/modules/action/ledger.py:151-191 | A completion goes through exactly for a stored attempt; it notes the report, and moves the intent to COMPLETED on success, FAILED on a provider error, RECONCILING on an unknown timeout, and not at all otherwise. |
| LedgerGrounds.IntentIsAsAsked | packages/backend/src/revpilot/modules/action/ledger.py:74-89 | Over every run each stored intent is the one that some create asked for, field by field, dry runs included. |
| LedgerGrounds.AttemptIsAsReported | packages/backend/src/revpilot/modules/action/ledger.py:112-191 | Over every run each stored attempt is the one that some start asked for, and shows what some completion of it reported, if any. |
| TimeSlices.GenerateTimeSlices | packages/backend/src/revpilot/modules/analytics/metric_service.py:287-314 | Terminates with one slice for a snapshot or an empty window, else with contiguous, strictly increasing slices that cover the window, all of one step but a shorter last one. |
| TimeSlices.CutsAreUnique | packages/backend/src/revpilot/modules/analytics/metric_service.py:287-314 | That description leaves only one list of slices. |
| TimeSlices.HitsInWindow | packages/backend/src/revpilot/modules/analytics/metric_service.py:342-348 | A moment of the window lies in one slice, and in two exactly when it is an interior boundary. |
| MetricData.OrdersAreConserved | packages/backend/src/revpilot/modules/analytics/metric_service.py:344-360 | Added up over the datasets of the slices, each in-window order is counted once, plus once more exactly on an interior boundary. |
| MetricData.FilteredIsOwnAndPast | packages/backend/src/revpilot/modules/analytics/metric_service.py:250-285 | What passes the filter belongs to the tenant and lies at or before the watermark. |
| MetricData.FilteringTwiceIsOnce | packages/backend/src/revpilot/modules/analytics/metric_service.py:250-285 | Filtering what has been filtered takes nothing more away, in any of the nine tables. |
| MetricData.SliceIsOwnAndPast | packages/backend/src/revpilot/modules/analytics/metric_service.py:316-360 | Slicing never brings other records in, the fallback to all customers included. |
| CartesianProduct.Compute | packages/backend/src/revpilot/modules/analytics/metric_service.py:474-482 | The nested comprehension builds the product, and an empty list for no pools. |
| CartesianProduct.ProductSize | packages/backend/src/revpilot/modules/analytics/metric_service.py:480-482 | Its length is the product of the pool sizes. |
| CartesianProduct.ChoiceIsThere | packages/backend/src/revpilot/modules/analytics/metric_service.py:480-482 | Every choice of one index per pool stands at its mixed-radix position. |
| CartesianProduct.PositionIsTaken | packages/backend/src/revpilot/modules/analytics/metric_service.py:480-482 | Every position holds the pick of one choice, so each choice appears once. |
| CartesianProduct.PositionsFollowOrder | packages/backend/src/revpilot/modules/analytics/metric_service.py:480-482 | Positions follow the lexicographic order of the choices. |
| CartesianProduct.ProductHolds | packages/backend/src/revpilot/modules/analytics/metric_service.py:480-482 | As a set the product is exactly the picks from every pool. |
| MetricGroups.ExtractGroups | packages/backend/src/revpilot/modules/analytics/metric_service.py:428-472 | The groups are exactly the distinct combinations that some record of the routed entity shows and that pass the filters, pairs sorted, in lexicographic order. |
| MetricGroups.OrderCombos | packages/backend/src/revpilot/modules/analytics/metric_service.py:433-439 | The combinations of an order are exactly one shown value per dimension. |
| MetricGroups.GroupsAreUnique | packages/backend/src/revpilot/modules/analytics/metric_service.py:472 | So the list of groups is determined, although values are collected in no fixed order. |
| MetricGroups.SortedReadsAlike | packages/backend/src/revpilot/modules/analytics/metric_service.py:446-449 | Sorting the pairs of a record with one value per dimension does not change the dictionary that the filters are tested on. |
| MetricGateway.EvaluateSlice | packages/backend/src/revpilot/modules/analytics/metric_service.py:184-220 | One point for the slice, or one for each group, or the placeholder when there is no group. |
| MetricGateway.Query | packages/backend/src/revpilot/modules/analytics/metric_service.py:73-244 | Refuses a request exactly for the first reason that applies, else returns the series of all slices in order. |
| MetricGateway.ToPoint | packages/backend/src/revpilot/modules/analytics/metric_service.py:484-515 | Without a denominator or with a zero sample the point is flagged and its value and sample size are zero. |
| MetricGateway.SeriesIsUnique | packages/backend/src/revpilot/modules/analytics/metric_service.py:182-220 | Slices, groups and calculation determine the series. |
| MetricGateway.AnswerSeesOnlyOwnPast | packages/backend/src/revpilot/modules/analytics/metric_service.py:171-177 | Two datasets that agree on the own records up to the watermark get the same series. |
| MetricGateway.OwnPastAloneAnswers | packages/backend/src/revpilot/modules/analytics/metric_service.py:171-177 | A series answers a request over a dataset if and only if it answers it over the own records up to the watermark alone, all nine tables included. |
| MetricGateway.HiddenOrderIsIgnored | packages/backend/src/revpilot/modules/analytics/metric_service.py:259-266 | An order of another tenant or after the watermark can be put in anywhere without changing the series. |
| MetricGateway.CalculationSeesOnlyOwnPast | packages/backend/src/revpilot/modules/analytics/metric_service.py:183-190 | Every dataset handed to a metric's calculation holds only own records up to the watermark. |
| MetricGateway.UngroupedPointsFollowSlices | packages/backend/src/revpilot/modules/analytics/metric_service.py:188-192 | Without grouping there is one point per slice and the windows of the points are the slices in order. |
| SliceMeaning.FilterKeepsOwnPast | packages/backend/src/revpilot/modules/analytics/metric_service.py:250-285 | In all nine tables the cut keeps every own record up to the watermark, as often as it is there and in order, and nothing else; payments by the time they were processed. |
| SliceMeaning.SnapshotTables | packages/backend/src/revpilot/modules/analytics/metric_service.py:328-340 | For METRIC-002 a slice holds exactly the orders, shipments and tickets up to its end, each as often as it is there, and the other tables unchanged. |
| SliceMeaning.SliceTables | packages/backend/src/revpilot/modules/analytics/metric_service.py:342-360 | For every other metric a slice holds exactly the orders, shipments, tickets and payments within its bounds, each as often as it is there; the customers within its bounds, or all of them when there is none; and the other tables unchanged. |
| SliceMeaning.RecordsAreConserved | packages/backend/src/revpilot/modules/analytics/metric_service.py:171-360 | Over the slices of a query each own order, shipment, ticket and payment up to the watermark is handed to the calculation once for a moment of the window, twice where two slices meet, and never outside; nothing else ever is. |
| SliceMeaning.PointsTellCalculations | packages/backend/src/revpilot/modules/analytics/metric_service.py:182-244 | Each point tells what one calculation over the dataset of its slice gives, seen from the earlier of the end and the watermark, with the filters of its group over those of the request; no group leaves one placeholder. |
| SliceMeaning.GroupComesFromRecord | packages/backend/src/revpilot/modules/analytics/metric_service.py:428-472 | Every group comes from a record of the metric's kind that shows its values, and agrees with each filter on a dimension of the group, the last of two equal dimensions deciding. |
| SliceMeaning.RecordGivesGroup | packages/backend/src/revpilot/modules/analytics/metric_service.py:428-472 | And every such choice of a record's values gives one of the groups. |
| SliceMeaning.OrdersShow | packages/backend/src/revpilot/modules/analytics/metric_service.py:386-401 | An order shows the carrier, warehouse, origin or destination of any of its shipments, the category of any of its lines, and the tier of its customer; without any it is unknown. |
| SliceMeaning.TierIsLast | packages/backend/src/revpilot/modules/analytics/metric_service.py:371 | Of several customers with one id the last tells the tier. |
| SliceMeaning.RoutedEntity | packages/backend/src/revpilot/modules/analytics/metric_service.py:428-470 | The kind of record that each metric is grouped by. |
| SliceMeaning.RefusalIs | packages/backend/src/revpilot/modules/analytics/metric_service.py:95-169 | When a request is refused and for which reason: tenant, watermark, registry, or a dimension that is grouped or filtered by and not allowed. |
| FdrControl.MaxFdrRank | packages/backend/src/revpilot/modules/analytics/localization.py:402-409 | The scan over the sorted p-values ends at the largest k such that at least k p-values are at most k alpha / m, or at -1. |
| FdrControl.StepUp | packages/backend/src/revpilot/modules/analytics/localization.py:401-412 | A candidate is rejected exactly when its p-value is at most that threshold. |
| FdrControl.RankPasses | packages/backend/src/revpilot/modules/analytics/localization.py:406-409 | The rank test of the scan is the counting test of the definition. |
| FdrControl.RankWithinKStar | packages/backend/src/revpilot/modules/analytics/localization.py:411-412 | Comparing ranks and comparing p-values with the threshold select the same candidates. |
| FdrControl.OrderDoesNotMatter | packages/backend/src/revpilot/modules/analytics/localization.py:402 | The decision on a p-value depends neither on input order nor on how ties are broken. |
| FdrControl.LoweringKeepsRejections | packages/backend/src/revpilot/modules/analytics/localization.py:406-412 | Lowering p-values never takes back a rejection. |
| FdrControl.RejectionCount | packages/backend/src/revpilot/modules/analytics/localization.py:406-412 | Exactly as many candidates are rejected as the threshold rank says. |
| FdrControl.RejectedIff | packages/backend/src/revpilot/modules/analytics/localization.py:402-412 | The procedure in numbers, for m candidates at 5 percent: p is rejected if and only if for some k at least k candidates, and p itself, satisfy 20 m p <= k. |
| FdrControl.RankSegments | packages/backend/src/revpilot/modules/analytics/localization.py:414-444 | The ranked list is the multiset of segments with their shares and decisions, by excess and then lift. |
| FdrControl.SharesAreComplete | packages/backend/src/revpilot/modules/analytics/localization.py:414-420 | The shares add up to 100 percent, or are all zero when there is no excess. |
| FdrControl.RankedByExcess | packages/backend/src/revpilot/modules/analytics/localization.py:423-427 | Of two ranked segments the first has the larger excess, and on a tie no smaller lift. |
| FdrControl.SharesInNumbers | packages/backend/src/revpilot/modules/analytics/localization.py:414-420 | Every ranked entry is one of the segments, with its percentage of the total excess. |
| HypothesisVerifier.VerifyHypotheses | packages/backend/src/revpilot/modules/agent/verifier.py:55-225 | The empty cases answer as in the source; otherwise the verdict, ranking, counts and descriptors are those of the specification in terms of the hypotheses. |
| HypothesisVerifier.DecisionMeaning | packages/backend/src/revpilot/modules/agent/verifier.py:203-214 | Ranking and branching collapse: VERIFIED if and only if some hypothesis is fully grounded, REFUTED if and only if every hypothesis is contradicted. |
| HypothesisVerifier.GroundedEvaluation | packages/backend/src/revpilot/modules/agent/verifier.py:116-179 | A hypothesis is grounded exactly when its evaluation shows no contradiction, full coverage, nothing unsupported and likelihood at least 0.80; coverage always lies between 0 and 1. |
| HypothesisVerifier.EvaluateAll | packages/backend/src/revpilot/modules/agent/verifier.py:116-179 | The loop totals unsupported claims and contradictions, and emits one descriptor for each. |
| HypothesisVerifier.EvaluateTop | packages/backend/src/revpilot/modules/agent/verifier.py:206-211 | Once nothing is unsupported, the thresholds on coverage and citations are met as well. |
| HypothesisVerifier.RankedInOrder | packages/backend/src/revpilot/modules/agent/verifier.py:181-196 | The ranked hypotheses are ordered by the four criteria. |
| HypothesisVerifier.BuildIndex | packages/backend/src/revpilot/modules/agent/verifier.py:84-88 | The loop builds the specified index. |
| HypothesisVerifier.LaterRecordCounts | packages/backend/src/revpilot/modules/agent/verifier.py:84-88 | That index is the one and only table that holds exactly the ids of the records, each with the latest record that carries it. |
| VerdictMeaning.VerdictInPlainTerms | packages/backend/src/revpilot/modules/agent/verifier.py:116-214 | Read off the bundle itself: VERIFIED if and only if some hypothesis has citations whose latest records are all the tenant's own and active, no unverified claim, no contradicting id in the bundle and a likelihood of at least 0.80; REFUTED if and only if each has a contradicting id in the bundle. |
| VerdictMeaning.EvaluationInNumbers | packages/backend/src/revpilot/modules/agent/verifier.py:116-179 | Coverage is the share of counting citations among all citations and unverified claims; unsupported are the rest, or one for having no citation, and contradictions the contradicting ids in the bundle. |
| VerdictMeaning.TotalsInNumbers | packages/backend/src/revpilot/modules/agent/verifier.py:116-179 | The totals of unsupported claims and contradictions are the sums of these numbers over all hypotheses. |
| VerdictMeaning.RankedInNumbers | packages/backend/src/revpilot/modules/agent/verifier.py:181-196 | Of two ranked hypotheses the first is uncontradicted if the second is, then better covered, then has fewer unsupported claims, then is at least as likely. |
| VerdictMeaning.EmptyBundleCounts | packages/backend/src/revpilot/modules/agent/verifier.py:90-108 | For an empty bundle the unsupported claims are what evaluating every hypothesis against it would have counted. |
| SseStream.Client.constructor | apps/web/src/hooks/useSSE.ts:53 | An empty buffer and no messages. |
| SseStream.Client.Feed | apps/web/src/hooks/useSSE.ts:59-98 | One chunk yields the frames that its arrival completes and keeps the rest. |
| SseStream.Client.Consume | apps/web/src/hooks/useSSE.ts:55-99 | All chunks together yield the frames and the leftover of one split of the whole stream. |
| SseStream.Split | apps/web/src/hooks/useSSE.ts:60-61 | The complete blocks and the last piece, which holds no blank line. |
| SseStream.ParseBlock | apps/web/src/hooks/useSSE.ts:64-76 | The loop over the lines of a block computes the specified frame. |
| SseStream.LastLineCounts | apps/web/src/hooks/useSSE.ts:66-73 | The last event line and the last data line count, trimmed, and without one the value from before stays. |
| SseStream.BlockMeaning | apps/web/src/hooks/useSSE.ts:64-76 | A block shows a frame if and only if its last data line has text; the frame carries that text and the event type of the last event line, or message without one. |
| SseStream.SplitAnywhere | apps/web/src/hooks/useSSE.ts:59-61 | Splitting what has arrived and then the leftover with the rest is splitting the whole text. |
| SseStream.ParsePrintedList | apps/api/routers/investigations.py:270-355 | Parsing the printed frames recovers exactly the printed list of event and data pairs. |
| SseStream.RoundTripIffClean | apps/api/routers/investigations.py:270-355 | Printing and parsing is the identity if and only if every event name and payload is one trimmed line and no payload is empty. |
| SseStream.FramesAreClean | apps/web/src/hooks/useSSE.ts:63-97 | The client only ever shows such frames. |
| SseStream.Deliver | apps/web/src/hooks/useSSE.ts:51-99 | However the transport cuts the stream, a new client receives exactly the printed frames. |
| StreamMeaning.BlocksMakeText | apps/web/src/hooks/useSSE.ts:60-61 | Blocks, each with its blank line, and the leftover make up the text again; none holds a blank line. |
| StreamMeaning.LinesMakeText | apps/web/src/hooks/useSSE.ts:68 | The lines of a block, put together with line feeds, are the block, and no line holds one. |
| StreamMeaning.TrimCutsSpace | apps/web/src/hooks/useSSE.ts:64-72 | Trimming cuts white space off both ends, and all of it. |
| CanonicalJson.FieldOrderIsFree | packages/web-client/src/digest.ts:19-21 | The text does not depend on the order in which keys were inserted, at any depth. |
| CanonicalJson.UniqueReading | packages/web-client/src/digest.ts:12-22 | The text of such a value, with what follows it, can be read in one way only. |
| CanonicalJson.PrintsAlikeIffSame | packages/web-client/src/digest.ts:12-22 | Values in which no key holds a quote before a colon print alike if and only if they are the same up to key order. |
| CanonicalJson.EscapeReads | packages/web-client/src/digest.ts:14 | Escaped strings are read back uniquely up to their closing quote, as section 7 of RFC 8259 escapes them. |
| CanonicalJson.KeyReads | packages/web-client/src/digest.ts:20 | A key without a quote before a colon is read back uniquely. |
| CanonicalJson.SeparatorInKeyCollides | packages/web-client/src/digest.ts:20 | Keys are printed unescaped: every object with two fields prints like a different object with one, whose key holds a quote before a colon. |
| JsonReading.StringReadsBack | packages/web-client/src/digest.ts:14 | The text of a string, read as section 7 of RFC 8259 reads a literal, gives the string back, whatever follows. |
| JsonReading.EscapesAre | packages/web-client/src/digest.ts:14 | Which characters are escaped, and how: the short escapes of RFC 8259 where there is one, six characters for the other control characters, and everything else as it is. |
| JsonReading.ObjectPrints | packages/web-client/src/digest.ts:19-21 | An object prints its own fields, each once, in strictly ascending order of their keys, between braces and commas. |
| JsonReading.ListPrints | packages/web-client/src/digest.ts:17 | A list prints its values in their order, between brackets and commas. |
| AnomalyLifecycle.AnomalyAggregate.Detect | packages/backend/src/revpilot/modules/analytics/lifecycle.py:207-305 | A new aggregate is DETECTED and consistent, with its first audit record. |
| AnomalyLifecycle.AnomalyAggregate.TransitionTo | packages/backend/src/revpilot/modules/analytics/lifecycle.py:307-430 | Result and every field as one step of the specification; a failed call changes nothing. |
| AnomalyLifecycle.ApplyKeepsConsistent | packages/backend/src/revpilot/modules/analytics/lifecycle.py:376-428 | A successful transition keeps version, audit trail, outbox and effective end in lockstep. |
| AnomalyLifecycle.RunKeepsConsistent | packages/backend/src/revpilot/modules/analytics/lifecycle.py:307-430 | Over every run: version is the number of audit records and of events, the audit trail chains state to state and ends at the current one, and effective_to is the latest entry to RESOLVED or SUPPRESSED. |
| AnomalyLifecycle.RunExtendsHistory | packages/backend/src/revpilot/modules/analytics/lifecycle.py:139-152 | History is only extended, and after SUPPRESSED not even a field changes. |
| AnomalyLifecycle.IdempotencyKeysDistinct | packages/backend/src/revpilot/modules/analytics/lifecycle.py:425 | No two events of an aggregate share an idempotency key. |
| AnomalyLifecycle.VersionReadable | packages/backend/src/revpilot/modules/analytics/lifecycle.py:425 | The version can be read off a key, which is why keys differ. |
| AnomalyLifecycle.TransitionSucceedsIff | packages/backend/src/revpilot/modules/analytics/lifecycle.py:330-374 | A transition succeeds if and only if there is an actor, who is the system or of the tenant, and the pair of states is one of thirteen; from RESOLVED anything but REOPENED is reported as already resolved. |
| AnomalyLifecycle.TrailIsSuccesses | packages/backend/src/revpilot/modules/analytics/lifecycle.py:376-428 | Over every run the audit trail grows by exactly one record for each call that succeeds, in order, with its target, actor, reason and time; state, time of update and suppression reason are those of the last. |
| AnomalyLifecycle.StateNames | packages/backend/src/revpilot/modules/analytics/lifecycle.py:154-162 | The seven states have seven names, so no event goes out under the name of another state. |
| Reconciliation.ReconciliationEngine.constructor | packages/backend/src/revpilot/modules/analytics/reconciliation.py:42-52 | An empty store. |
| Reconciliation.ReconciliationEngine.RegisterAnomaly | packages/backend/src/revpilot/modules/analytics/reconciliation.py:58-62 | Stores the anomaly under its id, in insertion order. |
| Reconciliation.ReconciliationEngine.FindCandidates | packages/backend/src/revpilot/modules/analytics/reconciliation.py:100-117 | Exactly the stored anomalies of tenant and metric that overlap the window and are not suppressed, each once, in store order. |
| Reconciliation.ReconciliationEngine.RecomputeOne | packages/backend/src/revpilot/modules/analytics/reconciliation.py:119-181 | What one recomputation leaves of an anomaly, and whether it raised; what raises leaves it RECALCULATING. |
| Reconciliation.ReconciliationEngine.ReconcileWindow | packages/backend/src/revpilot/modules/analytics/reconciliation.py:74-183 | The whole store afterwards is that of one pass over the candidates in order, which the first that raises ends; without one, candidates are recomputed and returned and all others are untouched. |
| Reconciliation.PassOutcome | packages/backend/src/revpilot/modules/analytics/reconciliation.py:119-183 | Where the pass ends and what every anomaly is afterwards: recomputed up to and including the first that raises, as before behind it. |
| Reconciliation.NothingLeftRecalculatingIff | packages/backend/src/revpilot/modules/analytics/reconciliation.py:119-181 | The pass comes to its end if and only if no candidate raises, and exactly then no candidate is left RECALCULATING. |
| Reconciliation.BlankVersionStops | packages/backend/src/revpilot/modules/analytics/schemas.py:79-82 | A candidate with a blank metric version is left RECALCULATING, and no candidate behind it is reached. |
| Reconciliation.ReconciliationEngine.ReconcileAgain | packages/backend/src/revpilot/modules/analytics/reconciliation.py:74-183 | Reconciling a window a second time with the same query leaves the store as one pass does and succeeds or raises as the first did. |
| Reconciliation.PassTwiceIsOnce | packages/backend/src/revpilot/modules/analytics/reconciliation.py:100-183 | A second pass over the candidates that are left changes nothing, exceptions included. |
| Reconciliation.ReconcilingTwiceIsOnce | packages/backend/src/revpilot/modules/analytics/reconciliation.py:100-183 | The same for a single value: with a fixed query a second recomputation changes nothing. |
| Reconciliation.CandidatesSettle | packages/backend/src/revpilot/modules/analytics/reconciliation.py:145-181 | A candidate whose query succeeded ends suppressed, resolved or with a recomputed value outside its interval, if and only if the actor is accepted, it was resolved, or it is still anomalous; with the default actor always. |
| Reconciliation.NothingLeftRecalculating | packages/backend/src/revpilot/modules/analytics/reconciliation.py:121-181 | A recomputed candidate is RECALCULATING if and only if it raised, a failed query degrades it and nothing else, and anomalies that are no candidates are untouched. |
| Reconciliation.ReconcilingKeepsConsistent | packages/backend/src/revpilot/modules/analytics/reconciliation.py:119-181 | Reconciliation keeps version, audit trail and outbox in lockstep. |
| Reconciliation.RecomputedIs | packages/backend/src/revpilot/modules/analytics/reconciliation.py:119-181 | A candidate that shares a moment with the window, and whose query is answered with a series: the first value, or 0 without one, is stored if it lies above the interval or below a positive lower bound; otherwise the stored value stays, and an open anomaly is suppressed by an accepted actor, with the audit record, reason and times written out. |
| Reconciliation.SuppressedIff | packages/backend/src/revpilot/modules/analytics/reconciliation.py:145-176 | It ends SUPPRESSED if and only if it is not resolved, the actor is the system or of the tenant, and the value is at most the upper bound and not below a positive lower bound. |
| Reconciliation.OnlyItsQueryMatters | packages/backend/src/revpilot/modules/analytics/reconciliation.py:124-136 | Only the answer to the query for its own metric, version, window and scope, as of the time of the pass, matters. |
| Reconciliation.OverlapIsShared | packages/backend/src/revpilot/modules/analytics/reconciliation.py:113-117 | Windows that overlap share a moment. |
| Reconciliation.SharedMomentOverlaps | packages/backend/src/revpilot/modules/analytics/reconciliation.py:113-117 | Windows that share a moment overlap. |
| Reconciliation.RaisesIff | packages/backend/src/revpilot/modules/analytics/reconciliation.py:124-138 | Asking raises if and only if metric or version is blank, the window ends before it starts, or the gateway raises. |

## Left out

Modelled differently from the source:

- Floats and `Decimal` are exact reals; claims about estimates hold before the closing `round` calls.
- SHA-256, `JSON.parse`, UTF-8 decoding and the metrics' own calculations are uninterpreted; clocks and generated ids are
  parameters, and a generated id is only assumed to be unused by its tenant.
- Strings compare by code point, where the web client's key sort compares UTF-16 units. A JSON number stands for its printed
  text, assumed injective; `-0`, `NaN` and infinities are not covered.
- Callers pass arguments of the annotated types. A cost of the approval service may still be infinite or no number, and
  its payload may hold values that JSON cannot; the costs of the router and all other floats are finite.
- Payloads are values. In the approval service a stored record shares the caller's dictionary, so that a later mutation by
  the caller would make the seal check of a grant fire, which it never does here.
- A metric's calculation always returns in the metric query; one that raises ends the query in the source.
- The environment and the attached gateway stay the same for the life of the router.
- Dates never overflow: an expiry is the creation time plus the stated hours, however many.
- The in-memory repositories order records by the text of their creation time, the model by the time itself.
- Dictionaries that only speed up lookups (`cust_by_id`, `shipments_by_order` and the like) appear as the searches they stand
  for.

Contracts that say less than the source does:

- Aipw.EstimateAipwAte: stops at the point estimate; standard error, confidence interval and p-value are left out.
- Aipw.PropensityScores: the logistic regression for samples with covariates is the parameter `learned`.
- RidgeOptimality.FitMinimisesIff: its condition is read off the coefficients; the condition on the data in
  `JitterFree.ScaledFitIsUniqueMinimiser` is sufficient and not necessary, and `JitterFree.HugeCovariatesMissMinimum`
  shows that some condition is needed.
- FdrControl.RankSegments: starts from segments with p-value, excess and lift; building candidates from two metric queries, the
  p-values themselves, rounding, the drill-down and the status text are left out.
- ApprovalDispatch.Router.CreateApproval: models the cached record; writing it to a repository is left out.
- ApprovalDispatch.Router.GrantApproval: an expected digest with characters beyond ASCII is a conflict like any other wrong
  one; the source fails with an internal error instead, and changes nothing either.
- ApprovalTheorems.GrantSucceedsIff: holds for payloads that nobody mutates once they are stored.
- ApprovalDispatch.Router.BeginDispatch: covers records held in the cache; a record rebuilt from a repository is a fresh
  dictionary whose status writes do not persist. The flags `tampered`, `digest_mismatch` and `policy_version_mismatch`, which
  no handler sets, are left out.
- ApprovalDispatch.Router.ResumeAfterGateway: the three ways in which the gateway can fail are one.
- MetricGateway.Query: the point series only; query id, lineage hash and response labels are left out.
- MetricGroups.ExtractGroups: knows the dimensions of the canonical registry; other attributes read as unknown.
- SseStream.Client.Feed: cancellation, timestamps and the parsed form of the payload are left out.
- HypothesisVerifier.VerifyHypotheses: descriptors are counted, not worded.
- AnomalyLifecycle.AnomalyAggregate.TransitionTo: event payloads and correlation ids are left out.

Not modelled at all:

- The router's listing of pending approvals with its seed record, the kill-switch handler and the dry-run handler.
- `execute_dry_run` of the ledger service and the dry-run simulator.
- `list_all`, `get_anomaly` and `list_anomalies`, plain reads.
- Gradient descent for propensities, overlap diagnostics, E-values and refutations.
- The metric registry's own validation, the anomaly detectors, baselines and the planner.
- Migrations, database sessions, Redis, Temporal workers, connectors, MFA, SCIM and the web components.
