# Settleagent: the governed-transaction engine, verified

Settleagent lets software agents act on real systems (refunds, deletions, messages) only through a
gateway. An agent opens a *transaction* and proposes *actions*. The gateway checks delegated
authority, evaluates versioned policies, optionally asks a risk judge, and then allows the action,
denies it, or parks it for a human *approval*. Allowed and approved actions are executed by a tool
handler, uncertain ones are reconciled with the provider, finished transactions are committed, and
broken ones are compensated. Each execution leaves a *receipt* on a per-organization hash chain.

This project models that engine and proves what holds over every run of it.

## How it is organised

| file | what it holds |
|---|---|
| `Domain.dfy` | the records: agents, rules, grants, transactions, actions, approvals, receipts, events |
| `Transactions.dfy`, `Policies.dfy`, `Authority.dfy`, `Receipts.dfy` | the status table, the policy engine, grant coverage, the hash chain |
| `Limiter.dfy`, `UrlEncoding.dfy`, `Registry.dfy` | the rate limiter, the form encoder, the tool registry |
| `StoreSpec.dfy`, `MemoryStore.dfy` | every store call as a function on a value, and the mutable store proved against it |
| `GatewaySpec.dfy`, `Service.dfy` | every service call as a function, and the imperative service proved against it |
| `Protocol.dfy` | the engine as a state machine in which one service call is one step; runs |
| `Compensation.dfy`, `Invariants.dfy` | the compensation loop; what every step keeps |
| `Idempotency.dfy`, `Ledger.dfy`, `Testimony.dfy`, `Progress.dfy`, `Lifecycle.dfy`, `Endings.dfy`, `Tenancy.dfy`, `PolicyHistory.dfy`, `Simulation.dfy`, `Sums.dfy` | theorems over whole runs |
| `Outcomes.dfy`, `Amounts.dfy`, `AuditTrail.dfy` | what each call leaves, stores, answers and logs, said in statuses and field values alone |
| `Interleaved.dfy`, `Safety.dfy`, `Exclusive.dfy`, `Concurrent.dfy`, `Attestation.dfy`, `Evidence.dfy`, `Serialised.dfy`, `Races.dfy` | the engine with many requests in flight; every tool call is authorised; how often tools are called; the index and the commit guard under interleaving; chains and receipts under interleaving; what receipts say under interleaving; every serialised run is an interleaving; the races as traces from the empty system |

Whatever the engine cannot decide by itself is a parameter of a step, universally quantified in
every theorem: the clock, fresh identifiers, the order in which a Go map is ranged over, the
permutation an unstable sort produces, a tool's answer (success, definite error, no answer), a
reconciler's finding, a compensator's outcome, the judge's verdict (a function of the stored action,
whose identifier is its own), signatures, JSON encoding and SHA-256.

A *serialised run* is a sequence of such steps from the empty store. A *trace* interleaves any number
of requests from the empty store: each store call, each unlocked write to a live record and each tool
call is one step. Only the reads that feed a decision (grants, rules, sibling actions)
are folded into the write of that decision, which may then be any decision.

## Where the code and its documentation differ

The model follows the code. Each difference is a lemma.

- `docs/transactions.md` calls COMMITTED terminal, but compensation never looks at the status it
  starts from: `CompensationUndoesCommit`. `CompensationEntry` gives the exact entry statuses for
  which both of its moves are in the table; no HTTP route calls compensation, and serialised runs
  only call it from EXECUTING or ABORTING.
- The documentation aborts a transaction when an action is denied; a denial moves nothing:
  `OnlyWaitingPauses`.
- The documentation keeps a transaction paused until every approval is granted. `PauseEnds` gives
  exactly the steps that end a pause: ruling on any of its approvals, either way, or running any of
  its actions. `PauseRuleHolds` says when the documented rule is met: exactly when the step grants the
  only approval not granted yet. `OneGrantResumes` is the failing family with several approvals.
- The documentation calls four statuses terminal, but the execution calls never look at the
  transaction's status. `EndedStillRuns` says exactly when a tool can still be called for an ended
  transaction: when one of its actions that has a handler is allowed, approved,
  or waiting on a pending approval. For a committed transaction that is never:
  `NothingRunsAfterCommit`. `LateApprovalRuns` is the family with a late approval.
- Nothing claims an action between the guard that lets it run and the tool call, so one action can
  reach its tool twice when requests overlap: `GuardDoesNotExclude`, `OverlapRepeats`, and
  `CalledTwice` from the empty system. Without overlap it cannot: `AtMostOneCall`.
- Nor does anything claim an action between the guard that lets it be reconciled and the receipt, so
  overlapping reconciliations can issue two receipts: `ReconcilersRepeat`, `ReceiptedTwice`. Without
  overlap each action in effect gets exactly one: `AtMostOneReceipt`, `ReceiptsExact`.
- A receipt tells its action's operation, arguments and decision in every state of every trace
  (`DeedsToldInTraces`), but its result only while nobody stores a copy of a receipted action with
  another result, or attests a result its action does not have: `StepMisreports` is the exact
  condition on a request's next step, `ReceiptDisowned` a trace from the empty system in which it
  fails. Without overlapping executions or reconciliations it never fails: `ReceiptsTellAll`.
- With requests in flight the commit guard is check-then-act. A request disturbs a transaction if its
  next step adds an action to it, or stores a copy of one of its actions with an unresolved status.
  `StepDisturbs`: a step leaves a resolved transaction resolved if and only if its request does not
  disturb it. `CommitSoundUndisturbed`: what a commit writes COMMITTED over is resolved if nobody
  disturbs it between the listing and the write. `CommitOvertaken` (a late proposal) and
  `CommitOverwritten` (a stale copy) show both kinds of disturbance going unnoticed, and
  `CommittedUnresolved` and `CommittedInDoubt` are traces of each from the empty system.
- A receipt's amount, policy version, action name, identifier and compensation note are not covered by
  its hash: `UnhashedFieldsNotProtected`. `RewriteUnseen` says exactly which rewrites go unseen.
- Authority and policy do not always read an absent amount alike: `SameCents` gives the exact
  condition, `NegativeLimitDiffers` the failing input.
- A limit below one still admits one call per bucket: `BucketBoundIsLimit`.

## Model

| member | source | states |
|---|---|---|
| `Safety.TracesAreSafe` | internal/gateway/service.go:50-361 | in every state of every interleaving of any number of requests: statuses, decisions and approvals agree, each action has at most one approval, copies held by requests are of released actions, and no two proposals own one live record |
| `Safety.EveryCallIsAuthorised` | internal/gateway/service.go:217-229 | whenever a step reaches a tool, the action's recorded decision permits it or its one approval record is granted, and the tool is handed the recorded terms |
| `Safety.CalledStaysAuthorised` | internal/gateway/service.go:144-177 | whatever a tool was ever called for is, in every later state, neither denied nor waiting and has no pending or refused approval |
| `Safety.RecordsStaySafe` | internal/store/memory.go:278-338 | every single write a request can make, from however stale a copy, keeps the record invariants |
| `Safety.OthersUndisturbed` | internal/store/memory.go:245-285 | a write by one request leaves intact everything another request in flight relies on |
| `Safety.ApprovingWrites` | internal/api/server.go:323-326 | writing an approved copy back is in order although other requests may have moved the action since it was read |
| `Exclusive.AtMostOneCall` | internal/gateway/service.go:144-177 | while no two requests are past the execution guard for one action at the same time, no tool is called twice for an action, whatever else interleaves |
| `Exclusive.OverlapRepeats` | internal/gateway/service.go:158-161 | as soon as two requests are past the guard for one action, or one is and the tool was called already, a continuation of steps the source takes, the move to EXECUTING included, calls the tool again |
| `Exclusive.GuardDoesNotExclude` | internal/gateway/service.go:158-161 | from any safe state with an executable action, two arriving execution requests can call its tool twice |
| `Concurrent.IndexAgreesInTraces` | internal/store/memory.go:245-285 | under any interleaving, concurrent retries included, the index answers as a scan would and one organization, transaction and key name at most one action |
| `Concurrent.TracesStayLinked` | internal/store/memory.go:245-285 | in every state of every trace the index names exactly the stored actions, each under its key, and each action's transaction exists |
| `Concurrent.StepDisturbs` | internal/gateway/service.go:192-213 | a request's step leaves a transaction whose actions are all resolved in that condition if and only if it is not about to add an action to it (a replay adds none) and not about to store an unresolved copy of one of its actions |
| `Concurrent.ResolvedUntilDisturbed` | internal/gateway/service.go:192-213 | along any trace, a transaction all of whose actions are resolved stays so until a request makes such a step |
| `Concurrent.CommitSoundUndisturbed` | internal/gateway/service.go:192-213 | if nobody makes such a step between a commit's listing and its write, every action of the transaction it marks COMMITTED is resolved before and after the write |
| `Concurrent.CommitOvertaken` | internal/gateway/service.go:192-213 | a proposal in flight can add an action between a commit's listing and its write, and COMMITTED is still written |
| `Concurrent.CommitOverwritten` | internal/gateway/service.go:192-213 | so can a request holding an unresolved copy of one of the actions: the copy is stored after the listing and COMMITTED is still written |
| `Attestation.ChainsIntactInTraces` | internal/store/memory.go:352-367 | in every state of every trace each organization's chain verifies and its recorded tip is the hash of its newest receipt |
| `Attestation.VouchedInTraces` | internal/gateway/service.go:250-263 | in every state of every trace, overlapping requests included, an action in effect, undone since or not, has a receipt or a request about to append one |
| `Attestation.AtMostOneReceipt` | internal/gateway/service.go:253-315 | while no two requests execute or reconcile one action at the same time, no action gets two receipts, and every receipt is for an action in effect |
| `Attestation.ReceiptsExact` | internal/gateway/service.go:253-315 | in such a trace, once no request is about to append, the actions with a receipt are exactly the actions in effect, each with one |
| `Evidence.DeedsToldInTraces` | internal/gateway/service.go:253-315 | in every state of every trace each receipt is for an action past its gates and carries that action's organization, transaction, tool, action name, amount, decision and policy version and the digest of its arguments |
| `Evidence.StepMisreports` | internal/gateway/service.go:247-315 | while every receipt carries the digest of its action's result, a request's step leaves it so if and only if it neither stores a copy of a receipted action with another result nor attests a result its action does not have |
| `Evidence.ReceiptsTellAll` | internal/gateway/service.go:253-315 | while no two requests handle one action at the same time, every receipt in every state also carries the digest of its action's result |
| `Evidence.AttestationByValue` | internal/gateway/service.go:253-315 | the receipt a request appends, field by field: for the copy it holds and that copy's result, marked by how the answer was come by, dated from the action's creation if by reconciliation |
| `Races.ReconcilersRepeat` | internal/gateway/service.go:288-307 | two reconciliations arriving for one action in doubt can both issue a receipt for it |
| `Races.CalledTwice` | internal/gateway/service.go:158-161 | for every environment with a handler there is a trace from the empty system in which two execution requests call it twice for one action |
| `Races.ReceiptedTwice` | internal/gateway/service.go:288-307 | for every environment with a handler that has a reconciler there is a trace from the empty system in which one action gets two receipts |
| `Races.CommittedUnresolved` | internal/gateway/service.go:192-213 | for every environment with a handler there is a trace from the empty system that ends with a transaction COMMITTED while one of its actions is only proposed |
| `Races.CommittedInDoubt` | internal/gateway/service.go:192-213 | likewise with one of its actions left unknown by a copy stored after the listing |
| `Races.ReceiptDisowned` | internal/gateway/service.go:247-253 | for every environment with a handler there is a trace from the empty system in which a receipted action is overwritten by a copy without the result |
| `Serialised.RunsAreTraces` | internal/gateway/service.go:50-369 | every serialised run is one of the interleavings: some trace ends with the same store up to the audit log, transaction statuses and receipts included, and the same tool calls, all its requests finished |
| `Serialised.StepAlone` | internal/gateway/service.go:50-369 | a request left alone from arrival to end leaves the store that the one-step service call leaves, up to the audit log |
| `Serialised.UndoLoopPath` | internal/gateway/service.go:338-361 | the compensation loop, one store call at a time, ends with every listed action and the failure flag as the one-step loop leaves them |
| `Invariants.RunsAreSound` | internal/gateway/service.go:50-369 | every world of every serialised run keeps records linked, the index exact, each status matched by its decision, and each gated action with exactly one approval, granted exactly when the action has left the waiting state |
| `Invariants.Classify` | internal/gateway/service.go:50-369 | every step of the engine is one of eight changes, and which one is determined by the call and its guards |
| `Invariants.SoundKept` | internal/gateway/service.go:50-369 | each of those changes keeps all of the invariants |
| `Invariants.StatusMoves` | internal/gateway/service.go:84-361 | the one way in which each kind of change can move an action's status |
| `LedgerLaws.ReceiptsMatchExecutions` | internal/gateway/service.go:217-369 | in every serialised run each action reaches its tool at most once and its compensator at most once, and has exactly one receipt if it took effect and none otherwise |
| `LedgerLaws.ReceiptsConserveAmounts` | internal/gateway/service.go:253-262 | a transaction's receipt cents add up to the amounts of exactly the actions that took effect |
| `LedgerLaws.RunsKeepChains` | internal/store/memory.go:352-367 | every organization's chain verifies, and its recorded tip is its last hash, in every world of every run |
| `LedgerLaws.EffectNeedsReceipt` | internal/gateway/service.go:250-263 | an action comes into effect only by a change that issues its receipt |
| `Testimony.ReceiptsTellTheTruth` | internal/gateway/service.go:253-315 | in every world of every run each receipt carries its action's tool, action name, amount and decision, the digest of its arguments and the digest of its result |
| `Testimony.ReceiptOfCall` | internal/gateway/service.go:253-315 | a step appends a receipt only as a successful execution or a confirmed reconciliation, and then one with that call's result and times, marked as executed or as reconciled and dated from the action's creation, signed over its hash |
| `Progress.StatusesFollowTable` | internal/transactions/statemachine.go:9-41 | every step of every run moves a transaction along one edge of the table, compensation along two through COMPENSATING, and terminal statuses never change |
| `Progress.BoundedProgress` | internal/transactions/statemachine.go:9-33 | with A approvals created, a transaction driven by the HTTP routes changes status at most 2A + 2 times; compensation, counted with its pass through COMPENSATING, can add two |
| `Progress.ChangesPaid` | internal/gateway/service.go:130-133 | the potential argument: changes made plus potential left never exceed what approvals pay for |
| `Outcomes.StatusByCall` | internal/transactions/statemachine.go:9-41 | the status every step of every run leaves every transaction in, by status names alone: a refusal aborts and a grant resumes from PLANNING, AWAITING_APPROVAL or EXECUTING and from nowhere else, likewise a waiting action pauses and a run resumes; commits, compensation and everything else likewise |
| `Transactions.OnlyCycle` | internal/transactions/statemachine.go:9-16 | every edge of the table climbs a rank except EXECUTING to AWAITING_APPROVAL, and none leaves a terminal status |
| `Transactions.MustTransition` | internal/transactions/statemachine.go:35-41 | moves the status exactly when the table allows it, and reports which |
| `Transactions.EnteredFrom` | internal/transactions/statemachine.go:9-33 | the table read backwards: the statuses each status can be entered from |
| `Lifecycle.LifecycleBound` | internal/gateway/service.go:84-361 | in every run an action changes status at most four times after its proposal, five with the change inside it |
| `Lifecycle.LifecycleEdges` | internal/gateway/service.go:84-361 | every step of every run keeps an action's terms and moves its status along one edge of the acyclic lifecycle or not at all; new actions appear decided |
| `Lifecycle.UnknownOnlyReconciled` | internal/gateway/service.go:273-306 | only reconciliation moves an action out of the uncertain status, without calling the tool |
| `Lifecycle.CommitIsSound` | internal/gateway/service.go:183-215 | COMMITTED is entered only by a commit call, from EXECUTING, with every action executed, denied or compensated |
| `Outcomes.CommitExactly` | internal/gateway/service.go:183-215 | a commit takes a transaction that has not ended into COMMITTED if and only if it is the organization's, is EXECUTING and each of its actions is executed, denied or compensated; otherwise nothing changes |
| `Lifecycle.CommitIsPermanent` | internal/gateway/service.go:183-215 | from then on the transaction and all its actions stay exactly as they are for the rest of the run |
| `Lifecycle.CommittedUntouched` | internal/gateway/service.go:55-57 | no change of any kind can touch a committed transaction |
| `Lifecycle.CompensationEntry` | internal/gateway/service.go:325-369 | both status moves of compensation are in the table if and only if it starts from EXECUTING, ABORTING or COMPENSATING |
| `Lifecycle.CompensationUndoesCommit` | internal/gateway/service.go:325-337 | called on a committed transaction, compensation takes it out of COMMITTED: to ROLLED_BACK if every executed action ends compensated, to PARTIALLY_COMPENSATED otherwise |
| `Lifecycle.LateApprovalRuns` | internal/api/server.go:317-333 | an action still waiting when its transaction ended can be approved and run, and the transaction does not move |
| `Endings.EndedStillRuns` | internal/gateway/service.go:144-177 | after any run, a continuation can call a tool for an ended transaction if and only if one of its actions with a handler is allowed, approved, or waiting on a pending approval |
| `Endings.NothingRunsAfterCommit` | internal/gateway/service.go:183-215 | for a committed transaction no continuation can |
| `Endings.DormantForGood` | internal/gateway/service.go:144-177 | once nothing of an ended transaction can run, nothing of it ever does |
| `Lifecycle.OnlyWaitingPauses` | internal/gateway/service.go:117-140 | a fresh proposal moves its transaction exactly when its action must wait and the table allows the pause; a denial moves nothing |
| `Lifecycle.OneGrantResumes` | internal/api/server.go:323-332 | granting one approval resumes a paused transaction and leaves every other approval as it was |
| `Endings.PauseEnds` | internal/gateway/service.go:218-221 | a step ends a pause if and only if it rules on one of the transaction's approvals or runs one of its actions |
| `Endings.PauseRuleHolds` | internal/api/server.go:317-338 | in any run, a step that ends a pause leaves every approval granted if and only if it grants the only one that was not |
| `Endings.RunsPend` | internal/gateway/service.go:122-133 | in every world of every run a paused transaction has a pending approval |
| `Compensation.CompensationAccounting` | internal/gateway/service.go:325-369 | compensators are called in exactly the reverse of the listing, other and irreversible-only actions stay as they were, and the result is ROLLED_BACK if and only if every executed action ends compensated |
| `Compensation.CompensatedByValue` | internal/gateway/service.go:338-361 | each action after compensation: an executed one is compensated or failed by its compensator's word, unless it is irreversible or destructive and neither compensable nor reversible; every other action is as it was |
| `Compensation.UndoAllShape` | internal/gateway/service.go:338-361 | the whole loop: which actions change, which compensators are called in which order, and when it reports failure |
| `Compensation.AttemptedReversed` | internal/gateway/service.go:333-335 | reversing the listing reverses the order of the undos exactly |
| `Idempotency.KeyInjective` | internal/store/memory.go:250 | the joined key names one organization, transaction and caller key, although caller keys may hold any character |
| `Idempotency.IndexAgreesWithScan` | internal/store/memory.go:245-285 | looking a triple up in the index and scanning all actions for it give the same answer |
| `Idempotency.OneActionPerKey` | internal/store/memory.go:245-265 | at most one action exists per organization, transaction and key |
| `Idempotency.ReplayChangesNothing` | internal/gateway/service.go:68-74 | a replay returns the existing record unchanged, whatever the new request says, and leaves only an audit entry |
| `Tenancy.TenantsDoNotInterfere` | internal/store/memory.go:210-443 | any stretch of a run made for other organizations leaves an organization's transactions, actions, approvals, receipts, rules, grants, events and chain verdict as they were |
| `Tenancy.AuditShowsOwnEvents` | internal/store/memory.go:406-422 | the audit view of an organization is a function of its own events |
| `PolicyHistory.HistoryOverRuns` | internal/store/memory.go:114-193 | in every run versions are 1..n in list order, at most one set is active, and every version stamped on an action names a listed set |
| `PolicyHistory.ReproducedForProposer` | internal/gateway/service.go:89-116 | in every run the set an action's stamp names still yields its decision, up to escalation, for the very agent whose proposal added it, at the recorded time |
| `PolicyHistory.HistoryIsImmutable` | internal/store/memory.go:140-175 | between any two points of a run no set is lost, renumbered or rewritten, and an organization that has an active set keeps having one |
| `PolicyHistory.ActivationExtends` | internal/store/memory.go:155-175 | a successful activation leaves exactly the chosen version active |
| `PolicyHistory.AnyReplayReproduces` | internal/gateway/service.go:89-93 | with distinct priorities, any later evaluation of the stamped set for that agent gives the decision back, however ties are sorted |
| `PolicyHistory.ReceiptsNameTheSameSet` | internal/gateway/service.go:253-262 | a receipt's version names the set its action's decision came from |
| `PolicyHistory.ServiceKeepsSetup` | internal/gateway/service.go:50-369 | service calls never write policies, agents or grants |
| `Simulation.SimulationAgrees` | internal/gateway/simulate.go:16-59 | from any store and clock the forecast is the decision a fresh proposal gets before the risk screen, which can only turn a permit into a request for approval; each may sort in its own way when priorities are distinct |
| `Simulation.SimulationExact` | internal/gateway/simulate.go:16-59 | with the screen off, effect, rule, reason and version agree, and "would execute" holds if and only if the new action is allowed, again for independent sortings |
| `Simulation.ForecastStable` | internal/gateway/simulate.go:39-43 | with distinct priorities the forecast does not depend on how ties are sorted |
| `Simulation.ForecastByValue` | internal/gateway/simulate.go:16-59 | the rest of a forecast: none for an unknown agent, whether grants are enforced and cover, the registered classes, the version consulted unless authority refused, and that it would execute exactly when the effect permits |
| `Simulation.AuthorityFailsClosed` | internal/gateway/service.go:75-88 | a proposal is refused for want of authority if and only if the agent has grants and none covers it, whatever the policies say |
| `Simulation.AuthorityNeverLapses` | internal/store/memory.go:544-581 | once an agent has a grant no later step returns it to policy-only mode, and a revoked grant never covers anything again |
| `Simulation.SameCents` | internal/gateway/service.go:371-403 | authority and policy see the same amount, and their tests of a limit agree if and only if an amount is present or the limit is not negative |
| `Simulation.NegativeLimitDiffers` | internal/gateway/authority.go:34-36 | with no amount and a limit of -1 authority covers what policy would read as over the limit |
| `Amounts.ProposalRecorded` | internal/gateway/service.go:50-79 | the record a fresh proposal stores: what was asked, the digest of its arguments, its registered classes, and as amount the cents under `amount_cents`, failing that under `amountCents`, failing that a hundred times the dollars under `amount`, fractions of a cent dropped and 64 bits kept |
| `Amounts.AmountDetermined` | internal/gateway/service.go:371-403 | no request has two amounts |
| `Amounts.DollarsMatchCents` | internal/gateway/service.go:371-403 | a request in dollars and one for the same sum in cents are stored with the same amount |
| `Outcomes.DecisionByValue` | internal/gateway/service.go:71-118 | the decision: refused with AUTHORITY_EXCEEDED beyond the agent's grants, else the rules' effect with its reason, held for approval instead of permitted when the judge is out of reach, below half confidence, or at or above its threshold |
| `Outcomes.ApproversSeeTheStake` | internal/gateway/service.go:127-131 | in every world of every run each approval names its own action, transaction and organization and that action's amount |
| `Outcomes.ProposeReplies` | internal/gateway/service.go:50-79 | a proposal is refused for an unknown transaction, then an ended one, then an unknown agent, with nothing changed, and otherwise answers with the record as stored |
| `Outcomes.ExecuteReplies` | internal/gateway/service.go:144-162 | the answer of an execution by the action's status and decision, the registry and the tool's answer; a reply that carries an action carries the stored record |
| `Outcomes.RunApprovedReplies` | internal/gateway/service.go:164-177 | likewise on the approved path |
| `Outcomes.ExecuteRouteReplies` | internal/api/server.go:266-295 | likewise for the route that chooses between the two |
| `Outcomes.ReconcileReplies` | internal/gateway/service.go:273-320 | the answer of a reconciliation by the action's status, the registry and the provider's finding, in that order |
| `Outcomes.BlockerByValue` | internal/gateway/service.go:192-205 | which status blocks a commit for which reason |
| `Outcomes.SetupRecorded` | internal/store/memory.go:140-170 | what each setup step records |
| `Outcomes.SetupLogged` | internal/api/grants.go:30-105 | what each setup step logs: itself, if it changed anything |
| `AuditTrail.RunLogged` | internal/gateway/service.go:229-266 | an execution logs that it began and then the status its action was left in |
| `AuditTrail.ReconcileLogged` | internal/gateway/service.go:273-320 | a reconciliation logs that nobody could be asked, that asking failed or that the doubt is gone, and nothing otherwise |
| `AuditTrail.ProposeLogged` | internal/gateway/service.go:67-142 | a fresh proposal logs the authority check if the agent has grants, the rule consulted unless authority refused, and the refusal or the request for approval |
| `AuditTrail.RulingLogged` | internal/api/server.go:297-341 | a ruling on a pending approval is logged by its outcome, any other not at all |
| `AuditTrail.CompensateLogged` | internal/gateway/service.go:325-369 | compensation logs its start and then each executed action, last listed first, as skipped, undone or failed |
| `AuditTrail.AuditNewestFirst` | internal/store/memory.go:406-422 | the log is read newest first, an organization's events only, of one transaction if one is named, up to the limit |
| `Registries.Registry.Register` | internal/actions/executor.go:173-186 | registration never leaves a class list empty and keeps every other entry |
| `Registries.UnmatchedOnlyReads` | internal/actions/executor.go:125-135 | an action no rule matches is allowed only if it is registered as a read and as nothing else |
| `Policies.EvaluateMeaning` | internal/policies/engine.go:144-162 | sort-then-scan returns a minimum-priority matching rule of the list as given; with none, it allows exactly the pure reads and stamps version 0 |
| `Policies.OrderIrrelevant` | internal/policies/engine.go:144-162 | with distinct priorities the whole decision is the same for every permutation of the rules and every way to sort them |
| `Policies.DefaultFailsClosed` | internal/policies/engine.go:154-160 | with no matching rule and a non-empty class list, only actions classed as reads alone are permitted |
| `Policies.Evaluate` | internal/policies/engine.go:144-162 | sorts a copy in place and scans it; the result is that of some priority-ordered permutation of the rules |
| `Policies.SortByPriority` | internal/policies/engine.go:145-146 | leaves the array a permutation of itself in ascending priority |
| `Policies.RuleMatches` | internal/policies/engine.go:51-119 | true exactly when every condition present in the rule holds |
| `Policies.ContextMatches` | internal/policies/engine.go:85-119 | the class, environment, resource and time conditions, each with its own search loop |
| `Policies.InWindow` | internal/policies/engine.go:121-142 | whether a UTC time is on a listed weekday and within the hours, including windows across midnight |
| `Policies.ClockReads` | internal/policies/engine.go:121-138 | a time so many nanoseconds into an hour of a day since 1970-01-01 has that hour, and its weekday counts from a Thursday |
| `Policies.WindowRoundTheClock` | internal/policies/engine.go:121-138 | a window is open on its weekdays while the hours gone since it opened are fewer than the hours it stays open, both counted round the clock |
| `Policies.MatchesByValue` | internal/policies/engine.go:51-119 | a rule fails to match only by a condition it states, limits included |
| `Policies.ResourceByValue` | internal/policies/engine.go:85-119 | the resource is the argument of that name if it is text, otherwise empty |
| `Policies.RecipientsByValue` | internal/policies/engine.go:34-49 | recipients are counted by a list, failing that read from a number, otherwise none |
| `Policies.RefundTiers` | internal/policies/engine.go:164-208 | under the seeded policies every refund a support agent asks for falls in exactly one tier: automatic to $100, approval to $500, refused above |
| `Policies.SeededRefundRule` | internal/policies/engine.go:164-208 | exactly one of the ten seeded rules matches a support refund, chosen by its amount |
| `Authority.GrantCovers` | internal/gateway/authority.go:24-57 | covers exactly when live, in scope, within the amount and in the environment; each reported gap is exactly the first one in that order |
| `Authority.CheckAuthority` | internal/gateway/authority.go:59-78 | covered exactly when some grant covers; otherwise one reason per grant |
| `Authority.CoverageOrderIrrelevant` | internal/gateway/authority.go:59-78 | coverage depends on which grants there are, not on their order |
| `Authority.EntryDecodes` | internal/api/grants.go:13-28 | a validated scope entry splits into tool and action in one way only |
| `Authority.EntryCoverage` | internal/gateway/authority.go:13-22 | a validated entry covers one operation, or every action of one tool, and nothing else |
| `Authority.StarCoversAll` | internal/gateway/authority.go:13-22 | an entry covers every operation if and only if it is the star |
| `Authority.CoversByValue` | internal/gateway/authority.go:24-57 | a grant covers an attempt unless it was revoked, is past its last instant, names neither the operation nor its tool nor the star, is limited below the amount, or names other environments |
| `Receipts.TamperEvidence` | internal/store/memory.go:424-443 | two lists that verify for an organization and end in the same hash commit to equal encoded payloads at every position, or the two lists themselves hold two different hashed frames with one digest |
| `Receipts.TamperEvidentPayloads` | internal/store/memory.go:424-443 | with an injective encoding, to equal payloads and so equally many |
| `Receipts.TamperEvidentContent` | internal/store/memory.go:357-361 | and so equally many receipts of the organization, the k-th ones agreeing in transaction, action, tool, arguments hash, result hash, decision and both times, or the lists hold a collision |
| `Receipts.RewriteUnseen` | internal/store/memory.go:424-443 | rewriting one receipt goes unseen by a verifier that knows the tip if and only if both hashes stay and the encoded payload stays or its frame collides with the old one |
| `Receipts.RewriteVerdict` | internal/store/memory.go:424-443 | without the tip, a rewritten chain verifies if and only if the rewritten receipt is a proper link and, if the chain goes on, keeps its hash |
| `Receipts.ContentChangeSeen` | internal/store/memory.go:424-443 | a receipt rewritten with both hashes kept goes unseen if and only if those eight fields are kept or the new content hashes to the old digest |
| `Receipts.FrameInjective` | internal/receipts/chain.go:16-23 | the framing of previous hash, zero byte and payload parses in one way |
| `Receipts.VerdictMeaning` | internal/store/memory.go:424-443 | -1 means every link of the organization holds; otherwise the index is its first failing link |
| `Receipts.VerdictStays` | internal/store/memory.go:424-443 | appending never moves a break that is already there |
| `Receipts.VerifyChain` | internal/store/memory.go:424-443 | the loop over the shared list computes that verdict |
| `Receipts.EveryInterleavingVerifies` | internal/store/memory.go:352-392 | every interleaving of appends and signature updates by any organizations leaves every chain intact |
| `Receipts.SignKeepsChains` | internal/store/memory.go:383-392 | signing changes no verdict and no tip, in either direction |
| `Receipts.UnhashedFieldsNotProtected` | internal/store/memory.go:357-362 | no verdict and no tip can tell two values of a receipt's identifier, action name, amount, compensation note, version, key or signature apart |
| `RateLimiter.Limiter.Allow` | internal/auth/auth.go:144-159 | replaces an expired bucket, counts up to the limit, and leaves other keys alone |
| `RateLimiter.WindowBound` | internal/auth/auth.go:144-159 | any half-open interval one window long admits at most twice the limit per key |
| `RateLimiter.RefusedOnlyWhenFull` | internal/auth/auth.go:144-159 | a call is refused if and only if its open bucket has already accepted the limit |
| `RateLimiter.KeysIndependent` | internal/auth/auth.go:144-159 | a key's verdicts depend on its own calls alone |
| `RateLimiter.BucketBoundIsLimit` | internal/auth/auth.go:144-159 | each bucket stays within the limit if and only if the limit is at least one |
| `RateLimiter.BucketsSummarise` | internal/auth/auth.go:144-159 | a bucket's count is the number of calls accepted since it opened |
| `UrlEncoding.UrlEncode` | internal/integrations/stripe.go:109-120 | emits only unreserved bytes and upper-case triplets, and decodes back to its input |
| `UrlEncoding.UrlValues` | internal/integrations/stripe.go:101-107 | for every key order, the joined form splits and decodes back to the original map |
| `UrlEncoding.EncodedByValue` | internal/integrations/stripe.go:109-120 | letters, digits, hyphen, underscore, period and tilde are kept; any other byte becomes a percent sign and two hexadecimal digits in capitals |
| `UrlEncoding.EncodeInjective` | internal/integrations/stripe.go:109-120 | different byte strings have different encodings |
| `UrlEncoding.EncodeRoundTrip` | internal/integrations/stripe.go:109-120 | the decoder undoes the encoder even when more text follows |
| `UrlEncoding.EncodeHasNoSeparators` | internal/integrations/stripe.go:109-120 | an encoding never contains the separators of a form |
| `UrlEncoding.SplitJoin` | internal/integrations/stripe.go:101-107 | splitting a joined list gives the list back |
| `Services.Service.ProposeAction` | internal/gateway/service.go:50-142 | carries out the proposal step for some priority-ordered permutation of the rules and keeps the store usable |
| `Services.Service.DecideAction` | internal/gateway/service.go:75-116 | authority and its audit entry, then policy, then a screen that can only add scrutiny |
| `Services.Service.SettleDecision` | internal/gateway/service.go:117-140 | records the decision, its events, and the approval and pause it may need |
| `Services.Service.ScreenRisk` | internal/gateway/risk.go:14-53 | escalates exactly unless the judge is off or confidently finds the risk below its threshold |
| `Services.Service.SiblingTotals` | internal/gateway/risk.go:26-36 | the loop counts and totals exactly the transaction's other actions, in any listing order |
| `Services.Service.Simulate` | internal/gateway/simulate.go:16-59 | computes the forecast and changes nothing |
| `Services.Service.ExecuteAllowed` | internal/gateway/service.go:144-162 | carries out the execution step, with its guards in order |
| `Services.Service.RunApproved` | internal/gateway/service.go:165-177 | carries out the approved-execution step |
| `Services.Service.Run` | internal/gateway/service.go:217-267 | moves the transaction, calls the tool once if it is registered, and records the answer |
| `Services.Service.Finish` | internal/gateway/service.go:231-266 | turns each kind of answer into a status, and a success into a signed receipt |
| `Services.Service.HandleExecute` | internal/api/server.go:266-291 | sends approved actions down the approved path and everything else down the other |
| `Services.Service.HandleDecideApproval` | internal/api/server.go:297-341 | decides a pending approval once, then the action and the transaction accordingly |
| `Services.Service.Commit` | internal/gateway/service.go:183-215 | refuses for exactly the stated reasons in their order, naming an unresolved action and its reason, and otherwise commits |
| `Services.Service.FirstBlocker` | internal/gateway/service.go:192-205 | the scan finds a blocking action with its reason if and only if some action is unresolved |
| `Services.Service.Reconcile` | internal/gateway/service.go:273-320 | carries out the reconciliation step |
| `Services.Service.CompensateTransaction` | internal/gateway/service.go:325-369 | carries out the compensation step for the order in which the actions happened to be listed |
| `Services.Service.UndoActions` | internal/gateway/service.go:338-361 | the reversal loop computes the recursive specification |
| `Services.ReverseInPlace` | internal/gateway/service.go:333-335 | the two-index swap reverses the array |
| `MemoryStores.MemoryStore.AddAction` | internal/store/memory.go:245-265 | returns the action a used key names, or stores a fresh one under key and identifier |
| `MemoryStores.MemoryStore.UpdateAction` | internal/store/memory.go:278-285 | overwrites a stored action and re-points its key; an unknown identifier changes nothing |
| `MemoryStores.MemoryStore.ActionsForTxn` | internal/store/memory.go:287-297 | lists each action of the transaction once, in some order |
| `MemoryStores.MemoryStore.SetTxnStatus` | internal/store/memory.go:221-231 | sets the status of the organization's own transaction or refuses |
| `MemoryStores.MemoryStore.DecideApproval` | internal/store/memory.go:321-338 | decides an approval of this organization that is still pending, once |
| `MemoryStores.MemoryStore.AppendReceipt` | internal/store/memory.go:352-367 | chains the receipt to its organization's tip and moves the tip |
| `MemoryStores.MemoryStore.UpdateReceipt` | internal/store/memory.go:383-392 | sets key and signature of the matching receipts and nothing else |
| `MemoryStores.MemoryStore.CreatePolicySet` | internal/store/memory.go:140-153 | appends a draft under the next version |
| `MemoryStores.MemoryStore.ActivatePolicySet` | internal/store/memory.go:155-175 | switches every set of the organization, or changes nothing when the version is unknown |
| `MemoryStores.MemoryStore.ActivePolicySet` | internal/store/memory.go:184-193 | the first active set, if any |
| `MemoryStores.MemoryStore.GrantsForAgent` | internal/store/memory.go:559-569 | lists each of the agent's grants exactly once, in some order |
| `MemoryStores.MemoryStore.RevokeGrant` | internal/store/memory.go:571-581 | revokes an unrevoked grant of the organization, once |
| `MemoryStores.MemoryStore.Audit` | internal/store/memory.go:406-422 | the newest matching events first, up to the limit |

## Left out

- The Postgres store, migrations and crash recovery: behaviour that depends on the database.
- HTTP routing, authentication middleware, JSON decoding, OpenAPI, dashboard, SDK and deployment: plumbing around the modelled calls.
- Provider calls and the risk judge's service: each is a universally quantified outcome.
- Key generation, bcrypt and ed25519: signing is a function that only sets key id and signature.
- Registering MCP tools at run time: the registry is fixed during a run; `Register` itself is modelled.
- Tracing, latency, explanation strings and error texts: no property depends on them.
- Credential and operator-token maps: plain lookups.
- Ordering of actions before execution (`OrderActions`): nothing in the engine calls it.
- Transaction fields that no engine code reads (principal, session, objective, timestamps).
- The CREATED start status: the create route opens transactions in PLANNING, and runs do the same.
- Audit entries inside the interleaved machine: they decide nothing, so the machine lets them change at any time; the serialised machine has them exactly.
- Rule effects outside the four validated ones: a rule set with any other effect is not part of this model.
- Unicode case folding of environment names: folding is modelled on ASCII letters.
- Out-of-range float-to-integer conversions and 64-bit overflow of sibling totals: amounts in cents are wrapped to 64 bits where the source multiplies, sums are unbounded.
- The clock is read once per proposal: a stored action's creation time is also the time its rules were evaluated at.
- The seeded infrastructure and access-management rules: only the refund tiers of the seeded policies are stated.
