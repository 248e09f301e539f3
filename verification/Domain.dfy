/** The records the engine keeps: agents, policies, grants, transactions, actions,
    approvals, receipts and audit events. */
module Domain {

  datatype Option<+T> = None | Some(value: T)

  type Id = string

  /** Nanoseconds since the Unix epoch, UTC. */
  type Time = int

  /** Action classes are open strings in the source: a registration may use any. */
  type Class = string

  const READ_ONLY: Class := "READ_ONLY"
  const REVERSIBLE: Class := "REVERSIBLE"
  const COMPENSABLE: Class := "COMPENSABLE"
  const IRREVERSIBLE: Class := "IRREVERSIBLE"
  const DESTRUCTIVE: Class := "DESTRUCTIVE"
  const UNKNOWN_CLASS: Class := "UNKNOWN"

  datatype TxnStatus =
    | Created
    | Planning
    | AwaitingApproval
    | Executing
    | Committed
    | Aborting
    | Compensating
    | RolledBack
    | PartiallyCompensated
    | Failed

  datatype ActionStatus =
    | Proposed
    | Denied
    | Allowed
    | AwaitingDecision
    | Approved
    | Executed
    | Errored
    | Unknown
    | Compensated
    | CompensationFailed

  datatype ApprovalStatus = Pending | Granted | Refused

  datatype Effect = Allow | Deny | RequireApproval | AllowWithConstraints

  datatype ReasonCode = NoReason | ReasonAllowed | AuthorityExceeded | PolicyDenied | ApprovalRequired

  /** A decoded argument value: the three numeric kinds the engine inspects, text,
      a list (only its length is ever read) and everything else. */
  datatype Value =
    | Int64(n: int)
    | Int(n: int)
    | Float(x: real)
    | Text(s: string)
    | List(length: nat)
    | Other

  type Args = map<string, Value>

  datatype Agent = Agent(id: Id, org: Id, name: string, groups: seq<string>, environment: string)

  datatype TimeWindow = TimeWindow(weekdays: seq<int>, startHour: int, endHour: int)

  datatype Match = Match(
    agentGroups: seq<string>,
    tool: string,
    action: string,
    maxAmount: Option<int>,
    minAmount: Option<int>,
    minRecipients: Option<int>,
    environment: string,
    classifications: seq<string>,
    environments: seq<string>,
    resourcePrefix: string,
    window: Option<TimeWindow>)

  datatype Rule = Rule(id: string, priority: int, match_: Match, effect: Effect)

  datatype PolicySetStatus = Draft | Active | Disabled

  datatype PolicySet = PolicySet(version: int, rules: seq<Rule>, status: PolicySetStatus)

  datatype Decision = Decision(effect: Effect, ruleId: string, reason: ReasonCode, version: int)

  datatype Grant = Grant(
    id: Id,
    org: Id,
    agent: Id,
    scope: seq<string>,
    maxAmount: Option<int>,
    environments: seq<string>,
    environment: string,
    expiresAt: Option<Time>,
    revokedAt: Option<Time>)

  datatype Txn = Txn(id: Id, org: Id, agent: Id, status: TxnStatus)

  datatype Action = Action(
    id: Id,
    org: Id,
    txn: Id,
    tool: string,
    name: string,
    args: Args,
    argsHash: string,
    classes: seq<Class>,
    amount: Option<int>,
    key: string,
    decision: Option<Decision>,
    status: ActionStatus,
    result: Option<Args>,
    createdAt: Time)

  datatype Approval = Approval(id: Id, org: Id, txn: Id, action: Id, exposure: Option<int>, status: ApprovalStatus)

  /** How a receipt came about: by execution, or by reconciliation afterwards. */
  datatype Settlement = NotCompensated | FromReconciliation

  datatype Receipt = Receipt(
    id: Id,
    org: Id,
    txn: Id,
    action: Id,
    tool: string,
    name: string,
    argsHash: string,
    decision: Effect,
    resultHash: string,
    cents: Option<int>,
    compensation: Settlement,
    prevHash: string,
    hash: string,
    keyId: string,
    signature: string,
    version: int,
    startedAt: Time,
    completedAt: Time)

  datatype EventKind =
    | TransactionCreated
    | ActionReplayed
    | AuthorityEvaluated
    | ActionDenied
    | PolicyEvaluated
    | ApprovalRequested
    | ActionExecuting
    | ActionUnknown
    | ActionFailed
    | ActionExecuted
    | ApprovalGranted
    | ApprovalDenied
    | TransactionCommitted
    | ReconcileNoReconciler
    | ReconcileError
    | ActionReconciled
    | CompensationSkippedIrreversible
    | CompensationSucceeded
    | CompensationFailure
    | CompensationStarted
    | AgentRegistered
    | PolicySetCreated
    | PolicyActivated
    | GrantIssued
    | GrantRevoked

  datatype AuditEvent = AuditEvent(org: Id, txn: Id, kind: EventKind, subject: string)

  /** An absent amount counts as zero cents. */
  function CentsOr0(amount: Option<int>): int {
    match amount
    case None => 0
    case Some(n) => n
  }

  predicate Permits(e: Effect) {
    e == Allow || e == AllowWithConstraints
  }

  predicate TerminalTxn(s: TxnStatus) {
    s == Committed || s == RolledBack || s == PartiallyCompensated || s == Failed
  }

  /** No identifier is listed twice. */
  predicate Distinct(ids: seq<Id>) {
    forall i, j :: 0 <= i < j < |ids| ==> ids[i] != ids[j]
  }
}
