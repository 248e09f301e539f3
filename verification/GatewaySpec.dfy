/** The service calls as functions from a world to a world: the store plus what tool providers
    were asked to do. Everything the engine cannot control is a parameter: the clock, fresh
    identifiers, how the library sort broke ties, the order a map was ranged over, and how
    tools, reconcilers, compensators and the risk judge answered. */
module GatewaySpec {
  import opened Domain
  import opened Receipts
  import opened Transactions
  import opened Policies
  import opened Authority
  import opened StoreSpec

  // ----- the tool registry -----

  datatype Tools = Tools(
    meta: map<string, seq<Class>>,
    handlers: set<string>,
    compensators: set<string>,
    reconcilers: set<string>)

  function ToolKey(tool: string, name: string): string {
    tool + "." + name
  }

  function ClassesOf(t: Tools, tool: string, name: string): seq<Class> {
    if ToolKey(tool, name) in t.meta then t.meta[ToolKey(tool, name)] else [UNKNOWN_CLASS]
  }

  predicate IsCompensable(a: Action) {
    COMPENSABLE in a.classes || REVERSIBLE in a.classes
  }

  predicate IsIrreversible(a: Action) {
    IRREVERSIBLE in a.classes || DESTRUCTIVE in a.classes
  }

  // ----- amounts -----

  const INT64_SPAN := 0x1_0000_0000_0000_0000

  /** The value a 64-bit signed multiplication leaves. */
  function Wrap64(n: int): int {
    (n + INT64_SPAN / 2) % INT64_SPAN - INT64_SPAN / 2
  }

  function CentsUnder(args: Args, k: string): Option<int> {
    if k !in args then None
    else
      match args[k]
      case Int64(n) => Some(n)
      case Int(n) => Some(n)
      case Float(x) => Some(Truncate(x))
      case _ => None
  }

  function ExtractCents(args: Args): Option<int> {
    if CentsUnder(args, "amount_cents").Some? then CentsUnder(args, "amount_cents")
    else if CentsUnder(args, "amountCents").Some? then CentsUnder(args, "amountCents")
    else if "amount" in args then
      match args["amount"]
      case Int(n) => Some(Wrap64(n * 100))
      case Float(x) => Some(Truncate(x * 100.0))
      case _ => None
    else None
  }

  // ----- the world -----

  datatype World = World(db: Store, calls: seq<Id>, undos: seq<Id>)

  const GENESIS := World(EMPTY, [], [])

  /** What the risk judge answered. */
  datatype Screen = Off | Unreachable | Scored(score: int, confidence: real, threshold: int)

  /** What does not change during a run: libraries, the registry, the signer and the judge. The
      judge sees the action, how many siblings it has and their total amount. */
  datatype Env = Env(codec: Codec, tools: Tools, sign: string -> (string, string), judge: (Action, nat, int) -> Screen)

  datatype Refusal =
    | TxnNotFound | TxnTerminal | AgentNotFound | ActionNotFound | Unreconciled | NotExecutable | NotApproved
    | ToolUncertain | ToolError | NothingToReconcile | NoReconciler | ProbeFailed | Unresolved | IllegalMove

  datatype Reply = Ok(a: Action) | Err(why: Refusal) | Broke(a: Action, why: Refusal)

  datatype Outcome = Outcome(world: World, reply: Reply)

  // ----- deciding -----

  datatype Request = Request(org: Id, txn: Id, agent: Id, tool: string, name: string, args: Args, key: string)

  datatype Draw = Draw(now: Time, actionId: Id, approvalId: Id, sorted: seq<Rule>)

  function Drafted(e: Env, q: Request): Action {
    Action("", q.org, q.txn, q.tool, q.name, q.args, "", ClassesOf(e.tools, q.tool, q.name),
           ExtractCents(q.args), q.key, None, Proposed, None, 0)
  }

  function AttemptOf(agent: Agent, a: Action, now: Time): Attempt {
    Attempt(a.tool, a.name, a.amount, agent.environment, now)
  }

  predicate HasGrants(db: Store, org: Id, agent: Id) {
    GrantsOf(db, org, agent) != {}
  }

  predicate Authorized(db: Store, q: Request, agent: Agent, a: Action, now: Time) {
    !HasGrants(db, q.org, q.agent) || exists g :: g in GrantsOf(db, q.org, q.agent) && Covers(g, AttemptOf(agent, a, now))
  }

  function ReasonFor(e: Effect): ReasonCode {
    match e
    case Deny => PolicyDenied
    case RequireApproval => ApprovalRequired
    case _ => ReasonAllowed
  }

  const OVERREACH := Decision(Deny, "", AuthorityExceeded, 0)

  /** Authority first, then policy. */
  function Judged(db: Store, q: Request, agent: Agent, a: Action, sorted: seq<Rule>, now: Time): Decision {
    if !Authorized(db, q, agent, a, now) then OVERREACH
    else
      var d := Decide(sorted, RulesInForce(db, q.org).1, agent, a, now);
      d.(reason := ReasonFor(d.effect))
  }

  predicate Alarming(s: Screen) {
    match s
    case Off => false
    case Unreachable => true
    case Scored(score, confidence, threshold) => confidence < 0.5 || score >= threshold
  }

  /** The total of a set of actions' amounts, absent amounts counting as nothing. */
  ghost function SumAmounts(actions: map<Id, Action>, ids: set<Id>): int
    requires ids <= actions.Keys
  {
    if ids == {} then 0
    else
      var id :| id in ids;
      CentsOr0(actions[id].amount) + SumAmounts(actions, ids - {id})
  }

  ghost function Screening(e: Env, db: Store, a: Action): Screen {
    var siblings := ActionIds(db, a.org, a.txn) - {a.id};
    e.judge(a, |siblings|, SumAmounts(db.actions, siblings))
  }

  function Escalated(d: Decision): Decision {
    d.(effect := RequireApproval, reason := ApprovalRequired)
  }

  ghost function Screened(e: Env, db: Store, a: Action, d: Decision): Decision {
    if Permits(d.effect) && Alarming(Screening(e, db, a)) then Escalated(d) else d
  }

  /** The decision a stored, undecided action gets. */
  ghost function Decided(e: Env, db: Store, q: Request, agent: Agent, a: Action, sorted: seq<Rule>, now: Time): Decision {
    Screened(e, db, a, Judged(db, q, agent, a, sorted, now))
  }

  function StatusFor(e: Effect): ActionStatus {
    match e
    case Deny => Denied
    case RequireApproval => AwaitingDecision
    case _ => Allowed
  }

  // ----- proposing -----

  function Note(q: Request, kind: EventKind, subject: string): AuditEvent {
    AuditEvent(q.org, q.txn, kind, subject)
  }

  /** The error a proposal meets before anything is stored. */
  function ProposeGuard(db: Store, q: Request): Option<Refusal> {
    var t := GetTxn(db, q.org, q.txn);
    if t.None? then Some(TxnNotFound)
    else if TerminalTxn(t.value.status) then Some(TxnTerminal)
    else if GetAgent(db, q.org, q.agent).None? then Some(AgentNotFound)
    else None
  }

  /** What the audit log says about a decision. */
  function Verdicts(q: Request, a: Action, d: Decision): seq<AuditEvent> {
    if d.reason == AuthorityExceeded then [Note(q, ActionDenied, a.id)]
    else if d.effect == Deny then [Note(q, PolicyEvaluated, d.ruleId), Note(q, ActionDenied, a.id)]
    else [Note(q, PolicyEvaluated, d.ruleId)]
  }

  function EmitAll(s: Store, es: seq<AuditEvent>): Store {
    s.(audit := s.audit + es)
  }

  /** Creates the approval an action waits for and pauses its transaction if the table lets it. */
  function AskApproval(s: Store, q: Request, a: Action, approvalId: Id): Store {
    var s := CreateApproval(s, Approval("", q.org, q.txn, a.id, a.amount, Pending), approvalId);
    var s := Emit(s, Note(q, ApprovalRequested, a.id));
    match GetTxn(s, q.org, q.txn)
    case Some(t) => SetTxnStatus(s, q.org, q.txn, Moved(t.status, AwaitingApproval))
    case None => s
  }

  function WithDecision(a: Action, d: Decision): Action {
    a.(decision := Some(d), status := StatusFor(d.effect))
  }

  /** Records a decision on a freshly added action and whatever follows from it. */
  function Settle(db: Store, q: Request, a: Action, d: Decision, approvalId: Id): Store {
    var s := EmitAll(UpdateAction(db, WithDecision(a, d)), Verdicts(q, a, d));
    if d.effect == RequireApproval then AskApproval(s, q, a, approvalId) else s
  }

  ghost function Propose(e: Env, w: World, q: Request, d: Draw): Outcome {
    var guard := ProposeGuard(w.db, q);
    if guard.Some? then Outcome(w, Err(guard.value))
    else
      var agent := GetAgent(w.db, q.org, q.agent).value;
      var draft := Drafted(e, q);
      var replay := Replayed(w.db, draft);
      if replay.Some? then
        Outcome(w.(db := Emit(w.db, Note(q, ActionReplayed, replay.value.id))), Ok(replay.value))
      else
        var a := Stored(e.codec, draft, d.actionId, d.now);
        var added := AddAction(e.codec, w.db, draft, d.actionId, d.now);
        var decision := Decided(e, added, q, agent, a, d.sorted, d.now);
        Outcome(w.(db := Settle(Logged(added, q, a), q, a, decision, d.approvalId)), Ok(WithDecision(a, decision)))
  }

  function Logged(db: Store, q: Request, a: Action): Store {
    if HasGrants(db, q.org, q.agent) then Emit(db, Note(q, AuthorityEvaluated, a.id)) else db
  }

  // ----- simulating -----

  datatype Forecast = Forecast(covered: bool, enforced: bool, decision: Decision, classes: seq<Class>, version: Option<int>, wouldExecute: bool)

  function Simulate(e: Env, db: Store, q: Request, sorted: seq<Rule>, now: Time): Option<Forecast> {
    match GetAgent(db, q.org, q.agent)
    case None => None
    case Some(agent) =>
      var act := Drafted(e, q).(txn := "", argsHash := e.codec.canonical(q.args));
      var enforced := HasGrants(db, q.org, q.agent);
      var covered := Authorized(db, q, agent, act, now);
      if enforced && !covered then Some(Forecast(false, true, OVERREACH, act.classes, None, false))
      else
        var d := Decide(sorted, RulesInForce(db, q.org).1, agent, act, now);
        var d := d.(reason := ReasonFor(d.effect));
        Some(Forecast(covered, enforced, d, act.classes, Some(RulesInForce(db, q.org).1), Permits(d.effect)))
  }

  // ----- executing -----

  datatype ToolAnswer = Succeeded(result: Args) | FailedDefinitely | NoAnswer

  datatype Slip = Slip(receiptId: Id, started: Time, completed: Time)

  /** Every action that reaches execution carries a decision; the other case is never reached. */
  function DecisionOf(a: Action): Decision {
    if a.decision.Some? then a.decision.value else OVERREACH
  }

  function NewReceipt(e: Env, a: Action, result: Args, compensation: Settlement, slip: Slip): Receipt {
    Receipt(slip.receiptId, a.org, a.txn, a.id, a.tool, a.name, a.argsHash, DecisionOf(a).effect,
            e.codec.canonical(result), a.amount, compensation, "", "", "", "", DecisionOf(a).version,
            slip.started, slip.completed)
  }

  /** Appends a receipt and then records its signature. */
  function IssueReceipt(e: Env, db: Store, r: Receipt): Store {
    var stored := Chained(e.codec, db.ledger, r);
    var (keyId, signature) := e.sign(stored.hash);
    UpdateReceipt(AppendReceipt(e.codec, db, r), stored.(keyId := keyId, signature := signature))
  }

  function Happened(a: Action, kind: EventKind): AuditEvent {
    AuditEvent(a.org, a.txn, kind, a.id)
  }

  function Started(db: Store, a: Action): Store {
    var t := GetTxn(db, a.org, a.txn);
    var s := if t.Some? && t.value.status in {Created, Planning, AwaitingApproval}
             then SetTxnStatus(db, a.org, t.value.id, Executing) else db;
    Emit(s, Happened(a, ActionExecuting))
  }

  /** The action once its tool has answered. */
  function Answered(a: Action, answer: ToolAnswer): Action {
    match answer
    case NoAnswer => a.(status := Unknown)
    case FailedDefinitely => a.(status := Errored)
    case Succeeded(result) => a.(status := Executed, result := Some(result))
  }

  function AnswerEvent(answer: ToolAnswer): EventKind {
    match answer
    case NoAnswer => ActionUnknown
    case FailedDefinitely => ActionFailed
    case Succeeded(_) => ActionExecuted
  }

  /** Only a confirmed success leaves a receipt. */
  function Finish(e: Env, w: World, a: Action, answer: ToolAnswer, slip: Slip): Outcome {
    var b := Answered(a, answer);
    var s := UpdateAction(w.db, b);
    var s := if answer.Succeeded? then IssueReceipt(e, s, NewReceipt(e, b, answer.result, NotCompensated, slip)) else s;
    Outcome(w.(db := Emit(s, Happened(a, AnswerEvent(answer)))),
            if answer.Succeeded? then Ok(b) else Broke(b, if answer.NoAnswer? then ToolUncertain else ToolError))
  }

  predicate Reaches(e: Env, a: Action) {
    ToolKey(a.tool, a.name) in e.tools.handlers
  }

  function Run(e: Env, w: World, a: Action, answer: ToolAnswer, slip: Slip): Outcome {
    var calls := if Reaches(e, a) then w.calls + [a.id] else w.calls;
    Finish(e, w.(db := Started(w.db, a), calls := calls), a, if Reaches(e, a) then answer else FailedDefinitely, slip)
  }

  /** The guards of the two execution entry points. */
  predicate MayRun(a: Action, approvedPath: bool) {
    if approvedPath then a.status == Approved
    else a.decision.Some? && Permits(a.decision.value.effect) && (a.status == Allowed || a.status == Approved)
  }

  function ExecuteAllowed(e: Env, w: World, org: Id, id: Id, answer: ToolAnswer, slip: Slip): Outcome {
    match GetAction(w.db, org, id)
    case None => Outcome(w, Err(ActionNotFound))
    case Some(a) =>
      if a.status == Executed then Outcome(w, Ok(a))
      else if a.status == Unknown then Outcome(w, Err(Unreconciled))
      else if a.decision.None? || !Permits(a.decision.value.effect) then Outcome(w, Err(NotExecutable))
      else if a.status != Allowed && a.status != Approved then Outcome(w, Err(NotExecutable))
      else Run(e, w, a, answer, slip)
  }

  function RunApproved(e: Env, w: World, org: Id, id: Id, answer: ToolAnswer, slip: Slip): Outcome {
    match GetAction(w.db, org, id)
    case None => Outcome(w, Err(ActionNotFound))
    case Some(a) =>
      if a.status == Executed then Outcome(w, Ok(a))
      else if a.status != Approved then Outcome(w, Err(NotApproved))
      else Run(e, w, a, answer, slip)
  }

  /** The execute route: an approved action takes the approved path, anything else the other. */
  function ExecuteRoute(e: Env, w: World, org: Id, id: Id, answer: ToolAnswer, slip: Slip): Outcome {
    var a := GetAction(w.db, org, id);
    if a.Some? && a.value.status == Approved then RunApproved(e, w, org, id, answer, slip)
    else ExecuteAllowed(e, w, org, id, answer, slip)
  }

  // ----- approving -----

  function DecideRoute(db: Store, org: Id, id: Id, approve: bool): Store {
    match Decidable(db, org, id)
    case None => db
    case Some(p) =>
      var s := DecideApproval(db, org, id, approve);
      Concluded(Emit(s, AuditEvent(org, p.txn, if approve then ApprovalGranted else ApprovalDenied, p.id)), org, p, approve)
  }

  /** The rest of a ruling, once the approval is marked and the event logged: approve the action if
      granted, and move the transaction if the table lets it. */
  function Concluded(s: Store, org: Id, p: Approval, approve: bool): Store {
    var t := GetTxn(s, org, p.txn);
    if !approve then
      if t.None? then s else SetTxnStatus(s, org, t.value.id, Moved(t.value.status, Aborting))
    else
      match GetAction(s, org, p.action)
      case None => s
      case Some(a) =>
        var s := UpdateAction(s, a.(status := Approved));
        if t.None? then s else SetTxnStatus(s, org, t.value.id, Moved(t.value.status, Executing))
  }

  // ----- committing -----

  predicate Resolved(st: ActionStatus) {
    st == Executed || st == Denied || st == Compensated
  }

  /** Why an action keeps its transaction from committing. */
  datatype Blocker = AwaitsApproval | NeedsReconciling | HasFailed | StillOpen

  function Blocks(st: ActionStatus): (b: Option<Blocker>)
    ensures b.None? <==> Resolved(st)
  {
    match st
    case Executed => None
    case Denied => None
    case Compensated => None
    case AwaitingDecision => Some(AwaitsApproval)
    case Unknown => Some(NeedsReconciling)
    case Errored => Some(HasFailed)
    case CompensationFailed => Some(HasFailed)
    case _ => Some(StillOpen)
  }

  predicate AllResolved(db: Store, org: Id, txn: Id) {
    forall id :: id in ActionIds(db, org, txn) ==> Resolved(db.actions[id].status)
  }

  function CommitGuard(db: Store, org: Id, txn: Id): Option<Refusal> {
    var t := GetTxn(db, org, txn);
    if t.None? then Some(TxnNotFound)
    else if TerminalTxn(t.value.status) then Some(TxnTerminal)
    else if !AllResolved(db, org, txn) then Some(Unresolved)
    else if !CanTransition(t.value.status, Committed) then Some(IllegalMove)
    else None
  }

  function Commit(db: Store, org: Id, txn: Id): Store {
    if CommitGuard(db, org, txn).Some? then db
    else Emit(SetTxnStatus(db, org, txn, Committed), AuditEvent(org, txn, TransactionCommitted, txn))
  }

  // ----- reconciling -----

  datatype Finding = Found(result: Args) | Absent | ProbeError

  function Reconcile(e: Env, w: World, org: Id, id: Id, finding: Finding, slip: Slip): Outcome {
    match GetAction(w.db, org, id)
    case None => Outcome(w, Err(ActionNotFound))
    case Some(a) =>
      if a.status != Unknown then Outcome(w, Err(NothingToReconcile))
      else if ToolKey(a.tool, a.name) !in e.tools.reconcilers then
        Outcome(w.(db := Emit(w.db, Happened(a, ReconcileNoReconciler))), Err(NoReconciler))
      else
        match finding
        case ProbeError => Outcome(w.(db := Emit(w.db, Happened(a, ReconcileError))), Err(ProbeFailed))
        case _ => Reconciled(e, w, a, finding, slip)
  }

  /** The provider's word is taken: found means executed and attested, absent means failed. */
  function Reconciled(e: Env, w: World, a: Action, finding: Finding, slip: Slip): Outcome {
    var b := if finding.Found? then a.(status := Executed, result := Some(finding.result)) else a.(status := Errored);
    var s := UpdateAction(w.db, b);
    var s := if finding.Found?
             then IssueReceipt(e, s, NewReceipt(e, b, finding.result, FromReconciliation, slip.(started := a.createdAt)))
             else s;
    Outcome(w.(db := Emit(s, Happened(a, ActionReconciled))), Ok(b))
  }

  // ----- compensating -----

  datatype Undoing = Undoing(world: World, failed: bool)

  /** Irreversible and not compensable: an executed action like this is passed over, never undone. */
  predicate Skipped(a: Action) {
    IsIrreversible(a) && !IsCompensable(a)
  }

  predicate Undone(e: Env, a: Action, undo: Id -> bool) {
    ToolKey(a.tool, a.name) in e.tools.compensators && undo(a.id)
  }

  /** One entry of the compensation loop. `a` is the snapshot taken before the loop began. */
  function UndoOne(e: Env, u: Undoing, org: Id, txn: Id, a: Action, undo: Id -> bool): Undoing {
    var db := u.world.db;
    if a.status != Executed then u
    else if Skipped(a) then
      Undoing(u.world.(db := Emit(db, AuditEvent(org, txn, CompensationSkippedIrreversible, a.id))), true)
    else
      var undos := if ToolKey(a.tool, a.name) in e.tools.compensators then u.world.undos + [a.id] else u.world.undos;
      var ok := Undone(e, a, undo);
      var s := match GetAction(db, org, a.id)
               case None => db
               case Some(ac) => UpdateAction(db, ac.(status := if ok then Compensated else CompensationFailed));
      var s := Emit(s, AuditEvent(org, txn, if ok then CompensationSucceeded else CompensationFailure, a.id));
      Undoing(u.world.(db := s, undos := undos), u.failed || !ok)
  }

  function UndoAll(e: Env, u: Undoing, org: Id, txn: Id, acts: seq<Action>, undo: Id -> bool): Undoing {
    if acts == [] then u
    else UndoOne(e, UndoAll(e, u, org, txn, acts[..|acts| - 1], undo), org, txn, acts[|acts| - 1], undo)
  }

  function Reversed<T>(s: seq<T>): seq<T> {
    seq(|s|, i requires 0 <= i < |s| => s[|s| - 1 - i])
  }

  /** `ids` is the order in which the transaction's actions were listed. The source does not
      look at the transaction's status first. */
  function Compensate(e: Env, w: World, org: Id, txn: Id, ids: seq<Id>, undo: Id -> bool): (World, Option<TxnStatus>)
    requires forall id :: id in ids ==> id in w.db.actions
  {
    if GetTxn(w.db, org, txn).None? then (w, None)
    else
      var s := SetTxnStatus(w.db, org, txn, Compensating);
      var s := Emit(s, AuditEvent(org, txn, CompensationStarted, txn));
      var u := UndoAll(e, Undoing(w.(db := s), false), org, txn, Reversed(Snapshot(w.db, ids)), undo);
      var final := if u.failed then PartiallyCompensated else RolledBack;
      (u.world.(db := SetTxnStatus(u.world.db, org, txn, final)), Some(final))
  }
}
