/** The engine as a state machine in which every service call is one step. */
module Protocol {
  import opened Domain
  import opened Receipts
  import opened Transactions
  import opened Policies
  import opened Authority
  import opened StoreSpec
  import opened GatewaySpec

  datatype Step =
    | OpenOrg(org: Id)
    | RegisterAgent(agent: Agent)
    | DraftPolicies(org: Id, rules: seq<Rule>)
    | ActivatePolicies(org: Id, version: int)
    | IssueGrant(grant: Grant)
    | Revoke(org: Id, id: Id, now: Time)
    | OpenTxn(txn: Txn)
    | ProposeCall(q: Request, draw: Draw)
    | DecideCall(org: Id, id: Id, approve: bool)
    | ExecuteCall(org: Id, id: Id, answer: ToolAnswer, slip: Slip)
    | RunApprovedCall(org: Id, id: Id, answer: ToolAnswer, slip: Slip)
    | CommitCall(org: Id, id: Id)
    | ReconcileCall(org: Id, id: Id, finding: Finding, slip: Slip)
    | CompensateCall(org: Id, id: Id, ids: seq<Id>, undo: Id -> bool)

  /** Steps that set up tenants, agents, policies, grants or transactions, as opposed to calls on
      transactions and actions. */
  predicate IsSetup(step: Step) {
    step.OpenOrg? || step.RegisterAgent? || step.DraftPolicies? || step.ActivatePolicies? || step.IssueGrant? || step.Revoke? || step.OpenTxn?
  }

  /** Identifiers are UUIDs: hex digits and dashes. */
  predicate Plain(id: Id) {
    '|' !in id
  }

  /** What a step may assume of its inputs: identifiers are fresh, listings and sortings are
      real, and the checks the HTTP handlers make before calling the store have passed.
      Compensation is only called on transactions it can leave by the status table. */
  ghost predicate Admissible(e: Env, w: World, step: Step) {
    var db := w.db;
    match step
    case OpenOrg(org) => org !in db.orgs && Plain(org)
    case RegisterAgent(agent) => agent.org in db.orgs && agent.id !in db.agents
    case IssueGrant(g) => g.id !in db.grants && g.revokedAt.None? && ValidScope(g.scope) && GetAgent(db, g.org, g.agent).Some?
    case OpenTxn(t) => t.id !in db.txns && Plain(t.id) && t.status == Planning && GetAgent(db, t.org, t.agent).Some?
    case ProposeCall(q, d) =>
      && d.actionId !in db.actions && d.approvalId !in db.approvals
      && IsSorting(d.sorted, RulesInForce(db, q.org).0)
    case CompensateCall(org, id, ids, _) =>
      && Lists(db, org, id, ids)
      && (GetTxn(db, org, id).Some? ==> db.txns[id].status in {Executing, Aborting})
    case _ => true
  }

  ghost function Next(e: Env, w: World, step: Step): World
    requires Admissible(e, w, step)
  {
    var db := w.db;
    match step
    case OpenOrg(org) => w.(db := SeedOrg(db, org))
    case RegisterAgent(agent) => w.(db := Emit(CreateAgent(db, agent), AuditEvent(agent.org, "", AgentRegistered, agent.id)))
    case DraftPolicies(org, rules) => w.(db := Emit(CreatePolicySet(db, org, rules), AuditEvent(org, "", PolicySetCreated, "")))
    case ActivatePolicies(org, version) =>
      if HasVersion(SetsOf(db, org), version)
      then w.(db := Emit(ActivatePolicySet(db, org, version), AuditEvent(org, "", PolicyActivated, "")))
      else w
    case IssueGrant(g) => w.(db := Emit(CreateGrant(db, g), AuditEvent(g.org, "", GrantIssued, g.id)))
    case Revoke(org, id, now) =>
      if Revocable(db, org, id)
      then w.(db := Emit(RevokeGrant(db, org, id, now), AuditEvent(org, "", GrantRevoked, id)))
      else w
    case OpenTxn(t) => w.(db := CreateTxn(db, t))
    case ProposeCall(q, d) => Propose(e, w, q, d).world
    case DecideCall(org, id, approve) => w.(db := DecideRoute(db, org, id, approve))
    case ExecuteCall(org, id, answer, slip) => ExecuteAllowed(e, w, org, id, answer, slip).world
    case RunApprovedCall(org, id, answer, slip) => RunApproved(e, w, org, id, answer, slip).world
    case CommitCall(org, id) => w.(db := Commit(db, org, id))
    case ReconcileCall(org, id, finding, slip) => Reconcile(e, w, org, id, finding, slip).world
    case CompensateCall(org, id, ids, undo) => Compensate(e, w, org, id, ids, undo).0
  }

  /** A run: the worlds it passes through, from the empty world on, one step at a time. */
  ghost predicate IsRun(e: Env, ws: seq<World>, steps: seq<Step>) {
    && |ws| == |steps| + 1 && ws[0] == GENESIS
    && forall i :: 0 <= i < |steps| ==> Admissible(e, ws[i], steps[i]) && ws[i + 1] == Next(e, ws[i], steps[i])
  }

  // ----- what each kind of step changes -----

  /** Only the audit log differs. */
  ghost predicate OnlyLogged(w: World, w': World) {
    w' == w.(db := w.db.(audit := w'.db.audit))
  }

  predicate SameTerms(r: Receipt, s: Receipt) {
    r == s.(keyId := r.keyId, signature := r.signature)
  }

  /** A receipt records the action it is for. */
  predicate Attests(r: Receipt, a: Action) {
    && r.action == a.id && r.org == a.org && r.txn == a.txn && r.cents == a.amount
    && a.decision == Some(DecisionOf(a)) && r.decision == DecisionOf(a).effect && r.version == DecisionOf(a).version
  }

  /** The ledger gained a receipt for this action; older receipts changed at most their signature. */
  ghost predicate LedgerGrew(g: Ledger, g': Ledger, a: Action) {
    && |g'.list| == |g.list| + 1
    && (forall i :: 0 <= i < |g.list| ==> SameTerms(g'.list[i], g.list[i]))
    && Attests(g'.list[|g.list|], a)
  }

  /** A receipt is issued exactly when the action ends up executed. */
  ghost predicate LedgerFollows(g: Ledger, g': Ledger, a: Action) {
    if a.status == Executed then LedgerGrew(g, g', a) else g' == g
  }

  /** The fields of an action that no step rewrites once it is decided. */
  predicate SameDeed(a: Action, b: Action) {
    b == a.(status := b.status, result := b.result)
  }

  function WithStatus(txns: map<Id, Txn>, id: Id, st: TxnStatus): map<Id, Txn>
    requires id in txns
  {
    txns[id := txns[id].(status := st)]
  }

  /** One action was replaced, and its transaction may have moved. */
  ghost predicate ActionMoved(w: World, w': World, b: Action, st: TxnStatus)
    requires b.txn in w.db.txns
  {
    && b.id in w.db.actions && SameDeed(w.db.actions[b.id], b)
    && w' == w.(calls := w'.calls,
                db := w.db.(actions := w.db.actions[b.id := b], byIdem := w.db.byIdem[KeyOf(b) := b.id],
                            txns := WithStatus(w.db.txns, b.txn, st), ledger := w'.db.ledger, audit := w'.db.audit))
    && LedgerFollows(w.db.ledger, w'.db.ledger, b)
  }

  lemma IssueGrows(e: Env, db: Store, b: Action, result: Args, compensation: Settlement, slip: Slip)
    requires b.decision.Some?
    ensures var db' := IssueReceipt(e, db, NewReceipt(e, b, result, compensation, slip));
            LedgerGrew(db.ledger, db'.ledger, b) && db' == db.(ledger := db'.ledger)
  {
  }

  lemma FinishShape(e: Env, base: World, w: World, a: Action, answer: ToolAnswer, slip: Slip, st: TxnStatus)
    requires a.id in base.db.actions && base.db.actions[a.id] == a && a.decision.Some?
    requires a.txn in base.db.txns
    requires w == base.(calls := w.calls, db := base.db.(txns := WithStatus(base.db.txns, a.txn, st), audit := w.db.audit))
    ensures var w' := Finish(e, w, a, answer, slip).world;
            ActionMoved(base, w', Answered(a, answer), st) && w'.calls == w.calls
  {
    var b := Answered(a, answer);
    if answer.Succeeded? {
      IssueGrows(e, UpdateAction(w.db, b), b, answer.result, NotCompensated, slip);
    }
  }

  function RunStatus(st: TxnStatus): TxnStatus {
    if st in {Created, Planning, AwaitingApproval} then Executing else st
  }

  lemma StartedShape(db: Store, a: Action)
    requires a.txn in db.txns && db.txns[a.txn].org == a.org && db.txns[a.txn].id == a.txn
    ensures var db' := Started(db, a);
            db' == db.(txns := WithStatus(db.txns, a.txn, RunStatus(db.txns[a.txn].status)), audit := db'.audit)
  {
    assert db.txns == WithStatus(db.txns, a.txn, db.txns[a.txn].status);
  }

  lemma RunShape(e: Env, w: World, a: Action, answer: ToolAnswer, slip: Slip)
    requires a.id in w.db.actions && w.db.actions[a.id] == a && a.decision.Some?
    requires a.txn in w.db.txns && w.db.txns[a.txn].org == a.org && w.db.txns[a.txn].id == a.txn
    ensures var w' := Run(e, w, a, answer, slip).world;
            && ActionMoved(w, w', Answered(a, if Reaches(e, a) then answer else FailedDefinitely), RunStatus(w.db.txns[a.txn].status))
            && w'.calls == if Reaches(e, a) then w.calls + [a.id] else w.calls
  {
    StartedShape(w.db, a);
    var calls := if Reaches(e, a) then w.calls + [a.id] else w.calls;
    FinishShape(e, w, w.(db := Started(w.db, a), calls := calls), a,
                if Reaches(e, a) then answer else FailedDefinitely, slip, RunStatus(w.db.txns[a.txn].status));
  }

  lemma ReconciledShape(e: Env, w: World, a: Action, finding: Finding, slip: Slip)
    requires a.id in w.db.actions && w.db.actions[a.id] == a && a.decision.Some?
    requires a.txn in w.db.txns
    ensures var w' := Reconciled(e, w, a, finding, slip).world;
            var b := a.(status := if finding.Found? then Executed else Errored, result := w'.db.actions[a.id].result);
            ActionMoved(w, w', b, w.db.txns[a.txn].status) && w'.calls == w.calls
  {
    if finding.Found? {
      var b := a.(status := Executed, result := Some(finding.result));
      IssueGrows(e, UpdateAction(w.db, b), b, finding.result, FromReconciliation, slip.(started := a.createdAt));
    }
    assert w.db.txns == WithStatus(w.db.txns, a.txn, w.db.txns[a.txn].status);
  }

  predicate Reconcilable(e: Env, db: Store, org: Id, id: Id, finding: Finding) {
    var a := GetAction(db, org, id);
    a.Some? && a.value.status == Unknown && ToolKey(a.value.tool, a.value.name) in e.tools.reconcilers && !finding.ProbeError?
  }

  lemma ReconcileTakesEffect(e: Env, w: World, org: Id, id: Id, finding: Finding, slip: Slip)
    requires Reconcilable(e, w.db, org, id, finding)
    ensures Reconcile(e, w, org, id, finding, slip).world == Reconciled(e, w, w.db.actions[id], finding, slip).world
  {
  }

  lemma ReconcileOnlyLogs(e: Env, w: World, org: Id, id: Id, finding: Finding, slip: Slip)
    requires !Reconcilable(e, w.db, org, id, finding)
    ensures OnlyLogged(w, Reconcile(e, w, org, id, finding, slip).world)
  {
  }

  function NewApproval(a: Action, id: Id): Approval {
    Approval(id, a.org, a.txn, a.id, a.amount, Pending)
  }

  /** A fresh proposal: one new action, decided, with one pending approval if it needs one. */
  ghost predicate ActionAdded(w: World, w': World, a: Action, approvalId: Id)
    requires a.txn in w.db.txns
  {
    var st := w.db.txns[a.txn].status;
    && w.db.txns[a.txn].org == a.org && !TerminalTxn(st)
    && a.decision == Some(DecisionOf(a)) && a.status == StatusFor(DecisionOf(a).effect)
    && w' == w.(db := w.db.(
         actions := w.db.actions[a.id := a], byIdem := w.db.byIdem[KeyOf(a) := a.id],
         approvals := if a.status == AwaitingDecision then w.db.approvals[approvalId := NewApproval(a, approvalId)] else w.db.approvals,
         txns := WithStatus(w.db.txns, a.txn, if a.status == AwaitingDecision then Moved(st, AwaitingApproval) else st),
         audit := w'.db.audit))
  }

  /** A fresh proposal: accepted by the guard and not a replay. */
  predicate Accepted(e: Env, db: Store, q: Request) {
    ProposeGuard(db, q).None? && Replayed(db, Drafted(e, q)).None?
  }

  /** The record a fresh proposal leaves. */
  ghost function NewAction(e: Env, db: Store, q: Request, d: Draw): Action
    requires Accepted(e, db, q)
  {
    var a := Stored(e.codec, Drafted(e, q), d.actionId, d.now);
    var added := AddAction(e.codec, db, Drafted(e, q), d.actionId, d.now);
    WithDecision(a, Decided(e, added, q, GetAgent(db, q.org, q.agent).value, a, d.sorted, d.now))
  }

  lemma ProposeShape(e: Env, w: World, q: Request, d: Draw)
    requires d.actionId !in w.db.actions
    ensures var w' := Propose(e, w, q, d).world;
            if Accepted(e, w.db, q) then ActionAdded(w, w', NewAction(e, w.db, q, d), d.approvalId)
            else OnlyLogged(w, w')
  {
    if Accepted(e, w.db, q) {
      var a := Stored(e.codec, Drafted(e, q), d.actionId, d.now);
      var added := AddAction(e.codec, w.db, Drafted(e, q), d.actionId, d.now);
      var decision := Decided(e, added, q, GetAgent(w.db, q.org, q.agent).value, a, d.sorted, d.now);
      SettleShape(w, Logged(added, q, a), q, a, decision, d.approvalId);
    }
  }

  lemma SettleShape(w: World, db: Store, q: Request, a: Action, d: Decision, approvalId: Id)
    requires a.org == q.org && a.txn == q.txn && ProposeGuard(w.db, q).None?
    requires db == w.db.(actions := w.db.actions[a.id := a], byIdem := w.db.byIdem[KeyOf(a) := a.id], audit := db.audit)
    ensures ActionAdded(w, w.(db := Settle(db, q, a, d, approvalId)), WithDecision(a, d), approvalId)
  {
    var b := WithDecision(a, d);
    assert w.db.actions[a.id := a][a.id := b] == w.db.actions[a.id := b];
    assert w.db.byIdem[KeyOf(a) := a.id][KeyOf(b) := a.id] == w.db.byIdem[KeyOf(b) := a.id];
    assert w.db.txns == WithStatus(w.db.txns, a.txn, w.db.txns[a.txn].status);
  }

  /** An approval was decided; granting it approves its action. */
  ghost predicate ApprovalDecided(w: World, w': World, p: Approval, approve: bool)
    requires p.action in w.db.actions && p.txn in w.db.txns
  {
    var b := w.db.actions[p.action].(status := if approve then Approved else w.db.actions[p.action].status);
    w' == w.(db := w.db.(
      approvals := w.db.approvals[p.id := p.(status := if approve then Granted else Refused)],
      actions := if approve then w.db.actions[p.action := b] else w.db.actions,
      byIdem := if approve then w.db.byIdem[KeyOf(b) := p.action] else w.db.byIdem,
      txns := WithStatus(w.db.txns, p.txn, Moved(w.db.txns[p.txn].status, if approve then Executing else Aborting)),
      audit := w'.db.audit))
  }

  lemma DecideShape(w: World, id: Id, approve: bool)
    requires id in w.db.approvals
    requires var p := w.db.approvals[id];
             && p.id == id && p.status == Pending
             && p.action in w.db.actions && w.db.actions[p.action].id == p.action && w.db.actions[p.action].org == p.org
             && p.txn in w.db.txns && w.db.txns[p.txn].org == p.org && w.db.txns[p.txn].id == p.txn
    ensures var p := w.db.approvals[id];
            ApprovalDecided(w, w.(db := DecideRoute(w.db, p.org, id, approve)), p, approve)
  {
  }
}
