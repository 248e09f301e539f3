/** Tenant isolation: whatever is done for one organization, another organization's records,
    rules, grants, receipts, audit log and chain verdict stay exactly as they were. */
module Tenancy {
  import opened Domain
  import opened Receipts
  import opened Transactions
  import opened StoreSpec
  import opened GatewaySpec
  import opened Protocol
  import opened Compensation
  import opened Invariants

  /** Everything an organization can see of the store. */
  datatype Tenant = Tenant(
    agents: map<Id, Agent>,
    txns: map<Id, Txn>,
    actions: map<Id, Action>,
    approvals: map<Id, Approval>,
    sets: seq<PolicySet>,
    grants: map<Id, Grant>,
    receipts: seq<Receipt>,
    tip: string,
    verdict: int,
    audit: seq<AuditEvent>)

  function AgentsOf(m: map<Id, Agent>, org: Id): map<Id, Agent> {
    map id | id in m && m[id].org == org :: m[id]
  }

  function TxnsOf(m: map<Id, Txn>, org: Id): map<Id, Txn> {
    map id | id in m && m[id].org == org :: m[id]
  }

  function ActionsOf(m: map<Id, Action>, org: Id): map<Id, Action> {
    map id | id in m && m[id].org == org :: m[id]
  }

  function OwnApprovals(m: map<Id, Approval>, org: Id): map<Id, Approval> {
    map id | id in m && m[id].org == org :: m[id]
  }

  function GrantsIn(m: map<Id, Grant>, org: Id): map<Id, Grant> {
    map id | id in m && m[id].org == org :: m[id]
  }

  function EventsOf(log: seq<AuditEvent>, org: Id): seq<AuditEvent> {
    if log == [] then []
    else EventsOf(log[..|log| - 1], org) + if log[|log| - 1].org == org then [log[|log| - 1]] else []
  }

  function View(c: Codec, s: Store, org: Id): Tenant {
    Tenant(AgentsOf(s.agents, org), TxnsOf(s.txns, org), ActionsOf(s.actions, org), OwnApprovals(s.approvals, org),
           SetsOf(s, org), GrantsIn(s.grants, org), ReceiptsOf(s.ledger.list, org), Tip(s.ledger, org),
           Verdict(c, s.ledger.list, org), EventsOf(s.audit, org))
  }

  /** What the audit route shows an organization is a function of its own events. */
  lemma {:induction false} AuditShowsOwnEvents(log: seq<AuditEvent>, org: Id, txn: Id, limit: int)
    ensures AuditView(log, org, txn, limit) == AuditView(EventsOf(log, org), org, txn, limit)
    decreases |log|
  {
    if log != [] && limit > 0 {
      var n := |log| - 1;
      var mine := EventsOf(log[..n], org);
      AuditShowsOwnEvents(log[..n], org, txn, limit);
      AuditShowsOwnEvents(log[..n], org, txn, limit - 1);
      if log[n].org == org {
        assert (mine + [log[n]])[..|mine|] == mine;
      } else {
        assert mine + [] == mine;
      }
    }
  }

  // ----- each store call, made for another organization -----

  lemma EmitApart(c: Codec, s: Store, e: AuditEvent, b: Id)
    requires e.org != b
    ensures View(c, Emit(s, e), b) == View(c, s, b)
  {
    assert (s.audit + [e])[..|s.audit|] == s.audit;
    assert EventsOf(s.audit, b) + [] == EventsOf(s.audit, b);
  }

  lemma {:induction false} EmitAllApart(c: Codec, s: Store, es: seq<AuditEvent>, b: Id)
    requires forall i :: 0 <= i < |es| ==> es[i].org != b
    ensures View(c, EmitAll(s, es), b) == View(c, s, b)
  {
    if es == [] {
      assert s.audit + es == s.audit;
    } else {
      var n := |es| - 1;
      EmitAllApart(c, s, es[..n], b);
      EmitApart(c, EmitAll(s, es[..n]), es[n], b);
      assert s.audit + es == (s.audit + es[..n]) + [es[n]];
    }
  }

  lemma SetTxnStatusApart(c: Codec, s: Store, org: Id, id: Id, st: TxnStatus, b: Id)
    requires org != b
    ensures View(c, SetTxnStatus(s, org, id, st), b) == View(c, s, b)
  {
    assert TxnsOf(SetTxnStatus(s, org, id, st).txns, b) == TxnsOf(s.txns, b);
  }

  lemma UpdateActionApart(c: Codec, s: Store, a: Action, b: Id)
    requires a.org != b && (a.id in s.actions ==> s.actions[a.id].org != b)
    ensures View(c, UpdateAction(s, a), b) == View(c, s, b)
  {
    assert ActionsOf(UpdateAction(s, a).actions, b) == ActionsOf(s.actions, b);
  }

  lemma AddActionApart(c: Codec, s: Store, a: Action, id: Id, now: Time, b: Id)
    requires a.org != b && id !in s.actions
    ensures View(c, AddAction(c, s, a, id, now), b) == View(c, s, b)
  {
    assert ActionsOf(AddAction(c, s, a, id, now).actions, b) == ActionsOf(s.actions, b);
  }

  lemma CreateApprovalApart(c: Codec, s: Store, p: Approval, id: Id, b: Id)
    requires p.org != b && id !in s.approvals
    ensures View(c, CreateApproval(s, p, id), b) == View(c, s, b)
  {
    assert OwnApprovals(CreateApproval(s, p, id).approvals, b) == OwnApprovals(s.approvals, b);
  }

  lemma DecideApprovalApart(c: Codec, s: Store, org: Id, id: Id, approve: bool, b: Id)
    requires org != b
    ensures View(c, DecideApproval(s, org, id, approve), b) == View(c, s, b)
  {
    assert OwnApprovals(DecideApproval(s, org, id, approve).approvals, b) == OwnApprovals(s.approvals, b);
  }

  lemma AppendApart(c: Codec, s: Store, r: Receipt, b: Id)
    requires r.org != b
    ensures View(c, AppendReceipt(c, s, r), b) == View(c, s, b)
  {
    var list := s.ledger.list;
    var list' := AppendReceipt(c, s, r).ledger.list;
    assert list'[..|list|] == list;
    assert ReceiptsOf(list, b) + [] == ReceiptsOf(list, b);
  }

  lemma {:induction false} SignListApart(list: seq<Receipt>, list': seq<Receipt>, r: Receipt, b: Id)
    requires r.org != b && |list'| == |list| && forall i :: 0 <= i < |list| ==> list'[i] == SignOne(list[i], r)
    ensures ReceiptsOf(list', b) == ReceiptsOf(list, b)
  {
    if list != [] {
      SignListApart(list[..|list| - 1], list'[..|list| - 1], r, b);
    }
  }

  lemma UpdateReceiptApart(c: Codec, s: Store, r: Receipt, b: Id)
    requires r.org != b
    ensures View(c, UpdateReceipt(s, r), b) == View(c, s, b)
  {
    var list, list' := s.ledger.list, UpdateReceipt(s, r).ledger.list;
    SignListApart(list, list', r, b);
    VerdictReadsChainFields(c, list', list, b);
  }

  // ----- each service call -----

  lemma AskApart(c: Codec, s: Store, q: Request, a: Action, approvalId: Id, b: Id)
    requires q.org != b && approvalId !in s.approvals
    ensures View(c, AskApproval(s, q, a, approvalId), b) == View(c, s, b)
  {
    var p := Approval("", q.org, q.txn, a.id, a.amount, Pending);
    var s1 := CreateApproval(s, p, approvalId);
    var s2 := Emit(s1, Note(q, ApprovalRequested, a.id));
    CreateApprovalApart(c, s, p, approvalId, b);
    EmitApart(c, s1, Note(q, ApprovalRequested, a.id), b);
    if GetTxn(s2, q.org, q.txn).Some? {
      SetTxnStatusApart(c, s2, q.org, q.txn, Moved(s2.txns[q.txn].status, AwaitingApproval), b);
    }
  }

  lemma SettleApart(c: Codec, s: Store, q: Request, a: Action, d: Decision, approvalId: Id, b: Id)
    requires q.org != b && a.org == q.org && approvalId !in s.approvals && (a.id in s.actions ==> s.actions[a.id].org != b)
    ensures View(c, Settle(s, q, a, d, approvalId), b) == View(c, s, b)
  {
    var s1 := UpdateAction(s, WithDecision(a, d));
    var s2 := EmitAll(s1, Verdicts(q, a, d));
    UpdateActionApart(c, s, WithDecision(a, d), b);
    EmitAllApart(c, s1, Verdicts(q, a, d), b);
    if d.effect == RequireApproval {
      AskApart(c, s2, q, a, approvalId, b);
    }
  }

  lemma ProposeApart(e: Env, w: World, q: Request, d: Draw, b: Id)
    requires q.org != b && d.actionId !in w.db.actions && d.approvalId !in w.db.approvals
    ensures View(e.codec, Propose(e, w, q, d).world.db, b) == View(e.codec, w.db, b)
  {
    var draft := Drafted(e, q);
    if Accepted(e, w.db, q) {
      var a := Stored(e.codec, draft, d.actionId, d.now);
      var added := AddAction(e.codec, w.db, draft, d.actionId, d.now);
      AddActionApart(e.codec, w.db, draft, d.actionId, d.now, b);
      EmitApart(e.codec, added, Note(q, AuthorityEvaluated, a.id), b);
      var decision := Decided(e, added, q, GetAgent(w.db, q.org, q.agent).value, a, d.sorted, d.now);
      SettleApart(e.codec, Logged(added, q, a), q, a, decision, d.approvalId, b);
    } else if ProposeGuard(w.db, q).None? {
      EmitApart(e.codec, w.db, Note(q, ActionReplayed, Replayed(w.db, draft).value.id), b);
    }
  }

  lemma IssueApart(e: Env, s: Store, r: Receipt, b: Id)
    requires r.org != b
    ensures View(e.codec, IssueReceipt(e, s, r), b) == View(e.codec, s, b)
  {
    var stored := Chained(e.codec, s.ledger, r);
    var (keyId, signature) := e.sign(stored.hash);
    AppendApart(e.codec, s, r, b);
    UpdateReceiptApart(e.codec, AppendReceipt(e.codec, s, r), stored.(keyId := keyId, signature := signature), b);
  }

  lemma FinishApart(e: Env, w: World, a: Action, answer: ToolAnswer, slip: Slip, b: Id)
    requires a.org != b && (a.id in w.db.actions ==> w.db.actions[a.id].org != b)
    ensures View(e.codec, Finish(e, w, a, answer, slip).world.db, b) == View(e.codec, w.db, b)
  {
    var x := Answered(a, answer);
    var s := UpdateAction(w.db, x);
    UpdateActionApart(e.codec, w.db, x, b);
    if answer.Succeeded? {
      var r := NewReceipt(e, x, answer.result, NotCompensated, slip);
      IssueApart(e, s, r, b);
      EmitApart(e.codec, IssueReceipt(e, s, r), Happened(a, AnswerEvent(answer)), b);
    } else {
      EmitApart(e.codec, s, Happened(a, AnswerEvent(answer)), b);
    }
  }

  lemma StartedApart(c: Codec, db: Store, a: Action, b: Id)
    requires a.org != b
    ensures View(c, Started(db, a), b) == View(c, db, b)
  {
    var t := GetTxn(db, a.org, a.txn);
    if t.Some? && t.value.status in {Created, Planning, AwaitingApproval} {
      SetTxnStatusApart(c, db, a.org, t.value.id, Executing, b);
      EmitApart(c, SetTxnStatus(db, a.org, t.value.id, Executing), Happened(a, ActionExecuting), b);
    } else {
      EmitApart(c, db, Happened(a, ActionExecuting), b);
    }
  }

  lemma StartedKeepsActions(db: Store, a: Action)
    ensures Started(db, a).actions == db.actions
  {
  }

  lemma RunApart(e: Env, w: World, a: Action, answer: ToolAnswer, slip: Slip, b: Id)
    requires a.org != b && (a.id in w.db.actions ==> w.db.actions[a.id].org != b)
    ensures View(e.codec, Run(e, w, a, answer, slip).world.db, b) == View(e.codec, w.db, b)
  {
    StartedApart(e.codec, w.db, a, b);
    StartedKeepsActions(w.db, a);
    var calls := if Reaches(e, a) then w.calls + [a.id] else w.calls;
    var started := w.(db := Started(w.db, a), calls := calls);
    FinishApart(e, started, a, if Reaches(e, a) then answer else FailedDefinitely, slip, b);
  }

  lemma ExecuteApart(e: Env, w: World, org: Id, id: Id, answer: ToolAnswer, slip: Slip, b: Id)
    requires Findable(w.db) && org != b
    ensures View(e.codec, ExecuteAllowed(e, w, org, id, answer, slip).world.db, b) == View(e.codec, w.db, b)
  {
    ExecuteRuns(e, w, org, id, answer, slip);
    if GetAction(w.db, org, id).Some? {
      RunApart(e, w, w.db.actions[id], answer, slip, b);
    }
  }

  lemma RunApprovedApart(e: Env, w: World, org: Id, id: Id, answer: ToolAnswer, slip: Slip, b: Id)
    requires Findable(w.db) && org != b
    ensures View(e.codec, RunApproved(e, w, org, id, answer, slip).world.db, b) == View(e.codec, w.db, b)
  {
    ApprovedRuns(e, w, org, id, answer, slip);
    if GetAction(w.db, org, id).Some? {
      RunApart(e, w, w.db.actions[id], answer, slip, b);
    }
  }

  lemma ReconciledApart(e: Env, w: World, a: Action, finding: Finding, slip: Slip, b: Id)
    requires a.org != b && (a.id in w.db.actions ==> w.db.actions[a.id].org != b)
    ensures View(e.codec, Reconciled(e, w, a, finding, slip).world.db, b) == View(e.codec, w.db, b)
  {
    var x := if finding.Found? then a.(status := Executed, result := Some(finding.result)) else a.(status := Errored);
    var s := UpdateAction(w.db, x);
    UpdateActionApart(e.codec, w.db, x, b);
    if finding.Found? {
      var r := NewReceipt(e, x, finding.result, FromReconciliation, slip.(started := a.createdAt));
      IssueApart(e, s, r, b);
      EmitApart(e.codec, IssueReceipt(e, s, r), Happened(a, ActionReconciled), b);
    } else {
      EmitApart(e.codec, s, Happened(a, ActionReconciled), b);
    }
  }

  lemma LogApart(c: Codec, db: Store, a: Action, kind: EventKind, b: Id)
    requires a.org != b
    ensures View(c, Emit(db, Happened(a, kind)), b) == View(c, db, b)
  {
    EmitApart(c, db, Happened(a, kind), b);
  }

  lemma ReconcileApart(e: Env, w: World, org: Id, id: Id, finding: Finding, slip: Slip, b: Id)
    requires Findable(w.db) && org != b
    ensures View(e.codec, Reconcile(e, w, org, id, finding, slip).world.db, b) == View(e.codec, w.db, b)
  {
    if Reconcilable(e, w.db, org, id, finding) {
      ReconcileTakesEffect(e, w, org, id, finding, slip);
      ReconciledApart(e, w, w.db.actions[id], finding, slip, b);
    } else if GetAction(w.db, org, id).Some? {
      LogApart(e.codec, w.db, w.db.actions[id], ReconcileNoReconciler, b);
      LogApart(e.codec, w.db, w.db.actions[id], ReconcileError, b);
    }
  }

  lemma DecideApart(c: Codec, db: Store, org: Id, id: Id, approve: bool, b: Id)
    requires Sound(db) && org != b
    ensures View(c, DecideRoute(db, org, id, approve), b) == View(c, db, b)
  {
    if Decidable(db, org, id).Some? {
      var p := db.approvals[id];
      var s1 := DecideApproval(db, org, id, approve);
      DecideApprovalApart(c, db, org, id, approve, b);
      var ev := AuditEvent(org, p.txn, if approve then ApprovalGranted else ApprovalDenied, p.id);
      var s2 := Emit(s1, ev);
      EmitApart(c, s1, ev, b);
      RuledApart(c, s2, org, p, approve, b);
    }
  }

  lemma RuledApart(c: Codec, s: Store, org: Id, p: Approval, approve: bool, b: Id)
    requires org != b && forall id :: id in s.actions ==> s.actions[id].id == id
    ensures View(c, Concluded(s, org, p, approve), b) == View(c, s, b)
  {
    var t := GetTxn(s, org, p.txn);
    if t.Some? {
      SetTxnStatusApart(c, s, org, t.value.id, Moved(t.value.status, Aborting), b);
    }
    if approve && GetAction(s, org, p.action).Some? {
      var a := s.actions[p.action].(status := Approved);
      UpdateActionApart(c, s, a, b);
      if t.Some? {
        SetTxnStatusApart(c, UpdateAction(s, a), org, t.value.id, Moved(t.value.status, Executing), b);
      }
    }
  }

  ghost predicate OwnIds(db: Store) {
    forall id :: id in db.actions ==> db.actions[id].id == id
  }

  lemma MarkApart(c: Codec, db: Store, org: Id, id: Id, st: ActionStatus, ev: AuditEvent, b: Id)
    requires org != b && ev.org == org && OwnIds(db)
    ensures var s := if GetAction(db, org, id).None? then db else UpdateAction(db, db.actions[id].(status := st));
            View(c, Emit(s, ev), b) == View(c, db, b)
  {
    if GetAction(db, org, id).Some? {
      var x := db.actions[id].(status := st);
      UpdateActionApart(c, db, x, b);
      EmitApart(c, UpdateAction(db, x), ev, b);
    } else {
      EmitApart(c, db, ev, b);
    }
  }

  lemma UndoOneOwnIds(e: Env, u: Undoing, org: Id, txn: Id, a: Action, undo: Id -> bool)
    requires OwnIds(u.world.db)
    ensures OwnIds(UndoOne(e, u, org, txn, a, undo).world.db)
  {
  }

  lemma UndoOneApart(e: Env, u: Undoing, org: Id, txn: Id, a: Action, undo: Id -> bool, b: Id)
    requires org != b && OwnIds(u.world.db)
    ensures View(e.codec, UndoOne(e, u, org, txn, a, undo).world.db, b) == View(e.codec, u.world.db, b)
  {
    if a.status == Executed {
      if Skipped(a) {
        EmitApart(e.codec, u.world.db, AuditEvent(org, txn, CompensationSkippedIrreversible, a.id), b);
      } else {
        var ok := Undone(e, a, undo);
        MarkApart(e.codec, u.world.db, org, a.id, if ok then Compensated else CompensationFailed,
                  AuditEvent(org, txn, if ok then CompensationSucceeded else CompensationFailure, a.id), b);
      }
    }
  }

  lemma {:induction false} UndoAllApart(e: Env, u: Undoing, org: Id, txn: Id, acts: seq<Action>, undo: Id -> bool, b: Id)
    requires org != b && OwnIds(u.world.db)
    ensures var v := UndoAll(e, u, org, txn, acts, undo);
            View(e.codec, v.world.db, b) == View(e.codec, u.world.db, b) && OwnIds(v.world.db)
  {
    if acts != [] {
      var n := |acts| - 1;
      UndoAllApart(e, u, org, txn, acts[..n], undo, b);
      UndoOneApart(e, UndoAll(e, u, org, txn, acts[..n], undo), org, txn, acts[n], undo, b);
      UndoOneOwnIds(e, UndoAll(e, u, org, txn, acts[..n], undo), org, txn, acts[n], undo);
    }
  }

  lemma CompensateApart(e: Env, w: World, org: Id, txn: Id, ids: seq<Id>, undo: Id -> bool, b: Id)
    requires Sound(w.db) && org != b && forall id :: id in ids ==> id in w.db.actions
    ensures View(e.codec, Compensate(e, w, org, txn, ids, undo).0.db, b) == View(e.codec, w.db, b)
  {
    if GetTxn(w.db, org, txn).Some? {
      var s1 := SetTxnStatus(w.db, org, txn, Compensating);
      var ev := AuditEvent(org, txn, CompensationStarted, txn);
      SetTxnStatusApart(e.codec, w.db, org, txn, Compensating, b);
      EmitApart(e.codec, s1, ev, b);
      var u := Undoing(w.(db := Emit(s1, ev)), false);
      var acts := Reversed(Snapshot(w.db, ids));
      UndoAllApart(e, u, org, txn, acts, undo, b);
      var v := UndoAll(e, u, org, txn, acts, undo);
      SetTxnStatusApart(e.codec, v.world.db, org, txn, if v.failed then PartiallyCompensated else RolledBack, b);
    }
  }

  lemma CommitApart(c: Codec, db: Store, org: Id, txn: Id, b: Id)
    requires org != b
    ensures View(c, Commit(db, org, txn), b) == View(c, db, b)
  {
    SetTxnStatusApart(c, db, org, txn, Committed, b);
    EmitApart(c, SetTxnStatus(db, org, txn, Committed), AuditEvent(org, txn, TransactionCommitted, txn), b);
  }

  // ----- every step, and every run -----

  /** The organization a step is made for: the tenant of the verified credential. */
  function Actor(step: Step): Id {
    match step
    case OpenOrg(org) => org
    case RegisterAgent(agent) => agent.org
    case DraftPolicies(org, _) => org
    case ActivatePolicies(org, _) => org
    case IssueGrant(g) => g.org
    case Revoke(org, _, _) => org
    case OpenTxn(t) => t.org
    case ProposeCall(q, _) => q.org
    case DecideCall(org, _, _) => org
    case ExecuteCall(org, _, _, _) => org
    case RunApprovedCall(org, _, _, _) => org
    case CommitCall(org, _) => org
    case ReconcileCall(org, _, _, _) => org
    case CompensateCall(org, _, _, _) => org
  }

  lemma PolicyStepApart(e: Env, w: World, step: Step, b: Id)
    requires Admissible(e, w, step) && Actor(step) != b && (step.DraftPolicies? || step.ActivatePolicies?)
    ensures View(e.codec, Next(e, w, step).db, b) == View(e.codec, w.db, b)
  {
    var c, db := e.codec, w.db;
    match step {
      case DraftPolicies(org, rules) =>
        EmitApart(c, CreatePolicySet(db, org, rules), AuditEvent(org, "", PolicySetCreated, ""), b);
      case ActivatePolicies(org, version) =>
        EmitApart(c, ActivatePolicySet(db, org, version), AuditEvent(org, "", PolicyActivated, ""), b);
    }
  }

  lemma GrantStepApart(e: Env, w: World, step: Step, b: Id)
    requires Admissible(e, w, step) && Actor(step) != b && (step.IssueGrant? || step.Revoke?)
    ensures View(e.codec, Next(e, w, step).db, b) == View(e.codec, w.db, b)
  {
    var c, db := e.codec, w.db;
    if step.IssueGrant? {
      var g := step.grant;
      assert GrantsIn(CreateGrant(db, g).grants, b) == GrantsIn(db.grants, b);
      EmitApart(c, CreateGrant(db, g), AuditEvent(g.org, "", GrantIssued, g.id), b);
    } else {
      var db' := RevokeGrant(db, step.org, step.id, step.now);
      assert GrantsIn(db'.grants, b) == GrantsIn(db.grants, b);
      EmitApart(c, db', AuditEvent(step.org, "", GrantRevoked, step.id), b);
    }
  }

  lemma RecordStepApart(e: Env, w: World, step: Step, b: Id)
    requires Admissible(e, w, step) && Actor(step) != b && (step.OpenOrg? || step.RegisterAgent? || step.OpenTxn?)
    ensures View(e.codec, Next(e, w, step).db, b) == View(e.codec, w.db, b)
  {
    var c, db := e.codec, w.db;
    match step {
      case OpenOrg(org) =>
      case RegisterAgent(agent) =>
        assert AgentsOf(CreateAgent(db, agent).agents, b) == AgentsOf(db.agents, b);
        EmitApart(c, CreateAgent(db, agent), AuditEvent(agent.org, "", AgentRegistered, agent.id), b);
      case OpenTxn(t) =>
        assert TxnsOf(db.txns[t.id := t], b) == TxnsOf(db.txns, b);
        EmitApart(c, db.(txns := db.txns[t.id := t]), AuditEvent(t.org, t.id, TransactionCreated, t.agent), b);
    }
  }

  lemma ServiceStepApart(e: Env, w: World, step: Step, b: Id)
    requires Sound(w.db) && Admissible(e, w, step) && Actor(step) != b && !IsSetup(step)
    ensures View(e.codec, Next(e, w, step).db, b) == View(e.codec, w.db, b)
  {
    match step {
      case ProposeCall(q, d) => ProposeApart(e, w, q, d, b);
      case DecideCall(org, id, approve) => DecideApart(e.codec, w.db, org, id, approve, b);
      case ExecuteCall(org, id, answer, slip) => ExecuteApart(e, w, org, id, answer, slip, b);
      case RunApprovedCall(org, id, answer, slip) => RunApprovedApart(e, w, org, id, answer, slip, b);
      case CommitCall(org, id) => CommitApart(e.codec, w.db, org, id, b);
      case ReconcileCall(org, id, finding, slip) => ReconcileApart(e, w, org, id, finding, slip, b);
      case CompensateCall(org, id, ids, undo) => CompensateApart(e, w, org, id, ids, undo, b);
    }
  }

  lemma StepApart(e: Env, w: World, step: Step, b: Id)
    requires Sound(w.db) && Admissible(e, w, step) && Actor(step) != b
    ensures View(e.codec, Next(e, w, step).db, b) == View(e.codec, w.db, b)
  {
    if step.DraftPolicies? || step.ActivatePolicies? {
      PolicyStepApart(e, w, step, b);
    } else if step.IssueGrant? || step.Revoke? {
      GrantStepApart(e, w, step, b);
    } else if IsSetup(step) {
      RecordStepApart(e, w, step, b);
    } else {
      ServiceStepApart(e, w, step, b);
    }
  }

  lemma RunStepApart(e: Env, ws: seq<World>, steps: seq<Step>, n: nat, b: Id)
    requires IsRun(e, ws, steps) && n < |steps| && Actor(steps[n]) != b
    ensures View(e.codec, ws[n + 1].db, b) == View(e.codec, ws[n].db, b)
  {
    RunsAreSound(e, ws, steps, n);
    StepApart(e, ws[n], steps[n], b);
  }

  lemma {:induction false} SameThroughout<T>(vs: seq<T>, m: nat, n: nat)
    requires m <= n < |vs| && forall k :: m <= k < n ==> vs[k + 1] == vs[k]
    ensures vs[n] == vs[m]
  {
    if m < n {
      SameThroughout(vs, m, n - 1);
      assert vs[n - 1 + 1] == vs[n - 1];
    }
  }

  /** Any stretch of a run made for other organizations leaves an organization's whole view, the
      audit log it is shown and the verdict on its chain unchanged. */
  lemma TenantsDoNotInterfere(e: Env, ws: seq<World>, steps: seq<Step>, m: nat, n: nat, b: Id)
    requires IsRun(e, ws, steps) && m <= n < |ws|
    requires forall i :: m <= i < n ==> Actor(steps[i]) != b
    ensures View(e.codec, ws[n].db, b) == View(e.codec, ws[m].db, b)
  {
    var views := seq(|ws|, k requires 0 <= k < |ws| => View(e.codec, ws[k].db, b));
    forall k | m <= k < n ensures views[k + 1] == views[k] {
      RunStepApart(e, ws, steps, k, b);
    }
    SameThroughout(views, m, n);
  }
}
