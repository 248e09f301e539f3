/** What each call adds to the audit log: the checks it made and how it came out. */
module AuditTrail {
  import opened Domain
  import opened StoreSpec
  import opened GatewaySpec
  import opened Compensation

  // ----- executing -----

  /** How an execution is logged to have ended. */
  function Ending(st: ActionStatus): EventKind {
    if st == Executed then ActionExecuted else if st == Unknown then ActionUnknown else ActionFailed
  }

  lemma FinishLogged(e: Env, w: World, a: Action, answer: ToolAnswer, slip: Slip)
    requires a.id in w.db.actions
    ensures var db := Finish(e, w, a, answer, slip).world.db;
            a.id in db.actions && db.audit == w.db.audit + [AuditEvent(a.org, a.txn, Ending(db.actions[a.id].status), a.id)]
  {
  }

  /** A run logs that it began, and then the status its action was left in. */
  lemma RunLogged(e: Env, w: World, a: Action, answer: ToolAnswer, slip: Slip)
    requires a.id in w.db.actions
    ensures var db := Run(e, w, a, answer, slip).world.db;
            && a.id in db.actions
            && db.audit == w.db.audit + [AuditEvent(a.org, a.txn, ActionExecuting, a.id), AuditEvent(a.org, a.txn, Ending(db.actions[a.id].status), a.id)]
  {
    var calls := if Reaches(e, a) then w.calls + [a.id] else w.calls;
    FinishLogged(e, w.(db := Started(w.db, a), calls := calls), a, if Reaches(e, a) then answer else FailedDefinitely, slip);
  }

  /** A reconciliation logs nothing when the action is not there or not in doubt, and otherwise that
      nobody could be asked, that asking failed, or that the doubt is gone. */
  lemma ReconcileLogged(e: Env, w: World, org: Id, id: Id, finding: Finding, slip: Slip)
    requires id in w.db.actions ==> w.db.actions[id].id == id
    ensures var db := Reconcile(e, w, org, id, finding, slip).world.db;
            db.audit == w.db.audit
                        + if id !in w.db.actions || w.db.actions[id].org != org || w.db.actions[id].status != Unknown then []
                          else
                            var a := w.db.actions[id];
                            [AuditEvent(a.org, a.txn,
                                        if a.tool + "." + a.name !in e.tools.reconcilers then ReconcileNoReconciler
                                        else if finding.ProbeError? then ReconcileError else ActionReconciled, id)]
  {
  }

  // ----- proposing and ruling -----

  /** A proposal is logged by the checks it went through and how they came out. */
  function ProposalLog(q: Request, granted: bool, a: Action): seq<AuditEvent>
    requires a.decision.Some?
  {
    (if granted then [AuditEvent(q.org, q.txn, AuthorityEvaluated, a.id)] else [])
    + (if a.decision.value.reason == AuthorityExceeded then [] else [AuditEvent(q.org, q.txn, PolicyEvaluated, a.decision.value.ruleId)])
    + (if a.status == Denied then [AuditEvent(q.org, q.txn, ActionDenied, a.id)] else [])
    + (if a.status == AwaitingDecision then [AuditEvent(q.org, q.txn, ApprovalRequested, a.id)] else [])
  }

  lemma AskLogged(s: Store, q: Request, a: Action, approvalId: Id)
    ensures AskApproval(s, q, a, approvalId).audit == s.audit + [AuditEvent(q.org, q.txn, ApprovalRequested, a.id)]
  {
  }

  lemma SettleLogged(db: Store, q: Request, a: Action, d: Decision, approvalId: Id)
    requires d.reason == AuthorityExceeded ==> d.effect == Deny
    ensures Settle(db, q, a, d, approvalId).audit == db.audit + ProposalLog(q, false, WithDecision(a, d))
  {
    AskLogged(EmitAll(UpdateAction(db, WithDecision(a, d)), Verdicts(q, a, d)), q, a, approvalId);
  }

  lemma DecidedReason(e: Env, db: Store, q: Request, agent: Agent, a: Action, sorted: seq<Rule>, now: Time)
    ensures var d := Decided(e, db, q, agent, a, sorted, now); d.reason == AuthorityExceeded ==> d.effect == Deny
  {
  }

  lemma CheckedLog(db: Store, q: Request, a: Action, d: Decision, approvalId: Id)
    requires d.reason == AuthorityExceeded ==> d.effect == Deny
    ensures Settle(Logged(db, q, a), q, a, d, approvalId).audit == db.audit + ProposalLog(q, HasGrants(db, q.org, q.agent), WithDecision(a, d))
  {
    SettleLogged(Logged(db, q, a), q, a, d, approvalId);
  }

  ghost predicate HoldsGrants(db: Store, q: Request) {
    exists g :: g in db.grants && db.grants[g].org == q.org && db.grants[g].agent == q.agent
  }

  /** A fresh proposal logs an authority check if the agent has grants, the rule consulted unless
      authority already refused, and the refusal or the request for approval. */
  lemma ProposeLogged(e: Env, w: World, q: Request, d: Draw)
    requires d.actionId !in w.db.actions && ProposeGuard(w.db, q).None? && Replayed(w.db, Drafted(e, q)).None?
    ensures var o := Propose(e, w, q, d);
            o.reply.Ok? && o.reply.a.decision.Some? && o.world.db.audit == w.db.audit + ProposalLog(q, HoldsGrants(w.db, q), o.reply.a)
  {
    var agent := GetAgent(w.db, q.org, q.agent).value;
    var a := Stored(e.codec, Drafted(e, q), d.actionId, d.now);
    var added := AddAction(e.codec, w.db, Drafted(e, q), d.actionId, d.now);
    var decision := Decided(e, added, q, agent, a, d.sorted, d.now);
    assert Propose(e, w, q, d) == Outcome(w.(db := Settle(Logged(added, q, a), q, a, decision, d.approvalId)), Ok(WithDecision(a, decision)));
    DecidedReason(e, added, q, agent, a, d.sorted, d.now);
    CheckedLog(added, q, a, decision, d.approvalId);
    GrantsSeen(added, q);
  }

  lemma GrantsSeen(db: Store, q: Request)
    ensures HasGrants(db, q.org, q.agent) <==> HoldsGrants(db, q)
  {
    if HoldsGrants(db, q) {
      var g :| g in db.grants && db.grants[g].org == q.org && db.grants[g].agent == q.agent;
      assert db.grants[g] in GrantsOf(db, q.org, q.agent);
    }
    if HasGrants(db, q.org, q.agent) {
      var x :| x in GrantsOf(db, q.org, q.agent);
    }
  }

  /** A ruling on a pending approval is logged by its outcome; any other logs nothing. */
  lemma RulingLogged(db: Store, org: Id, k: Id, approve: bool)
    ensures DecideRoute(db, org, k, approve).audit
            == db.audit + if k in db.approvals && db.approvals[k].org == org && db.approvals[k].status == Pending
                          then [AuditEvent(org, db.approvals[k].txn, if approve then ApprovalGranted else ApprovalDenied, db.approvals[k].id)]
                          else []
  {
  }

  // ----- compensating -----

  /** What passing an action logs: nothing unless it had executed. */
  function UndoLog(e: Env, org: Id, txn: Id, a: Action, undo: Id -> bool): seq<AuditEvent> {
    if a.status != Executed then []
    else if BeyondUndo(a.classes) then [AuditEvent(org, txn, CompensationSkippedIrreversible, a.id)]
    else if a.tool + "." + a.name in e.tools.compensators && undo(a.id) then [AuditEvent(org, txn, CompensationSucceeded, a.id)]
    else [AuditEvent(org, txn, CompensationFailure, a.id)]
  }

  function UndoLogs(e: Env, org: Id, txn: Id, acts: seq<Action>, undo: Id -> bool): seq<AuditEvent> {
    if acts == [] then [] else UndoLogs(e, org, txn, acts[..|acts| - 1], undo) + UndoLog(e, org, txn, acts[|acts| - 1], undo)
  }

  lemma UndoOneLogged(e: Env, u: Undoing, org: Id, txn: Id, a: Action, undo: Id -> bool)
    ensures UndoOne(e, u, org, txn, a, undo).world.db.audit == u.world.db.audit + UndoLog(e, org, txn, a, undo)
  {
    assert Skipped(a) == BeyondUndo(a.classes) && Undone(e, a, undo) == (a.tool + "." + a.name in e.tools.compensators && undo(a.id));
  }

  lemma {:induction false} UndoAllLogged(e: Env, u: Undoing, org: Id, txn: Id, acts: seq<Action>, undo: Id -> bool)
    ensures UndoAll(e, u, org, txn, acts, undo).world.db.audit == u.world.db.audit + UndoLogs(e, org, txn, acts, undo)
  {
    if acts != [] {
      var n := |acts| - 1;
      UndoAllLogged(e, u, org, txn, acts[..n], undo);
      UndoOneLogged(e, UndoAll(e, u, org, txn, acts[..n], undo), org, txn, acts[n], undo);
    }
  }

  /** Compensation logs that it started and then each executed action, the last listed first, as
      skipped, undone or failed. */
  lemma CompensateLogged(e: Env, w: World, org: Id, txn: Id, ids: seq<Id>, undo: Id -> bool)
    requires (forall id :: id in ids ==> id in w.db.actions) && GetTxn(w.db, org, txn).Some?
    ensures Compensate(e, w, org, txn, ids, undo).0.db.audit
            == w.db.audit + [AuditEvent(org, txn, CompensationStarted, txn)] + UndoLogs(e, org, txn, Reversed(Snapshot(w.db, ids)), undo)
  {
    var s := Emit(SetTxnStatus(w.db, org, txn, Compensating), AuditEvent(org, txn, CompensationStarted, txn));
    UndoAllLogged(e, Undoing(w.(db := s), false), org, txn, Reversed(Snapshot(w.db, ids)), undo);
  }

  // ----- reading the log -----

  /** The events of an organization, of one transaction if one is named, oldest first. */
  function Matching(log: seq<AuditEvent>, org: Id, txn: Id): seq<AuditEvent> {
    if log == [] then []
    else
      var n := |log| - 1;
      Matching(log[..n], org, txn) + if log[n].org == org && (txn == "" || log[n].txn == txn) then [log[n]] else []
  }

  /** The log is read newest first, as many events as there are up to the limit. */
  lemma {:induction false} AuditNewestFirst(log: seq<AuditEvent>, org: Id, txn: Id, limit: nat)
    ensures var all, shown := Matching(log, org, txn), AuditView(log, org, txn, limit);
            && |shown| == (if limit <= |all| then limit else |all|)
            && forall i :: 0 <= i < |shown| ==> shown[i] == all[|all| - 1 - i]
    decreases |log|
  {
    if log != [] && limit > 0 {
      var n := |log| - 1;
      AuditNewestFirst(log[..n], org, txn, limit);
      AuditNewestFirst(log[..n], org, txn, limit - 1);
    }
  }
}
