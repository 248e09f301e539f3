/** What each call leaves and answers, said in statuses and field values alone. */
module Outcomes {
  import opened Domain
  import opened Transactions
  import opened Policies
  import opened Authority
  import opened StoreSpec
  import opened GatewaySpec
  import opened Protocol
  import opened Compensation
  import opened Invariants
  import opened Progress

  // ----- transaction statuses -----

  /** The transaction is still in one of the three statuses work goes on in. */
  predicate AtWork(st: TxnStatus) {
    st == Planning || st == AwaitingApproval || st == Executing
  }

  /** The call rules on one of the transaction's pending approvals. */
  predicate RulesOn(db: Store, org: Id, k: Id, t: Id) {
    k in db.approvals && db.approvals[k].org == org && db.approvals[k].status == Pending && db.approvals[k].txn == t
  }

  /** The proposal stored a new action that waits for approval. */
  predicate WaitsNow(db: Store, db': Store, id: Id, t: Id) {
    id !in db.actions && id in db'.actions && db'.actions[id].txn == t && db'.actions[id].status == AwaitingDecision
  }

  /** The call took an action of the transaction from ALLOWED or APPROVED to an answer. */
  predicate JustRan(db: Store, db': Store, id: Id, t: Id) {
    && id in db.actions && id in db'.actions && db.actions[id].txn == t
    && (db.actions[id].status == Allowed || db.actions[id].status == Approved) && db'.actions[id].status != db.actions[id].status
  }

  /** Every action of the transaction was executed, denied or compensated. */
  ghost predicate AllSettled(db: Store, org: Id, t: Id) {
    forall id :: id in db.actions && db.actions[id].org == org && db.actions[id].txn == t ==>
      db.actions[id].status == Executed || db.actions[id].status == Denied || db.actions[id].status == Compensated
  }

  /** Every action that had executed is compensated now. */
  ghost predicate AllUndone(db: Store, db': Store, org: Id, t: Id) {
    forall id :: id in db.actions && db.actions[id].org == org && db.actions[id].txn == t && db.actions[id].status == Executed ==>
      id in db'.actions && db'.actions[id].status == Compensated
  }

  /** The status a step leaves a transaction in. */
  ghost function StatusDue(step: Step, db: Store, db': Store, t: Txn): TxnStatus {
    match step
    case ProposeCall(_, d) => if WaitsNow(db, db', d.actionId, t.id) && AtWork(t.status) then AwaitingApproval else t.status
    case DecideCall(org, k, approve) =>
      if RulesOn(db, org, k, t.id) && AtWork(t.status) then if approve then Executing else Aborting else t.status
    case ExecuteCall(_, id, _, _) => if JustRan(db, db', id, t.id) && AtWork(t.status) then Executing else t.status
    case RunApprovedCall(_, id, _, _) => if JustRan(db, db', id, t.id) && AtWork(t.status) then Executing else t.status
    case CommitCall(org, id) => if id == t.id && org == t.org && t.status == Executing && AllSettled(db, org, id) then Committed else t.status
    case CompensateCall(org, id, _, _) =>
      if id == t.id && org == t.org then if AllUndone(db, db', org, id) then RolledBack else PartiallyCompensated else t.status
    case _ => t.status
  }

  lemma MovedByValue(from: TxnStatus)
    requires Seen(from)
    ensures Moved(from, AwaitingApproval) == if AtWork(from) then AwaitingApproval else from
    ensures Moved(from, Executing) == if AtWork(from) then Executing else from
    ensures Moved(from, Aborting) == if AtWork(from) then Aborting else from
    ensures RunStatus(from) == if AtWork(from) then Executing else from
  {
  }

  lemma ProposalChange(e: Env, db: Store, q: Request, d: Draw, c: Change)
    requires MadeBy(e, db, ProposeCall(q, d), c)
    ensures c.Quiet? || (c.Added? && c.a.id == d.actionId)
  {
  }

  lemma WaitsByChange(e: Env, w: World, w': World, c: Change, id: Id, t: Id)
    requires Changed(e, w, w', c) && (c.Quiet? || (c.Added? && c.a.id == id))
    ensures WaitsNow(w.db, w'.db, id, t) <==> AsksApproval(c, t)
  {
  }

  lemma ProposalLeaves(e: Env, w: World, w': World, q: Request, d: Draw, c: Change, t: Id)
    requires t in w.db.txns && w.db.txns[t].id == t && Seen(w.db.txns[t].status)
    requires MadeBy(e, w.db, ProposeCall(q, d), c) && Changed(e, w, w', c)
    ensures StatusAfter(c, t, w.db.txns[t].status) == StatusDue(ProposeCall(q, d), w.db, w'.db, w.db.txns[t])
  {
    ProposalChange(e, w.db, q, d, c);
    WaitsByChange(e, w, w', c, d.actionId, t);
    MovedByValue(w.db.txns[t].status);
  }

  lemma RulingChange(e: Env, db: Store, org: Id, k: Id, approve: bool, c: Change)
    requires MadeBy(e, db, DecideCall(org, k, approve), c)
    ensures c == if k in db.approvals && RulesOn(db, org, k, db.approvals[k].txn) then Ruled(db.approvals[k], approve) else Quiet
  {
  }

  lemma RulingLeaves(e: Env, db: Store, db': Store, org: Id, k: Id, approve: bool, c: Change, t: Id)
    requires t in db.txns && db.txns[t].id == t && Seen(db.txns[t].status) && MadeBy(e, db, DecideCall(org, k, approve), c)
    ensures StatusAfter(c, t, db.txns[t].status) == StatusDue(DecideCall(org, k, approve), db, db', db.txns[t])
  {
    RulingChange(e, db, org, k, approve, c);
    MovedByValue(db.txns[t].status);
  }

  lemma RunChanges(e: Env, db: Store, step: Step, c: Change)
    requires MadeBy(e, db, step, c) && (step.ExecuteCall? || step.RunApprovedCall?) && Keyed(db)
    requires forall id :: id in db.actions ==> db.actions[id].id == id
    ensures c.Quiet? || (c.Ran? && c.b.id == step.id)
  {
  }

  lemma RanByChange(e: Env, w: World, w': World, c: Change, id: Id, t: Id)
    requires Changed(e, w, w', c) && (c.Quiet? || (c.Ran? && c.b.id == id))
    ensures JustRan(w.db, w'.db, id, t) <==> c.Ran? && c.b.txn == t
  {
  }

  lemma RunLeaves(e: Env, w: World, w': World, step: Step, c: Change, t: Id)
    requires Sound(w.db) && t in w.db.txns && Seen(w.db.txns[t].status) && (step.ExecuteCall? || step.RunApprovedCall?)
    requires MadeBy(e, w.db, step, c) && Changed(e, w, w', c)
    ensures StatusAfter(c, t, w.db.txns[t].status) == StatusDue(step, w.db, w'.db, w.db.txns[t])
  {
    RunChanges(e, w.db, step, c);
    RanByChange(e, w, w', c, step.id, t);
    MovedByValue(w.db.txns[t].status);
  }

  // ----- committing -----

  lemma SettledIsResolved(db: Store, org: Id, t: Id)
    ensures AllSettled(db, org, t) <==> AllResolved(db, org, t)
  {
    assert forall id :: id in ActionIds(db, org, t) <==> id in db.actions && db.actions[id].org == org && db.actions[id].txn == t;
  }

  /** Why a commit is refused. */
  ghost function CommitAnswer(db: Store, org: Id, t: Id): Option<Refusal> {
    if t !in db.txns || db.txns[t].org != org then Some(TxnNotFound)
    else if db.txns[t].status in {Committed, RolledBack, PartiallyCompensated, Failed} then Some(TxnTerminal)
    else if !AllSettled(db, org, t) then Some(Unresolved)
    else if db.txns[t].status != Executing then Some(IllegalMove)
    else None
  }

  lemma CommitAnswers(db: Store, org: Id, t: Id)
    ensures CommitGuard(db, org, t) == CommitAnswer(db, org, t)
  {
    SettledIsResolved(db, org, t);
  }

  /** A commit takes a transaction into COMMITTED from a status that is not final if and only if it
      is the organization's, it is EXECUTING, and each of its actions was executed, denied or
      compensated. Then nothing else changes but the log; otherwise nothing at all. */
  lemma CommitExactly(db: Store, org: Id, t: Id)
    ensures var db' := Commit(db, org, t);
            var goes := t in db.txns && db.txns[t].org == org && db.txns[t].status == Executing && AllSettled(db, org, t);
            && (goes <==> && t in db.txns && db.txns[t].status !in {Committed, RolledBack, PartiallyCompensated, Failed}
                          && t in db'.txns && db'.txns[t].status == Committed)
            && db' == if goes then db.(txns := db.txns[t := db.txns[t].(status := Committed)],
                                       audit := db.audit + [AuditEvent(org, t, TransactionCommitted, t)])
                      else db
  {
    CommitAnswers(db, org, t);
  }

  // ----- compensating -----

  lemma UndoneFinal(e: Env, w: World, org: Id, id: Id, ids: seq<Id>, undo: Id -> bool)
    requires Lists(w.db, org, id, ids) && GetTxn(w.db, org, id).Some? && Findable(w.db)
    ensures var (w', final) := Compensate(e, w, org, id, ids, undo);
            final == Some(if AllUndone(w.db, w'.db, org, id) then RolledBack else PartiallyCompensated)
            && w'.db.txns == WithStatus(w.db.txns, id, final.value)
  {
    CompensationAccounting(e, w, org, id, ids, undo);
    assert forall k :: k in ActionIds(w.db, org, id) <==> k in w.db.actions && w.db.actions[k].org == org && w.db.actions[k].txn == id;
  }

  lemma CompensationLeaves(e: Env, w: World, org: Id, id: Id, ids: seq<Id>, undo: Id -> bool, t: Id)
    requires Sound(w.db) && t in w.db.txns && Admissible(e, w, CompensateCall(org, id, ids, undo))
    ensures var w' := Compensate(e, w, org, id, ids, undo).0;
            t in w'.db.txns && w'.db.txns[t].status == StatusDue(CompensateCall(org, id, ids, undo), w.db, w'.db, w.db.txns[t])
  {
    if GetTxn(w.db, org, id).Some? {
      UndoneFinal(e, w, org, id, ids, undo);
    }
  }

  lemma OthersLeave(e: Env, db: Store, db': Store, step: Step, c: Change, t: Id)
    requires t in db.txns && db.txns[t].id == t && Seen(db.txns[t].status) && MadeBy(e, db, step, c)
    requires !step.ProposeCall? && !step.ExecuteCall? && !step.RunApprovedCall? && !step.CompensateCall?
    ensures StatusAfter(c, t, db.txns[t].status) == StatusDue(step, db, db', db.txns[t])
  {
    if step.DecideCall? {
      RulingLeaves(e, db, db', step.org, step.id, step.approve, c, t);
    } else if step.CommitCall? {
      CommitAnswers(db, step.org, step.id);
    }
  }

  lemma StepLeaves(e: Env, w: World, step: Step, t: Id)
    requires Sound(w.db) && Admissible(e, w, step) && !step.CompensateCall? && t in w.db.txns && Seen(w.db.txns[t].status)
    ensures var db' := Next(e, w, step).db;
            t in db'.txns && db'.txns[t].status == StatusDue(step, w.db, db', w.db.txns[t])
  {
    var c := Classify(e, w, step);
    var w' := Next(e, w, step);
    TxnMoves(e, w, w', c, t);
    if step.ProposeCall? {
      ProposalLeaves(e, w, w', step.q, step.draw, c, t);
    } else if step.ExecuteCall? || step.RunApprovedCall? {
      RunLeaves(e, w, w', step, c, t);
    } else {
      OthersLeave(e, w.db, w'.db, step, c, t);
    }
  }

  /** Every step of every run leaves every transaction in the status its call's own rule says. */
  lemma StatusByCall(e: Env, ws: seq<World>, steps: seq<Step>, n: nat, t: Id)
    requires IsRun(e, ws, steps) && n < |steps| && t in ws[n].db.txns
    ensures t in ws[n + 1].db.txns && ws[n + 1].db.txns[t].status == StatusDue(steps[n], ws[n].db, ws[n + 1].db, ws[n].db.txns[t])
  {
    RunsStaySeen(e, ws, steps, n);
    var w, step := ws[n], steps[n];
    if step.CompensateCall? {
      CompensationLeaves(e, w, step.org, step.id, step.ids, step.undo, t);
    } else {
      StepLeaves(e, w, step, t);
    }
  }

  // ----- replies -----

  predicate IsFinal(st: TxnStatus) {
    st == Committed || st == RolledBack || st == PartiallyCompensated || st == Failed
  }

  /** A proposal is refused for a transaction that is not there or has ended, then for an agent that
      is not there, with nothing changed; otherwise it answers with the record as stored. */
  lemma ProposeReplies(e: Env, w: World, q: Request, d: Draw)
    requires Findable(w.db) && d.actionId !in w.db.actions
    ensures var o := Propose(e, w, q, d);
            var found := q.txn in w.db.txns && w.db.txns[q.txn].org == q.org;
            var known := q.agent in w.db.agents && w.db.agents[q.agent].org == q.org;
            && (o.reply == Err(TxnNotFound) <==> !found)
            && (o.reply == Err(TxnTerminal) <==> found && IsFinal(w.db.txns[q.txn].status))
            && (o.reply == Err(AgentNotFound) <==> found && !IsFinal(w.db.txns[q.txn].status) && !known)
            && (o.reply.Err? ==> o.world == w)
            && (found && !IsFinal(w.db.txns[q.txn].status) && known ==>
                  o.reply.Ok? && o.reply.a.id in o.world.db.actions && o.world.db.actions[o.reply.a.id] == o.reply.a)
  {
    ProposeShape(e, w, q, d);
  }

  /** What running an action answers. */
  function RunAnswer(e: Env, a: Action, answer: ToolAnswer): Reply {
    if a.tool + "." + a.name !in e.tools.handlers then Broke(a.(status := Errored), ToolError)
    else
      match answer
      case Succeeded(result) => Ok(a.(status := Executed, result := Some(result)))
      case FailedDefinitely => Broke(a.(status := Errored), ToolError)
      case NoAnswer => Broke(a.(status := Unknown), ToolUncertain)
  }

  predicate HasAction(db: Store, org: Id, id: Id) {
    id in db.actions && db.actions[id].org == org
  }

  lemma FinishReplies(e: Env, w: World, a: Action, answer: ToolAnswer, slip: Slip)
    requires a.id in w.db.actions
    ensures var o := Finish(e, w, a, answer, slip);
            && a.id in o.world.db.actions && !o.reply.Err? && o.world.db.actions[a.id] == o.reply.a
            && o.reply == match answer
                          case Succeeded(result) => Ok(a.(status := Executed, result := Some(result)))
                          case FailedDefinitely => Broke(a.(status := Errored), ToolError)
                          case NoAnswer => Broke(a.(status := Unknown), ToolUncertain)
  {
  }

  lemma RunReplies(e: Env, w: World, a: Action, answer: ToolAnswer, slip: Slip)
    requires a.id in w.db.actions
    ensures var o := Run(e, w, a, answer, slip);
            o.reply == RunAnswer(e, a, answer) && a.id in o.world.db.actions && o.world.db.actions[a.id] == o.reply.a
  {
    var calls := if Reaches(e, a) then w.calls + [a.id] else w.calls;
    FinishReplies(e, w.(db := Started(w.db, a), calls := calls), a, if Reaches(e, a) then answer else FailedDefinitely, slip);
  }

  /** Executing answers by the action's status and decision; a reply that carries an action carries
      the stored record. */
  lemma ExecuteReplies(e: Env, w: World, org: Id, id: Id, answer: ToolAnswer, slip: Slip)
    requires Findable(w.db)
    ensures var o := ExecuteAllowed(e, w, org, id, answer, slip);
            && o.reply == (if !HasAction(w.db, org, id) then Err(ActionNotFound)
                           else
                             var a := w.db.actions[id];
                             match a.status
                             case Executed => Ok(a)
                             case Unknown => Err(Unreconciled)
                             case _ =>
                               if (a.status == Allowed || a.status == Approved) && a.decision.Some? && a.decision.value.effect in {Allow, AllowWithConstraints}
                               then RunAnswer(e, a, answer)
                               else Err(NotExecutable))
            && (if o.reply.Err? then o.world == w else id in o.world.db.actions && o.world.db.actions[id] == o.reply.a)
  {
    if HasAction(w.db, org, id) {
      RunReplies(e, w, w.db.actions[id], answer, slip);
    }
  }

  lemma RunApprovedReplies(e: Env, w: World, org: Id, id: Id, answer: ToolAnswer, slip: Slip)
    requires Findable(w.db)
    ensures var o := RunApproved(e, w, org, id, answer, slip);
            && o.reply == (if !HasAction(w.db, org, id) then Err(ActionNotFound)
                           else
                             match w.db.actions[id].status
                             case Executed => Ok(w.db.actions[id])
                             case Approved => RunAnswer(e, w.db.actions[id], answer)
                             case _ => Err(NotApproved))
            && (if o.reply.Err? then o.world == w else id in o.world.db.actions && o.world.db.actions[id] == o.reply.a)
  {
    if HasAction(w.db, org, id) {
      RunReplies(e, w, w.db.actions[id], answer, slip);
    }
  }

  /** The execute route runs what is approved and what is allowed by a permitting decision. */
  lemma ExecuteRouteReplies(e: Env, w: World, org: Id, id: Id, answer: ToolAnswer, slip: Slip)
    requires Findable(w.db)
    ensures ExecuteRoute(e, w, org, id, answer, slip).reply
            == if !HasAction(w.db, org, id) then Err(ActionNotFound)
               else
                 var a := w.db.actions[id];
                 match a.status
                 case Executed => Ok(a)
                 case Unknown => Err(Unreconciled)
                 case Approved => RunAnswer(e, a, answer)
                 case Allowed => if a.decision.Some? && a.decision.value.effect in {Allow, AllowWithConstraints} then RunAnswer(e, a, answer) else Err(NotExecutable)
                 case _ => Err(NotExecutable)
  {
    ExecuteReplies(e, w, org, id, answer, slip);
    RunApprovedReplies(e, w, org, id, answer, slip);
  }

  /** Reconciling answers by the action's status, the registry and the provider, in that order. */
  lemma ReconcileReplies(e: Env, w: World, org: Id, id: Id, finding: Finding, slip: Slip)
    requires Findable(w.db)
    ensures var o := Reconcile(e, w, org, id, finding, slip);
            && o.reply == (if !HasAction(w.db, org, id) then Err(ActionNotFound)
                           else
                             var a := w.db.actions[id];
                             if a.status != Unknown then Err(NothingToReconcile)
                             else if a.tool + "." + a.name !in e.tools.reconcilers then Err(NoReconciler)
                             else
                               match finding
                               case ProbeError => Err(ProbeFailed)
                               case Absent => Ok(a.(status := Errored))
                               case Found(result) => Ok(a.(status := Executed, result := Some(result))))
            && (if o.reply.Err? then OnlyLogged(w, o.world) else id in o.world.db.actions && o.world.db.actions[id] == o.reply.a)
  {
  }

  /** What is wrong with an action that keeps its transaction from committing. */
  lemma BlockerByValue(st: ActionStatus)
    ensures Blocks(st) == Some(AwaitsApproval) <==> st == AwaitingDecision
    ensures Blocks(st) == Some(NeedsReconciling) <==> st == Unknown
    ensures Blocks(st) == Some(HasFailed) <==> st == Errored || st == CompensationFailed
    ensures Blocks(st) == Some(StillOpen) <==> st == Proposed || st == Allowed || st == Approved
    ensures Blocks(st) == None <==> st == Executed || st == Denied || st == Compensated
  {
  }

  // ----- decisions -----

  /** The agent has a grant, and none of its grants covers the operation. */
  ghost predicate Overreaches(db: Store, org: Id, agent: Agent, id: Id, a: Action, now: Time) {
    && (exists g :: g in db.grants && db.grants[g].org == org && db.grants[g].agent == id)
    && (forall g :: g in db.grants && db.grants[g].org == org && db.grants[g].agent == id ==>
          !Covers(db.grants[g], Attempt(a.tool, a.name, a.amount, agent.environment, now)))
  }

  /** The judge is out of reach, unsure, or finds the risk at or above its threshold. */
  predicate Raised(s: Screen) {
    s.Unreachable? || (s.Scored? && (s.confidence < 0.5 || s.score >= s.threshold))
  }

  /** What the judge is told: the action, and how many others its transaction has and their total. */
  ghost function JudgedRisk(e: Env, db: Store, a: Action): Screen {
    var others := set id | id in db.actions && db.actions[id].org == a.org && db.actions[id].txn == a.txn && id != a.id;
    e.judge(a, |others|, SumAmounts(db.actions, others))
  }

  lemma JudgedRiskIsScreen(e: Env, db: Store, a: Action)
    ensures JudgedRisk(e, db, a) == Screening(e, db, a)
  {
    assert ActionIds(db, a.org, a.txn) - {a.id}
           == set id | id in db.actions && db.actions[id].org == a.org && db.actions[id].txn == a.txn && id != a.id;
  }

  lemma OverreachIsUnauthorized(db: Store, q: Request, agent: Agent, a: Action, now: Time)
    ensures Overreaches(db, q.org, agent, q.agent, a, now) <==> !Authorized(db, q, agent, a, now)
  {
    if !Authorized(db, q, agent, a, now) {
      var g :| g in GrantsOf(db, q.org, q.agent);
      assert exists id :: id in db.grants && db.grants[id].org == q.org && db.grants[id].agent == q.agent && db.grants[id] == g;
    }
    if exists g :: g in db.grants && db.grants[g].org == q.org && db.grants[g].agent == q.agent {
      var g :| g in db.grants && db.grants[g].org == q.org && db.grants[g].agent == q.agent;
      assert db.grants[g] in GrantsOf(db, q.org, q.agent);
    }
  }

  /** The whole decision: refused outright beyond the agent's authority, else what the rules say,
      held for approval instead of permitted when the judge raises the alarm. */
  lemma DecisionByValue(e: Env, db: Store, q: Request, agent: Agent, a: Action, sorted: seq<Rule>, now: Time)
    ensures var r := Decide(sorted, RulesInForce(db, q.org).1, agent, a, now);
            Decided(e, db, q, agent, a, sorted, now)
            == if Overreaches(db, q.org, agent, q.agent, a, now) then Decision(Deny, "", AuthorityExceeded, 0)
               else
                 match r.effect
                 case Deny => Decision(Deny, r.ruleId, PolicyDenied, r.version)
                 case RequireApproval => Decision(RequireApproval, r.ruleId, ApprovalRequired, r.version)
                 case _ =>
                   if Raised(JudgedRisk(e, db, a)) then Decision(RequireApproval, r.ruleId, ApprovalRequired, r.version)
                   else Decision(r.effect, r.ruleId, ReasonAllowed, r.version)
  {
    OverreachIsUnauthorized(db, q, agent, a, now);
    JudgedRiskIsScreen(e, db, a);
  }

  // ----- setting up -----

  /** What each setup step records. */
  lemma SetupRecorded(e: Env, w: World, step: Step)
    requires Admissible(e, w, step) && IsSetup(step)
    ensures var db, db' := w.db, Next(e, w, step).db;
            match step
            case OpenOrg(org) => db'.orgs == db.orgs + {org}
            case RegisterAgent(agent) => db'.agents == db.agents[agent.id := agent]
            case IssueGrant(g) => db'.grants == db.grants[g.id := g]
            case Revoke(org, id, now) =>
              db'.grants == if CanRevoke(db, org, id) then db.grants[id := db.grants[id].(revokedAt := Some(now))] else db.grants
            case OpenTxn(t) => db'.txns == db.txns[t.id := t]
            case DraftPolicies(org, rules) => exists n :: SetsOf(db', org) == SetsOf(db, org) + [PolicySet(n, rules, Draft)]
            case _ => true
  {
    if step.DraftPolicies? {
      assert SetsOf(Next(e, w, step).db, step.org)
             == SetsOf(w.db, step.org) + [PolicySet(LatestVersion(SetsOf(w.db, step.org)) + 1, step.rules, Draft)];
    }
  }

  predicate CanRevoke(db: Store, org: Id, id: Id) {
    id in db.grants && db.grants[id].org == org && db.grants[id].revokedAt.None?
  }

  /** What each setup step logs: itself, if it changed anything. */
  function SetupLog(db: Store, step: Step): seq<AuditEvent> {
    match step
    case RegisterAgent(agent) => [AuditEvent(agent.org, "", AgentRegistered, agent.id)]
    case DraftPolicies(org, _) => [AuditEvent(org, "", PolicySetCreated, "")]
    case ActivatePolicies(org, version) =>
      if exists p :: p in SetsOf(db, org) && p.version == version then [AuditEvent(org, "", PolicyActivated, "")] else []
    case IssueGrant(g) => [AuditEvent(g.org, "", GrantIssued, g.id)]
    case Revoke(org, id, _) => if CanRevoke(db, org, id) then [AuditEvent(org, "", GrantRevoked, id)] else []
    case OpenTxn(t) => [AuditEvent(t.org, t.id, TransactionCreated, t.agent)]
    case _ => []
  }

  lemma SetupLogged(e: Env, w: World, step: Step)
    requires Admissible(e, w, step) && IsSetup(step)
    ensures Next(e, w, step).db.audit == w.db.audit + SetupLog(w.db, step)
  {
  }

  // ----- what approvers are shown -----

  /** Every approval names its own action, transaction and organization, and the amount at stake. */
  predicate ShowsStake(db: Store, k: Id)
    requires k in db.approvals
  {
    var p := db.approvals[k];
    && p.id == k && p.action in db.actions
    && p.txn == db.actions[p.action].txn && p.org == db.actions[p.action].org && p.exposure == db.actions[p.action].amount
  }

  ghost predicate StakesShown(db: Store) {
    forall k :: k in db.approvals ==> ShowsStake(db, k)
  }

  lemma StakesKept(e: Env, w: World, w': World, c: Change)
    requires Sound(w.db) && Sound(w'.db) && Changed(e, w, w', c) && StakesShown(w.db)
    ensures StakesShown(w'.db)
  {
    ActionsKept(e, w, w', c);
    ApprovalRecordsKept(e, w, w', c);
    forall k | k in w'.db.approvals ensures ShowsStake(w'.db, k) {
      if k in w.db.approvals {
        assert ShowsStake(w.db, k);
      } else {
        assert ApprovalKeyed(w'.db, w'.db.approvals[k]);
      }
    }
  }

  lemma {:induction false} ApproversSeeTheStake(e: Env, ws: seq<World>, steps: seq<Step>, n: nat)
    requires IsRun(e, ws, steps) && n < |ws|
    ensures StakesShown(ws[n].db)
  {
    if n > 0 {
      ApproversSeeTheStake(e, ws, steps, n - 1);
      RunsAreSound(e, ws, steps, n - 1);
      RunsAreSound(e, ws, steps, n);
      var c := Classify(e, ws[n - 1], steps[n - 1]);
      StakesKept(e, ws[n - 1], ws[n], c);
    }
  }
}
