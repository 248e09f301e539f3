/** What every step of the protocol keeps: records stay linked, the idempotency index agrees with
    the actions, and decisions, approvals and statuses stay in step with one another. */
module Invariants {
  import opened Domain
  import opened Transactions
  import opened StoreSpec
  import opened GatewaySpec
  import opened Protocol
  import opened Compensation

  // ----- the invariants -----

  ghost predicate Keyed(db: Store) {
    && (forall org :: org in db.orgs ==> Plain(org))
    && (forall id :: id in db.agents ==> db.agents[id].id == id && db.agents[id].org in db.orgs)
    && (forall id :: id in db.txns ==> db.txns[id].id == id && Plain(id) && Plain(db.txns[id].org))
    && (forall id :: id in db.actions ==> ActionKeyed(db, db.actions[id]))
    && (forall id :: id in db.approvals ==> db.approvals[id].id == id && ApprovalKeyed(db, db.approvals[id]))
  }

  ghost predicate ActionKeyed(db: Store, a: Action) {
    a.txn in db.txns && db.txns[a.txn].org == a.org
  }

  ghost predicate ApprovalKeyed(db: Store, p: Approval) {
    p.action in db.actions && db.actions[p.action].txn == p.txn && db.actions[p.action].org == p.org
  }

  /** The index names each action under its key, and nothing else. */
  ghost predicate Indexed(db: Store) {
    && Findable(db)
    && forall k :: k in db.byIdem ==> db.byIdem[k] in db.actions && KeyOf(db.actions[db.byIdem[k]]) == k
  }

  /** Which decision an action in a given status must carry. */
  predicate StatusFits(a: Action) {
    && a.decision == Some(DecisionOf(a))
    && match a.status
       case Proposed => false
       case Denied => DecisionOf(a).effect == Deny
       case Allowed => Permits(DecisionOf(a).effect)
       case AwaitingDecision => DecisionOf(a).effect == RequireApproval
       case Approved => DecisionOf(a).effect == RequireApproval
       case _ => DecisionOf(a).effect != Deny
  }

  /** An approval is granted exactly when its action has left the waiting state. */
  ghost predicate ApprovalFits(db: Store, p: Approval)
    requires p.action in db.actions
  {
    && DecisionOf(db.actions[p.action]).effect == RequireApproval
    && (p.status == Granted <==> db.actions[p.action].status != AwaitingDecision)
  }

  ghost predicate HasApproval(db: Store, id: Id) {
    exists k :: k in db.approvals && db.approvals[k].action == id
  }

  ghost predicate Coherent(db: Store)
    requires Keyed(db)
  {
    && (forall id :: id in db.actions ==> StatusFits(db.actions[id]))
    && (forall k :: k in db.approvals ==> ApprovalFits(db, db.approvals[k]))
    && (forall j, k :: j in db.approvals && k in db.approvals && db.approvals[j].action == db.approvals[k].action ==> j == k)
    && (forall id :: id in db.actions && DecisionOf(db.actions[id]).effect == RequireApproval ==> HasApproval(db, id))
  }

  ghost predicate Sound(db: Store) {
    Keyed(db) && Indexed(db) && Coherent(db)
  }

  // ----- what a step did -----

  datatype Change =
    | Quiet
    | NewTxn(t: Txn)
    | Added(a: Action, approvalId: Id)
    | Ruled(p: Approval, approve: bool)
    | Ran(b: Action, called: bool)
    | Probed(b: Action)
    | Closed(txn: Id)
    | Unwound(org: Id, txn: Id, ids: seq<Id>, undo: Id -> bool, final: TxnStatus)

  ghost predicate Changed(e: Env, w: World, w': World, c: Change) {
    match c
    case Quiet =>
      && w' == w.(db := w.db.(orgs := w'.db.orgs, agents := w'.db.agents, policySets := w'.db.policySets,
                              grants := w'.db.grants, audit := w'.db.audit))
      && (forall org :: org in w'.db.orgs ==> Plain(org))
      && w.db.orgs <= w'.db.orgs
      && (forall id :: id in w'.db.agents ==> w'.db.agents[id].id == id && w'.db.agents[id].org in w'.db.orgs)
    case NewTxn(t) =>
      && t.id !in w.db.txns && Plain(t.id) && t.status == Planning && t.org in w.db.orgs
      && w' == w.(db := w.db.(txns := w.db.txns[t.id := t], audit := w'.db.audit))
    case Added(a, approvalId) =>
      && a.id !in w.db.actions && approvalId !in w.db.approvals && KeyOf(a) !in w.db.byIdem
      && a.txn in w.db.txns && ActionAdded(w, w', a, approvalId)
    case Ruled(p, approve) =>
      && p.id in w.db.approvals && w.db.approvals[p.id] == p && p.status == Pending
      && p.action in w.db.actions && p.txn in w.db.txns && ApprovalDecided(w, w', p, approve)
    case Ran(b, called) =>
      && b.txn in w.db.txns && ActionMoved(w, w', b, RunStatus(w.db.txns[b.txn].status))
      && w.db.actions[b.id].status in {Allowed, Approved} && b.status in {Executed, Errored, Unknown}
      && w'.calls == (if called then w.calls + [b.id] else w.calls)
      && (b.status != Errored ==> called)
    case Probed(b) =>
      && b.txn in w.db.txns && ActionMoved(w, w', b, w.db.txns[b.txn].status)
      && w.db.actions[b.id].status == Unknown && b.status in {Executed, Errored}
      && w'.calls == w.calls
    case Closed(txn) =>
      && txn in w.db.txns && w.db.txns[txn].status == Executing
      && AllResolved(w.db, w.db.txns[txn].org, txn)
      && w' == w.(db := w.db.(txns := WithStatus(w.db.txns, txn, Committed), audit := w'.db.audit))
    case Unwound(org, txn, ids, undo, final) =>
      && Lists(w.db, org, txn, ids)
      && txn in w.db.txns && w.db.txns[txn].org == org && w.db.txns[txn].status in {Executing, Aborting}
      && final in {RolledBack, PartiallyCompensated}
      && w' == w.(undos := w.undos + Attempted(e, Reversed(Snapshot(w.db, ids))),
                  db := w.db.(actions := AfterListed(e, w.db.actions, ids, undo),
                              txns := WithStatus(w.db.txns, txn, final), audit := w'.db.audit))
  }

  lemma QuietSame(e: Env, w: World)
    requires Keyed(w.db)
    ensures Changed(e, w, w, Quiet)
  {
  }

  lemma RunChange(e: Env, w: World, a: Action, answer: ToolAnswer, slip: Slip)
    requires Sound(w.db) && a.id in w.db.actions && w.db.actions[a.id] == a && a.status in {Allowed, Approved}
    ensures Changed(e, w, Run(e, w, a, answer, slip).world,
                    Ran(Answered(a, if Reaches(e, a) then answer else FailedDefinitely), Reaches(e, a)))
  {
    assert ActionKeyed(w.db, a) && StatusFits(a);
    RunShape(e, w, a, answer, slip);
  }

  lemma ReconcileChange(e: Env, w: World, a: Action, finding: Finding, slip: Slip)
    requires Sound(w.db) && a.id in w.db.actions && w.db.actions[a.id] == a && a.status == Unknown
    ensures var w' := Reconciled(e, w, a, finding, slip).world;
            Changed(e, w, w', Probed(a.(status := if finding.Found? then Executed else Errored, result := w'.db.actions[a.id].result)))
  {
    assert ActionKeyed(w.db, a) && StatusFits(a);
    ReconciledShape(e, w, a, finding, slip);
  }

  lemma ExecuteRuns(e: Env, w: World, org: Id, id: Id, answer: ToolAnswer, slip: Slip)
    ensures var a := GetAction(w.db, org, id);
            ExecuteAllowed(e, w, org, id, answer, slip).world
            == if a.Some? && MayRun(a.value, false) then Run(e, w, a.value, answer, slip).world else w
  {
  }

  function RanBy(e: Env, a: Action, answer: ToolAnswer): Change {
    Ran(Answered(a, if Reaches(e, a) then answer else FailedDefinitely), Reaches(e, a))
  }

  lemma ClassifyExecute(e: Env, w: World, org: Id, id: Id, answer: ToolAnswer, slip: Slip) returns (c: Change)
    requires Sound(w.db)
    ensures var a := GetAction(w.db, org, id);
            c == if a.Some? && MayRun(a.value, false) then RanBy(e, a.value, answer) else Quiet
    ensures Changed(e, w, ExecuteAllowed(e, w, org, id, answer, slip).world, c)
  {
    ExecuteRuns(e, w, org, id, answer, slip);
    var a := GetAction(w.db, org, id);
    if a.Some? && MayRun(a.value, false) {
      RunChange(e, w, a.value, answer, slip);
      c := RanBy(e, a.value, answer);
    } else {
      c := Quiet;
      QuietSame(e, w);
    }
  }

  lemma ApprovedRuns(e: Env, w: World, org: Id, id: Id, answer: ToolAnswer, slip: Slip)
    ensures var a := GetAction(w.db, org, id);
            RunApproved(e, w, org, id, answer, slip).world
            == if a.Some? && MayRun(a.value, true) then Run(e, w, a.value, answer, slip).world else w
  {
  }

  lemma ClassifyRunApproved(e: Env, w: World, org: Id, id: Id, answer: ToolAnswer, slip: Slip) returns (c: Change)
    requires Sound(w.db)
    ensures var a := GetAction(w.db, org, id);
            c == if a.Some? && MayRun(a.value, true) then RanBy(e, a.value, answer) else Quiet
    ensures Changed(e, w, RunApproved(e, w, org, id, answer, slip).world, c)
  {
    ApprovedRuns(e, w, org, id, answer, slip);
    var a := GetAction(w.db, org, id);
    if a.Some? && MayRun(a.value, true) {
      RunChange(e, w, a.value, answer, slip);
      c := RanBy(e, a.value, answer);
    } else {
      c := Quiet;
      QuietSame(e, w);
    }
  }

  lemma ClassifyReconcile(e: Env, w: World, org: Id, id: Id, finding: Finding, slip: Slip) returns (c: Change)
    requires Sound(w.db)
    ensures c.Quiet? || (c.Probed? && c.b.id == id)
    ensures Changed(e, w, Reconcile(e, w, org, id, finding, slip).world, c)
  {
    c := Quiet;
    QuietSame(e, w);
    var a := GetAction(w.db, org, id);
    if a.Some? && a.value.status == Unknown && ToolKey(a.value.tool, a.value.name) in e.tools.reconcilers && !finding.ProbeError? {
      assert Reconcile(e, w, org, id, finding, slip) == Reconciled(e, w, a.value, finding, slip);
      ReconcileChange(e, w, a.value, finding, slip);
      var w' := Reconciled(e, w, a.value, finding, slip).world;
      c := Probed(a.value.(status := if finding.Found? then Executed else Errored, result := w'.db.actions[id].result));
    }
  }

  lemma ClassifyPropose(e: Env, w: World, q: Request, d: Draw) returns (c: Change)
    requires Sound(w.db) && d.actionId !in w.db.actions && d.approvalId !in w.db.approvals
    ensures c == if Accepted(e, w.db, q) then Added(NewAction(e, w.db, q, d), d.approvalId) else Quiet
    ensures Changed(e, w, Propose(e, w, q, d).world, c)
  {
    ProposeShape(e, w, q, d);
    c := if Accepted(e, w.db, q) then Added(NewAction(e, w.db, q, d), d.approvalId) else Quiet;
  }

  lemma ClassifyDecide(e: Env, w: World, org: Id, id: Id, approve: bool) returns (c: Change)
    requires Sound(w.db)
    ensures c == if Decidable(w.db, org, id).Some? then Ruled(w.db.approvals[id], approve) else Quiet
    ensures Changed(e, w, w.(db := DecideRoute(w.db, org, id, approve)), c)
  {
    c := Quiet;
    if Decidable(w.db, org, id).Some? {
      var p := w.db.approvals[id];
      assert ApprovalKeyed(w.db, p) && ActionKeyed(w.db, w.db.actions[p.action]);
      DecideShape(w, id, approve);
      c := Ruled(p, approve);
    }
  }

  lemma ClassifyCompensate(e: Env, w: World, org: Id, txn: Id, ids: seq<Id>, undo: Id -> bool) returns (c: Change)
    requires Sound(w.db) && Admissible(e, w, CompensateCall(org, txn, ids, undo))
    ensures c.Quiet? || (c.Unwound? && c.org == org && c.txn == txn && c.ids == ids && c.undo == undo)
    ensures Changed(e, w, Compensate(e, w, org, txn, ids, undo).0, c)
  {
    c := Quiet;
    if GetTxn(w.db, org, txn).Some? {
      CompensateShape(e, w, org, txn, ids, undo);
      c := Unwound(org, txn, ids, undo, Compensate(e, w, org, txn, ids, undo).1.value);
    }
  }

  lemma ClassifyCommit(e: Env, w: World, org: Id, txn: Id) returns (c: Change)
    requires Sound(w.db)
    ensures c == if CommitGuard(w.db, org, txn).None? then Closed(txn) else Quiet
    ensures Changed(e, w, w.(db := Commit(w.db, org, txn)), c)
  {
    c := if CommitGuard(w.db, org, txn).Some? then Quiet else Closed(txn);
    if c.Closed? {
      assert CanTransition(w.db.txns[txn].status, Committed);
    }
  }

  /** Which call a change came from, and when that call makes it. */
  ghost predicate MadeBy(e: Env, db: Store, step: Step, c: Change) {
    match step
    case OpenTxn(t) => c == NewTxn(t)
    case ProposeCall(q, d) => c == if Accepted(e, db, q) then Added(NewAction(e, db, q, d), d.approvalId) else Quiet
    case DecideCall(org, id, approve) => c == if Decidable(db, org, id).Some? then Ruled(db.approvals[id], approve) else Quiet
    case ExecuteCall(org, id, answer, _) =>
      c == if GetAction(db, org, id).Some? && MayRun(db.actions[id], false) then RanBy(e, db.actions[id], answer) else Quiet
    case RunApprovedCall(org, id, answer, _) =>
      c == if GetAction(db, org, id).Some? && MayRun(db.actions[id], true) then RanBy(e, db.actions[id], answer) else Quiet
    case CommitCall(org, id) => c == if CommitGuard(db, org, id).None? then Closed(id) else Quiet
    case ReconcileCall(org, id, _, _) => c.Quiet? || (c.Probed? && c.b.id == id)
    case CompensateCall(org, id, ids, undo) => c.Quiet? || (c.Unwound? && c.org == org && c.txn == id && c.ids == ids && c.undo == undo)
    case _ => c.Quiet?
  }

  lemma ClassifySetup(e: Env, w: World, step: Step)
    requires Sound(w.db) && Admissible(e, w, step) && IsSetup(step)
    ensures Changed(e, w, Next(e, w, step), if step.OpenTxn? then NewTxn(step.txn) else Quiet)
  {
  }

  lemma ClassifyEnding(e: Env, w: World, step: Step) returns (c: Change)
    requires Sound(w.db) && Admissible(e, w, step) && (step.CommitCall? || step.ReconcileCall? || step.CompensateCall?)
    ensures MadeBy(e, w.db, step, c) && Changed(e, w, Next(e, w, step), c)
  {
    if step.CommitCall? {
      c := ClassifyCommit(e, w, step.org, step.id);
    } else if step.ReconcileCall? {
      c := ClassifyReconcile(e, w, step.org, step.id, step.finding, step.slip);
    } else {
      c := ClassifyCompensate(e, w, step.org, step.id, step.ids, step.undo);
    }
  }

  /** Every step is one of the changes above, made by the call it belongs to. */
  lemma Classify(e: Env, w: World, step: Step) returns (c: Change)
    requires Sound(w.db) && Admissible(e, w, step)
    ensures MadeBy(e, w.db, step, c) && Changed(e, w, Next(e, w, step), c)
  {
    if IsSetup(step) {
      ClassifySetup(e, w, step);
      c := if step.OpenTxn? then NewTxn(step.txn) else Quiet;
    } else if step.ProposeCall? {
      c := ClassifyPropose(e, w, step.q, step.draw);
    } else if step.DecideCall? {
      c := ClassifyDecide(e, w, step.org, step.id, step.approve);
    } else if step.ExecuteCall? {
      c := ClassifyExecute(e, w, step.org, step.id, step.answer, step.slip);
    } else if step.RunApprovedCall? {
      c := ClassifyRunApproved(e, w, step.org, step.id, step.answer, step.slip);
    } else {
      c := ClassifyEnding(e, w, step);
    }
  }

  // ----- every change keeps the invariants -----

  /** Every action keeps everything but its status and result; only proposals add actions. */
  lemma ActionsKept(e: Env, w: World, w': World, c: Change)
    requires Sound(w.db) && Changed(e, w, w', c)
    ensures forall id :: id in w.db.actions ==> id in w'.db.actions && SameDeed(w.db.actions[id], w'.db.actions[id])
    ensures forall id :: id in w'.db.actions && id !in w.db.actions ==> c.Added? && id == c.a.id && w'.db.actions[id] == c.a
  {
  }

  /** Transactions keep everything but their status, and none disappears. */
  lemma TxnsKept(e: Env, w: World, w': World, c: Change)
    requires Sound(w.db) && Changed(e, w, w', c)
    ensures forall id :: id in w.db.txns ==> id in w'.db.txns && w'.db.txns[id] == w.db.txns[id].(status := w'.db.txns[id].status)
    ensures forall id :: id in w'.db.txns && id !in w.db.txns ==> c.NewTxn? && id == c.t.id && w'.db.txns[id] == c.t
  {
  }

  /** The approvals after a change: one added pending, one decided, or none touched. */
  function ApprovalsAfter(approvals: map<Id, Approval>, c: Change): map<Id, Approval> {
    match c
    case Added(a, k) => if a.status == AwaitingDecision then approvals[k := NewApproval(a, k)] else approvals
    case Ruled(p, approve) => approvals[p.id := p.(status := if approve then Granted else Refused)]
    case _ => approvals
  }

  lemma ApprovalsFollow(e: Env, w: World, w': World, c: Change)
    requires Changed(e, w, w', c)
    ensures w'.db.approvals == ApprovalsAfter(w.db.approvals, c)
    ensures c.Added? ==> c.approvalId !in w.db.approvals
    ensures c.Ruled? ==> c.p.id in w.db.approvals && w.db.approvals[c.p.id] == c.p
  {
  }

  lemma RecordsFollow(before: map<Id, Approval>, after: map<Id, Approval>, c: Change)
    requires after == ApprovalsAfter(before, c)
    requires c.Added? ==> c.approvalId !in before
    requires c.Ruled? ==> c.p.id in before && before[c.p.id] == c.p
    ensures forall k :: k in before ==> k in after && after[k] == before[k].(status := after[k].status)
    ensures forall k :: k in before && !(c.Ruled? && k == c.p.id) ==> after[k] == before[k]
    ensures forall k :: k in after && k !in before ==>
                          c.Added? && k == c.approvalId && c.a.status == AwaitingDecision && after[k] == NewApproval(c.a, k)
  {
  }

  lemma ApprovalRecordsKept(e: Env, w: World, w': World, c: Change)
    requires Sound(w.db) && Changed(e, w, w', c)
    ensures forall k :: k in w.db.approvals ==> k in w'.db.approvals && w'.db.approvals[k] == w.db.approvals[k].(status := w'.db.approvals[k].status)
    ensures forall k :: k in w.db.approvals && !(c.Ruled? && k == c.p.id) ==> w'.db.approvals[k] == w.db.approvals[k]
    ensures forall k :: k in w'.db.approvals && k !in w.db.approvals ==>
                          c.Added? && k == c.approvalId && c.a.status == AwaitingDecision && w'.db.approvals[k] == NewApproval(c.a, k)
  {
    ApprovalsFollow(e, w, w', c);
    RecordsFollow(w.db.approvals, w'.db.approvals, c);
  }

  lemma ConfigKept(e: Env, w: World, w': World, c: Change)
    requires Sound(w.db) && Changed(e, w, w', c)
    ensures forall org :: org in w'.db.orgs ==> Plain(org)
    ensures forall id :: id in w'.db.agents ==> w'.db.agents[id].id == id && w'.db.agents[id].org in w'.db.orgs
  {
  }

  lemma KeyedKept(e: Env, w: World, w': World, c: Change)
    requires Sound(w.db) && Changed(e, w, w', c)
    ensures Keyed(w'.db)
  {
    ConfigKept(e, w, w', c);
    ActionsKept(e, w, w', c);
    TxnsKept(e, w, w', c);
    ApprovalRecordsKept(e, w, w', c);
    KeyedFrom(w.db, w'.db, if c.Added? then c.a.id else "", if c.NewTxn? then Some(c.t) else None);
  }

  /** Links survive when records only grow and only the two named records are new. */
  lemma KeyedFrom(db: Store, db': Store, newId: Id, t: Option<Txn>)
    requires Keyed(db)
    requires forall org :: org in db'.orgs ==> Plain(org)
    requires forall id :: id in db'.agents ==> db'.agents[id].id == id && db'.agents[id].org in db'.orgs
    requires forall id :: id in db.txns ==> id in db'.txns && db'.txns[id] == db.txns[id].(status := db'.txns[id].status)
    requires forall id :: id in db'.txns && id !in db.txns ==> t.Some? && id == t.value.id && db'.txns[id] == t.value
    requires t.Some? ==> Plain(t.value.id) && Plain(t.value.org)
    requires forall id :: id in db.actions ==> id in db'.actions && SameDeed(db.actions[id], db'.actions[id])
    requires forall id :: id in db'.actions && id !in db.actions ==> id == newId
    requires newId in db'.actions && newId !in db.actions ==> ActionKeyed(db, db'.actions[newId])
    requires forall k :: k in db.approvals ==> k in db'.approvals && db'.approvals[k] == db.approvals[k].(status := db'.approvals[k].status)
    requires forall k :: k in db'.approvals && k !in db.approvals ==>
                           newId in db'.actions && db'.approvals[k] == NewApproval(db'.actions[newId], k) && db'.actions[newId].id == newId
    ensures Keyed(db')
  {
    forall id | id in db'.actions ensures ActionKeyed(db', db'.actions[id]) {
      if id in db.actions {
        assert ActionKeyed(db, db.actions[id]);
      }
    }
    forall k | k in db'.approvals ensures db'.approvals[k].id == k && ApprovalKeyed(db', db'.approvals[k]) {
      if k in db.approvals {
        assert ApprovalKeyed(db, db.approvals[k]);
      }
    }
  }

  lemma SameDeedSameKey(a: Action, b: Action)
    requires SameDeed(a, b)
    ensures KeyOf(a) == KeyOf(b) && a.id == b.id
  {
  }

  /** Storing an action again leaves an exact index as it is. */
  lemma Reindexed(db: Store, b: Action)
    requires Findable(db) && b.id in db.actions && SameDeed(db.actions[b.id], b)
    ensures db.byIdem[KeyOf(b) := b.id] == db.byIdem
  {
    SameDeedSameKey(db.actions[b.id], b);
  }

  lemma MovedIndexKept(w: World, w': World, b: Action, st: TxnStatus)
    requires Findable(w.db) && b.txn in w.db.txns && ActionMoved(w, w', b, st)
    ensures w'.db.byIdem == w.db.byIdem
  {
    Reindexed(w.db, b);
  }

  lemma RuledIndexKept(w: World, w': World, p: Approval, approve: bool)
    requires Findable(w.db) && p.action in w.db.actions && p.txn in w.db.txns && ApprovalDecided(w, w', p, approve)
    ensures w'.db.byIdem == w.db.byIdem
  {
    Reindexed(w.db, w.db.actions[p.action].(status := Approved));
  }

  /** Only a proposal changes the index. */
  lemma IndexKept(e: Env, w: World, w': World, c: Change)
    requires Sound(w.db) && Changed(e, w, w', c)
    ensures w'.db.byIdem == if c.Added? then w.db.byIdem[KeyOf(c.a) := c.a.id] else w.db.byIdem
  {
    if c.Ran? {
      MovedIndexKept(w, w', c.b, RunStatus(w.db.txns[c.b.txn].status));
    } else if c.Probed? {
      MovedIndexKept(w, w', c.b, w.db.txns[c.b.txn].status);
    } else if c.Ruled? {
      RuledIndexKept(w, w', c.p, c.approve);
    }
  }

  lemma IndexedSame(db: Store, db': Store)
    requires Indexed(db) && db'.byIdem == db.byIdem && db'.actions.Keys == db.actions.Keys
    requires forall id :: id in db.actions ==> SameDeed(db.actions[id], db'.actions[id])
    ensures Indexed(db')
  {
    forall id | id in db.actions ensures KeyOf(db'.actions[id]) == KeyOf(db.actions[id]) && db'.actions[id].id == db.actions[id].id {
      SameDeedSameKey(db.actions[id], db'.actions[id]);
    }
  }

  lemma AddedIndex(e: Env, w: World, w': World, c: Change)
    requires Indexed(w.db) && Changed(e, w, w', c) && c.Added?
    ensures Indexed(w'.db)
  {
    IndexedAdd(w.db, w'.db, c.a);
  }

  lemma IndexedKept(e: Env, w: World, w': World, c: Change)
    requires Sound(w.db) && Changed(e, w, w', c)
    ensures Indexed(w'.db)
  {
    if c.Added? {
      AddedIndex(e, w, w', c);
    } else {
      ActionsKept(e, w, w', c);
      IndexKept(e, w, w', c);
      assert w'.db.actions.Keys == w.db.actions.Keys;
      IndexedSame(w.db, w'.db);
    }
  }

  lemma IndexedAdd(db: Store, db': Store, a: Action)
    requires Indexed(db) && a.id !in db.actions && KeyOf(a) !in db.byIdem
    requires db'.actions == db.actions[a.id := a] && db'.byIdem == db.byIdem[KeyOf(a) := a.id]
    ensures Indexed(db')
  {
  }

  /** The one way each change moves an action's status. */
  ghost predicate MovedBy(w: World, w': World, c: Change, id: Id)
    requires id in w.db.actions && id in w'.db.actions
  {
    var old_, new_ := w.db.actions[id].status, w'.db.actions[id].status;
    || w'.db.actions[id] == w.db.actions[id]
    || (c.Ruled? && c.approve && id == c.p.action && old_ == AwaitingDecision && new_ == Approved)
    || (c.Ran? && id == c.b.id && old_ in {Allowed, Approved} && new_ in {Executed, Errored, Unknown} && new_ == c.b.status)
    || (c.Probed? && id == c.b.id && old_ == Unknown && new_ in {Executed, Errored} && new_ == c.b.status)
    || (c.Unwound? && id in c.ids && old_ == Executed && new_ in {Compensated, CompensationFailed})
  }

  lemma UnwoundMoves(e: Env, w: World, w': World, c: Change, id: Id)
    requires Changed(e, w, w', c) && id in w.db.actions && c.Unwound?
    ensures id in w'.db.actions && MovedBy(w, w', c, id)
  {
  }

  lemma RuledMoves(e: Env, w: World, w': World, c: Change, id: Id)
    requires Changed(e, w, w', c) && id in w.db.actions && c.Ruled? && ApprovalFits(w.db, c.p)
    ensures id in w'.db.actions && MovedBy(w, w', c, id)
  {
  }

  lemma ActedMoves(e: Env, w: World, w': World, c: Change, id: Id)
    requires Changed(e, w, w', c) && id in w.db.actions && (c.Ran? || c.Probed?)
    ensures id in w'.db.actions && MovedBy(w, w', c, id)
  {
  }

  lemma OthersStill(e: Env, w: World, w': World, c: Change, id: Id)
    requires Changed(e, w, w', c) && id in w.db.actions && (c.Quiet? || c.NewTxn? || c.Added? || c.Closed?)
    ensures id in w'.db.actions && MovedBy(w, w', c, id)
  {
  }

  lemma StatusMoves(e: Env, w: World, w': World, c: Change, id: Id)
    requires Sound(w.db) && Changed(e, w, w', c) && id in w.db.actions
    ensures id in w'.db.actions && MovedBy(w, w', c, id)
  {
    if c.Unwound? {
      UnwoundMoves(e, w, w', c, id);
    } else if c.Ruled? {
      assert ApprovalFits(w.db, w.db.approvals[c.p.id]);
      RuledMoves(e, w, w', c, id);
    } else if c.Ran? || c.Probed? {
      ActedMoves(e, w, w', c, id);
    } else {
      OthersStill(e, w, w', c, id);
    }
  }

  lemma MovesAreEdges(w: World, w': World, c: Change, id: Id)
    requires id in w.db.actions && id in w'.db.actions && MovedBy(w, w', c, id)
    ensures w'.db.actions[id] == w.db.actions[id] || StatusEdge(w.db.actions[id].status, w'.db.actions[id].status)
  {
  }

  lemma StatusKept(e: Env, w: World, w': World, c: Change, id: Id)
    requires Sound(w.db) && Changed(e, w, w', c) && id in w.db.actions
    ensures id in w'.db.actions && StatusFits(w'.db.actions[id])
    ensures w'.db.actions[id] == w.db.actions[id] || StatusEdge(w.db.actions[id].status, w'.db.actions[id].status)
  {
    ActionsKept(e, w, w', c);
    StatusMoves(e, w, w', c, id);
    MovesAreEdges(w, w', c, id);
    FitsAfterMove(w.db.actions[id], w'.db.actions[id]);
  }

  lemma AddedFits(w: World, w': World, a: Action, approvalId: Id)
    requires a.txn in w.db.txns && ActionAdded(w, w', a, approvalId)
    ensures StatusFits(a)
  {
  }

  lemma StatusesKept(e: Env, w: World, w': World, c: Change)
    requires Sound(w.db) && Changed(e, w, w', c)
    ensures forall id :: id in w'.db.actions ==> StatusFits(w'.db.actions[id])
  {
    ActionsKept(e, w, w', c);
    if c.Added? {
      AddedFits(w, w', c.a, c.approvalId);
    }
    forall id | id in w.db.actions ensures StatusFits(w'.db.actions[id]) {
      StatusKept(e, w, w', c, id);
    }
  }

  predicate StatusEdge(from: ActionStatus, to: ActionStatus) {
    match from
    case Proposed => to in {Denied, Allowed, AwaitingDecision}
    case AwaitingDecision => to == Approved
    case Allowed => to in {Executed, Errored, Unknown}
    case Approved => to in {Executed, Errored, Unknown}
    case Unknown => to in {Executed, Errored}
    case Executed => to in {Compensated, CompensationFailed}
    case _ => false
  }

  lemma FitsAfterMove(a: Action, b: Action)
    requires StatusFits(a) && SameDeed(a, b) && (b == a || StatusEdge(a.status, b.status))
    ensures StatusFits(b)
  {
  }

  lemma EachApprovalFits(e: Env, w: World, w': World, c: Change, k: Id)
    requires Sound(w.db) && Changed(e, w, w', c) && k in w'.db.approvals
    ensures w'.db.approvals[k].action in w'.db.actions && ApprovalFits(w'.db, w'.db.approvals[k])
  {
    if c.Ruled? && c.p.id == k {
      RuledApprovalKept(e, w, w', c);
    } else if k in w.db.approvals {
      OtherApprovalKept(e, w, w', c, k);
    } else {
      ApprovalsFollow(e, w, w', c);
      NewApprovalFits(w, w', c.a, k);
    }
  }

  lemma ApprovalsKept(e: Env, w: World, w': World, c: Change)
    requires Sound(w.db) && Changed(e, w, w', c) && Keyed(w'.db)
    ensures forall k :: k in w'.db.approvals ==> ApprovalFits(w'.db, w'.db.approvals[k])
  {
    forall k | k in w'.db.approvals ensures ApprovalFits(w'.db, w'.db.approvals[k]) {
      EachApprovalFits(e, w, w', c, k);
    }
  }

  predicate Waits(db: Store, id: Id) {
    id in db.actions && db.actions[id].status == AwaitingDecision
  }

  /** A waiting action moves only when its own approval is granted, and nothing starts to wait. */
  lemma WaitingKept(e: Env, w: World, w': World, c: Change, id: Id)
    requires Sound(w.db) && Changed(e, w, w', c) && id in w.db.actions
    ensures if c.Ruled? && c.approve && id == c.p.action then Waits(w.db, id) && !Waits(w'.db, id)
            else Waits(w'.db, id) == Waits(w.db, id)
  {
    StatusMoves(e, w, w', c, id);
    if c.Ruled? && c.approve {
      assert ApprovalFits(w.db, w.db.approvals[c.p.id]);
      assert w'.db.actions[c.p.action].status == Approved;
    }
  }

  lemma RuledFits(w: World, w': World, p: Approval, approve: bool)
    requires p.action in w.db.actions && p.txn in w.db.txns && ApprovalDecided(w, w', p, approve)
    requires ApprovalFits(w.db, p) && p.status == Pending
    ensures ApprovalFits(w'.db, w'.db.approvals[p.id])
  {
  }

  lemma NewApprovalFits(w: World, w': World, a: Action, approvalId: Id)
    requires a.txn in w.db.txns && ActionAdded(w, w', a, approvalId) && a.status == AwaitingDecision
    ensures ApprovalFits(w'.db, w'.db.approvals[approvalId])
  {
  }

  lemma OtherWaits(e: Env, w: World, w': World, c: Change, k: Id)
    requires Sound(w.db) && Changed(e, w, w', c) && k in w.db.approvals && !(c.Ruled? && c.p.id == k)
    ensures Waits(w'.db, w.db.approvals[k].action) == Waits(w.db, w.db.approvals[k].action)
  {
    if c.Ruled? {
      assert w.db.approvals[c.p.id].action != w.db.approvals[k].action;
    }
    WaitingKept(e, w, w', c, w.db.approvals[k].action);
  }

  lemma RuledApprovalKept(e: Env, w: World, w': World, c: Change)
    requires Sound(w.db) && Changed(e, w, w', c) && c.Ruled?
    ensures c.p.id in w'.db.approvals && w'.db.approvals[c.p.id].action in w'.db.actions
    ensures ApprovalFits(w'.db, w'.db.approvals[c.p.id])
  {
    assert ApprovalFits(w.db, w.db.approvals[c.p.id]);
    RuledFits(w, w', c.p, c.approve);
  }

  lemma OtherApprovalKept(e: Env, w: World, w': World, c: Change, k: Id)
    requires Sound(w.db) && Changed(e, w, w', c) && k in w.db.approvals && !(c.Ruled? && c.p.id == k)
    ensures k in w'.db.approvals && w'.db.approvals[k].action in w'.db.actions
    ensures ApprovalFits(w'.db, w'.db.approvals[k])
  {
    ActionsKept(e, w, w', c);
    ApprovalRecordsKept(e, w, w', c);
    OtherWaits(e, w, w', c, k);
    FitsFrom(w.db, w'.db, k);
  }

  lemma FitsFrom(db: Store, db': Store, k: Id)
    requires Keyed(db) && Coherent(db) && k in db.approvals
    requires db.approvals[k].action in db'.actions
    requires SameDeed(db.actions[db.approvals[k].action], db'.actions[db.approvals[k].action])
    requires Waits(db', db.approvals[k].action) == Waits(db, db.approvals[k].action)
    ensures ApprovalFits(db', db.approvals[k])
  {
    assert ApprovalFits(db, db.approvals[k]);
  }

  lemma ApprovalsUnique(e: Env, w: World, w': World, c: Change)
    requires Sound(w.db) && Changed(e, w, w', c)
    ensures forall j, k :: j in w'.db.approvals && k in w'.db.approvals && w'.db.approvals[j].action == w'.db.approvals[k].action ==> j == k
  {
    ApprovalRecordsKept(e, w, w', c);
    forall k | k in w.db.approvals ensures ApprovalKeyed(w.db, w.db.approvals[k]) {
    }
  }

  lemma ApprovalsExist(e: Env, w: World, w': World, c: Change)
    requires Sound(w.db) && Changed(e, w, w', c)
    ensures forall id :: id in w'.db.actions && DecisionOf(w'.db.actions[id]).effect == RequireApproval ==> HasApproval(w'.db, id)
  {
    ActionsKept(e, w, w', c);
    ApprovalRecordsKept(e, w, w', c);
    forall id | id in w'.db.actions && DecisionOf(w'.db.actions[id]).effect == RequireApproval ensures HasApproval(w'.db, id) {
      if id in w.db.actions {
        assert HasApproval(w.db, id);
        var k :| k in w.db.approvals && w.db.approvals[k].action == id;
        assert k in w'.db.approvals && w'.db.approvals[k].action == id;
      } else {
        assert w'.db.approvals[c.approvalId].action == id;
      }
    }
  }

  lemma SoundKept(e: Env, w: World, w': World, c: Change)
    requires Sound(w.db) && Changed(e, w, w', c)
    ensures Sound(w'.db)
  {
    KeyedKept(e, w, w', c);
    IndexedKept(e, w, w', c);
    StatusesKept(e, w, w', c);
    ApprovalsKept(e, w, w', c);
    ApprovalsUnique(e, w, w', c);
    ApprovalsExist(e, w, w', c);
  }

  /** Every world of every run is sound. */
  lemma {:induction false} RunsAreSound(e: Env, ws: seq<World>, steps: seq<Step>, n: nat)
    requires IsRun(e, ws, steps) && n < |ws|
    ensures Sound(ws[n].db)
  {
    if n > 0 {
      RunsAreSound(e, ws, steps, n - 1);
      var c := Classify(e, ws[n - 1], steps[n - 1]);
      SoundKept(e, ws[n - 1], ws[n], c);
    }
  }
}
