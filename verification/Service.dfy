/** The gateway service: the calls of GatewaySpec carried out against the mutable store. */
module Services {
  import opened Domain
  import opened Transactions
  import opened Policies
  import opened Authority
  import opened MemoryStores
  import opened Sums
  import S = StoreSpec
  import G = GatewaySpec

  class Service {
    const store: MemoryStore
    const env: G.Env
    var calls: seq<Id>
    var undos: seq<Id>

    constructor (store: MemoryStore, env: G.Env)
      ensures this.store == store && this.env == env && calls == [] && undos == []
    {
      this.store := store;
      this.env := env;
      calls, undos := [], [];
    }

    ghost function View(): G.World
      reads this, store
    {
      G.World(store.View(), calls, undos)
    }

    /** The store hashes with the same library, keeps actions under their own identifiers, and
        its index refers to stored actions. */
    ghost predicate Valid()
      reads this, store
    {
      && store.codec == env.codec
      && (forall k :: k in store.byIdem ==> store.byIdem[k] in store.actions)
      && (forall id :: id in store.actions ==> store.actions[id].id == id)
    }

    /** Counts and totals the other actions of a listing. */
    method SiblingTotals(acts: seq<Action>, ghost ids: seq<Id>, self: Id) returns (count: nat, total: int)
      requires Valid() && Distinct(ids)
      requires |acts| == |ids| && forall i :: 0 <= i < |ids| ==> ids[i] in store.actions && acts[i] == store.actions[ids[i]]
      ensures Others(ids, self) <= store.actions.Keys
      ensures count == |Others(ids, self)| && total == G.SumAmounts(store.actions, Others(ids, self))
    {
      count, total := 0, 0;
      for i := 0 to |acts|
        invariant Others(ids[..i], self) <= store.actions.Keys
        invariant count == |Others(ids[..i], self)| && total == G.SumAmounts(store.actions, Others(ids[..i], self))
      {
        OthersGrow(ids, i, self);
        if acts[i].id != self {
          count := count + 1;
          total := total + CentsOr0(acts[i].amount);
          SumInsert(store.actions, Others(ids[..i], self), ids[i]);
        }
      }
      assert ids[..|acts|] == ids;
    }

    /** Escalates unless the judge is off or confidently finds the risk below its threshold. */
    method ScreenRisk(a: Action) returns (escalate: bool)
      requires Valid()
      ensures escalate == G.Alarming(G.Screening(env, store.View(), a))
    {
      var acts, ids := store.ActionsForTxn(a.org, a.txn);
      assert Others(ids, a.id) == S.ActionIds(store.View(), a.org, a.txn) - {a.id};
      var count, total := SiblingTotals(acts, ids, a.id);
      match env.judge(a, count, total) {
        case Off => return false;
        case Unreachable => return true;
        case Scored(score, confidence, threshold) =>
          if confidence < 0.5 {
            return true;
          }
          return score >= threshold;
      }
    }

    /** Whether the agent has grants at all, and whether one of them covers the operation. */
    method CheckGrants(q: G.Request, agent: Agent, a: Action, now: Time) returns (covered: bool, hasGrants: bool)
      ensures hasGrants == G.HasGrants(store.View(), q.org, q.agent)
      ensures covered == G.Authorized(store.View(), q, agent, a, now)
    {
      var grants, listed := store.GrantsForAgent(q.org, q.agent);
      var reasons;
      covered, hasGrants, reasons := CheckAuthority(grants, G.AttemptOf(agent, a, now));
      assert hasGrants == G.HasGrants(store.View(), q.org, q.agent) by {
        if grants != [] {
          assert grants[0] in S.GrantsOf(store.View(), q.org, q.agent);
        }
      }
    }

    /** What the rules in force say, with the reason code that goes with the effect. */
    method ConsultRules(org: Id, agent: Agent, a: Action, now: Time) returns (d: Decision, version: int, ghost sorted: seq<Rule>)
      ensures IsSorting(sorted, S.RulesInForce(store.View(), org).0)
      ensures version == S.RulesInForce(store.View(), org).1
      ensures var ruled := Decide(sorted, version, agent, a, now);
              d == ruled.(reason := G.ReasonFor(ruled.effect))
    {
      var rules: seq<Rule> := [];
      version := 0;
      var active := store.ActivePolicySet(org);
      if active.Some? {
        rules, version := active.value.rules, active.value.version;
      }
      d, sorted := Evaluate(rules, version, agent, a, now);
      d := d.(reason := G.ReasonFor(d.effect));
    }

    /** The decision on a stored action, with the store calls in the source's order: authority and
        its audit entry, policy, then the optional risk screen, which can only add scrutiny. */
    method DecideAction(q: G.Request, agent: Agent, a: Action, now: Time) returns (d: Decision, ghost sorted: seq<Rule>)
      requires Valid() && a.tool == q.tool && a.name == q.name
      modifies store
      ensures Valid() && store.View() == G.Logged(old(store.View()), q, a)
      ensures IsSorting(sorted, S.RulesInForce(old(store.View()), q.org).0)
      ensures d == G.Decided(env, old(store.View()), q, agent, a, sorted, now)
    {
      sorted := AnySorting(S.RulesInForce(store.View(), q.org).0);
      var covered, hasGrants := CheckGrants(q, agent, a, now);
      if hasGrants {
        store.Emit(G.Note(q, AuthorityEvaluated, a.id));
      }
      LogIrrelevant(env, old(store.View()), store.View(), q.org, a);
      if hasGrants && !covered {
        return G.OVERREACH, sorted;
      }
      var version;
      d, version, sorted := ConsultRules(q.org, agent, a, now);
      if Permits(d.effect) {
        var escalate := ScreenRisk(a);
        if escalate {
          d := d.(effect := RequireApproval, reason := ApprovalRequired);
        }
      }
    }

    method ProposeAction(q: G.Request, now: Time, actionId: Id, approvalId: Id)
      returns (reply: G.Reply, ghost sorted: seq<Rule>)
      requires Valid() && actionId !in store.actions
      modifies this, store
      ensures Valid()
      ensures IsSorting(sorted, S.RulesInForce(old(store.View()), q.org).0)
      ensures G.Outcome(View(), reply) == G.Propose(env, old(View()), q, G.Draw(now, actionId, approvalId, sorted))
    {
      sorted := AnySorting(S.RulesInForce(store.View(), q.org).0);
      var t := store.GetTxn(q.org, q.txn);
      if t.None? {
        return G.Err(G.TxnNotFound), sorted;
      }
      if TerminalTxn(t.value.status) {
        return G.Err(G.TxnTerminal), sorted;
      }
      var ag := store.GetAgent(q.org, q.agent);
      if ag.None? {
        return G.Err(G.AgentNotFound), sorted;
      }
      var stored, dup := store.AddAction(G.Drafted(env, q), actionId, now);
      if dup {
        store.Emit(G.Note(q, ActionReplayed, stored.id));
        return G.Ok(stored), sorted;
      }
      var decided;
      decided, sorted := DecideAndSettle(q, t.value, ag.value, stored, now, approvalId);
      return G.Ok(decided), sorted;
    }

    /** Decides a freshly stored action and records the decision with all that follows from it. */
    method DecideAndSettle(q: G.Request, t: Txn, agent: Agent, stored: Action, now: Time, approvalId: Id)
      returns (decided: Action, ghost sorted: seq<Rule>)
      requires Valid() && stored.tool == q.tool && stored.name == q.name
      requires S.GetTxn(store.View(), q.org, q.txn) == Some(t)
      modifies store
      ensures Valid()
      ensures IsSorting(sorted, S.RulesInForce(old(store.View()), q.org).0)
      ensures var d := G.Decided(env, old(store.View()), q, agent, stored, sorted, now);
              && decided == G.WithDecision(stored, d)
              && store.View() == G.Settle(G.Logged(old(store.View()), q, stored), q, stored, d, approvalId)
    {
      var decision;
      decision, sorted := DecideAction(q, agent, stored, now);
      SettleDecision(q, t, stored, decision, approvalId);
      return stored.(decision := Some(decision), status := G.StatusFor(decision.effect)), sorted;
    }

    method SettleDecision(q: G.Request, t: Txn, stored: Action, decision: Decision, approvalId: Id)
      requires Valid()
      requires S.GetTxn(store.View(), q.org, q.txn) == Some(t)
      modifies store
      ensures Valid()
      ensures store.View() == G.Settle(old(store.View()), q, stored, decision, approvalId)
    {
      store.UpdateAction(G.WithDecision(stored, decision));
      if decision.reason == AuthorityExceeded {
        store.Emit(G.Note(q, ActionDenied, stored.id));
      } else {
        store.Emit(G.Note(q, PolicyEvaluated, decision.ruleId));
        if decision.effect == Deny {
          store.Emit(G.Note(q, ActionDenied, stored.id));
        }
      }
      assert store.View() == G.EmitAll(S.UpdateAction(old(store.View()), G.WithDecision(stored, decision)), G.Verdicts(q, stored, decision));
      if decision.effect == RequireApproval {
        store.CreateApproval(Approval("", q.org, q.txn, stored.id, stored.amount, Pending), approvalId);
        store.Emit(G.Note(q, ApprovalRequested, stored.id));
        var next, ok := MustTransition(t, AwaitingApproval);
        ok := store.SetTxnStatus(q.org, q.txn, next.status);
      }
    }

    method Simulate(q: G.Request, now: Time) returns (f: Option<G.Forecast>, ghost sorted: seq<Rule>)
      ensures IsSorting(sorted, S.RulesInForce(store.View(), q.org).0)
      ensures f == G.Simulate(env, store.View(), q, sorted, now)
    {
      sorted := AnySorting(S.RulesInForce(store.View(), q.org).0);
      var ag := store.GetAgent(q.org, q.agent);
      if ag.None? {
        return None, sorted;
      }
      var act := G.Drafted(env, q).(txn := "", argsHash := env.codec.canonical(q.args));
      var covered, hasGrants := CheckGrants(q, ag.value, act, now);
      if hasGrants && !covered {
        return Some(G.Forecast(false, true, G.OVERREACH, act.classes, None, false)), sorted;
      }
      var decision, version;
      decision, version, sorted := ConsultRules(q.org, ag.value, act, now);
      return Some(G.Forecast(covered, hasGrants, decision, act.classes, Some(version), Permits(decision.effect))), sorted;
    }

    method Run(a: Action, answer: G.ToolAnswer, slip: G.Slip) returns (reply: G.Reply)
      requires Valid()
      modifies this, store
      ensures Valid()
      ensures G.Outcome(View(), reply) == G.Run(env, old(View()), a, answer, slip)
    {
      var t := store.GetTxn(a.org, a.txn);
      if t.Some? && (t.value.status == Created || t.value.status == Planning || t.value.status == AwaitingApproval) {
        var ok := store.SetTxnStatus(a.org, t.value.id, Executing);
      }
      store.Emit(G.Happened(a, ActionExecuting));
      var res := G.FailedDefinitely;
      if G.ToolKey(a.tool, a.name) in env.tools.handlers {
        calls := calls + [a.id];
        res := answer;
      }
      reply := Finish(a, res, slip);
    }

    method Finish(a: Action, answer: G.ToolAnswer, slip: G.Slip) returns (reply: G.Reply)
      requires Valid()
      modifies store
      ensures Valid()
      ensures G.Outcome(View(), reply) == G.Finish(env, old(View()), a, answer, slip)
    {
      match answer {
        case NoAnswer =>
          var b := a.(status := Unknown);
          store.UpdateAction(b);
          store.Emit(G.Happened(a, ActionUnknown));
          return G.Broke(b, G.ToolUncertain);
        case FailedDefinitely =>
          var b := a.(status := Errored);
          store.UpdateAction(b);
          store.Emit(G.Happened(a, ActionFailed));
          return G.Broke(b, G.ToolError);
        case Succeeded(result) =>
          var b := a.(status := Executed, result := Some(result));
          store.UpdateAction(b);
          IssueReceipt(G.NewReceipt(env, b, result, NotCompensated, slip));
          store.Emit(G.Happened(a, ActionExecuted));
          return G.Ok(b);
      }
    }

    method IssueReceipt(r: Receipt)
      requires Valid()
      modifies store
      ensures Valid()
      ensures store.View() == G.IssueReceipt(env, old(store.View()), r)
    {
      var stored := store.AppendReceipt(r);
      var (keyId, signature) := env.sign(stored.hash);
      store.UpdateReceipt(stored.(keyId := keyId, signature := signature));
    }

    method ExecuteAllowed(org: Id, id: Id, answer: G.ToolAnswer, slip: G.Slip) returns (reply: G.Reply)
      requires Valid()
      modifies this, store
      ensures Valid()
      ensures G.Outcome(View(), reply) == G.ExecuteAllowed(env, old(View()), org, id, answer, slip)
    {
      var a := store.GetAction(org, id);
      if a.None? {
        return G.Err(G.ActionNotFound);
      }
      if a.value.status == Executed {
        return G.Ok(a.value);
      }
      if a.value.status == Unknown {
        return G.Err(G.Unreconciled);
      }
      if a.value.decision.None?
         || (a.value.decision.value.effect != Allow && a.value.decision.value.effect != AllowWithConstraints) {
        return G.Err(G.NotExecutable);
      }
      if a.value.status != Allowed && a.value.status != Approved {
        return G.Err(G.NotExecutable);
      }
      reply := Run(a.value, answer, slip);
    }

    method RunApproved(org: Id, id: Id, answer: G.ToolAnswer, slip: G.Slip) returns (reply: G.Reply)
      requires Valid()
      modifies this, store
      ensures Valid()
      ensures G.Outcome(View(), reply) == G.RunApproved(env, old(View()), org, id, answer, slip)
    {
      var a := store.GetAction(org, id);
      if a.None? {
        return G.Err(G.ActionNotFound);
      }
      if a.value.status == Executed {
        return G.Ok(a.value);
      }
      if a.value.status != Approved {
        return G.Err(G.NotApproved);
      }
      reply := Run(a.value, answer, slip);
    }

    method HandleExecute(org: Id, id: Id, answer: G.ToolAnswer, slip: G.Slip) returns (reply: G.Reply)
      requires Valid()
      modifies this, store
      ensures Valid()
      ensures G.Outcome(View(), reply) == G.ExecuteRoute(env, old(View()), org, id, answer, slip)
    {
      var a := store.GetAction(org, id);
      if a.Some? && a.value.status == Approved {
        reply := RunApproved(org, id, answer, slip);
      } else {
        reply := ExecuteAllowed(org, id, answer, slip);
      }
    }

    method HandleDecideApproval(org: Id, id: Id, approve: bool) returns (p: Option<Approval>)
      requires Valid()
      modifies store
      ensures Valid()
      ensures store.View() == G.DecideRoute(old(store.View()), org, id, approve)
      ensures p.Some? <==> S.Decidable(old(store.View()), org, id).Some?
      ensures p.Some? ==> p.value == store.View().approvals[id]
    {
      ghost var was := store.View();
      p := store.DecideApproval(org, id, approve);
      if p.None? {
        return;
      }
      store.Emit(AuditEvent(org, p.value.txn, if approve then ApprovalGranted else ApprovalDenied, p.value.id));
      if approve {
        var a := store.GetAction(org, p.value.action);
        if a.Some? {
          store.UpdateAction(a.value.(status := Approved));
          var t := store.GetTxn(org, p.value.txn);
          if t.Some? {
            var next, ok := MustTransition(t.value, Executing);
            ok := store.SetTxnStatus(org, t.value.id, next.status);
          }
        }
      }
      if !approve {
        var t := store.GetTxn(org, p.value.txn);
        if t.Some? {
          var next, ok := MustTransition(t.value, Aborting);
          ok := store.SetTxnStatus(org, t.value.id, next.status);
        }
      }
    }

    /** Besides the refusal, names the unresolved action met first and what is wrong with it. */
    method Commit(org: Id, txn: Id) returns (refused: Option<G.Refusal>, blocker: Option<(Id, G.Blocker)>)
      requires Valid()
      modifies store
      ensures Valid()
      ensures store.View() == G.Commit(old(store.View()), org, txn)
      ensures refused == G.CommitGuard(old(store.View()), org, txn)
      ensures blocker.Some? <==> refused == Some(G.Unresolved)
      ensures blocker.Some? ==> var (id, why) := blocker.value;
                                id in S.ActionIds(old(store.View()), org, txn) && Some(why) == G.Blocks(old(store.actions)[id].status)
                                && IsTrouble(why, old(store.actions)[id].status)
    {
      var t := store.GetTxn(org, txn);
      if t.None? {
        return Some(G.TxnNotFound), None;
      }
      if TerminalTxn(t.value.status) {
        return Some(G.TxnTerminal), None;
      }
      blocker := FirstBlocker(org, txn);
      if blocker.Some? {
        return Some(G.Unresolved), blocker;
      }
      var next, ok := MustTransition(t.value, Committed);
      if !ok {
        return Some(G.IllegalMove), None;
      }
      ok := store.SetTxnStatus(org, txn, Committed);
      store.Emit(AuditEvent(org, txn, TransactionCommitted, txn));
      return None, None;
    }

    /** Scans the transaction's actions for one that blocks its commit. */
    method FirstBlocker(org: Id, txn: Id) returns (blocker: Option<(Id, G.Blocker)>)
      requires Valid()
      ensures blocker.None? <==> G.AllResolved(store.View(), org, txn)
      ensures blocker.None? <==> forall id :: id in store.actions && store.actions[id].org == org && store.actions[id].txn == txn ==>
                                                store.actions[id].status in {Executed, Denied, Compensated}
      ensures blocker.Some? ==> var (id, why) := blocker.value;
                                id in S.ActionIds(store.View(), org, txn) && Some(why) == G.Blocks(store.actions[id].status)
                                && IsTrouble(why, store.actions[id].status)
    {
      var acts, ids := store.ActionsForTxn(org, txn);
      for i := 0 to |acts|
        invariant forall j :: 0 <= j < i ==> G.Resolved(acts[j].status)
      {
        assert ids[i] in S.ActionIds(store.View(), org, txn) && acts[i] == store.actions[ids[i]];
        match acts[i].status {
          case Executed =>
          case Denied =>
          case Compensated =>
          case AwaitingDecision => return Some((acts[i].id, G.AwaitsApproval));
          case Unknown => return Some((acts[i].id, G.NeedsReconciling));
          case Errored => return Some((acts[i].id, G.HasFailed));
          case CompensationFailed => return Some((acts[i].id, G.HasFailed));
          case Proposed => return Some((acts[i].id, G.StillOpen));
          case Allowed => return Some((acts[i].id, G.StillOpen));
          case Approved => return Some((acts[i].id, G.StillOpen));
        }
      }
      forall id | id in S.ActionIds(store.View(), org, txn) ensures G.Resolved(store.actions[id].status) {
        var k :| 0 <= k < |ids| && ids[k] == id;
        assert acts[k] == store.actions[id];
      }
      return None;
    }

    method Reconcile(org: Id, id: Id, finding: G.Finding, slip: G.Slip) returns (reply: G.Reply)
      requires Valid()
      modifies store
      ensures Valid()
      ensures G.Outcome(View(), reply) == G.Reconcile(env, old(View()), org, id, finding, slip)
    {
      var got := store.GetAction(org, id);
      if got.None? {
        return G.Err(G.ActionNotFound);
      }
      var a := got.value;
      if a.status != Unknown {
        return G.Err(G.NothingToReconcile);
      }
      if G.ToolKey(a.tool, a.name) !in env.tools.reconcilers {
        store.Emit(G.Happened(a, ReconcileNoReconciler));
        return G.Err(G.NoReconciler);
      }
      match finding {
        case ProbeError =>
          store.Emit(G.Happened(a, ReconcileError));
          return G.Err(G.ProbeFailed);
        case Absent =>
          var b := a.(status := Errored);
          store.UpdateAction(b);
          store.Emit(G.Happened(a, ActionReconciled));
          return G.Ok(b);
        case Found(result) =>
          var b := a.(status := Executed, result := Some(result));
          store.UpdateAction(b);
          IssueReceipt(G.NewReceipt(env, b, result, FromReconciliation, slip.(started := a.createdAt)));
          store.Emit(G.Happened(a, ActionReconciled));
          return G.Ok(b);
      }
    }

    method CompensateTransaction(org: Id, txn: Id, undo: Id -> bool)
      returns (final: Option<TxnStatus>, ghost ids: seq<Id>)
      requires Valid()
      modifies this, store
      ensures Valid()
      ensures S.Lists(old(store.View()), org, txn, ids)
      ensures (View(), final) == G.Compensate(env, old(View()), org, txn, ids, undo)
    {
      var t := store.GetTxn(org, txn);
      var listed;
      listed, ids := store.ActionsForTxn(org, txn);
      if t.None? {
        return None, ids;
      }
      var acts := new Action[|listed|](i requires 0 <= i < |listed| => listed[i]);
      assert acts[..] == listed;
      ReverseInPlace(acts);
      var ok := store.SetTxnStatus(org, txn, Compensating);
      store.Emit(AuditEvent(org, txn, CompensationStarted, txn));
      var failed := UndoActions(org, txn, acts, undo);
      var end := RolledBack;
      if failed {
        end := PartiallyCompensated;
      }
      ok := store.SetTxnStatus(org, txn, end);
      return Some(end), ids;
    }

    /** The reversal loop: every action in turn, whatever happened to the ones before it. */
    method UndoActions(org: Id, txn: Id, acts: array<Action>, undo: Id -> bool) returns (failed: bool)
      requires Valid()
      modifies this, store
      ensures Valid()
      ensures G.Undoing(View(), failed) == G.UndoAll(env, G.Undoing(old(View()), false), org, txn, acts[..], undo)
    {
      failed := false;
      ghost var queue := acts[..];
      for i := 0 to acts.Length
        invariant acts[..] == queue && Valid()
        invariant G.Undoing(View(), failed) == G.UndoAll(env, G.Undoing(old(View()), false), org, txn, queue[..i], undo)
      {
        assert queue[..i + 1][..i] == queue[..i];
        failed := UndoAction(org, txn, acts[i], undo, failed);
      }
      assert queue[..acts.Length] == queue;
    }

    method UndoAction(org: Id, txn: Id, a: Action, undo: Id -> bool, failedBefore: bool) returns (failed: bool)
      requires Valid()
      modifies this, store
      ensures Valid()
      ensures G.Undoing(View(), failed) == G.UndoOne(env, G.Undoing(old(View()), failedBefore), org, txn, a, undo)
    {
      failed := failedBefore;
      if a.status != Executed {
        return;
      }
      if G.IsIrreversible(a) && !G.IsCompensable(a) {
        store.Emit(AuditEvent(org, txn, CompensationSkippedIrreversible, a.id));
        return true;
      }
      var ok := false;
      if G.ToolKey(a.tool, a.name) in env.tools.compensators {
        undos := undos + [a.id];
        ok := undo(a.id);
      }
      var ac := store.GetAction(org, a.id);
      if !ok {
        failed := true;
        if ac.Some? {
          store.UpdateAction(ac.value.(status := CompensationFailed));
        }
        store.Emit(AuditEvent(org, txn, CompensationFailure, a.id));
        return;
      }
      if ac.Some? {
        store.UpdateAction(ac.value.(status := Compensated));
      }
      store.Emit(AuditEvent(org, txn, CompensationSucceeded, a.id));
    }
  }

  /** The statuses each reported trouble stands for. */
  predicate IsTrouble(why: G.Blocker, st: ActionStatus) {
    match why
    case AwaitsApproval => st == AwaitingDecision
    case NeedsReconciling => st == Unknown
    case HasFailed => st == Errored || st == CompensationFailed
    case StillOpen => st == Proposed || st == Allowed || st == Approved
  }

  /** The listed identifiers other than one's own. */
  ghost function Others(ids: seq<Id>, self: Id): set<Id> {
    set id | id in ids && id != self
  }

  lemma OthersGrow(ids: seq<Id>, i: int, self: Id)
    requires 0 <= i < |ids| && Distinct(ids)
    ensures ids[i] !in Others(ids[..i], self)
    ensures Others(ids[..i + 1], self) == if ids[i] == self then Others(ids[..i], self) else Others(ids[..i], self) + {ids[i]}
  {
    assert ids[..i + 1] == ids[..i] + [ids[i]];
  }

  /** Neither the rules in force nor the risk screen read the audit log. */
  lemma LogIrrelevant(e: G.Env, db: S.Store, db': S.Store, org: Id, a: Action)
    requires db' == db.(audit := db'.audit)
    ensures S.RulesInForce(db', org) == S.RulesInForce(db, org)
    ensures G.Screening(e, db', a) == G.Screening(e, db, a)
  {
    assert S.SetsOf(db', org) == S.SetsOf(db, org);
    assert S.ActionIds(db', a.org, a.txn) == S.ActionIds(db, a.org, a.txn);
  }

  /** The two-index reversal at the head of compensation. */
  method ReverseInPlace(a: array<Action>)
    modifies a
    ensures a[..] == G.Reversed(old(a[..]))
  {
    var i, j := 0, a.Length - 1;
    while i < j
      invariant 0 <= i <= j + 1 <= a.Length && i + j == a.Length - 1
      invariant forall k :: 0 <= k < i || j < k < a.Length ==> a[k] == old(a[a.Length - 1 - k])
      invariant forall k :: i <= k <= j ==> a[k] == old(a[k])
    {
      a[i], a[j] := a[j], a[i];
      i, j := i + 1, j - 1;
    }
  }

  /** Some sorting of a rule list exists, so a call that never sorts has one to name. */
  ghost function AnySorting(rules: seq<Rule>): (sorted: seq<Rule>)
    ensures IsSorting(sorted, rules)
  {
    if rules == [] then []
    else
      assert rules == [rules[0]] + rules[1..];
      Insert(rules[0], AnySorting(rules[1..]))
  }

  ghost function Insert(r: Rule, sorted: seq<Rule>): (out: seq<Rule>)
    requires SortedByPriority(sorted)
    ensures IsSorting(out, [r] + sorted)
  {
    if sorted == [] || r.priority <= sorted[0].priority then [r] + sorted
    else
      var rest := Insert(r, sorted[1..]);
      InsertedSorts(r, sorted, rest);
      [sorted[0]] + rest
  }

  lemma InsertedSorts(r: Rule, sorted: seq<Rule>, rest: seq<Rule>)
    requires sorted != [] && SortedByPriority(sorted) && sorted[0].priority < r.priority
    requires IsSorting(rest, [r] + sorted[1..])
    ensures IsSorting([sorted[0]] + rest, [r] + sorted)
  {
    assert sorted == [sorted[0]] + sorted[1..];
    assert [r] + sorted == [r] + [sorted[0]] + sorted[1..];
    SortingKeepsMembers(rest, [r] + sorted[1..]);
    forall i | 0 <= i < |rest| ensures sorted[0].priority <= rest[i].priority {
      assert rest[i] in rest;
    }
  }
}
