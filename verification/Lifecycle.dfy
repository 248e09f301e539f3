/** Actions follow one acyclic lifecycle, commits are sound and final, and what compensation does
    to a transaction it should not have been called on. */
module Lifecycle {
  import opened Domain
  import opened Transactions
  import opened StoreSpec
  import opened GatewaySpec
  import opened Protocol
  import opened Compensation
  import opened Invariants

  // ----- actions -----

  function Rank(st: ActionStatus): nat {
    match st
    case Proposed => 0
    case Denied => 1
    case Allowed => 1
    case AwaitingDecision => 1
    case Approved => 2
    case Unknown => 3
    case Executed => 4
    case Errored => 4
    case Compensated => 5
    case CompensationFailed => 5
  }

  lemma EdgesClimb(from: ActionStatus, to: ActionStatus)
    requires StatusEdge(from, to)
    ensures Rank(from) < Rank(to) <= 5
  {
  }

  ghost predicate StatusDiffers(w: World, w': World, id: Id) {
    id in w.db.actions && id in w'.db.actions && w.db.actions[id].status != w'.db.actions[id].status
  }

  ghost function ActionChanges(ws: seq<World>, id: Id): nat {
    if |ws| < 2 then 0
    else ActionChanges(ws[..|ws| - 1], id) + if StatusDiffers(ws[|ws| - 2], ws[|ws| - 1], id) then 1 else 0
  }

  lemma MoveClimbs(w: World, w': World, id: Id)
    requires id in w.db.actions && id in w'.db.actions
    requires w'.db.actions[id] == w.db.actions[id] || StatusEdge(w.db.actions[id].status, w'.db.actions[id].status)
    ensures Rank(w.db.actions[id].status) + (if StatusDiffers(w, w', id) then 1 else 0) <= Rank(w'.db.actions[id].status)
  {
    if w'.db.actions[id] != w.db.actions[id] {
      EdgesClimb(w.db.actions[id].status, w'.db.actions[id].status);
    }
  }

  lemma FitsIsDecided(a: Action)
    requires StatusFits(a)
    ensures Rank(a.status) >= 1
  {
  }

  /** A step leaves an action's status alone, climbs with it, or stores the action decided. */
  lemma StepClimbs(e: Env, w: World, step: Step, id: Id)
    requires Sound(w.db) && Admissible(e, w, step)
    ensures var w' := Next(e, w, step);
            if id !in w.db.actions then id in w'.db.actions ==> Rank(w'.db.actions[id].status) >= 1
            else id in w'.db.actions && Rank(w.db.actions[id].status) + (if StatusDiffers(w, w', id) then 1 else 0) <= Rank(w'.db.actions[id].status)
  {
    var c := Classify(e, w, step);
    var w' := Next(e, w, step);
    if id in w.db.actions {
      StatusKept(e, w, w', c, id);
      MoveClimbs(w, w', id);
    } else if id in w'.db.actions {
      StatusesKept(e, w, w', c);
      FitsIsDecided(w'.db.actions[id]);
    }
  }

  /** An action is stored already decided, and from then on climbs the lifecycle: with the move
      out of PROPOSED made inside the proposal, five status changes at most. */
  lemma {:induction false} LifecycleBound(e: Env, ws: seq<World>, steps: seq<Step>, id: Id)
    requires IsRun(e, ws, steps)
    ensures var db := ws[|ws| - 1].db;
            if id in db.actions then ActionChanges(ws, id) < Rank(db.actions[id].status) else ActionChanges(ws, id) == 0
    ensures ActionChanges(ws, id) <= 4
  {
    if steps != [] {
      var n := |steps|;
      LifecycleBound(e, ws[..n], steps[..n - 1], id);
      RunsAreSound(e, ws, steps, n - 1);
      StepClimbs(e, ws[n - 1], steps[n - 1], id);
    }
  }

  /** Every step of every run leaves an action's status alone or moves it along one edge of the
      lifecycle, keeping everything else but the result; new actions appear already decided. */
  lemma LifecycleEdges(e: Env, ws: seq<World>, steps: seq<Step>, n: nat, id: Id)
    requires IsRun(e, ws, steps) && n < |steps|
    ensures id in ws[n].db.actions ==>
              && id in ws[n + 1].db.actions && SameDeed(ws[n].db.actions[id], ws[n + 1].db.actions[id])
              && (ws[n + 1].db.actions[id] == ws[n].db.actions[id]
                  || StatusEdge(ws[n].db.actions[id].status, ws[n + 1].db.actions[id].status))
    ensures id !in ws[n].db.actions && id in ws[n + 1].db.actions ==>
              steps[n].ProposeCall? && StatusEdge(Proposed, ws[n + 1].db.actions[id].status)
  {
    RunsAreSound(e, ws, steps, n);
    var c := Classify(e, ws[n], steps[n]);
    ActionsKept(e, ws[n], ws[n + 1], c);
    if id in ws[n].db.actions {
      StatusKept(e, ws[n], ws[n + 1], c, id);
    } else if id in ws[n + 1].db.actions {
      AddedDecided(e, ws[n], ws[n + 1], steps[n], c);
    }
  }

  lemma AddedDecided(e: Env, w: World, w': World, step: Step, c: Change)
    requires MadeBy(e, w.db, step, c) && c.Added?
    ensures step.ProposeCall? && c.a.status == StatusFor(DecisionOf(c.a).effect)
  {
  }

  /** Only reconciliation moves an action out of the uncertain state; nothing re-runs it. */
  lemma UnknownOnlyReconciled(e: Env, ws: seq<World>, steps: seq<Step>, n: nat, id: Id)
    requires IsRun(e, ws, steps) && n < |steps|
    requires id in ws[n].db.actions && ws[n].db.actions[id].status == Unknown
    ensures id in ws[n + 1].db.actions
    ensures ws[n + 1].db.actions[id].status != Unknown ==>
              steps[n].ReconcileCall? && ws[n + 1].db.actions[id].status in {Executed, Errored} && ws[n + 1].calls == ws[n].calls
  {
    RunsAreSound(e, ws, steps, n);
    var c := Classify(e, ws[n], steps[n]);
    StatusMoves(e, ws[n], ws[n + 1], c, id);
    if c.Probed? {
      ProbesCallNothing(e, ws[n], ws[n + 1], c);
    }
  }

  lemma ProbesCallNothing(e: Env, w: World, w': World, c: Change)
    requires Changed(e, w, w', c) && c.Probed?
    ensures w'.calls == w.calls
  {
  }

  // ----- commits -----

  predicate IsCommitted(db: Store, t: Id) {
    t in db.txns && db.txns[t].status == Committed
  }

  ghost predicate AllDone(db: Store, t: Id) {
    forall id :: id in db.actions && db.actions[id].txn == t ==> Resolved(db.actions[id].status)
  }

  ghost predicate CommitsResolved(db: Store) {
    forall t :: IsCommitted(db, t) ==> AllDone(db, t)
  }

  /** The transaction and its actions are as they were. */
  ghost predicate Frozen(db: Store, db': Store, t: Id) {
    && t in db.txns && t in db'.txns && db'.txns[t] == db.txns[t]
    && (forall id :: id in db'.actions && db'.actions[id].txn == t <==> id in db.actions && db.actions[id].txn == t)
    && (forall id :: id in db.actions && db.actions[id].txn == t ==> id in db'.actions && db'.actions[id] == db.actions[id])
  }

  /** Which transaction's records a change touches. */
  function Touches(c: Change): Option<Id> {
    match c
    case Quiet => None
    case NewTxn(t) => Some(t.id)
    case Added(a, _) => Some(a.txn)
    case Ruled(p, _) => Some(p.txn)
    case Ran(b, _) => Some(b.txn)
    case Probed(b) => Some(b.txn)
    case Closed(txn) => Some(txn)
    case Unwound(_, txn, _, _, _) => Some(txn)
  }

  lemma MovedActionTouched(e: Env, w: World, w': World, c: Change, id: Id)
    requires Sound(w.db) && Changed(e, w, w', c) && id in w.db.actions
    ensures id in w'.db.actions
    ensures w'.db.actions[id] == w.db.actions[id] || Touches(c) == Some(w.db.actions[id].txn)
  {
    StatusMoves(e, w, w', c, id);
    if c.Ruled? {
      assert ApprovalKeyed(w.db, w.db.approvals[c.p.id]);
    }
  }

  lemma MovedTxnTouched(e: Env, w: World, w': World, c: Change, t: Id)
    requires Sound(w.db) && Changed(e, w, w', c) && t in w.db.txns
    ensures t in w'.db.txns
    ensures w'.db.txns[t] == w.db.txns[t] || Touches(c) == Some(t)
  {
  }

  lemma AddedTouches(e: Env, w: World, w': World, c: Change, id: Id)
    requires Sound(w.db) && Changed(e, w, w', c) && id in w'.db.actions && id !in w.db.actions
    ensures Touches(c) == Some(w'.db.actions[id].txn)
  {
    ActionsKept(e, w, w', c);
  }

  lemma UntouchedFrozen(e: Env, w: World, w': World, c: Change, t: Id)
    requires Sound(w.db) && Changed(e, w, w', c) && t in w.db.txns && Touches(c) != Some(t)
    ensures Frozen(w.db, w'.db, t)
  {
    MovedTxnTouched(e, w, w', c, t);
    ActionsKept(e, w, w', c);
    forall id | id in w.db.actions && w.db.actions[id].txn == t ensures id in w'.db.actions && w'.db.actions[id] == w.db.actions[id] {
      MovedActionTouched(e, w, w', c, id);
    }
    forall id | id in w'.db.actions && w'.db.actions[id].txn == t ensures id in w.db.actions {
      if id !in w.db.actions {
        AddedTouches(e, w, w', c, id);
      }
    }
  }

  /** A rule on an approval needs a waiting action. */
  lemma RuledWaits(w: World, p: Approval)
    requires Sound(w.db) && p.id in w.db.approvals && w.db.approvals[p.id] == p && p.status == Pending
    ensures p.action in w.db.actions && w.db.actions[p.action].txn == p.txn && !Resolved(w.db.actions[p.action].status)
  {
    assert ApprovalFits(w.db, w.db.approvals[p.id]) && ApprovalKeyed(w.db, w.db.approvals[p.id]);
  }

  lemma ActedUnresolved(e: Env, w: World, w': World, c: Change)
    requires Sound(w.db) && Changed(e, w, w', c) && (c.Ran? || c.Probed?)
    ensures c.b.id in w.db.actions && w.db.actions[c.b.id].txn == c.b.txn && !Resolved(w.db.actions[c.b.id].status)
  {
  }

  /** Nothing can touch a committed transaction: its status refuses proposals, commits and
      compensation, and none of its actions can run, be probed or be waiting. */
  lemma CommittedUntouched(e: Env, w: World, w': World, c: Change, t: Id)
    requires Sound(w.db) && Changed(e, w, w', c) && IsCommitted(w.db, t) && AllDone(w.db, t)
    ensures Touches(c) != Some(t)
  {
    if c.Ruled? {
      RuledWaits(w, c.p);
    } else if c.Ran? || c.Probed? {
      ActedUnresolved(e, w, w', c);
    }
  }

  lemma ResolvedIsDone(db: Store, t: Id)
    requires Keyed(db) && t in db.txns && AllResolved(db, db.txns[t].org, t)
    ensures AllDone(db, t)
  {
    forall id | id in db.actions && db.actions[id].txn == t ensures Resolved(db.actions[id].status) {
      assert ActionKeyed(db, db.actions[id]);
      assert id in ActionIds(db, db.txns[t].org, t);
    }
  }

  lemma OnlyClosingCommits(e: Env, w: World, w': World, c: Change, t: Id)
    requires Changed(e, w, w', c) && !IsCommitted(w.db, t) && IsCommitted(w'.db, t)
    ensures c.Closed? && c.txn == t
  {
  }

  lemma ClosingCommits(e: Env, w: World, w': World, c: Change)
    requires Changed(e, w, w', c) && c.Closed?
    ensures c.txn in w.db.txns && w.db.txns[c.txn].status == Executing && AllResolved(w.db, w.db.txns[c.txn].org, c.txn)
    ensures w'.db.actions == w.db.actions
  {
  }

  lemma NewlyCommitted(e: Env, w: World, w': World, c: Change, t: Id)
    requires Sound(w.db) && Changed(e, w, w', c) && !IsCommitted(w.db, t) && IsCommitted(w'.db, t)
    ensures c.Closed? && c.txn == t && t in w.db.txns && w.db.txns[t].status == Executing
    ensures AllDone(w.db, t) && w'.db.actions == w.db.actions
  {
    OnlyClosingCommits(e, w, w', c, t);
    ClosingCommits(e, w, w', c);
    ResolvedIsDone(w.db, t);
  }

  lemma CommitsResolvedKept(e: Env, w: World, w': World, c: Change)
    requires Sound(w.db) && Changed(e, w, w', c) && CommitsResolved(w.db)
    ensures CommitsResolved(w'.db)
  {
    forall t | IsCommitted(w'.db, t) ensures AllDone(w'.db, t) {
      if IsCommitted(w.db, t) {
        assert AllDone(w.db, t);
        CommittedUntouched(e, w, w', c, t);
        UntouchedFrozen(e, w, w', c, t);
      } else {
        NewlyCommitted(e, w, w', c, t);
      }
    }
  }

  lemma {:induction false} RunsResolveCommits(e: Env, ws: seq<World>, steps: seq<Step>, n: nat)
    requires IsRun(e, ws, steps) && n < |ws|
    ensures Sound(ws[n].db) && CommitsResolved(ws[n].db)
  {
    RunsAreSound(e, ws, steps, n);
    if n > 0 {
      RunsResolveCommits(e, ws, steps, n - 1);
      var c := Classify(e, ws[n - 1], steps[n - 1]);
      CommitsResolvedKept(e, ws[n - 1], ws[n], c);
    }
  }

  /** COMMITTED is entered only by a commit call, from EXECUTING, with every action executed,
      denied or compensated. */
  lemma CommitIsSound(e: Env, ws: seq<World>, steps: seq<Step>, n: nat, t: Id)
    requires IsRun(e, ws, steps) && n < |steps|
    requires !IsCommitted(ws[n].db, t) && IsCommitted(ws[n + 1].db, t)
    ensures steps[n].CommitCall? && t in ws[n].db.txns && ws[n].db.txns[t].status == Executing && AllDone(ws[n].db, t)
  {
    RunsAreSound(e, ws, steps, n);
    var c := Classify(e, ws[n], steps[n]);
    NewlyCommitted(e, ws[n], ws[n + 1], c, t);
  }

  /** Once committed, a transaction and all its actions stay exactly as they are for the rest of
      the run. */
  lemma {:induction false} CommitIsPermanent(e: Env, ws: seq<World>, steps: seq<Step>, m: nat, n: nat, t: Id)
    requires IsRun(e, ws, steps) && m <= n < |ws| && IsCommitted(ws[m].db, t)
    ensures Frozen(ws[m].db, ws[n].db, t)
    decreases n
  {
    if m < n {
      CommitIsPermanent(e, ws, steps, m, n - 1, t);
      CommitStaysNext(e, ws, steps, n - 1, t);
      FrozenThrough(ws[m].db, ws[n - 1].db, ws[n].db, t);
    }
  }

  lemma CommitStaysNext(e: Env, ws: seq<World>, steps: seq<Step>, n: nat, t: Id)
    requires IsRun(e, ws, steps) && n < |steps| && IsCommitted(ws[n].db, t)
    ensures Frozen(ws[n].db, ws[n + 1].db, t)
  {
    RunsResolveCommits(e, ws, steps, n);
    assert AllDone(ws[n].db, t);
    CommitStays(e, ws[n], steps[n], t);
  }

  lemma FrozenThrough(a: Store, b: Store, c: Store, t: Id)
    requires Frozen(a, b, t) && Frozen(b, c, t)
    ensures Frozen(a, c, t)
  {
  }

  lemma CommitStays(e: Env, w: World, step: Step, t: Id)
    requires Sound(w.db) && Admissible(e, w, step) && IsCommitted(w.db, t) && AllDone(w.db, t)
    ensures Frozen(w.db, Next(e, w, step).db, t)
  {
    var c := Classify(e, w, step);
    CommittedUntouched(e, w, Next(e, w, step), c, t);
    UntouchedFrozen(e, w, Next(e, w, step), c, t);
  }

  // ----- compensation where it does not belong -----

  /** Compensation never looks at the status it starts from, so both of its moves are in the table
      exactly when it starts from EXECUTING, ABORTING or COMPENSATING. */
  lemma CompensationEntry(e: Env, w: World, org: Id, txn: Id, ids: seq<Id>, undo: Id -> bool)
    requires Lists(w.db, org, txn, ids) && GetTxn(w.db, org, txn).Some? && Findable(w.db)
    ensures var (w', final) := Compensate(e, w, org, txn, ids, undo);
            && final.Some? && w'.db.txns == WithStatus(w.db.txns, txn, final.value)
            && (CanTransition(w.db.txns[txn].status, Compensating) && CanTransition(Compensating, final.value)
                <==> w.db.txns[txn].status in {Executing, Aborting, Compensating})
  {
    CompensateShape(e, w, org, txn, ids, undo);
    TableEntry(w.db.txns[txn].status);
  }

  lemma TableEntry(from: TxnStatus)
    ensures CanTransition(from, Compensating) <==> from in {Executing, Aborting, Compensating}
    ensures CanTransition(Compensating, RolledBack) && CanTransition(Compensating, PartiallyCompensated)
  {
  }

  /** In particular a committed transaction, which the documentation calls terminal, ends up
      ROLLED_BACK if every executed action could be undone and PARTIALLY_COMPENSATED otherwise. */
  lemma CompensationUndoesCommit(e: Env, w: World, org: Id, txn: Id, ids: seq<Id>, undo: Id -> bool)
    requires Lists(w.db, org, txn, ids) && GetTxn(w.db, org, txn).Some? && Findable(w.db)
    requires IsCommitted(w.db, txn)
    ensures var db := Compensate(e, w, org, txn, ids, undo).0.db;
            && txn in db.txns
            && db.txns[txn].status
               == if forall id :: id in ActionIds(w.db, org, txn) && w.db.actions[id].status == Executed
                                  ==> id in db.actions && db.actions[id].status == Compensated
                  then RolledBack else PartiallyCompensated
  {
    CompensationAccounting(e, w, org, txn, ids, undo);
  }

  /** An action still waiting when its transaction ended can be approved and run afterwards; the
      transaction's status does not move. */
  lemma LateApprovalRuns(e: Env, w: World, k: Id, answer: ToolAnswer, slip: Slip)
    requires Sound(w.db) && k in w.db.approvals && w.db.approvals[k].status == Pending
    requires TerminalTxn(w.db.txns[w.db.approvals[k].txn].status)
    requires Reaches(e, w.db.actions[w.db.approvals[k].action])
    ensures var p := w.db.approvals[k];
            var w1 := w.(db := DecideRoute(w.db, p.org, k, true));
            var w2 := RunApproved(e, w1, p.org, p.action, answer, slip).world;
            w2.calls == w.calls + [p.action] && w2.db.txns == w.db.txns
  {
    var p := w.db.approvals[k];
    var w1 := w.(db := DecideRoute(w.db, p.org, k, true));
    LateGrant(w, k);
    LateRun(e, w1, p.org, p.action, answer, slip);
  }

  lemma LateGrant(w: World, k: Id)
    requires Sound(w.db) && k in w.db.approvals && w.db.approvals[k].status == Pending
    requires TerminalTxn(w.db.txns[w.db.approvals[k].txn].status)
    ensures var p := w.db.approvals[k];
            var db' := DecideRoute(w.db, p.org, k, true);
            db'.txns == w.db.txns && db'.actions == w.db.actions[p.action := w.db.actions[p.action].(status := Approved)]
  {
    var p := w.db.approvals[k];
    assert ApprovalKeyed(w.db, p) && ActionKeyed(w.db, w.db.actions[p.action]);
    DecideShape(w, k, true);
    assert WithStatus(w.db.txns, p.txn, w.db.txns[p.txn].status) == w.db.txns;
  }

  lemma LateRun(e: Env, w: World, org: Id, id: Id, answer: ToolAnswer, slip: Slip)
    requires id in w.db.actions && w.db.actions[id].id == id && w.db.actions[id].org == org && w.db.actions[id].decision.Some?
    requires w.db.actions[id].status == Approved && Reaches(e, w.db.actions[id])
    requires var t := w.db.actions[id].txn; t in w.db.txns && w.db.txns[t].org == org && w.db.txns[t].id == t && TerminalTxn(w.db.txns[t].status)
    ensures var w' := RunApproved(e, w, org, id, answer, slip).world;
            w'.calls == w.calls + [id] && w'.db.txns == w.db.txns
  {
    var a := w.db.actions[id];
    RunShape(e, w, a, answer, slip);
    assert WithStatus(w.db.txns, a.txn, w.db.txns[a.txn].status) == w.db.txns;
    assert RunApproved(e, w, org, id, answer, slip) == Run(e, w, a, answer, slip);
  }

  // ----- what proposals and approvals do to the transaction -----

  /** A fresh proposal moves its transaction exactly when its action must wait and the table lets
      the transaction pause; a denied action moves nothing. */
  lemma OnlyWaitingPauses(e: Env, w: World, q: Request, d: Draw)
    requires d.actionId !in w.db.actions && Accepted(e, w.db, q)
    ensures var a, st := NewAction(e, w.db, q, d), w.db.txns[q.txn].status;
            Propose(e, w, q, d).world.db.txns
            == WithStatus(w.db.txns, q.txn, if a.status == AwaitingDecision && CanTransition(st, AwaitingApproval) then AwaitingApproval else st)
    ensures NewAction(e, w.db, q, d).status == Denied ==> Propose(e, w, q, d).world.db.txns == w.db.txns
  {
    ProposeShape(e, w, q, d);
    assert w.db.txns == WithStatus(w.db.txns, q.txn, w.db.txns[q.txn].status);
  }

  /** Granting any one approval resumes a paused transaction, whatever other approvals are pending. */
  lemma OneGrantResumes(w: World, k: Id)
    requires Sound(w.db) && k in w.db.approvals && w.db.approvals[k].status == Pending
    requires w.db.txns[w.db.approvals[k].txn].status == AwaitingApproval
    ensures var p := w.db.approvals[k];
            var db := DecideRoute(w.db, p.org, k, true);
            && p.txn in db.txns && db.txns[p.txn].status == Executing
            && forall j :: j in w.db.approvals && j != k ==> j in db.approvals && db.approvals[j] == w.db.approvals[j]
  {
    var p := w.db.approvals[k];
    assert ApprovalKeyed(w.db, p) && ActionKeyed(w.db, w.db.actions[p.action]);
    DecideShape(w, k, true);
  }
}
