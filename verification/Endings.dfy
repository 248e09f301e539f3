/** What can still happen to a transaction that has ended or is paused: exactly when one of its
    actions can still reach a tool, and exactly when a pause ends as the documentation says. */
module Endings {
  import opened Domain
  import opened StoreSpec
  import opened GatewaySpec
  import opened Protocol
  import opened Invariants
  import opened LedgerLaws
  import opened Lifecycle
  import opened Progress

  // ----- after the end -----

  /** A stretch of serialised steps from any world. */
  ghost predicate IsStretch(e: Env, ws: seq<World>, steps: seq<Step>) {
    && |ws| == |steps| + 1
    && forall i :: 0 <= i < |steps| ==> Admissible(e, ws[i], steps[i]) && ws[i + 1] == Next(e, ws[i], steps[i])
  }

  predicate IsEnded(db: Store, t: Id) {
    t in db.txns && TerminalTxn(db.txns[t].status)
  }

  ghost predicate HasPending(db: Store, id: Id) {
    exists k :: k in db.approvals && db.approvals[k].action == id && db.approvals[k].status == Pending
  }

  /** The action has a handler and is allowed, approved, or waiting on an approval still pending. */
  ghost predicate CanStillRun(e: Env, db: Store, id: Id) {
    && id in db.actions && Reaches(e, db.actions[id])
    && (|| db.actions[id].status == Allowed || db.actions[id].status == Approved
        || (db.actions[id].status == AwaitingDecision && HasPending(db, id)))
  }

  ghost predicate SomeCanRun(e: Env, db: Store, t: Id) {
    exists id :: CanStillRun(e, db, id) && db.actions[id].txn == t
  }

  /** A tool was called for one of the transaction's actions between the two worlds. */
  ghost predicate CalledSince(w: World, w': World, t: Id) {
    exists i :: |w.calls| <= i < |w'.calls| && w'.calls[i] in w'.db.actions && w'.db.actions[w'.calls[i]].txn == t
  }

  lemma PendingKept(e: Env, w: World, w': World, c: Change, id: Id)
    requires Sound(w.db) && Changed(e, w, w', c) && id in w.db.actions && HasPending(w'.db, id)
    ensures HasPending(w.db, id)
  {
    ApprovalRecordsKept(e, w, w', c);
    ApprovalsFollow(e, w, w', c);
    var k :| k in w'.db.approvals && w'.db.approvals[k].action == id && w'.db.approvals[k].status == Pending;
    if k !in w.db.approvals {
      AddedIsNew(e, w, w', c);
    }
  }

  lemma AddedIsNew(e: Env, w: World, w': World, c: Change)
    requires Changed(e, w, w', c) && c.Added?
    ensures c.a.id !in w.db.actions && !IsEnded(w.db, c.a.txn)
  {
  }

  lemma RuledWasPending(e: Env, w: World, w': World, c: Change)
    requires Changed(e, w, w', c) && c.Ruled?
    ensures HasPending(w.db, c.p.action)
  {
  }

  /** Nothing an ended transaction holds becomes able to run. */
  lemma NoneRevives(e: Env, w: World, w': World, c: Change, t: Id, id: Id)
    requires Sound(w.db) && Changed(e, w, w', c) && IsEnded(w.db, t)
    requires CanStillRun(e, w'.db, id) && w'.db.actions[id].txn == t
    ensures CanStillRun(e, w.db, id) && w.db.actions[id].txn == t
  {
    ActionsKept(e, w, w', c);
    if id !in w.db.actions {
      AddedIsNew(e, w, w', c);
    } else {
      StatusMoves(e, w, w', c, id);
      if HasPending(w'.db, id) {
        PendingKept(e, w, w', c, id);
      }
      if c.Ruled? {
        RuledWasPending(e, w, w', c);
      }
    }
  }

  lemma EndedStays(e: Env, w: World, w': World, c: Change, t: Id)
    requires Sound(w.db) && Changed(e, w, w', c) && IsEnded(w.db, t)
    ensures IsEnded(w'.db, t)
  {
    TxnMoves(e, w, w', c, t);
  }

  lemma RanCouldRun(e: Env, w: World, w': World, c: Change)
    requires Changed(e, w, w', c) && c.Ran?
    ensures c.b.id in w.db.actions && w.db.actions[c.b.id].status in {Allowed, Approved}
    ensures SameDeed(w.db.actions[c.b.id], c.b) && w'.calls == if c.called then w.calls + [c.b.id] else w.calls
    ensures c.b.id in w'.db.actions && w'.db.actions[c.b.id] == c.b
  {
  }

  lemma RanReaches(e: Env, w: World, step: Step, c: Change)
    requires MadeBy(e, w.db, step, c) && c.Ran? && c.called
    ensures Reaches(e, c.b)
  {
  }

  /** A step calls a tool only for an action that could run. */
  lemma CallsComeFromRunnable(e: Env, w: World, step: Step) returns (id: Option<Id>)
    requires Sound(w.db) && Admissible(e, w, step)
    ensures var w' := Next(e, w, step);
            match id
            case None => w'.calls == w.calls
            case Some(i) => w'.calls == w.calls + [i] && CanStillRun(e, w.db, i)
                            && i in w'.db.actions && w'.db.actions[i].txn == w.db.actions[i].txn
  {
    var c := Classify(e, w, step);
    if c.Ran? {
      RanCouldRun(e, w, Next(e, w, step), c);
      if c.called {
        RanReaches(e, w, step, c);
        return Some(c.b.id);
      }
    } else {
      OnlyRunsCall(e, w, Next(e, w, step), c);
    }
    return None;
  }

  lemma StepStaysDormant(e: Env, w: World, step: Step, t: Id)
    requires Sound(w.db) && Admissible(e, w, step) && IsEnded(w.db, t) && !SomeCanRun(e, w.db, t)
    ensures var w' := Next(e, w, step);
            Sound(w'.db) && IsEnded(w'.db, t) && !SomeCanRun(e, w'.db, t)
  {
    var w' := Next(e, w, step);
    var c := Classify(e, w, step);
    SoundKept(e, w, w', c);
    EndedStays(e, w, w', c, t);
    if SomeCanRun(e, w'.db, t) {
      var id :| CanStillRun(e, w'.db, id) && w'.db.actions[id].txn == t;
      NoneRevives(e, w, w', c, t, id);
    }
  }

  /** Calls made so far stay where they are, and actions keep their transaction. */
  lemma HistoryStays(e: Env, w: World, step: Step)
    requires Sound(w.db) && Admissible(e, w, step)
    ensures var w' := Next(e, w, step);
            && |w.calls| <= |w'.calls| && w'.calls[..|w.calls|] == w.calls
            && forall id :: id in w.db.actions ==> id in w'.db.actions && w'.db.actions[id].txn == w.db.actions[id].txn
  {
    var c := Classify(e, w, step);
    ActionsKept(e, w, Next(e, w, step), c);
    var id := CallsComeFromRunnable(e, w, step);
  }

  lemma QuietStep(e: Env, w0: World, w: World, step: Step, t: Id)
    requires Sound(w.db) && Admissible(e, w, step) && !SomeCanRun(e, w.db, t)
    requires |w0.calls| <= |w.calls| && !CalledSince(w0, w, t)
    requires forall i :: |w0.calls| <= i < |w.calls| ==> w.calls[i] in w.db.actions
    ensures var w' := Next(e, w, step);
            && |w.calls| <= |w'.calls| && !CalledSince(w0, w', t)
            && forall i :: |w0.calls| <= i < |w'.calls| ==> w'.calls[i] in w'.db.actions
  {
    var w' := Next(e, w, step);
    HistoryStays(e, w, step);
    var id := CallsComeFromRunnable(e, w, step);
    forall i | |w0.calls| <= i < |w'.calls| ensures w'.calls[i] in w'.db.actions && w'.db.actions[w'.calls[i]].txn != t {
      if i < |w.calls| {
        assert w'.calls[i] == w.calls[i];
      }
    }
  }

  /** Once nothing of an ended transaction can run, nothing of it ever does. */
  lemma {:induction false} DormantForGood(e: Env, ws: seq<World>, steps: seq<Step>, t: Id, n: nat)
    requires IsStretch(e, ws, steps) && n < |ws| && Sound(ws[0].db) && IsEnded(ws[0].db, t) && !SomeCanRun(e, ws[0].db, t)
    ensures Sound(ws[n].db) && IsEnded(ws[n].db, t) && !SomeCanRun(e, ws[n].db, t)
    ensures |ws[0].calls| <= |ws[n].calls| && !CalledSince(ws[0], ws[n], t)
    ensures forall i :: |ws[0].calls| <= i < |ws[n].calls| ==> ws[n].calls[i] in ws[n].db.actions
  {
    if n > 0 {
      DormantForGood(e, ws, steps, t, n - 1);
      StepStaysDormant(e, ws[n - 1], steps[n - 1], t);
      QuietStep(e, ws[0], ws[n - 1], steps[n - 1], t);
    }
  }

  /** The call that runs an action past the gates. */
  function RunCall(a: Action): Step {
    if a.status == Approved then RunApprovedCall(a.org, a.id, NoAnswer, Slip("", 0, 0)) else ExecuteCall(a.org, a.id, NoAnswer, Slip("", 0, 0))
  }

  /** The world follows a tool call for the action. */
  ghost predicate JustCalled(w: World, w': World, id: Id) {
    && w'.calls == w.calls + [id]
    && id in w.db.actions && id in w'.db.actions && w'.db.actions[id].txn == w.db.actions[id].txn
  }

  lemma AllowedRuns(e: Env, w: World, a: Action, slip: Slip)
    requires Sound(w.db) && a.id in w.db.actions && w.db.actions[a.id] == a && a.status == Allowed && Reaches(e, a)
    ensures JustCalled(w, ExecuteAllowed(e, w, a.org, a.id, NoAnswer, slip).world, a.id)
  {
    assert StatusFits(a);
    var c := ClassifyExecute(e, w, a.org, a.id, NoAnswer, slip);
    RanCouldRun(e, w, ExecuteAllowed(e, w, a.org, a.id, NoAnswer, slip).world, c);
  }

  lemma ApprovedRunsNow(e: Env, w: World, a: Action, slip: Slip)
    requires Sound(w.db) && a.id in w.db.actions && w.db.actions[a.id] == a && a.status == Approved && Reaches(e, a)
    ensures JustCalled(w, RunApproved(e, w, a.org, a.id, NoAnswer, slip).world, a.id)
  {
    var c := ClassifyRunApproved(e, w, a.org, a.id, NoAnswer, slip);
    RanCouldRun(e, w, RunApproved(e, w, a.org, a.id, NoAnswer, slip).world, c);
  }

  lemma RunnableRuns(e: Env, w: World, id: Id)
    requires Sound(w.db) && id in w.db.actions && w.db.actions[id].status in {Allowed, Approved} && Reaches(e, w.db.actions[id])
    ensures Admissible(e, w, RunCall(w.db.actions[id]))
    ensures JustCalled(w, Next(e, w, RunCall(w.db.actions[id])), id)
  {
    var a := w.db.actions[id];
    assert a.id == id;
    if a.status == Approved {
      ApprovedRunsNow(e, w, a, Slip("", 0, 0));
    } else {
      AllowedRuns(e, w, a, Slip("", 0, 0));
    }
  }

  lemma GrantReleases(e: Env, w: World, k: Id)
    requires Sound(w.db) && k in w.db.approvals && w.db.approvals[k].status == Pending
    ensures var p := w.db.approvals[k];
            var w' := Next(e, w, DecideCall(p.org, k, true));
            && Sound(w'.db) && w'.calls == w.calls && p.action in w.db.actions && p.action in w'.db.actions
            && w'.db.actions[p.action] == w.db.actions[p.action].(status := Approved)
  {
    var p := w.db.approvals[k];
    var step := DecideCall(p.org, k, true);
    assert ApprovalKeyed(w.db, p) && ActionKeyed(w.db, w.db.actions[p.action]);
    DecideShape(w, k, true);
    var c := Classify(e, w, step);
    SoundKept(e, w, Next(e, w, step), c);
  }

  lemma CalledNow(w: World, w1: World, w': World, id: Id)
    requires w1.calls == w.calls && JustCalled(w1, w', id)
    ensures CalledSince(w, w', w1.db.actions[id].txn)
  {
    assert w'.calls[|w.calls|] == id;
  }

  lemma StretchOfOne(e: Env, w: World, step: Step)
    requires Admissible(e, w, step)
    ensures IsStretch(e, [w, Next(e, w, step)], [step])
  {
  }

  lemma StretchOfTwo(e: Env, w: World, a: Step, b: Step)
    requires Admissible(e, w, a) && Admissible(e, Next(e, w, a), b)
    ensures IsStretch(e, [w, Next(e, w, a), Next(e, Next(e, w, a), b)], [a, b])
  {
  }

  lemma WaitingRuns(e: Env, w: World, k: Id) returns (ws: seq<World>, steps: seq<Step>)
    requires Sound(w.db) && k in w.db.approvals && w.db.approvals[k].status == Pending
    requires w.db.approvals[k].action in w.db.actions && Reaches(e, w.db.actions[w.db.approvals[k].action])
    ensures IsStretch(e, ws, steps) && ws[0] == w && CalledSince(w, ws[|steps|], w.db.actions[w.db.approvals[k].action].txn)
  {
    var p := w.db.approvals[k];
    var grant := DecideCall(p.org, k, true);
    GrantReleases(e, w, k);
    var w1 := Next(e, w, grant);
    var a := w1.db.actions[p.action];
    assert Reaches(e, a) && a.status == Approved && a.txn == w.db.actions[p.action].txn;
    RunnableRuns(e, w1, p.action);
    var run := RunCall(w1.db.actions[p.action]);
    StretchOfTwo(e, w, grant, run);
    ws, steps := [w, w1, Next(e, w1, run)], [grant, run];
    CalledNow(w, w1, Next(e, w1, run), p.action);
  }

  /** Whatever can still run does, in at most two steps. */
  lemma CanRunRuns(e: Env, w: World, id: Id) returns (ws: seq<World>, steps: seq<Step>)
    requires Sound(w.db) && CanStillRun(e, w.db, id)
    ensures IsStretch(e, ws, steps) && ws[0] == w && CalledSince(w, ws[|steps|], w.db.actions[id].txn)
  {
    var a := w.db.actions[id];
    if a.status == AwaitingDecision {
      var k :| k in w.db.approvals && w.db.approvals[k].action == id && w.db.approvals[k].status == Pending;
      ws, steps := WaitingRuns(e, w, k);
    } else {
      RunnableRuns(e, w, id);
      StretchOfOne(e, w, RunCall(a));
      ws, steps := [w, Next(e, w, RunCall(a))], [RunCall(a)];
      CalledNow(w, w, Next(e, w, RunCall(a)), id);
    }
  }

  ghost predicate MayBeCalled(e: Env, w: World, t: Id) {
    exists ws, steps :: IsStretch(e, ws, steps) && ws[0] == w && CalledSince(w, ws[|steps|], t)
  }

  /** Execution never looks at the transaction's status. After any run, a continuation can call a
      tool for an ended transaction if and only if one of its actions that has a handler is allowed,
      approved, or waiting on a pending approval. */
  lemma EndedStillRuns(e: Env, ws: seq<World>, steps: seq<Step>, t: Id)
    requires IsRun(e, ws, steps) && IsEnded(ws[|steps|].db, t)
    ensures MayBeCalled(e, ws[|steps|], t) <==> SomeCanRun(e, ws[|steps|].db, t)
  {
    var w := ws[|steps|];
    RunsAreSound(e, ws, steps, |steps|);
    if SomeCanRun(e, w.db, t) {
      var id :| CanStillRun(e, w.db, id) && w.db.actions[id].txn == t;
      var on, more := CanRunRuns(e, w, id);
    } else if MayBeCalled(e, w, t) {
      var on, more :| IsStretch(e, on, more) && on[0] == w && CalledSince(w, on[|more|], t);
      DormantForGood(e, on, more, t, |more|);
    }
  }

  /** For a committed transaction that is never. */
  lemma NothingRunsAfterCommit(e: Env, ws: seq<World>, steps: seq<Step>, t: Id)
    requires IsRun(e, ws, steps) && IsCommitted(ws[|steps|].db, t)
    ensures !MayBeCalled(e, ws[|steps|], t)
  {
    RunsResolveCommits(e, ws, steps, |steps|);
    assert AllDone(ws[|steps|].db, t);
    EndedStillRuns(e, ws, steps, t);
  }

  // ----- while paused -----

  predicate IsPaused(db: Store, t: Id) {
    t in db.txns && db.txns[t].status == AwaitingApproval
  }

  /** The step rules on one of the transaction's approvals, or runs one of its actions. */
  predicate Resumes(db: Store, step: Step, t: Id) {
    match step
    case DecideCall(org, k, _) => Decidable(db, org, k).Some? && db.approvals[k].txn == t
    case ExecuteCall(org, id, _, _) => GetAction(db, org, id).Some? && MayRun(db.actions[id], false) && db.actions[id].txn == t
    case RunApprovedCall(org, id, _, _) => GetAction(db, org, id).Some? && MayRun(db.actions[id], true) && db.actions[id].txn == t
    case _ => false
  }

  lemma ResumesAs(e: Env, db: Store, step: Step, c: Change, t: Id)
    requires MadeBy(e, db, step, c)
    ensures Resumes(db, step, t) <==> (c.Ruled? && c.p.txn == t) || (c.Ran? && c.b.txn == t)
  {
  }

  lemma PauseAfter(c: Change, t: Id)
    requires EntryOk(c, t, AwaitingApproval)
    ensures StatusAfter(c, t, AwaitingApproval) != AwaitingApproval <==> (c.Ruled? && c.p.txn == t) || (c.Ran? && c.b.txn == t)
  {
  }

  /** A step ends a pause if and only if it rules on one of the transaction's approvals, either way,
      or runs one of its actions. */
  lemma PauseEnds(e: Env, w: World, step: Step, t: Id)
    requires Sound(w.db) && Admissible(e, w, step) && IsPaused(w.db, t)
    ensures !IsPaused(Next(e, w, step).db, t) <==> Resumes(w.db, step, t)
  {
    var c := Classify(e, w, step);
    TxnMoves(e, w, Next(e, w, step), c, t);
    PauseAfter(c, t);
    ResumesAs(e, w.db, step, c, t);
  }

  ghost predicate AwaitsOne(db: Store, t: Id) {
    exists k :: k in db.approvals && db.approvals[k].txn == t && db.approvals[k].status == Pending
  }

  /** While a transaction is paused, some approval of it is pending. */
  ghost predicate PausesPend(db: Store) {
    forall t :: IsPaused(db, t) ==> AwaitsOne(db, t)
  }

  lemma PendStays(e: Env, w: World, w': World, c: Change, t: Id)
    requires Sound(w.db) && Changed(e, w, w', c) && AwaitsOne(w.db, t) && !(c.Ruled? && c.p.txn == t)
    ensures AwaitsOne(w'.db, t)
  {
    ApprovalRecordsKept(e, w, w', c);
    ApprovalsFollow(e, w, w', c);
    var k :| k in w.db.approvals && w.db.approvals[k].txn == t && w.db.approvals[k].status == Pending;
    assert w'.db.approvals[k] == w.db.approvals[k];
  }

  lemma PauseStarts(e: Env, w: World, w': World, c: Change, t: Id)
    requires Sound(w.db) && Changed(e, w, w', c) && !IsPaused(w.db, t) && IsPaused(w'.db, t)
    ensures AwaitsOne(w'.db, t)
  {
    TxnsKept(e, w, w', c);
    if t in w.db.txns {
      TxnMoves(e, w, w', c, t);
      NewApprovalListed(e, w, w', c);
      ApprovalsFollow(e, w, w', c);
      assert w'.db.approvals[c.approvalId].status == Pending;
    } else {
      NewTxnPlans(e, w, w', c);
    }
  }

  lemma StepKeepsPending(e: Env, w: World, step: Step, t: Id)
    requires Sound(w.db) && Admissible(e, w, step) && PausesPend(w.db) && IsPaused(Next(e, w, step).db, t)
    ensures AwaitsOne(Next(e, w, step).db, t)
  {
    var w' := Next(e, w, step);
    var c := Classify(e, w, step);
    if IsPaused(w.db, t) {
      PauseEnds(e, w, step, t);
      ResumesAs(e, w.db, step, c, t);
      PendStays(e, w, w', c, t);
    } else {
      PauseStarts(e, w, w', c, t);
    }
  }

  lemma {:induction false} RunsPend(e: Env, ws: seq<World>, steps: seq<Step>, n: nat)
    requires IsRun(e, ws, steps) && n < |ws|
    ensures PausesPend(ws[n].db)
  {
    if n > 0 {
      RunsPend(e, ws, steps, n - 1);
      RunsAreSound(e, ws, steps, n - 1);
      forall t | IsPaused(ws[n].db, t) ensures AwaitsOne(ws[n].db, t) {
        StepKeepsPending(e, ws[n - 1], steps[n - 1], t);
      }
    }
  }

  ghost predicate AllGranted(db: Store, t: Id) {
    forall k :: k in db.approvals && db.approvals[k].txn == t ==> db.approvals[k].status == Granted
  }

  /** The step grants the one approval of the transaction that was not granted yet. */
  ghost predicate GrantsTheLast(db: Store, step: Step, t: Id) {
    && step.DecideCall? && step.approve
    && forall k :: k in db.approvals && db.approvals[k].txn == t && k != step.id ==> db.approvals[k].status == Granted
  }

  lemma GrantedAfterRuling(db: Store, after: map<Id, Approval>, p: Approval, approve: bool)
    requires p.id in db.approvals && db.approvals[p.id] == p && after == ApprovalsAfter(db.approvals, Ruled(p, approve))
    ensures (forall k :: k in after && after[k].txn == p.txn ==> after[k].status == Granted)
            <==> approve && forall k :: k in db.approvals && db.approvals[k].txn == p.txn && k != p.id ==> db.approvals[k].status == Granted
  {
    assert after[p.id].txn == p.txn;
    assert forall k :: k in db.approvals && k != p.id ==> after[k] == db.approvals[k];
  }

  lemma ResumedWhole(e: Env, w: World, step: Step, t: Id)
    requires Sound(w.db) && Admissible(e, w, step) && Resumes(w.db, step, t) && AwaitsOne(w.db, t)
    ensures AllGranted(Next(e, w, step).db, t) <==> GrantsTheLast(w.db, step, t)
  {
    var w' := Next(e, w, step);
    var c := Classify(e, w, step);
    ResumesAs(e, w.db, step, c, t);
    ApprovalsFollow(e, w, w', c);
    if c.Ruled? {
      assert ApprovalKeyed(w.db, c.p);
      GrantedAfterRuling(w.db, w'.db.approvals, c.p, c.approve);
    } else {
      var k :| k in w.db.approvals && w.db.approvals[k].txn == t && w.db.approvals[k].status == Pending;
      assert k in w'.db.approvals && w'.db.approvals[k].status == Pending;
    }
  }

  /** The documentation keeps a transaction paused until every approval is granted. In any run, a
      step that ends a pause leaves every approval granted if and only if it grants the only one
      that was not; a refusal, a grant among several, and running any action end it too. */
  lemma PauseRuleHolds(e: Env, ws: seq<World>, steps: seq<Step>, n: nat, t: Id)
    requires IsRun(e, ws, steps) && n < |steps| && IsPaused(ws[n].db, t) && !IsPaused(ws[n + 1].db, t)
    ensures AllGranted(ws[n + 1].db, t) <==> GrantsTheLast(ws[n].db, steps[n], t)
  {
    RunsAreSound(e, ws, steps, n);
    RunsPend(e, ws, steps, n);
    PauseEnds(e, ws[n], steps[n], t);
    ResumedWhole(e, ws[n], steps[n], t);
  }
}
