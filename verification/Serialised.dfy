/** The two granularities agree: every serialised run is one of the interleavings, with each call
    carried out by a request of its own from arrival to end. */
module Serialised {
  import opened Domain
  import opened Transactions
  import opened StoreSpec
  import opened GatewaySpec
  import opened Protocol
  import opened Compensation
  import opened Invariants
  import opened Interleaved
  import opened Safety

  /** The same store up to the audit log, and the same tool calls. */
  ghost predicate Shows(s: Shared, w: World) {
    s.calls == w.calls && SameButLog(s.db, w.db)
  }

  predicate SameButLog(db: Store, db': Store) {
    db == db'.(audit := db.audit)
  }

  function At(threads: map<nat, Thread>, t: nat, sh: Shared, th: Thread): System {
    System(sh, threads[t := th])
  }

  lemma Begins(e: Env, threads: map<nat, Thread>, t: nat, sh: Shared, th: Thread)
    requires t !in threads && IsArrival(th)
    ensures Reachable(e, System(sh, threads), At(threads, t, sh, th))
  {
    OneStep(e, System(sh, threads), At(threads, t, sh, th), Arrive(t));
  }

  lemma Goes(e: Env, s0: System, threads: map<nat, Thread>, t: nat, sh: Shared, th: Thread, sh': Shared, th': Thread)
    requires Reachable(e, s0, At(threads, t, sh, th)) && ThreadStep(e, sh, th, sh', th')
    ensures Reachable(e, s0, At(threads, t, sh', th'))
  {
    var s, s' := At(threads, t, sh, th), At(threads, t, sh', th');
    assert s'.threads == s.threads[t := th'];
    OneStep(e, s, s', Move(t));
    Onward(e, s0, s, s');
  }

  lemma Drifts(e: Env, s0: System, s: System, w: World)
    requires Reachable(e, s0, s) && Shows(s.shared, w)
    ensures Reachable(e, s0, System(Shared(w.db, w.calls), s.threads))
  {
    OneStep(e, s, System(Shared(w.db, w.calls), s.threads), Ambient);
    Onward(e, s0, s, System(Shared(w.db, w.calls), s.threads));
  }

  // ----- executing -----

  function Begun(db: Store, a: Action): Store {
    if MustStart(db, a) then SetTxnStatus(db, a.org, a.txn, Executing) else db
  }

  lemma StartPath(e: Env, s0: System, threads: map<nat, Thread>, t: nat, sh: Shared, a: Action)
    requires Reachable(e, s0, At(threads, t, sh, Ready(a)))
    ensures Reachable(e, s0, At(threads, t, sh.(db := Begun(sh.db, a)), Calling(a)))
  {
    if MustStart(sh.db, a) {
      assert RunStep(e, sh, Ready(a), sh, Starting(a));
      Goes(e, s0, threads, t, sh, Ready(a), sh, Starting(a));
      assert RunStep(e, sh, Starting(a), sh.(db := Begun(sh.db, a)), Calling(a));
      Goes(e, s0, threads, t, sh, Starting(a), sh.(db := Begun(sh.db, a)), Calling(a));
    } else {
      assert RunStep(e, sh, Ready(a), sh, Calling(a));
      Goes(e, s0, threads, t, sh, Ready(a), sh, Calling(a));
    }
  }

  lemma AnsweringStep(e: Env, sh: Shared, a: Action, answer: ToolAnswer)
    ensures ThreadStep(e, sh, Calling(a), sh.(calls := if Reaches(e, a) then sh.calls + [a.id] else sh.calls),
                       Writing(Answered(a, if Reaches(e, a) then answer else FailedDefinitely)))
  {
    assert RunStep(e, sh, Calling(a), sh.(calls := if Reaches(e, a) then sh.calls + [a.id] else sh.calls),
                   Writing(Answered(a, if Reaches(e, a) then answer else FailedDefinitely)));
  }

  lemma StoringStep(e: Env, sh: Shared, b: Action)
    ensures ThreadStep(e, sh, Writing(b), sh.(db := UpdateAction(sh.db, b)), if b.status == Executed then Attesting(b, NotCompensated) else Finished)
  {
    assert RunStep(e, sh, Writing(b), sh.(db := UpdateAction(sh.db, b)), if b.status == Executed then Attesting(b, NotCompensated) else Finished);
  }

  /** The receipt of an executed action, appended and then signed. */
  lemma AttestPath(e: Env, s0: System, threads: map<nat, Thread>, t: nat, sh: Shared, b: Action, how: Settlement, slip: Slip)
    requires b.result.Some? && (how == FromReconciliation ==> slip.started == b.createdAt)
    requires Reachable(e, s0, At(threads, t, sh, Attesting(b, how)))
    ensures Reachable(e, s0, At(threads, t, sh.(db := IssueReceipt(e, sh.db, NewReceipt(e, b, b.result.value, how, slip))), Finished))
  {
    var r := NewReceipt(e, b, b.result.value, how, slip);
    var appended := sh.(db := AppendReceipt(e.codec, sh.db, r));
    var signed := Signed(e, sh.db.ledger, r);
    assert IsReceiptOf(e, b, how, r);
    assert RunStep(e, sh, Attesting(b, how), appended, Signing(signed));
    Goes(e, s0, threads, t, sh, Attesting(b, how), appended, Signing(signed));
    assert RunStep(e, appended, Signing(signed), appended.(db := UpdateReceipt(appended.db, signed)), Finished);
    Goes(e, s0, threads, t, appended, Signing(signed), appended.(db := UpdateReceipt(appended.db, signed)), Finished);
  }

  /** What writing an answered action back leaves, with its receipt if it executed. */
  function Recorded(e: Env, db: Store, b: Action, how: Settlement, slip: Slip): Store {
    var s := UpdateAction(db, b);
    if b.status == Executed && b.result.Some? then IssueReceipt(e, s, NewReceipt(e, b, b.result.value, how, slip)) else s
  }

  lemma FinishPath(e: Env, s0: System, threads: map<nat, Thread>, t: nat, sh: Shared, th: Thread, b: Action, how: Settlement, slip: Slip)
    requires Reachable(e, s0, At(threads, t, sh, th)) && (b.status == Executed ==> b.result.Some?)
    requires how == FromReconciliation ==> slip.started == b.createdAt
    requires ThreadStep(e, sh, th, sh.(db := UpdateAction(sh.db, b)), if b.status == Executed then Attesting(b, how) else Finished)
    ensures Reachable(e, s0, At(threads, t, sh.(db := Recorded(e, sh.db, b, how, slip)), Finished))
  {
    var written := sh.(db := UpdateAction(sh.db, b));
    Goes(e, s0, threads, t, sh, th, written, if b.status == Executed then Attesting(b, how) else Finished);
    if b.status == Executed {
      AttestPath(e, s0, threads, t, written, b, how, slip);
    }
  }

  lemma CallPath(e: Env, threads: map<nat, Thread>, t: nat, sh: Shared, org: Id, id: Id, approvedPath: bool, answer: ToolAnswer)
    requires t !in threads && GetAction(sh.db, org, id).Some? && MayRun(sh.db.actions[id], approvedPath)
    ensures var a := sh.db.actions[id];
            Reachable(e, System(sh, threads),
                      At(threads, t, Shared(Begun(sh.db, a), if Reaches(e, a) then sh.calls + [a.id] else sh.calls),
                         Writing(Answered(a, if Reaches(e, a) then answer else FailedDefinitely))))
  {
    var s0 := System(sh, threads);
    var a := sh.db.actions[id];
    var begun := sh.(db := Begun(sh.db, a));
    Begins(e, threads, t, sh, RunStart(org, id, approvedPath));
    assert RunStep(e, sh, RunStart(org, id, approvedPath), sh, Ready(a));
    Goes(e, s0, threads, t, sh, RunStart(org, id, approvedPath), sh, Ready(a));
    StartPath(e, s0, threads, t, sh, a);
    AnsweringStep(e, begun, a, answer);
    Goes(e, s0, threads, t, begun, Calling(a), begun.(calls := if Reaches(e, a) then sh.calls + [a.id] else sh.calls),
         Writing(Answered(a, if Reaches(e, a) then answer else FailedDefinitely)));
  }

  lemma IssuedAlike(e: Env, db: Store, db': Store, r: Receipt)
    requires SameButLog(db, db')
    ensures SameButLog(IssueReceipt(e, db, r), IssueReceipt(e, db', r))
  {
  }

  lemma RecordedAlike(e: Env, db: Store, db': Store, b: Action, how: Settlement, slip: Slip)
    requires SameButLog(db, db')
    ensures SameButLog(Recorded(e, db, b, how, slip), Recorded(e, db', b, how, slip))
  {
    var s, s' := UpdateAction(db, b), UpdateAction(db', b);
    assert SameButLog(s, s');
    if b.status == Executed && b.result.Some? {
      IssuedAlike(e, s, s', NewReceipt(e, b, b.result.value, how, slip));
    }
  }

  lemma FinishIsRecorded(e: Env, w: World, a: Action, answer: ToolAnswer, slip: Slip)
    ensures var w' := Finish(e, w, a, answer, slip).world;
            w' == w.(db := Recorded(e, w.db, Answered(a, answer), NotCompensated, slip).(audit := w'.db.audit))
  {
  }

  lemma FinishRecords(e: Env, w: World, a: Action, answer: ToolAnswer, slip: Slip, db: Store)
    requires SameButLog(db, w.db)
    ensures SameButLog(Recorded(e, db, Answered(a, answer), NotCompensated, slip), Finish(e, w, a, answer, slip).world.db)
    ensures Finish(e, w, a, answer, slip).world.calls == w.calls
  {
    RecordedAlike(e, db, w.db, Answered(a, answer), NotCompensated, slip);
    FinishIsRecorded(e, w, a, answer, slip);
  }

  lemma BegunIsStarted(db: Store, a: Action)
    requires a.txn in db.txns ==> db.txns[a.txn].id == a.txn
    ensures SameButLog(Begun(db, a), Started(db, a))
  {
  }

  lemma RunRecords(e: Env, w: World, a: Action, answer: ToolAnswer, slip: Slip)
    requires a.txn in w.db.txns ==> w.db.txns[a.txn].id == a.txn
    ensures var b := Answered(a, if Reaches(e, a) then answer else FailedDefinitely);
            Shows(Shared(Recorded(e, Begun(w.db, a), b, NotCompensated, slip), if Reaches(e, a) then w.calls + [a.id] else w.calls),
                  Run(e, w, a, answer, slip).world)
  {
    BegunIsStarted(w.db, a);
    var calls := if Reaches(e, a) then w.calls + [a.id] else w.calls;
    FinishRecords(e, w.(db := Started(w.db, a), calls := calls), a, if Reaches(e, a) then answer else FailedDefinitely, slip, Begun(w.db, a));
  }

  lemma RunAlone(e: Env, threads: map<nat, Thread>, t: nat, w: World, a: Action, approvedPath: bool, answer: ToolAnswer, slip: Slip)
    returns (sh': Shared)
    requires Keyed(w.db) && t !in threads && a.id in w.db.actions && w.db.actions[a.id] == a && MayRun(a, approvedPath)
    ensures Reachable(e, System(Shared(w.db, w.calls), threads), At(threads, t, sh', Finished))
    ensures Shows(sh', Run(e, w, a, answer, slip).world)
  {
    var sh := Shared(w.db, w.calls);
    var b := Answered(a, if Reaches(e, a) then answer else FailedDefinitely);
    var called := Shared(Begun(w.db, a), if Reaches(e, a) then sh.calls + [a.id] else sh.calls);
    CallPath(e, threads, t, sh, a.org, a.id, approvedPath, answer);
    StoringStep(e, called, b);
    FinishPath(e, System(sh, threads), threads, t, called, Writing(b), b, NotCompensated, slip);
    sh' := called.(db := Recorded(e, called.db, b, NotCompensated, slip));
    RunRecords(e, w, a, answer, slip);
  }

  lemma TurnedAway(e: Env, threads: map<nat, Thread>, t: nat, sh: Shared, th: Thread)
    requires t !in threads && IsArrival(th) && ThreadStep(e, sh, th, sh, Finished)
    ensures Reachable(e, System(sh, threads), At(threads, t, sh, Finished))
  {
    Begins(e, threads, t, sh, th);
    Goes(e, System(sh, threads), threads, t, sh, th, sh, Finished);
  }

  lemma ExecuteAlone(e: Env, threads: map<nat, Thread>, t: nat, w: World, org: Id, id: Id, answer: ToolAnswer, slip: Slip) returns (sh': Shared)
    requires Sound(w.db) && t !in threads
    ensures Reachable(e, System(Shared(w.db, w.calls), threads), At(threads, t, sh', Finished))
    ensures Shows(sh', ExecuteAllowed(e, w, org, id, answer, slip).world)
  {
    ExecuteRuns(e, w, org, id, answer, slip);
    var a := GetAction(w.db, org, id);
    if a.Some? && MayRun(a.value, false) {
      sh' := RunAlone(e, threads, t, w, a.value, false, answer, slip);
    } else {
      sh' := Shared(w.db, w.calls);
      TurnedAway(e, threads, t, sh', RunStart(org, id, false));
    }
  }

  lemma RunApprovedAlone(e: Env, threads: map<nat, Thread>, t: nat, w: World, org: Id, id: Id, answer: ToolAnswer, slip: Slip) returns (sh': Shared)
    requires Sound(w.db) && t !in threads
    ensures Reachable(e, System(Shared(w.db, w.calls), threads), At(threads, t, sh', Finished))
    ensures Shows(sh', RunApproved(e, w, org, id, answer, slip).world)
  {
    ApprovedRuns(e, w, org, id, answer, slip);
    var a := GetAction(w.db, org, id);
    if a.Some? && MayRun(a.value, true) {
      sh' := RunAlone(e, threads, t, w, a.value, true, answer, slip);
    } else {
      sh' := Shared(w.db, w.calls);
      assert RunStep(e, sh', RunStart(org, id, true), sh', Finished);
      TurnedAway(e, threads, t, sh', RunStart(org, id, true));
    }
  }

  // ----- reconciling -----

  function AfterProbe(a: Action, finding: Finding): Action {
    if finding.Found? then a.(status := Executed, result := Some(finding.result)) else a.(status := Errored)
  }

  lemma ReconciledRecords(e: Env, w: World, a: Action, finding: Finding, slip: Slip)
    ensures var w' := Reconciled(e, w, a, finding, slip).world;
            Shows(Shared(Recorded(e, w.db, AfterProbe(a, finding), FromReconciliation, slip.(started := a.createdAt)), w.calls), w')
  {
  }

  lemma ProbingStep(e: Env, sh: Shared, a: Action)
    requires a.id in sh.db.actions && sh.db.actions[a.id] == a && a.status == Unknown
    ensures ThreadStep(e, sh, ProbeStart(a.org, a.id), sh, Probing(a))
  {
    assert ProbeStep(sh, ProbeStart(a.org, a.id), sh, Probing(a));
  }

  lemma SettlingStep(e: Env, sh: Shared, a: Action, finding: Finding)
    ensures ThreadStep(e, sh, Probing(a), sh, Settling(AfterProbe(a, finding)))
  {
    assert ProbeStep(sh, Probing(a), sh, Settling(AfterProbe(a, finding)));
  }

  lemma SettledStep(e: Env, sh: Shared, b: Action)
    ensures ThreadStep(e, sh, Settling(b), sh.(db := UpdateAction(sh.db, b)), if b.status == Executed then Attesting(b, FromReconciliation) else Finished)
  {
    assert ProbeStep(sh, Settling(b), sh.(db := UpdateAction(sh.db, b)), if b.status == Executed then Attesting(b, FromReconciliation) else Finished);
  }

  lemma ReconcilePath(e: Env, threads: map<nat, Thread>, t: nat, w: World, a: Action, finding: Finding, slip: Slip) returns (sh': Shared)
    requires t !in threads && a.id in w.db.actions && w.db.actions[a.id] == a && a.status == Unknown
    ensures Reachable(e, System(Shared(w.db, w.calls), threads), At(threads, t, sh', Finished))
    ensures Shows(sh', Reconciled(e, w, a, finding, slip).world)
  {
    var sh := Shared(w.db, w.calls);
    var s0 := System(sh, threads);
    var b := AfterProbe(a, finding);
    Begins(e, threads, t, sh, ProbeStart(a.org, a.id));
    ProbingStep(e, sh, a);
    Goes(e, s0, threads, t, sh, ProbeStart(a.org, a.id), sh, Probing(a));
    SettlingStep(e, sh, a, finding);
    Goes(e, s0, threads, t, sh, Probing(a), sh, Settling(b));
    SettledStep(e, sh, b);
    FinishPath(e, s0, threads, t, sh, Settling(b), b, FromReconciliation, slip.(started := a.createdAt));
    sh' := sh.(db := Recorded(e, sh.db, b, FromReconciliation, slip.(started := a.createdAt)));
    ReconciledRecords(e, w, a, finding, slip);
  }

  lemma ProbePath(e: Env, threads: map<nat, Thread>, t: nat, sh: Shared, org: Id, id: Id)
    requires t !in threads
    ensures Reachable(e, System(sh, threads), At(threads, t, sh, Finished))
  {
    var a := GetAction(sh.db, org, id);
    if a.Some? && a.value.status == Unknown {
      Begins(e, threads, t, sh, ProbeStart(org, id));
      Goes(e, System(sh, threads), threads, t, sh, ProbeStart(org, id), sh, Probing(a.value));
      Goes(e, System(sh, threads), threads, t, sh, Probing(a.value), sh, Finished);
    } else {
      TurnedAway(e, threads, t, sh, ProbeStart(org, id));
    }
  }

  lemma ReconcileAlone(e: Env, threads: map<nat, Thread>, t: nat, w: World, org: Id, id: Id, finding: Finding, slip: Slip) returns (sh': Shared)
    requires Sound(w.db) && t !in threads
    ensures Reachable(e, System(Shared(w.db, w.calls), threads), At(threads, t, sh', Finished))
    ensures Shows(sh', Reconcile(e, w, org, id, finding, slip).world)
  {
    if Reconcilable(e, w.db, org, id, finding) {
      ReconcileTakesEffect(e, w, org, id, finding, slip);
      sh' := ReconcilePath(e, threads, t, w, w.db.actions[id], finding, slip);
    } else {
      ReconcileOnlyLogs(e, w, org, id, finding, slip);
      sh' := Shared(w.db, w.calls);
      ProbePath(e, threads, t, sh', org, id);
    }
  }

  // ----- approving -----

  lemma MovingStep(e: Env, sh: Shared, org: Id, txn: Id, st: TxnStatus)
    ensures ThreadStep(e, sh, Moving(org, txn, st), sh.(db := SetTxnStatus(sh.db, org, txn, st)), Finished)
  {
    assert ProposeStep(e, sh, Moving(org, txn, st), sh.(db := SetTxnStatus(sh.db, org, txn, st)), Finished);
  }

  /** Looking a transaction up and moving it if the table allows. */
  lemma ResumePath(e: Env, s0: System, threads: map<nat, Thread>, t: nat, sh: Shared, org: Id, txn: Id, to: TxnStatus)
    requires GetTxn(sh.db, org, txn).Some? && Reachable(e, s0, At(threads, t, sh, Resuming(org, txn, to)))
    ensures Reachable(e, s0, At(threads, t, sh.(db := SetTxnStatus(sh.db, org, txn, Moved(sh.db.txns[txn].status, to))), Finished))
  {
    var st := Moved(sh.db.txns[txn].status, to);
    assert RuleStep(sh, Resuming(org, txn, to), sh, Moving(org, txn, st));
    Goes(e, s0, threads, t, sh, Resuming(org, txn, to), sh, Moving(org, txn, st));
    MovingStep(e, sh, org, txn, st);
    Goes(e, s0, threads, t, sh, Moving(org, txn, st), sh.(db := SetTxnStatus(sh.db, org, txn, st)), Finished);
  }

  lemma ApprovePath(e: Env, threads: map<nat, Thread>, t: nat, sh: Shared, k: Id)
    requires t !in threads && k in sh.db.approvals
    requires var p := sh.db.approvals[k];
             p.status == Pending && p.action in sh.db.actions && sh.db.actions[p.action].org == p.org
    ensures var p := sh.db.approvals[k];
            var db := DecideApproval(sh.db, p.org, k, true);
            Reachable(e, System(sh, threads),
                      At(threads, t, sh.(db := UpdateAction(db, sh.db.actions[p.action].(status := Approved))), Resuming(p.org, p.txn, Executing)))
  {
    var s0 := System(sh, threads);
    var p := sh.db.approvals[k];
    var a := sh.db.actions[p.action];
    var granted := sh.(db := DecideApproval(sh.db, p.org, k, true));
    var q := granted.db.approvals[k];
    var approved := granted.(db := UpdateAction(granted.db, a.(status := Approved)));
    Begins(e, threads, t, sh, RuleStart(p.org, k, true));
    assert RuleStep(sh, RuleStart(p.org, k, true), granted, Granted1(p.org, q));
    Goes(e, s0, threads, t, sh, RuleStart(p.org, k, true), granted, Granted1(p.org, q));
    assert RuleStep(granted, Granted1(p.org, q), granted, Granted2(p.org, q, a));
    Goes(e, s0, threads, t, granted, Granted1(p.org, q), granted, Granted2(p.org, q, a));
    assert RuleStep(granted, Granted2(p.org, q, a), approved, Resuming(p.org, q.txn, Executing));
    Goes(e, s0, threads, t, granted, Granted2(p.org, q, a), approved, Resuming(p.org, q.txn, Executing));
  }

  lemma RefusePath(e: Env, threads: map<nat, Thread>, t: nat, sh: Shared, k: Id)
    requires t !in threads && k in sh.db.approvals && sh.db.approvals[k].status == Pending
    ensures var p := sh.db.approvals[k];
            Reachable(e, System(sh, threads), At(threads, t, sh.(db := DecideApproval(sh.db, p.org, k, false)), Resuming(p.org, p.txn, Aborting)))
  {
    var p := sh.db.approvals[k];
    var refused := sh.(db := DecideApproval(sh.db, p.org, k, false));
    Begins(e, threads, t, sh, RuleStart(p.org, k, false));
    assert RuleStep(sh, RuleStart(p.org, k, false), refused, Resuming(p.org, p.txn, Aborting));
    Goes(e, System(sh, threads), threads, t, sh, RuleStart(p.org, k, false), refused, Resuming(p.org, p.txn, Aborting));
  }

  /** The store after an approval was decided and its action approved, before the transaction moves. */
  function AfterRuling(db: Store, k: Id, approve: bool): Store
    requires k in db.approvals && db.approvals[k].action in db.actions
  {
    var p := db.approvals[k];
    var s := DecideApproval(db, p.org, k, approve);
    if approve then UpdateAction(s, db.actions[p.action].(status := Approved)) else s
  }

  lemma DecideRecords(w: World, k: Id, approve: bool)
    requires Sound(w.db) && k in w.db.approvals && w.db.approvals[k].status == Pending
    ensures var p := w.db.approvals[k];
            && p.action in w.db.actions && w.db.actions[p.action].org == p.org && GetTxn(w.db, p.org, p.txn).Some?
            && AfterRuling(w.db, k, approve).txns == w.db.txns
            && SameButLog(SetTxnStatus(AfterRuling(w.db, k, approve), p.org, p.txn, Moved(w.db.txns[p.txn].status, if approve then Executing else Aborting)),
                          DecideRoute(w.db, p.org, k, approve))
  {
    var p := w.db.approvals[k];
    assert ApprovalKeyed(w.db, p) && ActionKeyed(w.db, w.db.actions[p.action]);
    DecideShape(w, k, approve);
  }

  lemma DecideAlone(e: Env, threads: map<nat, Thread>, t: nat, w: World, org: Id, k: Id, approve: bool) returns (sh': Shared)
    requires Sound(w.db) && t !in threads
    ensures Reachable(e, System(Shared(w.db, w.calls), threads), At(threads, t, sh', Finished))
    ensures Shows(sh', w.(db := DecideRoute(w.db, org, k, approve)))
  {
    var sh := Shared(w.db, w.calls);
    if Decidable(w.db, org, k).None? {
      sh' := sh;
      assert RuleStep(sh, RuleStart(org, k, approve), sh, Finished);
      TurnedAway(e, threads, t, sh, RuleStart(org, k, approve));
    } else {
      var p := w.db.approvals[k];
      DecideRecords(w, k, approve);
      var ruled := sh.(db := AfterRuling(w.db, k, approve));
      if approve {
        ApprovePath(e, threads, t, sh, k);
      } else {
        RefusePath(e, threads, t, sh, k);
      }
      ResumePath(e, System(sh, threads), threads, t, ruled, p.org, p.txn, if approve then Executing else Aborting);
      sh' := ruled.(db := SetTxnStatus(ruled.db, p.org, p.txn, Moved(w.db.txns[p.txn].status, if approve then Executing else Aborting)));
    }
  }

  // ----- proposing -----

  lemma AddPath(e: Env, threads: map<nat, Thread>, t: nat, sh: Shared, bid: Bid, d: Draw)
    requires t !in threads && Accepted(e, sh.db, bid.q) && d.actionId !in sh.db.actions && bid.st == sh.db.txns[bid.q.txn].status
    ensures Reachable(e, System(sh, threads),
                      At(threads, t, sh.(db := AddAction(e.codec, sh.db, Drafted(e, bid.q), d.actionId, d.now)), Deciding(bid, d.actionId)))
  {
    var s0 := System(sh, threads);
    var added := sh.(db := AddAction(e.codec, sh.db, Drafted(e, bid.q), d.actionId, d.now));
    Begins(e, threads, t, sh, ProposeStart(bid.q));
    assert ProposeStep(e, sh, ProposeStart(bid.q), sh, ProposeAgent(bid));
    Goes(e, s0, threads, t, sh, ProposeStart(bid.q), sh, ProposeAgent(bid));
    assert ProposeStep(e, sh, ProposeAgent(bid), sh, Adding(bid));
    Goes(e, s0, threads, t, sh, ProposeAgent(bid), sh, Adding(bid));
    assert ProposeStep(e, sh, Adding(bid), added, Deciding(bid, d.actionId));
    Goes(e, s0, threads, t, sh, Adding(bid), added, Deciding(bid, d.actionId));
  }

  lemma DecisionPath(e: Env, s0: System, threads: map<nat, Thread>, t: nat, sh: Shared, bid: Bid, id: Id, d: Decision)
    requires id in sh.db.actions && Reachable(e, s0, At(threads, t, sh, Deciding(bid, id)))
    ensures Reachable(e, s0, At(threads, t, sh.(db := WriteDecision(sh.db, id, d)), Marking(bid, id, d)))
  {
    var decided := sh.(db := WriteDecision(sh.db, id, d));
    if Permits(d.effect) {
      assert ProposeStep(e, sh, Deciding(bid, id), decided, Screening(bid, id, d));
      Goes(e, s0, threads, t, sh, Deciding(bid, id), decided, Screening(bid, id, d));
      assert WriteDecision(decided.db, id, d) == decided.db;
      assert ProposeStep(e, decided, Screening(bid, id, d), decided, Marking(bid, id, d));
      Goes(e, s0, threads, t, decided, Screening(bid, id, d), decided, Marking(bid, id, d));
    } else {
      assert ProposeStep(e, sh, Deciding(bid, id), decided, Marking(bid, id, d));
      Goes(e, s0, threads, t, sh, Deciding(bid, id), decided, Marking(bid, id, d));
    }
  }

  lemma MarkPath(e: Env, s0: System, threads: map<nat, Thread>, t: nat, sh: Shared, bid: Bid, id: Id, d: Decision)
    requires id in sh.db.actions && Reachable(e, s0, At(threads, t, sh, Marking(bid, id, d)))
    ensures var marked := WriteMark(sh.db, id, StatusFor(d.effect));
            Reachable(e, s0, At(threads, t, sh.(db := UpdateAction(marked, marked.actions[id])),
                                if d.effect == RequireApproval then Asking(bid, id, d) else Finished))
  {
    var marked := sh.(db := WriteMark(sh.db, id, StatusFor(d.effect)));
    var saved := marked.(db := UpdateAction(marked.db, marked.db.actions[id]));
    assert ProposeStep(e, sh, Marking(bid, id, d), marked, Saving(bid, id, d));
    Goes(e, s0, threads, t, sh, Marking(bid, id, d), marked, Saving(bid, id, d));
    assert ProposeStep(e, marked, Saving(bid, id, d), saved, if d.effect == RequireApproval then Asking(bid, id, d) else Finished);
    Goes(e, s0, threads, t, marked, Saving(bid, id, d), saved, if d.effect == RequireApproval then Asking(bid, id, d) else Finished);
  }

  /** The store once a waiting action's approval exists and its transaction has been paused. */
  function Paused(db: Store, bid: Bid, id: Id, k: Id): Store
    requires id in db.actions
  {
    SetTxnStatus(CreateApproval(db, Wanted(db, bid, id), k), bid.q.org, bid.q.txn, Moved(bid.st, AwaitingApproval))
  }

  lemma AskPath(e: Env, s0: System, threads: map<nat, Thread>, t: nat, sh: Shared, bid: Bid, id: Id, d: Decision, k: Id)
    requires id in sh.db.actions && k !in sh.db.approvals && Reachable(e, s0, At(threads, t, sh, Asking(bid, id, d)))
    ensures Reachable(e, s0, At(threads, t, sh.(db := Paused(sh.db, bid, id, k)), Finished))
  {
    var asked := sh.(db := CreateApproval(sh.db, Wanted(sh.db, bid, id), k));
    var moving := Moving(bid.q.org, bid.q.txn, Moved(bid.st, AwaitingApproval));
    assert ProposeStep(e, sh, Asking(bid, id, d), asked, moving);
    Goes(e, s0, threads, t, sh, Asking(bid, id, d), asked, moving);
    MovingStep(e, asked, bid.q.org, bid.q.txn, moving.st);
    Goes(e, s0, threads, t, asked, moving, sh.(db := Paused(sh.db, bid, id, k)), Finished);
  }

  /** The live record after the decision and the status have been written into it. */
  lemma WrittenInPlace(db: Store, a: Action, d: Decision)
    ensures var b := WithDecision(a, d);
            var db1 := db.(actions := db.actions[a.id := a], byIdem := db.byIdem[KeyOf(a) := a.id]);
            var marked := WriteMark(WriteDecision(db1, a.id, d), a.id, StatusFor(d.effect));
            marked.actions[a.id] == b
            && UpdateAction(marked, b) == db.(actions := db.actions[a.id := b], byIdem := db.byIdem[KeyOf(b) := a.id])
  {
    var b := WithDecision(a, d);
    var db1 := db.(actions := db.actions[a.id := a], byIdem := db.byIdem[KeyOf(a) := a.id]);
    var marked := WriteMark(WriteDecision(db1, a.id, d), a.id, StatusFor(d.effect));
    assert marked.actions == db.actions[a.id := b];
    assert db1.byIdem[KeyOf(b) := a.id] == db.byIdem[KeyOf(b) := a.id];
  }

  /** What a fresh proposal leaves behind. */
  function AfterProposal(db: Store, bid: Bid, b: Action, k: Id): Store {
    var s := db.(actions := db.actions[b.id := b], byIdem := db.byIdem[KeyOf(b) := b.id]);
    if b.status == AwaitingDecision then Paused(s, bid, b.id, k) else s
  }

  lemma ProposePath(e: Env, threads: map<nat, Thread>, t: nat, sh: Shared, bid: Bid, draw: Draw, a: Action, d: Decision)
    requires t !in threads && Accepted(e, sh.db, bid.q) && draw.actionId !in sh.db.actions && draw.approvalId !in sh.db.approvals
    requires a == Stored(e.codec, Drafted(e, bid.q), draw.actionId, draw.now) && bid.st == sh.db.txns[bid.q.txn].status
    ensures Reachable(e, System(sh, threads), At(threads, t, sh.(db := AfterProposal(sh.db, bid, WithDecision(a, d), draw.approvalId)), Finished))
  {
    var s0 := System(sh, threads);
    var id := draw.actionId;
    var added := sh.(db := AddAction(e.codec, sh.db, Drafted(e, bid.q), id, draw.now));
    var decided := added.(db := WriteDecision(added.db, id, d));
    WrittenInPlace(sh.db, a, d);
    AddPath(e, threads, t, sh, bid, draw);
    DecisionPath(e, s0, threads, t, added, bid, id, d);
    MarkPath(e, s0, threads, t, decided, bid, id, d);
    if d.effect == RequireApproval {
      var marked := WriteMark(decided.db, id, StatusFor(d.effect));
      AskPath(e, s0, threads, t, decided.(db := UpdateAction(marked, marked.actions[id])), bid, id, d, draw.approvalId);
    }
  }

  /** A proposal that adds nothing: refused by a guard, or a replay. */
  lemma RejectPath(e: Env, threads: map<nat, Thread>, t: nat, sh: Shared, q: Request)
    requires t !in threads && !Accepted(e, sh.db, q)
    ensures Reachable(e, System(sh, threads), At(threads, t, sh, Finished))
  {
    var s0 := System(sh, threads);
    if !ProposeTxnOk(sh.db, q) {
      assert ProposeStep(e, sh, ProposeStart(q), sh, Finished);
      TurnedAway(e, threads, t, sh, ProposeStart(q));
    } else {
      var bid := Bid(q, sh.db.txns[q.txn].status);
      Begins(e, threads, t, sh, ProposeStart(q));
      assert ProposeStep(e, sh, ProposeStart(q), sh, ProposeAgent(bid));
      Goes(e, s0, threads, t, sh, ProposeStart(q), sh, ProposeAgent(bid));
      LateRejectPath(e, s0, threads, t, sh, bid);
    }
  }

  lemma LateRejectPath(e: Env, s0: System, threads: map<nat, Thread>, t: nat, sh: Shared, bid: Bid)
    requires ProposeTxnOk(sh.db, bid.q) && !Accepted(e, sh.db, bid.q) && Reachable(e, s0, At(threads, t, sh, ProposeAgent(bid)))
    ensures Reachable(e, s0, At(threads, t, sh, Finished))
  {
    if GetAgent(sh.db, bid.q.org, bid.q.agent).None? {
      assert ProposeStep(e, sh, ProposeAgent(bid), sh, Finished);
      Goes(e, s0, threads, t, sh, ProposeAgent(bid), sh, Finished);
    } else {
      assert ProposeStep(e, sh, ProposeAgent(bid), sh, Adding(bid));
      Goes(e, s0, threads, t, sh, ProposeAgent(bid), sh, Adding(bid));
      assert ProposeStep(e, sh, Adding(bid), sh, Finished);
      Goes(e, s0, threads, t, sh, Adding(bid), sh, Finished);
    }
  }

  lemma ProposeRecords(e: Env, w: World, q: Request, draw: Draw)
    requires draw.actionId !in w.db.actions && Accepted(e, w.db, q)
    ensures Shows(Shared(AfterProposal(w.db, Bid(q, w.db.txns[q.txn].status), NewAction(e, w.db, q, draw), draw.approvalId), w.calls),
                  Propose(e, w, q, draw).world)
  {
    ProposeShape(e, w, q, draw);
    assert w.db.txns == WithStatus(w.db.txns, q.txn, w.db.txns[q.txn].status);
  }

  lemma ProposeAlone(e: Env, threads: map<nat, Thread>, t: nat, w: World, q: Request, draw: Draw) returns (sh': Shared)
    requires t !in threads && draw.actionId !in w.db.actions && draw.approvalId !in w.db.approvals
    ensures Reachable(e, System(Shared(w.db, w.calls), threads), At(threads, t, sh', Finished))
    ensures Shows(sh', Propose(e, w, q, draw).world)
  {
    sh' := Shared(w.db, w.calls);
    if Accepted(e, w.db, q) {
      var bid := Bid(q, w.db.txns[q.txn].status);
      var a := Stored(e.codec, Drafted(e, q), draw.actionId, draw.now);
      ProposePath(e, threads, t, sh', bid, draw, a, DecisionOf(NewAction(e, w.db, q, draw)));
      ProposeRecords(e, w, q, draw);
      sh' := sh'.(db := AfterProposal(w.db, bid, NewAction(e, w.db, q, draw), draw.approvalId));
    } else {
      ProposeShape(e, w, q, draw);
      RejectPath(e, threads, t, sh', q);
    }
  }

  // ----- committing -----

  lemma ListingStep(e: Env, sh: Shared, org: Id, txn: Id, st: TxnStatus)
    requires AllResolved(sh.db, org, txn) && CanTransition(st, Committed)
    ensures ThreadStep(e, sh, CommitList(org, txn, st), sh, Committing(org, txn))
  {
    assert CommitStep(sh, CommitList(org, txn, st), sh, Committing(org, txn));
  }

  lemma CommitStartStep(e: Env, sh: Shared, org: Id, txn: Id)
    requires GetTxn(sh.db, org, txn).Some? && !TerminalTxn(sh.db.txns[txn].status)
    ensures ThreadStep(e, sh, CommitStart(org, txn), sh, CommitList(org, txn, sh.db.txns[txn].status))
  {
    assert CommitStep(sh, CommitStart(org, txn), sh, CommitList(org, txn, sh.db.txns[txn].status));
  }

  lemma CommittingStep(e: Env, sh: Shared, org: Id, txn: Id)
    ensures ThreadStep(e, sh, Committing(org, txn), sh.(db := SetTxnStatus(sh.db, org, txn, Committed)), Finished)
  {
    assert CommitStep(sh, Committing(org, txn), sh.(db := SetTxnStatus(sh.db, org, txn, Committed)), Finished);
  }

  lemma CommitPath(e: Env, threads: map<nat, Thread>, t: nat, sh: Shared, org: Id, txn: Id)
    requires t !in threads && CommitGuard(sh.db, org, txn).None?
    ensures Reachable(e, System(sh, threads), At(threads, t, sh.(db := SetTxnStatus(sh.db, org, txn, Committed)), Finished))
  {
    var s0 := System(sh, threads);
    var st := sh.db.txns[txn].status;
    Begins(e, threads, t, sh, CommitStart(org, txn));
    CommitStartStep(e, sh, org, txn);
    Goes(e, s0, threads, t, sh, CommitStart(org, txn), sh, CommitList(org, txn, st));
    ListingStep(e, sh, org, txn, st);
    Goes(e, s0, threads, t, sh, CommitList(org, txn, st), sh, Committing(org, txn));
    CommittingStep(e, sh, org, txn);
    Goes(e, s0, threads, t, sh, Committing(org, txn), sh.(db := SetTxnStatus(sh.db, org, txn, Committed)), Finished);
  }

  lemma CommitRefused(e: Env, threads: map<nat, Thread>, t: nat, sh: Shared, org: Id, txn: Id)
    requires t !in threads && CommitGuard(sh.db, org, txn).Some?
    ensures Reachable(e, System(sh, threads), At(threads, t, sh, Finished))
  {
    var s0 := System(sh, threads);
    if GetTxn(sh.db, org, txn).None? || TerminalTxn(sh.db.txns[txn].status) {
      assert CommitStep(sh, CommitStart(org, txn), sh, Finished);
      TurnedAway(e, threads, t, sh, CommitStart(org, txn));
    } else {
      var st := sh.db.txns[txn].status;
      Begins(e, threads, t, sh, CommitStart(org, txn));
      assert CommitStep(sh, CommitStart(org, txn), sh, CommitList(org, txn, st));
      Goes(e, s0, threads, t, sh, CommitStart(org, txn), sh, CommitList(org, txn, st));
      assert CommitStep(sh, CommitList(org, txn, st), sh, Finished);
      Goes(e, s0, threads, t, sh, CommitList(org, txn, st), sh, Finished);
    }
  }

  lemma CommitAlone(e: Env, threads: map<nat, Thread>, t: nat, w: World, org: Id, txn: Id) returns (sh': Shared)
    requires t !in threads
    ensures Reachable(e, System(Shared(w.db, w.calls), threads), At(threads, t, sh', Finished))
    ensures Shows(sh', w.(db := Commit(w.db, org, txn)))
  {
    sh' := Shared(w.db, w.calls);
    if CommitGuard(w.db, org, txn).None? {
      CommitPath(e, threads, t, sh', org, txn);
      sh' := sh'.(db := SetTxnStatus(w.db, org, txn, Committed));
    } else {
      CommitRefused(e, threads, t, sh', org, txn);
    }
  }

  // ----- compensating -----

  lemma AskedStep(e: Env, sh: Shared, org: Id, txn: Id, queue: seq<Action>, failed: bool, ok: bool)
    requires queue != [] && queue[0].status == Executed && !Skipped(queue[0])
    ensures ThreadStep(e, sh, Unwinding(org, txn, queue, failed), sh, Undone1(org, txn, queue[1..], failed || !ok, queue[0].id, ok))
  {
    assert UnwindStep(sh, Unwinding(org, txn, queue, failed), sh, Undone1(org, txn, queue[1..], failed || !ok, queue[0].id, ok));
  }

  lemma ReadStep(e: Env, sh: Shared, org: Id, txn: Id, rest: seq<Action>, failed: bool, a: Action, ok: bool)
    requires GetAction(sh.db, org, a.id) == Some(a)
    ensures ThreadStep(e, sh, Undone1(org, txn, rest, failed, a.id, ok), sh,
                       Undone2(org, txn, rest, failed, a.(status := if ok then Compensated else CompensationFailed)))
  {
    assert UnwindStep(sh, Undone1(org, txn, rest, failed, a.id, ok), sh,
                      Undone2(org, txn, rest, failed, a.(status := if ok then Compensated else CompensationFailed)));
  }

  lemma UndoneStep(e: Env, sh: Shared, org: Id, txn: Id, rest: seq<Action>, failed: bool, b: Action)
    requires b.id in sh.db.actions && KeyOf(b) in sh.db.byIdem && sh.db.byIdem[KeyOf(b)] == b.id
    ensures ThreadStep(e, sh, Undone2(org, txn, rest, failed, b), sh.(db := sh.db.(actions := sh.db.actions[b.id := b])),
                       Unwinding(org, txn, rest, failed))
  {
    assert sh.db.byIdem[KeyOf(b) := b.id] == sh.db.byIdem;
    assert UnwindStep(sh, Undone2(org, txn, rest, failed, b), sh.(db := UpdateAction(sh.db, b)), Unwinding(org, txn, rest, failed));
  }

  function Replaced(sh: Shared, b: Action): Shared {
    sh.(db := sh.db.(actions := sh.db.actions[b.id := b]))
  }

  lemma CompensatorPath(e: Env, s0: System, threads: map<nat, Thread>, t: nat, sh: Shared, org: Id, txn: Id, queue: seq<Action>, failed: bool, undo: Id -> bool)
    requires queue != [] && queue[0].status == Executed && !Skipped(queue[0]) && FaithfulSnapshot(sh.db, org, queue)
    requires Reachable(e, s0, At(threads, t, sh, Unwinding(org, txn, queue, failed)))
    ensures Reachable(e, s0, At(threads, t, Replaced(sh, AfterUndo(e, queue[0], undo)),
                                Unwinding(org, txn, queue[1..], failed || !Undone(e, queue[0], undo))))
  {
    var a, rest := queue[0], queue[1..];
    var ok := Undone(e, a, undo);
    var b := AfterUndo(e, a, undo);
    AskedStep(e, sh, org, txn, queue, failed, ok);
    Goes(e, s0, threads, t, sh, Unwinding(org, txn, queue, failed), sh, Undone1(org, txn, rest, failed || !ok, a.id, ok));
    ReadStep(e, sh, org, txn, rest, failed || !ok, a, ok);
    Goes(e, s0, threads, t, sh, Undone1(org, txn, rest, failed || !ok, a.id, ok), sh, Undone2(org, txn, rest, failed || !ok, b));
    assert KeyOf(b) == KeyOf(a);
    UndoneStep(e, sh, org, txn, rest, failed || !ok, b);
    Goes(e, s0, threads, t, sh, Undone2(org, txn, rest, failed || !ok, b), Replaced(sh, b), Unwinding(org, txn, rest, failed || !ok));
  }

  lemma PassStep(e: Env, sh: Shared, org: Id, txn: Id, queue: seq<Action>, failed: bool)
    requires queue != [] && (queue[0].status != Executed || Skipped(queue[0]))
    ensures ThreadStep(e, sh, Unwinding(org, txn, queue, failed), sh, Unwinding(org, txn, queue[1..], failed || queue[0].status == Executed))
  {
    assert UnwindStep(sh, Unwinding(org, txn, queue, failed), sh, Unwinding(org, txn, queue[1..], failed || queue[0].status == Executed));
  }

  lemma UndoPath(e: Env, s0: System, threads: map<nat, Thread>, t: nat, sh: Shared, org: Id, txn: Id, queue: seq<Action>, failed: bool, undo: Id -> bool)
    requires queue != [] && FaithfulSnapshot(sh.db, org, queue)
    requires Reachable(e, s0, At(threads, t, sh, Unwinding(org, txn, queue, failed)))
    ensures Reachable(e, s0, At(threads, t, Replaced(sh, AfterUndo(e, queue[0], undo)),
                                Unwinding(org, txn, queue[1..], failed || Missed(e, queue[0], undo))))
  {
    if queue[0].status != Executed || Skipped(queue[0]) {
      assert Replaced(sh, queue[0]) == sh;
      PassStep(e, sh, org, txn, queue, failed);
      Goes(e, s0, threads, t, sh, Unwinding(org, txn, queue, failed), sh, Unwinding(org, txn, queue[1..], failed || queue[0].status == Executed));
    } else {
      CompensatorPath(e, s0, threads, t, sh, org, txn, queue, failed, undo);
    }
  }

  lemma FaithfulRest(e: Env, db: Store, org: Id, queue: seq<Action>, b: Action)
    requires queue != [] && FaithfulSnapshot(db, org, queue) && b.id == queue[0].id
    ensures FaithfulSnapshot(db.(actions := db.actions[b.id := b]), org, queue[1..])
  {
  }

  lemma AfterHead(e: Env, actions: map<Id, Action>, queue: seq<Action>, undo: Id -> bool)
    requires queue != [] && queue[0].id in actions && actions[queue[0].id] == queue[0] && !Listed(queue[1..], queue[0].id)
    ensures AfterAll(e, actions[queue[0].id := AfterUndo(e, queue[0], undo)], queue[1..], undo) == AfterAll(e, actions, queue, undo)
  {
    forall id ensures Listed(queue, id) <==> id == queue[0].id || Listed(queue[1..], id) {
      if Listed(queue[1..], id) {
        var i :| 0 <= i < |queue[1..]| && queue[1..][i].id == id;
        assert queue[i + 1].id == id;
      }
      if Listed(queue, id) && id != queue[0].id {
        var i :| 0 <= i < |queue| && queue[i].id == id;
        assert queue[1..][i - 1].id == id;
      }
    }
  }

  lemma MissedHead(e: Env, queue: seq<Action>, undo: Id -> bool)
    requires queue != []
    ensures AnyMissed(e, queue, undo) <==> Missed(e, queue[0], undo) || AnyMissed(e, queue[1..], undo)
  {
    assert queue == [queue[0]] + queue[1..];
  }

  /** The loop, one store call at a time, leaves the actions and the flag the one-step loop leaves. */
  lemma {:induction false} UndoLoopPath(e: Env, s0: System, threads: map<nat, Thread>, t: nat, sh: Shared, org: Id, txn: Id,
                                        queue: seq<Action>, failed: bool, undo: Id -> bool)
    requires FaithfulSnapshot(sh.db, org, queue) && Reachable(e, s0, At(threads, t, sh, Unwinding(org, txn, queue, failed)))
    ensures Reachable(e, s0, At(threads, t, sh.(db := sh.db.(actions := AfterAll(e, sh.db.actions, queue, undo))),
                                Unwinding(org, txn, [], failed || AnyMissed(e, queue, undo))))
    decreases |queue|
  {
    if queue == [] {
      assert AfterAll(e, sh.db.actions, queue, undo) == sh.db.actions;
    } else {
      UndoPath(e, s0, threads, t, sh, org, txn, queue, failed, undo);
      FaithfulRest(e, sh.db, org, queue, AfterUndo(e, queue[0], undo));
      AfterHead(e, sh.db.actions, queue, undo);
      MissedHead(e, queue, undo);
      UndoLoopPath(e, s0, threads, t, Replaced(sh, AfterUndo(e, queue[0], undo)), org, txn, queue[1..], failed || Missed(e, queue[0], undo), undo);
    }
  }

  lemma QueuePath(e: Env, threads: map<nat, Thread>, t: nat, sh: Shared, org: Id, txn: Id, ids: seq<Id>)
    requires t !in threads && Lists(sh.db, org, txn, ids) && GetTxn(sh.db, org, txn).Some?
    ensures Reachable(e, System(sh, threads),
                      At(threads, t, sh.(db := SetTxnStatus(sh.db, org, txn, Compensating)), Unwinding(org, txn, Reversed(Snapshot(sh.db, ids)), false)))
  {
    var s0 := System(sh, threads);
    var queue := Reversed(Snapshot(sh.db, ids));
    var moved := sh.(db := SetTxnStatus(sh.db, org, txn, Compensating));
    Begins(e, threads, t, sh, UnwindStart(org, txn));
    assert UnwindStep(sh, UnwindStart(org, txn), sh, UnwindList(org, txn));
    Goes(e, s0, threads, t, sh, UnwindStart(org, txn), sh, UnwindList(org, txn));
    assert UnwindStep(sh, UnwindList(org, txn), sh, UnwindMark(org, txn, queue));
    Goes(e, s0, threads, t, sh, UnwindList(org, txn), sh, UnwindMark(org, txn, queue));
    assert UnwindStep(sh, UnwindMark(org, txn, queue), moved, Unwinding(org, txn, queue, false));
    Goes(e, s0, threads, t, sh, UnwindMark(org, txn, queue), moved, Unwinding(org, txn, queue, false));
  }

  /** What compensation leaves behind. */
  ghost function Unwound(e: Env, db: Store, org: Id, txn: Id, queue: seq<Action>, undo: Id -> bool): Store {
    var s := SetTxnStatus(db, org, txn, Compensating);
    SetTxnStatus(s.(actions := AfterAll(e, s.actions, queue, undo)), org, txn, if AnyMissed(e, queue, undo) then PartiallyCompensated else RolledBack)
  }

  lemma UnwindPath(e: Env, threads: map<nat, Thread>, t: nat, sh: Shared, org: Id, txn: Id, ids: seq<Id>, undo: Id -> bool)
    requires Findable(sh.db) && t !in threads && Lists(sh.db, org, txn, ids) && GetTxn(sh.db, org, txn).Some?
    ensures Reachable(e, System(sh, threads),
                      At(threads, t, sh.(db := Unwound(e, sh.db, org, txn, Reversed(Snapshot(sh.db, ids)), undo)), Finished))
  {
    var s0 := System(sh, threads);
    var queue := Reversed(Snapshot(sh.db, ids));
    var moved := sh.(db := SetTxnStatus(sh.db, org, txn, Compensating));
    QueuePath(e, threads, t, sh, org, txn, ids);
    ReversedSnapshot(sh.db, org, txn, ids);
    assert FaithfulSnapshot(moved.db, org, queue);
    UndoLoopPath(e, s0, threads, t, moved, org, txn, queue, false, undo);
    var undone := moved.(db := moved.db.(actions := AfterAll(e, moved.db.actions, queue, undo)));
    var last := Unwinding(org, txn, [], AnyMissed(e, queue, undo));
    var done := sh.(db := Unwound(e, sh.db, org, txn, queue, undo));
    assert UnwindStep(undone, last, done, Finished);
    Goes(e, s0, threads, t, undone, last, done, Finished);
  }

  lemma UnwoundStore(e: Env, db: Store, org: Id, txn: Id, queue: seq<Action>, undo: Id -> bool)
    requires GetTxn(db, org, txn).Some?
    ensures Unwound(e, db, org, txn, queue, undo)
            == db.(actions := AfterAll(e, db.actions, queue, undo),
                   txns := WithStatus(db.txns, txn, if AnyMissed(e, queue, undo) then PartiallyCompensated else RolledBack))
  {
    var final := if AnyMissed(e, queue, undo) then PartiallyCompensated else RolledBack;
    assert WithStatus(WithStatus(db.txns, txn, Compensating), txn, final) == WithStatus(db.txns, txn, final);
  }

  lemma CompensateRecords(e: Env, w: World, org: Id, txn: Id, ids: seq<Id>, undo: Id -> bool)
    requires Findable(w.db) && Lists(w.db, org, txn, ids) && GetTxn(w.db, org, txn).Some?
    ensures Shows(Shared(Unwound(e, w.db, org, txn, Reversed(Snapshot(w.db, ids)), undo), w.calls), Compensate(e, w, org, txn, ids, undo).0)
  {
    var queue := Reversed(Snapshot(w.db, ids));
    UnwoundStore(e, w.db, org, txn, queue, undo);
    ReversedSnapshot(w.db, org, txn, ids);
    CompensateShape(e, w, org, txn, ids, undo);
    assert AfterAll(e, w.db.actions, queue, undo) == AfterListed(e, w.db.actions, ids, undo);
  }

  lemma CompensateAlone(e: Env, threads: map<nat, Thread>, t: nat, w: World, org: Id, txn: Id, ids: seq<Id>, undo: Id -> bool) returns (sh': Shared)
    requires Findable(w.db) && t !in threads && Lists(w.db, org, txn, ids)
    ensures Reachable(e, System(Shared(w.db, w.calls), threads), At(threads, t, sh', Finished))
    ensures Shows(sh', Compensate(e, w, org, txn, ids, undo).0)
  {
    sh' := Shared(w.db, w.calls);
    if GetTxn(w.db, org, txn).None? {
      assert UnwindStep(sh', UnwindStart(org, txn), sh', Finished);
      TurnedAway(e, threads, t, sh', UnwindStart(org, txn));
    } else {
      UnwindPath(e, threads, t, sh', org, txn, ids, undo);
      CompensateRecords(e, w, org, txn, ids, undo);
      sh' := sh'.(db := Unwound(e, w.db, org, txn, Reversed(Snapshot(w.db, ids)), undo));
    }
  }

  // ----- whole runs -----

  /** Setting up a tenant, agent, policy, grant or transaction is something the surroundings may do. */
  lemma SetupSurrounds(e: Env, w: World, step: Step)
    requires Sound(w.db) && Admissible(e, w, step) && IsSetup(step)
    ensures Surrounds(w.db, Next(e, w, step).db) && Next(e, w, step).calls == w.calls
  {
    if step.OpenTxn? {
      OpeningSurrounds(e, w, step.txn);
    }
  }

  lemma OpeningSurrounds(e: Env, w: World, t: Txn)
    requires Keyed(w.db) && Admissible(e, w, OpenTxn(t))
    ensures Surrounds(w.db, CreateTxn(w.db, t))
  {
    assert t.org in w.db.orgs;
  }

  lemma CallAlone(e: Env, threads: map<nat, Thread>, t: nat, w: World, step: Step) returns (sh': Shared)
    requires Sound(w.db) && Admissible(e, w, step) && !IsSetup(step) && t !in threads
    ensures Reachable(e, System(Shared(w.db, w.calls), threads), At(threads, t, sh', Finished))
    ensures Shows(sh', Next(e, w, step))
  {
    match step
    case ProposeCall(q, d) => sh' := ProposeAlone(e, threads, t, w, q, d);
    case DecideCall(org, id, approve) => sh' := DecideAlone(e, threads, t, w, org, id, approve);
    case ExecuteCall(org, id, answer, slip) => sh' := ExecuteAlone(e, threads, t, w, org, id, answer, slip);
    case RunApprovedCall(org, id, answer, slip) => sh' := RunApprovedAlone(e, threads, t, w, org, id, answer, slip);
    case CommitCall(org, id) => sh' := CommitAlone(e, threads, t, w, org, id);
    case ReconcileCall(org, id, finding, slip) => sh' := ReconcileAlone(e, threads, t, w, org, id, finding, slip);
    case CompensateCall(org, id, ids, undo) => sh' := CompensateAlone(e, threads, t, w, org, id, ids, undo);
  }

  /** One serialised step: a call is made by a request of its own, anything else by the surroundings. */
  lemma StepAlone(e: Env, threads: map<nat, Thread>, t: nat, w: World, step: Step) returns (s': System)
    requires Sound(w.db) && Admissible(e, w, step) && t !in threads
    ensures Reachable(e, System(Shared(w.db, w.calls), threads), s') && Shows(s'.shared, Next(e, w, step))
    ensures s'.threads == if IsSetup(step) then threads else threads[t := Finished]
  {
    if IsSetup(step) {
      SetupSurrounds(e, w, step);
      s' := System(Shared(Next(e, w, step).db, w.calls), threads);
      OneStep(e, System(Shared(w.db, w.calls), threads), s', Ambient);
    } else {
      var sh' := CallAlone(e, threads, t, w, step);
      s' := At(threads, t, sh', Finished);
    }
  }

  lemma StaysPut(e: Env, s: System)
    ensures Reachable(e, s, s)
  {
    var ss, ls: seq<Label> := [s], [];
    assert IsPath(e, ss, ls);
  }

  /** Every serialised run is one of the interleavings: some trace of the interleaved machine ends
      with the same store, up to the audit log, and the same tool calls. */
  lemma {:induction false} RunsAreTraces(e: Env, ws: seq<World>, steps: seq<Step>, n: nat) returns (s0: System, s: System)
    requires IsRun(e, ws, steps) && n < |ws|
    ensures Start(s0) && Reachable(e, s0, s) && Shows(s.shared, ws[n])
    ensures forall t :: t in s.threads ==> t < n && s.threads[t] == Finished
  {
    if n == 0 {
      s0 := System(Shared(ws[0].db, ws[0].calls), map[]);
      s := s0;
      StaysPut(e, s);
    } else {
      s0, s := RunsAreTraces(e, ws, steps, n - 1);
      RunsAreSound(e, ws, steps, n - 1);
      var w := ws[n - 1];
      Drifts(e, s0, s, w);
      var next := StepAlone(e, s.threads, n - 1, w, steps[n - 1]);
      Onward(e, s0, System(Shared(w.db, w.calls), s.threads), next);
      s := next;
    }
  }
}
