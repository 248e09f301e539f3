/** Authorisation safety of the interleaved engine: every state of every trace keeps statuses,
    decisions and approvals in agreement, so every tool call is for an authorised action. */
module Safety {
  import opened Domain
  import opened StoreSpec
  import opened GatewaySpec
  import opened Protocol
  import opened Interleaved

  // ----- paths -----

  lemma OneStep(e: Env, s: System, s': System, l: Label)
    requires SystemStep(e, s, s', l)
    ensures Reachable(e, s, s')
  {
    var ss, ls := [s, s'], [l];
    assert IsPath(e, ss, ls);
  }

  lemma PathsJoin(e: Env, xs: seq<System>, ks: seq<Label>, ys: seq<System>, ls: seq<Label>)
    requires IsPath(e, xs, ks) && IsPath(e, ys, ls) && xs[|ks|] == ys[0]
    ensures IsPath(e, xs[..|ks|] + ys, ks + ls)
  {
    var ss := xs[..|ks|] + ys;
    forall i | 0 <= i < |ks + ls| ensures SystemStep(e, ss[i], ss[i + 1], (ks + ls)[i]) {
      if i < |ks| {
        assert ss[i] == xs[i] && ss[i + 1] == xs[i + 1];
      } else {
        assert ss[i] == ys[i - |ks|] && ss[i + 1] == ys[i - |ks| + 1];
      }
    }
  }

  lemma Onward(e: Env, s: System, mid: System, s': System)
    requires Reachable(e, s, mid) && Reachable(e, mid, s')
    ensures Reachable(e, s, s')
  {
    var xs, ks :| IsPath(e, xs, ks) && xs[0] == s && xs[|ks|] == mid;
    var ys, ls :| IsPath(e, ys, ls) && ys[0] == mid && ys[|ls|] == s';
    PathsJoin(e, xs, ks, ys, ls);
    assert (xs[..|ks|] + ys)[|ks + ls|] == ys[|ls|];
  }

  // ----- every write keeps the records and what other requests rely on -----

  lemma WriteKeeps(db: Store, db': Store, w: Write)
    requires Wrote(db, db', w)
    ensures Kept(db, db')
  {
  }

  lemma GrantedStays(db: Store, db': Store, w: Write)
    requires Wrote(db, db', w)
    ensures forall k :: k in db.approvals && db.approvals[k].status == Granted ==> k in db'.approvals && db'.approvals[k] == db.approvals[k]
    ensures forall id :: GrantedFor(db, id) ==> GrantedFor(db', id)
  {
  }

  lemma ActionsStaySafe(db: Store, db': Store, w: Write, id: Id)
    requires RecordsSafe(db) && Wrote(db, db', w) && id in db'.actions
    ensures ActionSafe(db', id)
  {
    GrantedStays(db, db', w);
    assert id in db.actions ==> ActionSafe(db, id);
  }

  lemma ApprovalsStaySafe(db: Store, db': Store, w: Write, k: Id)
    requires RecordsSafe(db) && Wrote(db, db', w) && k in db'.approvals
    ensures ApprovalSafe(db', k)
  {
    assert k in db.approvals ==> ApprovalSafe(db, k);
    if w.Put? && db'.approvals[k].action == w.b.id && !Released(db, w.b.id) {
      var j :| j in db.approvals && db.approvals[j].action == w.b.id && db.approvals[j].status == Granted;
      assert j == k;
    }
  }

  lemma RecordsStaySafe(db: Store, db': Store, w: Write)
    requires RecordsSafe(db) && Wrote(db, db', w)
    ensures RecordsSafe(db')
  {
    forall id | id in db'.actions ensures ActionSafe(db', id) { ActionsStaySafe(db, db', w, id); }
    forall k | k in db'.approvals ensures ApprovalSafe(db', k) { ApprovalsStaySafe(db, db', w, k); }
  }

  lemma OwnerUndisturbed(db: Store, db': Store, w: Write, id: Id)
    requires Wrote(db, db', w) && WriteOwner(w) != Some(id)
    requires Undecided(db, id)
    ensures Undecided(db', id) && db'.actions[id] == db.actions[id]
  {
  }

  lemma MarkedUndisturbed(db: Store, db': Store, w: Write, id: Id, d: Decision)
    requires RecordsSafe(db) && Wrote(db, db', w) && WriteOwner(w) != Some(id)
    requires Marked(db, id, d)
    ensures Marked(db', id, d)
  {
    WriteKeeps(db, db', w);
  }

  lemma OwnersUndisturbed(db: Store, db': Store, w: Write, th: Thread)
    requires RecordsSafe(db) && Wrote(db, db', w)
    requires Owned(th).Some? && WriteOwner(w) != Owned(th)
    requires ThreadSafe(db, th)
    ensures ThreadSafe(db', th)
  {
    if th.Saving? || th.Asking? {
      MarkedUndisturbed(db, db', w, th.id, th.d);
    } else {
      OwnerUndisturbed(db, db', w, th.id);
    }
  }

  lemma HeldUndisturbed(db: Store, db': Store, th: Thread)
    requires Kept(db, db') && forall p :: OnRecord(db, p) ==> OnRecord(db', p)
    requires Owned(th).None? && ThreadSafe(db, th)
    ensures ThreadSafe(db', th)
  {
  }

  /** A write by another request leaves what this request relies on intact. */
  lemma OthersUndisturbed(db: Store, db': Store, w: Write, th: Thread)
    requires RecordsSafe(db) && Wrote(db, db', w)
    requires Owned(th).Some? ==> WriteOwner(w) != Owned(th)
    requires ThreadSafe(db, th)
    ensures ThreadSafe(db', th)
  {
    if Owned(th).Some? {
      OwnersUndisturbed(db, db', w, th);
    } else {
      WriteKeeps(db, db', w);
      GrantedStays(db, db', w);
      HeldUndisturbed(db, db', th);
    }
  }

  // ----- each request's own step -----

  lemma AddingWrites(e: Env, s: Shared, th: Thread, s': Shared, th': Thread) returns (w: Write)
    requires RecordsSafe(s.db) && th.Adding? && ProposeStep(e, s, th, s', th')
    ensures Lawful(s, th, s', th', w)
  {
    w := if th'.Deciding? then Add(s'.db.actions[th'.id]) else Nowhere;
  }

  lemma AskingWrites(e: Env, s: Shared, th: Thread, s': Shared, th': Thread) returns (w: Write)
    requires ThreadSafe(s.db, th) && th.Asking? && ProposeStep(e, s, th, s', th')
    ensures Lawful(s, th, s', th', w)
  {
    var k :| k !in s.db.approvals && s' == s.(db := CreateApproval(s.db, Wanted(s.db, th.bid, th.id), k));
    w := Ask(s'.db.approvals[k]);
  }

  lemma DecidingWrites(e: Env, s: Shared, th: Thread, s': Shared, th': Thread) returns (w: Write)
    requires ThreadSafe(s.db, th) && (th.Deciding? || th.Screening?) && ProposeStep(e, s, th, s', th')
    ensures Lawful(s, th, s', th', w)
  {
    w := Decide(th.id, th'.d);
  }

  lemma MarkingWrites(e: Env, s: Shared, th: Thread, s': Shared, th': Thread) returns (w: Write)
    requires ThreadSafe(s.db, th) && th.Marking? && ProposeStep(e, s, th, s', th')
    ensures Lawful(s, th, s', th', w)
  {
    w := Mark(th.id, StatusFor(th.d.effect));
  }

  lemma LookupWrites(e: Env, s: Shared, th: Thread, s': Shared, th': Thread) returns (w: Write)
    requires RecordsSafe(s.db) && ThreadSafe(s.db, th) && ProposeStep(e, s, th, s', th')
    requires th.ProposeStart? || th.ProposeAgent? || th.Saving? || th.Moving?
    ensures Lawful(s, th, s', th', w)
  {
    assert th.Saving? ==> ActionSafe(s.db, th.id);
    w := Nowhere;
  }

  lemma ProposeWrites(e: Env, s: Shared, th: Thread, s': Shared, th': Thread) returns (w: Write)
    requires RecordsSafe(s.db) && ThreadSafe(s.db, th) && ProposeStep(e, s, th, s', th')
    ensures Lawful(s, th, s', th', w)
  {
    if th.Adding? {
      w := AddingWrites(e, s, th, s', th');
    } else if th.Asking? {
      w := AskingWrites(e, s, th, s', th');
    } else if th.Deciding? || th.Screening? {
      w := DecidingWrites(e, s, th, s', th');
    } else if th.Marking? {
      w := MarkingWrites(e, s, th, s', th');
    } else {
      w := LookupWrites(e, s, th, s', th');
    }
  }

  lemma RulingWrites(s: Shared, th: Thread, s': Shared, th': Thread) returns (w: Write)
    requires RecordsSafe(s.db) && th.RuleStart? && RuleStep(s, th, s', th')
    ensures Lawful(s, th, s', th', w)
  {
    assert th.approval in s.db.approvals ==> ApprovalSafe(s.db, th.approval);
    w := if Decidable(s.db, th.org, th.approval).Some? then Write.Settle(s'.db.approvals[th.approval]) else Nowhere;
  }

  lemma ApprovingWrites(s: Shared, th: Thread, s': Shared, th': Thread) returns (w: Write)
    requires RecordsSafe(s.db) && ThreadSafe(s.db, th) && th.Granted2? && RuleStep(s, th, s', th')
    ensures Lawful(s, th, s', th', w)
  {
    assert ApprovalSafe(s.db, th.p.id);
    w := Put(th.a.(status := Approved));
  }

  lemma ReadingWrites(s: Shared, th: Thread, s': Shared, th': Thread) returns (w: Write)
    requires RecordsSafe(s.db) && ThreadSafe(s.db, th) && (th.Granted1? || th.Resuming?) && RuleStep(s, th, s', th')
    ensures Lawful(s, th, s', th', w)
  {
    assert th.Granted1? ==> ApprovalSafe(s.db, th.p.id) && ActionSafe(s.db, th.p.action);
    w := Nowhere;
  }

  lemma RuleWrites(s: Shared, th: Thread, s': Shared, th': Thread) returns (w: Write)
    requires RecordsSafe(s.db) && ThreadSafe(s.db, th) && RuleStep(s, th, s', th')
    ensures Lawful(s, th, s', th', w)
  {
    if th.RuleStart? {
      w := RulingWrites(s, th, s', th');
    } else if th.Granted2? {
      w := ApprovingWrites(s, th, s', th');
    } else {
      w := ReadingWrites(s, th, s', th');
    }
  }

  lemma GuardWrites(e: Env, s: Shared, th: Thread, s': Shared, th': Thread) returns (w: Write)
    requires RecordsSafe(s.db) && (th.RunStart? || th.Attesting? || th.Signing?) && RunStep(e, s, th, s', th')
    ensures Lawful(s, th, s', th', w)
  {
    assert th.RunStart? && th.id in s.db.actions ==> ActionSafe(s.db, th.id);
    w := Nowhere;
  }

  lemma AnswerWrites(e: Env, s: Shared, th: Thread, s': Shared, th': Thread) returns (w: Write)
    requires ThreadSafe(s.db, th) && (th.Calling? || th.Writing?) && RunStep(e, s, th, s', th')
    ensures Lawful(s, th, s', th', w)
  {
    w := if th.Writing? then Put(th.b) else Nowhere;
  }

  lemma RunWrites(e: Env, s: Shared, th: Thread, s': Shared, th': Thread) returns (w: Write)
    requires RecordsSafe(s.db) && ThreadSafe(s.db, th) && RunStep(e, s, th, s', th')
    ensures Lawful(s, th, s', th', w)
  {
    if th.RunStart? || th.Attesting? || th.Signing? {
      w := GuardWrites(e, s, th, s', th');
    } else if th.Calling? || th.Writing? {
      w := AnswerWrites(e, s, th, s', th');
    } else {
      w := Nowhere;
    }
  }

  lemma ProbeWrites(s: Shared, th: Thread, s': Shared, th': Thread) returns (w: Write)
    requires RecordsSafe(s.db) && ThreadSafe(s.db, th) && ProbeStep(s, th, s', th')
    ensures Lawful(s, th, s', th', w)
  {
    w := if th.Settling? then Put(th.b) else Nowhere;
  }

  lemma SnapshotSafe(db: Store, org: Id, txn: Id, ids: seq<Id>)
    requires RecordsSafe(db) && Lists(db, org, txn, ids)
    ensures QueueSafe(db, Reversed(Snapshot(db, ids)))
  {
    var taken := Snapshot(db, ids);
    forall i | 0 <= i < |taken| ensures taken[i].status == Executed ==> Released(db, taken[i].id) {
      assert ids[i] in db.actions && ActionSafe(db, ids[i]);
    }
  }

  lemma UnwindLists(s: Shared, th: Thread, s': Shared, th': Thread)
    requires RecordsSafe(s.db) && th.UnwindList? && UnwindStep(s, th, s', th')
    ensures th'.UnwindMark? && QueueSafe(s.db, th'.queue)
  {
    var ids :| Lists(s.db, th.org, th.txn, ids) && th' == UnwindMark(th.org, th.txn, Reversed(Snapshot(s.db, ids)));
    SnapshotSafe(s.db, th.org, th.txn, ids);
  }

  lemma UndoneWrites(s: Shared, th: Thread, s': Shared, th': Thread) returns (w: Write)
    requires RecordsSafe(s.db) && ThreadSafe(s.db, th) && (th.Undone1? || th.Undone2?) && UnwindStep(s, th, s', th')
    ensures Lawful(s, th, s', th', w)
  {
    assert th.Undone1? ==> ActionSafe(s.db, th.id);
    w := if th.Undone2? then Put(th.b) else Nowhere;
    if th.Undone2? {
      WriteKeeps(s.db, s'.db, w);
    }
  }

  lemma UnwindWrites(s: Shared, th: Thread, s': Shared, th': Thread) returns (w: Write)
    requires RecordsSafe(s.db) && ThreadSafe(s.db, th) && UnwindStep(s, th, s', th')
    ensures Lawful(s, th, s', th', w)
  {
    if th.Undone1? || th.Undone2? {
      w := UndoneWrites(s, th, s', th');
    } else {
      w := Nowhere;
      if th.UnwindList? {
        UnwindLists(s, th, s', th');
      }
    }
  }

  lemma CommitWrites(s: Shared, th: Thread, s': Shared, th': Thread) returns (w: Write)
    requires CommitStep(s, th, s', th')
    ensures Lawful(s, th, s', th', w)
  {
    w := Nowhere;
  }

  lemma LaterWrites(e: Env, s: Shared, th: Thread, s': Shared, th': Thread) returns (w: Write)
    requires RecordsSafe(s.db) && ThreadSafe(s.db, th)
    requires ProbeStep(s, th, s', th') || UnwindStep(s, th, s', th') || CommitStep(s, th, s', th')
    ensures Lawful(s, th, s', th', w)
  {
    if ProbeStep(s, th, s', th') {
      w := ProbeWrites(s, th, s', th');
    } else if UnwindStep(s, th, s', th') {
      w := UnwindWrites(s, th, s', th');
    } else {
      w := CommitWrites(s, th, s', th');
    }
  }

  lemma AddingProposes(e: Env, s: Shared, th: Thread, s': Shared, th': Thread)
    requires ThreadStep(e, s, th, s', th') && th.Adding?
    ensures ProposeStep(e, s, th, s', th')
  {
  }

  lemma StepWrites(e: Env, s: Shared, th: Thread, s': Shared, th': Thread) returns (w: Write)
    requires RecordsSafe(s.db) && ThreadSafe(s.db, th) && ThreadStep(e, s, th, s', th')
    ensures Lawful(s, th, s', th', w)
  {
    if ProposeStep(e, s, th, s', th') {
      w := ProposeWrites(e, s, th, s', th');
    } else if RuleStep(s, th, s', th') {
      w := RuleWrites(s, th, s', th');
    } else if RunStep(e, s, th, s', th') {
      w := RunWrites(e, s, th, s', th');
    } else {
      w := LaterWrites(e, s, th, s', th');
    }
  }

  lemma OwnedExists(db: Store, th: Thread)
    requires ThreadSafe(db, th) && Owned(th).Some?
    ensures Owned(th).value in db.actions
  {
  }

  lemma ThreadsStaySafe(e: Env, s: System, s': System, t: nat, w: Write)
    requires Safe(s) && SystemStep(e, s, s', Move(t))
    requires Wrote(s.shared.db, s'.shared.db, w) && ThreadSafe(s'.shared.db, s'.threads[t])
    requires WriteOwner(w).Some? ==> WriteOwner(w) == Owned(s.threads[t])
    ensures ThreadsSafe(s'.shared.db, s'.threads)
  {
    forall u | u in s'.threads && u != t ensures ThreadSafe(s'.shared.db, s'.threads[u]) {
      OthersUndisturbed(s.shared.db, s'.shared.db, w, s.threads[u]);
    }
  }

  lemma OwnersStayDistinct(e: Env, s: System, s': System, t: nat)
    requires Safe(s) && SystemStep(e, s, s', Move(t))
    requires var o := Owned(s'.threads[t]); o.Some? ==> o == Owned(s.threads[t]) || o.value !in s.shared.db.actions
    ensures OwnersDistinct(s'.threads)
  {
    forall u | u in s.threads && Owned(s.threads[u]).Some? ensures Owned(s.threads[u]).value in s.shared.db.actions {
      OwnedExists(s.shared.db, s.threads[u]);
    }
  }

  lemma MoveKeepsSafe(e: Env, s: System, s': System, t: nat)
    requires Safe(s) && SystemStep(e, s, s', Move(t))
    ensures Safe(s')
  {
    var w := StepWrites(e, s.shared, s.threads[t], s'.shared, s'.threads[t]);
    RecordsStaySafe(s.shared.db, s'.shared.db, w);
    ThreadsStaySafe(e, s, s', t, w);
    OwnersStayDistinct(e, s, s', t);
    WriteKeeps(s.shared.db, s'.shared.db, w);
  }

  lemma ArrivalKeepsSafe(e: Env, s: System, s': System, t: nat)
    requires Safe(s) && SystemStep(e, s, s', Arrive(t))
    ensures Safe(s')
  {
  }

  lemma AmbientKeepsSafe(e: Env, s: System, s': System)
    requires Safe(s) && SystemStep(e, s, s', Ambient)
    ensures Safe(s')
  {
    RecordsStaySafe(s.shared.db, s'.shared.db, Nowhere);
    forall t | t in s.threads ensures ThreadSafe(s'.shared.db, s.threads[t]) {
      OthersUndisturbed(s.shared.db, s'.shared.db, Nowhere, s.threads[t]);
    }
  }

  /** Every state of every interleaving is safe. */
  lemma {:induction false} TracesAreSafe(e: Env, ss: seq<System>, ls: seq<Label>, i: nat)
    requires IsTrace(e, ss, ls) && i < |ss|
    ensures Safe(ss[i])
  {
    if i > 0 {
      TracesAreSafe(e, ss, ls, i - 1);
      assert SystemStep(e, ss[i - 1], ss[i], ls[i - 1]);
      match ls[i - 1]
      case Arrive(t) => ArrivalKeepsSafe(e, ss[i - 1], ss[i], t);
      case Move(t) => MoveKeepsSafe(e, ss[i - 1], ss[i], t);
      case Ambient => AmbientKeepsSafe(e, ss[i - 1], ss[i]);
    }
  }

  lemma ReleasedIsAuthorised(db: Store, id: Id)
    requires RecordsSafe(db) && Released(db, id)
    ensures Authorised(db, id)
  {
    assert ActionSafe(db, id);
    forall k | k in db.approvals && db.approvals[k].action == id ensures db.approvals[k].status == Granted {
      assert ApprovalSafe(db, k);
    }
  }

  /** A step that reaches a tool is a request holding an authorised action, and the tool is
      handed that action's recorded terms. */
  lemma EveryCallIsAuthorised(e: Env, ss: seq<System>, ls: seq<Label>, i: nat) returns (t: nat)
    requires IsTrace(e, ss, ls) && i < |ls| && ss[i + 1].shared.calls != ss[i].shared.calls
    ensures ls[i] == Move(t) && ss[i].threads[t].Calling?
    ensures var a := ss[i].threads[t].a;
            && ss[i + 1].shared.calls == ss[i].shared.calls + [a.id]
            && Authorised(ss[i].shared.db, a.id) && SameDeed(ss[i].shared.db.actions[a.id], a)
  {
    TracesAreSafe(e, ss, ls, i);
    assert SystemStep(e, ss[i], ss[i + 1], ls[i]);
    t := ls[i].t;
    var w := StepWrites(e, ss[i].shared, ss[i].threads[t], ss[i + 1].shared, ss[i + 1].threads[t]);
    ReleasedIsAuthorised(ss[i].shared.db, ss[i].threads[t].a.id);
  }

  /** Whatever a tool was ever called for is, and stays, authorised: never denied, never waiting,
      never with a pending or refused approval. */
  lemma CalledStaysAuthorised(e: Env, ss: seq<System>, ls: seq<Label>, i: nat, id: Id)
    requires IsTrace(e, ss, ls) && i < |ss| && id in ss[i].shared.calls
    ensures Authorised(ss[i].shared.db, id)
  {
    TracesAreSafe(e, ss, ls, i);
    ReleasedIsAuthorised(ss[i].shared.db, id);
  }
}
