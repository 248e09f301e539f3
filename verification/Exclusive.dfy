/** How often a tool is called for one action when requests interleave: at most once while no two
    requests are past the execution guard for it at the same time, and possibly twice as soon as
    two are. */
module Exclusive {
  import opened Domain
  import opened StoreSpec
  import opened GatewaySpec
  import opened Protocol
  import opened Interleaved
  import opened Safety

  predicate IsAttempted(st: ActionStatus) {
    st == Executed || st == Errored || st == Unknown || st == Compensated || st == CompensationFailed
  }

  predicate Attempted(db: Store, id: Id) {
    id in db.actions && IsAttempted(db.actions[id].status)
  }

  predicate Runnable(db: Store, id: Id) {
    id in db.actions && (db.actions[id].status == Allowed || db.actions[id].status == Approved)
  }

  predicate Waiting(db: Store, id: Id) {
    id in db.actions && db.actions[id].status == AwaitingDecision
  }

  /** The action a request is past the guard for, and has not yet written back. */
  function Running(th: Thread): Option<Id> {
    match th
    case Ready(a) => Some(a.id)
    case Starting(a) => Some(a.id)
    case Calling(a) => Some(a.id)
    case Writing(b) => Some(b.id)
    case _ => None
  }

  ghost predicate NoOverlap(threads: map<nat, Thread>) {
    forall t, u :: t in threads && u in threads && t != u && Running(threads[t]).Some? ==> Running(threads[t]) != Running(threads[u])
  }

  predicate QueueAttempted(db: Store, queue: seq<Action>) {
    forall i :: 0 <= i < |queue| && queue[i].status == Executed ==> Attempted(db, queue[i].id)
  }

  predicate ThreadOnce(s: Shared, th: Thread) {
    match th
    case Granted1(_, p) => Waiting(s.db, p.action)
    case Granted2(_, p, a) => Waiting(s.db, p.action) && a.id == p.action
    case Ready(a) => Runnable(s.db, a.id) && a.id !in s.calls
    case Starting(a) => Runnable(s.db, a.id) && a.id !in s.calls
    case Calling(a) => Runnable(s.db, a.id) && a.id !in s.calls
    case Writing(b) => IsAttempted(b.status)
    case Probing(a) => Attempted(s.db, a.id)
    case Settling(b) => Attempted(s.db, b.id) && IsAttempted(b.status)
    case UnwindMark(_, _, queue) => QueueAttempted(s.db, queue)
    case Unwinding(_, _, queue, _) => QueueAttempted(s.db, queue)
    case Undone1(_, _, queue, _, id, _) => QueueAttempted(s.db, queue) && Attempted(s.db, id)
    case Undone2(_, _, queue, _, b) => QueueAttempted(s.db, queue) && Attempted(s.db, b.id) && IsAttempted(b.status)
    case _ => true
  }

  /** The granted approval a request is carrying out. */
  function Carrying(th: Thread): Option<Id> {
    match th
    case Granted1(_, p) => Some(p.id)
    case Granted2(_, p, _) => Some(p.id)
    case _ => None
  }

  ghost predicate CarriersDistinct(threads: map<nat, Thread>) {
    forall t, u :: t in threads && u in threads && t != u && Carrying(threads[t]).Some? ==> Carrying(threads[t]) != Carrying(threads[u])
  }

  ghost predicate BeingWritten(threads: map<nat, Thread>, id: Id) {
    exists t :: t in threads && threads[t].Writing? && threads[t].b.id == id
  }

  ghost predicate CallsOnce(s: System) {
    && Distinct(s.shared.calls)
    && forall id :: id in s.shared.calls ==> Attempted(s.shared.db, id) || BeingWritten(s.threads, id)
  }

  predicate ThreadsOnce(s: Shared, threads: map<nat, Thread>) {
    forall t :: t in threads ==> ThreadOnce(s, threads[t])
  }

  ghost predicate Once(s: System) {
    && ThreadsOnce(s.shared, s.threads)
    && CarriersDistinct(s.threads)
    && CallsOnce(s)
  }

  // ----- one step -----

  /** Stores follow the status order: an attempt is recorded over anything, an approval only
      over a waiting action. */
  lemma StoresInOrder(s: Shared, th: Thread, b: Action)
    requires Storing(th) == Some(b) && ThreadOnce(s, th)
    ensures IsAttempted(b.status) || Waiting(s.db, b.id)
  {
  }

  lemma AttemptedKept(db: Store, db': Store, w: Write, id: Id)
    requires Wrote(db, db', w) && (w.Put? ==> IsAttempted(w.b.status) || Waiting(db, w.b.id))
    requires Attempted(db, id)
    ensures Attempted(db', id)
  {
  }

  lemma StatusUntouched(db: Store, db': Store, w: Write, id: Id)
    requires Wrote(db, db', w) && (w.Put? ==> w.b.id != id) && Settled(db, id)
    ensures Settled(db', id) && db'.actions[id].status == db.actions[id].status
  {
  }

  /** A store to an action another request is running can only come from a request running it too. */
  lemma RunnerUntouched(db: Store, calls: seq<Id>, th: Thread, b: Action, id: Id)
    requires ThreadSafe(db, th) && ThreadOnce(Shared(db, calls), th) && Storing(th) == Some(b)
    requires Runnable(db, id) && Running(th) != Some(id)
    ensures id != b.id
  {
  }

  /** A store to an action whose granted approval another request is carrying out can only come
      from a request carrying out the same approval. */
  lemma CarrierUntouched(db: Store, calls: seq<Id>, th: Thread, b: Action, p: Approval)
    requires OneEach(db) && ThreadSafe(db, th) && ThreadOnce(Shared(db, calls), th) && Storing(th) == Some(b)
    requires OnRecord(db, p) && Waiting(db, p.action) && Carrying(th) != Some(p.id)
    ensures p.action != b.id
  {
  }

  lemma WaitingKept(s: Shared, s': Shared, th: Thread, th': Thread, w: Write, p: Approval)
    requires OneEach(s.db) && ThreadSafe(s.db, th) && ThreadOnce(s, th) && Lawful(s, th, s', th', w)
    requires OnRecord(s.db, p) && Waiting(s.db, p.action) && Carrying(th) != Some(p.id)
    ensures Waiting(s'.db, p.action)
  {
    if w.Put? {
      CarrierUntouched(s.db, s.calls, th, w.b, p);
    }
    StatusUntouched(s.db, s'.db, w, p.action);
  }

  lemma RunnableKept(s: Shared, s': Shared, th: Thread, th': Thread, w: Write, id: Id)
    requires ThreadSafe(s.db, th) && ThreadOnce(s, th) && Lawful(s, th, s', th', w)
    requires Runnable(s.db, id) && id !in s.calls && Running(th) != Some(id)
    ensures Runnable(s'.db, id) && id !in s'.calls
  {
    if w.Put? {
      RunnerUntouched(s.db, s.calls, th, w.b, id);
    }
    StatusUntouched(s.db, s'.db, w, id);
  }

  lemma AttemptsKept(s: Shared, s': Shared, th: Thread, th': Thread, w: Write)
    requires ThreadOnce(s, th) && Lawful(s, th, s', th', w)
    ensures forall id :: Attempted(s.db, id) ==> Attempted(s'.db, id)
  {
    if w.Put? {
      StoresInOrder(s, th, w.b);
    }
    forall id | Attempted(s.db, id) ensures Attempted(s'.db, id) { AttemptedKept(s.db, s'.db, w, id); }
  }

  /** What a step of `th` leaves alone. */
  ghost predicate Stable(s: Shared, s': Shared, th: Thread) {
    && (forall id :: Attempted(s.db, id) ==> Attempted(s'.db, id))
    && (forall id :: Runnable(s.db, id) && id !in s.calls && Running(th) != Some(id) ==> Runnable(s'.db, id) && id !in s'.calls)
    && (forall p :: OnRecord(s.db, p) && Waiting(s.db, p.action) && Carrying(th) != Some(p.id) ==> Waiting(s'.db, p.action))
  }

  lemma StepStable(s: Shared, s': Shared, th: Thread, th': Thread, w: Write)
    requires OneEach(s.db) && ThreadSafe(s.db, th) && ThreadOnce(s, th) && Lawful(s, th, s', th', w)
    ensures Stable(s, s', th)
  {
    AttemptsKept(s, s', th, th', w);
    forall id | Runnable(s.db, id) && id !in s.calls && Running(th) != Some(id) ensures Runnable(s'.db, id) && id !in s'.calls {
      RunnableKept(s, s', th, th', w, id);
    }
    forall p | OnRecord(s.db, p) && Waiting(s.db, p.action) && Carrying(th) != Some(p.id) ensures Waiting(s'.db, p.action) {
      WaitingKept(s, s', th, th', w, p);
    }
  }

  /** Another request's step keeps what this request counts on. */
  lemma OthersOnce(s: Shared, s': Shared, th: Thread, other: Thread)
    requires Stable(s, s', th) && ThreadSafe(s.db, other) && ThreadOnce(s, other)
    requires Running(other).Some? ==> Running(th) != Running(other)
    requires Carrying(other).Some? ==> Carrying(th) != Carrying(other)
    ensures ThreadOnce(s', other)
  {
  }

  lemma RuleOnce(s: Shared, th: Thread, s': Shared, th': Thread)
    requires RecordsSafe(s.db) && ThreadSafe(s.db, th) && ThreadOnce(s, th) && RuleStep(s, th, s', th')
    ensures ThreadOnce(s', th')
  {
    assert th.RuleStart? && Decidable(s.db, th.org, th.approval).Some? ==> ApprovalSafe(s.db, th.approval);
    assert th.Granted1? ==> ActionSafe(s.db, th.p.action);
  }

  lemma RunOnce(e: Env, s: Shared, th: Thread, s': Shared, th': Thread)
    requires RecordsSafe(s.db) && ThreadOnce(s, th) && RunStep(e, s, th, s', th')
    requires th'.Ready? ==> th'.a.id !in s.calls
    ensures ThreadOnce(s', th')
  {
    assert th.RunStart? && th.id in s.db.actions ==> ActionSafe(s.db, th.id);
  }

  lemma ProbeOnce(s: Shared, th: Thread, s': Shared, th': Thread)
    requires RecordsSafe(s.db) && ThreadOnce(s, th) && ProbeStep(s, th, s', th')
    ensures ThreadOnce(s', th')
  {
    assert th.ProbeStart? && th.id in s.db.actions ==> ActionSafe(s.db, th.id);
  }

  lemma SnapshotAttempted(db: Store, org: Id, txn: Id, ids: seq<Id>)
    requires RecordsSafe(db) && Lists(db, org, txn, ids)
    ensures QueueAttempted(db, Reversed(Snapshot(db, ids)))
  {
    var taken := Snapshot(db, ids);
    forall i | 0 <= i < |taken| ensures taken[i].status == Executed ==> Attempted(db, taken[i].id) {
      assert ids[i] in db.actions && ActionSafe(db, ids[i]);
    }
  }

  lemma UnwindListOnce(s: Shared, th: Thread, s': Shared, th': Thread)
    requires RecordsSafe(s.db) && th.UnwindList? && UnwindStep(s, th, s', th')
    ensures ThreadOnce(s', th')
  {
    var ids :| Lists(s.db, th.org, th.txn, ids) && th' == UnwindMark(th.org, th.txn, Reversed(Snapshot(s.db, ids)));
    SnapshotAttempted(s.db, th.org, th.txn, ids);
  }

  lemma UnwindOnce(s: Shared, th: Thread, s': Shared, th': Thread)
    requires RecordsSafe(s.db) && ThreadOnce(s, th) && UnwindStep(s, th, s', th')
    ensures ThreadOnce(s', th')
  {
    if th.UnwindList? {
      UnwindListOnce(s, th, s', th');
    } else {
      assert th.Undone1? && th.id in s.db.actions ==> ActionSafe(s.db, th.id);
    }
  }

  lemma OwnOnceLater(s: Shared, th: Thread, s': Shared, th': Thread)
    requires RecordsSafe(s.db) && ThreadOnce(s, th)
    requires ProbeStep(s, th, s', th') || UnwindStep(s, th, s', th') || CommitStep(s, th, s', th')
    ensures ThreadOnce(s', th')
  {
    if ProbeStep(s, th, s', th') {
      ProbeOnce(s, th, s', th');
    } else if UnwindStep(s, th, s', th') {
      UnwindOnce(s, th, s', th');
    }
  }

  lemma OwnOnce(e: Env, s: Shared, th: Thread, s': Shared, th': Thread)
    requires RecordsSafe(s.db) && ThreadSafe(s.db, th) && ThreadOnce(s, th) && ThreadStep(e, s, th, s', th')
    requires th'.Ready? ==> th'.a.id !in s.calls
    ensures ThreadOnce(s', th')
  {
    if RuleStep(s, th, s', th') {
      RuleOnce(s, th, s', th');
    } else if RunStep(e, s, th, s', th') {
      RunOnce(e, s, th, s', th');
    } else if !ProposeStep(e, s, th, s', th') {
      OwnOnceLater(s, th, s', th');
    }
  }

  // ----- whole interleavings -----

  lemma ProposalsKeepOut(e: Env, s: Shared, th: Thread, s': Shared, th': Thread)
    requires ProposeStep(e, s, th, s', th')
    ensures Running(th).None? && Running(th').None? && s'.calls == s.calls && Carrying(th').None?
  {
  }

  lemma RulingsDoNotRun(s: Shared, th: Thread, s': Shared, th': Thread)
    requires RuleStep(s, th, s', th')
    ensures Running(th).None? && Running(th').None? && s'.calls == s.calls
  {
  }

  lemma RunsDoNotCarry(e: Env, s: Shared, th: Thread, s': Shared, th': Thread)
    requires RunStep(e, s, th, s', th')
    ensures Carrying(th').None?
  {
  }

  lemma OthersKeepOut(s: Shared, th: Thread, s': Shared, th': Thread)
    requires ProbeStep(s, th, s', th') || UnwindStep(s, th, s', th') || CommitStep(s, th, s', th')
    ensures Running(th).None? && Running(th').None? && s'.calls == s.calls && Carrying(th').None?
  {
  }

  lemma RunnersRun(e: Env, s: Shared, th: Thread, s': Shared, th': Thread)
    requires ThreadStep(e, s, th, s', th') && (Running(th).Some? || Running(th').Some? || s'.calls != s.calls)
    ensures RunStep(e, s, th, s', th')
  {
    if ProposeStep(e, s, th, s', th') {
      ProposalsKeepOut(e, s, th, s', th');
    } else if RuleStep(s, th, s', th') {
      RulingsDoNotRun(s, th, s', th');
    } else if !RunStep(e, s, th, s', th') {
      OthersKeepOut(s, th, s', th');
    }
  }

  lemma OnlyRulersCarry(e: Env, s: Shared, th: Thread, s': Shared, th': Thread)
    requires ThreadStep(e, s, th, s', th') && !RuleStep(s, th, s', th')
    ensures Carrying(th').None?
  {
    if ProposeStep(e, s, th, s', th') {
      ProposalsKeepOut(e, s, th, s', th');
    } else if RunStep(e, s, th, s', th') {
      RunsDoNotCarry(e, s, th, s', th');
    } else {
      OthersKeepOut(s, th, s', th');
    }
  }

  lemma GuardPassed(e: Env, s: Shared, th: Thread, s': Shared, th': Thread)
    requires RecordsSafe(s.db) && RunStep(e, s, th, s', th') && th'.Ready?
    ensures th.RunStart? && Runnable(s.db, th'.a.id)
  {
    assert ActionSafe(s.db, th.id);
  }

  lemma NobodyWrites(threads: map<nat, Thread>, t: nat, th': Thread, id: Id)
    requires t in threads && threads[t].RunStart? && Running(th') == Some(id) && NoOverlap(threads[t := th'])
    ensures !BeingWritten(threads, id)
  {
    var threads' := threads[t := th'];
    forall u | u in threads && threads[u].Writing? ensures threads[u].b.id != id {
      assert Running(threads'[u]) != Running(threads'[t]);
    }
  }

  lemma PassedUncalled(e: Env, s: System, s': System, t: nat)
    requires RecordsSafe(s.shared.db) && CallsOnce(s) && SystemStep(e, s, s', Move(t)) && NoOverlap(s'.threads) && s'.threads[t].Ready?
    ensures s'.threads[t].a.id !in s.shared.calls
  {
    RunnersRun(e, s.shared, s.threads[t], s'.shared, s'.threads[t]);
    GuardPassed(e, s.shared, s.threads[t], s'.shared, s'.threads[t]);
    NobodyWrites(s.threads, t, s'.threads[t], s'.threads[t].a.id);
  }

  lemma WritingEnds(e: Env, s: Shared, th: Thread, s': Shared, th': Thread)
    requires ThreadSafe(s.db, th) && ThreadOnce(s, th) && ThreadStep(e, s, th, s', th')
    ensures th.Writing? ==> Attempted(s'.db, th.b.id)
    ensures s'.calls == s.calls || (th.Calling? && s'.calls == s.calls + [th.a.id] && th'.Writing? && th'.b.id == th.a.id)
  {
    if Running(th).Some? || s'.calls != s.calls {
      RunnersRun(e, s, th, s', th');
      CallEnds(e, s, th, s', th');
    }
  }

  lemma CallEnds(e: Env, s: Shared, th: Thread, s': Shared, th': Thread)
    requires ThreadSafe(s.db, th) && ThreadOnce(s, th) && RunStep(e, s, th, s', th')
    ensures th.Writing? ==> Attempted(s'.db, th.b.id)
    ensures s'.calls == s.calls || (th.Calling? && s'.calls == s.calls + [th.a.id] && th'.Writing? && th'.b.id == th.a.id)
  {
  }

  lemma CarryingStarts(e: Env, s: Shared, th: Thread, s': Shared, th': Thread)
    requires RecordsSafe(s.db) && RuleStep(s, th, s', th')
    ensures Carrying(th').Some? && Carrying(th') != Carrying(th) ==>
              Carrying(th').value in s.db.approvals && s.db.approvals[Carrying(th').value].status == Pending
  {
    assert th.RuleStart? && th.approval in s.db.approvals ==> ApprovalSafe(s.db, th.approval);
  }

  lemma CarriersGranted(db: Store, th: Thread)
    requires ThreadSafe(db, th) && Carrying(th).Some?
    ensures Carrying(th).value in db.approvals && db.approvals[Carrying(th).value].status == Granted
  {
  }

  lemma CarriersStayDistinct(e: Env, s: System, s': System, t: nat)
    requires Safe(s) && Once(s) && SystemStep(e, s, s', Move(t))
    ensures CarriersDistinct(s'.threads)
  {
    forall u | u in s.threads && Carrying(s.threads[u]).Some?
      ensures Carrying(s.threads[u]).value in s.shared.db.approvals
              && s.shared.db.approvals[Carrying(s.threads[u]).value].status == Granted
    {
      CarriersGranted(s.shared.db, s.threads[u]);
    }
    if RuleStep(s.shared, s.threads[t], s'.shared, s'.threads[t]) {
      CarryingStarts(e, s.shared, s.threads[t], s'.shared, s'.threads[t]);
    } else {
      OnlyRulersCarry(e, s.shared, s.threads[t], s'.shared, s'.threads[t]);
    }
  }

  lemma StillAccounted(s: System, s': System, t: nat, id: Id)
    requires t in s.threads && t in s'.threads && s'.threads == s.threads[t := s'.threads[t]]
    requires s.threads[t].Writing? ==> Attempted(s'.shared.db, s.threads[t].b.id)
    requires BeingWritten(s.threads, id)
    ensures Attempted(s'.shared.db, id) || BeingWritten(s'.threads, id)
  {
    var u :| u in s.threads && s.threads[u].Writing? && s.threads[u].b.id == id;
    assert u != t ==> s'.threads[u].Writing?;
  }

  lemma CallsStayOnce(e: Env, s: System, s': System, t: nat)
    requires Safe(s) && Once(s) && SystemStep(e, s, s', Move(t)) && Stable(s.shared, s'.shared, s.threads[t])
    ensures CallsOnce(s')
  {
    WritingEnds(e, s.shared, s.threads[t], s'.shared, s'.threads[t]);
    forall id | id in s'.shared.calls ensures Attempted(s'.shared.db, id) || BeingWritten(s'.threads, id) {
      if id !in s.shared.calls {
        assert s'.threads[t].b.id == id;
      } else if BeingWritten(s.threads, id) {
        StillAccounted(s, s', t, id);
      }
    }
  }

  lemma ThreadsStayOnce(e: Env, s: System, s': System, t: nat)
    requires Safe(s) && Once(s) && SystemStep(e, s, s', Move(t)) && Stable(s.shared, s'.shared, s.threads[t])
    requires NoOverlap(s.threads) && ThreadOnce(s'.shared, s'.threads[t])
    ensures ThreadsOnce(s'.shared, s'.threads)
  {
    forall u | u in s'.threads && u != t ensures ThreadOnce(s'.shared, s'.threads[u]) {
      OthersOnce(s.shared, s'.shared, s.threads[t], s.threads[u]);
    }
  }

  lemma MoveKeepsOnce(e: Env, s: System, s': System, t: nat)
    requires Safe(s) && Once(s) && SystemStep(e, s, s', Move(t)) && NoOverlap(s.threads) && NoOverlap(s'.threads)
    ensures Once(s')
  {
    var w := StepWrites(e, s.shared, s.threads[t], s'.shared, s'.threads[t]);
    StepStable(s.shared, s'.shared, s.threads[t], s'.threads[t], w);
    if s'.threads[t].Ready? {
      PassedUncalled(e, s, s', t);
    }
    OwnOnce(e, s.shared, s.threads[t], s'.shared, s'.threads[t]);
    ThreadsStayOnce(e, s, s', t);
    CarriersStayDistinct(e, s, s', t);
    CallsStayOnce(e, s, s', t);
  }

  lemma QuietKeepsCalls(s: System, s': System)
    requires CallsOnce(s) && s'.shared.db.actions == s.shared.db.actions && s'.shared.calls == s.shared.calls
    requires forall t :: t in s.threads ==> t in s'.threads && s'.threads[t] == s.threads[t]
    ensures CallsOnce(s')
  {
    forall id | id in s'.shared.calls && !Attempted(s.shared.db, id) ensures BeingWritten(s'.threads, id) {
      var u :| u in s.threads && s.threads[u].Writing? && s.threads[u].b.id == id;
      assert s'.threads[u].Writing?;
    }
  }

  lemma QuietKeepsThreads(s: Shared, s': Shared, threads: map<nat, Thread>)
    requires s'.db.actions == s.db.actions && s'.calls == s.calls && ThreadsOnce(s, threads)
    ensures ThreadsOnce(s', threads)
  {
  }

  lemma AmbientKeepsOnce(e: Env, s: System, s': System)
    requires Once(s) && SystemStep(e, s, s', Ambient)
    ensures Once(s')
  {
    QuietKeepsCalls(s, s');
    QuietKeepsThreads(s.shared, s'.shared, s.threads);
  }

  lemma ArrivalKeepsOnce(e: Env, s: System, s': System, t: nat)
    requires Once(s) && SystemStep(e, s, s', Arrive(t))
    ensures Once(s')
  {
    QuietKeepsCalls(s, s');
  }

  lemma {:induction false} OnceThroughout(e: Env, ss: seq<System>, ls: seq<Label>, i: nat)
    requires IsTrace(e, ss, ls) && i < |ss| && forall j :: 0 <= j < |ss| ==> NoOverlap(ss[j].threads)
    ensures Once(ss[i])
  {
    if i > 0 {
      OnceThroughout(e, ss, ls, i - 1);
      TracesAreSafe(e, ss, ls, i - 1);
      assert SystemStep(e, ss[i - 1], ss[i], ls[i - 1]);
      match ls[i - 1]
      case Arrive(t) => ArrivalKeepsOnce(e, ss[i - 1], ss[i], t);
      case Move(t) => MoveKeepsOnce(e, ss[i - 1], ss[i], t);
      case Ambient => AmbientKeepsOnce(e, ss[i - 1], ss[i]);
    }
  }

  /** Without overlapping executions, no tool is ever called twice for one action. */
  lemma AtMostOneCall(e: Env, ss: seq<System>, ls: seq<Label>)
    requires IsTrace(e, ss, ls) && forall j :: 0 <= j < |ss| ==> NoOverlap(ss[j].threads)
    ensures Distinct(ss[|ls|].shared.calls)
  {
    OnceThroughout(e, ss, ls, |ls|);
  }

  // ----- overlapping executions -----

  /** A request past the guard, its tool not called yet. */
  predicate AboutToCall(th: Thread, id: Id) {
    (th.Ready? || th.Starting? || th.Calling?) && th.a.id == id
  }

  /** The transaction is looked up and, where the source does so, moved to EXECUTING. */
  lemma StartsCalling(e: Env, s: System, t: nat) returns (s': System)
    requires t in s.threads && (s.threads[t].Ready? || s.threads[t].Starting?)
    ensures Reachable(e, s, s') && s'.shared.calls == s.shared.calls && s'.threads == s.threads[t := Calling(s.threads[t].a)]
    decreases s.threads[t].Ready?
  {
    var a := s.threads[t].a;
    if s.threads[t].Starting? {
      s' := WithThread(s, s.shared.(db := SetTxnStatus(s.shared.db, a.org, a.txn, Executing)), t, Calling(a));
      OneStep(e, s, s', Move(t));
    } else if MustStart(s.shared.db, a) {
      var mid := WithThread(s, s.shared, t, Starting(a));
      OneStep(e, s, mid, Move(t));
      s' := StartsCalling(e, mid, t);
      Onward(e, s, mid, s');
    } else {
      s' := WithThread(s, s.shared, t, Calling(a));
      OneStep(e, s, s', Move(t));
    }
  }

  lemma Calls(e: Env, s: System, t: nat) returns (s': System)
    requires t in s.threads && s.threads[t].Calling? && Reaches(e, s.threads[t].a)
    ensures SystemStep(e, s, s', Move(t))
    ensures s'.shared.calls == s.shared.calls + [s.threads[t].a.id]
    ensures forall u :: u in s.threads && u != t ==> u in s'.threads && s'.threads[u] == s.threads[u]
  {
    var a := s.threads[t].a;
    s' := WithThread(s, s.shared.(calls := s.shared.calls + [a.id]), t, Writing(Answered(a, NoAnswer)));
  }

  /** A request past the guard can go on to call its tool, whatever the others do. */
  lemma GoesOnToCall(e: Env, s: System, t: nat, id: Id) returns (s': System)
    requires t in s.threads && AboutToCall(s.threads[t], id) && Reaches(e, s.threads[t].a)
    ensures Reachable(e, s, s') && s'.shared.calls == s.shared.calls + [id]
    ensures forall u :: u in s.threads && u != t ==> u in s'.threads && s'.threads[u] == s.threads[u]
  {
    if !s.threads[t].Calling? {
      var mid := StartsCalling(e, s, t);
      s' := Calls(e, mid, t);
      OneStep(e, mid, s', Move(t));
      Onward(e, s, mid, s');
    } else {
      s' := Calls(e, s, t);
      OneStep(e, s, s', Move(t));
    }
  }

  /** Once two requests are past the guard for one action, or one is and the tool was already
      called for it, the tool can be called again. */
  lemma OverlapRepeats(e: Env, s: System, t: nat, u: nat, id: Id) returns (s': System)
    requires t in s.threads && AboutToCall(s.threads[t], id) && Reaches(e, s.threads[t].a)
    requires id in s.shared.calls || (t != u && u in s.threads && AboutToCall(s.threads[u], id) && Reaches(e, s.threads[u].a))
    ensures Reachable(e, s, s') && !Distinct(s'.shared.calls)
  {
    if id in s.shared.calls {
      s' := GoesOnToCall(e, s, t, id);
      var i :| 0 <= i < |s.shared.calls| && s.shared.calls[i] == id;
      assert s'.shared.calls[i] == s'.shared.calls[|s.shared.calls|];
    } else {
      var mid := GoesOnToCall(e, s, t, id);
      s' := GoesOnToCall(e, mid, u, id);
      Onward(e, s, mid, s');
      assert s'.shared.calls[|s.shared.calls|] == s'.shared.calls[|s.shared.calls| + 1];
    }
  }

  lemma PassesGuard(e: Env, s: System, t: nat)
    requires t in s.threads && s.threads[t].RunStart? && GetAction(s.shared.db, s.threads[t].org, s.threads[t].id).Some?
    requires MayRun(s.shared.db.actions[s.threads[t].id], s.threads[t].approvedPath)
    ensures Reachable(e, s, WithThread(s, s.shared, t, Ready(s.shared.db.actions[s.threads[t].id])))
  {
    var s' := WithThread(s, s.shared, t, Ready(s.shared.db.actions[s.threads[t].id]));
    assert RunStep(e, s.shared, s.threads[t], s.shared, s'.threads[t]);
    OneStep(e, s, s', Move(t));
  }

  lemma Arrives(e: Env, s: System, t: nat, org: Id, id: Id, approvedPath: bool) returns (s': System)
    requires t !in s.threads && GetAction(s.shared.db, org, id).Some?
    requires MayRun(s.shared.db.actions[id], approvedPath)
    ensures Reachable(e, s, s') && s' == WithThread(s, s.shared, t, Ready(s.shared.db.actions[id]))
  {
    var mid := WithThread(s, s.shared, t, RunStart(org, id, approvedPath));
    OneStep(e, s, mid, Arrive(t));
    PassesGuard(e, mid, t);
    s' := WithThread(mid, mid.shared, t, Ready(s.shared.db.actions[id]));
    Onward(e, s, mid, s');
    assert s'.threads == s.threads[t := Ready(s.shared.db.actions[id])];
  }

  /** The guard alone does not ensure a single call: whenever an action may be executed, two
      execution requests can call its tool twice. */
  lemma GuardDoesNotExclude(e: Env, s: System, t: nat, u: nat, org: Id, id: Id, approvedPath: bool) returns (s': System)
    requires RecordsSafe(s.shared.db) && t !in s.threads && u !in s.threads && t != u
    requires GetAction(s.shared.db, org, id).Some? && MayRun(s.shared.db.actions[id], approvedPath)
    requires Reaches(e, s.shared.db.actions[id])
    ensures Reachable(e, s, s') && !Distinct(s'.shared.calls)
  {
    assert ActionSafe(s.shared.db, id);
    var one := Arrives(e, s, t, org, id, approvedPath);
    var both := Arrives(e, one, u, org, id, approvedPath);
    s' := OverlapRepeats(e, both, t, u, id);
    Onward(e, s, one, both);
    Onward(e, s, both, s');
  }
}
