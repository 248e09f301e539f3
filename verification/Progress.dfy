/** Transaction statuses over whole runs: they move along the table, stop at the terminal ones, and
    move only so often. */
module Progress {
  import opened Domain
  import opened Transactions
  import opened StoreSpec
  import opened GatewaySpec
  import opened Protocol
  import opened Invariants

  // ----- transaction statuses -----

  /** The statuses a transaction is ever seen in between calls. */
  predicate Seen(st: TxnStatus) {
    st != Created && st != Compensating && st != Failed
  }

  ghost predicate TxnsSeen(db: Store) {
    forall id :: id in db.txns ==> Seen(db.txns[id].status)
  }

  /** Compensation passes through COMPENSATING; every other call moves by at most one edge. */
  predicate Along(from: TxnStatus, to: TxnStatus) {
    CanTransition(from, to) || (CanTransition(from, Compensating) && CanTransition(Compensating, to))
  }

  /** The status a change leaves a transaction in. */
  function StatusAfter(c: Change, t: Id, from: TxnStatus): TxnStatus {
    match c
    case Added(a, _) => if a.txn == t && a.status == AwaitingDecision then Moved(from, AwaitingApproval) else from
    case Ruled(p, approve) => if p.txn == t then Moved(from, if approve then Executing else Aborting) else from
    case Ran(b, _) => if b.txn == t then RunStatus(from) else from
    case Closed(txn) => if txn == t then Committed else from
    case Unwound(_, txn, _, _, final) => if txn == t then final else from
    case _ => from
  }

  /** Closing and unwinding start only where the source and its callers allow it. */
  predicate EntryOk(c: Change, t: Id, from: TxnStatus) {
    && (c.Closed? && c.txn == t ==> from == Executing)
    && (c.Unwound? && c.txn == t ==> from in {Executing, Aborting} && c.final in {RolledBack, PartiallyCompensated})
  }

  lemma ActedTxnMoves(e: Env, w: World, w': World, c: Change, t: Id)
    requires Changed(e, w, w', c) && t in w.db.txns && (c.Ran? || c.Probed? || c.Ruled?)
    ensures t in w'.db.txns && w'.db.txns[t].status == StatusAfter(c, t, w.db.txns[t].status)
  {
  }

  lemma EndingTxnMoves(e: Env, w: World, w': World, c: Change, t: Id)
    requires Changed(e, w, w', c) && t in w.db.txns && (c.Closed? || c.Unwound?)
    ensures t in w'.db.txns && w'.db.txns[t].status == StatusAfter(c, t, w.db.txns[t].status)
    ensures EntryOk(c, t, w.db.txns[t].status)
  {
  }

  lemma TxnMoves(e: Env, w: World, w': World, c: Change, t: Id)
    requires Sound(w.db) && Changed(e, w, w', c) && t in w.db.txns
    ensures t in w'.db.txns && w'.db.txns[t].status == StatusAfter(c, t, w.db.txns[t].status)
    ensures EntryOk(c, t, w.db.txns[t].status)
  {
    if c.Ran? || c.Probed? || c.Ruled? {
      ActedTxnMoves(e, w, w', c, t);
    } else if c.Closed? || c.Unwound? {
      EndingTxnMoves(e, w, w', c, t);
    }
  }

  /** Whether the change creates an approval for the transaction. */
  predicate AsksApproval(c: Change, t: Id) {
    c.Added? && c.a.txn == t && c.a.status == AwaitingDecision
  }

  lemma StatusLaws(c: Change, t: Id, from: TxnStatus, spare: nat)
    requires Seen(from) && EntryOk(c, t, from) && (c.Unwound? ==> spare >= 2)
    ensures var to := StatusAfter(c, t, from);
            && Seen(to) && Along(from, to)
            && (TerminalTxn(from) ==> to == from)
            && (if to == from then 0 else if c.Unwound? then 2 else 1) + Potential(to, spare) <= Potential(from, spare) + (if AsksApproval(c, t) then 2 else 0)
  {
  }

  lemma TxnsSeenKept(e: Env, w: World, w': World, c: Change)
    requires Sound(w.db) && TxnsSeen(w.db) && Changed(e, w, w', c)
    ensures TxnsSeen(w'.db)
  {
    TxnsKept(e, w, w', c);
    forall t | t in w'.db.txns ensures Seen(w'.db.txns[t].status) {
      if t in w.db.txns {
        TxnMoves(e, w, w', c, t);
        StatusLaws(c, t, w.db.txns[t].status, 2);
      }
    }
  }

  lemma {:induction false} RunsStaySeen(e: Env, ws: seq<World>, steps: seq<Step>, n: nat)
    requires IsRun(e, ws, steps) && n < |ws|
    ensures Sound(ws[n].db) && TxnsSeen(ws[n].db)
  {
    RunsAreSound(e, ws, steps, n);
    if n > 0 {
      RunsStaySeen(e, ws, steps, n - 1);
      var c := Classify(e, ws[n - 1], steps[n - 1]);
      TxnsSeenKept(e, ws[n - 1], ws[n], c);
    }
  }

  /** Every change but compensation moves by at most one edge of the table. */
  lemma OneEdge(c: Change, t: Id, from: TxnStatus)
    requires EntryOk(c, t, from) && Seen(from) && !c.Unwound?
    ensures CanTransition(from, StatusAfter(c, t, from))
  {
  }

  ghost predicate FollowsTable(step: Step, from: TxnStatus, to: TxnStatus) {
    && (!step.CompensateCall? ==> CanTransition(from, to))
    && (step.CompensateCall? && to != from ==> CanTransition(from, Compensating) && CanTransition(Compensating, to))
    && (TerminalTxn(from) ==> to == from)
  }

  lemma ChangeFollowsTable(e: Env, db: Store, step: Step, c: Change, t: Id, from: TxnStatus)
    requires MadeBy(e, db, step, c) && EntryOk(c, t, from) && Seen(from)
    ensures FollowsTable(step, from, StatusAfter(c, t, from))
  {
    StatusLaws(c, t, from, 2);
    UnwoundByCompensation(e, db, step, c);
    if !c.Unwound? {
      OneEdge(c, t, from);
    }
  }

  /** Every step of every run moves a transaction along an edge of the table, compensation along two
      through COMPENSATING, and no step moves it out of a terminal status. */
  lemma StatusesFollowTable(e: Env, ws: seq<World>, steps: seq<Step>, n: nat, t: Id)
    requires IsRun(e, ws, steps) && n < |steps| && t in ws[n].db.txns
    ensures t in ws[n + 1].db.txns && FollowsTable(steps[n], ws[n].db.txns[t].status, ws[n + 1].db.txns[t].status)
  {
    RunsStaySeen(e, ws, steps, n);
    var c := Classify(e, ws[n], steps[n]);
    TxnMoves(e, ws[n], ws[n + 1], c, t);
    ChangeFollowsTable(e, ws[n].db, steps[n], c, t, ws[n].db.txns[t].status);
  }

  lemma UnwoundByCompensation(e: Env, db: Store, step: Step, c: Change)
    requires MadeBy(e, db, step, c)
    ensures c.Unwound? ==> step.CompensateCall?
    ensures step.CompensateCall? ==> c.Unwound? || c.Quiet?
  {
  }

  // ----- how many times a transaction's status can change -----

  function ApprovalsOf(db: Store, t: Id): set<Id> {
    set k | k in db.approvals && db.approvals[k].txn == t
  }

  ghost predicate Differs(w: World, w': World, t: Id) {
    t in w.db.txns && t in w'.db.txns && w.db.txns[t].status != w'.db.txns[t].status
  }

  /** Status writes a step makes to a transaction it moves: compensation also writes COMPENSATING. */
  function WritesOf(step: Step): nat {
    if step.CompensateCall? then 2 else 1
  }

  /** Status changes of a transaction over a run, the pass through COMPENSATING included. */
  ghost function StatusChanges(ws: seq<World>, steps: seq<Step>, t: Id): nat
    requires |ws| == |steps| + 1
  {
    if steps == [] then 0
    else
      var n := |steps|;
      StatusChanges(ws[..n], steps[..n - 1], t) + if Differs(ws[n - 1], ws[n], t) then WritesOf(steps[n - 1]) else 0
  }

  /** What a status still has in it, not counting re-entries that new approvals pay for.
      `spare` is 2 when compensation is among the calls. */
  function Potential(st: TxnStatus, spare: nat): nat {
    match st
    case Planning => 2 + spare
    case AwaitingApproval => 2 + spare
    case Executing => 1 + spare
    case Aborting => spare
    case _ => 0
  }

  function Left(db: Store, t: Id, spare: nat): nat {
    if t in db.txns then Potential(db.txns[t].status, spare) else 2 + spare
  }

  lemma GrewByOne(before: set<Id>, after: set<Id>, asked: Option<Id>)
    requires forall k :: k in after <==> k in before || asked == Some(k)
    requires asked.Some? ==> asked.value !in before
    ensures |after| == |before| + if asked.Some? then 1 else 0
  {
    assert after == if asked.Some? then before + {asked.value} else before;
  }

  lemma ApprovalsGrow(e: Env, w: World, w': World, c: Change, t: Id)
    requires Sound(w.db) && Changed(e, w, w', c)
    ensures |ApprovalsOf(w'.db, t)| == |ApprovalsOf(w.db, t)| + if AsksApproval(c, t) then 1 else 0
  {
    ApprovalRecordsKept(e, w, w', c);
    if AsksApproval(c, t) {
      NewApprovalListed(e, w, w', c);
    }
    GrewByOne(ApprovalsOf(w.db, t), ApprovalsOf(w'.db, t), if AsksApproval(c, t) then Some(c.approvalId) else None);
  }

  lemma NewApprovalListed(e: Env, w: World, w': World, c: Change)
    requires Changed(e, w, w', c) && c.Added? && c.a.status == AwaitingDecision
    ensures c.approvalId !in w.db.approvals && c.approvalId in w'.db.approvals && w'.db.approvals[c.approvalId].txn == c.a.txn
  {
  }

  lemma ChangePaid(e: Env, w: World, w': World, c: Change, t: Id, spare: nat)
    requires Sound(w.db) && TxnsSeen(w.db) && Changed(e, w, w', c)
    requires c.Unwound? ==> spare >= 2
    ensures (if !Differs(w, w', t) then 0 else if c.Unwound? then 2 else 1) + Left(w'.db, t, spare) <= Left(w.db, t, spare) + (if AsksApproval(c, t) then 2 else 0)
  {
    if t in w.db.txns {
      TxnMoves(e, w, w', c, t);
      StatusLaws(c, t, w.db.txns[t].status, spare);
    } else {
      TxnsKept(e, w, w', c);
      if t in w'.db.txns {
        NewTxnPlans(e, w, w', c);
      }
    }
  }

  lemma NewTxnPlans(e: Env, w: World, w': World, c: Change)
    requires Changed(e, w, w', c) && c.NewTxn?
    ensures c.t.status == Planning
  {
  }

  lemma IsRunPrefix(e: Env, ws: seq<World>, steps: seq<Step>)
    requires IsRun(e, ws, steps) && steps != []
    ensures IsRun(e, ws[..|ws| - 1], steps[..|steps| - 1])
  {
  }

  /** One step of the accounting below. */
  lemma StepPaid(e: Env, w: World, step: Step, t: Id, spare: nat)
    requires Sound(w.db) && TxnsSeen(w.db) && Admissible(e, w, step) && (step.CompensateCall? ==> spare >= 2)
    ensures var w' := Next(e, w, step);
            (if Differs(w, w', t) then WritesOf(step) else 0) + Left(w'.db, t, spare) + 2 * |ApprovalsOf(w.db, t)|
            <= Left(w.db, t, spare) + 2 * |ApprovalsOf(w'.db, t)|
  {
    var c := Classify(e, w, step);
    UnwoundByCompensation(e, w.db, step, c);
    ChangePaid(e, w, Next(e, w, step), c, t, spare);
    ApprovalsGrow(e, w, Next(e, w, step), c, t);
    if step.CompensateCall? && c.Quiet? {
      QuietMovesNothing(e, w, Next(e, w, step), t);
    }
  }

  lemma QuietMovesNothing(e: Env, w: World, w': World, t: Id)
    requires Changed(e, w, w', Quiet)
    ensures !Differs(w, w', t)
  {
  }

  /** Status changes plus what is left never exceed what the approvals created so far pay for. */
  lemma {:induction false} ChangesPaid(e: Env, ws: seq<World>, steps: seq<Step>, t: Id, spare: nat)
    requires IsRun(e, ws, steps)
    requires spare < 2 ==> forall i :: 0 <= i < |steps| ==> !steps[i].CompensateCall?
    ensures StatusChanges(ws, steps, t) + Left(ws[|steps|].db, t, spare) <= 2 * |ApprovalsOf(ws[|steps|].db, t)| + 2 + spare
  {
    if steps != [] {
      var n := |steps|;
      IsRunPrefix(e, ws, steps);
      ChangesPaid(e, ws[..n], steps[..n - 1], t, spare);
      RunsStaySeen(e, ws, steps, n - 1);
      StepPaid(e, ws[n - 1], steps[n - 1], t, spare);
    }
  }

  /** Driven by the HTTP routes alone, a transaction for which A approvals were created changes
      status at most 2A + 2 times; compensation, which writes two statuses, can add two. */
  lemma BoundedProgress(e: Env, ws: seq<World>, steps: seq<Step>, t: Id)
    requires IsRun(e, ws, steps)
    ensures StatusChanges(ws, steps, t) <= 2 * |ApprovalsOf(ws[|steps|].db, t)| + 4
    ensures (forall i :: 0 <= i < |steps| ==> !steps[i].CompensateCall?) ==>
              StatusChanges(ws, steps, t) <= 2 * |ApprovalsOf(ws[|steps|].db, t)| + 2
  {
    ChangesPaid(e, ws, steps, t, 2);
    if forall i :: 0 <= i < |steps| ==> !steps[i].CompensateCall? {
      ChangesPaid(e, ws, steps, t, 0);
    }
  }
}
