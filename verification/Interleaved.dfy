/** The engine with any number of requests in flight. Every store call, every unlocked write to a
    live record and every tool call is one step, and steps of different requests interleave freely.
    Audit entries are left out: they decide nothing. Reads of grants, rules and sibling actions are
    folded into the write of the decision, which may be any decision. */
module Interleaved {
  import opened Domain
  import opened Receipts
  import opened Transactions
  import opened StoreSpec
  import opened GatewaySpec
  import opened Protocol

  datatype Shared = Shared(db: Store, calls: seq<Id>)

  /** A proposal and the status its transaction had when it was looked up. */
  datatype Bid = Bid(q: Request, st: TxnStatus)

  /** Where a request is, and what it holds. Records read from the store are copies, except the
      record a fresh proposal gets back: that one is the live record, named here by its identifier. */
  datatype Thread =
    | Finished
    // ProposeAction
    | ProposeStart(q: Request)                  // about to look the transaction up
    | ProposeAgent(bid: Bid)                    // about to look the agent up
    | Adding(bid: Bid)                          // about to add the action
    | Deciding(bid: Bid, id: Id)                // about to write the decision into the live record
    | Screening(bid: Bid, id: Id, d: Decision)  // about to apply the risk screen's answer
    | Marking(bid: Bid, id: Id, d: Decision)    // about to write the status into the live record
    | Saving(bid: Bid, id: Id, d: Decision)     // about to store the live record over itself
    | Asking(bid: Bid, id: Id, d: Decision)     // about to create the approval
    | Moving(org: Id, txn: Id, st: TxnStatus)   // about to write a status worked out from an earlier read
    // handleDecideApproval
    | RuleStart(org: Id, approval: Id, approve: bool)
    | Granted1(org: Id, p: Approval)            // granted; about to read the action
    | Granted2(org: Id, p: Approval, a: Action) // holds the copy; about to write it back approved
    | Resuming(org: Id, txn: Id, to: TxnStatus) // about to look up the transaction it is to move
    // ExecuteAllowed and RunApproved
    | RunStart(org: Id, id: Id, approvedPath: bool)
    | Ready(a: Action)                          // guards passed; about to look the transaction up
    | Starting(a: Action)                       // about to move the transaction to EXECUTING
    | Calling(a: Action)                        // about to call the tool
    | Writing(b: Action)                        // tool answered; about to write the action back
    | Attesting(b: Action, how: Settlement)     // about to append the receipt
    | Signing(r: Receipt)                       // about to store its signature
    // Reconcile
    | ProbeStart(org: Id, id: Id)
    | Probing(a: Action)                        // about to ask the provider
    | Settling(b: Action)                       // about to write the action back
    // CompensateTransaction
    | UnwindStart(org: Id, txn: Id)             // about to look the transaction up
    | UnwindList(org: Id, txn: Id)              // about to list its actions
    | UnwindMark(org: Id, txn: Id, queue: seq<Action>) // about to write COMPENSATING
    | Unwinding(org: Id, txn: Id, queue: seq<Action>, failed: bool)
    | Undone1(org: Id, txn: Id, queue: seq<Action>, failed: bool, id: Id, ok: bool) // about to re-read the action
    | Undone2(org: Id, txn: Id, queue: seq<Action>, failed: bool, b: Action)        // about to write it back
    // Commit
    | CommitStart(org: Id, txn: Id)                  // about to look the transaction up
    | CommitList(org: Id, txn: Id, st: TxnStatus)    // about to list its actions
    | Committing(org: Id, txn: Id)                   // every listed action was resolved; about to write COMMITTED

  predicate IsArrival(th: Thread) {
    th.ProposeStart? || th.RuleStart? || th.RunStart? || th.ProbeStart? || th.UnwindStart? || th.CommitStart?
  }

  /** What the surroundings may do at any time: set up tenants, agents, policies and grants, log,
      and open transactions. */
  ghost predicate Surrounds(db: Store, db': Store) {
    && db' == db.(orgs := db'.orgs, agents := db'.agents, policySets := db'.policySets, grants := db'.grants,
                  audit := db'.audit, txns := db'.txns)
    && (forall id :: id in db.txns ==> id in db'.txns && db'.txns[id] == db.txns[id])
    && (forall id :: id in db'.txns && id !in db.txns ==> NewTxnOk(db'.txns[id], id))
  }

  predicate NewTxnOk(t: Txn, id: Id) {
    t.id == id && Plain(id) && Plain(t.org) && t.status == Planning
  }

  function WriteDecision(db: Store, id: Id, d: Decision): Store
    requires id in db.actions
  {
    db.(actions := db.actions[id := db.actions[id].(decision := Some(d))])
  }

  function WriteMark(db: Store, id: Id, st: ActionStatus): Store
    requires id in db.actions
  {
    db.(actions := db.actions[id := db.actions[id].(status := st)])
  }

  ghost predicate ProposeStep(e: Env, s: Shared, th: Thread, s': Shared, th': Thread) {
    match th
    case ProposeStart(q) =>
      && s' == s
      && (if ProposeTxnOk(s.db, q) then th' == ProposeAgent(Bid(q, s.db.txns[q.txn].status)) else th' == Finished)
    case ProposeAgent(bid) =>
      && s' == s
      && (if GetAgent(s.db, bid.q.org, bid.q.agent).Some? then th' == Adding(bid) else th' == Finished)
    case Adding(bid) =>
      if Replayed(s.db, Drafted(e, bid.q)).Some? then s' == s && th' == Finished
      else
        && th'.Deciding? && th'.bid == bid && th'.id !in s.db.actions
        && exists now :: s' == s.(db := AddAction(e.codec, s.db, Drafted(e, bid.q), th'.id, now))
    case Deciding(bid, id) =>
      && id in s.db.actions
      && ((th'.Screening? && Permits(th'.d.effect)) || (th'.Marking? && !Permits(th'.d.effect)))
      && th'.bid == bid && th'.id == id
      && s' == s.(db := WriteDecision(s.db, id, th'.d))
    case Screening(bid, id, d) =>
      && id in s.db.actions
      && th'.Marking? && th'.bid == bid && th'.id == id && (th'.d == d || th'.d == Escalated(d))
      && s' == s.(db := WriteDecision(s.db, id, th'.d))
    case Marking(bid, id, d) =>
      id in s.db.actions && th' == Saving(bid, id, d) && s' == s.(db := WriteMark(s.db, id, StatusFor(d.effect)))
    case Saving(bid, id, d) =>
      && id in s.db.actions && s' == s.(db := UpdateAction(s.db, s.db.actions[id]))
      && th' == if d.effect == RequireApproval then Asking(bid, id, d) else Finished
    case Asking(bid, id, d) =>
      && id in s.db.actions && th' == Moving(bid.q.org, bid.q.txn, Moved(bid.st, AwaitingApproval))
      && exists k :: k !in s.db.approvals && s' == s.(db := CreateApproval(s.db, Wanted(s.db, bid, id), k))
    case Moving(org, txn, st) =>
      th' == Finished && s' == s.(db := SetTxnStatus(s.db, org, txn, st))
    case _ => false
  }

  predicate ProposeTxnOk(db: Store, q: Request) {
    GetTxn(db, q.org, q.txn).Some? && !TerminalTxn(GetTxn(db, q.org, q.txn).value.status)
  }

  /** The approval a proposal asks for. */
  function Wanted(db: Store, bid: Bid, id: Id): Approval
    requires id in db.actions
  {
    Approval("", bid.q.org, bid.q.txn, id, db.actions[id].amount, Pending)
  }

  ghost predicate RuleStep(s: Shared, th: Thread, s': Shared, th': Thread) {
    match th
    case RuleStart(org, k, approve) =>
      && s' == s.(db := DecideApproval(s.db, org, k, approve))
      && (if Decidable(s.db, org, k).None? then th' == Finished
          else if approve then th' == Granted1(org, s'.db.approvals[k])
          else th' == Resuming(org, s.db.approvals[k].txn, Aborting))
    case Granted1(org, p) =>
      && s' == s
      && (match GetAction(s.db, org, p.action)
          case Some(a) => th' == Granted2(org, p, a)
          case None => th' == Finished)
    case Granted2(org, p, a) =>
      s' == s.(db := UpdateAction(s.db, a.(status := Approved))) && th' == Resuming(org, p.txn, Executing)
    case Resuming(org, txn, to) =>
      && s' == s
      && (match GetTxn(s.db, org, txn)
          case Some(t) => th' == Moving(org, txn, Moved(t.status, to))
          case None => th' == Finished)
    case _ => false
  }

  /** Whether running an action moves its transaction to EXECUTING. */
  predicate MustStart(db: Store, a: Action) {
    var t := GetTxn(db, a.org, a.txn);
    t.Some? && t.value.status in {Created, Planning, AwaitingApproval}
  }

  /** The receipt an executed action gets; a reconciled one dates from the action's creation. */
  ghost predicate IsReceiptOf(e: Env, b: Action, how: Settlement, r: Receipt) {
    b.result.Some? && exists slip: Slip :: (how == FromReconciliation ==> slip.started == b.createdAt) && r == NewReceipt(e, b, b.result.value, how, slip)
  }

  function Signed(e: Env, g: Ledger, r: Receipt): Receipt {
    var stored := Chained(e.codec, g, r);
    var (keyId, signature) := e.sign(stored.hash);
    stored.(keyId := keyId, signature := signature)
  }

  ghost predicate RunStep(e: Env, s: Shared, th: Thread, s': Shared, th': Thread) {
    match th
    case RunStart(org, id, approvedPath) =>
      && s' == s
      && (match GetAction(s.db, org, id)
          case Some(a) => if MayRun(a, approvedPath) then th' == Ready(a) else th' == Finished
          case None => th' == Finished)
    case Ready(a) =>
      s' == s && th' == if MustStart(s.db, a) then Starting(a) else Calling(a)
    case Starting(a) =>
      s' == s.(db := SetTxnStatus(s.db, a.org, a.txn, Executing)) && th' == Calling(a)
    case Calling(a) =>
      && s' == s.(calls := if Reaches(e, a) then s.calls + [a.id] else s.calls)
      && th'.Writing?
      && (if Reaches(e, a) then exists answer :: th'.b == Answered(a, answer) else th'.b == Answered(a, FailedDefinitely))
    case Writing(b) =>
      && s' == s.(db := UpdateAction(s.db, b))
      && th' == if b.status == Executed then Attesting(b, NotCompensated) else Finished
    case Attesting(b, how) =>
      exists r :: IsReceiptOf(e, b, how, r) && s' == s.(db := AppendReceipt(e.codec, s.db, r)) && th' == Signing(Signed(e, s.db.ledger, r))
    case Signing(r) =>
      s' == s.(db := UpdateReceipt(s.db, r)) && th' == Finished
    case _ => false
  }

  ghost predicate ProbeStep(s: Shared, th: Thread, s': Shared, th': Thread) {
    match th
    case ProbeStart(org, id) =>
      && s' == s
      && (match GetAction(s.db, org, id)
          case Some(a) => if a.status == Unknown then th' == Probing(a) else th' == Finished
          case None => th' == Finished)
    case Probing(a) =>
      && s' == s
      && (|| th' == Finished
          || th' == Settling(a.(status := Errored))
          || exists result :: th' == Settling(a.(status := Executed, result := Some(result))))
    case Settling(b) =>
      && s' == s.(db := UpdateAction(s.db, b))
      && th' == if b.status == Executed then Attesting(b, FromReconciliation) else Finished
    case _ => false
  }

  ghost predicate UnwindStep(s: Shared, th: Thread, s': Shared, th': Thread) {
    match th
    case UnwindStart(org, txn) =>
      s' == s && th' == if GetTxn(s.db, org, txn).Some? then UnwindList(org, txn) else Finished
    case UnwindList(org, txn) =>
      s' == s && exists ids :: Lists(s.db, org, txn, ids) && th' == UnwindMark(org, txn, Reversed(Snapshot(s.db, ids)))
    case UnwindMark(org, txn, queue) =>
      s' == s.(db := SetTxnStatus(s.db, org, txn, Compensating)) && th' == Unwinding(org, txn, queue, false)
    case Unwinding(org, txn, queue, failed) =>
      if queue == [] then
        && s' == s.(db := SetTxnStatus(s.db, org, txn, if failed then PartiallyCompensated else RolledBack))
        && th' == Finished
      else
        && s' == s
        && (if queue[0].status != Executed then th' == Unwinding(org, txn, queue[1..], failed)
            else if Skipped(queue[0]) then th' == Unwinding(org, txn, queue[1..], true)
            else th'.Undone1? && th' == Undone1(org, txn, queue[1..], failed || !th'.ok, queue[0].id, th'.ok))
    case Undone1(org, txn, queue, failed, id, ok) =>
      && s' == s
      && (match GetAction(s.db, org, id)
          case Some(a) => th' == Undone2(org, txn, queue, failed, a.(status := if ok then Compensated else CompensationFailed))
          case None => th' == Finished)
    case Undone2(org, txn, queue, failed, b) =>
      s' == s.(db := UpdateAction(s.db, b)) && th' == Unwinding(org, txn, queue, failed)
    case _ => false
  }

  ghost predicate CommitStep(s: Shared, th: Thread, s': Shared, th': Thread) {
    match th
    case CommitStart(org, txn) =>
      && s' == s
      && (match GetTxn(s.db, org, txn)
          case Some(t) => th' == if TerminalTxn(t.status) then Finished else CommitList(org, txn, t.status)
          case None => th' == Finished)
    case CommitList(org, txn, st) =>
      s' == s && th' == if AllResolved(s.db, org, txn) && CanTransition(st, Committed) then Committing(org, txn) else Finished
    case Committing(org, txn) =>
      s' == s.(db := SetTxnStatus(s.db, org, txn, Committed)) && th' == Finished
    case _ => false
  }

  ghost predicate ThreadStep(e: Env, s: Shared, th: Thread, s': Shared, th': Thread) {
    || ProposeStep(e, s, th, s', th')
    || RuleStep(s, th, s', th')
    || RunStep(e, s, th, s', th')
    || ProbeStep(s, th, s', th')
    || UnwindStep(s, th, s', th')
    || CommitStep(s, th, s', th')
  }

  datatype System = System(shared: Shared, threads: map<nat, Thread>)

  datatype Label = Arrive(t: nat) | Move(t: nat) | Ambient

  ghost predicate Start(s: System) {
    s == System(Shared(EMPTY, []), map[])
  }

  ghost predicate SystemStep(e: Env, s: System, s': System, l: Label) {
    match l
    case Arrive(t) =>
      && s'.shared == s.shared && t !in s.threads && t in s'.threads && IsArrival(s'.threads[t])
      && s'.threads == s.threads[t := s'.threads[t]]
    case Move(t) =>
      && t in s.threads && t in s'.threads && s'.threads == s.threads[t := s'.threads[t]]
      && ThreadStep(e, s.shared, s.threads[t], s'.shared, s'.threads[t])
    case Ambient =>
      Surrounds(s.shared.db, s'.shared.db) && s'.shared.calls == s.shared.calls && s'.threads == s.threads
  }

  ghost predicate IsPath(e: Env, ss: seq<System>, ls: seq<Label>) {
    |ss| == |ls| + 1 && forall i :: 0 <= i < |ls| ==> SystemStep(e, ss[i], ss[i + 1], ls[i])
  }

  ghost predicate IsTrace(e: Env, ss: seq<System>, ls: seq<Label>) {
    IsPath(e, ss, ls) && Start(ss[0])
  }

  ghost predicate Reachable(e: Env, s: System, s': System) {
    exists ss, ls :: IsPath(e, ss, ls) && ss[0] == s && ss[|ls|] == s'
  }

  function WithThread(s: System, shared: Shared, t: nat, th: Thread): System {
    System(shared, s.threads[t := th])
  }

  // ----- what holds throughout -----

  ghost predicate GrantedFor(db: Store, id: Id) {
    exists k :: k in db.approvals && db.approvals[k].action == id && db.approvals[k].status == Granted
  }

  ghost predicate HasAnyApproval(db: Store, id: Id) {
    exists k :: k in db.approvals && db.approvals[k].action == id
  }

  predicate DecidedAs(a: Action, e: Effect) {
    a.decision.Some? && a.decision.value.effect == e
  }

  /** The recorded decision permits the action, or asks for an approval that was granted. */
  ghost predicate Cleared(db: Store, id: Id) {
    && id in db.actions && db.actions[id].decision.Some?
    && (Permits(db.actions[id].decision.value.effect)
        || (db.actions[id].decision.value.effect == RequireApproval && GrantedFor(db, id)))
  }

  /** The decision phase is over. */
  predicate Settled(db: Store, id: Id) {
    id in db.actions && db.actions[id].status != Proposed
  }

  predicate IsReleased(st: ActionStatus) {
    st != Proposed && st != Denied && st != AwaitingDecision
  }

  /** Past every gate: allowed, approved, or already attempted. */
  predicate Released(db: Store, id: Id) {
    id in db.actions && IsReleased(db.actions[id].status)
  }

  ghost predicate ActionSafe(db: Store, id: Id)
    requires id in db.actions
  {
    var a := db.actions[id];
    && a.id == id
    && (a.status == Denied ==> DecidedAs(a, Deny))
    && (a.status == AwaitingDecision ==> DecidedAs(a, RequireApproval))
    && (IsReleased(a.status) ==> Cleared(db, id))
  }

  ghost predicate ApprovalSafe(db: Store, k: Id)
    requires k in db.approvals
  {
    var p := db.approvals[k];
    && p.id == k && Settled(db, p.action)
    && DecidedAs(db.actions[p.action], RequireApproval)
    && (p.status != Granted ==> db.actions[p.action].status == AwaitingDecision)
  }

  ghost predicate OneEach(db: Store) {
    forall j, k :: j in db.approvals && k in db.approvals && db.approvals[j].action == db.approvals[k].action ==> j == k
  }

  ghost predicate RecordsSafe(db: Store) {
    && (forall id :: id in db.actions ==> ActionSafe(db, id))
    && (forall k :: k in db.approvals ==> ApprovalSafe(db, k))
    && OneEach(db)
  }

  /** A copy a request may act on: of a released action, out of date at most in status and result. */
  predicate Held(db: Store, a: Action) {
    Released(db, a.id) && SameDeed(db.actions[a.id], a)
  }

  /** A live record still being decided by its own proposal. */
  ghost predicate Undecided(db: Store, id: Id) {
    id in db.actions && db.actions[id].status == Proposed && !HasAnyApproval(db, id)
  }

  /** A live record whose proposal has marked it but not yet finished with it. */
  ghost predicate Marked(db: Store, id: Id, d: Decision) {
    && Settled(db, id) && db.actions[id].decision == Some(d)
    && (d.effect == RequireApproval ==> db.actions[id].status == AwaitingDecision && !HasAnyApproval(db, id))
  }

  predicate OnRecord(db: Store, p: Approval) {
    p.id in db.approvals && db.approvals[p.id] == p && p.status == Granted
  }

  predicate QueueSafe(db: Store, queue: seq<Action>) {
    forall i :: 0 <= i < |queue| && queue[i].status == Executed ==> Released(db, queue[i].id)
  }

  ghost predicate ThreadSafe(db: Store, th: Thread) {
    match th
    case Deciding(_, id) => Undecided(db, id)
    case Screening(_, id, d) => Undecided(db, id)
    case Marking(_, id, d) => Undecided(db, id) && db.actions[id].decision == Some(d)
    case Saving(_, id, d) => Marked(db, id, d)
    case Asking(_, id, d) => Marked(db, id, d) && d.effect == RequireApproval
    case Granted1(_, p) => OnRecord(db, p)
    case Granted2(_, p, a) => OnRecord(db, p) && a.id == p.action && Settled(db, a.id) && SameDeed(db.actions[a.id], a)
    case Ready(a) => Held(db, a)
    case Starting(a) => Held(db, a)
    case Calling(a) => Held(db, a)
    case Writing(b) => Held(db, b) && IsReleased(b.status)
    case Probing(a) => Held(db, a)
    case Settling(b) => Held(db, b) && IsReleased(b.status)
    case UnwindMark(_, _, queue) => QueueSafe(db, queue)
    case Unwinding(_, _, queue, _) => QueueSafe(db, queue)
    case Undone1(_, _, queue, _, id, _) => QueueSafe(db, queue) && Released(db, id)
    case Undone2(_, _, queue, _, b) => QueueSafe(db, queue) && Held(db, b) && IsReleased(b.status)
    case _ => true
  }

  /** The live record a proposal still owns. */
  function Owned(th: Thread): Option<Id> {
    match th
    case Deciding(_, id) => Some(id)
    case Screening(_, id, _) => Some(id)
    case Marking(_, id, _) => Some(id)
    case Saving(_, id, _) => Some(id)
    case Asking(_, id, _) => Some(id)
    case _ => None
  }

  ghost predicate OwnersDistinct(threads: map<nat, Thread>) {
    forall t, u :: t in threads && u in threads && t != u && Owned(threads[t]).Some? ==> Owned(threads[t]) != Owned(threads[u])
  }

  ghost predicate ThreadsSafe(db: Store, threads: map<nat, Thread>) {
    forall t :: t in threads ==> ThreadSafe(db, threads[t])
  }

  ghost predicate Safe(s: System) {
    && RecordsSafe(s.shared.db)
    && ThreadsSafe(s.shared.db, s.threads)
    && OwnersDistinct(s.threads)
    && forall id :: id in s.shared.calls ==> Released(s.shared.db, id)
  }

  // ----- what a step writes -----

  datatype Write =
    | Nowhere
    | Add(a: Action)
    | Decide(id: Id, d: Decision)
    | Mark(id: Id, st: ActionStatus)
    | Put(b: Action)
    | Ask(p: Approval)
    | Settle(p: Approval)

  /** The effect of a write on actions and approvals, and when it is in order. */
  ghost predicate Wrote(db: Store, db': Store, w: Write) {
    match w
    case Nowhere => db'.actions == db.actions && db'.approvals == db.approvals
    case Add(a) =>
      && a.id !in db.actions && a.status == Proposed && !HasAnyApproval(db, a.id)
      && db'.actions == db.actions[a.id := a] && db'.approvals == db.approvals
    case Decide(id, d) =>
      && Undecided(db, id)
      && db'.actions == db.actions[id := db.actions[id].(decision := Some(d))] && db'.approvals == db.approvals
    case Mark(id, st) =>
      && Undecided(db, id) && db.actions[id].decision.Some? && st == StatusFor(db.actions[id].decision.value.effect)
      && db'.actions == db.actions[id := db.actions[id].(status := st)] && db'.approvals == db.approvals
    case Put(b) =>
      && Settled(db, b.id) && SameDeed(db.actions[b.id], b) && IsReleased(b.status)
      && (Released(db, b.id) || (db.actions[b.id].status == AwaitingDecision && GrantedFor(db, b.id)))
      && db'.actions == db.actions[b.id := b] && db'.approvals == db.approvals
    case Ask(p) =>
      && p.id !in db.approvals && p.status == Pending && p.action in db.actions
      && DecidedAs(db.actions[p.action], RequireApproval) && db.actions[p.action].status == AwaitingDecision
      && !HasAnyApproval(db, p.action)
      && db'.actions == db.actions && db'.approvals == db.approvals[p.id := p]
    case Settle(p) =>
      && p.id in db.approvals && db.approvals[p.id].status == Pending && p == db.approvals[p.id].(status := p.status)
      && db'.actions == db.actions && db'.approvals == db.approvals[p.id := p]
  }

  /** The live record a write belongs to, when only its owner may make it. */
  function WriteOwner(w: Write): Option<Id> {
    match w
    case Decide(id, _) => Some(id)
    case Mark(id, _) => Some(id)
    case Ask(p) => Some(p.action)
    case _ => None
  }

  /** What a request about to store a copy stores, if it is about to. */
  function Storing(th: Thread): Option<Action> {
    match th
    case Granted2(_, _, a) => Some(a.(status := Approved))
    case Writing(b) => Some(b)
    case Settling(b) => Some(b)
    case Undone2(_, _, _, _, b) => Some(b)
    case _ => None
  }

  /** Settled actions stay settled and keep their terms; released ones stay released. */
  ghost predicate Kept(db: Store, db': Store) {
    && (forall id :: Settled(db, id) ==> Settled(db', id) && SameDeed(db.actions[id], db'.actions[id]))
    && (forall id :: Released(db, id) ==> Released(db', id))
  }

  /** A request's step makes one write in order, keeps what the request relies on, writes to a
      live record only as its owner, and calls at most the tool of a released action it holds. */
  ghost predicate Lawful(s: Shared, th: Thread, s': Shared, th': Thread, w: Write) {
    && Wrote(s.db, s'.db, w) && ThreadSafe(s'.db, th')
    && (w.Add? ==> th.Adding? && th'.Deciding?)
    && Storing(th) == (if w.Put? then Some(w.b) else None)
    && (WriteOwner(w).Some? ==> WriteOwner(w) == Owned(th))
    && (Owned(th').Some? ==> Owned(th') == Owned(th) || Owned(th').value !in s.db.actions)
    && (s'.calls == s.calls || (th.Calling? && s'.calls == s.calls + [th.a.id] && Released(s.db, th.a.id)))
  }

  /** Authorised as recorded: a permitting decision, or an approval record that is the
      action's only one and was granted. */
  ghost predicate Authorised(db: Store, id: Id) {
    && Cleared(db, id) && Released(db, id)
    && (forall k :: k in db.approvals && db.approvals[k].action == id ==> db.approvals[k].status == Granted)
    && (forall j, k :: j in db.approvals && k in db.approvals && db.approvals[j].action == id == db.approvals[k].action ==> j == k)
  }
}
