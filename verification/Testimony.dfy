/** What receipts say, field by field: the action's own operation and the digests of its arguments
    and of its result, with times and origin taken from the call that issued them. */
module Testimony {
  import opened Domain
  import opened Receipts
  import opened StoreSpec
  import opened GatewaySpec
  import opened Protocol
  import opened Invariants
  import opened LedgerLaws

  /** A receipt tells the operation, and the digests of the arguments and the result. */
  predicate Tells(c: Codec, r: Receipt, a: Action) {
    TellsDeed(c, r, a) && TellsResult(c, r, a)
  }

  predicate TellsDeed(c: Codec, r: Receipt, a: Action) {
    && r.action == a.id && r.org == a.org && r.txn == a.txn && r.tool == a.tool && r.name == a.name
    && r.argsHash == c.canonical(a.args) && r.cents == a.amount
    && a.decision.Some? && r.decision == a.decision.value.effect && r.version == a.decision.value.version
  }

  predicate TellsResult(c: Codec, r: Receipt, a: Action) {
    a.result.Some? && r.resultHash == c.canonical(a.result.value)
  }

  /** Stored argument digests are digests of the stored arguments. */
  predicate ArgsHashed(c: Codec, db: Store) {
    forall id :: id in db.actions ==> db.actions[id].argsHash == c.canonical(db.actions[id].args)
  }

  predicate ToldAt(c: Codec, db: Store, i: nat)
    requires i < |db.ledger.list|
  {
    var r := db.ledger.list[i]; r.action in db.actions && Tells(c, r, db.actions[r.action])
  }

  ghost predicate AllTold(c: Codec, db: Store) {
    forall i :: 0 <= i < |db.ledger.list| ==> ToldAt(c, db, i)
  }

  // ----- the receipt a call issues -----

  /** A call's receipt for the action as it stored it, signed over its hash. */
  predicate IsIssued(e: Env, r: Receipt, a: Action, how: Settlement, id: Id, started: Time, completed: Time) {
    && r.id == id && r.startedAt == started && r.completedAt == completed && r.compensation == how
    && TellsDeed(e.codec, r, a) && TellsResult(e.codec, r, a) && (r.keyId, r.signature) == e.sign(r.hash)
  }

  /** The ledger is as it was, but for one receipt at its end and signatures. */
  ghost predicate Gained(g: Ledger, g': Ledger) {
    |g'.list| == |g.list| + 1 && forall i :: 0 <= i < |g.list| ==> SameTerms(g'.list[i], g.list[i])
  }

  lemma IssueGains(e: Env, db: Store, b: Action, result: Args, how: Settlement, slip: Slip)
    requires b.decision.Some? && b.result == Some(result) && b.argsHash == e.codec.canonical(b.args)
    ensures var db' := IssueReceipt(e, db, NewReceipt(e, b, result, how, slip));
            && Gained(db.ledger, db'.ledger)
            && IsIssued(e, db'.ledger.list[|db.ledger.list|], b, how, slip.receiptId, slip.started, slip.completed)
  {
  }

  lemma FinishGains(e: Env, w: World, a: Action, answer: ToolAnswer, slip: Slip)
    requires a.id in w.db.actions && a.decision.Some? && a.argsHash == e.codec.canonical(a.args)
    ensures var db' := Finish(e, w, a, answer, slip).world.db;
            if answer.Succeeded? then
              && Gained(w.db.ledger, db'.ledger) && a.id in db'.actions && db'.actions[a.id].result == Some(answer.result)
              && IsIssued(e, db'.ledger.list[|w.db.ledger.list|], db'.actions[a.id], NotCompensated, slip.receiptId, slip.started, slip.completed)
            else db'.ledger == w.db.ledger
  {
    if answer.Succeeded? {
      var b := Answered(a, answer);
      IssueGains(e, UpdateAction(w.db, b), b, answer.result, NotCompensated, slip);
    }
  }

  lemma RunGains(e: Env, w: World, a: Action, answer: ToolAnswer, slip: Slip)
    requires a.id in w.db.actions && a.decision.Some? && a.argsHash == e.codec.canonical(a.args)
    ensures var db' := Run(e, w, a, answer, slip).world.db;
            if Reaches(e, a) && answer.Succeeded? then
              && Gained(w.db.ledger, db'.ledger) && a.id in db'.actions && db'.actions[a.id].result == Some(answer.result)
              && IsIssued(e, db'.ledger.list[|w.db.ledger.list|], db'.actions[a.id], NotCompensated, slip.receiptId, slip.started, slip.completed)
            else db'.ledger == w.db.ledger
  {
    var calls := if Reaches(e, a) then w.calls + [a.id] else w.calls;
    FinishGains(e, w.(db := Started(w.db, a), calls := calls), a, if Reaches(e, a) then answer else FailedDefinitely, slip);
  }

  lemma ReconciledGains(e: Env, w: World, a: Action, finding: Finding, slip: Slip)
    requires a.id in w.db.actions && a.decision.Some? && a.argsHash == e.codec.canonical(a.args)
    ensures var db' := Reconciled(e, w, a, finding, slip).world.db;
            if finding.Found? then
              && Gained(w.db.ledger, db'.ledger) && a.id in db'.actions && db'.actions[a.id].result == Some(finding.result)
              && IsIssued(e, db'.ledger.list[|w.db.ledger.list|], db'.actions[a.id], FromReconciliation, slip.receiptId, a.createdAt, slip.completed)
            else db'.ledger == w.db.ledger
  {
    if finding.Found? {
      var b := a.(status := Executed, result := Some(finding.result));
      IssueGains(e, UpdateAction(w.db, b), b, finding.result, FromReconciliation, slip.(started := a.createdAt));
    }
  }

  // ----- along a run -----

  /** The receipt a step appended, if it appended one. */
  ghost predicate IssuedBy(e: Env, step: Step, db: Store, db': Store)
    requires |db.ledger.list| < |db'.ledger.list|
  {
    var r := db'.ledger.list[|db.ledger.list|];
    match step
    case ExecuteCall(_, id, answer, slip) =>
      && id in db'.actions && answer.Succeeded? && db'.actions[id].result == Some(answer.result)
      && IsIssued(e, r, db'.actions[id], NotCompensated, slip.receiptId, slip.started, slip.completed)
    case RunApprovedCall(_, id, answer, slip) =>
      && id in db'.actions && answer.Succeeded? && db'.actions[id].result == Some(answer.result)
      && IsIssued(e, r, db'.actions[id], NotCompensated, slip.receiptId, slip.started, slip.completed)
    case ReconcileCall(_, id, finding, slip) =>
      && id in db'.actions && finding.Found? && db'.actions[id].result == Some(finding.result)
      && IsIssued(e, r, db'.actions[id], FromReconciliation, slip.receiptId, db'.actions[id].createdAt, slip.completed)
    case _ => false
  }

  ghost predicate IssuesAtMost(e: Env, step: Step, db: Store, db': Store) {
    db'.ledger == db.ledger || (Gained(db.ledger, db'.ledger) && IssuedBy(e, step, db, db'))
  }

  lemma RunIssues(e: Env, w: World, org: Id, a: Action, answer: ToolAnswer, slip: Slip)
    requires a.id in w.db.actions && a.decision.Some? && a.argsHash == e.codec.canonical(a.args)
    ensures var db' := Run(e, w, a, answer, slip).world.db;
            && IssuesAtMost(e, ExecuteCall(org, a.id, answer, slip), w.db, db')
            && IssuesAtMost(e, RunApprovedCall(org, a.id, answer, slip), w.db, db')
  {
    RunGains(e, w, a, answer, slip);
  }

  lemma ExecuteIssues(e: Env, w: World, org: Id, id: Id, answer: ToolAnswer, slip: Slip)
    requires Sound(w.db) && ArgsHashed(e.codec, w.db)
    ensures IssuesAtMost(e, ExecuteCall(org, id, answer, slip), w.db, ExecuteAllowed(e, w, org, id, answer, slip).world.db)
  {
    ExecuteRuns(e, w, org, id, answer, slip);
    var a := GetAction(w.db, org, id);
    if a.Some? && MayRun(a.value, false) {
      RunIssues(e, w, org, a.value, answer, slip);
    }
  }

  lemma RunApprovedIssues(e: Env, w: World, org: Id, id: Id, answer: ToolAnswer, slip: Slip)
    requires Sound(w.db) && ArgsHashed(e.codec, w.db)
    ensures IssuesAtMost(e, RunApprovedCall(org, id, answer, slip), w.db, RunApproved(e, w, org, id, answer, slip).world.db)
  {
    ApprovedRuns(e, w, org, id, answer, slip);
    var a := GetAction(w.db, org, id);
    if a.Some? && MayRun(a.value, true) {
      assert StatusFits(a.value);
      RunIssues(e, w, org, a.value, answer, slip);
    }
  }

  lemma ReconciledIssues(e: Env, w: World, org: Id, a: Action, finding: Finding, slip: Slip)
    requires a.id in w.db.actions && a.decision.Some? && a.argsHash == e.codec.canonical(a.args)
    ensures IssuesAtMost(e, ReconcileCall(org, a.id, finding, slip), w.db, Reconciled(e, w, a, finding, slip).world.db)
  {
    ReconciledGains(e, w, a, finding, slip);
  }

  lemma ReconcileIssues(e: Env, w: World, org: Id, id: Id, finding: Finding, slip: Slip)
    requires Sound(w.db) && ArgsHashed(e.codec, w.db)
    ensures IssuesAtMost(e, ReconcileCall(org, id, finding, slip), w.db, Reconcile(e, w, org, id, finding, slip).world.db)
  {
    if Reconcilable(e, w.db, org, id, finding) {
      assert StatusFits(w.db.actions[id]);
      ReconcileTakesEffect(e, w, org, id, finding, slip);
      ReconciledIssues(e, w, org, w.db.actions[id], finding, slip);
    } else {
      ReconcileOnlyLogs(e, w, org, id, finding, slip);
    }
  }

  predicate IsExecution(step: Step) {
    step.ExecuteCall? || step.RunApprovedCall? || step.ReconcileCall?
  }

  lemma OthersDoNotIssue(e: Env, db: Store, step: Step, c: Change)
    requires MadeBy(e, db, step, c) && !IsExecution(step)
    ensures !Issues(c)
  {
  }

  lemma StepIssues(e: Env, w: World, step: Step)
    requires Sound(w.db) && ArgsHashed(e.codec, w.db) && Admissible(e, w, step)
    ensures IssuesAtMost(e, step, w.db, Next(e, w, step).db)
  {
    if step.ExecuteCall? {
      ExecuteIssues(e, w, step.org, step.id, step.answer, step.slip);
    } else if step.RunApprovedCall? {
      RunApprovedIssues(e, w, step.org, step.id, step.answer, step.slip);
    } else if step.ReconcileCall? {
      ReconcileIssues(e, w, step.org, step.id, step.finding, step.slip);
    } else {
      var c := Classify(e, w, step);
      OthersDoNotIssue(e, w.db, step, c);
      NoReceiptIssued(e, w, Next(e, w, step), c);
    }
  }

  /** What took effect keeps its result. */
  lemma ResultKept(e: Env, w: World, w': World, c: Change, id: Id)
    requires Sound(w.db) && Changed(e, w, w', c) && id in w.db.actions && TookEffect(w.db.actions[id].status)
    ensures id in w'.db.actions && w'.db.actions[id].result == w.db.actions[id].result
  {
    StatusMoves(e, w, w', c, id);
    if c.Unwound? {
      UnwoundResult(e, w, w', c, id);
    }
  }

  lemma UnwoundResult(e: Env, w: World, w': World, c: Change, id: Id)
    requires Changed(e, w, w', c) && c.Unwound? && id in w.db.actions
    ensures id in w'.db.actions && w'.db.actions[id].result == w.db.actions[id].result
  {
  }

  lemma AddedHashed(e: Env, db: Store, step: Step, c: Change)
    requires MadeBy(e, db, step, c) && c.Added?
    ensures c.a.argsHash == e.codec.canonical(c.a.args)
  {
  }

  lemma ArgsHashedKept(e: Env, w: World, w': World, step: Step, c: Change)
    requires Sound(w.db) && ArgsHashed(e.codec, w.db) && MadeBy(e, w.db, step, c) && Changed(e, w, w', c)
    ensures ArgsHashed(e.codec, w'.db)
  {
    ActionsKept(e, w, w', c);
    if c.Added? {
      AddedHashed(e, w.db, step, c);
    }
  }

  lemma StillTold(e: Env, w: World, w': World, c: Change, r: Receipt, r': Receipt)
    requires Sound(w.db) && Changed(e, w, w', c) && ReceiptFits(w.db, r) && Tells(e.codec, r, w.db.actions[r.action]) && SameTerms(r', r)
    ensures r'.action in w'.db.actions && Tells(e.codec, r', w'.db.actions[r'.action])
  {
    ActionsKept(e, w, w', c);
    ResultKept(e, w, w', c, r.action);
  }

  lemma IssuedTells(e: Env, step: Step, db: Store, db': Store)
    requires |db.ledger.list| < |db'.ledger.list| && IssuedBy(e, step, db, db')
    requires forall id :: id in db'.actions ==> db'.actions[id].id == id
    ensures var r := db'.ledger.list[|db.ledger.list|]; r.action in db'.actions && Tells(e.codec, r, db'.actions[r.action])
  {
  }

  /** Receipts already there go on telling the truth. */
  lemma OldTold(e: Env, w: World, w': World, c: Change)
    requires Sound(w.db) && Attested(w.db) && AllTold(e.codec, w.db) && Changed(e, w, w', c)
    requires |w.db.ledger.list| <= |w'.db.ledger.list|
    requires forall i :: 0 <= i < |w.db.ledger.list| ==> SameTerms(w'.db.ledger.list[i], w.db.ledger.list[i])
    ensures forall i :: 0 <= i < |w.db.ledger.list| ==> ToldAt(e.codec, w'.db, i)
  {
    var list, list' := w.db.ledger.list, w'.db.ledger.list;
    forall i | 0 <= i < |list| ensures ToldAt(e.codec, w'.db, i) {
      assert ReceiptFits(w.db, list[i]) && ToldAt(e.codec, w.db, i);
      StillTold(e, w, w', c, list[i], list'[i]);
    }
  }

  lemma AllToldAfter(e: Env, db: Store, db': Store, step: Step)
    requires |db.ledger.list| <= |db'.ledger.list| && forall i :: 0 <= i < |db.ledger.list| ==> ToldAt(e.codec, db', i)
    requires IssuesAtMost(e, step, db, db') && forall id :: id in db'.actions ==> db'.actions[id].id == id
    ensures AllTold(e.codec, db')
  {
    if db'.ledger != db.ledger {
      IssuedTells(e, step, db, db');
      assert ToldAt(e.codec, db', |db.ledger.list|);
    }
  }

  lemma AllToldKept(e: Env, w: World, step: Step)
    requires Sound(w.db) && Attested(w.db) && ArgsHashed(e.codec, w.db) && AllTold(e.codec, w.db) && Admissible(e, w, step)
    ensures AllTold(e.codec, Next(e, w, step).db)
  {
    var w' := Next(e, w, step);
    var c := Classify(e, w, step);
    SoundKept(e, w, w', c);
    StepIssues(e, w, step);
    OldTold(e, w, w', c);
    AllToldAfter(e, w.db, w'.db, step);
  }

  /** In every world of every run each receipt tells its action's operation, terms and decision, the
      digest of its arguments and the digest of its result. */
  lemma {:induction false} ReceiptsTellTheTruth(e: Env, ws: seq<World>, steps: seq<Step>, n: nat)
    requires IsRun(e, ws, steps) && n < |ws|
    ensures ArgsHashed(e.codec, ws[n].db) && AllTold(e.codec, ws[n].db)
  {
    if n > 0 {
      ReceiptsTellTheTruth(e, ws, steps, n - 1);
      RunsAreSound(e, ws, steps, n - 1);
      ReceiptsMatchExecutions(e, ws, steps, n - 1);
      var c := Classify(e, ws[n - 1], steps[n - 1]);
      ArgsHashedKept(e, ws[n - 1], ws[n], steps[n - 1], c);
      AllToldKept(e, ws[n - 1], steps[n - 1]);
    }
  }

  /** A step of a run leaves the ledger alone, or is an execution that succeeded or a reconciliation
      that found the effect, and appends one receipt with that call's result, times and origin. */
  lemma ReceiptOfCall(e: Env, ws: seq<World>, steps: seq<Step>, n: nat)
    requires IsRun(e, ws, steps) && n < |steps|
    ensures IssuesAtMost(e, steps[n], ws[n].db, ws[n + 1].db)
  {
    ReceiptsTellTheTruth(e, ws, steps, n);
    RunsAreSound(e, ws, steps, n);
    StepIssues(e, ws[n], steps[n]);
  }
}
