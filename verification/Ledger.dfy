/** Receipts, tool calls and amounts: one call per action at most, one receipt per action that
    took effect, and totals that agree. */
module LedgerLaws {
  import opened Domain
  import opened Receipts
  import opened StoreSpec
  import opened GatewaySpec
  import opened Sums
  import opened Protocol
  import opened Compensation
  import opened Invariants

  /** The action took effect, whether or not it was undone later. */
  predicate TookEffect(st: ActionStatus) {
    st == Executed || st == Compensated || st == CompensationFailed
  }

  /** The action has been through execution. */
  predicate WasRun(st: ActionStatus) {
    TookEffect(st) || st == Errored || st == Unknown
  }

  predicate WasUndone(st: ActionStatus) {
    st == Compensated || st == CompensationFailed
  }

  ghost predicate HasReceipt(list: seq<Receipt>, id: Id) {
    exists i :: 0 <= i < |list| && list[i].action == id
  }

  ghost predicate ReceiptFits(db: Store, r: Receipt) {
    r.action in db.actions && Attests(r, db.actions[r.action]) && TookEffect(db.actions[r.action].status)
  }

  /** Receipts are for distinct actions that took effect, and every such action has one. */
  ghost predicate Attested(db: Store) {
    && (forall i :: 0 <= i < |db.ledger.list| ==> ReceiptFits(db, db.ledger.list[i]))
    && (forall i, j :: 0 <= i < j < |db.ledger.list| ==> db.ledger.list[i].action != db.ledger.list[j].action)
    && (forall id :: id in db.actions && TookEffect(db.actions[id].status) ==> HasReceipt(db.ledger.list, id))
  }

  /** No action was handed to its tool twice, nor to its compensator twice. */
  ghost predicate CalledOnce(w: World) {
    && Distinct(w.calls) && (forall id :: id in w.calls ==> id in w.db.actions && WasRun(w.db.actions[id].status))
    && Distinct(w.undos) && (forall id :: id in w.undos ==> id in w.db.actions && WasUndone(w.db.actions[id].status))
  }

  lemma ReceiptsStillFit(e: Env, w: World, w': World, c: Change, r: Receipt, r': Receipt)
    requires Sound(w.db) && Changed(e, w, w', c) && ReceiptFits(w.db, r) && SameTerms(r', r)
    ensures ReceiptFits(w'.db, r')
  {
    ActionsKept(e, w, w', c);
    StatusMoves(e, w, w', c, r.action);
  }

  /** The changes that issue a receipt. */
  predicate Issues(c: Change) {
    (c.Ran? || c.Probed?) && c.b.status == Executed
  }

  lemma ReceiptIssued(e: Env, w: World, w': World, c: Change)
    requires Changed(e, w, w', c) && Issues(c)
    ensures LedgerGrew(w.db.ledger, w'.db.ledger, c.b)
    ensures c.b.id in w.db.actions && !TookEffect(w.db.actions[c.b.id].status)
    ensures c.b.id in w'.db.actions && w'.db.actions[c.b.id] == c.b
  {
  }

  lemma NoReceiptIssued(e: Env, w: World, w': World, c: Change)
    requires Changed(e, w, w', c) && !Issues(c)
    ensures w'.db.ledger == w.db.ledger
  {
  }

  /** An action comes into effect only by a change that issues its receipt. */
  lemma EffectNeedsReceipt(e: Env, w: World, w': World, c: Change, id: Id)
    requires Sound(w.db) && Changed(e, w, w', c)
    requires id in w'.db.actions && TookEffect(w'.db.actions[id].status)
    ensures (id in w.db.actions && TookEffect(w.db.actions[id].status)) || (Issues(c) && id == c.b.id)
  {
    ActionsKept(e, w, w', c);
    if id in w.db.actions {
      StatusMoves(e, w, w', c, id);
      EffectMoves(w, w', c, id);
    } else {
      AddedFits(w, w', c.a, c.approvalId);
      AddedHasNoEffect(e, w, w', c);
    }
  }

  lemma EffectMoves(w: World, w': World, c: Change, id: Id)
    requires id in w.db.actions && id in w'.db.actions && MovedBy(w, w', c, id) && TookEffect(w'.db.actions[id].status)
    ensures TookEffect(w.db.actions[id].status) || (Issues(c) && id == c.b.id)
  {
  }

  lemma AddedHasNoEffect(e: Env, w: World, w': World, c: Change)
    requires Changed(e, w, w', c) && c.Added?
    ensures !TookEffect(c.a.status)
  {
  }

  lemma AttestedGrows(w: World, w': World, b: Action)
    requires Attested(w.db) && LedgerGrew(w.db.ledger, w'.db.ledger, b)
    requires b.id in w.db.actions && !TookEffect(w.db.actions[b.id].status)
    requires b.id in w'.db.actions && w'.db.actions[b.id] == b && b.status == Executed
    requires forall i :: 0 <= i < |w.db.ledger.list| ==> ReceiptFits(w'.db, w'.db.ledger.list[i])
    requires forall id :: id in w'.db.actions && TookEffect(w'.db.actions[id].status) ==>
               (id in w.db.actions && TookEffect(w.db.actions[id].status)) || id == b.id
    ensures Attested(w'.db)
  {
    var list, list' := w.db.ledger.list, w'.db.ledger.list;
    forall i | 0 <= i < |list'| ensures ReceiptFits(w'.db, list'[i]) {
    }
    forall i, j | 0 <= i < j < |list'| ensures list'[i].action != list'[j].action {
      assert ReceiptFits(w.db, list[i]);
    }
    forall id | id in w'.db.actions && TookEffect(w'.db.actions[id].status) ensures HasReceipt(list', id) {
      if id == b.id {
        assert list'[|list|].action == id;
      } else {
        var i :| 0 <= i < |list| && list[i].action == id;
        assert list'[i].action == id;
      }
    }
  }

  lemma AttestedKept(e: Env, w: World, w': World, c: Change)
    requires Sound(w.db) && Changed(e, w, w', c) && Attested(w.db)
    ensures Attested(w'.db)
  {
    var list, list' := w.db.ledger.list, w'.db.ledger.list;
    forall id | id in w'.db.actions && TookEffect(w'.db.actions[id].status)
      ensures (id in w.db.actions && TookEffect(w.db.actions[id].status)) || (Issues(c) && id == c.b.id)
    {
      EffectNeedsReceipt(e, w, w', c, id);
    }
    if Issues(c) {
      ReceiptIssued(e, w, w', c);
    } else {
      NoReceiptIssued(e, w, w', c);
    }
    forall i | 0 <= i < |list| ensures ReceiptFits(w'.db, list'[i]) {
      ReceiptsStillFit(e, w, w', c, list[i], list'[i]);
    }
    if Issues(c) {
      AttestedGrows(w, w', c.b);
    }
  }

  lemma {:induction false} AttemptedAreExecuted(e: Env, acts: seq<Action>)
    requires forall i, j :: 0 <= i < j < |acts| ==> acts[i].id != acts[j].id
    ensures Distinct(Attempted(e, acts))
    ensures forall id :: id in Attempted(e, acts) ==> exists a :: a in acts && a.id == id && a.status == Executed && !Skipped(a)
  {
    if acts != [] {
      var n := |acts| - 1;
      AttemptedAreExecuted(e, acts[..n]);
      assert acts == acts[..n] + [acts[n]];
      assert acts[n].id !in Attempted(e, acts[..n]);
    }
  }

  lemma AttemptedWereExecuted(e: Env, db: Store, org: Id, txn: Id, ids: seq<Id>)
    requires Lists(db, org, txn, ids) && Findable(db)
    ensures Distinct(Attempted(e, Reversed(Snapshot(db, ids))))
    ensures forall id :: id in Attempted(e, Reversed(Snapshot(db, ids))) ==>
                           id in ids && db.actions[id].status == Executed && !Skipped(db.actions[id])
  {
    var acts := Reversed(Snapshot(db, ids));
    ReversedSnapshot(db, org, txn, ids);
    AttemptedAreExecuted(e, acts);
    forall id | id in Attempted(e, acts) ensures id in ids && db.actions[id].status == Executed && !Skipped(db.actions[id]) {
      var a :| a in acts && a.id == id && a.status == Executed && !Skipped(a);
      var k :| k in ids && db.actions[k] == a;
    }
  }

  lemma NewUndos(e: Env, w: World, w': World, c: Change)
    requires Sound(w.db) && Changed(e, w, w', c) && c.Unwound?
    ensures w'.undos == w.undos + Attempted(e, Reversed(Snapshot(w.db, c.ids)))
    ensures forall id :: id in c.ids && w.db.actions[id].status == Executed && !Skipped(w.db.actions[id]) ==>
                           id in w'.db.actions && WasUndone(w'.db.actions[id].status)
  {
  }

  lemma NoNewUndos(e: Env, w: World, w': World, c: Change)
    requires Changed(e, w, w', c) && !c.Unwound?
    ensures w'.undos == w.undos
  {
  }

  /** The lifecycle never takes back that an action ran or was undone. */
  lemma EdgeKeeps(from: ActionStatus, to: ActionStatus)
    requires from == to || StatusEdge(from, to)
    ensures WasUndone(from) ==> WasUndone(to)
    ensures WasRun(from) ==> WasRun(to)
  {
  }

  lemma UndosKept(e: Env, w: World, w': World, c: Change)
    requires Sound(w.db) && Changed(e, w, w', c) && CalledOnce(w)
    ensures Distinct(w'.undos) && forall id :: id in w'.undos ==> id in w'.db.actions && WasUndone(w'.db.actions[id].status)
  {
    forall id | id in w.undos ensures id in w'.db.actions && WasUndone(w'.db.actions[id].status) {
      StatusKept(e, w, w', c, id);
      EdgeKeeps(w.db.actions[id].status, w'.db.actions[id].status);
    }
    if c.Unwound? {
      AttemptedWereExecuted(e, w.db, c.org, c.txn, c.ids);
      NewUndos(e, w, w', c);
      DistinctJoin(w.undos, Attempted(e, Reversed(Snapshot(w.db, c.ids))));
    } else {
      NoNewUndos(e, w, w', c);
    }
  }

  lemma DistinctJoin(a: seq<Id>, b: seq<Id>)
    requires Distinct(a) && Distinct(b) && forall id :: id in a ==> id !in b
    ensures Distinct(a + b) && forall id :: id in a + b <==> id in a || id in b
  {
    forall i, j | 0 <= i < j < |a + b| ensures (a + b)[i] != (a + b)[j] {
      if i < |a| <= j {
        assert a[i] in a && b[j - |a|] in b;
      }
    }
  }

  /** Only a run calls a tool, and only for an action that had not been through execution. */
  lemma NewCalls(e: Env, w: World, w': World, c: Change)
    requires Sound(w.db) && Changed(e, w, w', c)
    ensures || w'.calls == w.calls
            || (&& c.Ran? && w'.calls == w.calls + [c.b.id] && c.b.id in w.db.actions && !WasRun(w.db.actions[c.b.id].status)
                && c.b.id in w'.db.actions && WasRun(w'.db.actions[c.b.id].status))
  {
    if c.Ran? {
      RanNow(e, w, w', c);
    } else {
      OnlyRunsCall(e, w, w', c);
    }
  }

  lemma RanNow(e: Env, w: World, w': World, c: Change)
    requires Changed(e, w, w', c) && c.Ran?
    ensures w'.calls == if c.called then w.calls + [c.b.id] else w.calls
    ensures c.b.id in w.db.actions && !WasRun(w.db.actions[c.b.id].status)
    ensures c.b.id in w'.db.actions && WasRun(w'.db.actions[c.b.id].status)
  {
  }

  lemma OnlyRunsCall(e: Env, w: World, w': World, c: Change)
    requires Changed(e, w, w', c) && !c.Ran?
    ensures w'.calls == w.calls
  {
  }

  lemma CallsKept(e: Env, w: World, w': World, c: Change)
    requires Sound(w.db) && Changed(e, w, w', c) && CalledOnce(w)
    ensures Distinct(w'.calls) && forall id :: id in w'.calls ==> id in w'.db.actions && WasRun(w'.db.actions[id].status)
  {
    forall id | id in w.calls ensures id in w'.db.actions && WasRun(w'.db.actions[id].status) {
      StatusKept(e, w, w', c, id);
      EdgeKeeps(w.db.actions[id].status, w'.db.actions[id].status);
    }
    NewCalls(e, w, w', c);
    if w'.calls != w.calls {
      DistinctJoin(w.calls, [c.b.id]);
    }
  }

  lemma CalledOnceKept(e: Env, w: World, w': World, c: Change)
    requires Sound(w.db) && Changed(e, w, w', c) && CalledOnce(w)
    ensures CalledOnce(w')
  {
    CallsKept(e, w, w', c);
    UndosKept(e, w, w', c);
  }

  /** In every run each action reaches its tool at most once and its compensator at most once, and
      has exactly one receipt if it took effect and none otherwise. */
  lemma {:induction false} ReceiptsMatchExecutions(e: Env, ws: seq<World>, steps: seq<Step>, n: nat)
    requires IsRun(e, ws, steps) && n < |ws|
    ensures Attested(ws[n].db) && CalledOnce(ws[n])
  {
    if n > 0 {
      ReceiptsMatchExecutions(e, ws, steps, n - 1);
      RunsAreSound(e, ws, steps, n - 1);
      var c := Classify(e, ws[n - 1], steps[n - 1]);
      AttestedKept(e, ws[n - 1], ws[n], c);
      CalledOnceKept(e, ws[n - 1], ws[n], c);
    }
  }

  // ----- amounts -----

  /** The total a transaction's receipts state. */
  function ReceiptCents(list: seq<Receipt>, txn: Id): int {
    if list == [] then 0
    else
      var n := |list| - 1;
      ReceiptCents(list[..n], txn) + if list[n].txn == txn then CentsOr0(list[n].cents) else 0
  }

  ghost function EffectiveIds(db: Store, txn: Id): set<Id> {
    set id | id in db.actions && db.actions[id].txn == txn && TookEffect(db.actions[id].status)
  }

  function ReceiptedIds(list: seq<Receipt>, txn: Id): set<Id> {
    if list == [] then {}
    else
      var n := |list| - 1;
      ReceiptedIds(list[..n], txn) + if list[n].txn == txn then {list[n].action} else {}
  }

  lemma {:induction false} ReceiptedMembers(list: seq<Receipt>, txn: Id, id: Id)
    ensures id in ReceiptedIds(list, txn) <==> exists i :: 0 <= i < |list| && list[i].txn == txn && list[i].action == id
  {
    if list != [] {
      var n := |list| - 1;
      ReceiptedMembers(list[..n], txn, id);
      assert forall i :: 0 <= i < n ==> list[..n][i] == list[i];
    }
  }

  lemma {:induction false} ReceiptTotal(actions: map<Id, Action>, list: seq<Receipt>, txn: Id)
    requires forall i :: 0 <= i < |list| ==> list[i].action in actions && list[i].cents == actions[list[i].action].amount
    requires forall i, j :: 0 <= i < j < |list| ==> list[i].action != list[j].action
    ensures ReceiptedIds(list, txn) <= actions.Keys
    ensures ReceiptCents(list, txn) == SumAmounts(actions, ReceiptedIds(list, txn))
  {
    if list != [] {
      var n := |list| - 1;
      ReceiptTotal(actions, list[..n], txn);
      if list[n].txn == txn {
        ReceiptedMembers(list[..n], txn, list[n].action);
        SumInsert(actions, ReceiptedIds(list[..n], txn), list[n].action);
      } else {
        assert ReceiptedIds(list, txn) == ReceiptedIds(list[..n], txn);
      }
    }
  }

  /** A transaction's receipts add up to the amounts of exactly the actions that took effect. */
  lemma ReceiptsConserveAmounts(db: Store, txn: Id)
    requires Attested(db)
    ensures ReceiptCents(db.ledger.list, txn) == SumAmounts(db.actions, EffectiveIds(db, txn))
  {
    var list := db.ledger.list;
    forall i | 0 <= i < |list| ensures ReceiptFits(db, list[i]) {
    }
    ReceiptTotal(db.actions, list, txn);
    forall id ensures id in EffectiveIds(db, txn) <==> id in ReceiptedIds(list, txn) {
      ReceiptedMembers(list, txn, id);
      if id in EffectiveIds(db, txn) {
        var i :| 0 <= i < |list| && list[i].action == id;
        assert ReceiptFits(db, list[i]);
      }
    }
    assert EffectiveIds(db, txn) == ReceiptedIds(list, txn);
  }

  // ----- the hash chain along a run -----

  ghost predicate LedgerStep(c: Codec, g: Ledger, g': Ledger) {
    g' == g || exists r, s :: g' == Sign(Append(c, g, r), s)
  }

  lemma IssueStep(e: Env, db: Store, r: Receipt)
    ensures LedgerStep(e.codec, db.ledger, IssueReceipt(e, db, r).ledger)
  {
    var stored := Chained(e.codec, db.ledger, r);
    var (keyId, signature) := e.sign(stored.hash);
    assert IssueReceipt(e, db, r).ledger == Sign(Append(e.codec, db.ledger, r), stored.(keyId := keyId, signature := signature));
  }

  lemma FinishLedger(e: Env, w: World, a: Action, answer: ToolAnswer, slip: Slip)
    ensures LedgerStep(e.codec, w.db.ledger, Finish(e, w, a, answer, slip).world.db.ledger)
  {
    var b := Answered(a, answer);
    if answer.Succeeded? {
      IssueStep(e, UpdateAction(w.db, b), NewReceipt(e, b, answer.result, NotCompensated, slip));
    }
  }

  lemma RunLedger(e: Env, w: World, a: Action, answer: ToolAnswer, slip: Slip)
    ensures LedgerStep(e.codec, w.db.ledger, Run(e, w, a, answer, slip).world.db.ledger)
  {
    var calls := if Reaches(e, a) then w.calls + [a.id] else w.calls;
    FinishLedger(e, w.(db := Started(w.db, a), calls := calls), a, if Reaches(e, a) then answer else FailedDefinitely, slip);
  }

  lemma ReconciledLedger(e: Env, w: World, a: Action, finding: Finding, slip: Slip)
    ensures LedgerStep(e.codec, w.db.ledger, Reconciled(e, w, a, finding, slip).world.db.ledger)
  {
    if finding.Found? {
      var b := a.(status := Executed, result := Some(finding.result));
      IssueStep(e, UpdateAction(w.db, b), NewReceipt(e, b, finding.result, FromReconciliation, slip.(started := a.createdAt)));
    }
  }

  lemma ExecuteLedger(e: Env, w: World, org: Id, id: Id, answer: ToolAnswer, slip: Slip)
    ensures LedgerStep(e.codec, w.db.ledger, ExecuteAllowed(e, w, org, id, answer, slip).world.db.ledger)
    ensures LedgerStep(e.codec, w.db.ledger, RunApproved(e, w, org, id, answer, slip).world.db.ledger)
  {
    if GetAction(w.db, org, id).Some? {
      RunLedger(e, w, w.db.actions[id], answer, slip);
    }
  }

  lemma ReconcileLedger(e: Env, w: World, org: Id, id: Id, finding: Finding, slip: Slip)
    ensures LedgerStep(e.codec, w.db.ledger, Reconcile(e, w, org, id, finding, slip).world.db.ledger)
  {
    if Reconcilable(e, w.db, org, id, finding) {
      ReconcileTakesEffect(e, w, org, id, finding, slip);
      ReconciledLedger(e, w, w.db.actions[id], finding, slip);
    } else {
      ReconcileOnlyLogs(e, w, org, id, finding, slip);
    }
  }

  lemma ProposeLedger(e: Env, w: World, q: Request, d: Draw)
    requires d.actionId !in w.db.actions
    ensures Propose(e, w, q, d).world.db.ledger == w.db.ledger
  {
    ProposeShape(e, w, q, d);
  }

  lemma DecideLedger(db: Store, org: Id, id: Id, approve: bool)
    ensures DecideRoute(db, org, id, approve).ledger == db.ledger
  {
  }

  lemma CompensateLedger(e: Env, w: World, org: Id, txn: Id, ids: seq<Id>, undo: Id -> bool)
    requires Lists(w.db, org, txn, ids) && Findable(w.db)
    ensures Compensate(e, w, org, txn, ids, undo).0.db.ledger == w.db.ledger
  {
    if GetTxn(w.db, org, txn).Some? {
      CompensateShape(e, w, org, txn, ids, undo);
    }
  }

  lemma NextLedger(e: Env, w: World, step: Step)
    requires Sound(w.db) && Admissible(e, w, step)
    ensures LedgerStep(e.codec, w.db.ledger, Next(e, w, step).db.ledger)
  {
    match step {
      case ExecuteCall(org, id, answer, slip) => ExecuteLedger(e, w, org, id, answer, slip);
      case RunApprovedCall(org, id, answer, slip) => ExecuteLedger(e, w, org, id, answer, slip);
      case ReconcileCall(org, id, finding, slip) => ReconcileLedger(e, w, org, id, finding, slip);
      case ProposeCall(q, d) => ProposeLedger(e, w, q, d);
      case DecideCall(org, id, approve) => DecideLedger(w.db, org, id, approve);
      case CompensateCall(org, id, ids, undo) => CompensateLedger(e, w, org, id, ids, undo);
      case _ =>
    }
  }

  /** Every organization's chain verifies in every world of every run. */
  lemma {:induction false} RunsKeepChains(e: Env, ws: seq<World>, steps: seq<Step>, n: nat)
    requires IsRun(e, ws, steps) && n < |ws|
    ensures ChainsIntact(e.codec, ws[n].db.ledger)
  {
    if n > 0 {
      var g := ws[n - 1].db.ledger;
      RunsKeepChains(e, ws, steps, n - 1);
      RunsAreSound(e, ws, steps, n - 1);
      NextLedger(e, ws[n - 1], steps[n - 1]);
      if ws[n].db.ledger != g {
        var r, s :| ws[n].db.ledger == Sign(Append(e.codec, g, r), s);
        AppendKeepsChains(e.codec, g, r);
        SignKeepsChains(e.codec, Append(e.codec, g, r), s);
      }
    }
  }
}
