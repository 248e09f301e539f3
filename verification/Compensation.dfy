/** Compensation: which undos are attempted, in which order, and what the outcome says. */
module Compensation {
  import opened Domain
  import opened StoreSpec
  import opened GatewaySpec
  import opened Protocol

  /** An action after compensation has passed it: untouched unless it had executed and can be
      undone, and then marked by whether its compensator succeeded. */
  function AfterUndo(e: Env, a: Action, undo: Id -> bool): Action {
    if a.status != Executed || Skipped(a) then a
    else a.(status := if Undone(e, a, undo) then Compensated else CompensationFailed)
  }

  /** The compensators a loop over `acts` calls, in order. */
  function Attempted(e: Env, acts: seq<Action>): seq<Id> {
    if acts == [] then []
    else
      var a := acts[|acts| - 1];
      Attempted(e, acts[..|acts| - 1])
      + if a.status == Executed && !Skipped(a) && ToolKey(a.tool, a.name) in e.tools.compensators then [a.id] else []
  }

  ghost predicate Listed(acts: seq<Action>, id: Id) {
    exists i :: 0 <= i < |acts| && acts[i].id == id
  }

  ghost function AfterAll(e: Env, actions: map<Id, Action>, acts: seq<Action>, undo: Id -> bool): map<Id, Action> {
    map id | id in actions :: if Listed(acts, id) then AfterUndo(e, actions[id], undo) else actions[id]
  }

  predicate Missed(e: Env, a: Action, undo: Id -> bool) {
    a.status == Executed && AfterUndo(e, a, undo).status != Compensated
  }

  ghost predicate AnyMissed(e: Env, acts: seq<Action>, undo: Id -> bool) {
    exists a :: a in acts && Missed(e, a, undo)
  }

  /** `acts` are current records of distinct actions of one organization, found by the index. */
  ghost predicate FaithfulSnapshot(db: Store, org: Id, acts: seq<Action>) {
    && (forall i :: 0 <= i < |acts| ==>
          var a := acts[i];
          a.id in db.actions && db.actions[a.id] == a && a.org == org && KeyOf(a) in db.byIdem && db.byIdem[KeyOf(a)] == a.id)
    && (forall i, j :: 0 <= i < j < |acts| ==> acts[i].id != acts[j].id)
  }

  lemma AfterAllStep(e: Env, actions: map<Id, Action>, acts: seq<Action>, undo: Id -> bool)
    requires acts != []
    requires var a := acts[|acts| - 1]; a.id in actions && actions[a.id] == a && !Listed(acts[..|acts| - 1], a.id)
    ensures var a := acts[|acts| - 1];
            var before := AfterAll(e, actions, acts[..|acts| - 1], undo);
            before[a.id] == a && AfterAll(e, actions, acts, undo) == before[a.id := AfterUndo(e, a, undo)]
  {
    forall id { ListedLast(acts, id); }
  }

  /** The whole loop: who is undone, in what order compensators are called, and when it reports failure. */
  lemma {:induction false} UndoAllShape(e: Env, u: Undoing, org: Id, txn: Id, acts: seq<Action>, undo: Id -> bool)
    requires FaithfulSnapshot(u.world.db, org, acts)
    ensures var v := UndoAll(e, u, org, txn, acts, undo);
            && v.world == u.world.(undos := u.world.undos + Attempted(e, acts),
                                   db := u.world.db.(actions := AfterAll(e, u.world.db.actions, acts, undo), audit := v.world.db.audit))
            && (v.failed <==> u.failed || AnyMissed(e, acts, undo))
  {
    var db := u.world.db;
    if acts == [] {
      assert AfterAll(e, db.actions, acts, undo) == db.actions;
      assert u.world.undos + [] == u.world.undos;
    } else {
      var n := |acts| - 1;
      var a := acts[n];
      UndoAllShape(e, u, org, txn, acts[..n], undo);
      AfterAllStep(e, db.actions, acts, undo);
      UndoOneShape(e, UndoAll(e, u, org, txn, acts[..n], undo), org, txn, a, undo);
      MissedLast(e, acts, undo);
      AttemptedLast(e, acts, u.world.undos);
    }
  }

  lemma AttemptedLast(e: Env, acts: seq<Action>, undos: seq<Id>)
    requires acts != []
    ensures undos + Attempted(e, acts) == (undos + Attempted(e, acts[..|acts| - 1])) + Attempted(e, [acts[|acts| - 1]])
  {
    assert [acts[|acts| - 1]][..0] == [];
  }

  lemma MissedLast(e: Env, acts: seq<Action>, undo: Id -> bool)
    requires acts != []
    ensures AnyMissed(e, acts, undo) <==> AnyMissed(e, acts[..|acts| - 1], undo) || Missed(e, acts[|acts| - 1], undo)
  {
    var n := |acts| - 1;
    assert acts == acts[..n] + [acts[n]];
  }

  lemma ListedLast(acts: seq<Action>, id: Id)
    requires acts != []
    ensures Listed(acts, id) <==> Listed(acts[..|acts| - 1], id) || acts[|acts| - 1].id == id
  {
    if Listed(acts, id) {
      var i :| 0 <= i < |acts| && acts[i].id == id;
      assert i < |acts| - 1 ==> acts[..|acts| - 1][i].id == id;
    }
    if Listed(acts[..|acts| - 1], id) {
      var i :| 0 <= i < |acts| - 1 && acts[..|acts| - 1][i].id == id;
      assert acts[i].id == id;
    }
  }

  lemma UndoOneShape(e: Env, u: Undoing, org: Id, txn: Id, a: Action, undo: Id -> bool)
    requires a.id in u.world.db.actions && u.world.db.actions[a.id] == a && a.org == org
    requires KeyOf(a) in u.world.db.byIdem && u.world.db.byIdem[KeyOf(a)] == a.id
    ensures var v := UndoOne(e, u, org, txn, a, undo);
            && v.world == u.world.(undos := u.world.undos + Attempted(e, [a]),
                                   db := u.world.db.(actions := u.world.db.actions[a.id := AfterUndo(e, a, undo)], audit := v.world.db.audit))
            && (v.failed <==> u.failed || Missed(e, a, undo))
  {
    var db := u.world.db;
    assert [a][..0] == [];
    assert db.actions == db.actions[a.id := a];
    assert db.byIdem == db.byIdem[KeyOf(a) := a.id];
    assert u.world.undos + [] == u.world.undos;
  }

  lemma ReversedSnapshot(db: Store, org: Id, txn: Id, ids: seq<Id>)
    requires Lists(db, org, txn, ids) && Findable(db)
    ensures var acts := Reversed(Snapshot(db, ids));
            && FaithfulSnapshot(db, org, acts)
            && (forall id :: Listed(acts, id) <==> id in ids)
            && (forall a :: a in acts <==> exists id :: id in ids && db.actions[id] == a)
  {
    var acts := Reversed(Snapshot(db, ids));
    forall i | 0 <= i < |acts| ensures acts[i].id == ids[|ids| - 1 - i] && acts[i] == db.actions[ids[|ids| - 1 - i]] {
      assert ids[|ids| - 1 - i] in ids;
    }
    forall id | id in ids ensures Listed(acts, id) && db.actions[id] in acts {
      var k :| 0 <= k < |ids| && ids[k] == id;
      assert acts[|ids| - 1 - k] == db.actions[id];
    }
  }

  /** Compensators are called in exactly the reverse of the order the actions were listed in. */
  lemma {:induction false} AttemptedReversed(e: Env, acts: seq<Action>)
    ensures Attempted(e, Reversed(acts)) == Reversed(Attempted(e, acts))
  {
    if acts != [] {
      var n := |acts| - 1;
      var r := Reversed(acts);
      AttemptedReversed(e, acts[..n]);
      assert r == [acts[n]] + Reversed(acts[..n]);
      AttemptedConcat(e, [acts[n]], Reversed(acts[..n]));
      assert [acts[n]][..0] == [];
      var tail := Attempted(e, [acts[n]]);
      assert Attempted(e, acts) == Attempted(e, acts[..n]) + tail;
      assert Reversed(Attempted(e, acts[..n]) + tail) == tail + Reversed(Attempted(e, acts[..n]));
    }
  }

  lemma {:induction false} AttemptedConcat(e: Env, a: seq<Action>, b: seq<Action>)
    ensures Attempted(e, a + b) == Attempted(e, a) + Attempted(e, b)
  {
    if b == [] {
      assert a + b == a;
    } else {
      AttemptedConcat(e, a, b[..|b| - 1]);
      assert (a + b)[..|a + b| - 1] == a + b[..|b| - 1];
    }
  }

  ghost function AfterListed(e: Env, actions: map<Id, Action>, ids: seq<Id>, undo: Id -> bool): map<Id, Action> {
    map id | id in actions :: if id in ids then AfterUndo(e, actions[id], undo) else actions[id]
  }

  /** Actions sit under their own identifiers and the index finds each of them. */
  ghost predicate Findable(db: Store) {
    forall id :: id in db.actions ==>
      && db.actions[id].id == id
      && KeyOf(db.actions[id]) in db.byIdem && db.byIdem[KeyOf(db.actions[id])] == id
  }

  lemma CompensateShape(e: Env, w: World, org: Id, txn: Id, ids: seq<Id>, undo: Id -> bool)
    requires Lists(w.db, org, txn, ids) && GetTxn(w.db, org, txn).Some? && Findable(w.db)
    ensures var (w', final) := Compensate(e, w, org, txn, ids, undo);
            && final == Some(if AnyMissed(e, Reversed(Snapshot(w.db, ids)), undo) then PartiallyCompensated else RolledBack)
            && w' == w.(undos := w.undos + Attempted(e, Reversed(Snapshot(w.db, ids))),
                        db := w.db.(actions := AfterListed(e, w.db.actions, ids, undo),
                                    txns := WithStatus(w.db.txns, txn, final.value), audit := w'.db.audit))
  {
    var s := Emit(SetTxnStatus(w.db, org, txn, Compensating), AuditEvent(org, txn, CompensationStarted, txn));
    var acts := Reversed(Snapshot(w.db, ids));
    ReversedSnapshot(w.db, org, txn, ids);
    assert FaithfulSnapshot(s, org, acts);
    var u := Undoing(w.(db := s), false);
    UndoAllShape(e, u, org, txn, acts, undo);
    var v := UndoAll(e, u, org, txn, acts, undo);
    assert AfterAll(e, w.db.actions, acts, undo) == AfterListed(e, w.db.actions, ids, undo);
    var final := if v.failed then PartiallyCompensated else RolledBack;
    assert WithStatus(WithStatus(w.db.txns, txn, Compensating), txn, final) == WithStatus(w.db.txns, txn, final);
  }

  /** Compensation touches only the transaction's executed actions, calls compensators newest
      listed first, and reports ROLLED_BACK exactly when every executed action was undone. */
  lemma CompensationAccounting(e: Env, w: World, org: Id, txn: Id, ids: seq<Id>, undo: Id -> bool)
    requires Lists(w.db, org, txn, ids) && GetTxn(w.db, org, txn).Some? && Findable(w.db)
    ensures var (w', final) := Compensate(e, w, org, txn, ids, undo);
            && w'.undos == w.undos + Reversed(Attempted(e, Snapshot(w.db, ids)))
            && w'.db.actions == AfterListed(e, w.db.actions, ids, undo)
            && final.Some? && w'.db.txns == WithStatus(w.db.txns, txn, final.value)
            && final.value in {RolledBack, PartiallyCompensated}
            && (final.value == RolledBack
                <==> forall id :: id in ActionIds(w.db, org, txn) && w.db.actions[id].status == Executed
                                  ==> w'.db.actions[id].status == Compensated)
            && (forall id :: id in w.db.actions && (id !in ids || w.db.actions[id].status != Executed || Skipped(w.db.actions[id]))
                             ==> w'.db.actions[id] == w.db.actions[id])
  {
    CompensateShape(e, w, org, txn, ids, undo);
    ReversedSnapshot(w.db, org, txn, ids);
    AttemptedReversed(e, Snapshot(w.db, ids));
    var acts := Reversed(Snapshot(w.db, ids));
    var w' := Compensate(e, w, org, txn, ids, undo).0;
    if AnyMissed(e, acts, undo) {
      var a :| a in acts && Missed(e, a, undo);
      var id :| id in ids && w.db.actions[id] == a;
      assert w'.db.actions[id] == AfterUndo(e, a, undo);
    } else {
      forall id | id in ids && w.db.actions[id].status == Executed ensures w'.db.actions[id].status == Compensated {
        assert w.db.actions[id] in acts;
      }
    }
  }

  /** Irreversible or destructive, and neither compensable nor reversible. */
  predicate BeyondUndo(classes: seq<Class>) {
    ("IRREVERSIBLE" in classes || "DESTRUCTIVE" in classes) && "COMPENSABLE" !in classes && "REVERSIBLE" !in classes
  }

  /** Each action after compensation, by its values: an executed one of the transaction that is not
      beyond undoing is COMPENSATED if a compensator is registered under `tool.name` and succeeds and
      COMPENSATION_FAILED otherwise, and every other action is as it was. */
  lemma CompensatedByValue(e: Env, w: World, org: Id, txn: Id, ids: seq<Id>, undo: Id -> bool, id: Id)
    requires Lists(w.db, org, txn, ids) && GetTxn(w.db, org, txn).Some? && Findable(w.db) && id in w.db.actions
    ensures var a := w.db.actions[id];
            var actions := Compensate(e, w, org, txn, ids, undo).0.db.actions;
            && id in actions
            && actions[id] == if a.org == org && a.txn == txn && a.status == Executed && !BeyondUndo(a.classes)
                              then a.(status := if a.tool + "." + a.name in e.tools.compensators && undo(a.id) then Compensated else CompensationFailed)
                              else a
  {
    CompensationAccounting(e, w, org, txn, ids, undo);
    assert id in ids <==> id in ActionIds(w.db, org, txn);
  }
}
