/** The idempotency index answers exactly as a scan of all actions would, so a key names at most
    one action per transaction and a replayed proposal changes nothing. */
module Idempotency {
  import opened Domain
  import opened StoreSpec
  import opened GatewaySpec
  import opened Protocol
  import opened Invariants

  lemma BarSplits(a: string, x: string, b: string, y: string)
    requires '|' !in a && '|' !in b
    requires a + "|" + x == b + "|" + y
    ensures a == b && x == y
  {
    var s, t := a + "|" + x, b + "|" + y;
    assert s[|a|] == '|' && t[|b|] == '|';
    assert forall i :: 0 <= i < |a| ==> s[i] == a[i];
    assert forall i :: 0 <= i < |b| ==> t[i] == b[i];
    assert |a| == |b|;
    assert a == s[..|a|] && b == t[..|b|];
    assert x == s[|a| + 1..] && y == t[|b| + 1..];
  }

  /** Organization and transaction identifiers hold no bar, so the joined key is unambiguous
      even though the caller's own key may hold any characters. */
  lemma KeyInjective(org: Id, txn: Id, key: string, org': Id, txn': Id, key': string)
    requires Plain(org) && Plain(txn) && Plain(org') && Plain(txn')
    ensures IdemKey(org, txn, key) == IdemKey(org', txn', key') <==> org == org' && txn == txn' && key == key'
  {
    if IdemKey(org, txn, key) == IdemKey(org', txn', key') {
      assert IdemKey(org, txn, key) == org + "|" + (txn + "|" + key);
      assert IdemKey(org', txn', key') == org' + "|" + (txn' + "|" + key');
      BarSplits(org, txn + "|" + key, org', txn' + "|" + key');
      BarSplits(txn, key, txn', key');
    }
  }

  ghost predicate Names(db: Store, id: Id, org: Id, txn: Id, key: string) {
    id in db.actions && db.actions[id].org == org && db.actions[id].txn == txn && db.actions[id].key == key
  }

  /** In any store whose index is exact, looking a triple up in it and scanning the actions agree. */
  lemma ScanAgrees(db: Store, org: Id, txn: Id, key: string, id: Id)
    requires Indexed(db) && Plain(org) && Plain(txn)
    requires forall i :: i in db.actions ==> Plain(db.actions[i].org) && Plain(db.actions[i].txn)
    ensures Names(db, id, org, txn, key)
            <==> IdemKey(org, txn, key) in db.byIdem && db.byIdem[IdemKey(org, txn, key)] == id
  {
    var k := IdemKey(org, txn, key);
    if k in db.byIdem && db.byIdem[k] == id {
      var a := db.actions[id];
      KeyInjective(org, txn, key, a.org, a.txn, a.key);
    }
  }

  /** Looking a triple up in the index and scanning the actions for it agree. */
  lemma IndexAgreesWithScan(db: Store, org: Id, txn: Id, key: string, id: Id)
    requires Sound(db) && Plain(org) && Plain(txn)
    ensures Names(db, id, org, txn, key)
            <==> IdemKey(org, txn, key) in db.byIdem && db.byIdem[IdemKey(org, txn, key)] == id
  {
    forall i | i in db.actions ensures Plain(db.actions[i].org) && Plain(db.actions[i].txn) {
      assert ActionKeyed(db, db.actions[i]);
    }
    ScanAgrees(db, org, txn, key, id);
  }

  lemma OneActionPerKey(db: Store, org: Id, txn: Id, key: string, i: Id, j: Id)
    requires Sound(db) && Names(db, i, org, txn, key) && Names(db, j, org, txn, key)
    ensures i == j
  {
    assert KeyOf(db.actions[i]) == KeyOf(db.actions[j]);
  }

  /** Proposing under a key already used in the transaction returns that action as it stands,
      whatever the new request's tool and arguments are, and leaves only an audit entry. */
  lemma ReplayChangesNothing(e: Env, w: World, q: Request, d: Draw, id: Id)
    requires Sound(w.db) && Names(w.db, id, q.org, q.txn, q.key)
    requires ProposeGuard(w.db, q).None?
    ensures Propose(e, w, q, d) == Outcome(w.(db := Emit(w.db, Note(q, ActionReplayed, id))), Ok(w.db.actions[id]))
  {
    assert Plain(q.txn) && Plain(q.org);
    IndexAgreesWithScan(w.db, q.org, q.txn, q.key, id);
    assert KeyOf(Drafted(e, q)) == IdemKey(q.org, q.txn, q.key);
  }
}
