/** The in-memory store: mutable maps and lists, one method per store call. The mutex that
    makes each call atomic is what lets each method be one step. */
module MemoryStores {
  import opened Domain
  import opened Receipts
  import S = StoreSpec

  class MemoryStore {
    var orgs: set<Id>
    var agents: map<Id, Agent>
    var txns: map<Id, Txn>
    var actions: map<Id, Action>
    var byIdem: map<string, Id>
    var approvals: map<Id, Approval>
    var receiptsList: seq<Receipt>
    var lastHash: map<Id, string>
    var policySets: map<Id, seq<PolicySet>>
    var grants: map<Id, Grant>
    var audit: seq<AuditEvent>
    const codec: Codec

    ghost function View(): S.Store
      reads this
    {
      S.Store(orgs, agents, txns, actions, byIdem, approvals, Ledger(receiptsList, lastHash), policySets, grants, audit)
    }

    constructor (codec: Codec)
      ensures View() == S.EMPTY && this.codec == codec
    {
      this.codec := codec;
      orgs, agents, txns, actions, byIdem, approvals := {}, map[], map[], map[], map[], map[];
      receiptsList, lastHash, policySets, grants, audit := [], map[], map[], map[], [];
    }

    method Emit(e: AuditEvent)
      modifies this
      ensures View() == S.Emit(old(View()), e)
    {
      audit := audit + [e];
    }

    method GetAgent(org: Id, id: Id) returns (a: Option<Agent>)
      ensures a == S.GetAgent(View(), org, id)
    {
      if id !in agents || agents[id].org != org {
        return None;
      }
      return Some(agents[id]);
    }

    method CreateTxn(t: Txn)
      modifies this
      ensures View() == S.CreateTxn(old(View()), t)
    {
      txns := txns[t.id := t];
      audit := audit + [AuditEvent(t.org, t.id, TransactionCreated, t.agent)];
    }

    method GetTxn(org: Id, id: Id) returns (t: Option<Txn>)
      ensures t == S.GetTxn(View(), org, id)
    {
      if id !in txns || txns[id].org != org {
        return None;
      }
      return Some(txns[id]);
    }

    method SetTxnStatus(org: Id, id: Id, st: TxnStatus) returns (ok: bool)
      modifies this
      ensures View() == S.SetTxnStatus(old(View()), org, id, st)
      ensures ok == S.GetTxn(old(View()), org, id).Some?
    {
      if id !in txns || txns[id].org != org {
        return false;
      }
      txns := txns[id := txns[id].(status := st)];
      return true;
    }

    method AddAction(a: Action, id: Id, now: Time) returns (stored: Action, dup: bool)
      requires forall k :: k in byIdem ==> byIdem[k] in actions
      modifies this
      ensures View() == S.AddAction(codec, old(View()), a, id, now)
      ensures dup == S.Replayed(old(View()), a).Some?
      ensures stored == if dup then S.Replayed(old(View()), a).value else S.Stored(codec, a, id, now)
    {
      var key := a.org + "|" + a.txn + "|" + a.key;
      if key in byIdem {
        return actions[byIdem[key]], true;
      }
      stored := a.(id := id, createdAt := now, argsHash := codec.canonical(a.args));
      actions := actions[id := stored];
      byIdem := byIdem[key := id];
      return stored, false;
    }

    method GetAction(org: Id, id: Id) returns (a: Option<Action>)
      ensures a == S.GetAction(View(), org, id)
    {
      if id !in actions || actions[id].org != org {
        return None;
      }
      return Some(actions[id]);
    }

    method UpdateAction(a: Action)
      modifies this
      ensures View() == S.UpdateAction(old(View()), a)
    {
      if a.id in actions {
        actions := actions[a.id := a];
        byIdem := byIdem[a.org + "|" + a.txn + "|" + a.key := a.id];
      }
    }

    method ActionsForTxn(org: Id, txn: Id) returns (out: seq<Action>, ghost ids: seq<Id>)
      ensures S.Lists(View(), org, txn, ids)
      ensures out == S.Snapshot(View(), ids)
      ensures |out| == |ids| && forall i :: 0 <= i < |ids| ==> ids[i] in actions && out[i] == actions[ids[i]]
    {
      out, ids := [], [];
      var left := actions.Keys;
      while left != {}
        invariant left <= actions.Keys
        invariant forall id :: id in ids <==> id in actions.Keys - left && actions[id].org == org && actions[id].txn == txn
        invariant forall i, j :: 0 <= i < j < |ids| ==> ids[i] != ids[j]
        invariant |out| == |ids| && forall i :: 0 <= i < |ids| ==> ids[i] in actions && out[i] == actions[ids[i]]
        decreases |left|
      {
        var id :| id in left;
        assert id !in ids;
        if actions[id].org == org && actions[id].txn == txn {
          out := out + [actions[id]];
          ids := ids + [id];
        }
        left := left - {id};
      }
    }

    method CreateApproval(p: Approval, id: Id)
      modifies this
      ensures View() == S.CreateApproval(old(View()), p, id)
    {
      approvals := approvals[id := p.(id := id, status := Pending)];
    }

    method DecideApproval(org: Id, id: Id, approve: bool) returns (p: Option<Approval>)
      modifies this
      ensures View() == S.DecideApproval(old(View()), org, id, approve)
      ensures p.Some? <==> S.Decidable(old(View()), org, id).Some?
      ensures p.Some? ==> p.value == View().approvals[id]
    {
      if id !in approvals || approvals[id].org != org || approvals[id].status != Pending {
        return None;
      }
      approvals := approvals[id := approvals[id].(status := if approve then Granted else Refused)];
      return Some(approvals[id]);
    }

    method AppendReceipt(r: Receipt) returns (stored: Receipt)
      modifies this
      ensures View() == S.AppendReceipt(codec, old(View()), r)
      ensures stored == Chained(codec, old(View()).ledger, r)
    {
      var prev := if r.org in lastHash then lastHash[r.org] else "";
      stored := r.(prevHash := prev, hash := ChainHash(codec, prev, PayloadOf(r)));
      receiptsList := receiptsList + [stored];
      lastHash := lastHash[r.org := stored.hash];
    }

    method UpdateReceipt(r: Receipt)
      modifies this
      ensures View() == S.UpdateReceipt(old(View()), r)
    {
      ghost var was := receiptsList;
      var i := 0;
      while i < |receiptsList|
        invariant 0 <= i <= |receiptsList| == |was|
        invariant forall j :: 0 <= j < i ==> receiptsList[j] == SignOne(was[j], r)
        invariant forall j :: i <= j < |was| ==> receiptsList[j] == was[j]
        invariant View() == old(View()).(ledger := Ledger(receiptsList, lastHash))
        invariant lastHash == old(lastHash)
      {
        var cur := receiptsList[i];
        if cur.id == r.id && cur.org == r.org {
          receiptsList := receiptsList[i := cur.(keyId := r.keyId, signature := r.signature)];
        }
        i := i + 1;
      }
      assert receiptsList == Sign(old(View()).ledger, r).list;
    }

    method VerifyChain(org: Id) returns (broken: int)
      ensures broken == Verdict(codec, View().ledger.list, org)
    {
      broken := Receipts.VerifyChain(codec, receiptsList, org);
    }

    method LatestVersion(org: Id) returns (max: int)
      ensures max == S.LatestVersion(S.SetsOf(View(), org))
    {
      max := 0;
      var sets := if org in policySets then policySets[org] else [];
      for i := 0 to |sets|
        invariant max == S.LatestVersion(sets[..i])
      {
        assert sets[..i + 1][..i] == sets[..i];
        if sets[i].version > max {
          max := sets[i].version;
        }
      }
      assert sets[..|sets|] == sets;
    }

    method CreatePolicySet(org: Id, rules: seq<Rule>) returns (set_: PolicySet)
      modifies this
      ensures View() == S.CreatePolicySet(old(View()), org, rules)
      ensures set_.rules == rules && set_.status == Draft
      ensures set_.version == S.LatestVersion(S.SetsOf(old(View()), org)) + 1
    {
      var latest := LatestVersion(org);
      set_ := PolicySet(latest + 1, rules, Draft);
      policySets := policySets[org := (if org in policySets then policySets[org] else []) + [set_]];
    }

    method ActivatePolicySet(org: Id, version: int) returns (ok: bool)
      modifies this
      ensures View() == S.ActivatePolicySet(old(View()), org, version)
      ensures ok == S.HasVersion(S.SetsOf(old(View()), org), version)
    {
      var sets := if org in policySets then policySets[org] else [];
      var found := false;
      for i := 0 to |sets|
        invariant found <==> exists j :: 0 <= j < i && sets[j].version == version
      {
        if sets[i].version == version {
          found := true;
        }
      }
      if !found {
        return false;
      }
      ghost var was := sets;
      for i := 0 to |sets|
        invariant |sets| == |was|
        invariant forall j :: 0 <= j < i ==> sets[j] == S.Switched(was[j], version)
        invariant forall j :: i <= j < |sets| ==> sets[j] == was[j]
      {
        if sets[i].version == version {
          sets := sets[i := sets[i].(status := Active)];
        } else if sets[i].status == Active {
          sets := sets[i := sets[i].(status := Disabled)];
        }
      }
      assert sets == S.SwitchAll(was, version);
      policySets := policySets[org := sets];
      return true;
    }

    method ActivePolicySet(org: Id) returns (p: Option<PolicySet>)
      ensures p == S.FirstActive(S.SetsOf(View(), org))
    {
      var sets := if org in policySets then policySets[org] else [];
      for i := 0 to |sets|
        invariant S.FirstActive(sets) == S.FirstActive(sets[i..])
      {
        if sets[i].status == Active {
          return Some(sets[i]);
        }
      }
      return None;
    }

    method CreateGrant(g: Grant)
      modifies this
      ensures View() == S.CreateGrant(old(View()), g)
    {
      grants := grants[g.id := g];
    }

    method GrantsForAgent(org: Id, agent: Id) returns (out: seq<Grant>, ghost ids: seq<Id>)
      ensures forall g :: g in out <==> g in S.GrantsOf(View(), org, agent)
      ensures S.ListsGrants(View(), org, agent, ids)
      ensures |out| == |ids| && forall i :: 0 <= i < |ids| ==> ids[i] in grants && out[i] == grants[ids[i]]
    {
      out, ids := [], [];
      var left := grants.Keys;
      while left != {}
        invariant left <= grants.Keys
        invariant forall id :: id in ids <==> id in grants.Keys - left && grants[id].org == org && grants[id].agent == agent
        invariant Distinct(ids)
        invariant |out| == |ids| && forall i :: 0 <= i < |ids| ==> ids[i] in grants && out[i] == grants[ids[i]]
        decreases |left|
      {
        var id :| id in left;
        assert id !in ids;
        if grants[id].org == org && grants[id].agent == agent {
          out := out + [grants[id]];
          ids := ids + [id];
        }
        left := left - {id};
      }
      forall g ensures g in out <==> g in S.GrantsOf(View(), org, agent) {
        if g in S.GrantsOf(View(), org, agent) {
          var id :| id in grants && grants[id].org == org && grants[id].agent == agent && grants[id] == g;
          var i :| 0 <= i < |ids| && ids[i] == id;
          assert out[i] == g;
        }
      }
    }

    method RevokeGrant(org: Id, id: Id, now: Time) returns (ok: bool)
      modifies this
      ensures View() == S.RevokeGrant(old(View()), org, id, now)
      ensures ok == S.Revocable(old(View()), org, id)
    {
      if id !in grants || grants[id].org != org || grants[id].revokedAt.Some? {
        return false;
      }
      grants := grants[id := grants[id].(revokedAt := Some(now))];
      return true;
    }

    method Audit(org: Id, txn: Id, limit: int) returns (out: seq<AuditEvent>)
      ensures out == S.AuditView(View().audit, org, txn, limit)
    {
      out := [];
      var i := |audit|;
      assert audit[..i] == audit;
      while i > 0 && |out| < limit
        invariant 0 <= i <= |audit|
        invariant S.AuditView(audit, org, txn, limit) == out + S.AuditView(audit[..i], org, txn, limit - |out|)
      {
        i := i - 1;
        assert audit[..i + 1][..i] == audit[..i];
        var e := audit[i];
        if e.org == org && (txn == "" || e.txn == txn) {
          out := out + [e];
        }
      }
    }
  }
}
