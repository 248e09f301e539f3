/** The store as a value: what each store call does to the records, as a function.
    The class MemoryStore implements these functions on mutable fields. */
module StoreSpec {
  import opened Domain
  import opened Receipts

  datatype Store = Store(
    orgs: set<Id>,
    agents: map<Id, Agent>,
    txns: map<Id, Txn>,
    actions: map<Id, Action>,
    byIdem: map<string, Id>,
    approvals: map<Id, Approval>,
    ledger: Ledger,
    policySets: map<Id, seq<PolicySet>>,
    grants: map<Id, Grant>,
    audit: seq<AuditEvent>)

  const EMPTY := Store({}, map[], map[], map[], map[], map[], Ledger([], map[]), map[], map[], [])

  function Emit(s: Store, e: AuditEvent): Store {
    s.(audit := s.audit + [e])
  }

  // ----- organizations and agents -----

  function SeedOrg(s: Store, org: Id): Store {
    s.(orgs := s.orgs + {org})
  }

  function CreateAgent(s: Store, a: Agent): Store {
    s.(agents := s.agents[a.id := a])
  }

  function GetAgent(s: Store, org: Id, id: Id): Option<Agent> {
    if id in s.agents && s.agents[id].org == org then Some(s.agents[id]) else None
  }

  // ----- transactions -----

  function CreateTxn(s: Store, t: Txn): Store {
    Emit(s.(txns := s.txns[t.id := t]), AuditEvent(t.org, t.id, TransactionCreated, t.agent))
  }

  function GetTxn(s: Store, org: Id, id: Id): Option<Txn> {
    if id in s.txns && s.txns[id].org == org then Some(s.txns[id]) else None
  }

  function SetTxnStatus(s: Store, org: Id, id: Id, st: TxnStatus): Store {
    if GetTxn(s, org, id).Some? then s.(txns := s.txns[id := s.txns[id].(status := st)]) else s
  }

  // ----- actions and the idempotency index -----

  function IdemKey(org: Id, txn: Id, key: string): string {
    org + "|" + txn + "|" + key
  }

  function KeyOf(a: Action): string {
    IdemKey(a.org, a.txn, a.key)
  }

  /** The record a fresh action is stored as. */
  function Stored(c: Codec, a: Action, id: Id, now: Time): Action {
    a.(id := id, createdAt := now, argsHash := c.canonical(a.args))
  }

  /** The action a key already names, if any. The index holds references into `actions`. */
  function Replayed(s: Store, a: Action): Option<Action> {
    if KeyOf(a) in s.byIdem && s.byIdem[KeyOf(a)] in s.actions then Some(s.actions[s.byIdem[KeyOf(a)]]) else None
  }

  function AddAction(c: Codec, s: Store, a: Action, id: Id, now: Time): Store {
    if Replayed(s, a).Some? then s
    else s.(actions := s.actions[id := Stored(c, a, id, now)], byIdem := s.byIdem[KeyOf(a) := id])
  }

  function GetAction(s: Store, org: Id, id: Id): Option<Action> {
    if id in s.actions && s.actions[id].org == org then Some(s.actions[id]) else None
  }

  function UpdateAction(s: Store, a: Action): Store {
    if a.id in s.actions then s.(actions := s.actions[a.id := a], byIdem := s.byIdem[KeyOf(a) := a.id]) else s
  }

  function ActionIds(s: Store, org: Id, txn: Id): set<Id> {
    set id | id in s.actions && s.actions[id].org == org && s.actions[id].txn == txn
  }

  /** `ids` lists the transaction's actions once each, in the order a map happened to be ranged over. */
  ghost predicate Lists(s: Store, org: Id, txn: Id, ids: seq<Id>) {
    && (forall id :: id in ids <==> id in ActionIds(s, org, txn))
    && (forall i, j :: 0 <= i < j < |ids| ==> ids[i] != ids[j])
  }

  function Snapshot(s: Store, ids: seq<Id>): seq<Action>
    requires forall id :: id in ids ==> id in s.actions
  {
    seq(|ids|, i requires 0 <= i < |ids| => s.actions[ids[i]])
  }

  // ----- approvals -----

  function CreateApproval(s: Store, p: Approval, id: Id): Store {
    s.(approvals := s.approvals[id := p.(id := id, status := Pending)])
  }

  /** The approval a decision applies to: present, of this organization, still pending. */
  function Decidable(s: Store, org: Id, id: Id): Option<Approval> {
    if id in s.approvals && s.approvals[id].org == org && s.approvals[id].status == Pending
    then Some(s.approvals[id]) else None
  }

  function DecideApproval(s: Store, org: Id, id: Id, approve: bool): Store {
    match Decidable(s, org, id)
    case None => s
    case Some(p) => s.(approvals := s.approvals[id := p.(status := if approve then Granted else Refused)])
  }

  // ----- receipts -----

  function AppendReceipt(c: Codec, s: Store, r: Receipt): Store {
    s.(ledger := Append(c, s.ledger, r))
  }

  function UpdateReceipt(s: Store, r: Receipt): Store {
    s.(ledger := Sign(s.ledger, r))
  }

  // ----- policy sets -----

  function SetsOf(s: Store, org: Id): seq<PolicySet> {
    if org in s.policySets then s.policySets[org] else []
  }

  function LatestVersion(sets: seq<PolicySet>): int {
    if sets == [] then 0
    else
      var m := LatestVersion(sets[..|sets| - 1]);
      if sets[|sets| - 1].version > m then sets[|sets| - 1].version else m
  }

  function CreatePolicySet(s: Store, org: Id, rules: seq<Rule>): Store {
    var sets := SetsOf(s, org);
    s.(policySets := s.policySets[org := sets + [PolicySet(LatestVersion(sets) + 1, rules, Draft)]])
  }

  predicate HasVersion(sets: seq<PolicySet>, version: int) {
    exists p :: p in sets && p.version == version
  }

  function Switched(p: PolicySet, version: int): PolicySet {
    if p.version == version then p.(status := Active)
    else if p.status == Active then p.(status := Disabled)
    else p
  }

  function SwitchAll(sets: seq<PolicySet>, version: int): seq<PolicySet> {
    seq(|sets|, i requires 0 <= i < |sets| => Switched(sets[i], version))
  }

  function ActivatePolicySet(s: Store, org: Id, version: int): Store {
    if HasVersion(SetsOf(s, org), version)
    then s.(policySets := s.policySets[org := SwitchAll(SetsOf(s, org), version)])
    else s
  }

  function FirstActive(sets: seq<PolicySet>): Option<PolicySet> {
    if sets == [] then None
    else if sets[0].status == Active then Some(sets[0])
    else FirstActive(sets[1..])
  }

  /** The rules in force and the version to stamp: the active set, or no rules and version 0. */
  function RulesInForce(s: Store, org: Id): (seq<Rule>, int) {
    match FirstActive(SetsOf(s, org))
    case Some(p) => (p.rules, p.version)
    case None => ([], 0)
  }

  // ----- grants -----

  function CreateGrant(s: Store, g: Grant): Store {
    s.(grants := s.grants[g.id := g])
  }

  function GrantsOf(s: Store, org: Id, agent: Id): set<Grant> {
    set id | id in s.grants && s.grants[id].org == org && s.grants[id].agent == agent :: s.grants[id]
  }

  /** `ids` names the agent's grants once each, in the order a map happened to be ranged over. */
  ghost predicate ListsGrants(s: Store, org: Id, agent: Id, ids: seq<Id>) {
    && (forall id :: id in ids <==> id in s.grants && s.grants[id].org == org && s.grants[id].agent == agent)
    && Distinct(ids)
  }

  predicate Revocable(s: Store, org: Id, id: Id) {
    id in s.grants && s.grants[id].org == org && s.grants[id].revokedAt.None?
  }

  function RevokeGrant(s: Store, org: Id, id: Id, now: Time): Store {
    if Revocable(s, org, id) then s.(grants := s.grants[id := s.grants[id].(revokedAt := Some(now))]) else s
  }

  // ----- the audit view -----

  predicate Shown(e: AuditEvent, org: Id, txn: Id) {
    e.org == org && (txn == "" || e.txn == txn)
  }

  /** The newest events first, at most `limit` of them. */
  function AuditView(log: seq<AuditEvent>, org: Id, txn: Id, limit: int): seq<AuditEvent> {
    if log == [] || limit <= 0 then []
    else
      var n := |log| - 1;
      if Shown(log[n], org, txn) then [log[n]] + AuditView(log[..n], org, txn, limit - 1)
      else AuditView(log[..n], org, txn, limit)
  }
}
