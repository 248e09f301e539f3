/** Policy history is append-only: versions count up from 1, rules never change, at most one set is
    active, and every stamped decision can be reproduced from the set it names. */
module PolicyHistory {
  import opened Domain
  import opened Policies
  import opened StoreSpec
  import opened GatewaySpec
  import opened Protocol
  import opened Invariants
  import opened LedgerLaws

  // ----- the shape of an organization's policy sets -----

  ghost predicate Numbered(sets: seq<PolicySet>) {
    forall i :: 0 <= i < |sets| ==> sets[i].version == i + 1
  }

  ghost predicate OneActive(sets: seq<PolicySet>) {
    forall i, j :: 0 <= i < j < |sets| ==> sets[i].status != Active || sets[j].status != Active
  }

  ghost predicate SomeActive(sets: seq<PolicySet>) {
    exists i :: 0 <= i < |sets| && sets[i].status == Active
  }

  ghost predicate WellVersioned(db: Store) {
    forall org :: Numbered(SetsOf(db, org)) && OneActive(SetsOf(db, org))
  }

  /** Older sets keep their place, version and rules; new ones come after them; activity, once
      there is any, never lapses. */
  ghost predicate Extends(sets: seq<PolicySet>, sets': seq<PolicySet>) {
    && |sets| <= |sets'|
    && (forall i :: 0 <= i < |sets| ==> sets'[i] == sets[i].(status := sets'[i].status))
    && (SomeActive(sets) ==> SomeActive(sets'))
  }

  lemma {:induction false} LatestIsLength(sets: seq<PolicySet>)
    requires Numbered(sets)
    ensures LatestVersion(sets) == |sets|
  {
    if sets != [] {
      LatestIsLength(sets[..|sets| - 1]);
    }
  }

  lemma DraftExtends(sets: seq<PolicySet>, rules: seq<Rule>)
    requires Numbered(sets) && OneActive(sets)
    ensures var sets' := sets + [PolicySet(LatestVersion(sets) + 1, rules, Draft)];
            Numbered(sets') && OneActive(sets') && Extends(sets, sets')
  {
    LatestIsLength(sets);
    var sets' := sets + [PolicySet(LatestVersion(sets) + 1, rules, Draft)];
    if SomeActive(sets) {
      var i :| 0 <= i < |sets| && sets[i].status == Active;
      assert sets'[i].status == Active;
    }
  }

  /** A successful activation leaves exactly the chosen version active and disables the one before. */
  lemma ActivationExtends(sets: seq<PolicySet>, version: int)
    requires Numbered(sets) && OneActive(sets) && HasVersion(sets, version)
    ensures var sets' := SwitchAll(sets, version);
            && Numbered(sets') && OneActive(sets') && Extends(sets, sets')
            && 1 <= version <= |sets'|
            && forall i :: 0 <= i < |sets'| ==>
                 && (sets'[i].status == Active <==> i == version - 1)
                 && (i != version - 1 ==> sets'[i].status == if sets[i].status == Active then Disabled else sets[i].status)
  {
    var p :| p in sets && p.version == version;
    var i :| 0 <= i < |sets| && sets[i] == p;
    assert SwitchAll(sets, version)[i].status == Active;
  }

  lemma ExtendsSelf(sets: seq<PolicySet>)
    ensures Extends(sets, sets)
  {
  }

  ghost predicate SameSetup(db: Store, db': Store) {
    (db'.policySets, db'.agents, db'.grants) == (db.policySets, db.agents, db.grants)
  }

  lemma ProposeSetsUntouched(e: Env, w: World, q: Request, d: Draw)
    requires d.actionId !in w.db.actions
    ensures SameSetup(w.db, Propose(e, w, q, d).world.db)
  {
    ProposeShape(e, w, q, d);
  }

  /** Service calls read policies, agents and grants and never write them. */
  lemma ServiceKeepsSetup(e: Env, w: World, step: Step)
    requires Sound(w.db) && Admissible(e, w, step) && !IsSetup(step)
    ensures SameSetup(w.db, Next(e, w, step).db)
  {
    match step {
      case ProposeCall(q, d) => ProposeSetsUntouched(e, w, q, d);
      case DecideCall(org, id, approve) => DecideSetsUntouched(w.db, org, id, approve);
      case ExecuteCall(org, id, answer, slip) => ExecuteSetsUntouched(e, w, org, id, answer, slip);
      case RunApprovedCall(org, id, answer, slip) => ApprovedSetsUntouched(e, w, org, id, answer, slip);
      case CommitCall(org, id) =>
      case ReconcileCall(org, id, finding, slip) => ReconcileSetsUntouched(e, w, org, id, finding, slip);
      case CompensateCall(org, id, ids, undo) => CompensateSetsUntouched(e, w, org, id, ids, undo);
    }
  }

  lemma SetsUntouched(e: Env, w: World, step: Step)
    requires Sound(w.db) && Admissible(e, w, step) && !step.DraftPolicies? && !step.ActivatePolicies?
    ensures Next(e, w, step).db.policySets == w.db.policySets
    ensures forall id :: id in w.db.agents ==> id in Next(e, w, step).db.agents && Next(e, w, step).db.agents[id] == w.db.agents[id]
  {
    if !IsSetup(step) {
      ServiceKeepsSetup(e, w, step);
    }
  }

  lemma DecideSetsUntouched(db: Store, org: Id, id: Id, approve: bool)
    ensures SameSetup(db, DecideRoute(db, org, id, approve))
  {
  }

  lemma FinishSetsUntouched(e: Env, w: World, a: Action, answer: ToolAnswer, slip: Slip)
    ensures SameSetup(w.db, Finish(e, w, a, answer, slip).world.db)
  {
  }

  lemma RunSetsUntouched(e: Env, w: World, a: Action, answer: ToolAnswer, slip: Slip)
    ensures SameSetup(w.db, Run(e, w, a, answer, slip).world.db)
  {
    var calls := if Reaches(e, a) then w.calls + [a.id] else w.calls;
    FinishSetsUntouched(e, w.(db := Started(w.db, a), calls := calls), a, if Reaches(e, a) then answer else FailedDefinitely, slip);
  }

  lemma ExecuteSetsUntouched(e: Env, w: World, org: Id, id: Id, answer: ToolAnswer, slip: Slip)
    ensures SameSetup(w.db, ExecuteAllowed(e, w, org, id, answer, slip).world.db)
  {
    if GetAction(w.db, org, id).Some? {
      RunSetsUntouched(e, w, w.db.actions[id], answer, slip);
    }
  }

  lemma ApprovedSetsUntouched(e: Env, w: World, org: Id, id: Id, answer: ToolAnswer, slip: Slip)
    ensures SameSetup(w.db, RunApproved(e, w, org, id, answer, slip).world.db)
  {
    if GetAction(w.db, org, id).Some? {
      RunSetsUntouched(e, w, w.db.actions[id], answer, slip);
    }
  }

  lemma ReconciledSetsUntouched(e: Env, w: World, a: Action, finding: Finding, slip: Slip)
    ensures SameSetup(w.db, Reconciled(e, w, a, finding, slip).world.db)
  {
  }

  lemma ReconcileSetsUntouched(e: Env, w: World, org: Id, id: Id, finding: Finding, slip: Slip)
    ensures SameSetup(w.db, Reconcile(e, w, org, id, finding, slip).world.db)
  {
    var a := GetAction(w.db, org, id);
    if a.Some? && a.value.status == Unknown && ToolKey(a.value.tool, a.value.name) in e.tools.reconcilers && !finding.ProbeError? {
      assert Reconcile(e, w, org, id, finding, slip) == Reconciled(e, w, a.value, finding, slip);
      ReconciledSetsUntouched(e, w, a.value, finding, slip);
    }
  }

  lemma CompensateSetsUntouched(e: Env, w: World, org: Id, txn: Id, ids: seq<Id>, undo: Id -> bool)
    requires Sound(w.db) && Admissible(e, w, CompensateCall(org, txn, ids, undo))
    ensures SameSetup(w.db, Compensate(e, w, org, txn, ids, undo).0.db)
  {
    if GetTxn(w.db, org, txn).Some? {
      Compensation.CompensateShape(e, w, org, txn, ids, undo);
    }
  }

  ghost predicate Grew(sets: seq<PolicySet>, sets': seq<PolicySet>) {
    Numbered(sets') && OneActive(sets') && Extends(sets, sets')
  }

  lemma DraftStep(e: Env, w: World, step: Step, org: Id)
    requires step.DraftPolicies? && Grew(SetsOf(w.db, org), SetsOf(w.db, org))
    ensures Grew(SetsOf(w.db, org), SetsOf(Next(e, w, step).db, org))
  {
    if step.org == org {
      DraftExtends(SetsOf(w.db, org), step.rules);
    }
  }

  lemma ActivateStep(e: Env, w: World, step: Step, org: Id)
    requires step.ActivatePolicies? && Grew(SetsOf(w.db, org), SetsOf(w.db, org))
    ensures Grew(SetsOf(w.db, org), SetsOf(Next(e, w, step).db, org))
  {
    if step.org == org && HasVersion(SetsOf(w.db, org), step.version) {
      ActivationExtends(SetsOf(w.db, org), step.version);
    }
  }

  lemma HistoryStep(e: Env, w: World, step: Step, org: Id)
    requires Sound(w.db) && WellVersioned(w.db) && Admissible(e, w, step)
    ensures Grew(SetsOf(w.db, org), SetsOf(Next(e, w, step).db, org))
  {
    assert Numbered(SetsOf(w.db, org)) && OneActive(SetsOf(w.db, org));
    ExtendsSelf(SetsOf(w.db, org));
    if step.DraftPolicies? {
      DraftStep(e, w, step, org);
    } else if step.ActivatePolicies? {
      ActivateStep(e, w, step, org);
    } else {
      SetsUntouched(e, w, step);
    }
  }

  // ----- reproducing decisions -----

  /** What the risk screen may have done to a decision the rules produced. */
  predicate Stricter(d: Decision, ruled: Decision) {
    && d.ruleId == ruled.ruleId && d.version == ruled.version
    && (d.effect == ruled.effect || (Permits(ruled.effect) && d.effect == RequireApproval))
  }

  ghost predicate ReproducedBy(a: Action, rules: seq<Rule>, agent: Agent, sorted: seq<Rule>) {
    IsSorting(sorted, rules) && Stricter(DecisionOf(a), Decide(sorted, DecisionOf(a).version, agent, a, a.createdAt))
  }

  /** The set a decision is stamped with still yields that decision, at the time it was taken, for
      this agent and this sorting, up to escalation by the risk screen. */
  ghost predicate ReproducedFor(db: Store, a: Action, agent: Agent, sorted: seq<Rule>) {
    var v := DecisionOf(a).version;
    v > 0 ==> v <= |SetsOf(db, a.org)| && ReproducedBy(a, SetsOf(db, a.org)[v - 1].rules, agent, sorted)
  }

  /** The same for some known agent of the organization. */
  ghost predicate Reproducible(db: Store, a: Action) {
    var v := DecisionOf(a).version;
    v > 0 ==> v <= |SetsOf(db, a.org)| && Reproduced(db, a, SetsOf(db, a.org)[v - 1].rules)
  }

  ghost predicate Reproduced(db: Store, a: Action, rules: seq<Rule>) {
    exists agent, sorted :: Knows(db, a.org, agent) && ReproducedBy(a, rules, agent, sorted)
  }

  ghost predicate Knows(db: Store, org: Id, agent: Agent) {
    agent.org == org && agent.id in db.agents && db.agents[agent.id] == agent
  }

  ghost predicate HistoryHolds(db: Store) {
    WellVersioned(db) && forall id :: id in db.actions ==> Reproducible(db, db.actions[id])
  }

  /** The fields of an action that rules can see. */
  predicate SameToRules(a: Action, b: Action) {
    a.tool == b.tool && a.name == b.name && a.args == b.args && a.classes == b.classes && a.amount == b.amount
  }

  lemma {:induction false} RulesSeeOnly(sorted: seq<Rule>, agent: Agent, a: Action, b: Action, now: Time)
    requires SameToRules(a, b)
    ensures FirstMatch(sorted, agent, a, now) == FirstMatch(sorted, agent, b, now)
  {
    if sorted != [] {
      RulesSeeOnly(sorted[1..], agent, a, b, now);
    }
  }

  lemma {:induction false} FirstActiveIsListed(sets: seq<PolicySet>)
    ensures FirstActive(sets).Some? ==> FirstActive(sets).value in sets
  {
    if sets != [] {
      FirstActiveIsListed(sets[1..]);
    }
  }

  /** The version in force is the place of the active set. */
  lemma InForceListed(db: Store, org: Id)
    requires WellVersioned(db)
    ensures var (rules, v) := RulesInForce(db, org);
            v == 0 || (1 <= v <= |SetsOf(db, org)| && SetsOf(db, org)[v - 1].rules == rules)
  {
    var sets := SetsOf(db, org);
    assert Numbered(sets);
    FirstActiveIsListed(sets);
    if FirstActive(sets).Some? {
      var i :| 0 <= i < |sets| && sets[i] == FirstActive(sets).value;
    }
  }

  /** A fresh decision carries a version only if a rule of the set in force made it. */
  lemma StampedByRule(e: Env, db: Store, added: Store, q: Request, agent: Agent, a: Action, sorted: seq<Rule>, now: Time)
    requires RulesInForce(added, q.org) == RulesInForce(db, q.org)
    ensures var d := Decided(e, added, q, agent, a, sorted, now);
            d.version != 0 ==> d.version == RulesInForce(db, q.org).1 && Stricter(d, Decide(sorted, d.version, agent, a, now))
  {
  }

  lemma NewActionReproduced(e: Env, db: Store, q: Request, d: Draw)
    requires WellVersioned(db) && Accepted(e, db, q) && IsSorting(d.sorted, RulesInForce(db, q.org).0)
    ensures ReproducedFor(db, NewAction(e, db, q, d), GetAgent(db, q.org, q.agent).value, d.sorted)
  {
    var agent := GetAgent(db, q.org, q.agent).value;
    var stored := Stored(e.codec, Drafted(e, q), d.actionId, d.now);
    var added := AddAction(e.codec, db, Drafted(e, q), d.actionId, d.now);
    var decision := Decided(e, added, q, agent, stored, d.sorted, d.now);
    StampedByRule(e, db, added, q, agent, stored, d.sorted, d.now);
    InForceListed(db, q.org);
    RulesSeeOnly(d.sorted, agent, stored, WithDecision(stored, decision), d.now);
  }

  lemma NewActionReproducible(e: Env, db: Store, q: Request, d: Draw)
    requires Keyed(db) && WellVersioned(db) && Accepted(e, db, q) && IsSorting(d.sorted, RulesInForce(db, q.org).0)
    ensures Reproducible(db, NewAction(e, db, q, d))
  {
    NewActionReproduced(e, db, q, d);
    assert Knows(db, q.org, GetAgent(db, q.org, q.agent).value);
  }

  lemma ReproducedForKept(db: Store, db': Store, a: Action, b: Action, agent: Agent, sorted: seq<Rule>)
    requires ReproducedFor(db, a, agent, sorted) && SameDeed(a, b) && Extends(SetsOf(db, a.org), SetsOf(db', a.org))
    ensures ReproducedFor(db', b, agent, sorted)
  {
    RulesSeeOnly(sorted, agent, a, b, a.createdAt);
  }

  lemma ReproducibleKept(db: Store, db': Store, a: Action, b: Action)
    requires Reproducible(db, a) && SameDeed(a, b)
    requires Extends(SetsOf(db, a.org), SetsOf(db', a.org))
    requires forall id :: id in db.agents ==> id in db'.agents && db'.agents[id] == db.agents[id]
    ensures Reproducible(db', b)
  {
    var v := DecisionOf(a).version;
    if v > 0 {
      var rules := SetsOf(db, a.org)[v - 1].rules;
      var agent, sorted :| Knows(db, a.org, agent) && ReproducedBy(a, rules, agent, sorted);
      RulesSeeOnly(sorted, agent, a, b, a.createdAt);
      assert Knows(db', a.org, agent);
      assert SetsOf(db', a.org)[v - 1].rules == rules;
      assert ReproducedBy(b, rules, agent, sorted);
    }
  }

  lemma AgentsKept(e: Env, w: World, step: Step)
    requires Sound(w.db) && Admissible(e, w, step)
    ensures forall id :: id in w.db.agents ==> id in Next(e, w, step).db.agents && Next(e, w, step).db.agents[id] == w.db.agents[id]
  {
    if !step.DraftPolicies? && !step.ActivatePolicies? {
      SetsUntouched(e, w, step);
    }
  }

  lemma AddedByProposal(e: Env, db: Store, step: Step, c: Change)
    requires MadeBy(e, db, step, c) && c.Added?
    ensures step.ProposeCall? && Accepted(e, db, step.q) && c.a == NewAction(e, db, step.q, step.draw)
  {
  }

  lemma NewActionsProposed(e: Env, w: World, step: Step, id: Id)
    requires Sound(w.db) && Admissible(e, w, step)
    requires id in Next(e, w, step).db.actions && id !in w.db.actions
    ensures step.ProposeCall? && Accepted(e, w.db, step.q)
    ensures Next(e, w, step).db.actions[id] == NewAction(e, w.db, step.q, step.draw)
  {
    var c := Classify(e, w, step);
    ActionsKept(e, w, Next(e, w, step), c);
    AddedByProposal(e, w.db, step, c);
  }

  lemma NewActionsReproducible(e: Env, w: World, step: Step, id: Id)
    requires Sound(w.db) && HistoryHolds(w.db) && Admissible(e, w, step)
    requires id in Next(e, w, step).db.actions && id !in w.db.actions
    ensures Reproducible(Next(e, w, step).db, Next(e, w, step).db.actions[id])
  {
    NewActionsProposed(e, w, step, id);
    NewActionReproducible(e, w.db, step.q, step.draw);
    var a := NewAction(e, w.db, step.q, step.draw);
    HistoryStep(e, w, step, a.org);
    AgentsKept(e, w, step);
    ReproducibleKept(w.db, Next(e, w, step).db, a, a);
  }

  lemma HistoryKept(e: Env, w: World, step: Step)
    requires Sound(w.db) && HistoryHolds(w.db) && Admissible(e, w, step)
    ensures HistoryHolds(Next(e, w, step).db)
  {
    var w' := Next(e, w, step);
    forall org ensures Numbered(SetsOf(w'.db, org)) && OneActive(SetsOf(w'.db, org)) {
      HistoryStep(e, w, step, org);
    }
    var c := Classify(e, w, step);
    ActionsKept(e, w, w', c);
    AgentsKept(e, w, step);
    forall id | id in w'.db.actions ensures Reproducible(w'.db, w'.db.actions[id]) {
      if id in w.db.actions {
        HistoryStep(e, w, step, w.db.actions[id].org);
        ReproducibleKept(w.db, w'.db, w.db.actions[id], w'.db.actions[id]);
      } else {
        NewActionsReproducible(e, w, step, id);
      }
    }
  }

  /** In every run versions are 1..n, at most one set is active, and every stamped action can be
      reproduced from the set its stamp names. */
  lemma {:induction false} HistoryOverRuns(e: Env, ws: seq<World>, steps: seq<Step>, n: nat)
    requires IsRun(e, ws, steps) && n < |ws|
    ensures HistoryHolds(ws[n].db)
  {
    if n > 0 {
      HistoryOverRuns(e, ws, steps, n - 1);
      RunsAreSound(e, ws, steps, n - 1);
      HistoryKept(e, ws[n - 1], steps[n - 1]);
    }
  }

  lemma ExtendsOn(a: seq<PolicySet>, b: seq<PolicySet>, c: seq<PolicySet>)
    requires Extends(a, b) && Extends(b, c)
    ensures Extends(a, c)
  {
  }

  lemma HistoryGrows(e: Env, ws: seq<World>, steps: seq<Step>, k: nat, org: Id)
    requires IsRun(e, ws, steps) && k < |steps|
    ensures Extends(SetsOf(ws[k].db, org), SetsOf(ws[k + 1].db, org))
  {
    HistoryOverRuns(e, ws, steps, k);
    RunsAreSound(e, ws, steps, k);
    HistoryStep(e, ws[k], steps[k], org);
  }

  lemma {:induction false} ExtendsThroughout(history: seq<seq<PolicySet>>, m: nat, n: nat)
    requires m <= n < |history| && forall k :: m <= k < n ==> Extends(history[k], history[k + 1])
    ensures Extends(history[m], history[n])
  {
    if m == n {
      ExtendsSelf(history[m]);
    } else {
      ExtendsThroughout(history, m, n - 1);
      assert Extends(history[n - 1], history[n - 1 + 1]);
      ExtendsOn(history[m], history[n - 1], history[n]);
    }
  }

  /** Between any two points of a run no set is lost, renumbered or rewritten, and an organization
      that has an active set keeps having one. */
  lemma HistoryIsImmutable(e: Env, ws: seq<World>, steps: seq<Step>, m: nat, n: nat, org: Id)
    requires IsRun(e, ws, steps) && m <= n < |ws|
    ensures Extends(SetsOf(ws[m].db, org), SetsOf(ws[n].db, org))
  {
    var history := seq(|ws|, k requires 0 <= k < |ws| => SetsOf(ws[k].db, org));
    forall k | m <= k < n ensures Extends(history[k], history[k + 1]) {
      HistoryGrows(e, ws, steps, k, org);
    }
    ExtendsThroughout(history, m, n);
  }

  /** The proposal that added an action, and what it decided with. */
  ghost predicate AddedBy(e: Env, ws: seq<World>, steps: seq<Step>, m: nat, id: Id) {
    && m < |steps| && |ws| == |steps| + 1
    && steps[m].ProposeCall? && steps[m].draw.actionId == id && Accepted(e, ws[m].db, steps[m].q)
    && IsSorting(steps[m].draw.sorted, RulesInForce(ws[m].db, steps[m].q.org).0)
  }

  lemma ReproducedNext(e: Env, w: World, step: Step, a: Action, agent: Agent, sorted: seq<Rule>)
    requires Sound(w.db) && WellVersioned(w.db) && Admissible(e, w, step) && ReproducedFor(w.db, a, agent, sorted)
    ensures ReproducedFor(Next(e, w, step).db, a, agent, sorted)
  {
    HistoryStep(e, w, step, a.org);
    ReproducedForKept(w.db, Next(e, w, step).db, a, a, agent, sorted);
  }

  lemma NewlyReproduced(e: Env, w: World, q: Request, d: Draw)
    requires Sound(w.db) && WellVersioned(w.db) && Admissible(e, w, ProposeCall(q, d)) && Accepted(e, w.db, q)
    ensures ReproducedFor(Next(e, w, ProposeCall(q, d)).db, NewAction(e, w.db, q, d), GetAgent(w.db, q.org, q.agent).value, d.sorted)
  {
    NewActionReproduced(e, w.db, q, d);
    ReproducedNext(e, w, ProposeCall(q, d), NewAction(e, w.db, q, d), GetAgent(w.db, q.org, q.agent).value, d.sorted);
  }

  lemma AddedUnderItsId(e: Env, w: World, step: Step, id: Id)
    requires Sound(w.db) && Admissible(e, w, step) && Sound(Next(e, w, step).db)
    requires id in Next(e, w, step).db.actions && id !in w.db.actions
    ensures step.ProposeCall? && step.draw.actionId == id
  {
    NewActionsProposed(e, w, step, id);
    assert Next(e, w, step).db.actions[id].id == id;
  }

  /** The proposal `step`, made in store `was`, still accounts for the action's decision. */
  ghost predicate AccountsFor(was: Store, step: Step, db: Store, id: Id) {
    match step
    case ProposeCall(q, d) =>
      && GetAgent(was, q.org, q.agent).Some? && id in db.actions
      && ReproducedFor(db, db.actions[id], GetAgent(was, q.org, q.agent).value, d.sorted)
    case _ => false
  }

  lemma AccountsNow(e: Env, w: World, q: Request, d: Draw)
    requires Sound(w.db) && WellVersioned(w.db) && Admissible(e, w, ProposeCall(q, d)) && Accepted(e, w.db, q)
    requires var db := Propose(e, w, q, d).world.db; d.actionId in db.actions && db.actions[d.actionId] == NewAction(e, w.db, q, d)
    ensures AccountsFor(w.db, ProposeCall(q, d), Propose(e, w, q, d).world.db, d.actionId)
  {
    NewlyReproduced(e, w, q, d);
  }

  lemma AddedAccounts(e: Env, w: World, step: Step, id: Id)
    requires Sound(w.db) && WellVersioned(w.db) && Admissible(e, w, step) && Sound(Next(e, w, step).db)
    requires id in Next(e, w, step).db.actions && id !in w.db.actions
    ensures step.ProposeCall? && step.draw.actionId == id && Accepted(e, w.db, step.q) && AccountsFor(w.db, step, Next(e, w, step).db, id)
  {
    NewActionsProposed(e, w, step, id);
    AddedUnderItsId(e, w, step, id);
    assert step == ProposeCall(step.q, step.draw);
    AccountsNow(e, w, step.q, step.draw);
  }

  lemma AddedNow(e: Env, ws: seq<World>, steps: seq<Step>, m: nat, id: Id)
    requires IsRun(e, ws, steps) && m < |steps| && id in ws[m + 1].db.actions && id !in ws[m].db.actions
    ensures AddedBy(e, ws, steps, m, id) && AccountsFor(ws[m].db, steps[m], ws[m + 1].db, id)
  {
    RunsAreSound(e, ws, steps, m);
    RunsAreSound(e, ws, steps, m + 1);
    HistoryOverRuns(e, ws, steps, m);
    AddedAccounts(e, ws[m], steps[m], id);
  }

  lemma AccountStays(e: Env, ws: seq<World>, steps: seq<Step>, n: nat, id: Id, was: Store, step: Step)
    requires IsRun(e, ws, steps) && n < |steps| && AccountsFor(was, step, ws[n].db, id)
    ensures AccountsFor(was, step, ws[n + 1].db, id)
  {
    ReproductionStays(e, ws, steps, n, id, GetAgent(was, step.q.org, step.q.agent).value, step.draw.sorted);
  }

  lemma {:induction false} FlipPoint(p: seq<bool>, n: nat) returns (m: nat)
    requires n < |p| && !p[0] && p[n]
    ensures m < n && !p[m] && p[m + 1]
  {
    m := n - 1;
    if p[m] {
      m := FlipPoint(p, m);
    }
  }

  lemma {:induction false} KeptFrom(p: seq<bool>, i: nat, n: nat)
    requires i <= n < |p| && p[i] && forall k :: i <= k < n && p[k] ==> p[k + 1]
    ensures p[n]
  {
    if i < n {
      KeptFrom(p, i, n - 1);
      assert p[n - 1 + 1];
    }
  }

  lemma AccountKept(e: Env, ws: seq<World>, steps: seq<Step>, m: nat, n: nat, id: Id)
    requires IsRun(e, ws, steps) && m < n < |ws| && AccountsFor(ws[m].db, steps[m], ws[m + 1].db, id)
    ensures AccountsFor(ws[m].db, steps[m], ws[n].db, id)
  {
    var was, step := ws[m].db, steps[m];
    var kept := seq(|ws|, k requires 0 <= k < |ws| => AccountsFor(was, step, ws[k].db, id));
    forall k | m + 1 <= k < n && kept[k] ensures kept[k + 1] {
      AccountStays(e, ws, steps, k, id, was, step);
    }
    KeptFrom(kept, m + 1, n);
  }

  lemma ProposerFound(e: Env, ws: seq<World>, steps: seq<Step>, n: nat, id: Id) returns (m: nat)
    requires IsRun(e, ws, steps) && n < |ws| && id in ws[n].db.actions
    ensures m < n && AddedBy(e, ws, steps, m, id) && AccountsFor(ws[m].db, steps[m], ws[n].db, id)
  {
    m := FlipPoint(seq(|ws|, k requires 0 <= k < |ws| => id in ws[k].db.actions), n);
    AddedNow(e, ws, steps, m, id);
    AccountKept(e, ws, steps, m, n, id);
  }

  /** In every run each action was added by one proposal, and the set its stamp names still yields
      its decision for the very agent that proposed it, with the sorting the proposal used. */
  lemma ReproducedForProposer(e: Env, ws: seq<World>, steps: seq<Step>, n: nat, id: Id) returns (m: nat)
    requires IsRun(e, ws, steps) && n < |ws| && id in ws[n].db.actions
    ensures m < n && AddedBy(e, ws, steps, m, id)
    ensures ReproducedFor(ws[n].db, ws[n].db.actions[id], GetAgent(ws[m].db, steps[m].q.org, steps[m].q.agent).value, steps[m].draw.sorted)
  {
    m := ProposerFound(e, ws, steps, n, id);
  }

  lemma ReproductionStays(e: Env, ws: seq<World>, steps: seq<Step>, n: nat, id: Id, agent: Agent, sorted: seq<Rule>)
    requires IsRun(e, ws, steps) && n < |steps| && id in ws[n].db.actions && ReproducedFor(ws[n].db, ws[n].db.actions[id], agent, sorted)
    ensures id in ws[n + 1].db.actions && ReproducedFor(ws[n + 1].db, ws[n + 1].db.actions[id], agent, sorted)
  {
    RunsAreSound(e, ws, steps, n);
    HistoryOverRuns(e, ws, steps, n);
    var c := Classify(e, ws[n], steps[n]);
    ActionsKept(e, ws[n], ws[n + 1], c);
    HistoryStep(e, ws[n], steps[n], ws[n].db.actions[id].org);
    ReproducedForKept(ws[n].db, ws[n + 1].db, ws[n].db.actions[id], ws[n + 1].db.actions[id], agent, sorted);
  }

  /** With distinct priorities the reproduction does not depend on how ties were sorted: any
      evaluation of the stamped set, for the same agent, gives the decision back. */
  lemma AnyReplayReproduces(db: Store, a: Action, agent: Agent, sorted: seq<Rule>, sorted': seq<Rule>)
    requires ReproducedFor(db, a, agent, sorted) && 0 < DecisionOf(a).version <= |SetsOf(db, a.org)|
    requires DistinctPriorities(SetsOf(db, a.org)[DecisionOf(a).version - 1].rules)
    requires IsSorting(sorted', SetsOf(db, a.org)[DecisionOf(a).version - 1].rules)
    ensures ReproducedFor(db, a, agent, sorted')
  {
    var v := DecisionOf(a).version;
    var rules := SetsOf(db, a.org)[v - 1].rules;
    OrderIrrelevant(rules, sorted, rules, sorted', v, agent, a, a.createdAt);
  }

  /** A receipt's version names the same set as its action's decision does. */
  lemma ReceiptsNameTheSameSet(db: Store, i: nat)
    requires Attested(db) && HistoryHolds(db) && i < |db.ledger.list|
    ensures var r := db.ledger.list[i];
            && r.action in db.actions && r.version == DecisionOf(db.actions[r.action]).version
            && (r.version > 0 ==> r.version <= |SetsOf(db, r.org)|)
  {
    assert ReceiptFits(db, db.ledger.list[i]);
    assert Reproducible(db, db.actions[db.ledger.list[i].action]);
  }
}
