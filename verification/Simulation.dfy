/** The dry run and the real path agree, and delegated authority fails closed. */
module Simulation {
  import opened Domain
  import opened Policies
  import opened Authority
  import opened StoreSpec
  import opened GatewaySpec
  import opened Protocol
  import opened Invariants
  import opened PolicyHistory

  // ----- simulation -----

  /** The decision before the risk screen, as the proposal computes it. */
  lemma JudgedSame(e: Env, db: Store, q: Request, d: Draw)
    requires Accepted(e, db, q)
    ensures var stored := Stored(e.codec, Drafted(e, q), d.actionId, d.now);
            var added := AddAction(e.codec, db, Drafted(e, q), d.actionId, d.now);
            var agent := GetAgent(db, q.org, q.agent).value;
            var f := Simulate(e, db, q, d.sorted, d.now);
            f.Some? && Judged(added, q, agent, stored, d.sorted, d.now) == f.value.decision
            && f.value.wouldExecute == Permits(f.value.decision.effect) && f.value.classes == stored.classes
  {
    var stored := Stored(e.codec, Drafted(e, q), d.actionId, d.now);
    var act := Drafted(e, q).(txn := "", argsHash := e.codec.canonical(q.args));
    var agent := GetAgent(db, q.org, q.agent).value;
    RulesSeeOnly(d.sorted, agent, stored, act, d.now);
    assert AttemptOf(agent, stored, d.now) == AttemptOf(agent, act, d.now);
  }

  /** With distinct priorities the forecast does not depend on how its own sort broke ties. */
  lemma ForecastStable(e: Env, db: Store, q: Request, sorted: seq<Rule>, sorted': seq<Rule>, now: Time)
    requires DistinctPriorities(RulesInForce(db, q.org).0)
    requires IsSorting(sorted, RulesInForce(db, q.org).0) && IsSorting(sorted', RulesInForce(db, q.org).0)
    ensures Simulate(e, db, q, sorted, now) == Simulate(e, db, q, sorted', now)
  {
    if GetAgent(db, q.org, q.agent).Some? {
      var act := Drafted(e, q).(txn := "", argsHash := e.codec.canonical(q.args));
      var (rules, v) := RulesInForce(db, q.org);
      OrderIrrelevant(rules, sorted, rules, sorted', v, GetAgent(db, q.org, q.agent).value, act, now);
    }
  }

  /** The forecast and the proposal may each sort the rules their own way, as long as that cannot
      matter: the same sorting, or distinct priorities. */
  ghost predicate SortsAgree(db: Store, q: Request, sorted: seq<Rule>, sorted': seq<Rule>) {
    var rules := RulesInForce(db, q.org).0;
    sorted == sorted' || (DistinctPriorities(rules) && IsSorting(sorted, rules) && IsSorting(sorted', rules))
  }

  /** From any store and clock, a forecast gives the decision a fresh proposal would get before
      the risk screen; the screen can only turn a permit into a request for approval. */
  lemma SimulationAgrees(e: Env, db: Store, q: Request, d: Draw, sorted: seq<Rule>)
    requires Accepted(e, db, q) && SortsAgree(db, q, sorted, d.sorted)
    ensures var f := Simulate(e, db, q, sorted, d.now);
            var a := NewAction(e, db, q, d);
            && f.Some?
            && (DecisionOf(a) == f.value.decision || (f.value.wouldExecute && DecisionOf(a) == Escalated(f.value.decision)))
            && (a.status == Allowed ==> f.value.wouldExecute)
            && a.classes == f.value.classes
  {
    if sorted != d.sorted {
      ForecastStable(e, db, q, sorted, d.sorted, d.now);
    }
    JudgedSame(e, db, q, d);
  }

  /** With the screen off the two agree outright: same effect, rule, reason and version, and the
      forecast says "would execute" exactly when the new action is allowed. */
  lemma SimulationExact(e: Env, db: Store, q: Request, d: Draw, sorted: seq<Rule>)
    requires Accepted(e, db, q) && SortsAgree(db, q, sorted, d.sorted)
    requires forall a, count, total :: e.judge(a, count, total) == Off
    ensures var f := Simulate(e, db, q, sorted, d.now);
            var a := NewAction(e, db, q, d);
            f.Some? && DecisionOf(a) == f.value.decision && (f.value.wouldExecute <==> a.status == Allowed)
  {
    if sorted != d.sorted {
      ForecastStable(e, db, q, sorted, d.sorted, d.now);
    }
    JudgedSame(e, db, q, d);
  }

  /** The rest of a forecast: none for an unknown agent; whether grants are enforced and one covers;
      the registered classes; the version consulted unless authority refused; and that it would
      execute exactly when the effect permits. */
  lemma ForecastByValue(e: Env, db: Store, q: Request, sorted: seq<Rule>, now: Time)
    ensures var f := Simulate(e, db, q, sorted, now);
            && (f.Some? <==> q.agent in db.agents && db.agents[q.agent].org == q.org)
            && (f.Some? ==>
                  var v := f.value;
                  var t := Attempt(q.tool, q.name, ExtractCents(q.args), db.agents[q.agent].environment, now);
                  && (v.enforced <==> exists g :: g in db.grants && db.grants[g].org == q.org && db.grants[g].agent == q.agent)
                  && (v.covered <==> !v.enforced || exists g :: g in GrantsOf(db, q.org, q.agent) && Covers(g, t))
                  && v.classes == (if q.tool + "." + q.name in e.tools.meta then e.tools.meta[q.tool + "." + q.name] else ["UNKNOWN"])
                  && v.version == (if v.covered then Some(RulesInForce(db, q.org).1) else None)
                  && (!v.covered ==> v.decision == Decision(Deny, "", AuthorityExceeded, 0))
                  && (v.wouldExecute <==> v.decision.effect == Allow || v.decision.effect == AllowWithConstraints))
  {
    if exists g :: g in db.grants && db.grants[g].org == q.org && db.grants[g].agent == q.agent {
      var g :| g in db.grants && db.grants[g].org == q.org && db.grants[g].agent == q.agent;
      assert db.grants[g] in GrantsOf(db, q.org, q.agent);
    }
    if HasGrants(db, q.org, q.agent) {
      var x :| x in GrantsOf(db, q.org, q.agent);
    }
  }

  // ----- authority -----

  /** A fresh proposal is refused for want of authority exactly when the agent has grants and none
      of them covers the operation, whatever the policies say. */
  lemma AuthorityFailsClosed(e: Env, db: Store, q: Request, d: Draw)
    requires Accepted(e, db, q)
    ensures var a := NewAction(e, db, q, d);
            var agent := GetAgent(db, q.org, q.agent).value;
            && (DecisionOf(a).reason == AuthorityExceeded
                <==> HasGrants(db, q.org, q.agent)
                     && forall g :: g in GrantsOf(db, q.org, q.agent) ==> !Covers(g, AttemptOf(agent, a, d.now)))
            && (DecisionOf(a).reason == AuthorityExceeded ==> a.status == Denied)
  {
    var stored := Stored(e.codec, Drafted(e, q), d.actionId, d.now);
    var agent := GetAgent(db, q.org, q.agent).value;
    assert AttemptOf(agent, stored, d.now) == AttemptOf(agent, NewAction(e, db, q, d), d.now);
  }

  /** A limit as policy would test it: an absent amount counts as zero. */
  predicate WithinByPolicy(g: Grant, a: Action) {
    g.maxAmount.Some? ==> AmountOf(a) <= g.maxAmount.value
  }

  /** Authority and policy see the same amount of an action, and both tests of a grant's limit give
      the same answer if and only if an amount is present or the limit is not negative. */
  lemma SameCents(e: Env, q: Request, id: Id, now: Time, agent: Agent, g: Grant)
    ensures var a := Stored(e.codec, Drafted(e, q), id, now);
            && AttemptOf(agent, a, now).amount == a.amount == ExtractCents(q.args) && AmountOf(a) == CentsOr0(a.amount)
            && ((AmountFits(g, AttemptOf(agent, a, now).amount) <==> WithinByPolicy(g, a))
                <==> a.amount.Some? || g.maxAmount.None? || g.maxAmount.value >= 0)
  {
  }

  /** With a negative limit and no amount they differ: authority covers, policy reads zero. */
  lemma NegativeLimitDiffers(e: Env, q: Request, id: Id, now: Time, agent: Agent, g: Grant)
    requires q.args == map[] && g.maxAmount == Some(-1)
    ensures var a := Stored(e.codec, Drafted(e, q), id, now);
            AmountFits(g, AttemptOf(agent, a, now).amount) && !WithinByPolicy(g, a)
  {
    SameCents(e, q, id, now, agent, g);
  }

  ghost predicate GrantsKept(db: Store, db': Store) {
    forall id :: id in db.grants ==>
      && id in db'.grants && db'.grants[id] == db.grants[id].(revokedAt := db'.grants[id].revokedAt)
      && (db.grants[id].revokedAt.Some? ==> db'.grants[id] == db.grants[id])
  }

  lemma SetupKeepsGrants(e: Env, w: World, step: Step)
    requires Admissible(e, w, step) && IsSetup(step)
    ensures GrantsKept(w.db, Next(e, w, step).db)
  {
  }

  lemma StepKeepsGrants(e: Env, w: World, step: Step)
    requires Sound(w.db) && Admissible(e, w, step)
    ensures GrantsKept(w.db, Next(e, w, step).db)
  {
    if !IsSetup(step) {
      ServiceKeepsSetup(e, w, step);
    } else {
      SetupKeepsGrants(e, w, step);
    }
  }

  lemma {:induction false} RunsKeepGrants(e: Env, ws: seq<World>, steps: seq<Step>, m: nat, n: nat)
    requires IsRun(e, ws, steps) && m <= n < |ws|
    ensures GrantsKept(ws[m].db, ws[n].db)
    decreases n
  {
    if m < n {
      RunsKeepGrants(e, ws, steps, m, n - 1);
      RunsAreSound(e, ws, steps, n - 1);
      StepKeepsGrants(e, ws[n - 1], steps[n - 1]);
    }
  }

  /** Once an agent has been granted anything, no later step returns it to policy-only mode, and a
      grant once revoked covers nothing ever after. */
  lemma AuthorityNeverLapses(e: Env, ws: seq<World>, steps: seq<Step>, m: nat, n: nat, org: Id, agent: Id)
    requires IsRun(e, ws, steps) && m <= n < |ws|
    ensures HasGrants(ws[m].db, org, agent) ==> HasGrants(ws[n].db, org, agent)
    ensures forall id, t :: id in ws[m].db.grants && ws[m].db.grants[id].revokedAt.Some? ==>
              id in ws[n].db.grants && !Covers(ws[n].db.grants[id], t)
  {
    RunsKeepGrants(e, ws, steps, m, n);
    if HasGrants(ws[m].db, org, agent) {
      var g :| g in GrantsOf(ws[m].db, org, agent);
      var id :| id in ws[m].db.grants && ws[m].db.grants[id] == g;
      assert ws[n].db.grants[id] in GrantsOf(ws[n].db, org, agent);
    }
  }
}
