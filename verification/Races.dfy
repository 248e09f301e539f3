/** The races, from the start. Whatever the environment, once one tool has a handler there are
    traces from the empty system that call it twice for one action and that commit a transaction
    with an unresolved action; with a reconciler, one that issues two receipts for one action. */
module Races {
  import opened Domain
  import opened StoreSpec
  import opened GatewaySpec
  import opened Protocol
  import opened Invariants
  import opened Interleaved
  import opened Safety
  import opened Exclusive
  import opened Concurrent
  import opened Serialised
  import opened Attestation
  import opened Evidence

  // ----- two reconciliations of one action -----

  /** A reconciliation that finds the effect, up to the point where it is about to write it back. */
  lemma ReachesSettling(e: Env, s: System, t: nat, a: Action, result: Args)
    requires t !in s.threads && a.id in s.shared.db.actions && s.shared.db.actions[a.id] == a && a.status == Unknown
    ensures Reachable(e, s, At(s.threads, t, s.shared, Settling(AfterProbe(a, Found(result)))))
  {
    Begins(e, s.threads, t, s.shared, ProbeStart(a.org, a.id));
    ProbingStep(e, s.shared, a);
    Goes(e, s, s.threads, t, s.shared, ProbeStart(a.org, a.id), s.shared, Probing(a));
    SettlingStep(e, s.shared, a, Found(result));
    Goes(e, s, s.threads, t, s.shared, Probing(a), s.shared, Settling(AfterProbe(a, Found(result))));
  }

  lemma IssueReceipts(e: Env, db: Store, b: Action, slip: Slip)
    requires b.status == Executed && b.result.Some?
    ensures Receipted(Recorded(e, db, b, FromReconciliation, slip)) == Receipted(db) + [b.id]
  {
  }

  lemma SettlesOn(e: Env, s: System, t: nat, b: Action) returns (s': System)
    requires t in s.threads && s.threads[t] == Settling(b) && b.status == Executed && b.result.Some?
    ensures Reachable(e, s, s') && Receipted(s'.shared.db) == Receipted(s.shared.db) + [b.id]
    ensures s'.threads == s.threads[t := Finished]
  {
    var slip := Slip("", b.createdAt, 0);
    assert At(s.threads, t, s.shared, Settling(b)) == s;
    StaysPut(e, s);
    SettledStep(e, s.shared, b);
    FinishPath(e, s, s.threads, t, s.shared, Settling(b), b, FromReconciliation, slip);
    s' := At(s.threads, t, s.shared.(db := Recorded(e, s.shared.db, b, FromReconciliation, slip)), Finished);
    IssueReceipts(e, s.shared.db, b, slip);
  }

  /** Two reconciliations of an action in doubt can each find its effect and each issue a receipt. */
  lemma ReconcilersRepeat(e: Env, s: System, t: nat, u: nat, a: Action, result: Args) returns (s': System)
    requires t !in s.threads && u !in s.threads && t != u
    requires a.id in s.shared.db.actions && s.shared.db.actions[a.id] == a && a.status == Unknown
    requires ToolKey(a.tool, a.name) in e.tools.reconcilers
    ensures Reachable(e, s, s') && !Distinct(Receipted(s'.shared.db))
  {
    var b := AfterProbe(a, Found(result));
    ReachesSettling(e, s, t, a, result);
    var one := At(s.threads, t, s.shared, Settling(b));
    ReachesSettling(e, one, u, a, result);
    var both := At(one.threads, u, s.shared, Settling(b));
    Onward(e, s, one, both);
    var first := SettlesOn(e, both, t, b);
    Onward(e, s, both, first);
    s' := SettlesOn(e, first, u, b);
    Onward(e, s, first, s');
    var n := |Receipted(s.shared.db)|;
    assert Receipted(s'.shared.db)[n] == Receipted(s'.shared.db)[n + 1];
  }

  // ----- serialised runs to start from -----

  ghost predicate Arises(e: Env, w: World) {
    exists ws, steps :: IsRun(e, ws, steps) && ws[|steps|] == w
  }

  lemma GenesisArises(e: Env)
    ensures Arises(e, GENESIS)
  {
    var ws, steps: seq<Step> := [GENESIS], [];
    assert IsRun(e, ws, steps);
  }

  lemma NextArises(e: Env, w: World, step: Step)
    requires Arises(e, w) && Admissible(e, w, step)
    ensures Arises(e, Next(e, w, step))
  {
    var ws, steps :| IsRun(e, ws, steps) && ws[|steps|] == w;
    var ws', steps' := ws + [Next(e, w, step)], steps + [step];
    forall i | 0 <= i < |steps'| ensures Admissible(e, ws'[i], steps'[i]) && ws'[i + 1] == Next(e, ws'[i], steps'[i]) {
      if i < |steps| {
        assert ws'[i] == ws[i] && ws'[i + 1] == ws[i + 1] && steps'[i] == steps[i];
      }
    }
    assert IsRun(e, ws', steps');
  }

  lemma ArisenIsSound(e: Env, w: World)
    requires Arises(e, w)
    ensures Sound(w.db)
  {
    var ws, steps :| IsRun(e, ws, steps) && ws[|steps|] == w;
    RunsAreSound(e, ws, steps, |steps|);
  }

  /** A world some run arrives at is the shared state at the end of some trace, with every request
      number from `n` on unused. */
  lemma ArisenIsReached(e: Env, w: World) returns (s0: System, s: System, n: nat)
    requires Arises(e, w)
    ensures Start(s0) && Reachable(e, s0, s) && s.shared == Shared(w.db, w.calls)
    ensures forall t :: t in s.threads ==> t < n && s.threads[t] == Finished
  {
    var ws, steps :| IsRun(e, ws, steps) && ws[|steps|] == w;
    n := |steps|;
    s0, s := RunsAreTraces(e, ws, steps, n);
    Drifts(e, s0, s, w);
    s := System(Shared(w.db, w.calls), s.threads);
  }

  lemma ReachedIsSafe(e: Env, s0: System, s: System)
    requires Start(s0) && Reachable(e, s0, s)
    ensures Safe(s)
  {
    var ss, ls :| IsPath(e, ss, ls) && ss[0] == s0 && ss[|ls|] == s;
    TracesAreSafe(e, ss, ls, |ls|);
  }

  // ----- one proposed action -----

  const ORG: Id := "o"
  const AGENT: Id := "g"
  const TXN: Id := "x"
  const ACTION: Id := "a"
  const APPROVAL: Id := "p"

  function Asks(tool: string, name: string, key: string): Request {
    Request(ORG, TXN, AGENT, tool, name, map[], key)
  }

  /** One open transaction of one agent, holding exactly this action. */
  predicate Scene(db: Store, a: Action) {
    && db.actions == map[ACTION := a] && a.id == ACTION && a.org == ORG && a.txn == TXN
    && TXN in db.txns && db.txns[TXN].org == ORG && GetAgent(db, ORG, AGENT).Some?
    && a.key == "1" && db.byIdem == map[KeyOf(a) := ACTION]
    && db.txns[TXN].status in {Planning, AwaitingApproval, Executing}
  }

  lemma OpensTransaction(e: Env) returns (w: World)
    ensures Arises(e, w) && TXN in w.db.txns && w.db.txns[TXN] == Txn(TXN, ORG, AGENT, Planning)
    ensures GetAgent(w.db, ORG, AGENT).Some?
    ensures w.db == EMPTY.(orgs := w.db.orgs, agents := w.db.agents, txns := w.db.txns, audit := w.db.audit)
  {
    GenesisArises(e);
    NextArises(e, GENESIS, OpenOrg(ORG));
    w := Next(e, GENESIS, OpenOrg(ORG));
    var register := RegisterAgent(Agent(AGENT, ORG, "", [], ""));
    NextArises(e, w, register);
    w := Next(e, w, register);
    var open := OpenTxn(Txn(TXN, ORG, AGENT, Planning));
    NextArises(e, w, open);
    w := Next(e, w, open);
  }

  /** Without grants and rules a proposal is allowed or held for approval, whatever the judge says. */
  lemma UnruledNotDenied(e: Env, db: Store, q: Request, agent: Agent, a: Action, now: Time)
    requires !HasGrants(db, q.org, q.agent)
    ensures Decided(e, db, q, agent, a, [], now).effect in {Allow, RequireApproval}
  {
  }

  lemma Proposes(e: Env, w: World, tool: string, name: string) returns (w': World, a: Action)
    requires Arises(e, w) && TXN in w.db.txns && w.db.txns[TXN] == Txn(TXN, ORG, AGENT, Planning)
    requires GetAgent(w.db, ORG, AGENT).Some?
    requires w.db == EMPTY.(orgs := w.db.orgs, agents := w.db.agents, txns := w.db.txns, audit := w.db.audit)
    ensures Arises(e, w') && Scene(w'.db, a) && a.tool == tool && a.name == name && a.result == None
    ensures a.status == Allowed || (a.status == AwaitingDecision && APPROVAL in w'.db.approvals && w'.db.approvals[APPROVAL] == NewApproval(a, APPROVAL))
  {
    var q, d := Asks(tool, name, "1"), Draw(0, ACTION, APPROVAL, []);
    assert RulesInForce(w.db, ORG).0 == [];
    NextArises(e, w, ProposeCall(q, d));
    w' := Next(e, w, ProposeCall(q, d));
    ProposeShape(e, w, q, d);
    a := NewAction(e, w.db, q, d);
    var added := AddAction(e.codec, w.db, Drafted(e, q), ACTION, 0);
    UnruledNotDenied(e, added, q, GetAgent(w.db, ORG, AGENT).value, Stored(e.codec, Drafted(e, q), ACTION, 0), 0);
  }

  /** A run from the empty world to one whose only action may run. */
  lemma MadeRunnable(e: Env, tool: string, name: string) returns (w: World, a: Action)
    ensures Arises(e, w) && Scene(w.db, a) && a.tool == tool && a.name == name && a.result == None && (a.status == Allowed || a.status == Approved)
  {
    w := OpensTransaction(e);
    w, a := Proposes(e, w, tool, name);
    if a.status == AwaitingDecision {
      w, a := GetsApproved(e, w, a);
    }
  }

  lemma ApprovedScene(w: World, w': World, a: Action)
    requires Scene(w.db, a) && ApprovalDecided(w, w', NewApproval(a, APPROVAL), true)
    ensures Scene(w'.db, a.(status := Approved))
  {
  }

  lemma GetsApproved(e: Env, w: World, a: Action) returns (w': World, a': Action)
    requires Arises(e, w) && Scene(w.db, a) && APPROVAL in w.db.approvals && w.db.approvals[APPROVAL] == NewApproval(a, APPROVAL)
    ensures Arises(e, w') && Scene(w'.db, a') && a' == a.(status := Approved)
  {
    ArisenIsSound(e, w);
    var p := w.db.approvals[APPROVAL];
    assert ApprovalKeyed(w.db, p) && ActionKeyed(w.db, a);
    NextArises(e, w, DecideCall(ORG, APPROVAL, true));
    DecideShape(w, APPROVAL, true);
    w' := Next(e, w, DecideCall(ORG, APPROVAL, true));
    ApprovedScene(w, w', a);
    a' := a.(status := Approved);
  }

  lemma RunnableOne(w: World, a: Action)
    requires Sound(w.db) && Scene(w.db, a) && (a.status == Allowed || a.status == Approved)
    ensures MayRun(a, a.status == Approved) && a.decision.Some? && ActionKeyed(w.db, a) && w.db.txns[TXN].id == TXN
  {
    assert StatusFits(w.db.actions[ACTION]);
  }

  lemma AnsweredScene(w: World, w': World, a: Action, b: Action, st: TxnStatus)
    requires Scene(w.db, a) && SameDeed(a, b) && ActionMoved(w, w', b, st) && st == Executing
    ensures Scene(w'.db, b) && w'.db.txns[TXN].status == Executing
  {
  }

  lemma RunScene(e: Env, w: World, a: Action, answer: ToolAnswer, slip: Slip)
    requires Sound(w.db) && Scene(w.db, a) && (a.status == Allowed || a.status == Approved) && Reaches(e, a)
    ensures var w' := Run(e, w, a, answer, slip).world; Scene(w'.db, Answered(a, answer)) && w'.db.txns[TXN].status == Executing
  {
    RunnableOne(w, a);
    RunShape(e, w, a, answer, slip);
    AnsweredScene(w, Run(e, w, a, answer, slip).world, a, Answered(a, answer), Executing);
  }

  function RunStepFor(a: Action, answer: ToolAnswer, slip: Slip): Step {
    if a.status == Approved then RunApprovedCall(ORG, ACTION, answer, slip) else ExecuteCall(ORG, ACTION, answer, slip)
  }

  lemma RunStepRuns(e: Env, w: World, a: Action, answer: ToolAnswer, slip: Slip)
    requires GetAction(w.db, ORG, ACTION) == Some(a) && (a.status == Allowed || a.status == Approved) && MayRun(a, a.status == Approved)
    ensures Admissible(e, w, RunStepFor(a, answer, slip))
    ensures Next(e, w, RunStepFor(a, answer, slip)) == Run(e, w, a, answer, slip).world
  {
    if a.status == Approved {
      assert RunApproved(e, w, ORG, ACTION, answer, slip) == Run(e, w, a, answer, slip);
    } else {
      assert ExecuteAllowed(e, w, ORG, ACTION, answer, slip) == Run(e, w, a, answer, slip);
    }
  }

  /** The action runs and its tool gives this answer. */
  lemma GetsAnswer(e: Env, w: World, a: Action, answer: ToolAnswer) returns (w': World, b: Action)
    requires Arises(e, w) && Scene(w.db, a) && (a.status == Allowed || a.status == Approved) && Reaches(e, a)
    ensures Arises(e, w') && Scene(w'.db, b) && b == Answered(a, answer) && w'.db.txns[TXN].status == Executing
  {
    ArisenIsSound(e, w);
    RunnableOne(w, a);
    var slip := Slip("", 0, 0);
    RunStepRuns(e, w, a, answer, slip);
    NextArises(e, w, RunStepFor(a, answer, slip));
    RunScene(e, w, a, answer, slip);
    w', b := Run(e, w, a, answer, slip).world, Answered(a, answer);
  }

  // ----- the races -----

  lemma MayRunNow(e: Env, w: World, a: Action)
    requires Arises(e, w) && Scene(w.db, a) && (a.status == Allowed || a.status == Approved)
    ensures MayRun(a, a.status == Approved)
  {
    ArisenIsSound(e, w);
    RunnableOne(w, a);
  }

  /** Two execution requests for one action: its tool is called twice. */
  lemma CalledTwice(e: Env, tool: string, name: string) returns (s0: System, s': System)
    requires ToolKey(tool, name) in e.tools.handlers
    ensures Start(s0) && Reachable(e, s0, s') && !Distinct(s'.shared.calls)
  {
    var w, a := MadeRunnable(e, tool, name);
    MayRunNow(e, w, a);
    var s, n;
    s0, s, n := ArisenIsReached(e, w);
    ReachedIsSafe(e, s0, s);
    s' := GuardDoesNotExclude(e, s, n, n + 1, ORG, ACTION, a.status == Approved);
    Onward(e, s0, s, s');
  }

  /** Two reconciliations of one action: it gets two receipts. */
  lemma ReceiptedTwice(e: Env, tool: string, name: string) returns (s0: System, s': System)
    requires ToolKey(tool, name) in e.tools.handlers && ToolKey(tool, name) in e.tools.reconcilers
    ensures Start(s0) && Reachable(e, s0, s') && !Distinct(Receipted(s'.shared.db))
  {
    var w, a := MadeRunnable(e, tool, name);
    w, a := GetsAnswer(e, w, a, NoAnswer);
    var s, n;
    s0, s, n := ArisenIsReached(e, w);
    s' := ReconcilersRepeat(e, s, n, n + 1, a, map[]);
    Onward(e, s0, s, s');
  }

  /** A commit that has listed the transaction's actions and found them resolved. */
  lemma ReachesCommitting(e: Env, s: System, t: nat, org: Id, txn: Id)
    requires t !in s.threads && CommitGuard(s.shared.db, org, txn).None?
    ensures Reachable(e, s, At(s.threads, t, s.shared, Committing(org, txn)))
  {
    var st := s.shared.db.txns[txn].status;
    Begins(e, s.threads, t, s.shared, CommitStart(org, txn));
    CommitStartStep(e, s.shared, org, txn);
    Goes(e, s, s.threads, t, s.shared, CommitStart(org, txn), s.shared, CommitList(org, txn, st));
    ListingStep(e, s.shared, org, txn, st);
    Goes(e, s, s.threads, t, s.shared, CommitList(org, txn, st), s.shared, Committing(org, txn));
  }

  lemma AddingStep(e: Env, sh: Shared, bid: Bid)
    requires GetAgent(sh.db, bid.q.org, bid.q.agent).Some?
    ensures ThreadStep(e, sh, ProposeAgent(bid), sh, Adding(bid))
  {
    assert ProposeStep(e, sh, ProposeAgent(bid), sh, Adding(bid));
  }

  lemma BiddingStep(e: Env, sh: Shared, q: Request)
    requires ProposeTxnOk(sh.db, q)
    ensures ThreadStep(e, sh, ProposeStart(q), sh, ProposeAgent(Bid(q, sh.db.txns[q.txn].status)))
  {
    assert ProposeStep(e, sh, ProposeStart(q), sh, ProposeAgent(Bid(q, sh.db.txns[q.txn].status)));
  }

  /** A proposal that has passed its guards. */
  lemma ReachesAdding(e: Env, s: System, t: nat, q: Request)
    requires t !in s.threads && ProposeGuard(s.shared.db, q).None?
    ensures Reachable(e, s, At(s.threads, t, s.shared, Adding(Bid(q, s.shared.db.txns[q.txn].status))))
  {
    var bid := Bid(q, s.shared.db.txns[q.txn].status);
    Begins(e, s.threads, t, s.shared, ProposeStart(q));
    BiddingStep(e, s.shared, q);
    Goes(e, s, s.threads, t, s.shared, ProposeStart(q), s.shared, ProposeAgent(bid));
    AddingStep(e, s.shared, bid);
    Goes(e, s, s.threads, t, s.shared, ProposeAgent(bid), s.shared, Adding(bid));
  }

  lemma SecondKeyIsFree(e: Env, db: Store, a: Action, tool: string, name: string)
    requires Scene(db, a)
    ensures Replayed(db, Drafted(e, Asks(tool, name, "2"))).None?
  {
    assert IdemKey(ORG, TXN, "1")[4] == '1' && IdemKey(ORG, TXN, "2")[4] == '2';
  }

  /** The transaction is COMMITTED while one of its actions has this status. */
  predicate CommittedWith(db: Store, id: Id, st: ActionStatus) {
    && TXN in db.txns && db.txns[TXN].status == Committed
    && id in db.actions && OfTxn(db.actions[id], ORG, TXN) && db.actions[id].status == st
  }

  lemma SceneCommits(db: Store, a: Action)
    requires Scene(db, a) && a.status == Executed && db.txns[TXN].status == Executing
    ensures CommitGuard(db, ORG, TXN).None?
  {
  }

  lemma CommitRace(e: Env, s: System, n: nat, a: Action, tool: string, name: string) returns (s': System)
    requires Scene(s.shared.db, a) && a.status == Executed && s.shared.db.txns[TXN].status == Executing
    requires n !in s.threads && n + 1 !in s.threads
    ensures Reachable(e, s, s')
    ensures CommittedWith(s'.shared.db, "b", Proposed)
  {
    SceneCommits(s.shared.db, a);
    ReachesCommitting(e, s, n, ORG, TXN);
    var one := At(s.threads, n, s.shared, Committing(ORG, TXN));
    var q := Asks(tool, name, "2");
    ReachesAdding(e, one, n + 1, q);
    var both := At(one.threads, n + 1, s.shared, Adding(Bid(q, Executing)));
    Onward(e, s, one, both);
    SecondKeyIsFree(e, s.shared.db, a, tool, name);
    s' := CommitOvertaken(e, both, n, n + 1, "b");
    Onward(e, s, both, s');
  }

  /** A commit overtaken by a proposal: the transaction is COMMITTED with an action just proposed. */
  lemma CommittedUnresolved(e: Env, tool: string, name: string) returns (s0: System, s': System)
    requires ToolKey(tool, name) in e.tools.handlers
    ensures Start(s0) && Reachable(e, s0, s')
    ensures CommittedWith(s'.shared.db, "b", Proposed)
  {
    var w, a := MadeRunnable(e, tool, name);
    w, a := GetsAnswer(e, w, a, Succeeded(map[]));
    var s, n;
    s0, s, n := ArisenIsReached(e, w);
    s' := CommitRace(e, s, n, a, tool, name);
    Onward(e, s0, s, s');
  }

  lemma SucceedsAlone(e: Env, w: World, a: Action) returns (step: Step)
    requires Arises(e, w) && Scene(w.db, a) && (a.status == Allowed || a.status == Approved) && Reaches(e, a)
    ensures Sound(w.db) && Admissible(e, w, step) && !IsSetup(step)
    ensures var w' := Next(e, w, step); Scene(w'.db, Answered(a, Succeeded(map[]))) && w'.db.txns[TXN].status == Executing
  {
    ArisenIsSound(e, w);
    RunnableOne(w, a);
    var slip := Slip("", 0, 0);
    RunStepRuns(e, w, a, Succeeded(map[]), slip);
    RunScene(e, w, a, Succeeded(map[]), slip);
    step := RunStepFor(a, Succeeded(map[]), slip);
  }

  /** While one execution is past the guard, another carries the action out alone. */
  lemma Overtakes(e: Env, s: System, n: nat, w: World, a: Action) returns (s': System)
    requires Arises(e, w) && Scene(w.db, a) && (a.status == Allowed || a.status == Approved) && Reaches(e, a)
    requires s.shared == Shared(w.db, w.calls) && n in s.threads && n + 1 !in s.threads
    ensures Reachable(e, s, s') && s'.threads == s.threads[n + 1 := Finished]
    ensures Scene(s'.shared.db, Answered(a, Succeeded(map[]))) && s'.shared.db.txns[TXN].status == Executing
  {
    var step := SucceedsAlone(e, w, a);
    var sh' := CallAlone(e, s.threads, n + 1, w, step);
    s' := At(s.threads, n + 1, sh', Finished);
  }

  /** The overtaken execution calls its tool and gets no answer. */
  lemma LosesAnswer(e: Env, s: System, n: nat, a: Action, b: Action)
    requires n in s.threads && s.threads[n] == Ready(a) && Scene(s.shared.db, b) && s.shared.db.txns[TXN].status == Executing
    requires a.org == ORG && a.txn == TXN && Reaches(e, a)
    ensures Reachable(e, s, At(s.threads, n, s.shared.(calls := s.shared.calls + [a.id]), Writing(a.(status := Unknown))))
  {
    assert At(s.threads, n, s.shared, Ready(a)) == s;
    StaysPut(e, s);
    StartPath(e, s, s.threads, n, s.shared, a);
    AnsweringStep(e, s.shared, a, NoAnswer);
    Goes(e, s, s.threads, n, s.shared, Calling(a), s.shared.(calls := s.shared.calls + [a.id]), Writing(a.(status := Unknown)));
  }

  /** The stale copy is stored between a commit's listing and its write. */
  lemma StaleRace(e: Env, s: System, n: nat, a: Action, b: Action) returns (s': System)
    requires n in s.threads && s.threads[n] == Writing(a) && n + 2 !in s.threads && OfTxn(a, ORG, TXN) && a.id == ACTION && a.status == Unknown
    requires Scene(s.shared.db, b) && b.status == Executed && s.shared.db.txns[TXN].status == Executing
    ensures Reachable(e, s, s')
    ensures CommittedWith(s'.shared.db, ACTION, Unknown)
  {
    SceneCommits(s.shared.db, b);
    ReachesCommitting(e, s, n + 2, ORG, TXN);
    var listed := At(s.threads, n + 2, s.shared, Committing(ORG, TXN));
    s' := CommitOverwritten(e, listed, n + 2, n, a);
    Onward(e, s, listed, s');
  }

  lemma LateAnswerRace(e: Env, s: System, n: nat, a: Action, b: Action) returns (s': System)
    requires n in s.threads && s.threads[n] == Ready(a) && n + 2 !in s.threads && OfTxn(a, ORG, TXN) && a.id == ACTION && Reaches(e, a)
    requires Scene(s.shared.db, b) && b.status == Executed && s.shared.db.txns[TXN].status == Executing
    ensures Reachable(e, s, s')
    ensures CommittedWith(s'.shared.db, ACTION, Unknown)
  {
    var late := a.(status := Unknown);
    LosesAnswer(e, s, n, a, b);
    var stale := At(s.threads, n, s.shared.(calls := s.shared.calls + [a.id]), Writing(late));
    s' := StaleRace(e, stale, n, late, b);
    Onward(e, s, stale, s');
  }

  lemma OvertakenRace(e: Env, s: System, n: nat, w: World, a: Action) returns (s': System)
    requires Arises(e, w) && Scene(w.db, a) && (a.status == Allowed || a.status == Approved) && Reaches(e, a)
    requires s.shared == Shared(w.db, w.calls) && n in s.threads && s.threads[n] == Ready(a)
    requires n + 1 !in s.threads && n + 2 !in s.threads
    ensures Reachable(e, s, s')
    ensures CommittedWith(s'.shared.db, ACTION, Unknown)
  {
    var done := Overtakes(e, s, n, w, a);
    s' := LateAnswerRace(e, done, n, a, Answered(a, Succeeded(map[])));
    Onward(e, s, done, s');
  }

  /** A commit overwritten by a stale copy: the transaction is COMMITTED with an action in doubt. */
  lemma CommittedInDoubt(e: Env, tool: string, name: string) returns (s0: System, s': System)
    requires ToolKey(tool, name) in e.tools.handlers
    ensures Start(s0) && Reachable(e, s0, s')
    ensures CommittedWith(s'.shared.db, ACTION, Unknown)
  {
    var w, a := MadeRunnable(e, tool, name);
    MayRunNow(e, w, a);
    var s, n;
    s0, s, n := ArisenIsReached(e, w);
    var ready := Arrives(e, s, n, ORG, ACTION, a.status == Approved);
    Onward(e, s0, s, ready);
    s' := OvertakenRace(e, ready, n, w, a);
    Onward(e, s0, ready, s');
  }

  lemma ReachedIsVouched(e: Env, s0: System, s: System)
    requires Start(s0) && Reachable(e, s0, s)
    ensures AllVouched(s)
  {
    var ss, ls :| IsPath(e, ss, ls) && ss[0] == s0 && ss[|ls|] == s;
    VouchedInTraces(e, ss, ls, |ls|);
  }

  /** A stale copy without a result is stored over a receipted action. */
  lemma DisownRace(e: Env, s: System, n: nat, a: Action, b: Action) returns (s': System)
    requires n in s.threads && s.threads[n] == Ready(a) && OfTxn(a, ORG, TXN) && a.id == ACTION && a.result == None && Reaches(e, a)
    requires Scene(s.shared.db, b) && s.shared.db.txns[TXN].status == Executing && ACTION in Receipted(s.shared.db)
    ensures Reachable(e, s, s') && !ResultsTold(e.codec, s'.shared.db)
  {
    var late := a.(status := Unknown);
    LosesAnswer(e, s, n, a, b);
    var stale := At(s.threads, n, s.shared.(calls := s.shared.calls + [a.id]), Writing(late));
    StoringStep(e, stale.shared, late);
    s' := At(s.threads, n, stale.shared.(db := UpdateAction(stale.shared.db, late)), Finished);
    Goes(e, s, s.threads, n, stale.shared, Writing(late), s'.shared, Finished);
    var i :| 0 <= i < |Receipted(s.shared.db)| && Receipted(s.shared.db)[i] == ACTION;
    assert !ResultAt(e.codec, s'.shared.db, i);
  }

  lemma ExecutedIsReceipted(s: System, a: Action, b: Action)
    requires AllVouched(s) && Scene(s.shared.db, b) && b.status == Executed
    requires forall t :: t in s.threads ==> s.threads[t] == Finished || s.threads[t] == Ready(a)
    ensures ACTION in Receipted(s.shared.db)
  {
    assert InEffect(s.shared.db, ACTION);
    assert Vouched(s, ACTION);
  }

  /** An overlapping execution leaves a receipt whose result its action no longer has. */
  lemma ReceiptDisowned(e: Env, tool: string, name: string) returns (s0: System, s': System)
    requires ToolKey(tool, name) in e.tools.handlers
    ensures Start(s0) && Reachable(e, s0, s') && !ResultsTold(e.codec, s'.shared.db)
  {
    var w, a := MadeRunnable(e, tool, name);
    MayRunNow(e, w, a);
    var s, n;
    s0, s, n := ArisenIsReached(e, w);
    var ready := Arrives(e, s, n, ORG, ACTION, a.status == Approved);
    Onward(e, s0, s, ready);
    var done := Overtakes(e, ready, n, w, a);
    Onward(e, s0, ready, done);
    ReachedIsVouched(e, s0, done);
    ExecutedIsReceipted(done, a, Answered(a, Succeeded(map[])));
    s' := DisownRace(e, done, n, a, Answered(a, Succeeded(map[])));
    Onward(e, s0, done, s');
  }
}
