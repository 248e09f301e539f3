/** What receipts say when requests interleave: the operation, arguments and decision of their action
    in every state, and its result as long as nobody stores or attests another one. */
module Evidence {
  import opened Domain
  import opened Receipts
  import opened StoreSpec
  import opened GatewaySpec
  import opened Protocol
  import opened Interleaved
  import opened Safety
  import opened Exclusive
  import opened Attestation
  import opened Testimony

  // ----- operations, arguments and decisions -----

  /** The receipt tells the deed of an action past its gates. */
  predicate DeedAt(c: Codec, db: Store, i: nat)
    requires i < |db.ledger.list|
  {
    var r := db.ledger.list[i]; Released(db, r.action) && TellsDeed(c, r, db.actions[r.action])
  }

  ghost predicate DeedsTold(c: Codec, db: Store) {
    forall i :: 0 <= i < |db.ledger.list| ==> DeedAt(c, db, i)
  }

  /** A request about to attest an action holds a copy of a released one. */
  predicate AttestsHeld(db: Store, th: Thread) {
    match th
    case Attesting(b, _) => Held(db, b)
    case _ => true
  }

  ghost predicate Truthful(c: Codec, s: System) {
    match s
    case System(shared, threads) =>
      && ArgsHashed(c, shared.db) && DeedsTold(c, shared.db)
      && forall t :: t in threads ==> AttestsHeld(shared.db, threads[t])
  }

  lemma AddHashed(e: Env, s: Shared, th: Thread, s': Shared, th': Thread)
    requires th.Adding? && ProposeStep(e, s, th, s', th') && ArgsHashed(e.codec, s.db)
    ensures ArgsHashed(e.codec, s'.db)
  {
  }

  lemma WriteHashed(c: Codec, db: Store, db': Store, w: Write)
    requires Wrote(db, db', w) && !w.Add? && ArgsHashed(c, db)
    ensures ArgsHashed(c, db')
  {
  }

  lemma StepHashed(e: Env, s: Shared, th: Thread, s': Shared, th': Thread, w: Write)
    requires ThreadStep(e, s, th, s', th') && Lawful(s, th, s', th', w) && ArgsHashed(e.codec, s.db)
    ensures ArgsHashed(e.codec, s'.db)
  {
    if th.Adding? {
      AddingProposes(e, s, th, s', th');
      AddHashed(e, s, th, s', th');
    } else {
      WriteHashed(e.codec, s.db, s'.db, w);
    }
  }

  lemma HeldIsTold(e: Env, db: Store, b: Action, how: Settlement, r: Receipt)
    requires RecordsSafe(db) && ArgsHashed(e.codec, db) && Held(db, b) && IsReceiptOf(e, b, how, r)
    ensures TellsDeed(e.codec, r, db.actions[b.id]) && r.action == b.id
  {
    assert ActionSafe(db, b.id);
  }

  lemma DeedStays(c: Codec, db: Store, db': Store, r: Receipt, r': Receipt)
    requires Kept(db, db') && Released(db, r.action) && TellsDeed(c, r, db.actions[r.action])
    requires r' == r.(prevHash := r'.prevHash, hash := r'.hash, keyId := r'.keyId, signature := r'.signature)
    ensures Released(db', r'.action) && TellsDeed(c, r', db'.actions[r'.action])
  {
    assert Settled(db, r.action);
  }

  lemma AppendTold(e: Env, db: Store, db': Store, b: Action, how: Settlement, r: Receipt)
    requires RecordsSafe(db) && ArgsHashed(e.codec, db) && Held(db, b) && DeedsTold(e.codec, db) && Kept(db, db')
    requires IsReceiptOf(e, b, how, r) && db'.ledger == Append(e.codec, db.ledger, r)
    ensures DeedsTold(e.codec, db')
  {
    var list, list' := db.ledger.list, db'.ledger.list;
    HeldIsTold(e, db, b, how, r);
    forall i | 0 <= i < |list'| ensures DeedAt(e.codec, db', i) {
      if i < |list| {
        assert DeedAt(e.codec, db, i);
        DeedStays(e.codec, db, db', list[i], list'[i]);
      } else {
        DeedStays(e.codec, db, db', r, list'[i]);
      }
    }
  }

  lemma SignTold(c: Codec, db: Store, db': Store, r: Receipt)
    requires DeedsTold(c, db) && Kept(db, db') && (db'.ledger == Sign(db.ledger, r) || db'.ledger == db.ledger)
    ensures DeedsTold(c, db')
  {
    forall i | 0 <= i < |db'.ledger.list| ensures DeedAt(c, db', i) {
      assert DeedAt(c, db, i);
      DeedStays(c, db, db', db.ledger.list[i], db'.ledger.list[i]);
    }
  }

  lemma StepTold(e: Env, s: Shared, th: Thread, s': Shared)
    requires RecordsSafe(s.db) && ArgsHashed(e.codec, s.db) && AttestsHeld(s.db, th) && DeedsTold(e.codec, s.db)
    requires Kept(s.db, s'.db) && LedgerWrite(e, s, th, s')
    ensures DeedsTold(e.codec, s'.db)
  {
    if th.Attesting? {
      var r :| IsReceiptOf(e, th.b, th.how, r) && s'.db.ledger == Append(e.codec, s.db.ledger, r);
      AppendTold(e, s.db, s'.db, th.b, th.how, r);
    } else if th.Signing? {
      SignTold(e.codec, s.db, s'.db, th.r);
    } else if |s.db.ledger.list| > 0 {
      SignTold(e.codec, s.db, s'.db, s.db.ledger.list[0]);
    }
  }

  /** Attesting starts from a store of the same copy. */
  lemma AttestersStored(e: Env, s: Shared, th: Thread, s': Shared, th': Thread)
    requires ThreadStep(e, s, th, s', th') && th'.Attesting?
    ensures (th.Writing? || th.Settling?) && th'.b == th.b && s'.db == UpdateAction(s.db, th.b)
    ensures th'.how == if th.Writing? then NotCompensated else FromReconciliation
  {
    if RunStep(e, s, th, s', th') {
    } else if ProbeStep(s, th, s', th') {
    } else if ProposeStep(e, s, th, s', th') {
      ProposalsAside(e, s, th, s', th');
    } else if UnwindStep(s, th, s', th') {
    } else {
      RulingsAside(s, th, s', th');
    }
  }

  /** The receipt a request appends: for the copy it holds, with that copy's result, marked by how the
      answer was come by, and dated from the action's creation if by reconciliation. */
  lemma AttestationByValue(e: Env, s: Shared, th: Thread, s': Shared, th': Thread)
    requires ThreadStep(e, s, th, s', th') && th.Attesting?
    ensures var list, list' := s.db.ledger.list, s'.db.ledger.list;
            && |list'| == |list| + 1 && list'[..|list|] == list
            && var r := list'[|list|];
               && r.action == th.b.id && r.tool == th.b.tool && r.name == th.b.name && r.argsHash == th.b.argsHash
               && th.b.result.Some? && r.resultHash == e.codec.canonical(th.b.result.value)
               && r.compensation == th.how && (th.how == FromReconciliation ==> r.startedAt == th.b.createdAt)
  {
    StepLedger(e, s, th, s', th');
  }

  lemma AttesterHolds(e: Env, s: Shared, th: Thread, s': Shared, th': Thread)
    requires ThreadSafe(s.db, th) && ThreadStep(e, s, th, s', th')
    ensures AttestsHeld(s'.db, th')
  {
    if th'.Attesting? {
      AttestersStored(e, s, th, s', th');
    }
  }

  lemma HoldersHold(db: Store, db': Store, th: Thread)
    requires Kept(db, db') && AttestsHeld(db, th)
    ensures AttestsHeld(db', th)
  {
    if th.Attesting? {
      assert Settled(db, th.b.id);
    }
  }

  lemma MoveKeepsTruth(e: Env, s: System, s': System, t: nat)
    requires Safe(s) && Truthful(e.codec, s) && SystemStep(e, s, s', Move(t))
    ensures Truthful(e.codec, s')
  {
    var th, th' := s.threads[t], s'.threads[t];
    var w := StepWrites(e, s.shared, th, s'.shared, th');
    WriteKeeps(s.shared.db, s'.shared.db, w);
    StepHashed(e, s.shared, th, s'.shared, th', w);
    StepLedger(e, s.shared, th, s'.shared, th');
    StepTold(e, s.shared, th, s'.shared);
    AttesterHolds(e, s.shared, th, s'.shared, th');
    forall u | u in s'.threads && u != t ensures AttestsHeld(s'.shared.db, s'.threads[u]) {
      HoldersHold(s.shared.db, s'.shared.db, s.threads[u]);
    }
  }

  lemma QuietKeepsTruth(e: Env, s: System, s': System, l: Label)
    requires Truthful(e.codec, s) && SystemStep(e, s, s', l) && !l.Move?
    ensures Truthful(e.codec, s')
  {
    assert Kept(s.shared.db, s'.shared.db);
    forall i | 0 <= i < |s'.shared.db.ledger.list| ensures DeedAt(e.codec, s'.shared.db, i) {
      assert DeedAt(e.codec, s.shared.db, i);
    }
  }

  lemma StepKeepsTruth(e: Env, s: System, s': System, l: Label)
    requires Safe(s) && Truthful(e.codec, s) && SystemStep(e, s, s', l)
    ensures Truthful(e.codec, s')
  {
    if l.Move? {
      MoveKeepsTruth(e, s, s', l.t);
    } else {
      QuietKeepsTruth(e, s, s', l);
    }
  }

  /** In every state of every trace each receipt is for an action past its gates and tells that
      action's operation, amount and decision and the digest of its arguments. */
  lemma {:induction false} DeedsToldInTraces(e: Env, ss: seq<System>, ls: seq<Label>, i: nat)
    requires IsTrace(e, ss, ls) && i < |ss|
    ensures Truthful(e.codec, ss[i])
  {
    if i > 0 {
      DeedsToldInTraces(e, ss, ls, i - 1);
      TracesAreSafe(e, ss, ls, i - 1);
      assert SystemStep(e, ss[i - 1], ss[i], ls[i - 1]);
      StepKeepsTruth(e, ss[i - 1], ss[i], ls[i - 1]);
    }
  }

  // ----- results -----

  predicate ResultAt(c: Codec, db: Store, i: nat)
    requires i < |db.ledger.list|
  {
    var r := db.ledger.list[i]; r.action in db.actions && TellsResult(c, r, db.actions[r.action])
  }

  ghost predicate ResultsTold(c: Codec, db: Store) {
    forall i :: 0 <= i < |db.ledger.list| ==> ResultAt(c, db, i)
  }

  /** Both are there, with one digest. */
  predicate SameDigest(c: Codec, x: Option<Args>, y: Option<Args>) {
    x.Some? && y.Some? && c.canonical(x.value) == c.canonical(y.value)
  }

  /** A request about to make a receipt and its action disagree: it stores a copy of a receipted
      action without its result, or attests a result its action does not have. */
  predicate Misreports(c: Codec, db: Store, th: Thread) {
    || (Storing(th).Some? && var b := Storing(th).value;
                             b.id in Receipted(db) && b.id in db.actions && !SameDigest(c, b.result, db.actions[b.id].result))
    || (th.Attesting? && !(th.b.id in db.actions && SameDigest(c, th.b.result, db.actions[th.b.id].result)))
  }

  lemma PutReportsAt(c: Codec, db: Store, db': Store, b: Action, i: nat)
    requires Wrote(db, db', Put(b)) && db'.ledger == db.ledger && i < |db.ledger.list| && ResultAt(c, db, i)
    ensures ResultAt(c, db', i) <==> db.ledger.list[i].action != b.id || SameDigest(c, b.result, db.actions[b.id].result)
  {
  }

  lemma PutReports(c: Codec, db: Store, db': Store, b: Action)
    requires Wrote(db, db', Put(b)) && db'.ledger == db.ledger && ResultsTold(c, db)
    ensures ResultsTold(c, db') <==> b.id !in Receipted(db) || SameDigest(c, b.result, db.actions[b.id].result)
  {
    if b.id in Receipted(db) && !SameDigest(c, b.result, db.actions[b.id].result) {
      var i :| 0 <= i < |Receipted(db)| && Receipted(db)[i] == b.id;
      PutReportsAt(c, db, db', b, i);
      assert !ResultAt(c, db', i);
    } else {
      forall i | 0 <= i < |db'.ledger.list| ensures ResultAt(c, db', i) {
        assert Receipted(db)[i] in Receipted(db);
        PutReportsAt(c, db, db', b, i);
      }
    }
  }

  lemma OtherWriteReports(c: Codec, db: Store, db': Store, w: Write)
    requires Wrote(db, db', w) && !w.Put? && db'.ledger == db.ledger && ResultsTold(c, db)
    ensures ResultsTold(c, db')
  {
    forall i | 0 <= i < |db'.ledger.list| ensures ResultAt(c, db', i) {
      assert ResultAt(c, db, i);
    }
  }

  lemma AppendReports(e: Env, db: Store, db': Store, b: Action, how: Settlement, r: Receipt)
    requires ResultsTold(e.codec, db) && db'.actions == db.actions
    requires IsReceiptOf(e, b, how, r) && db'.ledger == Append(e.codec, db.ledger, r)
    ensures ResultsTold(e.codec, db') <==> b.id in db.actions && SameDigest(e.codec, b.result, db.actions[b.id].result)
  {
    var n := |db.ledger.list|;
    forall i | 0 <= i < n ensures ResultAt(e.codec, db', i) {
      assert ResultAt(e.codec, db, i);
    }
    assert ResultAt(e.codec, db', n) <==> b.id in db.actions && SameDigest(e.codec, b.result, db.actions[b.id].result);
  }

  lemma SignReports(c: Codec, db: Store, db': Store, r: Receipt)
    requires ResultsTold(c, db) && db'.actions == db.actions && db'.ledger == Sign(db.ledger, r)
    ensures ResultsTold(c, db')
  {
    forall i | 0 <= i < |db'.ledger.list| ensures ResultAt(c, db', i) {
      assert ResultAt(c, db, i);
    }
  }

  lemma LedgerStepsTouchNoAction(s: Shared, th: Thread, s': Shared, th': Thread, w: Write)
    requires (th.Attesting? || th.Signing?) && Lawful(s, th, s', th', w)
    ensures s'.db.actions == s.db.actions
  {
  }

  lemma LedgerStepReports(e: Env, s: Shared, th: Thread, s': Shared)
    requires (th.Attesting? || th.Signing?) && s'.db.actions == s.db.actions && LedgerWrite(e, s, th, s') && ResultsTold(e.codec, s.db)
    ensures ResultsTold(e.codec, s'.db) <==> !Misreports(e.codec, s.db, th)
  {
    if th.Attesting? {
      var r :| IsReceiptOf(e, th.b, th.how, r) && s'.db.ledger == Append(e.codec, s.db.ledger, r);
      AppendReports(e, s.db, s'.db, th.b, th.how, r);
    } else {
      SignReports(e.codec, s.db, s'.db, th.r);
    }
  }

  lemma WriteReports(e: Env, s: Shared, th: Thread, s': Shared, th': Thread, w: Write)
    requires !th.Attesting? && !th.Signing? && Lawful(s, th, s', th', w) && LedgerWrite(e, s, th, s') && ResultsTold(e.codec, s.db)
    ensures ResultsTold(e.codec, s'.db) <==> !Misreports(e.codec, s.db, th)
  {
    if w.Put? {
      PutReports(e.codec, s.db, s'.db, w.b);
    } else {
      OtherWriteReports(e.codec, s.db, s'.db, w);
    }
  }

  /** While every receipt tells its action's result, a request's step leaves it so if and only if it
      does not misreport. */
  lemma StepMisreports(e: Env, s: Shared, th: Thread, s': Shared, th': Thread)
    requires RecordsSafe(s.db) && ThreadSafe(s.db, th) && ThreadStep(e, s, th, s', th') && ResultsTold(e.codec, s.db)
    ensures ResultsTold(e.codec, s'.db) <==> !Misreports(e.codec, s.db, th)
  {
    var w := StepWrites(e, s, th, s', th');
    StepLedger(e, s, th, s', th');
    if th.Attesting? || th.Signing? {
      LedgerStepsTouchNoAction(s, th, s', th', w);
      LedgerStepReports(e, s, th, s');
    } else {
      WriteReports(e, s, th, s', th', w);
    }
  }

  // ----- without overlap nobody misreports -----

  /** Copies about to be attested or stored over an action in effect carry its result. */
  predicate CarriesResult(db: Store, th: Thread) {
    match th
    case Attesting(b, _) => b.id in db.actions && b.result.Some? && db.actions[b.id].result == b.result
    case Undone2(_, _, _, _, b) => b.id in db.actions && db.actions[b.id].result == b.result
    case Writing(b) => b.status == Executed ==> b.result.Some?
    case Settling(b) => b.status == Executed ==> b.result.Some?
    case _ => true
  }

  ghost predicate Reliable(c: Codec, s: System) {
    match s
    case System(shared, threads) =>
      ResultsTold(c, shared.db) && forall t :: t in threads ==> CarriesResult(shared.db, threads[t])
  }

  /** Only a compensation stores over an action in effect. */
  lemma StoresOverEffect(s: Shared, th: Thread, b: Action)
    requires ThreadOnce(s, th) && ThreadSingle(s.db, th) && UnwindsInEffect(s.db, th) && Storing(th) == Some(b) && InEffect(s.db, b.id)
    ensures th.Undone2? && th.b == b
  {
  }

  lemma CarriersReport(c: Codec, s: Shared, th: Thread)
    requires ThreadOnce(s, th) && ThreadSingle(s.db, th) && UnwindsInEffect(s.db, th) && CarriesResult(s.db, th)
    requires ReceiptsSingle(s.db) && ResultsTold(c, s.db)
    ensures !Misreports(c, s.db, th)
  {
    if Storing(th).Some? && Storing(th).value.id in Receipted(s.db) {
      var b := Storing(th).value;
      StoresOverEffect(s, th, b);
      var i :| 0 <= i < |Receipted(s.db)| && Receipted(s.db)[i] == b.id;
      assert ResultAt(c, s.db, i);
    }
  }

  ghost predicate EffectResultsKept(db: Store, db': Store) {
    forall id :: InEffect(db, id) ==> id in db'.actions && db'.actions[id].result == db.actions[id].result
  }

  lemma WriteKeepsResults(db: Store, db': Store, w: Write)
    requires Wrote(db, db', w) && (w.Put? && InEffect(db, w.b.id) ==> w.b.result == db.actions[w.b.id].result)
    ensures EffectResultsKept(db, db')
  {
  }

  lemma StepKeepsResults(s: Shared, th: Thread, s': Shared, th': Thread, w: Write)
    requires ThreadOnce(s, th) && ThreadSingle(s.db, th) && UnwindsInEffect(s.db, th) && CarriesResult(s.db, th)
    requires Lawful(s, th, s', th', w)
    ensures EffectResultsKept(s.db, s'.db)
  {
    if w.Put? && InEffect(s.db, w.b.id) {
      StoresOverEffect(s, th, w.b);
    }
    WriteKeepsResults(s.db, s'.db, w);
  }

  lemma OthersCarry(db: Store, db': Store, other: Thread)
    requires EffectResultsKept(db, db') && ThreadSingle(db, other) && UnwindsInEffect(db, other) && CarriesResult(db, other)
    ensures CarriesResult(db', other)
  {
    assert other.Undone2? ==> Unwinds(other, other.b.id);
  }

  lemma RunCarries(e: Env, s: Shared, th: Thread, s': Shared, th': Thread)
    requires ThreadSafe(s.db, th) && CarriesResult(s.db, th) && RunStep(e, s, th, s', th')
    ensures CarriesResult(s'.db, th')
  {
  }

  lemma ProbeCarries(s: Shared, th: Thread, s': Shared, th': Thread)
    requires ThreadSafe(s.db, th) && CarriesResult(s.db, th) && ProbeStep(s, th, s', th')
    ensures CarriesResult(s'.db, th')
  {
  }

  lemma UnwindCarries(s: Shared, th: Thread, s': Shared, th': Thread)
    requires RecordsSafe(s.db) && UnwindStep(s, th, s', th')
    ensures CarriesResult(s'.db, th')
  {
    assert th.Undone1? && th.id in s.db.actions ==> ActionSafe(s.db, th.id);
  }

  lemma OwnCarries(e: Env, s: Shared, th: Thread, s': Shared, th': Thread)
    requires RecordsSafe(s.db) && ThreadSafe(s.db, th) && CarriesResult(s.db, th) && ThreadStep(e, s, th, s', th')
    ensures CarriesResult(s'.db, th')
  {
    if ProposeStep(e, s, th, s', th') {
      ProposalsAside(e, s, th, s', th');
    } else if RunStep(e, s, th, s', th') {
      RunCarries(e, s, th, s', th');
    } else if ProbeStep(s, th, s', th') {
      ProbeCarries(s, th, s', th');
    } else if UnwindStep(s, th, s', th') {
      UnwindCarries(s, th, s', th');
    } else {
      RulingsAside(s, th, s', th');
    }
  }

  lemma CarriersStay(e: Env, s: System, s': System, t: nat)
    requires ThreadsSingle(s) && SystemStep(e, s, s', Move(t)) && EffectResultsKept(s.shared.db, s'.shared.db)
    requires forall u :: u in s.threads ==> CarriesResult(s.shared.db, s.threads[u])
    requires CarriesResult(s'.shared.db, s'.threads[t])
    ensures forall u :: u in s'.threads ==> CarriesResult(s'.shared.db, s'.threads[u])
  {
    forall u | u in s'.threads && u != t ensures CarriesResult(s'.shared.db, s'.threads[u]) {
      OthersCarry(s.shared.db, s'.shared.db, s.threads[u]);
    }
  }

  lemma MoveKeepsReliable(e: Env, s: System, s': System, t: nat)
    requires Safe(s) && Once(s) && Single(s) && Reliable(e.codec, s) && SystemStep(e, s, s', Move(t))
    ensures Reliable(e.codec, s')
  {
    var th, th' := s.threads[t], s'.threads[t];
    var w := StepWrites(e, s.shared, th, s'.shared, th');
    CarriersReport(e.codec, s.shared, th);
    StepMisreports(e, s.shared, th, s'.shared, th');
    StepKeepsResults(s.shared, th, s'.shared, th', w);
    OwnCarries(e, s.shared, th, s'.shared, th');
    CarriersStay(e, s, s', t);
  }

  lemma QuietKeepsReliable(e: Env, s: System, s': System, l: Label)
    requires Reliable(e.codec, s) && SystemStep(e, s, s', l) && !l.Move?
    ensures Reliable(e.codec, s')
  {
    forall i | 0 <= i < |s'.shared.db.ledger.list| ensures ResultAt(e.codec, s'.shared.db, i) {
      assert ResultAt(e.codec, s.shared.db, i);
    }
  }

  lemma StepKeepsReliable(e: Env, s: System, s': System, l: Label)
    requires Safe(s) && Once(s) && Single(s) && Reliable(e.codec, s) && SystemStep(e, s, s', l)
    ensures Reliable(e.codec, s')
  {
    if l.Move? {
      MoveKeepsReliable(e, s, s', l.t);
    } else {
      QuietKeepsReliable(e, s, s', l);
    }
  }

  lemma {:induction false} ReliableThroughout(e: Env, ss: seq<System>, ls: seq<Label>, i: nat)
    requires IsTrace(e, ss, ls) && i < |ss| && forall j :: 0 <= j < |ss| ==> NoDoubleHandling(ss[j].threads)
    ensures Reliable(e.codec, ss[i])
  {
    if i > 0 {
      ReliableThroughout(e, ss, ls, i - 1);
      TracesAreSafe(e, ss, ls, i - 1);
      SingleThroughout(e, ss, ls, i - 1);
      forall j | 0 <= j < |ss| ensures NoOverlap(ss[j].threads) { RunningHandles(ss[j].threads); }
      OnceThroughout(e, ss, ls, i - 1);
      assert SystemStep(e, ss[i - 1], ss[i], ls[i - 1]);
      StepKeepsReliable(e, ss[i - 1], ss[i], ls[i - 1]);
    }
  }

  /** While no two requests handle one action at the same time, every receipt tells all of its
      action: operation, arguments, decision and result. */
  lemma ReceiptsTellAll(e: Env, ss: seq<System>, ls: seq<Label>, n: nat, i: nat)
    requires IsTrace(e, ss, ls) && n < |ss| && forall j :: 0 <= j < |ss| ==> NoDoubleHandling(ss[j].threads)
    requires i < |ss[n].shared.db.ledger.list|
    ensures var db := ss[n].shared.db; var r := db.ledger.list[i]; r.action in db.actions && Tells(e.codec, r, db.actions[r.action])
  {
    ReliableThroughout(e, ss, ls, n);
    DeedsToldInTraces(e, ss, ls, n);
    var db := ss[n].shared.db;
    assert ResultAt(e.codec, db, i) && DeedAt(e.codec, db, i);
  }
}
