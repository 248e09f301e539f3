/** Receipts when requests interleave: the chains verify in every state, every action in effect
    has a receipt or a request about to append one, and no action gets two while no two requests
    handle it at the same time. */
module Attestation {
  import opened Domain
  import opened Receipts
  import opened StoreSpec
  import opened GatewaySpec
  import opened Protocol
  import opened Interleaved
  import opened Safety
  import opened Exclusive
  import opened LedgerLaws

  // ----- what a step does to the ledger -----

  ghost predicate LedgerWrite(e: Env, s: Shared, th: Thread, s': Shared) {
    match th
    case Attesting(b, how) => exists r :: IsReceiptOf(e, b, how, r) && s'.db.ledger == Append(e.codec, s.db.ledger, r)
    case Signing(r) => s'.db.ledger == Sign(s.db.ledger, r)
    case _ => s'.db.ledger == s.db.ledger
  }

  lemma ProposalsKeepLedger(e: Env, s: Shared, th: Thread, s': Shared, th': Thread)
    requires ProposeStep(e, s, th, s', th')
    ensures LedgerWrite(e, s, th, s')
  {
  }

  lemma RunsWriteLedger(e: Env, s: Shared, th: Thread, s': Shared, th': Thread)
    requires RunStep(e, s, th, s', th')
    ensures LedgerWrite(e, s, th, s')
  {
    if th.Attesting? {
      var r :| IsReceiptOf(e, th.b, th.how, r) && s' == s.(db := AppendReceipt(e.codec, s.db, r));
      assert s'.db.ledger == Append(e.codec, s.db.ledger, r);
    }
  }

  lemma OtherLedger(e: Env, s: Shared, th: Thread, s': Shared, th': Thread)
    requires RuleStep(s, th, s', th') || ProbeStep(s, th, s', th') || UnwindStep(s, th, s', th') || CommitStep(s, th, s', th')
    ensures LedgerWrite(e, s, th, s')
  {
  }

  lemma StepLedger(e: Env, s: Shared, th: Thread, s': Shared, th': Thread)
    requires ThreadStep(e, s, th, s', th')
    ensures LedgerWrite(e, s, th, s')
  {
    if ProposeStep(e, s, th, s', th') {
      ProposalsKeepLedger(e, s, th, s', th');
    } else if RunStep(e, s, th, s', th') {
      RunsWriteLedger(e, s, th, s', th');
    } else {
      OtherLedger(e, s, th, s', th');
    }
  }

  lemma LedgerWriteKeepsChains(e: Env, s: Shared, th: Thread, s': Shared)
    requires LedgerWrite(e, s, th, s') && ChainsIntact(e.codec, s.db.ledger)
    ensures ChainsIntact(e.codec, s'.db.ledger)
  {
    if th.Attesting? {
      var r :| IsReceiptOf(e, th.b, th.how, r) && s'.db.ledger == Append(e.codec, s.db.ledger, r);
      AppendKeepsChains(e.codec, s.db.ledger, r);
    } else if th.Signing? {
      SignKeepsChains(e.codec, s.db.ledger, th.r);
    }
  }

  lemma StepKeepsChains(e: Env, s: System, s': System, l: Label)
    requires SystemStep(e, s, s', l) && ChainsIntact(e.codec, s.shared.db.ledger)
    ensures ChainsIntact(e.codec, s'.shared.db.ledger)
  {
    if l.Move? {
      StepLedger(e, s.shared, s.threads[l.t], s'.shared, s'.threads[l.t]);
      LedgerWriteKeepsChains(e, s.shared, s.threads[l.t], s'.shared);
    }
  }

  /** However requests interleave, every organization's chain verifies in every state and its
      recorded tip is the hash of its newest receipt. */
  lemma {:induction false} ChainsIntactInTraces(e: Env, ss: seq<System>, ls: seq<Label>, i: nat)
    requires IsTrace(e, ss, ls) && i < |ss|
    ensures ChainsIntact(e.codec, ss[i].shared.db.ledger)
  {
    if i > 0 {
      ChainsIntactInTraces(e, ss, ls, i - 1);
      assert SystemStep(e, ss[i - 1], ss[i], ls[i - 1]);
      StepKeepsChains(e, ss[i - 1], ss[i], ls[i - 1]);
    }
  }

  // ----- every action in effect is vouched for -----

  /** The actions the receipts are for, oldest receipt first. */
  function Receipted(db: Store): seq<Id> {
    seq(|db.ledger.list|, i requires 0 <= i < |db.ledger.list| => db.ledger.list[i].action)
  }

  /** Only a request about to append a receipt adds one, and for the action it holds. */
  predicate ReceiptedBy(s: Shared, th: Thread, s': Shared) {
    Receipted(s'.db) == Receipted(s.db) + if th.Attesting? then [th.b.id] else []
  }

  lemma SignKeepsReceipted(g: Ledger, r: Receipt)
    ensures |Sign(g, r).list| == |g.list| && forall i :: 0 <= i < |g.list| ==> Sign(g, r).list[i].action == g.list[i].action
  {
  }

  lemma StepReceipts(e: Env, s: Shared, th: Thread, s': Shared, th': Thread)
    requires ThreadStep(e, s, th, s', th')
    ensures ReceiptedBy(s, th, s')
  {
    StepLedger(e, s, th, s', th');
    WriteReceipts(e, s, th, s');
  }

  lemma WriteReceipts(e: Env, s: Shared, th: Thread, s': Shared)
    requires LedgerWrite(e, s, th, s')
    ensures ReceiptedBy(s, th, s')
  {
    if th.Attesting? {
      var r :| IsReceiptOf(e, th.b, th.how, r) && s'.db.ledger == Append(e.codec, s.db.ledger, r);
      assert r.action == th.b.id;
    } else if th.Signing? {
      SignKeepsReceipted(s.db.ledger, th.r);
    }
  }

  predicate InEffect(db: Store, id: Id) {
    id in db.actions && TookEffect(db.actions[id].status)
  }

  ghost predicate BeingAttested(threads: map<nat, Thread>, id: Id) {
    exists t :: t in threads && threads[t].Attesting? && threads[t].b.id == id
  }

  ghost predicate Vouched(s: System, id: Id) {
    id in Receipted(s.shared.db) || BeingAttested(s.threads, id)
  }

  /** Whom a compensation is about to touch, as its listing or its re-read found them. */
  predicate Unwinds(th: Thread, id: Id) {
    match th
    case UnwindMark(_, _, queue) => Queued(queue, id)
    case Unwinding(_, _, queue, _) => Queued(queue, id)
    case Undone1(_, _, queue, _, k, _) => Queued(queue, id) || k == id
    case Undone2(_, _, queue, _, b) => Queued(queue, id) || b.id == id
    case _ => false
  }

  predicate Queued(queue: seq<Action>, id: Id) {
    exists i :: 0 <= i < |queue| && queue[i].status == Executed && queue[i].id == id
  }

  /** A tool's or provider's answer brings an action into effect as EXECUTED, nothing else. */
  predicate AnswersPlainly(th: Thread) {
    match th
    case Writing(b) => TookEffect(b.status) ==> b.status == Executed
    case Settling(b) => TookEffect(b.status) ==> b.status == Executed
    case _ => true
  }

  ghost predicate AllVouched(s: System) {
    match s
    case System(shared, threads) =>
      && (forall id :: InEffect(shared.db, id) ==> Vouched(s, id))
      && (forall t, id :: t in threads && Unwinds(threads[t], id) ==> Vouched(s, id))
      && (forall t :: t in threads ==> AnswersPlainly(threads[t]))
  }

  lemma VouchedStays(e: Env, s: System, s': System, l: Label, id: Id)
    requires SystemStep(e, s, s', l) && Vouched(s, id)
    ensures Vouched(s', id)
  {
    if l.Move? {
      StepReceipts(e, s.shared, s.threads[l.t], s'.shared, s'.threads[l.t]);
    }
    StillVouched(s, s', l, id);
  }

  lemma StillVouched(s: System, s': System, l: Label, id: Id)
    requires Vouched(s, id)
    requires forall t :: t in s.threads && l != Move(t) ==> t in s'.threads && s'.threads[t] == s.threads[t]
    requires l.Move? ==> l.t in s.threads && ReceiptedBy(s.shared, s.threads[l.t], s'.shared)
    requires !l.Move? ==> s'.shared.db.ledger == s.shared.db.ledger
    ensures Vouched(s', id)
  {
    if BeingAttested(s.threads, id) {
      var t :| t in s.threads && s.threads[t].Attesting? && s.threads[t].b.id == id;
      if l == Move(t) {
        assert Receipted(s'.shared.db)[|Receipted(s.shared.db)|] == id;
      } else {
        assert s'.threads[t].Attesting?;
      }
    }
  }

  /** Storing an action in effect: as a fresh answer about to be attested, or undone by a compensation. */
  lemma StoresVouched(e: Env, s: Shared, th: Thread, s': Shared, th': Thread, b: Action)
    requires ThreadStep(e, s, th, s', th') && Storing(th) == Some(b) && TookEffect(b.status) && AnswersPlainly(th)
    ensures Unwinds(th, b.id) || (th'.Attesting? && th'.b.id == b.id)
  {
    if th.Writing? {
      RunnersRun(e, s, th, s', th');
    } else if th.Settling? {
      SettlersProbe(e, s, th, s', th');
    }
  }

  lemma SettlersProbe(e: Env, s: Shared, th: Thread, s': Shared, th': Thread)
    requires ThreadStep(e, s, th, s', th') && (th.ProbeStart? || th.Probing? || th.Settling?)
    ensures ProbeStep(s, th, s', th')
  {
  }

  /** An action comes into effect only by a store. */
  lemma EffectStored(db: Store, db': Store, w: Write, id: Id)
    requires Wrote(db, db', w) && InEffect(db', id)
    ensures InEffect(db, id) || (w.Put? && w.b.id == id && TookEffect(w.b.status))
  {
  }

  lemma EffectVouched(e: Env, s: System, s': System, t: nat, id: Id)
    requires Safe(s) && AllVouched(s) && SystemStep(e, s, s', Move(t)) && InEffect(s'.shared.db, id)
    ensures Vouched(s', id)
  {
    var th, th' := s.threads[t], s'.threads[t];
    var w := StepWrites(e, s.shared, th, s'.shared, th');
    EffectStored(s.shared.db, s'.shared.db, w, id);
    if !InEffect(s.shared.db, id) {
      StoresVouched(e, s.shared, th, s'.shared, th', w.b);
    }
    if Vouched(s, id) {
      VouchedStays(e, s, s', Move(t), id);
    }
  }

  lemma SnapshotInEffect(db: Store, org: Id, txn: Id, ids: seq<Id>, id: Id)
    requires RecordsSafe(db) && Lists(db, org, txn, ids) && Queued(Reversed(Snapshot(db, ids)), id)
    ensures InEffect(db, id)
  {
    var queue := Reversed(Snapshot(db, ids));
    var i :| 0 <= i < |queue| && queue[i].status == Executed && queue[i].id == id;
    assert ActionSafe(db, ids[|ids| - 1 - i]);
  }

  lemma ListsInEffect(s: Shared, th: Thread, s': Shared, th': Thread, id: Id)
    requires RecordsSafe(s.db) && th.UnwindList? && UnwindStep(s, th, s', th') && Unwinds(th', id)
    ensures InEffect(s.db, id)
  {
    var ids :| Lists(s.db, th.org, th.txn, ids) && th' == UnwindMark(th.org, th.txn, Reversed(Snapshot(s.db, ids)));
    SnapshotInEffect(s.db, th.org, th.txn, ids, id);
  }

  lemma TailQueued(queue: seq<Action>, id: Id)
    requires queue != [] && Queued(queue[1..], id)
    ensures Queued(queue, id)
  {
    var i :| 0 <= i < |queue[1..]| && queue[1..][i].status == Executed && queue[1..][i].id == id;
    assert queue[i + 1].id == id;
  }

  /** A compensation only goes on to actions it already had, or has just listed in effect. */
  lemma UnwindsOnward(s: Shared, th: Thread, s': Shared, th': Thread, id: Id)
    requires RecordsSafe(s.db) && UnwindStep(s, th, s', th') && Unwinds(th', id)
    ensures Unwinds(th, id) || InEffect(s.db, id)
  {
    if th.UnwindList? {
      ListsInEffect(s, th, s', th', id);
    } else if th.Undone1? {
      assert ActionSafe(s.db, th.id);
    } else if th.Unwinding? {
      if Queued(th.queue[1..], id) {
        TailQueued(th.queue, id);
      } else {
        assert th.queue[0].id == id && th.queue[0].status == Executed;
      }
    }
  }

  predicate IsUnwinder(th: Thread) {
    match th
    case UnwindMark(_, _, _) => true
    case Unwinding(_, _, _, _) => true
    case Undone1(_, _, _, _, _, _) => true
    case Undone2(_, _, _, _, _) => true
    case _ => false
  }

  /** Neither holding an answer, nor attesting one, nor unwinding. */
  predicate Aside(th: Thread) {
    match th
    case Writing(_) => false
    case Probing(_) => false
    case Settling(_) => false
    case Attesting(_, _) => false
    case _ => !IsUnwinder(th)
  }

  lemma ProposalsAside(e: Env, s: Shared, th: Thread, s': Shared, th': Thread)
    requires ProposeStep(e, s, th, s', th')
    ensures Aside(th')
  {
  }

  lemma RulingsAside(s: Shared, th: Thread, s': Shared, th': Thread)
    requires RuleStep(s, th, s', th') || CommitStep(s, th, s', th')
    ensures Aside(th')
  {
  }

  lemma RunsAnswerPlainly(e: Env, s: Shared, th: Thread, s': Shared, th': Thread)
    requires RunStep(e, s, th, s', th')
    ensures AnswersPlainly(th') && !IsUnwinder(th')
  {
  }

  lemma ProbesAnswerPlainly(s: Shared, th: Thread, s': Shared, th': Thread)
    requires ProbeStep(s, th, s', th')
    ensures AnswersPlainly(th') && !IsUnwinder(th')
  {
  }

  lemma UnwindsDoNotAnswer(s: Shared, th: Thread, s': Shared, th': Thread)
    requires UnwindStep(s, th, s', th')
    ensures AnswersPlainly(th')
  {
  }

  lemma StepAnswersPlainly(e: Env, s: Shared, th: Thread, s': Shared, th': Thread)
    requires ThreadStep(e, s, th, s', th')
    ensures AnswersPlainly(th')
  {
    if ProposeStep(e, s, th, s', th') {
      ProposalsAside(e, s, th, s', th');
    } else if RunStep(e, s, th, s', th') {
      RunsAnswerPlainly(e, s, th, s', th');
    } else if ProbeStep(s, th, s', th') {
      ProbesAnswerPlainly(s, th, s', th');
    } else if UnwindStep(s, th, s', th') {
      UnwindsDoNotAnswer(s, th, s', th');
    } else {
      RulingsAside(s, th, s', th');
    }
  }

  lemma UnwindersUnwind(e: Env, s: Shared, th: Thread, s': Shared, th': Thread)
    requires ThreadStep(e, s, th, s', th') && IsUnwinder(th')
    ensures UnwindStep(s, th, s', th')
  {
    if ProposeStep(e, s, th, s', th') {
      ProposalsAside(e, s, th, s', th');
    } else if RunStep(e, s, th, s', th') {
      RunsAnswerPlainly(e, s, th, s', th');
    } else if ProbeStep(s, th, s', th') {
      ProbesAnswerPlainly(s, th, s', th');
    } else if !UnwindStep(s, th, s', th') {
      RulingsAside(s, th, s', th');
    }
  }

  lemma MoveKeepsVouched(e: Env, s: System, s': System, t: nat)
    requires Safe(s) && AllVouched(s) && SystemStep(e, s, s', Move(t))
    ensures AllVouched(s')
  {
    var th, th' := s.threads[t], s'.threads[t];
    StepAnswersPlainly(e, s.shared, th, s'.shared, th');
    forall id | InEffect(s'.shared.db, id) ensures Vouched(s', id) {
      EffectVouched(e, s, s', t, id);
    }
    forall u, id | u in s'.threads && Unwinds(s'.threads[u], id) ensures Vouched(s', id) {
      if u == t {
        UnwindersUnwind(e, s.shared, th, s'.shared, th');
        UnwindsOnward(s.shared, th, s'.shared, th', id);
      }
      VouchedStays(e, s, s', Move(t), id);
    }
  }

  lemma QuietKeepsVouched(e: Env, s: System, s': System, l: Label)
    requires AllVouched(s) && SystemStep(e, s, s', l) && !l.Move?
    ensures AllVouched(s')
  {
    forall id | Vouched(s, id) ensures Vouched(s', id) {
      VouchedStays(e, s, s', l, id);
    }
  }

  lemma StepKeepsVouched(e: Env, s: System, s': System, l: Label)
    requires Safe(s) && AllVouched(s) && SystemStep(e, s, s', l)
    ensures AllVouched(s')
  {
    if l.Move? {
      MoveKeepsVouched(e, s, s', l.t);
    } else {
      QuietKeepsVouched(e, s, s', l);
    }
  }

  /** In every state of every trace, an action in effect, undone since or not, has a receipt or a
      request about to append one. */
  lemma {:induction false} VouchedInTraces(e: Env, ss: seq<System>, ls: seq<Label>, i: nat)
    requires IsTrace(e, ss, ls) && i < |ss|
    ensures AllVouched(ss[i])
  {
    if i > 0 {
      VouchedInTraces(e, ss, ls, i - 1);
      TracesAreSafe(e, ss, ls, i - 1);
      assert SystemStep(e, ss[i - 1], ss[i], ls[i - 1]);
      StepKeepsVouched(e, ss[i - 1], ss[i], ls[i - 1]);
    }
  }

  // ----- one receipt per action -----

  /** The action a request is executing or reconciling, until it has written it back. */
  function Handling(th: Thread): Option<Id> {
    match th
    case Probing(a) => Some(a.id)
    case Settling(b) => Some(b.id)
    case _ => Running(th)
  }

  ghost predicate NoDoubleHandling(threads: map<nat, Thread>) {
    forall t, u :: t in threads && u in threads && t != u && Handling(threads[t]).Some? ==> Handling(threads[t]) != Handling(threads[u])
  }

  lemma RunningHandles(threads: map<nat, Thread>)
    requires NoDoubleHandling(threads)
    ensures NoOverlap(threads)
  {
    forall t, u | t in threads && u in threads && t != u && Running(threads[t]).Some? ensures Running(threads[t]) != Running(threads[u]) {
      assert Handling(threads[t]) == Running(threads[t]);
      assert Running(threads[u]).Some? ==> Handling(threads[u]) == Running(threads[u]);
    }
  }

  predicate InDoubt(db: Store, id: Id) {
    id in db.actions && db.actions[id].status == Unknown
  }

  predicate ThreadSingle(db: Store, th: Thread) {
    match th
    case Writing(b) => Runnable(db, b.id)
    case Probing(a) => InDoubt(db, a.id)
    case Settling(b) => InDoubt(db, b.id)
    case Attesting(b, _) => InEffect(db, b.id) && b.id !in Receipted(db)
    case Undone2(_, _, _, _, b) => TookEffect(b.status)
    case _ => true
  }

  /** A compensation only touches actions in effect. */
  ghost predicate UnwindsInEffect(db: Store, th: Thread) {
    forall id :: Unwinds(th, id) ==> InEffect(db, id)
  }

  ghost predicate ThreadsSingle(s: System) {
    forall t :: t in s.threads ==> ThreadSingle(s.shared.db, s.threads[t]) && UnwindsInEffect(s.shared.db, s.threads[t])
  }

  /** The action a request is about to append a receipt for. */
  function Vouching(th: Thread): Option<Id> {
    match th
    case Attesting(b, _) => Some(b.id)
    case _ => None
  }

  /** If it vouches for an action, then for one not in effect yet. */
  predicate VouchesAfresh(db: Store, th: Thread) {
    match th
    case Attesting(b, _) => !InEffect(db, b.id)
    case _ => true
  }

  ghost predicate VouchersDistinct(threads: map<nat, Thread>) {
    forall t, u :: t in threads && u in threads && t != u && Vouching(threads[t]).Some? ==> Vouching(threads[t]) != Vouching(threads[u])
  }

  predicate ReceiptsSingle(db: Store) {
    Distinct(Receipted(db)) && forall id :: id in Receipted(db) ==> InEffect(db, id)
  }

  ghost predicate Single(s: System) {
    match s
    case System(shared, threads) => ThreadsSingle(s) && VouchersDistinct(threads) && ReceiptsSingle(shared.db)
  }

  /** Stores go over an action in effect only to undo it, and over one that may run or is in doubt
      only from the request handling it. */
  lemma StoreSpares(s: Shared, th: Thread, b: Action)
    requires ThreadOnce(s, th) && ThreadSingle(s.db, th) && UnwindsInEffect(s.db, th) && Storing(th) == Some(b)
    ensures InEffect(s.db, b.id) ==> TookEffect(b.status)
    ensures InDoubt(s.db, b.id) || Runnable(s.db, b.id) ==> Handling(th) == Some(b.id)
  {
    assert th.Undone2? ==> Unwinds(th, b.id);
  }

  /** What a step of `th` leaves as it was. */
  ghost predicate Spared(db: Store, db': Store, th: Thread) {
    && (forall id :: InEffect(db, id) ==> InEffect(db', id))
    && (forall id :: InDoubt(db, id) && Handling(th) != Some(id) ==> InDoubt(db', id))
    && (forall id :: Runnable(db, id) && Handling(th) != Some(id) ==> Runnable(db', id))
  }

  /** A write leaves a settled action the status it had, unless it stores that action. */
  predicate StatusLeft(db: Store, db': Store, w: Write, id: Id) {
    Settled(db, id) ==> id in db'.actions && db'.actions[id].status == if w.Put? && w.b.id == id then w.b.status else db.actions[id].status
  }

  lemma StatusSpared(db: Store, db': Store, w: Write, id: Id)
    requires Wrote(db, db', w)
    ensures StatusLeft(db, db', w, id)
  {
    if Settled(db, id) && !(w.Put? && w.b.id == id) {
      StatusUntouched(db, db', w, id);
    }
  }

  lemma StatusesSpare(db: Store, db': Store, w: Write, th: Thread)
    requires forall id :: StatusLeft(db, db', w, id)
    requires w.Put? ==> InEffect(db, w.b.id) ==> TookEffect(w.b.status)
    requires w.Put? ==> InDoubt(db, w.b.id) || Runnable(db, w.b.id) ==> Handling(th) == Some(w.b.id)
    ensures Spared(db, db', th)
  {
    forall id ensures InEffect(db, id) ==> InEffect(db', id) { assert StatusLeft(db, db', w, id); }
    forall id ensures InDoubt(db, id) && Handling(th) != Some(id) ==> InDoubt(db', id) { assert StatusLeft(db, db', w, id); }
    forall id ensures Runnable(db, id) && Handling(th) != Some(id) ==> Runnable(db', id) { assert StatusLeft(db, db', w, id); }
  }

  lemma StepSpares(s: Shared, th: Thread, s': Shared, th': Thread, w: Write)
    requires ThreadOnce(s, th) && ThreadSingle(s.db, th) && UnwindsInEffect(s.db, th) && Lawful(s, th, s', th', w)
    ensures Spared(s.db, s'.db, th)
  {
    if w.Put? {
      StoreSpares(s, th, w.b);
    }
    forall id ensures StatusLeft(s.db, s'.db, w, id) { StatusSpared(s.db, s'.db, w, id); }
    StatusesSpare(s.db, s'.db, w, th);
  }

  lemma OthersSingle(s: Shared, th: Thread, s': Shared, other: Thread)
    requires Spared(s.db, s'.db, th) && ReceiptedBy(s, th, s') && ThreadSingle(s.db, other)
    requires Handling(other).Some? ==> Handling(th) != Handling(other)
    requires Vouching(other).Some? ==> Vouching(th) != Vouching(other)
    ensures ThreadSingle(s'.db, other)
  {
  }

  lemma RunSingle(e: Env, s: Shared, th: Thread, s': Shared, th': Thread)
    requires ThreadSafe(s.db, th) && ThreadOnce(s, th) && ThreadSingle(s.db, th) && RunStep(e, s, th, s', th')
    requires ReceiptsSingle(s.db) && ReceiptedBy(s, th, s')
    ensures ThreadSingle(s'.db, th') && VouchesAfresh(s.db, th')
  {
  }

  lemma ProbeSingle(s: Shared, th: Thread, s': Shared, th': Thread)
    requires RecordsSafe(s.db) && ThreadSafe(s.db, th) && ThreadSingle(s.db, th) && ProbeStep(s, th, s', th')
    requires ReceiptsSingle(s.db) && ReceiptedBy(s, th, s')
    ensures ThreadSingle(s'.db, th') && VouchesAfresh(s.db, th')
  {
    assert th.ProbeStart? && th.id in s.db.actions ==> ActionSafe(s.db, th.id);
  }

  lemma UnwindSingle(s: Shared, th: Thread, s': Shared, th': Thread)
    requires UnwindStep(s, th, s', th')
    ensures ThreadSingle(s'.db, th') && VouchesAfresh(s.db, th')
  {
  }

  lemma OtherOwnSingle(s: Shared, th: Thread, s': Shared, th': Thread)
    requires RuleStep(s, th, s', th') || ProbeStep(s, th, s', th') || UnwindStep(s, th, s', th') || CommitStep(s, th, s', th')
    requires RecordsSafe(s.db) && ThreadSafe(s.db, th) && ThreadSingle(s.db, th) && ReceiptsSingle(s.db) && ReceiptedBy(s, th, s')
    ensures ThreadSingle(s'.db, th') && VouchesAfresh(s.db, th')
  {
    if ProbeStep(s, th, s', th') {
      ProbeSingle(s, th, s', th');
    } else if UnwindStep(s, th, s', th') {
      UnwindSingle(s, th, s', th');
    } else {
      RulingsAside(s, th, s', th');
    }
  }

  lemma OwnSingle(e: Env, s: Shared, th: Thread, s': Shared, th': Thread)
    requires RecordsSafe(s.db) && ThreadSafe(s.db, th) && ThreadOnce(s, th) && ThreadSingle(s.db, th)
    requires ThreadStep(e, s, th, s', th') && ReceiptsSingle(s.db) && ReceiptedBy(s, th, s')
    ensures ThreadSingle(s'.db, th') && VouchesAfresh(s.db, th')
  {
    if ProposeStep(e, s, th, s', th') {
      ProposalsAside(e, s, th, s', th');
    } else if RunStep(e, s, th, s', th') {
      RunSingle(e, s, th, s', th');
    } else {
      OtherOwnSingle(s, th, s', th');
    }
  }

  lemma OwnUnwinds(e: Env, s: Shared, th: Thread, s': Shared, th': Thread)
    requires RecordsSafe(s.db) && ThreadStep(e, s, th, s', th') && UnwindsInEffect(s.db, th) && Spared(s.db, s'.db, th)
    ensures UnwindsInEffect(s'.db, th')
  {
    forall id | Unwinds(th', id) ensures InEffect(s'.db, id) {
      UnwindersUnwind(e, s, th, s', th');
      UnwindsOnward(s, th, s', th', id);
    }
  }

  lemma NewVoucherDistinct(threads: map<nat, Thread>, t: nat, th': Thread)
    requires t in threads && VouchersDistinct(threads)
    requires forall u :: u in threads && Vouching(threads[u]).Some? ==> Vouching(threads[u]) != Vouching(th')
    ensures VouchersDistinct(threads[t := th'])
  {
  }

  lemma VouchersStayDistinct(s: System, t: nat, th': Thread)
    requires ThreadsSingle(s) && VouchersDistinct(s.threads) && t in s.threads && VouchesAfresh(s.shared.db, th')
    ensures VouchersDistinct(s.threads[t := th'])
  {
    forall u | u in s.threads && Vouching(s.threads[u]).Some? ensures Vouching(s.threads[u]) != Vouching(th') {
      assert ThreadSingle(s.shared.db, s.threads[u]);
    }
    NewVoucherDistinct(s.threads, t, th');
  }

  lemma ReceiptsStaySingle(s: Shared, th: Thread, s': Shared)
    requires ReceiptsSingle(s.db) && ThreadSingle(s.db, th) && Spared(s.db, s'.db, th) && ReceiptedBy(s, th, s')
    ensures ReceiptsSingle(s'.db)
  {
  }

  lemma ThreadsStaySingle(e: Env, s: System, s': System, t: nat)
    requires ThreadsSingle(s) && VouchersDistinct(s.threads) && SystemStep(e, s, s', Move(t)) && NoDoubleHandling(s.threads)
    requires Spared(s.shared.db, s'.shared.db, s.threads[t]) && ReceiptedBy(s.shared, s.threads[t], s'.shared)
    requires ThreadSingle(s'.shared.db, s'.threads[t]) && UnwindsInEffect(s'.shared.db, s'.threads[t])
    ensures ThreadsSingle(s')
  {
    forall u | u in s'.threads && u != t ensures ThreadSingle(s'.shared.db, s'.threads[u]) && UnwindsInEffect(s'.shared.db, s'.threads[u]) {
      OthersSingle(s.shared, s.threads[t], s'.shared, s.threads[u]);
    }
  }

  lemma MoveKeepsSingle(e: Env, s: System, s': System, t: nat)
    requires Safe(s) && Once(s) && Single(s) && SystemStep(e, s, s', Move(t)) && NoDoubleHandling(s.threads)
    ensures Single(s')
  {
    var th, th' := s.threads[t], s'.threads[t];
    var w := StepWrites(e, s.shared, th, s'.shared, th');
    StepSpares(s.shared, th, s'.shared, th', w);
    StepReceipts(e, s.shared, th, s'.shared, th');
    OwnSingle(e, s.shared, th, s'.shared, th');
    OwnUnwinds(e, s.shared, th, s'.shared, th');
    ThreadsStaySingle(e, s, s', t);
    VouchersStayDistinct(s, t, th');
    ReceiptsStaySingle(s.shared, th, s'.shared);
  }

  lemma QuietKeepsSingle(e: Env, s: System, s': System, l: Label)
    requires Single(s) && SystemStep(e, s, s', l) && !l.Move?
    ensures Single(s')
  {
    assert Receipted(s'.shared.db) == Receipted(s.shared.db);
  }

  lemma StepKeepsSingle(e: Env, s: System, s': System, l: Label)
    requires Safe(s) && Once(s) && Single(s) && SystemStep(e, s, s', l) && NoDoubleHandling(s.threads)
    ensures Single(s')
  {
    if l.Move? {
      MoveKeepsSingle(e, s, s', l.t);
    } else {
      QuietKeepsSingle(e, s, s', l);
    }
  }

  lemma {:induction false} SingleThroughout(e: Env, ss: seq<System>, ls: seq<Label>, i: nat)
    requires IsTrace(e, ss, ls) && i < |ss| && forall j :: 0 <= j < |ss| ==> NoDoubleHandling(ss[j].threads)
    ensures Single(ss[i])
  {
    if i > 0 {
      SingleThroughout(e, ss, ls, i - 1);
      TracesAreSafe(e, ss, ls, i - 1);
      forall j | 0 <= j < |ss| ensures NoOverlap(ss[j].threads) { RunningHandles(ss[j].threads); }
      OnceThroughout(e, ss, ls, i - 1);
      assert SystemStep(e, ss[i - 1], ss[i], ls[i - 1]);
      StepKeepsSingle(e, ss[i - 1], ss[i], ls[i - 1]);
    }
  }

  /** While no two requests handle one action at the same time, no action gets two receipts and
      none gets one without having taken effect. */
  lemma AtMostOneReceipt(e: Env, ss: seq<System>, ls: seq<Label>)
    requires IsTrace(e, ss, ls) && forall j :: 0 <= j < |ss| ==> NoDoubleHandling(ss[j].threads)
    ensures var db := ss[|ls|].shared.db; Distinct(Receipted(db)) && forall id :: id in Receipted(db) ==> InEffect(db, id)
  {
    SingleThroughout(e, ss, ls, |ls|);
  }

  /** Then, once no request is about to append a receipt, the ledger holds exactly one for every
      action in effect and no other. */
  lemma ReceiptsExact(e: Env, ss: seq<System>, ls: seq<Label>)
    requires IsTrace(e, ss, ls) && forall j :: 0 <= j < |ss| ==> NoDoubleHandling(ss[j].threads)
    requires forall t :: t in ss[|ls|].threads ==> !ss[|ls|].threads[t].Attesting?
    ensures var db := ss[|ls|].shared.db; Distinct(Receipted(db)) && forall id :: id in Receipted(db) <==> InEffect(db, id)
  {
    AtMostOneReceipt(e, ss, ls);
    VouchedInTraces(e, ss, ls, |ls|);
  }
}
