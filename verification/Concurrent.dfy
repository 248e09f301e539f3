/** What else survives interleaving and what does not: one action per idempotency key does, the
    commit guard does not. */
module Concurrent {
  import opened Domain
  import opened StoreSpec
  import opened GatewaySpec
  import opened Protocol
  import opened Invariants
  import opened Idempotency
  import opened Interleaved
  import opened Safety

  // ----- the idempotency index -----

  predicate Known(db: Store, org: Id, txn: Id) {
    txn in db.txns && db.txns[txn].org == org
  }

  predicate PlainTxns(db: Store) {
    forall id :: id in db.txns ==> Plain(id) && Plain(db.txns[id].org)
  }

  predicate ActionsKnown(db: Store) {
    forall id :: id in db.actions ==> Known(db, db.actions[id].org, db.actions[id].txn)
  }

  /** Actions belong to known transactions with plain identifiers, and the index is exact. */
  ghost predicate Linked(db: Store) {
    PlainTxns(db) && ActionsKnown(db) && Indexed(db)
  }

  predicate BidKnown(db: Store, th: Thread) {
    th.ProposeAgent? || th.Adding? ==> Known(db, th.bid.q.org, th.bid.q.txn)
  }

  /** Transactions are never lost and never change hands; new ones have plain identifiers. */
  predicate TxnsStay(db: Store, db': Store) {
    && (forall id :: id in db.txns ==> id in db'.txns && db'.txns[id].org == db.txns[id].org)
    && (forall id :: id in db'.txns && id !in db.txns ==> Plain(id) && Plain(db'.txns[id].org))
  }

  /** At most one transaction's status was written. */
  ghost predicate OneStatusWritten(db: Store, db': Store) {
    db'.txns == db.txns || exists id, st :: id in db.txns && db'.txns == db.txns[id := db.txns[id].(status := st)]
  }

  lemma StatusWritesStay(db: Store, db': Store)
    requires OneStatusWritten(db, db')
    ensures TxnsStay(db, db')
  {
  }

  lemma ProposeWritesStatus(e: Env, s: Shared, th: Thread, s': Shared, th': Thread)
    requires ProposeStep(e, s, th, s', th')
    ensures OneStatusWritten(s.db, s'.db)
  {
  }

  lemma RunWritesStatus(e: Env, s: Shared, th: Thread, s': Shared, th': Thread)
    requires RunStep(e, s, th, s', th')
    ensures OneStatusWritten(s.db, s'.db)
  {
  }

  lemma OthersWriteStatus(s: Shared, th: Thread, s': Shared, th': Thread)
    requires RuleStep(s, th, s', th') || ProbeStep(s, th, s', th') || UnwindStep(s, th, s', th') || CommitStep(s, th, s', th')
    ensures OneStatusWritten(s.db, s'.db)
  {
  }

  lemma StepWritesStatus(e: Env, s: Shared, th: Thread, s': Shared, th': Thread)
    requires ThreadStep(e, s, th, s', th')
    ensures OneStatusWritten(s.db, s'.db)
  {
    if ProposeStep(e, s, th, s', th') {
      ProposeWritesStatus(e, s, th, s', th');
    } else if RunStep(e, s, th, s', th') {
      RunWritesStatus(e, s, th, s', th');
    } else {
      OthersWriteStatus(s, th, s', th');
    }
  }

  lemma StepTxnsStay(e: Env, s: Shared, th: Thread, s': Shared, th': Thread)
    requires ThreadStep(e, s, th, s', th')
    ensures TxnsStay(s.db, s'.db)
  {
    StepWritesStatus(e, s, th, s', th');
    StatusWritesStay(s.db, s'.db);
  }

  /** The record a step stores through the index: a copy, or the live record over itself. */
  function Restored(db: Store, th: Thread): Option<Action> {
    if th.Saving? && th.id in db.actions then Some(db.actions[th.id]) else Storing(th)
  }

  function IndexAfter(db: Store, th: Thread, db': Store, th': Thread): map<string, Id> {
    if th.Adding? && th'.Deciding? && th'.id in db'.actions then db.byIdem[KeyOf(db'.actions[th'.id]) := th'.id]
    else if Restored(db, th).Some? then UpdateAction(db, Restored(db, th).value).byIdem
    else db.byIdem
  }

  lemma AddingIndex(e: Env, s: Shared, th: Thread, s': Shared, th': Thread)
    requires ProposeStep(e, s, th, s', th') && th.Adding?
    ensures s'.db.byIdem == IndexAfter(s.db, th, s'.db, th')
  {
  }

  lemma ProposeIndex(e: Env, s: Shared, th: Thread, s': Shared, th': Thread)
    requires ProposeStep(e, s, th, s', th')
    ensures s'.db.byIdem == IndexAfter(s.db, th, s'.db, th')
  {
    if th.Adding? {
      AddingIndex(e, s, th, s', th');
    }
  }

  lemma RunIndex(e: Env, s: Shared, th: Thread, s': Shared, th': Thread)
    requires RunStep(e, s, th, s', th')
    ensures s'.db.byIdem == IndexAfter(s.db, th, s'.db, th')
  {
  }

  lemma OtherIndex(s: Shared, th: Thread, s': Shared, th': Thread)
    requires RuleStep(s, th, s', th') || ProbeStep(s, th, s', th') || UnwindStep(s, th, s', th') || CommitStep(s, th, s', th')
    ensures s'.db.byIdem == IndexAfter(s.db, th, s'.db, th')
  {
  }

  lemma StepIndex(e: Env, s: Shared, th: Thread, s': Shared, th': Thread)
    requires ThreadStep(e, s, th, s', th')
    ensures s'.db.byIdem == IndexAfter(s.db, th, s'.db, th')
  {
    if ProposeStep(e, s, th, s', th') {
      ProposeIndex(e, s, th, s', th');
    } else if RunStep(e, s, th, s', th') {
      RunIndex(e, s, th, s', th');
    } else {
      OtherIndex(s, th, s', th');
    }
  }

  /** The same actions under the same keys. */
  predicate KeysKept(db: Store, db': Store) {
    && db'.actions.Keys == db.actions.Keys
    && forall id :: id in db.actions ==> SameName(db.actions[id], db'.actions[id])
  }

  predicate SameName(a: Action, b: Action) {
    b.id == a.id && b.org == a.org && b.txn == a.txn && b.key == a.key
  }

  lemma WriteKeepsKeys(db: Store, db': Store, w: Write)
    requires Wrote(db, db', w) && !w.Add?
    ensures KeysKept(db, db')
  {
  }

  lemma RestoreKeepsIndex(db: Store, a: Action)
    requires Indexed(db) && a.id in db.actions && SameName(db.actions[a.id], a)
    ensures UpdateAction(db, a).byIdem == db.byIdem
  {
    assert KeyOf(a) == KeyOf(db.actions[a.id]);
  }

  lemma RestoredNames(db: Store, th: Thread)
    requires RecordsSafe(db) && ThreadSafe(db, th) && Restored(db, th).Some?
    ensures var a := Restored(db, th).value; a.id in db.actions && SameName(db.actions[a.id], a)
  {
    assert th.Saving? ==> ActionSafe(db, th.id);
  }

  lemma LinkedKept(db: Store, db': Store)
    requires Linked(db) && KeysKept(db, db') && TxnsStay(db, db') && db'.byIdem == db.byIdem
    ensures Linked(db')
  {
    assert forall a, b :: SameName(a, b) ==> KeyOf(a) == KeyOf(b);
  }

  lemma LinkedAdd(db: Store, db': Store, a: Action)
    requires Linked(db) && TxnsStay(db, db') && Known(db, a.org, a.txn) && a.id !in db.actions && KeyOf(a) !in db.byIdem
    requires db'.actions == db.actions[a.id := a] && db'.byIdem == db.byIdem[KeyOf(a) := a.id]
    ensures Linked(db')
  {
  }

  lemma AddedFresh(e: Env, s: Shared, th: Thread, s': Shared, th': Thread)
    requires Linked(s.db) && BidKnown(s.db, th) && th.Adding? && th'.Deciding? && ProposeStep(e, s, th, s', th')
    ensures Linked(s'.db)
  {
    var a := s'.db.actions[th'.id];
    assert KeyOf(a) == KeyOf(Drafted(e, th.bid.q));
    LinkedAdd(s.db, s'.db, a);
  }

  /** A write other than an addition, with what it does to transactions and the index. */
  ghost predicate LinkedWrite(db: Store, db': Store, th: Thread, w: Write) {
    && Wrote(db, db', w) && !w.Add? && TxnsStay(db, db')
    && db'.byIdem == if Restored(db, th).Some? then UpdateAction(db, Restored(db, th).value).byIdem else db.byIdem
  }

  lemma OtherWritesKeepLinks(db: Store, db': Store, th: Thread, w: Write)
    requires RecordsSafe(db) && ThreadSafe(db, th) && Linked(db) && LinkedWrite(db, db', th, w)
    ensures Linked(db')
  {
    WriteKeepsKeys(db, db', w);
    if Restored(db, th).Some? {
      RestoredNames(db, th);
      RestoreKeepsIndex(db, Restored(db, th).value);
    }
    LinkedKept(db, db');
  }

  lemma OtherWrite(e: Env, s: Shared, th: Thread, s': Shared, th': Thread) returns (w: Write)
    requires RecordsSafe(s.db) && ThreadSafe(s.db, th) && ThreadStep(e, s, th, s', th') && !(th.Adding? && th'.Deciding?)
    ensures LinkedWrite(s.db, s'.db, th, w)
  {
    StepTxnsStay(e, s, th, s', th');
    StepIndex(e, s, th, s', th');
    w := StepWrites(e, s, th, s', th');
  }

  lemma OtherStepKeepsLinks(e: Env, s: Shared, th: Thread, s': Shared, th': Thread)
    requires RecordsSafe(s.db) && ThreadSafe(s.db, th) && Linked(s.db) && ThreadStep(e, s, th, s', th') && !(th.Adding? && th'.Deciding?)
    ensures Linked(s'.db)
  {
    var w := OtherWrite(e, s, th, s', th');
    OtherWritesKeepLinks(s.db, s'.db, th, w);
  }

  lemma StepKeepsLinks(e: Env, s: Shared, th: Thread, s': Shared, th': Thread)
    requires RecordsSafe(s.db) && ThreadSafe(s.db, th) && Linked(s.db) && BidKnown(s.db, th) && ThreadStep(e, s, th, s', th')
    ensures Linked(s'.db)
  {
    if th.Adding? && th'.Deciding? {
      AddingProposes(e, s, th, s', th');
      AddedFresh(e, s, th, s', th');
    } else {
      OtherStepKeepsLinks(e, s, th, s', th');
    }
  }

  lemma BidsStart(e: Env, s: Shared, th: Thread, s': Shared, th': Thread)
    requires BidKnown(s.db, th) && ThreadStep(e, s, th, s', th')
    ensures BidKnown(s.db, th')
  {
    if ProposeStep(e, s, th, s', th') {
      ProposalsBid(e, s, th, s', th');
    } else if RunStep(e, s, th, s', th') {
      RunsDoNotBid(e, s, th, s', th');
    } else {
      OthersDoNotBid(s, th, s', th');
    }
  }

  lemma ProposalsBid(e: Env, s: Shared, th: Thread, s': Shared, th': Thread)
    requires BidKnown(s.db, th) && ProposeStep(e, s, th, s', th')
    ensures BidKnown(s.db, th')
  {
  }

  lemma OthersDoNotBid(s: Shared, th: Thread, s': Shared, th': Thread)
    requires RuleStep(s, th, s', th') || ProbeStep(s, th, s', th') || UnwindStep(s, th, s', th') || CommitStep(s, th, s', th')
    ensures !th'.ProposeAgent? && !th'.Adding?
  {
  }

  lemma RunsDoNotBid(e: Env, s: Shared, th: Thread, s': Shared, th': Thread)
    requires RunStep(e, s, th, s', th')
    ensures !th'.ProposeAgent? && !th'.Adding?
  {
  }

  ghost predicate SystemLinked(s: System) {
    Linked(s.shared.db) && forall t :: t in s.threads ==> BidKnown(s.shared.db, s.threads[t])
  }

  lemma BidsKept(db: Store, db': Store, th: Thread)
    requires TxnsStay(db, db') && BidKnown(db, th)
    ensures BidKnown(db', th)
  {
  }

  lemma MoveKeepsLinks(e: Env, s: System, s': System, t: nat)
    requires Safe(s) && SystemLinked(s) && SystemStep(e, s, s', Move(t))
    ensures SystemLinked(s')
  {
    var sh, th, sh', th' := s.shared, s.threads[t], s'.shared, s'.threads[t];
    StepKeepsLinks(e, sh, th, sh', th');
    StepTxnsStay(e, sh, th, sh', th');
    BidsStart(e, sh, th, sh', th');
    forall u | u in s'.threads ensures BidKnown(sh'.db, s'.threads[u]) {
      BidsKept(sh.db, sh'.db, s'.threads[u]);
    }
  }

  lemma SurroundingsKeepLinks(e: Env, s: System, s': System)
    requires SystemLinked(s) && SystemStep(e, s, s', Ambient)
    ensures SystemLinked(s')
  {
    LinkedKept(s.shared.db, s'.shared.db);
    forall u | u in s'.threads ensures BidKnown(s'.shared.db, s'.threads[u]) {
      BidsKept(s.shared.db, s'.shared.db, s.threads[u]);
    }
  }

  lemma {:induction false} TracesStayLinked(e: Env, ss: seq<System>, ls: seq<Label>, i: nat)
    requires IsTrace(e, ss, ls) && i < |ss|
    ensures SystemLinked(ss[i])
  {
    if i > 0 {
      TracesStayLinked(e, ss, ls, i - 1);
      TracesAreSafe(e, ss, ls, i - 1);
      assert SystemStep(e, ss[i - 1], ss[i], ls[i - 1]);
      if ls[i - 1].Move? {
        MoveKeepsLinks(e, ss[i - 1], ss[i], ls[i - 1].t);
      } else if ls[i - 1].Ambient? {
        SurroundingsKeepLinks(e, ss[i - 1], ss[i]);
      }
    }
  }

  /** Under any interleaving, concurrent retries included, the index answers as a scan of all
      actions would, and one organization, transaction and key name at most one action. */
  lemma IndexAgreesInTraces(e: Env, ss: seq<System>, ls: seq<Label>, n: nat, org: Id, txn: Id, key: string, i: Id, j: Id)
    requires IsTrace(e, ss, ls) && n < |ss| && Plain(org) && Plain(txn)
    ensures var db := ss[n].shared.db;
            && (Names(db, i, org, txn, key) <==> IdemKey(org, txn, key) in db.byIdem && db.byIdem[IdemKey(org, txn, key)] == i)
            && (Names(db, i, org, txn, key) && Names(db, j, org, txn, key) ==> i == j)
  {
    var db := ss[n].shared.db;
    TracesStayLinked(e, ss, ls, n);
    forall k | k in db.actions ensures Plain(db.actions[k].org) && Plain(db.actions[k].txn) {
      assert Known(db, db.actions[k].org, db.actions[k].txn);
    }
    ScanAgrees(db, org, txn, key, i);
    ScanAgrees(db, org, txn, key, j);
  }

  // ----- the commit guard -----

  predicate OfTxn(a: Action, org: Id, txn: Id) {
    a.org == org && a.txn == txn
  }

  /** A request whose next step leaves the transaction with an unresolved action: it adds one, or
      stores an unresolved copy of one. */
  predicate Disturbs(e: Env, db: Store, th: Thread, org: Id, txn: Id) {
    || (th.Adding? && th.bid.q.org == org && th.bid.q.txn == txn && Replayed(db, Drafted(e, th.bid.q)).None?)
    || (Storing(th).Some? && OfTxn(Storing(th).value, org, txn) && !Resolved(Storing(th).value.status))
  }

  lemma AddDisturbs(e: Env, s: Shared, th: Thread, s': Shared, th': Thread, org: Id, txn: Id)
    requires th.Adding? && ProposeStep(e, s, th, s', th') && AllResolved(s.db, org, txn)
    ensures AllResolved(s'.db, org, txn) <==> !Disturbs(e, s.db, th, org, txn)
  {
    if th'.Deciding? {
      var a := s'.db.actions[th'.id];
      assert a.org == th.bid.q.org && a.txn == th.bid.q.txn && a.status == Proposed;
      assert OfTxn(a, org, txn) <==> th'.id in ActionIds(s'.db, org, txn);
      assert forall id :: id in ActionIds(s'.db, org, txn) && id != th'.id ==> id in ActionIds(s.db, org, txn);
    }
  }

  lemma PutDisturbs(db: Store, db': Store, b: Action, org: Id, txn: Id)
    requires Wrote(db, db', Put(b)) && AllResolved(db, org, txn)
    ensures AllResolved(db', org, txn) <==> !OfTxn(b, org, txn) || Resolved(b.status)
  {
    assert OfTxn(b, org, txn) <==> b.id in ActionIds(db', org, txn);
    assert forall id :: id in ActionIds(db', org, txn) && id != b.id ==> id in ActionIds(db, org, txn) && db'.actions[id] == db.actions[id];
  }

  /** Decisions and marks only touch actions still proposed, of which a resolved transaction has none. */
  lemma OtherWritesKeepResolved(db: Store, db': Store, w: Write, org: Id, txn: Id)
    requires Wrote(db, db', w) && !w.Add? && !w.Put? && AllResolved(db, org, txn)
    ensures AllResolved(db', org, txn)
  {
    if w.Decide? || w.Mark? {
      assert w.id !in ActionIds(db, org, txn);
    }
    assert forall id :: id in ActionIds(db', org, txn) ==> id in ActionIds(db, org, txn) && db'.actions[id] == db.actions[id];
  }

  lemma OtherDisturbs(e: Env, s: Shared, th: Thread, s': Shared, th': Thread, w: Write, org: Id, txn: Id)
    requires !th.Adding? && Lawful(s, th, s', th', w) && AllResolved(s.db, org, txn)
    ensures AllResolved(s'.db, org, txn) <==> !Disturbs(e, s.db, th, org, txn)
  {
    if w.Put? {
      PutDisturbs(s.db, s'.db, w.b, org, txn);
    } else {
      OtherWritesKeepResolved(s.db, s'.db, w, org, txn);
    }
  }

  /** A request's step leaves a resolved transaction resolved if and only if the request does not
      disturb it. */
  lemma StepDisturbs(e: Env, s: Shared, th: Thread, s': Shared, th': Thread, org: Id, txn: Id)
    requires RecordsSafe(s.db) && ThreadSafe(s.db, th) && ThreadStep(e, s, th, s', th') && AllResolved(s.db, org, txn)
    ensures AllResolved(s'.db, org, txn) <==> !Disturbs(e, s.db, th, org, txn)
  {
    if th.Adding? {
      AddingProposes(e, s, th, s', th');
      AddDisturbs(e, s, th, s', th', org, txn);
    } else {
      var w := StepWrites(e, s, th, s', th');
      OtherDisturbs(e, s, th, s', th', w, org, txn);
    }
  }

  lemma SameActionsSameResolved(db: Store, db': Store, org: Id, txn: Id)
    requires db'.actions == db.actions
    ensures AllResolved(db', org, txn) <==> AllResolved(db, org, txn)
  {
    assert ActionIds(db', org, txn) == ActionIds(db, org, txn);
  }

  /** The step is by a request that disturbs the transaction. */
  predicate IsDisturbance(e: Env, s: System, l: Label, org: Id, txn: Id) {
    match l
    case Move(t) => t in s.threads && Disturbs(e, s.shared.db, s.threads[t], org, txn)
    case _ => false
  }

  /** Every action of the transaction is resolved in this state. */
  predicate ResolvedIn(s: System, org: Id, txn: Id) {
    match s
    case System(shared, _) => AllResolved(shared.db, org, txn)
  }

  /** Nobody disturbs the transaction from one state of a trace to another. */
  predicate Undisturbed(e: Env, ss: seq<System>, ls: seq<Label>, i: nat, n: nat, org: Id, txn: Id)
    requires n <= |ls| <= |ss|
  {
    forall k :: i <= k < n ==> !IsDisturbance(e, ss[k], ls[k], org, txn)
  }

  /** What each step keeps unless disturbed is kept until the first disturbance. */
  lemma {:induction false} KeptUntilDisturbed(kept: seq<bool>, disturbed: seq<bool>, i: nat, n: nat)
    requires i <= n < |kept| && n <= |disturbed| && kept[i]
    requires forall k :: i <= k < n && kept[k] ==> kept[k + 1] == !disturbed[k]
    requires forall k :: i <= k < n ==> !disturbed[k]
    ensures kept[n]
  {
    if i < n {
      KeptUntilDisturbed(kept, disturbed, i, n - 1);
      assert kept[n - 1 + 1] == !disturbed[n - 1];
    }
  }

  /** A transaction resolved at one point of a trace stays resolved until a request disturbs it. */
  lemma ResolvedUntilDisturbed(e: Env, ss: seq<System>, ls: seq<Label>, i: nat, n: nat, org: Id, txn: Id)
    requires IsTrace(e, ss, ls) && i <= n <= |ls| && ResolvedIn(ss[i], org, txn) && Undisturbed(e, ss, ls, i, n, org, txn)
    ensures ResolvedIn(ss[n], org, txn)
  {
    var kept := seq(|ss|, k requires 0 <= k < |ss| => ResolvedIn(ss[k], org, txn));
    var disturbed := seq(|ls|, k requires 0 <= k < |ls| => IsDisturbance(e, ss[k], ls[k], org, txn));
    forall k | i <= k < n && kept[k] ensures kept[k + 1] == !disturbed[k] {
      ResolvedAfter(e, ss, ls, k, org, txn);
    }
    KeptUntilDisturbed(kept, disturbed, i, n);
  }

  lemma ResolvedAfter(e: Env, ss: seq<System>, ls: seq<Label>, k: nat, org: Id, txn: Id)
    requires IsTrace(e, ss, ls) && k < |ls| && ResolvedIn(ss[k], org, txn)
    ensures ResolvedIn(ss[k + 1], org, txn) <==> !IsDisturbance(e, ss[k], ls[k], org, txn)
  {
    TracesAreSafe(e, ss, ls, k);
    assert SystemStep(e, ss[k], ss[k + 1], ls[k]);
    ResolvedNext(e, ss[k], ss[k + 1], ls[k], org, txn);
  }

  /** A step leaves a resolved transaction resolved if and only if it is not a disturbance. */
  lemma ResolvedNext(e: Env, s: System, s': System, l: Label, org: Id, txn: Id)
    requires Safe(s) && SystemStep(e, s, s', l) && ResolvedIn(s, org, txn)
    ensures ResolvedIn(s', org, txn) <==> !IsDisturbance(e, s, l, org, txn)
  {
    if l.Move? {
      StepDisturbs(e, s.shared, s.threads[l.t], s'.shared, s'.threads[l.t], org, txn);
    } else {
      SameActionsSameResolved(s.shared.db, s'.shared.db, org, txn);
    }
  }

  /** The commit guard is check-then-act. What a commit writes COMMITTED over is resolved if no
      request disturbs the transaction between its listing and its write. */
  lemma CommitSoundUndisturbed(e: Env, ss: seq<System>, ls: seq<Label>, i: nat, n: nat, t: nat)
    requires IsTrace(e, ss, ls) && i < n < |ls| && ls[i] == Move(t) && ls[n] == Move(t)
    requires t in ss[i].threads && ss[i].threads[t].CommitList? && t in ss[n].threads && ss[n].threads[t].Committing?
    requires ss[i + 1].threads[t] == ss[n].threads[t]
    requires Undisturbed(e, ss, ls, i, n, ss[n].threads[t].org, ss[n].threads[t].txn)
    ensures var org, txn := ss[n].threads[t].org, ss[n].threads[t].txn;
            && ss[n + 1].shared.db == SetTxnStatus(ss[n].shared.db, org, txn, Committed)
            && ResolvedIn(ss[n], org, txn) && ResolvedIn(ss[n + 1], org, txn)
  {
    var org, txn := ss[n].threads[t].org, ss[n].threads[t].txn;
    assert SystemStep(e, ss[i], ss[i + 1], ls[i]);
    ListingChecks(e, ss[i].shared, ss[i].threads[t], ss[i + 1].shared, ss[i + 1].threads[t]);
    ResolvedUntilDisturbed(e, ss, ls, i, n, org, txn);
    assert SystemStep(e, ss[n], ss[n + 1], ls[n]);
    WriteCommits(e, ss[n].shared, ss[n].threads[t], ss[n + 1].shared, ss[n + 1].threads[t]);
    SameActionsSameResolved(ss[n].shared.db, ss[n + 1].shared.db, org, txn);
  }

  lemma ListingChecks(e: Env, s: Shared, th: Thread, s': Shared, th': Thread)
    requires ThreadStep(e, s, th, s', th') && th.CommitList? && th'.Committing?
    ensures th' == Committing(th.org, th.txn) && AllResolved(s.db, th.org, th.txn)
  {
  }

  lemma WriteCommits(e: Env, s: Shared, th: Thread, s': Shared, th': Thread)
    requires ThreadStep(e, s, th, s', th') && th.Committing?
    ensures s' == s.(db := SetTxnStatus(s.db, th.org, th.txn, Committed))
  {
  }

  lemma LateAdd(e: Env, s: System, u: nat, id: Id)
    requires u in s.threads && s.threads[u].Adding? && id !in s.shared.db.actions
    requires Replayed(s.shared.db, Drafted(e, s.threads[u].bid.q)).None?
    ensures var bid := s.threads[u].bid;
            Reachable(e, s, WithThread(s, s.shared.(db := AddAction(e.codec, s.shared.db, Drafted(e, bid.q), id, 0)), u, Deciding(bid, id)))
  {
    var bid := s.threads[u].bid;
    var mid := WithThread(s, s.shared.(db := AddAction(e.codec, s.shared.db, Drafted(e, bid.q), id, 0)), u, Deciding(bid, id));
    assert ProposeStep(e, s.shared, s.threads[u], mid.shared, Deciding(bid, id));
    OneStep(e, s, mid, Move(u));
  }

  lemma CommitWrite(e: Env, s: System, t: nat)
    requires t in s.threads && s.threads[t].Committing?
    ensures var th := s.threads[t];
            Reachable(e, s, WithThread(s, s.shared.(db := SetTxnStatus(s.shared.db, th.org, th.txn, Committed)), t, Finished))
  {
    var th := s.threads[t];
    var s' := WithThread(s, s.shared.(db := SetTxnStatus(s.shared.db, th.org, th.txn, Committed)), t, Finished);
    assert CommitStep(s.shared, th, s'.shared, Finished);
    OneStep(e, s, s', Move(t));
  }

  /** It need not be otherwise: while a commit is between its listing and its write, a proposal about
      to add an action to the transaction can do so, and the commit still goes through. */
  lemma CommitOvertaken(e: Env, s: System, t: nat, u: nat, id: Id) returns (s': System)
    requires t in s.threads && s.threads[t].Committing? && u in s.threads && s.threads[u].Adding? && id !in s.shared.db.actions
    requires var q := s.threads[u].bid.q; q.org == s.threads[t].org && q.txn == s.threads[t].txn && Known(s.shared.db, q.org, q.txn)
    requires Replayed(s.shared.db, Drafted(e, s.threads[u].bid.q)).None?
    ensures Reachable(e, s, s')
    ensures var q := s.threads[u].bid.q;
            && q.txn in s'.shared.db.txns && s'.shared.db.txns[q.txn].status == Committed
            && id in s'.shared.db.actions && OfTxn(s'.shared.db.actions[id], q.org, q.txn) && s'.shared.db.actions[id].status == Proposed
            && !AllResolved(s'.shared.db, q.org, q.txn)
  {
    var bid := s.threads[u].bid;
    var db := AddAction(e.codec, s.shared.db, Drafted(e, bid.q), id, 0);
    var mid := WithThread(s, s.shared.(db := db), u, Deciding(bid, id));
    LateAdd(e, s, u, id);
    s' := WithThread(mid, mid.shared.(db := SetTxnStatus(db, bid.q.org, bid.q.txn, Committed)), t, Finished);
    CommitWrite(e, mid, t);
    Onward(e, s, mid, s');
    assert id in ActionIds(s'.shared.db, bid.q.org, bid.q.txn);
  }

  lemma LateStore(e: Env, s: System, u: nat, b: Action) returns (th': Thread)
    requires u in s.threads && Storing(s.threads[u]) == Some(b)
    ensures Reachable(e, s, WithThread(s, s.shared.(db := UpdateAction(s.shared.db, b)), u, th'))
  {
    var th := s.threads[u];
    var sh' := s.shared.(db := UpdateAction(s.shared.db, b));
    th' := if th.Granted2? then Resuming(th.org, th.p.txn, Executing)
           else if th.Undone2? then Unwinding(th.org, th.txn, th.queue, th.failed)
           else if b.status == Executed then Attesting(b, if th.Writing? then NotCompensated else FromReconciliation)
           else Finished;
    assert ThreadStep(e, s.shared, th, sh', th');
    OneStep(e, s, WithThread(s, sh', u, th'), Move(u));
  }

  lemma StoredUnresolved(db: Store, b: Action)
    requires b.id in db.actions && !Resolved(b.status)
    ensures !AllResolved(UpdateAction(db, b), b.org, b.txn)
  {
    assert b.id in ActionIds(UpdateAction(db, b), b.org, b.txn);
  }

  /** Nor when a request holding an unresolved copy of one of its actions, however stale, stores it
      in between. */
  lemma CommitOverwritten(e: Env, s: System, t: nat, u: nat, b: Action) returns (s': System)
    requires t in s.threads && s.threads[t].Committing? && u in s.threads && u != t && Storing(s.threads[u]) == Some(b)
    requires OfTxn(b, s.threads[t].org, s.threads[t].txn) && !Resolved(b.status) && b.id in s.shared.db.actions
    requires Known(s.shared.db, b.org, b.txn)
    ensures Reachable(e, s, s')
    ensures b.txn in s'.shared.db.txns && s'.shared.db.txns[b.txn].status == Committed && !AllResolved(s'.shared.db, b.org, b.txn)
    ensures b.id in s'.shared.db.actions && s'.shared.db.actions[b.id] == b
  {
    var db := UpdateAction(s.shared.db, b);
    var th' := LateStore(e, s, u, b);
    var mid := WithThread(s, s.shared.(db := db), u, th');
    CommitWrite(e, mid, t);
    s' := WithThread(mid, mid.shared.(db := SetTxnStatus(db, b.org, b.txn, Committed)), t, Finished);
    Onward(e, s, mid, s');
    StoredUnresolved(s.shared.db, b);
    SameActionsSameResolved(db, s'.shared.db, b.org, b.txn);
  }
}
