/** The transaction status table. */
module Transactions {
  import opened Domain

  function Edges(from: TxnStatus): set<TxnStatus> {
    match from
    case Created => {Planning, Aborting, Failed}
    case Planning => {Executing, AwaitingApproval, Aborting, Failed}
    case AwaitingApproval => {Executing, Aborting, Failed}
    case Executing => {Committed, AwaitingApproval, Aborting, Compensating, Failed}
    case Aborting => {Compensating, RolledBack, Failed}
    case Compensating => {RolledBack, PartiallyCompensated, Failed}
    case _ => {}
  }

  predicate CanTransition(from: TxnStatus, to: TxnStatus) {
    from == to || (!TerminalTxn(from) && to in Edges(from))
  }

  /** The status after a requested move: taken when the table has it, ignored otherwise. */
  function Moved(from: TxnStatus, to: TxnStatus): TxnStatus {
    if CanTransition(from, to) then to else from
  }

  method MustTransition(t: Txn, to: TxnStatus) returns (next: Txn, ok: bool)
    ensures ok == CanTransition(t.status, to)
    ensures next == t.(status := Moved(t.status, to))
  {
    if !CanTransition(t.status, to) {
      return t, false;
    }
    return t.(status := to), true;
  }

  /** How far along a status is; the one edge that goes back is execution pausing for approval. */
  function Stage(s: TxnStatus): nat {
    match s
    case Created => 0
    case Planning => 1
    case AwaitingApproval => 2
    case Executing => 3
    case Aborting => 4
    case Compensating => 5
    case _ => 6
  }

  lemma OnlyCycle(from: TxnStatus, to: TxnStatus)
    requires CanTransition(from, to) && from != to
    ensures Stage(from) < Stage(to) <==> !(from == Executing && to == AwaitingApproval)
    ensures !TerminalTxn(from)
  {
  }

  /** The table read backwards: from where each status can be entered. */
  lemma EnteredFrom(from: TxnStatus, to: TxnStatus)
    requires from != to
    ensures CanTransition(from, to)
            <==> match to
                 case Created => false
                 case Planning => from == Created
                 case AwaitingApproval => from == Planning || from == Executing
                 case Executing => from == Planning || from == AwaitingApproval
                 case Committed => from == Executing
                 case Aborting => from == Created || from == Planning || from == AwaitingApproval || from == Executing
                 case Compensating => from == Executing || from == Aborting
                 case RolledBack => from == Aborting || from == Compensating
                 case PartiallyCompensated => from == Compensating
                 case Failed => from != Committed && from != RolledBack && from != PartiallyCompensated
  {
  }
}
