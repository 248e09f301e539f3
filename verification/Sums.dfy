/** Totals over finite sets of actions do not depend on the order of addition. */
module Sums {
  import opened Domain
  import opened GatewaySpec

  lemma {:induction false} SumInsert(actions: map<Id, Action>, ids: set<Id>, id: Id)
    requires ids <= actions.Keys && id in actions && id !in ids
    ensures SumAmounts(actions, ids + {id}) == CentsOr0(actions[id].amount) + SumAmounts(actions, ids)
    decreases |ids|
  {
    var all := ids + {id};
    var k :| k in all && SumAmounts(actions, all) == CentsOr0(actions[k].amount) + SumAmounts(actions, all - {k});
    if k == id {
      assert all - {k} == ids;
    } else {
      assert all - {k} == (ids - {k}) + {id};
      SumInsert(actions, ids - {k}, id);
      assert ids == (ids - {k}) + {k};
      SumInsert(actions, ids - {k}, k);
    }
  }
}
