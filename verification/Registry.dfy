/** The tool registry. Class lists are never empty, which is what makes the policy default close. */
module Registries {
  import opened Domain
  import opened Policies
  import opened StoreSpec
  import G = GatewaySpec
  import P = Protocol

  class Registry {
    var meta: map<string, seq<Class>>
    var handlers: set<string>
    var compensators: set<string>
    var reconcilers: set<string>

    ghost function View(): G.Tools
      reads this
    {
      G.Tools(meta, handlers, compensators, reconcilers)
    }

    constructor ()
      ensures View() == G.Tools(map[], {}, {}, {})
    {
      meta, handlers, compensators, reconcilers := map[], {}, {}, {};
    }

    /** Adds or replaces a tool action; absent handlers and compensators leave the old ones. */
    method Register(tool: string, name: string, classes: seq<Class>, handler: bool, compensator: bool)
      requires Classed(View())
      modifies this
      ensures Classed(View())
      ensures G.ClassesOf(View(), tool, name) == if classes == [] then [UNKNOWN_CLASS] else classes
      ensures handlers == old(handlers) + (if handler then {G.ToolKey(tool, name)} else {})
      ensures compensators == old(compensators) + (if compensator then {G.ToolKey(tool, name)} else {})
      ensures reconcilers == old(reconcilers)
      ensures forall k :: k != G.ToolKey(tool, name) ==>
                (k in meta <==> k in old(meta)) && (k in meta ==> meta[k] == old(meta)[k])
    {
      var c := classes;
      if |c| == 0 {
        c := [UNKNOWN_CLASS];
      }
      meta := meta[G.ToolKey(tool, name) := c];
      if handler {
        handlers := handlers + {G.ToolKey(tool, name)};
      }
      if compensator {
        compensators := compensators + {G.ToolKey(tool, name)};
      }
    }
  }

  ghost predicate Classed(t: G.Tools) {
    forall k :: k in t.meta ==> t.meta[k] != []
  }

  /** With a registry built by registration, an action no rule matches is allowed only if it is
      registered as a read and as nothing else. Unregistered operations are never allowed. */
  lemma UnmatchedOnlyReads(e: G.Env, db: Store, q: G.Request, d: G.Draw)
    requires Classed(e.tools) && P.Accepted(e, db, q) && IsSorting(d.sorted, RulesInForce(db, q.org).0)
    requires forall r :: r in RulesInForce(db, q.org).0 ==>
               !Matches(r, GetAgent(db, q.org, q.agent).value, Stored(e.codec, G.Drafted(e, q), d.actionId, d.now), d.now)
    ensures P.NewAction(e, db, q, d).status == Allowed ==>
              && G.ToolKey(q.tool, q.name) in e.tools.meta
              && READ_ONLY in e.tools.meta[G.ToolKey(q.tool, q.name)]
              && forall c :: c in e.tools.meta[G.ToolKey(q.tool, q.name)] ==> c == READ_ONLY
  {
    var agent := GetAgent(db, q.org, q.agent).value;
    var a := Stored(e.codec, G.Drafted(e, q), d.actionId, d.now);
    assert a.classes == G.ClassesOf(e.tools, q.tool, q.name) && a.classes != [];
    DefaultFailsClosed(RulesInForce(db, q.org).0, d.sorted, RulesInForce(db, q.org).1, agent, a, d.now);
    assert READ_ONLY != UNKNOWN_CLASS;
  }
}
