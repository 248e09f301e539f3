/** The policy engine: which rules match an action, and which decision a rule list yields. */
module Policies {
  import opened Domain

  const NANOS_PER_HOUR := 3_600_000_000_000

  /** Go's conversion of a floating-point value to an integer drops the fraction. */
  function Truncate(x: real): int {
    if x >= 0.0 then x.Floor else -((-x).Floor)
  }

  function AmountOf(a: Action): int {
    if a.amount.Some? then a.amount.value
    else if "amount_cents" in a.args then
      match a.args["amount_cents"]
      case Int64(n) => n
      case Int(n) => n
      case Float(x) => Truncate(x)
      case _ => 0
    else 0
  }

  function RecipientsOf(a: Action): int {
    if "recipients" in a.args && a.args["recipients"].List? then a.args["recipients"].length
    else if "recipient_count" in a.args then
      match a.args["recipient_count"]
      case Int(n) => n
      case Float(x) => Truncate(x)
      case _ => 0
    else 0
  }

  function ResourceOf(a: Action): string {
    if "resource" in a.args && a.args["resource"].Text? then a.args["resource"].s else ""
  }

  function Fold(ch: char): char {
    if 'A' <= ch <= 'Z' then ch + 32 as char else ch
  }

  /** Equality up to ASCII letter case. */
  predicate EqualFold(s: string, t: string) {
    |s| == |t| && forall i :: 0 <= i < |s| ==> Fold(s[i]) == Fold(t[i])
  }

  /** 1970-01-01 was a Thursday, day 4 counting from Sunday. */
  function Weekday(now: Time): int {
    (now / (24 * NANOS_PER_HOUR) + 4) % 7
  }

  function Hour(now: Time): int {
    (now / NANOS_PER_HOUR) % 24
  }

  predicate WithinWindow(w: TimeWindow, now: Time) {
    && (w.weekdays != [] ==> Weekday(now) in w.weekdays)
    && if w.startHour <= w.endHour
       then w.startHour <= Hour(now) < w.endHour
       else w.startHour <= Hour(now) || Hour(now) < w.endHour
  }

  predicate Meets(s: seq<string>, t: seq<string>) {
    exists x :: x in s && x in t
  }

  /** Every condition present in the rule holds of the action. */
  predicate Matches(rule: Rule, agent: Agent, a: Action, now: Time) {
    var m := rule.match_;
    && (m.tool == "" || m.tool == "*" || m.tool == a.tool)
    && (m.action == "" || m.action == "*" || m.action == a.name)
    && (m.agentGroups != [] ==> Meets(m.agentGroups, agent.groups))
    && (m.environment != "" ==> m.environment == agent.environment)
    && (m.maxAmount.Some? ==> AmountOf(a) <= m.maxAmount.value)
    && (m.minAmount.Some? ==> m.minAmount.value <= AmountOf(a))
    && (m.minRecipients.Some? ==> m.minRecipients.value <= RecipientsOf(a))
    && MatchesContext(m, agent, a, now)
  }

  predicate MatchesContext(m: Match, agent: Agent, a: Action, now: Time) {
    && (m.classifications != [] ==> Meets(m.classifications, a.classes))
    && (m.environments != [] ==> exists e :: e in m.environments && EqualFold(e, agent.environment))
    && (m.resourcePrefix != "" ==> m.resourcePrefix <= ResourceOf(a))
    && (m.window.Some? ==> WithinWindow(m.window.value, now))
  }

  method InWindow(w: TimeWindow, now: Time) returns (r: bool)
    ensures r == WithinWindow(w, now)
  {
    if |w.weekdays| > 0 {
      var hit := false;
      for i := 0 to |w.weekdays|
        invariant hit <==> Weekday(now) in w.weekdays[..i]
      {
        if Weekday(now) == w.weekdays[i] {
          hit := true;
        }
      }
      assert w.weekdays[..|w.weekdays|] == w.weekdays;
      if !hit {
        return false;
      }
    }
    var h := Hour(now);
    if w.startHour <= w.endHour {
      return h >= w.startHour && h < w.endHour;
    }
    return h >= w.startHour || h < w.endHour;
  }

  method AnyCommon(s: seq<string>, t: seq<string>) returns (hit: bool)
    ensures hit == Meets(s, t)
  {
    hit := false;
    for i := 0 to |s|
      invariant hit <==> exists x :: x in s[..i] && x in t
    {
      for j := 0 to |t|
        invariant hit <==> (exists x :: x in s[..i] && x in t) || s[i] in t[..j]
      {
        if s[i] == t[j] {
          hit := true;
        }
      }
      assert t[..|t|] == t;
      assert s[..i + 1] == s[..i] + [s[i]];
    }
    assert s[..|s|] == s;
  }

  method AnyFolded(s: seq<string>, t: string) returns (hit: bool)
    ensures hit == exists e :: e in s && EqualFold(e, t)
  {
    hit := false;
    for i := 0 to |s|
      invariant hit <==> exists e :: e in s[..i] && EqualFold(e, t)
    {
      if EqualFold(s[i], t) {
        hit := true;
      }
      assert s[..i + 1] == s[..i] + [s[i]];
    }
    assert s[..|s|] == s;
  }

  method RuleMatches(rule: Rule, agent: Agent, a: Action, now: Time) returns (r: bool)
    ensures r == Matches(rule, agent, a, now)
  {
    var m := rule.match_;
    if m.tool != "" && m.tool != "*" && m.tool != a.tool {
      return false;
    }
    if m.action != "" && m.action != "*" && m.action != a.name {
      return false;
    }
    if |m.agentGroups| > 0 {
      var hit := AnyCommon(m.agentGroups, agent.groups);
      if !hit {
        return false;
      }
    }
    if m.environment != "" && m.environment != agent.environment {
      return false;
    }
    var amt := AmountOf(a);
    if m.maxAmount.Some? && amt > m.maxAmount.value {
      return false;
    }
    if m.minAmount.Some? && amt < m.minAmount.value {
      return false;
    }
    if m.minRecipients.Some? && RecipientsOf(a) < m.minRecipients.value {
      return false;
    }
    r := ContextMatches(m, agent, a, now);
  }

  /** The later conditions of a rule: classes, environments, resource and time of day. */
  method ContextMatches(m: Match, agent: Agent, a: Action, now: Time) returns (r: bool)
    ensures r == MatchesContext(m, agent, a, now)
  {
    if |m.classifications| > 0 {
      var hit := AnyCommon(m.classifications, a.classes);
      if !hit {
        return false;
      }
    }
    if |m.environments| > 0 {
      var hit := AnyFolded(m.environments, agent.environment);
      if !hit {
        return false;
      }
    }
    if m.resourcePrefix != "" {
      if !(m.resourcePrefix <= ResourceOf(a)) {
        return false;
      }
    }
    if m.window.Some? {
      var open := InWindow(m.window.value, now);
      if !open {
        return false;
      }
    }
    return true;
  }

  // ----- conditions by values -----

  /** A rule fails to match only by a condition it states. */
  lemma MatchesByValue(rule: Rule, agent: Agent, a: Action, now: Time)
    ensures var m := rule.match_;
            !Matches(rule, agent, a, now)
            <==> || m.tool !in {"", "*", a.tool}
                 || m.action !in {"", "*", a.name}
                 || (m.agentGroups != [] && forall g :: g in m.agentGroups ==> g !in agent.groups)
                 || m.environment !in {"", agent.environment}
                 || (m.maxAmount.Some? && m.maxAmount.value < AmountOf(a))
                 || (m.minAmount.Some? && AmountOf(a) < m.minAmount.value)
                 || (m.minRecipients.Some? && RecipientsOf(a) < m.minRecipients.value)
                 || (m.classifications != [] && forall c :: c in m.classifications ==> c !in a.classes)
                 || (m.environments != [] && forall e :: e in m.environments ==> !EqualFold(e, agent.environment))
                 || !(m.resourcePrefix <= ResourceOf(a))
                 || (m.window.Some? && !WithinWindow(m.window.value, now))
  {
  }

  /** A resource is what the argument of that name says, if it is text. */
  lemma ResourceByValue(a: Action, s: string)
    ensures "resource" in a.args && a.args["resource"] == Text(s) ==> ResourceOf(a) == s
    ensures ("resource" in a.args ==> !a.args["resource"].Text?) ==> ResourceOf(a) == ""
  {
  }

  /** Recipients are counted by a list, failing that read from a number, and otherwise none. */
  lemma RecipientsByValue(a: Action, n: int)
    ensures "recipients" in a.args && n >= 0 && a.args["recipients"] == List(n) ==> RecipientsOf(a) == n
    ensures ("recipients" in a.args ==> !a.args["recipients"].List?) ==>
              && ("recipient_count" in a.args && a.args["recipient_count"] == Int(n) ==> RecipientsOf(a) == n)
              && ("recipient_count" in a.args && a.args["recipient_count"] == Float(n as real) ==> RecipientsOf(a) == n)
              && ("recipient_count" !in a.args ==> RecipientsOf(a) == 0)
  {
  }

  const UPPER := "ABCDEFGHIJKLMNOPQRSTUVWXYZ"
  const LOWER := "abcdefghijklmnopqrstuvwxyz"

  /** Each capital folds to its small letter and nothing else is changed. */
  lemma FoldLetters(ch: char)
    ensures forall k :: 0 <= k < |UPPER| ==> Fold(UPPER[k]) == LOWER[k]
    ensures ch !in UPPER ==> Fold(ch) == ch
  {
    if 'A' <= ch <= 'Z' {
      assert UPPER[ch as int - 65] == ch;
    }
  }

  /** Reading the clock: a time that many nanoseconds into an hour of a day since 1970-01-01, a
      Thursday, has that hour and falls on the weekday that many days later. */
  lemma ClockReads(day: int, hour: int, nanos: int)
    requires 0 <= hour < 24 && 0 <= nanos < 3_600_000_000_000
    ensures var now := (day * 24 + hour) * 3_600_000_000_000 + nanos;
            Hour(now) == hour && Weekday(now) == (day + 4) % 7
  {
    var now := (day * 24 + hour) * 3_600_000_000_000 + nanos;
    assert now / 3_600_000_000_000 == day * 24 + hour;
    assert now / (24 * 3_600_000_000_000) == day;
  }

  /** A window is open on its weekdays while the hours gone since it opened are fewer than the
      hours it stays open, both counted round the clock. */
  lemma WindowRoundTheClock(w: TimeWindow, now: Time)
    requires 0 <= w.startHour < 24 && 0 <= w.endHour < 24
    ensures WithinWindow(w, now)
            <==> && (w.weekdays == [] || Weekday(now) in w.weekdays)
                 && (Hour(now) - w.startHour) % 24 < (w.endHour - w.startHour) % 24
  {
    assert 0 <= Hour(now) < 24;
  }

  // ----- evaluation -----

  predicate SortedByPriority(rules: seq<Rule>) {
    forall i, j :: 0 <= i < j < |rules| ==> rules[i].priority <= rules[j].priority
  }

  /** All the source's library sort promises: a permutation in ascending priority. It is not
      stable, so rules of equal priority may come in any order. */
  ghost predicate IsSorting(sorted: seq<Rule>, rules: seq<Rule>) {
    multiset(sorted) == multiset(rules) && SortedByPriority(sorted)
  }

  ghost predicate DistinctPriorities(rules: seq<Rule>) {
    forall i, j :: 0 <= i < j < |rules| ==> rules[i].priority != rules[j].priority
  }

  function FirstMatch(rules: seq<Rule>, agent: Agent, a: Action, now: Time): Option<Rule> {
    if rules == [] then None
    else if Matches(rules[0], agent, a, now) then Some(rules[0])
    else FirstMatch(rules[1..], agent, a, now)
  }

  predicate PureRead(classes: seq<Class>) {
    forall c :: c in classes ==> c == READ_ONLY
  }

  /** The decision a sorted rule list yields. Decisions that no rule made carry version 0. */
  function Decide(sorted: seq<Rule>, version: int, agent: Agent, a: Action, now: Time): Decision {
    match FirstMatch(sorted, agent, a, now)
    case Some(r) => Decision(r.effect, r.id, NoReason, version)
    case None => Decision(if PureRead(a.classes) then Allow else RequireApproval, "", NoReason, 0)
  }

  method Swap(a: array<Rule>, i: int, j: int)
    requires 0 <= i < j < a.Length
    modifies a
    ensures a[..] == old(a[..])[i := old(a[j])][j := old(a[i])]
    ensures multiset(a[..]) == old(multiset(a[..]))
  {
    a[i], a[j] := a[j], a[i];
  }

  /** Moves element `i` down into the sorted part before it. */
  method Sink(a: array<Rule>, i: int)
    requires 0 <= i < a.Length && SortedByPriority(a[..i])
    modifies a
    ensures SortedByPriority(a[..i + 1])
    ensures multiset(a[..]) == old(multiset(a[..]))
  {
    var j := i;
    while j > 0 && a[j - 1].priority > a[j].priority
      invariant 0 <= j <= i
      invariant multiset(a[..]) == old(multiset(a[..]))
      invariant forall p, q :: 0 <= p < q <= i && q != j ==> a[..][p].priority <= a[..][q].priority
    {
      Swap(a, j - 1, j);
      j := j - 1;
    }
  }

  method SortByPriority(a: array<Rule>)
    modifies a
    ensures IsSorting(a[..], old(a[..]))
  {
    var i := 0;
    while i < a.Length
      invariant 0 <= i <= a.Length
      invariant SortedByPriority(a[..i])
      invariant multiset(a[..]) == old(multiset(a[..]))
    {
      Sink(a, i);
      i := i + 1;
    }
    assert a[..i] == a[..];
  }

  method Evaluate(rules: seq<Rule>, version: int, agent: Agent, a: Action, now: Time)
    returns (d: Decision, ghost sorted: seq<Rule>)
    ensures IsSorting(sorted, rules)
    ensures d == Decide(sorted, version, agent, a, now)
  {
    var work := new Rule[|rules|](i requires 0 <= i < |rules| => rules[i]);
    assert work[..] == rules;
    SortByPriority(work);
    sorted := work[..];
    var i := 0;
    while i < work.Length
      invariant 0 <= i <= work.Length
      invariant work[..] == sorted
      invariant FirstMatch(sorted, agent, a, now) == FirstMatch(sorted[i..], agent, a, now)
    {
      var hit := RuleMatches(work[i], agent, a, now);
      if hit {
        return Decision(work[i].effect, work[i].id, NoReason, version), sorted;
      }
      i := i + 1;
    }
    for k := 0 to |a.classes|
      invariant forall j :: 0 <= j < k ==> a.classes[j] == READ_ONLY
    {
      if a.classes[k] != READ_ONLY {
        assert a.classes[k] in a.classes;
        return Decision(RequireApproval, "", NoReason, 0), sorted;
      }
    }
    return Decision(Allow, "", NoReason, 0), sorted;
  }

  // ----- what evaluation means, without sorting or scanning -----

  /** `r` matches, and no matching rule of the list has a smaller priority. */
  ghost predicate IsTopRule(r: Rule, rules: seq<Rule>, agent: Agent, a: Action, now: Time) {
    && r in rules && Matches(r, agent, a, now)
    && forall q :: q in rules && Matches(q, agent, a, now) ==> r.priority <= q.priority
  }

  lemma {:induction false} FirstMatchOfSorted(sorted: seq<Rule>, agent: Agent, a: Action, now: Time)
    requires SortedByPriority(sorted)
    ensures match FirstMatch(sorted, agent, a, now)
            case Some(r) => IsTopRule(r, sorted, agent, a, now)
            case None => forall q :: q in sorted ==> !Matches(q, agent, a, now)
  {
    if sorted != [] {
      assert forall q :: q in sorted ==> q == sorted[0] || q in sorted[1..];
      if Matches(sorted[0], agent, a, now) {
        forall q | q in sorted ensures sorted[0].priority <= q.priority {
          var i :| 0 <= i < |sorted| && sorted[i] == q;
        }
      } else {
        FirstMatchOfSorted(sorted[1..], agent, a, now);
      }
    }
  }

  lemma SortingKeepsMembers(sorted: seq<Rule>, rules: seq<Rule>)
    requires multiset(sorted) == multiset(rules)
    ensures forall r :: r in sorted <==> r in rules
  {
    forall r ensures r in sorted <==> r in rules {
      assert r in sorted <==> r in multiset(sorted);
      assert r in rules <==> r in multiset(rules);
    }
  }

  /** Sort-then-scan finds a matching rule of minimum priority in the list as given; with no
      matching rule it allows exactly the pure reads and asks for approval otherwise. */
  lemma EvaluateMeaning(rules: seq<Rule>, sorted: seq<Rule>, version: int, agent: Agent, a: Action, now: Time)
    requires IsSorting(sorted, rules)
    ensures var d := Decide(sorted, version, agent, a, now);
            if exists q :: q in rules && Matches(q, agent, a, now)
            then exists r :: IsTopRule(r, rules, agent, a, now)
                             && d == Decision(r.effect, r.id, NoReason, version)
            else d.version == 0 && d.ruleId == "" && (d.effect == Allow || d.effect == RequireApproval)
                 && (d.effect == Allow <==> PureRead(a.classes))
  {
    FirstMatchOfSorted(sorted, agent, a, now);
    SortingKeepsMembers(sorted, rules);
    var f := FirstMatch(sorted, agent, a, now);
    if f.Some? {
      assert IsTopRule(f.value, rules, agent, a, now);
    }
  }

  /** With no matching rule and a class list that is not empty, only an action that really is
      classed as a read is allowed. */
  lemma DefaultFailsClosed(rules: seq<Rule>, sorted: seq<Rule>, version: int, agent: Agent, a: Action, now: Time)
    requires IsSorting(sorted, rules)
    requires a.classes != []
    requires forall q :: q in rules ==> !Matches(q, agent, a, now)
    ensures Permits(Decide(sorted, version, agent, a, now).effect)
            <==> READ_ONLY in a.classes && forall c :: c in a.classes ==> c == READ_ONLY
  {
    EvaluateMeaning(rules, sorted, version, agent, a, now);
    assert a.classes[0] in a.classes;
  }

  lemma {:induction false} TopRuleUnique(rules: seq<Rule>, agent: Agent, a: Action, now: Time, r: Rule, q: Rule)
    requires DistinctPriorities(rules)
    requires IsTopRule(r, rules, agent, a, now) && IsTopRule(q, rules, agent, a, now)
    ensures r == q
  {
    var i :| 0 <= i < |rules| && rules[i] == r;
    var j :| 0 <= j < |rules| && rules[j] == q;
    assert rules[i].priority == rules[j].priority;
  }

  /** With distinct priorities the decision does not depend on the order the rules are listed
      in, nor on how the sort breaks ties. */
  lemma OrderIrrelevant(rules: seq<Rule>, sorted: seq<Rule>, rules': seq<Rule>, sorted': seq<Rule>,
                        version: int, agent: Agent, a: Action, now: Time)
    requires multiset(rules) == multiset(rules')
    requires DistinctPriorities(rules)
    requires IsSorting(sorted, rules) && IsSorting(sorted', rules')
    ensures Decide(sorted, version, agent, a, now) == Decide(sorted', version, agent, a, now)
  {
    assert IsSorting(sorted', rules);
    FirstMatchOfSorted(sorted, agent, a, now);
    FirstMatchOfSorted(sorted', agent, a, now);
    SortingKeepsMembers(sorted, rules);
    SortingKeepsMembers(sorted', rules);
    var f, f' := FirstMatch(sorted, agent, a, now), FirstMatch(sorted', agent, a, now);
    if f.Some? && f'.Some? {
      assert IsTopRule(f.value, rules, agent, a, now) && IsTopRule(f'.value, rules, agent, a, now);
      TopRuleUnique(rules, agent, a, now, f.value, f'.value);
    }
  }

  // ----- the seeded support policies -----

  const ANY := Match([], "", "", None, None, None, "", [], [], "", None)

  function DefaultSupportPolicies(): seq<Rule> {
    var refund := ANY.(agentGroups := ["support"], tool := "stripe", action := "refund");
    [ Rule("pol-no-iam", 1, ANY.(tool := "iam"), Deny),
      Rule("pol-prod-db", 2, ANY.(tool := "postgres", action := "delete_database"), RequireApproval),
      Rule("pol-refund-auto", 10, refund.(maxAmount := Some(10000)), Allow),
      Rule("pol-refund-approval", 11, refund.(minAmount := Some(10001), maxAmount := Some(50000)), RequireApproval),
      Rule("pol-refund-deny", 12, refund.(minAmount := Some(50001)), Deny),
      Rule("pol-crm", 20, ANY.(tool := "crm", action := "update_record"), Allow),
      Rule("pol-email-bulk", 30, ANY.(tool := "email", minRecipients := Some(51)), RequireApproval),
      Rule("pol-email", 31, ANY.(tool := "email"), Allow),
      Rule("pol-deploy-staging", 40, ANY.(tool := "deploy", action := "deploy", environment := "staging"), Allow),
      Rule("pol-deploy-prod", 41, ANY.(tool := "deploy", action := "deploy", environment := "production"), RequireApproval)
    ]
  }

  /** The only matching rule decides, in whatever order the rules are scanned. */
  lemma {:induction false} OnlyMatchDecides(rules: seq<Rule>, agent: Agent, a: Action, now: Time, r: Rule)
    requires r in rules && Matches(r, agent, a, now)
    requires forall q :: q in rules && Matches(q, agent, a, now) ==> q == r
    ensures FirstMatch(rules, agent, a, now) == Some(r)
  {
    assert rules[0] in rules;
    if !Matches(rules[0], agent, a, now) {
      assert forall q :: q in rules[1..] ==> q in rules;
      OnlyMatchDecides(rules[1..], agent, a, now, r);
    }
  }

  lemma {:induction false} SeededRefundRule(agent: Agent, a: Action, now: Time, k: int)
    requires "support" in agent.groups && a.tool == "stripe" && a.name == "refund"
    requires 0 <= k < 10
    ensures Matches(DefaultSupportPolicies()[k], agent, a, now)
            <==> k == if AmountOf(a) <= 10000 then 2 else if AmountOf(a) <= 50000 then 3 else 4
  {
    var m := DefaultSupportPolicies()[k].match_;
    if 2 <= k <= 4 {
      assert m.tool == "stripe" && m.action == "refund";
      assert m.agentGroups == ["support"];
      assert "support" in m.agentGroups;
    } else {
      assert m.tool in ["iam", "postgres", "crm", "email", "deploy"];
      assert m.tool != "" && m.tool != "*" && m.tool != "stripe";
    }
  }

  /** Every refund a support agent asks for falls in exactly one tier: up to $100 automatic,
      up to $500 by approval, refused above. */
  lemma RefundTiers(sorted: seq<Rule>, version: int, agent: Agent, a: Action, now: Time)
    requires forall r :: r in sorted <==> r in DefaultSupportPolicies()
    requires "support" in agent.groups && a.tool == "stripe" && a.name == "refund"
    ensures var d := Decide(sorted, version, agent, a, now);
            && d.version == version
            && d.effect == if AmountOf(a) <= 10000 then Allow else if AmountOf(a) <= 50000 then RequireApproval else Deny
  {
    var rules := DefaultSupportPolicies();
    var i := if AmountOf(a) <= 10000 then 2 else if AmountOf(a) <= 50000 then 3 else 4;
    forall q | q in sorted ensures Matches(q, agent, a, now) ==> q == rules[i] {
      var k :| 0 <= k < |rules| && rules[k] == q;
      SeededRefundRule(agent, a, now, k);
    }
    SeededRefundRule(agent, a, now, i);
    OnlyMatchDecides(sorted, agent, a, now, rules[i]);
  }
}
