/** Delegated authority: which operations an agent's grants cover, and the grammar of scopes. */
module Authority {
  import opened Domain
  import opened Policies

  predicate EntryCovers(s: string, tool: string, name: string) {
    s == "*" || s == tool + ".*" || s == tool + "." + name
  }

  predicate ScopeCovers(scope: seq<string>, tool: string, name: string) {
    exists s :: s in scope && EntryCovers(s, tool, name)
  }

  /** An attempted operation. */
  datatype Attempt = Attempt(tool: string, name: string, amount: Option<int>, environment: string, at: Time)

  predicate ListedEnvironment(g: Grant, environment: string) {
    g.environments != [] ==> exists e :: e in g.environments && EqualFold(e, environment)
  }

  predicate EnvironmentFits(g: Grant, environment: string) {
    && ListedEnvironment(g, environment)
    && (g.environment != "" ==> EqualFold(g.environment, environment))
  }

  predicate AmountFits(g: Grant, amount: Option<int>) {
    g.maxAmount.Some? && amount.Some? ==> amount.value <= g.maxAmount.value
  }

  predicate Live(g: Grant, now: Time) {
    g.revokedAt.None? && (g.expiresAt.Some? ==> now <= g.expiresAt.value)
  }

  predicate WithinLimits(g: Grant, t: Attempt) {
    Live(g, t.at) && ScopeCovers(g.scope, t.tool, t.name) && AmountFits(g, t.amount)
  }

  predicate Covers(g: Grant, t: Attempt) {
    && WithinLimits(g, t)
    && EnvironmentFits(g, t.environment)
  }

  /** The dimension a grant fails in. */
  datatype Gap = NoGap | Revoked | Expired | OutOfScope | OverLimit | OutsideEnvironments | OtherEnvironment

  method GrantCovers(g: Grant, t: Attempt) returns (ok: bool, why: Gap)
    ensures ok == Covers(g, t)
    ensures ok <==> why == NoGap
    ensures why == Revoked <==> g.revokedAt.Some?
    ensures why == Expired <==> g.revokedAt.None? && !Live(g, t.at)
    ensures why == OutOfScope <==> Live(g, t.at) && !ScopeCovers(g.scope, t.tool, t.name)
    ensures why == OverLimit <==> Live(g, t.at) && ScopeCovers(g.scope, t.tool, t.name) && !AmountFits(g, t.amount)
    ensures why == OutsideEnvironments <==> WithinLimits(g, t) && !ListedEnvironment(g, t.environment)
    ensures why == OtherEnvironment <==> WithinLimits(g, t) && ListedEnvironment(g, t.environment) && !EnvironmentFits(g, t.environment)
  {
    if g.revokedAt.Some? {
      return false, Revoked;
    }
    if g.expiresAt.Some? && t.at > g.expiresAt.value {
      return false, Expired;
    }
    if !ScopeCovers(g.scope, t.tool, t.name) {
      return false, OutOfScope;
    }
    if g.maxAmount.Some? && t.amount.Some? && t.amount.value > g.maxAmount.value {
      return false, OverLimit;
    }
    if |g.environments| > 0 {
      var hit := AnyFolded(g.environments, t.environment);
      if !hit {
        return false, OutsideEnvironments;
      }
    }
    if g.environment != "" && !EqualFold(g.environment, t.environment) {
      return false, OtherEnvironment;
    }
    return true, NoGap;
  }

  predicate Covered(grants: seq<Grant>, t: Attempt) {
    grants == [] || exists g :: g in grants && Covers(g, t)
  }

  method CheckAuthority(grants: seq<Grant>, t: Attempt)
    returns (covered: bool, hasGrants: bool, reasons: seq<Gap>)
    ensures hasGrants <==> grants != []
    ensures covered == Covered(grants, t)
    ensures !covered ==> |reasons| == |grants| && NoGap !in reasons
  {
    reasons := [];
    if |grants| == 0 {
      return true, false, reasons;
    }
    for i := 0 to |grants|
      invariant |reasons| == i && NoGap !in reasons
      invariant forall j :: 0 <= j < i ==> !Covers(grants[j], t)
    {
      var ok, why := GrantCovers(grants[i], t);
      if ok {
        return true, true, reasons;
      }
      reasons := reasons + [why];
    }
    return false, true, reasons;
  }

  /** Coverage depends on which grants there are, not on the order they are listed in. */
  lemma CoverageOrderIrrelevant(a: seq<Grant>, b: seq<Grant>, t: Attempt)
    requires multiset(a) == multiset(b)
    ensures Covered(a, t) == Covered(b, t)
    ensures a == [] <==> b == []
  {
    assert |multiset(a)| == |multiset(b)|;
    forall g ensures g in a <==> g in b {
      assert g in a <==> g in multiset(a);
      assert g in b <==> g in multiset(b);
    }
  }

  // ----- scope entries -----

  predicate ToolChar(ch: char) {
    'a' <= ch <= 'z' || '0' <= ch <= '9' || ch == ':' || ch == '_' || ch == '-'
  }

  predicate NameChar(ch: char) {
    ToolChar(ch) || ch == '*'
  }

  function Dot(s: string): (i: nat)
    ensures i <= |s| && '.' !in s[..i] && (i < |s| ==> s[i] == '.')
  {
    if s == "" || s[0] == '.' then 0
    else
      var j := Dot(s[1..]);
      assert s[..j + 1] == [s[0]] + s[1..][..j];
      j + 1
  }

  /** `tool.action`: both parts present, drawn from their alphabets, one dot between them. */
  predicate ValidEntry(s: string) {
    var i := Dot(s);
    && 0 < i < |s| - 1
    && (forall k :: 0 <= k < i ==> ToolChar(s[k]))
    && (forall k :: i < k < |s| ==> NameChar(s[k]))
  }

  predicate ValidScope(scope: seq<string>) {
    scope != [] && forall s :: s in scope ==> s == "*" || ValidEntry(s)
  }

  function EntryTool(s: string): string {
    s[..Dot(s)]
  }

  function EntryName(s: string): string
    requires ValidEntry(s)
  {
    s[Dot(s) + 1..]
  }

  /** A validated entry splits into a tool and an action in one way only, whatever strings
      a request might carry. */
  lemma EntryDecodes(s: string, tool: string, name: string)
    requires ValidEntry(s)
    ensures s == tool + "." + name <==> tool == EntryTool(s) && name == EntryName(s)
  {
    var i := Dot(s);
    assert s == s[..i] + "." + s[i + 1..];
    if s == tool + "." + name {
      assert s[|tool|] == '.';
      assert forall k :: 0 <= k < i ==> s[k] == s[..i][k];
      assert i == |tool|;
      assert s[..i] == tool && s[i + 1..] == name;
    }
  }

  /** So a validated entry covers exactly one operation, or every action of exactly one tool. */
  lemma EntryCoverage(s: string, tool: string, name: string)
    requires ValidEntry(s)
    ensures EntryCovers(s, tool, name) <==> tool == EntryTool(s) && (EntryName(s) == "*" || name == EntryName(s))
  {
    EntryDecodes(s, tool, name);
    EntryDecodes(s, tool, "*");
    assert tool + "." + "*" == tool + ".*";
    assert s[Dot(s)] == '.';
  }

  /** Only the bare star covers everything. */
  lemma StarCoversAll(s: string)
    ensures s == "*" <==> forall tool, name :: EntryCovers(s, tool, name)
  {
    if forall tool, name :: EntryCovers(s, tool, name) {
      assert EntryCovers(s, s, s);
      assert |s + ".*"| == |s| + 2 && |s + "." + s| > |s|;
    }
  }

  // ----- coverage by values -----

  lemma ScopeReaches(scope: seq<string>, tool: string, name: string)
    ensures ScopeCovers(scope, tool, name) <==> "*" in scope || tool + ".*" in scope || tool + "." + name in scope
  {
    assert EntryCovers("*", tool, name) && EntryCovers(tool + ".*", tool, name) && EntryCovers(tool + "." + name, tool, name);
  }

  /** A grant covers an attempt unless it was revoked, is past its last instant, names neither the
      operation nor its tool nor the star, is limited below the amount, or names other environments. */
  lemma CoversByValue(g: Grant, t: Attempt)
    ensures !Covers(g, t)
            <==> || g.revokedAt.Some?
                 || (g.expiresAt.Some? && g.expiresAt.value < t.at)
                 || ("*" !in g.scope && t.tool + ".*" !in g.scope && t.tool + "." + t.name !in g.scope)
                 || (g.maxAmount.Some? && t.amount.Some? && g.maxAmount.value < t.amount.value)
                 || (g.environment != "" && !EqualFold(g.environment, t.environment))
                 || (g.environments != [] && forall e :: e in g.environments ==> !EqualFold(e, t.environment))
  {
    ScopeReaches(g.scope, t.tool, t.name);
  }
}
