/** What a proposal stores, and the amount of money it is taken to be about: cents as stated, or
    dollars times a hundred. */
module Amounts {
  import opened Domain
  import opened Policies
  import opened Authority
  import opened StoreSpec
  import opened GatewaySpec
  import opened Protocol

  /** The record a fresh proposal stores says what was asked, by whom and when. */
  lemma ProposalRecorded(e: Env, w: World, q: Request, d: Draw)
    requires d.actionId !in w.db.actions && Accepted(e, w.db, q)
    ensures var actions := Propose(e, w, q, d).world.db.actions;
            && d.actionId in actions
            && var a := actions[d.actionId];
               && a.id == d.actionId && a.org == q.org && a.txn == q.txn && a.key == q.key
               && a.tool == q.tool && a.name == q.name && a.args == q.args && a.argsHash == e.codec.canonical(q.args)
               && a.classes == (if q.tool + "." + q.name in e.tools.meta then e.tools.meta[q.tool + "." + q.name] else ["UNKNOWN"])
               && a.createdAt == d.now && a.result == None && AmountIs(q.args, a.amount)
  {
    ProposeShape(e, w, q, d);
    ExtractedIs(q.args);
  }

  // ----- cents -----

  /** `n` is `x` with the fraction dropped. */
  predicate IsWhole(x: real, n: int) {
    if x >= 0.0 then n as real <= x < (n + 1) as real else (n - 1) as real < x <= n as real
  }

  predicate IsNumber(v: Value) {
    v.Int64? || v.Int? || v.Float?
  }

  predicate HasNumber(args: Args, key: string) {
    key in args && IsNumber(args[key])
  }

  /** A number read as cents: itself, or its whole part. */
  predicate ReadsAs(v: Value, n: int) {
    match v
    case Int64(k) => n == k
    case Int(k) => n == k
    case Float(x) => IsWhole(x, n)
    case _ => false
  }

  lemma TruncateIsWhole(x: real, n: int)
    ensures IsWhole(x, n) <==> n == Truncate(x)
  {
  }

  const INT64_LIMIT := 0x8000_0000_0000_0000

  /** `n` is what is left of `m` in 64 bits, two's complement. */
  ghost predicate IsWrapped(m: int, n: int) {
    -INT64_LIMIT <= n < INT64_LIMIT && exists k: int :: m == n + k * (2 * INT64_LIMIT)
  }

  lemma WrapIsWrapped(m: int)
    ensures IsWrapped(m, Wrap64(m))
    ensures -INT64_LIMIT <= m < INT64_LIMIT ==> Wrap64(m) == m
  {
    var k := (m + INT64_LIMIT) / (2 * INT64_LIMIT);
    assert m + INT64_LIMIT == (m + INT64_LIMIT) % (2 * INT64_LIMIT) + k * (2 * INT64_LIMIT);
    assert m == Wrap64(m) + k * (2 * INT64_LIMIT);
  }

  /** Dollars, as whole or as fractional number. */
  ghost predicate DollarsReadAs(v: Value, n: int) {
    match v
    case Int(k) => IsWrapped(100 * k, n)
    case Float(x) => IsWhole(100.0 * x, n)
    case _ => false
  }

  predicate IsDollars(v: Value) {
    v.Int? || v.Float?
  }

  /** The amount of a request: a number of cents under `amount_cents`, failing that under
      `amountCents`, failing that dollars under `amount`; otherwise none. */
  ghost predicate AmountIs(args: Args, amount: Option<int>) {
    if HasNumber(args, "amount_cents") then amount.Some? && ReadsAs(args["amount_cents"], amount.value)
    else if HasNumber(args, "amountCents") then amount.Some? && ReadsAs(args["amountCents"], amount.value)
    else if "amount" in args && IsDollars(args["amount"]) then amount.Some? && DollarsReadAs(args["amount"], amount.value)
    else amount.None?
  }

  lemma ExtractedIs(args: Args)
    ensures AmountIs(args, ExtractCents(args))
  {
    if HasNumber(args, "amount_cents") {
      ReadNumber(args["amount_cents"]);
    } else if HasNumber(args, "amountCents") {
      ReadNumber(args["amountCents"]);
    } else if "amount" in args && IsDollars(args["amount"]) {
      match args["amount"]
      case Int(k) => WrapIsWrapped(k * 100);
      case Float(x) => TruncateIsWhole(x * 100.0, Truncate(x * 100.0));
    }
  }

  lemma ReadNumber(v: Value)
    ensures v.Float? ==> forall n :: ReadsAs(v, n) <==> n == Truncate(v.x)
  {
    if v.Float? {
      forall n ensures ReadsAs(v, n) <==> n == Truncate(v.x) { TruncateIsWhole(v.x, n); }
    }
  }

  lemma WrappedOnce(m: int, n: int)
    requires IsWrapped(m, n)
    ensures n == Wrap64(m)
  {
    WrapIsWrapped(m);
    var j :| m == n + j * (2 * INT64_LIMIT);
    var k :| m == Wrap64(m) + k * (2 * INT64_LIMIT);
    assert n - Wrap64(m) == (k - j) * (2 * INT64_LIMIT);
  }

  /** No request has two amounts. */
  lemma AmountDetermined(args: Args, amount: Option<int>)
    requires AmountIs(args, amount)
    ensures amount == ExtractCents(args)
  {
    if HasNumber(args, "amount_cents") {
      ReadNumber(args["amount_cents"]);
    } else if HasNumber(args, "amountCents") {
      ReadNumber(args["amountCents"]);
    } else if "amount" in args && IsDollars(args["amount"]) {
      match args["amount"]
      case Int(k) => WrappedOnce(100 * k, amount.value);
      case Float(x) => TruncateIsWhole(100.0 * x, amount.value);
    }
  }

  /** Two values state one sum, the first in dollars and the second in cents. */
  predicate SameSum(dollars: Value, cents: Value) {
    match dollars
    case Int(n) => -INT64_LIMIT <= 100 * n < INT64_LIMIT && (cents == Int(100 * n) || cents == Int64(100 * n))
    case Float(x) => cents == Float(100.0 * x) || ((cents.Int? || cents.Int64?) && cents.n as real == 100.0 * x)
    case _ => false
  }

  predicate StatesDollars(args: Args) {
    "amount" in args && IsDollars(args["amount"]) && !HasNumber(args, "amount_cents") && !HasNumber(args, "amountCents")
  }

  /** A request in dollars and one for the same sum in cents are stored with the same amount. */
  lemma DollarsMatchCents(e: Env, w: World, q: Request, d: Draw, w': World, q': Request, d': Draw)
    requires d.actionId !in w.db.actions && Accepted(e, w.db, q) && StatesDollars(q.args)
    requires d'.actionId !in w'.db.actions && Accepted(e, w'.db, q') && HasNumber(q'.args, "amount_cents")
    requires SameSum(q.args["amount"], q'.args["amount_cents"])
    ensures var actions, actions' := Propose(e, w, q, d).world.db.actions, Propose(e, w', q', d').world.db.actions;
            && d.actionId in actions && d'.actionId in actions'
            && actions[d.actionId].amount == actions'[d'.actionId].amount
  {
    ProposalRecorded(e, w, q, d);
    ProposalRecorded(e, w', q', d');
    var a := Propose(e, w, q, d).world.db.actions[d.actionId].amount;
    var b := Propose(e, w', q', d').world.db.actions[d'.actionId].amount;
    SumsAgree(q.args["amount"], q'.args["amount_cents"], a.value, b.value);
  }

  lemma SumsAgree(dollars: Value, cents: Value, m: int, n: int)
    requires SameSum(dollars, cents) && DollarsReadAs(dollars, m) && ReadsAs(cents, n)
    ensures m == n
  {
    match dollars
    case Int(k) =>
      WrappedOnce(100 * k, m);
      WrapIsWrapped(100 * k);
    case Float(x) =>
      TruncateIsWhole(100.0 * x, m);
      TruncateIsWhole(100.0 * x, n);
  }

  /** Authority and policy are asked about the stored operation, amount, environment and time. */
  lemma JudgedAsStored(e: Env, q: Request, id: Id, agent: Agent, now: Time)
    ensures var a := Stored(e.codec, Drafted(e, q), id, now);
            && AttemptOf(agent, a, now) == Attempt(q.tool, q.name, a.amount, agent.environment, now)
            && AmountIs(q.args, a.amount) && AmountOf(a) == CentsOr0(a.amount)
  {
    ExtractedIs(q.args);
  }
}
