/** The receipt hash chain. Receipts of all organizations share one list; each organization's
    receipts form their own chain inside it. Byte strings are sequences of characters. */
module Receipts {
  import opened Domain

  /** The fields of a receipt that its hash covers. */
  datatype Payload = Payload(
    txn: Id,
    action: Id,
    tool: string,
    argsHash: string,
    resultHash: string,
    decision: Effect,
    startedAt: Time,
    completedAt: Time)

  /** The library functions the chain rests on: JSON encoding of a payload, hex SHA-256 of a
      byte string, and the hex SHA-256 of an argument or result object's JSON. */
  datatype Codec = Codec(json: Payload -> string, sha: string -> string, canonical: Args -> string)

  predicate IsHexDigit(ch: char) {
    '0' <= ch <= '9' || 'a' <= ch <= 'f'
  }

  /** What FIPS 180-4 and hex encoding guarantee about a digest: 64 hex digits. */
  ghost predicate HexDigests(c: Codec) {
    forall x :: |c.sha(x)| == 64 && forall i :: 0 <= i < 64 ==> IsHexDigit(c.sha(x)[i])
  }

  function Frame(prev: string, json: string): string {
    prev + ['\0'] + json
  }

  function ChainHash(c: Codec, prev: string, p: Payload): string {
    c.sha(Frame(prev, c.json(p)))
  }

  function PayloadOf(r: Receipt): Payload {
    Payload(r.txn, r.action, r.tool, r.argsHash, r.resultHash, r.decision, r.startedAt, r.completedAt)
  }

  /** The hash of an organization's newest receipt, empty when it has none. */
  function LastHash(list: seq<Receipt>, org: Id): string {
    if list == [] then ""
    else
      var n := |list| - 1;
      if list[n].org == org then list[n].hash else LastHash(list[..n], org)
  }

  predicate LinkOk(c: Codec, list: seq<Receipt>, i: int)
    requires 0 <= i < |list|
  {
    var prev := LastHash(list[..i], list[i].org);
    list[i].prevHash == prev && list[i].hash == ChainHash(c, prev, PayloadOf(list[i]))
  }

  /** The index VerifyChain reports: the first broken link of the organization, or -1. */
  function Verdict(c: Codec, list: seq<Receipt>, org: Id): int {
    if list == [] then -1
    else
      var n := |list| - 1;
      var earlier := Verdict(c, list[..n], org);
      if earlier != -1 then earlier
      else if list[n].org == org && !LinkOk(c, list, n) then n
      else -1
  }

  method VerifyChain(c: Codec, list: seq<Receipt>, org: Id) returns (broken: int)
    ensures broken == Verdict(c, list, org)
  {
    var prev := "";
    var i := 0;
    while i < |list|
      invariant 0 <= i <= |list|
      invariant prev == LastHash(list[..i], org)
      invariant Verdict(c, list[..i], org) == -1
    {
      var r := list[i];
      assert list[..i + 1][..i] == list[..i];
      if r.org == org {
        if r.prevHash != prev || r.hash != ChainHash(c, prev, PayloadOf(r)) {
          assert Verdict(c, list[..i + 1], org) == i;
          VerdictStays(c, list[..i + 1], list[i + 1..], org);
          assert list == list[..i + 1] + list[i + 1..];
          return i;
        }
        prev := r.hash;
      }
      i := i + 1;
    }
    assert list[..i] == list;
    return -1;
  }

  lemma {:induction false} LinkOkPrefix(c: Codec, a: seq<Receipt>, b: seq<Receipt>, i: int)
    requires 0 <= i < |a|
    ensures LinkOk(c, a, i) == LinkOk(c, a + b, i)
  {
    assert (a + b)[..i] == a[..i];
  }

  /** Appending never moves a break that is already there. */
  lemma {:induction false} VerdictStays(c: Codec, a: seq<Receipt>, b: seq<Receipt>, org: Id)
    requires Verdict(c, a, org) != -1
    ensures Verdict(c, a + b, org) == Verdict(c, a, org)
  {
    if b == [] {
      assert a + b == a;
    } else {
      var n := |b| - 1;
      VerdictStays(c, a, b[..n], org);
      assert (a + b)[..|a + b| - 1] == a + b[..n];
    }
  }

  /** -1 means every link of the organization holds; otherwise the reported index is the
      organization's first failing link. */
  lemma {:induction false} VerdictMeaning(c: Codec, list: seq<Receipt>, org: Id)
    ensures var v := Verdict(c, list, org);
            && (v == -1 <==> forall i :: 0 <= i < |list| && list[i].org == org ==> LinkOk(c, list, i))
            && (v != -1 ==> 0 <= v < |list| && list[v].org == org && !LinkOk(c, list, v))
            && (forall i :: 0 <= i < |list| && list[i].org == org && (v == -1 || i < v) ==> LinkOk(c, list, i))
  {
    if list != [] {
      var n := |list| - 1;
      VerdictMeaning(c, list[..n], org);
      assert list == list[..n] + list[n..];
      forall i | 0 <= i < n ensures LinkOk(c, list[..n], i) == LinkOk(c, list, i) {
        LinkOkPrefix(c, list[..n], list[n..], i);
      }
    }
  }

  // ----- tamper evidence -----

  lemma FrameInjective(p: string, j: string, p': string, j': string)
    requires '\0' !in p && '\0' !in p'
    requires Frame(p, j) == Frame(p', j')
    ensures p == p' && j == j'
  {
    var f, f' := Frame(p, j), Frame(p', j');
    assert f[|p|] == '\0' && f'[|p'|] == '\0';
    assert forall i :: 0 <= i < |p| ==> f[i] == p[i];
    assert forall i :: 0 <= i < |p'| ==> f'[i] == p'[i];
    assert |p| == |p'|;
    assert p == f[..|p|] == p' && j == f[|p| + 1..] == j';
  }

  /** The bytes that receipt `i` of a list hashes: its chain's tip before it, framed with its payload. */
  function FrameAt(c: Codec, list: seq<Receipt>, i: int): string
    requires 0 <= i < |list|
  {
    Frame(LastHash(list[..i], list[i].org), c.json(PayloadOf(list[i])))
  }

  /** Receipt `i` of one list and receipt `j` of another hash different bytes to one digest. */
  predicate ClashAt(c: Codec, a: seq<Receipt>, i: int, b: seq<Receipt>, j: int)
    requires 0 <= i < |a| && 0 <= j < |b|
  {
    FrameAt(c, a, i) != FrameAt(c, b, j) && c.sha(FrameAt(c, a, i)) == c.sha(FrameAt(c, b, j))
  }

  /** The two lists hold between them a SHA-256 collision for the organization. */
  ghost predicate Clash(c: Codec, a: seq<Receipt>, b: seq<Receipt>, org: Id) {
    exists i, j :: 0 <= i < |a| && 0 <= j < |b| && a[i].org == org == b[j].org && ClashAt(c, a, i, b, j)
  }

  /** The encoded payloads an organization's chain commits to, oldest first. */
  function HashedPayloads(c: Codec, list: seq<Receipt>, org: Id): seq<string> {
    if list == [] then []
    else
      var n := |list| - 1;
      HashedPayloads(c, list[..n], org) + if list[n].org == org then [c.json(PayloadOf(list[n]))] else []
  }

  lemma {:induction false} LastHashPlain(c: Codec, list: seq<Receipt>, org: Id)
    requires HexDigests(c) && Verdict(c, list, org) == -1
    ensures '\0' !in LastHash(list, org)
    ensures LastHash(list, org) == "" <==> HashedPayloads(c, list, org) == []
  {
    if list != [] {
      var n := |list| - 1;
      if list[n].org == org {
        var prev := LastHash(list[..n], org);
        assert list[n].hash == c.sha(Frame(prev, c.json(PayloadOf(list[n]))));
      } else {
        LastHashPlain(c, list[..n], org);
      }
    }
  }

  lemma ClashInPrefix(c: Codec, a: seq<Receipt>, b: seq<Receipt>, org: Id, m: int, n: int)
    requires 0 <= m <= |a| && 0 <= n <= |b| && Clash(c, a[..m], b[..n], org)
    ensures Clash(c, a, b, org)
  {
    var i, j :| 0 <= i < m && 0 <= j < n && a[..m][i].org == org == b[..n][j].org && ClashAt(c, a[..m], i, b[..n], j);
    assert a[..m][..i] == a[..i] && b[..n][..j] == b[..j];
    assert ClashAt(c, a, i, b, j);
  }

  /** Two lists that both verify for an organization and end in the same hash commit to the
      same payloads at every position, unless the lists themselves hold a SHA-256 collision. */
  lemma {:induction false} TamperEvidence(c: Codec, a: seq<Receipt>, b: seq<Receipt>, org: Id)
    requires HexDigests(c)
    requires Verdict(c, a, org) == -1 && Verdict(c, b, org) == -1
    requires LastHash(a, org) == LastHash(b, org)
    ensures HashedPayloads(c, a, org) == HashedPayloads(c, b, org) || Clash(c, a, b, org)
    decreases |a| + |b|, 0
  {
    LastHashPlain(c, a, org);
    LastHashPlain(c, b, org);
    assert a[..|a|] == a && b[..|b|] == b;
    if a != [] && a[|a| - 1].org != org {
      TamperShorter(c, a, b, org, |a| - 1, |b|);
    } else if b != [] && b[|b| - 1].org != org {
      TamperShorter(c, a, b, org, |a|, |b| - 1);
    } else if a != [] && b != [] {
      var m, n := |a| - 1, |b| - 1;
      LastHashPlain(c, a[..m], org);
      LastHashPlain(c, b[..n], org);
      if FrameAt(c, a, m) == FrameAt(c, b, n) {
        FrameInjective(LastHash(a[..m], org), c.json(PayloadOf(a[m])), LastHash(b[..n], org), c.json(PayloadOf(b[n])));
        TamperShorter(c, a, b, org, m, n);
      } else {
        assert ClashAt(c, a, m, b, n);
      }
    }
  }

  lemma {:induction false} TamperShorter(c: Codec, a: seq<Receipt>, b: seq<Receipt>, org: Id, m: int, n: int)
    requires HexDigests(c) && 0 <= m <= |a| && 0 <= n <= |b| && m + n < |a| + |b|
    requires Verdict(c, a[..m], org) == -1 && Verdict(c, b[..n], org) == -1
    requires LastHash(a[..m], org) == LastHash(b[..n], org)
    ensures HashedPayloads(c, a[..m], org) == HashedPayloads(c, b[..n], org) || Clash(c, a, b, org)
    decreases m + n, 1
  {
    TamperEvidence(c, a[..m], b[..n], org);
    if Clash(c, a[..m], b[..n], org) {
      ClashInPrefix(c, a, b, org, m, n);
    }
  }

  /** The payloads themselves, oldest first. */
  function Payloads(list: seq<Receipt>, org: Id): seq<Payload> {
    if list == [] then []
    else
      var n := |list| - 1;
      Payloads(list[..n], org) + if list[n].org == org then [PayloadOf(list[n])] else []
  }

  ghost predicate InjectiveJson(c: Codec) {
    forall p, q :: c.json(p) == c.json(q) ==> p == q
  }

  lemma {:induction false} EncodedPayloads(c: Codec, list: seq<Receipt>, org: Id)
    ensures |HashedPayloads(c, list, org)| == |Payloads(list, org)|
    ensures forall i :: 0 <= i < |Payloads(list, org)| ==> HashedPayloads(c, list, org)[i] == c.json(Payloads(list, org)[i])
  {
    if list != [] {
      EncodedPayloads(c, list[..|list| - 1], org);
    }
  }

  /** With an injective encoding the payloads, and so the numbers of receipts, are the same. */
  lemma TamperEvidentPayloads(c: Codec, a: seq<Receipt>, b: seq<Receipt>, org: Id)
    requires HexDigests(c) && InjectiveJson(c)
    requires Verdict(c, a, org) == -1 && Verdict(c, b, org) == -1
    requires LastHash(a, org) == LastHash(b, org)
    ensures Payloads(a, org) == Payloads(b, org) || Clash(c, a, b, org)
  {
    TamperEvidence(c, a, b, org);
    EncodedPayloads(c, a, org);
    EncodedPayloads(c, b, org);
    if HashedPayloads(c, a, org) == HashedPayloads(c, b, org) {
      var p, q := Payloads(a, org), Payloads(b, org);
      assert forall i :: 0 <= i < |p| ==> c.json(p[i]) == c.json(q[i]);
    }
  }

  /** An organization's own receipts, oldest first. */
  function ReceiptsOf(list: seq<Receipt>, org: Id): seq<Receipt> {
    if list == [] then []
    else
      var n := |list| - 1;
      ReceiptsOf(list[..n], org) + if list[n].org == org then [list[n]] else []
  }

  /** What a receipt attests, field by field. */
  predicate SameContent(r: Receipt, s: Receipt) {
    && r.txn == s.txn && r.action == s.action && r.tool == s.tool
    && r.argsHash == s.argsHash && r.resultHash == s.resultHash && r.decision == s.decision
    && r.startedAt == s.startedAt && r.completedAt == s.completedAt
  }

  lemma {:induction false} PayloadsOfReceipts(list: seq<Receipt>, org: Id)
    ensures |Payloads(list, org)| == |ReceiptsOf(list, org)|
    ensures forall k :: 0 <= k < |ReceiptsOf(list, org)| ==> Payloads(list, org)[k] == PayloadOf(ReceiptsOf(list, org)[k])
  {
    if list != [] {
      PayloadsOfReceipts(list[..|list| - 1], org);
    }
  }

  /** Two lists that verify for an organization and end in the same hash hold equally many of its
      receipts, and the k-th ones attest the same, unless the lists hold a SHA-256 collision. */
  lemma TamperEvidentContent(c: Codec, a: seq<Receipt>, b: seq<Receipt>, org: Id)
    requires HexDigests(c) && InjectiveJson(c)
    requires Verdict(c, a, org) == -1 && Verdict(c, b, org) == -1
    requires LastHash(a, org) == LastHash(b, org)
    ensures || Clash(c, a, b, org)
            || (&& |ReceiptsOf(a, org)| == |ReceiptsOf(b, org)|
                && forall k :: 0 <= k < |ReceiptsOf(a, org)| ==> SameContent(ReceiptsOf(a, org)[k], ReceiptsOf(b, org)[k]))
  {
    TamperEvidentPayloads(c, a, b, org);
    PayloadsOfReceipts(a, org);
    PayloadsOfReceipts(b, org);
    if Payloads(a, org) == Payloads(b, org) {
      forall k | 0 <= k < |ReceiptsOf(a, org)| ensures SameContent(ReceiptsOf(a, org)[k], ReceiptsOf(b, org)[k]) {
        assert PayloadOf(ReceiptsOf(a, org)[k]) == PayloadOf(ReceiptsOf(b, org)[k]);
      }
    }
  }

  // ----- rewriting one receipt in place -----

  /** The fields the verifier reads. */
  predicate SameChainFields(r: Receipt, s: Receipt) {
    r.org == s.org && r.prevHash == s.prevHash && r.hash == s.hash && PayloadOf(r) == PayloadOf(s)
  }

  lemma {:induction false} VerdictReadsChainFields(c: Codec, a: seq<Receipt>, b: seq<Receipt>, org: Id)
    requires |a| == |b|
    requires forall i :: 0 <= i < |a| ==> SameChainFields(a[i], b[i])
    ensures Verdict(c, a, org) == Verdict(c, b, org)
    ensures LastHash(a, org) == LastHash(b, org)
  {
    if a != [] {
      var n := |a| - 1;
      VerdictReadsChainFields(c, a[..n], b[..n], org);
      VerdictReadsChainFields(c, a[..n], b[..n], a[n].org);
    }
  }

  /** The identifier, action name, amount, compensation note, policy version, key and signature
      are outside the hash: rewriting any of them changes no verdict and no tip. */
  lemma UnhashedFieldsNotProtected(c: Codec, list: seq<Receipt>, org: Id, i: int, r: Receipt)
    requires 0 <= i < |list|
    requires r == list[i].(id := r.id, name := r.name, cents := r.cents, compensation := r.compensation, version := r.version,
                           keyId := r.keyId, signature := r.signature)
    ensures Verdict(c, list[i := r], org) == Verdict(c, list, org) && LastHash(list[i := r], org) == LastHash(list, org)
  {
    VerdictReadsChainFields(c, list[i := r], list, org);
  }

  /** Whether the organization has a receipt after `i`. */
  ghost predicate HasLater(list: seq<Receipt>, org: Id, i: nat) {
    exists k :: i < k < |list| && list[k].org == org
  }

  lemma {:induction false} TipAfter(list: seq<Receipt>, org: Id, i: int, r: Receipt)
    requires 0 <= i < |list| && list[i].org == org == r.org
    ensures LastHash(list[i := r], org) == if HasLater(list, org, i) then LastHash(list, org) else r.hash
  {
    var n := |list| - 1;
    var list' := list[i := r];
    if i == n || list[n].org == org {
      assert list'[n].org == org;
    } else {
      TipAfter(list[..n], org, i, r);
      assert list'[..n] == list[..n][i := r];
      assert HasLater(list, org, i) <==> HasLater(list[..n], org, i) by {
        if HasLater(list, org, i) {
          var k :| i < k < |list| && list[k].org == org;
          assert list[..n][k].org == org;
        }
        if HasLater(list[..n], org, i) {
          var k :| i < k < n && list[..n][k].org == org;
          assert list[k].org == org;
        }
      }
    }
  }

  /** Links before the rewrite are untouched, the rewritten link is its own affair, and the next
      link of the chain holds exactly when the hash it points back to is the old one. */
  lemma LinkAfter(c: Codec, list: seq<Receipt>, org: Id, i: int, r: Receipt, k: int)
    requires 0 <= i < |list| && 0 <= k < |list| && list[i].org == org == r.org && list[k].org == org
    requires LinkOk(c, list, i) && LinkOk(c, list, k)
    ensures LinkOk(c, list[i := r], k)
            <==> if k < i then true
                 else if k == i then r.prevHash == list[i].prevHash && r.hash == c.sha(FrameAt(c, list[i := r], i))
                 else HasLater(list[..k], org, i) || r.hash == list[i].hash
  {
    var list' := list[i := r];
    if k <= i {
      assert list'[..k] == list[..k];
    } else {
      assert list'[..k] == list[..k][i := r];
      TipAfter(list[..k], org, i, r);
      TipAfter(list[..k], org, i, list[i]);
      assert list[..k][i := list[i]] == list[..k];
    }
  }

  /** A later receipt of the chain, if any, has a first one, with nothing in between. */
  lemma {:induction false} NextLink(list: seq<Receipt>, org: Id, i: nat) returns (k: nat)
    requires HasLater(list, org, i)
    ensures i < k < |list| && list[k].org == org && !HasLater(list[..k], org, i)
  {
    k :| i < k < |list| && list[k].org == org;
    if HasLater(list[..k], org, i) {
      k := NextLink(list[..k], org, i);
      assert list[..k] == list[..k][..k];
    }
  }

  /** After a rewrite a verifying chain still verifies exactly when the rewritten receipt is a
      proper link itself and, if the chain goes on, keeps its hash. */
  lemma RewriteVerdict(c: Codec, list: seq<Receipt>, org: Id, i: int, r: Receipt)
    requires 0 <= i < |list| && list[i].org == org == r.org && Verdict(c, list, org) == -1
    ensures Verdict(c, list[i := r], org) == -1
            <==> && r.prevHash == list[i].prevHash && r.hash == c.sha(FrameAt(c, list[i := r], i))
                 && (HasLater(list, org, i) ==> r.hash == list[i].hash)
  {
    var list' := list[i := r];
    VerdictMeaning(c, list, org);
    VerdictMeaning(c, list', org);
    forall k | 0 <= k < |list| && list[k].org == org
      ensures LinkOk(c, list', k)
              <==> if k < i then true
                   else if k == i then r.prevHash == list[i].prevHash && r.hash == c.sha(FrameAt(c, list', i))
                   else HasLater(list[..k], org, i) || r.hash == list[i].hash
    {
      LinkAfter(c, list, org, i, r, k);
    }
    if HasLater(list, org, i) {
      var k := NextLink(list, org, i);
      assert LinkOk(c, list', k) <==> r.hash == list[i].hash;
    }
  }

  lemma FramesAtRewrite(c: Codec, list: seq<Receipt>, i: int, r: Receipt)
    requires 0 <= i < |list| && r.org == list[i].org
    ensures FrameAt(c, list[i := r], i) == FrameAt(c, list, i) <==> c.json(PayloadOf(r)) == c.json(PayloadOf(list[i]))
  {
    assert list[i := r][..i] == list[..i];
    var p := LastHash(list[..i], r.org);
    var x, y := Frame(p, c.json(PayloadOf(r))), Frame(p, c.json(PayloadOf(list[i])));
    assert x[|p| + 1..] == c.json(PayloadOf(r)) && y[|p| + 1..] == c.json(PayloadOf(list[i]));
  }

  /** A rewrite of one receipt of a verifying chain goes unseen by a verifier that knows the tip
      exactly when it keeps both hashes and either keeps the encoded payload or hashes different
      bytes to the same digest. */
  lemma RewriteUnseen(c: Codec, list: seq<Receipt>, org: Id, i: int, r: Receipt)
    requires 0 <= i < |list| && list[i].org == org == r.org && Verdict(c, list, org) == -1
    ensures Verdict(c, list[i := r], org) == -1 && LastHash(list[i := r], org) == LastHash(list, org)
            <==> && r.prevHash == list[i].prevHash && r.hash == list[i].hash
                 && (c.json(PayloadOf(r)) == c.json(PayloadOf(list[i])) || ClashAt(c, list, i, list[i := r], i))
  {
    RewriteVerdict(c, list, org, i, r);
    TipAfter(list, org, i, r);
    TipAfter(list, org, i, list[i]);
    assert list[i := list[i]] == list;
    FramesAtRewrite(c, list, i, r);
    VerdictMeaning(c, list, org);
    assert LinkOk(c, list, i);
  }

  /** A receipt of a verifying chain rewritten with both its hashes kept goes unseen if and only if
      everything it attests is kept, or the new content hashes to the old digest. */
  lemma ContentChangeSeen(c: Codec, list: seq<Receipt>, org: Id, i: int, r: Receipt)
    requires InjectiveJson(c) && 0 <= i < |list| && list[i].org == org == r.org && Verdict(c, list, org) == -1
    requires r.prevHash == list[i].prevHash && r.hash == list[i].hash
    ensures Verdict(c, list[i := r], org) == -1 <==> SameContent(r, list[i]) || ClashAt(c, list, i, list[i := r], i)
  {
    RewriteUnseen(c, list, org, i, r);
    TipAfter(list, org, i, r);
    TipAfter(list, org, i, list[i]);
    assert list[i := list[i]] == list;
    assert c.json(PayloadOf(r)) == c.json(PayloadOf(list[i])) <==> SameContent(r, list[i]);
  }

  // ----- the ledger: the shared list and each organization's last hash -----

  datatype Ledger = Ledger(list: seq<Receipt>, last: map<Id, string>)

  function Tip(g: Ledger, org: Id): string {
    if org in g.last then g.last[org] else ""
  }

  /** The stored form of a receipt about to be appended. */
  function Chained(c: Codec, g: Ledger, r: Receipt): Receipt {
    var prev := Tip(g, r.org);
    r.(prevHash := prev, hash := ChainHash(c, prev, PayloadOf(r)))
  }

  function Append(c: Codec, g: Ledger, r: Receipt): Ledger {
    var s := Chained(c, g, r);
    Ledger(g.list + [s], g.last[r.org := s.hash])
  }

  function Sign(g: Ledger, r: Receipt): Ledger {
    g.(list := seq(|g.list|, i requires 0 <= i < |g.list| => SignOne(g.list[i], r)))
  }

  function SignOne(cur: Receipt, r: Receipt): Receipt {
    if cur.id == r.id && cur.org == r.org then cur.(keyId := r.keyId, signature := r.signature) else cur
  }

  ghost predicate ChainsIntact(c: Codec, g: Ledger) {
    forall org :: Verdict(c, g.list, org) == -1 && Tip(g, org) == LastHash(g.list, org)
  }

  datatype LedgerOp = DoAppend(r: Receipt) | DoSign(r: Receipt)

  function ApplyOp(c: Codec, g: Ledger, op: LedgerOp): Ledger {
    match op
    case DoAppend(r) => Append(c, g, r)
    case DoSign(r) => Sign(g, r)
  }

  function ApplyOps(c: Codec, g: Ledger, ops: seq<LedgerOp>): Ledger {
    if ops == [] then g else ApplyOp(c, ApplyOps(c, g, ops[..|ops| - 1]), ops[|ops| - 1])
  }

  lemma AppendKeepsChains(c: Codec, g: Ledger, r: Receipt)
    requires ChainsIntact(c, g)
    ensures ChainsIntact(c, Append(c, g, r))
  {
    var g' := Append(c, g, r);
    var n := |g.list|;
    assert g'.list[..n] == g.list;
    forall org ensures Verdict(c, g'.list, org) == -1 && Tip(g', org) == LastHash(g'.list, org) {
      assert Verdict(c, g.list, org) == -1 && Tip(g, org) == LastHash(g.list, org);
    }
  }

  lemma SignKeepsChains(c: Codec, g: Ledger, r: Receipt)
    ensures ChainsIntact(c, g) <==> ChainsIntact(c, Sign(g, r))
  {
    forall org
      ensures Verdict(c, Sign(g, r).list, org) == Verdict(c, g.list, org)
      ensures LastHash(Sign(g, r).list, org) == LastHash(g.list, org)
    {
      VerdictReadsChainFields(c, Sign(g, r).list, g.list, org);
    }
  }

  /** Every interleaving of appends and signature updates, by any organizations, verifies. */
  lemma {:induction false} EveryInterleavingVerifies(c: Codec, ops: seq<LedgerOp>)
    ensures ChainsIntact(c, ApplyOps(c, Ledger([], map[]), ops))
  {
    if ops != [] {
      var n := |ops| - 1;
      var g := ApplyOps(c, Ledger([], map[]), ops[..n]);
      EveryInterleavingVerifies(c, ops[..n]);
      match ops[n] {
        case DoAppend(r) => AppendKeepsChains(c, g, r);
        case DoSign(r) => SignKeepsChains(c, g, r);
      }
    }
  }
}
