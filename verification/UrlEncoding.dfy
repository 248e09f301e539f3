/** Percent-encoding of form bodies sent to payment providers: the encoder, a decoder
    that undoes it, and the split that recovers a whole form from its joined text. */
module UrlEncoding {

  newtype Byte = b: int | 0 <= b < 256

  type Bytes = seq<Byte>

  const AMP: Byte := 38
  const EQUALS: Byte := 61
  const PERCENT: Byte := 37

  /** Section 2.3 of RFC 3986: letters, digits, hyphen, underscore, period, tilde. */
  predicate Unreserved(c: Byte) {
    || 97 <= c <= 122
    || 65 <= c <= 90
    || 48 <= c <= 57
    || c == 45 || c == 95 || c == 46 || c == 126
  }

  predicate UpperHex(c: Byte) {
    48 <= c <= 57 || 65 <= c <= 70
  }

  function HexDigit(n: Byte): (c: Byte)
    requires n < 16
    ensures UpperHex(c) && HexValue(c) == n
  {
    if n < 10 then 48 + n else 55 + n
  }

  function HexValue(c: Byte): (n: Byte)
    requires UpperHex(c)
    ensures n < 16
  {
    if c <= 57 then c - 48 else c - 55
  }

  function EncodeByte(c: Byte): Bytes {
    if Unreserved(c) then [c] else [PERCENT, HexDigit(c / 16), HexDigit(c % 16)]
  }

  const HEX := "0123456789ABCDEF"

  /** A byte is kept if it is a letter, a digit or one of the four marks; any other becomes a percent
      sign and its two hexadecimal digits in capitals. */
  lemma EncodedByValue(c: Byte)
    ensures var ch := c as char;
            EncodeByte(c) == if 'A' <= ch <= 'Z' || 'a' <= ch <= 'z' || '0' <= ch <= '9' || ch in {'-', '_', '.', '~'} then [c]
                             else ['%' as Byte, HEX[c / 16] as Byte, HEX[c % 16] as Byte]
  {
    assert forall n: Byte :: n < 16 ==> HexDigit(n) as char == HEX[n];
  }

  function Encode(s: Bytes): Bytes {
    if s == [] then [] else Encode(s[..|s| - 1]) + EncodeByte(s[|s| - 1])
  }

  /** Reads one triplet or one literal byte at a time; total on every byte string. */
  function Decode(t: Bytes): Bytes {
    if t == [] then []
    else if t[0] == PERCENT && |t| >= 3 && UpperHex(t[1]) && UpperHex(t[2]) then
      [TripletValue(t[1], t[2])] + Decode(t[3..])
    else
      [t[0]] + Decode(t[1..])
  }

  function TripletValue(hi: Byte, lo: Byte): Byte
    requires UpperHex(hi) && UpperHex(lo)
  {
    HexValue(hi) * 16 + HexValue(lo)
  }

  /** Only unreserved bytes and complete upper-case triplets (section 2.1 of RFC 3986). */
  predicate WellFormed(t: Bytes) {
    || t == []
    || (Unreserved(t[0]) && WellFormed(t[1..]))
    || (|t| >= 3 && t[0] == PERCENT && UpperHex(t[1]) && UpperHex(t[2]) && WellFormed(t[3..]))
  }

  method UrlEncode(s: Bytes) returns (t: Bytes)
    ensures t == Encode(s)
    ensures WellFormed(t) && Decode(t) == s
  {
    t := [];
    var i := 0;
    while i < |s|
      invariant 0 <= i <= |s|
      invariant t == Encode(s[..i])
    {
      var c := s[i];
      assert s[..i + 1][..i] == s[..i];
      if 97 <= c <= 122 || 65 <= c <= 90 || 48 <= c <= 57 || c == 45 || c == 95 || c == 46 || c == 126 {
        t := t + [c];
      } else {
        t := t + [PERCENT, HexDigit(c / 16), HexDigit(c % 16)];
      }
      i := i + 1;
    }
    assert s[..i] == s;
    DecodeEncode(s);
  }

  lemma {:induction false} EncodeByteRoundTrip(c: Byte, t: Bytes)
    ensures Decode(EncodeByte(c) + t) == [c] + Decode(t)
    ensures WellFormed(t) ==> WellFormed(EncodeByte(c) + t)
  {
    var e := EncodeByte(c);
    if Unreserved(c) {
      assert (e + t)[1..] == t;
    } else {
      assert (e + t)[3..] == t;
    }
  }

  lemma EncodeSnoc(s: Bytes, rest: Bytes)
    requires s != []
    ensures Encode(s) + rest == Encode(s[..|s| - 1]) + (EncodeByte(s[|s| - 1]) + rest)
  {
  }

  /** The decoder undoes the encoder even when more text follows. */
  lemma {:induction false} EncodeRoundTrip(s: Bytes, rest: Bytes)
    ensures Decode(Encode(s) + rest) == s + Decode(rest)
    ensures WellFormed(rest) ==> WellFormed(Encode(s) + rest)
  {
    if s == [] {
      assert Encode(s) + rest == rest;
    } else {
      var n := |s| - 1;
      var last := EncodeByte(s[n]) + rest;
      EncodeByteRoundTrip(s[n], rest);
      EncodeRoundTrip(s[..n], last);
      EncodeSnoc(s, rest);
      SnocAgain(s, Decode(rest));
      assert Decode(last) == [s[n]] + Decode(rest);
    }
  }

  lemma SnocAgain(s: Bytes, tail: Bytes)
    requires s != []
    ensures s[..|s| - 1] + ([s[|s| - 1]] + tail) == s + tail
  {
  }

  lemma DecodeEncode(s: Bytes)
    ensures Decode(Encode(s)) == s
    ensures WellFormed(Encode(s))
  {
    EncodeRoundTrip(s, []);
    assert Encode(s) + [] == Encode(s);
    assert s + Decode([]) == s;
  }

  lemma EncodeInjective(s: Bytes, t: Bytes)
    ensures Encode(s) == Encode(t) <==> s == t
  {
    DecodeEncode(s);
    DecodeEncode(t);
  }

  lemma {:induction false} EncodeHasNoSeparators(s: Bytes)
    ensures AMP !in Encode(s) && EQUALS !in Encode(s)
  {
    if s != [] {
      EncodeHasNoSeparators(s[..|s| - 1]);
    }
  }

  // ----- whole forms -----

  type Form = map<Bytes, Bytes>

  function Pair(k: Bytes, v: Bytes): Bytes {
    Encode(k) + [EQUALS] + Encode(v)
  }

  function Join(parts: seq<Bytes>): Bytes {
    if |parts| == 0 then []
    else if |parts| == 1 then parts[0]
    else parts[0] + [AMP] + Join(parts[1..])
  }

  /** The order in which a map happened to be ranged over. */
  ghost predicate IsOrderOf(order: seq<Bytes>, keys: set<Bytes>) {
    && (forall k :: k in order <==> k in keys)
    && (forall i, j :: 0 <= i < j < |order| ==> order[i] != order[j])
  }

  function Pairs(order: seq<Bytes>, form: Form): seq<Bytes>
    requires forall k :: k in order ==> k in form
  {
    seq(|order|, i requires 0 <= i < |order| => Pair(order[i], form[order[i]]))
  }

  method UrlValues(form: Form) returns (text: Bytes, ghost order: seq<Bytes>)
    ensures IsOrderOf(order, form.Keys)
    ensures text == Join(Pairs(order, form))
    ensures ParseForm(text) == form
  {
    var parts: seq<Bytes> := [];
    var left := form.Keys;
    order := [];
    while left != {}
      invariant left <= form.Keys
      invariant IsOrderOf(order, form.Keys - left)
      invariant parts == Pairs(order, form)
      decreases |left|
    {
      var k :| k in left;
      var key := UrlEncode(k);
      var value := UrlEncode(form[k]);
      parts := parts + [key + [EQUALS] + value];
      order := order + [k];
      left := left - {k};
    }
    text := Join(parts);
    FormRoundTrip(order, form);
  }

  function Find(t: Bytes, c: Byte): (i: nat)
    ensures i <= |t|
    ensures c !in t[..i]
    ensures i < |t| ==> t[i] == c
  {
    if t == [] || t[0] == c then 0
    else
      var j := Find(t[1..], c);
      assert t[..j + 1] == [t[0]] + t[1..][..j];
      j + 1
  }

  function Split(t: Bytes): seq<Bytes>
    decreases |t|
  {
    var i := Find(t, AMP);
    if i == |t| then [t] else [t[..i]] + Split(t[i + 1..])
  }

  function ParsePair(p: Bytes): (Bytes, Bytes) {
    var i := Find(p, EQUALS);
    (Decode(p[..i]), if i == |p| then [] else Decode(p[i + 1..]))
  }

  function ParsePairs(parts: seq<Bytes>): Form {
    if parts == [] then map[]
    else
      var (k, v) := ParsePair(parts[0]);
      ParsePairs(parts[1..])[k := v]
  }

  function ParseForm(t: Bytes): Form {
    if t == [] then map[] else ParsePairs(Split(t))
  }

  lemma FindAfter(a: Bytes, c: Byte, b: Bytes)
    requires c !in a
    ensures Find(a + [c] + b, c) == |a|
  {
    var t := a + [c] + b;
    var i := Find(t, c);
    assert forall j :: 0 <= j < |a| ==> t[j] == a[j];
    assert t[|a|] == c;
    assert forall j :: 0 <= j < i ==> t[j] == t[..i][j];
  }

  lemma FindAbsent(a: Bytes, c: Byte)
    requires c !in a
    ensures Find(a, c) == |a|
  {
  }

  lemma ParsePairRoundTrip(k: Bytes, v: Bytes)
    ensures ParsePair(Pair(k, v)) == (k, v)
    ensures AMP !in Pair(k, v) && Pair(k, v) != []
  {
    EncodeHasNoSeparators(k);
    EncodeHasNoSeparators(v);
    FindAfter(Encode(k), EQUALS, Encode(v));
    var p := Pair(k, v);
    assert p[..|Encode(k)|] == Encode(k) && p[|Encode(k)| + 1..] == Encode(v);
    DecodeEncode(k);
    DecodeEncode(v);
  }

  lemma {:induction false} SplitJoin(parts: seq<Bytes>)
    requires parts != []
    requires forall p :: p in parts ==> AMP !in p
    ensures Split(Join(parts)) == parts
  {
    assert parts[0] in parts;
    if |parts| == 1 {
      FindAbsent(parts[0], AMP);
    } else {
      var rest := Join(parts[1..]);
      FindAfter(parts[0], AMP, rest);
      var t := parts[0] + [AMP] + rest;
      assert t[..|parts[0]|] == parts[0] && t[|parts[0]| + 1..] == rest;
      SplitJoin(parts[1..]);
      assert parts == [parts[0]] + parts[1..];
    }
  }

  lemma {:induction false} ParsePairsRoundTrip(order: seq<Bytes>, form: Form)
    requires forall k :: k in order ==> k in form
    requires forall i, j :: 0 <= i < j < |order| ==> order[i] != order[j]
    ensures ParsePairs(Pairs(order, form)) == map k | k in form && k in order :: form[k]
  {
    var parts := Pairs(order, form);
    if order != [] {
      var tail := order[1..];
      assert parts[1..] == Pairs(tail, form);
      ParsePairsRoundTrip(tail, form);
      ParsePairRoundTrip(order[0], form[order[0]]);
      assert order == [order[0]] + tail;
    }
  }

  /** Whatever order the map was ranged over, the joined text parses back to the map. */
  lemma FormRoundTrip(order: seq<Bytes>, form: Form)
    requires IsOrderOf(order, form.Keys)
    ensures ParseForm(Join(Pairs(order, form))) == form
  {
    var parts := Pairs(order, form);
    if order == [] {
      assert form.Keys == {};
      assert form == map[];
    } else {
      forall p | p in parts ensures AMP !in p && p != [] {
        var i :| 0 <= i < |parts| && parts[i] == p;
        ParsePairRoundTrip(order[i], form[order[i]]);
      }
      assert parts[0] in parts;
      SplitJoin(parts);
      ParsePairsRoundTrip(order, form);
    }
  }
}
