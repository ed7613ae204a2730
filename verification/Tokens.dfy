/** Execution tokens: a signed canonical payload that redeems once and expires. */
module Tokens {
  import opened Wrappers
  import opened Texts
  import opened Ordering
  import opened Json
  import opened JsonParser
  import opened JsonRoundTrip
  import opened Syntax
  import opened Snapshots
  import opened GateSpec
  import opened Chain

  const TOKEN_DOMAIN := "dag/token/v1\0"
  const MAX_TOKEN_BYTES: nat := 4096

  /** A token's decoded parts: the signed bytes and the signature over them. */
  datatype Token = Token(body: string, signature: string)

  predicate ValidPayload(p: TokenPayload) {
    IsHash(p.actionHash) && IsId(p.sessionId) && SafeNat(p.expiresMs) && p.reservation >= 0
  }

  const PAYLOAD_KEYS: set<string> := {"action_hash", "expires_ms", "reservation", "session_id"}

  function PayloadJson(p: TokenPayload): (v: Json)
    ensures v.JObj?
  {
    JObj(map["action_hash" := JStr(p.actionHash), "expires_ms" := JInt(p.expiresMs), "reservation" := JInt(p.reservation),
             "session_id" := JStr(p.sessionId)])
  }

  function ReadPayload(v: Json): Result<TokenPayload> {
    if !v.JObj? || v.members.Keys != PAYLOAD_KEYS then Err("bad_token_payload")
    else
      var hash, expires, id, session :=
        v.members["action_hash"], v.members["expires_ms"], v.members["reservation"], v.members["session_id"];
      if !hash.JStr? || !session.JStr? || !expires.JInt? || !id.JInt? then Err("bad_token_payload")
      else
        var p := TokenPayload(hash.s, expires.n, id.n, session.s);
        if ValidPayload(p) then Ok(p) else Err("bad_token_payload")
  }

  /** The signature is a pure function of the payload and the key. */
  function Mint(sign: Sign, p: TokenPayload): Token {
    var body := Text(PayloadJson(p));
    Token(body, sign(TOKEN_DOMAIN + body))
  }

  function Verify(sign: Sign, t: Token, nowMs: int): Result<TokenPayload> {
    if t.signature != sign(TOKEN_DOMAIN + t.body) then Err("bad_signature")
    else match LoadsStrict(t.body, MAX_TOKEN_BYTES)
      case Err(_) => Err("malformed_token")
      case Ok(v) =>
        var p :- ReadPayload(v);
        if Jcs(PayloadJson(p)) != Ok(t.body) then Err("non_canonical_token")
        else if nowMs > p.expiresMs then Err("token_expired")
        else Ok(p)
  }

  // ---- a payload's text is short ----

  lemma {:induction false} SortSetLength(o: Order, s: set<string>)
    ensures |SortSet(o, s)| == |s|
    decreases |s|
  {
    if s != {} { SortSetLength(o, s - {Least(o, s)}); }
  }

  lemma {:induction false} Utf8Concat(a: string, b: string)
    ensures Utf8Length(a + b) == Utf8Length(a) + Utf8Length(b)
  {
    if a == [] {
      assert a + b == b;
    } else {
      Utf8Concat(a[1..], b);
      assert (a + b)[1..] == a[1..] + b;
    }
  }

  predicate PlainText(s: string) {
    forall i :: 0 <= i < |s| ==> ' ' <= s[i] < '\U{7F}' && s[i] != '"' && s[i] != '\\'
  }

  lemma {:induction false} PlainEscape(s: string)
    requires PlainText(s)
    ensures Escape(s) == s && Utf8Length(s) == |s|
  {
    if s != [] {
      PlainEscape(s[1..]);
      assert s == [s[0]] + s[1..];
    }
  }

  lemma PlainQuote(s: string)
    requires PlainText(s)
    ensures Utf8Length(Quote(s)) == |s| + 2
  {
    PlainEscape(s);
    Utf8Concat("\"" + s, "\"");
    Utf8Concat("\"", s);
    assert Utf8Length("\"") == 1;
  }

  lemma IdIsPlain(s: string)
    requires IsId(s)
    ensures PlainText(s) && |s| <= 128
  {
    hide Escape;
  }

  lemma HashIsPlain(s: string)
    requires IsHash(s)
    ensures PlainText(s) && |s| == 71
  {
    forall i | 0 <= i < |s| ensures ' ' <= s[i] < '\U{7F}' && s[i] != '"' && s[i] != '\\' {
      if i < 7 { assert s[i] == s[..7][i]; }
    }
  }

  lemma {:induction false} DigitsWidth(n: nat, k: nat)
    requires n < Pow10(k) && k > 0
    ensures |Digits(n)| <= k && PlainText(Digits(n))
    decreases n
  {
    if n >= 10 {
      assert k > 1;
      DigitsWidth(n / 10, k - 1);
    }
  }

  lemma SafeDigits(n: nat)
    requires n <= MAX_SAFE_INT
    ensures Utf8Length(IntText(n)) <= 16
  {
    assert Pow10(4) == 10000 && Pow10(8) == 100000000;
    assert Pow10(16) == 10000000000000000;
    DigitsWidth(n, 16);
    PlainEscape(Digits(n));
  }

  predicate ShortMember(v: Json, k: string)
    requires v.JObj? && k in v.members
  {
    Utf8Length(MemberText(v, k)) <= 200 && Depth(v.members[k]) == 0
  }

  lemma LeafText(v: Json)
    requires v.JStr? || v.JInt?
    ensures Text(v) == (if v.JStr? then Quote(v.s) else IntText(v.n)) && Depth(v) == 0
  {
  }

  lemma ShortStringMember(v: Json, k: string)
    requires v.JObj? && k in v.members && v.members[k].JStr?
    requires PlainText(k) && |k| <= 20 && PlainText(v.members[k].s) && |v.members[k].s| <= 128
    ensures ShortMember(v, k)
  {
    hide Quote, PlainText, Text, Depth;
    PlainQuote(k);
    PlainQuote(v.members[k].s);
    LeafText(v.members[k]);
    Utf8Concat(Quote(k) + ":", Quote(v.members[k].s));
    Utf8Concat(Quote(k), ":");
    assert Utf8Length(":") == 1;
  }

  lemma ShortIntMember(v: Json, k: string)
    requires v.JObj? && k in v.members && v.members[k].JInt? && SafeNat(v.members[k].n)
    requires PlainText(k) && |k| <= 20
    ensures ShortMember(v, k)
  {
    hide Quote, IntText, PlainText, Text, Depth;
    PlainQuote(k);
    SafeDigits(v.members[k].n);
    LeafText(v.members[k]);
    Utf8Concat(Quote(k) + ":", IntText(v.members[k].n));
    Utf8Concat(Quote(k), ":");
    assert Utf8Length(":") == 1;
  }

  lemma {:induction false} ShortMembers(v: Json, keys: seq<string>)
    requires v.JObj? && forall k :: k in keys ==> k in v.members && ShortMember(v, k)
    ensures Utf8Length(MembersText(v, keys)) <= 201 * |keys| && DepthMembers(v, keys) <= 1
    decreases |keys|
  {
    hide MemberText;
    if |keys| > 1 {
      ShortMembers(v, keys[1..]);
      Utf8Concat(MemberText(v, keys[0]) + ",", MembersText(v, keys[1..]));
      Utf8Concat(MemberText(v, keys[0]), ",");
      assert Utf8Length(",") == 1;
    } else if |keys| == 1 {
      assert keys[1..] == [];
      assert ShortMember(v, keys[0]);
    }
  }

  lemma PayloadMembers(p: TokenPayload)
    ensures var v := PayloadJson(p);
      && v.members.Keys == PAYLOAD_KEYS && |PAYLOAD_KEYS| == 4
      && v.members["action_hash"] == JStr(p.actionHash) && v.members["expires_ms"] == JInt(p.expiresMs)
      && v.members["reservation"] == JInt(p.reservation) && v.members["session_id"] == JStr(p.sessionId)
  {
    assert |{"action_hash", "expires_ms", "reservation", "session_id"}| == 4;
  }

  lemma KeysArePlain(k: string)
    requires k in PAYLOAD_KEYS
    ensures PlainText(k) && |k| <= 20
  {
  }

  lemma PayloadMembersShort(p: TokenPayload, k: string)
    requires ValidPayload(p) && p.reservation <= MAX_SAFE_INT && k in PAYLOAD_KEYS
    ensures k in PayloadJson(p).members && ShortMember(PayloadJson(p), k) && InRange(PayloadJson(p).members[k])
  {
    hide IsId, IsHash, ShortMember, PlainText;
    KeysArePlain(k);
    PayloadMembers(p);
    HashIsPlain(p.actionHash);
    IdIsPlain(p.sessionId);
    var v := PayloadJson(p);
    hide PayloadJson;
    if v.members[k].JStr? { ShortStringMember(v, k); } else { ShortIntMember(v, k); }
  }

  lemma PayloadIsShort(p: TokenPayload)
    requires ValidPayload(p) && p.reservation <= MAX_SAFE_INT
    ensures InRange(PayloadJson(p)) && Utf8Length(Text(PayloadJson(p))) <= MAX_TOKEN_BYTES
            && Depth(PayloadJson(p)) <= MAX_DEPTH
  {
    hide ValidPayload, MembersText, DepthMembers, ShortMember, PAYLOAD_KEYS;
    var v := PayloadJson(p);
    PayloadMembers(p);
    hide PayloadJson;
    forall k | k in v.members ensures ShortMember(v, k) && InRange(v.members[k]) { PayloadMembersShort(p, k); }
    var keys := MemberOrder(v.members);
    SortSetLength(ByUtf16, v.members.Keys);
    ShortMembers(v, keys);
    Utf8Concat("{" + MembersText(v, keys), "}");
    Utf8Concat("{", MembersText(v, keys));
    assert Utf8Length("{") == 1 && Utf8Length("}") == 1;
  }

  // ---- minting and verifying ----

  lemma ReadBack(p: TokenPayload)
    requires ValidPayload(p)
    ensures ReadPayload(PayloadJson(p)) == Ok(p)
  {
    hide ValidPayload;
    PayloadMembers(p);
  }

  /** A minted token verifies to its own payload until, and including, the moment it expires. */
  lemma MintedVerifies(sign: Sign, p: TokenPayload, nowMs: int)
    requires ValidPayload(p) && p.reservation <= MAX_SAFE_INT
    ensures Verify(sign, Mint(sign, p), nowMs) == if nowMs > p.expiresMs then Err("token_expired") else Ok(p)
  {
    PayloadIsShort(p);
    RoundTrip(PayloadJson(p), MAX_TOKEN_BYTES);
    ReadBack(p);
    hide ValidPayload, PayloadJson, ReadPayload, LoadsStrict, Text, InRange, Utf8Length, Depth;
  }

  /** A token that verifies is, byte for byte, the one the key mints for its payload. */
  lemma VerifiedIsMinted(sign: Sign, t: Token, nowMs: int)
    requires Verify(sign, t, nowMs).Ok?
    ensures var p := Verify(sign, t, nowMs).value; t == Mint(sign, p) && ValidPayload(p) && nowMs <= p.expiresMs
  {
    hide ValidPayload, PayloadJson, LoadsStrict, Text, InRange;
  }

  /** Different payloads never share a token. */
  lemma MintInjective(sign: Sign, p: TokenPayload, q: TokenPayload)
    requires ValidPayload(p) && ValidPayload(q) && p.reservation <= MAX_SAFE_INT && q.reservation <= MAX_SAFE_INT
    requires Mint(sign, p) == Mint(sign, q)
    ensures p == q
  {
    PayloadIsShort(p);
    PayloadIsShort(q);
    JcsInjective(PayloadJson(p), PayloadJson(q));
    PayloadMembers(p);
    PayloadMembers(q);
  }
}
