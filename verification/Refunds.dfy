/** One concrete refund of the bank-servicing bundle, and that the gate allows it wherever the automatic cap has room. */
module Refunds {
  import opened Wrappers
  import opened Texts
  import opened Ordering
  import opened Json
  import opened JsonParser
  import opened JsonSafety
  import opened Money
  import Unicode
  import opened Syntax
  import opened Manifest
  import opened Canonical
  import opened Cedar
  import opened Decide
  import opened Guardrails
  import opened Binding
  import opened BankServicing
  import opened BankOracle
  import opened BankRefines
  import opened Snapshots
  import opened Ledger
  import opened GateSpec
  import opened GateLaws
  import opened Tokens
  import opened Payouts

  const AGENT := "agent"
  const ACCOUNT := "account"
  const MINOR_UNITS: nat := 20000

  /** The account the refund goes to is known and not frozen. */
  const FACT: EntityRecord := EntityRecord("Account", ACCOUNT, map["frozen" := BoolAttrValue(false)])

  /** What the agent writes: 200.00 EUR to the account. */
  function RefundJson(): Json {
    CurrenciesKnown();
    JObj(map["account_id" := JStr(ACCOUNT), "amount" := WireMoney(MINOR_UNITS, "EUR")])
  }

  const REFUND_CALL: Call := Call(AGENT, REFUND, Text(RefundJson()), [FACT])

  function RefundEnvelope(sid: string, nowMs: int): Envelope {
    Envelope(REFUND, REFUND_CALL.arguments, AGENT, sid, nowMs)
  }

  // ---- its text is short ----

  lemma {:induction false} AllDigitsPlain(s: string)
    requires AllDigits(s)
    ensures PlainText(s)
  {
  }

  lemma AmountText()
    ensures "EUR" in Exponents()
    ensures var s := DecimalText(MINOR_UNITS, "EUR"); PlainText(s) && |s| <= 128
  {
    assert Exponents()["EUR"] == 2;
    hide Exponents;
    assert Pow10(1) == 10 && Pow10(2) == 100 && Pow10(3) == 1000;
    DigitsWidth(200, 3);
    DigitsWidth(0, 2);
    AllDigitsPlain(Padded(0, 2));
    assert |Padded(0, 2)| == 2;
  }

  lemma MoneyMembers(minor: nat, currency: string)
    requires currency in Exponents()
    ensures var m := WireMoney(minor, currency).members;
      WireMoney(minor, currency).JObj? && m.Keys == {"amount", "currency"} && m["amount"] == JStr(DecimalText(minor, currency)) && m["currency"] == JStr(currency)
  {
    hide Exponents, DecimalText;
  }

  lemma PlainNames()
    ensures PlainText("amount") && PlainText("currency") && PlainText("EUR") && PlainText("account_id") && PlainText(ACCOUNT)
  {
  }

  lemma MemberLength(v: Json, k: string)
    requires v.JObj? && k in v.members && PlainText(k)
    ensures Utf8Length(MemberText(v, k)) == |k| + 3 + Utf8Length(Text(v.members[k]))
  {
    hide Text, Quote, PlainText;
    PlainQuote(k);
    Utf8Concat(Quote(k) + ":", Text(v.members[k]));
    Utf8Concat(Quote(k), ":");
    assert Utf8Length(":") == 1;
  }

  lemma OfTwo(keys: seq<string>, a: string, b: string)
    requires a != b && |keys| == |{a, b}| && forall k :: k in keys <==> k in {a, b}
    ensures keys == [a, b] || keys == [b, a]
  {
    assert |{a, b}| == 2;
    assert keys[0] in keys && keys[1] in keys && a in keys && b in keys;
  }

  lemma CommaLength(s: string, r: string)
    ensures Utf8Length("{" + (s + "," + r) + "}") == Utf8Length(s) + Utf8Length(r) + 3
  {
    Utf8Concat("{" + (s + "," + r), "}");
    Utf8Concat("{", s + "," + r);
    Utf8Concat(s + ",", r);
    Utf8Concat(s, ",");
    assert Utf8Length("{") == 1 && Utf8Length("}") == 1 && Utf8Length(",") == 1;
  }

  lemma TwoMembersText(w: Json, a: string, b: string)
    requires w.JObj? && a in w.members && b in w.members && MemberOrder(w.members) == [a, b]
    ensures Text(w) == "{" + (MemberText(w, a) + "," + MemberText(w, b)) + "}"
  {
    hide MemberText, MemberOrder;
    assert [a, b][1..] == [b];
    assert MembersText(w, [b]) == MemberText(w, b);
  }

  /** The length of an object with two members of plain names. */
  lemma TwoMembers(w: Json, a: string, b: string)
    requires w.JObj? && w.members.Keys == {a, b} && a != b && PlainText(a) && PlainText(b)
    ensures Utf8Length(Text(w)) == |a| + |b| + 9 + Utf8Length(Text(w.members[a])) + Utf8Length(Text(w.members[b]))
  {
    hide Text, MemberText, PlainText, Utf8Length;
    SortSetLength(ByUtf16, w.members.Keys);
    OfTwo(MemberOrder(w.members), a, b);
    MemberLength(w, a);
    MemberLength(w, b);
    hide MemberOrder;
    var x, y := if MemberOrder(w.members) == [a, b] then a else b, if MemberOrder(w.members) == [a, b] then b else a;
    TwoMembersText(w, x, y);
    CommaLength(MemberText(w, x), MemberText(w, y));
  }

  lemma StringLength(s: string)
    requires PlainText(s)
    ensures Utf8Length(Text(JStr(s))) == |s| + 2
  {
    PlainQuote(s);
  }

  lemma RefundMembers()
    ensures "EUR" in Exponents()
    ensures var m := RefundJson().members;
      RefundJson().JObj? && m.Keys == {"account_id", "amount"} && m["account_id"] == JStr(ACCOUNT) && m["amount"] == WireMoney(MINOR_UNITS, "EUR")
  {
    CurrenciesKnown();
    hide WireMoney, Exponents;
  }

  lemma RefundIsShort()
    ensures Utf8Length(Text(RefundJson())) <= 500
  {
    hide Exponents, DecimalText, PlainText, Text, Utf8Length, WireMoney, RefundJson;
    RefundMembers();
    AmountText();
    PlainNames();
    MoneyMembers(MINOR_UNITS, "EUR");
    var m := WireMoney(MINOR_UNITS, "EUR");
    TwoMembers(m, "amount", "currency");
    StringLength(DecimalText(MINOR_UNITS, "EUR"));
    StringLength("EUR");
    TwoMembers(RefundJson(), "account_id", "amount");
    StringLength(ACCOUNT);
  }

  lemma {:induction false} Utf8AtLeast(s: string)
    ensures |s| <= Utf8Length(s)
  {
    if s != [] { Utf8AtLeast(s[1..]); }
  }

  lemma RefundReads()
    ensures LoadsStrict(REFUND_CALL.arguments, MAX_ARGUMENTS_BYTES) == Ok(RefundJson())
    ensures |REFUND_CALL.arguments| <= MAX_ENVELOPE_TEXT
  {
    hide Exponents, WireMoney, Text, Utf8Length, LoadsStrict, RefundJson, Depth;
    RefundMembers();
    RefundIsShort();
    Utf8AtLeast(Text(RefundJson()));
    MoneyShape(MINOR_UNITS, "EUR");
    ScalarDepth(TextValue(ACCOUNT));
    DepthOfObject(RefundJson(), 1);
    ReadWire(RefundJson());
  }

  // ---- it is canonical ----

  lemma {:induction false} ArgsSucceed(t: Unicode.Tables, specs: map<string, ArgSpec>, raw: map<string, Json>, names: seq<string>)
    requires forall n :: n in names ==> n in specs && WellFormedKind(specs[n].kind)
    requires forall n :: n in names ==> n in raw && CanonicalValue(t, specs[n].kind, raw[n]).Ok?
    ensures var r := CanonicalArgs(t, specs, raw, names);
      r.Ok? && forall n :: n in names ==> n in r.value && r.value[n] == CanonicalValue(t, specs[n].kind, raw[n]).value
  {
    hide CanonicalValue, WellFormedKind;
    if names != [] { ArgsSucceed(t, specs, raw, names[1..]); }
  }

  lemma RefundValues(t: Unicode.Tables)
    ensures RefundJson().JObj? && RefundJson().members.Keys == REFUND_TOOL.args.Keys == {"account_id", "amount"}
    ensures WellFormedKind(REFUND_TOOL.args["account_id"].kind) && WellFormedKind(REFUND_TOOL.args["amount"].kind)
    ensures var raw := RefundJson().members;
      && CanonicalValue(t, REFUND_TOOL.args["account_id"].kind, raw["account_id"]) == Ok(Plain(TextValue(ACCOUNT)))
      && CanonicalValue(t, REFUND_TOOL.args["amount"].kind, raw["amount"]) == Ok(MoneyValue(Amount(MINOR_UNITS, "EUR")))
  {
    hide Exponents, WireMoney, CanonicalMoney;
    RefundMembers();
    hide RefundJson;
    RefundKind();
    WireReadsBack(Amount(MINOR_UNITS, "EUR"));
    assert IsId(ACCOUNT);
    assert REFUND_TOOL.args["amount"].kind == MoneyKind(CURRENCIES, 1, MAX_REFUND);
    assert REFUND_TOOL.args["account_id"].kind == ScalarKind(IdSpec);
  }

  /** Arguments that are all there and all canonical, one of them a text that names the resource, make an action. */
  lemma Canonicalized(t: Unicode.Tables, m: Manifest, env: Envelope, w: Json, name: string, id: string)
    requires WellFormed(m) && env.tool in m.tools && w.JObj? && w.members.Keys == m.tools[env.tool].args.Keys
    requires LoadsStrict(env.arguments, MAX_ARGUMENTS_BYTES) == Ok(w)
    requires var tool := m.tools[env.tool];
      && (forall n :: n in tool.args ==> WellFormedKind(tool.args[n].kind) && CanonicalValue(t, tool.args[n].kind, w.members[n]).Ok?)
      && tool.resource == ResourceFrom(name, None) && tool.parentType == None && name in tool.args
      && CanonicalValue(t, tool.args[name].kind, w.members[name]) == Ok(Plain(TextValue(id))) && IsResourceId(id)
    ensures var r, tool := Canonicalize(t, m, env), m.tools[env.tool];
      && r.Ok? && r.value.resourceId == id
      && forall n :: n in tool.args ==> n in r.value.args && CanonicalValue(t, tool.args[n].kind, w.members[n]) == Ok(r.value.args[n])
  {
    hide WellFormed, Canonicalize, CanonicalValue, CanonicalArgs, LoadsStrict, WellFormedKind, SortedKeys, IsResourceId;
    var tool := m.tools[env.tool];
    var names := SortedKeys(tool.args.Keys);
    ArgsSucceed(t, tool.args, w.members, names);
    CanonicalizeParsed(t, m, env, w);
  }

  lemma RefundCanonical(b: Bundle, sid: string, nowMs: int)
    requires Bank(b) && WellFormed(b.manifest)
    ensures var r := Canonicalize(b.tables, b.manifest, RefundEnvelope(sid, nowMs));
      && r.Ok? && r.value.resourceId == ACCOUNT && "amount" in r.value.args
      && r.value.args["amount"] == MoneyValue(Amount(MINOR_UNITS, "EUR"))
  {
    hide WellFormed, TOOLS, POLICIES, CONFIG, REFUND_TOOL, Canonicalize, CanonicalValue, LoadsStrict, WellFormedKind, RefundJson;
    RefundReads();
    RefundValues(b.tables);
    RefundToolShape();
    AccountNames();
    Canonicalized(b.tables, b.manifest, RefundEnvelope(sid, nowMs), RefundJson(), "account_id", ACCOUNT);
  }

  lemma AccountNames()
    ensures IsResourceId(ACCOUNT) && IsId(ACCOUNT) && IsId(AGENT)
  {
  }

  lemma RefundToolShape()
    ensures REFUND_TOOL.resource == ResourceFrom("account_id", None) && REFUND_TOOL.parentType == None
    ensures TOOLS[REFUND] == REFUND_TOOL && BANK_MANIFEST.tools == TOOLS && REFUND in TOOLS
  {
  }

  // ---- it is allowed where the automatic cap has room ----

  /** An opened session in which this much is committed or reserved. */
  predicate Spending(s: LedgerState, sid: string, spent: nat) {
    && s.sessionId == sid && IsId(sid) && s.principal.Some? && s.number <= MAX_SAFE_INT
    && s.labels <= {PRIVATE_DATA, UNTRUSTED_INPUT} && (forall h :: h in s.approvals ==> IsHash(h))
    && Counters(s) == map[REFUNDED := spent]
  }

  function RefundSnapshot(s: LedgerState, spent: nat): Snapshot {
    Snapshot(s.sessionId, s.number, s.labels, map[REFUNDED := spent], s.approvals, [FACT])
  }

  lemma OneFact(e: EntityRecord)
    requires ValidRecord(e)
    ensures SortFacts([e]) == [e] && StrictlySorted([e]) && ValidFacts([e])
  {
    hide ValidRecord;
    assert [e][..0] == [] && SortFacts([]) == [] && InsertFact(e, []) == [e];
  }

  lemma FactIsValid()
    ensures SortFacts([FACT]) == [FACT] && StrictlySorted([FACT]) && ValidFacts([FACT]) && IsName(REFUNDED)
  {
    assert IsType("Account") && IsName("frozen") && IsId(ACCOUNT);
    assert ValidRecord(FACT);
    hide ValidRecord, FACT, SortFacts, StrictlySorted, ValidFacts;
    OneFact(FACT);
  }

  lemma OneChecked(m: Manifest, e: EntityRecord, name: string)
    requires e.kind in m.snapshotTypes && m.snapshotTypes[e.kind] == map[name := BoolAttr] && e.attrs == map[name := BoolAttrValue(false)]
    ensures CheckEntities(m, [e]) == None
  {
    assert [e][1..] == [];
    assert CheckEntities(m, []) == None;
  }

  lemma FactIsChecked()
    ensures CheckEntities(BANK_MANIFEST, [FACT]) == None && AccountOf([FACT], ACCOUNT) == Active
  {
    hide CheckEntities, TOOLS;
    OneChecked(BANK_MANIFEST, FACT, "frozen");
    Unfrozen("frozen");
  }

  lemma Unfrozen(name: string)
    ensures map[name := BoolAttrValue(false)] != map[name := BoolAttrValue(true)]
  {
    assert map[name := BoolAttrValue(false)][name] != map[name := BoolAttrValue(true)][name];
  }

  lemma LabelNames()
    ensures IsName(PRIVATE_DATA) && IsName(UNTRUSTED_INPUT) && BANK_MANIFEST.labels == {PRIVATE_DATA, UNTRUSTED_INPUT}
  {
    hide TOOLS;
  }

  lemma SnapshotBuilt(s: LedgerState, sid: string, spent: nat)
    requires Spending(s, sid, spent) && spent <= MAX_SAFE_INT
    ensures SnapshotOf(s, [FACT]) == Ok(RefundSnapshot(s, spent))
  {
    hide Counters, SortFacts, StrictlySorted, ValidFacts, IsName, IsId, IsHash, AccountOf, CheckEntities, BANK_MANIFEST;
    FactIsValid();
    LabelNames();
  }

  lemma SnapshotChecks(s: LedgerState, spent: nat)
    requires spent <= MAX_REFUND && s.labels <= {PRIVATE_DATA, UNTRUSTED_INPUT}
    ensures CheckSnapshot(BANK_MANIFEST, RefundSnapshot(s, spent)) == None
  {
    hide CheckEntities, AccountOf, SortFacts, StrictlySorted, ValidFacts, TOOLS, IsName;
    FactIsChecked();
    LabelNames();
    assert BANK_MANIFEST.counters == map[REFUNDED := MAX_REFUND];
  }

  function CanonicalRefund(b: Bundle, sid: string): Action
    requires Bank(b) && WellFormed(b.manifest)
  {
    RefundCanonical(b, sid, 0);
    Canonicalize(b.tables, b.manifest, RefundEnvelope(sid, 0)).value
  }

  function RefundHash(b: Bundle, sid: string): string
    requires Bank(b) && WellFormed(b.manifest)
  {
    ActionHash(b, CanonicalRefund(b, sid))
  }

  /** The time of the call is no part of the action. */
  lemma SameAction(b: Bundle, sid: string, nowMs: int)
    requires Bank(b) && WellFormed(b.manifest)
    ensures Canonicalize(b.tables, b.manifest, RefundEnvelope(sid, nowMs)) == Ok(CanonicalRefund(b, sid))
  {
    hide Bank, WellFormed, CanonicalArgs, LoadsStrict, SortedKeys, ResourceId, Parents, IsResourceId;
    RefundCanonical(b, sid, nowMs);
    RefundCanonical(b, sid, 0);
  }

  lemma BankManifest(b: Bundle)
    requires Bank(b)
    ensures b.manifest == BANK_MANIFEST
  {
    hide BANK_MANIFEST, POLICIES, CONFIG;
  }

  lemma RefundReaches(b: Bundle, s: LedgerState, nowMs: int, spent: nat)
    requires Bank(b) && WellFormed(b.manifest) && spent <= MAX_REFUND && s.labels <= {PRIVATE_DATA, UNTRUSTED_INPUT}
    ensures Reaches(RefundEnvelope(s.sessionId, nowMs), RefundSnapshot(s, spent), b)
  {
    hide Bank, WellFormed, Canonicalize, CheckSnapshot, BANK_MANIFEST, TOOLS, POLICIES, CONFIG, REFUND_TOOL, FACT, REFUND_CALL;
    SnapshotChecks(s, spent);
    RefundCanonical(b, s.sessionId, nowMs);
    BankManifest(b);
  }

  lemma RefundJudged(b: Bundle, s: LedgerState, nowMs: int, spent: nat)
    requires Bank(b) && WellFormed(b.manifest) && spent + MINOR_UNITS <= 50000 && s.labels <= {PRIVATE_DATA, UNTRUSTED_INPUT}
    ensures var ruling := Judge(RefundEnvelope(s.sessionId, nowMs), RefundSnapshot(s, spent), b);
      ruling.verdict == ALLOW && ruling.actionHash == Some(RefundHash(b, s.sessionId))
  {
    hide Bank, WellFormed, Judge, Canonicalize, CheckSnapshot, AccountOf, ActionHash, BANK_MANIFEST, CanonicalRefund, TOOLS, POLICIES,
         CONFIG, REFUND_TOOL, FACT, REFUND_CALL;
    FactIsChecked();
    RefundCanonical(b, s.sessionId, nowMs);
    SameAction(b, s.sessionId, nowMs);
    RefundReaches(b, s, nowMs, spent);
    RefundRefines(RefundEnvelope(s.sessionId, nowMs), RefundSnapshot(s, spent), b);
  }

  lemma RefundReserves(c: Config, sid: string, nowMs: int)
    requires Bank(c.bundle) && WellFormed(c.bundle.manifest)
    ensures BudgetOf(RefundEnvelope(sid, nowMs), c.bundle) == map[REFUNDED := MINOR_UNITS]
  {
    hide Bank, WellFormed, Canonicalize, BudgetOf, TOOLS;
    RefundCanonical(c.bundle, sid, nowMs);
    BudgetIsDeclared(c, RefundEnvelope(sid, nowMs));
    RefundToolShape();
    BankManifest(c.bundle);
    assert REFUND_TOOL.budget == Some(Budget(REFUNDED, "amount"));
  }

  // ---- submitting it ----

  function RefundToken(c: Config, sid: string, number: int, nowMs: int): TokenPayload
    requires Bank(c.bundle) && WellFormed(c.bundle.manifest)
  {
    TokenPayload(RefundHash(c.bundle, sid), nowMs + c.ttlMs, number, sid)
  }

  /** The state after the refund was allowed at this position. */
  function WithRefund(s: LedgerState, r: Reservation): LedgerState {
    s.(number := s.number + 2, reserved := Insert(r, s.reserved))
  }

  lemma AppendDecided(v: View, body: Body, names: set<string>)
    requires body.Decided? && v.state.principal.Some? && v.state.number == |v.log| <= MAX_SAFE_INT
    ensures Append(v, body, names) == Ok(View(v.state.(number := v.state.number + 1), v.log + [body]))
  {
  }

  lemma AppendReserved(v: View, r: Reservation, names: set<string>)
    requires v.state.principal.Some? && v.state.number == |v.log| <= MAX_SAFE_INT
    requires IsHash(r.actionHash) && r.id >= 0 && Find(v.state.reserved, r.id).None? && SafeNat(r.expiresMs) && SafeDeltas(r.deltas, names)
    ensures var body := Body.Reserved(r.actionHash, r.deltas, r.expiresMs, r.id);
      Append(v, body, names) == Ok(View(v.state.(number := v.state.number + 1, reserved := Insert(r, v.state.reserved)), v.log + [body]))
  {
    hide IsHash, SafeNat, SafeDeltas;
  }

  /** The call is allowed without an approval, and this is what it reserves. */
  predicate Allows(c: Config, v: View, call: Call, nowMs: int, s: Snapshot, r: Reservation)
    requires WellFormed(c.bundle.manifest)
  {
    var env := EnvelopeOf(v, call, nowMs);
    && SnapshotOf(v.state, call.facts) == Ok(s) && r.actionHash !in s.approvals && ValidEnvelope(env)
    && Judge(env, s, c.bundle).verdict == ALLOW && Judge(env, s, c.bundle).actionHash == Some(r.actionHash)
    && BudgetOf(env, c.bundle) == r.deltas && r.id == |v.log| && r.expiresMs == nowMs + c.ttlMs
    && IsHash(r.actionHash) && SafeNat(r.expiresMs) && SafeDeltas(r.deltas, CounterNames(c))
  }

  /** The events and the token of such a call. */
  lemma AllowedSubmits(c: Config, v: View, call: Call, nowMs: int, s: Snapshot, r: Reservation)
    requires WellFormed(c.bundle.manifest) && Allows(c, v, call, nowMs, s, r)
    requires v.state.principal.Some? && v.state.number == |v.log| < MAX_SAFE_INT && Find(v.state.reserved, |v.log|).None?
    ensures var reply := SubmitStep(v, call, nowMs, c);
      && reply.result.Ok? && reply.result.value.token == Some(TokenPayload(r.actionHash, r.expiresMs, r.id, v.state.sessionId))
      && reply.view.state == WithRefund(v.state, r)
      && |reply.view.log| == |v.log| + 2 && v.log <= reply.view.log
      && reply.view.log[|v.log|].Decided? && reply.view.log[|v.log|].envelope == EnvelopeOf(v, call, nowMs)
      && reply.view.log[|v.log| + 1] == Body.Reserved(r.actionHash, r.deltas, r.expiresMs, r.id)
  {
    hide WellFormed, Judge, BudgetOf, GateSpec.Append, Find, Insert, SnapshotOf, SnapshotHash, InputHash, Digest, IsHash, SafeDeltas,
         SafeNat, CounterNames, ValidEnvelope, Apply;
    var env := EnvelopeOf(v, call, nowMs);
    var body := Decided(Decide.Decide(env, s, c.bundle), env, call.facts);
    AppendDecided(v, body, CounterNames(c));
    AppendReserved(GateSpec.Append(v, body, CounterNames(c)).value, r, CounterNames(c));
  }

  lemma RefundEnvelopes(c: Config, sid: string, v: View, nowMs: int)
    requires v.state.sessionId == sid && IsId(sid) && SafeNat(nowMs)
    ensures EnvelopeOf(v, REFUND_CALL, nowMs) == RefundEnvelope(sid, nowMs) && ValidEnvelope(RefundEnvelope(sid, nowMs))
    ensures REFUND_CALL.facts == [FACT]
  {
    hide IsId, RefundJson, Text, FACT;
    RefundReads();
    AccountNames();
    assert |REFUND| <= MAX_TOOL;
  }

  function RefundReservation(c: Config, sid: string, number: int, nowMs: int): Reservation
    requires Bank(c.bundle) && WellFormed(c.bundle.manifest)
  {
    Reservation(number, RefundHash(c.bundle, sid), map[REFUNDED := MINOR_UNITS], nowMs + c.ttlMs)
  }

  lemma RefundAllows(c: Config, sid: string, v: View, nowMs: int, spent: nat)
    requires ValidConfig(c) && WellFormed(c.bundle.manifest) && Bank(c.bundle)
    requires Spending(v.state, sid, spent) && spent + MINOR_UNITS <= 50000 && v.state.number == |v.log| < MAX_SAFE_INT
    requires RefundHash(c.bundle, sid) !in v.state.approvals
    requires SafeNat(nowMs) && SafeNat(nowMs + c.ttlMs)
    ensures Allows(c, v, REFUND_CALL, nowMs, RefundSnapshot(v.state, spent), RefundReservation(c, sid, |v.log|, nowMs))
  {
    hide Bank, WellFormed, ValidConfig, Counters, Judge, RefundHash, BudgetOf, SnapshotOf, IsHash, SafeDeltas, IsId, CounterNames,
         EnvelopeOf, ValidEnvelope, TOOLS, POLICIES, CONFIG, BANK_MANIFEST, REFUND_TOOL, FACT, REFUND_CALL, SafeNat, RefundEnvelope;
    SnapshotBuilt(v.state, sid, spent);
    RefundEnvelopes(c, sid, v, nowMs);
    RefundJudged(c.bundle, v.state, nowMs, spent);
    RefundReserves(c, sid, nowMs);
    RefundNames(c);
    ConfigSpells(c, sid);
  }

  /**
   * In any opened session whose automatic cap has room and in which no approval of it stands, the refund is allowed and its
   * token names the reservation just recorded.
   */
  lemma RefundSubmits(c: Config, sid: string, v: View, nowMs: int, spent: nat)
    requires ValidConfig(c) && WellFormed(c.bundle.manifest) && Bank(c.bundle)
    requires Spending(v.state, sid, spent) && spent + MINOR_UNITS <= 50000 && v.state.number == |v.log| < MAX_SAFE_INT
    requires RefundHash(c.bundle, sid) !in v.state.approvals
    requires Find(v.state.reserved, |v.log|).None? && SafeNat(nowMs) && SafeNat(nowMs + c.ttlMs)
    ensures var p, r := RefundToken(c, sid, |v.log|, nowMs), RefundReservation(c, sid, |v.log|, nowMs);
      var reply := SubmitStep(v, REFUND_CALL, nowMs, c);
      && reply.result.Ok? && reply.result.value.token == Some(p) && reply.view.state == WithRefund(v.state, r)
      && |reply.view.log| == |v.log| + 2 && v.log <= reply.view.log
      && reply.view.log[|v.log|].Decided? && reply.view.log[|v.log|].envelope == RefundEnvelope(sid, nowMs)
      && reply.view.log[|v.log| + 1] == Body.Reserved(p.actionHash, r.deltas, p.expiresMs, |v.log|)
  {
    hide Bank, WellFormed, ValidConfig, Allows, RefundHash, SubmitStep, Find, WithRefund, IsId, TOOLS, POLICIES, CONFIG, BANK_MANIFEST,
         FACT, REFUND_CALL, EnvelopeOf, RefundEnvelope, Counters;
    RefundAllows(c, sid, v, nowMs, spent);
    RefundEnvelopes(c, sid, v, nowMs);
    AllowedSubmits(c, v, REFUND_CALL, nowMs, RefundSnapshot(v.state, spent), RefundReservation(c, sid, |v.log|, nowMs));
  }

  lemma RefundNames(c: Config)
    requires Bank(c.bundle)
    ensures SafeDeltas(map[REFUNDED := MINOR_UNITS], CounterNames(c))
  {
  }

  lemma HashSpelled(b: Bundle, sid: string)
    requires ValidBundle(b) && WellFormed(b.manifest) && Bank(b)
    ensures IsHash(RefundHash(b, sid))
  {
    hide WellFormed, Bank, CanonicalRefund, ActionJson, IsHash;
  }

  lemma ConfigSpells(c: Config, sid: string)
    requires ValidConfig(c) && WellFormed(c.bundle.manifest) && Bank(c.bundle)
    ensures IsHash(RefundHash(c.bundle, sid))
  {
    hide WellFormed, Bank, IsHash, RefundHash;
    HashSpelled(c.bundle, sid);
  }
}
