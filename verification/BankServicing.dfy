/** The bank-servicing bundle: its manifest, its configured entities and its nine policies. */
module BankServicing {
  import opened Wrappers
  import opened Manifest
  import opened Json
  import opened Money
  import opened Url
  import opened Cedar
  import opened Decide

  const REFUND := "payments.refund"
  const EMAIL := "email.send"
  const FETCH := "web.fetch"
  const REPORT := "db.report"
  const LOOKUP := "crm.lookup"
  const INBOX := "inbox.read"

  const REFUNDED := "refunded_minor"
  const PRIVATE_DATA := "private_data"
  const UNTRUSTED_INPUT := "untrusted_input"

  const MAX_REFUND: nat := 100000000

  const CURRENCIES: seq<string> := ["EUR", "JPY", "USD"]

  const ID_ARG := ArgSpec(ScalarKind(IdSpec), false)

  const SUMMARY_PARAMS: map<string, Scalar> := map["account_id" := IdSpec, "since_days" := IntSpec(1, 90)]
  const CUSTOMER_PARAMS: map<string, Scalar> := map["customer_id" := IdSpec]

  const REPORTS: map<string, map<string, Scalar>> := map[
    "refund_summary" := SUMMARY_PARAMS, "customer_balance" := CUSTOMER_PARAMS, "pii_export" := CUSTOMER_PARAMS]

  const REFUND_TOOL := ToolSpec({}, "Account", ResourceFrom("account_id", None), None,
    map["account_id" := ID_ARG, "amount" := ArgSpec(MoneyKind(CURRENCIES, 1, MAX_REFUND), false)],
    {}, Some(Budget(REFUNDED, "amount")))

  const EMAIL_TOOL := ToolSpec({"Egress"}, "Recipient", ResourceFrom("to", Some("domain")), Some("DomainSuffix"),
    map["to" := ArgSpec(EmailKind, false), "subject" := ArgSpec(ScalarKind(TextSpec(200)), false),
        "body" := ArgSpec(ScalarKind(TextSpec(20000)), false)],
    {}, None)

  const FETCH_TOOL := ToolSpec({"Egress"}, "Host", ResourceFrom("url", Some("host")), Some("HostSuffix"),
    map["url" := ArgSpec(UrlKind(["https"], false), false)],
    {UNTRUSTED_INPUT}, None)

  const REPORT_TOOL := ToolSpec({}, "Report", ResourceFrom("report", Some("name")), None,
    map["report" := ArgSpec(TemplateKind(REPORTS), false)],
    {PRIVATE_DATA}, None)

  const LOOKUP_TOOL := ToolSpec({"Read"}, "Customer", ResourceFrom("customer_id", None), None,
    map["customer_id" := ID_ARG], {PRIVATE_DATA}, None)

  const INBOX_TOOL := ToolSpec({"Read"}, "Mailbox", ResourceFrom("mailbox_id", None), None,
    map["mailbox_id" := ID_ARG], {UNTRUSTED_INPUT}, None)

  const TOOLS: map<string, ToolSpec> := map[
    REFUND := REFUND_TOOL, EMAIL := EMAIL_TOOL, FETCH := FETCH_TOOL,
    REPORT := REPORT_TOOL, LOOKUP := LOOKUP_TOOL, INBOX := INBOX_TOOL]

  const BANK_MANIFEST := Manifest("Agent", {PRIVATE_DATA, UNTRUSTED_INPUT}, map[REFUNDED := MAX_REFUND],
    map["Account" := map["frozen" := BoolAttr]], TOOLS)

  // ---- configured entities ----

  const RECIPIENTS := Uid("RecipientGroup", "allowlisted")
  const HOSTS := Uid("HostGroup", "egress-allowlist")

  const CONFIG: Store := map[
    RECIPIENTS := EntityData(map[], {}),
    Uid("DomainSuffix", "bank.example") := EntityData(map[], {RECIPIENTS}),
    Uid("DomainSuffix", "customer.example") := EntityData(map[], {RECIPIENTS}),
    HOSTS := EntityData(map[], {}),
    Uid("HostSuffix", "bank.example") := EntityData(map[], {HOSTS}),
    Uid("HostSuffix", "sepa-directory.example") := EntityData(map[], {HOSTS})]

  // ---- policies ----

  const LABELS := Attr(Attr(Context, "session"), "labels")
  const COUNTERS := Attr(Attr(Context, "session"), "counters")
  const AMOUNT := Attr(Attr(Context, "args"), "amount")
  const MINOR := Attr(AMOUNT, "amount_minor")
  const CURRENCY := Attr(AMOUNT, "currency")
  const SPENT := Plus(Attr(COUNTERS, REFUNDED), MINOR)
  const APPROVED := And(Has(Context, "approval"), Equal(Attr(Attr(Context, "approval"), "action_hash"), Attr(Context, "action_hash")))

  const NO_EGRESS := "no-egress-after-untrusted-with-private"
  const NO_FROZEN := "no-refund-to-frozen-account"
  const REFUND_AUTO := "refund-auto"
  const REFUND_APPROVED := "refund-approved"
  const EGRESS_RECIPIENT := "egress-allowlisted-recipient"
  const EGRESS_HOST := "egress-allowlisted-host"
  const EGRESS_APPROVED := "egress-approved"
  const REPORTS_ALLOWED := "reports-allowlisted"
  const READS_ALLOWED := "reads-allowed"

  const NO_EGRESS_POLICY := Policy(Forbid, None, ActionIn("Egress"), None,
    And(Contains(LABELS, Const(StringTerm(UNTRUSTED_INPUT))), Contains(LABELS, Const(StringTerm(PRIVATE_DATA)))))

  const NO_FROZEN_POLICY := Policy(Forbid, None, ActionIs(REFUND), Some("Account"), Attr(Resource, "frozen"))

  const REFUND_AUTO_POLICY := Policy(Permit, Some("Agent"), ActionIs(REFUND), Some("Account"),
    And(And(Equal(CURRENCY, Const(StringTerm("EUR"))), AtMost(MINOR, Const(LongTerm(20000)))),
        AtMost(SPENT, Const(LongTerm(50000)))))

  const REFUND_APPROVED_POLICY := Policy(Permit, Some("Agent"), ActionIs(REFUND), Some("Account"),
    And(APPROVED, AtMost(SPENT, Const(LongTerm(500000)))))

  const EGRESS_RECIPIENT_POLICY := Policy(Permit, Some("Agent"), ActionIs(EMAIL), Some("Recipient"), InGroup(Resource, RECIPIENTS))

  const EGRESS_HOST_POLICY := Policy(Permit, Some("Agent"), ActionIs(FETCH), Some("Host"),
    And(InGroup(Resource, HOSTS), Equal(Attr(Attr(Attr(Context, "args"), "url"), "scheme"), Const(StringTerm("https")))))

  const EGRESS_APPROVED_POLICY := Policy(Permit, Some("Agent"), ActionIn("Egress"), None, APPROVED)

  const REPORTS_ALLOWED_POLICY := Policy(Permit, Some("Agent"), ActionIs(REPORT), Some("Report"),
    Contains(Const(SetTerm({StringTerm("customer_balance"), StringTerm("refund_summary")})),
             Attr(Attr(Attr(Context, "args"), "report"), "name")))

  const READS_ALLOWED_POLICY := Policy(Permit, Some("Agent"), ActionIn("Read"), None, Const(BoolTerm(true)))

  const POLICIES: Policies := map[
    NO_EGRESS := NO_EGRESS_POLICY, NO_FROZEN := NO_FROZEN_POLICY,
    REFUND_AUTO := REFUND_AUTO_POLICY, REFUND_APPROVED := REFUND_APPROVED_POLICY,
    EGRESS_RECIPIENT := EGRESS_RECIPIENT_POLICY, EGRESS_HOST := EGRESS_HOST_POLICY, EGRESS_APPROVED := EGRESS_APPROVED_POLICY,
    REPORTS_ALLOWED := REPORTS_ALLOWED_POLICY, READS_ALLOWED := READS_ALLOWED_POLICY]

  /** A loaded bank-servicing bundle; hashes, gate identity and tables stay free. */
  predicate Bank(b: Bundle) {
    b.manifest == BANK_MANIFEST && b.policies == POLICIES && b.config == CONFIG
  }

  lemma CurrenciesKnown()
    ensures forall c :: c in CURRENCIES ==> c in Exponents()
  {
    assert "EUR" in Exponents() && "JPY" in Exponents() && "USD" in Exponents();
  }

  lemma RefundKind()
    ensures WellFormedKind(MoneyKind(CURRENCIES, 1, MAX_REFUND))
  {
    CurrenciesKnown();
  }

  lemma RefundWellFormed()
    ensures WellFormedTool(BANK_MANIFEST, REFUND_TOOL)
  {
    hide WellFormedKind, Exponents, TOOLS;
    RefundKind();
    IdKind();
  }

  lemma IdKind()
    ensures WellFormedKind(ScalarKind(IdSpec))
  {
  }

  /** A tool with one argument, which names its resource, and no budget. */
  lemma OneArgument(m: Manifest, t: ToolSpec, name: string, kind: Kind, field: Option<string>)
    requires t.args == map[name := ArgSpec(kind, false)] && WellFormedKind(kind)
    requires t.resource == ResourceFrom(name, field) && ResourceKind(kind, field)
    requires t.budget == None && t.resultLabels <= m.labels
    ensures WellFormedTool(m, t)
  {
    hide WellFormedKind, ResourceKind;
  }

  lemma EmailWellFormed()
    ensures WellFormedTool(BANK_MANIFEST, EMAIL_TOOL)
  {
    hide Exponents, KnownSchemes;
    var kinds := {EmailKind, ScalarKind(TextSpec(200)), ScalarKind(TextSpec(20000))};
    assert forall k :: k in kinds ==> WellFormedKind(k);
    hide WellFormedKind;
    assert forall a :: a in EMAIL_TOOL.args ==> EMAIL_TOOL.args[a].kind in kinds;
  }

  lemma Templates(a: string, p: map<string, Scalar>, b: string, q: map<string, Scalar>, c: string, r: map<string, Scalar>)
    requires forall x :: x in p ==> WellFormedScalar(p[x])
    requires forall x :: x in q ==> WellFormedScalar(q[x])
    requires forall x :: x in r ==> WellFormedScalar(r[x])
    ensures WellFormedKind(TemplateKind(map[a := p, b := q, c := r]))
  {
  }

  lemma OneArgumentTools()
    ensures WellFormedTool(BANK_MANIFEST, FETCH_TOOL) && WellFormedTool(BANK_MANIFEST, REPORT_TOOL)
    ensures WellFormedTool(BANK_MANIFEST, LOOKUP_TOOL) && WellFormedTool(BANK_MANIFEST, INBOX_TOOL)
  {
    hide Exponents, WellFormedTool;
    assert WellFormedScalar(IntSpec(1, 90)) && WellFormedScalar(IdSpec);
    Templates("refund_summary", SUMMARY_PARAMS, "customer_balance", CUSTOMER_PARAMS, "pii_export", CUSTOMER_PARAMS);
    assert KnownSchemes(["https"]);
    OneArgument(BANK_MANIFEST, FETCH_TOOL, "url", UrlKind(["https"], false), Some("host"));
    OneArgument(BANK_MANIFEST, REPORT_TOOL, "report", TemplateKind(REPORTS), Some("name"));
    OneArgument(BANK_MANIFEST, LOOKUP_TOOL, "customer_id", ScalarKind(IdSpec), None);
    OneArgument(BANK_MANIFEST, INBOX_TOOL, "mailbox_id", ScalarKind(IdSpec), None);
  }

  lemma AllSix(m: Manifest, a: string, x: ToolSpec, b: string, y: ToolSpec, c: string, z: ToolSpec,
               d: string, u: ToolSpec, e: string, v: ToolSpec, f: string, w: ToolSpec)
    requires m.tools == map[a := x, b := y, c := z, d := u, e := v, f := w]
    requires WellFormedTool(m, x) && WellFormedTool(m, y) && WellFormedTool(m, z)
    requires WellFormedTool(m, u) && WellFormedTool(m, v) && WellFormedTool(m, w)
    ensures forall t :: t in m.tools ==> WellFormedTool(m, m.tools[t])
  {
    hide WellFormedTool;
  }

  lemma BankWellFormed()
    ensures WellFormed(BANK_MANIFEST)
  {
    RefundWellFormed();
    EmailWellFormed();
    OneArgumentTools();
    hide WellFormedTool;
    AllSix(BANK_MANIFEST, REFUND, REFUND_TOOL, EMAIL, EMAIL_TOOL, FETCH, FETCH_TOOL,
           REPORT, REPORT_TOOL, LOOKUP, LOOKUP_TOOL, INBOX, INBOX_TOOL);
  }

  function Pick(chosen: bool, id: string): set<string> { if chosen then {id} else {} }

  datatype Nine<T> = Nine(a: T, b: T, c: T, d: T, e: T, f: T, g: T, h: T, i: T)

  predicate Tabled(ps: Policies, ids: Nine<string>, x: Nine<Policy>) {
    && ps.Keys == {ids.a, ids.b, ids.c, ids.d, ids.e, ids.f, ids.g, ids.h, ids.i}
    && ps[ids.a] == x.a && ps[ids.b] == x.b && ps[ids.c] == x.c && ps[ids.d] == x.d && ps[ids.e] == x.e
    && ps[ids.f] == x.f && ps[ids.g] == x.g && ps[ids.h] == x.h && ps[ids.i] == x.i
  }

  function PickAll(on: Nine<bool>, ids: Nine<string>): set<string> {
    Pick(on.a, ids.a) + Pick(on.b, ids.b) + Pick(on.c, ids.c) + Pick(on.d, ids.d) + Pick(on.e, ids.e) +
    Pick(on.f, ids.f) + Pick(on.g, ids.g) + Pick(on.h, ids.h) + Pick(on.i, ids.i)
  }

  predicate On(p: Policy, r: Request, effect: Effect) { p.effect == effect && Satisfied(p, r) }

  function AllOn(x: Nine<Policy>, r: Request, effect: Effect): Nine<bool> {
    Nine(On(x.a, r, effect), On(x.b, r, effect), On(x.c, r, effect), On(x.d, r, effect), On(x.e, r, effect),
         On(x.f, r, effect), On(x.g, r, effect), On(x.h, r, effect), On(x.i, r, effect))
  }

  function AllErrored(x: Nine<Policy>, r: Request): Nine<bool> {
    Nine(Errored(x.a, r), Errored(x.b, r), Errored(x.c, r), Errored(x.d, r), Errored(x.e, r),
         Errored(x.f, r), Errored(x.g, r), Errored(x.h, r), Errored(x.i, r))
  }

  predicate Marks(chosen: set<string>, on: Nine<bool>, ids: Nine<string>) {
    && (ids.a in chosen <==> on.a) && (ids.b in chosen <==> on.b) && (ids.c in chosen <==> on.c)
    && (ids.d in chosen <==> on.d) && (ids.e in chosen <==> on.e) && (ids.f in chosen <==> on.f)
    && (ids.g in chosen <==> on.g) && (ids.h in chosen <==> on.h) && (ids.i in chosen <==> on.i)
  }

  lemma PickMarked(chosen: set<string>, on: Nine<bool>, ids: Nine<string>)
    requires chosen <= {ids.a, ids.b, ids.c, ids.d, ids.e, ids.f, ids.g, ids.h, ids.i}
    requires Marks(chosen, on, ids)
    ensures chosen == PickAll(on, ids)
  {
  }

  lemma NinePolicies(ps: Policies, ids: Nine<string>, x: Nine<Policy>, r: Request, effect: Effect)
    requires Tabled(ps, ids, x)
    ensures SatisfiedIds(ps, r, effect) == PickAll(AllOn(x, r, effect), ids)
    ensures ErroredIds(ps, r) == PickAll(AllErrored(x, r), ids)
  {
    hide Satisfied, Errored, PickAll;
    PickMarked(SatisfiedIds(ps, r, effect), AllOn(x, r, effect), ids);
    PickMarked(ErroredIds(ps, r), AllErrored(x, r), ids);
  }

  const IDS: Nine<string> := Nine(NO_EGRESS, NO_FROZEN, REFUND_AUTO, REFUND_APPROVED, EGRESS_RECIPIENT, EGRESS_HOST,
                                  EGRESS_APPROVED, REPORTS_ALLOWED, READS_ALLOWED)
  const RULES: Nine<Policy> := Nine(NO_EGRESS_POLICY, NO_FROZEN_POLICY, REFUND_AUTO_POLICY, REFUND_APPROVED_POLICY,
    EGRESS_RECIPIENT_POLICY, EGRESS_HOST_POLICY, EGRESS_APPROVED_POLICY, REPORTS_ALLOWED_POLICY, READS_ALLOWED_POLICY)

  lemma PolicyTable()
    ensures Tabled(POLICIES, IDS, RULES)
  {
  }
}
