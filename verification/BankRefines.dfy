/** The bank-servicing policies decide exactly what the statement of intent says, for every request that reaches them. */
module BankRefines {
  import opened Wrappers
  import opened Texts
  import opened Ordering
  import opened Json
  import opened Money
  import opened Unicode
  import opened Syntax
  import opened Percent
  import opened DotSegments
  import opened Url
  import opened Manifest
  import opened Canonical
  import opened Cedar
  import opened Decide
  import opened Guardrails
  import opened BankServicing
  import opened BankOracle

  /** A request under the bundle: its action is canonical, and both evaluations see the snapshot's facts. */
  ghost predicate Case(env: Envelope, s: Snapshot, b: Bundle, a: Action) {
    && Bank(b) && WellFormed(BANK_MANIFEST) && env.tool in TOOLS
    && CheckSnapshot(BANK_MANIFEST, s) == None && IsCanonical(b.tables, BANK_MANIFEST, env, a)
  }

  lemma ReachedCase(env: Envelope, s: Snapshot, b: Bundle)
    requires Bank(b) && WellFormed(b.manifest) && Reaches(env, s, b)
    ensures Case(env, s, b, TheAction(env, s, b))
    ensures var a := TheAction(env, s, b);
      Judge(env, s, b) ==
      Combine(Evaluate(POLICIES, FirstRequest(env, s, b, a)), ActionHash(b, a) in s.approvals,
              Evaluate(POLICIES, SecondRequest(env, s, b, a)), ActionHash(b, a))
  {
    hide Canonicalize, CheckSnapshot, WellFormed, Evaluate, Combine, ActionHash, BuildContext, TOOLS, POLICIES,
         IsCanonical;
    BankWellFormed();
    ActionIsCanonical(b.tables, b.manifest, env);
    RuleIsCombine(env, s, b, TheAction(env, s, b));
  }

  lemma BothSee(env: Envelope, s: Snapshot, b: Bundle, a: Action)
    requires a.tool in b.manifest.tools && a.principalType == "Agent"
    ensures Sees(FirstRequest(env, s, b, a), s, a, ActionHash(b, a), ActionHash(b, a) in s.approvals)
    ensures Sees(SecondRequest(env, s, b, a), s, a, ActionHash(b, a), true)
  {
    hide ActionHash, Entities, ContextTerm, SessionTerm;
  }

  lemma Six()
    ensures TOOLS[REFUND] == REFUND_TOOL && TOOLS[EMAIL] == EMAIL_TOOL && TOOLS[FETCH] == FETCH_TOOL
    ensures TOOLS[REPORT] == REPORT_TOOL && TOOLS[LOOKUP] == LOOKUP_TOOL && TOOLS[INBOX] == INBOX_TOOL
    ensures TOOLS.Keys == {REFUND, EMAIL, FETCH, REPORT, LOOKUP, INBOX}
  {
  }

  // ---- refunds ----

  lemma RefundAction(env: Envelope, s: Snapshot, b: Bundle, a: Action)
    requires Case(env, s, b, a) && env.tool == REFUND
    ensures a.principalType == "Agent" && a.tool == REFUND && a.resourceType == "Account" && a.parents == {}
    ensures "amount" in a.args && a.args["amount"].MoneyValue? && 1 <= a.args["amount"].amount.minor <= MAX_REFUND
  {
    Six();
    hide CheckSnapshot, WellFormed, TOOLS, POLICIES, CONFIG, CanonicalMoney, ResourceId, IsResourceId;
    assert a.tool == REFUND && "amount" in REFUND_TOOL.args && !REFUND_TOOL.args["amount"].optional;
    var kind := MoneyKind(CURRENCIES, 1, MAX_REFUND);
    assert REFUND_TOOL.args["amount"].kind == kind;
    var raw :| CanonicalValue(b.tables, kind, raw) == Ok(a.args["amount"]);
    AcceptedRange(raw, CURRENCIES, 1, MAX_REFUND);
  }

  lemma Counted(s: Snapshot)
    requires CheckSnapshot(BANK_MANIFEST, s) == None
    ensures REFUNDED in s.counters && s.counters[REFUNDED] <= MAX_REFUND
            && CheckEntities(BANK_MANIFEST, s.entities) == None
  {
    hide CheckEntities;
    assert REFUNDED in BANK_MANIFEST.counters && BANK_MANIFEST.counters[REFUNDED] == MAX_REFUND;
  }

  lemma RefundRequests(env: Envelope, s: Snapshot, b: Bundle, a: Action, r: Request, approved: bool)
    requires Case(env, s, b, a) && env.tool == REFUND && REFUNDED in s.counters && s.counters[REFUNDED] >= 0
    requires Sees(r, s, a, ActionHash(b, a), approved) && r.actionGroups == {} && r.entities == Entities(b, a, s)
    ensures "amount" in a.args && a.args["amount"].MoneyValue?
    ensures var amount, refunded := a.args["amount"].amount, s.counters[REFUNDED];
      Evaluate(POLICIES, r) ==
      RefundEvaluation(Auto(amount, refunded), approved && refunded + amount.minor <= APPROVED_PER_SESSION_MINOR,
                       AccountOf(s.entities, a.resourceId))
  {
    RefundAction(env, s, b, a);
    Counted(s);
    var amount, refunded := a.args["amount"].amount, s.counters[REFUNDED];
    var account := AccountOf(s.entities, a.resourceId);
    EvalAuto(r, s, a, ActionHash(b, a), approved, amount);
    EvalRefundApproved(r, s, a, ActionHash(b, a), approved, amount);
    AccountIsLoaded(s.entities, a.resourceId);
    FactsOverConfig(s.entities, a.resourceId);
    EvalFrozen(r, account);
    hide Eval, Case, CheckSnapshot, CheckEntities, POLICIES, CONFIG, ActionHash, AccountOf, FactStore, Auto,
         Evaluate, RefundEvaluation;
    RefundEvaluated(r, Auto(amount, refunded), approved && refunded + amount.minor <= APPROVED_PER_SESSION_MINOR, account);
  }

  lemma FactsOverConfig(entities: seq<EntityRecord>, id: string)
    requires CheckEntities(BANK_MANIFEST, entities) == None
    requires Loaded(FactStore(entities), Uid("Account", id), AccountOf(entities, id))
    ensures Loaded(CONFIG + FactStore(entities), Uid("Account", id), AccountOf(entities, id))
  {
    KindNames();
    ConfigTable();
    hide CheckEntities, CONFIG, FactStore, AccountOf;
  }

  /** payments.refund: every amount, currency, spent budget, approval and account state. */
  lemma RefundRefines(env: Envelope, s: Snapshot, b: Bundle)
    requires Bank(b) && WellFormed(b.manifest) && Reaches(env, s, b) && env.tool == REFUND
    requires forall n :: n in s.counters ==> s.counters[n] >= 0
    ensures var a := TheAction(env, s, b);
      && "amount" in a.args && a.args["amount"].MoneyValue? && REFUNDED in s.counters
      && var amount := a.args["amount"].amount;
         var x := ExpectRefund(amount.minor, amount.currency, s.counters[REFUNDED], ActionHash(b, a) in s.approvals,
                               AccountOf(s.entities, a.resourceId));
         Judge(env, s, b) == Ruling(x.verdict, x.reasons, Some(ActionHash(b, a)))
  {
    ReachedCase(env, s, b);
    var a := TheAction(env, s, b);
    RefundAction(env, s, b, a);
    Counted(s);
    Six();
    BothSee(env, s, b, a);
    var amount, refunded, hash := a.args["amount"].amount, s.counters[REFUNDED], ActionHash(b, a);
    RefundRequests(env, s, b, a, FirstRequest(env, s, b, a), hash in s.approvals);
    RefundRequests(env, s, b, a, SecondRequest(env, s, b, a), true);
    hide Case, Sees, Judge, FirstRequest, SecondRequest, Reaches, CheckSnapshot, POLICIES, ActionHash, AccountOf,
         Evaluate, Combine,
         RefundEvaluation, ExpectRefund, Auto, TheAction, WellFormed, TOOLS;
    RefundCombined(amount, refunded, hash in s.approvals, AccountOf(s.entities, a.resourceId), hash);
  }

  // ---- egress ----

  lemma LabelledStart(host: string)
    requires host != [] && IsLabel(Split(host, '.')[0])
    ensures host[0] != '['
  {
    assert Split(host, '.')[0] != [];
  }

  lemma NamedHost(t: Tables, text: string)
    requires CanonicalHost(t, text, false).Ok?
    ensures var host := CanonicalHost(t, text, false).value; host == [] || host[0] != '['
  {
    var host := CanonicalHost(t, text, false).value;
    var labels := Split(host, '.');
    assert IsLabel(labels[0]);
    if host != [] { LabelledStart(host); }
  }

  lemma NamedUrlHost(t: Tables, value: string, schemes: seq<string>)
    requires KnownSchemes(schemes) && CanonicalUrl(t, value, schemes, false).Ok?
    ensures var host := CanonicalUrl(t, value, schemes, false).value.host; host == [] || host[0] != '['
  {
    hide SplitUrl, CanonicalHost, CanonicalPort, Normalise, RemoveDots, FirstBadChar, SplitAuthority;
    var parts := SplitUrl(t.nfc(value)).value;
    NamedHost(t, SplitAuthority(parts.authority).value.0);
  }

  lemma EmailAction(env: Envelope, s: Snapshot, b: Bundle, a: Action)
    requires Case(env, s, b, a) && env.tool == EMAIL
    ensures a.principalType == "Agent" && a.tool == EMAIL && a.resourceType == "Recipient"
    ensures a.parents == SuffixUids("DomainSuffix", a.resourceId)
    ensures "to" in a.args && a.args["to"].EmailValue? && a.args["to"].domain == a.resourceId
    ensures a.resourceId == [] || a.resourceId[0] != '['
  {
    Six();
    hide CheckSnapshot, WellFormed, TOOLS, POLICIES, CONFIG, IsResourceId, HostSuffixes, CanonicalHost, CanonicalText;
    assert a.tool == EMAIL && "to" in EMAIL_TOOL.args && EMAIL_TOOL.args["to"].kind == EmailKind
           && !EMAIL_TOOL.args["to"].optional;
    var raw :| CanonicalValue(b.tables, EmailKind, raw) == Ok(a.args["to"]);
    EmailShape(b.tables, raw.s);
    EmailDomain(b.tables, raw.s);
    assert "domain" != "address";
  }

  lemma EmailDomain(t: Tables, value: string)
    requires CanonicalEmail(t, value).Ok?
    ensures var e := CanonicalEmail(t, value).value; e.EmailValue? && (e.domain == [] || e.domain[0] != '[')
  {
    var parts := Split(value, '@');
    NamedHost(t, parts[1]);
    hide CanonicalHost, IsLabel, IsLocalPart;
  }

  lemma FetchAction(env: Envelope, s: Snapshot, b: Bundle, a: Action)
    requires Case(env, s, b, a) && env.tool == FETCH
    ensures a.principalType == "Agent" && a.tool == FETCH && a.resourceType == "Host"
    ensures a.parents == SuffixUids("HostSuffix", a.resourceId)
    ensures "url" in a.args && a.args["url"].UrlValue? && a.args["url"].url.host == a.resourceId
    ensures a.resourceId == [] || a.resourceId[0] != '['
  {
    Six();
    hide CheckSnapshot, WellFormed, TOOLS, POLICIES, CONFIG, IsResourceId, HostSuffixes, CanonicalUrl;
    var kind := UrlKind(["https"], false);
    assert a.tool == FETCH && "url" in FETCH_TOOL.args && FETCH_TOOL.args["url"].kind == kind
           && !FETCH_TOOL.args["url"].optional;
    var raw :| CanonicalValue(b.tables, kind, raw) == Ok(a.args["url"]);
    assert KnownSchemes(["https"]);
    NamedUrlHost(b.tables, raw.s, ["https"]);
  }

  lemma EgressEntities(s: Snapshot, b: Bundle, a: Action, suffixKind: string, group: Uid, allowed: set<string>)
    requires Bank(b) && CheckEntities(BANK_MANIFEST, s.entities) == None
    requires a.parents == SuffixUids(suffixKind, a.resourceId) && Allowlist(a.resourceType, suffixKind, group, allowed)
    requires a.resourceId == [] || a.resourceId[0] != '['
    ensures Member(Entities(b, a, s), Decide.Resource(a), group) <==> Under(a.resourceId, allowed)
  {
    OnlyAccounts(s.entities);
    hide CheckEntities, POLICIES, CONFIG, Under, SuffixUids, FactStore, Member;
    Covered(FactStore(s.entities), Decide.Resource(a), suffixKind, group, allowed);
  }

  predicate Tainted(s: Snapshot) { {PRIVATE_DATA, UNTRUSTED_INPUT} <= s.labels }

  lemma CaseParts(env: Envelope, s: Snapshot, b: Bundle, a: Action)
    requires Case(env, s, b, a)
    ensures Bank(b) && CheckSnapshot(BANK_MANIFEST, s) == None
  {
    hide CheckSnapshot, IsCanonical, WellFormed;
  }

  lemma EmailCovered(env: Envelope, s: Snapshot, b: Bundle, a: Action)
    requires Case(env, s, b, a) && env.tool == EMAIL
    ensures a.principalType == "Agent" && a.tool == EMAIL && a.resourceType == "Recipient"
    ensures Member(Entities(b, a, s), Decide.Resource(a), RECIPIENTS) <==> Under(a.resourceId, ALLOWLISTED_DOMAINS)
  {
    CaseParts(env, s, b, a);
    EmailAction(env, s, b, a);
    Counted(s);
    hide Case, SuffixUids, CheckSnapshot, CheckEntities, POLICIES, CONFIG, Member, Entities, Under, ALLOWLISTED_DOMAINS;
    EgressEntities(s, b, a, "DomainSuffix", RECIPIENTS, ALLOWLISTED_DOMAINS);
  }

  lemma FetchCovered(env: Envelope, s: Snapshot, b: Bundle, a: Action)
    requires Case(env, s, b, a) && env.tool == FETCH
    ensures a.principalType == "Agent" && a.tool == FETCH && a.resourceType == "Host"
    ensures "url" in a.args && a.args["url"].UrlValue? && a.args["url"].url.host == a.resourceId
    ensures Member(Entities(b, a, s), Decide.Resource(a), HOSTS) <==> Under(a.resourceId, ALLOWLISTED_HOSTS)
  {
    CaseParts(env, s, b, a);
    FetchAction(env, s, b, a);
    Counted(s);
    hide Case, SuffixUids, CheckSnapshot, CheckEntities, POLICIES, CONFIG, Member, Entities, Under, ALLOWLISTED_HOSTS;
    EgressEntities(s, b, a, "HostSuffix", HOSTS, ALLOWLISTED_HOSTS);
  }

  lemma EmailRequests(env: Envelope, s: Snapshot, b: Bundle, a: Action, r: Request, approved: bool)
    requires Case(env, s, b, a) && env.tool == EMAIL
    requires Sees(r, s, a, ActionHash(b, a), approved) && r.actionGroups == {"Egress"}
             && r.entities == Entities(b, a, s)
    ensures Evaluate(POLICIES, r) ==
            EgressEvaluation(Tainted(s), Under(a.resourceId, ALLOWLISTED_DOMAINS), EGRESS_RECIPIENT, approved)
  {
    EmailCovered(env, s, b, a);
    hide Eval, Case, POLICIES, ActionHash, Evaluate, EgressEvaluation, Member, Entities, Under, ALLOWLISTED_DOMAINS;
    EvalNoEgress(r, s, a, ActionHash(b, a), approved);
    EvalApproved(r, s, a, ActionHash(b, a), approved);
    EvalInGroup(RECIPIENTS, r);
    EmailEvaluated(r, Tainted(s), Under(a.resourceId, ALLOWLISTED_DOMAINS), approved);
  }

  lemma FetchRequests(env: Envelope, s: Snapshot, b: Bundle, a: Action, r: Request, approved: bool)
    requires Case(env, s, b, a) && env.tool == FETCH
    requires Sees(r, s, a, ActionHash(b, a), approved) && r.actionGroups == {"Egress"}
             && r.entities == Entities(b, a, s)
    ensures "url" in a.args && a.args["url"].UrlValue?
    ensures var u := a.args["url"].url;
      Evaluate(POLICIES, r) ==
      EgressEvaluation(Tainted(s), Under(u.host, ALLOWLISTED_HOSTS) && u.scheme == "https", EGRESS_HOST, approved)
  {
    FetchCovered(env, s, b, a);
    var u := a.args["url"].url;
    hide Eval, Case, POLICIES, ActionHash, Evaluate, EgressEvaluation, Member, Entities, Under, ALLOWLISTED_HOSTS;
    EvalNoEgress(r, s, a, ActionHash(b, a), approved);
    EvalApproved(r, s, a, ActionHash(b, a), approved);
    EvalHost(r, s, a, ActionHash(b, a), approved, u);
    FetchEvaluated(r, Tainted(s), Under(u.host, ALLOWLISTED_HOSTS) && u.scheme == "https", approved);
  }

  /** email.send: every recipient domain, label set and approval. */
  lemma EmailRefines(env: Envelope, s: Snapshot, b: Bundle)
    requires Bank(b) && WellFormed(b.manifest) && Reaches(env, s, b) && env.tool == EMAIL
    ensures var a := TheAction(env, s, b);
      && "to" in a.args && a.args["to"].EmailValue?
      && var x := ExpectEmail(a.args["to"].domain, s.labels, ActionHash(b, a) in s.approvals);
         Judge(env, s, b) == Ruling(x.verdict, x.reasons, Some(ActionHash(b, a)))
  {
    ReachedCase(env, s, b);
    var a := TheAction(env, s, b);
    EmailAction(env, s, b, a);
    Six();
    BothSee(env, s, b, a);
    var hash := ActionHash(b, a);
    EmailRequests(env, s, b, a, FirstRequest(env, s, b, a), hash in s.approvals);
    EmailRequests(env, s, b, a, SecondRequest(env, s, b, a), true);
    hide Case, Sees, Judge, FirstRequest, SecondRequest, Reaches, CheckSnapshot, POLICIES, ActionHash, Evaluate,
         Combine,
         EgressEvaluation, ExpectEgress, Under, TheAction, WellFormed, TOOLS;
    EgressCombined(Under(a.resourceId, ALLOWLISTED_DOMAINS), EGRESS_RECIPIENT, s.labels, hash in s.approvals, hash);
  }

  /** web.fetch: every host, scheme, label set and approval. */
  lemma FetchRefines(env: Envelope, s: Snapshot, b: Bundle)
    requires Bank(b) && WellFormed(b.manifest) && Reaches(env, s, b) && env.tool == FETCH
    ensures var a := TheAction(env, s, b);
      && "url" in a.args && a.args["url"].UrlValue?
      && var x := ExpectFetch(a.args["url"].url.host, a.args["url"].url.scheme, s.labels, ActionHash(b, a) in s.approvals);
         Judge(env, s, b) == Ruling(x.verdict, x.reasons, Some(ActionHash(b, a)))
  {
    ReachedCase(env, s, b);
    var a := TheAction(env, s, b);
    FetchAction(env, s, b, a);
    Six();
    BothSee(env, s, b, a);
    var u, hash := a.args["url"].url, ActionHash(b, a);
    FetchRequests(env, s, b, a, FirstRequest(env, s, b, a), hash in s.approvals);
    FetchRequests(env, s, b, a, SecondRequest(env, s, b, a), true);
    hide Case, Sees, Judge, FirstRequest, SecondRequest, Reaches, CheckSnapshot, POLICIES, ActionHash, Evaluate,
         Combine,
         EgressEvaluation, ExpectEgress, Under, TheAction, WellFormed, TOOLS;
    EgressCombined(Under(u.host, ALLOWLISTED_HOSTS) && u.scheme == "https", EGRESS_HOST, s.labels, hash in s.approvals, hash);
  }

  // ---- reports and reads ----

  lemma ReportAction(env: Envelope, s: Snapshot, b: Bundle, a: Action)
    requires Case(env, s, b, a) && env.tool == REPORT
    ensures a.principalType == "Agent" && a.tool == REPORT && a.resourceType == "Report"
    ensures "report" in a.args && a.args["report"].TemplateValue?
  {
    Six();
    OneArgumentTools();
    hide CheckSnapshot, WellFormed, TOOLS, POLICIES, CONFIG, IsResourceId, HostSuffixes, CanonicalTemplate,
         ResourceId, REPORTS;
    var kind := TemplateKind(REPORTS);
    assert WellFormedKind(REPORT_TOOL.args["report"].kind);
    assert a.tool == REPORT && "report" in REPORT_TOOL.args && REPORT_TOOL.args["report"].kind == kind
           && !REPORT_TOOL.args["report"].optional;
    var raw :| CanonicalValue(b.tables, kind, raw) == Ok(a.args["report"]);
    TemplateShape(b.tables, REPORTS, raw);
  }

  lemma ReadAction(env: Envelope, s: Snapshot, b: Bundle, a: Action)
    requires Case(env, s, b, a) && env.tool in {LOOKUP, INBOX}
    ensures a.principalType == "Agent" && a.tool == env.tool && BANK_MANIFEST.tools[a.tool].groups == {"Read"}
  {
    Six();
    hide CheckSnapshot, WellFormed, TOOLS, POLICIES, CONFIG, IsResourceId, HostSuffixes, ResourceId;
  }

  lemma ReportCombined(name: string, approved: bool, hash: string)
    ensures var e := OnePermitEvaluation(name in REPORT_TEMPLATES, REPORTS_ALLOWED);
      Combine(e, approved, e, hash) == Ruling(ExpectReport(name).verdict, ExpectReport(name).reasons, Some(hash))
  {
    assert REPORTS_ALLOWED in Pick(true, REPORTS_ALLOWED);
  }

  /** db.report: every template, on the allowlist or not, approved or not. */
  lemma ReportRefines(env: Envelope, s: Snapshot, b: Bundle)
    requires Bank(b) && WellFormed(b.manifest) && Reaches(env, s, b) && env.tool == REPORT
    ensures var a := TheAction(env, s, b);
      && "report" in a.args && a.args["report"].TemplateValue?
      && var x := ExpectReport(a.args["report"].name);
         Judge(env, s, b) == Ruling(x.verdict, x.reasons, Some(ActionHash(b, a)))
  {
    ReachedCase(env, s, b);
    var a := TheAction(env, s, b);
    ReportAction(env, s, b, a);
    Six();
    BothSee(env, s, b, a);
    var hash, report := ActionHash(b, a), a.args["report"];
    EvalReport(FirstRequest(env, s, b, a), s, a, hash, hash in s.approvals, report.name, report.params);
    EvalReport(SecondRequest(env, s, b, a), s, a, hash, true, report.name, report.params);
    hide Case, Judge, Reaches, CheckSnapshot, POLICIES, ActionHash, Evaluate, Combine, Eval, Entities, BuildContext,
         OnePermitEvaluation, ExpectReport, TheAction, WellFormed, TOOLS, REPORT_TEMPLATES;
    ReportEvaluated(FirstRequest(env, s, b, a), report.name in REPORT_TEMPLATES);
    ReportEvaluated(SecondRequest(env, s, b, a), report.name in REPORT_TEMPLATES);
    ReportCombined(report.name, hash in s.approvals, hash);
  }

  /** crm.lookup and inbox.read are always allowed. */
  lemma ReadRefines(env: Envelope, s: Snapshot, b: Bundle)
    requires Bank(b) && WellFormed(b.manifest) && Reaches(env, s, b) && env.tool in {LOOKUP, INBOX}
    ensures Judge(env, s, b) == Ruling(ExpectRead().verdict, ExpectRead().reasons, Some(ActionHash(b, TheAction(env, s, b))))
  {
    ReachedCase(env, s, b);
    var a := TheAction(env, s, b);
    ReadAction(env, s, b, a);
    BothSee(env, s, b, a);
    hide Case, Judge, Reaches, CheckSnapshot, POLICIES, ActionHash, Evaluate, Eval, Entities, BuildContext,
         TheAction, WellFormed, TOOLS;
    ReadEvaluated(FirstRequest(env, s, b, a));
    ReadEvaluated(SecondRequest(env, s, b, a));
    assert READS_ALLOWED in Pick(true, READS_ALLOWED);
  }

  // ---- what the rule guarantees ----

  /** Nothing leaves a session that holds private data and has read untrusted input, whatever is approved. */
  lemma TaintedEgressDenied(env: Envelope, s: Snapshot, b: Bundle)
    requires Bank(b) && WellFormed(b.manifest) && env.tool in {EMAIL, FETCH} && Tainted(s)
    ensures Judge(env, s, b).verdict == DENY
  {
    hide Judge, Reaches, TheAction, ActionHash, Under, WellFormed, Canonicalize, CheckSnapshot, POLICIES, CONFIG;
    ReachesOrDenied(env, s, b);
    if Reaches(env, s, b) {
      if env.tool == EMAIL { EmailRefines(env, s, b); } else { FetchRefines(env, s, b); }
    }
  }

  /** An allowed refund fits the session cap, and the automatic cap unless this very action was approved. */
  lemma AllowedRefundFits(env: Envelope, s: Snapshot, b: Bundle)
    requires Bank(b) && WellFormed(b.manifest) && env.tool == REFUND && Judge(env, s, b).verdict == ALLOW
    requires forall n :: n in s.counters ==> s.counters[n] >= 0
    ensures Reaches(env, s, b)
    ensures var a := TheAction(env, s, b);
      && REFUNDED in s.counters && "amount" in a.args && a.args["amount"].MoneyValue?
      && var total := s.counters[REFUNDED] + a.args["amount"].amount.minor;
         && total <= APPROVED_PER_SESSION_MINOR
         && (ActionHash(b, a) !in s.approvals ==> total <= AUTO_PER_SESSION_MINOR)
  {
    hide Judge, Reaches, TheAction, ActionHash, WellFormed, AccountOf, Canonicalize, CheckSnapshot, POLICIES, CONFIG;
    ReachesOrDenied(env, s, b);
    RefundRefines(env, s, b);
  }

  lemma ReachesOrDenied(env: Envelope, s: Snapshot, b: Bundle)
    requires WellFormed(b.manifest)
    ensures !Reaches(env, s, b) ==> Judge(env, s, b).verdict == DENY
  {
    hide CheckSnapshot, Canonicalize, Rule, WellFormed;
  }

  /** The recorded decision is the ruling, its reasons sorted. */
  lemma DecisionIsRuling(env: Envelope, s: Snapshot, b: Bundle)
    requires WellFormed(b.manifest)
    ensures var d, r := Decide.Decide(env, s, b), Judge(env, s, b);
      && d.verdict == r.verdict && d.actionHash == r.actionHash
      && (forall x :: x in d.reasons <==> x in r.reasons) && Ascending(ByCodePoint, d.reasons)
  {
    hide Judge, WellFormed, SnapshotHash, InputHash, Text, Ascending;
    SortSetSorts(ByCodePoint, Judge(env, s, b).reasons);
  }
}
