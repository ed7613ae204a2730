/** The business rule written without policies, and the proof that the nine policies decide exactly that. */
module BankOracle {
  import opened Wrappers
  import opened Texts
  import opened Money
  import opened Url
  import opened Manifest
  import opened Canonical
  import opened Cedar
  import opened Decide
  import opened BankServicing

  // ---- the statement of intent ----

  const ALLOWLISTED_DOMAINS: set<string> := {"bank.example", "customer.example"}
  const ALLOWLISTED_HOSTS: set<string> := {"bank.example", "sepa-directory.example"}
  const REPORT_TEMPLATES: set<string> := {"customer_balance", "refund_summary"}
  const AUTO_PER_CALL_MINOR := 20000
  const AUTO_PER_SESSION_MINOR := 50000
  const APPROVED_PER_SESSION_MINOR := 500000

  datatype Account = Missing | Frozen | Active

  datatype Expected = Expected(verdict: Verdict, reasons: set<string>)

  /** A host is covered when one of its right-hand suffixes of at least two labels is allowlisted. */
  predicate Under(host: string, allowed: set<string>) {
    var labels := Split(host, '.');
    exists i :: 0 <= i < |labels| - 1 && Join(labels[i..], '.') in allowed
  }

  function ExpectRefund(minor: int, currency: string, refunded: int, approved: bool, account: Account): Expected {
    if account == Missing then Expected(DENY, {"EVAL_ERROR:no-refund-to-frozen-account"})
    else if account == Frozen then Expected(DENY, {"no-refund-to-frozen-account"})
    else
      var auto := currency == "EUR" && minor <= AUTO_PER_CALL_MINOR && refunded + minor <= AUTO_PER_SESSION_MINOR;
      var withApproval := refunded + minor <= APPROVED_PER_SESSION_MINOR;
      if approved then
        var reasons := (if auto then {"refund-auto"} else {}) + (if withApproval then {"refund-approved"} else {});
        if reasons != {} then Expected(ALLOW, reasons) else Expected(DENY, {"NO_MATCHING_PERMIT"})
      else if auto then Expected(ALLOW, {"refund-auto"})
      else if withApproval then Expected(REQUIRE_APPROVAL, {"refund-approved"})
      else Expected(DENY, {"NO_MATCHING_PERMIT"})
  }

  function ExpectEgress(allowlisted: bool, allowReason: string, labels: set<string>, approved: bool): Expected {
    if {"private_data", "untrusted_input"} <= labels then Expected(DENY, {"no-egress-after-untrusted-with-private"})
    else if approved then Expected(ALLOW, {"egress-approved"} + if allowlisted then {allowReason} else {})
    else if allowlisted then Expected(ALLOW, {allowReason})
    else Expected(REQUIRE_APPROVAL, {"egress-approved"})
  }

  function ExpectEmail(domain: string, labels: set<string>, approved: bool): Expected {
    ExpectEgress(Under(domain, ALLOWLISTED_DOMAINS), "egress-allowlisted-recipient", labels, approved)
  }

  function ExpectFetch(host: string, scheme: string, labels: set<string>, approved: bool): Expected {
    ExpectEgress(Under(host, ALLOWLISTED_HOSTS) && scheme == "https", "egress-allowlisted-host", labels, approved)
  }

  function ExpectReport(name: string): Expected {
    if name in REPORT_TEMPLATES then Expected(ALLOW, {"reports-allowlisted"}) else Expected(DENY, {"NO_MATCHING_PERMIT"})
  }

  function ExpectRead(): Expected {
    Expected(ALLOW, {"reads-allowed"})
  }

  // ---- what the policies see ----

  predicate Sees(r: Request, s: Snapshot, a: Action, hash: string, approved: bool) {
    && r.principal == Uid("Agent", a.principal)
    && r.action == a.tool && r.resource == Decide.Resource(a)
    && {"action_hash", "args", "session"} <= r.context.Keys
    && r.context["action_hash"] == StringTerm(hash)
    && r.context["args"] == RecordTerm(map n | n in a.args :: ContextTerm(a.args[n]))
    && r.context["session"] == SessionTerm(s)
    && (approved <==> "approval" in r.context)
    && (approved ==> r.context["approval"] == ApprovalTerm(hash))
  }

  lemma EvalApproved(r: Request, s: Snapshot, a: Action, hash: string, approved: bool)
    requires Sees(r, s, a, hash, approved)
    ensures Eval(APPROVED, r) == Ok(BoolTerm(approved))
  {
    hide Eval;
    var bound := Equal(Attr(Attr(Context, "approval"), "action_hash"), Attr(Context, "action_hash"));
    EvalContext("approval", r);
    EvalContext("action_hash", r);
    if approved {
      EvalField(Attr(Context, "approval"), map["action_hash" := StringTerm(hash)], "action_hash", r);
      EvalEqual(Attr(Attr(Context, "approval"), "action_hash"), StringTerm(hash), Attr(Context, "action_hash"), StringTerm(hash), r);
    }
    EvalAnd(Has(Context, "approval"), approved, bound, true, r);
  }

  lemma EvalSession(r: Request, s: Snapshot, a: Action, hash: string, approved: bool)
    requires Sees(r, s, a, hash, approved)
    ensures Eval(LABELS, r) == Ok(SetTerm(set l | l in s.labels :: StringTerm(l)))
    ensures Eval(COUNTERS, r) == Ok(RecordTerm(map n | n in s.counters :: LongTerm(s.counters[n])))
  {
    hide Eval;
    EvalContext("session", r);
    EvalField(Attr(Context, "session"), SessionTerm(s).fields, "labels", r);
    EvalField(Attr(Context, "session"), SessionTerm(s).fields, "counters", r);
  }

  lemma EvalHasLabel(r: Request, s: Snapshot, a: Action, hash: string, approved: bool, mark: string)
    requires Sees(r, s, a, hash, approved)
    ensures Eval(Contains(LABELS, Const(StringTerm(mark))), r) == Ok(BoolTerm(mark in s.labels))
  {
    hide Eval;
    EvalSession(r, s, a, hash, approved);
    EvalConst(StringTerm(mark), r);
    EvalContains(LABELS, set l | l in s.labels :: StringTerm(l), Const(StringTerm(mark)), StringTerm(mark), r);
  }

  lemma EvalNoEgress(r: Request, s: Snapshot, a: Action, hash: string, approved: bool)
    requires Sees(r, s, a, hash, approved)
    ensures Eval(NO_EGRESS_POLICY.condition, r) == Ok(BoolTerm({PRIVATE_DATA, UNTRUSTED_INPUT} <= s.labels))
  {
    EvalHasLabel(r, s, a, hash, approved, UNTRUSTED_INPUT);
    EvalHasLabel(r, s, a, hash, approved, PRIVATE_DATA);
    hide Eval, Sees;
    EvalAnd(Contains(LABELS, Const(StringTerm(UNTRUSTED_INPUT))), UNTRUSTED_INPUT in s.labels,
            Contains(LABELS, Const(StringTerm(PRIVATE_DATA))), PRIVATE_DATA in s.labels, r);
  }

  /** The record a policy sees under context.args. */
  lemma EvalArgument(r: Request, s: Snapshot, a: Action, hash: string, approved: bool, name: string)
    requires Sees(r, s, a, hash, approved) && name in a.args
    ensures Eval(Attr(Attr(Context, "args"), name), r) == Ok(ContextTerm(a.args[name]))
  {
    hide Eval, ContextTerm;
    EvalContext("args", r);
    EvalField(Attr(Context, "args"), map n | n in a.args :: ContextTerm(a.args[n]), name, r);
  }

  predicate Refunds(a: Action, amount: Amount) {
    a.tool == REFUND && a.resourceType == "Account" && "amount" in a.args && a.args["amount"] == MoneyValue(amount)
  }

  lemma EvalAmount(r: Request, s: Snapshot, a: Action, hash: string, approved: bool, amount: Amount)
    requires Sees(r, s, a, hash, approved) && Refunds(a, amount)
    ensures Eval(MINOR, r) == Ok(LongTerm(amount.minor))
    ensures Eval(CURRENCY, r) == Ok(StringTerm(amount.currency))
  {
    hide Eval;
    EvalArgument(r, s, a, hash, approved, "amount");
    var fields := map["amount_minor" := LongTerm(amount.minor), "currency" := StringTerm(amount.currency)];
    EvalField(AMOUNT, fields, "amount_minor", r);
    EvalField(AMOUNT, fields, "currency", r);
  }

  lemma EvalSpent(r: Request, s: Snapshot, a: Action, hash: string, approved: bool, amount: Amount)
    requires Sees(r, s, a, hash, approved) && Refunds(a, amount)
    requires REFUNDED in s.counters && MIN_LONG <= s.counters[REFUNDED] + amount.minor <= MAX_LONG
    ensures Eval(SPENT, r) == Ok(LongTerm(s.counters[REFUNDED] + amount.minor))
  {
    EvalAmount(r, s, a, hash, approved, amount);
    EvalSession(r, s, a, hash, approved);
    hide Eval, Sees, Refunds;
    EvalField(COUNTERS, map n | n in s.counters :: LongTerm(s.counters[n]), REFUNDED, r);
    EvalPlus(Attr(COUNTERS, REFUNDED), s.counters[REFUNDED], MINOR, amount.minor, r);
  }

  predicate Auto(amount: Amount, refunded: int) {
    amount.currency == "EUR" && amount.minor <= AUTO_PER_CALL_MINOR && refunded + amount.minor <= AUTO_PER_SESSION_MINOR
  }

  lemma EvalThreeLimits(e: Expr, v: string, w: string, f: Expr, n: int, small: int, g: Expr, m: int, large: int, r: Request)
    requires Eval(e, r) == Ok(StringTerm(v)) && Eval(f, r) == Ok(LongTerm(n)) && Eval(g, r) == Ok(LongTerm(m))
    ensures Eval(And(And(Equal(e, Const(StringTerm(w))), AtMost(f, Const(LongTerm(small)))), AtMost(g, Const(LongTerm(large)))), r)
            == Ok(BoolTerm(v == w && n <= small && m <= large))
  {
    hide Eval;
    EvalConst(StringTerm(w), r);
    EvalEqual(e, StringTerm(v), Const(StringTerm(w)), StringTerm(w), r);
    EvalAtMost(f, n, small, r);
    EvalAtMost(g, m, large, r);
    var x, y, z := Equal(e, Const(StringTerm(w))), AtMost(f, Const(LongTerm(small))), AtMost(g, Const(LongTerm(large)));
    EvalAnd(x, v == w, y, n <= small, r);
    EvalAnd(And(x, y), v == w && n <= small, z, m <= large, r);
  }

  lemma EvalAuto(r: Request, s: Snapshot, a: Action, hash: string, approved: bool, amount: Amount)
    requires Sees(r, s, a, hash, approved) && Refunds(a, amount)
    requires REFUNDED in s.counters && MIN_LONG <= s.counters[REFUNDED] + amount.minor <= MAX_LONG
    ensures Eval(REFUND_AUTO_POLICY.condition, r) == Ok(BoolTerm(Auto(amount, s.counters[REFUNDED])))
  {
    EvalAmount(r, s, a, hash, approved, amount);
    EvalSpent(r, s, a, hash, approved, amount);
    hide Eval, Sees, Refunds;
    EvalThreeLimits(CURRENCY, amount.currency, "EUR", MINOR, amount.minor, 20000,
                    SPENT, s.counters[REFUNDED] + amount.minor, 50000, r);
  }

  lemma EvalBelow(e: Expr, b: bool, f: Expr, n: int, limit: int, r: Request)
    requires Eval(e, r) == Ok(BoolTerm(b)) && Eval(f, r) == Ok(LongTerm(n))
    ensures Eval(And(e, AtMost(f, Const(LongTerm(limit)))), r) == Ok(BoolTerm(b && n <= limit))
  {
    hide Eval;
    EvalAtMost(f, n, limit, r);
    EvalAnd(e, b, AtMost(f, Const(LongTerm(limit))), n <= limit, r);
  }

  lemma EvalRefundApproved(r: Request, s: Snapshot, a: Action, hash: string, approved: bool, amount: Amount)
    requires Sees(r, s, a, hash, approved) && Refunds(a, amount)
    requires REFUNDED in s.counters && MIN_LONG <= s.counters[REFUNDED] + amount.minor <= MAX_LONG
    ensures Eval(REFUND_APPROVED_POLICY.condition, r) ==
            Ok(BoolTerm(approved && s.counters[REFUNDED] + amount.minor <= APPROVED_PER_SESSION_MINOR))
  {
    EvalSpent(r, s, a, hash, approved, amount);
    EvalApproved(r, s, a, hash, approved);
    hide Eval, Sees, Refunds;
    EvalBelow(APPROVED, approved, SPENT, s.counters[REFUNDED] + amount.minor, 500000, r);
  }

  // ---- the account ----

  /** The state of an account according to the facts loaded for this decision. */
  function AccountOf(entities: seq<EntityRecord>, id: string): Account {
    if entities == [] then Missing
    else
      var e := entities[0];
      if e.kind == "Account" && e.id == id then
        if e.attrs == map["frozen" := BoolAttrValue(true)] then Frozen else Active
      else AccountOf(entities[1..], id)
  }

  lemma BankRecord(e: EntityRecord)
    requires CheckEntities(BANK_MANIFEST, [e]) == None
    ensures e.kind == "Account" && "frozen" in e.attrs && e.attrs["frozen"].BoolAttrValue?
    ensures e.attrs == map["frozen" := e.attrs["frozen"]]
  {
    hide TOOLS;
    OneFlag(BANK_MANIFEST, "Account", "frozen", e);
  }

  /** An entity of a manifest that admits one type with one flag. */
  lemma OneFlag(m: Manifest, kind: string, flag: string, e: EntityRecord)
    requires m.snapshotTypes == map[kind := map[flag := BoolAttr]] && CheckEntities(m, [e]) == None
    ensures e.kind == kind && flag in e.attrs && e.attrs[flag].BoolAttrValue? && e.attrs == map[flag := e.attrs[flag]]
  {
  }

  lemma CheckedRest(m: Manifest, entities: seq<EntityRecord>)
    requires entities != [] && CheckEntities(m, entities) == None
    ensures CheckEntities(m, [entities[0]]) == None && CheckEntities(m, entities[1..]) == None
  {
    assert [entities[0]][1..] == [];
  }

  lemma {:induction false} OnlyAccounts(entities: seq<EntityRecord>)
    requires CheckEntities(BANK_MANIFEST, entities) == None
    ensures forall u :: u in FactStore(entities) ==> u.kind == "Account"
  {
    if entities != [] {
      CheckedRest(BANK_MANIFEST, entities);
      BankRecord(entities[0]);
      hide CheckEntities;
      OnlyAccounts(entities[1..]);
    }
  }

  lemma FrozenTerm(attrs: map<string, AttrValue>, frozen: bool)
    requires attrs == map["frozen" := BoolAttrValue(frozen)]
    ensures (map a | a in attrs :: AttrTerm(attrs[a])) == map["frozen" := BoolTerm(frozen)]
    ensures attrs == map["frozen" := BoolAttrValue(true)] <==> frozen
  {
    assert attrs["frozen"] == BoolAttrValue(frozen);
  }

  /** The account a request finds in the fact store. */
  predicate Loaded(store: Store, uid: Uid, account: Account) {
    && (uid in store <==> account != Missing)
    && (account != Missing ==> store[uid].attrs == map["frozen" := BoolTerm(account == Frozen)])
  }

  lemma {:induction false} AccountIsLoaded(entities: seq<EntityRecord>, id: string)
    requires CheckEntities(BANK_MANIFEST, entities) == None
    ensures Loaded(FactStore(entities), Uid("Account", id), AccountOf(entities, id))
  {
    if entities != [] {
      var e := entities[0];
      CheckedRest(BANK_MANIFEST, entities);
      BankRecord(e);
      FrozenTerm(e.attrs, e.attrs["frozen"].b);
      hide CheckEntities;
      AccountIsLoaded(entities[1..], id);
    }
  }

  lemma EvalFrozen(r: Request, account: Account)
    requires Loaded(r.entities, r.resource, account)
    ensures account == Missing ==> Eval(NO_FROZEN_POLICY.condition, r).Err?
    ensures account != Missing ==> Eval(NO_FROZEN_POLICY.condition, r) == Ok(BoolTerm(account == Frozen))
  {
  }

  // ---- refunds ----

  lemma Names()
    ensures REFUND !in {EMAIL, FETCH, REPORT, LOOKUP, INBOX} && EMAIL !in {FETCH, REPORT, LOOKUP, INBOX}
    ensures FETCH !in {REPORT, LOOKUP, INBOX} && REPORT !in {LOOKUP, INBOX} && LOOKUP != INBOX
    ensures "Egress" != "Read"
  {
  }

  lemma OutOfScope(p: Policy, r: Request)
    requires !InScope(p, r)
    ensures !On(p, r, Permit) && !On(p, r, Forbid) && !Errored(p, r)
  {
  }

  lemma Conditioned(p: Policy, r: Request, b: bool)
    requires InScope(p, r) && Eval(p.condition, r) == Ok(BoolTerm(b))
    ensures (On(p, r, Permit) <==> p.effect == Permit && b) && (On(p, r, Forbid) <==> p.effect == Forbid && b) && !Errored(p, r)
  {
  }

  function RefundEvaluation(auto: bool, approvable: bool, account: Account): Evaluation {
    var permits := Pick(auto, REFUND_AUTO) + Pick(approvable, REFUND_APPROVED);
    if account == Frozen then Evaluation(false, {NO_FROZEN}, {})
    else if account == Missing then Evaluation(false, permits, {NO_FROZEN})
    else Evaluation(permits != {}, permits, {})
  }

  lemma RefundScope(r: Request)
    requires r.principal.kind == "Agent" && r.action == REFUND && r.actionGroups == {} && r.resource.kind == "Account"
    ensures InScope(NO_FROZEN_POLICY, r) && InScope(REFUND_AUTO_POLICY, r) && InScope(REFUND_APPROVED_POLICY, r)
    ensures !InScope(NO_EGRESS_POLICY, r) && !InScope(EGRESS_RECIPIENT_POLICY, r) && !InScope(EGRESS_HOST_POLICY, r)
    ensures !InScope(EGRESS_APPROVED_POLICY, r) && !InScope(REPORTS_ALLOWED_POLICY, r)
            && !InScope(READS_ALLOWED_POLICY, r)
  {
    Names();
  }

  lemma RefundMarks(r: Request, auto: bool, approvable: bool, account: Account)
    requires r.principal.kind == "Agent" && r.action == REFUND && r.actionGroups == {} && r.resource.kind == "Account"
    requires Eval(REFUND_AUTO_POLICY.condition, r) == Ok(BoolTerm(auto))
    requires Eval(REFUND_APPROVED_POLICY.condition, r) == Ok(BoolTerm(approvable))
    requires account == Missing ==> Eval(NO_FROZEN_POLICY.condition, r).Err?
    requires account != Missing ==> Eval(NO_FROZEN_POLICY.condition, r) == Ok(BoolTerm(account == Frozen))
    ensures AllOn(RULES, r, Permit) == Nine(false, false, auto, approvable, false, false, false, false, false)
    ensures AllOn(RULES, r, Forbid) == Nine(false, account == Frozen, false, false, false, false, false, false, false)
    ensures AllErrored(RULES, r) == Nine(false, account == Missing, false, false, false, false, false, false, false)
  {
    RefundScope(r);
    OutOfScope(NO_EGRESS_POLICY, r);
    OutOfScope(EGRESS_RECIPIENT_POLICY, r);
    OutOfScope(EGRESS_HOST_POLICY, r);
    OutOfScope(EGRESS_APPROVED_POLICY, r);
    OutOfScope(REPORTS_ALLOWED_POLICY, r);
    OutOfScope(READS_ALLOWED_POLICY, r);
    Conditioned(REFUND_AUTO_POLICY, r, auto);
    Conditioned(REFUND_APPROVED_POLICY, r, approvable);
    if account == Missing {
      assert Errored(NO_FROZEN_POLICY, r) && !On(NO_FROZEN_POLICY, r, Permit) && !On(NO_FROZEN_POLICY, r, Forbid);
    } else {
      Conditioned(NO_FROZEN_POLICY, r, account == Frozen);
    }
    hide Eval, On, Errored, InScope;
  }

  lemma RefundEvaluated(r: Request, auto: bool, approvable: bool, account: Account)
    requires r.principal.kind == "Agent" && r.action == REFUND && r.actionGroups == {} && r.resource.kind == "Account"
    requires Eval(REFUND_AUTO_POLICY.condition, r) == Ok(BoolTerm(auto))
    requires Eval(REFUND_APPROVED_POLICY.condition, r) == Ok(BoolTerm(approvable))
    requires account == Missing ==> Eval(NO_FROZEN_POLICY.condition, r).Err?
    requires account != Missing ==> Eval(NO_FROZEN_POLICY.condition, r) == Ok(BoolTerm(account == Frozen))
    ensures Evaluate(POLICIES, r) == RefundEvaluation(auto, approvable, account)
  {
    PolicyTable();
    NinePolicies(POLICIES, IDS, RULES, r, Permit);
    NinePolicies(POLICIES, IDS, RULES, r, Forbid);
    RefundMarks(r, auto, approvable, account);
    hide Eval, SatisfiedIds, ErroredIds, Tabled, AllOn, AllErrored;
  }

  lemma OneError(id: string)
    ensures EvalErrors({id}) == {"EVAL_ERROR:" + id}
  {
  }

  lemma RefundCombined(amount: Amount, refunded: int, approved: bool, account: Account, hash: string)
    ensures var auto, within := Auto(amount, refunded), refunded + amount.minor <= APPROVED_PER_SESSION_MINOR;
      var x := ExpectRefund(amount.minor, amount.currency, refunded, approved, account);
      Combine(RefundEvaluation(auto, approved && within, account), approved, RefundEvaluation(auto, within, account), hash)
      == Ruling(x.verdict, x.reasons, Some(hash))
  {
    OneError(NO_FROZEN);
    assert "EVAL_ERROR:" + NO_FROZEN == "EVAL_ERROR:no-refund-to-frozen-account";
    hide EvalErrors;
    assert REFUND_AUTO in Pick(true, REFUND_AUTO) && REFUND_APPROVED in Pick(true, REFUND_APPROVED);
  }

  // ---- the suffix hierarchy ----

  lemma TwoMembers(store: Store, x: Uid, y: Uid)
    requires x in store && y in store && x != y
    ensures |store| >= 2
  {
    assert {x, y} <= store.Keys;
    var rest := store.Keys - {x, y};
    assert store.Keys == {x, y} + rest;
  }

  predicate Share(a: set<Uid>, b: set<Uid>) { exists p :: p in a && p in b }

  function Named(kind: string, ids: set<string>): set<Uid> { set x | x in ids :: Uid(kind, x) }

  /** A resource under its derived parents reaches a group exactly when one of the parents is listed in it. */
  lemma TwoLevels(store: Store, u: Uid, group: Uid, listed: set<Uid>)
    requires u != group && u in store && group !in store[u].parents && |store| >= 2
    requires forall p :: p in store[u].parents && p in store ==> p in listed
    requires forall p :: p in listed ==> p in store && store[p].parents == {group}
    ensures Member(store, u, group) <==> Share(store[u].parents, listed)
  {
    forall p | p in store[u].parents ensures Within(store, p, group, |store| - 1) <==> p in listed {
      if p in listed {
        assert group in store[p].parents && Within(store, group, group, |store| - 2);
      }
    }
  }

  function SuffixUids(kind: string, host: string): set<Uid> { set x | x in HostSuffixes(host) :: Uid(kind, x) }

  /** The suffixes a host hangs under are exactly the ones the statement of intent looks at. */
  lemma SuffixesAgree(host: string, kind: string, allowed: set<string>)
    requires host == [] || host[0] != '['
    ensures Under(host, allowed) <==> Share(SuffixUids(kind, host), Named(kind, allowed))
  {
    var labels, suffixes := Split(host, '.'), HostSuffixes(host);
    assert forall i :: 0 <= i < |labels| - 1 ==> suffixes[i] == Join(labels[i..], '.');
    hide HostSuffixes, Split, Join;
    if i :| 0 <= i < |labels| - 1 && Join(labels[i..], '.') in allowed {
      assert suffixes[i] in suffixes;
      assert Uid(kind, suffixes[i]) in SuffixUids(kind, host) && Uid(kind, suffixes[i]) in Named(kind, allowed);
    }
    if p :| p in SuffixUids(kind, host) && p in Named(kind, allowed) {
      var i :| 0 <= i < |suffixes| && suffixes[i] == p.id;
      assert Join(labels[i..], '.') in allowed;
    }
  }

  lemma ConfigTable()
    ensures CONFIG.Keys == {RECIPIENTS, HOSTS} + Named("DomainSuffix", ALLOWLISTED_DOMAINS) + Named("HostSuffix", ALLOWLISTED_HOSTS)
    ensures forall p :: p in Named("DomainSuffix", ALLOWLISTED_DOMAINS) ==> CONFIG[p].parents == {RECIPIENTS}
    ensures forall p :: p in Named("HostSuffix", ALLOWLISTED_HOSTS) ==> CONFIG[p].parents == {HOSTS}
  {
  }

  lemma KindNames()
    ensures "DomainSuffix" !in {"RecipientGroup", "HostGroup", "HostSuffix", "Account", "Recipient", "Host"}
    ensures "HostSuffix" !in {"RecipientGroup", "HostGroup", "Account", "Recipient", "Host"}
    ensures "Recipient" !in {"RecipientGroup", "HostGroup", "Account"}
            && "Host" !in {"RecipientGroup", "HostGroup", "Account"}
    ensures "Account" !in {"RecipientGroup", "HostGroup"}
    ensures RECIPIENTS != HOSTS
  {
    assert "Host" != "HostGroup" && "Recipient" != "RecipientGroup" && "HostSuffix" != "Host";
  }

  predicate Allowlist(kind: string, suffixKind: string, group: Uid, allowed: set<string>) {
    || (kind == "Recipient" && suffixKind == "DomainSuffix" && group == RECIPIENTS && allowed == ALLOWLISTED_DOMAINS)
    || (kind == "Host" && suffixKind == "HostSuffix" && group == HOSTS && allowed == ALLOWLISTED_HOSTS)
  }

  predicate Hierarchy(config: Store, facts: Store, u: Uid, suffixKind: string, group: Uid, allowed: set<string>) {
    && u !in config && u !in facts && group in config && suffixKind != u.kind && suffixKind != group.kind
    && (forall p :: p in facts ==> p.kind != suffixKind)
    && (forall p :: p in Named(suffixKind, allowed) ==> p in config && config[p].parents == {group})
    && (forall p :: p in config && p.kind == suffixKind ==> p in Named(suffixKind, allowed))
  }

  function WithResource(store: Store, u: Uid, parents: set<Uid>): Store {
    if parents == {} then store else store[u := EntityData(map[], parents)]
  }

  lemma Reached(config: Store, facts: Store, u: Uid, suffixKind: string, group: Uid, allowed: set<string>)
    requires Hierarchy(config, facts, u, suffixKind, group, allowed) && (u.id == [] || u.id[0] != '[')
    ensures Member(WithResource(config + facts, u, SuffixUids(suffixKind, u.id)), u, group) <==> Under(u.id, allowed)
  {
    var parents := SuffixUids(suffixKind, u.id);
    var store := config + facts;
    SuffixesAgree(u.id, suffixKind, allowed);
    hide Under;
    if parents == {} {
      assert u !in store && u != group;
    } else {
      var full := store[u := EntityData(map[], parents)];
      var listed := Named(suffixKind, allowed);
      assert forall p :: p in parents ==> p.kind == suffixKind;
      assert forall p :: p in listed ==> p.kind == suffixKind && p in full;
      hide HostSuffixes, SuffixUids, Named;
      TwoMembers(full, u, group);
      assert forall p :: p in listed ==> full[p] == config[p];
      TwoLevels(full, u, group, listed);
    }
  }

  lemma BankHierarchy(facts: Store, u: Uid, suffixKind: string, group: Uid, allowed: set<string>)
    requires forall f :: f in facts ==> f.kind == "Account"
    requires Allowlist(u.kind, suffixKind, group, allowed)
    ensures Hierarchy(CONFIG, facts, u, suffixKind, group, allowed)
  {
    KindNames();
    ConfigTable();
    assert forall p :: p in CONFIG ==> p.kind in {"RecipientGroup", "HostGroup", "DomainSuffix", "HostSuffix"};
    hide CONFIG, ALLOWLISTED_DOMAINS, ALLOWLISTED_HOSTS;
  }

  /** The hierarchy of a request reaches an allowlist exactly when its host or domain is covered. */
  lemma Covered(facts: Store, u: Uid, suffixKind: string, group: Uid, allowed: set<string>)
    requires forall f :: f in facts ==> f.kind == "Account"
    requires Allowlist(u.kind, suffixKind, group, allowed) && (u.id == [] || u.id[0] != '[')
    ensures Member(WithResource(CONFIG + facts, u, SuffixUids(suffixKind, u.id)), u, group) <==> Under(u.id, allowed)
  {
    BankHierarchy(facts, u, suffixKind, group, allowed);
    Reached(CONFIG, facts, u, suffixKind, group, allowed);
  }

  // ---- egress ----

  function EgressEvaluation(blocked: bool, listed: bool, id: string, approved: bool): Evaluation {
    var permits := Pick(listed, id) + Pick(approved, EGRESS_APPROVED);
    if blocked then Evaluation(false, {NO_EGRESS}, {}) else Evaluation(permits != {}, permits, {})
  }

  lemma EmailScope(r: Request)
    requires r.principal.kind == "Agent" && r.action == EMAIL && r.actionGroups == {"Egress"}
             && r.resource.kind == "Recipient"
    ensures InScope(NO_EGRESS_POLICY, r) && InScope(EGRESS_RECIPIENT_POLICY, r) && InScope(EGRESS_APPROVED_POLICY, r)
    ensures !InScope(NO_FROZEN_POLICY, r) && !InScope(REFUND_AUTO_POLICY, r) && !InScope(REFUND_APPROVED_POLICY, r)
    ensures !InScope(EGRESS_HOST_POLICY, r) && !InScope(REPORTS_ALLOWED_POLICY, r) && !InScope(READS_ALLOWED_POLICY, r)
  {
    Names();
  }

  lemma FetchScope(r: Request)
    requires r.principal.kind == "Agent" && r.action == FETCH && r.actionGroups == {"Egress"}
             && r.resource.kind == "Host"
    ensures InScope(NO_EGRESS_POLICY, r) && InScope(EGRESS_HOST_POLICY, r) && InScope(EGRESS_APPROVED_POLICY, r)
    ensures !InScope(NO_FROZEN_POLICY, r) && !InScope(REFUND_AUTO_POLICY, r) && !InScope(REFUND_APPROVED_POLICY, r)
    ensures !InScope(EGRESS_RECIPIENT_POLICY, r) && !InScope(REPORTS_ALLOWED_POLICY, r)
            && !InScope(READS_ALLOWED_POLICY, r)
  {
    Names();
  }

  lemma EmailMarks(r: Request, blocked: bool, listed: bool, approved: bool)
    requires r.principal.kind == "Agent" && r.action == EMAIL && r.actionGroups == {"Egress"}
             && r.resource.kind == "Recipient"
    requires Eval(NO_EGRESS_POLICY.condition, r) == Ok(BoolTerm(blocked))
    requires Eval(EGRESS_RECIPIENT_POLICY.condition, r) == Ok(BoolTerm(listed))
    requires Eval(EGRESS_APPROVED_POLICY.condition, r) == Ok(BoolTerm(approved))
    ensures AllOn(RULES, r, Permit) == Nine(false, false, false, false, listed, false, approved, false, false)
    ensures AllOn(RULES, r, Forbid) == Nine(blocked, false, false, false, false, false, false, false, false)
    ensures AllErrored(RULES, r) == Nine(false, false, false, false, false, false, false, false, false)
  {
    EmailScope(r);
    OutOfScope(NO_FROZEN_POLICY, r);
    OutOfScope(REFUND_AUTO_POLICY, r);
    OutOfScope(REFUND_APPROVED_POLICY, r);
    OutOfScope(EGRESS_HOST_POLICY, r);
    OutOfScope(REPORTS_ALLOWED_POLICY, r);
    OutOfScope(READS_ALLOWED_POLICY, r);
    Conditioned(NO_EGRESS_POLICY, r, blocked);
    Conditioned(EGRESS_RECIPIENT_POLICY, r, listed);
    Conditioned(EGRESS_APPROVED_POLICY, r, approved);
    hide Eval, On, Errored, InScope;
  }

  lemma FetchMarks(r: Request, blocked: bool, listed: bool, approved: bool)
    requires r.principal.kind == "Agent" && r.action == FETCH && r.actionGroups == {"Egress"}
             && r.resource.kind == "Host"
    requires Eval(NO_EGRESS_POLICY.condition, r) == Ok(BoolTerm(blocked))
    requires Eval(EGRESS_HOST_POLICY.condition, r) == Ok(BoolTerm(listed))
    requires Eval(EGRESS_APPROVED_POLICY.condition, r) == Ok(BoolTerm(approved))
    ensures AllOn(RULES, r, Permit) == Nine(false, false, false, false, false, listed, approved, false, false)
    ensures AllOn(RULES, r, Forbid) == Nine(blocked, false, false, false, false, false, false, false, false)
    ensures AllErrored(RULES, r) == Nine(false, false, false, false, false, false, false, false, false)
  {
    FetchScope(r);
    OutOfScope(NO_FROZEN_POLICY, r);
    OutOfScope(REFUND_AUTO_POLICY, r);
    OutOfScope(REFUND_APPROVED_POLICY, r);
    OutOfScope(EGRESS_RECIPIENT_POLICY, r);
    OutOfScope(REPORTS_ALLOWED_POLICY, r);
    OutOfScope(READS_ALLOWED_POLICY, r);
    Conditioned(NO_EGRESS_POLICY, r, blocked);
    Conditioned(EGRESS_HOST_POLICY, r, listed);
    Conditioned(EGRESS_APPROVED_POLICY, r, approved);
    hide Eval, On, Errored, InScope;
  }

  lemma EmailEvaluated(r: Request, blocked: bool, listed: bool, approved: bool)
    requires r.principal.kind == "Agent" && r.action == EMAIL && r.actionGroups == {"Egress"}
             && r.resource.kind == "Recipient"
    requires Eval(NO_EGRESS_POLICY.condition, r) == Ok(BoolTerm(blocked))
    requires Eval(EGRESS_RECIPIENT_POLICY.condition, r) == Ok(BoolTerm(listed))
    requires Eval(EGRESS_APPROVED_POLICY.condition, r) == Ok(BoolTerm(approved))
    ensures Evaluate(POLICIES, r) == EgressEvaluation(blocked, listed, EGRESS_RECIPIENT, approved)
  {
    PolicyTable();
    NinePolicies(POLICIES, IDS, RULES, r, Permit);
    NinePolicies(POLICIES, IDS, RULES, r, Forbid);
    EmailMarks(r, blocked, listed, approved);
    hide Eval, SatisfiedIds, ErroredIds, Tabled, AllOn, AllErrored;
  }

  lemma FetchEvaluated(r: Request, blocked: bool, listed: bool, approved: bool)
    requires r.principal.kind == "Agent" && r.action == FETCH && r.actionGroups == {"Egress"}
             && r.resource.kind == "Host"
    requires Eval(NO_EGRESS_POLICY.condition, r) == Ok(BoolTerm(blocked))
    requires Eval(EGRESS_HOST_POLICY.condition, r) == Ok(BoolTerm(listed))
    requires Eval(EGRESS_APPROVED_POLICY.condition, r) == Ok(BoolTerm(approved))
    ensures Evaluate(POLICIES, r) == EgressEvaluation(blocked, listed, EGRESS_HOST, approved)
  {
    PolicyTable();
    NinePolicies(POLICIES, IDS, RULES, r, Permit);
    NinePolicies(POLICIES, IDS, RULES, r, Forbid);
    FetchMarks(r, blocked, listed, approved);
    hide Eval, SatisfiedIds, ErroredIds, Tabled, AllOn, AllErrored;
  }

  lemma EgressCombined(allowlisted: bool, id: string, labels: set<string>, approved: bool, hash: string)
    ensures var blocked := {PRIVATE_DATA, UNTRUSTED_INPUT} <= labels;
      var x := ExpectEgress(allowlisted, id, labels, approved);
      Combine(EgressEvaluation(blocked, allowlisted, id, approved), approved, EgressEvaluation(blocked, allowlisted, id, true), hash)
      == Ruling(x.verdict, x.reasons, Some(hash))
  {
    assert id in Pick(true, id) && EGRESS_APPROVED in Pick(true, EGRESS_APPROVED);
    assert EvalErrors({}) == {};
    hide EvalErrors;
  }

  // ---- reports and reads ----

  lemma ReportMarks(r: Request, listed: bool)
    requires r.principal.kind == "Agent" && r.action == REPORT && r.actionGroups == {} && r.resource.kind == "Report"
    requires Eval(REPORTS_ALLOWED_POLICY.condition, r) == Ok(BoolTerm(listed))
    ensures AllOn(RULES, r, Permit) == Nine(false, false, false, false, false, false, false, listed, false)
    ensures AllOn(RULES, r, Forbid) == Nine(false, false, false, false, false, false, false, false, false)
    ensures AllErrored(RULES, r) == Nine(false, false, false, false, false, false, false, false, false)
  {
    Names();
    OutOfScope(NO_EGRESS_POLICY, r);
    OutOfScope(NO_FROZEN_POLICY, r);
    OutOfScope(REFUND_AUTO_POLICY, r);
    OutOfScope(REFUND_APPROVED_POLICY, r);
    OutOfScope(EGRESS_RECIPIENT_POLICY, r);
    OutOfScope(EGRESS_HOST_POLICY, r);
    OutOfScope(EGRESS_APPROVED_POLICY, r);
    OutOfScope(READS_ALLOWED_POLICY, r);
    Conditioned(REPORTS_ALLOWED_POLICY, r, listed);
    hide Eval, On, Errored, InScope;
  }

  lemma ReadMarks(r: Request)
    requires r.principal.kind == "Agent" && r.action in {LOOKUP, INBOX} && r.actionGroups == {"Read"}
    ensures AllOn(RULES, r, Permit) == Nine(false, false, false, false, false, false, false, false, true)
    ensures AllOn(RULES, r, Forbid) == Nine(false, false, false, false, false, false, false, false, false)
    ensures AllErrored(RULES, r) == Nine(false, false, false, false, false, false, false, false, false)
  {
    Names();
    OutOfScope(NO_EGRESS_POLICY, r);
    OutOfScope(NO_FROZEN_POLICY, r);
    OutOfScope(REFUND_AUTO_POLICY, r);
    OutOfScope(REFUND_APPROVED_POLICY, r);
    OutOfScope(EGRESS_RECIPIENT_POLICY, r);
    OutOfScope(EGRESS_HOST_POLICY, r);
    OutOfScope(EGRESS_APPROVED_POLICY, r);
    OutOfScope(REPORTS_ALLOWED_POLICY, r);
    EvalConst(BoolTerm(true), r);
    Conditioned(READS_ALLOWED_POLICY, r, true);
    hide Eval, On, Errored, InScope;
  }

  function OnePermitEvaluation(listed: bool, id: string): Evaluation {
    Evaluation(listed, Pick(listed, id), {})
  }

  lemma ReportEvaluated(r: Request, listed: bool)
    requires r.principal.kind == "Agent" && r.action == REPORT && r.actionGroups == {} && r.resource.kind == "Report"
    requires Eval(REPORTS_ALLOWED_POLICY.condition, r) == Ok(BoolTerm(listed))
    ensures Evaluate(POLICIES, r) == OnePermitEvaluation(listed, REPORTS_ALLOWED)
  {
    PolicyTable();
    NinePolicies(POLICIES, IDS, RULES, r, Permit);
    NinePolicies(POLICIES, IDS, RULES, r, Forbid);
    ReportMarks(r, listed);
    assert REPORTS_ALLOWED in Pick(true, REPORTS_ALLOWED);
    hide Eval, SatisfiedIds, ErroredIds, Tabled, AllOn, AllErrored;
  }

  lemma ReadEvaluated(r: Request)
    requires r.principal.kind == "Agent" && r.action in {LOOKUP, INBOX} && r.actionGroups == {"Read"}
    ensures Evaluate(POLICIES, r) == OnePermitEvaluation(true, READS_ALLOWED)
  {
    PolicyTable();
    NinePolicies(POLICIES, IDS, RULES, r, Permit);
    NinePolicies(POLICIES, IDS, RULES, r, Forbid);
    ReadMarks(r);
    assert READS_ALLOWED in Pick(true, READS_ALLOWED);
    hide Eval, SatisfiedIds, ErroredIds, Tabled, AllOn, AllErrored;
  }

  lemma EvalReport(r: Request, s: Snapshot, a: Action, hash: string, approved: bool, name: string, params: map<string, ScalarValue>)
    requires Sees(r, s, a, hash, approved) && "report" in a.args && a.args["report"] == TemplateValue(name, params)
    ensures Eval(REPORTS_ALLOWED_POLICY.condition, r) == Ok(BoolTerm(name in REPORT_TEMPLATES))
  {
    hide Eval;
    EvalArgument(r, s, a, hash, approved, "report");
    var named := Attr(Attr(Attr(Context, "args"), "report"), "name");
    var listed := {StringTerm("customer_balance"), StringTerm("refund_summary")};
    EvalField(Attr(Attr(Context, "args"), "report"), map["name" := StringTerm(name)], "name", r);
    EvalConst(SetTerm(listed), r);
    EvalContains(Const(SetTerm(listed)), listed, named, StringTerm(name), r);
  }

  lemma EvalHost(r: Request, s: Snapshot, a: Action, hash: string, approved: bool, u: Url)
    requires Sees(r, s, a, hash, approved) && "url" in a.args && a.args["url"] == UrlValue(u)
    ensures Eval(EGRESS_HOST_POLICY.condition, r) == Ok(BoolTerm(Member(r.entities, r.resource, HOSTS) && u.scheme == "https"))
  {
    hide Eval, Member;
    EvalArgument(r, s, a, hash, approved, "url");
    var scheme := Attr(Attr(Attr(Context, "args"), "url"), "scheme");
    EvalField(Attr(Attr(Context, "args"), "url"), ContextTerm(UrlValue(u)).fields, "scheme", r);
    EvalConst(StringTerm("https"), r);
    EvalEqual(scheme, StringTerm(u.scheme), Const(StringTerm("https")), StringTerm("https"), r);
    EvalInGroup(HOSTS, r);
    EvalAnd(InGroup(Expr.Resource, HOSTS), Member(r.entities, r.resource, HOSTS),
            Equal(scheme, Const(StringTerm("https"))), u.scheme == "https", r);
  }
}
