/** The pure decision function: three verdicts from two evaluations, and the hashes that record them. */
module Decide {
  import opened Wrappers
  import opened Texts
  import opened Ordering
  import opened Json
  import opened Unicode
  import opened Syntax
  import opened Manifest
  import opened Canonical
  import opened Cedar

  type Sha = string -> string

  /** Domain-separated digest of canonical JSON. */
  function Digest(sha: Sha, tag: string, v: Json): string {
    sha(tag + "\0" + Text(v))
  }

  datatype Bundle = Bundle(
    manifest: Manifest,
    policies: Policies,
    config: Store,
    policyHash: string,
    gate: Json,
    sha: Sha,
    tables: Tables)

  /** A loaded bundle: a parsed manifest, kebab-case policy ids, a hashable identity, and a digest that spells hashes. */
  ghost predicate ValidBundle(b: Bundle) {
    && WellFormed(b.manifest)
    && (forall id :: id in b.policies ==> IsPolicyId(id))
    && InRange(b.gate)
    && (forall t: string :: IsHash(b.sha(t)))
  }

  // ---- snapshots ----

  datatype AttrValue = BoolAttrValue(b: bool) | IntAttrValue(n: int) | StringAttrValue(s: string)

  datatype EntityRecord = EntityRecord(kind: string, id: string, attrs: map<string, AttrValue>)

  datatype Snapshot = Snapshot(
    sessionId: string,
    ledgerSeq: int,
    labels: set<string>,
    counters: map<string, int>,
    approvals: set<string>,
    entities: seq<EntityRecord>)

  function AttrJson(a: AttrValue): Json {
    match a
    case BoolAttrValue(b) => JBool(b)
    case IntAttrValue(n) => JInt(n)
    case StringAttrValue(s) => JStr(s)
  }

  function RecordJson(e: EntityRecord): Json {
    JObj(map["attrs" := JObj(map a | a in e.attrs :: AttrJson(e.attrs[a])), "id" := JStr(e.id), "type" := JStr(e.kind)])
  }

  function Strings(items: seq<string>): Json {
    JArr(seq(|items|, i requires 0 <= i < |items| => JStr(items[i])))
  }

  function CountersJson(c: map<string, int>): Json {
    JObj(map n | n in c :: JInt(c[n]))
  }

  function SnapshotJson(s: Snapshot): Json {
    JObj(map[
      "approvals" := Strings(SortedKeys(s.approvals)),
      "entities" := JArr(seq(|s.entities|, i requires 0 <= i < |s.entities| => RecordJson(s.entities[i]))),
      "counters" := CountersJson(s.counters),
      "labels" := Strings(SortedKeys(s.labels)),
      "ledger_seq" := JInt(s.ledgerSeq),
      "session_id" := JStr(s.sessionId)])
  }

  function EnvelopeJson(e: Envelope): Json {
    JObj(map["arguments" := JStr(e.arguments), "principal" := JStr(e.principal), "session_id" := JStr(e.sessionId),
             "t_ms" := JInt(e.tMs), "tool" := JStr(e.tool)])
  }

  predicate AttrMatches(kind: AttrKind, v: AttrValue) {
    match kind
    case BoolAttr => v.BoolAttrValue?
    case IntAttr => v.IntAttrValue? && -MAX_SAFE_INT <= v.n <= MAX_SAFE_INT
    case StringAttr => v.StringAttrValue?
  }

  function CheckEntities(m: Manifest, entities: seq<EntityRecord>): Option<string> {
    if entities == [] then None
    else
      var e := entities[0];
      if e.kind !in m.snapshotTypes then Some("entity_type_not_allowed")
      else if e.attrs.Keys != m.snapshotTypes[e.kind].Keys then Some("entity_attrs_mismatch")
      else if exists a :: a in e.attrs && !AttrMatches(m.snapshotTypes[e.kind][a], e.attrs[a]) then Some("entity_attr_type")
      else CheckEntities(m, entities[1..])
  }

  /** Snapshots carry runtime facts only: unknown labels, counters or entities are refused. */
  function CheckSnapshot(m: Manifest, s: Snapshot): Option<string> {
    if !(s.labels <= m.labels) then Some("unknown_label")
    else if s.counters.Keys != m.counters.Keys then Some("counter_mismatch")
    else if exists n :: n in s.counters && s.counters[n] > m.counters[n] then Some("counter_over_maximum")
    else CheckEntities(m, s.entities)
  }

  // ---- the request ----

  function ScalarTerm(s: ScalarValue): Term {
    match s
    case BoolValue(b) => BoolTerm(b)
    case IntValue(n) => LongTerm(n)
    case TextValue(t) => StringTerm(t)
  }

  /** What a policy may read of an argument; template parameters stay out. */
  function ContextTerm(v: Value): Term {
    match v
    case Plain(s) => ScalarTerm(s)
    case MoneyValue(a) => RecordTerm(map["amount_minor" := LongTerm(a.minor), "currency" := StringTerm(a.currency)])
    case EmailValue(address, domain) => RecordTerm(map["address" := StringTerm(address), "domain" := StringTerm(domain)])
    case UrlValue(u) => RecordTerm(map["host" := StringTerm(u.host), "path" := StringTerm(u.path),
                                       "port" := LongTerm(u.port), "query" := StringTerm(u.query), "scheme" := StringTerm(u.scheme)])
    case TemplateValue(name, _) => RecordTerm(map["name" := StringTerm(name)])
  }

  function SessionTerm(s: Snapshot): Term {
    RecordTerm(map[
      "counters" := RecordTerm(map n | n in s.counters :: LongTerm(s.counters[n])),
      "labels" := SetTerm(set l | l in s.labels :: StringTerm(l)),
      "ledger_seq" := LongTerm(s.ledgerSeq)])
  }

  function ApprovalTerm(hash: string): Term {
    RecordTerm(map["action_hash" := StringTerm(hash)])
  }

  function BuildContext(env: Envelope, s: Snapshot, a: Action, hash: string): map<string, Term> {
    var context := map[
      "action_hash" := StringTerm(hash),
      "args" := RecordTerm(map n | n in a.args :: ContextTerm(a.args[n])),
      "now_ms" := LongTerm(env.tMs),
      "session" := SessionTerm(s)];
    if hash in s.approvals then context["approval" := ApprovalTerm(hash)] else context
  }

  function AttrTerm(a: AttrValue): Term {
    match a
    case BoolAttrValue(b) => BoolTerm(b)
    case IntAttrValue(n) => LongTerm(n)
    case StringAttrValue(s) => StringTerm(s)
  }

  function FactStore(entities: seq<EntityRecord>): Store {
    if entities == [] then map[]
    else
      var e := entities[0];
      FactStore(entities[1..])[Uid(e.kind, e.id) := EntityData(map a | a in e.attrs :: AttrTerm(e.attrs[a]), {})]
  }

  function Resource(a: Action): Uid { Uid(a.resourceType, a.resourceId) }

  /** Configuration, the snapshot's facts, and the resource under its derived parents. */
  function Entities(b: Bundle, a: Action, s: Snapshot): Store {
    var store := b.config + FactStore(s.entities);
    if a.parents == {} then store else store[Resource(a) := EntityData(map[], a.parents)]
  }

  function MakeRequest(b: Bundle, a: Action, s: Snapshot, context: map<string, Term>): Request
    requires a.tool in b.manifest.tools
  {
    Request(Uid(a.principalType, a.principal), a.tool, b.manifest.tools[a.tool].groups, Resource(a), context, Entities(b, a, s))
  }

  // ---- the ruling ----

  datatype Verdict = ALLOW | DENY | REQUIRE_APPROVAL

  datatype Ruling = Ruling(verdict: Verdict, reasons: set<string>, actionHash: Option<string>)

  const NO_MATCHING_PERMIT := "NO_MATCHING_PERMIT"

  function EvalErrors(errors: set<string>): set<string> {
    set e | e in errors :: "EVAL_ERROR:" + e
  }

  /** The verdict from the request as it stands and, when nothing but the default denies it, as if approved. */
  function Combine(first: Evaluation, approved: bool, second: Evaluation, hash: string): (r: Ruling)
    ensures r.actionHash == Some(hash)
  {
    if first.errors != {} then Ruling(DENY, EvalErrors(first.errors), Some(hash))
    else if first.allowed then Ruling(ALLOW, first.reasons, Some(hash))
    else if first.reasons != {} then Ruling(DENY, first.reasons, Some(hash))
    else if approved then Ruling(DENY, {NO_MATCHING_PERMIT}, Some(hash))
    else if second.errors != {} then Ruling(DENY, EvalErrors(second.errors), Some(hash))
    else if second.allowed then Ruling(REQUIRE_APPROVAL, second.reasons, Some(hash))
    else Ruling(DENY, if second.reasons != {} then second.reasons else {NO_MATCHING_PERMIT}, Some(hash))
  }

  function ActionHash(b: Bundle, a: Action): string {
    Digest(b.sha, "dag/action/v1", ActionJson(a))
  }

  function Rule(env: Envelope, s: Snapshot, b: Bundle, a: Action): (r: Ruling)
    requires a.tool in b.manifest.tools
    ensures r.actionHash == Some(ActionHash(b, a))
  {
    var hash := ActionHash(b, a);
    var context := BuildContext(env, s, a, hash);
    Combine(Evaluate(b.policies, MakeRequest(b, a, s, context)),
            "approval" in context,
            Evaluate(b.policies, MakeRequest(b, a, s, context["approval" := ApprovalTerm(hash)])),
            hash)
  }

  function Judge(env: Envelope, s: Snapshot, b: Bundle): (r: Ruling)
    requires WellFormed(b.manifest)
    ensures r.verdict != DENY ==> r.actionHash.Some?
  {
    if env.sessionId != s.sessionId then Ruling(DENY, {"INVALID_SNAPSHOT:session_mismatch"}, None)
    else match CheckSnapshot(b.manifest, s)
      case Some(code) => Ruling(DENY, {"INVALID_SNAPSHOT:" + code}, None)
      case None =>
        match Canonicalize(b.tables, b.manifest, env)
        case Err(code) => Ruling(DENY, {code}, None)
        case Ok(action) => Rule(env, s, b, action)
  }

  // ---- the record ----

  datatype Decision = Decision(
    verdict: Verdict,
    reasons: seq<string>,
    actionHash: Option<string>,
    inputHash: string,
    snapshotHash: string,
    policyHash: string,
    gate: Json,
    decisionHash: string)

  function VerdictText(v: Verdict): string {
    match v
    case ALLOW => "ALLOW"
    case DENY => "DENY"
    case REQUIRE_APPROVAL => "REQUIRE_APPROVAL"
  }

  function OptionalText(o: Option<string>): Json {
    match o
    case Some(s) => JStr(s)
    case None => JNull
  }

  function SnapshotHash(sha: Sha, s: Snapshot): string {
    Digest(sha, "dag/snapshot/v1", SnapshotJson(s))
  }

  function InputHash(b: Bundle, env: Envelope, snapshotHash: string): string {
    Digest(b.sha, "dag/input/v1", JObj(map[
      "envelope" := EnvelopeJson(env), "policy_hash" := JStr(b.policyHash), "snapshot_hash" := JStr(snapshotHash)]))
  }

  function Finish(r: Ruling, b: Bundle, env: Envelope, s: Snapshot): Decision {
    var snapshotHash := SnapshotHash(b.sha, s);
    var inputHash := InputHash(b, env, snapshotHash);
    var reasons := SortedKeys(r.reasons);
    Decision(r.verdict, reasons, r.actionHash, inputHash, snapshotHash, b.policyHash, b.gate,
      Digest(b.sha, "dag/decision/v1", JObj(map[
        "action_hash" := OptionalText(r.actionHash), "gate" := b.gate, "input_hash" := JStr(inputHash),
        "reasons" := Strings(reasons), "verdict" := JStr(VerdictText(r.verdict))])))
  }

  function Decide(env: Envelope, s: Snapshot, b: Bundle): (d: Decision)
    requires WellFormed(b.manifest)
    ensures d.verdict != DENY ==> d.actionHash.Some?
  {
    Finish(Judge(env, s, b), b, env, s)
  }
}
