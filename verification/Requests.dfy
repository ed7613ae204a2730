/** What a decision looks at, read off the records that are hashed, and the reasons it gives. */
module Requests {
  import opened Wrappers
  import opened Json
  import opened Unicode
  import opened Manifest
  import opened Canonical
  import opened Cedar
  import opened Decide
  import opened Guardrails
  import opened Snapshots
  import opened Commitments
  import opened Ledger
  import opened Actions

  // ---- the policies' view ----

  /** A term of the policy language and the JSON it is given as; a list is read as the set of its items. */
  predicate IsTerm(v: Json, x: Term)
    decreases v
  {
    match v
    case JNull => false
    case JBool(b) => x == BoolTerm(b)
    case JInt(n) => x == LongTerm(n)
    case JStr(s) => x == StringTerm(s)
    case JArr(items) =>
      && x.SetTerm? && (forall v :: v in items ==> exists e :: e in x.elements && IsTerm(v, e))
      && forall e :: e in x.elements ==> exists v :: v in items && IsTerm(v, e)
    case JObj(members) =>
      x.RecordTerm? && x.fields.Keys == members.Keys && forall k :: k in members ==> IsTerm(members[k], x.fields[k])
  }

  /** Of an argument, a policy reads what the action hash covers; of a template only its name. */
  function Shown(v: Value): Json {
    if v.TemplateValue? then JObj(map["name" := JStr(v.name)]) else ValueJson(v)
  }

  lemma ShownTerm(v: Value)
    ensures IsTerm(Shown(v), ContextTerm(v))
  {
    if v.UrlValue? {
      UrlMembers(v.url);
      assert ContextTerm(v).fields.Keys == {"host", "path", "port", "query", "scheme"};
    } else if v.EmailValue? {
      assert ValueJson(v).members.Keys == {"address", "domain"} == ContextTerm(v).fields.Keys;
    } else if v.MoneyValue? {
      assert ValueJson(v).members.Keys == {"amount_minor", "currency"} == ContextTerm(v).fields.Keys;
    }
  }

  lemma ArgsTerm(a: Action)
    ensures IsTerm(JObj(map n | n in a.args :: Shown(a.args[n])), RecordTerm(map n | n in a.args :: ContextTerm(a.args[n])))
  {
    hide Shown, ContextTerm;
    forall n | n in a.args ensures IsTerm(Shown(a.args[n]), ContextTerm(a.args[n])) { ShownTerm(a.args[n]); }
    var m, x := map n | n in a.args :: Shown(a.args[n]), map n | n in a.args :: ContextTerm(a.args[n]);
    assert m.Keys == a.args.Keys == x.Keys;
  }

  lemma LabelsTerm(labels: set<string>, x: set<Term>)
    requires x == set l | l in labels :: StringTerm(l)
    ensures IsTerm(Strings(SortedKeys(labels)), SetTerm(x))
  {
    hide SortedKeys, IsTerm;
    var names := SortedKeys(labels);
    var items := Strings(names).items;
    forall v | v in items ensures exists e :: e in x && IsTerm(v, e) {
      assert v.s in names;
      StringIsTerm(v.s);
      assert StringTerm(v.s) in x;
    }
    forall e | e in x ensures exists v :: v in items && IsTerm(v, e) {
      assert e.s in names;
      var i :| 0 <= i < |names| && names[i] == e.s;
      assert items[i] == JStr(e.s);
      StringIsTerm(e.s);
      assert items[i] in items;
    }
    SetOf(items, x);
  }

  lemma StringIsTerm(s: string)
    ensures IsTerm(JStr(s), StringTerm(s))
  {
  }

  lemma SetOf(items: seq<Json>, x: set<Term>)
    requires forall v :: v in items ==> exists e :: e in x && IsTerm(v, e)
    requires forall e :: e in x ==> exists v :: v in items && IsTerm(v, e)
    ensures IsTerm(JArr(items), SetTerm(x))
  {
    forall v | v in items ensures exists e :: e in SetTerm(x).elements && IsTerm(v, e) {
      var e :| e in x && IsTerm(v, e);
    }
  }

  lemma RecordOf(members: map<string, Json>, fields: map<string, Term>)
    requires members.Keys == fields.Keys && forall k :: k in members ==> IsTerm(members[k], fields[k])
    ensures IsTerm(JObj(members), RecordTerm(fields))
  {
  }

  lemma CountersTerm(c: map<string, int>, x: map<string, Term>)
    requires x == map n | n in c :: LongTerm(c[n])
    ensures IsTerm(CountersJson(c), RecordTerm(x))
  {
    var m := CountersJson(c).members;
    assert x.Keys == c.Keys == m.Keys;
    forall k | k in m ensures IsTerm(m[k], x[k]) { assert m[k] == JInt(c[k]) && x[k] == LongTerm(c[k]); }
    RecordOf(m, x);
  }

  /** What a policy reads of the session: these members of the hashed snapshot. */
  function SessionShown(s: Snapshot): Json {
    var m := SnapshotJson(s).members;
    JObj(map["counters" := m["counters"], "labels" := m["labels"], "ledger_seq" := m["ledger_seq"]])
  }

  lemma SessionIsTerm(s: Snapshot)
    ensures IsTerm(SessionShown(s), SessionTerm(s))
  {
    SnapshotFields(s);
    var m, x := SessionShown(s).members, SessionTerm(s).fields;
    LabelsTerm(s.labels, set l | l in s.labels :: StringTerm(l));
    CountersTerm(s.counters, map n | n in s.counters :: LongTerm(s.counters[n]));
    IntegerIsTerm(s.ledgerSeq);
    hide SnapshotJson, Strings, CountersJson, SortedKeys, IsTerm;
    assert m.Keys == {"counters", "labels", "ledger_seq"} == x.Keys;
    RecordOf(m, x);
  }

  function ArgsShown(a: Action): Json { JObj(map n | n in a.args :: Shown(a.args[n])) }

  function TimeShown(env: Envelope): Json { EnvelopeJson(env).members["t_ms"] }

  /** The context in the records' own JSON: the hash, the shown arguments, the envelope's time, the session, an approval. */
  function ContextShown(env: Envelope, s: Snapshot, a: Action, hash: string): map<string, Json> {
    var plain := map["action_hash" := JStr(hash), "args" := ArgsShown(a), "now_ms" := TimeShown(env), "session" := SessionShown(s)];
    if hash in s.approvals then plain["approval" := JObj(map["action_hash" := JStr(hash)])] else plain
  }

  lemma ApprovalIsTerm(hash: string)
    ensures IsTerm(JObj(map["action_hash" := JStr(hash)]), ApprovalTerm(hash))
  {
    RecordOf(map["action_hash" := JStr(hash)], map["action_hash" := StringTerm(hash)]);
  }

  lemma ContextParts(env: Envelope, s: Snapshot, a: Action, hash: string)
    ensures var x := BuildContext(env, s, a, hash);
      && x.Keys == {"action_hash", "args", "now_ms", "session"} + (if hash in s.approvals then {"approval"} else {})
      && x["action_hash"] == StringTerm(hash) && x["args"] == RecordTerm(map n | n in a.args :: ContextTerm(a.args[n]))
      && x["now_ms"] == LongTerm(env.tMs) && x["session"] == SessionTerm(s)
      && (hash in s.approvals ==> x["approval"] == ApprovalTerm(hash))
  {
    hide ContextTerm, SessionTerm, ApprovalTerm;
  }

  lemma IntegerIsTerm(n: int)
    ensures IsTerm(JInt(n), LongTerm(n))
  {
  }

  lemma TimeIsTerm(env: Envelope)
    ensures IsTerm(TimeShown(env), LongTerm(env.tMs))
  {
    assert TimeShown(env) == JInt(env.tMs);
  }

  lemma PlainContext(env: Envelope, s: Snapshot, a: Action, hash: string)
    ensures var x := BuildContext(env, s, a, hash);
      && x.Keys == {"action_hash", "args", "now_ms", "session"} + (if hash in s.approvals then {"approval"} else {})
      && IsTerm(JStr(hash), x["action_hash"]) && IsTerm(ArgsShown(a), x["args"])
      && IsTerm(TimeShown(env), x["now_ms"]) && IsTerm(SessionShown(s), x["session"])
      && (hash in s.approvals ==> x["approval"] == ApprovalTerm(hash))
  {
    hide BuildContext, Shown, ContextTerm, SessionShown, SessionTerm, ApprovalTerm, TimeShown, IsTerm;
    ContextParts(env, s, a, hash);
    ArgsTerm(a);
    SessionIsTerm(s);
    TimeIsTerm(env);
    StringIsTerm(hash);
  }

  /** Policies read nothing but what the envelope, the snapshot and the action hash record. */
  lemma PoliciesReadTheRecord(env: Envelope, s: Snapshot, a: Action, hash: string)
    ensures IsTerm(JObj(ContextShown(env, s, a, hash)), RecordTerm(BuildContext(env, s, a, hash)))
  {
    hide BuildContext, ArgsShown, TimeShown, SessionShown, IsTerm, ApprovalTerm;
    PlainContext(env, s, a, hash);
    ApprovalIsTerm(hash);
    RecordOf(ContextShown(env, s, a, hash), BuildContext(env, s, a, hash));
  }

  // ---- the snapshot ----

  /** Every label and counter is declared, every counter within its maximum, every fact of an allowed type and complete. */
  ghost predicate Declared(m: Manifest, s: Snapshot) {
    && s.labels <= m.labels
    && s.counters.Keys == m.counters.Keys && (forall n :: n in s.counters ==> s.counters[n] <= m.counters[n])
    && forall e :: e in s.entities ==>
         && e.kind in m.snapshotTypes && e.attrs.Keys == m.snapshotTypes[e.kind].Keys
         && forall a :: a in e.attrs ==> AttrMatches(m.snapshotTypes[e.kind][a], e.attrs[a])
  }

  lemma {:induction false} EntitiesExact(m: Manifest, entities: seq<EntityRecord>)
    ensures CheckEntities(m, entities) == None <==>
            forall e :: e in entities ==>
              && e.kind in m.snapshotTypes && e.attrs.Keys == m.snapshotTypes[e.kind].Keys
              && forall a :: a in e.attrs ==> AttrMatches(m.snapshotTypes[e.kind][a], e.attrs[a])
  {
    hide AttrMatches;
    if entities != [] {
      EntitiesExact(m, entities[1..]);
      assert forall e :: e in entities <==> e == entities[0] || e in entities[1..];
    }
  }

  /** A snapshot is let through exactly when the manifest declares everything in it. */
  lemma SnapshotExact(m: Manifest, s: Snapshot)
    ensures CheckSnapshot(m, s) == None <==> Declared(m, s)
  {
    EntitiesExact(m, s.entities);
    hide CheckEntities, AttrMatches;
  }

  /** The snapshot of a session: its state, what is committed plus what is open, and the facts in order. */
  lemma SnapshotIsState(s: LedgerState, facts: seq<EntityRecord>)
    requires SnapshotOf(s, facts).Ok?
    ensures var r := SnapshotOf(s, facts).value;
      && r.sessionId == s.sessionId && r.ledgerSeq == s.number && r.labels == s.labels && r.approvals == s.approvals
      && r.counters == Counters(s) && multiset(r.entities) == multiset(facts) && StrictlySorted(r.entities)
  {
    SortKeeps(facts);
    hide SortFacts, StrictlySorted, ValidFacts;
  }

  // ---- the reasons ----

  /** Why a call that reaches the policies is denied: what erred, else what forbids, as it stands and then as if approved. */
  function Blame(b: Bundle, r1: Request, r2: Request, approved: bool): set<string> {
    if ErroredIds(b.policies, r1) != {} then EvalErrors(ErroredIds(b.policies, r1))
    else if SatisfiedIds(b.policies, r1, Forbid) != {} then SatisfiedIds(b.policies, r1, Forbid)
    else if approved then {NO_MATCHING_PERMIT}
    else if ErroredIds(b.policies, r2) != {} then EvalErrors(ErroredIds(b.policies, r2))
    else if SatisfiedIds(b.policies, r2, Forbid) != {} then SatisfiedIds(b.policies, r2, Forbid)
    else {NO_MATCHING_PERMIT}
  }

  /** The reasons are the permits that let the call through, or else what is to blame. */
  lemma ReasonsExact(env: Envelope, s: Snapshot, b: Bundle)
    requires WellFormed(b.manifest) && Reaches(env, s, b)
    ensures var j, a := Judge(env, s, b), TheAction(env, s, b);
      var r1, r2 := FirstRequest(env, s, b, a), SecondRequest(env, s, b, a);
      && j.actionHash == Some(ActionHash(b, a)) && j.reasons != {}
      && j.reasons == match j.verdict
           case ALLOW => SatisfiedIds(b.policies, r1, Permit)
           case REQUIRE_APPROVAL => SatisfiedIds(b.policies, r2, Permit)
           case DENY => Blame(b, r1, r2, ActionHash(b, a) in s.approvals)
  {
    hide CheckSnapshot, Canonicalize, BuildContext, ActionHash, MakeRequest, SatisfiedIds, ErroredIds, FirstRequest, SecondRequest,
         EvalErrors;
    var a := TheAction(env, s, b);
    RuleIsCombine(env, s, b, a);
    SomeError(ErroredIds(b.policies, FirstRequest(env, s, b, a)));
    SomeError(ErroredIds(b.policies, SecondRequest(env, s, b, a)));
  }

  lemma SomeError(errors: set<string>)
    ensures errors != {} ==> EvalErrors(errors) != {}
  {
    if e :| e in errors { assert "EVAL_ERROR:" + e in EvalErrors(errors); }
  }

  /** What never reaches the policies is denied for the first check it fails, and no action is named. */
  lemma RefusedEarly(env: Envelope, s: Snapshot, b: Bundle)
    requires WellFormed(b.manifest) && !Reaches(env, s, b)
    ensures var j := Judge(env, s, b);
      && j.verdict == DENY && j.actionHash == None
      && (env.sessionId != s.sessionId ==> j.reasons == {"INVALID_SNAPSHOT:session_mismatch"})
      && (env.sessionId == s.sessionId && Declared(b.manifest, s) ==>
            Canonicalize(b.tables, b.manifest, env).Err? && j.reasons == {Canonicalize(b.tables, b.manifest, env).code})
      && (env.sessionId == s.sessionId && !Declared(b.manifest, s) ==>
            exists code :: CheckSnapshot(b.manifest, s) == Some(code) && j.reasons == {"INVALID_SNAPSHOT:" + code})
  {
    SnapshotExact(b.manifest, s);
    hide CheckSnapshot, Canonicalize, Declared, Rule;
  }

  // ---- the budget ----

  /** The integer a budget reads, from the argument's own JSON. */
  predicate Counts(v: Value, n: int) {
    || ValueJson(v) == JInt(n)
    || (ValueJson(v).JObj? && "amount_minor" in ValueJson(v).members && ValueJson(v).members["amount_minor"] == JInt(n))
    || (ValueJson(v).JObj? && "port" in ValueJson(v).members && ValueJson(v).members["port"] == JInt(n))
  }

  /** A budget reserves the integer its argument shows, a minor amount or a port, and nothing when the argument was not sent. */
  lemma BudgetExact(a: Action, tool: ToolSpec, deltas: map<string, int>)
    ensures BudgetReservation(a, tool) == Ok(deltas) <==>
      match tool.budget
      case None => deltas == map[]
      case Some(budget) =>
        if budget.from !in a.args then deltas == map[]
        else exists n :: n >= 0 && Counts(a.args[budget.from], n) && deltas == map[budget.counter := n]
  {
    if tool.budget.Some? && tool.budget.value.from in a.args {
      var v := a.args[tool.budget.value.from];
      forall n ensures Counts(v, n) && n >= 0 <==> BudgetAmount(v) == Ok(n) { AmountExact(v, n); }
    }
  }

  lemma AmountExact(v: Value, n: int)
    ensures Counts(v, n) && n >= 0 <==> BudgetAmount(v) == Ok(n)
  {
    if v.UrlValue? { UrlMembers(v.url); assert "amount_minor" !in {"host", "path", "port", "query", "scheme"}; }
    else if v.EmailValue? { assert ValueJson(v).members.Keys == {"address", "domain"}; }
    else if v.TemplateValue? { assert ValueJson(v).members.Keys == {"name", "params"}; }
    else if v.MoneyValue? {
      assert ValueJson(v).members.Keys == {"amount_minor", "currency"};
      assert ValueJson(v).members["amount_minor"] == JInt(v.amount.minor);
    }
  }
}
