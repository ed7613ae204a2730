/** A small Cedar: conditions that evaluate to a value or an error, policies, and the engine's answer. */
module Cedar {
  import opened Wrappers
  import opened Manifest

  datatype Term =
    | BoolTerm(b: bool)
    | LongTerm(n: int)
    | StringTerm(s: string)
    | SetTerm(elements: set<Term>)
    | RecordTerm(fields: map<string, Term>)
    | EntityTerm(uid: Uid)

  datatype Expr =
    | Const(value: Term)
    | Context
    | Principal
    | Resource
    | Attr(of: Expr, name: string)
    | Has(of: Expr, name: string)
    | And(left: Expr, right: Expr)
    | Or(left: Expr, right: Expr)
    | Not(of: Expr)
    | Equal(left: Expr, right: Expr)
    | AtMost(left: Expr, right: Expr)
    | Plus(left: Expr, right: Expr)
    | Contains(collection: Expr, element: Expr)
    | InGroup(of: Expr, group: Uid)

  datatype EntityData = EntityData(attrs: map<string, Term>, parents: set<Uid>)

  type Store = map<Uid, EntityData>

  datatype Request = Request(
    principal: Uid,
    action: string,
    actionGroups: set<string>,
    resource: Uid,
    context: map<string, Term>,
    entities: Store)

  const MIN_LONG: int := -0x8000_0000_0000_0000
  const MAX_LONG: int := 0x7FFF_FFFF_FFFF_FFFF

  const TYPE_ERROR := "type_error"
  const NO_ENTITY := "entity_does_not_exist"
  const NO_ATTRIBUTE := "attribute_does_not_exist"
  const OVERFLOW := "overflow"

  /** Membership within a bounded number of parent steps; no shortest chain is longer than the store. */
  predicate Within(store: Store, uid: Uid, group: Uid, steps: nat)
    decreases steps
  {
    uid == group ||
    (steps > 0 && uid in store && exists p :: p in store[uid].parents && Within(store, p, group, steps - 1))
  }

  predicate Member(store: Store, uid: Uid, group: Uid) {
    Within(store, uid, group, |store|)
  }

  /** A chain of parents, each the parent of the one before. */
  predicate Lineage(store: Store, path: seq<Uid>) {
    path != [] && forall i :: 0 <= i < |path| - 1 ==> path[i] in store && path[i + 1] in store[path[i]].parents
  }

  predicate Leads(store: Store, uid: Uid, group: Uid, path: seq<Uid>) {
    Lineage(store, path) && path[0] == uid && path[|path| - 1] == group
  }

  lemma LineageCons(store: Store, uid: Uid, path: seq<Uid>)
    requires Lineage(store, path) && uid in store && path[0] in store[uid].parents
    ensures Lineage(store, [uid] + path)
  {
  }

  lemma {:induction false} WithinIsLineage(store: Store, uid: Uid, group: Uid, steps: nat) returns (path: seq<Uid>)
    requires Within(store, uid, group, steps)
    ensures Leads(store, uid, group, path)
    decreases steps
  {
    if uid == group {
      path := [uid];
    } else {
      var p :| p in store[uid].parents && Within(store, p, group, steps - 1);
      var rest := WithinIsLineage(store, p, group, steps - 1);
      LineageCons(store, uid, rest);
      path := [uid] + rest;
    }
  }

  /** A chain need pass an entity only once: either it avoids it, or it goes on from it for good. */
  lemma {:induction false} PassOnce(store: Store, avoid: Uid, path: seq<Uid>) returns (rest: seq<Uid>, via: bool)
    requires Lineage(store, path) && path[|path| - 1] != avoid
    ensures Lineage(store - {avoid}, rest) && rest[|rest| - 1] == path[|path| - 1]
    ensures if via then avoid in store && rest[0] in store[avoid].parents else rest[0] == path[0]
    ensures path[0] == avoid ==> via
    decreases |path|
  {
    if |path| == 1 {
      rest, via := path, false;
    } else {
      rest, via := PassOnce(store, avoid, path[1..]);
      if !via && path[0] == avoid {
        via := true;
      } else if !via {
        LineageCons(store - {avoid}, path[0], rest);
        rest := [path[0]] + rest;
      }
    }
  }

  lemma {:induction false} WithinMore(store: Store, less: Store, uid: Uid, group: Uid, steps: nat)
    requires less.Keys <= store.Keys && (forall u :: u in less ==> store[u] == less[u]) && Within(less, uid, group, steps)
    ensures Within(store, uid, group, steps)
    decreases steps
  {
    if uid != group {
      var p :| p in less[uid].parents && Within(less, p, group, steps - 1);
      WithinMore(store, less, p, group, steps - 1);
    }
  }

  lemma {:induction false} LineageIsWithin(store: Store, uid: Uid, group: Uid, path: seq<Uid>)
    requires Leads(store, uid, group, path)
    ensures Member(store, uid, group)
    decreases |store|
  {
    if uid != group {
      var rest, via := PassOnce(store, uid, path);
      var less := store - {uid};
      OneFewer(store, uid);
      LineageIsWithin(less, rest[0], group, rest);
      WithinMore(store, less, rest[0], group, |less|);
    }
  }

  lemma OneFewer(store: Store, uid: Uid)
    requires uid in store
    ensures |store - {uid}| == |store| - 1
  {
    assert (store - {uid}).Keys == store.Keys - {uid};
    assert |(store - {uid}).Keys| == |store - {uid}| && |store.Keys| == |store|;
  }

  /** Membership is any chain of parents, however long: the step bound loses none. */
  lemma MemberExact(store: Store, uid: Uid, group: Uid)
    ensures Member(store, uid, group) <==> exists path :: Leads(store, uid, group, path)
  {
    if Member(store, uid, group) { var path := WithinIsLineage(store, uid, group, |store|); }
    if path :| Leads(store, uid, group, path) { LineageIsWithin(store, uid, group, path); }
  }

  function GetAttr(store: Store, v: Term, name: string): Result<Term> {
    match v
    case RecordTerm(fields) => if name in fields then Ok(fields[name]) else Err(NO_ATTRIBUTE)
    case EntityTerm(uid) =>
      if uid !in store then Err(NO_ENTITY)
      else if name !in store[uid].attrs then Err(NO_ATTRIBUTE)
      else Ok(store[uid].attrs[name])
    case _ => Err(TYPE_ERROR)
  }

  function HasAttr(store: Store, v: Term, name: string): Result<Term> {
    match v
    case RecordTerm(fields) => Ok(BoolTerm(name in fields))
    case EntityTerm(uid) => Ok(BoolTerm(uid in store && name in store[uid].attrs))
    case _ => Err(TYPE_ERROR)
  }

  function Eval(e: Expr, r: Request): Result<Term>
    decreases e
  {
    match e
    case Const(v) => Ok(v)
    case Context => Ok(RecordTerm(r.context))
    case Principal => Ok(EntityTerm(r.principal))
    case Resource => Ok(EntityTerm(r.resource))
    case Attr(of, name) =>
      var v :- Eval(of, r);
      GetAttr(r.entities, v, name)
    case Has(of, name) =>
      var v :- Eval(of, r);
      HasAttr(r.entities, v, name)
    case And(left, right) =>
      var v :- Eval(left, r);
      if !v.BoolTerm? then Err(TYPE_ERROR)
      else if !v.b then Ok(v)
      else
        var w :- Eval(right, r);
        if w.BoolTerm? then Ok(w) else Err(TYPE_ERROR)
    case Or(left, right) =>
      var v :- Eval(left, r);
      if !v.BoolTerm? then Err(TYPE_ERROR)
      else if v.b then Ok(v)
      else
        var w :- Eval(right, r);
        if w.BoolTerm? then Ok(w) else Err(TYPE_ERROR)
    case Not(of) =>
      var v :- Eval(of, r);
      if v.BoolTerm? then Ok(BoolTerm(!v.b)) else Err(TYPE_ERROR)
    case Equal(left, right) =>
      var v :- Eval(left, r);
      var w :- Eval(right, r);
      Ok(BoolTerm(v == w))
    case AtMost(left, right) =>
      var v :- Eval(left, r);
      var w :- Eval(right, r);
      if v.LongTerm? && w.LongTerm? then Ok(BoolTerm(v.n <= w.n)) else Err(TYPE_ERROR)
    case Plus(left, right) =>
      var v :- Eval(left, r);
      var w :- Eval(right, r);
      if !v.LongTerm? || !w.LongTerm? then Err(TYPE_ERROR)
      else if MIN_LONG <= v.n + w.n <= MAX_LONG then Ok(LongTerm(v.n + w.n))
      else Err(OVERFLOW)
    case Contains(collection, element) =>
      var v :- Eval(collection, r);
      var w :- Eval(element, r);
      if v.SetTerm? then Ok(BoolTerm(w in v.elements)) else Err(TYPE_ERROR)
    case InGroup(of, group) =>
      var v :- Eval(of, r);
      if v.EntityTerm? then Ok(BoolTerm(Member(r.entities, v.uid, group))) else Err(TYPE_ERROR)
  }

  // ---- evaluation, one construct at a time ----

  lemma EvalConst(v: Term, r: Request)
    ensures Eval(Const(v), r) == Ok(v)
  {
  }

  lemma EvalContext(name: string, r: Request)
    ensures Eval(Attr(Context, name), r) == if name in r.context then Ok(r.context[name]) else Err(NO_ATTRIBUTE)
    ensures Eval(Has(Context, name), r) == Ok(BoolTerm(name in r.context))
  {
  }

  lemma EvalField(e: Expr, fields: map<string, Term>, name: string, r: Request)
    requires Eval(e, r) == Ok(RecordTerm(fields)) && name in fields
    ensures Eval(Attr(e, name), r) == Ok(fields[name])
  {
  }

  lemma EvalAnd(e: Expr, b: bool, f: Expr, c: bool, r: Request)
    requires Eval(e, r) == Ok(BoolTerm(b)) && (b ==> Eval(f, r) == Ok(BoolTerm(c)))
    ensures Eval(And(e, f), r) == Ok(BoolTerm(b && c))
  {
  }

  lemma EvalEqual(e: Expr, v: Term, f: Expr, w: Term, r: Request)
    requires Eval(e, r) == Ok(v) && Eval(f, r) == Ok(w)
    ensures Eval(Equal(e, f), r) == Ok(BoolTerm(v == w))
  {
  }

  lemma EvalAtMost(e: Expr, n: int, limit: int, r: Request)
    requires Eval(e, r) == Ok(LongTerm(n))
    ensures Eval(AtMost(e, Const(LongTerm(limit))), r) == Ok(BoolTerm(n <= limit))
  {
    EvalConst(LongTerm(limit), r);
  }

  lemma EvalPlus(e: Expr, n: int, f: Expr, m: int, r: Request)
    requires Eval(e, r) == Ok(LongTerm(n)) && Eval(f, r) == Ok(LongTerm(m)) && MIN_LONG <= n + m <= MAX_LONG
    ensures Eval(Plus(e, f), r) == Ok(LongTerm(n + m))
  {
  }

  lemma EvalContains(e: Expr, items: set<Term>, f: Expr, w: Term, r: Request)
    requires Eval(e, r) == Ok(SetTerm(items)) && Eval(f, r) == Ok(w)
    ensures Eval(Contains(e, f), r) == Ok(BoolTerm(w in items))
  {
  }

  lemma EvalInGroup(group: Uid, r: Request)
    ensures Eval(InGroup(Resource, group), r) == Ok(BoolTerm(Member(r.entities, r.resource, group)))
  {
  }

  // ---- policies ----

  datatype Effect = Permit | Forbid

  datatype ActionScope = AnyAction | ActionIs(name: string) | ActionIn(group: string)

  datatype Policy = Policy(
    effect: Effect,
    principalIs: Option<string>,
    action: ActionScope,
    resourceIs: Option<string>,
    condition: Expr)

  type Policies = map<string, Policy>

  predicate InScope(p: Policy, r: Request) {
    && (p.principalIs == None || p.principalIs == Some(r.principal.kind))
    && (p.resourceIs == None || p.resourceIs == Some(r.resource.kind))
    && (match p.action
        case AnyAction => true
        case ActionIs(name) => r.action == name
        case ActionIn(group) => group in r.actionGroups)
  }

  predicate Satisfied(p: Policy, r: Request) {
    InScope(p, r) && Eval(p.condition, r) == Ok(BoolTerm(true))
  }

  predicate Errored(p: Policy, r: Request) {
    InScope(p, r) && (Eval(p.condition, r).Err? || !Eval(p.condition, r).value.BoolTerm?)
  }

  function SatisfiedIds(ps: Policies, r: Request, effect: Effect): set<string> {
    set id | id in ps && ps[id].effect == effect && Satisfied(ps[id], r)
  }

  function ErroredIds(ps: Policies, r: Request): set<string> {
    set id | id in ps && Errored(ps[id], r)
  }

  datatype EngineDecision = Allow | Deny | NoDecision

  datatype EngineAnswer = Refused | Answered(decision: EngineDecision, reasons: set<string>, errors: set<string>)

  /** The engine skips erroring policies and reports them; its reasons explain its own decision. */
  function Authorize(ps: Policies, r: Request): EngineAnswer {
    var permits, forbids := SatisfiedIds(ps, r, Permit), SatisfiedIds(ps, r, Forbid);
    if permits != {} && forbids == {} then Answered(Allow, permits, ErroredIds(ps, r))
    else Answered(Deny, forbids, ErroredIds(ps, r))
  }

  datatype Evaluation = Evaluation(allowed: bool, reasons: set<string>, errors: set<string>)

  /** How any engine answer becomes an evaluation: every doubt is an error, and an error never allows. */
  function Interpret(answer: EngineAnswer): (e: Evaluation)
    ensures e.allowed <==> answer.Answered? && answer.decision.Allow? && answer.errors == {}
    ensures e.errors == {} ==> answer.Answered? && !answer.decision.NoDecision?
  {
    match answer
    case Refused => Evaluation(false, {}, {"engine_exception"})
    case Answered(decision, reasons, reported) =>
      var errors := if decision.NoDecision? && reported == {} then {"no_decision"} else reported;
      Evaluation(decision.Allow? && errors == {}, reasons, errors)
  }

  function Evaluate(ps: Policies, r: Request): Evaluation {
    Interpret(Authorize(ps, r))
  }
}
