/** Canonicalisation: the agent's text becomes the one typed action that is checked, hashed and executed. */
module Canonical {
  import opened Wrappers
  import opened Texts
  import opened Ordering
  import opened Json
  import opened JsonParser
  import opened Money
  import opened Unicode
  import opened Url
  import opened Path
  import opened Syntax
  import opened Manifest

  const MAX_ARGUMENTS_BYTES: nat := 65536

  datatype ScalarValue = BoolValue(b: bool) | IntValue(n: int) | TextValue(s: string)

  datatype Value =
    | Plain(scalar: ScalarValue)
    | MoneyValue(amount: Amount)
    | EmailValue(address: string, domain: string)
    | UrlValue(url: Url)
    | TemplateValue(name: string, params: map<string, ScalarValue>)

  datatype Envelope = Envelope(tool: string, arguments: string, principal: string, sessionId: string, tMs: int)

  datatype Action = Action(
    tool: string,
    principalType: string,
    principal: string,
    resourceType: string,
    resourceId: string,
    parents: set<Uid>,
    sessionId: string,
    args: map<string, Value>)

  // ---- values as JSON ----

  function ScalarJson(s: ScalarValue): Json {
    match s
    case BoolValue(b) => JBool(b)
    case IntValue(n) => JInt(n)
    case TextValue(t) => JStr(t)
  }

  function ValueJson(v: Value): Json {
    match v
    case Plain(s) => ScalarJson(s)
    case MoneyValue(a) => JObj(map["amount_minor" := JInt(a.minor), "currency" := JStr(a.currency)])
    case EmailValue(address, domain) => JObj(map["address" := JStr(address), "domain" := JStr(domain)])
    case UrlValue(u) => JObj(map["host" := JStr(u.host), "path" := JStr(u.path), "port" := JInt(u.port),
                                 "query" := JStr(u.query), "scheme" := JStr(u.scheme)])
    case TemplateValue(name, params) => JObj(map["name" := JStr(name), "params" := JObj(map p | p in params :: ScalarJson(params[p]))])
  }

  function EntityJson(kind: string, id: string): Json {
    JObj(map["id" := JStr(id), "type" := JStr(kind)])
  }

  /** What the action hash covers. Derived parents are a function of the resource and are not hashed. */
  function ActionJson(a: Action): Json {
    JObj(map[
      "args" := JObj(map n | n in a.args :: ValueJson(a.args[n])),
      "principal" := EntityJson(a.principalType, a.principal),
      "resource" := EntityJson(a.resourceType, a.resourceId),
      "session_id" := JStr(a.sessionId),
      "tool" := JStr(a.tool)])
  }

  // ---- text and addresses ----

  predicate IsBidi(c: char) {
    0x202A <= c as int <= 0x202E || 0x2066 <= c as int <= 0x2069
  }

  function BadTextChar(c: char): Option<string> {
    if IsControl(c) && c != '\t' && c != '\n' then Some("control_character")
    else if IsBidi(c) then Some("bidi_control")
    else None
  }

  function FirstBadTextChar(s: string): Option<string> {
    if s == [] then None
    else if BadTextChar(s[0]).Some? then BadTextChar(s[0])
    else FirstBadTextChar(s[1..])
  }

  function CanonicalText(t: Tables, value: string, maxLen: nat): Result<string> {
    if !Assigned(t, value) then Err("unassigned_code_point")
    else
      var text := t.nfc(value);
      match FirstBadTextChar(text)
      case Some(code) => Err(code)
      case None => if |text| > maxLen then Err("too_long") else Ok(text)
  }

  predicate IsLocalPart(s: string) {
    && 1 <= |s| <= 64
    && (forall i :: 0 <= i < |s| ==> IsAlnum(s[i]) || s[i] in "._%+-")
    && s[0] != '.' && s[|s| - 1] != '.'
    && (forall i :: 0 <= i < |s| - 1 ==> !(s[i] == '.' && s[i + 1] == '.'))
  }

  function CanonicalEmail(t: Tables, value: string): Result<Value> {
    if '<' in value || '>' in value || ',' in value then Err("bad_address")
    else
      var parts := Split(value, '@');
      if |parts| != 2 then Err("bad_address")
      else if !IsLocalPart(parts[0]) then Err("bad_local_part")
      else
        var domain :- CanonicalHost(t, parts[1], false);
        var labels := Split(domain, '.');
        if exists i :: 0 <= i < |labels| && !IsLabel(labels[i]) then Err("bad_domain")
        else Ok(EmailValue(parts[0] + "@" + domain, domain))
  }

  // ---- one argument ----

  function CanonicalScalar(t: Tables, spec: Scalar, value: Json): Result<ScalarValue> {
    match spec
    case BoolSpec => if value.JBool? then Ok(BoolValue(value.b)) else Err("not_boolean")
    case IdSpec => if value.JStr? && IsId(value.s) then Ok(TextValue(value.s)) else Err("bad_id")
    case IntSpec(lo, hi) =>
      if !value.JInt? then Err("not_integer")
      else if lo <= value.n <= hi then Ok(IntValue(value.n))
      else Err("out_of_bounds")
    case EnumSpec(values) => if value.JStr? && value.s in values then Ok(TextValue(value.s)) else Err("not_in_enum")
    case TextSpec(maxLen) =>
      if !value.JStr? then Err("not_text")
      else
        var text :- CanonicalText(t, value.s, maxLen);
        Ok(TextValue(text))
  }

  /** The parameters in name order; the first bad one decides the refusal. */
  function CanonicalParams(t: Tables, specs: map<string, Scalar>, params: map<string, Json>, names: seq<string>)
    : (r: Result<map<string, ScalarValue>>)
    requires forall n :: n in names ==> n in specs && n in params
    ensures r.Ok? ==> r.value.Keys == set n | n in names
  {
    if names == [] then Ok(map[])
    else
      match CanonicalScalar(t, specs[names[0]], params[names[0]])
      case Err(code) => Err(names[0] + ":" + code)
      case Ok(v) =>
        var rest :- CanonicalParams(t, specs, params, names[1..]);
        Ok(rest[names[0] := v])
  }

  function SortedKeys(keys: set<string>): (r: seq<string>)
    ensures forall k :: k in r <==> k in keys
  {
    SortSetSorts(ByCodePoint, keys);
    SortSet(ByCodePoint, keys)
  }

  function CanonicalTemplate(t: Tables, templates: map<string, map<string, Scalar>>, value: Json): Result<Value> {
    if !value.JObj? || value.members.Keys != {"name", "params"} then Err("expected_name_and_params")
    else
      var name, params := value.members["name"], value.members["params"];
      if !name.JStr? || !IsName(name.s) then Err("bad_template_name")
      else if name.s !in templates then Err("unknown_template")
      else if !params.JObj? then Err("expected_params_object")
      else if !(params.members.Keys <= templates[name.s].Keys) then Err("unknown_parameter")
      else if !(templates[name.s].Keys <= params.members.Keys) then Err("missing_parameter")
      else
        var values :- CanonicalParams(t, templates[name.s], params.members, SortedKeys(templates[name.s].Keys));
        Ok(TemplateValue(name.s, values))
  }

  function CanonicalValue(t: Tables, kind: Kind, value: Json): Result<Value>
    requires WellFormedKind(kind)
  {
    match kind
    case ScalarKind(spec) =>
      var v :- CanonicalScalar(t, spec, value);
      Ok(Plain(v))
    case EmailKind => if value.JStr? then CanonicalEmail(t, value.s) else Err("not_text")
    case MoneyKind(currencies, lo, hi) =>
      var amount :- CanonicalMoney(value, currencies, lo, hi);
      Ok(MoneyValue(amount))
    case UrlKind(schemes, allowIp) =>
      if !value.JStr? then Err("not_text")
      else
        var url :- CanonicalUrl(t, value.s, schemes, allowIp);
        Ok(UrlValue(url))
    case PathKind(under) =>
      if !value.JStr? then Err("not_text")
      else
        var path :- CanonicalPath(t, value.s, under);
        Ok(Plain(TextValue(path)))
    case TemplateKind(templates) => CanonicalTemplate(t, templates, value)
  }

  // ---- the whole action ----

  /** The arguments in name order; an optional argument that was not sent stays out. */
  function CanonicalArgs(t: Tables, specs: map<string, ArgSpec>, raw: map<string, Json>, names: seq<string>)
    : (r: Result<map<string, Value>>)
    requires forall n :: n in names ==> n in specs && WellFormedKind(specs[n].kind)
    ensures r.Ok? ==> r.value.Keys == set n | n in names && n in raw
  {
    if names == [] then Ok(map[])
    else if names[0] !in raw then CanonicalArgs(t, specs, raw, names[1..])
    else
      match CanonicalValue(t, specs[names[0]].kind, raw[names[0]])
      case Err(code) => Err("INVALID_ARGUMENTS:" + names[0] + ":" + code)
      case Ok(v) =>
        var rest :- CanonicalArgs(t, specs, raw, names[1..]);
        Ok(rest[names[0] := v])
  }

  function Merge(done: map<string, Value>, r: Result<map<string, Value>>): Result<map<string, Value>> {
    match r
    case Ok(more) => Ok(done + more)
    case Err(code) => Err(code)
  }

  function WithArg(name: string, v: Value, r: Result<map<string, Value>>): Result<map<string, Value>> {
    match r
    case Ok(more) => Ok(more[name := v])
    case Err(code) => Err(code)
  }

  lemma MergeArg(done: map<string, Value>, name: string, v: Value, r: Result<map<string, Value>>)
    requires r.Ok? ==> name !in r.value
    ensures Merge(done, WithArg(name, v, r)) == Merge(done[name := v], r)
  {
    if r.Ok? { assert done + r.value[name := v] == done[name := v] + r.value; }
  }

  lemma ArgsFrom(t: Tables, specs: map<string, ArgSpec>, raw: map<string, Json>, names: seq<string>, i: nat)
    requires i < |names| && forall n :: n in names ==> n in specs && WellFormedKind(specs[n].kind)
    requires forall j, k :: 0 <= j < k < |names| ==> names[j] != names[k]
    ensures var rest := CanonicalArgs(t, specs, raw, names[i + 1..]);
      && (rest.Ok? ==> names[i] !in rest.value)
      && CanonicalArgs(t, specs, raw, names[i..]) ==
         if names[i] !in raw then rest
         else match CanonicalValue(t, specs[names[i]].kind, raw[names[i]])
           case Err(code) => Err("INVALID_ARGUMENTS:" + names[i] + ":" + code)
           case Ok(v) => WithArg(names[i], v, rest)
  {
    hide CanonicalValue, WellFormedKind;
    assert names[i..][0] == names[i] && names[i..][1..] == names[i + 1..];
  }

  /** The dictionary-filling loop the program runs. */
  method CollectArguments(t: Tables, specs: map<string, ArgSpec>, raw: map<string, Json>)
    returns (r: Result<map<string, Value>>)
    requires forall n :: n in specs ==> WellFormedKind(specs[n].kind)
    ensures r == CanonicalArgs(t, specs, raw, SortedKeys(specs.Keys))
  {
    hide CanonicalValue, SortedKeys, CanonicalArgs;
    var names := SortedKeys(specs.Keys);
    DistinctKeys(specs.Keys);
    var args: map<string, Value> := map[];
    assert names[0..] == names;
    ghost var whole := CanonicalArgs(t, specs, raw, names);
    assert whole.Ok? ==> map[] + whole.value == whole.value;
    for i := 0 to |names|
      invariant whole == Merge(args, CanonicalArgs(t, specs, raw, names[i..]))
    {
      var name := names[i];
      ArgsFrom(t, specs, raw, names, i);
      if name in raw {
        var one := CanonicalValue(t, specs[name].kind, raw[name]);
        if one.Err? { return Err("INVALID_ARGUMENTS:" + name + ":" + one.code); }
        MergeArg(args, name, one.value, CanonicalArgs(t, specs, raw, names[i + 1..]));
        args := args[name := one.value];
      }
    }
    NoMoreArgs(t, specs, raw);
    assert names[|names|..] == [];
    assert args + map[] == args;
    r := Ok(args);
  }

  lemma NoMoreArgs(t: Tables, specs: map<string, ArgSpec>, raw: map<string, Json>)
    ensures CanonicalArgs(t, specs, raw, []) == Ok(map[])
  {
  }

  lemma DistinctKeys(keys: set<string>)
    ensures var r := SortedKeys(keys); forall i, j :: 0 <= i < j < |r| ==> r[i] != r[j]
  {
    SortSetSorts(ByCodePoint, keys);
    var r := SortedKeys(keys);
    forall i, j | 0 <= i < j < |r| ensures r[i] != r[j] { LessAsymmetric(ByCodePoint, r[i], r[j]); }
  }

  function FieldOf(v: Value, field: Option<string>): Json {
    match v
    case EmailValue(address, domain) => JStr(if field == Some("address") then address else domain)
    case UrlValue(u) =>
      if field == Some("host") then JStr(u.host)
      else if field == Some("path") then JStr(u.path)
      else if field == Some("port") then JInt(u.port)
      else if field == Some("query") then JStr(u.query)
      else JStr(u.scheme)
    case TemplateValue(name, _) => JStr(name)
    case Plain(s) => ScalarJson(s)
    case MoneyValue(_) => JNull
  }

  function ResourceId(rule: ResourceRule, args: map<string, Value>): Json
    requires rule.ResourceFrom? ==> rule.arg in args
  {
    match rule
    case FixedResource(id) => JStr(id)
    case ResourceFrom(arg, field) => FieldOf(args[arg], field)
  }

  function Parents(tool: ToolSpec, id: string): set<Uid> {
    if tool.parentType.Some? then set s | s in HostSuffixes(id) :: Uid(tool.parentType.value, s) else {}
  }

  function Assemble(m: Manifest, tool: ToolSpec, env: Envelope, args: map<string, Value>): Result<Action>
    requires tool.resource.ResourceFrom? ==> tool.resource.arg in args
  {
    var id := ResourceId(tool.resource, args);
    if !id.JStr? || !IsResourceId(id.s) then Err("INVALID_ARGUMENTS:bad_resource_id")
    else Ok(Action(env.tool, m.principalType, env.principal, tool.resourceType, id.s, Parents(tool, id.s), env.sessionId, args))
  }

  function Canonicalize(t: Tables, m: Manifest, env: Envelope): (r: Result<Action>)
    requires WellFormed(m)
    ensures r.Ok? ==> env.tool in m.tools && r.value.tool == env.tool
  {
    if env.tool !in m.tools then Err("UNKNOWN_TOOL")
    else
      var tool := m.tools[env.tool];
      match LoadsStrict(env.arguments, MAX_ARGUMENTS_BYTES)
      case Err(code) => Err("INVALID_ARGUMENTS:" + code)
      case Ok(raw) =>
        if !raw.JObj? then Err("INVALID_ARGUMENTS:not_an_object")
        else if !(raw.members.Keys <= tool.args.Keys) then Err("INVALID_ARGUMENTS:unknown_argument")
        else if exists n :: n in tool.args && !tool.args[n].optional && n !in raw.members then Err("INVALID_ARGUMENTS:missing_argument")
        else
          var args :- CanonicalArgs(t, tool.args, raw.members, SortedKeys(tool.args.Keys));
          Assemble(m, tool, env, args)
  }

  // ---- back to the tool's own shape ----

  /** What canonicalisation guarantees of a value before it is rendered for the tool. */
  predicate Renderable(v: Value) {
    && (v.UrlValue? ==> v.url.scheme in DEFAULT_PORT)
    && (v.MoneyValue? ==> v.amount.minor >= 0 && v.amount.currency in Exponents())
  }

  predicate RenderableAction(a: Action) {
    forall n :: n in a.args ==> Renderable(a.args[n])
  }

  function WireValue(v: Value): Json
    requires Renderable(v)
  {
    match v
    case UrlValue(u) => JStr(Rebuild(u))
    case EmailValue(address, _) => JStr(address)
    case MoneyValue(a) => WireMoney(a.minor, a.currency)
    case _ => ValueJson(v)
  }

  /** What the runner is handed: never the agent's own text. */
  function WireArguments(a: Action): map<string, Json>
    requires RenderableAction(a)
  {
    map n | n in a.args :: WireValue(a.args[n])
  }

  lemma CanonicalIsRenderable(t: Tables, kind: Kind, value: Json)
    requires WellFormedKind(kind) && CanonicalValue(t, kind, value).Ok?
    ensures Renderable(CanonicalValue(t, kind, value).value)
  {
    hide CanonicalScalar, CanonicalEmail, CanonicalMoney, CanonicalUrl, CanonicalPath, CanonicalTemplate;
    match kind {
      case MoneyKind(currencies, lo, hi) => AcceptedRange(value, currencies, lo, hi);
      case UrlKind(schemes, allowIp) => AcceptedScheme(t, value.s, schemes, allowIp);
      case EmailKind => EmailShape(t, value.s);
      case TemplateKind(templates) => TemplateShape(t, templates, value);
      case _ =>
    }
  }

  lemma EmailShape(t: Tables, value: string)
    requires CanonicalEmail(t, value).Ok?
    ensures CanonicalEmail(t, value).value.EmailValue?
  {
    hide CanonicalHost;
  }

  lemma TemplateShape(t: Tables, templates: map<string, map<string, Scalar>>, value: Json)
    requires CanonicalTemplate(t, templates, value).Ok?
    ensures CanonicalTemplate(t, templates, value).value.TemplateValue?
  {
    hide CanonicalParams;
  }

  lemma {:induction false} ArgsAreRenderable(t: Tables, specs: map<string, ArgSpec>, raw: map<string, Json>, names: seq<string>)
    requires forall n :: n in names ==> n in specs && WellFormedKind(specs[n].kind)
    requires CanonicalArgs(t, specs, raw, names).Ok?
    ensures var args := CanonicalArgs(t, specs, raw, names).value;
      forall n :: n in args ==> Renderable(args[n])
  {
    hide WellFormedKind, CanonicalValue;
    if names != [] {
      ArgsAreRenderable(t, specs, raw, names[1..]);
      if names[0] in raw { CanonicalIsRenderable(t, specs[names[0]].kind, raw[names[0]]); }
    }
  }

  lemma ActionIsRenderable(t: Tables, m: Manifest, env: Envelope)
    requires WellFormed(m) && Canonicalize(t, m, env).Ok?
    ensures RenderableAction(Canonicalize(t, m, env).value)
  {
    hide LoadsStrict, CanonicalArgs, ResourceId, HostSuffixes;
    var tool := m.tools[env.tool];
    var raw := LoadsStrict(env.arguments, MAX_ARGUMENTS_BYTES).value;
    ArgsAreRenderable(t, tool.args, raw.members, SortedKeys(tool.args.Keys));
  }

  // ---- what a canonical action is made of ----

  lemma {:induction false} ArgsAreCanonical(t: Tables, specs: map<string, ArgSpec>, raw: map<string, Json>, names: seq<string>)
    requires forall n :: n in names ==> n in specs && WellFormedKind(specs[n].kind)
    requires CanonicalArgs(t, specs, raw, names).Ok?
    ensures var args := CanonicalArgs(t, specs, raw, names).value;
      forall n :: n in args ==> n in names && n in raw && CanonicalValue(t, specs[n].kind, raw[n]) == Ok(args[n])
  {
    hide WellFormedKind, CanonicalValue;
    if names != [] { ArgsAreCanonical(t, specs, raw, names[1..]); }
  }

  /** Each argument is the canonical form of the parsed one, and every other field follows from tool and arguments. */
  ghost predicate IsCanonical(t: Tables, m: Manifest, env: Envelope, a: Action)
    requires WellFormed(m) && env.tool in m.tools
  {
    var tool := m.tools[env.tool];
    && a == Action(env.tool, m.principalType, env.principal, tool.resourceType, a.resourceId, Parents(tool, a.resourceId),
                   env.sessionId, a.args)
    && (forall n :: n in a.args ==>
          n in tool.args && exists raw :: CanonicalValue(t, tool.args[n].kind, raw) == Ok(a.args[n]))
    && (forall n :: n in tool.args && !tool.args[n].optional ==> n in a.args)
    && (tool.resource.ResourceFrom? ==> tool.resource.arg in a.args)
    && ResourceId(tool.resource, a.args) == JStr(a.resourceId) && IsResourceId(a.resourceId)
  }

  lemma ActionIsCanonical(t: Tables, m: Manifest, env: Envelope)
    requires WellFormed(m) && Canonicalize(t, m, env).Ok?
    ensures IsCanonical(t, m, env, Canonicalize(t, m, env).value)
  {
    hide LoadsStrict, CanonicalArgs, ResourceId, HostSuffixes, CanonicalValue, WellFormedKind;
    var tool := m.tools[env.tool];
    var raw := LoadsStrict(env.arguments, MAX_ARGUMENTS_BYTES).value;
    ArgsAreCanonical(t, tool.args, raw.members, SortedKeys(tool.args.Keys));
  }
}
