/** The action hash names one action, and the tool's own text denotes that same action. */
module Binding {
  import opened Wrappers
  import opened Ordering
  import opened Json
  import opened JsonParser
  import opened JsonRoundTrip
  import opened JsonSafety
  import opened Money
  import opened Unicode
  import opened Url
  import opened Path
  import opened Syntax
  import opened Manifest
  import opened Canonical
  import opened Decide
  import opened Wire

  // ---- canonical values have canonical JSON ----

  lemma ScalarInRange(t: Tables, spec: Scalar, value: Json)
    requires WellFormedScalar(spec) && CanonicalScalar(t, spec, value).Ok?
    ensures InRange(ScalarJson(CanonicalScalar(t, spec, value).value))
  {
    hide CanonicalText, IsId;
  }

  lemma PortInRange(t: Tables, value: string, schemes: seq<string>, allowIp: bool)
    requires KnownSchemes(schemes) && CanonicalUrl(t, value, schemes, allowIp).Ok?
    ensures CanonicalUrl(t, value, schemes, allowIp).value.port <= 65535
  {
    hide SplitUrl, SplitAuthority, CanonicalHost, FirstBadChar;
    assert DEFAULT_PORT["http"] == 80 && DEFAULT_PORT["https"] == 443;
  }

  lemma {:induction false} ParamsInRange(t: Tables, specs: map<string, Scalar>, params: map<string, Json>, names: seq<string>)
    requires forall n :: n in names ==> n in specs && n in params && WellFormedScalar(specs[n])
    requires CanonicalParams(t, specs, params, names).Ok?
    ensures forall n :: n in CanonicalParams(t, specs, params, names).value ==>
              InRange(ScalarJson(CanonicalParams(t, specs, params, names).value[n]))
  {
    hide CanonicalScalar, ScalarJson, WellFormedScalar, InRange;
    if names != [] {
      ParamsInRange(t, specs, params, names[1..]);
      ScalarInRange(t, specs[names[0]], params[names[0]]);
    }
  }

  lemma TemplateInRange(t: Tables, templates: map<string, map<string, Scalar>>, value: Json)
    requires WellFormedKind(TemplateKind(templates)) && CanonicalTemplate(t, templates, value).Ok?
    ensures var v := CanonicalTemplate(t, templates, value).value; v.TemplateValue? && InRange(ValueJson(v))
  {
    hide SortedKeys, CanonicalParams, ScalarJson, WellFormedScalar;
    TemplateShape(t, templates, value);
    var v := CanonicalTemplate(t, templates, value).value;
    var specs, params := templates[v.name], value.members["params"].members;
    var names := SortedKeys(specs.Keys);
    ParamsInRange(t, specs, params, names);
    assert CanonicalParams(t, specs, params, names) == Ok(v.params);
    var inner := JObj(map p | p in v.params :: ScalarJson(v.params[p]));
    assert InRange(inner);
    var json := ValueJson(v);
    assert json.members.Keys == {"name", "params"} && json.members["name"] == JStr(v.name)
           && json.members["params"] == inner;
  }

  /** Nothing the gate hashes or renders comes near the parser's depth limit. */
  lemma ValueDepth(v: Value)
    ensures Depth(ValueJson(v)) <= 2
  {
    hide ScalarJson;
    var json := ValueJson(v);
    match v {
      case Plain(s) => ScalarDepth(s);
      case TemplateValue(name, params) =>
        var inner := JObj(map p | p in params :: ScalarJson(params[p]));
        forall p | p in params ensures Depth(ScalarJson(params[p])) <= 0 { ScalarDepth(params[p]); }
        DepthOfObject(inner, 0);
        assert json.members.Keys == {"name", "params"} && json.members["params"] == inner
               && json.members["name"] == JStr(name);
        DepthOfObject(json, 1);
      case _ => DepthOfObject(json, 0);
    }
  }

  lemma ScalarDepth(s: ScalarValue)
    ensures Depth(ScalarJson(s)) == 0
  {
  }

  lemma ValueInRange(t: Tables, kind: Kind, value: Json)
    requires WellFormedKind(kind) && CanonicalValue(t, kind, value).Ok?
    ensures InRange(ValueJson(CanonicalValue(t, kind, value).value))
  {
    hide CanonicalScalar, CanonicalEmail, CanonicalMoney, CanonicalUrl, CanonicalPath, CanonicalTemplate;
    match kind {
      case ScalarKind(spec) => ScalarInRange(t, spec, value);
      case EmailKind => EmailShape(t, value.s);
      case MoneyKind(currencies, lo, hi) => AcceptedRange(value, currencies, lo, hi);
      case UrlKind(schemes, allowIp) => PortInRange(t, value.s, schemes, allowIp);
      case PathKind(under) =>
      case TemplateKind(templates) =>
        TemplateShape(t, templates, value);
        TemplateInRange(t, templates, value);
    }
  }

  function ArgsJson(args: map<string, Value>): Json { JObj(map n | n in args :: ValueJson(args[n])) }

  lemma ActionFields(a: Action)
    ensures var m := ActionJson(a).members;
      && ActionJson(a).JObj? && m.Keys == {"args", "principal", "resource", "session_id", "tool"}
      && m["args"] == ArgsJson(a.args) && m["principal"] == EntityJson(a.principalType, a.principal)
      && m["resource"] == EntityJson(a.resourceType, a.resourceId) && m["session_id"] == JStr(a.sessionId)
      && m["tool"] == JStr(a.tool)
  {
    hide ValueJson, EntityJson;
  }

  /** The text an action hash is taken over exists for every canonical action. */
  lemma ActionInRange(t: Tables, m: Manifest, env: Envelope)
    requires WellFormed(m) && Canonicalize(t, m, env).Ok?
    ensures InRange(ActionJson(Canonicalize(t, m, env).value))
  {
    hide Canonicalize, ResourceId, Parents, CanonicalValue, ValueJson, WellFormedKind, ActionJson, EntityJson,
         IsResourceId;
    var a := Canonicalize(t, m, env).value;
    ActionIsCanonical(t, m, env);
    forall n | n in a.args ensures InRange(ValueJson(a.args[n])) {
      var kind := m.tools[env.tool].args[n].kind;
      var raw :| CanonicalValue(t, kind, raw) == Ok(a.args[n]);
      ValueInRange(t, kind, raw);
    }
    hide IsCanonical;
    ActionFields(a);
    assert InRange(ArgsJson(a.args));
    EntityInRange(a.principalType, a.principal);
    EntityInRange(a.resourceType, a.resourceId);
    hide ArgsJson;
  }

  lemma EntityInRange(kind: string, id: string)
    ensures InRange(EntityJson(kind, id))
  {
  }

  // ---- the hash names one action ----

  lemma ScalarInjective(s: ScalarValue, r: ScalarValue)
    requires ScalarJson(s) == ScalarJson(r)
    ensures s == r
  {
  }

  lemma ParamsInjective(p: map<string, ScalarValue>, q: map<string, ScalarValue>)
    requires (map n | n in p :: ScalarJson(p[n])) == (map n | n in q :: ScalarJson(q[n]))
    ensures p == q
  {
    hide ScalarJson;
    var m, k := map n | n in p :: ScalarJson(p[n]), map n | n in q :: ScalarJson(q[n]);
    assert m.Keys == p.Keys && k.Keys == q.Keys;
    forall n | n in p ensures p[n] == q[n] {
      assert m[n] == ScalarJson(p[n]) && k[n] == ScalarJson(q[n]);
      ScalarInjective(p[n], q[n]);
    }
  }

  /** The member names alone tell the kinds of structured values apart. */
  lemma ValueKeys(v: Value)
    ensures v.Plain? <==> !ValueJson(v).JObj?
    ensures v.MoneyValue? ==> ValueJson(v).members.Keys == {"amount_minor", "currency"}
    ensures v.EmailValue? ==> ValueJson(v).members.Keys == {"address", "domain"}
    ensures v.UrlValue? ==> ValueJson(v).members.Keys == {"host", "path", "port", "query", "scheme"}
    ensures v.TemplateValue? ==> ValueJson(v).members.Keys == {"name", "params"}
  {
  }

  lemma SameConstructor(v: Value, w: Value)
    requires ValueJson(v) == ValueJson(w)
    ensures v.Plain? == w.Plain? && v.MoneyValue? == w.MoneyValue? && v.EmailValue? == w.EmailValue?
    ensures v.UrlValue? == w.UrlValue? && v.TemplateValue? == w.TemplateValue?
  {
    ValueKeys(v);
    ValueKeys(w);
    hide ValueJson;
    assert "currency" !in {"address", "domain"} && "currency" !in {"host", "path", "port", "query", "scheme"}
           && "currency" !in {"name", "params"};
    assert "domain" !in {"host", "path", "port", "query", "scheme"} && "domain" !in {"name", "params"};
    assert "params" !in {"host", "path", "port", "query", "scheme"};
  }

  lemma ValueInjective(v: Value, w: Value)
    requires ValueJson(v) == ValueJson(w)
    ensures v == w
  {
    SameConstructor(v, w);
    var m, n := ValueJson(v), ValueJson(w);
    match v {
      case Plain(s) => ScalarInjective(s, w.scalar);
      case MoneyValue(a) =>
        assert m.members["amount_minor"] == JInt(a.minor) && n.members["amount_minor"] == JInt(w.amount.minor);
        assert m.members["currency"] == JStr(a.currency) && n.members["currency"] == JStr(w.amount.currency);
      case EmailValue(address, domain) =>
        assert m.members["address"] == JStr(address) && n.members["address"] == JStr(w.address);
        assert m.members["domain"] == JStr(domain) && n.members["domain"] == JStr(w.domain);
      case UrlValue(u) => UrlInjective(v, w);
      case TemplateValue(name, params) =>
        assert m.members["name"] == JStr(name) && n.members["name"] == JStr(w.name);
        assert m.members["params"] == JObj(map p | p in params :: ScalarJson(params[p]));
        assert n.members["params"] == JObj(map p | p in w.params :: ScalarJson(w.params[p]));
        ParamsInjective(params, w.params);
    }
  }

  lemma UrlInjective(v: Value, w: Value)
    requires v.UrlValue? && w.UrlValue? && ValueJson(v) == ValueJson(w)
    ensures v == w
  {
    var m, n := ValueJson(v).members, ValueJson(w).members;
    assert m["host"] == JStr(v.url.host) && n["host"] == JStr(w.url.host);
    assert m["path"] == JStr(v.url.path) && n["path"] == JStr(w.url.path);
    assert m["port"] == JInt(v.url.port) && n["port"] == JInt(w.url.port);
    assert m["query"] == JStr(v.url.query) && n["query"] == JStr(w.url.query);
    assert m["scheme"] == JStr(v.url.scheme) && n["scheme"] == JStr(w.url.scheme);
  }

  lemma ArgsInjective(a: map<string, Value>, b: map<string, Value>)
    requires ArgsJson(a) == ArgsJson(b)
    ensures a == b
  {
    hide ValueJson;
    var m, k := ArgsJson(a).members, ArgsJson(b).members;
    assert m.Keys == a.Keys && k.Keys == b.Keys;
    forall n | n in a ensures a[n] == b[n] {
      assert m[n] == ValueJson(a[n]) && k[n] == ValueJson(b[n]);
      ValueInjective(a[n], b[n]);
    }
  }

  lemma EntityInjective(kind: string, id: string, other: string, otherId: string)
    requires EntityJson(kind, id) == EntityJson(other, otherId)
    ensures kind == other && id == otherId
  {
    var m, n := EntityJson(kind, id).members, EntityJson(other, otherId).members;
    assert m["id"] == JStr(id) && n["id"] == JStr(otherId) && m["type"] == JStr(kind) && n["type"] == JStr(other);
  }

  /** Everything but the derived parents is in the hashed text. */
  lemma ActionJsonInjective(a: Action, b: Action)
    requires ActionJson(a) == ActionJson(b)
    ensures a == b.(parents := a.parents)
  {
    ActionFields(a);
    ActionFields(b);
    hide ActionJson, EntityJson, ArgsJson;
    EntityInjective(a.principalType, a.principal, b.principalType, b.principal);
    EntityInjective(a.resourceType, a.resourceId, b.resourceType, b.resourceId);
    ArgsInjective(a.args, b.args);
  }

  const ACTION_TAG := "dag/action/v1"

  function ActionText(a: Action): string { ACTION_TAG + "\0" + Text(ActionJson(a)) }

  /**
   * Two envelopes whose canonical actions hash alike denote the same action, parents included, unless their two texts
   * are a collision of the digest: an approval or a token for one action fits no other.
   */
  lemma HashBindsAction(b: Bundle, env: Envelope, other: Envelope)
    requires WellFormed(b.manifest) && Canonicalize(b.tables, b.manifest, env).Ok?
             && Canonicalize(b.tables, b.manifest, other).Ok?
    ensures var x, y := Canonicalize(b.tables, b.manifest, env).value, Canonicalize(b.tables, b.manifest, other).value;
      ActionHash(b, x) == ActionHash(b, y) ==> x == y || (ActionText(x) != ActionText(y) && b.sha(ActionText(x)) == b.sha(ActionText(y)))
  {
    hide Canonicalize, ActionJson, Text, InRange, WellFormed;
    var x, y := Canonicalize(b.tables, b.manifest, env).value, Canonicalize(b.tables, b.manifest, other).value;
    HashIsOfText(b, x);
    HashIsOfText(b, y);
    if ActionText(x) == ActionText(y) {
      var tag := ACTION_TAG + "\0";
      assert ActionText(x)[|tag|..] == Text(ActionJson(x)) && ActionText(y)[|tag|..] == Text(ActionJson(y));
      ActionInRange(b.tables, b.manifest, env);
      ActionInRange(b.tables, b.manifest, other);
      JcsInjective(ActionJson(x), ActionJson(y));
      ActionJsonInjective(x, y);
      SameParents(b, env, other);
    }
  }

  lemma HashIsOfText(b: Bundle, a: Action)
    ensures ActionHash(b, a) == b.sha(ActionText(a))
  {
    hide ActionJson, Text;
  }

  lemma SameParents(b: Bundle, env: Envelope, other: Envelope)
    requires WellFormed(b.manifest) && Canonicalize(b.tables, b.manifest, env).Ok?
             && Canonicalize(b.tables, b.manifest, other).Ok?
    requires var x, y := Canonicalize(b.tables, b.manifest, env).value, Canonicalize(b.tables, b.manifest, other).value;
      x == y.(parents := x.parents)
    ensures Canonicalize(b.tables, b.manifest, env) == Canonicalize(b.tables, b.manifest, other)
  {
    hide Canonicalize, CanonicalValue, WellFormed, ResourceId, IsResourceId, Parents;
    ActionIsCanonical(b.tables, b.manifest, env);
    ActionIsCanonical(b.tables, b.manifest, other);
  }

  // ---- the tool's text denotes the checked action ----

  lemma MoneyShape(minor: nat, currency: string)
    requires currency in Exponents()
    ensures InRange(WireMoney(minor, currency)) && Depth(WireMoney(minor, currency)) <= 1
  {
    hide Exponents, DecimalText;
    var m := WireMoney(minor, currency);
    assert m.members.Keys == {"amount", "currency"} && m.members["amount"].JStr? && m.members["currency"].JStr?;
    hide WireMoney, MemberOrder, DepthMembers;
    DepthOfObject(m, 0);
  }

  lemma WireShape(t: Tables, kind: Kind, value: Json)
    requires WellFormedKind(kind) && CanonicalValue(t, kind, value).Ok?
    ensures Renderable(CanonicalValue(t, kind, value).value)
    ensures var w := WireValue(CanonicalValue(t, kind, value).value); InRange(w) && Depth(w) <= 2
  {
    hide CanonicalValue, WellFormedKind, Rebuild, DecimalText, Exponents, ValueJson, WireMoney, DEFAULT_PORT;
    CanonicalIsRenderable(t, kind, value);
    ValueInRange(t, kind, value);
    var v := CanonicalValue(t, kind, value).value;
    ValueDepth(v);
    if v.MoneyValue? { MoneyShape(v.amount.minor, v.amount.currency); }
  }

  lemma {:induction false} ArgsWireFixed(t: Tables, specs: map<string, ArgSpec>, raw: map<string, Json>, wire: map<string, Json>,
                                         names: seq<string>)
    requires Lawful(t) && forall n :: n in names ==> n in specs && WellFormedKind(specs[n].kind) && AddressesLawful(t, specs[n].kind)
    requires CanonicalArgs(t, specs, raw, names).Ok?
    requires forall i, j :: 0 <= i < j < |names| ==> names[i] != names[j]
    requires var args := CanonicalArgs(t, specs, raw, names).value;
      forall n :: n in names ==> (n in wire <==> n in args) && (n in args ==> Renderable(args[n]) && wire[n] == WireValue(args[n]))
    ensures var args, again := CanonicalArgs(t, specs, raw, names).value, CanonicalArgs(t, specs, wire, names);
      && (again.Ok? <==> forall n :: n in args ==> n in specs && Renderable(args[n]) && !TooLong(specs[n].kind, args[n]))
      && (again.Ok? ==> again.value == args)
  {
    hide CanonicalValue, WireValue, TooLong, WellFormedKind, Lawful, AddressesLawful, Renderable;
    if names != [] {
      var n, rest := names[0], names[1..];
      var args := CanonicalArgs(t, specs, raw, names).value;
      assert n !in rest;
      if n in raw {
        WireFixed(t, specs[n].kind, raw[n]);
        var more := CanonicalArgs(t, specs, raw, rest).value;
        assert args == more[n := args[n]] && n !in more;
        ArgsWireFixed(t, specs, raw, wire, rest);
      } else {
        ArgsWireFixed(t, specs, raw, wire, rest);
      }
    }
  }

  lemma WireJson(t: Tables, m: Manifest, env: Envelope)
    requires WellFormed(m) && Canonicalize(t, m, env).Ok?
    ensures RenderableAction(Canonicalize(t, m, env).value)
    ensures var w := JObj(WireArguments(Canonicalize(t, m, env).value)); InRange(w) && Depth(w) <= MAX_DEPTH
  {
    hide Canonicalize, CanonicalValue, WellFormedKind, ResourceId, IsResourceId, Parents, WireValue, Renderable;
    ActionIsRenderable(t, m, env);
    ActionIsCanonical(t, m, env);
    var a := Canonicalize(t, m, env).value;
    var w := JObj(WireArguments(a));
    forall n | n in w.members ensures InRange(w.members[n]) && Depth(w.members[n]) <= 2 {
      var kind := m.tools[env.tool].args[n].kind;
      var raw :| CanonicalValue(t, kind, raw) == Ok(a.args[n]);
      WireShape(t, kind, raw);
    }
    DepthOfObject(w, 2);
  }

  /** Only length can keep an argument's own rendering from being accepted again. */
  predicate Fits(m: Manifest, a: Action)
    requires RenderableAction(a) && a.tool in m.tools
  {
    && Utf8Length(Text(JObj(WireArguments(a)))) <= MAX_ARGUMENTS_BYTES
    && forall n :: n in a.args && n in m.tools[a.tool].args ==> !TooLong(m.tools[a.tool].args[n].kind, a.args[n])
  }

  lemma Decanonicalized(t: Tables, m: Manifest, env: Envelope) returns (raw: map<string, Json>)
    requires WellFormed(m) && Canonicalize(t, m, env).Ok?
    ensures var tool, a := m.tools[env.tool], Canonicalize(t, m, env).value;
      && LoadsStrict(env.arguments, MAX_ARGUMENTS_BYTES) == Ok(JObj(raw))
      && CanonicalArgs(t, tool.args, raw, SortedKeys(tool.args.Keys)) == Ok(a.args)
      && a.args.Keys == raw.Keys && raw.Keys <= tool.args.Keys
      && (forall n :: n in tool.args && !tool.args[n].optional ==> n in raw)
      && (tool.resource.ResourceFrom? ==> tool.resource.arg in a.args) && Assemble(m, tool, env, a.args) == Ok(a)
  {
    hide LoadsStrict, CanonicalArgs, ResourceId, Parents, IsResourceId, WellFormedKind;
    raw := LoadsStrict(env.arguments, MAX_ARGUMENTS_BYTES).value.members;
    var tool := m.tools[env.tool];
    var names := SortedKeys(tool.args.Keys);
    assert forall n :: n in raw ==> n in names;
  }

  lemma ReadWire(w: Json)
    requires w.JObj? && InRange(w) && Depth(w) <= MAX_DEPTH
    ensures if Utf8Length(Text(w)) <= MAX_ARGUMENTS_BYTES then LoadsStrict(Text(w), MAX_ARGUMENTS_BYTES) == Ok(w)
            else LoadsStrict(Text(w), MAX_ARGUMENTS_BYTES).Err?
  {
    RoundTrip(w, MAX_ARGUMENTS_BYTES);
    hide Text, InRange, Depth, ParseDocument, Check;
  }

  /** Canonicalising parsed arguments that are known, for a tool that is known. */
  lemma CanonicalizeParsed(t: Tables, m: Manifest, env: Envelope, w: Json)
    requires WellFormed(m) && env.tool in m.tools && w.JObj? && w.members.Keys <= m.tools[env.tool].args.Keys
    requires forall n :: n in m.tools[env.tool].args && !m.tools[env.tool].args[n].optional ==> n in w.members
    requires LoadsStrict(env.arguments, MAX_ARGUMENTS_BYTES) == Ok(w)
    ensures var tool := m.tools[env.tool];
      var args := CanonicalArgs(t, tool.args, w.members, SortedKeys(tool.args.Keys));
      && (args.Err? ==> Canonicalize(t, m, env) == Err(args.code))
      && (args.Ok? ==>
            && (tool.resource.ResourceFrom? ==> tool.resource.arg in args.value)
            && Canonicalize(t, m, env) == Assemble(m, tool, env, args.value))
  {
    hide LoadsStrict, CanonicalArgs, Assemble, WellFormedKind, SortedKeys;
    var tool := m.tools[env.tool];
    ArgKeys(t, tool.args, w.members, SortedKeys(tool.args.Keys));
  }

  lemma ArgKeys(t: Tables, specs: map<string, ArgSpec>, raw: map<string, Json>, names: seq<string>)
    requires forall n :: n in names ==> n in specs && WellFormedKind(specs[n].kind)
    ensures var r := CanonicalArgs(t, specs, raw, names); r.Ok? ==> r.value.Keys == set n | n in names && n in raw
  {
    hide CanonicalValue, WellFormedKind;
  }

  /**
   * The text of the arguments the runner is handed, submitted again, canonicalises to the very action that was checked,
   * exactly when that text still fits the input limits.
   */
  lemma WireDenotesAction(t: Tables, m: Manifest, env: Envelope)
    requires Lawful(t) && WellFormed(m) && Canonicalize(t, m, env).Ok?
    requires env.tool in m.tools ==> forall n :: n in m.tools[env.tool].args ==> AddressesLawful(t, m.tools[env.tool].args[n].kind)
    ensures RenderableAction(Canonicalize(t, m, env).value)
    ensures var a := Canonicalize(t, m, env).value;
      Canonicalize(t, m, env.(arguments := Text(JObj(WireArguments(a))))) == Ok(a) <==> Fits(m, a)
  {
    hide Canonicalize, LoadsStrict, CanonicalArgs, Assemble, WellFormedKind, TooLong, WireValue, Renderable, Lawful,
         AddressesLawful, Text, Utf8Length, InRange, Depth;
    WireJson(t, m, env);
    var raw := Decanonicalized(t, m, env);
    var a, tool := Canonicalize(t, m, env).value, m.tools[env.tool];
    var names, w := SortedKeys(tool.args.Keys), JObj(WireArguments(a));
    var again := env.(arguments := Text(w));
    ReadWire(w);
    DistinctKeys(tool.args.Keys);
    assert w.members.Keys == a.args.Keys;
    ArgsWireFixed(t, tool.args, raw, w.members, names);
    AssembleIgnoresText(m, tool, env, again, a.args);
    if Utf8Length(Text(w)) <= MAX_ARGUMENTS_BYTES {
      CanonicalizeParsed(t, m, again, w);
    } else {
      UnreadableIsRefused(t, m, again);
    }
  }

  lemma AssembleIgnoresText(m: Manifest, tool: ToolSpec, env: Envelope, other: Envelope, args: map<string, Value>)
    requires tool.resource.ResourceFrom? ==> tool.resource.arg in args
    requires other == env.(arguments := other.arguments)
    ensures Assemble(m, tool, env, args) == Assemble(m, tool, other, args)
  {
  }

  lemma UnreadableIsRefused(t: Tables, m: Manifest, env: Envelope)
    requires WellFormed(m) && LoadsStrict(env.arguments, MAX_ARGUMENTS_BYTES).Err?
    ensures Canonicalize(t, m, env).Err?
  {
    hide LoadsStrict, CanonicalArgs, Assemble, WellFormed;
  }
}
