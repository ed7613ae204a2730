/** Which action an accepted text is, and when two texts are one action. */
module Actions {
  import opened Wrappers
  import opened Texts
  import opened Json
  import opened JsonParser
  import opened Unicode
  import opened Url
  import opened Money
  import opened Path
  import opened Hosts
  import opened UrlText
  import opened Syntax
  import opened Manifest
  import opened Canonical
  import opened Arguments

  // ---- suffixes ----

  /** A bracketed host is its only suffix; of a name, everything behind one of its points that still has a point. */
  ghost predicate IsSuffix(s: string, host: string) {
    if Opens(host) then s == host
    else '.' in s && (s == host || exists before :: host == before + "." + s)
  }

  lemma {:induction false} JoinBoth(a: seq<string>, b: seq<string>)
    requires a != [] && b != []
    ensures Join(a + b, '.') == Join(a, '.') + "." + Join(b, '.')
  {
    assert (a + b)[0] == a[0];
    if |a| == 1 {
      assert (a + b)[1..] == b;
    } else {
      assert (a + b)[1..] == a[1..] + b;
      JoinBoth(a[1..], b);
      Rejoined(a[0], Join(a[1..], '.'), Join(b, '.'));
    }
  }

  lemma Rejoined(x: string, y: string, z: string)
    ensures x + ['.'] + (y + "." + z) == (x + ['.'] + y) + "." + z
  {
  }

  lemma SplitBoth(a: string, b: string)
    ensures Split(a + "." + b, '.') == Split(a, '.') + Split(b, '.')
  {
    JoinSplit(a, '.');
    JoinSplit(b, '.');
    hide Split, Join;
    JoinBoth(Split(a, '.'), Split(b, '.'));
    SplitJoin(Split(a, '.') + Split(b, '.'), '.');
  }

  lemma {:induction false} PointsAreParts(s: string)
    ensures '.' in s <==> |Split(s, '.')| >= 2
  {
    if s != [] { PointsAreParts(s[1..]); }
  }

  lemma LabelsFrom(host: string, i: nat)
    requires i + 1 < |Split(host, '.')|
    ensures var s := Join(Split(host, '.')[i..], '.');
      '.' in s && (i == 0 ==> s == host) && (i > 0 ==> host == Join(Split(host, '.')[..i], '.') + "." + s)
  {
    var labels := Split(host, '.');
    JoinSplit(host, '.');
    SplitJoin(labels[i..], '.');
    PointsAreParts(Join(labels[i..], '.'));
    hide Split, Join;
    if i == 0 {
      assert labels[0..] == labels;
    } else {
      JoinBoth(labels[..i], labels[i..]);
      assert labels[..i] + labels[i..] == labels;
    }
  }

  lemma SuffixIsListed(host: string, s: string)
    requires !Opens(host) && IsSuffix(s, host)
    ensures s in HostSuffixes(host)
  {
    PointsAreParts(s);
    JoinSplit(s, '.');
    var labels := Split(host, '.');
    var k := |labels| - |Split(s, '.')|;
    if s == host {
      assert labels[0..] == labels;
    } else {
      var before :| host == before + "." + s;
      SplitBoth(before, s);
      assert labels[k..] == Split(s, '.');
    }
    assert HostSuffixes(host)[k] == s;
  }

  /** The listed suffixes are the suffixes. */
  lemma SuffixExact(host: string, s: string)
    ensures s in HostSuffixes(host) <==> IsSuffix(s, host)
  {
    if !Opens(host) {
      if IsSuffix(s, host) { SuffixIsListed(host, s); }
      if s in HostSuffixes(host) {
        var i :| 0 <= i < |HostSuffixes(host)| && HostSuffixes(host)[i] == s;
        LabelsFrom(host, i);
      }
    }
  }

  // ---- the resource ----

  /** The member of a value's JSON that names the resource, or the value itself. */
  predicate NamesResource(v: Value, field: Option<string>, id: string) {
    match field
    case None => ValueJson(v) == JStr(id)
    case Some(f) => ValueJson(v).JObj? && f in ValueJson(v).members && ValueJson(v).members[f] == JStr(id)
  }

  /** What a manifest may name a resource by, seen from the value. */
  predicate HasField(v: Value, field: Option<string>) {
    match v
    case Plain(_) => field == None
    case EmailValue(_, _) => field == Some("address") || field == Some("domain")
    case TemplateValue(_, _) => field == Some("name")
    case UrlValue(_) =>
      field == Some("host") || field == Some("path") || field == Some("port") || field == Some("query") || field == Some("scheme")
    case MoneyValue(_) => false
  }

  lemma KindHasField(t: Tables, kind: Kind, raw: Json, v: Value, field: Option<string>)
    requires ResourceKind(kind, field) && ValueSays(t, kind, raw, v)
    ensures HasField(v, field)
  {
    hide PathSays, UrlSays, SpellsAmount, TextSays, IsId;
  }

  lemma FieldExact(v: Value, field: Option<string>, id: string)
    requires HasField(v, field)
    ensures FieldOf(v, field) == JStr(id) <==> NamesResource(v, field, id)
  {
    if v.UrlValue? {
      UrlMembers(v.url);
    } else if v.EmailValue? {
      var m := ValueJson(v).members;
      assert m["address"] == JStr(v.address) && m["domain"] == JStr(v.domain);
    } else if v.TemplateValue? {
      assert ValueJson(v).members["name"] == JStr(v.name);
    }
  }

  lemma UrlMembers(u: Url)
    ensures var m := ValueJson(UrlValue(u)).members;
      && m.Keys == {"host", "path", "port", "query", "scheme"}
      && m["host"] == JStr(u.host) && m["path"] == JStr(u.path) && m["port"] == JInt(u.port)
      && m["query"] == JStr(u.query) && m["scheme"] == JStr(u.scheme)
  {
  }

  // ---- the arguments together ----

  /** Exactly the arguments that were sent, each as it says. */
  ghost predicate ArgsSay(t: Tables, specs: map<string, ArgSpec>, raw: map<string, Json>, names: seq<string>, args: map<string, Value>) {
    && (forall n :: n in args <==> n in names && n in raw)
    && (forall n :: n in args ==> n in specs && ValueSays(t, specs[n].kind, raw[n], args[n]))
  }

  lemma ArgsSayFirst(t: Tables, specs: map<string, ArgSpec>, raw: map<string, Json>, n: string, rest: seq<string>, args: map<string, Value>)
    requires n !in rest && n in specs && n in raw
    ensures ArgsSay(t, specs, raw, [n] + rest, args) <==>
            n in args && ValueSays(t, specs[n].kind, raw[n], args[n]) && ArgsSay(t, specs, raw, rest, args - {n})
  {
    hide ValueSays;
    assert forall m :: m in [n] + rest <==> m == n || m in rest;
  }

  lemma NotSent(t: Tables, specs: map<string, ArgSpec>, raw: map<string, Json>, n: string, rest: seq<string>, args: map<string, Value>)
    requires n !in raw
    ensures ArgsSay(t, specs, raw, [n] + rest, args) <==> ArgsSay(t, specs, raw, rest, args)
  {
    hide ValueSays;
    assert forall m :: m in [n] + rest <==> m == n || m in rest;
  }

  lemma NothingSent(t: Tables, specs: map<string, ArgSpec>, raw: map<string, Json>, args: map<string, Value>)
    ensures ArgsSay(t, specs, raw, [], args) <==> args == map[]
  {
    hide ValueSays;
  }

  lemma {:induction false} ArgsExact(t: Tables, specs: map<string, ArgSpec>, raw: map<string, Json>, names: seq<string>, args: map<string, Value>)
    requires forall n :: n in names ==> n in specs && WellFormedKind(specs[n].kind)
    requires forall i, j :: 0 <= i < j < |names| ==> names[i] != names[j]
    ensures CanonicalArgs(t, specs, raw, names) == Ok(args) <==> ArgsSay(t, specs, raw, names, args)
  {
    hide CanonicalValue, ValueSays, ArgsSay, WellFormedKind;
    if names == [] {
      NothingSent(t, specs, raw, args);
    } else {
      var n, rest := names[0], names[1..];
      assert names == [n] + rest && n !in rest;
      if n !in raw {
        ArgsExact(t, specs, raw, rest, args);
        NotSent(t, specs, raw, n, rest, args);
      } else {
        var one, others := CanonicalValue(t, specs[n].kind, raw[n]), CanonicalArgs(t, specs, raw, rest);
        ArgsExact(t, specs, raw, rest, args - {n});
        ArgsSayFirst(t, specs, raw, n, rest, args);
        if n in args { ValueExact(t, specs[n].kind, raw[n], args[n]); }
        if one.Ok? && others.Ok? { WithAndWithout(args, n, others.value, one.value); }
      }
    }
  }

  // ---- the action ----

  /** Every known argument that was sent, no required one missing. */
  predicate Complete(tool: ToolSpec, raw: map<string, Json>) {
    (forall n :: n in raw ==> n in tool.args) && (forall n :: n in tool.args && !tool.args[n].optional ==> n in raw)
  }

  /** The action of a tool, of what was sent to it and of who sent it, field by field. */
  ghost predicate ActionSays(t: Tables, m: Manifest, env: Envelope, raw: map<string, Json>, a: Action) {
    && env.tool in m.tools
    && var tool := m.tools[env.tool];
    && Complete(tool, raw)
    && a.tool == env.tool && a.principalType == m.principalType && a.principal == env.principal
    && a.sessionId == env.sessionId && a.resourceType == tool.resourceType
    && a.args.Keys == raw.Keys && (forall n :: n in raw ==> ValueSays(t, tool.args[n].kind, raw[n], a.args[n]))
    && IsResourceId(a.resourceId)
    && (match tool.resource
        case FixedResource(id) => a.resourceId == id
        case ResourceFrom(arg, field) => arg in a.args && NamesResource(a.args[arg], field, a.resourceId))
    && IsHung(tool.parentType, a)
  }

  /** The parents are the suffixes of the resource, where the tool asks for them. */
  ghost predicate IsHung(parentType: Option<string>, a: Action) {
    forall u :: u in a.parents <==> parentType == Some(u.kind) && IsSuffix(u.id, a.resourceId)
  }

  lemma HungExact(tool: ToolSpec, a: Action)
    ensures a.parents == Parents(tool, a.resourceId) <==> IsHung(tool.parentType, a)
  {
    hide HostSuffixes, IsSuffix;
    forall s ensures s in HostSuffixes(a.resourceId) <==> IsSuffix(s, a.resourceId) { SuffixExact(a.resourceId, s); }
    forall u ensures u in Parents(tool, a.resourceId) <==> tool.parentType == Some(u.kind) && IsSuffix(u.id, a.resourceId) {
      assert u == Uid(u.kind, u.id);
    }
  }

  lemma ArgsOfTool(t: Tables, tool: ToolSpec, raw: map<string, Json>, args: map<string, Value>)
    requires Complete(tool, raw) && forall n :: n in tool.args ==> WellFormedKind(tool.args[n].kind)
    ensures CanonicalArgs(t, tool.args, raw, SortedKeys(tool.args.Keys)) == Ok(args) <==>
            args.Keys == raw.Keys && forall n :: n in raw ==> ValueSays(t, tool.args[n].kind, raw[n], args[n])
  {
    hide CanonicalArgs, ValueSays, WellFormedKind, SortedKeys;
    var names := SortedKeys(tool.args.Keys);
    DistinctKeys(tool.args.Keys);
    ArgsExact(t, tool.args, raw, names, args);
    assert forall n :: n in names && n in raw <==> n in raw;
  }

  lemma AssembleExact(m: Manifest, tool: ToolSpec, env: Envelope, args: map<string, Value>, a: Action)
    requires tool.resource.ResourceFrom? ==> tool.resource.arg in args && HasField(args[tool.resource.arg], tool.resource.field)
    requires a.args == args
    ensures Assemble(m, tool, env, args) == Ok(a) <==>
      && a.tool == env.tool && a.principalType == m.principalType && a.principal == env.principal
      && a.sessionId == env.sessionId && a.resourceType == tool.resourceType
      && IsResourceId(a.resourceId)
      && (match tool.resource
          case FixedResource(id) => a.resourceId == id
          case ResourceFrom(arg, field) => NamesResource(a.args[arg], field, a.resourceId))
      && IsHung(tool.parentType, a)
  {
    hide IsResourceId, NamesResource, Parents, IsHung, FieldOf, HasField;
    HungExact(tool, a);
    if tool.resource.ResourceFrom? { FieldExact(args[tool.resource.arg], tool.resource.field, a.resourceId); }
  }

  /** A text is accepted exactly as the action that its arguments say. */
  lemma ActionExact(t: Tables, m: Manifest, env: Envelope, raw: map<string, Json>, a: Action)
    requires WellFormed(m) && LoadsStrict(env.arguments, MAX_ARGUMENTS_BYTES) == Ok(JObj(raw))
    ensures Canonicalize(t, m, env) == Ok(a) <==> ActionSays(t, m, env, raw, a)
  {
    hide LoadsStrict, CanonicalArgs, Assemble, ValueSays, WellFormedKind, IsHung, IsResourceId, NamesResource, HasField;
    if env.tool in m.tools {
      var tool := m.tools[env.tool];
      if Complete(tool, raw) {
        ArgsOfTool(t, tool, raw, a.args);
        var args := CanonicalArgs(t, tool.args, raw, SortedKeys(tool.args.Keys));
        if args.Ok? {
          ArgsOfTool(t, tool, raw, args.value);
          SentHasField(t, m, tool, raw, args.value);
          AssembledArgs(m, tool, env, args.value);
        }
        if args == Ok(a.args) { AssembleExact(m, tool, env, a.args, a); }
      }
    }
  }

  lemma AssembledArgs(m: Manifest, tool: ToolSpec, env: Envelope, args: map<string, Value>)
    requires tool.resource.ResourceFrom? ==> tool.resource.arg in args
    ensures Assemble(m, tool, env, args).Ok? ==> Assemble(m, tool, env, args).value.args == args
  {
    hide ResourceId, IsResourceId, Parents;
  }

  lemma SentHasField(t: Tables, m: Manifest, tool: ToolSpec, raw: map<string, Json>, args: map<string, Value>)
    requires WellFormedTool(m, tool) && Complete(tool, raw) && args.Keys == raw.Keys
    requires forall n :: n in raw ==> ValueSays(t, tool.args[n].kind, raw[n], args[n])
    ensures tool.resource.ResourceFrom? ==> tool.resource.arg in args && HasField(args[tool.resource.arg], tool.resource.field)
  {
    hide ValueSays, WellFormedKind, HasField, ResourceKind;
    if tool.resource.ResourceFrom? {
      var n := tool.resource.arg;
      KindHasField(t, tool.args[n].kind, raw[n], args[n], tool.resource.field);
    }
  }

  /** What is no JSON object, or is for no tool, is no action. */
  lemma OnlyObjects(t: Tables, m: Manifest, env: Envelope) returns (raw: map<string, Json>)
    requires WellFormed(m) && Canonicalize(t, m, env).Ok?
    ensures LoadsStrict(env.arguments, MAX_ARGUMENTS_BYTES) == Ok(JObj(raw))
    ensures ActionSays(t, m, env, raw, Canonicalize(t, m, env).value)
  {
    hide LoadsStrict, CanonicalArgs, Assemble, ActionSays, WellFormedKind;
    raw := LoadsStrict(env.arguments, MAX_ARGUMENTS_BYTES).value.members;
    ActionExact(t, m, env, raw, Canonicalize(t, m, env).value);
  }

  // ---- when two texts are one action ----

  /** The same arguments of one tool, each the same one. */
  ghost predicate SameArguments(t: Tables, tool: ToolSpec, v: map<string, Json>, w: map<string, Json>) {
    v.Keys == w.Keys && forall n :: n in v ==> n in tool.args && SameArgument(t, tool.args[n].kind, v[n], w[n])
  }

  lemma ArgsAgree(t: Tables, tool: ToolSpec, v: map<string, Json>, w: map<string, Json>, a: map<string, Value>, b: map<string, Value>)
    requires Complete(tool, v) && Complete(tool, w) && forall n :: n in tool.args ==> WellFormedKind(tool.args[n].kind)
    requires a.Keys == v.Keys && forall n :: n in v ==> ValueSays(t, tool.args[n].kind, v[n], a[n])
    requires b.Keys == w.Keys && forall n :: n in w ==> ValueSays(t, tool.args[n].kind, w[n], b[n])
    ensures a == b <==> SameArguments(t, tool, v, w)
  {
    hide ValueSays, WellFormedKind, SameArgument;
    if v.Keys == w.Keys {
      forall n | n in v ensures a[n] == b[n] <==> SameArgument(t, tool.args[n].kind, v[n], w[n]) {
        var kind := tool.args[n].kind;
        ValueExact(t, kind, v[n], a[n]);
        ValueExact(t, kind, w[n], b[n]);
        SameValue(t, kind, v[n], w[n]);
      }
    }
  }

  /** Two accepted texts are one action exactly when tool, caller, session and every argument are the same. */
  lemma SameAction(t: Tables, m: Manifest, e: Envelope, f: Envelope, v: map<string, Json>, w: map<string, Json>)
    requires WellFormed(m) && Canonicalize(t, m, e).Ok? && Canonicalize(t, m, f).Ok?
    requires LoadsStrict(e.arguments, MAX_ARGUMENTS_BYTES) == Ok(JObj(v))
    requires LoadsStrict(f.arguments, MAX_ARGUMENTS_BYTES) == Ok(JObj(w))
    ensures Canonicalize(t, m, e) == Canonicalize(t, m, f) <==>
            e.tool == f.tool && e.principal == f.principal && e.sessionId == f.sessionId && SameArguments(t, m.tools[e.tool], v, w)
  {
    hide LoadsStrict, ValueSays, WellFormedKind, SameArguments, IsHung, IsResourceId, NamesResource, Complete;
    var a, b := Canonicalize(t, m, e).value, Canonicalize(t, m, f).value;
    ActionExact(t, m, e, v, a);
    ActionExact(t, m, f, w, b);
    hide Canonicalize;
    if e.tool == f.tool {
      ArgsAgree(t, m.tools[e.tool], v, w, a.args, b.args);
      if e.principal == f.principal && e.sessionId == f.sessionId && a.args == b.args { SameResource(t, m, e, f, v, w, a, b); }
    }
  }

  lemma SameResource(t: Tables, m: Manifest, e: Envelope, f: Envelope, v: map<string, Json>, w: map<string, Json>, a: Action, b: Action)
    requires ActionSays(t, m, e, v, a) && ActionSays(t, m, f, w, b) && a.args == b.args
    requires e.tool == f.tool && e.principal == f.principal && e.sessionId == f.sessionId
    ensures a == b
  {
    hide ValueSays, IsResourceId, Complete, ValueJson, IsSuffix;
    assert a.resourceId == b.resourceId;
    assert a.parents == b.parents;
  }
}
