/** What every kind of argument says, apart from how it is canonicalised. */
module Arguments {
  import opened Wrappers
  import opened Texts
  import opened Json
  import opened Money
  import opened Unicode
  import opened Percent
  import opened DotSegments
  import opened Url
  import opened Path
  import opened Syntax
  import opened Manifest
  import opened Canonical
  import opened Escapes
  import opened Hosts
  import opened UrlText

  // ---- text ----

  /** No control but tab and newline, and no bidirectional override. */
  predicate CleanText(s: string) {
    forall i :: 0 <= i < |s| ==> (IsControl(s[i]) ==> s[i] == '\t' || s[i] == '\n') && !IsBidi(s[i])
  }

  lemma {:induction false} NoBadText(s: string)
    ensures FirstBadTextChar(s) == None <==> CleanText(s)
  {
    if s != [] { NoBadText(s[1..]); }
  }

  predicate TextSays(t: Tables, value: string, maxLen: nat, text: string) {
    Assigned(t, value) && text == t.nfc(value) && CleanText(text) && |text| <= maxLen
  }

  /** A text is taken for its normal form, when that is clean and fits. */
  lemma TextExact(t: Tables, value: string, maxLen: nat, text: string)
    ensures CanonicalText(t, value, maxLen) == Ok(text) <==> TextSays(t, value, maxLen, text)
    ensures !Assigned(t, value) <==> CanonicalText(t, value, maxLen) == Err("unassigned_code_point")
    ensures Assigned(t, value) && CleanText(t.nfc(value)) && |t.nfc(value)| > maxLen
            <==> CanonicalText(t, value, maxLen) == Err("too_long")
  {
    NoBadText(t.nfc(value));
    BadTextCode(t.nfc(value));
  }

  lemma {:induction false} BadTextCode(s: string)
    ensures FirstBadTextChar(s).Some? ==> FirstBadTextChar(s).value in {"control_character", "bidi_control"}
  {
    if s != [] { BadTextCode(s[1..]); }
  }

  /** Clean text in normal form is kept as it is. */
  lemma StableTextKept(t: Tables, value: string, maxLen: nat)
    requires Assigned(t, value) && Stable(t, value)
    ensures CanonicalText(t, value, maxLen) == Ok(value) <==> CleanText(value) && |value| <= maxLen
  {
    TextExact(t, value, maxLen, value);
  }

  /** Two accepted texts are one exactly when their normal forms are. */
  lemma SameText(t: Tables, v: string, w: string, maxLen: nat)
    requires CanonicalText(t, v, maxLen).Ok? && CanonicalText(t, w, maxLen).Ok?
    ensures CanonicalText(t, v, maxLen) == CanonicalText(t, w, maxLen) <==> t.nfc(v) == t.nfc(w)
  {
    TextExact(t, v, maxLen, CanonicalText(t, v, maxLen).value);
    TextExact(t, w, maxLen, CanonicalText(t, w, maxLen).value);
  }

  // ---- addresses ----

  /** A local part and a host around the one at sign; the host is a name, never an address. */
  predicate MailSays(t: Tables, value: string, local: string, host: string, v: Value) {
    && value == local + "@" + host && IsLocalPart(local) && FreeOf(host, "@<>,")
    && v.EmailValue? && HostSays(t, host, false, v.domain) && v.address == local + "@" + v.domain
  }

  lemma LocalIsSafe(local: string)
    requires IsLocalPart(local)
    ensures FreeOf(local, "@<>,")
  {
  }

  lemma MailSplit(local: string, host: string)
    requires FreeOf(local, "@<>,") && FreeOf(host, "@<>,")
    ensures var s := local + "@" + host; Split(s, '@') == [local, host] && '<' !in s && '>' !in s && ',' !in s
  {
    assert "@<>,"[0] == '@' && "@<>,"[1] == '<' && "@<>,"[2] == '>' && "@<>,"[3] == ',';
    assert Free(local, '@') && Free(host, '@');
    SplitJoin([local, host], '@');
    assert [local, host][1..] == [host];
    assert Join([local, host], '@') == local + "@" + host;
  }

  lemma MailJoin(s: string)
    requires |Split(s, '@')| == 2 && '<' !in s && '>' !in s && ',' !in s
    ensures var parts := Split(s, '@'); s == parts[0] + "@" + parts[1] && FreeOf(parts[1], "@<>,")
  {
    JoinSplit(s, '@');
    var parts := Split(s, '@');
    assert parts == [parts[0], parts[1]];
    assert [parts[0], parts[1]][1..] == [parts[1]];
    assert s == parts[0] + "@" + parts[1];
    forall i | 0 <= i < |parts[1]| ensures parts[1][i] !in "@<>," {
      assert s[|parts[0]| + 1 + i] == parts[1][i];
      assert parts[1] in parts;
    }
  }

  lemma MailRead(t: Tables, value: string) returns (local: string, host: string)
    requires CanonicalEmail(t, value).Ok?
    ensures MailSays(t, value, local, host, CanonicalEmail(t, value).value)
  {
    hide CanonicalHost, IsLabel, Split, HostSays, IsLocalPart, FreeOf;
    var parts := Split(value, '@');
    local, host := parts[0], parts[1];
    MailJoin(value);
    HostExact(t, host, false, CanonicalHost(t, host, false).value);
  }

  lemma MailTaken(t: Tables, value: string, local: string, host: string, v: Value)
    requires MailSays(t, value, local, host, v)
    ensures CanonicalEmail(t, value) == Ok(v)
  {
    hide CanonicalHost, IsLabel, Split, IsLocalPart, FreeOf, IsTopLabel, IsIpv4;
    LocalIsSafe(local);
    MailSplit(local, host);
    HostExact(t, host, false, v.domain);
    assert host[0] != '[';
  }

  /** An address is accepted exactly as its two parts say. */
  lemma EmailExact(t: Tables, value: string, v: Value)
    ensures CanonicalEmail(t, value) == Ok(v) <==> exists local, host :: MailSays(t, value, local, host, v)
  {
    hide CanonicalEmail, MailSays;
    if CanonicalEmail(t, value) == Ok(v) { var local, host := MailRead(t, value); }
    forall local, host | MailSays(t, value, local, host, v) ensures CanonicalEmail(t, value) == Ok(v) {
      MailTaken(t, value, local, host, v);
    }
  }

  /** The domain of an address is never an IP address. */
  lemma EmailNamesOnly(t: Tables, value: string)
    requires CanonicalEmail(t, value).Ok?
    ensures CanonicalEmail(t, value).value.EmailValue? && NoAddress(CanonicalEmail(t, value).value.domain)
  {
    hide CanonicalEmail, NoAddress, HostSays, IsLocalPart, FreeOf;
    var local, host := MailRead(t, value);
    HostExact(t, host, false, CanonicalEmail(t, value).value.domain);
    NamesOnly(t, host);
  }

  // ---- one value ----

  predicate ScalarSays(t: Tables, spec: Scalar, value: Json, v: ScalarValue) {
    match spec
    case BoolSpec => v.BoolValue? && value == JBool(v.b)
    case IdSpec => v.TextValue? && value == JStr(v.s) && IsId(v.s)
    case IntSpec(lo, hi) => v.IntValue? && value == JInt(v.n) && lo <= v.n <= hi
    case EnumSpec(values) => v.TextValue? && value == JStr(v.s) && v.s in values
    case TextSpec(maxLen) => v.TextValue? && value.JStr? && TextSays(t, value.s, maxLen, v.s)
  }

  lemma ScalarExact(t: Tables, spec: Scalar, value: Json, v: ScalarValue)
    ensures CanonicalScalar(t, spec, value) == Ok(v) <==> ScalarSays(t, spec, value, v)
  {
    hide CanonicalText, TextSays, IsId;
    if spec.TextSpec? && value.JStr? && v.TextValue? { TextExact(t, value.s, spec.maxLen, v.s); }
  }

  ghost predicate ParamsSay(t: Tables, specs: map<string, Scalar>, params: map<string, Json>, names: seq<string>,
                      values: map<string, ScalarValue>)
  {
    && (forall n :: n in values <==> n in names)
    && (forall n :: n in values ==> n in specs && n in params && ScalarSays(t, specs[n], params[n], values[n]))
  }

  lemma ParamsSayFirst(t: Tables, specs: map<string, Scalar>, params: map<string, Json>, n: string, rest: seq<string>,
                       values: map<string, ScalarValue>)
    requires n !in rest && n in specs && n in params
    ensures ParamsSay(t, specs, params, [n] + rest, values) <==>
            n in values && ScalarSays(t, specs[n], params[n], values[n]) && ParamsSay(t, specs, params, rest, values - {n})
  {
    hide ScalarSays;
    assert forall m :: m in [n] + rest <==> m == n || m in rest;
  }

  lemma WithAndWithout<V>(values: map<string, V>, n: string, less: map<string, V>, v: V)
    requires n !in less
    ensures values == less[n := v] <==> n in values && values[n] == v && values - {n} == less
  {
    if n in values { assert values == (values - {n})[n := values[n]]; }
    assert less[n := v] - {n} == less;
  }

  lemma {:induction false} ParamsExact(t: Tables, specs: map<string, Scalar>, params: map<string, Json>, names: seq<string>,
                                       values: map<string, ScalarValue>)
    requires forall n :: n in names ==> n in specs && n in params
    requires forall i, j :: 0 <= i < j < |names| ==> names[i] != names[j]
    ensures CanonicalParams(t, specs, params, names) == Ok(values) <==> ParamsSay(t, specs, params, names, values)
  {
    hide CanonicalScalar, ScalarSays, ParamsSay;
    if names != [] {
      var n, rest := names[0], names[1..];
      assert names == [n] + rest && n !in rest;
      var one, others := CanonicalScalar(t, specs[n], params[n]), CanonicalParams(t, specs, params, rest);
      ParamsExact(t, specs, params, rest, values - {n});
      ParamsSayFirst(t, specs, params, n, rest, values);
      if n in values { ScalarExact(t, specs[n], params[n], values[n]); }
      if one.Ok? && others.Ok? { WithAndWithout(values, n, others.value, one.value); }
    } else {
      NothingToSay(t, specs, params, values);
    }
  }

  lemma NothingToSay(t: Tables, specs: map<string, Scalar>, params: map<string, Json>, values: map<string, ScalarValue>)
    ensures ParamsSay(t, specs, params, [], values) <==> values == map[]
  {
    hide ScalarSays;
  }

  /** A known name, and exactly its parameters, each of which says its value. */
  predicate TemplateSays(t: Tables, templates: map<string, map<string, Scalar>>, value: Json, v: Value) {
    && v.TemplateValue? && v.name in templates && IsName(v.name)
    && value.JObj? && value.members.Keys == {"name", "params"} && value.members["name"] == JStr(v.name)
    && value.members["params"].JObj?
    && var specs, params := templates[v.name], value.members["params"].members;
       params.Keys == specs.Keys == v.params.Keys && forall n :: n in specs ==> ScalarSays(t, specs[n], params[n], v.params[n])
  }

  lemma TemplateExact(t: Tables, templates: map<string, map<string, Scalar>>, value: Json, v: Value)
    ensures CanonicalTemplate(t, templates, value) == Ok(v) <==> TemplateSays(t, templates, value, v)
  {
    hide CanonicalParams, SortedKeys, ScalarSays, IsName;
    if value.JObj? && value.members.Keys == {"name", "params"} && value.members["name"].JStr?
       && value.members["name"].s in templates && value.members["params"].JObj? {
      var specs, params := templates[value.members["name"].s], value.members["params"].members;
      if params.Keys == specs.Keys && v.TemplateValue? {
        DistinctKeys(specs.Keys);
        ParamsExact(t, specs, params, SortedKeys(specs.Keys), v.params);
        hide TemplateSays;
        ParamsOfAll(t, specs, params, SortedKeys(specs.Keys), v.params);
      }
    }
  }

  lemma ParamsOfAll(t: Tables, specs: map<string, Scalar>, params: map<string, Json>, names: seq<string>,
                    values: map<string, ScalarValue>)
    requires params.Keys == specs.Keys && forall n :: n in names <==> n in specs
    ensures ParamsSay(t, specs, params, names, values) <==>
            specs.Keys == values.Keys && forall n :: n in specs ==> ScalarSays(t, specs[n], params[n], values[n])
  {
    hide ScalarSays;
  }

  /** What an argument of a kind says. */
  ghost predicate ValueSays(t: Tables, kind: Kind, value: Json, v: Value) {
    match kind
    case ScalarKind(spec) => v.Plain? && ScalarSays(t, spec, value, v.scalar)
    case EmailKind => value.JStr? && exists local, host :: MailSays(t, value.s, local, host, v)
    case MoneyKind(currencies, lo, hi) => v.MoneyValue? && exists d :: SpellsAmount(value, d, v.amount, currencies, lo, hi)
    case UrlKind(schemes, allowIp) => value.JStr? && v.UrlValue? && exists p :: UrlSays(t, value.s, p, schemes, allowIp, v.url)
    case PathKind(under) => value.JStr? && v.Plain? && v.scalar.TextValue? && PathSays(t, value.s, under, v.scalar.s)
    case TemplateKind(templates) => TemplateSays(t, templates, value, v)
  }

  /** An argument of any kind is accepted exactly as what it says. */
  lemma ValueExact(t: Tables, kind: Kind, value: Json, v: Value)
    requires WellFormedKind(kind)
    ensures CanonicalValue(t, kind, value) == Ok(v) <==> ValueSays(t, kind, value, v)
  {
    hide CanonicalScalar, CanonicalEmail, CanonicalMoney, CanonicalUrl, CanonicalPath, CanonicalTemplate,
         ScalarSays, MailSays, SpellsAmount, UrlSays, PathSays, TemplateSays;
    match kind {
      case ScalarKind(spec) => if v.Plain? { ScalarExact(t, spec, value, v.scalar); }
      case EmailKind => if value.JStr? { EmailExact(t, value.s, v); }
      case MoneyKind(currencies, lo, hi) => if v.MoneyValue? { MoneyExact(value, v.amount, currencies, lo, hi); }
      case UrlKind(schemes, allowIp) => if value.JStr? && v.UrlValue? { UrlExact(t, value.s, schemes, allowIp, v.url); }
      case PathKind(under) =>
        if value.JStr? && v.Plain? && v.scalar.TextValue? { PathExact(t, value.s, under, v.scalar.s); }
      case TemplateKind(templates) => TemplateExact(t, templates, value, v);
    }
  }

  // ---- when two arguments are one ----

  /** Text up to its normal form; every other scalar as it stands. */
  predicate SameScalar(t: Tables, spec: Scalar, v: Json, w: Json) {
    if spec.TextSpec? && v.JStr? && w.JStr? then t.nfc(v.s) == t.nfc(w.s) else v == w
  }

  lemma SameScalars(t: Tables, spec: Scalar, v: Json, w: Json)
    requires CanonicalScalar(t, spec, v).Ok? && CanonicalScalar(t, spec, w).Ok?
    ensures CanonicalScalar(t, spec, v) == CanonicalScalar(t, spec, w) <==> SameScalar(t, spec, v, w)
  {
    ScalarExact(t, spec, v, CanonicalScalar(t, spec, v).value);
    ScalarExact(t, spec, w, CanonicalScalar(t, spec, w).value);
    hide CanonicalScalar, Assigned, CleanText, IsId;
  }

  /** One local part, letter by letter, and hosts that encode alike. */
  predicate SameMail(t: Tables, v: string, w: string) {
    var a, b := Split(v, '@'), Split(w, '@');
    |a| == 2 && |b| == 2 && a[0] == b[0] && Encoded(t, a[1]) == Encoded(t, b[1])
  }

  lemma MailParts(t: Tables, value: string) returns (local: string, host: string)
    requires CanonicalEmail(t, value).Ok?
    ensures Split(value, '@') == [local, host] && !Opens(host)
    ensures var v := CanonicalEmail(t, value).value;
      v.EmailValue? && v.address == local + "@" + v.domain && CanonicalHost(t, host, false) == Ok(v.domain)
  {
    hide CanonicalEmail, IsLocalPart, FreeOf, Split, CanonicalHost, IsHostName, IsIpv4, Encoded;
    local, host := MailRead(t, value);
    LocalIsSafe(local);
    MailSplit(local, host);
    HostExact(t, host, false, CanonicalEmail(t, value).value.domain);
  }

  lemma SameMails(t: Tables, v: string, w: string)
    requires CanonicalEmail(t, v).Ok? && CanonicalEmail(t, w).Ok?
    ensures CanonicalEmail(t, v) == CanonicalEmail(t, w) <==> SameMail(t, v, w)
  {
    hide CanonicalEmail, Split, CanonicalHost, Encoded;
    var l, g := MailParts(t, v);
    var m, h := MailParts(t, w);
    SameHost(t, g, h, false);
    SameAddress(l, m, CanonicalEmail(t, v).value, CanonicalEmail(t, w).value);
  }

  lemma SameAddress(l: string, m: string, a: Value, b: Value)
    requires a.EmailValue? && b.EmailValue? && a.address == l + "@" + a.domain && b.address == m + "@" + b.domain
    ensures a == b <==> l == m && a.domain == b.domain
  {
    SameBefore(l, m, "@" + a.domain);
    assert l + "@" + a.domain == l + ("@" + a.domain) && m + "@" + a.domain == m + ("@" + a.domain);
  }

  lemma SameBefore(a: string, b: string, tail: string)
    ensures a + tail == b + tail <==> a == b
  {
    if a + tail == b + tail { assert a == (a + tail)[..|a|] && b == (b + tail)[..|b|]; }
  }

  /** One currency, and one decimal. */
  ghost predicate SameMoney(v: Json, w: Json) {
    exists c: string, d: Decimal, e: Decimal :: SpellsIn(v, c, d) && SpellsIn(w, c, e) && Millionths(d) == Millionths(e)
  }

  predicate SpellsIn(v: Json, currency: string, d: Decimal) {
    d.Valid() && v == JObj(map["amount" := JStr(DecimalSpelling(d)), "currency" := JStr(currency)])
  }

  lemma SpelledOnce(v: Json, c: string, d: Decimal, f: string, e: Decimal)
    requires SpellsIn(v, c, d) && SpellsIn(v, f, e)
    ensures c == f && d == e
  {
    hide DecimalSpelling, ParseDecimal;
    assert v.members["amount"] == JStr(DecimalSpelling(d)) == JStr(DecimalSpelling(e));
    assert v.members["currency"] == JStr(c) == JStr(f);
    DecimalExact(DecimalSpelling(d), d);
    DecimalExact(DecimalSpelling(d), e);
  }

  lemma SameMoneys(v: Json, w: Json, currencies: seq<string>, lo: int, hi: int)
    requires CanonicalMoney(v, currencies, lo, hi).Ok? && CanonicalMoney(w, currencies, lo, hi).Ok?
    ensures CanonicalMoney(v, currencies, lo, hi) == CanonicalMoney(w, currencies, lo, hi) <==> SameMoney(v, w)
  {
    hide CanonicalMoney, Exponents, Millionths, DecimalSpelling, Pow10;
    var d := MoneyRead(v, currencies, lo, hi);
    var e := MoneyRead(w, currencies, lo, hi);
    var a, b := CanonicalMoney(v, currencies, lo, hi).value, CanonicalMoney(w, currencies, lo, hi).value;
    assert SpellsIn(v, a.currency, d) && SpellsIn(w, b.currency, e);
    if a.currency == b.currency { CancelBoth(a.minor, b.minor, Pow10(6 - Exponents()[a.currency])); }
    hide SpellsIn, SpellsAmount;
    forall c, x, y | SpellsIn(v, c, x) && SpellsIn(w, c, y) && Millionths(x) == Millionths(y) ensures a == b {
      SpelledOnce(v, c, x, a.currency, d);
      SpelledOnce(w, c, y, b.currency, e);
    }
  }

  lemma CancelBoth(x: int, y: int, p: nat)
    requires p > 0
    ensures x * p == y * p <==> x == y
  {
    assert x < y ==> x * p < y * p;
    assert y < x ==> y * p < x * p;
  }

  function PortValue(text: string, scheme: string): int
    requires scheme in DEFAULT_PORT
  {
    if text == "" then DEFAULT_PORT[scheme] else if AllDigits(text) then Number(text) else -1
  }

  /** One scheme up to case, hosts that encode alike, one port, one walk of the path, and queries that say the same. */
  predicate SamePieces(t: Tables, p: Pieces, q: Pieces) {
    && Lower(p.scheme) == Lower(q.scheme) && Lower(p.scheme) in DEFAULT_PORT
    && (Opens(p.host) <==> Opens(q.host)) && Encoded(t, p.host) == Encoded(t, q.host)
    && PortValue(PortOf(p.port), Lower(p.scheme)) == PortValue(PortOf(q.port), Lower(p.scheme))
    && WalkOf(p.path) == WalkOf(q.path)
    && Signs(PortOf(p.query)) == Signs(PortOf(q.query))
  }

  /** The path without dot segments, its escapes in normal form. */
  function WalkOf(path: string): Option<string> {
    match Normalise(path, PathChars)
    case Ok(normal) => Some(RemoveDots(if normal == "" then "/" else normal))
    case Err(_) => None
  }

  ghost predicate SameUrl(t: Tables, v: string, w: string) {
    exists p, q :: Separate(p) && Separate(q) && t.nfc(v) == PiecesText(p) && t.nfc(w) == PiecesText(q) && SamePieces(t, p, q)
  }

  lemma SaidAlike(t: Tables, p: Pieces, q: Pieces, schemes: seq<string>, allowIp: bool, u: Url, r: Url)
    requires Says(t, p, schemes, allowIp, u) && Says(t, q, schemes, allowIp, r)
    ensures u == r <==> SamePieces(t, p, q)
  {
    HostExact(t, p.host, allowIp, u.host);
    HostExact(t, q.host, allowIp, r.host);
    SameHost(t, p.host, q.host, allowIp);
    SameNormalForm(PortOf(p.query), PortOf(q.query), QueryChars);
    hide CanonicalHost, HostSays, Normalise, RemoveDots, Lower, Signs, Encoded, Number, Opens;
  }

  lemma SameUrls(t: Tables, v: string, w: string, schemes: seq<string>, allowIp: bool)
    requires KnownSchemes(schemes) && CanonicalUrl(t, v, schemes, allowIp).Ok? && CanonicalUrl(t, w, schemes, allowIp).Ok?
    ensures CanonicalUrl(t, v, schemes, allowIp) == CanonicalUrl(t, w, schemes, allowIp) <==> SameUrl(t, v, w)
  {
    hide CanonicalUrl, Says, Separate, PiecesText, SamePieces, UrlChars;
    var u, r := CanonicalUrl(t, v, schemes, allowIp).value, CanonicalUrl(t, w, schemes, allowIp).value;
    var p := UrlPieces(t, v, schemes, allowIp);
    var q := UrlPieces(t, w, schemes, allowIp);
    SaidAlike(t, p, q, schemes, allowIp, u, r);
    forall x, y | Separate(x) && Separate(y) && t.nfc(v) == PiecesText(x) && t.nfc(w) == PiecesText(y)
      ensures SamePieces(t, x, y) ==> u == r
    {
      UrlReads(t, v, x, schemes, allowIp, u);
      UrlReads(t, w, y, schemes, allowIp, r);
      SaidAlike(t, x, y, schemes, allowIp, u, r);
    }
  }

  predicate SamePath(t: Tables, v: string, w: string) {
    StackWalk([], Split(t.nfc(v), '/')) == StackWalk([], Split(t.nfc(w), '/'))
  }

  lemma SamePaths(t: Tables, v: string, w: string, under: Option<string>)
    requires CanonicalPath(t, v, under).Ok? && CanonicalPath(t, w, under).Ok?
    ensures CanonicalPath(t, v, under) == CanonicalPath(t, w, under) <==> SamePath(t, v, w)
  {
    PathIsStackWalk(t, v, under);
    PathIsStackWalk(t, w, under);
    hide CanonicalPath, StackWalk, Split, Join, Names;
  }

  /** One name, and every parameter the same. */
  predicate SameTemplate(t: Tables, templates: map<string, map<string, Scalar>>, v: Json, w: Json) {
    && v.JObj? && w.JObj? && "name" in v.members && "name" in w.members && v.members["name"] == w.members["name"]
    && v.members["name"].JStr? && v.members["name"].s in templates
    && "params" in v.members && "params" in w.members && v.members["params"].JObj? && w.members["params"].JObj?
    && forall n :: n in templates[v.members["name"].s] ==>
         var x, y := v.members["params"].members, w.members["params"].members;
         n in x && n in y && SameScalar(t, templates[v.members["name"].s][n], x[n], y[n])
  }

  lemma SameTemplates(t: Tables, templates: map<string, map<string, Scalar>>, v: Json, w: Json)
    requires CanonicalTemplate(t, templates, v).Ok? && CanonicalTemplate(t, templates, w).Ok?
    ensures CanonicalTemplate(t, templates, v) == CanonicalTemplate(t, templates, w) <==> SameTemplate(t, templates, v, w)
  {
    var a, b := CanonicalTemplate(t, templates, v).value, CanonicalTemplate(t, templates, w).value;
    TemplateExact(t, templates, v, a);
    TemplateExact(t, templates, w, b);
    hide CanonicalTemplate, ScalarSays, SameScalar, IsName;
    if a.name == b.name {
      var specs, x, y := templates[a.name], v.members["params"].members, w.members["params"].members;
      forall n | n in specs ensures a.params[n] == b.params[n] <==> SameScalar(t, specs[n], x[n], y[n]) {
        ScalarExact(t, specs[n], x[n], a.params[n]);
        ScalarExact(t, specs[n], y[n], b.params[n]);
        SameScalars(t, specs[n], x[n], y[n]);
      }
      assert a.params == b.params <==> forall n :: n in specs ==> a.params[n] == b.params[n];
    }
  }

  /** When two accepted arguments of a kind are the same one. */
  ghost predicate SameArgument(t: Tables, kind: Kind, v: Json, w: Json) {
    match kind
    case ScalarKind(spec) => SameScalar(t, spec, v, w)
    case EmailKind => v.JStr? && w.JStr? && SameMail(t, v.s, w.s)
    case MoneyKind(_, _, _) => SameMoney(v, w)
    case UrlKind(_, _) => v.JStr? && w.JStr? && SameUrl(t, v.s, w.s)
    case PathKind(_) => v.JStr? && w.JStr? && SamePath(t, v.s, w.s)
    case TemplateKind(templates) => SameTemplate(t, templates, v, w)
  }

  /** Two accepted arguments have one canonical value exactly when they are the same. */
  lemma SameValue(t: Tables, kind: Kind, v: Json, w: Json)
    requires WellFormedKind(kind) && CanonicalValue(t, kind, v).Ok? && CanonicalValue(t, kind, w).Ok?
    ensures CanonicalValue(t, kind, v) == CanonicalValue(t, kind, w) <==> SameArgument(t, kind, v, w)
  {
    hide CanonicalScalar, CanonicalEmail, CanonicalMoney, CanonicalUrl, CanonicalPath, CanonicalTemplate,
         SameScalar, SameMail, SameMoney, SameUrl, SamePath, SameTemplate;
    match kind {
      case ScalarKind(spec) => SameScalars(t, spec, v, w);
      case EmailKind => SameMails(t, v.s, w.s);
      case MoneyKind(currencies, lo, hi) => SameMoneys(v, w, currencies, lo, hi);
      case UrlKind(schemes, allowIp) => SameUrls(t, v.s, w.s, schemes, allowIp);
      case PathKind(under) => SamePaths(t, v.s, w.s, under);
      case TemplateKind(templates) => SameTemplates(t, templates, v, w);
    }
  }
}
