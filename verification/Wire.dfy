/** What runs is what was checked: the tool's arguments canonicalise back to the checked ones. */
module Wire {
  import opened Wrappers
  import opened Texts
  import opened Json
  import opened Money
  import opened Unicode
  import opened Url
  import opened Path
  import opened Syntax
  import opened Manifest
  import opened Canonical

  lemma TextFixed(t: Tables, value: string, maxLen: nat)
    requires Lawful(t) && CanonicalText(t, value, maxLen).Ok?
    ensures var text := CanonicalText(t, value, maxLen).value; CanonicalText(t, text, maxLen) == Ok(text)
  {
    assert LawsAt(t, value);
    hide FirstBadTextChar;
  }

  lemma ScalarFixed(t: Tables, spec: Scalar, value: Json)
    requires Lawful(t) && CanonicalScalar(t, spec, value).Ok?
    ensures var v := CanonicalScalar(t, spec, value).value; CanonicalScalar(t, spec, ScalarJson(v)) == Ok(v)
  {
    hide CanonicalText, IsId;
    if spec.TextSpec? { TextFixed(t, value.s, spec.maxLen); }
  }

  // ---- addresses ----

  predicate AddressSafe(c: char) { c != '@' && c != '<' && c != '>' && c != ',' }

  lemma AddressParts(local: string, domain: string)
    requires (forall i :: 0 <= i < |local| ==> AddressSafe(local[i])) && forall i :: 0 <= i < |domain| ==> AddressSafe(domain[i])
    ensures var address := local + "@" + domain;
      Split(address, '@') == [local, domain] && '<' !in address && '>' !in address && ',' !in address
  {
    var parts := [local, domain];
    assert parts[1..] == [domain];
    assert Join(parts, '@') == local + ['@'] + domain;
    assert Free(local, '@') && Free(domain, '@');
    SplitJoin(parts, '@');
  }

  lemma DomainSafe(labels: seq<string>)
    requires forall i :: 0 <= i < |labels| ==> IsLabel(labels[i])
    ensures var h := Join(labels, '.'); forall i :: 0 <= i < |h| ==> AddressSafe(h[i])
  {
    LabelsMakeHost(labels);
    hide Join;
  }

  lemma EmailFixed(t: Tables, value: string)
    requires Lawful(t) && CanonicalEmail(t, value).Ok?
    ensures var v := CanonicalEmail(t, value).value; v.EmailValue? && CanonicalEmail(t, v.address) == Ok(v)
  {
    EmailShape(t, value);
    var v := CanonicalEmail(t, value).value;
    var parts := Split(value, '@');
    hide Split;
    HostFixed(t, parts[1], false);
    JoinSplit(v.domain, '.');
    DomainSafe(Split(v.domain, '.'));
    hide CanonicalHost, IsLabel, CleanHost;
    AddressParts(parts[0], v.domain);
  }

  // ---- templates ----

  lemma {:induction false} ParamsFixed(t: Tables, specs: map<string, Scalar>, params: map<string, Json>, names: seq<string>,
                                       wire: map<string, Json>)
    requires Lawful(t) && forall n :: n in names ==> n in specs && n in params
    requires CanonicalParams(t, specs, params, names).Ok?
    requires var values := CanonicalParams(t, specs, params, names).value;
      forall n :: n in names ==> n in wire && wire[n] == ScalarJson(values[n])
    requires forall i, j :: 0 <= i < j < |names| ==> names[i] != names[j]
    ensures CanonicalParams(t, specs, wire, names) == CanonicalParams(t, specs, params, names)
  {
    hide CanonicalScalar, ScalarJson;
    if names != [] {
      var n, rest := names[0], names[1..];
      var values := CanonicalParams(t, specs, params, rest).value;
      assert n !in rest;
      ScalarFixed(t, specs[n], params[n]);
      ParamsFixed(t, specs, params, rest, wire);
    }
  }

  lemma TemplateFixed(t: Tables, templates: map<string, map<string, Scalar>>, value: Json)
    requires Lawful(t) && CanonicalTemplate(t, templates, value).Ok?
    ensures var v := CanonicalTemplate(t, templates, value).value; CanonicalTemplate(t, templates, ValueJson(v)) == Ok(v)
  {
    hide SortedKeys, CanonicalParams, ScalarJson;
    TemplateShape(t, templates, value);
    var v := CanonicalTemplate(t, templates, value).value;
    var specs, params := templates[v.name], value.members["params"].members;
    var names := SortedKeys(specs.Keys);
    DistinctKeys(specs.Keys);
    assert CanonicalParams(t, specs, params, names) == Ok(v.params);
    assert v.params.Keys == set n | n in names;
    var wire := map p | p in v.params :: ScalarJson(v.params[p]);
    ParamsFixed(t, specs, params, names, wire);
    var json := ValueJson(v);
    assert json.members.Keys == {"name", "params"} && json.members["name"] == JStr(v.name)
           && json.members["params"] == JObj(wire);
    assert wire.Keys == specs.Keys;
  }

  // ---- every kind ----

  /** The one way a canonical value's own spelling is refused: escaping made it longer than the input limit. */
  predicate TooLong(kind: Kind, v: Value)
    requires Renderable(v)
  {
    (v.UrlValue? && |Rebuild(v.url)| > MAX_URL_LENGTH) ||
    (kind.PathKind? && v.Plain? && v.scalar.TextValue? && |v.scalar.s| > MAX_PATH_LENGTH)
  }

  /** The laws of address text, for a kind that admits addresses. */
  ghost predicate AddressesLawful(t: Tables, kind: Kind) {
    kind.UrlKind? && kind.allowIp ==> AddressLawful(t)
  }

  /** The tool's rendering of a canonical value canonicalises to that value, unless it has outgrown the input limit. */
  lemma WireFixed(t: Tables, kind: Kind, value: Json)
    requires Lawful(t) && AddressesLawful(t, kind) && WellFormedKind(kind) && CanonicalValue(t, kind, value).Ok?
    ensures var v := CanonicalValue(t, kind, value).value;
      && Renderable(v)
      && CanonicalValue(t, kind, WireValue(v)) == if TooLong(kind, v) then Err("too_long") else Ok(v)
  {
    hide CanonicalScalar, CanonicalEmail, CanonicalMoney, CanonicalUrl, CanonicalPath, CanonicalTemplate, Lawful,
         AddressLawful, Rebuild;
    CanonicalIsRenderable(t, kind, value);
    match kind {
      case ScalarKind(spec) => ScalarFixed(t, spec, value);
      case EmailKind =>
        EmailShape(t, value.s);
        EmailFixed(t, value.s);
      case MoneyKind(currencies, lo, hi) =>
        AcceptedRange(value, currencies, lo, hi);
        var amount := CanonicalMoney(value, currencies, lo, hi).value;
        MoneyRoundTrip(amount.minor, amount.currency, currencies, lo, hi);
      case UrlKind(schemes, allowIp) => UrlFixedPoint(t, value.s, schemes, allowIp);
      case PathKind(under) => PathFixedPoint(t, value.s, under);
      case TemplateKind(templates) =>
        TemplateShape(t, templates, value);
        TemplateFixed(t, templates, value);
    }
  }
}
