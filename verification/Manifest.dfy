/** Tool manifests: what a tool's arguments, resource, labels and budget are. */
module Manifest {
  import opened Wrappers
  import opened Json
  import opened Money
  import opened Url
  import opened Syntax

  /** The name of a policy-engine entity. */
  datatype Uid = Uid(kind: string, id: string)

  datatype Scalar =
    | BoolSpec
    | IdSpec
    | IntSpec(min: int, max: int)
    | EnumSpec(values: seq<string>)
    | TextSpec(maxLen: nat)

  datatype Kind =
    | ScalarKind(scalar: Scalar)
    | EmailKind
    | MoneyKind(currencies: seq<string>, minMinor: int, maxMinor: int)
    | UrlKind(schemes: seq<string>, allowIp: bool)
    | PathKind(under: Option<string>)
    | TemplateKind(templates: map<string, map<string, Scalar>>)

  datatype ArgSpec = ArgSpec(kind: Kind, optional: bool)

  /** A budget reads an integer argument, the minor amount of a money argument or the port of a URL argument. */
  datatype Budget = Budget(counter: string, from: string)

  /** Where the resource id comes from: a fixed id, or an argument, with the record field that names it. */
  datatype ResourceRule = FixedResource(id: string) | ResourceFrom(arg: string, field: Option<string>)

  datatype ToolSpec = ToolSpec(
    groups: set<string>,
    resourceType: string,
    resource: ResourceRule,
    parentType: Option<string>,
    args: map<string, ArgSpec>,
    resultLabels: set<string>,
    budget: Option<Budget>)

  datatype AttrKind = BoolAttr | IntAttr | StringAttr

  datatype Manifest = Manifest(
    principalType: string,
    labels: set<string>,
    counters: map<string, nat>,
    snapshotTypes: map<string, map<string, AttrKind>>,
    tools: map<string, ToolSpec>)

  predicate WellFormedScalar(s: Scalar) {
    s.IntSpec? ==> -MAX_SAFE_INT <= s.min <= s.max <= MAX_SAFE_INT
  }

  predicate WellFormedKind(k: Kind) {
    match k
    case ScalarKind(s) => WellFormedScalar(s)
    case MoneyKind(currencies, lo, hi) => 0 <= lo <= hi <= MAX_SAFE_INT && forall c :: c in currencies ==> c in Exponents()
    case UrlKind(schemes, _) => KnownSchemes(schemes)
    case TemplateKind(templates) =>
      forall n :: n in templates ==> forall p :: p in templates[n] ==> WellFormedScalar(templates[n][p])
    case _ => true
  }

  predicate BudgetKind(k: Kind) {
    k.MoneyKind? || k.UrlKind? || (k.ScalarKind? && k.scalar.IntSpec? && k.scalar.min >= 0)
  }

  predicate ResourceKind(k: Kind, field: Option<string>) {
    match k
    case EmailKind => field == Some("address") || field == Some("domain")
    case TemplateKind(_) => field == Some("name")
    case UrlKind(_, _) =>
      field == Some("host") || field == Some("path") || field == Some("port") || field == Some("query") || field == Some("scheme")
    case PathKind(_) => field == None
    case ScalarKind(s) => s.IdSpec? && field == None
    case MoneyKind(_, _, _) => false
  }

  /** What the manifest parser guarantees and decisions rely on. */
  predicate WellFormedTool(m: Manifest, t: ToolSpec) {
    && (forall a :: a in t.args ==> WellFormedKind(t.args[a].kind))
    && (t.resource.ResourceFrom? ==>
          && t.resource.arg in t.args && !t.args[t.resource.arg].optional
          && ResourceKind(t.args[t.resource.arg].kind, t.resource.field))
    && (t.budget.Some? ==>
          && t.budget.value.counter in m.counters && t.budget.value.from in t.args
          && BudgetKind(t.args[t.budget.value.from].kind))
    && t.resultLabels <= m.labels
  }

  predicate WellFormed(m: Manifest) {
    && (forall t :: t in m.tools ==> WellFormedTool(m, m.tools[t]))
    && (forall c :: c in m.counters ==> IsName(c) && m.counters[c] <= MAX_SAFE_INT)
    && (forall l :: l in m.labels ==> IsName(l))
  }
}
