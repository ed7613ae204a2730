/** The bundle comparison: which probes a candidate bundle would let further than the base bundle does. */
module Diff {
  import opened Wrappers
  import opened Manifest
  import opened Canonical
  import opened Cedar
  import opened Decide
  import opened Guardrails

  /** One point of the request space, and whether an approval of its own action is bound to it. */
  datatype Probe = Probe(env: Envelope, snapshot: Snapshot, approved: bool)

  datatype Divergence = Divergence(tool: string, arguments: string, snapshot: Snapshot, before: Ruling, after: Ruling)

  datatype DiffReport = DiffReport(
    probes: nat,
    widened: seq<Divergence>,
    tightened: seq<Divergence>,
    reasonsOnly: nat,
    toolsAdded: set<string>,
    toolsRemoved: set<string>)
  {
    /** What fails a change: a widened probe or a new tool. */
    predicate Widens() { widened != [] || toolsAdded != {} }
  }

  predicate ValidPair(base: Bundle, candidate: Bundle) {
    WellFormed(base.manifest) && WellFormed(candidate.manifest)
  }

  /** The snapshot a probe is decided on; none when the tool is not shared or there is nothing to approve. */
  function Situation(base: Bundle, candidate: Bundle, p: Probe): Option<Snapshot>
    requires ValidPair(base, candidate)
  {
    if p.env.tool !in base.manifest.tools || p.env.tool !in candidate.manifest.tools then None
    else if !p.approved then Some(p.snapshot)
    else match Canonicalize(candidate.tables, candidate.manifest, p.env)
      case Err(_) => None
      case Ok(action) => Some(p.snapshot.(approvals := {ActionHash(candidate, action)}))
  }

  function Diverge(base: Bundle, candidate: Bundle, p: Probe): Option<Divergence>
    requires ValidPair(base, candidate)
  {
    match Situation(base, candidate, p)
    case None => None
    case Some(s) =>
      Some(Divergence(p.env.tool, p.env.arguments, s, Judge(p.env, s, base), Judge(p.env, s, candidate)))
  }

  lemma HashOfAction(env: Envelope, s: Snapshot, b: Bundle)
    requires WellFormed(b.manifest) && Judge(env, s, b).actionHash.Some?
    ensures var action := Canonicalize(b.tables, b.manifest, env);
      action.Ok? && Judge(env, s, b).actionHash == Some(ActionHash(b, action.value))
  {
    hide CheckSnapshot, Canonicalize, ActionHash, BuildContext, Evaluate, Combine, WellFormed;
  }

  /**
   * A probe is decided when its tool is shared and, if it is an approved one, when the candidate can canonicalise it. Both
   * bundles then decide on one snapshot, which differs from the probe's in its approvals alone: as probed if nothing is to
   * be approved, and otherwise exactly the hash the candidate computes, so the candidate never asks for that approval.
   */
  lemma ProbeExact(base: Bundle, candidate: Bundle, p: Probe)
    requires ValidPair(base, candidate)
    ensures Diverge(base, candidate, p).Some? <==>
      && p.env.tool in base.manifest.tools && p.env.tool in candidate.manifest.tools
      && (p.approved ==> Canonicalize(candidate.tables, candidate.manifest, p.env).Ok?)
    ensures Diverge(base, candidate, p).Some? ==>
      var d := Diverge(base, candidate, p).value;
      && d.before == Judge(p.env, d.snapshot, base) && d.after == Judge(p.env, d.snapshot, candidate)
      && d.tool == p.env.tool && d.arguments == p.env.arguments
      && d.snapshot == p.snapshot.(approvals := d.snapshot.approvals)
      && (!p.approved ==> d.snapshot == p.snapshot)
      && (p.approved && d.after.actionHash.Some? ==> d.snapshot.approvals == {d.after.actionHash.value})
      && (p.approved ==> |d.snapshot.approvals| == 1 && d.after.verdict != REQUIRE_APPROVAL)
  {
    hide WellFormed, Judge, Canonicalize, ActionHash, Permitted, Unmatched, Reaches, TheAction;
    if Diverge(base, candidate, p).Some? {
      var s := Situation(base, candidate, p).value;
      if Judge(p.env, s, candidate).actionHash.Some? { HashOfAction(p.env, s, candidate); }
      VerdictExact(p.env, s, candidate);
      if p.approved && Judge(p.env, s, candidate).verdict == REQUIRE_APPROVAL { SameTheAction(p.env, s, candidate); }
    }
  }

  lemma SameTheAction(env: Envelope, s: Snapshot, b: Bundle)
    requires WellFormed(b.manifest) && Reaches(env, s, b)
    ensures Canonicalize(b.tables, b.manifest, env) == Ok(TheAction(env, s, b))
  {
    hide WellFormed, Canonicalize, CheckSnapshot;
  }

  predicate Wider(d: Divergence) { Rank(d.after.verdict) > Rank(d.before.verdict) }

  predicate Narrower(d: Divergence) { Rank(d.after.verdict) < Rank(d.before.verdict) }

  predicate ReasonsDiffer(d: Divergence) { d.after.verdict == d.before.verdict && d.after.reasons != d.before.reasons }

  predicate Everything(d: Divergence) { true }

  /** The decided probes that satisfy a predicate, in probe order. */
  function Those(base: Bundle, candidate: Bundle, probes: seq<Probe>, keep: Divergence -> bool): seq<Divergence>
    requires ValidPair(base, candidate)
  {
    if probes == [] then []
    else
      var rest := Those(base, candidate, probes[..|probes| - 1], keep);
      match Diverge(base, candidate, probes[|probes| - 1])
      case Some(d) => if keep(d) then rest + [d] else rest
      case None => rest
  }

  function Cap(examples: seq<Divergence>, most: nat): seq<Divergence> {
    if |examples| <= most then examples else examples[..most]
  }

  lemma Step(base: Bundle, candidate: Bundle, probes: seq<Probe>, i: nat, keep: Divergence -> bool)
    requires ValidPair(base, candidate) && i < |probes|
    ensures Those(base, candidate, probes[..i + 1], keep) == Those(base, candidate, probes[..i], keep) +
      (match Diverge(base, candidate, probes[i])
       case Some(d) => if keep(d) then [d] else []
       case None => [])
  {
    hide Diverge, ValidPair;
    assert probes[..i + 1][..i] == probes[..i];
  }

  /**
   * The comparison loop: every widening is kept, tightenings only up to a number of examples, and the verdict decides
   * the class before the reasons do.
   */
  method Compare(base: Bundle, candidate: Bundle, probes: seq<Probe>, maxExamples: nat) returns (r: DiffReport)
    requires ValidPair(base, candidate)
    ensures r.probes == |Those(base, candidate, probes, Everything)|
    ensures r.widened == Those(base, candidate, probes, Wider)
    ensures r.tightened == Cap(Those(base, candidate, probes, Narrower), maxExamples)
    ensures r.reasonsOnly == |Those(base, candidate, probes, ReasonsDiffer)|
    ensures r.toolsAdded == candidate.manifest.tools.Keys - base.manifest.tools.Keys
    ensures r.toolsRemoved == base.manifest.tools.Keys - candidate.manifest.tools.Keys
  {
    hide ValidPair, Situation, Judge, Those;
    var decided, reasonsOnly := 0, 0;
    var widened: seq<Divergence>, tightened: seq<Divergence> := [], [];
    ThoseNone(base, candidate);
    for i := 0 to |probes|
      invariant decided == |Those(base, candidate, probes[..i], Everything)|
      invariant widened == Those(base, candidate, probes[..i], Wider)
      invariant tightened == Cap(Those(base, candidate, probes[..i], Narrower), maxExamples)
      invariant reasonsOnly == |Those(base, candidate, probes[..i], ReasonsDiffer)|
    {
      var p := probes[i];
      Step(base, candidate, probes, i, Everything);
      Step(base, candidate, probes, i, Wider);
      Step(base, candidate, probes, i, Narrower);
      Step(base, candidate, probes, i, ReasonsDiffer);
      match Diverge(base, candidate, p) {
        case None =>
        case Some(d) =>
          decided := decided + 1;
          if d.before.verdict == d.after.verdict {
            if d.before.reasons != d.after.reasons { reasonsOnly := reasonsOnly + 1; }
          } else if Rank(d.after.verdict) > Rank(d.before.verdict) {
            widened := widened + [d];
          } else if |tightened| < maxExamples {
            tightened := tightened + [d];
          }
      }
    }
    assert probes[..|probes|] == probes;
    r := DiffReport(decided, widened, tightened, reasonsOnly,
                    candidate.manifest.tools.Keys - base.manifest.tools.Keys, base.manifest.tools.Keys - candidate.manifest.tools.Keys);
  }

  lemma ThoseNone(base: Bundle, candidate: Bundle)
    requires ValidPair(base, candidate)
    ensures forall keep :: Those(base, candidate, [], keep) == []
  {
  }

  /** A change that only adds forbids reports no widened probe, whatever the probes are. */
  lemma {:induction false} ForbidsWidenNothing(base: Bundle, extra: Policies, probes: seq<Probe>)
    requires WellFormed(base.manifest) && Extends(extra, base, Forbid)
    ensures Those(base, WithPolicies(base, extra), probes, Wider) == []
  {
    hide Judge, WellFormed;
    if probes != [] {
      var candidate := WithPolicies(base, extra);
      var p := probes[|probes| - 1];
      ForbidsWidenNothing(base, extra, probes[..|probes| - 1]);
      match Situation(base, candidate, p) {
        case None =>
        case Some(s) => ForbidsNeverRaise(p.env, s, base, extra);
      }
    }
  }

  /** So the report of such a change never widens. */
  method CompareForbids(base: Bundle, extra: Policies, probes: seq<Probe>, maxExamples: nat) returns (r: DiffReport)
    requires WellFormed(base.manifest) && Extends(extra, base, Forbid)
    ensures !r.Widens()
  {
    hide WellFormed, Those, Extends;
    ForbidsWidenNothing(base, extra, probes);
    r := Compare(base, WithPolicies(base, extra), probes, maxExamples);
  }
}
