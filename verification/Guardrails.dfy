/** How a decision moves when a policy or an approval is added, and the bundle comparison that relies on it. */
module Guardrails {
  import opened Wrappers
  import opened Json
  import opened Syntax
  import opened Manifest
  import opened Canonical
  import opened Cedar
  import opened Decide

  function Rank(v: Verdict): nat {
    match v
    case DENY => 0
    case REQUIRE_APPROVAL => 1
    case ALLOW => 2
  }

  predicate Extends(extra: Policies, b: Bundle, effect: Effect) {
    extra.Keys !! b.policies.Keys && forall id :: id in extra ==> extra[id].effect == effect
  }

  function WithPolicies(b: Bundle, extra: Policies): Bundle {
    b.(policies := b.policies + extra)
  }

  /** The requests the two evaluations see. */
  function FirstRequest(env: Envelope, s: Snapshot, b: Bundle, a: Action): Request
    requires a.tool in b.manifest.tools
  {
    MakeRequest(b, a, s, BuildContext(env, s, a, ActionHash(b, a)))
  }

  function SecondRequest(env: Envelope, s: Snapshot, b: Bundle, a: Action): Request
    requires a.tool in b.manifest.tools
  {
    var hash := ActionHash(b, a);
    MakeRequest(b, a, s, BuildContext(env, s, a, hash)["approval" := ApprovalTerm(hash)])
  }

  /** The input reaches the policies: the snapshot is valid and the arguments canonicalise. */
  predicate Reaches(env: Envelope, s: Snapshot, b: Bundle)
    requires WellFormed(b.manifest)
  {
    env.sessionId == s.sessionId && CheckSnapshot(b.manifest, s) == None && Canonicalize(b.tables, b.manifest, env).Ok?
  }

  function TheAction(env: Envelope, s: Snapshot, b: Bundle): (a: Action)
    requires WellFormed(b.manifest) && Reaches(env, s, b)
    ensures a.tool in b.manifest.tools
  {
    Canonicalize(b.tables, b.manifest, env).value
  }

  lemma ForbidsOnlyRestrict(ps: Policies, extra: Policies, r: Request)
    requires extra.Keys !! ps.Keys && forall id :: id in extra ==> extra[id].effect == Forbid
    ensures SatisfiedIds(ps + extra, r, Permit) == SatisfiedIds(ps, r, Permit)
    ensures SatisfiedIds(ps, r, Forbid) <= SatisfiedIds(ps + extra, r, Forbid)
    ensures ErroredIds(ps, r) <= ErroredIds(ps + extra, r)
  {
  }

  lemma CombineMonotone(e1: Evaluation, f1: Evaluation, approved: bool, e2: Evaluation, f2: Evaluation, hash: string)
    requires e1.errors <= f1.errors && e2.errors <= f2.errors
    requires f1.allowed ==> e1.allowed
    requires f2.allowed ==> e2.allowed
    requires f1.errors == {} && f1.reasons == {} ==> e1.reasons == {} && !e1.allowed
    ensures Rank(Combine(f1, approved, f2, hash).verdict) <= Rank(Combine(e1, approved, e2, hash).verdict)
  {
  }

  lemma EvaluateForbids(ps: Policies, extra: Policies, r: Request)
    requires extra.Keys !! ps.Keys && forall id :: id in extra ==> extra[id].effect == Forbid
    ensures var e, f := Evaluate(ps, r), Evaluate(ps + extra, r);
      && e.errors <= f.errors && (f.allowed ==> e.allowed)
      && (f.errors == {} && f.reasons == {} ==> e.reasons == {} && !e.allowed)
  {
    ForbidsOnlyRestrict(ps, extra, r);
    hide SatisfiedIds, ErroredIds;
  }

  /** Guardrails are monotone: no forbid, in any number, ever raises a verdict. */
  lemma ForbidsNeverRaise(env: Envelope, s: Snapshot, b: Bundle, extra: Policies)
    requires WellFormed(b.manifest) && Extends(extra, b, Forbid)
    ensures Rank(Judge(env, s, WithPolicies(b, extra)).verdict) <= Rank(Judge(env, s, b).verdict)
  {
    hide CheckSnapshot, Canonicalize, BuildContext, Evaluate, ActionHash;
    var c := WithPolicies(b, extra);
    if Reaches(env, s, b) {
      var a := TheAction(env, s, b);
      SameRequests(env, s, b, c, a);
      EvaluateForbids(b.policies, extra, FirstRequest(env, s, b, a));
      EvaluateForbids(b.policies, extra, SecondRequest(env, s, b, a));
      var approved := "approval" in BuildContext(env, s, a, ActionHash(b, a));
      CombineMonotone(Evaluate(b.policies, FirstRequest(env, s, b, a)), Evaluate(c.policies, FirstRequest(env, s, b, a)), approved,
                      Evaluate(b.policies, SecondRequest(env, s, b, a)), Evaluate(c.policies, SecondRequest(env, s, b, a)), ActionHash(b, a));
    }
  }

  lemma SameRequests(env: Envelope, s: Snapshot, b: Bundle, c: Bundle, a: Action)
    requires a.tool in b.manifest.tools && c == b.(policies := c.policies)
    ensures ActionHash(c, a) == ActionHash(b, a)
    ensures FirstRequest(env, s, c, a) == FirstRequest(env, s, b, a)
    ensures SecondRequest(env, s, c, a) == SecondRequest(env, s, b, a)
  {
  }

  lemma RuleIsCombine(env: Envelope, s: Snapshot, b: Bundle, a: Action)
    requires a.tool in b.manifest.tools
    ensures Rule(env, s, b, a) ==
            Combine(Evaluate(b.policies, FirstRequest(env, s, b, a)), ActionHash(b, a) in s.approvals,
                    Evaluate(b.policies, SecondRequest(env, s, b, a)), ActionHash(b, a))
  {
    hide ActionHash, Evaluate, MakeRequest;
    var context := BuildContext(env, s, a, ActionHash(b, a));
    assert "approval" in context <==> ActionHash(b, a) in s.approvals;
  }

  // ---- permits ----

  lemma OnePermit(ps: Policies, id: string, p: Policy, r: Request)
    requires id !in ps && p.effect == Permit
    ensures var e, f := Evaluate(ps, r), Evaluate(ps[id := p], r);
      && (f.errors == {} <==> e.errors == {} && !Errored(p, r))
      && (e.errors == {} && f.errors == {} ==>
            (f.allowed <==> e.allowed || (e.reasons == {} && Satisfied(p, r))) &&
            (f.reasons == {} <==> e.reasons == {} && !Satisfied(p, r)))
  {
    hide Satisfied, Errored;
    var qs := ps[id := p];
    assert SatisfiedIds(qs, r, Forbid) == SatisfiedIds(ps, r, Forbid);
    assert SatisfiedIds(qs, r, Permit) == SatisfiedIds(ps, r, Permit) + if Satisfied(p, r) then {id} else {};
    assert ErroredIds(qs, r) == ErroredIds(ps, r) + if Errored(p, r) then {id} else {};
    hide SatisfiedIds, ErroredIds;
  }

  lemma CombineWithPermit(e1: Evaluation, f1: Evaluation, approved: bool, e2: Evaluation, f2: Evaluation, hash: string,
                          errs1: bool, sat1: bool, errs2: bool, sat2: bool)
    requires e1.allowed ==> e1.errors == {}
    requires e2.allowed ==> e2.errors == {}
    requires f1.errors == {} <==> e1.errors == {} && !errs1
    requires f2.errors == {} <==> e2.errors == {} && !errs2
    requires e1.errors == {} && f1.errors == {} ==>
               (f1.allowed <==> e1.allowed || (e1.reasons == {} && sat1)) && (f1.reasons == {} <==> e1.reasons == {} && !sat1)
    requires e2.errors == {} && f2.errors == {} ==>
               (f2.allowed <==> e2.allowed || (e2.reasons == {} && sat2)) && (f2.reasons == {} <==> e2.reasons == {} && !sat2)
    ensures var base := Combine(e1, approved, e2, hash).verdict;
      Rank(Combine(f1, approved, f2, hash).verdict) >= Rank(base) <==>
        base == DENY || (!errs1 && (base == ALLOW || sat1 || !errs2))
  {
    hide EvalErrors;
  }

  /**
   * A new permit keeps or raises the verdict exactly when nothing was granted before, or it evaluates cleanly where it
   * is consulted: an erroring permit takes an ALLOW away, although the engine itself would only skip it.
   */
  lemma PermitNeverLowersIff(env: Envelope, s: Snapshot, b: Bundle, id: string, p: Policy)
    requires WellFormed(b.manifest) && id !in b.policies && p.effect == Permit
    ensures var base := Judge(env, s, b).verdict;
      Rank(Judge(env, s, WithPolicies(b, map[id := p])).verdict) >= Rank(base) <==>
        || base == DENY
        || (&& Reaches(env, s, b)
            && var a := TheAction(env, s, b);
               var r1, r2 := FirstRequest(env, s, b, a), SecondRequest(env, s, b, a);
               !Errored(p, r1) && (base == ALLOW || Satisfied(p, r1) || !Errored(p, r2)))
  {
    hide CheckSnapshot, Canonicalize, BuildContext, Evaluate, ActionHash, Satisfied, Errored, Combine, MakeRequest;
    var c := WithPolicies(b, map[id := p]);
    assert c.policies == b.policies[id := p];
    if Reaches(env, s, b) {
      var a := TheAction(env, s, b);
      var r1, r2 := FirstRequest(env, s, b, a), SecondRequest(env, s, b, a);
      SameRequests(env, s, b, c, a);
      RuleIsCombine(env, s, b, a);
      RuleIsCombine(env, s, c, a);
      OnePermit(b.policies, id, p, r1);
      OnePermit(b.policies, id, p, r2);
      AllowedIsClean(b.policies, r1);
      AllowedIsClean(b.policies, r2);
      CombineWithPermit(Evaluate(b.policies, r1), Evaluate(c.policies, r1), ActionHash(b, a) in s.approvals,
                        Evaluate(b.policies, r2), Evaluate(c.policies, r2), ActionHash(b, a),
                        Errored(p, r1), Satisfied(p, r1), Errored(p, r2), Satisfied(p, r2));
    }
  }

  lemma AllowedIsClean(ps: Policies, r: Request)
    ensures Evaluate(ps, r).allowed ==> Evaluate(ps, r).errors == {}
  {
    hide Authorize;
  }

  // ---- approvals ----

  function Approve(s: Snapshot, hash: string): Snapshot {
    s.(approvals := s.approvals + {hash})
  }

  lemma ApprovedRequest(env: Envelope, s: Snapshot, b: Bundle, a: Action)
    requires a.tool in b.manifest.tools
    ensures FirstRequest(env, Approve(s, ActionHash(b, a)), b, a) == SecondRequest(env, s, b, a)
    ensures SecondRequest(env, Approve(s, ActionHash(b, a)), b, a) == SecondRequest(env, s, b, a)
  {
    hide ActionHash;
    var hash := ActionHash(b, a);
    var context := BuildContext(env, s, a, hash);
    assert BuildContext(env, Approve(s, hash), a, hash) == context["approval" := ApprovalTerm(hash)];
    assert Entities(b, a, Approve(s, hash)) == Entities(b, a, s);
  }

  lemma OtherHashSameRequests(env: Envelope, s: Snapshot, b: Bundle, a: Action, other: string)
    requires a.tool in b.manifest.tools && other != ActionHash(b, a)
    ensures FirstRequest(env, Approve(s, other), b, a) == FirstRequest(env, s, b, a)
    ensures SecondRequest(env, Approve(s, other), b, a) == SecondRequest(env, s, b, a)
  {
    hide ActionHash;
    var hash := ActionHash(b, a);
    assert BuildContext(env, Approve(s, other), a, hash) == BuildContext(env, s, a, hash);
    assert Entities(b, a, Approve(s, other)) == Entities(b, a, s);
  }

  lemma SameChecks(s: Snapshot, m: Manifest, hash: string)
    ensures CheckSnapshot(m, Approve(s, hash)) == CheckSnapshot(m, s)
  {
  }

  /** The reasons of an evaluation are policy ids, so they never spell a code of the gate's own. */
  lemma ReasonsArePolicies(b: Bundle, r: Request)
    requires ValidBundle(b)
    ensures NO_MATCHING_PERMIT !in Evaluate(b.policies, r).reasons
    ensures NO_MATCHING_PERMIT !in EvalErrors(Evaluate(b.policies, r).errors)
  {
    hide Satisfied, Errored;
    assert NO_MATCHING_PERMIT[0] == 'N' && !IsPolicyId(NO_MATCHING_PERMIT);
    forall e: string ensures "EVAL_ERROR:" + e != NO_MATCHING_PERMIT {
      assert ("EVAL_ERROR:" + e)[0] == 'E';
    }
  }

  /** No policy errs, no forbid matches, and some permit does. */
  predicate Permitted(ps: Policies, r: Request) {
    ErroredIds(ps, r) == {} && SatisfiedIds(ps, r, Forbid) == {} && SatisfiedIds(ps, r, Permit) != {}
  }

  /** Nothing errs and nothing matches: the request is denied by default alone. */
  predicate Unmatched(ps: Policies, r: Request) {
    ErroredIds(ps, r) == {} && SatisfiedIds(ps, r, Forbid) == {} && SatisfiedIds(ps, r, Permit) == {}
  }

  lemma EvaluateExact(ps: Policies, r: Request)
    ensures var e := Evaluate(ps, r);
      && (e.allowed <==> Permitted(ps, r)) && (e.errors == {} <==> ErroredIds(ps, r) == {})
      && (e.errors == {} && !e.allowed && e.reasons == {} <==> Unmatched(ps, r))
      && (e.allowed ==> e.reasons == SatisfiedIds(ps, r, Permit))
  {
    hide SatisfiedIds, ErroredIds;
  }

  lemma ApproveCombine(e1: Evaluation, approved: bool, e2: Evaluation, hash: string)
    requires NO_MATCHING_PERMIT !in e1.reasons && NO_MATCHING_PERMIT !in e2.reasons
    requires NO_MATCHING_PERMIT !in EvalErrors(e1.errors) && NO_MATCHING_PERMIT !in EvalErrors(e2.errors)
    requires approved ==> e1 == e2
    ensures var before, after := Combine(e1, approved, e2, hash), Combine(e2, true, e2, hash);
      && (before.verdict == REQUIRE_APPROVAL ==> after == Ruling(ALLOW, before.reasons, Some(hash)))
      && (before.reasons == {NO_MATCHING_PERMIT} ==> before.verdict == DENY && after == before)
      && (before.verdict == DENY && e1.errors == {} && !e1.allowed && e1.reasons == {} ==> after == before)
  {
    hide EvalErrors;
  }

  /**
   * An approval of the very action turns exactly a REQUIRE_APPROVAL into an ALLOW for the announced reasons. It does
   * nothing for an action that no permit would match, nor for any other that nothing matched and that was denied all the
   * same, because as if approved it met an error or a forbid.
   */
  lemma ApprovalExact(env: Envelope, s: Snapshot, b: Bundle)
    requires ValidBundle(b)
    ensures var before := Judge(env, s, b);
      && (before.verdict == REQUIRE_APPROVAL ==>
            before.actionHash.Some? &&
            Judge(env, Approve(s, before.actionHash.value), b) == before.(verdict := ALLOW))
      && (before.reasons == {NO_MATCHING_PERMIT} && before.actionHash.Some? ==>
            before.verdict == DENY && Judge(env, Approve(s, before.actionHash.value), b) == before)
      && (before.verdict == DENY && Reaches(env, s, b) && Unmatched(b.policies, FirstRequest(env, s, b, TheAction(env, s, b))) ==>
            Judge(env, Approve(s, ActionHash(b, TheAction(env, s, b))), b) == before)
  {
    hide CheckSnapshot, Canonicalize, BuildContext, Evaluate, ActionHash, MakeRequest, EvalErrors, ValidBundle, Unmatched,
         Permitted;
    WellFormedBundle(b);
    if Reaches(env, s, b) {
      var a := TheAction(env, s, b);
      var hash := ActionHash(b, a);
      var t := Approve(s, hash);
      SameChecks(s, b.manifest, hash);
      RuleIsCombine(env, s, b, a);
      RuleIsCombine(env, t, b, a);
      ApprovedRequest(env, s, b, a);
      var r1, r2 := FirstRequest(env, s, b, a), SecondRequest(env, s, b, a);
      ReasonsArePolicies(b, r1);
      ReasonsArePolicies(b, r2);
      AlreadyApproved(env, s, b, a);
      EvaluateExact(b.policies, r1);
      ApproveCombine(Evaluate(b.policies, r1), hash in s.approvals, Evaluate(b.policies, r2), hash);
    }
  }

  lemma WellFormedBundle(b: Bundle)
    requires ValidBundle(b)
    ensures WellFormed(b.manifest)
  {
  }

  lemma AlreadyApproved(env: Envelope, s: Snapshot, b: Bundle, a: Action)
    requires a.tool in b.manifest.tools
    ensures ActionHash(b, a) in s.approvals ==> FirstRequest(env, s, b, a) == SecondRequest(env, s, b, a)
  {
    hide FirstRequest, SecondRequest, ActionHash;
    assert ActionHash(b, a) in s.approvals ==> Approve(s, ActionHash(b, a)) == s;
    ApprovedRequest(env, s, b, a);
  }

  /** Approving anything else changes neither the verdict nor the reasons. */
  lemma OtherApprovalsDoNothing(env: Envelope, s: Snapshot, b: Bundle, other: string)
    requires WellFormed(b.manifest) && Judge(env, s, b).actionHash != Some(other)
    ensures Judge(env, Approve(s, other), b) == Judge(env, s, b)
  {
    hide CheckSnapshot, Canonicalize, BuildContext, Evaluate, ActionHash, MakeRequest, EvalErrors;
    SameChecks(s, b.manifest, other);
    if Reaches(env, s, b) {
      var a := TheAction(env, s, b);
      RuleIsCombine(env, s, b, a);
      RuleIsCombine(env, Approve(s, other), b, a);
      OtherHashSameRequests(env, s, b, a, other);
    }
  }

  // ---- when each verdict is given ----

  /**
   * Fail closed, exactly: ALLOW needs a clean evaluation with a permit and no forbid; REQUIRE_APPROVAL is given only
   * where nothing matched as it stands and an approval would permit; a forbid or an error is final either way.
   */
  lemma VerdictExact(env: Envelope, s: Snapshot, b: Bundle)
    requires WellFormed(b.manifest)
    ensures var j := Judge(env, s, b);
      && (j.verdict == ALLOW <==>
            Reaches(env, s, b) && Permitted(b.policies, FirstRequest(env, s, b, TheAction(env, s, b))))
      && (j.verdict == REQUIRE_APPROVAL <==>
            && Reaches(env, s, b) && ActionHash(b, TheAction(env, s, b)) !in s.approvals
            && Unmatched(b.policies, FirstRequest(env, s, b, TheAction(env, s, b)))
            && Permitted(b.policies, SecondRequest(env, s, b, TheAction(env, s, b))))
  {
    hide CheckSnapshot, Canonicalize, BuildContext, Evaluate, ActionHash, MakeRequest, EvalErrors, Permitted, Unmatched;
    if Reaches(env, s, b) {
      var a := TheAction(env, s, b);
      RuleIsCombine(env, s, b, a);
      EvaluateExact(b.policies, FirstRequest(env, s, b, a));
      EvaluateExact(b.policies, SecondRequest(env, s, b, a));
      AllowedIsClean(b.policies, FirstRequest(env, s, b, a));
      AllowedIsClean(b.policies, SecondRequest(env, s, b, a));
    }
  }
}
