/** Which recorded decisions would come out differently under a candidate bundle. */
module History {
  import opened Wrappers
  import opened Json
  import opened Manifest
  import opened Canonical
  import opened Cedar
  import opened Decide
  import opened Guardrails
  import opened Snapshots
  import opened Ledger
  import opened LedgerLaws
  import opened GateSpec
  import opened GateLog
  import opened GateLaws
  import opened Chain
  import opened ChainLaws
  import opened Records
  import opened Shell
  import opened Replay
  import opened ReplayLaws

  datatype Change = Change(at: int, actionHash: Option<string>, tool: string, recorded: Decision, candidate: Decision)

  /** The decision a candidate takes on a recorded event, and the change if the verdicts differ. */
  function ChangeAt(at: int, body: Body, state: LedgerState, candidate: Bundle): Result<seq<Change>>
    requires WellFormed(candidate.manifest) && body.Decided?
  {
    if !ValidEnvelope(body.envelope) then Err("bad_envelope")
    else if !ValidFacts(body.facts) then Err("bad_record")
    else
      var snapshot :- SnapshotOf(state, body.facts);
      var again := Decide.Decide(body.envelope, snapshot, candidate);
      if again.verdict != body.decision.verdict
      then Ok([Change(at, body.decision.actionHash, body.envelope.tool, body.decision, again)])
      else Ok([])
  }

  function ImpactFrom(changes: seq<Change>, records: seq<Record>, i: nat, state: LedgerState, candidate: Bundle): Result<seq<Change>>
    requires WellFormed(candidate.manifest) && i <= |records|
    decreases |records| - i
  {
    if i == |records| then Ok(changes)
    else
      var r := records[i];
      if !SafeNat(r.number) then Err("bad_sequence")
      else
        var more :- if r.body.Decided? then ChangeAt(r.number, r.body, state, candidate) else Ok([]);
        var next :- Apply(state, Event(r.number, r.body), Names(candidate));
        ImpactFrom(changes + more, records, i + 1, next, candidate)
  }

  function HistoryImpact(records: seq<Record>, candidate: Bundle, sid: string): Result<seq<Change>>
    requires WellFormed(candidate.manifest)
  {
    var state :- InitialState(sid, Names(candidate));
    ImpactFrom([], records, 0, state, candidate)
  }

  lemma ImpactStep(changes: seq<Change>, records: seq<Record>, i: nat, state: LedgerState, candidate: Bundle)
    requires WellFormed(candidate.manifest) && i < |records|
    ensures ImpactFrom(changes, records, i, state, candidate) ==
      var r := records[i];
      if !SafeNat(r.number) then Err("bad_sequence")
      else match (if r.body.Decided? then ChangeAt(r.number, r.body, state, candidate) else Ok([]))
        case Err(code) => Err(code)
        case Ok(more) =>
          match Apply(state, Event(r.number, r.body), Names(candidate))
          case Err(code) => Err(code)
          case Ok(next) => ImpactFrom(changes + more, records, i + 1, next, candidate)
  {
    hide WellFormed, Apply, ChangeAt;
  }

  lemma ImpactEnd(changes: seq<Change>, records: seq<Record>, state: LedgerState, candidate: Bundle)
    requires WellFormed(candidate.manifest)
    ensures ImpactFrom(changes, records, |records|, state, candidate) == Ok(changes)
  {
    hide WellFormed;
  }

  method Impact(records: seq<Record>, candidate: Bundle, sid: string) returns (r: Result<seq<Change>>)
    requires WellFormed(candidate.manifest)
    ensures r == HistoryImpact(records, candidate, sid)
  {
    hide WellFormed, Apply, ChangeAt, ImpactFrom, InitialState;
    var initial := InitialState(sid, Names(candidate));
    if initial.Err? { return Err(initial.code); }
    var state := initial.value;
    var changes: seq<Change> := [];
    ghost var whole := ImpactFrom([], records, 0, state, candidate);
    for i := 0 to |records|
      invariant whole == ImpactFrom(changes, records, i, state, candidate)
    {
      ImpactStep(changes, records, i, state, candidate);
      var record := records[i];
      if !SafeNat(record.number) { return Err("bad_sequence"); }
      if record.body.Decided? {
        var more := ChangeAt(record.number, record.body, state, candidate);
        if more.Err? { return Err(more.code); }
        changes := changes + more.value;
      } else {
        assert changes + [] == changes;
      }
      var next := Apply(state, Event(record.number, record.body), Names(candidate));
      if next.Err? { return Err(next.code); }
      state := next.value;
    }
    ImpactEnd(changes, records, state, candidate);
    r := Ok(changes);
  }

  // ---- over a log the gate wrote ----

  /** The changes a candidate makes to the decisions from position i on. */
  function Changes(candidate: Bundle, sid: string, log: seq<Body>, i: nat): seq<Change>
    requires WellFormed(candidate.manifest)
    decreases |log| - i
  {
    if i >= |log| then []
    else
      (if log[i].Decided? && Fold(sid, log[..i], Names(candidate)).Ok?
         && ChangeAt(i, log[i], Fold(sid, log[..i], Names(candidate)).value, candidate).Ok?
       then ChangeAt(i, log[i], Fold(sid, log[..i], Names(candidate)).value, candidate).value else [])
      + Changes(candidate, sid, log, i + 1)
  }

  lemma ReadableChange(c: Config, sid: string, log: seq<Body>, k: nat, candidate: Bundle)
    requires WellFormed(c.bundle.manifest) && WellFormed(candidate.manifest) && Written(c, sid, log)
    requires k < |log| && log[k].Decided? && Names(candidate) == CounterNames(c)
    ensures Fold(sid, log[..k], Names(candidate)).Ok?
    ensures ChangeAt(k, log[k], Fold(sid, log[..k], Names(candidate)).value, candidate).Ok?
  {
    hide WellFormed, Written, Fold, SnapshotOf, ValidEnvelope, ValidFacts;
    DecisionAt(c, sid, log, k);
    SnapshotFacts(StateAt(c, sid, log, k).value, log[k].facts);
    hide Decide.Decide;
  }

  lemma {:induction false} ImpactFromIs(c: Config, sid: string, records: seq<Record>, candidate: Bundle, changes: seq<Change>, i: nat,
                                        state: LedgerState)
    requires WellFormed(c.bundle.manifest) && WellFormed(candidate.manifest) && Names(candidate) == CounterNames(c)
    requires Written(c, sid, BodiesOf(records)) && Numbered(records) && i <= |records|
    requires Fold(sid, BodiesOf(records)[..i], Names(candidate)) == Ok(state)
    ensures ImpactFrom(changes, records, i, state, candidate) == Ok(changes + Changes(candidate, sid, BodiesOf(records), i))
    decreases |records| - i
  {
    hide WellFormed, Apply, ChangeAt, Fold, Written;
    var log := BodiesOf(records);
    if i == |records| {
      ImpactEnd(changes, records, state, candidate);
      assert changes + [] == changes;
    } else {
      ImpactStep(changes, records, i, state, candidate);
      hide ImpactFrom;
      WrittenFolds(c, sid, log);
      PrefixStep(candidate, sid, log, i);
      var next := Fold(sid, log[..i + 1], Names(candidate)).value;
      if log[i].Decided? {
        ReadableChange(c, sid, log, i, candidate);
        var more := ChangeAt(i, log[i], state, candidate).value;
        ImpactFromIs(c, sid, records, candidate, changes + more, i + 1, next);
        assert changes + more + Changes(candidate, sid, log, i + 1) == changes + (more + Changes(candidate, sid, log, i + 1));
      } else {
        assert changes + [] == changes;
        ImpactFromIs(c, sid, records, candidate, changes, i + 1, next);
        assert [] + Changes(candidate, sid, log, i + 1) == Changes(candidate, sid, log, i + 1);
      }
    }
  }

  /** Over a session the gate wrote, the impact is exactly the decisions whose verdict the candidate changes, in order. */
  lemma ImpactIsChanges(c: Config, sid: string, sign: Sign, log: seq<Body>, candidate: Bundle)
    requires ValidConfig(c) && WellFormed(c.bundle.manifest) && WellFormed(candidate.manifest) && Written(c, sid, log)
    requires Names(candidate) == CounterNames(c)
    ensures HistoryImpact(SealAll(c.bundle.sha, Some(sign), log), candidate, sid) == Ok(Changes(candidate, sid, log, 0))
  {
    hide WellFormed, ValidConfig, Written, Fold, ImpactFrom, Changes, SealAll, Problems, InitialState;
    var records := SealAll(c.bundle.sha, Some(sign), log);
    BodiesOfSealed(c.bundle.sha, Some(sign), log);
    WrittenIsSealable(c, sid, log);
    SealedVerifies(c.bundle.sha, Some(sign), log, None);
    VerifiedNumbered(c.bundle.sha, None, records);
    WrittenFolds(c, sid, log);
    NoEvents(candidate, sid, log);
    if InitialState(sid, Names(candidate)).Err? { FoldNeedsSession(candidate, sid, log); }
    ImpactFromIs(c, sid, records, candidate, [], 0, InitialState(sid, Names(candidate)).value);
    assert [] + Changes(candidate, sid, log, 0) == Changes(candidate, sid, log, 0);
  }

  lemma DecidedJudged(env: Envelope, s: Snapshot, b: Bundle)
    requires WellFormed(b.manifest)
    ensures Decide.Decide(env, s, b).verdict == Judge(env, s, b).verdict
  {
    hide WellFormed, Judge, SnapshotHash, InputHash;
  }

  /** Every change a bundle with more forbids makes lowers the recorded verdict; the same bundle makes none. */
  lemma {:induction false} ForbidsLowerHistory(c: Config, sid: string, log: seq<Body>, extra: Policies, i: nat)
    requires WellFormed(c.bundle.manifest) && Written(c, sid, log) && Extends(extra, c.bundle, Forbid)
    ensures forall ch :: ch in Changes(WithPolicies(c.bundle, extra), sid, log, i) ==>
              Rank(ch.candidate.verdict) < Rank(ch.recorded.verdict)
    decreases |log| - i
  {
    hide WellFormed, Written, Fold, ChangeAt, Rank;
    if i < |log| {
      var candidate := WithPolicies(c.bundle, extra);
      ForbidsLowerHistory(c, sid, log, extra, i + 1);
      if log[i].Decided? && Fold(sid, log[..i], Names(candidate)).Ok?
         && ChangeAt(i, log[i], Fold(sid, log[..i], Names(candidate)).value, candidate).Ok? {
        ForbidsLowerOne(c, sid, log, extra, i);
      }
    }
  }

  lemma ForbidsLowerOne(c: Config, sid: string, log: seq<Body>, extra: Policies, k: nat)
    requires WellFormed(c.bundle.manifest) && Written(c, sid, log) && Extends(extra, c.bundle, Forbid)
    requires k < |log| && log[k].Decided? && Fold(sid, log[..k], CounterNames(c)).Ok?
    requires ChangeAt(k, log[k], Fold(sid, log[..k], CounterNames(c)).value, WithPolicies(c.bundle, extra)).Ok?
    ensures forall ch :: ch in ChangeAt(k, log[k], Fold(sid, log[..k], CounterNames(c)).value, WithPolicies(c.bundle, extra)).value ==>
              Rank(ch.candidate.verdict) < Rank(ch.recorded.verdict)
  {
    hide WellFormed, Written, Fold, SnapshotOf, ValidEnvelope, ValidFacts, Judge, Decide.Decide, Extends;
    var candidate := WithPolicies(c.bundle, extra);
    DecisionAt(c, sid, log, k);
    var snapshot := SnapshotOf(StateAt(c, sid, log, k).value, log[k].facts).value;
    DecidedJudged(log[k].envelope, snapshot, c.bundle);
    DecidedJudged(log[k].envelope, snapshot, candidate);
    ForbidsNeverRaise(log[k].envelope, snapshot, c.bundle, extra);
    RankDecides(log[k].decision.verdict, Decide.Decide(log[k].envelope, snapshot, candidate).verdict);
  }

  lemma RankDecides(v: Verdict, w: Verdict)
    ensures Rank(v) == Rank(w) <==> v == w
  {
  }

  /** Re-deciding recorded history under the bundle that wrote it changes nothing. */
  lemma SameBundleNoImpact(c: Config, sid: string, sign: Sign, log: seq<Body>)
    requires ValidConfig(c) && WellFormed(c.bundle.manifest) && Written(c, sid, log)
    ensures HistoryImpact(SealAll(c.bundle.sha, Some(sign), log), c.bundle, sid) == Ok([])
  {
    hide WellFormed, ValidConfig, Written, HistoryImpact, Changes, SealAll;
    ImpactIsChanges(c, sid, sign, log, c.bundle);
    NoChanges(c, sid, log, 0);
  }

  lemma {:induction false} NoChanges(c: Config, sid: string, log: seq<Body>, i: nat)
    requires WellFormed(c.bundle.manifest) && Written(c, sid, log)
    ensures Changes(c.bundle, sid, log, i) == []
    decreases |log| - i
  {
    hide WellFormed, Written, Fold, SnapshotOf, ValidEnvelope, ValidFacts, Decide.Decide;
    if i < |log| {
      NoChanges(c, sid, log, i + 1);
      if log[i].Decided? { DecisionAt(c, sid, log, i); }
    }
  }
}
