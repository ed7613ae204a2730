/** What a clean replay proves, and that every log the gate wrote replays cleanly. */
module ReplayLaws {
  import opened Wrappers
  import opened Json
  import opened Syntax
  import opened Manifest
  import opened Canonical
  import opened Decide
  import opened Snapshots
  import opened Ledger
  import opened LedgerLaws
  import opened GateSpec
  import opened GateLog
  import opened GateLaws
  import opened Chain
  import opened ChainLaws
  import opened Records
  import opened Shell
  import opened Replay

  function Names(b: Bundle): set<string> { b.manifest.counters.Keys }

  /** The decision at k is exactly what the bundle decides on the state the earlier events lead to. */
  predicate Derived(b: Bundle, sid: string, log: seq<Body>, k: nat)
    requires WellFormed(b.manifest) && k < |log| && log[k].Decided?
  {
    && Readable(log[k]) && Fold(sid, log[..k], Names(b)).Ok?
    && SnapshotOf(Fold(sid, log[..k], Names(b)).value, log[k].facts).Ok?
    && log[k].decision == Decide.Decide(log[k].envelope, SnapshotOf(Fold(sid, log[..k], Names(b)).value, log[k].facts).value, b)
  }

  predicate Follows(b: Bundle, sid: string, log: seq<Body>, from: nat)
    requires WellFormed(b.manifest)
  {
    Fold(sid, log, Names(b)).Ok? && forall k :: from <= k < |log| && log[k].Decided? ==> Derived(b, sid, log, k)
  }

  predicate Bounded(r: Report) { r.exact <= r.decisions && r.snapshotsDerived <= r.decisions }

  predicate Clean(r: Report) {
    r.exact == r.decisions && r.snapshotsDerived == r.decisions && r.mismatches == [] && r.ledgerProblems == []
  }

  predicate SameHeader(r: Report, s: Report) { r.records == s.records && r.chainProblems == s.chainProblems }

  function Decisions(log: seq<Body>, from: nat): nat
    decreases |log| - from
  {
    if from >= |log| then 0 else (if log[from].Decided? then 1 else 0) + Decisions(log, from + 1)
  }

  // ---- one decision ----

  lemma CheckTallies(report: Report, index: nat, body: Body, state: LedgerState, b: Bundle)
    requires WellFormed(b.manifest) && body.Decided? && Bounded(report)
    ensures var counted := CheckDecision(report.(decisions := report.decisions + 1), index, body, state, b);
      counted.Ok? ==>
        && Bounded(counted.value) && SameHeader(counted.value, report)
        && counted.value.decisions == report.decisions + 1
        && (!Clean(report) ==> !Clean(counted.value))
  {
    hide WellFormed, SnapshotOf, Decide.Decide, Readable, SnapshotHash;
  }

  lemma CheckExact(report: Report, index: nat, body: Body, state: LedgerState, b: Bundle)
    requires WellFormed(b.manifest) && body.Decided? && Clean(report)
    ensures var counted := CheckDecision(report.(decisions := report.decisions + 1), index, body, state, b);
      counted.Ok? && Clean(counted.value) <==>
        && Readable(body) && SnapshotOf(state, body.facts).Ok?
        && body.decision == Decide.Decide(body.envelope, SnapshotOf(state, body.facts).value, b)
    ensures var counted := CheckDecision(report.(decisions := report.decisions + 1), index, body, state, b);
      counted.Ok? && Clean(counted.value) ==>
        counted.value.policyMismatch == report.policyMismatch && counted.value.gateMismatch == report.gateMismatch
  {
    hide WellFormed, Readable, ValidSnapshot, Judge, Counters;
    if SnapshotOf(state, body.facts).Ok? {
      DecisionHashes(body.envelope, SnapshotOf(state, body.facts).value, b);
    }
    hide Decide.Decide, SnapshotOf, SnapshotHash;
  }

  lemma DecisionHashes(env: Envelope, s: Snapshot, b: Bundle)
    requires WellFormed(b.manifest)
    ensures var d := Decide.Decide(env, s, b); d.snapshotHash == SnapshotHash(b.sha, s) && d.policyHash == b.policyHash && d.gate == b.gate
  {
    hide WellFormed, Judge, SnapshotHash, InputHash;
  }

  // ---- the loop ----

  lemma {:induction false} DirtStays(report: Report, records: seq<Record>, i: nat, state: LedgerState, b: Bundle)
    requires WellFormed(b.manifest) && i <= |records| && Bounded(report)
    ensures var r := ReplayFrom(report, records, i, state, b);
      r.Ok? ==> Bounded(r.value) && SameHeader(r.value, report) && (!Clean(report) ==> !Clean(r.value))
    decreases |records| - i
  {
    hide WellFormed, Apply, CheckDecision;
    if i < |records| {
      var r := records[i];
      if r.body.Decided? { CheckTallies(report, i, r.body, state, b); }
      var counted := Counted(report, r, i, state, b);
      var next := Apply(state, Event(r.number, r.body), Names(b));
      if counted.Ok? && next.Ok? { DirtStays(counted.value, records, i + 1, next.value, b); }
    }
  }

  lemma PrefixStep(b: Bundle, sid: string, log: seq<Body>, i: nat)
    requires i < |log| && Fold(sid, log[..i], Names(b)).Ok?
    ensures Fold(sid, log[..i + 1], Names(b)) == Apply(Fold(sid, log[..i], Names(b)).value, Event(i, log[i]), Names(b))
    ensures Fold(sid, log, Names(b)).Ok? ==> Fold(sid, log[..i + 1], Names(b)).Ok?
  {
    hide Fold, Apply;
    assert log[..i + 1] == log[..i] + [log[i]];
    FoldStep(sid, log[..i], Names(b), log[i]);
    if Fold(sid, log, Names(b)).Ok? { FoldPrefix(sid, log, Names(b), i + 1); }
  }

  lemma FollowsStep(b: Bundle, sid: string, log: seq<Body>, i: nat)
    requires WellFormed(b.manifest) && i < |log|
    ensures Follows(b, sid, log, i) <==> Follows(b, sid, log, i + 1) && (log[i].Decided? ==> Derived(b, sid, log, i))
  {
    hide WellFormed, Fold, Derived;
  }

  predicate Numbered(records: seq<Record>) {
    |records| <= MAX_SAFE_INT + 1 && forall k :: 0 <= k < |records| ==> records[k].number == k
  }

  /** From a clean tally, the rest of the replay stays clean exactly when the rest of the log follows. */
  lemma {:induction false} ReplayFromExact(report: Report, records: seq<Record>, i: nat, state: LedgerState, b: Bundle, sid: string)
    requires WellFormed(b.manifest) && i <= |records| && Numbered(records) && Clean(report)
    requires Fold(sid, BodiesOf(records)[..i], Names(b)) == Result.Ok(state)
    ensures var r, log := ReplayFrom(report, records, i, state, b), BodiesOf(records);
      && (r.Ok? && Clean(r.value) <==> Follows(b, sid, log, i))
      && (r.Ok? && Clean(r.value) ==>
            && r.value.decisions == report.decisions + Decisions(log, i) && SameHeader(r.value, report)
            && r.value.policyMismatch == report.policyMismatch && r.value.gateMismatch == report.gateMismatch)
    decreases |records| - i
  {
    hide WellFormed, Apply, CheckDecision, Fold, Derived;
    var log := BodiesOf(records);
    if i == |records| {
      assert log[..i] == log;
      NothingLeft(report, records, state, b);
    } else {
      ReplayStep(report, records, i, state, b);
      hide ReplayFrom;
      FollowsStep(b, sid, log, i);
      PrefixStep(b, sid, log, i);
      hide Follows;
      StepExact(report, records[i], i, state, b, sid, log);
      var counted := Counted(report, records[i], i, state, b);
      var next := Apply(state, Event(i, log[i]), Names(b));
      if counted.Ok? && next.Ok? {
        if Clean(counted.value) {
          ReplayFromExact(counted.value, records, i + 1, next.value, b, sid);
        } else {
          DirtStays(counted.value, records, i + 1, next.value, b);
        }
      } else {
        FollowsFolds(b, sid, log, i + 1);
      }
    }
  }

  lemma FollowsFolds(b: Bundle, sid: string, log: seq<Body>, i: nat)
    requires WellFormed(b.manifest)
    ensures Follows(b, sid, log, i) ==> Fold(sid, log, Names(b)).Ok?
  {
    hide WellFormed, Fold, Derived;
  }

  lemma StepExact(report: Report, r: Record, i: nat, state: LedgerState, b: Bundle, sid: string, log: seq<Body>)
    requires WellFormed(b.manifest) && i < |log| && r.body == log[i] && Clean(report)
             && Fold(sid, log[..i], Names(b)) == Result.Ok(state)
    ensures var counted := Counted(report, r, i, state, b);
      && (counted.Ok? && Clean(counted.value) <==> (r.body.Decided? ==> Derived(b, sid, log, i)))
      && (counted.Ok? ==> Bounded(counted.value) && SameHeader(counted.value, report))
      && (counted.Ok? && Clean(counted.value) ==>
            && counted.value.decisions == report.decisions + (if log[i].Decided? then 1 else 0)
            && counted.value.policyMismatch == report.policyMismatch
            && counted.value.gateMismatch == report.gateMismatch)
  {
    hide WellFormed, CheckDecision, Fold, SnapshotOf, Decide.Decide, Readable;
    if r.body.Decided? {
      CheckTallies(report, i, r.body, state, b);
      CheckExact(report, i, r.body, state, b);
    }
  }

  lemma VerifiedNumbered(sha: Sha, check: Option<Sign>, records: seq<Record>)
    requires Problems(sha, check, records) == []
    ensures Numbered(records)
  {
    hide Problems, InRange, EventJson;
    forall k | 0 <= k < |records| ensures records[k].number == k <= MAX_SAFE_INT {
      InPlaceAt(sha, check, records, k);
      SeqInRange(records[k]);
    }
    if records != [] { assert records[|records| - 1].number <= MAX_SAFE_INT; }
  }

  lemma SeqInRange(r: Record)
    requires InRange(EventJson(r.number, r.body, r.prev))
    ensures r.number <= MAX_SAFE_INT
  {
    hide BodyJson;
    assert EventJson(r.number, r.body, r.prev).members["seq"] == JInt(r.number);
  }

  /**
   * A replay is clean exactly when the chain verifies, the log folds, it holds a decision, and every decision in it is
   * the one the bundle derives from the events before it.
   */
  lemma ReplayOkIff(records: seq<Record>, b: Bundle, sessionId: Option<string>, check: Option<Sign>)
    requires WellFormed(b.manifest)
    ensures var r, log := ReplayOf(records, b, sessionId, check), BodiesOf(records);
      r.Ok? && r.value.IsOk() <==>
        Problems(b.sha, check, records) == [] && Follows(b, SessionIdOf(records, sessionId), log, 0) && Decisions(log, 0) > 0
  {
    hide WellFormed, Problems, ReplayFrom, Follows, InitialState, Decisions;
    var report, log, sid := Opening(records, b, check), BodiesOf(records), SessionIdOf(records, sessionId);
    var initial := InitialState(sid, Names(b));
    NoEvents(b, sid, log);
    if records == [] {
    } else if initial.Err? {
      FollowsFolds(b, sid, log, 0);
      FoldNeedsSession(b, sid, log);
    } else {
      DirtStays(report, records, 0, initial.value, b);
      if Problems(b.sha, check, records) == [] {
        VerifiedNumbered(b.sha, check, records);
        ReplayFromExact(report, records, 0, initial.value, b, sid);
      }
    }
  }

  lemma NoEvents(b: Bundle, sid: string, log: seq<Body>)
    ensures log[..0] == [] && Fold(sid, [], Names(b)) == InitialState(sid, Names(b)) && (log == [] ==> Decisions(log, 0) == 0)
  {
    hide InitialState;
  }

  lemma FoldNeedsSession(b: Bundle, sid: string, log: seq<Body>)
    requires InitialState(sid, Names(b)).Err?
    ensures Fold(sid, log, Names(b)).Err?
  {
  }

  // ---- logs the gate wrote ----

  lemma DecisionsOfLog(log: seq<Body>, i: nat, k: nat)
    requires i <= k < |log| && log[k].Decided?
    ensures Decisions(log, i) > 0
    decreases k - i
  {
    if i < k { DecisionsOfLog(log, i + 1, k); }
  }

  lemma WrittenFollows(c: Config, sid: string, log: seq<Body>)
    requires WellFormed(c.bundle.manifest) && Written(c, sid, log)
    ensures Follows(c.bundle, sid, log, 0)
  {
    hide WellFormed, Written, Fold;
    WrittenFolds(c, sid, log);
    forall k | 0 <= k < |log| && log[k].Decided? ensures Derived(c.bundle, sid, log, k) {
      DecisionAt(c, sid, log, k);
      SnapshotFacts(StateAt(c, sid, log, k).value, log[k].facts);
      hide SnapshotOf, Decide.Decide, ValidEnvelope;
    }
  }

  lemma WrittenFolds(c: Config, sid: string, log: seq<Body>)
    requires WellFormed(c.bundle.manifest) && Written(c, sid, log)
    ensures Fold(sid, log, CounterNames(c)).Ok?
  {
    hide WellFormed, Fold, Justified;
  }

  lemma SnapshotFacts(s: LedgerState, facts: seq<EntityRecord>)
    requires SnapshotOf(s, facts).Ok?
    ensures ValidFacts(facts)
  {
    hide Counters, ValidRecord;
    SortedFactsValid(facts);
  }

  lemma FirstOpens(c: Config, sid: string, log: seq<Body>)
    requires WellFormed(c.bundle.manifest) && Written(c, sid, log) && log != []
    ensures log[0].SessionOpened? && log[0].sessionId == sid
  {
    hide WellFormed, Written, IsId;
    AppliedAt(c, sid, log, 0);
    assert log[..0] == [];
  }

  lemma BodiesOfSealed(sha: Sha, sign: Option<Sign>, log: seq<Body>)
    ensures BodiesOf(SealAll(sha, sign, log)) == log
  {
    hide SealAll;
  }

  /**
   * Any session the gate wrote, with at least one decision, replays cleanly under the same bundle: every decision is
   * exact, every snapshot is derived, and nothing is reported.
   */
  lemma WrittenReplays(c: Config, sid: string, sign: Sign, log: seq<Body>, check: Option<Sign>, named: Option<string>)
    requires ValidConfig(c) && WellFormed(c.bundle.manifest) && Written(c, sid, log) && Decisions(log, 0) > 0
    requires (check == None || check == Some(sign)) && (named == None || named == Some(sid))
    ensures var r := ReplayOf(SealAll(c.bundle.sha, Some(sign), log), c.bundle, named, check);
      && r.Ok? && r.value.IsOk() && r.value.exact == r.value.decisions == r.value.snapshotsDerived == Decisions(log, 0)
      && r.value.policyMismatch == 0 && r.value.gateMismatch == 0
  {
    hide WellFormed, ValidConfig, Written, Problems, ReplayFrom, Follows, InitialState, Decisions, SealAll, Fold;
    var records := SealAll(c.bundle.sha, Some(sign), log);
    BodiesOfSealed(c.bundle.sha, Some(sign), log);
    WrittenIsSealable(c, sid, log);
    SealedVerifies(c.bundle.sha, Some(sign), log, check);
    WrittenFollows(c, sid, log);
    NoEvents(c.bundle, sid, log);
    assert log != [];
    FirstOpens(c, sid, log);
    assert records[0].body == log[0];
    ReplayOkIff(records, c.bundle, named, check);
    VerifiedNumbered(c.bundle.sha, check, records);
    FollowsFolds(c.bundle, sid, log, 0);
    if InitialState(sid, Names(c.bundle)).Err? { FoldNeedsSession(c.bundle, sid, log); }
    ReplayFromExact(Opening(records, c.bundle, check), records, 0, InitialState(sid, Names(c.bundle)).value, c.bundle, sid);
  }

  /** Restarting on a log the gate wrote finds the session exactly as it was left. */
  lemma RestartRecovers(c: Config, sid: string, sign: Sign, v: View)
    requires ValidConfig(c) && WellFormed(c.bundle.manifest) && Good(c, sid, v)
    ensures LoadFile(c, sid, SealAll(c.bundle.sha, Some(sign), v.log)) == Result.Ok(v)
  {
    hide WellFormed, ValidConfig, Good, Problems, SealAll;
    GoodWritten(c, sid, v);
    hide Fold, Written;
    BodiesOfSealed(c.bundle.sha, Some(sign), v.log);
    WrittenIsSealable(c, sid, v.log);
    SealedVerifies(c.bundle.sha, Some(sign), v.log, None);
  }
}
