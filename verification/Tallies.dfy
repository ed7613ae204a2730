/** What a replay reports when not everything follows: every decision is counted once, and every fault is named where it is. */
module Tallies {
  import opened Wrappers
  import opened Json
  import opened Manifest
  import opened Canonical
  import opened Decide
  import opened Snapshots
  import opened Ledger
  import opened LedgerLaws
  import opened Chain
  import opened ChainLaws
  import opened Shell
  import opened Replay
  import opened ReplayLaws

  function Differing(mismatches: seq<(nat, Mismatch)>): nat {
    if mismatches == [] then 0
    else (if mismatches[|mismatches| - 1].1.DecisionDiffers? then 1 else 0) + Differing(mismatches[..|mismatches| - 1])
  }

  /** Every decision is exact, of other policies, of another gate, or a fault; all but the first two kinds of fault have a snapshot that follows. */
  predicate Balanced(r: Report) {
    && r.decisions == r.exact + r.policyMismatch + r.gateMismatch + |r.mismatches|
    && r.snapshotsDerived == r.exact + r.policyMismatch + r.gateMismatch + Differing(r.mismatches)
  }

  lemma OneMore(mismatches: seq<(nat, Mismatch)>, entry: (nat, Mismatch))
    ensures Differing(mismatches + [entry]) == Differing(mismatches) + if entry.1.DecisionDiffers? then 1 else 0
  {
    assert (mismatches + [entry])[..|mismatches|] == mismatches;
  }

  lemma CheckBalances(report: Report, index: nat, body: Body, state: LedgerState, b: Bundle)
    requires WellFormed(b.manifest) && body.Decided? && Balanced(report)
    ensures var counted := CheckDecision(report.(decisions := report.decisions + 1), index, body, state, b);
      counted.Ok? ==> Balanced(counted.value)
  {
    hide WellFormed, SnapshotOf, Decide.Decide, Readable, SnapshotHash, Differing;
    OneMore(report.mismatches, (index, UnreadableDecision));
    OneMore(report.mismatches, (index, SnapshotDoesNotFollow));
    OneMore(report.mismatches, (index, DecisionDiffers));
  }

  lemma {:induction false} ReplayBalances(report: Report, records: seq<Record>, i: nat, state: LedgerState, b: Bundle)
    requires WellFormed(b.manifest) && i <= |records| && Balanced(report)
    ensures var r := ReplayFrom(report, records, i, state, b); r.Ok? ==> Balanced(r.value)
    decreases |records| - i
  {
    hide WellFormed, Apply, CheckDecision, Differing;
    if i < |records| {
      var r := records[i];
      if r.body.Decided? { CheckBalances(report, i, r.body, state, b); }
      var counted := Counted(report, r, i, state, b);
      var next := Apply(state, Event(r.number, r.body), Names(b));
      if counted.Ok? && next.Ok? { ReplayBalances(counted.value, records, i + 1, next.value, b); }
    }
  }

  /**
   * What is wrong with a recorded decision: it cannot be read, its snapshot is not that of the state before it, or these
   * very policies and this very gate decide otherwise.
   */
  function Fault(b: Bundle, state: LedgerState, body: Body): Option<Mismatch>
    requires WellFormed(b.manifest) && body.Decided?
  {
    if !Readable(body) then Some(UnreadableDecision)
    else match SnapshotOf(state, body.facts)
      case Err(_) => None
      case Ok(s) =>
        if SnapshotHash(b.sha, s) != body.decision.snapshotHash then Some(SnapshotDoesNotFollow)
        else if body.decision.policyHash == b.policyHash && body.decision.gate == b.gate
                && body.decision != Decide.Decide(body.envelope, s, b) then Some(DecisionDiffers)
        else None
  }

  function Entry(index: nat, fault: Option<Mismatch>): seq<(nat, Mismatch)> {
    match fault
    case None => []
    case Some(m) => [(index, m)]
  }

  lemma CheckFaults(report: Report, index: nat, body: Body, state: LedgerState, b: Bundle)
    requires WellFormed(b.manifest) && body.Decided?
    ensures var counted := CheckDecision(report, index, body, state, b);
      counted.Ok? ==> counted.value.mismatches == report.mismatches + Entry(index, Fault(b, state, body))
  {
    hide WellFormed, Readable, ValidSnapshot, Judge, Counters;
    if SnapshotOf(state, body.facts).Ok? {
      DecisionHashes(body.envelope, SnapshotOf(state, body.facts).value, b);
    }
    hide Decide.Decide, SnapshotOf, SnapshotHash;
  }

  /** The faults of a log from a position on, in order. */
  function Faults(b: Bundle, sid: string, log: seq<Body>, from: nat): seq<(nat, Mismatch)>
    requires WellFormed(b.manifest) && Fold(sid, log, Names(b)).Ok?
    decreases |log| - from
  {
    if from >= |log| then []
    else
      FoldPrefix(sid, log, Names(b), from);
      var rest := Faults(b, sid, log, from + 1);
      if log[from].Decided? then Entry(from, Fault(b, Fold(sid, log[..from], Names(b)).value, log[from])) + rest else rest
  }

  lemma FaultsFrom(b: Bundle, sid: string, log: seq<Body>, i: nat)
    requires WellFormed(b.manifest) && Fold(sid, log, Names(b)).Ok? && i < |log| && Fold(sid, log[..i], Names(b)).Ok?
    ensures var rest := Faults(b, sid, log, i + 1);
      Faults(b, sid, log, i) ==
      if log[i].Decided? then Entry(i, Fault(b, Fold(sid, log[..i], Names(b)).value, log[i])) + rest else rest
  {
    hide Fault, Fold;
  }

  lemma NoFaultsLeft(b: Bundle, sid: string, log: seq<Body>)
    requires WellFormed(b.manifest) && Fold(sid, log, Names(b)).Ok?
    ensures Faults(b, sid, log, |log|) == []
  {
  }

  lemma {:induction false} ReplayFaults(report: Report, records: seq<Record>, i: nat, state: LedgerState, b: Bundle, sid: string)
    requires WellFormed(b.manifest) && i <= |records| && Numbered(records)
    requires Fold(sid, BodiesOf(records)[..i], Names(b)) == Result.Ok(state) && Fold(sid, BodiesOf(records), Names(b)).Ok?
    ensures var r, log := ReplayFrom(report, records, i, state, b), BodiesOf(records);
      r.Ok? ==> r.value.mismatches == report.mismatches + Faults(b, sid, log, i) && r.value.ledgerProblems == report.ledgerProblems
    decreases |records| - i
  {
    hide WellFormed, Apply, CheckDecision, Fold, Fault, Faults;
    var log := BodiesOf(records);
    if i == |records| {
      NoFaultsLeft(b, sid, log);
      NothingLeft(report, records, state, b);
      assert report.mismatches + [] == report.mismatches;
    } else {
      ReplayStep(report, records, i, state, b);
      hide ReplayFrom;
      PrefixStep(b, sid, log, i);
      FaultsFrom(b, sid, log, i);
      var counted := Counted(report, records[i], i, state, b);
      StepFault(report, records[i], i, state, b);
      if counted.Ok? {
        var next := Apply(state, Event(i, log[i]), Names(b));
        ReplayFaults(counted.value, records, i + 1, next.value, b, sid);
      }
    }
  }

  lemma StepFault(report: Report, r: Record, i: nat, state: LedgerState, b: Bundle)
    requires WellFormed(b.manifest)
    ensures var counted := Counted(report, r, i, state, b);
      counted.Ok? ==>
        && counted.value.mismatches == report.mismatches + (if r.body.Decided? then Entry(i, Fault(b, state, r.body)) else [])
        && counted.value.ledgerProblems == report.ledgerProblems
  {
    hide WellFormed, Fault, SnapshotOf, Decide.Decide, Readable, SnapshotHash;
    if r.body.Decided? { CheckFaults(report.(decisions := report.decisions + 1), i, r.body, state, b); }
  }

  /** Of records whose events fold, a replay names exactly the faulty decisions, in order, and counts every decision once. */
  lemma ReplayAccounts(records: seq<Record>, b: Bundle, sessionId: Option<string>, check: Option<Sign>)
    requires WellFormed(b.manifest) && Numbered(records) && ReplayOf(records, b, sessionId, check).Ok?
    requires Fold(SessionIdOf(records, sessionId), BodiesOf(records), Names(b)).Ok?
    ensures var r, sid, log := ReplayOf(records, b, sessionId, check).value, SessionIdOf(records, sessionId), BodiesOf(records);
      Balanced(r) && r.mismatches == Faults(b, sid, log, 0) && r.ledgerProblems == []
  {
    hide WellFormed, Problems, ReplayFrom, InitialState, Faults, Fold;
    var report, log, sid := Opening(records, b, check), BodiesOf(records), SessionIdOf(records, sessionId);
    NoEvents(b, sid, log);
    assert Balanced(report);
    if records == [] {
      NoFaultsLeft(b, sid, log);
    } else {
      if InitialState(sid, Names(b)).Err? { FoldNeedsSession(b, sid, log); }
      var initial := InitialState(sid, Names(b)).value;
      ReplayBalances(report, records, 0, initial, b);
      ReplayFaults(report, records, 0, initial, b, sid);
      assert [] + Faults(b, sid, log, 0) == Faults(b, sid, log, 0);
    }
  }
}
