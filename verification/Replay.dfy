/** Replay: every decision of a recorded session is derived again from the events that came before it. */
module Replay {
  import opened Wrappers
  import opened Json
  import opened Manifest
  import opened Canonical
  import opened Decide
  import opened Snapshots
  import opened Ledger
  import opened GateSpec
  import opened Chain
  import opened Shell

  datatype Mismatch = UnreadableDecision | SnapshotDoesNotFollow | DecisionDiffers

  datatype LedgerProblem = BadSession(code: string) | BadEvent(index: nat, code: string)

  /** The report's contents. */
  datatype Report = Report(
    records: nat,
    decisions: nat,
    exact: nat,
    snapshotsDerived: nat,
    chainProblems: seq<Problem>,
    ledgerProblems: seq<LedgerProblem>,
    policyMismatch: nat,
    gateMismatch: nat,
    mismatches: seq<(nat, Mismatch)>)
  {
    predicate IsOk() {
      && records > 0 && decisions > 0 && exact == decisions && snapshotsDerived == decisions
      && chainProblems == [] && ledgerProblems == [] && mismatches == []
    }
  }

  // ---- the specification ----

  predicate Readable(body: Body)
    requires body.Decided?
  {
    ValidEnvelope(body.envelope) && ValidFacts(body.facts)
  }

  /** One recorded decision against the state it must follow from; an impossible snapshot stops the replay. */
  function CheckDecision(report: Report, index: nat, body: Body, state: LedgerState, b: Bundle): Result<Report>
    requires WellFormed(b.manifest) && body.Decided?
  {
    if !Readable(body) then Result.Ok(report.(mismatches := report.mismatches + [(index, UnreadableDecision)]))
    else
      var derived :- SnapshotOf(state, body.facts);
      if SnapshotHash(b.sha, derived) != body.decision.snapshotHash then
        Result.Ok(report.(mismatches := report.mismatches + [(index, SnapshotDoesNotFollow)]))
      else
        var counted := report.(snapshotsDerived := report.snapshotsDerived + 1);
        if body.decision.policyHash != b.policyHash then Result.Ok(counted.(policyMismatch := counted.policyMismatch + 1))
        else
          var again := Decide.Decide(body.envelope, derived, b);
          if again == body.decision then Result.Ok(counted.(exact := counted.exact + 1))
          else if again.gate != body.decision.gate then Result.Ok(counted.(gateMismatch := counted.gateMismatch + 1))
          else Result.Ok(counted.(mismatches := counted.mismatches + [(index, DecisionDiffers)]))
  }

  function Counted(report: Report, r: Record, index: nat, state: LedgerState, b: Bundle): Result<Report>
    requires WellFormed(b.manifest)
  {
    if r.body.Decided? then CheckDecision(report.(decisions := report.decisions + 1), index, r.body, state, b)
    else Result.Ok(report)
  }

  function ReplayFrom(report: Report, records: seq<Record>, i: nat, state: LedgerState, b: Bundle): Result<Report>
    requires WellFormed(b.manifest) && i <= |records|
    decreases |records| - i
  {
    if i == |records| then Result.Ok(report)
    else
      var r := records[i];
      if !SafeNat(r.number) then Result.Ok(report.(ledgerProblems := report.ledgerProblems + [BadEvent(i, "bad_sequence")]))
      else
        var counted :- Counted(report, r, i, state, b);
        match Apply(state, Event(r.number, r.body), b.manifest.counters.Keys)
        case Err(code) => Result.Ok(counted.(ledgerProblems := counted.ledgerProblems + [BadEvent(i, code)]))
        case Ok(next) => ReplayFrom(counted, records, i + 1, next, b)
  }

  /** The session the records name, unless the caller names one. */
  function SessionIdOf(records: seq<Record>, sessionId: Option<string>): string {
    match sessionId
    case Some(id) => if id != "" then id else if records != [] && records[0].body.SessionOpened? then records[0].body.sessionId else ""
    case None => if records != [] && records[0].body.SessionOpened? then records[0].body.sessionId else ""
  }

  function Opening(records: seq<Record>, b: Bundle, check: Option<Sign>): Report {
    Report(|records|, 0, 0, 0, Problems(b.sha, check, records), [], 0, 0, [])
  }

  function ReplayOf(records: seq<Record>, b: Bundle, sessionId: Option<string>, check: Option<Sign>): Result<Report>
    requires WellFormed(b.manifest)
  {
    var report := Opening(records, b, check);
    if records == [] then Result.Ok(report)
    else match InitialState(SessionIdOf(records, sessionId), b.manifest.counters.Keys)
      case Err(code) => Result.Ok(report.(ledgerProblems := [BadSession(code)]))
      case Ok(state) => ReplayFrom(report, records, 0, state, b)
  }

  // ---- the mutable report ----

  class ReplayReport {
    var records: nat
    var decisions: nat
    var exact: nat
    var snapshotsDerived: nat
    var chainProblems: seq<Problem>
    var ledgerProblems: seq<LedgerProblem>
    var policyMismatch: nat
    var gateMismatch: nat
    var mismatches: seq<(nat, Mismatch)>

    ghost function Contents(): Report
      reads this
    {
      Report(records, decisions, exact, snapshotsDerived, chainProblems, ledgerProblems, policyMismatch, gateMismatch, mismatches)
    }

    constructor (records: nat, chainProblems: seq<Problem>)
      ensures Contents() == Report(records, 0, 0, 0, chainProblems, [], 0, 0, [])
    {
      this.records, this.chainProblems := records, chainProblems;
      decisions, exact, snapshotsDerived, policyMismatch, gateMismatch := 0, 0, 0, 0, 0;
      ledgerProblems, mismatches := [], [];
    }

    /** Counts one decision; a refusal is the exception an impossible snapshot raises. */
    method Check(index: nat, body: Body, state: LedgerState, b: Bundle) returns (r: Result<()>)
      requires WellFormed(b.manifest) && body.Decided?
      modifies this
      ensures match CheckDecision(old(Contents()), index, body, state, b)
        case Ok(report) => r.Ok? && Contents() == report
        case Err(code) => r == Err(code)
    {
      hide WellFormed, SnapshotOf, Decide.Decide, ValidEnvelope, ValidFacts, SnapshotHash;
      r := Result.Ok(());
      if !ValidEnvelope(body.envelope) || !ValidFacts(body.facts) {
        mismatches := mismatches + [(index, UnreadableDecision)];
        return;
      }
      var derived := SnapshotOf(state, body.facts);
      if derived.Err? { return Err(derived.code); }
      if SnapshotHash(b.sha, derived.value) != body.decision.snapshotHash {
        mismatches := mismatches + [(index, SnapshotDoesNotFollow)];
        return;
      }
      snapshotsDerived := snapshotsDerived + 1;
      if body.decision.policyHash != b.policyHash {
        policyMismatch := policyMismatch + 1;
        return;
      }
      var again := Decide.Decide(body.envelope, derived.value, b);
      if again == body.decision {
        exact := exact + 1;
      } else if again.gate != body.decision.gate {
        gateMismatch := gateMismatch + 1;
      } else {
        mismatches := mismatches + [(index, DecisionDiffers)];
      }
    }
  }

  lemma ReplayStep(report: Report, records: seq<Record>, i: nat, state: LedgerState, b: Bundle)
    requires WellFormed(b.manifest) && i < |records|
    ensures ReplayFrom(report, records, i, state, b) ==
      var r := records[i];
      if !SafeNat(r.number) then Result.Ok(report.(ledgerProblems := report.ledgerProblems + [BadEvent(i, "bad_sequence")]))
      else match Counted(report, r, i, state, b)
        case Err(code) => Err(code)
        case Ok(counted) =>
          match Apply(state, Event(r.number, r.body), b.manifest.counters.Keys)
          case Err(code) => Result.Ok(counted.(ledgerProblems := counted.ledgerProblems + [BadEvent(i, code)]))
          case Ok(next) => ReplayFrom(counted, records, i + 1, next, b)
  {
    hide WellFormed, Apply, CheckDecision;
  }

  method Replay(records: seq<Record>, b: Bundle, sessionId: Option<string>, check: Option<Sign>)
    returns (r: Result<ReplayReport>)
    requires WellFormed(b.manifest)
    ensures match ReplayOf(records, b, sessionId, check)
      case Ok(report) => r.Ok? && fresh(r.value) && r.value.Contents() == report
      case Err(code) => r == Err(code)
  {
    hide WellFormed, Apply, CheckDecision, Problems, ReplayFrom, InitialState;
    var problems := VerifyChain(b.sha, check, records);
    var report := new ReplayReport(|records|, problems);
    if records == [] { return Result.Ok(report); }
    var names := b.manifest.counters.Keys;
    var initial := InitialState(SessionIdOf(records, sessionId), names);
    if initial.Err? {
      report.ledgerProblems := [BadSession(initial.code)];
      return Result.Ok(report);
    }
    r := ReplayAll(report, records, initial.value, b);
  }

  method ReplayAll(report: ReplayReport, records: seq<Record>, initial: LedgerState, b: Bundle) returns (r: Result<ReplayReport>)
    requires WellFormed(b.manifest)
    modifies report
    ensures match ReplayFrom(old(report.Contents()), records, 0, initial, b)
      case Ok(done) => r == Result.Ok(report) && report.Contents() == done
      case Err(code) => r == Err(code)
  {
    hide WellFormed, Apply, CheckDecision, ReplayFrom;
    ghost var whole := ReplayFrom(report.Contents(), records, 0, initial, b);
    var state := initial;
    for i := 0 to |records|
      invariant whole == ReplayFrom(report.Contents(), records, i, state, b)
    {
      var record := records[i];
      ReplayStep(report.Contents(), records, i, state, b);
      if !SafeNat(record.number) {
        report.ledgerProblems := report.ledgerProblems + [BadEvent(i, "bad_sequence")];
        return Result.Ok(report);
      }
      if record.body.Decided? {
        report.decisions := report.decisions + 1;
        var checked := report.Check(i, record.body, state, b);
        if checked.Err? { return Err(checked.code); }
      }
      var next := Apply(state, Event(record.number, record.body), b.manifest.counters.Keys);
      if next.Err? {
        report.ledgerProblems := report.ledgerProblems + [BadEvent(i, next.code)];
        return Result.Ok(report);
      }
      state := next.value;
    }
    NothingLeft(report.Contents(), records, state, b);
    r := Result.Ok(report);
  }

  lemma NothingLeft(report: Report, records: seq<Record>, state: LedgerState, b: Bundle)
    requires WellFormed(b.manifest)
    ensures ReplayFrom(report, records, |records|, state, b) == Result.Ok(report)
  {
    hide WellFormed;
  }
}
