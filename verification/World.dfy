/** All sessions at once: every call the gate offers keeps every session's log one that its events justify. */
module World {
  import opened Wrappers
  import opened Json
  import opened Manifest
  import opened Decide
  import opened BankServicing
  import opened Ledger
  import opened LedgerLaws
  import opened GateSpec
  import opened GateLog
  import opened GateLaws
  import opened GateRuns
  import opened BankRuns
  import opened Chain
  import opened ReplayLaws
  import opened Tokens
  import opened Shell
  import opened Store
  import opened Gate

  datatype GateCall =
    | OpenOn(sid: string, principal: string)
    | SubmitTo(sid: string, call: Call, nowMs: int)
    | CheckToken(token: Token, nowMs: int, pinned: bool)
    | SettleOn(sid: string, reservation: int, outcome: string)
    | SweepOn(sid: string, nowMs: int)
    | ApproveOn(sid: string, hash: string, approver: string)

  /** The views after one call of the gate. */
  function After(files: Files, views: Views, sign: Sign, call: GateCall, c: Config): Views
    requires WellFormed(c.bundle.manifest)
  {
    match call
    case OpenOn(sid, principal) => OpenCall(files, views, sid, principal, c).views
    case SubmitTo(sid, proposal, nowMs) => SubmitCall(files, views, sid, proposal, nowMs, c).views
    case CheckToken(token, nowMs, pinned) => CheckCall(files, views, sign, token, nowMs, pinned, c).views
    case SettleOn(sid, reservation, outcome) => SettleCall(files, views, sid, reservation, outcome, c).views
    case SweepOn(sid, nowMs) => SweepCall(files, views, sid, nowMs, c).views
    case ApproveOn(sid, hash, approver) => ApproveCall(files, views, sid, hash, approver, c).views
  }

  function AfterAll(files: Files, sign: Sign, calls: seq<GateCall>, c: Config): Views
    requires WellFormed(c.bundle.manifest)
  {
    if calls == [] then map[] else After(files, AfterAll(files, sign, calls[..|calls| - 1], c), sign, calls[|calls| - 1], c)
  }

  predicate AllGood(c: Config, views: Views)
    requires WellFormed(c.bundle.manifest)
  {
    forall sid :: sid in views ==> Good(c, sid, views[sid])
  }

  /** The files an earlier process of the same gate left behind. */
  ghost predicate GateFiles(c: Config, sign: Sign, files: Files)
    requires WellFormed(c.bundle.manifest)
  {
    forall sid :: sid in files ==> GateFile(c, sign, sid, files[sid])
  }

  ghost predicate GateFile(c: Config, sign: Sign, sid: string, records: seq<Record>)
    requires WellFormed(c.bundle.manifest)
  {
    exists v: View :: Good(c, sid, v) && records == SealAll(c.bundle.sha, Some(sign), v.log)
  }

  lemma LoadedGood(c: Config, sign: Sign, sid: string, records: seq<Record>)
    requires ValidConfig(c) && WellFormed(c.bundle.manifest) && GateFile(c, sign, sid, records)
    ensures LoadFile(c, sid, records).Ok? && Good(c, sid, LoadFile(c, sid, records).value)
  {
    hide WellFormed, ValidConfig, Good, LoadFile;
    var v: View :| Good(c, sid, v) && records == SealAll(c.bundle.sha, Some(sign), v.log);
    RestartRecovers(c, sid, sign, v);
  }

  lemma EmptyFileIsNew(c: Config, sid: string)
    ensures LoadFile(c, sid, []) == NewSession(sid, c)
  {
    hide InitialState;
    assert BodiesOf([]) == [];
  }

  lemma ExistingGood(c: Config, sign: Sign, files: Files, views: Views, sid: string)
    requires ValidConfig(c) && WellFormed(c.bundle.manifest) && GateFiles(c, sign, files) && AllGood(c, views)
    ensures Existing(files, views, sid, c).Ok? ==> Good(c, sid, Existing(files, views, sid, c).value)
    ensures Admitted(files, views, sid, c).Ok? ==> Good(c, sid, Admitted(files, views, sid, c).value)
  {
    hide WellFormed, ValidConfig, Good, LoadFile, NewSession, GateFile;
    if sid !in views && sid in files { LoadedGood(c, sign, sid, files[sid]); }
    EmptyFileIsNew(c, sid);
    if NewSession(sid, c).Ok? { NewSessionGood(c, sid); }
  }

  lemma OpenCallGood(c: Config, sign: Sign, files: Files, views: Views, sid: string, principal: string)
    requires ValidConfig(c) && WellFormed(c.bundle.manifest) && GateFiles(c, sign, files) && AllGood(c, views)
    ensures var call := OpenCall(files, views, sid, principal, c);
      AllGood(c, call.views) && (call.result.Ok? ==> Good(c, sid, call.result.value))
  {
    hide WellFormed, ValidConfig, Good, OpenStep, Admitted, GateFiles;
    ExistingGood(c, sign, files, views, sid);
    var v := Admitted(files, views, sid, c);
    if v.Ok? && OpenStep(v.value, principal, c).Ok? { OpenGood(c, sid, v.value, principal); }
  }

  lemma CallGood(c: Config, sign: Sign, files: Files, views: Views, call: GateCall)
    requires ValidConfig(c) && WellFormed(c.bundle.manifest) && GateFiles(c, sign, files) && AllGood(c, views)
    ensures AllGood(c, After(files, views, sign, call, c))
  {
    hide WellFormed, ValidConfig, Good, OpenCall, Existing, GateFiles, SubmitStep, RedeemStep, SettleStep, GrantStep,
         SweepFrom, Verify;
    match call {
      case OpenOn(sid, principal) => OpenCallGood(c, sign, files, views, sid, principal);
      case SubmitTo(sid, proposal, nowMs) =>
        OpenCallGood(c, sign, files, views, sid, proposal.principal);
        var entered := OpenCall(files, views, sid, proposal.principal, c);
        if entered.result.Ok? { SubmitGood(c, sid, entered.result.value, proposal, nowMs); }
      case CheckToken(token, nowMs, pinned) =>
        var p := Verify(sign, token, nowMs);
        if p.Ok? { ExistingGood(c, sign, files, views, p.value.sessionId); }
      case SettleOn(sid, reservation, outcome) =>
        ExistingGood(c, sign, files, views, sid);
        var v := Existing(files, views, sid, c);
        if v.Ok? && SettleStep(v.value, reservation, outcome, c).Ok? { SettleGood(c, sid, v.value, reservation, outcome); }
      case SweepOn(sid, nowMs) =>
        ExistingGood(c, sign, files, views, sid);
        var v := Existing(files, views, sid, c);
        if v.Ok? { SweepGood(c, sid, v.value, v.value.state.reserved, nowMs, []); }
      case ApproveOn(sid, hash, approver) =>
        OpenCallGood(c, sign, files, views, sid, approver);
        var entered := OpenCall(files, views, sid, approver, c);
        if entered.result.Ok? && GrantStep(entered.result.value, hash, approver, c).Ok? {
          GrantGood(c, sid, entered.result.value, hash, approver);
        }
    }
  }

  /** After any calls, on any sessions, in any order, across restarts, every session is good. */
  lemma {:induction false} AllCallsGood(c: Config, sign: Sign, files: Files, calls: seq<GateCall>)
    requires ValidConfig(c) && WellFormed(c.bundle.manifest) && GateFiles(c, sign, files)
    ensures AllGood(c, AfterAll(files, sign, calls, c))
  {
    hide WellFormed, ValidConfig, Good, GateFiles, After;
    if calls != [] {
      AllCallsGood(c, sign, files, calls[..|calls| - 1]);
      CallGood(c, sign, files, AfterAll(files, sign, calls[..|calls| - 1], c), calls[|calls| - 1]);
    }
  }

  /** The bank-servicing caps hold in every session of every such history. */
  lemma EverySessionIsCapped(c: Config, sign: Sign, files: Files, calls: seq<GateCall>, sid: string)
    requires ValidConfig(c) && WellFormed(c.bundle.manifest) && Bank(c.bundle) && GateFiles(c, sign, files)
    requires sid in AfterAll(files, sign, calls, c)
    ensures var v := AfterAll(files, sign, calls, c)[sid];
      && Get(Counters(v.state), REFUNDED) <= 500000
      && (NoGrants(v.log) ==> Get(Counters(v.state), REFUNDED) <= 50000)
  {
    hide WellFormed, ValidConfig, Good, GateFiles, AfterAll, Bank, Counters, NoGrants;
    AllCallsGood(c, sign, files, calls);
    RefundsAreCapped(c, sid, AfterAll(files, sign, calls, c)[sid]);
  }
}
