/** Whole runs of one session: any interleaving of the gate's atomic steps with tools running in between. */
module GateRuns {
  import opened Wrappers
  import opened Json
  import opened Syntax
  import opened Manifest
  import opened Canonical
  import opened Decide
  import opened BankServicing
  import opened Snapshots
  import opened Ledger
  import opened LedgerLaws
  import opened GateSpec
  import opened GateLog
  import opened GateLaws
  import opened Approvals
  import opened BankRuns

  /** Execution is two steps with the tool running in between; every other call is one step under the lock. */
  datatype Step =
    | Open(principal: string)
    | LateOpen(principal: string)
    | Submit(call: Call, nowMs: int)
    | Redeem(payload: TokenPayload, pinned: bool, nowMs: int)
    | Finish(index: nat, succeeded: bool)
    | Settle(reservation: int, outcome: string)
    | Sweep(nowMs: int)
    | Grant(hash: string, approver: string)

  /** The session, the jobs whose tools are running, and every job a runner was ever handed. */
  datatype Run = Run(view: View, running: seq<Job>, started: seq<Job>)

  function Keep(v: View, r: Result<View>): View {
    if r.Ok? then r.value else v
  }

  /** Redeeming a verified token's payload: the token's expiry is looked at before the session is. */
  function RedeemAt(v: View, payload: TokenPayload, pinned: bool, nowMs: int, c: Config): Result<Job>
    requires WellFormed(c.bundle.manifest)
  {
    if nowMs > payload.expiresMs then Err("token_expired") else RedeemStep(v, payload, pinned, c)
  }

  function Do(run: Run, step: Step, c: Config): Run
    requires WellFormed(c.bundle.manifest)
  {
    var v := run.view;
    match step
    case Open(principal) => run.(view := Keep(v, OpenStep(v, principal, c)))
    case LateOpen(principal) => run.(view := Keep(v, LateOpenStep(v, principal, c)))
    case Submit(call, nowMs) => run.(view := SubmitStep(v, call, nowMs, c).view)
    case Redeem(payload, pinned, nowMs) =>
      var job := RedeemAt(v, payload, pinned, nowMs, c);
      if job.Err? then run else Run(v, run.running + [job.value], run.started + [job.value])
    case Finish(index, succeeded) =>
      if index >= |run.running| then run
      else
        var outcome := if succeeded then COMMITTED else RELEASED;
        Run(Keep(v, SettleStep(v, run.running[index].reservation, outcome, c)),
            run.running[..index] + run.running[index + 1..], run.started)
    case Settle(reservation, outcome) => run.(view := Keep(v, SettleStep(v, reservation, outcome, c)))
    case Sweep(nowMs) => run.(view := SweepStep(v, nowMs, c).view)
    case Grant(hash, approver) => run.(view := Keep(v, GrantStep(v, hash, approver, c)))
  }

  function DoAll(run: Run, steps: seq<Step>, c: Config): Run
    requires WellFormed(c.bundle.manifest)
  {
    if steps == [] then run else Do(DoAll(run, steps[..|steps| - 1], c), steps[|steps| - 1], c)
  }

  function Start(sid: string, c: Config): Run
    requires NewSession(sid, c).Ok?
  {
    Run(NewSession(sid, c).value, [], [])
  }

  /** An open that lost a race changes nothing and is refused, with this code unless the log is full; otherwise it opens. */
  lemma LateOpenExact(c: Config, sid: string, v: View, principal: string)
    requires WellFormed(c.bundle.manifest) && Good(c, sid, v)
    ensures v.state.principal.None? ==> LateOpenStep(v, principal, c) == OpenStep(v, principal, c)
    ensures v.state.principal.Some? ==>
      LateOpenStep(v, principal, c) == Err(if |v.log| <= MAX_SAFE_INT then "session_already_open" else "bad_sequence")
  {
    hide WellFormed, Good, Sound, Fold;
    GoodWritten(c, sid, v);
    FoldSound(sid, v.log, CounterNames(c));
  }

  lemma StepGood(run: Run, step: Step, c: Config, sid: string)
    requires ValidConfig(c) && WellFormed(c.bundle.manifest) && Good(c, sid, run.view)
    ensures Good(c, sid, Do(run, step, c).view)
  {
    hide WellFormed, Good, ValidConfig, OpenStep, LateOpenStep, SubmitStep, RedeemStep, SettleStep, SweepFrom, GrantStep;
    var v := run.view;
    match step {
      case Open(principal) => if OpenStep(v, principal, c).Ok? { OpenGood(c, sid, v, principal); }
      case LateOpen(principal) =>
        LateOpenExact(c, sid, v, principal);
        if v.state.principal.None? && OpenStep(v, principal, c).Ok? { OpenGood(c, sid, v, principal); }
      case Submit(call, nowMs) => SubmitGood(c, sid, v, call, nowMs);
      case Redeem(_, _, _) =>
      case Finish(index, succeeded) =>
        if index < |run.running| {
          var outcome := if succeeded then COMMITTED else RELEASED;
          var id := run.running[index].reservation;
          if SettleStep(v, id, outcome, c).Ok? { SettleGood(c, sid, v, id, outcome); }
        }
      case Settle(reservation, outcome) =>
        if SettleStep(v, reservation, outcome, c).Ok? { SettleGood(c, sid, v, reservation, outcome); }
      case Sweep(nowMs) => SweepGood(c, sid, v, v.state.reserved, nowMs, []);
      case Grant(hash, approver) => if GrantStep(v, hash, approver, c).Ok? { GrantGood(c, sid, v, hash, approver); }
    }
  }

  /** In every run the cached state is the fold of the log, and the log is one whose every event the gate can justify. */
  lemma {:induction false} RunGood(sid: string, steps: seq<Step>, c: Config)
    requires ValidConfig(c) && WellFormed(c.bundle.manifest) && NewSession(sid, c).Ok?
    ensures Good(c, sid, DoAll(Start(sid, c), steps, c).view)
  {
    hide WellFormed, Good, ValidConfig, Do;
    if steps == [] {
      NewSessionGood(c, sid);
    } else {
      RunGood(sid, steps[..|steps| - 1], c);
      StepGood(DoAll(Start(sid, c), steps[..|steps| - 1], c), steps[|steps| - 1], c, sid);
    }
  }

  // ---- logs only grow ----

  lemma AppendExtends(v: View, body: Body, names: set<string>)
    ensures Append(v, body, names).Ok? ==> v.log <= Append(v, body, names).value.log
  {
  }

  lemma {:induction false} SweepExtends(v: View, pending: seq<Reservation>, nowMs: int, released: seq<int>, c: Config)
    ensures v.log <= SweepFrom(v, pending, nowMs, released, c).view.log
    decreases |pending|
  {
    hide Append;
    if pending != [] {
      var r := pending[0];
      var step := Append(v, Settled([], RELEASED, r.id), CounterNames(c));
      if r.expiresMs >= nowMs {
        SweepExtends(v, pending[1..], nowMs, released, c);
      } else if step.Ok? {
        AppendExtends(v, Settled([], RELEASED, r.id), CounterNames(c));
        SweepExtends(step.value, pending[1..], nowMs, released + [r.id], c);
      }
    }
  }

  lemma SubmitExtends(v: View, call: Call, nowMs: int, c: Config)
    requires WellFormed(c.bundle.manifest)
    ensures v.log <= SubmitStep(v, call, nowMs, c).view.log
  {
    hide WellFormed, Apply, Decide.Decide, SnapshotOf, ValidEnvelope, BudgetOf;
  }

  lemma StepExtends(run: Run, step: Step, c: Config)
    requires WellFormed(c.bundle.manifest)
    ensures run.view.log <= Do(run, step, c).view.log
  {
    hide WellFormed, Apply, SubmitStep, RedeemStep, SortedKeys, SweepFrom, RecordedEnvelope;
    match step {
      case Submit(call, nowMs) => SubmitExtends(run.view, call, nowMs, c);
      case Sweep(nowMs) => SweepExtends(run.view, run.view.state.reserved, nowMs, [], c);
      case _ =>
    }
  }

  // ---- what the runner was handed ----

  function Handed(jobs: seq<Job>, id: int): nat {
    if jobs == [] then 0 else Handed(jobs[..|jobs| - 1], id) + if jobs[|jobs| - 1].reservation == id then 1 else 0
  }

  lemma {:induction false} HandedIn(jobs: seq<Job>, id: int)
    ensures Handed(jobs, id) > 0 <==> exists j :: j in jobs && j.reservation == id
  {
    if jobs != [] {
      HandedIn(jobs[..|jobs| - 1], id);
      if j :| j in jobs && j.reservation == id {
        if j != jobs[|jobs| - 1] { assert j in jobs[..|jobs| - 1]; }
      }
    }
  }

  lemma WithoutBeforeLast(jobs: seq<Job>, index: nat)
    requires index < |jobs| - 1
    ensures var m := |jobs| - 1;
      jobs[..index] + jobs[index + 1..] == (jobs[..m][..index] + jobs[..m][index + 1..]) + [jobs[m]]
  {
  }

  lemma HandedLast(jobs: seq<Job>, id: int)
    requires jobs != []
    ensures var m := |jobs| - 1;
      Handed(jobs, id) == Handed(jobs[..m], id) + if jobs[m].reservation == id then 1 else 0
  {
  }

  lemma {:induction false} HandedWithout(jobs: seq<Job>, index: nat, id: int)
    requires index < |jobs|
    ensures Handed(jobs[..index] + jobs[index + 1..], id) == Handed(jobs, id) - if jobs[index].reservation == id then 1 else 0
  {
    hide Handed;
    var m := |jobs| - 1;
    HandedLast(jobs, id);
    if index == m {
      assert jobs[..index] + jobs[index + 1..] == jobs[..m];
    } else {
      HandedWithout(jobs[..m], index, id);
      WithoutBeforeLast(jobs, index);
      HandedOneMore(jobs[..m][..index] + jobs[..m][index + 1..], jobs[m], id);
    }
  }

  lemma HandedOneMore(jobs: seq<Job>, job: Job, id: int)
    ensures Handed(jobs + [job], id) == Handed(jobs, id) + if job.reservation == id then 1 else 0
  {
    assert (jobs + [job])[..|jobs|] == jobs;
  }

  /** A job comes from an ALLOW of exactly its action, whose reservation the log holds. */
  ghost predicate Checked(c: Config, v: View, job: Job)
    requires WellFormed(c.bundle.manifest)
  {
    && JobAt(c, v, job.reservation) == Some(job) && Opened(v.log, job.reservation) == 1
    && exists r: Reservation :: r.id == job.reservation && Vouched(c, v.log, r)
  }

  lemma VouchedStays(c: Config, log: seq<Body>, longer: seq<Body>, r: Reservation)
    requires WellFormed(c.bundle.manifest) && log <= longer && Vouched(c, log, r)
    ensures Vouched(c, longer, r)
  {
    hide WellFormed, ActionAt, ActionHash, BudgetReservation, ValidEnvelope;
    assert 0 <= r.id < |log| && longer[r.id] == log[r.id];
  }

  lemma JobStays(c: Config, v: View, w: View, id: int)
    requires WellFormed(c.bundle.manifest) && v.log <= w.log && JobAt(c, v, id).Some?
    ensures JobAt(c, w, id) == JobAt(c, v, id)
  {
    hide WellFormed, ActionAt, WireArguments, RenderableAction;
    assert 0 <= id < |v.log| && w.log[id] == v.log[id];
  }

  lemma {:induction false} OpenedMonotone(log: seq<Body>, n: nat, id: int)
    requires n <= |log|
    ensures Opened(log[..n], id) <= Opened(log, id)
  {
    if n == |log| {
      assert log[..n] == log;
    } else {
      assert log[..|log| - 1][..n] == log[..n];
      OpenedMonotone(log[..|log| - 1], n, id);
    }
  }

  lemma OpenedBound(c: Config, sid: string, v: View, id: int)
    requires WellFormed(c.bundle.manifest) && Good(c, sid, v)
    ensures SettledTimes(v.log, id) <= Opened(v.log, id) <= 1
    ensures Find(v.state.reserved, id).Some? <==> Opened(v.log, id) == 1 && SettledTimes(v.log, id) == 0
  {
    hide WellFormed, Good, Increasing;
    GoodWritten(c, sid, v);
    hide Fold, Written;
    ReservationsIncrease(c, sid, v.log);
    OpenedAtMostOnce(v.log, id);
    SettledOnce(sid, v.log, CounterNames(c), id);
  }

  lemma CheckedStays(c: Config, sid: string, v: View, w: View, job: Job)
    requires WellFormed(c.bundle.manifest) && Good(c, sid, w) && v.log <= w.log && Checked(c, v, job)
    ensures Checked(c, w, job)
  {
    hide WellFormed, Good, JobAt, Vouched;
    JobStays(c, v, w, job.reservation);
    var r: Reservation :| r.id == job.reservation && Vouched(c, v.log, r);
    VouchedStays(c, v.log, w.log, r);
    OpenedMonotone(w.log, |v.log|, job.reservation);
    OpenedBound(c, sid, w, job.reservation);
    assert w.log[..|v.log|] == v.log;
  }

  /** A redeemed job is a checked one, and its reservation is still open. */
  lemma RedeemedIsChecked(c: Config, sid: string, v: View, payload: TokenPayload, pinned: bool)
    requires WellFormed(c.bundle.manifest) && Good(c, sid, v) && RedeemStep(v, payload, pinned, c).Ok?
    ensures var job := RedeemStep(v, payload, pinned, c).value;
      Checked(c, v, job) && job.reservation == payload.reservation && SettledTimes(v.log, job.reservation) == 0
  {
    hide WellFormed, Good, JobAt, Vouched, RedeemStep;
    RedeemExact(c, sid, v, payload, pinned);
    JobNames(c, v, payload.reservation);
    OpenReservationsVouched(c, sid, v);
    FindIn(v.state.reserved, payload.reservation);
    OpenedBound(c, sid, v, payload.reservation);
  }

  lemma JobNames(c: Config, v: View, id: int)
    requires WellFormed(c.bundle.manifest)
    ensures JobAt(c, v, id).Some? ==> JobAt(c, v, id).value.reservation == id
  {
    hide WellFormed, ActionAt, WireArguments, RenderableAction;
  }

  lemma StepChecked(run: Run, step: Step, c: Config, sid: string)
    requires ValidConfig(c) && WellFormed(c.bundle.manifest) && Good(c, sid, run.view)
    requires forall j :: j in run.started ==> Checked(c, run.view, j)
    requires forall j :: j in run.running ==> j in run.started
    ensures var next := Do(run, step, c);
      && (forall j :: j in next.started ==> Checked(c, next.view, j))
      && (forall j :: j in next.running ==> j in next.started)
  {
    hide WellFormed, Good, ValidConfig, Checked, OpenStep, LateOpenStep, SubmitStep, RedeemStep, SettleStep, SweepStep, GrantStep;
    var next := Do(run, step, c);
    StepGood(run, step, c, sid);
    StepExtends(run, step, c);
    forall j | j in run.started ensures Checked(c, next.view, j) { CheckedStays(c, sid, run.view, next.view, j); }
    if step.Redeem? && RedeemAt(run.view, step.payload, step.pinned, step.nowMs, c).Ok? {
      RedeemedIsChecked(c, sid, run.view, step.payload, step.pinned);
    }
  }

  /** In every interleaving, each runner got the wire arguments of an action the gate had allowed, and nothing else. */
  lemma {:induction false} RunnersGetWhatWasChecked(sid: string, steps: seq<Step>, c: Config)
    requires ValidConfig(c) && WellFormed(c.bundle.manifest) && NewSession(sid, c).Ok?
    ensures var run := DoAll(Start(sid, c), steps, c);
      && (forall j :: j in run.started ==> Checked(c, run.view, j))
      && (forall j :: j in run.running ==> j in run.started)
  {
    hide WellFormed, Good, ValidConfig, Do, Checked;
    if steps != [] {
      RunnersGetWhatWasChecked(sid, steps[..|steps| - 1], c);
      RunGood(sid, steps[..|steps| - 1], c);
      StepChecked(DoAll(Start(sid, c), steps[..|steps| - 1], c), steps[|steps| - 1], c, sid);
    }
  }

  // ---- a token runs once ----

  lemma SettleApplies(s: LedgerState, at: nat, labels: seq<string>, outcome: string, id: int, names: set<string>)
    requires s.number == at && s.principal.Some? && (forall l :: l in labels ==> IsName(l))
    requires outcome == COMMITTED || (outcome == RELEASED && labels == [])
    ensures Apply(s, Event(at, Settled(labels, outcome, id)), names).Ok? <==> Find(s.reserved, id).Some?
  {
    hide IsName;
  }

  lemma ResultLabelsAreNames(m: Manifest, tool: string)
    requires WellFormed(m) && tool in m.tools
    ensures forall l :: l in SortedKeys(m.tools[tool].resultLabels) ==> IsName(l)
  {
    hide WellFormedKind, BudgetKind, ResourceKind, IsName;
    assert WellFormedTool(m, m.tools[tool]);
  }

  lemma JobRecord(c: Config, v: View, id: int)
    requires WellFormed(c.bundle.manifest) && JobAt(c, v, id).Some?
    ensures RecordedEnvelope(v, id).Some? && RecordedEnvelope(v, id).value.tool in c.bundle.manifest.tools
            && v.log != []
  {
    hide WellFormed, WireArguments, RenderableAction;
  }

  lemma OpenedPrincipal(c: Config, sid: string, v: View)
    requires WellFormed(c.bundle.manifest) && Good(c, sid, v) && v.log != []
    ensures v.state.principal.Some? && v.state.number == |v.log|
  {
    hide WellFormed, Good, Sound, Fold;
    GoodWritten(c, sid, v);
    FoldSound(sid, v.log, CounterNames(c));
  }

  /** Settling a job, after success or failure, works exactly when nothing has settled it before. */
  lemma FinishSettles(c: Config, sid: string, v: View, job: Job, succeeded: bool)
    requires WellFormed(c.bundle.manifest) && Good(c, sid, v) && Checked(c, v, job) && |v.log| <= MAX_SAFE_INT
    ensures var step := SettleStep(v, job.reservation, if succeeded then COMMITTED else RELEASED, c);
      && (step.Ok? <==> SettledTimes(v.log, job.reservation) == 0)
      && (step.Ok? ==> SettledTimes(step.value.log, job.reservation) == 1)
  {
    hide WellFormed, Good, JobAt, Vouched, SortedKeys, Apply;
    var id, outcome := job.reservation, if succeeded then COMMITTED else RELEASED;
    JobRecord(c, v, id);
    OpenedPrincipal(c, sid, v);
    OpenedBound(c, sid, v, id);
    var tool := RecordedEnvelope(v, id).value.tool;
    ResultLabelsAreNames(c.bundle.manifest, tool);
    var labels := if succeeded then SortedKeys(c.bundle.manifest.tools[tool].resultLabels) else [];
    SettleApplies(v.state, |v.log|, labels, outcome, id, CounterNames(c));
    assert (v.log + [Settled(labels, outcome, id)])[..|v.log|] == v.log;
  }

  predicate OverlapAt(run: Run, step: Step, id: int, c: Config)
    requires WellFormed(c.bundle.manifest)
  {
    && step.Redeem? && step.payload.reservation == id && RedeemAt(run.view, step.payload, step.pinned, step.nowMs, c).Ok?
    && Handed(run.running, id) > 0
  }

  /** Some redemption of the reservation succeeds while a runner of the same reservation is still at work. */
  predicate Overlaps(run: Run, steps: seq<Step>, id: int, c: Config)
    requires WellFormed(c.bundle.manifest)
  {
    exists n :: 0 <= n < |steps| && OverlapAt(DoAll(run, steps[..n], c), steps[n], id, c)
  }

  predicate Once(run: Run, id: int) {
    && Handed(run.running, id) <= Handed(run.started, id) <= 1
    && (Handed(run.started, id) == 1 ==> Handed(run.running, id) == 1 || SettledTimes(run.view.log, id) == 1)
  }

  ghost predicate AllChecked(c: Config, run: Run)
    requires WellFormed(c.bundle.manifest)
  {
    && (forall j :: j in run.started ==> Checked(c, run.view, j))
    && (forall j :: j in run.running ==> j in run.started)
  }

  lemma SettledGrows(c: Config, sid: string, v: View, w: View, id: int)
    requires WellFormed(c.bundle.manifest) && Good(c, sid, w) && v.log <= w.log
    ensures SettledTimes(v.log, id) <= SettledTimes(w.log, id) <= 1
  {
    hide WellFormed, Good;
    SettledMonotone(w.log, |v.log|, id);
    assert w.log[..|v.log|] == v.log;
    OpenedBound(c, sid, w, id);
  }

  lemma StepOnce(run: Run, step: Step, c: Config, sid: string, id: int)
    requires ValidConfig(c) && WellFormed(c.bundle.manifest) && Good(c, sid, run.view) && AllChecked(c, run)
             && Once(run, id)
    requires !OverlapAt(run, step, id, c) && |run.view.log| <= MAX_SAFE_INT
    ensures Once(Do(run, step, c), id)
  {
    hide WellFormed, Good, ValidConfig, Checked, OpenStep, LateOpenStep, SubmitStep, RedeemStep, SettleStep, SweepStep, GrantStep,
         SettledTimes, Handed;
    var next := Do(run, step, c);
    StepGood(run, step, c, sid);
    StepExtends(run, step, c);
    SettledGrows(c, sid, run.view, next.view, id);
    if step.Redeem? && RedeemAt(run.view, step.payload, step.pinned, step.nowMs, c).Ok? {
      var job := RedeemAt(run.view, step.payload, step.pinned, step.nowMs, c).value;
      RedeemedIsChecked(c, sid, run.view, step.payload, step.pinned);
      HandedOneMore(run.running, job, id);
      HandedOneMore(run.started, job, id);
    }
    if step.Finish? && step.index < |run.running| {
      var job := run.running[step.index];
      HandedWithout(run.running, step.index, id);
      assert job in run.started;
      FinishSettles(c, sid, run.view, job, step.succeeded);
    }
  }

  lemma {:induction false} NoOverlapOnce(sid: string, steps: seq<Step>, c: Config, id: int)
    requires ValidConfig(c) && WellFormed(c.bundle.manifest) && NewSession(sid, c).Ok?
    requires |DoAll(Start(sid, c), steps, c).view.log| <= MAX_SAFE_INT && !Overlaps(Start(sid, c), steps, id, c)
    ensures Once(DoAll(Start(sid, c), steps, c), id)
  {
    hide WellFormed, Good, ValidConfig, Do, Checked, OverlapAt, NewSession;
    if steps != [] {
      var m := |steps| - 1;
      var run := DoAll(Start(sid, c), steps[..m], c);
      StepExtends(run, steps[m], c);
      EarlierOverlap(Start(sid, c), steps, id, c);
      NoOverlapOnce(sid, steps[..m], c, id);
      RunGood(sid, steps[..m], c);
      RunnersGetWhatWasChecked(sid, steps[..m], c);
      StepOnce(run, steps[m], c, sid, id);
    }
  }

  lemma EarlierOverlap(run: Run, steps: seq<Step>, id: int, c: Config)
    requires WellFormed(c.bundle.manifest) && steps != []
    ensures var m := |steps| - 1;
      Overlaps(run, steps, id, c) <==>
      Overlaps(run, steps[..m], id, c) || OverlapAt(DoAll(run, steps[..m], c), steps[m], id, c)
  {
    hide WellFormed, Do, OverlapAt, DoAll;
    var m := |steps| - 1;
    forall n | 0 <= n < m ensures steps[..m][..n] == steps[..n] && steps[..m][n] == steps[n] {}
  }

  lemma StepHandsMore(run: Run, step: Step, c: Config, id: int)
    requires WellFormed(c.bundle.manifest)
    ensures Handed(run.started, id) <= Handed(Do(run, step, c).started, id)
    ensures Handed(run.running, id) <= Handed(run.started, id) ==>
              Handed(Do(run, step, c).running, id) <= Handed(Do(run, step, c).started, id)
    ensures OverlapAt(run, step, id, c) && Handed(run.running, id) <= Handed(run.started, id) ==>
              Handed(Do(run, step, c).started, id) >= 2
  {
    hide WellFormed, OpenStep, LateOpenStep, SubmitStep, RedeemStep, SettleStep, SweepStep, GrantStep, Handed;
    if step.Redeem? && RedeemAt(run.view, step.payload, step.pinned, step.nowMs, c).Ok? {
      var job := RedeemAt(run.view, step.payload, step.pinned, step.nowMs, c).value;
      RedeemNames(run.view, step.payload, step.pinned, c);
      HandedOneMore(run.running, job, id);
      HandedOneMore(run.started, job, id);
    }
    if step.Finish? && step.index < |run.running| { HandedWithout(run.running, step.index, id); }
  }

  lemma RedeemNames(v: View, payload: TokenPayload, pinned: bool, c: Config)
    requires WellFormed(c.bundle.manifest)
    ensures RedeemStep(v, payload, pinned, c).Ok? ==> RedeemStep(v, payload, pinned, c).value.reservation == payload.reservation
  {
    hide WellFormed, ActionHash, Canonicalize, ValidEnvelope, WireArguments, RenderableAction;
  }

  lemma {:induction false} OverlapTwice(run: Run, steps: seq<Step>, c: Config, id: int)
    requires WellFormed(c.bundle.manifest) && Handed(run.running, id) <= Handed(run.started, id)
    ensures var end := DoAll(run, steps, c);
      && Handed(end.running, id) <= Handed(end.started, id)
      && (Overlaps(run, steps, id, c) ==> Handed(end.started, id) >= 2)
  {
    hide WellFormed, Do, OverlapAt, Handed;
    if steps != [] {
      var m := |steps| - 1;
      OverlapTwice(run, steps[..m], c, id);
      EarlierOverlap(run, steps, id, c);
      StepHandsMore(DoAll(run, steps[..m], c), steps[m], c, id);
    }
  }

  /**
   * A token's runner runs at most once exactly when no two executions of the token overlap: the check and the
   * settlement are atomic, but the tool runs between them. (The log has room for the settlement.)
   */
  lemma RunsOnceIffNoOverlap(sid: string, steps: seq<Step>, c: Config, id: int)
    requires ValidConfig(c) && WellFormed(c.bundle.manifest) && NewSession(sid, c).Ok?
    requires |DoAll(Start(sid, c), steps, c).view.log| <= MAX_SAFE_INT
    ensures Handed(DoAll(Start(sid, c), steps, c).started, id) <= 1 <==> !Overlaps(Start(sid, c), steps, id, c)
  {
    hide WellFormed, ValidConfig, Do, OverlapAt, Overlaps, NewSession;
    OverlapTwice(Start(sid, c), steps, c, id);
    if !Overlaps(Start(sid, c), steps, id, c) { NoOverlapOnce(sid, steps, c, id); }
  }

  lemma FullLogRefuses(v: View, reservation: int, outcome: string, c: Config)
    requires |v.log| > MAX_SAFE_INT
    ensures SettleStep(v, reservation, outcome, c).Err?
  {
    hide Apply, SortedKeys;
  }

  lemma OneMoreStep(run: Run, steps: seq<Step>, step: Step, c: Config)
    requires WellFormed(c.bundle.manifest)
    ensures DoAll(run, steps + [step], c) == Do(DoAll(run, steps, c), step, c)
    ensures forall id :: Overlaps(run, steps + [step], id, c) <==>
              Overlaps(run, steps, id, c) || OverlapAt(DoAll(run, steps, c), step, id, c)
  {
    hide WellFormed, Do, OverlapAt, Overlaps;
    var more := steps + [step];
    assert more[..|more| - 1] == steps;
    forall id ensures Overlaps(run, more, id, c) <==> Overlaps(run, steps, id, c) || OverlapAt(DoAll(run, steps, c), step, id, c) {
      EarlierOverlap(run, more, id, c);
    }
  }

  /** The token was minted in this run and its reservation has not been settled. */
  predicate OpenToken(run: Run, p: TokenPayload) {
    MintedIn(run.view.log, p) && SettledTimes(run.view.log, p.reservation) == 0
  }

  /** An open token redeems up to and including its expiry, and not after it. */
  lemma OpenTokenRedeems(c: Config, sid: string, run: Run, p: TokenPayload, nowMs: int)
    requires WellFormed(c.bundle.manifest) && Good(c, sid, run.view) && OpenToken(run, p)
    ensures var job := JobAt(c, run.view, p.reservation);
      && job.Some? && job.value.reservation == p.reservation
      && RedeemAt(run.view, p, true, nowMs, c) == (if nowMs > p.expiresMs then Err("token_expired") else Ok(job.value))
      && Do(run, Redeem(p, true, nowMs), c) ==
         if nowMs > p.expiresMs then run else Run(run.view, run.running + [job.value], run.started + [job.value])
  {
    hide WellFormed, Good, RedeemStep, JobAt, SettledTimes;
    MintedRedeems(c, sid, run.view, p, true);
    JobNames(c, run.view, p.reservation);
  }

  /** Until it expires, every open token can be redeemed again while its runner is at work: none is single use by itself. */
  lemma OpenTokenOverlaps(sid: string, steps: seq<Step>, c: Config, p: TokenPayload, nowMs: int, laterMs: int)
    requires ValidConfig(c) && WellFormed(c.bundle.manifest) && NewSession(sid, c).Ok?
    requires OpenToken(DoAll(Start(sid, c), steps, c), p) && nowMs <= p.expiresMs && laterMs <= p.expiresMs
    ensures var more := steps + [Redeem(p, true, nowMs)] + [Redeem(p, true, laterMs)];
      && Overlaps(Start(sid, c), more, p.reservation, c)
      && Handed(DoAll(Start(sid, c), more, c).started, p.reservation) ==
         Handed(DoAll(Start(sid, c), steps, c).started, p.reservation) + 2
  {
    hide WellFormed, ValidConfig, NewSession, Good, Do, DoAll, Overlaps, JobAt, RedeemAt, Handed, MintedIn, SettledTimes;
    var run, id := DoAll(Start(sid, c), steps, c), p.reservation;
    RunGood(sid, steps, c);
    OneMoreStep(Start(sid, c), steps, Redeem(p, true, nowMs), c);
    OneMoreStep(Start(sid, c), steps + [Redeem(p, true, nowMs)], Redeem(p, true, laterMs), c);
    OpenTokenRedeems(c, sid, run, p, nowMs);
    var job := JobAt(c, run.view, id).value;
    var once := Run(run.view, run.running + [job], run.started + [job]);
    OpenTokenRedeems(c, sid, once, p, laterMs);
    HandedOneMore(run.running, job, id);
    HandedOneMore(run.started, job, id);
    HandedOneMore(once.started, job, id);
  }

  lemma LastIsRemoved(jobs: seq<Job>, job: Job)
    ensures var more := jobs + [job]; more[..|jobs|] + more[|jobs| + 1..] == jobs && more[|jobs|] == job
  {
  }

  /**
   * The bound on the log is needed: a full log refuses every settlement, so each of its open tokens redeems again and again
   * until it expires.
   */
  lemma FullLogRunsAgain(sid: string, steps: seq<Step>, c: Config, p: TokenPayload, nowMs: int, laterMs: int)
    requires ValidConfig(c) && WellFormed(c.bundle.manifest) && NewSession(sid, c).Ok?
    requires var run := DoAll(Start(sid, c), steps, c);
      OpenToken(run, p) && |run.view.log| > MAX_SAFE_INT && Handed(run.running, p.reservation) == 0
    requires nowMs <= p.expiresMs && laterMs <= p.expiresMs
    ensures var run := DoAll(Start(sid, c), steps, c);
      var more := steps + [Redeem(p, true, nowMs)] + [Finish(|run.running|, true)] + [Redeem(p, true, laterMs)];
      && Handed(DoAll(Start(sid, c), more, c).started, p.reservation) == Handed(run.started, p.reservation) + 2
      && (Overlaps(Start(sid, c), more, p.reservation, c) <==> Overlaps(Start(sid, c), steps, p.reservation, c))
  {
    hide WellFormed, ValidConfig, NewSession, Good, DoAll, Overlaps, JobAt, RedeemAt, SettleStep, Handed, MintedIn, SettledTimes;
    var start, run, id := Start(sid, c), DoAll(Start(sid, c), steps, c), p.reservation;
    RunGood(sid, steps, c);
    OneMoreStep(start, steps, Redeem(p, true, nowMs), c);
    OneMoreStep(start, steps + [Redeem(p, true, nowMs)], Finish(|run.running|, true), c);
    OneMoreStep(start, steps + [Redeem(p, true, nowMs)] + [Finish(|run.running|, true)], Redeem(p, true, laterMs), c);
    OpenTokenRedeems(c, sid, run, p, nowMs);
    var job := JobAt(c, run.view, id).value;
    var settled := Run(run.view, run.running, run.started + [job]);
    FullLogRefuses(run.view, job.reservation, COMMITTED, c);
    LastIsRemoved(run.running, job);
    OpenTokenRedeems(c, sid, settled, p, laterMs);
    HandedOneMore(run.started, job, id);
    HandedOneMore(settled.started, job, id);
  }

  // ---- a full log can be reached ----

  lemma GrantOnly(run: Run, hash: string, approver: string, c: Config)
    requires WellFormed(c.bundle.manifest) && IsHash(hash) && IsId(approver)
    requires run.view.state.principal.Some? && run.view.state.number == |run.view.log| <= MAX_SAFE_INT
    ensures var next := Do(run, Grant(hash, approver), c);
      && next.running == run.running && next.started == run.started && next.view.log == run.view.log + [ApprovalGranted(hash, approver)]
      && next.view.state == run.view.state.(number := run.view.state.number + 1, approvals := run.view.state.approvals + {hash})
  {
    hide WellFormed, IsHash, IsId;
  }

  lemma GrantKeepsToken(run: Run, next: Run, p: TokenPayload, hash: string, approver: string)
    requires OpenToken(run, p) && next.view.log == run.view.log + [ApprovalGranted(hash, approver)]
    ensures OpenToken(next, p)
  {
    var i :| 0 <= i < |run.view.log| && Opens(run.view.log[i], p);
    assert Opens(next.view.log[i], p);
    assert next.view.log[..|run.view.log|] == run.view.log;
  }

  /** Approvals alone fill any opened session's log, and leave its tokens and its runners as they are. */
  lemma {:induction false} GrantsFill(sid: string, steps: seq<Step>, c: Config, p: TokenPayload, hash: string, approver: string)
    returns (more: seq<Step>)
    requires ValidConfig(c) && WellFormed(c.bundle.manifest) && NewSession(sid, c).Ok? && IsHash(hash) && IsId(approver)
    requires OpenToken(DoAll(Start(sid, c), steps, c), p)
    ensures var run, full := DoAll(Start(sid, c), steps, c), DoAll(Start(sid, c), more, c);
      && |full.view.log| == MAX_SAFE_INT + 1 && OpenToken(full, p) && full.running == run.running && full.started == run.started
      && (Overlaps(Start(sid, c), more, p.reservation, c) <==> Overlaps(Start(sid, c), steps, p.reservation, c))
    decreases MAX_SAFE_INT + 1 - |DoAll(Start(sid, c), steps, c).view.log|
  {
    hide WellFormed, ValidConfig, NewSession, Good, DoAll, Do, Overlaps, OpenToken, IsHash, IsId;
    var start, run := Start(sid, c), DoAll(Start(sid, c), steps, c);
    RunGood(sid, steps, c);
    OpenTokenOpened(c, sid, run, p);
    if |run.view.log| == MAX_SAFE_INT + 1 {
      more := steps;
    } else {
      var grant := Grant(hash, approver);
      OneMoreStep(start, steps, grant, c);
      GrantOnly(run, hash, approver, c);
      GrantKeepsToken(run, Do(run, grant, c), p, hash, approver);
      more := GrantsFill(sid, steps + [grant], c, p, hash, approver);
    }
  }

  lemma OpenTokenOpened(c: Config, sid: string, run: Run, p: TokenPayload)
    requires WellFormed(c.bundle.manifest) && Good(c, sid, run.view) && OpenToken(run, p)
    ensures run.view.state.principal.Some? && run.view.state.number == |run.view.log| <= MAX_SAFE_INT + 1
  {
    hide WellFormed, Good, SettledTimes;
    OpenedPrincipal(c, sid, run.view);
    GoodWritten(c, sid, run.view);
    hide Fold;
  }
}
