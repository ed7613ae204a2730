/** Runs of the bank-servicing gate, from its first call, in which what its documentation promises fails. */
module Witnesses {
  import opened Wrappers
  import opened Json
  import opened Syntax
  import opened Manifest
  import opened Canonical
  import opened Decide
  import opened BankServicing
  import opened Snapshots
  import opened Ledger
  import opened LedgerLaws
  import opened GateSpec
  import opened GateLog
  import opened GateLaws
  import opened GateRuns
  import opened BankRuns
  import opened Sweeping
  import opened Payouts
  import opened Refunds

  // ---- a session of refunds ----

  /** Nothing committed, tainted or approved; this much is reserved, by tokens that expire by this time. */
  predicate Calm(s: LedgerState, sid: string, spent: nat, expiry: int) {
    && Spending(s, sid, spent) && s.labels == {} && s.approvals == {} && s.committed == map[REFUNDED := 0]
    && forall r :: r in s.reserved ==> 0 <= r.id < s.number && r.expiresMs <= expiry
  }

  lemma CalmSpends(s: LedgerState, sid: string, spent: nat, expiry: int)
    requires Calm(s, sid, spent, expiry)
    ensures Spending(s, sid, spent) && s.approvals == {} && Counters(s) == map[REFUNDED := spent]
  {
    hide IsId, Counters;
  }

  lemma {:induction false} InsertLast(r: Reservation, reserved: seq<Reservation>)
    requires forall x :: x in reserved ==> x.id < r.id
    ensures Insert(r, reserved) == reserved + [r]
  {
    if reserved != [] {
      assert reserved[0] in reserved;
      InsertLast(r, reserved[1..]);
      assert reserved == [reserved[0]] + reserved[1..];
    }
  }

  lemma AddedLast(totals: map<string, int>, reserved: seq<Reservation>, r: Reservation)
    ensures AddAll(totals, reserved + [r]) == Add(AddAll(totals, reserved), r.deltas)
  {
    assert (reserved + [r])[..|reserved|] == reserved;
  }

  lemma AddOneName(name: string, x: int, y: int)
    ensures Add(map[name := x], map[name := y]) == map[name := x + y]
  {
  }

  lemma CalmRefund(s: LedgerState, sid: string, spent: nat, expiry: int, r: Reservation)
    requires Calm(s, sid, spent, expiry) && s.number + 2 <= MAX_SAFE_INT
    requires r.id == s.number && r.deltas == map[REFUNDED := MINOR_UNITS] && r.expiresMs <= expiry
    ensures WithRefund(s, r).reserved == s.reserved + [r] && WithRefund(s, r).number == s.number + 2
    ensures Calm(WithRefund(s, r), sid, spent + MINOR_UNITS, expiry)
    ensures Find(s.reserved, r.id).None? && Find(WithRefund(s, r).reserved, r.id) == Some(r)
  {
    hide IsId, Insert, Find, Add, AddAll;
    InsertLast(r, s.reserved);
    AddedLast(s.committed, s.reserved, r);
    AddOneName(REFUNDED, spent, MINOR_UNITS);
    FoundLast(s.reserved, r);
  }

  lemma FoundLast(reserved: seq<Reservation>, r: Reservation)
    requires forall x :: x in reserved ==> x.id < r.id
    ensures Find(reserved, r.id).None? && Find(reserved + [r], r.id) == Some(r)
  {
    hide Find;
    FindIn(reserved, r.id);
    FindIn(reserved + [r], r.id);
    assert r in reserved + [r];
  }

  /** So far the run has only refunds, each handed to one runner and together of this amount. */
  ghost predicate Paying(sid: string, run: Run, spent: nat, expiry: int, paid: int) {
    && Calm(run.view.state, sid, spent, expiry) && run.view.state.number == |run.view.log| && NoGrants(run.view.log)
    && (forall j :: j in run.started ==> j.reservation < |run.view.log|) && (forall id :: Handed(run.started, id) <= 1)
    && PaidOut(run.started) == paid
  }

  lemma FirstView(sid: string, c: Config)
    requires NewSession(sid, c).Ok? && CounterNames(c) == {REFUNDED}
    ensures IsId(sid)
    ensures OpenStep(NewSession(sid, c).value, AGENT, c) ==
            Ok(View(LedgerState(sid, Some(AGENT), 1, {}, map[REFUNDED := 0], [], {}), [SessionOpened(AGENT, sid)]))
  {
    hide IsId;
    AccountNames();
    assert NewSession(sid, c).value.state.committed == map[REFUNDED := 0];
    var opening := SessionOpened(AGENT, sid);
    assert [] + [opening] == [opening];
  }

  lemma OpenedRun(sid: string, c: Config)
    requires WellFormed(c.bundle.manifest) && Bank(c.bundle) && NewSession(sid, c).Ok?
    ensures var run := DoAll(Start(sid, c), [Step.Open(AGENT)], c);
      Paying(sid, run, 0, 0, 0) && |run.view.log| == 1 && run.view.state.reserved == [] && run.running == [] && run.started == []
  {
    hide WellFormed, Bank, IsId, CounterNames, NewSession, OpenStep, Overlaps;
    BankCounters(c);
    FirstView(sid, c);
    OneMoreStep(Start(sid, c), [], Step.Open(AGENT), c);
    assert [] + [Step.Open(AGENT)] == [Step.Open(AGENT)];
  }

  lemma BankCounters(c: Config)
    requires Bank(c.bundle)
    ensures CounterNames(c) == {REFUNDED}
  {
  }

  lemma {:induction false} NewlyHanded(jobs: seq<Job>, job: Job)
    requires (forall j :: j in jobs ==> j.reservation < job.reservation) && forall id :: Handed(jobs, id) <= 1
    ensures forall id :: Handed(jobs + [job], id) <= 1
  {
    hide Handed;
    forall id ensures Handed(jobs + [job], id) <= 1 {
      HandedOneMore(jobs, job, id);
      HandedIn(jobs, id);
    }
  }

  lemma PaidOneMore(jobs: seq<Job>, job: Job)
    ensures PaidOut(jobs + [job]) == PaidOut(jobs) + Payout(job)
  {
    hide Payout;
    assert (jobs + [job])[..|jobs|] == jobs;
  }

  /** The refund's token redeems at once, to a job that tells its runner to pay its amount. */
  lemma RefundRedeems(c: Config, sid: string, v: View, p: TokenPayload, nowMs: int)
    requires WellFormed(c.bundle.manifest) && Bank(c.bundle) && Good(c, sid, v) && 0 <= p.reservation < |v.log|
    requires v.log[p.reservation].Decided? && v.log[p.reservation].envelope == RefundEnvelope(sid, nowMs)
    requires Find(v.state.reserved, p.reservation).Some? && Find(v.state.reserved, p.reservation).value.actionHash == p.actionHash
    ensures RedeemStep(v, p, true, c).Ok?
    ensures var job := RedeemStep(v, p, true, c).value; job.reservation == p.reservation && Payout(job) == MINOR_UNITS
  {
    hide WellFormed, Bank, Good, RedeemStep, JobAt, Payout, BudgetOf, Find;
    RedeemExact(c, sid, v, p, true);
    JobNames(c, v, p.reservation);
    PayoutIsBudget(c, v, JobAt(c, v, p.reservation).value);
    RefundReserves(c, sid, nowMs);
  }

  lemma NoGrantsAfter(log: seq<Body>, more: seq<Body>)
    requires NoGrants(log) && log <= more && forall i :: |log| <= i < |more| ==> !more[i].ApprovalGranted?
    ensures NoGrants(more)
  {
    forall b | b in more ensures !b.ApprovalGranted? {
      var i :| 0 <= i < |more| && more[i] == b;
      if i < |log| { assert log[i] in log; }
    }
  }

  /** One more refund, submitted and handed to its runner. */
  lemma RefundRound(sid: string, steps: seq<Step>, c: Config, nowMs: int, spent: nat, expiry: int, paid: int) returns (more: seq<Step>)
    requires ValidConfig(c) && WellFormed(c.bundle.manifest) && Bank(c.bundle) && NewSession(sid, c).Ok?
    requires Paying(sid, DoAll(Start(sid, c), steps, c), spent, expiry, paid) && spent + MINOR_UNITS <= 50000
    requires |DoAll(Start(sid, c), steps, c).view.log| + 2 <= MAX_SAFE_INT
    requires SafeNat(nowMs) && c.ttlMs >= 0 && SafeNat(nowMs + c.ttlMs) && nowMs + c.ttlMs <= expiry
    ensures var run, next := DoAll(Start(sid, c), steps, c), DoAll(Start(sid, c), more, c);
      && Paying(sid, next, spent + MINOR_UNITS, expiry, paid + MINOR_UNITS)
      && |next.view.log| == |run.view.log| + 2 && |next.view.state.reserved| == |run.view.state.reserved| + 1
  {
    hide WellFormed, ValidConfig, Bank, NewSession, Good, DoAll, SubmitStep, RedeemStep, Handed, PaidOut, Payout, Calm, NoGrants, Find,
         WithRefund, RefundHash;
    var start, run := Start(sid, c), DoAll(Start(sid, c), steps, c);
    var v, n := run.view, |run.view.log|;
    var p := RefundToken(c, sid, n, nowMs);
    var submit, redeem := Submit(REFUND_CALL, nowMs), Redeem(p, true, nowMs);
    var r := RefundReservation(c, sid, n, nowMs);
    more := steps + [submit] + [redeem];
    OneMoreStep(start, steps, submit, c);
    OneMoreStep(start, steps + [submit], redeem, c);
    CalmRefund(v.state, sid, spent, expiry, r);
    CalmSpends(v.state, sid, spent, expiry);
    RefundSubmits(c, sid, v, nowMs, spent);
    var w := SubmitStep(v, REFUND_CALL, nowMs, c).view;
    RunGood(sid, steps + [submit], c);
    RefundRedeems(c, sid, w, p, nowMs);
    var job := RedeemStep(w, p, true, c).value;
    NoGrantsAfter(v.log, w.log);
    NewlyHanded(run.started, job);
    PaidOneMore(run.started, job);
  }

  // ---- swept while running ----

  lemma {:induction false} AllExpired(reserved: seq<Reservation>, nowMs: int)
    requires forall r :: r in reserved ==> r.expiresMs < nowMs
    ensures Unexpired(reserved, nowMs) == [] && |ExpiredIds(reserved, nowMs)| == |reserved|
  {
    if reserved != [] {
      assert reserved[0] in reserved;
      AllExpired(reserved[1..], nowMs);
    }
  }

  lemma CalmSwept(v: View, sid: string, spent: nat, expiry: int, nowMs: int)
    requires Calm(v.state, sid, spent, expiry) && v.state.number == |v.log| && expiry < nowMs && |v.log| + |v.state.reserved| <= MAX_SAFE_INT
    requires NoGrants(v.log)
    ensures var w := Swept(v, [], v.state.reserved, nowMs);
      && Calm(w.state, sid, 0, expiry) && w.state.number == |w.log| == |v.log| + |v.state.reserved| && NoGrants(w.log) && w.state.reserved == []
  {
    hide IsId;
    AllExpired(v.state.reserved, nowMs);
    var w := Swept(v, [], v.state.reserved, nowMs);
    NoGrantsAfter(v.log, w.log);
  }

  lemma SweepRound(sid: string, steps: seq<Step>, c: Config, nowMs: int, spent: nat, expiry: int, paid: int) returns (more: seq<Step>)
    requires ValidConfig(c) && WellFormed(c.bundle.manifest) && NewSession(sid, c).Ok?
    requires Paying(sid, DoAll(Start(sid, c), steps, c), spent, expiry, paid) && expiry < nowMs
    requires var v := DoAll(Start(sid, c), steps, c).view; |v.log| + |v.state.reserved| <= MAX_SAFE_INT
    ensures var run, next := DoAll(Start(sid, c), steps, c), DoAll(Start(sid, c), more, c);
      && Paying(sid, next, 0, expiry, paid) && |next.view.log| == |run.view.log| + |run.view.state.reserved|
  {
    hide WellFormed, ValidConfig, NewSession, Good, DoAll, SweepStep, Handed, PaidOut, Calm, NoGrants, Swept;
    var run := DoAll(Start(sid, c), steps, c);
    more := steps + [Sweep(nowMs)];
    OneMoreStep(Start(sid, c), steps, Sweep(nowMs), c);
    RunGood(sid, steps, c);
    SweepExact(c, sid, run.view, nowMs);
    CalmSwept(run.view, sid, spent, expiry, nowMs);
  }

  lemma CalmLonger(sid: string, run: Run, spent: nat, expiry: int, later: int, paid: int)
    requires Paying(sid, run, spent, expiry, paid) && expiry <= later
    ensures Paying(sid, run, spent, later, paid)
  {
    hide Handed, PaidOut, IsId, NoGrants, Counters;
  }

  /**
   * Two refunds of 200.00 are running when a sweep releases both; the gate then allows a third. No two executions overlap
   * and nothing was approved, yet runners were told to pay 600.00, beyond the 500.00 of the automatic cap.
   */
  lemma SweptRefundsOverspend(sid: string, c: Config) returns (steps: seq<Step>)
    requires ValidConfig(c) && WellFormed(c.bundle.manifest) && Bank(c.bundle) && NewSession(sid, c).Ok?
    requires SafeNat(c.ttlMs) && SafeNat(2 * c.ttlMs + 1)
    ensures var run := DoAll(Start(sid, c), steps, c);
      && (forall id :: !Overlaps(Start(sid, c), steps, id, c)) && NoGrants(run.view.log) && |run.view.log| <= MAX_SAFE_INT
      && PaidOut(run.started) == 60000 && Counters(run.view.state) == map[REFUNDED := 20000]
  {
    hide WellFormed, ValidConfig, Bank, NewSession, DoAll, Overlaps, Handed, PaidOut, Calm, NoGrants, Counters;
    var ttl := c.ttlMs;
    var first := [Step.Open(AGENT)];
    OpenedRun(sid, c);
    CalmLonger(sid, DoAll(Start(sid, c), first, c), 0, 0, ttl, 0);
    var second := RefundRound(sid, first, c, 0, 0, ttl, 0);
    var third := RefundRound(sid, second, c, 0, 20000, ttl, 20000);
    var fourth := SweepRound(sid, third, c, ttl + 1, 40000, ttl, 40000);
    CalmLonger(sid, DoAll(Start(sid, c), fourth, c), 0, ttl, 2 * ttl + 1, 40000);
    steps := RefundRound(sid, fourth, c, ttl + 1, 0, 2 * ttl + 1, 40000);
    forall id ensures !Overlaps(Start(sid, c), steps, id, c) { RunsOnceIffNoOverlap(sid, steps, c, id); }
    CalmSpends(DoAll(Start(sid, c), steps, c).view.state, sid, 20000, 2 * ttl + 1);
  }

  // ---- one token, two runs ----

  /** An opened session with one allowed refund whose token nobody has redeemed. */
  lemma OneOpenToken(sid: string, c: Config) returns (steps: seq<Step>, p: TokenPayload)
    requires ValidConfig(c) && WellFormed(c.bundle.manifest) && Bank(c.bundle) && NewSession(sid, c).Ok? && SafeNat(c.ttlMs)
    ensures var run := DoAll(Start(sid, c), steps, c);
      && OpenToken(run, p) && p.expiresMs == c.ttlMs && run.running == [] && run.started == [] && !Overlaps(Start(sid, c), steps, p.reservation, c)
  {
    hide WellFormed, ValidConfig, Bank, NewSession, Good, DoAll, Overlaps, SubmitStep, Calm, NoGrants, Counters, Find, MintedIn,
         SettledTimes, WithRefund, RefundHash;
    var start, first, submit := Start(sid, c), [Step.Open(AGENT)], Submit(REFUND_CALL, 0);
    OpenedRun(sid, c);
    var v := DoAll(start, first, c).view;
    p := RefundToken(c, sid, 1, 0);
    steps := first + [submit];
    OneMoreStep(start, first, submit, c);
    CalmLonger(sid, DoAll(start, first, c), 0, 0, c.ttlMs, 0);
    CalmRefund(v.state, sid, 0, c.ttlMs, RefundReservation(c, sid, 1, 0));
    CalmSpends(v.state, sid, 0, c.ttlMs);
    RefundSubmits(c, sid, v, 0, 0);
    SubmitMints(v, REFUND_CALL, 0, c);
    RunGood(sid, steps, c);
    OpenedBound(c, sid, DoAll(start, steps, c).view, 1);
    NoOverlapYet(sid, first, c, 1);
  }

  lemma NoOverlapYet(sid: string, steps: seq<Step>, c: Config, id: int)
    requires WellFormed(c.bundle.manifest) && NewSession(sid, c).Ok? && DoAll(Start(sid, c), steps, c).started == []
    ensures !Overlaps(Start(sid, c), steps, id, c)
  {
    hide WellFormed, NewSession, DoAll, Overlaps;
    OverlapTwice(Start(sid, c), steps, c, id);
    assert Handed([], id) == 0;
  }

  /** One allowed refund, handed to two runners at once. */
  lemma OneRefundRunsTwice(sid: string, c: Config) returns (steps: seq<Step>, id: int)
    requires ValidConfig(c) && WellFormed(c.bundle.manifest) && Bank(c.bundle) && NewSession(sid, c).Ok? && SafeNat(c.ttlMs)
    ensures Overlaps(Start(sid, c), steps, id, c) && Handed(DoAll(Start(sid, c), steps, c).started, id) == 2
  {
    hide WellFormed, ValidConfig, Bank, NewSession, DoAll, Overlaps, OpenToken;
    var before, p := OneOpenToken(sid, c);
    id := p.reservation;
    OpenTokenOverlaps(sid, before, c, p, 0, 0);
    steps := before + [Redeem(p, true, 0)] + [Redeem(p, true, 0)];
    assert Handed([], id) == 0;
  }

  /** With the log filled by approvals, one allowed refund is handed out twice although nothing overlaps. */
  lemma FullLogRefundRunsTwice(sid: string, c: Config) returns (steps: seq<Step>, id: int)
    requires ValidConfig(c) && WellFormed(c.bundle.manifest) && Bank(c.bundle) && NewSession(sid, c).Ok? && SafeNat(c.ttlMs)
    ensures !Overlaps(Start(sid, c), steps, id, c) && Handed(DoAll(Start(sid, c), steps, c).started, id) == 2
  {
    hide WellFormed, ValidConfig, Bank, NewSession, DoAll, Overlaps, OpenToken, IsHash, IsId;
    var before, p := OneOpenToken(sid, c);
    id := p.reservation;
    AccountNames();
    ConfigSpells(c, sid);
    var full := GrantsFill(sid, before, c, p, RefundHash(c.bundle, sid), AGENT);
    assert Handed([], id) == 0;
    FullLogRunsAgain(sid, full, c, p, 0, 0);
    steps := full + [Redeem(p, true, 0)] + [Finish(|DoAll(Start(sid, c), full, c).running|, true)] + [Redeem(p, true, 0)];
  }
}
