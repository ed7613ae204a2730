/** What the tools themselves were told to pay out, over a whole run. */
module Payouts {
  import opened Wrappers
  import opened Texts
  import opened Json
  import opened Money
  import opened Manifest
  import opened Canonical
  import opened Decide
  import opened BankServicing
  import opened BankOracle
  import opened BankRefines
  import opened Ledger
  import opened LedgerLaws
  import opened GateSpec
  import opened GateLog
  import opened GateLaws
  import opened GateRuns
  import opened BankRuns

  /** The minor units a refund runner was told to pay: the decimal text in its arguments, read in its currency. */
  function Payout(job: Job): int {
    if job.tool != REFUND || "amount" !in job.arguments then 0
    else match CanonicalMoney(job.arguments["amount"], CURRENCIES, 1, MAX_REFUND)
      case Ok(amount) => amount.minor
      case Err(_) => 0
  }

  function PaidOut(jobs: seq<Job>): int {
    if jobs == [] then 0 else PaidOut(jobs[..|jobs| - 1]) + Payout(jobs[|jobs| - 1])
  }

  lemma WireReadsBack(a: Amount)
    requires a.currency in CURRENCIES && 1 <= a.minor <= MAX_REFUND
    ensures a.currency in Exponents()
    ensures CanonicalMoney(WireMoney(a.minor, a.currency), CURRENCIES, 1, MAX_REFUND) == Ok(a)
  {
    CurrenciesKnown();
    hide CanonicalMoney, WireMoney, Exponents;
    Quotient(a.minor, Pow10(Exponents()[a.currency]));
    MoneyRoundTrip(a.minor, a.currency, CURRENCIES, 1, MAX_REFUND);
  }

  lemma Quotient(n: nat, d: nat)
    requires d > 0
    ensures n / d <= n
  {
    MulGrows(n / d, d);
    assert n == (n / d) * d + n % d;
  }

  lemma MulGrows(q: nat, d: nat)
    requires d > 0
    ensures q <= q * d
  {
  }

  /** A bank refund's amount argument, as the manifest bounds it. */
  lemma RefundAmount(c: Config, env: Envelope)
    requires Bank(c.bundle) && WellFormed(c.bundle.manifest) && ActionAt(c, env).Ok? && env.tool == REFUND
    ensures var a := ActionAt(c, env).value;
      && a.tool == REFUND && "amount" in a.args && a.args["amount"].MoneyValue?
      && a.args["amount"].amount.currency in CURRENCIES && 1 <= a.args["amount"].amount.minor <= MAX_REFUND
  {
    hide Canonicalize, WellFormed, TOOLS, POLICIES, CONFIG, CanonicalMoney, ResourceId, WellFormedKind, Exponents;
    Six();
    ActionIsCanonical(c.bundle.tables, c.bundle.manifest, env);
    var a := ActionAt(c, env).value;
    assert "amount" in REFUND_TOOL.args && !REFUND_TOOL.args["amount"].optional;
    assert REFUND_TOOL.args["amount"].kind == MoneyKind(CURRENCIES, 1, MAX_REFUND);
    RefundKind();
    var raw :| CanonicalValue(c.bundle.tables, MoneyKind(CURRENCIES, 1, MAX_REFUND), raw) == Ok(a.args["amount"]);
    AcceptedRange(raw, CURRENCIES, 1, MAX_REFUND);
  }

  /** What a runner was told to pay is what its recorded call reserved. */
  lemma PayoutIsBudget(c: Config, v: View, job: Job)
    requires Bank(c.bundle) && WellFormed(c.bundle.manifest) && JobAt(c, v, job.reservation) == Some(job)
    ensures RecordedEnvelope(v, job.reservation).Some?
    ensures Payout(job) == Get(BudgetOf(RecordedEnvelope(v, job.reservation).value, c.bundle), REFUNDED)
  {
    hide WellFormed, Bank, Canonicalize, BudgetOf, CanonicalMoney, WireMoney;
    var env := RecordedEnvelope(v, job.reservation).value;
    if env.tool == REFUND {
      RefundAmount(c, env);
      RefundBudget(c, env);
      WireReadsBack(ActionAt(c, env).value.args["amount"].amount);
    } else {
      BankBudget(c, env);
    }
  }

  /** Everything ever reserved under one id. */
  function ReservedUnder(log: seq<Body>, id: int): int {
    if log == [] then 0
    else
      var last := log[|log| - 1];
      ReservedUnder(log[..|log| - 1], id) + if last.Reserved? && last.reservation == id then Get(last.counters, REFUNDED) else 0
  }

  /** Everything ever reserved, each reservation as often as it was handed to a runner. */
  function HandedOver(log: seq<Body>, jobs: seq<Job>): int {
    if log == [] then 0
    else
      var last := log[|log| - 1];
      HandedOver(log[..|log| - 1], jobs) + if last.Reserved? then Get(last.counters, REFUNDED) * Handed(jobs, last.reservation) else 0
  }

  lemma {:induction false} NothingHanded(log: seq<Body>)
    ensures HandedOver(log, []) == 0
  {
    if log != [] { NothingHanded(log[..|log| - 1]); }
  }

  lemma OneMore(x: int, n: int)
    ensures x * (n + 1) == x * n + x
  {
  }

  lemma {:induction false} HandOneOver(log: seq<Body>, jobs: seq<Job>, job: Job)
    ensures HandedOver(log, jobs + [job]) == HandedOver(log, jobs) + ReservedUnder(log, job.reservation)
  {
    hide Handed;
    if log != [] {
      var last := log[|log| - 1];
      HandOneOver(log[..|log| - 1], jobs, job);
      if last.Reserved? {
        HandedOneMore(jobs, job, last.reservation);
        OneMore(Get(last.counters, REFUNDED), Handed(jobs, last.reservation));
      }
    }
  }

  lemma AtMostOnce(x: int, n: nat)
    requires x >= 0 && n <= 1
    ensures x * n <= x
  {
  }

  /** The reservations that some runner was handed. */
  function HandedIds(jobs: seq<Job>): set<int> { set j | j in jobs :: j.reservation }

  lemma HandedIdsMembers(jobs: seq<Job>, id: int)
    ensures id in HandedIds(jobs) <==> Handed(jobs, id) > 0
  {
    hide Handed;
    HandedIn(jobs, id);
  }

  lemma {:induction false} HandedAtMostReserved(log: seq<Body>, jobs: seq<Job>)
    requires forall i :: 0 <= i < |log| && log[i].Reserved? ==> Get(log[i].counters, REFUNDED) >= 0
    requires forall j :: j in jobs ==> Handed(jobs, j.reservation) <= 1
    ensures HandedOver(log, jobs) <= ReservedOf(log, REFUNDED, HandedIds(jobs))
  {
    hide Handed, HandedIds;
    if log != [] {
      var last := log[|log| - 1];
      HandedAtMostReserved(log[..|log| - 1], jobs);
      if last.Reserved? {
        HandedIn(jobs, last.reservation);
        HandedIdsMembers(jobs, last.reservation);
        AtMostOnce(Get(last.counters, REFUNDED), Handed(jobs, last.reservation));
      }
    }
  }

  lemma {:induction false} ReservedUnderNone(log: seq<Body>, id: int)
    requires Opened(log, id) == 0
    ensures ReservedUnder(log, id) == 0
  {
    if log != [] { ReservedUnderNone(log[..|log| - 1], id); }
  }

  lemma {:induction false} ReservedUnderOne(log: seq<Body>, id: int, i: nat)
    requires Opened(log, id) == 1 && i < |log| && log[i].Reserved? && log[i].reservation == id
    ensures ReservedUnder(log, id) == Get(log[i].counters, REFUNDED)
  {
    var m := |log| - 1;
    if i == m {
      ReservedUnderNone(log[..m], id);
    } else {
      assert log[..m][i] == log[i];
      OpenedAt(log[..m], id, i);
      ReservedUnderOne(log[..m], id, i);
    }
  }

  lemma {:induction false} OpenedAt(log: seq<Body>, id: int, i: nat)
    requires i < |log| && log[i].Reserved? && log[i].reservation == id
    ensures Opened(log, id) >= 1
  {
    var m := |log| - 1;
    if i < m {
      assert log[..m][i] == log[i];
      OpenedAt(log[..m], id, i);
    }
  }

  lemma {:induction false} OpenedSomewhere(log: seq<Body>, id: int) returns (i: nat)
    requires Opened(log, id) >= 1
    ensures i < |log| && log[i].Reserved? && log[i].reservation == id
  {
    i := |log| - 1;
    if !(log[i].Reserved? && log[i].reservation == id) { i := OpenedSomewhere(log[..i], id); }
  }

  lemma PayoutIsReserved(c: Config, sid: string, v: View, job: Job)
    requires WellFormed(c.bundle.manifest) && Bank(c.bundle) && Good(c, sid, v) && Checked(c, v, job)
    ensures Payout(job) == ReservedUnder(v.log, job.reservation)
  {
    hide WellFormed, Bank, Good, JobAt, Vouched, BudgetOf, Backed, StateAt, Payout;
    PayoutIsBudget(c, v, job);
    GoodWritten(c, sid, v);
    hide Written, Fold;
    var i := OpenedSomewhere(v.log, job.reservation);
    ReservedUnderOne(v.log, job.reservation, i);
    ReservationAt(c, sid, v.log, i);
  }

  lemma {:induction false} PaidIsHandedOver(c: Config, sid: string, v: View, jobs: seq<Job>)
    requires WellFormed(c.bundle.manifest) && Bank(c.bundle) && Good(c, sid, v) && forall j :: j in jobs ==> Checked(c, v, j)
    ensures PaidOut(jobs) == HandedOver(v.log, jobs)
  {
    hide WellFormed, Bank, Good, Checked, Payout, HandedOver;
    if jobs == [] {
      NothingHanded(v.log);
    } else {
      var m := |jobs| - 1;
      PaidIsHandedOver(c, sid, v, jobs[..m]);
      PayoutIsReserved(c, sid, v, jobs[m]);
      HandOneOver(v.log, jobs[..m], jobs[m]);
      assert jobs == jobs[..m] + [jobs[m]];
    }
  }

  lemma ReservedNonNegative(c: Config, sid: string, log: seq<Body>, i: nat)
    requires WellFormed(c.bundle.manifest) && Written(c, sid, log) && i < |log| && log[i].Reserved?
    ensures Get(log[i].counters, REFUNDED) >= 0
  {
    hide WellFormed, Written;
    FoldOfWritten(c, sid, log);
    FoldPrefix(sid, log, CounterNames(c), i + 1);
    assert log[..i + 1][..i] == log[..i];
    FoldLast(sid, log[..i + 1], CounterNames(c));
    hide Fold;
    SafeReservation(Fold(sid, log[..i], CounterNames(c)).value, i, log[i], CounterNames(c));
  }

  lemma SafeReservation(s: LedgerState, at: nat, body: Body, names: set<string>)
    requires body.Reserved? && Apply(s, Event(at, body), names).Ok?
    ensures Get(body.counters, REFUNDED) >= 0
  {
  }

  /**
   * In any interleaving in which no two executions of one token overlap, the amounts in the arguments of every refund that
   * a runner was ever handed sum to at most the session cap plus what was released of those very refunds; without an
   * approval, the automatic cap.
   */
  lemma PayoutsAreCapped(sid: string, steps: seq<Step>, c: Config)
    requires ValidConfig(c) && WellFormed(c.bundle.manifest) && Bank(c.bundle) && NewSession(sid, c).Ok?
    requires |DoAll(Start(sid, c), steps, c).view.log| <= MAX_SAFE_INT
    requires forall id :: !Overlaps(Start(sid, c), steps, id, c)
    ensures var run := DoAll(Start(sid, c), steps, c);
      var released := ReleasedOf(run.view.log, REFUNDED, HandedIds(run.started));
      && PaidOut(run.started) <= 500000 + released
      && (NoGrants(run.view.log) ==> PaidOut(run.started) <= 50000 + released)
  {
    hide WellFormed, ValidConfig, Bank, Good, NewSession, DoAll, Checked, Counters, PaidOut, HandedOver, ReservedOf,
         ReleasedOf, Overlaps, NoGrants, Handed, HandedIds;
    var run := DoAll(Start(sid, c), steps, c);
    RunGood(sid, steps, c);
    RunnersGetWhatWasChecked(sid, steps, c);
    GoodWritten(c, sid, run.view);
    hide Written, Fold;
    forall j | j in run.started ensures Handed(run.started, j.reservation) <= 1 {
      RunsOnceIffNoOverlap(sid, steps, c, j.reservation);
    }
    forall i | 0 <= i < |run.view.log| && run.view.log[i].Reserved? ensures Get(run.view.log[i].counters, REFUNDED) >= 0 {
      ReservedNonNegative(c, sid, run.view.log, i);
    }
    PaidIsHandedOver(c, sid, run.view, run.started);
    HandedAtMostReserved(run.view.log, run.started);
    PartOfCounter(sid, run.view.log, CounterNames(c), REFUNDED, HandedIds(run.started));
    RefundsAreCapped(c, sid, run.view);
  }

  /** No reservation that was handed to a runner has been released, by a failing runner, a settlement or a sweep. */
  predicate HandedStand(run: Run) {
    forall i :: 0 <= i < |run.view.log| && run.view.log[i].Settled? && run.view.log[i].outcome == RELEASED ==>
      Handed(run.started, run.view.log[i].settled) == 0
  }

  /** Payouts stay within the caps themselves as long as nothing a runner was handed is released. */
  lemma PayoutsWithinCaps(sid: string, steps: seq<Step>, c: Config)
    requires ValidConfig(c) && WellFormed(c.bundle.manifest) && Bank(c.bundle) && NewSession(sid, c).Ok?
    requires |DoAll(Start(sid, c), steps, c).view.log| <= MAX_SAFE_INT
    requires forall id :: !Overlaps(Start(sid, c), steps, id, c)
    requires HandedStand(DoAll(Start(sid, c), steps, c))
    ensures var run := DoAll(Start(sid, c), steps, c);
      && PaidOut(run.started) <= 500000
      && (NoGrants(run.view.log) ==> PaidOut(run.started) <= 50000)
  {
    hide WellFormed, ValidConfig, Bank, NewSession, DoAll, PaidOut, ReleasedOf, Overlaps, NoGrants, Handed, HandedIds;
    var run := DoAll(Start(sid, c), steps, c);
    PayoutsAreCapped(sid, steps, c);
    forall i | 0 <= i < |run.view.log| && run.view.log[i].Settled? && run.view.log[i].outcome == RELEASED
      ensures run.view.log[i].settled !in HandedIds(run.started)
    {
      HandedIdsMembers(run.started, run.view.log[i].settled);
    }
    NothingReleased(run.view.log, REFUNDED, HandedIds(run.started));
  }

  /** On every interleaving of gate calls the session caps hold, running and failed executions included. */
  lemma EveryRunIsCapped(sid: string, steps: seq<Step>, c: Config)
    requires ValidConfig(c) && WellFormed(c.bundle.manifest) && Bank(c.bundle) && NewSession(sid, c).Ok?
    ensures var v := DoAll(Start(sid, c), steps, c).view;
      && Get(Counters(v.state), REFUNDED) <= 500000
      && (NoGrants(v.log) ==> Get(Counters(v.state), REFUNDED) <= 50000)
  {
    hide WellFormed, ValidConfig, Bank, Good, NewSession, DoAll, Counters, NoGrants;
    RunGood(sid, steps, c);
    RefundsAreCapped(c, sid, DoAll(Start(sid, c), steps, c).view);
  }
}
