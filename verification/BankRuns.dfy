/** Budget and taint safety of every run under the bank-servicing bundle. */
module BankRuns {
  import opened Wrappers
  import opened Json
  import opened Money
  import opened Manifest
  import opened Canonical
  import opened Cedar
  import opened Decide
  import opened Guardrails
  import opened BankServicing
  import opened BankOracle
  import opened BankRefines
  import opened Snapshots
  import opened Ledger
  import opened LedgerLaws
  import opened GateSpec
  import opened GateLog
  import opened GateLaws

  // ---- what an allowed call reserves ----

  lemma BankBudget(c: Config, env: Envelope)
    requires Bank(c.bundle) && WellFormed(c.bundle.manifest) && ActionAt(c, env).Ok? && env.tool != REFUND
    ensures Get(BudgetOf(env, c.bundle), REFUNDED) == 0
  {
    hide Canonicalize, WellFormed, TOOLS, POLICIES, CONFIG, BudgetOf;
    Six();
    BudgetIsDeclared(c, env);
    assert env.tool in TOOLS;
    assert TOOLS[env.tool].budget == None;
  }

  lemma RefundBudget(c: Config, env: Envelope)
    requires Bank(c.bundle) && WellFormed(c.bundle.manifest) && ActionAt(c, env).Ok? && env.tool == REFUND
    requires var a := ActionAt(c, env).value; "amount" in a.args && a.args["amount"].MoneyValue?
    ensures Get(BudgetOf(env, c.bundle), REFUNDED) == ActionAt(c, env).value.args["amount"].amount.minor
  {
    hide Canonicalize, WellFormed, TOOLS, POLICIES, CONFIG, BudgetOf;
    Six();
    BudgetIsDeclared(c, env);
    assert REFUND_TOOL.budget == Some(Budget(REFUNDED, "amount"));
  }

  function Spent(s: LedgerState): int { Get(Counters(s), REFUNDED) }

  /** What an ALLOW adds keeps the spent budget within the session caps. */
  lemma AllowFits(c: Config, s: LedgerState, body: Body, hash: string)
    requires Bank(c.bundle) && WellFormed(c.bundle.manifest) && body.Decided? && DecisionFollows(c, s, body)
             && Allowed(body, hash)
    ensures Get(BudgetOf(body.envelope, c.bundle), REFUNDED) == 0 ||
            (&& Spent(s) + Get(BudgetOf(body.envelope, c.bundle), REFUNDED) <= APPROVED_PER_SESSION_MINOR
             && (s.approvals == {} ==> Spent(s) + Get(BudgetOf(body.envelope, c.bundle), REFUNDED) <= AUTO_PER_SESSION_MINOR))
  {
    hide WellFormed, Judge, Reaches, TheAction, Canonicalize, BudgetOf, ActionHash, CheckSnapshot, Counters,
         ValidEnvelope, Bank;
    AllowedAction(c, s, body, hash);
    var env, snapshot := body.envelope, SnapshotOf(s, body.facts).value;
    if env.tool == REFUND {
      SnapshotFields(s, body.facts);
      AllowedRefundFits(env, snapshot, c.bundle);
      SameAction(c, env, snapshot);
      RefundBudget(c, env);
    } else {
      BankBudget(c, env);
    }
  }

  lemma SameAction(c: Config, env: Envelope, s: Snapshot)
    requires WellFormed(c.bundle.manifest) && Reaches(env, s, c.bundle)
    ensures ActionAt(c, env) == Ok(TheAction(env, s, c.bundle))
  {
    hide WellFormed, Canonicalize, CheckSnapshot;
  }

  // ---- the caps ----

  function Net(log: seq<Body>): int { ReservedTotal(log, REFUNDED) - ReleasedTotal(log, REFUNDED) }

  predicate NoGrants(log: seq<Body>) { forall b :: b in log ==> !b.ApprovalGranted? }

  lemma SpentIsNet(c: Config, sid: string, log: seq<Body>)
    requires Fold(sid, log, CounterNames(c)).Ok?
    ensures Spent(Fold(sid, log, CounterNames(c)).value) == Net(log)
  {
    hide Fold, Counters, ReservedTotal, ReleasedTotal;
    Conservation(sid, log, CounterNames(c), REFUNDED);
  }

  lemma {:induction false} NoGrantsNoApprovals(c: Config, sid: string, log: seq<Body>)
    requires Fold(sid, log, CounterNames(c)).Ok? && NoGrants(log)
    ensures Fold(sid, log, CounterNames(c)).value.approvals == {}
  {
    hide Fold;
    var s := Fold(sid, log, CounterNames(c)).value;
    if h :| h in s.approvals {
      ApprovalsStand(sid, log, CounterNames(c), h);
      NoGrantsCount(log, h);
    }
  }

  lemma {:induction false} NoGrantsCount(log: seq<Body>, h: string)
    requires NoGrants(log)
    ensures Grants(log, h) == 0
  {
    if log != [] { NoGrantsCount(log[..|log| - 1], h); }
  }

  lemma QuietNet(log: seq<Body>, n: nat)
    requires n < |log| && !log[n].Reserved? && !log[n].Settled?
    ensures Net(log[..n + 1]) == Net(log[..n])
  {
    assert log[..n + 1][..n] == log[..n];
  }

  lemma ReleaseLowers(c: Config, sid: string, log: seq<Body>)
    requires log != [] && Fold(sid, log, CounterNames(c)).Ok? && log[|log| - 1].Settled?
    ensures Net(log) <= Net(log[..|log| - 1])
  {
    hide Fold, Ordered;
    var before, last := log[..|log| - 1], log[|log| - 1];
    FoldLast(sid, log, CounterNames(c));
    var s := Fold(sid, before, CounterNames(c)).value;
    FoldSound(sid, before, CounterNames(c));
    OpenIsLatest(sid, before, CounterNames(c));
    SettledWasOpen(s, Event(|log| - 1, last), CounterNames(c));
    FindIn(s.reserved, last.settled);
    assert SoundReservation(Find(s.reserved, last.settled).value, CounterNames(c));
  }

  /** The state an ALLOW was decided in still has its spent budget when the reservation is appended. */
  lemma NothingBetween(c: Config, sid: string, log: seq<Body>, i: nat)
    requires WellFormed(c.bundle.manifest) && Written(c, sid, log) && i < |log| && log[i].Reserved?
    ensures 0 <= log[i].reservation < i && Net(log[..i]) == Net(log[..log[i].reservation])
  {
    hide WellFormed, Written, Net, Backed, BudgetOf;
    ReservationAt(c, sid, log, i);
    var k := log[i].reservation;
    QuietNet(log, k);
    if i == k + 2 { QuietNet(log, k + 1); }
  }

  lemma ReservationFits(c: Config, sid: string, log: seq<Body>, i: nat)
    requires WellFormed(c.bundle.manifest) && Bank(c.bundle) && Written(c, sid, log) && i < |log| && log[i].Reserved?
    ensures Get(log[i].counters, REFUNDED) == 0 ||
            (&& Net(log[..i]) + Get(log[i].counters, REFUNDED) <= APPROVED_PER_SESSION_MINOR
             && (NoGrants(log) ==> Net(log[..i]) + Get(log[i].counters, REFUNDED) <= AUTO_PER_SESSION_MINOR))
  {
    hide WellFormed, Written, Net, Bank, DecisionFollows, BudgetOf, Spent, Fold, Backed;
    NothingBetween(c, sid, log, i);
    ReservationAt(c, sid, log, i);
    var k := log[i].reservation;
    DecisionAt(c, sid, log, k);
    AllowFits(c, StateAt(c, sid, log, k).value, log[k], log[i].actionHash);
    SpentIsNet(c, sid, log[..k]);
    if NoGrants(log) { NoGrantsNoApprovals(c, sid, log[..k]); }
  }

  lemma {:induction false} NetIsCapped(c: Config, sid: string, log: seq<Body>)
    requires WellFormed(c.bundle.manifest) && Bank(c.bundle) && Written(c, sid, log)
    ensures Net(log) <= APPROVED_PER_SESSION_MINOR
    ensures NoGrants(log) ==> Net(log) <= AUTO_PER_SESSION_MINOR
  {
    hide WellFormed, Written, Bank, LastReserved;
    if log != [] {
      var m := |log| - 1;
      WrittenPrefix(c, sid, log, m);
      NetIsCapped(c, sid, log[..m]);
      FoldOfWritten(c, sid, log);
      hide Fold;
      if log[m].Reserved? {
        ReservationFits(c, sid, log, m);
      } else if log[m].Settled? {
        ReleaseLowers(c, sid, log);
      }
    }
  }

  lemma FoldOfWritten(c: Config, sid: string, log: seq<Body>)
    requires WellFormed(c.bundle.manifest) && Written(c, sid, log)
    ensures Fold(sid, log, CounterNames(c)).Ok?
  {
    hide WellFormed, Fold, Justified;
  }

  /**
   * Refunds committed or still reserved never exceed 5,000.00 in a session, and never exceed 500.00 in a session to
   * which no approval was granted.
   */
  lemma RefundsAreCapped(c: Config, sid: string, v: View)
    requires WellFormed(c.bundle.manifest) && Bank(c.bundle) && Good(c, sid, v)
    ensures Get(Counters(v.state), REFUNDED) <= 500000
    ensures NoGrants(v.log) ==> Get(Counters(v.state), REFUNDED) <= 50000
  {
    hide WellFormed, Good, Bank, Net, Counters;
    GoodWritten(c, sid, v);
    hide Fold;
    NetIsCapped(c, sid, v.log);
    SpentIsNet(c, sid, v.log);
  }

  // ---- tainting ----

  predicate Commits(log: seq<Body>, j: nat, tools: set<string>)
    requires j < |log|
  {
    && log[j].Settled? && log[j].outcome == COMMITTED && 0 <= log[j].settled < |log|
    && log[log[j].settled].Decided? && log[log[j].settled].envelope.tool in tools
  }

  lemma {:induction false} CommitStays(log: seq<Body>, j: nat, n: nat, name: string)
    requires j < n <= |log| && log[j].Settled? && log[j].outcome == COMMITTED && name in log[j].labels
    ensures name in CommittedLabels(log[..n])
  {
    assert log[..n][..n - 1] == log[..n - 1] && log[..n][n - 1] == log[n - 1];
    if j < n - 1 { CommitStays(log, j, n - 1, name); }
  }

  lemma CommittedLabel(c: Config, sid: string, log: seq<Body>, j: nat, tools: set<string>, name: string)
    requires WellFormed(c.bundle.manifest) && Written(c, sid, log) && j < |log| && Commits(log, j, tools)
    requires forall t :: t in tools && t in c.bundle.manifest.tools ==> name in c.bundle.manifest.tools[t].resultLabels
    ensures name in log[j].labels
  {
    hide WellFormed, Written, Fold, StateAt, DecisionFollows, ReservationFollows, Backed, SortedKeys;
    JustifiedAt(c, sid, log, j);
  }

  lemma LabelledTools(b: Bundle)
    requires Bank(b)
    ensures forall t :: t in {FETCH, INBOX} && t in b.manifest.tools ==> UNTRUSTED_INPUT in b.manifest.tools[t].resultLabels
    ensures forall t :: t in {REPORT, LOOKUP} && t in b.manifest.tools ==> PRIVATE_DATA in b.manifest.tools[t].resultLabels
  {
    Six();
    hide TOOLS, POLICIES, CONFIG;
  }

  /**
   * Once a fetch or an inbox read and a report or a customer lookup have been committed, in any order, every later
   * email or fetch in the session is denied, whatever has been approved.
   */
  lemma TaintedForGood(c: Config, sid: string, log: seq<Body>, j: nat, k: nat, i: nat)
    requires WellFormed(c.bundle.manifest) && Bank(c.bundle) && Written(c, sid, log)
    requires j < i < |log| && k < i && Commits(log, j, {FETCH, INBOX}) && Commits(log, k, {REPORT, LOOKUP})
    requires log[i].Decided? && log[i].envelope.tool in {EMAIL, FETCH}
    ensures log[i].decision.verdict == DENY
  {
    hide WellFormed, Written, Bank, Commits, CommittedLabels, Fold, DecisionFollows, TOOLS;
    LabelledTools(c.bundle);
    CommittedLabel(c, sid, log, j, {FETCH, INBOX}, UNTRUSTED_INPUT);
    CommittedLabel(c, sid, log, k, {REPORT, LOOKUP}, PRIVATE_DATA);
    CommitsIsSettled(log, j, {FETCH, INBOX});
    CommitsIsSettled(log, k, {REPORT, LOOKUP});
    CommitStays(log, j, i, UNTRUSTED_INPUT);
    CommitStays(log, k, i, PRIVATE_DATA);
    DecisionAt(c, sid, log, i);
    LabelsAreCommitted(sid, log[..i], CounterNames(c));
    TaintedStateDenies(c, StateAt(c, sid, log, i).value, log[i]);
  }

  lemma TaintedStateDenies(c: Config, s: LedgerState, body: Body)
    requires WellFormed(c.bundle.manifest) && Bank(c.bundle) && body.Decided? && DecisionFollows(c, s, body)
    requires body.envelope.tool in {EMAIL, FETCH} && {PRIVATE_DATA, UNTRUSTED_INPUT} <= s.labels
    ensures body.decision.verdict == DENY
  {
    hide WellFormed, Bank, Judge, ValidEnvelope, SnapshotOf;
    LabelsOfSnapshot(s, body.facts);
    TaintedEgressDenied(body.envelope, SnapshotOf(s, body.facts).value, c.bundle);
  }

  lemma CommitsIsSettled(log: seq<Body>, j: nat, tools: set<string>)
    requires j < |log| && Commits(log, j, tools)
    ensures log[j].Settled? && log[j].outcome == COMMITTED
  {
  }

  lemma LabelsOfSnapshot(s: LedgerState, facts: seq<EntityRecord>)
    requires SnapshotOf(s, facts).Ok?
    ensures SnapshotOf(s, facts).value.labels == s.labels
  {
  }

  /** Submitted to a tainted session, an email or a fetch is recorded as denied and yields no token. */
  lemma TaintedSubmitDenied(c: Config, sid: string, v: View, call: Call, nowMs: int)
    requires WellFormed(c.bundle.manifest) && Bank(c.bundle) && Good(c, sid, v) && call.tool in {EMAIL, FETCH}
    requires {PRIVATE_DATA, UNTRUSTED_INPUT} <= CommittedLabels(v.log)
    ensures var r := SubmitStep(v, call, nowMs, c).result;
      r.Ok? ==> r.value.decision.verdict == DENY && r.value.token == None
  {
    hide WellFormed, Bank, Good, Judge, ValidEnvelope, SnapshotOf, Reserve, GateSpec.Append, CommittedLabels,
         SnapshotHash, InputHash;
    GoodWritten(c, sid, v);
    hide Fold;
    LabelsAreCommitted(sid, v.log, CounterNames(c));
    if SnapshotOf(v.state, call.facts).Ok? {
      LabelsOfSnapshot(v.state, call.facts);
      TaintedEgressDenied(EnvelopeOf(v, call, nowMs), SnapshotOf(v.state, call.facts).value, c.bundle);
    }
  }
}
