/** What settling does to a session, outcome by outcome. */
module Settlements {
  import opened Wrappers
  import opened Json
  import opened Syntax
  import opened Manifest
  import opened Canonical
  import opened Decide
  import opened Ledger
  import opened LedgerLaws
  import opened GateSpec
  import opened GateLog
  import opened GateLaws
  import opened GateRuns

  /** Exactly this reservation is gone; approvals, session and principal are as they were. */
  ghost predicate Closed(v: View, r: Reservation, w: View) {
    && w.state.number == v.state.number + 1 && w.state.sessionId == v.state.sessionId
    && w.state.principal == v.state.principal && w.state.approvals == v.state.approvals
    && Find(w.state.reserved, r.id).None?
    && (forall x :: x in w.state.reserved <==> x in v.state.reserved && x != r)
  }

  /** The spend moves from reserved to committed, so no counter moves; the tool's labels are on the session. */
  ghost predicate Committed(v: View, r: Reservation, labels: set<string>, w: View) {
    && Closed(v, r, w) && Counters(w.state) == Counters(v.state)
    && w.state.committed == Add(v.state.committed, r.deltas) && w.state.labels == v.state.labels + labels
    && |w.log| == |v.log| + 1 && v.log <= w.log
    && w.log[|v.log|].Settled? && w.log[|v.log|].outcome == COMMITTED && w.log[|v.log|].settled == r.id
    && (set l | l in w.log[|v.log|].labels) == labels
  }

  /** The spend is given back, counter by counter; nothing is committed and no label is added. */
  ghost predicate Released(v: View, r: Reservation, w: View) {
    && Closed(v, r, w) && Counters(w.state).Keys == Counters(v.state).Keys
    && (forall n :: Get(Counters(w.state), n) == Get(Counters(v.state), n) - Get(r.deltas, n))
    && w.state.committed == v.state.committed && w.state.labels == v.state.labels
    && w.log == v.log + [Settled([], RELEASED, r.id)]
  }

  /** The labels the manifest puts on the session for the recorded tool. */
  function ToolLabels(c: Config, v: View, id: int): set<string> {
    var env := RecordedEnvelope(v, id);
    if env.Some? && env.value.tool in c.bundle.manifest.tools then c.bundle.manifest.tools[env.value.tool].resultLabels else {}
  }

  lemma OpenIsRecorded(c: Config, sid: string, v: View, r: Reservation)
    requires WellFormed(c.bundle.manifest) && Good(c, sid, v) && r in v.state.reserved
    ensures RecordedEnvelope(v, r.id).Some? && RecordedEnvelope(v, r.id).value.tool in c.bundle.manifest.tools
    ensures Ordered(v.state.reserved) && Find(v.state.reserved, r.id) == Some(r)
    ensures v.state.principal.Some? && v.state.number == |v.log|
  {
    hide WellFormed, Good, ActionHash, BudgetReservation, Canonicalize;
    OpenReservationsVouched(c, sid, v);
    GoodParts(c, sid, v);
    FindOnly(v.state.reserved, r);
    if v.log != [] { OpenedPrincipal(c, sid, v); }
  }

  lemma ClosedBySettle(s: LedgerState, at: nat, labels: seq<string>, outcome: string, r: Reservation, names: set<string>)
    requires s.number == at && s.principal.Some? && (forall l :: l in labels ==> IsName(l))
    requires outcome == COMMITTED || (outcome == RELEASED && labels == [])
    requires Ordered(s.reserved) && r in s.reserved && Find(s.reserved, r.id) == Some(r)
    ensures Apply(s, Event(at, Settled(labels, outcome, r.id)), names) == Ok(Ledger.Settle(s, r, labels, outcome))
    ensures Find(Without(s.reserved, r.id), r.id).None?
    ensures forall x :: x in Without(s.reserved, r.id) <==> x in s.reserved && x != r
  {
    hide IsName;
    WithoutMembers(s.reserved, r.id);
    FindIn(Without(s.reserved, r.id), r.id);
    forall x | x in s.reserved && x.id == r.id ensures x == r { FindOnly(s.reserved, x); }
  }

  lemma CountersBefore(c: Config, sid: string, v: View, n: string)
    requires WellFormed(c.bundle.manifest) && Good(c, sid, v)
    ensures Get(Counters(v.state), n) == ReservedTotal(v.log, n) - ReleasedTotal(v.log, n)
    ensures Counters(v.state).Keys == CounterNames(c)
  {
    hide WellFormed, Good, Counters, ReservedTotal, ReleasedTotal;
    GoodWritten(c, sid, v);
    hide Fold, Written;
    Conservation(sid, v.log, CounterNames(c), n);
  }

  lemma TotalsAfterSettle(log: seq<Body>, labels: seq<string>, outcome: string, r: Reservation, n: string)
    requires LastReserved(log, r.id) == Some(r) && (outcome == COMMITTED || outcome == RELEASED)
    ensures var more := log + [Settled(labels, outcome, r.id)];
      && ReservedTotal(more, n) == ReservedTotal(log, n)
      && ReleasedTotal(more, n) == ReleasedTotal(log, n) + if outcome == RELEASED then Get(r.deltas, n) else 0
  {
    var more := log + [Settled(labels, outcome, r.id)];
    assert more[..|more| - 1] == log;
    assert COMMITTED != RELEASED;
  }

  lemma LatestIs(c: Config, sid: string, v: View, r: Reservation)
    requires WellFormed(c.bundle.manifest) && Good(c, sid, v) && r in v.state.reserved
    ensures LastReserved(v.log, r.id) == Some(r)
  {
    hide WellFormed, Good, LastReserved;
    GoodWritten(c, sid, v);
    hide Fold, Written;
    OpenIsLatest(sid, v.log, CounterNames(c));
  }

  lemma SettledView(c: Config, sid: string, v: View, r: Reservation, outcome: string)
    requires WellFormed(c.bundle.manifest) && Good(c, sid, v) && r in v.state.reserved && |v.log| <= MAX_SAFE_INT
    requires outcome == COMMITTED || outcome == RELEASED
    ensures RecordedEnvelope(v, r.id).Some? && RecordedEnvelope(v, r.id).value.tool in c.bundle.manifest.tools
    ensures var labels := if outcome == COMMITTED then SortedKeys(ToolLabels(c, v, r.id)) else [];
      && (forall x :: x in Without(v.state.reserved, r.id) <==> x in v.state.reserved && x != r)
      && Find(Without(v.state.reserved, r.id), r.id).None?
      && SettleStep(v, r.id, outcome, c) ==
         Ok(View(Ledger.Settle(v.state, r, labels, outcome), v.log + [Settled(labels, outcome, r.id)]))
  {
    hide WellFormed, Good, Apply, SortedKeys, IsName;
    OpenIsRecorded(c, sid, v, r);
    var tool := RecordedEnvelope(v, r.id).value.tool;
    ResultLabelsAreNames(c.bundle.manifest, tool);
    ClosedBySettle(v.state, |v.log|, if outcome == COMMITTED then SortedKeys(ToolLabels(c, v, r.id)) else [], outcome, r, CounterNames(c));
  }

  lemma SameCounters(a: map<string, int>, b: map<string, int>)
    requires a.Keys == b.Keys && forall n :: Get(a, n) == Get(b, n)
    ensures a == b
  {
    forall n | n in a ensures a[n] == b[n] { assert Get(a, n) == Get(b, n); }
  }

  /** Settling an open reservation as committed commits it. */
  lemma CommitExact(c: Config, sid: string, v: View, r: Reservation)
    requires WellFormed(c.bundle.manifest) && Good(c, sid, v) && r in v.state.reserved && |v.log| <= MAX_SAFE_INT
    ensures RecordedEnvelope(v, r.id).Some? && RecordedEnvelope(v, r.id).value.tool in c.bundle.manifest.tools
    ensures var labels := c.bundle.manifest.tools[RecordedEnvelope(v, r.id).value.tool].resultLabels;
      SettleStep(v, r.id, COMMITTED, c).Ok? && Committed(v, r, labels, SettleStep(v, r.id, COMMITTED, c).value)
  {
    hide WellFormed, Good, SettleStep, Counters, ReservedTotal, ReleasedTotal, SortedKeys, Add, Find;
    SettledView(c, sid, v, r, COMMITTED);
    LatestIs(c, sid, v, r);
    SettleGood(c, sid, v, r.id, COMMITTED);
    var w := SettleStep(v, r.id, COMMITTED, c).value;
    var labels := SortedKeys(ToolLabels(c, v, r.id));
    forall n ensures Get(Counters(w.state), n) == Get(Counters(v.state), n) {
      TotalsAfterSettle(v.log, labels, COMMITTED, r, n);
      CountersBefore(c, sid, v, n);
      CountersBefore(c, sid, w, n);
    }
    CountersBefore(c, sid, v, "");
    CountersBefore(c, sid, w, "");
    SameCounters(Counters(w.state), Counters(v.state));
    assert (set l | l in labels) == ToolLabels(c, v, r.id);
  }

  /** Settling an open reservation as released gives its budget back and leaves no other trace. */
  lemma ReleaseExact(c: Config, sid: string, v: View, r: Reservation)
    requires WellFormed(c.bundle.manifest) && Good(c, sid, v) && r in v.state.reserved && |v.log| <= MAX_SAFE_INT
    ensures SettleStep(v, r.id, RELEASED, c).Ok? && Released(v, r, SettleStep(v, r.id, RELEASED, c).value)
  {
    hide WellFormed, Good, SettleStep, Counters, ReservedTotal, ReleasedTotal, SortedKeys, Add, Find;
    SettledView(c, sid, v, r, RELEASED);
    assert COMMITTED != RELEASED;
    LatestIs(c, sid, v, r);
    SettleGood(c, sid, v, r.id, RELEASED);
    var w := SettleStep(v, r.id, RELEASED, c).value;
    forall n ensures Get(Counters(w.state), n) == Get(Counters(v.state), n) - Get(r.deltas, n) {
      TotalsAfterSettle(v.log, [], RELEASED, r, n);
      CountersBefore(c, sid, v, n);
      CountersBefore(c, sid, w, n);
    }
    CountersBefore(c, sid, v, "");
    CountersBefore(c, sid, w, "");
  }

  /** Nothing else settles: neither an id that is not open, nor an outcome that is neither of the two. */
  lemma OnlyOpenSettles(c: Config, v: View, id: int, outcome: string)
    requires Find(v.state.reserved, id).None? || (outcome != COMMITTED && outcome != RELEASED)
    ensures SettleStep(v, id, outcome, c).Err?
  {
    hide SortedKeys, IsName, Find;
  }

  /** A finished runner's job is committed if it succeeded and released if it failed, and it is running no more. */
  lemma FinishExact(c: Config, sid: string, run: Run, index: nat, succeeded: bool, r: Reservation)
    requires WellFormed(c.bundle.manifest) && Good(c, sid, run.view) && |run.view.log| <= MAX_SAFE_INT
    requires index < |run.running| && r in run.view.state.reserved && r.id == run.running[index].reservation
    ensures RecordedEnvelope(run.view, r.id).Some? && RecordedEnvelope(run.view, r.id).value.tool in c.bundle.manifest.tools
    ensures var next := Do(run, Finish(index, succeeded), c);
      var labels := c.bundle.manifest.tools[RecordedEnvelope(run.view, r.id).value.tool].resultLabels;
      && (if succeeded then Committed(run.view, r, labels, next.view) else Released(run.view, r, next.view))
      && next.running == run.running[..index] + run.running[index + 1..] && next.started == run.started
  {
    hide WellFormed, Good, SettleStep, Committed, Released;
    CommitExact(c, sid, run.view, r);
    ReleaseExact(c, sid, run.view, r);
  }
}
