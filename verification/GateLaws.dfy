/** Laws of every log the gate can have written: reservations, tokens and approvals. */
module GateLaws {
  import opened Wrappers
  import opened Json
  import opened JsonParser
  import opened Money
  import opened Path
  import opened Unicode
  import opened Url
  import opened Manifest
  import opened Canonical
  import opened Cedar
  import opened Decide
  import opened Guardrails
  import opened Snapshots
  import opened Ledger
  import opened LedgerLaws
  import opened GateSpec
  import opened GateLog

  // ---- access to one position ----

  lemma JustifiedAt(c: Config, sid: string, log: seq<Body>, i: nat)
    requires WellFormed(c.bundle.manifest) && Written(c, sid, log) && i < |log|
    ensures Justified(c, sid, log, i)
  {
    hide WellFormed, Justified, Fold;
  }

  lemma ReservationAt(c: Config, sid: string, log: seq<Body>, i: nat)
    requires WellFormed(c.bundle.manifest) && Written(c, sid, log) && i < |log| && log[i].Reserved?
    ensures ReservationFollows(c, sid, log, i)
  {
    hide WellFormed, Fold, ReservationFollows, DecisionFollows, Backed, LabelsFollow, StateAt, Written;
    JustifiedAt(c, sid, log, i);
  }

  lemma DecisionAt(c: Config, sid: string, log: seq<Body>, i: nat)
    requires WellFormed(c.bundle.manifest) && Written(c, sid, log) && i < |log| && log[i].Decided?
    ensures StateAt(c, sid, log, i).Ok? && DecisionFollows(c, StateAt(c, sid, log, i).value, log[i])
  {
    hide WellFormed, Fold, ReservationFollows, DecisionFollows, Backed, LabelsFollow, StateAt, Written;
    JustifiedAt(c, sid, log, i);
  }

  lemma WrittenPrefix(c: Config, sid: string, log: seq<Body>, n: nat)
    requires WellFormed(c.bundle.manifest) && Written(c, sid, log) && n <= |log|
    ensures Written(c, sid, log[..n])
    decreases |log|
  {
    hide WellFormed, Justified, Fold;
    FoldPrefix(sid, log, CounterNames(c), n);
    if n < |log| {
      var m := |log| - 1;
      FoldPrefix(sid, log, CounterNames(c), m);
      assert log == log[..m] + [log[m]];
      forall i | 0 <= i < m ensures Justified(c, sid, log[..m], i) {
        JustifiedStable(c, sid, log[..m], log[m], i);
      }
      assert log[..m][..n] == log[..n];
      WrittenPrefix(c, sid, log[..m], n);
    } else {
      assert log[..n] == log;
    }
  }

  // ---- reservation ids are never used twice ----

  predicate Increasing(log: seq<Body>) {
    forall i, j :: 0 <= i < j < |log| && log[i].Reserved? && log[j].Reserved? ==> log[i].reservation < log[j].reservation
  }

  lemma ReservationsIncrease(c: Config, sid: string, log: seq<Body>)
    requires WellFormed(c.bundle.manifest) && Written(c, sid, log)
    ensures Increasing(log)
  {
    hide WellFormed, Written, BudgetOf, Backed;
    forall i, j | 0 <= i < j < |log| && log[i].Reserved? && log[j].Reserved?
      ensures log[i].reservation < log[j].reservation
    {
      ReservationAt(c, sid, log, i);
      ReservationAt(c, sid, log, j);
    }
  }

  lemma {:induction false} OpenedAtMostOnce(log: seq<Body>, id: int)
    requires Increasing(log)
    ensures Opened(log, id) <= 1
    ensures Opened(log, id) == 1 <==> exists i :: 0 <= i < |log| && log[i].Reserved? && log[i].reservation == id
  {
    if log != [] {
      var m := |log| - 1;
      OpenedAtMostOnce(log[..m], id);
      if i :| 0 <= i < |log| && log[i].Reserved? && log[i].reservation == id {
        if i < m { assert log[..m][i] == log[i]; }
      }
    }
  }

  /**
   * A reservation is opened at most once and settled at most once; once settled it is closed in every longer log, so its
   * token is never redeemable again.
   */
  lemma SettledForGood(c: Config, sid: string, v: View, w: View, id: int)
    requires WellFormed(c.bundle.manifest) && Good(c, sid, v) && Good(c, sid, w) && v.log <= w.log
    ensures SettledTimes(w.log, id) <= Opened(w.log, id) <= 1
    ensures SettledTimes(v.log, id) == 1 ==> Find(w.state.reserved, id) == None
  {
    hide WellFormed, Good, Increasing;
    GoodWritten(c, sid, w);
    hide Written, Fold;
    ReservationsIncrease(c, sid, w.log);
    OpenedAtMostOnce(w.log, id);
    SettledOnce(sid, w.log, CounterNames(c), id);
    SettledMonotone(w.log, |v.log|, id);
    assert w.log[..|v.log|] == v.log;
  }

  lemma {:induction false} SettledMonotone(log: seq<Body>, n: nat, id: int)
    requires n <= |log|
    ensures SettledTimes(log[..n], id) <= SettledTimes(log, id)
  {
    if n == |log| {
      assert log[..n] == log;
    } else {
      assert log[..|log| - 1][..n] == log[..n];
      SettledMonotone(log[..|log| - 1], n, id);
    }
  }

  // ---- every open reservation is an allowed action ----

  lemma {:induction false} LastReservedAt(log: seq<Body>, id: int) returns (i: nat)
    requires LastReserved(log, id).Some?
    ensures i < |log| && log[i].Reserved? && log[i].reservation == id
    ensures LastReserved(log, id) == Some(Reservation(id, log[i].actionHash, log[i].counters, log[i].expiresMs))
  {
    i := |log| - 1;
    if !(log[i].Reserved? && log[i].reservation == id) { i := LastReservedAt(log[..i], id); }
  }

  /** The action a recorded envelope denotes. */
  function ActionAt(c: Config, env: Envelope): Result<Action>
    requires WellFormed(c.bundle.manifest)
  {
    Canonicalize(c.bundle.tables, c.bundle.manifest, env)
  }

  lemma AllowedAction(c: Config, s: LedgerState, body: Body, hash: string)
    requires WellFormed(c.bundle.manifest) && body.Decided? && DecisionFollows(c, s, body) && Allowed(body, hash)
    ensures ValidEnvelope(body.envelope) && ActionAt(c, body.envelope).Ok?
    ensures ActionHash(c.bundle, ActionAt(c, body.envelope).value) == hash
    ensures Judge(body.envelope, SnapshotOf(s, body.facts).value, c.bundle).verdict == ALLOW
    ensures Judge(body.envelope, SnapshotOf(s, body.facts).value, c.bundle).actionHash == Some(hash)
  {
    hide WellFormed, ValidEnvelope, SnapshotOf, ActionHash, CheckSnapshot, Canonicalize, SnapshotHash, InputHash,
         Text, BuildContext, Evaluate;
    var snapshot := SnapshotOf(s, body.facts).value;
    assert body.decision == Decide.Decide(body.envelope, snapshot, c.bundle);
  }

  lemma BudgetKindsCount(t: Tables, kind: Kind, raw: Json)
    requires WellFormedKind(kind) && BudgetKind(kind) && CanonicalValue(t, kind, raw).Ok?
    ensures BudgetAmount(CanonicalValue(t, kind, raw).value).Ok?
  {
    hide CanonicalMoney, CanonicalUrl, CanonicalTemplate, CanonicalEmail, CanonicalPath;
    if kind.MoneyKind? { AcceptedRange(raw, kind.currencies, kind.minMinor, kind.maxMinor); }
  }

  /** A reservation's budget is the declared one: the fallback that reserves nothing is never taken. */
  lemma BudgetIsDeclared(c: Config, env: Envelope)
    requires WellFormed(c.bundle.manifest) && ActionAt(c, env).Ok?
    ensures var tool := c.bundle.manifest.tools[env.tool];
      BudgetReservation(ActionAt(c, env).value, tool) == Ok(BudgetOf(env, c.bundle))
  {
    hide LoadsStrict, CanonicalArgs, HostSuffixes, ResourceId;
    var t, m := c.bundle.tables, c.bundle.manifest;
    ActionIsCanonical(t, m, env);
    var action, tool := ActionAt(c, env).value, m.tools[env.tool];
    hide Canonicalize;
    if tool.budget.Some? && tool.budget.value.from in action.args {
      var kind := tool.args[tool.budget.value.from].kind;
      var raw :| CanonicalValue(t, kind, raw) == Ok(action.args[tool.budget.value.from]);
      BudgetKindsCount(t, kind, raw);
    }
  }

  /** An open reservation names the ALLOW that made it, of exactly its action and exactly its budget. */
  ghost predicate Vouched(c: Config, log: seq<Body>, r: Reservation)
    requires WellFormed(c.bundle.manifest)
  {
    && 0 <= r.id < |log| && Allowed(log[r.id], r.actionHash)
    && var env := log[r.id].envelope;
      && ValidEnvelope(env) && ActionAt(c, env).Ok?
      && ActionHash(c.bundle, ActionAt(c, env).value) == r.actionHash
      && BudgetReservation(ActionAt(c, env).value, c.bundle.manifest.tools[env.tool]) == Ok(r.deltas)
      && r.expiresMs == env.tMs + c.ttlMs
  }

  lemma ReservedIsVouched(c: Config, sid: string, log: seq<Body>, i: nat)
    requires WellFormed(c.bundle.manifest) && Written(c, sid, log) && i < |log| && log[i].Reserved?
    ensures Vouched(c, log, Reservation(log[i].reservation, log[i].actionHash, log[i].counters, log[i].expiresMs))
  {
    hide WellFormed, Written, Backed, StateAt, DecisionFollows, BudgetOf, ActionAt, ActionHash, BudgetReservation,
         ValidEnvelope;
    ReservationAt(c, sid, log, i);
    var k := log[i].reservation;
    DecisionAt(c, sid, log, k);
    AllowedAction(c, StateAt(c, sid, log, k).value, log[k], log[i].actionHash);
    BudgetIsDeclared(c, log[k].envelope);
  }

  lemma OpenReservationsVouched(c: Config, sid: string, v: View)
    requires WellFormed(c.bundle.manifest) && Good(c, sid, v)
    ensures forall r :: r in v.state.reserved ==> Vouched(c, v.log, r)
  {
    hide WellFormed, Written, AllPrompt, Fold, Vouched;
    OpenIsLatest(sid, v.log, CounterNames(c));
    forall r | r in v.state.reserved ensures Vouched(c, v.log, r) {
      var i := LastReservedAt(v.log, r.id);
      ReservedIsVouched(c, sid, v.log, i);
    }
  }

  // ---- redeeming ----

  /** The recorded envelope, canonicalised again and rendered for the tool. */
  function JobAt(c: Config, v: View, reservation: int): Option<Job>
    requires WellFormed(c.bundle.manifest)
  {
    var env := RecordedEnvelope(v, reservation);
    if env.None? || ActionAt(c, env.value).Err? then None
    else
      ActionIsRenderable(c.bundle.tables, c.bundle.manifest, env.value);
      Some(Job(reservation, ActionAt(c, env.value).value.tool, WireArguments(ActionAt(c, env.value).value)))
  }

  function Pinned(job: Option<Job>, pinned: bool): Result<Job> {
    if job.None? then Err("unknown_record") else if pinned then Ok(job.value) else Err("egress_refused")
  }

  lemma RedeemVouched(c: Config, v: View, payload: TokenPayload, pinned: bool, r: Reservation)
    requires WellFormed(c.bundle.manifest) && Find(v.state.reserved, payload.reservation) == Some(r)
    requires r.id == payload.reservation && Vouched(c, v.log, r) && r.actionHash == payload.actionHash
    ensures JobAt(c, v, r.id).Some? && RedeemStep(v, payload, pinned, c) == Pinned(JobAt(c, v, r.id), pinned)
  {
    hide WellFormed, ValidEnvelope, ActionHash, Canonicalize, BudgetReservation, WireArguments, RenderableAction, Find;
  }

  /**
   * Redeeming depends on the open reservation alone: no record is missing, no envelope fails to re-canonicalise and no
   * hash is recomputed differently, and the runner gets the wire arguments of the checked action.
   */
  lemma RedeemExact(c: Config, sid: string, v: View, payload: TokenPayload, pinned: bool)
    requires WellFormed(c.bundle.manifest) && Good(c, sid, v)
    ensures var entry := Find(v.state.reserved, payload.reservation);
      if entry.None? then RedeemStep(v, payload, pinned, c) == Err("reservation_not_open")
      else if entry.value.actionHash != payload.actionHash then RedeemStep(v, payload, pinned, c) == Err("action_mismatch")
      else JobAt(c, v, payload.reservation).Some? && RedeemStep(v, payload, pinned, c) == Pinned(JobAt(c, v, payload.reservation), pinned)
  {
    hide WellFormed, Good, ValidEnvelope, ActionHash, Canonicalize, WireArguments, RenderableAction, JobAt, Vouched;
    OpenReservationsVouched(c, sid, v);
    FindIn(v.state.reserved, payload.reservation);
    var entry := Find(v.state.reserved, payload.reservation);
    if entry.Some? && entry.value.actionHash == payload.actionHash { RedeemVouched(c, v, payload, pinned, entry.value); }
  }

  predicate Opens(body: Body, p: TokenPayload) {
    body.Reserved? && body.actionHash == p.actionHash && body.expiresMs == p.expiresMs && body.reservation == p.reservation
  }

  /** The token of an allowed submission, in the log where it was minted. */
  predicate MintedIn(log: seq<Body>, p: TokenPayload) {
    exists i :: 0 <= i < |log| && Opens(log[i], p)
  }

  lemma SubmitMints(v: View, call: Call, nowMs: int, c: Config)
    requires WellFormed(c.bundle.manifest)
    ensures var reply := SubmitStep(v, call, nowMs, c);
      reply.result.Ok? && reply.result.value.token.Some? ==>
        MintedIn(reply.view.log, reply.result.value.token.value) && reply.result.value.decision.verdict == ALLOW
  {
    hide WellFormed, SnapshotOf, ValidEnvelope, Decide.Decide, BudgetOf, Apply;
    var reply := SubmitStep(v, call, nowMs, c);
    if reply.result.Ok? && reply.result.value.token.Some? {
      assert Opens(reply.view.log[|reply.view.log| - 1], reply.result.value.token.value);
    }
  }

  /** A minted token never meets a mismatch: until its reservation is settled it redeems to exactly the checked action. */
  lemma MintedRedeems(c: Config, sid: string, v: View, p: TokenPayload, pinned: bool)
    requires WellFormed(c.bundle.manifest) && Good(c, sid, v) && MintedIn(v.log, p)
    ensures SettledTimes(v.log, p.reservation) <= 1
    ensures RedeemStep(v, p, pinned, c) ==
      if SettledTimes(v.log, p.reservation) == 1 then Err("reservation_not_open") else Pinned(JobAt(c, v, p.reservation), pinned)
    ensures SettledTimes(v.log, p.reservation) == 0 ==> JobAt(c, v, p.reservation).Some?
  {
    hide WellFormed, Good, RedeemStep, JobAt, Increasing;
    var i :| 0 <= i < |v.log| && Opens(v.log[i], p);
    GoodWritten(c, sid, v);
    hide Written, Fold;
    ReservationsIncrease(c, sid, v.log);
    OpenedAtMostOnce(v.log, p.reservation);
    SettledOnce(sid, v.log, CounterNames(c), p.reservation);
    RedeemExact(c, sid, v, p, pinned);
    OpenIsLatest(sid, v.log, CounterNames(c));
    FindIn(v.state.reserved, p.reservation);
    if Find(v.state.reserved, p.reservation).Some? {
      var j := LastReservedAt(v.log, p.reservation);
      SameOpening(v.log, i, j);
    }
  }

  lemma GoodWritten(c: Config, sid: string, v: View)
    requires WellFormed(c.bundle.manifest) && Good(c, sid, v)
    ensures Written(c, sid, v.log) && Fold(sid, v.log, CounterNames(c)) == Ok(v.state)
  {
    hide WellFormed, Written, AllPrompt, Fold;
  }

  lemma SameOpening(log: seq<Body>, i: nat, j: nat)
    requires Increasing(log) && i < |log| && j < |log| && log[i].Reserved? && log[j].Reserved?
    requires log[i].reservation == log[j].reservation
    ensures i == j
  {
  }
}
