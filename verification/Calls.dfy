/** What each public call of the gate answers and does, in any world the gate can be in. */
module Calls {
  import opened Wrappers
  import opened Json
  import opened Syntax
  import opened Manifest
  import opened Canonical
  import opened Decide
  import opened Snapshots
  import opened Ledger
  import opened LedgerLaws
  import opened GateSpec
  import opened GateLog
  import opened GateLaws
  import opened GateRuns
  import opened Sweeping
  import opened Settlements
  import opened Chain
  import opened Tokens
  import opened Store
  import opened Gate
  import opened World

  /** The world of a gate: the files it found, and the sessions it holds, all of them its own. */
  ghost predicate Reached(c: Config, sign: Sign, files: Files, views: Views)
    requires WellFormed(c.bundle.manifest)
  {
    ValidConfig(c) && GateFiles(c, sign, files) && AllGood(c, views)
  }

  lemma ReachedExisting(c: Config, sign: Sign, files: Files, views: Views, sid: string)
    requires WellFormed(c.bundle.manifest) && Reached(c, sign, files, views)
    ensures Existing(files, views, sid, c).Ok? ==> Good(c, sid, Existing(files, views, sid, c).value)
  {
    hide WellFormed, ValidConfig, GateFiles, Good, Existing, Admitted;
    ExistingGood(c, sign, files, views, sid);
  }

  lemma ReachedOpening(c: Config, sign: Sign, files: Files, views: Views, sid: string, principal: string)
    requires WellFormed(c.bundle.manifest) && Reached(c, sign, files, views)
    ensures var call := OpenCall(files, views, sid, principal, c);
      call.result.Ok? ==> Good(c, sid, call.result.value) && call.views == views[sid := call.result.value]
  {
    hide WellFormed, ValidConfig, GateFiles, Good, OpenStep, Admitted;
    OpenCallGood(c, sign, files, views, sid, principal);
  }

  // ---- opening ----

  lemma OpenStepExact(v: View, principal: string, c: Config)
    requires v.state.number == |v.log| && (v.state.principal.Some? <==> v.log != [])
    ensures var step := OpenStep(v, principal, c);
      && (v.log != [] ==> step == Ok(v))
      && (v.log == [] ==> (step.Ok? <==> IsId(principal)))
      && (v.log == [] && IsId(principal) ==>
            step == Ok(View(v.state.(number := 1, principal := Some(principal)), [SessionOpened(principal, v.state.sessionId)])))
  {
    hide IsId;
    assert [] + [SessionOpened(principal, v.state.sessionId)] == [SessionOpened(principal, v.state.sessionId)];
  }

  /** The first principal opens a session and is on record as having done so; every later open finds it as it is. */
  lemma OpenCallExact(c: Config, sign: Sign, files: Files, views: Views, sid: string, principal: string)
    requires WellFormed(c.bundle.manifest) && Reached(c, sign, files, views) && Admitted(files, views, sid, c).Ok?
    ensures var v, done := Admitted(files, views, sid, c).value, OpenCall(files, views, sid, principal, c);
      && (done.result.Ok? <==> v.log != [] || IsId(principal))
      && sid in done.views && done.views == views[sid := done.views[sid]]
      && (done.result.Ok? ==> done.result == Ok(done.views[sid]))
      && done.views[sid] ==
         if v.log != [] || !IsId(principal) then v
         else View(v.state.(number := 1, principal := Some(principal)), [SessionOpened(principal, sid)])
  {
    hide WellFormed, ValidConfig, GateFiles, Good, Admitted, IsId, OpenStep;
    var v := Admitted(files, views, sid, c).value;
    ExistingGood(c, sign, files, views, sid);
    GoodNumber(c, sid, v);
    OpenStepExact(v, principal, c);
  }

  lemma GoodNumber(c: Config, sid: string, v: View)
    requires WellFormed(c.bundle.manifest) && Good(c, sid, v)
    ensures v.state.number == |v.log| && v.state.sessionId == sid && (v.state.principal.Some? <==> v.log != [])
  {
    hide WellFormed, Good, Sound, Fold;
    GoodWritten(c, sid, v);
    FoldSound(sid, v.log, CounterNames(c));
  }

  // ---- settling ----

  /** Settling an open reservation commits or releases exactly it, in exactly its session. */
  lemma SettleCallExact(c: Config, sign: Sign, files: Files, views: Views, sid: string, r: Reservation, outcome: string)
    requires WellFormed(c.bundle.manifest) && Reached(c, sign, files, views) && Existing(files, views, sid, c).Ok?
    requires var v := Existing(files, views, sid, c).value; r in v.state.reserved && |v.log| <= MAX_SAFE_INT
    ensures RecordedEnvelope(Existing(files, views, sid, c).value, r.id).Some?
    ensures RecordedEnvelope(Existing(files, views, sid, c).value, r.id).value.tool in c.bundle.manifest.tools
    ensures var v, done := Existing(files, views, sid, c).value, SettleCall(files, views, sid, r.id, outcome, c);
      var labels := c.bundle.manifest.tools[RecordedEnvelope(v, r.id).value.tool].resultLabels;
      && sid in done.views && done.views == views[sid := done.views[sid]]
      && (outcome == COMMITTED ==> done.result == Ok(()) && Committed(v, r, labels, done.views[sid]))
      && (outcome == RELEASED ==> done.result == Ok(()) && Released(v, r, done.views[sid]))
      && (outcome != COMMITTED && outcome != RELEASED ==> done.result.Err? && done.views[sid] == v)
  {
    hide WellFormed, Reached, Good, Existing, SettleStep, Committed, Released;
    var v := Existing(files, views, sid, c).value;
    ReachedExisting(c, sign, files, views, sid);
    CommitExact(c, sid, v, r);
    ReleaseExact(c, sid, v, r);
    if outcome != COMMITTED && outcome != RELEASED { OnlyOpenSettles(c, v, r.id, outcome); }
  }

  // ---- executing ----

  /** Only an unexpired token of the gate's own key gets a job, and it gets that of the reservation it names. */
  lemma CheckCallSound(c: Config, sign: Sign, files: Files, views: Views, token: Token, nowMs: int, pinned: bool)
    returns (p: TokenPayload)
    requires WellFormed(c.bundle.manifest) && Reached(c, sign, files, views)
    requires CheckCall(files, views, sign, token, nowMs, pinned, c).result.Ok?
    ensures token == Mint(sign, p) && nowMs <= p.expiresMs && pinned
    ensures Existing(files, views, p.sessionId, c).Ok?
    ensures var v := Existing(files, views, p.sessionId, c).value;
      && Find(v.state.reserved, p.reservation).Some? && Find(v.state.reserved, p.reservation).value.actionHash == p.actionHash
      && JobAt(c, v, p.reservation) == Some(CheckCall(files, views, sign, token, nowMs, pinned, c).result.value)
  {
    hide WellFormed, Reached, Good, Existing, Verify, RedeemStep, JobAt, Find, Mint;
    p := Verify(sign, token, nowMs).value;
    VerifiedIsMinted(sign, token, nowMs);
    ReachedExisting(c, sign, files, views, p.sessionId);
    RedeemExact(c, p.sessionId, Existing(files, views, p.sessionId, c).value, p, pinned);
  }

  lemma ReservedIsValid(s: LedgerState, at: nat, body: Body, names: set<string>)
    requires body.Reserved? && Apply(s, Event(at, body), names).Ok?
    ensures IsHash(body.actionHash) && SafeNat(body.expiresMs) && body.reservation >= 0
  {
    hide IsHash;
  }

  /** A minted token's payload is one the verifier reads. */
  lemma MintedIsValid(c: Config, sid: string, v: View, p: TokenPayload)
    requires WellFormed(c.bundle.manifest) && Good(c, sid, v) && MintedIn(v.log, p) && p.sessionId == sid
    ensures ValidPayload(p) && p.reservation <= MAX_SAFE_INT
  {
    hide WellFormed, Good, IsHash, IsId;
    var i :| 0 <= i < |v.log| && Opens(v.log[i], p);
    GoodWritten(c, sid, v);
    ReservationAt(c, sid, v.log, i);
    hide Written;
    FoldPrefix(sid, v.log, CounterNames(c), i + 1);
    assert v.log[..i + 1][..i] == v.log[..i];
    FoldLast(sid, v.log[..i + 1], CounterNames(c));
    FoldSound(sid, v.log, CounterNames(c));
    hide Fold;
    ReservedIsValid(Fold(sid, v.log[..i], CounterNames(c)).value, i, v.log[i], CounterNames(c));
    WrittenLength(c, sid, v.log);
  }

  lemma WrittenLength(c: Config, sid: string, log: seq<Body>)
    requires WellFormed(c.bundle.manifest) && Written(c, sid, log)
    ensures |log| <= MAX_SAFE_INT + 1
  {
    hide WellFormed, Fold, Justified;
  }

  /** What presenting a minted token answers: expiry first, then settlement, then the address pin. */
  lemma CheckCallExact(c: Config, sign: Sign, files: Files, views: Views, p: TokenPayload, nowMs: int, pinned: bool)
    requires WellFormed(c.bundle.manifest) && Reached(c, sign, files, views) && Existing(files, views, p.sessionId, c).Ok?
    requires MintedIn(Existing(files, views, p.sessionId, c).value.log, p)
    ensures var v := Existing(files, views, p.sessionId, c).value;
      CheckCall(files, views, sign, Mint(sign, p), nowMs, pinned, c).result ==
        if nowMs > p.expiresMs then Err("token_expired")
        else if SettledTimes(v.log, p.reservation) == 1 then Err("reservation_not_open")
        else Pinned(JobAt(c, v, p.reservation), pinned)
    ensures SettledTimes(Existing(files, views, p.sessionId, c).value.log, p.reservation) == 0 ==>
      JobAt(c, Existing(files, views, p.sessionId, c).value, p.reservation).Some?
  {
    hide WellFormed, Reached, Good, Existing, Verify, RedeemStep, JobAt, Mint, MintedIn, SettledTimes, ValidPayload;
    var v := Existing(files, views, p.sessionId, c).value;
    ReachedExisting(c, sign, files, views, p.sessionId);
    MintedIsValid(c, p.sessionId, v, p);
    MintedVerifies(sign, p, nowMs);
    MintedRedeems(c, p.sessionId, v, p, pinned);
  }

  /** Presenting a token is the redeeming step of a run, at the clock's reading. */
  lemma CheckCallIsStep(c: Config, sign: Sign, files: Files, views: Views, p: TokenPayload, nowMs: int, pinned: bool)
    requires WellFormed(c.bundle.manifest) && Existing(files, views, p.sessionId, c).Ok?
    requires ValidPayload(p) && p.reservation <= MAX_SAFE_INT
    ensures CheckCall(files, views, sign, Mint(sign, p), nowMs, pinned, c).result ==
            RedeemAt(Existing(files, views, p.sessionId, c).value, p, pinned, nowMs, c)
  {
    hide WellFormed, Existing, Verify, RedeemStep, Mint, ValidPayload;
    MintedVerifies(sign, p, nowMs);
  }

  // ---- submitting ----

  lemma ReservedIsOpen(v: View, body: Body, names: set<string>)
    requires body.Reserved? && Append(v, body, names).Ok? && Ordered(v.state.reserved)
    ensures Find(Append(v, body, names).value.state.reserved, body.reservation).Some?
  {
    hide Ordered, Find, Insert, IsHash, SafeNat, SafeDeltas;
    FindInserted(v.state.reserved, Reservation(body.reservation, body.actionHash, body.counters, body.expiresMs), body.reservation);
  }

  lemma AppendedState(v: View, body: Body, names: set<string>)
    requires Append(v, body, names).Ok? && (body.Decided? || body.ApprovalConsumed?)
    ensures var w := Append(v, body, names).value; w.state.reserved == v.state.reserved && w.state.sessionId == v.state.sessionId
    ensures Append(v, body, names).value.log == v.log + [body]
  {
    hide IsHash;
  }

  /** The token of a submission: of its action, from its own clock, for its session, open in the log it leaves. */
  lemma FreshToken(c: Config, v: View, call: Call, nowMs: int)
    requires WellFormed(c.bundle.manifest) && Ordered(v.state.reserved) && SubmitStep(v, call, nowMs, c).result.Ok?
    ensures var reply := SubmitStep(v, call, nowMs, c); var t := reply.result.value;
      && (t.decision.verdict == ALLOW <==> t.token.Some?) && (t.token.Some? <==> t.reservation.Some?)
      && (t.token.Some? ==> var p := t.token.value;
            && p.sessionId == v.state.sessionId && p.expiresMs == nowMs + c.ttlMs && Some(p.actionHash) == t.decision.actionHash
            && p.reservation == |v.log| && t.reservation == Some(p.reservation)
            && Find(reply.view.state.reserved, p.reservation).Some?)
  {
    hide WellFormed, SnapshotOf, ValidEnvelope, Decide.Decide, BudgetOf, GateSpec.Append, Ordered, Find, CounterNames;
    var env, names := EnvelopeOf(v, call, nowMs), CounterNames(c);
    var decision := Decide.Decide(env, SnapshotOf(v.state, call.facts).value, c.bundle);
    var decided := Decided(decision, env, call.facts);
    AppendedState(v, decided, names);
    var w := Append(v, decided, names).value;
    if decision.verdict == ALLOW {
      var hash := decision.actionHash.value;
      var approved := hash in SnapshotOf(v.state, call.facts).value.approvals;
      var x := if approved then Append(w, ApprovalConsumed(hash), names).value else w;
      if approved { AppendedState(w, ApprovalConsumed(hash), names); }
      ReservedIsOpen(x, Body.Reserved(hash, BudgetOf(env, c.bundle), nowMs + c.ttlMs, |v.log|), names);
    }
  }

  lemma SubmitDecides(c: Config, v: View, call: Call, nowMs: int)
    requires WellFormed(c.bundle.manifest) && SubmitStep(v, call, nowMs, c).result.Ok?
    ensures SnapshotOf(v.state, call.facts).Ok?
    ensures var reply, env := SubmitStep(v, call, nowMs, c), Envelope(call.tool, call.arguments, call.principal, v.state.sessionId, nowMs);
      var decision := Decide.Decide(env, SnapshotOf(v.state, call.facts).value, c.bundle);
      && reply.result.value.decision == decision
      && |v.log| < |reply.view.log| && v.log <= reply.view.log && reply.view.log[|v.log|] == Decided(decision, env, call.facts)
      && (decision.verdict != ALLOW ==> reply.view.log == v.log + [Decided(decision, env, call.facts)])
  {
    hide WellFormed, SnapshotOf, ValidEnvelope, Decide.Decide, BudgetOf, Apply, CounterNames;
  }

  /**
   * A submission's receipt carries a token exactly when it is allowed, and that token gets its job from the world the
   * submission leaves until it expires.
   */
  lemma SubmitCallExact(c: Config, sign: Sign, files: Files, views: Views, sid: string, call: Call, nowMs: int)
    requires WellFormed(c.bundle.manifest) && Reached(c, sign, files, views)
    requires SubmitCall(files, views, sid, call, nowMs, c).result.Ok?
    ensures var done := SubmitCall(files, views, sid, call, nowMs, c); var ticket := done.result.value;
      var receipt := Receive(sign, done.result);
      && sid in done.views && done.views == views[sid := done.views[sid]]
      && receipt.Ok? && receipt.value.decision == ticket.decision && receipt.value.reservation == ticket.reservation
      && (ticket.decision.verdict == ALLOW <==> ticket.token.Some?)
      && (ticket.token.None? ==> receipt.value.token.None?)
      && (ticket.token.Some? ==> var p := ticket.token.value;
            && receipt.value.token == Some(Mint(sign, p))
            && p.sessionId == sid && p.expiresMs == nowMs + c.ttlMs && Some(p.actionHash) == ticket.decision.actionHash
            && JobAt(c, done.views[sid], p.reservation).Some?
            && forall t, pinned :: CheckCall(files, done.views, sign, Mint(sign, p), t, pinned, c).result ==
                 if t > p.expiresMs then Err("token_expired") else Pinned(JobAt(c, done.views[sid], p.reservation), pinned))
  {
    hide WellFormed, Reached, Good, OpenCall, SubmitStep, CheckCall, JobAt, Mint, MintedIn, SettledTimes, Existing, Ordered, Find;
    var entered := OpenCall(files, views, sid, call.principal, c).result.value;
    ReachedOpening(c, sign, files, views, sid, call.principal);
    GoodParts(c, sid, entered);
    FreshToken(c, entered, call, nowMs);
    SubmitMints(entered, call, nowMs, c);
    var done := SubmitCall(files, views, sid, call, nowMs, c);
    SubmitStays(c, sign, files, views, sid, call, nowMs);
    var w := done.views[sid];
    if done.result.value.token.Some? {
      var p := done.result.value.token.value;
      OpenedBound(c, sid, w, p.reservation);
      assert Existing(files, done.views, sid, c) == Ok(w) by { Held(files, done.views, sid, c); }
      forall t, pinned ensures CheckCall(files, done.views, sign, Mint(sign, p), t, pinned, c).result ==
        if t > p.expiresMs then Err("token_expired") else Pinned(JobAt(c, w, p.reservation), pinned)
      {
        CheckCallExact(c, sign, files, done.views, p, t, pinned);
      }
      CheckCallExact(c, sign, files, done.views, p, p.expiresMs, true);
    }
  }

  lemma Held(files: Files, views: Views, sid: string, c: Config)
    requires sid in views
    ensures Existing(files, views, sid, c) == Ok(views[sid])
  {
  }

  lemma SubmitStays(c: Config, sign: Sign, files: Files, views: Views, sid: string, call: Call, nowMs: int)
    requires WellFormed(c.bundle.manifest) && Reached(c, sign, files, views)
    requires SubmitCall(files, views, sid, call, nowMs, c).result.Ok?
    ensures var done := SubmitCall(files, views, sid, call, nowMs, c);
      Reached(c, sign, files, done.views) && sid in done.views && Good(c, sid, done.views[sid])
  {
    hide WellFormed, ValidConfig, GateFiles, Good, OpenCall, SubmitStep;
    CallGood(c, sign, files, views, SubmitTo(sid, call, nowMs));
  }

  // ---- approving and sweeping ----

  lemma GrantExact(v: View, hash: string, approver: string, c: Config)
    requires v.state.principal.Some? && v.state.number == |v.log|
    ensures var step := GrantStep(v, hash, approver, c);
      && (step.Ok? <==> |v.log| <= MAX_SAFE_INT && IsHash(hash) && IsId(approver))
      && (step.Ok? ==> step.value == View(v.state.(number := v.state.number + 1, approvals := v.state.approvals + {hash}),
                                          v.log + [ApprovalGranted(hash, approver)]))
  {
    hide IsHash, IsId;
  }

  lemma OpenedByCall(files: Files, views: Views, sid: string, principal: string, c: Config)
    requires OpenCall(files, views, sid, principal, c).result.Ok?
    ensures OpenCall(files, views, sid, principal, c).result.value.state.principal.Some?
    ensures OpenCall(files, views, sid, principal, c).result.value.log != [] || Admitted(files, views, sid, c).value.state.principal.Some?
  {
    hide Admitted, IsId;
  }

  /** An approval that is accepted stands in its session from then on, and nothing else about any session changes. */
  lemma ApproveCallExact(c: Config, sign: Sign, files: Files, views: Views, sid: string, hash: string, approver: string)
    requires WellFormed(c.bundle.manifest) && Reached(c, sign, files, views)
    requires OpenCall(files, views, sid, approver, c).result.Ok?
    ensures var v, done := OpenCall(files, views, sid, approver, c).result.value, ApproveCall(files, views, sid, hash, approver, c);
      && (done.result.Ok? <==> |v.log| <= MAX_SAFE_INT && IsHash(hash) && IsId(approver))
      && sid in done.views && done.views == views[sid := done.views[sid]]
      && (done.result.Ok? ==> done.views[sid].state == v.state.(number := v.state.number + 1, approvals := v.state.approvals + {hash}))
      && (done.result.Ok? ==> done.views[sid].log == v.log + [ApprovalGranted(hash, approver)])
      && (done.result.Err? ==> done.views[sid] == v)
  {
    hide WellFormed, Reached, Good, OpenCall, GrantStep, IsHash, IsId;
    var v := OpenCall(files, views, sid, approver, c).result.value;
    ReachedOpening(c, sign, files, views, sid, approver);
    OpenedByCall(files, views, sid, approver, c);
    GoodNumber(c, sid, v);
    GrantExact(v, hash, approver, c);
  }

  /** A sweep answers the ids it released: those whose token has expired, and it closes exactly these. */
  lemma SweepCallExact(c: Config, sign: Sign, files: Files, views: Views, sid: string, nowMs: int)
    requires WellFormed(c.bundle.manifest) && Reached(c, sign, files, views) && Existing(files, views, sid, c).Ok?
    requires var v := Existing(files, views, sid, c).value; |v.log| + |v.state.reserved| <= MAX_SAFE_INT + 1
    ensures var v, done := Existing(files, views, sid, c).value, SweepCall(files, views, sid, nowMs, c);
      && sid in done.views && done.views == views[sid := done.views[sid]]
      && done.result == Ok(ExpiredIds(v.state.reserved, nowMs))
      && (forall r :: r in done.views[sid].state.reserved <==> r in v.state.reserved && r.expiresMs >= nowMs)
  {
    hide WellFormed, Reached, Good, Existing, SweepStep, ExpiredIds, Unexpired;
    var v := Existing(files, views, sid, c).value;
    ReachedExisting(c, sign, files, views, sid);
    SweepExact(c, sid, v, nowMs);
    UnexpiredMembers(v.state.reserved, nowMs);
  }
}
