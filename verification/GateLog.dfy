/** What every log written by the gate satisfies, event by event, and that every atomic step keeps it. */
module GateLog {
  import opened Wrappers
  import opened Json
  import opened Syntax
  import opened Manifest
  import opened Canonical
  import opened Cedar
  import opened Decide
  import opened Snapshots
  import opened Ledger
  import opened LedgerLaws
  import opened GateSpec

  function StateAt(c: Config, sid: string, log: seq<Body>, i: nat): Result<LedgerState>
    requires i <= |log|
  {
    Fold(sid, log[..i], CounterNames(c))
  }

  /** The decision is the pure function of the recorded envelope and of the state the log had reached. */
  predicate DecisionFollows(c: Config, s: LedgerState, body: Body)
    requires WellFormed(c.bundle.manifest) && body.Decided?
  {
    && ValidEnvelope(body.envelope) && body.envelope.sessionId == s.sessionId
    && SnapshotOf(s, body.facts).Ok?
    && body.decision == Decide.Decide(body.envelope, SnapshotOf(s, body.facts).value, c.bundle)
  }

  predicate Allowed(body: Body, hash: string) {
    body.Decided? && body.decision.verdict == ALLOW && body.decision.actionHash == Some(hash)
  }

  /** An ALLOW decided while its own approval stood. */
  predicate Backed(c: Config, sid: string, log: seq<Body>, i: nat, hash: string)
    requires i < |log|
  {
    Allowed(log[i], hash) && StateAt(c, sid, log, i).Ok? && hash in StateAt(c, sid, log, i).value.approvals
  }

  /** The reservation at i belongs to the ALLOW just before it, or before the approval that ALLOW consumed. */
  predicate ReservationFollows(c: Config, sid: string, log: seq<Body>, i: nat)
    requires WellFormed(c.bundle.manifest) && i < |log| && log[i].Reserved?
  {
    var r := log[i];
    && 0 <= r.reservation < i
    && Allowed(log[r.reservation], r.actionHash)
    && r.counters == BudgetOf(log[r.reservation].envelope, c.bundle)
    && r.expiresMs == log[r.reservation].envelope.tMs + c.ttlMs
    && if Backed(c, sid, log, r.reservation, r.actionHash)
       then i == r.reservation + 2 && log[i - 1] == ApprovalConsumed(r.actionHash)
       else i == r.reservation + 1
  }

  predicate LabelsFollow(c: Config, log: seq<Body>, i: nat)
    requires i < |log| && log[i].Settled?
  {
    var s := log[i];
    if s.outcome == COMMITTED then
      && 0 <= s.settled < i && log[s.settled].Decided? && log[s.settled].envelope.tool in c.bundle.manifest.tools
      && s.labels == SortedKeys(c.bundle.manifest.tools[log[s.settled].envelope.tool].resultLabels)
    else s.labels == []
  }

  predicate Justified(c: Config, sid: string, log: seq<Body>, i: nat)
    requires WellFormed(c.bundle.manifest) && i < |log|
  {
    StateAt(c, sid, log, i).Ok? &&
    match log[i]
    case Decided(_, _, _) => DecisionFollows(c, StateAt(c, sid, log, i).value, log[i])
    case ApprovalConsumed(hash) => i > 0 && Backed(c, sid, log, i - 1, hash)
    case Reserved(_, _, _, _) => ReservationFollows(c, sid, log, i)
    case Settled(_, _, _) => LabelsFollow(c, log, i)
    case _ => true
  }

  /** An approval is consumed in the transaction that used it; only a full log can prevent that. */
  predicate Prompt(c: Config, sid: string, log: seq<Body>, i: nat)
    requires i < |log|
  {
    log[i].Decided? && log[i].decision.actionHash.Some? && Backed(c, sid, log, i, log[i].decision.actionHash.value) ==>
      i == MAX_SAFE_INT || (i + 1 < |log| && log[i + 1] == ApprovalConsumed(log[i].decision.actionHash.value))
  }

  predicate Written(c: Config, sid: string, log: seq<Body>)
    requires WellFormed(c.bundle.manifest)
  {
    && Fold(sid, log, CounterNames(c)).Ok? && |log| <= MAX_SAFE_INT + 1
    && forall i :: 0 <= i < |log| ==> Justified(c, sid, log, i)
  }

  predicate AllPrompt(c: Config, sid: string, log: seq<Body>) {
    forall i :: 0 <= i < |log| ==> Prompt(c, sid, log, i)
  }

  /** The cached state is the fold of the log, and the log is one the gate could have written. */
  predicate Good(c: Config, sid: string, v: View)
    requires WellFormed(c.bundle.manifest)
  {
    Fold(sid, v.log, CounterNames(c)) == Ok(v.state) && Written(c, sid, v.log) && AllPrompt(c, sid, v.log)
  }

  // ---- locality: what is justified stays justified in a longer log ----

  lemma StateAtStable(c: Config, sid: string, log: seq<Body>, more: seq<Body>, i: nat)
    requires i <= |log|
    ensures StateAt(c, sid, log + more, i) == StateAt(c, sid, log, i)
  {
    assert (log + more)[..i] == log[..i];
  }

  lemma JustifiedStable(c: Config, sid: string, log: seq<Body>, body: Body, i: nat)
    requires WellFormed(c.bundle.manifest) && i < |log|
    ensures Justified(c, sid, log + [body], i) == Justified(c, sid, log, i)
  {
    hide DecisionFollows, WellFormed, BudgetOf, Fold;
    StateAtStable(c, sid, log, [body], i);
    if i > 0 { StateAtStable(c, sid, log, [body], i - 1); }
    if log[i].Reserved? && 0 <= log[i].reservation < i { StateAtStable(c, sid, log, [body], log[i].reservation); }
    hide StateAt;
  }

  lemma AppendWritten(c: Config, sid: string, v: View, body: Body)
    requires WellFormed(c.bundle.manifest) && Fold(sid, v.log, CounterNames(c)) == Ok(v.state) && Written(c, sid, v.log)
    requires Append(v, body, CounterNames(c)).Ok? && Justified(c, sid, v.log + [body], |v.log|)
    ensures var w := Append(v, body, CounterNames(c)).value;
      w.log == v.log + [body] && Fold(sid, w.log, CounterNames(c)) == Ok(w.state) && Written(c, sid, w.log)
  {
    hide Justified, WellFormed, Apply, Fold;
    FoldStep(sid, v.log, CounterNames(c), body);
    var log := v.log + [body];
    forall i | 0 <= i < |log| ensures Justified(c, sid, log, i) {
      if i < |v.log| { JustifiedStable(c, sid, v.log, body, i); }
    }
  }

  lemma PromptStable(c: Config, sid: string, log: seq<Body>, body: Body, i: nat)
    requires i < |log| && Prompt(c, sid, log, i)
    ensures Prompt(c, sid, log + [body], i)
  {
    StateAtStable(c, sid, log, [body], i);
    hide StateAt;
  }

  lemma AllPromptAppend(c: Config, sid: string, log: seq<Body>, body: Body)
    requires AllPrompt(c, sid, log) && Prompt(c, sid, log + [body], |log|)
    ensures AllPrompt(c, sid, log + [body])
  {
    forall i | 0 <= i <= |log| ensures Prompt(c, sid, log + [body], i) {
      if i < |log| { PromptStable(c, sid, log, body, i); }
    }
    hide Prompt;
  }

  lemma AtEnd(c: Config, sid: string, v: View, body: Body)
    requires Fold(sid, v.log, CounterNames(c)) == Ok(v.state)
    ensures StateAt(c, sid, v.log + [body], |v.log|) == Ok(v.state)
  {
    assert (v.log + [body])[..|v.log|] == v.log;
  }

  // ---- every step keeps it ----

  lemma NewSessionGood(c: Config, sid: string)
    requires WellFormed(c.bundle.manifest) && NewSession(sid, c).Ok?
    ensures Good(c, sid, NewSession(sid, c).value)
  {
    hide WellFormed;
  }

  /** Appending an event that is neither a decision nor a reservation. */
  lemma PlainAppendGood(c: Config, sid: string, v: View, body: Body)
    requires WellFormed(c.bundle.manifest) && Good(c, sid, v) && Append(v, body, CounterNames(c)).Ok?
    requires body.SessionOpened? || body.ApprovalGranted? || (body.Settled? && LabelsFollow(c, v.log + [body], |v.log|))
    ensures Good(c, sid, Append(v, body, CounterNames(c)).value)
  {
    hide WellFormed, Fold, Apply, AllPrompt, LabelsFollow;
    AtEnd(c, sid, v, body);
    assert Justified(c, sid, v.log + [body], |v.log|);
    AppendWritten(c, sid, v, body);
    AllPromptAppend(c, sid, v.log, body);
  }

  lemma OpenGood(c: Config, sid: string, v: View, principal: string)
    requires WellFormed(c.bundle.manifest) && Good(c, sid, v) && OpenStep(v, principal, c).Ok?
    ensures Good(c, sid, OpenStep(v, principal, c).value)
  {
    hide WellFormed, Good;
    if v.state.principal.None? { PlainAppendGood(c, sid, v, SessionOpened(principal, v.state.sessionId)); }
  }

  lemma GrantGood(c: Config, sid: string, v: View, hash: string, approver: string)
    requires WellFormed(c.bundle.manifest) && Good(c, sid, v) && GrantStep(v, hash, approver, c).Ok?
    ensures Good(c, sid, GrantStep(v, hash, approver, c).value)
  {
    hide WellFormed, Good;
    PlainAppendGood(c, sid, v, ApprovalGranted(hash, approver));
  }

  lemma SettleGood(c: Config, sid: string, v: View, reservation: int, outcome: string)
    requires WellFormed(c.bundle.manifest) && Good(c, sid, v) && SettleStep(v, reservation, outcome, c).Ok?
    ensures Good(c, sid, SettleStep(v, reservation, outcome, c).value)
  {
    hide WellFormed, Good, Apply;
    var labels := if outcome == COMMITTED
      then SortedKeys(c.bundle.manifest.tools[RecordedEnvelope(v, reservation).value.tool].resultLabels) else [];
    hide SortedKeys;
    PlainAppendGood(c, sid, v, Settled(labels, outcome, reservation));
  }

  lemma {:induction false} SweepGood(c: Config, sid: string, v: View, pending: seq<Reservation>, nowMs: int, released: seq<int>)
    requires WellFormed(c.bundle.manifest) && Good(c, sid, v)
    ensures Good(c, sid, SweepFrom(v, pending, nowMs, released, c).view)
    decreases |pending|
  {
    hide WellFormed, Good, Append;
    if pending != [] {
      var r := pending[0];
      var step := Append(v, Settled([], RELEASED, r.id), CounterNames(c));
      if r.expiresMs >= nowMs {
        SweepGood(c, sid, v, pending[1..], nowMs, released);
      } else if step.Ok? {
        PlainAppendGood(c, sid, v, Settled([], RELEASED, r.id));
        SweepGood(c, sid, step.value, pending[1..], nowMs, released + [r.id]);
      }
    }
  }

  lemma ApplyPlain(s: LedgerState, at: nat, body: Body, names: set<string>)
    requires Apply(s, Event(at, body), names).Ok?
    ensures var t := Apply(s, Event(at, body), names).value;
      && t.sessionId == s.sessionId
      && (body.Decided? ==> t == s.(number := s.number + 1))
      && (body.ApprovalConsumed? ==> t == s.(number := s.number + 1, approvals := s.approvals - {body.actionHash}))
      && (body.Reserved? ==> t.approvals == s.approvals)
  {
  }

  lemma SnapshotFields(s: LedgerState, facts: seq<EntityRecord>)
    requires SnapshotOf(s, facts).Ok?
    ensures var n := SnapshotOf(s, facts).value; n.approvals == s.approvals && n.sessionId == s.sessionId && n.counters == Counters(s)
  {
  }

  /** The decision event itself. */
  lemma DecidedGood(c: Config, sid: string, v: View, body: Body)
    requires WellFormed(c.bundle.manifest) && Good(c, sid, v) && body.Decided?
    requires DecisionFollows(c, v.state, body) && Append(v, body, CounterNames(c)).Ok?
    ensures var w := Append(v, body, CounterNames(c)).value;
      && Fold(sid, w.log, CounterNames(c)) == Ok(w.state) && Written(c, sid, w.log)
      && w.log == v.log + [body] && w.state == v.state.(number := v.state.number + 1)
  {
    hide WellFormed, Fold, DecisionFollows, AllPrompt;
    AtEnd(c, sid, v, body);
    ApplyPlain(v.state, |v.log|, body, CounterNames(c));
    hide Apply;
    assert Justified(c, sid, v.log + [body], |v.log|);
    AppendWritten(c, sid, v, body);
  }

  /** A decision that no standing approval backed needs no consumption. */
  lemma UnbackedPrompt(c: Config, sid: string, v: View, body: Body)
    requires WellFormed(c.bundle.manifest) && Good(c, sid, v) && body.Decided?
    requires body.decision.verdict == ALLOW && body.decision.actionHash.Some? ==> body.decision.actionHash.value !in v.state.approvals
    ensures AllPrompt(c, sid, v.log + [body])
  {
    hide WellFormed, Written, AllPrompt;
    AtEnd(c, sid, v, body);
    hide StateAt, Fold;
    AllPromptAppend(c, sid, v.log, body);
  }

  lemma BackedStable(c: Config, sid: string, log: seq<Body>, body: Body, i: nat, hash: string)
    requires i < |log|
    ensures Backed(c, sid, log + [body], i, hash) == Backed(c, sid, log, i, hash)
  {
    StateAtStable(c, sid, log, [body], i);
    hide StateAt;
  }

  /** The consumption of the approval that backed the last decision. */
  lemma ConsumedGood(c: Config, sid: string, log: seq<Body>, body: Body, w: View, hash: string)
    requires WellFormed(c.bundle.manifest) && AllPrompt(c, sid, log) && w.log == log + [body]
    requires Fold(sid, w.log, CounterNames(c)) == Ok(w.state) && Written(c, sid, w.log)
    requires Backed(c, sid, w.log, |log|, hash) && Append(w, ApprovalConsumed(hash), CounterNames(c)).Ok?
    ensures Good(c, sid, Append(w, ApprovalConsumed(hash), CounterNames(c)).value)
  {
    hide WellFormed, Fold, AllPrompt, Written;
    AtEnd(c, sid, w, ApprovalConsumed(hash));
    BackedStable(c, sid, w.log, ApprovalConsumed(hash), |log|, hash);
    PromptPair(c, sid, log, body, hash);
    hide Backed, StateAt;
    assert Justified(c, sid, w.log + [ApprovalConsumed(hash)], |w.log|);
    hide Justified, Apply;
    AppendWritten(c, sid, w, ApprovalConsumed(hash));
  }

  lemma PromptPair(c: Config, sid: string, log: seq<Body>, body: Body, hash: string)
    requires AllPrompt(c, sid, log) && Allowed(body, hash)
    ensures AllPrompt(c, sid, log + [body] + [ApprovalConsumed(hash)])
  {
    var longer := log + [body] + [ApprovalConsumed(hash)];
    hide StateAt;
    forall i | 0 <= i < |longer| ensures Prompt(c, sid, longer, i) {
      if i < |log| {
        PromptStable(c, sid, log, body, i);
        PromptStable(c, sid, log + [body], ApprovalConsumed(hash), i);
      }
    }
  }

  /** The reservation that ends an allowed transaction. */
  lemma ReservedGood(c: Config, sid: string, w: View, body: Body)
    requires WellFormed(c.bundle.manifest) && Good(c, sid, w) && body.Reserved?
    requires Append(w, body, CounterNames(c)).Ok? && ReservationFollows(c, sid, w.log + [body], |w.log|)
    ensures Good(c, sid, Append(w, body, CounterNames(c)).value)
  {
    hide WellFormed, Apply, Fold, AllPrompt, ReservationFollows;
    AtEnd(c, sid, w, body);
    hide StateAt;
    assert Justified(c, sid, w.log + [body], |w.log|);
    hide Justified;
    AppendWritten(c, sid, w, body);
    AllPromptAppend(c, sid, w.log, body);
  }

  lemma HashedAction(c: Config, env: Envelope, s: Snapshot)
    requires ValidConfig(c)
    ensures var d := Decide.Decide(env, s, c.bundle); d.actionHash.Some? ==> IsHash(d.actionHash.value)
  {
    hide CheckSnapshot, WellFormed, IsHash, BuildContext, Evaluate, MakeRequest, Combine, SnapshotHash, InputHash,
         Text, ActionJson;
    var j := Judge(env, s, c.bundle);
    if j.actionHash.Some? { RuledHash(c, env, s); }
  }

  lemma RuledHash(c: Config, env: Envelope, s: Snapshot)
    requires ValidConfig(c) && Judge(env, s, c.bundle).actionHash.Some?
    ensures IsHash(Judge(env, s, c.bundle).actionHash.value)
  {
    hide CheckSnapshot, WellFormed, IsHash, BuildContext, Evaluate, MakeRequest, Combine, Text, ActionJson,
         Canonicalize;
    assert Judge(env, s, c.bundle) == Rule(env, s, c.bundle, Canonicalize(c.bundle.tables, c.bundle.manifest, env).value);
  }

  lemma GoodParts(c: Config, sid: string, v: View)
    requires WellFormed(c.bundle.manifest) && Good(c, sid, v)
    ensures v.state.number == |v.log| && v.state.sessionId == sid && Sound(v.state, CounterNames(c))
    ensures Fold(sid, v.log, CounterNames(c)) == Ok(v.state)
  {
    hide WellFormed, Written, AllPrompt, Fold, Sound;
    FoldSound(sid, v.log, CounterNames(c));
  }

  /** Consuming a standing approval right after a decision can only fail on a full log. */
  lemma ConsumableUnlessFull(v: View, hash: string, names: set<string>)
    requires v.state.number == |v.log| && v.state.principal.Some? && IsHash(hash) && hash in v.state.approvals
    ensures Append(v, ApprovalConsumed(hash), names).Err? ==> |v.log| == MAX_SAFE_INT + 1 || |v.log| > MAX_SAFE_INT + 1
  {
    hide IsHash;
  }

  /** A backed decision that filled the log is the one case in which its approval stays standing. */
  lemma FullLogPrompt(c: Config, sid: string, log: seq<Body>, body: Body)
    requires AllPrompt(c, sid, log) && |log| == MAX_SAFE_INT
    ensures AllPrompt(c, sid, log + [body])
  {
    hide Backed;
    AllPromptAppend(c, sid, log, body);
  }

  lemma OpenedByDecision(v: View, body: Body, names: set<string>)
    requires body.Decided? && Append(v, body, names).Ok?
    ensures v.state.principal.Some? && |v.log| <= MAX_SAFE_INT
  {
  }

  /** The view right after a backed ALLOW was recorded. */
  predicate JustBacked(c: Config, sid: string, log: seq<Body>, body: Body, w: View, hash: string)
    requires WellFormed(c.bundle.manifest)
  {
    && AllPrompt(c, sid, log) && w.log == log + [body]
    && Fold(sid, w.log, CounterNames(c)) == Ok(w.state) && Written(c, sid, w.log)
    && Backed(c, sid, w.log, |log|, hash)
    && w.state.number == |w.log| && w.state.principal.Some? && hash in w.state.approvals
  }

  lemma RecordBacked(c: Config, sid: string, v: View, body: Body, hash: string)
    requires WellFormed(c.bundle.manifest) && Good(c, sid, v) && Allowed(body, hash) && hash in v.state.approvals
    requires DecisionFollows(c, v.state, body) && Append(v, body, CounterNames(c)).Ok?
    ensures JustBacked(c, sid, v.log, body, Append(v, body, CounterNames(c)).value, hash)
  {
    GoodParts(c, sid, v);
    DecidedGood(c, sid, v, body);
    OpenedByDecision(v, body, CounterNames(c));
    AtEnd(c, sid, v, body);
    hide WellFormed, Written, AllPrompt, Fold, Sound, Apply, DecisionFollows, StateAt;
  }

  lemma ConsumeBacked(c: Config, sid: string, log: seq<Body>, body: Body, w: View, hash: string)
    requires WellFormed(c.bundle.manifest) && JustBacked(c, sid, log, body, w, hash) && IsHash(hash)
    ensures var step := Append(w, ApprovalConsumed(hash), CounterNames(c));
      if step.Err? then Good(c, sid, w)
      else Good(c, sid, step.value) && step.value.log == w.log + [ApprovalConsumed(hash)]
  {
    hide WellFormed, Written, AllPrompt, Fold, Apply, Backed, IsHash;
    ConsumableUnlessFull(w, hash, CounterNames(c));
    if Append(w, ApprovalConsumed(hash), CounterNames(c)).Err? {
      WrittenBound(c, sid, w.log);
      FullLogPrompt(c, sid, log, body);
    } else {
      ConsumedGood(c, sid, log, body, w, hash);
    }
  }

  lemma WrittenBound(c: Config, sid: string, log: seq<Body>)
    requires WellFormed(c.bundle.manifest) && Written(c, sid, log)
    ensures |log| <= MAX_SAFE_INT + 1
  {
    hide WellFormed, Fold, Justified;
  }

  lemma ReserveBacked(c: Config, sid: string, log: seq<Body>, body: Body, x: View, hash: string)
    requires WellFormed(c.bundle.manifest) && Good(c, sid, x) && x.log == log + [body] + [ApprovalConsumed(hash)]
    requires Allowed(body, hash) && Backed(c, sid, log + [body], |log|, hash)
    ensures var reserved := Reserved(hash, BudgetOf(body.envelope, c.bundle), body.envelope.tMs + c.ttlMs, |log|);
      Append(x, reserved, CounterNames(c)).Ok? ==> Good(c, sid, Append(x, reserved, CounterNames(c)).value)
  {
    hide WellFormed, Good, BudgetOf, Apply;
    var reserved := Reserved(hash, BudgetOf(body.envelope, c.bundle), body.envelope.tMs + c.ttlMs, |log|);
    BackedStable(c, sid, log + [body], ApprovalConsumed(hash), |log|, hash);
    BackedStable(c, sid, x.log, reserved, |log|, hash);
    hide Backed;
    if Append(x, reserved, CounterNames(c)).Ok? { ReservedGood(c, sid, x, reserved); }
  }

  lemma ReserveUnbacked(c: Config, sid: string, log: seq<Body>, body: Body, w: View, hash: string)
    requires WellFormed(c.bundle.manifest) && Good(c, sid, w) && w.log == log + [body]
    requires Allowed(body, hash) && !Backed(c, sid, log + [body], |log|, hash)
    ensures var reserved := Reserved(hash, BudgetOf(body.envelope, c.bundle), body.envelope.tMs + c.ttlMs, |log|);
      Append(w, reserved, CounterNames(c)).Ok? ==> Good(c, sid, Append(w, reserved, CounterNames(c)).value)
  {
    hide WellFormed, Good, BudgetOf, Apply;
    var reserved := Reserved(hash, BudgetOf(body.envelope, c.bundle), body.envelope.tMs + c.ttlMs, |log|);
    BackedStable(c, sid, w.log, reserved, |log|, hash);
    hide Backed;
    if Append(w, reserved, CounterNames(c)).Ok? { ReservedGood(c, sid, w, reserved); }
  }

  lemma BackedParts(c: Config, sid: string, log: seq<Body>, body: Body, w: View, hash: string)
    requires WellFormed(c.bundle.manifest) && JustBacked(c, sid, log, body, w, hash)
    ensures w.log == log + [body] && Backed(c, sid, w.log, |log|, hash)
  {
    hide WellFormed, Written, AllPrompt, Fold, Backed;
  }

  lemma MakeGood(c: Config, sid: string, v: View)
    requires WellFormed(c.bundle.manifest)
    requires Fold(sid, v.log, CounterNames(c)) == Ok(v.state) && Written(c, sid, v.log) && AllPrompt(c, sid, v.log)
    ensures Good(c, sid, v)
  {
    hide WellFormed, Written, AllPrompt, Fold;
  }

  /** An ALLOW that used an approval, to the end of its transaction or to the append that was refused. */
  lemma ApprovedAllowGood(c: Config, sid: string, v: View, body: Body, hash: string)
    requires WellFormed(c.bundle.manifest) && Good(c, sid, v) && Allowed(body, hash) && hash in v.state.approvals
             && IsHash(hash)
    requires DecisionFollows(c, v.state, body) && Append(v, body, CounterNames(c)).Ok?
    ensures Good(c, sid, Reserve(Append(v, body, CounterNames(c)).value, |v.log|, body.decision, body.envelope, true, c).view)
  {
    hide WellFormed, Good, DecisionFollows, BudgetOf, IsHash, JustBacked, Append;
    RecordBacked(c, sid, v, body, hash);
    BackedParts(c, sid, v.log, body, Append(v, body, CounterNames(c)).value, hash);
    hide Backed;
    var w := Append(v, body, CounterNames(c)).value;
    ConsumeBacked(c, sid, v.log, body, w, hash);
    var step := Append(w, ApprovalConsumed(hash), CounterNames(c));
    if step.Ok? { ReserveBacked(c, sid, v.log, body, step.value, hash); }
  }

  /** An ALLOW that needed no approval. */
  lemma PlainAllowGood(c: Config, sid: string, v: View, body: Body, hash: string)
    requires WellFormed(c.bundle.manifest) && Good(c, sid, v) && Allowed(body, hash) && hash !in v.state.approvals
    requires DecisionFollows(c, v.state, body) && Append(v, body, CounterNames(c)).Ok?
    ensures Good(c, sid, Reserve(Append(v, body, CounterNames(c)).value, |v.log|, body.decision, body.envelope, false, c).view)
  {
    hide WellFormed, Good, DecisionFollows, BudgetOf, Written, AllPrompt, Append, Sound;
    GoodParts(c, sid, v);
    DecidedGood(c, sid, v, body);
    UnbackedPrompt(c, sid, v, body);
    AtEnd(c, sid, v, body);
    hide StateAt, Fold;
    var w := Append(v, body, CounterNames(c)).value;
    MakeGood(c, sid, w);
    assert !Backed(c, sid, w.log, |v.log|, hash);
    ReserveUnbacked(c, sid, v.log, body, w, hash);
  }

  /** A recorded refusal. */
  lemma RefusalGood(c: Config, sid: string, v: View, body: Body)
    requires WellFormed(c.bundle.manifest) && Good(c, sid, v) && body.Decided? && body.decision.verdict != ALLOW
    requires DecisionFollows(c, v.state, body) && Append(v, body, CounterNames(c)).Ok?
    ensures Good(c, sid, Append(v, body, CounterNames(c)).value)
  {
    DecidedGood(c, sid, v, body);
    UnbackedPrompt(c, sid, v, body);
    hide WellFormed, DecisionFollows, Written, Fold, AllPrompt, Apply;
  }

  /** A whole submission keeps the log one the gate could have written, wherever it is refused. */
  lemma SubmitGood(c: Config, sid: string, v: View, call: Call, nowMs: int)
    requires ValidConfig(c) && WellFormed(c.bundle.manifest) && Good(c, sid, v)
    ensures Good(c, sid, SubmitStep(v, call, nowMs, c).view)
  {
    GoodParts(c, sid, v);
    hide WellFormed, Good, Apply, BudgetOf, Sound, Fold, Reserve, IsHash, ValidConfig;
    var env := EnvelopeOf(v, call, nowMs);
    if SnapshotOf(v.state, call.facts).Ok? && ValidEnvelope(env) {
      var snapshot := SnapshotOf(v.state, call.facts).value;
      SnapshotFields(v.state, call.facts);
      HashedAction(c, env, snapshot);
      hide SnapshotOf, ValidEnvelope;
      var decision := Decide.Decide(env, snapshot, c.bundle);
      var body := Decided(decision, env, call.facts);
      assert DecisionFollows(c, v.state, body);
      hide Decide.Decide;
      if Append(v, body, CounterNames(c)).Ok? {
        if decision.verdict != ALLOW {
          RefusalGood(c, sid, v, body);
        } else if decision.actionHash.value in snapshot.approvals {
          ApprovedAllowGood(c, sid, v, body, decision.actionHash.value);
        } else {
          PlainAllowGood(c, sid, v, body, decision.actionHash.value);
        }
      }
    }
  }
}
