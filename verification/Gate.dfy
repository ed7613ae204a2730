/** The gate itself: each call runs its atomic steps on the one session it names. */
module Gate {
  import opened Wrappers
  import opened Json
  import opened Manifest
  import opened Canonical
  import opened Decide
  import opened Snapshots
  import opened Ledger
  import opened GateSpec
  import opened Chain
  import opened Tokens
  import opened Shell
  import opened Store

  /** What the caller gets back; on ALLOW it carries the token the executor must present. */
  datatype Receipt = Receipt(decision: Decision, reservation: Option<int>, token: Option<Token>)

  function ReceiptOf(sign: Sign, t: Ticket): Receipt {
    Receipt(t.decision, t.reservation, if t.token.Some? then Some(Mint(sign, t.token.value)) else None)
  }

  function Receive(sign: Sign, r: Result<Ticket>): Result<Receipt> {
    match r
    case Ok(t) => Ok(ReceiptOf(sign, t))
    case Err(code) => Err(code)
  }

  // ---- the calls, on the views of all sessions ----

  function SubmitCall(files: Files, views: Views, sid: string, call: Call, nowMs: int, c: Config): Outcome<Ticket>
    requires WellFormed(c.bundle.manifest)
  {
    var entered := OpenCall(files, views, sid, call.principal, c);
    match entered.result
    case Err(code) => Outcome(entered.views, Err(code))
    case Ok(v) =>
      var reply := SubmitStep(v, call, nowMs, c);
      Outcome(entered.views[sid := reply.view], reply.result)
  }

  /** The first half of execute: verify the token, then check it under the lock. */
  function CheckCall(files: Files, views: Views, sign: Sign, token: Token, nowMs: int, pinned: bool, c: Config): Outcome<Job>
    requires WellFormed(c.bundle.manifest)
  {
    match Verify(sign, token, nowMs)
    case Err(code) => Outcome(views, Err(code))
    case Ok(p) =>
      match Existing(files, views, p.sessionId, c)
      case Err(code) => Outcome(views, Err(code))
      case Ok(v) => Outcome(views[p.sessionId := v], RedeemStep(v, p, pinned, c))
  }

  function Settled(views: Views, sid: string, v: View, r: Result<View>): Outcome<()> {
    match r
    case Err(code) => Outcome(views[sid := v], Err(code))
    case Ok(w) => Outcome(views[sid := w], Ok(()))
  }

  function SettleCall(files: Files, views: Views, sid: string, reservation: int, outcome: string, c: Config): Outcome<()> {
    match Existing(files, views, sid, c)
    case Err(code) => Outcome(views, Err(code))
    case Ok(v) => Settled(views, sid, v, SettleStep(v, reservation, outcome, c))
  }

  function SweepCall(files: Files, views: Views, sid: string, nowMs: int, c: Config): Outcome<seq<int>> {
    match Existing(files, views, sid, c)
    case Err(code) => Outcome(views, Err(code))
    case Ok(v) =>
      var reply := SweepStep(v, nowMs, c);
      Outcome(views[sid := reply.view], reply.result)
  }

  function ApproveCall(files: Files, views: Views, sid: string, hash: string, approver: string, c: Config): Outcome<()> {
    var entered := OpenCall(files, views, sid, approver, c);
    match entered.result
    case Err(code) => Outcome(entered.views, Err(code))
    case Ok(v) => Settled(entered.views, sid, v, GrantStep(v, hash, approver, c))
  }

  class Gate {
    const c: Config
    const sign: Sign
    const store: SessionStore

    ghost predicate Valid()
      reads store, store.Writers()
    {
      store.Valid() && store.c == c && store.sign == sign && WellFormed(c.bundle.manifest)
    }

    constructor (c: Config, sign: Sign, files: Files)
      requires WellFormed(c.bundle.manifest)
      ensures Valid() && this.c == c && this.sign == sign && fresh(store) && store.files == files
              && store.Views() == map[]
    {
      this.c, this.sign := c, sign;
      store := new SessionStore(c, sign, files);
    }

    /** The end of an ALLOW: the approval it used, then the reservation, then the token. */
    method ReserveFor(session: Session, decidedAt: nat, decision: Decision, env: Envelope, approved: bool)
      returns (r: Result<Ticket>)
      requires Valid() && store.Holds(session) && decision.actionHash.Some?
      modifies session, session.log
      ensures Valid() && store.Holds(session) && store.sessions == old(store.sessions)
      ensures var reply := Reserve(old(session.View()), decidedAt, decision, env, approved, c);
        r == reply.result && session.View() == reply.view && store.Views() == old(store.Views())[session.sessionId := reply.view]
    {
      hide Session.Valid, Session.View, SessionStore.Valid, SessionStore.Views, GateSpec.Append, WellFormed, BudgetOf;
      var hash := decision.actionHash.value;
      store.SameView(session);
      if approved {
        var consumed := store.Append(session, ApprovalConsumed(hash));
        if consumed.Err? { return Err(consumed.code); }
      }
      store.SameView(session);
      var expiresMs := env.tMs + c.ttlMs;
      var reserved := store.Append(session, Reserved(hash, BudgetOf(env, c.bundle), expiresMs, decidedAt));
      if reserved.Err? { return Err(reserved.code); }
      r := Ok(Ticket(decision, Some(decidedAt), Some(TokenPayload(hash, expiresMs, decidedAt, session.sessionId))));
    }

    method TakeSnapshot(session: Session, facts: seq<EntityRecord>) returns (r: Result<Snapshot>)
      requires Valid() && store.Holds(session)
      ensures Valid() && store.Holds(session) && store.Views() == old(store.Views())
      ensures r == SnapshotOf(session.state, facts)
    {
      hide Session.Valid, Session.View, Counters, ValidSnapshot, WellFormed;
      var s := session.state;
      var counters := CountersOf(s);
      r := BuildSnapshot(s.sessionId, s.number, s.labels, counters, s.approvals, facts);
    }

    /** One transaction: snapshot, envelope, decision, record, and on ALLOW the reservation. */
    method Transact(session: Session, call: Call, nowMs: int) returns (r: Result<Ticket>)
      requires Valid() && store.Holds(session)
      modifies session, session.log
      ensures Valid() && store.Holds(session) && store.sessions == old(store.sessions)
      ensures var reply := SubmitStep(old(session.View()), call, nowMs, c);
        r == reply.result && session.View() == reply.view && store.Views() == old(store.Views())[session.sessionId := reply.view]
    {
      hide Session.Valid, SessionStore.Valid, SessionStore.Views, GateSpec.Append, WellFormed, Reserve, Decide.Decide,
           ValidEnvelope, ValidSnapshot, Counters;
      store.SameView(session);
      var built := TakeSnapshot(session, call.facts);
      if built.Err? { return Err(built.code); }
      var snapshot := built.value;
      var env := Envelope(call.tool, call.arguments, call.principal, session.sessionId, nowMs);
      if !ValidEnvelope(env) { return Err("bad_envelope"); }
      var decision := Decide.Decide(env, snapshot, c.bundle);
      var decided := store.Append(session, Decided(decision, env, call.facts));
      if decided.Err? { return Err(decided.code); }
      if decision.verdict != ALLOW { return Ok(Ticket(decision, None, None)); }
      r := ReserveFor(session, decided.value, decision, env, decision.actionHash.value in snapshot.approvals);
    }

    /** A session on its own, before anything is submitted to it. */
    method Open(sid: string, principal: string) returns (r: Result<Session>)
      requires Valid()
      modifies store, store.WritersOf(sid)
      ensures Valid()
      ensures var done := OpenCall(store.files, old(store.Views()), sid, principal, c);
        && store.Views() == done.views
        && (match done.result
            case Err(code) => r == Err(code)
            case Ok(v) => r.Ok? && store.Holds(r.value) && r.value.sessionId == sid && r.value.View() == v)
    {
      hide Session.Valid, Session.View, SessionStore.Valid, SessionStore.Views, OpenCall;
      r := store.Open(sid, principal);
    }

    method Submit(sid: string, call: Call, nowMs: int) returns (r: Result<Receipt>)
      requires Valid()
      modifies store, store.WritersOf(sid)
      ensures Valid()
      ensures var done := SubmitCall(store.files, old(store.Views()), sid, call, nowMs, c);
        store.Views() == done.views && r == Receive(sign, done.result)
    {
      hide Session.Valid, Session.View, SessionStore.Valid, SessionStore.Views, SubmitStep, OpenCall, WellFormed;
      var session := store.Open(sid, call.principal);
      if session.Err? { return Err(session.code); }
      var ticket := Transact(session.value, call, nowMs);
      r := Receive(sign, ticket);
    }

    /** The check: the gate rebuilds the action from its own record, so the runner gets what was checked. */
    method Check(token: Token, nowMs: int, pinned: bool) returns (r: Result<Job>)
      requires Valid()
      modifies store
      ensures Valid()
      ensures var done := CheckCall(store.files, old(store.Views()), sign, token, nowMs, pinned, c);
        store.Views() == done.views && r == done.result
    {
      hide Session.Valid, SessionStore.Valid, SessionStore.Views, Verify, WellFormed, Existing, Canonicalize,
           ActionHash,
           ValidEnvelope, WireArguments, Find;
      var payload := Verify(sign, token, nowMs);
      if payload.Err? { return Err(payload.code); }
      var p := payload.value;
      var found := store.Get(p.sessionId);
      if found.Err? { return Err(found.code); }
      var session := found.value;
      var entry := Find(session.state.reserved, p.reservation);
      if entry.None? { return Err("reservation_not_open"); }
      if entry.value.actionHash != p.actionHash { return Err("action_mismatch"); }
      if !(0 <= p.reservation < |session.log.records|) || !session.log.records[p.reservation].body.Decided? {
        return Err("unknown_record");
      }
      var env := session.log.records[p.reservation].body.envelope;
      if !ValidEnvelope(env) { return Err("bad_envelope"); }
      var canonical := Canonicalize(c.bundle.tables, c.bundle.manifest, env);
      if canonical.Err? { return Err(canonical.code); }
      var action := canonical.value;
      if ActionHash(c.bundle, action) != p.actionHash { return Err("action_mismatch"); }
      if !pinned { return Err("egress_refused"); }
      ActionIsRenderable(c.bundle.tables, c.bundle.manifest, env);
      r := Ok(Job(p.reservation, action.tool, WireArguments(action)));
    }

    method Settle(sid: string, reservation: int, outcome: string) returns (r: Result<()>)
      requires Valid()
      modifies store, store.WritersOf(sid)
      ensures Valid()
      ensures var done := SettleCall(store.files, old(store.Views()), sid, reservation, outcome, c);
        store.Views() == done.views && r == done.result
    {
      hide Session.Valid, SessionStore.Valid, SessionStore.Views, WellFormed, Existing, GateSpec.Append, SortedKeys;
      var found := store.Get(sid);
      if found.Err? { return Err(found.code); }
      var session := found.value;
      var labels: seq<string> := [];
      if outcome == COMMITTED {
        if !(0 <= reservation < |session.log.records|) || !session.log.records[reservation].body.Decided? {
          return Err("unknown_record");
        }
        var tool := session.log.records[reservation].body.envelope.tool;
        if tool !in c.bundle.manifest.tools { return Err("unknown_tool"); }
        labels := SortedKeys(c.bundle.manifest.tools[tool].resultLabels);
      }
      var step := store.Append(session, Body.Settled(labels, outcome, reservation));
      r := if step.Err? then Err(step.code) else Ok(());
    }

    /** Releases the reservations whose token has expired, among those open when the sweep began. */
    method Sweep(sid: string, nowMs: int) returns (r: Result<seq<int>>)
      requires Valid()
      modifies store, store.WritersOf(sid)
      ensures Valid()
      ensures var done := SweepCall(store.files, old(store.Views()), sid, nowMs, c);
        store.Views() == done.views && r == done.result
    {
      hide Session.Valid, Session.View, SessionStore.Valid, SessionStore.Views, WellFormed, Existing;
      var found := store.Get(sid);
      if found.Err? { return Err(found.code); }
      r := SweepSession(found.value, nowMs);
    }

    method SweepSession(session: Session, nowMs: int) returns (r: Result<seq<int>>)
      requires Valid() && store.Holds(session)
      modifies session, session.log
      ensures Valid() && store.Holds(session) && store.sessions == old(store.sessions)
      ensures var reply := SweepStep(old(session.View()), nowMs, c);
        r == reply.result && session.View() == reply.view && store.Views() == old(store.Views())[session.sessionId := reply.view]
    {
      hide Session.Valid, SessionStore.Valid, SessionStore.Views, WellFormed, GateSpec.Append;
      var pending := session.state.reserved;
      var released: seq<int> := [];
      ghost var whole := SweepStep(session.View(), nowMs, c);
      ghost var views := store.Views();
      ghost var sid := session.sessionId;
      store.SameView(session);
      for i := 0 to |pending|
        invariant Valid() && store.Holds(session) && store.sessions == old(store.sessions)
        invariant whole == SweepFrom(session.View(), pending[i..], nowMs, released, c)
        invariant store.Views() == views[sid := session.View()]
      {
        assert pending[i..][0] == pending[i] && pending[i..][1..] == pending[i + 1..];
        if pending[i].expiresMs < nowMs {
          var step := store.Append(session, Body.Settled([], RELEASED, pending[i].id));
          if step.Err? { return Err(step.code); }
          released := released + [pending[i].id];
        }
      }
      assert pending[|pending|..] == [];
      r := Ok(released);
    }

    method Approve(sid: string, hash: string, approver: string) returns (r: Result<()>)
      requires Valid()
      modifies store, store.WritersOf(sid)
      ensures Valid()
      ensures var done := ApproveCall(store.files, old(store.Views()), sid, hash, approver, c);
        store.Views() == done.views && r == done.result
    {
      hide Session.Valid, Session.View, SessionStore.Valid, SessionStore.Views, WellFormed, OpenCall, GateSpec.Append;
      var session := store.Open(sid, approver);
      if session.Err? { return Err(session.code); }
      store.SameView(session.value);
      var step := store.Append(session.value, ApprovalGranted(hash, approver));
      r := if step.Err? then Err(step.code) else Ok(());
    }
  }
}
