/** The gate's atomic steps on one session, as functions from the session's view to its next view. */
module GateSpec {
  import opened Wrappers
  import opened Json
  import opened Manifest
  import opened Canonical
  import opened Decide
  import opened Snapshots
  import opened Ledger

  datatype Config = Config(bundle: Bundle, ttlMs: int)

  ghost predicate ValidConfig(c: Config) { ValidBundle(c.bundle) }

  function CounterNames(c: Config): set<string> { c.bundle.manifest.counters.Keys }

  /** A session as its lock protects it: the cached state and the log. */
  datatype View = View(state: LedgerState, log: seq<Body>)

  /** A step's next view and its result; a refusal may leave the events appended before it. */
  datatype Reply<T> = Reply(view: View, result: Result<T>)

  datatype TokenPayload = TokenPayload(actionHash: string, expiresMs: int, reservation: int, sessionId: string)

  datatype Ticket = Ticket(decision: Decision, reservation: Option<int>, token: Option<TokenPayload>)

  /** What a redeemed token lets the runner do. */
  datatype Job = Job(reservation: int, tool: string, arguments: map<string, Json>)

  // ---- appending ----

  /** The event is folded first: what the ledger refuses never reaches the log. */
  function Append(v: View, body: Body, names: set<string>): Result<View> {
    if |v.log| > MAX_SAFE_INT then Err("bad_sequence")
    else
      var state :- Apply(v.state, Event(|v.log|, body), names);
      Ok(View(state, v.log + [body]))
  }

  // ---- opening ----

  function NewSession(sessionId: string, c: Config): Result<View> {
    var state :- InitialState(sessionId, CounterNames(c));
    Ok(View(state, []))
  }

  /** The appending half of opening, taken after the principal was read: in between, another call may have opened it. */
  function LateOpenStep(v: View, principal: string, c: Config): Result<View> {
    Append(v, SessionOpened(principal, v.state.sessionId), CounterNames(c))
  }

  /** The first principal opens the session; later ones find it open. */
  function OpenStep(v: View, principal: string, c: Config): Result<View> {
    if v.state.principal.Some? then Ok(v)
    else LateOpenStep(v, principal, c)
  }

  // ---- submitting ----

  /** What an allowed call reserves; a rejection here would reserve nothing rather than guess. */
  function BudgetOf(env: Envelope, b: Bundle): map<string, int>
    requires WellFormed(b.manifest)
  {
    match Canonicalize(b.tables, b.manifest, env)
    case Err(_) => map[]
    case Ok(action) =>
      match BudgetReservation(action, b.manifest.tools[env.tool])
      case Err(_) => map[]
      case Ok(deltas) => deltas
  }

  /** The events of an ALLOW: the approval it used, then the reservation keyed by the decision's position. */
  function Reserve(v: View, decidedAt: nat, decision: Decision, env: Envelope, approved: bool, c: Config): Reply<Ticket>
    requires WellFormed(c.bundle.manifest) && decision.actionHash.Some?
  {
    var hash := decision.actionHash.value;
    match if approved then Append(v, ApprovalConsumed(hash), CounterNames(c)) else Ok(v)
    case Err(code) => Reply(v, Err(code))
    case Ok(w) =>
      var expiresMs := env.tMs + c.ttlMs;
      match Append(w, Reserved(hash, BudgetOf(env, c.bundle), expiresMs, decidedAt), CounterNames(c))
      case Err(code) => Reply(w, Err(code))
      case Ok(x) => Reply(x, Ok(Ticket(decision, Some(decidedAt), Some(TokenPayload(hash, expiresMs, decidedAt, v.state.sessionId)))))
  }

  /** What the caller proposes; the session and the clock complete the envelope. */
  datatype Call = Call(principal: string, tool: string, arguments: string, facts: seq<EntityRecord>)

  function EnvelopeOf(v: View, call: Call, nowMs: int): Envelope {
    Envelope(call.tool, call.arguments, call.principal, v.state.sessionId, nowMs)
  }

  /** The whole transaction: snapshot, envelope, decision, record, and on ALLOW the reservation. */
  function SubmitStep(v: View, call: Call, nowMs: int, c: Config): Reply<Ticket>
    requires WellFormed(c.bundle.manifest)
  {
    match SnapshotOf(v.state, call.facts)
    case Err(code) => Reply(v, Err(code))
    case Ok(snapshot) =>
      var env := EnvelopeOf(v, call, nowMs);
      if !ValidEnvelope(env) then Reply(v, Err("bad_envelope"))
      else
        var decision := Decide.Decide(env, snapshot, c.bundle);
        match Append(v, Decided(decision, env, call.facts), CounterNames(c))
        case Err(code) => Reply(v, Err(code))
        case Ok(w) =>
          if decision.verdict != ALLOW then Reply(w, Ok(Ticket(decision, None, None)))
          else Reserve(w, |v.log|, decision, env, decision.actionHash.value in snapshot.approvals, c)
  }

  // ---- executing: check, run outside the lock, settle ----

  function RecordedEnvelope(v: View, reservation: int): Option<Envelope> {
    if 0 <= reservation < |v.log| && v.log[reservation].Decided? then Some(v.log[reservation].envelope) else None
  }

  /** The check under the lock; egress pins refuse at the resolver's discretion. */
  function RedeemStep(v: View, payload: TokenPayload, pinned: bool, c: Config): Result<Job>
    requires WellFormed(c.bundle.manifest)
  {
    var entry := Find(v.state.reserved, payload.reservation);
    if entry.None? then Err("reservation_not_open")
    else if entry.value.actionHash != payload.actionHash then Err("action_mismatch")
    else
      var recorded := RecordedEnvelope(v, payload.reservation);
      if recorded.None? then Err("unknown_record")
      else
        var env := recorded.value;
        if !ValidEnvelope(env) then Err("bad_envelope")
        else
          var action :- Canonicalize(c.bundle.tables, c.bundle.manifest, env);
          if ActionHash(c.bundle, action) != payload.actionHash then Err("action_mismatch")
          else if !pinned then Err("egress_refused")
          else
            ActionIsRenderable(c.bundle.tables, c.bundle.manifest, env);
            Ok(Job(payload.reservation, action.tool, WireArguments(action)))
  }

  /** Labels come from the manifest, for the tool that was recorded. */
  function SettleStep(v: View, reservation: int, outcome: string, c: Config): Result<View> {
    if outcome == COMMITTED then
      var env := RecordedEnvelope(v, reservation);
      if env.None? then Err("unknown_record")
      else if env.value.tool !in c.bundle.manifest.tools then Err("unknown_tool")
      else Append(v, Settled(SortedKeys(c.bundle.manifest.tools[env.value.tool].resultLabels), outcome, reservation), CounterNames(c))
    else Append(v, Settled([], outcome, reservation), CounterNames(c))
  }

  // ---- sweeping and approving ----

  /** Releases the expired ones among the reservations that were open when the sweep began. */
  function SweepFrom(v: View, pending: seq<Reservation>, nowMs: int, released: seq<int>, c: Config): Reply<seq<int>>
    decreases |pending|
  {
    if pending == [] then Reply(v, Ok(released))
    else
      var r := pending[0];
      if r.expiresMs >= nowMs then SweepFrom(v, pending[1..], nowMs, released, c)
      else
        match Append(v, Settled([], RELEASED, r.id), CounterNames(c))
        case Err(code) => Reply(v, Err(code))
        case Ok(w) => SweepFrom(w, pending[1..], nowMs, released + [r.id], c)
  }

  function SweepStep(v: View, nowMs: int, c: Config): Reply<seq<int>> {
    SweepFrom(v, v.state.reserved, nowMs, [], c)
  }

  function GrantStep(v: View, hash: string, approver: string, c: Config): Result<View> {
    Append(v, ApprovalGranted(hash, approver), CounterNames(c))
  }
}
