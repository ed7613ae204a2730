/** The session ledger: events, and the state a snapshot is folded from. */
module Ledger {
  import opened Wrappers
  import opened Json
  import opened Syntax
  import opened Manifest
  import opened Canonical
  import opened Decide
  import opened Snapshots

  datatype Body =
    | SessionOpened(principal: string, sessionId: string)
    | Decided(decision: Decision, envelope: Envelope, facts: seq<EntityRecord>)
    | Reserved(actionHash: string, counters: map<string, int>, expiresMs: int, reservation: int)
    | Settled(labels: seq<string>, outcome: string, settled: int)
    | ApprovalGranted(actionHash: string, approver: string)
    | ApprovalConsumed(actionHash: string)

  datatype Event = Event(number: int, body: Body)

  const COMMITTED := "committed"
  const RELEASED := "released"

  datatype Reservation = Reservation(id: int, actionHash: string, deltas: map<string, int>, expiresMs: int)

  datatype LedgerState = LedgerState(
    sessionId: string,
    principal: Option<string>,
    number: nat,
    labels: set<string>,
    committed: map<string, int>,
    reserved: seq<Reservation>,
    approvals: set<string>)

  // ---- counters ----

  function Get(totals: map<string, int>, name: string): int {
    if name in totals then totals[name] else 0
  }

  /** Totals with a reservation's deltas added; a name may be new. */
  function Add(totals: map<string, int>, deltas: map<string, int>): map<string, int> {
    map n | n in totals.Keys + deltas.Keys :: Get(totals, n) + Get(deltas, n)
  }

  function AddAll(totals: map<string, int>, reserved: seq<Reservation>): map<string, int> {
    if reserved == [] then totals
    else Add(AddAll(totals, reserved[..|reserved| - 1]), reserved[|reserved| - 1].deltas)
  }

  /** Committed spend plus everything currently reserved: what a cap is measured against. */
  function Counters(s: LedgerState): map<string, int> {
    AddAll(s.committed, s.reserved)
  }

  /** The dictionary-updating loops that compute it. */
  method CountersOf(s: LedgerState) returns (totals: map<string, int>)
    ensures totals == Counters(s)
  {
    hide Add;
    totals := s.committed;
    for i := 0 to |s.reserved|
      invariant totals == AddAll(s.committed, s.reserved[..i])
    {
      assert s.reserved[..i + 1][..i] == s.reserved[..i];
      totals := AddDeltas(totals, s.reserved[i].deltas);
    }
    assert s.reserved[..|s.reserved|] == s.reserved;
  }

  method AddDeltas(before: map<string, int>, deltas: map<string, int>) returns (totals: map<string, int>)
    ensures totals == Add(before, deltas)
  {
    hide Add, Only;
    totals := before;
    var names := deltas.Keys;
    OnlyEnds(before, deltas);
    while names != {}
      invariant names <= deltas.Keys
      invariant totals == Add(before, Only(deltas, names))
      decreases |names|
    {
      var name :| name in names;
      OnlyStep(before, deltas, names, name);
      totals := totals[name := Get(totals, name) + deltas[name]];
      names := names - {name};
    }
  }

  /** The deltas whose names are no longer waiting. */
  function Only(deltas: map<string, int>, waiting: set<string>): map<string, int> {
    map n | n in deltas && n !in waiting :: deltas[n]
  }

  lemma OnlyEnds(before: map<string, int>, deltas: map<string, int>)
    ensures Add(before, Only(deltas, deltas.Keys)) == before && Only(deltas, {}) == deltas
  {
  }

  lemma OnlyStep(before: map<string, int>, deltas: map<string, int>, waiting: set<string>, name: string)
    requires name in waiting && name in deltas
    ensures var totals := Add(before, Only(deltas, waiting));
      Add(before, Only(deltas, waiting - {name})) == totals[name := Get(totals, name) + deltas[name]]
  {
    assert Only(deltas, waiting - {name}) == Only(deltas, waiting)[name := deltas[name]];
    AddOne(before, Only(deltas, waiting), name, deltas[name]);
    hide Add, Only;
  }

  lemma AddOne(before: map<string, int>, some: map<string, int>, name: string, amount: int)
    requires name !in some
    ensures var totals := Add(before, some);
      Add(before, some[name := amount]) == totals[name := Get(totals, name) + amount]
  {
  }

  /** The snapshot of the state, with the facts loaded beside it. */
  function SnapshotOf(s: LedgerState, facts: seq<EntityRecord>): Result<Snapshot> {
    BuildSnapshot(s.sessionId, s.number, s.labels, Counters(s), s.approvals, facts)
  }

  // ---- reservations, ordered by id ----

  function Insert(r: Reservation, reserved: seq<Reservation>): seq<Reservation> {
    if reserved == [] || r.id < reserved[0].id then [r] + reserved else [reserved[0]] + Insert(r, reserved[1..])
  }

  function Find(reserved: seq<Reservation>, id: int): Option<Reservation> {
    if reserved == [] then None
    else if reserved[0].id == id then Some(reserved[0])
    else Find(reserved[1..], id)
  }

  function Without(reserved: seq<Reservation>, id: int): seq<Reservation> {
    if reserved == [] then []
    else if reserved[0].id == id then Without(reserved[1..], id)
    else [reserved[0]] + Without(reserved[1..], id)
  }

  // ---- transitions ----

  function InitialState(sessionId: string, names: set<string>): Result<LedgerState> {
    if !IsId(sessionId) then Err("bad_session_id")
    else Ok(LedgerState(sessionId, None, 0, {}, map n | n in names :: 0, [], {}))
  }

  predicate SafeDeltas(deltas: map<string, int>, names: set<string>) {
    forall n :: n in deltas ==> n in names && SafeNat(deltas[n])
  }

  function Settle(s: LedgerState, r: Reservation, labels: seq<string>, outcome: string): LedgerState {
    var closed := s.(number := s.number + 1, reserved := Without(s.reserved, r.id));
    if outcome == COMMITTED then
      closed.(committed := Add(s.committed, r.deltas), labels := s.labels + set l | l in labels)
    else closed
  }

  /** One event, one deterministic transition; anything that cannot have happened is refused. */
  function Apply(s: LedgerState, e: Event, names: set<string>): Result<LedgerState> {
    if e.number != s.number then Err("sequence_gap")
    else if e.body.SessionOpened? then
      if s.principal.Some? || s.number != 0 then Err("session_already_open")
      else if !IsId(e.body.principal) || e.body.sessionId != s.sessionId then Err("bad_session_opened")
      else Ok(s.(number := s.number + 1, principal := Some(e.body.principal)))
    else if s.principal.None? then Err("session_not_open")
    else
      match e.body
      case Decided(_, _, _) => Ok(s.(number := s.number + 1))
      case Reserved(hash, deltas, expiresMs, id) =>
        if !IsHash(hash) then Err("bad_action_hash")
        else if id < 0 then Err("bad_reservation")
        else if Find(s.reserved, id).Some? then Err("already_reserved")
        else if !SafeNat(expiresMs) then Err("bad_expiry")
        else if !SafeDeltas(deltas, names) then Err("bad_reservation")
        else Ok(s.(number := s.number + 1, reserved := Insert(Reservation(id, hash, deltas, expiresMs), s.reserved)))
      case Settled(labels, outcome, id) =>
        if outcome != COMMITTED && outcome != RELEASED then Err("bad_outcome")
        else if exists l :: l in labels && !IsName(l) then Err("bad_labels")
        else
          var found := Find(s.reserved, id);
          if found.None? then Err("nothing_reserved")
          else if outcome != COMMITTED && labels != [] then Err("released_actions_apply_no_labels")
          else Ok(Settle(s, found.value, labels, outcome))
      case ApprovalGranted(hash, approver) =>
        if !IsHash(hash) then Err("bad_action_hash")
        else if !IsId(approver) then Err("bad_approver")
        else Ok(s.(number := s.number + 1, approvals := s.approvals + {hash}))
      case ApprovalConsumed(hash) =>
        if !IsHash(hash) then Err("bad_action_hash")
        else if hash !in s.approvals then Err("no_such_approval")
        else Ok(s.(number := s.number + 1, approvals := s.approvals - {hash}))
  }

  /** The state of a log whose events are numbered by their position. */
  function FoldFrom(s: LedgerState, log: seq<Body>, names: set<string>): Result<LedgerState> {
    if log == [] then Ok(s)
    else
      var before :- FoldFrom(s, log[..|log| - 1], names);
      Apply(before, Event(|log| - 1, log[|log| - 1]), names)
  }

  function Fold(sessionId: string, log: seq<Body>, names: set<string>): Result<LedgerState> {
    var s :- InitialState(sessionId, names);
    FoldFrom(s, log, names)
  }

  /** The folding loop: it stops at the first refused event. */
  method FoldLog(sessionId: string, log: seq<Body>, names: set<string>) returns (r: Result<LedgerState>)
    ensures r == Fold(sessionId, log, names)
  {
    r := InitialState(sessionId, names);
    if r.Err? { return; }
    var state := r.value;
    for i := 0 to |log|
      invariant Ok(state) == FoldFrom(r.value, log[..i], names)
    {
      assert log[..i + 1][..i] == log[..i];
      var next := Apply(state, Event(i, log[i]), names);
      if next.Err? {
        FoldStops(r.value, log, i, names);
        return next;
      }
      state := next.value;
    }
    assert log[..|log|] == log;
    r := Ok(state);
  }

  /** A refused event refuses every longer log with the same code. */
  lemma {:induction false} FoldStops(s: LedgerState, log: seq<Body>, i: nat, names: set<string>)
    requires i < |log| && FoldFrom(s, log[..i], names).Ok?
    requires Apply(FoldFrom(s, log[..i], names).value, Event(i, log[i]), names).Err?
    ensures FoldFrom(s, log, names) == FoldFrom(s, log[..i + 1], names)
    ensures FoldFrom(s, log, names).Err?
    ensures FoldFrom(s, log, names).code == Apply(FoldFrom(s, log[..i], names).value, Event(i, log[i]), names).code
  {
    hide Apply;
    assert log[..i + 1][..i] == log[..i];
    if i + 1 == |log| {
      assert log[..i + 1] == log;
    } else {
      var shorter := log[..|log| - 1];
      assert shorter[..i] == log[..i] && shorter[..i + 1] == log[..i + 1];
      FoldStops(s, shorter, i, names);
    }
  }

  // ---- what a canonical action reserves ----

  /** The integer a budget reads from an argument. */
  function BudgetAmount(v: Value): Result<nat> {
    match v
    case Plain(IntValue(n)) => if n >= 0 then Ok(n) else Err("bad_budget_value")
    case MoneyValue(a) => if a.minor >= 0 then Ok(a.minor) else Err("bad_budget_value")
    case UrlValue(u) => Ok(u.port)
    case _ => Err("bad_budget_value")
  }

  function BudgetReservation(a: Action, tool: ToolSpec): Result<map<string, int>> {
    match tool.budget
    case None => Ok(map[])
    case Some(budget) =>
      if budget.from !in a.args then Ok(map[])
      else
        var amount :- BudgetAmount(a.args[budget.from]);
        Ok(map[budget.counter := amount])
  }
}
