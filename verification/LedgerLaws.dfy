/** Laws of every folded log: budgets are conserved, labels only grow, approvals are used at most once. */
module LedgerLaws {
  import opened Wrappers
  import opened Json
  import opened Syntax
  import opened Decide
  import opened Snapshots
  import opened Ledger

  // ---- prefixes ----

  lemma {:induction false} FoldFromPrefix(s: LedgerState, log: seq<Body>, names: set<string>, i: nat)
    requires i <= |log| && FoldFrom(s, log, names).Ok?
    ensures FoldFrom(s, log[..i], names).Ok?
  {
    hide Apply;
    if i == |log| {
      assert log[..i] == log;
    } else {
      assert log[..|log| - 1][..i] == log[..i];
      FoldFromPrefix(s, log[..|log| - 1], names, i);
    }
  }

  lemma FoldPrefix(sid: string, log: seq<Body>, names: set<string>, i: nat)
    requires i <= |log| && Fold(sid, log, names).Ok?
    ensures Fold(sid, log[..i], names).Ok?
  {
    FoldFromPrefix(InitialState(sid, names).value, log, names, i);
  }

  lemma FoldStep(sid: string, log: seq<Body>, names: set<string>, body: Body)
    requires Fold(sid, log, names).Ok?
    ensures Fold(sid, log + [body], names) == Apply(Fold(sid, log, names).value, Event(|log|, body), names)
  {
    hide Apply;
    assert (log + [body])[..|log|] == log;
  }

  lemma FoldLast(sid: string, log: seq<Body>, names: set<string>)
    requires log != [] && Fold(sid, log, names).Ok?
    ensures var n := |log| - 1;
      && Fold(sid, log[..n], names).Ok?
      && Fold(sid, log, names) == Apply(Fold(sid, log[..n], names).value, Event(n, log[n]), names)
  {
    hide Apply;
  }

  // ---- the shape of every state ----

  predicate Ordered(reserved: seq<Reservation>) {
    forall i, j :: 0 <= i < j < |reserved| ==> reserved[i].id < reserved[j].id
  }

  lemma {:induction false} InsertOrdered(r: Reservation, reserved: seq<Reservation>)
    requires Ordered(reserved) && Find(reserved, r.id) == None
    ensures Ordered(Insert(r, reserved))
    ensures forall x :: x in Insert(r, reserved) <==> x == r || x in reserved
  {
    if reserved != [] && r.id >= reserved[0].id {
      InsertOrdered(r, reserved[1..]);
      var rest := Insert(r, reserved[1..]);
      forall i | 0 <= i < |rest| ensures reserved[0].id < rest[i].id {
        assert rest[i] in rest;
        if rest[i] != r {
          var j :| 0 <= j < |reserved| - 1 && reserved[1..][j] == rest[i];
        }
      }
    }
  }

  lemma HeadTail(reserved: seq<Reservation>)
    requires reserved != []
    ensures forall x :: x in reserved <==> x == reserved[0] || x in reserved[1..]
    ensures Ordered(reserved) ==> Ordered(reserved[1..]) && forall x :: x in reserved[1..] ==> reserved[0].id < x.id
  {
  }

  lemma ConsOrdered(r: Reservation, rest: seq<Reservation>)
    requires Ordered(rest) && forall x :: x in rest ==> r.id < x.id
    ensures Ordered([r] + rest)
  {
  }

  lemma {:induction false} WithoutMembers(reserved: seq<Reservation>, id: int)
    ensures forall x :: x in Without(reserved, id) <==> x in reserved && x.id != id
  {
    if reserved != [] {
      HeadTail(reserved);
      WithoutMembers(reserved[1..], id);
      hide Ordered;
    }
  }

  lemma {:induction false} WithoutOrdered(reserved: seq<Reservation>, id: int)
    requires Ordered(reserved)
    ensures Ordered(Without(reserved, id))
  {
    hide Ordered;
    if reserved != [] {
      HeadTail(reserved);
      WithoutOrdered(reserved[1..], id);
      WithoutMembers(reserved[1..], id);
      ConsOrdered(reserved[0], Without(reserved[1..], id));
    } else {
      assert Without(reserved, id) == reserved;
    }
  }

  lemma {:induction false} FindIn(reserved: seq<Reservation>, id: int)
    ensures Find(reserved, id).Some? ==> Find(reserved, id).value in reserved && Find(reserved, id).value.id == id
    ensures Find(reserved, id).None? ==> forall x :: x in reserved ==> x.id != id
  {
    if reserved != [] && reserved[0].id != id { FindIn(reserved[1..], id); }
  }

  lemma FindOnly(reserved: seq<Reservation>, x: Reservation)
    requires Ordered(reserved) && x in reserved
    ensures Find(reserved, x.id) == Some(x)
  {
    FindIn(reserved, x.id);
    var i :| 0 <= i < |reserved| && reserved[i] == x;
    if Find(reserved, x.id).Some? {
      var j :| 0 <= j < |reserved| && reserved[j] == Find(reserved, x.id).value;
    }
  }

  predicate Sound(s: LedgerState, names: set<string>) {
    && IsId(s.sessionId) && (s.principal.Some? ==> IsId(s.principal.value))
    && Ordered(s.reserved) && (forall r :: r in s.reserved ==> SoundReservation(r, names))
    && s.committed.Keys == names && (forall n :: n in s.committed ==> s.committed[n] >= 0)
    && (forall l :: l in s.labels ==> IsName(l))
    && (forall h :: h in s.approvals ==> IsHash(h))
  }

  predicate SoundReservation(r: Reservation, names: set<string>) {
    0 <= r.id && IsHash(r.actionHash) && SafeNat(r.expiresMs) && SafeDeltas(r.deltas, names)
  }

  lemma ApplySound(s: LedgerState, e: Event, names: set<string>)
    requires Sound(s, names) && Apply(s, e, names).Ok?
    ensures Sound(Apply(s, e, names).value, names) && Apply(s, e, names).value.number == s.number + 1
    ensures Apply(s, e, names).value.sessionId == s.sessionId && Apply(s, e, names).value.principal.Some?
  {
    hide IsHash, IsId, IsName;
    match e.body {
      case Reserved(hash, deltas, expiresMs, id) =>
        InsertOrdered(Reservation(id, hash, deltas, expiresMs), s.reserved);
      case Settled(labels, outcome, id) =>
        WithoutOrdered(s.reserved, id);
        WithoutMembers(s.reserved, id);
        FindIn(s.reserved, id);
      case _ =>
    }
  }

  lemma {:induction false} FoldSound(sid: string, log: seq<Body>, names: set<string>)
    requires Fold(sid, log, names).Ok?
    ensures var s := Fold(sid, log, names).value;
      Sound(s, names) && s.number == |log| && s.sessionId == sid && (s.principal.Some? <==> log != [])
  {
    hide Apply;
    if log != [] {
      FoldLast(sid, log, names);
      FoldSound(sid, log[..|log| - 1], names);
      hide Sound, Fold;
      ApplySound(Fold(sid, log[..|log| - 1], names).value, Event(|log| - 1, log[|log| - 1]), names);
    }
  }

  // ---- conservation of budget ----

  function SumOf(reserved: seq<Reservation>, n: string): int {
    if reserved == [] then 0 else Get(reserved[0].deltas, n) + SumOf(reserved[1..], n)
  }

  lemma {:induction false} SumOfLast(reserved: seq<Reservation>, n: string)
    requires reserved != []
    ensures SumOf(reserved, n) == SumOf(reserved[..|reserved| - 1], n) + Get(reserved[|reserved| - 1].deltas, n)
  {
    if |reserved| > 1 {
      SumOfLast(reserved[1..], n);
      assert reserved[1..][..|reserved| - 2] == reserved[..|reserved| - 1][1..];
    }
  }

  lemma {:induction false} AddAllSums(totals: map<string, int>, reserved: seq<Reservation>, n: string)
    ensures Get(AddAll(totals, reserved), n) == Get(totals, n) + SumOf(reserved, n)
    ensures (forall r :: r in reserved ==> r.deltas.Keys <= totals.Keys) ==> AddAll(totals, reserved).Keys == totals.Keys
  {
    if reserved != [] {
      AddAllSums(totals, reserved[..|reserved| - 1], n);
      SumOfLast(reserved, n);
    }
  }

  lemma {:induction false} SumOfInsert(r: Reservation, reserved: seq<Reservation>, n: string)
    ensures SumOf(Insert(r, reserved), n) == SumOf(reserved, n) + Get(r.deltas, n)
  {
    if reserved != [] && r.id >= reserved[0].id {
      SumOfInsert(r, reserved[1..], n);
    } else {
      assert ([r] + reserved)[1..] == reserved;
    }
  }

  lemma {:induction false} WithoutAbsent(reserved: seq<Reservation>, id: int)
    requires forall x :: x in reserved ==> x.id != id
    ensures Without(reserved, id) == reserved
  {
    if reserved != [] { WithoutAbsent(reserved[1..], id); }
  }

  lemma {:induction false} SumOfWithout(reserved: seq<Reservation>, r: Reservation, n: string)
    requires Ordered(reserved) && r in reserved
    ensures SumOf(Without(reserved, r.id), n) == SumOf(reserved, n) - Get(r.deltas, n)
  {
    HeadTail(reserved);
    if reserved[0] == r {
      WithoutAbsent(reserved[1..], r.id);
    } else {
      SumOfWithout(reserved[1..], r, n);
      assert ([reserved[0]] + Without(reserved[1..], r.id))[1..] == Without(reserved[1..], r.id);
    }
  }

  /** The reservation an id was last opened for. */
  function LastReserved(log: seq<Body>, id: int): Option<Reservation> {
    if log == [] then None
    else
      var last := log[|log| - 1];
      if last.Reserved? && last.reservation == id then Some(Reservation(id, last.actionHash, last.counters, last.expiresMs))
      else LastReserved(log[..|log| - 1], id)
  }

  function ReservedTotal(log: seq<Body>, n: string): int {
    if log == [] then 0
    else
      var last := log[|log| - 1];
      ReservedTotal(log[..|log| - 1], n) + if last.Reserved? then Get(last.counters, n) else 0
  }

  function ReleasedTotal(log: seq<Body>, n: string): int {
    if log == [] then 0
    else
      var last, before := log[|log| - 1], log[..|log| - 1];
      ReleasedTotal(before, n) +
      if last.Settled? && last.outcome == RELEASED && LastReserved(before, last.settled).Some?
      then Get(LastReserved(before, last.settled).value.deltas, n) else 0
  }

  /** Every open reservation is the latest one of its id. */
  lemma {:induction false} OpenIsLatest(sid: string, log: seq<Body>, names: set<string>)
    requires Fold(sid, log, names).Ok?
    ensures forall r :: r in Fold(sid, log, names).value.reserved ==> LastReserved(log, r.id) == Some(r)
  {
    if log != [] {
      var before, last := log[..|log| - 1], log[|log| - 1];
      FoldLast(sid, log, names);
      OpenIsLatest(sid, before, names);
      FoldSound(sid, before, names);
      hide Fold, IsHash, IsId, IsName, SoundReservation;
      var s := Fold(sid, before, names).value;
      match last {
        case Reserved(hash, deltas, expiresMs, id) =>
          InsertOrdered(Reservation(id, hash, deltas, expiresMs), s.reserved);
          FindIn(s.reserved, id);
        case Settled(_, _, id) =>
          FindIn(s.reserved, id);
          WithoutMembers(s.reserved, id);
        case _ =>
      }
    }
  }

  /** What an event adds to a counter: a reservation adds, a release gives back, a commit only moves. */
  function Change(s: LedgerState, body: Body, n: string): int {
    if body.Reserved? then Get(body.counters, n)
    else if body.Settled? && body.outcome == RELEASED && Find(s.reserved, body.settled).Some?
    then -Get(Find(s.reserved, body.settled).value.deltas, n)
    else 0
  }

  lemma ApplyTotals(s: LedgerState, e: Event, names: set<string>, n: string)
    requires Sound(s, names) && Apply(s, e, names).Ok?
    ensures var t := Apply(s, e, names).value;
      Get(t.committed, n) + SumOf(t.reserved, n) == Get(s.committed, n) + SumOf(s.reserved, n) + Change(s, e.body, n)
  {
    hide IsHash, IsId, IsName, SoundReservation, SumOf, Ordered;
    match e.body {
      case Reserved(hash, deltas, expiresMs, id) =>
        SumOfInsert(Reservation(id, hash, deltas, expiresMs), s.reserved, n);
      case Settled(labels, outcome, id) =>
        FindIn(s.reserved, id);
        SumOfWithout(s.reserved, Find(s.reserved, id).value, n);
        assert COMMITTED != RELEASED;
      case _ =>
    }
  }

  /** Budget is conserved: what a cap sees is everything ever reserved less everything ever released. */
  lemma {:induction false} Conservation(sid: string, log: seq<Body>, names: set<string>, n: string)
    requires Fold(sid, log, names).Ok?
    ensures Get(Counters(Fold(sid, log, names).value), n) == ReservedTotal(log, n) - ReleasedTotal(log, n)
    ensures Counters(Fold(sid, log, names).value).Keys == names
  {
    var s := Fold(sid, log, names).value;
    FoldSound(sid, log, names);
    AddAllSums(s.committed, s.reserved, n);
    TotalsOf(sid, log, names, n);
    hide Fold, Ordered, ReservedTotal, ReleasedTotal;
  }

  lemma {:induction false} TotalsOf(sid: string, log: seq<Body>, names: set<string>, n: string)
    requires Fold(sid, log, names).Ok?
    ensures var s := Fold(sid, log, names).value;
      Get(s.committed, n) + SumOf(s.reserved, n) == ReservedTotal(log, n) - ReleasedTotal(log, n)
  {
    if log != [] {
      var before, last := log[..|log| - 1], log[|log| - 1];
      FoldLast(sid, log, names);
      TotalsOf(sid, before, names, n);
      FoldSound(sid, before, names);
      var s := Fold(sid, before, names).value;
      ApplyTotals(s, Event(|log| - 1, last), names, n);
      OpenIsLatest(sid, before, names);
      if last.Settled? {
        FindIn(s.reserved, last.settled);
        SettledWasOpen(s, Event(|log| - 1, last), names);
      }
      hide Fold, Apply, Sound, SumOf;
    }
  }

  lemma SettledWasOpen(s: LedgerState, e: Event, names: set<string>)
    requires e.body.Settled? && Apply(s, e, names).Ok?
    ensures Find(s.reserved, e.body.settled).Some?
  {
  }

  // ---- some of the reservations ----

  /** Everything reserved under one of these ids. */
  function ReservedOf(log: seq<Body>, n: string, ids: set<int>): int {
    if log == [] then 0
    else
      var last := log[|log| - 1];
      ReservedOf(log[..|log| - 1], n, ids) + if last.Reserved? && last.reservation in ids then Get(last.counters, n) else 0
  }

  /** Everything released of one of these ids. */
  function ReleasedOf(log: seq<Body>, n: string, ids: set<int>): int {
    if log == [] then 0
    else
      var last, before := log[|log| - 1], log[..|log| - 1];
      ReleasedOf(before, n, ids) +
      if last.Settled? && last.outcome == RELEASED && last.settled in ids && LastReserved(before, last.settled).Some?
      then Get(LastReserved(before, last.settled).value.deltas, n) else 0
  }

  /** What is open under any other id. */
  function SumOutside(reserved: seq<Reservation>, n: string, ids: set<int>): int {
    if reserved == [] then 0
    else (if reserved[0].id in ids then 0 else Get(reserved[0].deltas, n)) + SumOutside(reserved[1..], n, ids)
  }

  lemma {:induction false} OutsideInsert(r: Reservation, reserved: seq<Reservation>, n: string, ids: set<int>)
    ensures SumOutside(Insert(r, reserved), n, ids) ==
            SumOutside(reserved, n, ids) + if r.id in ids then 0 else Get(r.deltas, n)
  {
    if reserved != [] && r.id >= reserved[0].id {
      OutsideInsert(r, reserved[1..], n, ids);
    } else {
      assert ([r] + reserved)[1..] == reserved;
    }
  }

  lemma {:induction false} OutsideWithout(reserved: seq<Reservation>, r: Reservation, n: string, ids: set<int>)
    requires Ordered(reserved) && r in reserved
    ensures SumOutside(Without(reserved, r.id), n, ids) ==
            SumOutside(reserved, n, ids) - if r.id in ids then 0 else Get(r.deltas, n)
  {
    HeadTail(reserved);
    if reserved[0] == r {
      WithoutAbsent(reserved[1..], r.id);
    } else {
      OutsideWithout(reserved[1..], r, n, ids);
      assert ([reserved[0]] + Without(reserved[1..], r.id))[1..] == Without(reserved[1..], r.id);
    }
  }

  lemma {:induction false} OutsideNonNegative(reserved: seq<Reservation>, n: string, ids: set<int>)
    requires forall r :: r in reserved ==> Get(r.deltas, n) >= 0
    ensures SumOutside(reserved, n, ids) >= 0
  {
    if reserved != [] {
      assert reserved[0] in reserved;
      OutsideNonNegative(reserved[1..], n, ids);
    }
  }

  lemma SoundDeltas(s: LedgerState, names: set<string>, n: string)
    requires Sound(s, names)
    ensures forall r :: r in s.reserved ==> Get(r.deltas, n) >= 0
  {
    hide IsHash, IsId, IsName, Ordered;
  }

  lemma ApplyOutside(s: LedgerState, e: Event, names: set<string>, n: string, ids: set<int>)
    requires Sound(s, names) && Apply(s, e, names).Ok?
    ensures var t := Apply(s, e, names).value;
      SumOutside(t.reserved, n, ids) <= SumOutside(s.reserved, n, ids) +
        (if e.body.Reserved? && e.body.reservation !in ids then Change(s, e.body, n) else 0) +
        (if e.body.Settled? && e.body.settled !in ids then Change(s, e.body, n) else 0)
  {
    hide IsHash, IsId, IsName, SoundReservation, SumOutside, Ordered;
    match e.body {
      case Reserved(hash, deltas, expiresMs, id) =>
        OutsideInsert(Reservation(id, hash, deltas, expiresMs), s.reserved, n, ids);
      case Settled(labels, outcome, id) =>
        FindIn(s.reserved, id);
        SoundDeltas(s, names, n);
        OutsideWithout(s.reserved, Find(s.reserved, id).value, n, ids);
        assert COMMITTED != RELEASED;
      case _ =>
    }
  }

  /** What stays open under the other ids is at most what they reserved less what was released of them. */
  lemma {:induction false} OutsideTotals(sid: string, log: seq<Body>, names: set<string>, n: string, ids: set<int>)
    requires Fold(sid, log, names).Ok?
    ensures SumOutside(Fold(sid, log, names).value.reserved, n, ids) <=
            (ReservedTotal(log, n) - ReservedOf(log, n, ids)) - (ReleasedTotal(log, n) - ReleasedOf(log, n, ids))
  {
    if log != [] {
      var before, last := log[..|log| - 1], log[|log| - 1];
      FoldLast(sid, log, names);
      OutsideTotals(sid, before, names, n, ids);
      FoldSound(sid, before, names);
      var s := Fold(sid, before, names).value;
      ApplyOutside(s, Event(|log| - 1, last), names, n, ids);
      OpenIsLatest(sid, before, names);
      if last.Settled? {
        FindIn(s.reserved, last.settled);
        SettledWasOpen(s, Event(|log| - 1, last), names);
      }
      hide Fold, Apply, Sound, SumOutside;
    }
  }

  /** Of any reservations, what was ever reserved less what was released of them is at most what a cap sees. */
  lemma PartOfCounter(sid: string, log: seq<Body>, names: set<string>, n: string, ids: set<int>)
    requires Fold(sid, log, names).Ok?
    ensures ReservedOf(log, n, ids) - ReleasedOf(log, n, ids) <= Get(Counters(Fold(sid, log, names).value), n)
  {
    hide Fold, Counters, Sound, ReservedTotal, ReleasedTotal, ReservedOf, ReleasedOf, SumOutside;
    FoldSound(sid, log, names);
    SoundDeltas(Fold(sid, log, names).value, names, n);
    OutsideNonNegative(Fold(sid, log, names).value.reserved, n, ids);
    OutsideTotals(sid, log, names, n, ids);
    Conservation(sid, log, names, n);
  }

  lemma {:induction false} NothingReleased(log: seq<Body>, n: string, ids: set<int>)
    requires forall i :: 0 <= i < |log| && log[i].Settled? && log[i].outcome == RELEASED ==> log[i].settled !in ids
    ensures ReleasedOf(log, n, ids) == 0
  {
    if log != [] { NothingReleased(log[..|log| - 1], n, ids); }
  }

  // ---- labels ----

  /** The labels that committed settlements have put on the session. */
  function CommittedLabels(log: seq<Body>): set<string> {
    if log == [] then {}
    else
      var last := log[|log| - 1];
      CommittedLabels(log[..|log| - 1]) + if last.Settled? && last.outcome == COMMITTED then set l | l in last.labels else {}
  }

  lemma {:induction false} LabelsAreCommitted(sid: string, log: seq<Body>, names: set<string>)
    requires Fold(sid, log, names).Ok?
    ensures Fold(sid, log, names).value.labels == CommittedLabels(log)
  {
    if log != [] {
      FoldLast(sid, log, names);
      LabelsAreCommitted(sid, log[..|log| - 1], names);
      hide Fold, IsHash, IsId, IsName, Find;
    }
  }

  lemma {:induction false} LabelsGrow(log: seq<Body>, i: nat)
    requires i <= |log|
    ensures CommittedLabels(log[..i]) <= CommittedLabels(log)
  {
    if i == |log| {
      assert log[..i] == log;
    } else {
      assert log[..|log| - 1][..i] == log[..i];
      LabelsGrow(log[..|log| - 1], i);
    }
  }

  // ---- approvals ----

  function Grants(log: seq<Body>, hash: string): nat {
    if log == [] then 0
    else Grants(log[..|log| - 1], hash) + if log[|log| - 1].ApprovalGranted? && log[|log| - 1].actionHash == hash then 1 else 0
  }

  function Consumptions(log: seq<Body>, hash: string): nat {
    if log == [] then 0
    else Consumptions(log[..|log| - 1], hash) + if log[|log| - 1].ApprovalConsumed? && log[|log| - 1].actionHash == hash then 1 else 0
  }

  /** Granted and not consumed since. */
  predicate Standing(log: seq<Body>, hash: string) {
    log != [] &&
    var last := log[|log| - 1];
    if last.ApprovalGranted? && last.actionHash == hash then true
    else if last.ApprovalConsumed? && last.actionHash == hash then false
    else Standing(log[..|log| - 1], hash)
  }

  lemma {:induction false} ApprovalsStand(sid: string, log: seq<Body>, names: set<string>, hash: string)
    requires Fold(sid, log, names).Ok?
    ensures hash in Fold(sid, log, names).value.approvals <==> Standing(log, hash)
    ensures Consumptions(log, hash) + (if Standing(log, hash) then 1 else 0) <= Grants(log, hash)
  {
    if log != [] {
      FoldLast(sid, log, names);
      ApprovalsStand(sid, log[..|log| - 1], names, hash);
      hide Fold, IsHash, IsId, IsName, Find;
    }
  }

  /** Between two consumptions of an approval there is a grant of it. */
  lemma {:induction false} GrantBetween(sid: string, log: seq<Body>, names: set<string>, hash: string, i: nat, j: nat)
    requires Fold(sid, log, names).Ok? && i < j < |log|
    requires log[i] == ApprovalConsumed(hash) && log[j] == ApprovalConsumed(hash)
    ensures exists k :: i < k < j && log[k].ApprovalGranted? && log[k].actionHash == hash
  {
    FoldPrefix(sid, log, names, j + 1);
    FoldLast(sid, log[..j + 1], names);
    assert log[..j + 1][..j] == log[..j];
    ConsumedStood(Fold(sid, log[..j], names).value, j, hash, names);
    ApprovalsStand(sid, log[..j], names, hash);
    GrantSince(log, hash, i, j);
  }

  lemma ConsumedStood(s: LedgerState, at: nat, hash: string, names: set<string>)
    requires Apply(s, Event(at, ApprovalConsumed(hash)), names).Ok?
    ensures hash in s.approvals
  {
  }

  lemma {:induction false} GrantSince(log: seq<Body>, hash: string, i: nat, j: nat)
    requires i < j <= |log| && log[i] == ApprovalConsumed(hash) && Standing(log[..j], hash)
    ensures exists k :: i < k < j && log[k].ApprovalGranted? && log[k].actionHash == hash
    decreases j
  {
    var last := log[..j][j - 1];
    assert last == log[j - 1] && log[..j][..j - 1] == log[..j - 1];
    if !(last.ApprovalGranted? && last.actionHash == hash) {
      assert j - 1 != i;
      GrantSince(log, hash, i, j - 1);
      var k :| i < k < j - 1 && log[k].ApprovalGranted? && log[k].actionHash == hash;
    }
  }

  // ---- settlement ----

  function Opened(log: seq<Body>, id: int): nat {
    if log == [] then 0
    else Opened(log[..|log| - 1], id) + if log[|log| - 1].Reserved? && log[|log| - 1].reservation == id then 1 else 0
  }

  function SettledTimes(log: seq<Body>, id: int): nat {
    if log == [] then 0
    else SettledTimes(log[..|log| - 1], id) + if log[|log| - 1].Settled? && log[|log| - 1].settled == id then 1 else 0
  }

  /** Each settlement closes exactly one opening: what is not settled is open, once. */
  lemma {:induction false} SettledOnce(sid: string, log: seq<Body>, names: set<string>, id: int)
    requires Fold(sid, log, names).Ok?
    ensures Opened(log, id) == SettledTimes(log, id) + if Find(Fold(sid, log, names).value.reserved, id).Some? then 1 else 0
  {
    if log != [] {
      var before, last := log[..|log| - 1], log[|log| - 1];
      FoldLast(sid, log, names);
      SettledOnce(sid, before, names, id);
      FoldSound(sid, before, names);
      hide Fold, IsHash, IsId, IsName, SoundReservation, Ordered;
      var s := Fold(sid, before, names).value;
      match last {
        case Reserved(hash, deltas, expiresMs, x) => FindInserted(s.reserved, Reservation(x, hash, deltas, expiresMs), id);
        case Settled(_, _, x) =>
          FindIn(s.reserved, x);
          FindWithout(s.reserved, x, id);
        case _ =>
      }
    }
  }

  lemma FindInserted(reserved: seq<Reservation>, r: Reservation, id: int)
    requires Ordered(reserved) && Find(reserved, r.id) == None
    ensures Find(Insert(r, reserved), id) == if id == r.id then Some(r) else Find(reserved, id)
  {
    InsertOrdered(r, reserved);
    var after := Insert(r, reserved);
    FindIn(after, id);
    FindIn(reserved, id);
    if id == r.id {
      FindOnly(after, r);
    } else if Find(reserved, id).Some? {
      FindOnly(after, Find(reserved, id).value);
    }
  }

  lemma FindWithout(reserved: seq<Reservation>, x: int, id: int)
    requires Ordered(reserved)
    ensures Find(Without(reserved, x), id) == if id == x then None else Find(reserved, id)
  {
    WithoutMembers(reserved, x);
    WithoutOrdered(reserved, x);
    FindIn(Without(reserved, x), id);
    FindIn(reserved, id);
    if id != x && Find(reserved, id).Some? { FindOnly(Without(reserved, x), Find(reserved, id).value); }
  }
}
