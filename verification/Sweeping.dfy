/** What a sweep does exactly, and what it means for a tool that is still running. */
module Sweeping {
  import opened Wrappers
  import opened Json
  import opened Syntax
  import opened Manifest
  import opened Decide
  import opened Ledger
  import opened LedgerLaws
  import opened GateSpec
  import opened GateLog
  import opened GateLaws
  import opened GateRuns

  function Unexpired(reserved: seq<Reservation>, nowMs: int): seq<Reservation> {
    if reserved == [] then []
    else (if reserved[0].expiresMs >= nowMs then [reserved[0]] else []) + Unexpired(reserved[1..], nowMs)
  }

  function ExpiredIds(reserved: seq<Reservation>, nowMs: int): seq<int> {
    if reserved == [] then []
    else (if reserved[0].expiresMs < nowMs then [reserved[0].id] else []) + ExpiredIds(reserved[1..], nowMs)
  }

  function Releases(ids: seq<int>): seq<Body> {
    seq(|ids|, i requires 0 <= i < |ids| => Settled([], RELEASED, ids[i]))
  }

  /** The view after a sweep with room in its log: the expired reservations are gone, in id order, and nothing else. */
  function Swept(v: View, kept: seq<Reservation>, pending: seq<Reservation>, nowMs: int): View {
    var ids := ExpiredIds(pending, nowMs);
    View(v.state.(number := v.state.number + |ids|, reserved := kept + Unexpired(pending, nowMs)), v.log + Releases(ids))
  }

  lemma WithoutFirst(r: Reservation, rest: seq<Reservation>)
    requires Ordered([r] + rest)
    ensures Without([r] + rest, r.id) == rest
  {
    var all := [r] + rest;
    assert all[1..] == rest;
    forall x | x in rest ensures x.id != r.id {
      var i :| 0 <= i < |rest| && rest[i] == x;
      assert all[i + 1] == x && all[0] == r && all[0].id < all[i + 1].id;
    }
    WithoutAbsent(rest, r.id);
  }

  lemma WithoutLater(first: Reservation, more: seq<Reservation>, id: int)
    requires first.id != id
    ensures Without([first] + more, id) == [first] + Without(more, id)
  {
    assert ([first] + more)[1..] == more;
  }

  lemma {:induction false} WithoutMiddle(kept: seq<Reservation>, r: Reservation, rest: seq<Reservation>)
    requires Ordered(kept + [r] + rest)
    ensures Without(kept + [r] + rest, r.id) == kept + rest
    decreases |kept|
  {
    hide Without;
    var all := kept + [r] + rest;
    if kept == [] {
      assert all == [r] + rest && kept + rest == rest;
      WithoutFirst(r, rest);
    } else {
      var more := kept[1..] + [r] + rest;
      assert all == [kept[0]] + more && all[1..] == more;
      assert all[0] == kept[0] && all[|kept|] == r;
      HeadTail(all);
      hide Ordered;
      WithoutLater(kept[0], more, r.id);
      WithoutMiddle(kept[1..], r, rest);
      assert kept + rest == [kept[0]] + (kept[1..] + rest);
    }
  }

  lemma ReleaseApplies(v: View, kept: seq<Reservation>, r: Reservation, rest: seq<Reservation>, names: set<string>)
    requires v.state.reserved == kept + [r] + rest && Ordered(v.state.reserved)
    requires v.state.principal.Some? && v.state.number == |v.log| <= MAX_SAFE_INT
    ensures Append(v, Settled([], RELEASED, r.id), names) ==
            Ok(View(v.state.(number := v.state.number + 1, reserved := kept + rest), v.log + [Settled([], RELEASED, r.id)]))
  {
    assert v.state.reserved[|kept|] == r;
    FindOnly(v.state.reserved, r);
    WithoutMiddle(kept, r, rest);
    assert RELEASED != COMMITTED;
  }

  lemma OrderedWithout(kept: seq<Reservation>, r: Reservation, rest: seq<Reservation>)
    requires Ordered(kept + [r] + rest)
    ensures Ordered(kept + rest)
  {
    var all, less := kept + [r] + rest, kept + rest;
    forall i, j | 0 <= i < j < |less| ensures less[i].id < less[j].id {
      var x, y := if i < |kept| then i else i + 1, if j < |kept| then j else j + 1;
      assert all[x] == less[i] && all[y] == less[j];
    }
  }

  lemma SweptUnexpired(v: View, kept: seq<Reservation>, r: Reservation, rest: seq<Reservation>, nowMs: int)
    requires r.expiresMs >= nowMs
    ensures Swept(v, kept, [r] + rest, nowMs) == Swept(v, kept + [r], rest, nowMs)
    ensures ExpiredIds([r] + rest, nowMs) == ExpiredIds(rest, nowMs)
  {
    assert ([r] + rest)[1..] == rest;
    assert kept + [r] + Unexpired(rest, nowMs) == kept + ([r] + Unexpired(rest, nowMs));
    assert [] + ExpiredIds(rest, nowMs) == ExpiredIds(rest, nowMs);
  }

  lemma SweptExpired(v: View, kept: seq<Reservation>, r: Reservation, rest: seq<Reservation>, nowMs: int)
    requires r.expiresMs < nowMs
    ensures var w := View(v.state.(number := v.state.number + 1, reserved := kept + rest), v.log + [Settled([], RELEASED, r.id)]);
      Swept(v, kept, [r] + rest, nowMs) == Swept(w, kept, rest, nowMs)
    ensures ExpiredIds([r] + rest, nowMs) == [r.id] + ExpiredIds(rest, nowMs)
  {
    assert ([r] + rest)[1..] == rest;
    var ids := ExpiredIds(rest, nowMs);
    assert Releases([r.id] + ids) == [Settled([], RELEASED, r.id)] + Releases(ids);
    assert v.log + [Settled([], RELEASED, r.id)] + Releases(ids) == v.log + ([Settled([], RELEASED, r.id)] + Releases(ids));
    assert [] + Unexpired(rest, nowMs) == Unexpired(rest, nowMs);
  }

  lemma {:induction false} SweepFromExact(v: View, kept: seq<Reservation>, pending: seq<Reservation>, nowMs: int,
                                          released: seq<int>, c: Config)
    requires v.state.reserved == kept + pending && Ordered(v.state.reserved)
    requires v.state.principal.Some? && v.state.number == |v.log| && |v.log| + |pending| <= MAX_SAFE_INT + 1
    ensures SweepFrom(v, pending, nowMs, released, c) ==
            Reply(Swept(v, kept, pending, nowMs), Ok(released + ExpiredIds(pending, nowMs)))
    decreases |pending|
  {
    hide Append, Ordered;
    if pending == [] {
      assert v.log + Releases([]) == v.log && released + [] == released && kept + [] == kept;
    } else {
      var r, rest := pending[0], pending[1..];
      assert pending == [r] + rest;
      assert kept + pending == kept + [r] + rest;
      hide Swept, ExpiredIds, Releases;
      if r.expiresMs >= nowMs {
        SweptUnexpired(v, kept, r, rest, nowMs);
        SweepFromExact(v, kept + [r], rest, nowMs, released, c);
      } else {
        SweptExpired(v, kept, r, rest, nowMs);
        ReleaseApplies(v, kept, r, rest, CounterNames(c));
        OrderedWithout(kept, r, rest);
        var w := Append(v, Settled([], RELEASED, r.id), CounterNames(c)).value;
        SweepFromExact(w, kept, rest, nowMs, released + [r.id], c);
        assert released + [r.id] + ExpiredIds(rest, nowMs) == released + ([r.id] + ExpiredIds(rest, nowMs));
      }
    }
  }

  /** A sweep releases exactly the reservations whose token has expired, in id order, and changes nothing else. */
  lemma SweepExact(c: Config, sid: string, v: View, nowMs: int)
    requires WellFormed(c.bundle.manifest) && Good(c, sid, v)
    requires |v.log| + |v.state.reserved| <= MAX_SAFE_INT + 1
    ensures SweepStep(v, nowMs, c) ==
            Reply(Swept(v, [], v.state.reserved, nowMs), Ok(ExpiredIds(v.state.reserved, nowMs)))
  {
    hide WellFormed, Good, Swept, SweepFrom, Ordered;
    GoodParts(c, sid, v);
    assert [] + v.state.reserved == v.state.reserved;
    assert [] + ExpiredIds(v.state.reserved, nowMs) == ExpiredIds(v.state.reserved, nowMs);
    if v.log == [] {
      EmptyLog(c, sid, v);
      assert v.log + Releases([]) == v.log;
      assert Swept(v, [], [], nowMs) == v by { EmptySwept(v, nowMs); }
      assert SweepFrom(v, [], nowMs, [], c) == Reply(v, Ok([])) by { EmptySweep(v, nowMs, c); }
    } else {
      OpenedPrincipal(c, sid, v);
      SweepFromExact(v, [], v.state.reserved, nowMs, [], c);
    }
  }

  lemma EmptyLog(c: Config, sid: string, v: View)
    requires WellFormed(c.bundle.manifest) && Good(c, sid, v) && v.log == []
    ensures v.state.reserved == []
  {
    hide WellFormed, Good;
    GoodWritten(c, sid, v);
  }

  lemma EmptySwept(v: View, nowMs: int)
    requires v.state.reserved == []
    ensures Swept(v, [], [], nowMs) == v
  {
    assert v.log + Releases([]) == v.log;
  }

  lemma EmptySweep(v: View, nowMs: int, c: Config)
    ensures SweepFrom(v, [], nowMs, [], c) == Reply(v, Ok([]))
  {
  }

  lemma {:induction false} UnexpiredMembers(reserved: seq<Reservation>, nowMs: int)
    ensures forall x :: x in Unexpired(reserved, nowMs) <==> x in reserved && x.expiresMs >= nowMs
  {
    if reserved != [] {
      HeadTail(reserved);
      UnexpiredMembers(reserved[1..], nowMs);
    }
  }

  /**
   * Expiry is judged by the clock alone: a sweep closes a reservation whose tool is still running exactly when its token
   * has expired, and then the tool's own settlement is refused and its spend is no longer counted.
   */
  lemma SweptWhileRunning(c: Config, sid: string, v: View, job: Job, r: Reservation, nowMs: int)
    requires ValidConfig(c) && WellFormed(c.bundle.manifest) && Good(c, sid, v) && Checked(c, v, job)
    requires r in v.state.reserved && r.id == job.reservation && |v.log| + |v.state.reserved| <= MAX_SAFE_INT
    ensures var w := SweepStep(v, nowMs, c).view;
      SettleStep(w, job.reservation, COMMITTED, c).Err? <==> r.expiresMs < nowMs
  {
    hide WellFormed, Good, ValidConfig, Checked, SweepFrom, Ordered, SettleStep;
    var w := SweepStep(v, nowMs, c).view;
    SweepExact(c, sid, v, nowMs);
    SweepGood(c, sid, v, v.state.reserved, nowMs, []);
    SweepExtends(v, v.state.reserved, nowMs, [], c);
    CheckedStays(c, sid, v, w, job);
    FewExpired(v.state.reserved, nowMs);
    FinishSettles(c, sid, w, job, true);
    OpenedBound(c, sid, w, job.reservation);
    UnexpiredMembers(v.state.reserved, nowMs);
    FindIn(w.state.reserved, r.id);
    GoodParts(c, sid, v);
    GoodParts(c, sid, w);
    CheckedOpened(c, w, job);
    FindOnly(v.state.reserved, r);
    if r.expiresMs >= nowMs { FindOnly(w.state.reserved, r); }
    assert [] + Unexpired(v.state.reserved, nowMs) == Unexpired(v.state.reserved, nowMs);
    if Find(w.state.reserved, r.id).Some? {
      var x := Find(w.state.reserved, r.id).value;
      FindOnly(v.state.reserved, x);
    }
  }

  lemma CheckedOpened(c: Config, v: View, job: Job)
    requires WellFormed(c.bundle.manifest) && Checked(c, v, job)
    ensures Opened(v.log, job.reservation) == 1
  {
    hide WellFormed, JobAt, Vouched;
  }

  lemma {:induction false} FewExpired(reserved: seq<Reservation>, nowMs: int)
    ensures |ExpiredIds(reserved, nowMs)| <= |reserved|
  {
    if reserved != [] { FewExpired(reserved[1..], nowMs); }
  }
}
