/** Everything the gate records and hashes has canonical JSON, so sealing and hashing never fail. */
module Records {
  import opened Wrappers
  import opened Json
  import opened Manifest
  import opened Canonical
  import opened Decide
  import opened Snapshots
  import opened Ledger
  import opened LedgerLaws
  import opened GateSpec
  import opened GateLog
  import opened GateLaws
  import opened Chain
  import opened ChainLaws

  lemma StringsInRange(items: seq<string>)
    ensures InRange(Strings(items))
  {
  }

  lemma CountersInRange(counters: map<string, int>)
    requires forall n :: n in counters ==> -MAX_SAFE_INT <= counters[n] <= MAX_SAFE_INT
    ensures InRange(CountersJson(counters))
  {
  }

  lemma RecordInRange(e: EntityRecord)
    requires ValidRecord(e)
    ensures InRange(RecordJson(e))
  {
    var attrs := AttrsJson(e.attrs);
    assert InRange(attrs);
    var m := RecordJson(e).members;
    assert m.Keys == {"attrs", "id", "type"};
    assert m["attrs"] == attrs && m["id"].JStr? && m["type"].JStr?;
  }

  lemma FactsInRange(facts: seq<EntityRecord>)
    requires ValidFacts(facts)
    ensures InRange(FactsJson(facts))
  {
    hide RecordJson, ValidRecord;
    forall i | 0 <= i < |facts| ensures InRange(FactsJson(facts).items[i]) {
      assert facts[i] in facts;
      RecordInRange(facts[i]);
    }
  }

  lemma EnvelopeInRange(e: Envelope)
    requires ValidEnvelope(e)
    ensures InRange(EnvelopeJson(e))
  {
    var m := EnvelopeJson(e).members;
    assert m.Keys == {"arguments", "principal", "session_id", "t_ms", "tool"};
    assert m["t_ms"] == JInt(e.tMs) && m["arguments"].JStr? && m["principal"].JStr? && m["session_id"].JStr?
           && m["tool"].JStr?;
  }

  lemma DecisionInRange(d: Decision)
    requires InRange(d.gate)
    ensures InRange(DecisionJson(d))
  {
    DecisionFields(d);
    StringsInRange(d.reasons);
    hide DecisionJson, Strings, VerdictText;
  }

  lemma SortedFactsValid(facts: seq<EntityRecord>)
    requires ValidFacts(SortFacts(facts))
    ensures ValidFacts(facts)
  {
    hide ValidRecord, SortFacts;
    SortKeeps(facts);
    forall f | f in facts ensures ValidRecord(f) {
      assert f in multiset(facts);
      assert f in multiset(SortFacts(facts));
    }
  }

  lemma DecidedInRange(c: Config, s: LedgerState, body: Body)
    requires ValidConfig(c) && WellFormed(c.bundle.manifest) && body.Decided? && DecisionFollows(c, s, body)
    ensures InRange(BodyJson(body))
  {
    hide WellFormed, Counters, Judge, ValidEnvelope, ValidRecord, DecisionJson, EnvelopeJson, FactsJson, SortFacts;
    SortedFactsValid(body.facts);
    FactsInRange(body.facts);
    EnvelopeInRange(body.envelope);
    DecisionInRange(body.decision);
    var m := BodyJson(body).members;
    assert m.Keys == {"decision", "envelope", "facts"};
    assert m["decision"] == DecisionJson(body.decision) && m["envelope"] == EnvelopeJson(body.envelope);
  }

  lemma ReservedInRange(s: LedgerState, at: nat, body: Body, names: set<string>)
    requires body.Reserved? && Apply(s, Event(at, body), names).Ok? && body.reservation <= MAX_SAFE_INT
    ensures InRange(BodyJson(body))
  {
    CountersInRange(body.counters);
    hide CountersJson;
    var m := BodyJson(body).members;
    assert m.Keys == {"action_hash", "counters", "expires_ms", "reservation"};
    assert m["counters"] == CountersJson(body.counters) && m["expires_ms"] == JInt(body.expiresMs);
    assert m["reservation"] == JInt(body.reservation) && m["action_hash"].JStr?;
  }

  lemma SettledInRange(body: Body)
    requires body.Settled? && -MAX_SAFE_INT <= body.settled <= MAX_SAFE_INT
    ensures InRange(BodyJson(body))
  {
    StringsInRange(body.labels);
    hide Strings;
    var m := BodyJson(body).members;
    assert m.Keys == {"labels", "outcome", "reservation"};
    assert m["labels"] == Strings(body.labels) && m["reservation"] == JInt(body.settled) && m["outcome"].JStr?;
  }

  lemma AppliedAt(c: Config, sid: string, log: seq<Body>, i: nat)
    requires WellFormed(c.bundle.manifest) && Written(c, sid, log) && i < |log|
    ensures StateAt(c, sid, log, i).Ok? && Apply(StateAt(c, sid, log, i).value, Event(i, log[i]), CounterNames(c)).Ok?
    ensures |log| <= MAX_SAFE_INT + 1
  {
    hide WellFormed, Justified, Fold, Apply;
    FoldPrefix(sid, log, CounterNames(c), i + 1);
    assert log[..i + 1][..i] == log[..i];
    FoldLast(sid, log[..i + 1], CounterNames(c));
  }

  lemma SettledIdBound(c: Config, sid: string, log: seq<Body>, i: nat)
    requires WellFormed(c.bundle.manifest) && Written(c, sid, log) && i < |log| && log[i].Settled?
    ensures 0 <= log[i].settled < i
  {
    hide WellFormed, Written, Fold, Apply, BudgetOf, Backed, Vouched;
    AppliedAt(c, sid, log, i);
    var s := StateAt(c, sid, log, i).value;
    SettledWasOpen(s, Event(i, log[i]), CounterNames(c));
    OpenIsLatest(sid, log[..i], CounterNames(c));
    FindIn(s.reserved, log[i].settled);
    var j := LastReservedAt(log[..i], log[i].settled);
    ReservationAt(c, sid, log, j);
  }

  lemma WrittenIsSealable(c: Config, sid: string, log: seq<Body>)
    requires ValidConfig(c) && WellFormed(c.bundle.manifest) && Written(c, sid, log)
    ensures Sealable(log)
  {
    hide WellFormed, ValidConfig, Written, Fold, Apply, DecisionFollows, BudgetOf, Backed, StateAt;
    SafeLog(c, sid, log);
    forall b | b in log ensures InRange(BodyJson(b)) {
      var i: nat :| i < |log| && log[i] == b;
      AppliedAt(c, sid, log, i);
      match b {
        case Decided(_, _, _) =>
          DecisionAt(c, sid, log, i);
          DecidedInRange(c, StateAt(c, sid, log, i).value, b);
        case Reserved(_, _, _, _) =>
          ReservationAt(c, sid, log, i);
          ReservedInRange(StateAt(c, sid, log, i).value, i, b, CounterNames(c));
        case Settled(_, _, _) =>
          SettledIdBound(c, sid, log, i);
          SettledInRange(b);
        case _ => TextsInRange(b);
      }
    }
  }

  lemma TextsInRange(b: Body)
    requires b.SessionOpened? || b.ApprovalGranted? || b.ApprovalConsumed?
    ensures InRange(BodyJson(b))
  {
  }

  lemma SafeLog(c: Config, sid: string, log: seq<Body>)
    requires WellFormed(c.bundle.manifest) && Written(c, sid, log)
    ensures |log| <= MAX_SAFE_INT + 1
  {
    hide WellFormed, Justified, Fold;
  }
}
