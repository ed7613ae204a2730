/** The stateful shell: the append-only log, the session that caches its fold, and the store of sessions. */
module Shell {
  import opened Wrappers
  import opened Json
  import opened Decide
  import opened Ledger
  import opened LedgerLaws
  import opened GateSpec
  import opened Chain
  import opened ChainLaws

  function BodiesOf(records: seq<Record>): (log: seq<Body>)
    ensures |log| == |records|
  {
    seq(|records|, i requires 0 <= i < |records| => records[i].body)
  }

  /** Numbered, linked and hashed: what a verifier without the public key checks. */
  predicate Chained(sha: Sha, records: seq<Record>) {
    forall i :: 0 <= i < |records| ==>
      records[i].number == i && records[i].prev == Head(records[..i]) && records[i].recordHash == RecordDigest(sha, records[i])
  }

  /** What opening a session's file yields: a broken chain or an impossible history is refused. */
  function LoadFile(c: Config, sid: string, records: seq<Record>): Result<View> {
    if Problems(c.bundle.sha, None, records) != [] then Err("broken_chain")
    else
      var state :- Fold(sid, BodiesOf(records), CounterNames(c));
      Ok(View(state, BodiesOf(records)))
  }

  lemma VerifiedIsChained(sha: Sha, records: seq<Record>)
    requires Problems(sha, None, records) == []
    ensures Chained(sha, records)
  {
    hide Problems, RecordDigest, InRange, EventJson;
    forall i | 0 <= i < |records|
      ensures records[i].number == i && records[i].prev == Head(records[..i])
              && records[i].recordHash == RecordDigest(sha, records[i])
    {
      InPlaceAt(sha, None, records, i);
    }
  }

  /** One file, one chain: this class only appends. */
  class EventLog {
    const sha: Sha
    const sign: Sign
    var records: seq<Record>
    var prev: string

    ghost predicate Valid()
      reads this
    {
      prev == Head(records) && Chained(sha, records)
    }

    constructor (sha: Sha, sign: Sign, records: seq<Record>)
      requires Chained(sha, records)
      ensures Valid() && this.records == records && this.sha == sha && this.sign == sign
    {
      hide Chained;
      this.sha, this.sign, this.records := sha, sign, records;
      prev := if records == [] then GENESIS else records[|records| - 1].recordHash;
    }

    method Append(body: Body) returns (r: Record)
      requires Valid()
      modifies this
      ensures Valid() && r == Seal(sha, Some(sign), Event(|old(records)|, body), Head(old(records)))
      ensures records == old(records) + [r]
    {
      hide EventJson, Digest;
      r := Seal(sha, Some(sign), Event(|records|, body), prev);
      assert forall i :: 0 <= i < |records| ==> (records + [r])[..i] == records[..i];
      assert (records + [r])[..|records|] == records;
      records := records + [r];
      prev := r.recordHash;
    }
  }

  /** One writer per session: the cached state always equals the fold of the log. */
  class Session {
    const c: Config
    const sessionId: string
    const log: EventLog
    var state: LedgerState

    ghost function View(): View
      reads this, log
    {
      GateSpec.View(state, BodiesOf(log.records))
    }

    ghost predicate Valid()
      reads this, log
    {
      log.Valid() && log.sha == c.bundle.sha && Fold(sessionId, BodiesOf(log.records), CounterNames(c)) == Ok(state)
    }

    constructor (c: Config, sessionId: string, log: EventLog, state: LedgerState)
      requires log.Valid() && log.sha == c.bundle.sha
      requires Fold(sessionId, BodiesOf(log.records), CounterNames(c)) == Ok(state)
      ensures Valid() && this.c == c && this.sessionId == sessionId && this.log == log && this.state == state
    {
      this.c, this.sessionId, this.log, this.state := c, sessionId, log, state;
    }

    lemma StateNamesSession()
      requires Valid()
      ensures state.sessionId == sessionId && state.number == |log.records|
    {
      hide Fold, Chained, Sound;
      FoldSound(sessionId, BodiesOf(log.records), CounterNames(c));
    }

    /** Fold first: an event the ledger would refuse never reaches the log, and neither changes. */
    method Append(body: Body) returns (r: Result<nat>)
      requires Valid()
      modifies this, log
      ensures Valid()
      ensures match GateSpec.Append(old(View()), body, CounterNames(c))
        case Ok(next) => r == Ok(|old(log.records)|) && View() == next && log.records[..|log.records| - 1] == old(log.records)
        case Err(code) => r == Err(code) && View() == old(View()) && log.records == old(log.records)
    {
      hide Apply, Fold, Chained;
      if |log.records| > MAX_SAFE_INT { return Err("bad_sequence"); }
      var next := Apply(state, Event(|log.records|, body), CounterNames(c));
      if next.Err? { return Err(next.code); }
      ghost var before := BodiesOf(log.records);
      FoldStep(sessionId, before, CounterNames(c), body);
      state := next.value;
      var record := log.Append(body);
      assert BodiesOf(log.records) == before + [body];
      r := Ok(record.number);
    }
  }
}
