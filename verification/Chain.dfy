/** The sealed, hash-chained event log and its verifier. */
module Chain {
  import opened Wrappers
  import opened Ordering
  import opened Json
  import opened JsonRoundTrip
  import opened Canonical
  import opened Decide
  import opened Ledger

  const GENESIS: string := "sha256:0000000000000000000000000000000000000000000000000000000000000000"
  const EVENT_TAG := "dag/event/v1"
  const SIGNATURE_DOMAIN := "dag/event-sig/v1\0"

  type Sign = string -> string

  // ---- events as JSON ----

  function KindText(body: Body): string {
    match body
    case SessionOpened(_, _) => "session_opened"
    case Decided(_, _, _) => "decided"
    case Reserved(_, _, _, _) => "reserved"
    case Settled(_, _, _) => "settled"
    case ApprovalGranted(_, _) => "approval_granted"
    case ApprovalConsumed(_) => "approval_consumed"
  }

  function DecisionJson(d: Decision): Json {
    JObj(map[
      "action_hash" := OptionalText(d.actionHash), "decision_hash" := JStr(d.decisionHash), "gate" := d.gate,
      "input_hash" := JStr(d.inputHash), "policy_hash" := JStr(d.policyHash), "reasons" := Strings(d.reasons),
      "snapshot_hash" := JStr(d.snapshotHash), "verdict" := JStr(VerdictText(d.verdict))])
  }

  function FactsJson(facts: seq<EntityRecord>): Json {
    JArr(seq(|facts|, i requires 0 <= i < |facts| => RecordJson(facts[i])))
  }

  function BodyJson(body: Body): Json {
    match body
    case SessionOpened(principal, sessionId) => JObj(map["principal" := JStr(principal), "session_id" := JStr(sessionId)])
    case Decided(d, e, facts) =>
      JObj(map["decision" := DecisionJson(d), "envelope" := EnvelopeJson(e), "facts" := FactsJson(facts)])
    case Reserved(hash, counters, expiresMs, id) =>
      JObj(map["action_hash" := JStr(hash), "counters" := CountersJson(counters), "expires_ms" := JInt(expiresMs),
               "reservation" := JInt(id)])
    case Settled(labels, outcome, id) =>
      JObj(map["labels" := Strings(labels), "outcome" := JStr(outcome), "reservation" := JInt(id)])
    case ApprovalGranted(hash, approver) => JObj(map["action_hash" := JStr(hash), "approver" := JStr(approver)])
    case ApprovalConsumed(hash) => JObj(map["action_hash" := JStr(hash)])
  }

  /** What the record hash covers. */
  function EventJson(at: int, body: Body, prev: string): Json {
    JObj(map["body" := BodyJson(body), "kind" := JStr(KindText(body)), "prev" := JStr(prev), "seq" := JInt(at)])
  }

  datatype Record = Record(number: int, body: Body, prev: string, recordHash: string, signature: Option<string>)

  function RecordDigest(sha: Sha, r: Record): string {
    Digest(sha, EVENT_TAG, EventJson(r.number, r.body, r.prev))
  }

  // ---- sealing ----

  function Seal(sha: Sha, sign: Option<Sign>, e: Event, prev: string): Record {
    var hash := Digest(sha, EVENT_TAG, EventJson(e.number, e.body, prev));
    Record(e.number, e.body, prev, hash, if sign.Some? then Some((sign.value)(SIGNATURE_DOMAIN + hash)) else None)
  }

  function Head(records: seq<Record>): string {
    if records == [] then GENESIS else records[|records| - 1].recordHash
  }

  /** The records an append-only log holds after these events. */
  function SealAll(sha: Sha, sign: Option<Sign>, log: seq<Body>): (records: seq<Record>)
    ensures |records| == |log|
    ensures forall i :: 0 <= i < |log| ==> records[i].body == log[i] && records[i].number == i
  {
    if log == [] then []
    else
      var n := |log| - 1;
      var before := SealAll(sha, sign, log[..n]);
      before + [Seal(sha, sign, Event(n, log[n]), Head(before))]
  }

  // ---- verifying ----

  datatype Fault = Malformed | SequenceGap | BrokenLink | WrongHash | Unsigned | BadSignature

  datatype Problem = Problem(index: nat, fault: Fault)

  /** Ed25519 is deterministic: a signature verifies exactly when it is the key's own over that message. */
  function SignatureFaults(sign: Option<Sign>, r: Record, hash: string, i: nat): seq<Problem> {
    if sign.None? then []
    else if r.signature.None? then [Problem(i, Unsigned)]
    else if r.signature.value != (sign.value)(SIGNATURE_DOMAIN + hash) then [Problem(i, BadSignature)]
    else []
  }

  function If(fault: bool, i: nat, f: Fault): seq<Problem> { if fault then [Problem(i, f)] else [] }

  function FaultsAt(sha: Sha, sign: Option<Sign>, r: Record, i: nat, prev: Option<string>): seq<Problem> {
    if !InRange(EventJson(r.number, r.body, r.prev)) then [Problem(i, Malformed)]
    else
      var hash := RecordDigest(sha, r);
      If(r.number != i, i, SequenceGap) + If(prev != Some(r.prev), i, BrokenLink) + If(r.recordHash != hash, i, WrongHash) +
      SignatureFaults(sign, r, hash, i)
  }

  /** What the next record must link to: nothing can follow a malformed one. */
  function Link(records: seq<Record>): Option<string> {
    if records == [] then Some(GENESIS)
    else
      var last := records[|records| - 1];
      if InRange(EventJson(last.number, last.body, last.prev)) then Some(last.recordHash) else None
  }

  function Problems(sha: Sha, sign: Option<Sign>, records: seq<Record>): seq<Problem> {
    if records == [] then []
    else
      var n := |records| - 1;
      Problems(sha, sign, records[..n]) + FaultsAt(sha, sign, records[n], n, Link(records[..n]))
  }

  /** The verifying loop. */
  method VerifyChain(sha: Sha, sign: Option<Sign>, records: seq<Record>) returns (problems: seq<Problem>)
    ensures problems == Problems(sha, sign, records)
  {
    problems := [];
    var prev: Option<string> := Some(GENESIS);
    hide FaultsAt, InRange, EventJson;
    for i := 0 to |records|
      invariant problems == Problems(sha, sign, records[..i])
      invariant prev == Link(records[..i])
    {
      var r := records[i];
      assert records[..i + 1][..i] == records[..i];
      problems := problems + FaultsAt(sha, sign, r, i, prev);
      prev := if InRange(EventJson(r.number, r.body, r.prev)) then Some(r.recordHash) else None;
    }
    assert records[..|records|] == records;
  }

  /** A record in its place: canonical, numbered, linked, hashed over its own contents, and signed if signatures count. */
  predicate InPlace(sha: Sha, sign: Option<Sign>, records: seq<Record>, i: nat)
    requires i < |records|
  {
    var r := records[i];
    && InRange(EventJson(r.number, r.body, r.prev)) && r.number == i && r.prev == Head(records[..i])
    && r.recordHash == RecordDigest(sha, r)
    && (sign.Some? ==> r.signature == Some((sign.value)(SIGNATURE_DOMAIN + r.recordHash)))
  }

  lemma {:induction false} VerifiedIffInPlace(sha: Sha, sign: Option<Sign>, records: seq<Record>)
    ensures Problems(sha, sign, records) == [] <==> forall i :: 0 <= i < |records| ==> InPlace(sha, sign, records, i)
  {
    hide InRange, EventJson, RecordDigest;
    if records != [] {
      var n := |records| - 1;
      VerifiedIffInPlace(sha, sign, records[..n]);
      forall i | 0 <= i < n ensures InPlace(sha, sign, records[..n], i) == InPlace(sha, sign, records, i) {
        assert records[..n][..i] == records[..i];
      }
      if n > 0 {
        LinkIsHead(records[..n]);
        assert InPlace(sha, sign, records[..n], n - 1) == InPlace(sha, sign, records, n - 1);
      }
      LastInPlace(sha, sign, records);
      hide FaultsAt, InPlace;
    }
  }

  /** The last record adds no problem exactly when it is in place, given that it has something to link to. */
  lemma LastInPlace(sha: Sha, sign: Option<Sign>, records: seq<Record>)
    requires records != []
    ensures var n := |records| - 1;
      Link(records[..n]) == Some(Head(records[..n])) ==>
        (FaultsAt(sha, sign, records[n], n, Link(records[..n])) == [] <==> InPlace(sha, sign, records, n))
  {
    hide InRange, EventJson, Link, Head, Digest;
  }

  lemma LinkIsHead(records: seq<Record>)
    requires records != []
    ensures var last := records[|records| - 1];
      InRange(EventJson(last.number, last.body, last.prev)) ==> Link(records) == Some(Head(records))
  {
    hide InRange, EventJson;
  }
}
