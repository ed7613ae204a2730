/** What a verified chain commits to. */
module ChainLaws {
  import opened Wrappers
  import opened Ordering
  import opened Json
  import opened JsonRoundTrip
  import opened Canonical
  import opened Decide
  import opened Ledger
  import opened Chain

  // ---- an event's JSON determines the event ----

  lemma StringsInjective(a: seq<string>, b: seq<string>)
    requires Strings(a) == Strings(b)
    ensures a == b
  {
    assert |Strings(a).items| == |a| && |Strings(b).items| == |b|;
    forall i | 0 <= i < |a| ensures a[i] == b[i] {
      assert Strings(a).items[i] == JStr(a[i]) && Strings(b).items[i] == JStr(b[i]);
    }
  }

  lemma CountersInjective(a: map<string, int>, b: map<string, int>)
    requires CountersJson(a) == CountersJson(b)
    ensures a == b
  {
    var m, n := CountersJson(a).members, CountersJson(b).members;
    assert m.Keys == a.Keys && n.Keys == b.Keys;
    forall k | k in a ensures a[k] == b[k] { assert m[k] == JInt(a[k]) && n[k] == JInt(b[k]); }
  }

  function AttrsJson(attrs: map<string, AttrValue>): Json { JObj(map a | a in attrs :: AttrJson(attrs[a])) }

  lemma AttrsInjective(a: map<string, AttrValue>, b: map<string, AttrValue>)
    requires AttrsJson(a) == AttrsJson(b)
    ensures a == b
  {
    var m, n := AttrsJson(a).members, AttrsJson(b).members;
    assert m.Keys == a.Keys && n.Keys == b.Keys;
    forall k | k in a ensures a[k] == b[k] { assert m[k] == AttrJson(a[k]) && n[k] == AttrJson(b[k]); }
  }

  lemma RecordInjective(e: EntityRecord, f: EntityRecord)
    requires RecordJson(e) == RecordJson(f)
    ensures e == f
  {
    var m, n := RecordJson(e).members, RecordJson(f).members;
    assert m["attrs"] == AttrsJson(e.attrs) && n["attrs"] == AttrsJson(f.attrs);
    assert m["id"] == JStr(e.id) && n["id"] == JStr(f.id) && m["type"] == JStr(e.kind) && n["type"] == JStr(f.kind);
    hide RecordJson, AttrsJson;
    AttrsInjective(e.attrs, f.attrs);
  }

  lemma FactsInjective(a: seq<EntityRecord>, b: seq<EntityRecord>)
    requires FactsJson(a) == FactsJson(b)
    ensures a == b
  {
    hide RecordJson;
    assert |FactsJson(a).items| == |a| && |FactsJson(b).items| == |b|;
    forall i | 0 <= i < |a| ensures a[i] == b[i] {
      assert FactsJson(a).items[i] == RecordJson(a[i]) && FactsJson(b).items[i] == RecordJson(b[i]);
      RecordInjective(a[i], b[i]);
    }
  }

  lemma EnvelopeInjective(e: Envelope, f: Envelope)
    requires EnvelopeJson(e) == EnvelopeJson(f)
    ensures e == f
  {
    var m, n := EnvelopeJson(e).members, EnvelopeJson(f).members;
    assert m["arguments"] == JStr(e.arguments) && n["arguments"] == JStr(f.arguments);
    assert m["principal"] == JStr(e.principal) && n["principal"] == JStr(f.principal);
    assert m["session_id"] == JStr(e.sessionId) && n["session_id"] == JStr(f.sessionId);
    assert m["t_ms"] == JInt(e.tMs) && n["t_ms"] == JInt(f.tMs);
    assert m["tool"] == JStr(e.tool) && n["tool"] == JStr(f.tool);
  }

  lemma DecisionFields(d: Decision)
    ensures var m := DecisionJson(d);
      && m.JObj? && m.members.Keys == {"action_hash", "decision_hash", "gate", "input_hash", "policy_hash", "reasons", "snapshot_hash", "verdict"}
      && m.members["action_hash"] == OptionalText(d.actionHash) && m.members["decision_hash"] == JStr(d.decisionHash)
      && m.members["gate"] == d.gate && m.members["input_hash"] == JStr(d.inputHash)
      && m.members["policy_hash"] == JStr(d.policyHash) && m.members["reasons"] == Strings(d.reasons)
      && m.members["snapshot_hash"] == JStr(d.snapshotHash) && m.members["verdict"] == JStr(VerdictText(d.verdict))
  {
  }

  lemma VerdictInjective(v: Verdict, w: Verdict)
    requires VerdictText(v) == VerdictText(w)
    ensures v == w
  {
    assert VerdictText(v)[0] == VerdictText(w)[0];
  }

  lemma DecisionInjective(d: Decision, e: Decision)
    requires DecisionJson(d) == DecisionJson(e)
    ensures d == e
  {
    DecisionFields(d);
    DecisionFields(e);
    hide DecisionJson, Strings, VerdictText;
    StringsInjective(d.reasons, e.reasons);
    VerdictInjective(d.verdict, e.verdict);
  }

  lemma DecidedInjective(a: Body, b: Body)
    requires a.Decided? && b.Decided? && BodyJson(a) == BodyJson(b)
    ensures a == b
  {
    var m, n := BodyJson(a).members, BodyJson(b).members;
    assert m["decision"] == DecisionJson(a.decision) && n["decision"] == DecisionJson(b.decision);
    assert m["envelope"] == EnvelopeJson(a.envelope) && n["envelope"] == EnvelopeJson(b.envelope);
    assert m["facts"] == FactsJson(a.facts) && n["facts"] == FactsJson(b.facts);
    hide BodyJson, DecisionJson, EnvelopeJson, FactsJson;
    DecisionInjective(a.decision, b.decision);
    EnvelopeInjective(a.envelope, b.envelope);
    FactsInjective(a.facts, b.facts);
  }

  lemma ReservedInjective(a: Body, b: Body)
    requires a.Reserved? && b.Reserved? && BodyJson(a) == BodyJson(b)
    ensures a == b
  {
    var m, n := BodyJson(a).members, BodyJson(b).members;
    assert m["action_hash"] == JStr(a.actionHash) && n["action_hash"] == JStr(b.actionHash);
    assert m["counters"] == CountersJson(a.counters) && n["counters"] == CountersJson(b.counters);
    assert m["expires_ms"] == JInt(a.expiresMs) && n["expires_ms"] == JInt(b.expiresMs);
    assert m["reservation"] == JInt(a.reservation) && n["reservation"] == JInt(b.reservation);
    hide BodyJson, CountersJson;
    CountersInjective(a.counters, b.counters);
  }

  lemma SettledInjective(a: Body, b: Body)
    requires a.Settled? && b.Settled? && BodyJson(a) == BodyJson(b)
    ensures a == b
  {
    var m, n := BodyJson(a).members, BodyJson(b).members;
    assert m["labels"] == Strings(a.labels) && n["labels"] == Strings(b.labels);
    assert m["outcome"] == JStr(a.outcome) && n["outcome"] == JStr(b.outcome);
    assert m["reservation"] == JInt(a.settled) && n["reservation"] == JInt(b.settled);
    hide BodyJson, Strings;
    StringsInjective(a.labels, b.labels);
  }

  lemma OtherInjective(a: Body, b: Body)
    requires BodyJson(a) == BodyJson(b)
    requires (a.SessionOpened? && b.SessionOpened?) || (a.ApprovalGranted? && b.ApprovalGranted?) || (a.ApprovalConsumed? && b.ApprovalConsumed?)
    ensures a == b
  {
    var m, n := BodyJson(a).members, BodyJson(b).members;
    if a.SessionOpened? {
      assert m["principal"] == JStr(a.principal) && n["principal"] == JStr(b.principal);
      assert m["session_id"] == JStr(a.sessionId) && n["session_id"] == JStr(b.sessionId);
    } else {
      assert m["action_hash"] == JStr(a.actionHash) && n["action_hash"] == JStr(b.actionHash);
      if a.ApprovalGranted? { assert m["approver"] == JStr(a.approver) && n["approver"] == JStr(b.approver); }
    }
  }

  lemma KindInjective(a: Body, b: Body)
    requires KindText(a) == KindText(b)
    ensures a.SessionOpened? == b.SessionOpened? && a.Decided? == b.Decided? && a.Reserved? == b.Reserved?
    ensures a.Settled? == b.Settled? && a.ApprovalGranted? == b.ApprovalGranted?
            && a.ApprovalConsumed? == b.ApprovalConsumed?
  {
    assert |KindText(a)| == |KindText(b)|;
    assert KindText(a)[0] == KindText(b)[0];
    assert KindText(a)[|KindText(a)| - 1] == KindText(b)[|KindText(b)| - 1];
  }

  lemma EventInjective(i: int, a: Body, p: string, j: int, b: Body, q: string)
    requires EventJson(i, a, p) == EventJson(j, b, q)
    ensures i == j && a == b && p == q
  {
    var m, n := EventJson(i, a, p).members, EventJson(j, b, q).members;
    assert m["body"] == BodyJson(a) && n["body"] == BodyJson(b);
    assert m["kind"] == JStr(KindText(a)) && n["kind"] == JStr(KindText(b));
    assert m["prev"] == JStr(p) && n["prev"] == JStr(q) && m["seq"] == JInt(i) && n["seq"] == JInt(j);
    hide EventJson, BodyJson, KindText;
    KindInjective(a, b);
    if a.Decided? {
      DecidedInjective(a, b);
    } else if a.Reserved? {
      ReservedInjective(a, b);
    } else if a.Settled? {
      SettledInjective(a, b);
    } else {
      OtherInjective(a, b);
    }
  }

  // ---- the tail commits to the history ----

  /** The text a record's hash is taken over. */
  function HashedText(r: Record): string {
    EVENT_TAG + "\0" + Text(EventJson(r.number, r.body, r.prev))
  }

  /** No two different texts hashed by these two lists share a digest. */
  ghost predicate CollisionFree(sha: Sha, a: seq<Record>, b: seq<Record>) {
    forall r, s :: r in a && s in b && sha(HashedText(r)) == sha(HashedText(s)) ==> HashedText(r) == HashedText(s)
  }

  predicate SameRecord(r: Record, s: Record) {
    r.number == s.number && r.body == s.body && r.prev == s.prev && r.recordHash == s.recordHash
  }

  lemma SameText(r: Record, s: Record)
    requires InRange(EventJson(r.number, r.body, r.prev)) && InRange(EventJson(s.number, s.body, s.prev))
    requires HashedText(r) == HashedText(s)
    ensures r.number == s.number && r.body == s.body && r.prev == s.prev
  {
    var v, w := EventJson(r.number, r.body, r.prev), EventJson(s.number, s.body, s.prev);
    var tag := EVENT_TAG + "\0";
    assert HashedText(r)[|tag|..] == Text(v) && HashedText(s)[|tag|..] == Text(w);
    hide EventJson, Text, InRange, HashedText;
    JcsInjective(v, w);
    EventInjective(r.number, r.body, r.prev, s.number, s.body, s.prev);
  }

  lemma InPlaceAt(sha: Sha, sign: Option<Sign>, records: seq<Record>, i: nat)
    requires Problems(sha, sign, records) == [] && i < |records|
    ensures InPlace(sha, sign, records, i)
  {
    hide InPlace, Problems;
    VerifiedIffInPlace(sha, sign, records);
  }

  lemma PrefixVerified(sha: Sha, sign: Option<Sign>, records: seq<Record>)
    requires Problems(sha, sign, records) == [] && records != []
    ensures Problems(sha, sign, records[..|records| - 1]) == []
  {
    hide FaultsAt;
  }

  /** Two verified lists that end in the same record hash are the same list of events, back to the first. */
  lemma {:induction false} TailCommits(sha: Sha, signA: Option<Sign>, a: seq<Record>, signB: Option<Sign>, b: seq<Record>)
    requires Problems(sha, signA, a) == [] && Problems(sha, signB, b) == [] && CollisionFree(sha, a, b)
    requires a != [] && b != [] && Head(a) == Head(b)
    ensures |a| == |b| && forall i :: 0 <= i < |a| ==> SameRecord(a[i], b[i])
    decreases |a|
  {
    hide Problems, HashedText, InRange, EventJson;
    var n, m := |a| - 1, |b| - 1;
    InPlaceAt(sha, signA, a, n);
    InPlaceAt(sha, signB, b, m);
    DigestOfText(sha, a[n]);
    DigestOfText(sha, b[m]);
    assert a[n] in a && b[m] in b;
    SameText(a[n], b[m]);
    if n > 0 {
      PrefixVerified(sha, signA, a);
      PrefixVerified(sha, signB, b);
      TailCommits(sha, signA, a[..n], signB, b[..m]);
    }
  }

  lemma DigestOfText(sha: Sha, r: Record)
    ensures RecordDigest(sha, r) == sha(HashedText(r))
  {
  }

  // ---- sealed logs verify, and a signature pins a prefix of one ----

  /** Every event of the log has canonical JSON, so sealing never fails. */
  predicate Sealable(log: seq<Body>) {
    |log| <= MAX_SAFE_INT + 1 && forall b :: b in log ==> InRange(BodyJson(b))
  }

  lemma EventInRange(at: int, body: Body, prev: string)
    requires InRange(BodyJson(body)) && -MAX_SAFE_INT <= at <= MAX_SAFE_INT
    ensures InRange(EventJson(at, body, prev))
  {
    hide BodyJson;
    var m := EventJson(at, body, prev).members;
    assert m.Keys == {"body", "kind", "prev", "seq"};
    assert m["body"] == BodyJson(body) && m["kind"].JStr? && m["prev"].JStr? && m["seq"] == JInt(at);
  }

  lemma TakeFront(a: seq<Record>, x: Record, k: nat)
    requires k <= |a|
    ensures (a + [x])[..k] == a[..k]
  {
  }

  lemma SealAllStep(sha: Sha, sign: Option<Sign>, log: seq<Body>) returns (last: Record)
    requires log != []
    ensures SealAll(sha, sign, log) == SealAll(sha, sign, log[..|log| - 1]) + [last]
  {
    hide Seal;
    var n := |log| - 1;
    last := Seal(sha, sign, Event(n, log[n]), Head(SealAll(sha, sign, log[..n])));
  }

  lemma {:induction false} SealAllPrefix(sha: Sha, sign: Option<Sign>, log: seq<Body>, k: nat)
    requires k <= |log|
    ensures SealAll(sha, sign, log)[..k] == SealAll(sha, sign, log[..k])
  {
    hide SealAll;
    if k == |log| {
      assert log[..k] == log;
    } else {
      var n := |log| - 1;
      SealAllPrefix(sha, sign, log[..n], k);
      assert log[..n][..k] == log[..k];
      var last := SealAllStep(sha, sign, log);
      TakeFront(SealAll(sha, sign, log[..n]), last, k);
    }
  }

  lemma SealedLast(sha: Sha, sign: Option<Sign>, log: seq<Body>, check: Option<Sign>)
    requires log != [] && |log| <= MAX_SAFE_INT + 1 && InRange(BodyJson(log[|log| - 1])) && (check == None || check == sign)
    ensures InPlace(sha, check, SealAll(sha, sign, log), |log| - 1)
  {
    hide InRange, BodyJson, EventJson, Digest;
    var n := |log| - 1;
    var before := SealAll(sha, sign, log[..n]);
    assert SealAll(sha, sign, log)[..n] == before;
    EventInRange(n, log[n], Head(before));
  }

  /** What the gate seals, the verifier accepts, with and without the public key. */
  lemma SealedVerifies(sha: Sha, sign: Option<Sign>, log: seq<Body>, check: Option<Sign>)
    requires Sealable(log) && (check == None || check == sign)
    ensures Problems(sha, check, SealAll(sha, sign, log)) == []
  {
    var records := SealAll(sha, sign, log);
    hide InRange, BodyJson, EventJson, Problems, SealAll, RecordDigest;
    forall i | 0 <= i < |records| ensures InPlace(sha, check, records, i) {
      var prefix := SealAll(sha, sign, log[..i + 1]);
      SealAllPrefix(sha, sign, log, i + 1);
      assert log[i] in log && log[..i + 1][i] == log[i];
      SealedLast(sha, sign, log[..i + 1], check);
      assert records[..i + 1] == prefix && prefix[i] == records[i] && prefix[..i] == records[..i];
    }
    hide InPlace;
    VerifiedIffInPlace(sha, check, records);
  }

  /** The key has signed the hashes of the logs its gate wrote, and no others. */
  ghost predicate Issued(sha: Sha, sign: Sign, written: set<seq<Body>>, hash: string) {
    exists log, k :: log in written && 0 <= k < |log| && SealAll(sha, Some(sign), log)[k].recordHash == hash
  }

  lemma HeadOfFront(records: seq<Record>, k: nat)
    requires k < |records|
    ensures Head(records[..k + 1]) == records[k].recordHash
  {
  }

  lemma LastIsIssued(sha: Sha, sign: Sign, log: seq<Body>, k: nat)
    requires k < |log|
    ensures Head(SealAll(sha, Some(sign), log[..k + 1])) == SealAll(sha, Some(sign), log)[k].recordHash
  {
    hide SealAll, Head;
    SealAllPrefix(sha, Some(sign), log, k + 1);
    HeadOfFront(SealAll(sha, Some(sign), log), k);
  }

  /** Under an ideal signature, a list that verifies against the gate's key is a prefix of a log the gate wrote. */
  lemma VerifiedIsPrefix(sha: Sha, sign: Sign, records: seq<Record>, written: set<seq<Body>>) returns (log: seq<Body>)
    requires records != [] && Problems(sha, Some(sign), records) == []
    requires forall l :: l in written ==> Sealable(l) && CollisionFree(sha, records, SealAll(sha, Some(sign), l))
    requires forall r :: r in records ==> Issued(sha, sign, written, r.recordHash)
    ensures log in written && records <= SealAll(sha, Some(sign), log)
  {
    hide Problems, CollisionFree, Sealable;
    var n := |records| - 1;
    assert records[n] in records;
    var k: nat;
    log, k :| log in written && 0 <= k < |log| && SealAll(sha, Some(sign), log)[k].recordHash == records[n].recordHash;
    var sealed := SealAll(sha, Some(sign), log);
    var prefix := SealAll(sha, Some(sign), log[..k + 1]);
    LastIsIssued(sha, sign, log, k);
    SealAllPrefix(sha, Some(sign), log, k + 1);
    SealablePrefix(log, k + 1);
    SealedVerifies(sha, Some(sign), log[..k + 1], Some(sign));
    FewerCollisions(sha, records, sealed, k + 1);
    TailCommits(sha, Some(sign), records, Some(sign), prefix);
    SameSignatures(sha, sign, records, prefix);
  }

  /** Verified records that differ at most in their signatures do not differ. */
  lemma SameSignatures(sha: Sha, sign: Sign, records: seq<Record>, others: seq<Record>)
    requires Problems(sha, Some(sign), records) == [] && Problems(sha, Some(sign), others) == []
    requires |records| == |others| && forall i :: 0 <= i < |records| ==> SameRecord(records[i], others[i])
    ensures records == others
  {
    hide Problems;
    forall i | 0 <= i < |records| ensures records[i] == others[i] {
      SignedAt(sha, sign, records, i);
      SignedAt(sha, sign, others, i);
      assert SameRecord(records[i], others[i]);
    }
  }

  lemma SignedAt(sha: Sha, sign: Sign, records: seq<Record>, i: nat)
    requires Problems(sha, Some(sign), records) == [] && i < |records|
    ensures records[i].signature == Some(sign(SIGNATURE_DOMAIN + records[i].recordHash))
  {
    hide Problems, InRange, EventJson, RecordDigest, Head;
    InPlaceAt(sha, Some(sign), records, i);
  }

  lemma SealablePrefix(log: seq<Body>, k: nat)
    requires Sealable(log) && k <= |log|
    ensures Sealable(log[..k])
  {
    hide InRange, BodyJson;
  }

  lemma FewerCollisions(sha: Sha, a: seq<Record>, b: seq<Record>, k: nat)
    requires CollisionFree(sha, a, b) && k <= |b|
    ensures CollisionFree(sha, a, b[..k])
  {
    hide HashedText;
  }
}
