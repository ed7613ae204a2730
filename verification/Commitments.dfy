/** What a decision hash commits to: the outcome, the policies, the gate, the envelope and the whole snapshot. */
module Commitments {
  import opened Wrappers
  import opened Json
  import opened JsonRoundTrip
  import opened Manifest
  import opened Canonical
  import opened Decide
  import opened Snapshots
  import Chain
  import opened ChainLaws
  import opened Records

  // ---- snapshots ----

  lemma SortedKeysInjective(a: set<string>, b: set<string>)
    requires SortedKeys(a) == SortedKeys(b)
    ensures a == b
  {
    forall x ensures x in a <==> x in b {
      assert x in SortedKeys(a) <==> x in a;
      assert x in SortedKeys(b) <==> x in b;
    }
  }

  lemma SnapshotFields(s: Snapshot)
    ensures SnapshotJson(s).JObj? &&
      var m := SnapshotJson(s).members;
      && m.Keys == {"approvals", "entities", "counters", "labels", "ledger_seq", "session_id"}
      && m["approvals"] == Strings(SortedKeys(s.approvals)) && m["entities"] == Chain.FactsJson(s.entities)
      && m["counters"] == CountersJson(s.counters) && m["labels"] == Strings(SortedKeys(s.labels))
      && m["ledger_seq"] == JInt(s.ledgerSeq) && m["session_id"] == JStr(s.sessionId)
  {
    hide RecordJson, Strings, CountersJson, SortedKeys;
    assert forall i :: 0 <= i < |s.entities| ==> SnapshotJson(s).members["entities"].items[i] == RecordJson(s.entities[i]);
  }

  lemma SnapshotInjective(s: Snapshot, r: Snapshot)
    requires SnapshotJson(s) == SnapshotJson(r)
    ensures s == r
  {
    SnapshotFields(s);
    SnapshotFields(r);
    hide SnapshotJson, Strings, SortedKeys, CountersJson, Chain.FactsJson;
    StringsInjective(SortedKeys(s.approvals), SortedKeys(r.approvals));
    SortedKeysInjective(s.approvals, r.approvals);
    StringsInjective(SortedKeys(s.labels), SortedKeys(r.labels));
    SortedKeysInjective(s.labels, r.labels);
    CountersInjective(s.counters, r.counters);
    FactsInjective(s.entities, r.entities);
  }

  lemma SnapshotInRange(s: Snapshot)
    requires ValidSnapshot(s)
    ensures InRange(SnapshotJson(s))
  {
    SnapshotFields(s);
    StringsInRange(SortedKeys(s.approvals));
    StringsInRange(SortedKeys(s.labels));
    CountersInRange(s.counters);
    FactsInRange(s.entities);
    hide SnapshotJson, Strings, SortedKeys, CountersJson, Chain.FactsJson, ValidFacts, StrictlySorted;
  }

  // ---- inputs and outcomes ----

  function InputJson(b: Bundle, env: Envelope, snapshotHash: string): Json {
    JObj(map["envelope" := EnvelopeJson(env), "policy_hash" := JStr(b.policyHash), "snapshot_hash" := JStr(snapshotHash)])
  }

  function OutcomeJson(d: Decision): (v: Json)
    ensures v.JObj?
  {
    JObj(map["action_hash" := OptionalText(d.actionHash), "gate" := d.gate, "input_hash" := JStr(d.inputHash),
             "reasons" := Strings(d.reasons), "verdict" := JStr(VerdictText(d.verdict))])
  }

  lemma InputFields(b: Bundle, env: Envelope, hash: string)
    ensures var m := InputJson(b, env, hash).members;
      && m.Keys == {"envelope", "policy_hash", "snapshot_hash"}
      && m["envelope"] == EnvelopeJson(env) && m["policy_hash"] == JStr(b.policyHash)
      && m["snapshot_hash"] == JStr(hash)
  {
    hide EnvelopeJson;
  }

  lemma OutcomeFields(d: Decision)
    ensures var m := OutcomeJson(d).members;
      && m.Keys == {"action_hash", "gate", "input_hash", "reasons", "verdict"}
      && m["action_hash"] == OptionalText(d.actionHash) && m["gate"] == d.gate && m["input_hash"] == JStr(d.inputHash)
      && m["reasons"] == Strings(d.reasons) && m["verdict"] == JStr(VerdictText(d.verdict))
  {
    hide Strings, VerdictText;
  }

  lemma DecisionParts(env: Envelope, s: Snapshot, b: Bundle)
    requires WellFormed(b.manifest)
    ensures var d := Decide.Decide(env, s, b);
      && d.gate == b.gate && d.policyHash == b.policyHash && d.snapshotHash == Digest(b.sha, "dag/snapshot/v1", SnapshotJson(s))
      && d.inputHash == Digest(b.sha, "dag/input/v1", InputJson(b, env, d.snapshotHash))
      && d.decisionHash == Digest(b.sha, "dag/decision/v1", OutcomeJson(d))
  {
    hide WellFormed, Judge, SnapshotJson, EnvelopeJson, Digest, Strings, SortedKeys, VerdictText;
  }

  /** These two values, hashed under one tag, do not collide. */
  predicate NoCollision(sha: Sha, tag: string, v: Json, w: Json) {
    Digest(sha, tag, v) == Digest(sha, tag, w) ==> Text(v) == Text(w)
  }

  lemma EqualDigests(sha: Sha, tag: string, v: Json, w: Json)
    requires InRange(v) && InRange(w) && NoCollision(sha, tag, v, w) && Digest(sha, tag, v) == Digest(sha, tag, w)
    ensures v == w
  {
    hide Text, InRange;
    JcsInjective(v, w);
  }

  lemma InputInRange(b: Bundle, env: Envelope, hash: string)
    requires ValidEnvelope(env)
    ensures InRange(InputJson(b, env, hash))
  {
    EnvelopeInRange(env);
    InputFields(b, env, hash);
    hide EnvelopeJson, ValidEnvelope, InputJson;
  }

  lemma OutcomeInRange(d: Decision)
    requires InRange(d.gate)
    ensures InRange(OutcomeJson(d))
  {
    OutcomeFields(d);
    StringsInRange(d.reasons);
    hide OutcomeJson, Strings, VerdictText;
    assert InRange(OptionalText(d.actionHash));
    assert OutcomeJson(d).JObj?;
  }

  /**
   * Two decisions with the same decision hash, by whatever bundles, are the same decision of the same envelope on the same
   * snapshot under the same policies and gate, unless the digest collides on one of the three texts it is chained through.
   */
  lemma DecisionCommits(b: Bundle, env: Envelope, s: Snapshot, c: Bundle, other: Envelope, r: Snapshot)
    requires WellFormed(b.manifest) && InRange(b.gate) && WellFormed(c.manifest) && InRange(c.gate) && c.sha == b.sha
    requires ValidEnvelope(env) && ValidEnvelope(other) && ValidSnapshot(s) && ValidSnapshot(r)
    requires NoCollision(b.sha, "dag/snapshot/v1", SnapshotJson(s), SnapshotJson(r))
    requires NoCollision(b.sha, "dag/input/v1", InputJson(b, env, Decide.Decide(env, s, b).snapshotHash),
                         InputJson(c, other, Decide.Decide(other, r, c).snapshotHash))
    requires NoCollision(b.sha, "dag/decision/v1", OutcomeJson(Decide.Decide(env, s, b)), OutcomeJson(Decide.Decide(other, r, c)))
    requires Decide.Decide(env, s, b).decisionHash == Decide.Decide(other, r, c).decisionHash
    ensures env == other && s == r && b.policyHash == c.policyHash && b.gate == c.gate
    ensures Decide.Decide(env, s, b) == Decide.Decide(other, r, c)
  {
    hide WellFormed, Decide.Decide, ValidEnvelope, ValidSnapshot, InRange, Digest, NoCollision, SnapshotJson,
         InputJson, OutcomeJson,
         EnvelopeJson, Strings;
    var d, e := Decide.Decide(env, s, b), Decide.Decide(other, r, c);
    DecisionParts(env, s, b);
    DecisionParts(other, r, c);
    OutcomeInRange(d);
    OutcomeInRange(e);
    EqualDigests(b.sha, "dag/decision/v1", OutcomeJson(d), OutcomeJson(e));
    OutcomeInjective(d, e);
    InputInRange(b, env, d.snapshotHash);
    InputInRange(c, other, e.snapshotHash);
    EqualDigests(b.sha, "dag/input/v1", InputJson(b, env, d.snapshotHash), InputJson(c, other, e.snapshotHash));
    InputFields(b, env, d.snapshotHash);
    InputFields(c, other, e.snapshotHash);
    EnvelopeInjective(env, other);
    SnapshotInRange(s);
    SnapshotInRange(r);
    EqualDigests(b.sha, "dag/snapshot/v1", SnapshotJson(s), SnapshotJson(r));
    SnapshotInjective(s, r);
  }

  lemma OutcomeInjective(d: Decision, e: Decision)
    requires OutcomeJson(d) == OutcomeJson(e)
    ensures d.verdict == e.verdict && d.reasons == e.reasons && d.actionHash == e.actionHash
    ensures d.gate == e.gate && d.inputHash == e.inputHash
  {
    OutcomeFields(d);
    OutcomeFields(e);
    hide OutcomeJson, Strings;
    StringsInjective(d.reasons, e.reasons);
    assert VerdictText(d.verdict)[0] == VerdictText(e.verdict)[0];
  }
}
