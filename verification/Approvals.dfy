/** Approval accounting over every log the gate can have written. */
module Approvals {
  import opened Wrappers
  import opened Json
  import opened Manifest
  import opened Decide
  import opened Ledger
  import opened LedgerLaws
  import opened GateSpec
  import opened GateLog
  import opened GateLaws

  /** ALLOWs of an action decided while an approval of it stood. */
  function BackedAllows(c: Config, sid: string, log: seq<Body>, hash: string): nat {
    if log == [] then 0
    else
      var m := |log| - 1;
      BackedAllows(c, sid, log[..m], hash) + if Backed(c, sid, log, m, hash) then 1 else 0
  }

  lemma BackedInPrefix(c: Config, sid: string, log: seq<Body>, n: nat, i: nat, hash: string)
    requires i < n <= |log|
    ensures Backed(c, sid, log[..n], i, hash) == Backed(c, sid, log, i, hash)
  {
    assert log == log[..n] + log[n..];
    StateAtStable(c, sid, log[..n], log[n..], i);
    hide StateAt;
  }

  lemma ConsumptionAt(c: Config, sid: string, log: seq<Body>, i: nat, hash: string)
    requires WellFormed(c.bundle.manifest) && Written(c, sid, log) && i < |log| && log[i] == ApprovalConsumed(hash)
    ensures i > 0 && Backed(c, sid, log, i - 1, hash)
  {
    hide WellFormed, Written, Fold, Backed, StateAt, DecisionFollows, ReservationFollows, LabelsFollow;
    JustifiedAt(c, sid, log, i);
  }

  lemma PromptAt(c: Config, sid: string, log: seq<Body>, i: nat, hash: string)
    requires AllPrompt(c, sid, log) && i < |log| && Backed(c, sid, log, i, hash)
    ensures i == MAX_SAFE_INT || (i + 1 < |log| && log[i + 1] == ApprovalConsumed(hash))
  {
    hide StateAt;
    assert Prompt(c, sid, log, i);
  }

  /** Each backed ALLOW but possibly the last event is consumed by the very next event, and nothing else is consumed. */
  lemma {:induction false} BackedAreConsumed(c: Config, sid: string, log: seq<Body>, hash: string, n: nat)
    requires WellFormed(c.bundle.manifest) && Written(c, sid, log) && AllPrompt(c, sid, log) && n <= |log|
    ensures BackedAllows(c, sid, log[..n], hash) ==
            Consumptions(log[..n], hash) + if n > 0 && Backed(c, sid, log, n - 1, hash) then 1 else 0
  {
    hide WellFormed, Written, AllPrompt, Backed;
    if n > 0 {
      var m := n - 1;
      BackedAreConsumed(c, sid, log, hash, m);
      assert log[..n][..m] == log[..m];
      BackedInPrefix(c, sid, log, n, m, hash);
      if m > 0 && Backed(c, sid, log, m - 1, hash) {
        PromptAt(c, sid, log, m - 1, hash);
        SafeLength(c, sid, log);
        BackedIsDecision(c, sid, log, m, hash);
      } else if log[m] == ApprovalConsumed(hash) {
        ConsumptionAt(c, sid, log, m, hash);
        assert false;
      }
    }
  }

  lemma SafeLength(c: Config, sid: string, log: seq<Body>)
    requires WellFormed(c.bundle.manifest) && Written(c, sid, log)
    ensures |log| <= MAX_SAFE_INT + 1
  {
    hide WellFormed, Justified, Fold;
  }

  lemma BackedIsDecision(c: Config, sid: string, log: seq<Body>, i: nat, hash: string)
    requires i < |log|
    ensures Backed(c, sid, log, i, hash) ==> log[i].Decided?
  {
    hide StateAt;
  }

  /** Approval-backed ALLOWs of an action never outnumber the grants for it. */
  lemma ApprovalsCover(c: Config, sid: string, v: View, hash: string)
    requires WellFormed(c.bundle.manifest) && Good(c, sid, v)
    ensures BackedAllows(c, sid, v.log, hash) <= Grants(v.log, hash)
  {
    hide WellFormed, Written, AllPrompt, Justified, Fold;
    var n := |v.log|;
    assert v.log[..n] == v.log;
    BackedAreConsumed(c, sid, v.log, hash, n);
    ApprovalsStand(sid, v.log, CounterNames(c), hash);
    if n > 0 && Backed(c, sid, v.log, n - 1, hash) {
      ApprovalsStand(sid, v.log[..n - 1], CounterNames(c), hash);
    }
  }
}
