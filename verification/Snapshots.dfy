/** The constructors of a decision's inputs: what they refuse, and the normal form of a snapshot. */
module Snapshots {
  import opened Wrappers
  import opened Ordering
  import opened Json
  import opened Syntax
  import opened Canonical
  import opened Decide

  const MAX_TOOL: nat := 256
  const MAX_ENVELOPE_TEXT: nat := 0x10_0000

  predicate SafeNat(n: int) { 0 <= n <= MAX_SAFE_INT }

  predicate ValidEnvelope(e: Envelope) {
    |e.tool| <= MAX_TOOL && |e.arguments| <= MAX_ENVELOPE_TEXT && IsId(e.principal) && IsId(e.sessionId) && SafeNat(e.tMs)
  }

  predicate ValidRecord(e: EntityRecord) {
    && IsType(e.kind) && IsId(e.id)
    && (forall a :: a in e.attrs ==> IsName(a) && (e.attrs[a].IntAttrValue? ==> -MAX_SAFE_INT <= e.attrs[a].n <= MAX_SAFE_INT))
  }

  predicate ValidFacts(facts: seq<EntityRecord>) { forall f :: f in facts ==> ValidRecord(f) }

  // ---- facts in entity order ----

  /** Entities are ordered by type, then by id. */
  predicate Before(e: EntityRecord, f: EntityRecord) {
    Less(ByCodePoint, e.kind, f.kind) || (e.kind == f.kind && Less(ByCodePoint, e.id, f.id))
  }

  function InsertFact(f: EntityRecord, sorted: seq<EntityRecord>): seq<EntityRecord> {
    if sorted == [] || Before(f, sorted[0]) then [f] + sorted else [sorted[0]] + InsertFact(f, sorted[1..])
  }

  /** A stable insertion from the right, as Python's sort keeps equal keys in order. */
  function SortFacts(facts: seq<EntityRecord>): seq<EntityRecord> {
    if facts == [] then [] else InsertFact(facts[|facts| - 1], SortFacts(facts[..|facts| - 1]))
  }

  predicate StrictlySorted(facts: seq<EntityRecord>) {
    forall i :: 0 <= i < |facts| - 1 ==> Before(facts[i], facts[i + 1])
  }

  // ---- the snapshot ----

  predicate ValidSnapshot(s: Snapshot) {
    && IsId(s.sessionId) && SafeNat(s.ledgerSeq)
    && (forall n :: n in s.counters ==> IsName(n) && SafeNat(s.counters[n]))
    && (forall l :: l in s.labels ==> IsName(l))
    && (forall a :: a in s.approvals ==> IsHash(a))
    && StrictlySorted(s.entities) && ValidFacts(s.entities)
  }

  const INVALID_SNAPSHOT := "invalid_snapshot"

  /** Sorting makes any admissible input canonical; duplicate entities and unsafe counters are refused. */
  function BuildSnapshot(sessionId: string, ledgerSeq: int, labels: set<string>, counters: map<string, int>,
                         approvals: set<string>, facts: seq<EntityRecord>): (r: Result<Snapshot>)
    ensures r.Ok? ==> ValidSnapshot(r.value)
  {
    var s := Snapshot(sessionId, ledgerSeq, labels, counters, approvals, SortFacts(facts));
    if ValidSnapshot(s) then Ok(s) else Err(INVALID_SNAPSHOT)
  }

  lemma {:induction false} InsertKeeps(f: EntityRecord, sorted: seq<EntityRecord>)
    ensures multiset(InsertFact(f, sorted)) == multiset([f]) + multiset(sorted)
  {
    if sorted == [] || Before(f, sorted[0]) {
      assert multiset([f] + sorted) == multiset([f]) + multiset(sorted);
    } else {
      InsertKeeps(f, sorted[1..]);
      assert sorted == [sorted[0]] + sorted[1..];
    }
  }

  lemma {:induction false} SortKeeps(facts: seq<EntityRecord>)
    ensures multiset(SortFacts(facts)) == multiset(facts)
  {
    hide InsertFact;
    if facts != [] {
      var n := |facts| - 1;
      SortKeeps(facts[..n]);
      InsertKeeps(facts[n], SortFacts(facts[..n]));
      LastInMultiset(facts[..n], facts[n]);
      assert facts == facts[..n] + [facts[n]];
    }
  }

  lemma LastInMultiset(facts: seq<EntityRecord>, f: EntityRecord)
    ensures multiset(facts + [f]) == multiset([f]) + multiset(facts)
  {
  }

  predicate SameEntity(e: EntityRecord, f: EntityRecord) { e.kind == f.kind && e.id == f.id }

  lemma BeforeTotal(e: EntityRecord, f: EntityRecord)
    ensures SameEntity(e, f) || Before(e, f) || Before(f, e)
    ensures !(Before(e, f) && Before(f, e)) && (SameEntity(e, f) ==> !Before(e, f))
  {
    if e.kind != f.kind { LessTotal(ByCodePoint, e.kind, f.kind); }
    if e.id != f.id { LessTotal(ByCodePoint, e.id, f.id); }
    if Less(ByCodePoint, e.kind, f.kind) { LessAsymmetric(ByCodePoint, e.kind, f.kind); }
    if Less(ByCodePoint, f.kind, e.kind) { LessAsymmetric(ByCodePoint, f.kind, e.kind); }
    if Less(ByCodePoint, e.id, f.id) { LessAsymmetric(ByCodePoint, e.id, f.id); }
    if Less(ByCodePoint, f.id, e.id) { LessAsymmetric(ByCodePoint, f.id, e.id); }
  }

  lemma BeforeTransitive(e: EntityRecord, f: EntityRecord, g: EntityRecord)
    requires Before(e, f) && Before(f, g)
    ensures Before(e, g)
  {
    hide Less;
    if Less(ByCodePoint, e.kind, f.kind) && Less(ByCodePoint, f.kind, g.kind) {
      LessTransitive(ByCodePoint, e.kind, f.kind, g.kind);
    } else if e.kind == f.kind && f.kind == g.kind {
      LessTransitive(ByCodePoint, e.id, f.id, g.id);
    }
  }

  /** Nothing is out of order, though equal entities may stand side by side. */
  predicate InOrder(facts: seq<EntityRecord>) {
    forall i, j :: 0 <= i < j < |facts| ==> !Before(facts[j], facts[i])
  }

  lemma NotBeforeTransitive(e: EntityRecord, f: EntityRecord, g: EntityRecord)
    requires !Before(f, e) && !Before(g, f)
    ensures !Before(g, e)
  {
    hide Before;
    BeforeTotal(e, f);
    BeforeTotal(f, g);
    BeforeTotal(e, g);
    if Before(g, e) {
      if Before(e, f) { BeforeTransitive(g, e, f); } else { SameEntityBefore(e, f, g); }
    }
  }

  lemma SameEntityBefore(e: EntityRecord, f: EntityRecord, g: EntityRecord)
    requires SameEntity(e, f)
    ensures Before(g, e) == Before(g, f) && Before(e, g) == Before(f, g)
  {
  }

  lemma {:induction false} InsertInOrder(f: EntityRecord, sorted: seq<EntityRecord>)
    requires InOrder(sorted)
    ensures InOrder(InsertFact(f, sorted)) && |InsertFact(f, sorted)| == |sorted| + 1
    ensures forall x :: x in InsertFact(f, sorted) <==> x == f || x in sorted
  {
    hide Before;
    if sorted == [] {
    } else if Before(f, sorted[0]) {
      forall j | 0 <= j < |sorted| ensures !Before(sorted[j], f) {
        BeforeTotal(f, sorted[0]);
        if j > 0 { NotBeforeTransitive(f, sorted[0], sorted[j]); }
      }
    } else {
      var rest := InsertFact(f, sorted[1..]);
      InsertInOrder(f, sorted[1..]);
      forall j | 0 <= j < |rest| ensures !Before(rest[j], sorted[0]) {
        assert rest[j] in rest;
        if rest[j] != f { var k :| 0 <= k < |sorted| - 1 && sorted[1..][k] == rest[j]; }
      }
    }
  }

  lemma {:induction false} SortInOrder(facts: seq<EntityRecord>)
    ensures InOrder(SortFacts(facts)) && |SortFacts(facts)| == |facts|
  {
    hide Before, InOrder;
    if facts != [] {
      SortInOrder(facts[..|facts| - 1]);
      InsertInOrder(facts[|facts| - 1], SortFacts(facts[..|facts| - 1]));
    } else {
      NothingOutOfOrder();
    }
  }

  lemma NothingOutOfOrder()
    ensures InOrder([])
  {
  }

  /** No two of these records name the same entity. */
  predicate Distinct(facts: seq<EntityRecord>) {
    forall i, j :: 0 <= i < j < |facts| ==> !SameEntity(facts[i], facts[j])
  }

  lemma {:induction false} StrictlyBefore(facts: seq<EntityRecord>, i: nat, j: nat)
    requires StrictlySorted(facts) && i < j < |facts|
    ensures Before(facts[i], facts[j])
    decreases j - i
  {
    if i + 1 < j {
      StrictlyBefore(facts, i, j - 1);
      hide Before;
      BeforeTransitive(facts[i], facts[j - 1], facts[j]);
    }
  }

  lemma StrictIffDistinct(facts: seq<EntityRecord>)
    requires InOrder(facts)
    ensures StrictlySorted(facts) <==> Distinct(facts)
  {
    hide Before, SameEntity;
    if StrictlySorted(facts) {
      forall i, j | 0 <= i < j < |facts| ensures !SameEntity(facts[i], facts[j]) {
        StrictlyBefore(facts, i, j);
        BeforeTotal(facts[i], facts[j]);
      }
    }
    if Distinct(facts) {
      forall i | 0 <= i < |facts| - 1 ensures Before(facts[i], facts[i + 1]) { BeforeTotal(facts[i], facts[i + 1]); }
    }
  }

  lemma {:induction false} StrictlySortedUnique(a: seq<EntityRecord>, b: seq<EntityRecord>)
    requires StrictlySorted(a) && StrictlySorted(b) && multiset(a) == multiset(b)
    ensures a == b
  {
    hide Before, StrictlySorted;
    assert |a| == |multiset(a)| == |multiset(b)| == |b|;
    if a != [] {
      FirstIsLeast(a, b);
      TailOf(a);
      TailOf(b);
      StrictlySortedUnique(a[1..], b[1..]);
      assert a == [a[0]] + a[1..] && b == [b[0]] + b[1..];
    }
  }

  lemma TailOf(a: seq<EntityRecord>)
    requires a != [] && StrictlySorted(a)
    ensures StrictlySorted(a[1..]) && multiset(a[1..]) == multiset(a) - multiset{a[0]}
  {
    hide Before;
    assert a == [a[0]] + a[1..];
    forall i | 0 <= i < |a[1..]| - 1 ensures Before(a[1..][i], a[1..][i + 1]) { assert Before(a[i + 1], a[i + 2]); }
  }

  lemma FirstIsLeast(a: seq<EntityRecord>, b: seq<EntityRecord>)
    requires StrictlySorted(a) && StrictlySorted(b) && multiset(a) == multiset(b) && a != [] && b != []
    ensures a[0] == b[0]
  {
    hide Before;
    assert a[0] in multiset(b) && b[0] in multiset(a);
    var i :| 0 <= i < |b| && b[i] == a[0];
    var j :| 0 <= j < |a| && a[j] == b[0];
    if i > 0 && j > 0 {
      StrictlyBefore(b, 0, i);
      StrictlyBefore(a, 0, j);
      BeforeTotal(a[0], b[0]);
    }
  }

  /** The order in which facts were loaded does not matter: reordered facts build the same snapshot or are both refused. */
  lemma SnapshotOrderFree(sessionId: string, ledgerSeq: int, labels: set<string>, counters: map<string, int>,
                          approvals: set<string>, facts: seq<EntityRecord>, others: seq<EntityRecord>)
    requires multiset(facts) == multiset(others)
    ensures BuildSnapshot(sessionId, ledgerSeq, labels, counters, approvals, facts)
            == BuildSnapshot(sessionId, ledgerSeq, labels, counters, approvals, others)
  {
    hide SortFacts, StrictlySorted, InOrder, IsName, IsHash, IsId, SafeNat, ValidFacts;
    SortKeeps(facts);
    SortKeeps(others);
    SortInOrder(facts);
    SortInOrder(others);
    SameStrictness(SortFacts(facts), SortFacts(others));
    if StrictlySorted(SortFacts(facts)) { StrictlySortedUnique(SortFacts(facts), SortFacts(others)); }
  }

  lemma SameStrictness(a: seq<EntityRecord>, b: seq<EntityRecord>)
    requires InOrder(a) && InOrder(b) && multiset(a) == multiset(b)
    ensures StrictlySorted(a) == StrictlySorted(b)
  {
    hide StrictlySorted, InOrder, Before;
    StrictIffDistinct(a);
    StrictIffDistinct(b);
    if Distinct(a) { DistinctPermutes(a, b); }
    if Distinct(b) { DistinctPermutes(b, a); }
  }

  lemma DistinctPermutes(a: seq<EntityRecord>, b: seq<EntityRecord>)
    requires Distinct(a) && multiset(a) == multiset(b)
    ensures Distinct(b)
  {
    forall i, j | 0 <= i < j < |b| ensures !SameEntity(b[i], b[j]) {
      assert b[i] in multiset(a) && b[j] in multiset(a);
      var x :| 0 <= x < |a| && a[x] == b[i];
      var y :| 0 <= y < |a| && a[y] == b[j];
      if x == y {
        TwiceInMultiset(b, i, j);
        OnceInMultiset(a, x);
        assert false;
      }
    }
  }

  lemma TwiceInMultiset(b: seq<EntityRecord>, i: nat, j: nat)
    requires i < j < |b| && b[i] == b[j]
    ensures multiset(b)[b[i]] >= 2
  {
    assert b == b[..i] + [b[i]] + b[i + 1..j] + [b[j]] + b[j + 1..];
  }

  lemma {:induction false} OnceInMultiset(a: seq<EntityRecord>, x: nat)
    requires Distinct(a) && x < |a|
    ensures multiset(a)[a[x]] == 1
  {
    assert a == a[..x] + [a[x]] + a[x + 1..];
    forall k | 0 <= k < |a| && k != x ensures a[k] != a[x] {
      assert !SameEntity(a[if k < x then k else x], a[if k < x then x else k]);
    }
    assert a[x] !in a[..x] && a[x] !in a[x + 1..];
  }
}
