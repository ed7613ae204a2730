/** The integers a bundle comparison probes: mined from the policies, next to every literal, at most eight. */
module Boundaries {
  import opened Json

  const MAX_PER_DIMENSION: nat := 8

  // ---- mining ----

  /** Every integer in a policy's JSON form; a boolean is not one. */
  function Literals(v: Json): set<int>
    decreases v
  {
    match v
    case JInt(n) => {n}
    case JArr(items) => set i, n | 0 <= i < |items| && n in Literals(items[i]) :: n
    case JObj(members) => set k, n | k in members && n in Literals(members[k]) :: n
    case _ => {}
  }

  function MineLiterals(base: Json, candidate: Json): set<int> { Literals(base) + Literals(candidate) }

  /** A place in a JSON value: the items and members one passes through. */
  datatype Step = Item(i: nat) | Member(k: string)

  predicate At(v: Json, path: seq<Step>, n: int)
    decreases |path|
  {
    if path == [] then v == JInt(n)
    else match path[0]
      case Item(i) => v.JArr? && i < |v.items| && At(v.items[i], path[1..], n)
      case Member(k) => v.JObj? && k in v.members && At(v.members[k], path[1..], n)
  }

  lemma {:induction false} PlacedIsMined(v: Json, path: seq<Step>, n: int)
    requires At(v, path, n)
    ensures n in Literals(v)
    decreases |path|
  {
    if path != [] {
      match path[0] {
        case Item(i) => PlacedIsMined(v.items[i], path[1..], n);
        case Member(k) => PlacedIsMined(v.members[k], path[1..], n);
      }
    }
  }

  lemma {:induction false} MinedIsPlaced(v: Json, n: int) returns (path: seq<Step>)
    requires n in Literals(v)
    ensures At(v, path, n)
    decreases v
  {
    match v {
      case JInt(_) => path := [];
      case JArr(items) =>
        var i :| 0 <= i < |items| && n in Literals(items[i]);
        var rest := MinedIsPlaced(items[i], n);
        path := [Item(i)] + rest;
        assert path[1..] == rest;
      case JObj(members) =>
        var k :| k in members && n in Literals(members[k]);
        var rest := MinedIsPlaced(members[k], n);
        path := [Member(k)] + rest;
        assert path[1..] == rest;
    }
  }

  predicate Stands(base: Json, candidate: Json, path: seq<Step>, n: int) {
    At(base, path, n) || At(candidate, path, n)
  }

  /** Mining finds exactly the integers that stand anywhere in either policy set. */
  lemma MinesEveryInteger(base: Json, candidate: Json, n: int)
    ensures n in MineLiterals(base, candidate) <==> exists path :: Stands(base, candidate, path, n)
  {
    hide At, Literals;
    if n in Literals(base) {
      var path := MinedIsPlaced(base, n);
      assert Stands(base, candidate, path, n);
    } else if n in Literals(candidate) {
      var path := MinedIsPlaced(candidate, n);
      assert Stands(base, candidate, path, n);
    } else {
      forall path ensures !Stands(base, candidate, path, n) {
        if At(base, path, n) { PlacedIsMined(base, path, n); }
        if At(candidate, path, n) { PlacedIsMined(candidate, path, n); }
      }
    }
  }

  // ---- the probe values ----

  predicate InSpan(low: int, high: int, x: int) { low <= x <= high }

  /** Low, high, and what lies on or next to a literal. */
  function BoundarySet(low: int, high: int, literals: set<int>): set<int> {
    {low, high} + (set l | l in literals && InSpan(low, high, l - 1) :: l - 1)
    + (set l | l in literals && InSpan(low, high, l)) + (set l | l in literals && InSpan(low, high, l + 1) :: l + 1)
  }

  predicate Rising(s: seq<int>) { forall i, j :: 0 <= i < j < |s| ==> s[i] < s[j] }

  predicate Minimum(s: set<int>, m: int) { m in s && forall x :: x in s ==> m <= x }

  lemma AnyOf(s: set<int>) returns (x: int)
    requires s != {}
    ensures x in s
  {
    assert (forall y :: y !in s) ==> s == {};
    x :| x in s;
  }

  lemma MinimumExists(s: set<int>)
    requires s != {}
    ensures exists m :: Minimum(s, m)
    decreases |s|
  {
    var x := AnyOf(s);
    var rest := s - {x};
    if rest == {} {
      assert s == {x};
      assert Minimum(s, x);
    } else {
      MinimumExists(rest);
      var m :| Minimum(rest, m);
      assert s == rest + {x};
      assert Minimum(s, if m < x then m else x);
    }
  }

  function Least(s: set<int>): (m: int)
    requires s != {}
    ensures Minimum(s, m)
  {
    MinimumExists(s);
    assert forall m, n :: Minimum(s, m) && Minimum(s, n) ==> m == n;
    var m :| Minimum(s, m); m
  }

  /** Python's sorted(set). */
  function Sorted(s: set<int>): (r: seq<int>)
    ensures Rising(r) && (forall x :: x in r <==> x in s) && |r| == |s|
    decreases |s|
  {
    if s == {} then []
    else
      var m := Least(s);
      var rest := Sorted(s - {m});
      assert forall i :: 0 <= i < |rest| ==> rest[i] in rest;
      [m] + rest
  }

  /** Index i of eight evenly spaced ones: the step is n / 8, rounded down after multiplying. */
  function Pick(i: nat, n: nat): (k: nat)
    requires n > 0
    ensures k < n
  {
    if i * n / MAX_PER_DIMENSION < n - 1 then i * n / MAX_PER_DIMENSION else n - 1
  }

  /** Evenly spaced members when there are too many. */
  function Spread(ordered: seq<int>): seq<int> {
    if |ordered| <= MAX_PER_DIMENSION then ordered
    else seq(MAX_PER_DIMENSION, i requires 0 <= i < MAX_PER_DIMENSION => ordered[Pick(i, |ordered|)])
  }

  function Probes(low: int, high: int, literals: set<int>): seq<int> {
    Spread(Sorted(BoundarySet(low, high, literals)))
  }

  function Elements(s: seq<int>): set<int> { set x | x in s }

  method AddCandidate(values: set<int>, low: int, high: int, candidate: int) returns (r: set<int>)
    ensures r == values + if InSpan(low, high, candidate) then {candidate} else {}
  {
    r := values;
    if low <= candidate <= high { r := r + {candidate}; }
  }

  /** The loops over literals and their neighbours. */
  method Boundaries(low: int, high: int, literals: seq<int>) returns (r: seq<int>)
    ensures r == Probes(low, high, Elements(literals))
  {
    hide Sorted, Spread, BoundarySet, InSpan;
    var values := {low, high};
    NoLiterals(low, high);
    assert Elements(literals[..0]) == {};
    for i := 0 to |literals|
      invariant values == BoundarySet(low, high, Elements(literals[..i]))
    {
      ghost var before := values;
      var l := literals[i];
      assert Elements(literals[..i + 1]) == Elements(literals[..i]) + {l};
      BoundaryOneMore(low, high, Elements(literals[..i]), l);
      values := AddCandidate(values, low, high, l - 1);
      values := AddCandidate(values, low, high, l);
      values := AddCandidate(values, low, high, l + 1);
    }
    assert literals[..|literals|] == literals;
    r := Spread(Sorted(values));
  }

  lemma NoLiterals(low: int, high: int)
    ensures BoundarySet(low, high, {}) == {low, high}
  {
  }

  function Near(low: int, high: int, l: int): set<int> {
    (if InSpan(low, high, l - 1) then {l - 1} else {}) + (if InSpan(low, high, l) then {l} else {})
    + (if InSpan(low, high, l + 1) then {l + 1} else {})
  }

  lemma BoundaryOneMore(low: int, high: int, literals: set<int>, l: int)
    ensures BoundarySet(low, high, literals + {l}) == BoundarySet(low, high, literals) + Near(low, high, l)
  {
    hide InSpan;
    forall x ensures x in BoundarySet(low, high, literals + {l}) <==> x in BoundarySet(low, high, literals) + Near(low, high, l) {
      BoundaryMember(low, high, literals + {l}, x);
      BoundaryMember(low, high, literals, x);
    }
  }

  lemma BoundaryMember(low: int, high: int, literals: set<int>, x: int)
    ensures x in BoundarySet(low, high, literals) <==>
            x == low || x == high || (InSpan(low, high, x) && (x + 1 in literals || x in literals || x - 1 in literals))
  {
    hide InSpan;
    if x + 1 in literals { assert x == (x + 1) - 1; }
    if x - 1 in literals { assert x == (x - 1) + 1; }
  }

  // ---- completeness ----

  /** Rules built from comparisons of one integer with literals. */
  datatype Test =
    | Always
    | AtMostLit(k: int)
    | EqualLit(k: int)
    | NotTest(of: Test)
    | AndTest(left: Test, right: Test)

  predicate Holds(t: Test, x: int) {
    match t
    case Always => true
    case AtMostLit(k) => x <= k
    case EqualLit(k) => x == k
    case NotTest(of) => !Holds(of, x)
    case AndTest(left, right) => Holds(left, x) && Holds(right, x)
  }

  function TestLiterals(t: Test): set<int> {
    match t
    case Always => {}
    case AtMostLit(k) => {k}
    case EqualLit(k) => {k}
    case NotTest(of) => TestLiterals(of)
    case AndTest(left, right) => TestLiterals(left) + TestLiterals(right)
  }

  /** On the same side of every literal. */
  predicate SameSide(literals: set<int>, x: int, y: int) {
    forall k :: k in literals ==> (x < k <==> y < k) && (x == k <==> y == k)
  }

  lemma {:induction false} SameSideSameAnswer(t: Test, x: int, y: int)
    requires SameSide(TestLiterals(t), x, y)
    ensures Holds(t, x) == Holds(t, y)
  {
    match t {
      case NotTest(of) => SameSideSameAnswer(of, x, y);
      case AndTest(left, right) =>
        SameSideSameAnswer(left, x, y);
        SameSideSameAnswer(right, x, y);
      case _ =>
    }
  }

  /** The closest literal below, if any. */
  lemma LiteralBelow(literals: set<int>, x: int) returns (found: bool, l: int)
    ensures found ==> l in literals && l < x && forall k :: k in literals && k < x ==> k <= l
    ensures !found ==> forall k :: k in literals ==> k >= x
    decreases |literals|
  {
    if literals == {} { return false, 0; }
    var k := AnyOf(literals);
    var rest := literals - {k};
    found, l := LiteralBelow(rest, x);
    assert forall y :: y in literals ==> y == k || y in rest;
    if k < x && (!found || k > l) { found, l := true, k; }
  }

  /** Every value in the span has a boundary value on the same side of every literal. */
  lemma Representative(low: int, high: int, literals: set<int>, x: int) returns (y: int)
    requires InSpan(low, high, x)
    ensures y in BoundarySet(low, high, literals) && InSpan(low, high, y) && SameSide(literals, x, y)
  {
    hide BoundarySet;
    if x in literals {
      y := x;
    } else {
      var found, l := LiteralBelow(literals, x);
      y := if found && l + 1 > low then l + 1 else low;
    }
    BoundaryMember(low, high, literals, y);
  }

  predicate AgreeOn(p: Test, q: Test, xs: set<int>) { forall x :: x in xs ==> Holds(p, x) == Holds(q, x) }

  ghost predicate AgreeBetween(p: Test, q: Test, low: int, high: int) {
    forall x :: InSpan(low, high, x) ==> Holds(p, x) == Holds(q, x)
  }

  /** Up to eight values, two rules over the mined literals agree on the probes exactly when they agree on the whole span. */
  lemma ProbesAreComplete(low: int, high: int, literals: set<int>, p: Test, q: Test)
    requires low <= high && |BoundarySet(low, high, literals)| <= MAX_PER_DIMENSION
    requires TestLiterals(p) <= literals && TestLiterals(q) <= literals
    ensures AgreeBetween(p, q, low, high) <==> AgreeOn(p, q, Elements(Probes(low, high, literals)))
  {
    hide BoundarySet, Holds, TestLiterals;
    var probes := Elements(Probes(low, high, literals));
    assert probes == BoundarySet(low, high, literals);
    if AgreeBetween(p, q, low, high) {
      forall x | x in probes ensures Holds(p, x) == Holds(q, x) {
        BoundaryMember(low, high, literals, x);
        assert InSpan(low, high, x);
      }
    }
    if AgreeOn(p, q, probes) {
      forall x | InSpan(low, high, x) ensures Holds(p, x) == Holds(q, x) {
        var y := Representative(low, high, literals, x);
        SameSideSameAnswer(p, x, y);
        SameSideSameAnswer(q, x, y);
      }
    }
  }

  // ---- exactly when ----

  /** No two rules over the literals look alike on the probes and differ somewhere in the span. */
  ghost predicate Complete(low: int, high: int, literals: set<int>) {
    forall p, q | TestLiterals(p) <= literals && TestLiterals(q) <= literals
                  && AgreeOn(p, q, Elements(Probes(low, high, literals))) :: AgreeBetween(p, q, low, high)
  }

  predicate Probed(low: int, high: int, literals: set<int>, x: int) {
    exists y :: y in Probes(low, high, literals) && SameSide(literals, x, y)
  }

  /** The rule that holds exactly on one side of one literal. */
  function SideOf(k: int, x: int): Test {
    if x == k then EqualLit(k)
    else if x < k then AndTest(AtMostLit(k), NotTest(EqualLit(k)))
    else NotTest(AtMostLit(k))
  }

  lemma SideHolds(k: int, x: int, y: int)
    ensures TestLiterals(SideOf(k, x)) == {k}
    ensures Holds(SideOf(k, x), y) <==> (x < k <==> y < k) && (x == k <==> y == k)
  {
    assert Holds(AtMostLit(k), y) <==> y <= k;
    assert Holds(NotTest(EqualLit(k)), y) <==> !Holds(EqualLit(k), y);
    assert TestLiterals(NotTest(EqualLit(k))) == TestLiterals(EqualLit(k)) == {k};
  }

  /** A rule that singles out the values on the same side of every literal as x. */
  lemma {:induction false} Isolated(literals: set<int>, x: int) returns (t: Test)
    ensures TestLiterals(t) <= literals
    ensures forall y :: Holds(t, y) <==> SameSide(literals, x, y)
    decreases |literals|
  {
    if literals == {} { return Always; }
    var k := AnyOf(literals);
    var rest := Isolated(literals - {k}, x);
    t := AndTest(SideOf(k, x), rest);
    SideHolds(k, x, x);
    hide SideOf, SameSide;
    forall y ensures Holds(t, y) <==> SameSide(literals, x, y) {
      SideHolds(k, x, y);
      SameSideSplits(literals, k, x, y);
    }
  }

  lemma SameSideSplits(literals: set<int>, k: int, x: int, y: int)
    requires k in literals
    ensures SameSide(literals, x, y) <==> (x < k <==> y < k) && (x == k <==> y == k) && SameSide(literals - {k}, x, y)
  {
    assert forall l :: l in literals <==> l == k || l in literals - {k};
  }

  lemma NeverHolds()
    ensures TestLiterals(NotTest(Always)) == {} && forall y :: !Holds(NotTest(Always), y)
  {
    assert forall y :: Holds(Always, y);
  }

  lemma CompleteProbes(low: int, high: int, literals: set<int>, x: int)
    requires Complete(low, high, literals) && InSpan(low, high, x)
    ensures Probed(low, high, literals, x)
  {
    hide Probes, BoundarySet, TestLiterals;
    var t := Isolated(literals, x);
    var never := NotTest(Always);
    NeverHolds();
    assert SameSide(literals, x, x) && Holds(t, x);
    assert !AgreeBetween(t, never, low, high);
    assert !AgreeOn(t, never, Elements(Probes(low, high, literals)));
    var y :| y in Elements(Probes(low, high, literals)) && Holds(t, y) != Holds(never, y);
  }

  /**
   * The probes miss no difference between rules exactly when each boundary value has a probe on its side of every literal;
   * then every value of the span has one.
   */
  lemma ProbesCompleteIff(low: int, high: int, literals: set<int>)
    requires low <= high
    ensures Complete(low, high, literals) <==> forall x :: InSpan(low, high, x) ==> Probed(low, high, literals, x)
    ensures Complete(low, high, literals) <==>
            forall b :: b in BoundarySet(low, high, literals) ==> Probed(low, high, literals, b)
  {
    hide Probes, BoundarySet, Holds, TestLiterals, Complete;
    if Complete(low, high, literals) {
      forall x | InSpan(low, high, x) ensures Probed(low, high, literals, x) { CompleteProbes(low, high, literals, x); }
    }
    forall b | b in BoundarySet(low, high, literals) ensures InSpan(low, high, b) {
      BoundaryMember(low, high, literals, b);
    }
    if forall b :: b in BoundarySet(low, high, literals) ==> Probed(low, high, literals, b) {
      BoundaryProbesSuffice(low, high, literals);
    }
  }

  lemma BoundaryProbesSuffice(low: int, high: int, literals: set<int>)
    requires forall b :: b in BoundarySet(low, high, literals) ==> Probed(low, high, literals, b)
    ensures Complete(low, high, literals)
  {
    hide Probes, BoundarySet, Holds, TestLiterals;
    var probes := Probes(low, high, literals);
    forall p, q, x | TestLiterals(p) <= literals && TestLiterals(q) <= literals && AgreeOn(p, q, Elements(probes))
                     && InSpan(low, high, x)
      ensures Holds(p, x) == Holds(q, x)
    {
      var b := Representative(low, high, literals, x);
      assert Probed(low, high, literals, b);
      var y :| y in probes && SameSide(literals, b, y);
      assert y in Elements(probes);
      SameSideSameAnswer(p, x, y);
      SameSideSameAnswer(q, x, y);
    }
  }

  // ---- beyond the cap ----

  lemma MulMonotone(a: nat, b: nat, n: nat)
    requires a <= b
    ensures a * n <= b * n
  {
  }

  lemma PickRises(i: nat, j: nat, n: nat)
    requires i < j < MAX_PER_DIMENSION < n
    ensures Pick(i, n) < Pick(j, n) && Pick(0, n) == 0
  {
    MulMonotone(i + 1, j, n);
    MulMonotone(j, 7, n);
    assert (i + 1) * n == i * n + n;
    assert 0 * n == 0;
  }

  lemma SpreadRises(ordered: seq<int>)
    requires Rising(ordered) && |ordered| > MAX_PER_DIMENSION
    ensures var r := Spread(ordered);
      |r| == MAX_PER_DIMENSION && Rising(r) && r[0] == ordered[0] && forall x :: x in r ==> x in ordered
  {
    var r := Spread(ordered);
    PickRises(0, 1, |ordered|);
    forall i, j | 0 <= i < j < |r| ensures r[i] < r[j] { PickRises(i, j, |ordered|); }
    hide Pick;
  }

  /** Above eight values the probes are eight strictly increasing boundary values that start at low. */
  lemma ProbesAreSpread(low: int, high: int, literals: set<int>)
    requires low <= high && |BoundarySet(low, high, literals)| > MAX_PER_DIMENSION
    ensures var r := Probes(low, high, literals);
      && |r| == MAX_PER_DIMENSION && Rising(r) && r[0] == low && forall x :: x in r ==> x in BoundarySet(low, high, literals)
  {
    hide BoundarySet;
    var values := BoundarySet(low, high, literals);
    var ordered := Sorted(values);
    BoundaryMember(low, high, literals, low);
    BoundaryMember(low, high, literals, ordered[0]);
    assert ordered[0] in ordered && low in ordered;
    hide Sorted, Spread;
    SpreadRises(ordered);
  }

  lemma {:induction false} RisingUnique(a: seq<int>, b: seq<int>)
    requires Rising(a) && Rising(b) && forall x :: x in a <==> x in b
    ensures a == b
  {
    if a != [] { assert a[0] in a; }
    if b != [] { assert b[0] in b; }
    if a != [] && b != [] {
      assert a[0] == b[0];
      forall x ensures x in a[1..] <==> x in b[1..] {
        if x in a[1..] { assert x in b && x > a[0]; }
        if x in b[1..] { assert x in a && x > b[0]; }
      }
      RisingUnique(a[1..], b[1..]);
    }
  }

  function Upto(n: nat): (r: seq<int>)
    ensures |r| == n && forall i :: 0 <= i < n ==> r[i] == i
  {
    seq(n, i => i)
  }

  lemma UptoMember(n: nat, x: int)
    ensures x in Upto(n) <==> 0 <= x < n
  {
    if 0 <= x < n { assert Upto(n)[x] == x; }
  }

  lemma NineValues()
    ensures Sorted(BoundarySet(0, 8, {2, 5, 8})) == Upto(9)
  {
    hide BoundarySet;
    forall x ensures x in BoundarySet(0, 8, {2, 5, 8}) <==> x in Upto(9) {
      BoundaryMember(0, 8, {2, 5, 8}, x);
      UptoMember(9, x);
    }
    hide Sorted, Upto;
    RisingUnique(Sorted(BoundarySet(0, 8, {2, 5, 8})), Upto(9));
  }

  lemma EightOfNine()
    ensures Spread(Upto(9)) == Upto(8)
  {
    forall i | 0 <= i < 8 ensures Spread(Upto(9))[i] == i { assert Pick(i, 9) == i; }
  }

  /** With nine values the last one is never probed: two rules that differ only there look the same. */
  lemma NinthValueIsMissed()
    ensures |BoundarySet(0, 8, {2, 5, 8})| == 9
    ensures AgreeOn(EqualLit(8), NotTest(Always), Elements(Probes(0, 8, {2, 5, 8})))
    ensures !AgreeBetween(EqualLit(8), NotTest(Always), 0, 8)
  {
    hide BoundarySet, Sorted, Spread, Upto;
    NineValues();
    EightOfNine();
    forall x | x in Upto(8) ensures Holds(EqualLit(8), x) == Holds(NotTest(Always), x) {
      UptoMember(8, x);
      assert Holds(Always, x);
    }
    assert InSpan(0, 8, 8) && Holds(EqualLit(8), 8) && !Holds(NotTest(Always), 8);
  }
}
