/** The two orders the program sorts text by, and the sorted list of a finite set. */
module Ordering {

  /** Python sorts strings by code point; RFC 8785 section 3.2.3 sorts member names by UTF-16 code unit. */
  datatype Order = ByCodePoint | ByUtf16

  function CodePoints(s: string): seq<int> {
    if s == [] then [] else [s[0] as int] + CodePoints(s[1..])
  }

  function Utf16Units(c: char): (units: seq<int>)
    ensures |units| == 1 || |units| == 2
    ensures |units| == 2 <==> 0xD800 <= units[0] < 0xDC00
  {
    var n := c as int;
    if n < 0x10000 then [n] else [0xD800 + (n - 0x10000) / 0x400, 0xDC00 + (n - 0x10000) % 0x400]
  }

  function Utf16(s: string): seq<int> {
    if s == [] then [] else Utf16Units(s[0]) + Utf16(s[1..])
  }

  function Key(o: Order, s: string): seq<int> {
    match o
    case ByCodePoint => CodePoints(s)
    case ByUtf16 => Utf16(s)
  }

  lemma Utf16UnitsInjective(c: char, d: char)
    requires Utf16Units(c) == Utf16Units(d)
    ensures c == d
  {
    if |Utf16Units(c)| == 2 {
      assert Utf16Units(c)[0] == Utf16Units(d)[0] && Utf16Units(c)[1] == Utf16Units(d)[1];
      assert c as int == d as int;
    } else {
      assert Utf16Units(c)[0] == Utf16Units(d)[0];
    }
  }

  lemma {:induction false} KeyInjective(o: Order, a: string, b: string)
    requires Key(o, a) == Key(o, b)
    ensures a == b
  {
    if a != [] && b != [] {
      match o {
        case ByCodePoint =>
          assert Key(o, a)[0] == Key(o, b)[0];
          assert Key(o, a)[1..] == CodePoints(a[1..]) && Key(o, b)[1..] == CodePoints(b[1..]);
        case ByUtf16 =>
          var ka, kb, ua, ub := Utf16(a), Utf16(b), Utf16Units(a[0]), Utf16Units(b[0]);
          assert ka[0] == ua[0] && kb[0] == ub[0];
          assert |ua| == |ub|;
          assert ka[..|ua|] == ua && kb[..|ub|] == ub;
          assert ka[|ua|..] == Utf16(a[1..]) && kb[|ub|..] == Utf16(b[1..]);
          Utf16UnitsInjective(a[0], b[0]);
      }
      KeyInjective(o, a[1..], b[1..]);
      assert a == [a[0]] + a[1..] && b == [b[0]] + b[1..];
    }
  }

  /** Lexicographic order on number sequences, a proper prefix first. */
  predicate LexLess(a: seq<int>, b: seq<int>) {
    b != [] && (a == [] || a[0] < b[0] || (a[0] == b[0] && LexLess(a[1..], b[1..])))
  }

  predicate Less(o: Order, a: string, b: string) {
    LexLess(Key(o, a), Key(o, b))
  }

  lemma {:induction false} LexTransitive(a: seq<int>, b: seq<int>, c: seq<int>)
    requires LexLess(a, b) && LexLess(b, c)
    ensures LexLess(a, c)
  {
    if a != [] && a[0] == b[0] && b[0] == c[0] {
      LexTransitive(a[1..], b[1..], c[1..]);
    }
  }

  lemma {:induction false} LexIrreflexive(a: seq<int>)
    ensures !LexLess(a, a)
  {
    if a != [] {
      LexIrreflexive(a[1..]);
    }
  }

  lemma {:induction false} LexTotal(a: seq<int>, b: seq<int>)
    ensures a == b || LexLess(a, b) || LexLess(b, a)
  {
    if a != [] && b != [] && a[0] == b[0] {
      LexTotal(a[1..], b[1..]);
      assert a == [a[0]] + a[1..] && b == [b[0]] + b[1..];
    }
  }

  lemma LessTransitive(o: Order, a: string, b: string, c: string)
    requires Less(o, a, b) && Less(o, b, c)
    ensures Less(o, a, c)
  {
    LexTransitive(Key(o, a), Key(o, b), Key(o, c));
  }

  lemma LessTotal(o: Order, a: string, b: string)
    ensures a == b || Less(o, a, b) || Less(o, b, a)
  {
    LexTotal(Key(o, a), Key(o, b));
    if Key(o, a) == Key(o, b) { KeyInjective(o, a, b); }
  }

  lemma LessAsymmetric(o: Order, a: string, b: string)
    requires Less(o, a, b)
    ensures a != b && !Less(o, b, a)
  {
    LexIrreflexive(Key(o, a));
    if Less(o, b, a) {
      LexTransitive(Key(o, a), Key(o, b), Key(o, a));
    }
  }

  predicate IsLeast(o: Order, m: string, s: set<string>) {
    m in s && forall x :: x in s ==> x == m || Less(o, m, x)
  }

  lemma LeastOfTwo(o: Order, x: string, m: string, s: set<string>)
    requires x in s && IsLeast(o, m, s - {x})
    ensures IsLeast(o, if Less(o, x, m) then x else m, s)
  {
    hide Less;
    LessTotal(o, x, m);
    forall y | y in s && Less(o, x, m) ensures y == x || Less(o, x, y) {
      if y != x && y != m { LessTransitive(o, x, m, y); }
    }
  }

  lemma {:induction false} LeastExists(o: Order, s: set<string>)
    requires s != {}
    ensures exists m :: IsLeast(o, m, s)
  {
    hide Less;
    var x :| x in s;
    if s == {x} {
      assert IsLeast(o, x, s);
    } else {
      LeastExists(o, s - {x});
      var m :| IsLeast(o, m, s - {x});
      LeastOfTwo(o, x, m, s);
    }
  }

  lemma LeastUnique(o: Order, s: set<string>, m: string, n: string)
    requires IsLeast(o, m, s) && IsLeast(o, n, s)
    ensures m == n
  {
    hide Less;
    if m != n { LessAsymmetric(o, m, n); }
  }

  function Least(o: Order, s: set<string>): (m: string)
    requires s != {}
    ensures IsLeast(o, m, s)
  {
    LeastExists(o, s);
    assert forall m, n :: IsLeast(o, m, s) && IsLeast(o, n, s) ==> m == n by {
      forall m, n | IsLeast(o, m, s) && IsLeast(o, n, s) ensures m == n { LeastUnique(o, s, m, n); }
    }
    var m :| IsLeast(o, m, s); m
  }

  /** Python's sorted(set). */
  function SortSet(o: Order, s: set<string>): (r: seq<string>)
    decreases |s|
  {
    if s == {} then [] else
    var m := Least(o, s);
    [m] + SortSet(o, s - {m})
  }

  predicate Ascending(o: Order, r: seq<string>) {
    forall i, j :: 0 <= i < j < |r| ==> Less(o, r[i], r[j])
  }

  ghost predicate Lists(r: seq<string>, s: set<string>) {
    forall x :: x in r <==> x in s
  }

  lemma ConsAscending(o: Order, m: string, t: seq<string>, s: set<string>)
    requires Ascending(o, t) && Lists(t, s - {m}) && IsLeast(o, m, s)
    ensures Ascending(o, [m] + t) && Lists([m] + t, s)
  {
    hide Less;
    var r := [m] + t;
    forall i, j | 0 <= i < j < |r| ensures Less(o, r[i], r[j]) {
      if i == 0 { assert t[j - 1] in t; }
    }
  }

  lemma EmptySorted(o: Order)
    ensures Ascending(o, []) && Lists([], {})
  {
  }

  lemma {:induction false} SortSetSorts(o: Order, s: set<string>)
    ensures Ascending(o, SortSet(o, s)) && Lists(SortSet(o, s), s)
    decreases |s|
  {
    hide Less, Ascending, Lists;
    if s == {} {
      EmptySorted(o);
    } else {
      var m := Least(o, s);
      SortSetSorts(o, s - {m});
      ConsAscending(o, m, SortSet(o, s - {m}), s);
    }
  }

  lemma AscendingHeadIsLeast(o: Order, s: set<string>, r: seq<string>)
    requires Ascending(o, r) && Lists(r, s) && r != []
    ensures r[0] in s && Least(o, s) == r[0]
    ensures Ascending(o, r[1..]) && Lists(r[1..], s - {r[0]})
  {
    hide Less;
    assert r[0] in r;
    var m := Least(o, s);
    if m != r[0] {
      assert m in r;
      LessAsymmetric(o, m, r[0]);
      assert false;
    }
    forall x ensures x in r[1..] <==> x in s - {r[0]} {
      if x in r[1..] {
        var j :| 0 <= j < |r| - 1 && r[1..][j] == x;
        LessAsymmetric(o, r[0], r[j + 1]);
        assert x in r;
      }
    }
  }

  /** The sorted list is the only ascending list of the set, so it does not depend on any insertion order. */
  lemma {:induction false} SortSetUnique(o: Order, s: set<string>, r: seq<string>)
    requires Ascending(o, r) && Lists(r, s)
    ensures r == SortSet(o, s)
    decreases |s|
  {
    hide Less;
    if r == [] {
      assert s == {};
    } else {
      hide Ascending, Lists;
      AscendingHeadIsLeast(o, s, r);
      SortSetUnique(o, s - {r[0]}, r[1..]);
      assert r == [r[0]] + r[1..];
    }
  }
}
