/** What JSON text says, written without a parser: the spellings of section 7 and the grammar of RFC 8259. */
module JsonSpelling {
  import opened Wrappers
  import opened Texts
  import opened Ordering
  import opened Json
  import opened JsonParser
  import opened JsonRoundTrip

  // ---- the spellings of one code point ----

  function HexNumber(h: string): nat
    requires forall i :: 0 <= i < |h| ==> IsHex(h[i])
  {
    if h == [] then 0 else 16 * HexNumber(h[..|h| - 1]) + HexValue(h[|h| - 1])
  }

  /** Backslash, u, and four hex digits of either case. */
  predicate UnitSpelling(e: string, u: int) {
    |e| == 6 && e[0] == '\\' && e[1] == 'u' && (forall i :: 2 <= i < 6 ==> IsHex(e[i])) && HexNumber(e[2..]) == u
  }

  const SHORT_ESCAPES: map<char, int> := map[
    '"' := 0x22, '\\' := 0x5C, '/' := 0x2F, 'b' := 0x8, 'f' := 0xC, 'n' := 0xA, 'r' := 0xD, 't' := 0x9]

  /** As itself, by a short escape, by one unit, or beyond the basic plane by a surrogate pair. */
  predicate SpellsPoint(e: string, p: int) {
    || (|e| == 1 && e[0] as int == p && e[0] >= ' ' && e[0] != '"' && e[0] != '\\')
    || (|e| == 2 && e[0] == '\\' && e[1] in SHORT_ESCAPES && SHORT_ESCAPES[e[1]] == p)
    || (p < 0x10000 && UnitSpelling(e, p))
    || (0x10000 <= p < 0x11_0000 && |e| == 12 && UnitSpelling(e[..6], 0xD800 + (p - 0x10000) / 0x400)
        && UnitSpelling(e[6..], 0xDC00 + (p - 0x10000) % 0x400))
  }

  lemma FourDigits(h: string)
    requires |h| == 4 && forall i :: 0 <= i < 4 ==> IsHex(h[i])
    ensures HexNumber(h) == 4096 * HexValue(h[0]) + 256 * HexValue(h[1]) + 16 * HexValue(h[2]) + HexValue(h[3])
  {
    assert h[..3][..2] == h[..2] && h[..2][..1] == h[..1] && h[..1][..0] == [];
    assert HexNumber(h[..0]) == 0;
    assert HexNumber(h[..1]) == HexValue(h[0]);
    assert HexNumber(h[..2]) == 16 * HexNumber(h[..1]) + HexValue(h[1]);
    assert HexNumber(h[..3]) == 16 * HexNumber(h[..2]) + HexValue(h[2]);
  }

  /** The parser's reading of a unit is its number. */
  lemma UnitRead(s: string, u: int)
    ensures UnitAt(s) == Some(u) <==> |s| >= 6 && UnitSpelling(s[..6], u)
    ensures UnitAt(s).Some? ==> UnitSpelling(s[..6], UnitAt(s).value) && 0 <= UnitAt(s).value < 0x10000
  {
    if |s| >= 6 && IsHex(s[2]) && IsHex(s[3]) && IsHex(s[4]) && IsHex(s[5]) {
      var h := s[..6][2..];
      assert |h| == 4 && forall i :: 0 <= i < 4 ==> h[i] == s[i + 2];
      FourDigits(h);
    } else if |s| >= 6 {
      assert forall i :: 2 <= i < 6 ==> s[..6][i] == s[i];
    }
  }

  lemma UnitOf(e: string, u: int, t: string)
    requires UnitSpelling(e, u)
    ensures UnitAt(e + t) == Some(u) && (e + t)[6..] == t && 0 <= u < 0x10000
  {
    assert (e + t)[..6] == e;
    UnitRead(e + t, u);
  }

  /** A surrogate escape stands for itself only where no pair can be read. */
  predicate NoLowAhead(p: int, t: string) {
    IsHigh(p) ==> UnitAt(t).None? || !IsLow(UnitAt(t).value)
  }

  lemma ReadUnit(e: string, p: int, t: string)
    requires UnitSpelling(e, p) && NoLowAhead(p, t)
    ensures ScanUnicode(e + t) == Ok(Parsed(p, t))
  {
    UnitOf(e, p, t);
    hide UnitAt, UnitSpelling;
  }

  lemma PairHalves(p: int)
    requires 0x10000 <= p < 0x11_0000
    ensures var hi, lo := 0xD800 + (p - 0x10000) / 0x400, 0xDC00 + (p - 0x10000) % 0x400;
      IsHigh(hi) && IsLow(lo) && 0x10000 + (hi - 0xD800) * 0x400 + (lo - 0xDC00) == p
  {
  }

  lemma ReadPair(e: string, p: int, t: string)
    requires 0x10000 <= p < 0x11_0000 && |e| == 12
    requires UnitSpelling(e[..6], 0xD800 + (p - 0x10000) / 0x400) && UnitSpelling(e[6..], 0xDC00 + (p - 0x10000) % 0x400)
    ensures ScanUnicode(e + t) == Ok(Parsed(p, t))
  {
    PairHalves(p);
    UnitOf(e[..6], 0xD800 + (p - 0x10000) / 0x400, e[6..] + t);
    UnitOf(e[6..], 0xDC00 + (p - 0x10000) % 0x400, t);
    assert e + t == e[..6] + (e[6..] + t);
    assert (e + t)[12..] == t;
    hide UnitAt, UnitSpelling;
  }

  /** Whichever way a code point is spelled, scanning reads it. */
  lemma ReadPoint(e: string, p: int, t: string)
    requires SpellsPoint(e, p) && NoLowAhead(p, t)
    ensures (e + t)[0] != '"' && ScanChar(e + t) == Ok(Parsed(p, t))
  {
    var s := e + t;
    assert s[|e|..] == t && forall i :: 0 <= i < |e| ==> s[i] == e[i];
    if p < 0x10000 && UnitSpelling(e, p) {
      ReadUnit(e, p, t);
    } else if |e| == 12 && p >= 0x10000 {
      assert e[..6][0] == e[0] && e[..6][1] == e[1];
      ReadPair(e, p, t);
    }
    hide ScanUnicode, UnitSpelling, UnitAt;
  }

  // ---- whole strings ----

  /** A string between its quotes: the pieces as written, and the code points they spell. */
  datatype Literal = Literal(parts: seq<string>, points: seq<int>)

  function Concat(parts: seq<string>): string {
    if parts == [] then [] else parts[0] + Concat(parts[1..])
  }

  /** No two neighbours that would be read as one pair. */
  predicate Apart(points: seq<int>) {
    forall i :: 0 <= i < |points| - 1 ==> !(IsHigh(points[i]) && IsLow(points[i + 1]))
  }

  predicate SpellsAll(parts: seq<string>, points: seq<int>) {
    |parts| == |points| && forall i :: 0 <= i < |parts| ==> SpellsPoint(parts[i], points[i])
  }

  predicate Spelled(l: Literal) { SpellsAll(l.parts, l.points) && Apart(l.points) }

  lemma PartStarts(e: string, p: int, t: string)
    requires SpellsPoint(e, p) && UnitAt(e + t).Some?
    ensures IsLow(UnitAt(e + t).value) ==> UnitAt(e + t).value == p
  {
    var s := e + t;
    assert forall i :: 0 <= i < |e| ==> s[i] == e[i];
    UnitRead(s, UnitAt(s).value);
    if p < 0x10000 && UnitSpelling(e, p) {
      UnitOf(e, p, t);
    } else if |e| == 12 && p >= 0x10000 {
      assert s == e[..6] + (e[6..] + t);
      PairHalves(p);
      UnitOf(e[..6], 0xD800 + (p - 0x10000) / 0x400, e[6..] + t);
    }
  }

  lemma ConcatCons(parts: seq<string>, end: string)
    requires parts != []
    ensures Concat(parts) + end == parts[0] + (Concat(parts[1..]) + end)
  {
  }

  lemma NextIsNotLow(parts: seq<string>, points: seq<int>, p: int, rest: string)
    requires SpellsAll(parts, points) && (points != [] && IsHigh(p) ==> !IsLow(points[0]))
    ensures NoLowAhead(p, Concat(parts) + "\"" + rest)
  {
    var t := Concat(parts) + "\"" + rest;
    if parts == [] {
      assert t == "\"" + rest;
    } else {
      var more := Concat(parts[1..]) + ("\"" + rest);
      ConcatCons(parts, "\"" + rest);
      assert t == Concat(parts) + ("\"" + rest);
      if UnitAt(parts[0] + more).Some? { PartStarts(parts[0], points[0], more); }
    }
  }

  /** Every spelling of a sequence of code points is read as that sequence. */
  lemma {:induction false} ReadString(parts: seq<string>, points: seq<int>, rest: string)
    requires SpellsAll(parts, points) && Apart(points)
    ensures ScanString(Concat(parts) + "\"" + rest) == Ok(Parsed(points, rest))
    decreases |parts|
  {
    hide SpellsPoint;
    var s := Concat(parts) + "\"" + rest;
    if parts == [] {
      assert s == "\"" + rest && s[1..] == rest;
    } else {
      var more := Concat(parts[1..]) + "\"" + rest;
      ConcatCons(parts, "\"" + rest);
      assert s == parts[0] + more;
      NextIsNotLow(parts[1..], points[1..], points[0], rest);
      ReadPoint(parts[0], points[0], more);
      ReadString(parts[1..], points[1..], rest);
      assert points == [points[0]] + points[1..];
    }
  }

  lemma {:induction false} TextIsApart(s: string)
    ensures Apart(CodePoints(s)) && |CodePoints(s)| == |s| && forall i :: 0 <= i < |s| ==> CodePoints(s)[i] == s[i] as int
  {
    if s != [] { TextIsApart(s[1..]); }
  }

  /** For text: however each character is written, the string read is the text. */
  lemma ReadText(parts: seq<string>, s: string, rest: string)
    requires SpellsAll(parts, CodePoints(s))
    ensures ScanString(Concat(parts) + "\"" + rest) == Ok(Parsed(CodePoints(s), rest))
  {
    TextIsApart(s);
    ReadString(parts, CodePoints(s), rest);
  }

  // ---- and nothing else is ----

  lemma ShortRead(s: string)
    requires |s| >= 2 && s[0] == '\\' && s[1] in SHORT_ESCAPES
    ensures ScanChar(s) == Ok(Parsed(SHORT_ESCAPES[s[1]], s[2..]))
  {
  }

  lemma OnlyShort(s: string)
    requires s != [] && s[0] == '\\' && ScanChar(s).Ok?
    ensures |s| >= 2 && (s[1] in SHORT_ESCAPES || (s[1] == 'u' && ScanChar(s) == ScanUnicode(s)))
  {
  }

  /** What scanning takes for a code point is a spelling of it, and not the first half of a pair. */
  lemma PointSpelled(s: string) returns (e: string)
    requires s != [] && s[0] != '"' && ScanChar(s).Ok?
    ensures var r := ScanChar(s).value; s == e + r.rest && SpellsPoint(e, r.value) && NoLowAhead(r.value, r.rest)
  {
    var r := ScanChar(s).value;
    e := s[..|s| - |r.rest|];
    if s[0] != '\\' {
      assert e == [s[0]] && s == e + s[1..];
    } else {
      OnlyShort(s);
      if s[1] in SHORT_ESCAPES {
        ShortRead(s);
        assert e == s[..2] && s == s[..2] + s[2..];
      } else {
        e := UnicodeSpelled(s);
      }
    }
  }

  lemma UnicodeSpelled(s: string) returns (e: string)
    requires ScanUnicode(s).Ok?
    ensures var r := ScanUnicode(s).value; s == e + r.rest && SpellsPoint(e, r.value) && NoLowAhead(r.value, r.rest)
  {
    var u := UnitAt(s).value;
    UnitRead(s, u);
    var next := UnitAt(s[6..]);
    if IsHigh(u) && next.Some? && IsLow(next.value) {
      UnitRead(s[6..], next.value);
      e := s[..12];
      assert e[..6] == s[..6] && e[6..] == s[6..][..6] && s == e + s[12..];
    } else {
      e := s[..6];
      assert s == e + s[6..];
    }
  }

  /** What scanning takes for a string is a spelling of it. */
  lemma {:induction false} StringSpelled(s: string) returns (l: Literal)
    requires ScanString(s).Ok?
    ensures Spelled(l) && l.points == ScanString(s).value.value
    ensures s == Concat(l.parts) + "\"" + ScanString(s).value.rest
    decreases |s|
  {
    hide SpellsPoint, ScanChar, NoLowAhead;
    if s[0] == '"' {
      l := Literal([], []);
      assert s == "\"" + s[1..];
    } else {
      var c := ScanChar(s).value;
      var e := PointSpelled(s);
      var more := StringSpelled(c.rest);
      l := Literal([e] + more.parts, [c.value] + more.points);
      StillApart(c, more, ScanString(c.rest).value.rest);
      ConcatCons(l.parts, "\"" + ScanString(s).value.rest);
      assert l.parts[1..] == more.parts;
      assert Concat(more.parts) + ("\"" + ScanString(s).value.rest) == Concat(more.parts) + "\"" + ScanString(s).value.rest;
      assert Concat(l.parts) + ("\"" + ScanString(s).value.rest) == Concat(l.parts) + "\"" + ScanString(s).value.rest;
    }
  }

  lemma StillApart(c: Parsed<int>, more: Literal, rest: string)
    requires Spelled(more) && NoLowAhead(c.value, c.rest) && c.rest == Concat(more.parts) + "\"" + rest
    ensures Apart([c.value] + more.points)
  {
    var all := [c.value] + more.points;
    if IsHigh(c.value) && more.points != [] && IsLow(more.points[0]) {
      var p := more.points[0];
      LowIsUnit(more.parts[0], p);
      ConcatCons(more.parts, "\"" + rest);
      assert c.rest == more.parts[0] + (Concat(more.parts[1..]) + ("\"" + rest));
      UnitOf(more.parts[0], p, Concat(more.parts[1..]) + ("\"" + rest));
    }
    forall i | 0 <= i < |all| - 1 ensures !(IsHigh(all[i]) && IsLow(all[i + 1])) {
      if i > 0 { assert all[i] == more.points[i - 1] && all[i + 1] == more.points[i]; }
    }
  }

  lemma LowIsUnit(e: string, p: int)
    requires SpellsPoint(e, p) && IsLow(p)
    ensures UnitSpelling(e, p)
  {
  }

  // ---- the emitter's spelling ----

  /** Canonical text spells each character the shortest way there is, with lower-case hex (section 3.2.2.2 of RFC 8785). */
  lemma EscapeIsShortest(c: char, e: string)
    ensures SpellsPoint(EscapeChar(c), c as int)
    ensures SpellsPoint(e, c as int) ==> |EscapeChar(c)| <= |e|
    ensures |EscapeChar(c)| == 6 ==> forall i :: 2 <= i < 6 ==> IsLowerHex(EscapeChar(c)[i])
  {
    var t := EscapeChar(c);
    if |t| == 6 {
      ScanEscapedChar(c, "");
      var n := c as int;
      assert t[2] == '0' && t[3] == '0' && t[4] == HexDigit(n / 16) && t[5] == HexDigit(n % 16);
      assert HexValue(t[4]) == n / 16 && HexValue(t[5]) == n % 16;
      var h := t[2..];
      assert h == [t[2], t[3], t[4], t[5]];
      FourDigits(h);
    }
  }

  /** Member order compares UTF-16: a character of the basic plane as itself, any other as its surrogate pair. */
  lemma Utf16IsExact(c: char)
    ensures var units := Utf16Units(c);
      if c as int < 0x10000 then units == [c as int]
      else |units| == 2 && IsHigh(units[0]) && IsLow(units[1])
           && 0x10000 + (units[0] - 0xD800) * 0x400 + (units[1] - 0xDC00) == c as int
  {
    if c as int >= 0x10000 { PairHalves(c as int); }
  }
}
