/** Percent-encoding normalisation, section 6.2.2.2 of RFC 3986, and the normal form it reaches. */
module Percent {
  import opened Wrappers
  import opened Texts

  /** Which characters a URL component may carry unencoded. */
  datatype Component = PathChars | QueryChars

  predicate Unreserved(c: char) { IsAlnum(c) || c in "-._~" }
  predicate SubDelim(c: char) { c in "!$&'()*+,;=" }

  predicate Literal(k: Component, c: char) {
    Unreserved(c) || SubDelim(c) || c in ":@/" || (k.QueryChars? && c == '?')
  }

  function UpperHexDigit(n: nat): (c: char)
    requires n < 16
    ensures IsHex(c) && HexValue(c) == n && !('a' <= c <= 'f')
  {
    if n < 10 then '0' + n as char else 'A' + (n - 10) as char
  }

  function EncodedByte(b: nat): (t: string)
    requires b < 256
    ensures |t| == 3
  {
    ['%', UpperHexDigit(b / 16), UpperHexDigit(b % 16)]
  }

  function Utf8(c: char): (bytes: seq<nat>)
    ensures forall i :: 0 <= i < |bytes| ==> bytes[i] < 256
    ensures c as int > 0x7F ==> forall i :: 0 <= i < |bytes| ==> bytes[i] >= 0x80
  {
    var n := c as int;
    if n < 0x80 then [n]
    else if n < 0x800 then [0xC0 + n / 64, 0x80 + n % 64]
    else if n < 0x10000 then [0xE0 + n / 4096, 0x80 + n / 64 % 64, 0x80 + n % 64]
    else [0xF0 + n / 262144, 0x80 + n / 4096 % 64, 0x80 + n / 64 % 64, 0x80 + n % 64]
  }

  function EncodedBytes(bytes: seq<nat>): string
    requires forall i :: 0 <= i < |bytes| ==> bytes[i] < 256
  {
    if bytes == [] then [] else EncodedByte(bytes[0]) + EncodedBytes(bytes[1..])
  }

  function ByteAt(s: string): (b: nat)
    requires |s| >= 3 && IsHex(s[1]) && IsHex(s[2])
    ensures b < 256
  {
    16 * HexValue(s[1]) + HexValue(s[2])
  }

  predicate UnreservedByte(b: nat) {
    b < 128 && Unreserved(b as char)
  }

  function NormalByte(b: nat): string
    requires b < 256
  {
    if UnreservedByte(b) then [b as char] else EncodedByte(b)
  }

  predicate EscapeAhead(s: string) {
    |s| >= 3 && IsHex(s[1]) && IsHex(s[2])
  }

  /** The first unit of s, an escape or one character: its normal spelling and what it takes from s. */
  function FirstUnit(s: string, k: Component): (r: Result<(string, nat)>)
    requires s != []
    ensures r.Ok? ==> 1 <= r.value.1 <= |s|
  {
    if s[0] == '%' then
      if EscapeAhead(s) then Ok((NormalByte(ByteAt(s)), 3)) else Err("invalid_percent_encoding")
    else if Literal(k, s[0]) then Ok(([s[0]], 1))
    else if s[0] as int > 0x7F then Ok((EncodedBytes(Utf8(s[0])), 1))
    else Err("illegal_character")
  }

  function Normalise(s: string, k: Component): Result<string>
    decreases |s|
  {
    if s == [] then Ok([])
    else
      var unit :- FirstUnit(s, k);
      var rest :- Normalise(s[unit.1..], k);
      Ok(unit.0 + rest)
  }

  function After(done: string, r: Result<string>): Result<string> {
    match r
    case Ok(t) => Ok(done + t)
    case Err(code) => Err(code)
  }

  lemma AfterAfter(s: string, t: string, r: Result<string>)
    ensures After(s, After(t, r)) == After(s + t, r)
  {
    if r.Ok? { assert s + (t + r.value) == s + t + r.value; }
  }

  lemma AfterNothing(r: Result<string>)
    ensures After("", r) == r
  {
    if r.Ok? { assert "" + r.value == r.value; }
  }

  lemma NormaliseFrom(text: string, index: nat, k: Component)
    requires index < |text|
    ensures var unit := FirstUnit(text[index..], k);
      Normalise(text[index..], k) == match unit
        case Ok(u) => After(u.0, Normalise(text[index + u.1..], k))
        case Err(code) => Err(code)
  {
    var unit := FirstUnit(text[index..], k);
    if unit.Ok? { assert text[index..][unit.value.1..] == text[index + unit.value.1..]; }
  }

  /** The index-and-buffer loop the program runs. */
  method NormaliseText(text: string, k: Component) returns (r: Result<string>)
    ensures r == Normalise(text, k)
  {
    hide FirstUnit;
    var out := "";
    var index := 0;
    assert text[0..] == text;
    AfterNothing(Normalise(text, k));
    while index < |text|
      invariant 0 <= index <= |text|
      invariant Normalise(text, k) == After(out, Normalise(text[index..], k))
    {
      var unit := FirstUnit(text[index..], k);
      NormaliseFrom(text, index, k);
      if unit.Err? { return Err(unit.code); }
      AfterAfter(out, unit.value.0, Normalise(text[index + unit.value.1..], k));
      out := out + unit.value.0;
      index := index + unit.value.1;
    }
    assert text[index..] == "" && out + "" == out;
    r := Ok(out);
  }

  /** Normal text: literals, and upper-case escapes of bytes that must stay encoded. */
  predicate Normal(s: string, k: Component)
    decreases |s|
  {
    s == [] ||
    if s[0] == '%' then EscapeAhead(s) && s[..3] == EncodedByte(ByteAt(s)) && !UnreservedByte(ByteAt(s)) && Normal(s[3..], k)
    else Literal(k, s[0]) && Normal(s[1..], k)
  }

  lemma EncodedByteIsNormal(b: nat, rest: string, k: Component)
    requires b < 256 && !UnreservedByte(b) && Normal(rest, k)
    ensures Normal(EncodedByte(b) + rest, k)
  {
    var s := EncodedByte(b) + rest;
    assert s[..3] == EncodedByte(b) && s[3..] == rest;
    assert ByteAt(s) == b;
  }

  lemma HighByte(b: nat)
    requires b >= 0x80
    ensures !UnreservedByte(b)
  {
  }

  lemma {:induction false} EncodedBytesAreNormal(bytes: seq<nat>, rest: string, k: Component)
    requires forall i :: 0 <= i < |bytes| ==> 0x80 <= bytes[i] < 256
    requires Normal(rest, k)
    ensures Normal(EncodedBytes(bytes) + rest, k)
  {
    hide Normal, EncodedByte, UnreservedByte;
    if bytes == [] {
      assert EncodedBytes(bytes) + rest == rest;
    } else {
      HighByte(bytes[0]);
      EncodedBytesAreNormal(bytes[1..], rest, k);
      EncodedByteIsNormal(bytes[0], EncodedBytes(bytes[1..]) + rest, k);
      assert EncodedBytes(bytes) + rest == EncodedByte(bytes[0]) + (EncodedBytes(bytes[1..]) + rest);
    }
  }

  /** Normalisation always ends in normal text. */
  lemma {:induction false} NormaliseIsNormal(s: string, k: Component)
    requires Normalise(s, k).Ok?
    ensures Normal(Normalise(s, k).value, k)
    decreases |s|
  {
    if s != [] {
      var unit := FirstUnit(s, k).value;
      NormaliseIsNormal(s[unit.1..], k);
      var rest := Normalise(s[unit.1..], k).value;
      if s[0] == '%' && !UnreservedByte(ByteAt(s)) {
        EncodedByteIsNormal(ByteAt(s), rest, k);
      } else if s[0] != '%' && !Literal(k, s[0]) {
        EncodedBytesAreNormal(Utf8(s[0]), rest, k);
      } else {
        assert (unit.0 + rest)[1..] == rest;
      }
    }
  }

  /** Normal text is a fixed point, so normalisation is idempotent. */
  lemma {:induction false} NormalIsFixed(s: string, k: Component)
    requires Normal(s, k)
    ensures Normalise(s, k) == Ok(s)
    decreases |s|
  {
    if s != [] {
      var n := if s[0] == '%' then 3 else 1;
      NormalIsFixed(s[n..], k);
      assert s == s[..n] + s[n..];
      assert n == 1 ==> s[..1] == [s[0]];
    }
  }

  lemma NormaliseIdempotent(s: string, k: Component)
    requires Normalise(s, k).Ok?
    ensures Normalise(Normalise(s, k).value, k) == Normalise(s, k)
  {
    NormaliseIsNormal(s, k);
    NormalIsFixed(Normalise(s, k).value, k);
  }

  lemma {:induction false} NormalConcat(s: string, t: string, k: Component)
    requires Normal(s, k) && Normal(t, k)
    ensures Normal(s + t, k)
    decreases |s|
  {
    if s == [] {
      assert s + t == t;
    } else {
      var n := if s[0] == '%' then 3 else 1;
      NormalConcat(s[n..], t, k);
      assert (s + t)[n..] == s[n..] + t;
      assert n == 3 ==> (s + t)[..3] == s[..3];
    }
  }

  predicate AllNormalise(parts: seq<string>) {
    forall p :: p in parts ==> Normalise(p, PathChars).Ok?
  }

  function NormaliseEach(parts: seq<string>): (r: seq<string>)
    requires AllNormalise(parts)
    ensures |r| == |parts| && forall i :: 0 <= i < |parts| ==> r[i] == Normalise(parts[i], PathChars).value
  {
    if parts == [] then []
    else
      assert parts[0] in parts && forall p :: p in parts[1..] ==> p in parts;
      [Normalise(parts[0], PathChars).value] + NormaliseEach(parts[1..])
  }

  lemma AllNormaliseCons(p: string, rest: seq<string>)
    ensures AllNormalise([p] + rest) <==> Normalise(p, PathChars).Ok? && AllNormalise(rest)
    ensures AllNormalise([p] + rest) ==> NormaliseEach([p] + rest) == [Normalise(p, PathChars).value] + NormaliseEach(rest)
  {
    hide Normalise;
    var all := [p] + rest;
    assert all[0] == p && all[1..] == rest;
    assert forall x :: x in all <==> x == p || x in rest;
  }

  lemma {:induction false} SplitAfterFree(u: string, s: string)
    requires Free(u, '/')
    ensures var rest := Split(s, '/'); Split(u + s, '/') == [u + rest[0]] + rest[1..]
  {
    var rest := Split(s, '/');
    if u == [] {
      assert u + s == s && u + rest[0] == rest[0];
    } else {
      assert u[0] in u && forall c :: c in u[1..] ==> c in u;
      SplitAfterFree(u[1..], s);
      assert (u + s)[1..] == u[1..] + s;
      assert u + rest[0] == [u[0]] + (u[1..] + rest[0]);
    }
  }

  lemma SplitEscape(s: string)
    requires |s| >= 3 && s[0] == '%' && IsHex(s[1]) && IsHex(s[2])
    ensures var rest := Split(s[3..], '/'); Split(s, '/') == [s[..3] + rest[0]] + rest[1..]
  {
    hide Split;
    assert forall i :: 0 <= i < 3 ==> s[..3][i] != '/';
    SplitAfterFree(s[..3], s[3..]);
    assert s == s[..3] + s[3..];
  }

  lemma {:induction false} EncodedBytesFree(bytes: seq<nat>)
    requires forall i :: 0 <= i < |bytes| ==> bytes[i] < 256
    ensures Free(EncodedBytes(bytes), '/')
  {
    if bytes != [] {
      EncodedBytesFree(bytes[1..]);
      assert forall c :: c in EncodedBytes(bytes) ==> c in EncodedByte(bytes[0]) || c in EncodedBytes(bytes[1..]);
    }
  }

  lemma UnitSize(s: string)
    requires s != [] && FirstUnit(s, PathChars).Ok?
    ensures FirstUnit(s, PathChars).value.1 == if s[0] == '%' then 3 else 1
    ensures s[0] == '%' ==> EscapeAhead(s)
  {
    hide EncodedBytes, Utf8, Literal;
  }

  lemma SameUnit(s: string, t: string)
    requires s != [] && t != [] && FirstUnit(s, PathChars).Ok?
    requires var n := FirstUnit(s, PathChars).value.1; n <= |t| && forall i :: 0 <= i < n ==> t[i] == s[i]
    ensures FirstUnit(t, PathChars) == FirstUnit(s, PathChars)
  {
    hide EncodedBytes, Utf8, Literal, NormalByte;
  }

  lemma RefusedStart(s: string, first: string)
    requires s != [] && first != [] && first <= s && FirstUnit(s, PathChars).Err?
    ensures FirstUnit(first, PathChars).Err?
  {
    hide EncodedBytes, Utf8, Literal, NormalByte;
  }

  lemma UnitFree(s: string)
    requires s != [] && s[0] != '/' && FirstUnit(s, PathChars).Ok?
    ensures Free(FirstUnit(s, PathChars).value.0, '/')
  {
    hide EncodedBytes, Utf8;
    EncodedBytesFree(Utf8(s[0]));
  }

  lemma UnitSplit(s: string)
    requires s != [] && s[0] != '/' && FirstUnit(s, PathChars).Ok?
    ensures var n := FirstUnit(s, PathChars).value.1;
      var rest := Split(s[n..], '/'); Split(s, '/') == [s[..n] + rest[0]] + rest[1..]
  {
    UnitSize(s);
    hide FirstUnit;
    if s[0] == '%' { SplitEscape(s); } else { assert s[..1] == [s[0]]; }
  }

  /** A unit that does not start with a slash is read from the first segment alone, and neither is nor becomes a slash. */
  lemma UnitInSegment(s: string)
    requires s != [] && s[0] != '/'
    ensures var first := Split(s, '/')[0]; first != [] && (FirstUnit(s, PathChars).Err? ==> FirstUnit(first, PathChars).Err?)
    ensures var unit := FirstUnit(s, PathChars); unit.Ok? ==>
      var n, rest := unit.value.1, Split(s[unit.value.1..], '/');
      && Split(s, '/') == [s[..n] + rest[0]] + rest[1..]
      && FirstUnit(s[..n] + rest[0], PathChars) == unit && (s[..n] + rest[0])[n..] == rest[0]
      && Free(unit.value.0, '/')
  {
    hide FirstUnit, Split;
    SplitPrefix(s);
    var unit := FirstUnit(s, PathChars);
    if unit.Ok? {
      var n, rest := unit.value.1, Split(s[unit.value.1..], '/');
      UnitSplit(s);
      UnitFree(s);
      SameUnit(s, s[..n] + rest[0]);
    } else {
      RefusedStart(s, Split(s, '/')[0]);
    }
  }

  lemma {:induction false} SplitPrefix(s: string)
    ensures Split(s, '/')[0] <= s
    ensures s != [] && s[0] != '/' ==> Split(s, '/')[0] != []
  {
    if s != [] && s[0] != '/' { SplitPrefix(s[1..]); }
  }

  lemma UnitThenRest(u: string, n: nat, p: string)
    requires p != [] && FirstUnit(p, PathChars) == Ok((u, n))
    ensures Normalise(p, PathChars) == After(u, Normalise(p[n..], PathChars))
  {
    hide FirstUnit;
  }

  /**
   * Normalisation commutes with splitting on a slash: a path normalises exactly when each of its segments does, and its
   * segments are then theirs.
   */
  lemma {:induction false} NormaliseSegments(s: string)
    ensures Normalise(s, PathChars).Ok? <==> AllNormalise(Split(s, '/'))
    ensures Normalise(s, PathChars).Ok? ==> Split(Normalise(s, PathChars).value, '/') == NormaliseEach(Split(s, '/'))
    decreases |s|
  {
    if s == [] {
      NothingNormalises();
    } else if s[0] == '/' {
      hide Normalise;
      SlashSegment(s);
      NormaliseSegments(s[1..]);
      AllNormaliseCons([], Split(s[1..], '/'));
    } else {
      hide Normalise, FirstUnit, NormaliseEach;
      UnitInSegment(s);
      var unit := FirstUnit(s, PathChars);
      if unit.Err? {
        RefusedUnit(s);
        RefusedUnit(Split(s, '/')[0]);
        assert Split(s, '/')[0] in Split(s, '/');
      } else {
        UnitSegments(s, unit.value.0, unit.value.1);
      }
    }
  }

  lemma NothingNormalises()
    ensures Normalise("", PathChars) == Ok("") && Split("", '/') == [""]
    ensures AllNormalise([""]) && NormaliseEach([""]) == [""]
  {
    var none: seq<string> := [];
    assert [""] + none == [""] && NormaliseEach(none) == none;
    AllNormaliseCons("", none);
  }

  lemma RefusedUnit(s: string)
    requires s != [] && FirstUnit(s, PathChars).Err?
    ensures Normalise(s, PathChars).Err?
  {
    hide FirstUnit;
  }

  lemma SlashSegment(s: string)
    requires s != [] && s[0] == '/'
    ensures Normalise(s, PathChars) == After("/", Normalise(s[1..], PathChars)) && Normalise([], PathChars) == Ok([])
    ensures Split(s, '/') == [[]] + Split(s[1..], '/')
    ensures forall r :: Split("/" + r, '/') == [[]] + Split(r, '/')
  {
    assert FirstUnit(s, PathChars) == Ok(("/", 1));
    UnitThenRest("/", 1, s);
    forall r ensures Split("/" + r, '/') == [[]] + Split(r, '/') { assert ("/" + r)[1..] == r; }
  }

  lemma UnitSegments(s: string, u: string, n: nat)
    requires s != [] && s[0] != '/' && FirstUnit(s, PathChars) == Ok((u, n))
    ensures Normalise(s, PathChars).Ok? <==> AllNormalise(Split(s, '/'))
    ensures Normalise(s, PathChars).Ok? ==> Split(Normalise(s, PathChars).value, '/') == NormaliseEach(Split(s, '/'))
    decreases |s|, 0
  {
    UnitInSegment(s);
    hide Normalise, FirstUnit, NormaliseEach, AllNormalise;
    var rest := Split(s[n..], '/');
    var first := s[..n] + rest[0];
    UnitThenRest(u, n, s);
    UnitThenRest(u, n, first);
    NormaliseSegments(s[n..]);
    assert rest == [rest[0]] + rest[1..];
    AllNormaliseCons(rest[0], rest[1..]);
    AllNormaliseCons(first, rest[1..]);
    if Normalise(s[n..], PathChars).Ok? {
      SplitAfterFree(u, Normalise(s[n..], PathChars).value);
    }
  }

  /** No escape ever straddles a separator: every segment of a normal path is normal. */
  lemma NormalSegments(s: string)
    requires Normal(s, PathChars)
    ensures forall p :: p in Split(s, '/') ==> Normal(p, PathChars)
  {
    hide Normal, Normalise;
    NormalIsFixed(s, PathChars);
    NormaliseSegments(s);
    var parts := Split(s, '/');
    forall p | p in parts ensures Normal(p, PathChars) {
      var i :| 0 <= i < |parts| && parts[i] == p;
      NormaliseIsNormal(p, PathChars);
      assert parts[i] == NormaliseEach(parts)[i];
    }
  }

  lemma {:induction false} NormalJoin(parts: seq<string>)
    requires forall p :: p in parts ==> Normal(p, PathChars)
    ensures Normal(Join(parts, '/'), PathChars)
  {
    if |parts| == 1 {
      assert parts[0] in parts;
    } else if parts != [] {
      NormalJoin(parts[1..]);
      assert parts[0] in parts;
      var tail := Join(parts[1..], '/');
      assert (['/'] + tail)[1..] == tail;
      NormalConcat(parts[0], ['/'] + tail, PathChars);
      assert parts[0] + ['/'] + tail == parts[0] + (['/'] + tail);
    }
  }

  lemma {:induction false} NormalChars(s: string, k: Component)
    requires Normal(s, k)
    ensures forall i :: 0 <= i < |s| ==> s[i] == '%' || Literal(k, s[i])
    decreases |s|
  {
    if s != [] {
      var n := if s[0] == '%' then 3 else 1;
      NormalChars(s[n..], k);
      forall i | 0 <= i < |s| ensures s[i] == '%' || Literal(k, s[i]) {
        if i >= n { assert s[i] == s[n..][i - n]; }
      }
    }
  }
}
