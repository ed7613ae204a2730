/** What percent-encoded text says, and that normalising keeps exactly that. */
module Escapes {
  import opened Wrappers
  import opened Texts
  import opened Json
  import opened Percent

  // ---- UTF-8, section 3 of RFC 3629 ----

  predicate Trail(b: nat) { 0x80 <= b < 0xC0 }

  predicate IsUtf8(c: char, bytes: seq<nat>) {
    var n := c as int;
    || (|bytes| == 1 && n < 0x80 && bytes[0] == n)
    || (|bytes| == 2 && 0x80 <= n < 0x800 && 0xC0 <= bytes[0] < 0xE0 && Trail(bytes[1])
        && n == (bytes[0] - 0xC0) * 64 + (bytes[1] - 0x80))
    || (|bytes| == 3 && 0x800 <= n < 0x10000 && 0xE0 <= bytes[0] < 0xF0 && Trail(bytes[1]) && Trail(bytes[2])
        && n == ((bytes[0] - 0xE0) * 64 + (bytes[1] - 0x80)) * 64 + (bytes[2] - 0x80))
    || (|bytes| == 4 && 0x10000 <= n && 0xF0 <= bytes[0] < 0xF8 && Trail(bytes[1]) && Trail(bytes[2]) && Trail(bytes[3])
        && n == (((bytes[0] - 0xF0) * 64 + (bytes[1] - 0x80)) * 64 + (bytes[2] - 0x80)) * 64 + (bytes[3] - 0x80))
  }

  lemma Six(n: nat, a: int, b: int)
    requires 0 <= b < 64
    ensures n == a * 64 + b <==> a == n / 64 && b == n % 64
  {
  }

  lemma Quotients(n: nat)
    ensures n / 4096 == n / 64 / 64 && n / 262144 == n / 64 / 64 / 64
  {
  }

  lemma ThreeSixes(n: nat, a: int, b: int, c: int)
    requires 0 <= b < 64 && 0 <= c < 64
    ensures n == (a * 64 + b) * 64 + c <==> a == n / 4096 && b == n / 64 % 64 && c == n % 64
  {
    Quotients(n);
    Six(n, a * 64 + b, c);
    Six(n / 64, a, b);
  }

  lemma FourSixes(n: nat, a: int, b: int, c: int, d: int)
    requires 0 <= b < 64 && 0 <= c < 64 && 0 <= d < 64
    ensures n == ((a * 64 + b) * 64 + c) * 64 + d <==> a == n / 262144 && b == n / 4096 % 64 && c == n / 64 % 64 && d == n % 64
  {
    Quotients(n);
    Six(n, (a * 64 + b) * 64 + c, d);
    Quotients(n / 64);
    ThreeSixes(n / 64, a, b, c);
  }

  lemma TwoOctets(c: char, x: nat, y: nat)
    ensures IsUtf8(c, [x, y]) <==> Utf8(c) == [x, y]
  {
    if Trail(y) { Six(c as int, x - 0xC0, y - 0x80); }
  }

  lemma ThreeOctets(c: char, x: nat, y: nat, z: nat)
    ensures IsUtf8(c, [x, y, z]) <==> Utf8(c) == [x, y, z]
  {
    if Trail(y) && Trail(z) { ThreeSixes(c as int, x - 0xE0, y - 0x80, z - 0x80); }
  }

  lemma FourOctets(c: char, w: nat, x: nat, y: nat, z: nat)
    ensures IsUtf8(c, [w, x, y, z]) <==> Utf8(c) == [w, x, y, z]
  {
    if Trail(x) && Trail(y) && Trail(z) { FourSixes(c as int, w - 0xF0, x - 0x80, y - 0x80, z - 0x80); }
  }

  /** The octets written for a character are its UTF-8 encoding, and there is no other. */
  lemma Utf8Exact(c: char, bytes: seq<nat>)
    ensures IsUtf8(c, bytes) <==> bytes == Utf8(c)
  {
    if |bytes| == 2 {
      TwoOctets(c, bytes[0], bytes[1]);
      assert bytes == [bytes[0], bytes[1]];
    } else if |bytes| == 3 {
      ThreeOctets(c, bytes[0], bytes[1], bytes[2]);
      assert bytes == [bytes[0], bytes[1], bytes[2]];
    } else if |bytes| == 4 {
      FourOctets(c, bytes[0], bytes[1], bytes[2], bytes[3]);
      assert bytes == [bytes[0], bytes[1], bytes[2], bytes[3]];
    }
  }

  function Encoding(s: string): seq<nat> { if s == [] then [] else Utf8(s[0]) + Encoding(s[1..]) }

  /** The length a text is limited by is that of its encoding. */
  lemma {:induction false} LengthExact(s: string)
    ensures Utf8Length(s) == |Encoding(s)|
  {
    if s != [] { LengthExact(s[1..]); }
  }

  // ---- what a text says ----

  /** An octet, or a delimiter that stands for itself. */
  datatype Sign = Octet(b: nat) | Mark(c: char)

  function Octets(bytes: seq<nat>): seq<Sign> {
    if bytes == [] then [] else [Octet(bytes[0])] + Octets(bytes[1..])
  }

  /** Escapes, unreserved characters and those beyond ASCII say octets; a bare delimiter says itself. */
  function Signs(s: string): seq<Sign>
    decreases |s|
  {
    if s == [] then []
    else if s[0] == '%' && EscapeAhead(s) then [Octet(16 * HexValue(s[1]) + HexValue(s[2]))] + Signs(s[3..])
    else CharSigns(s[0]) + Signs(s[1..])
  }

  function CharSigns(c: char): seq<Sign> {
    if Unreserved(c) then [Octet(c as int)] else if c as int > 0x7F then Octets(Utf8(c)) else [Mark(c)]
  }

  lemma EscapeSigns(b: nat, rest: string)
    requires b < 256
    ensures Signs(EncodedByte(b) + rest) == [Octet(b)] + Signs(rest)
  {
    var s := EncodedByte(b) + rest;
    assert s[3..] == rest;
  }

  lemma CharacterSigns(c: char, rest: string)
    requires c != '%'
    ensures Signs([c] + rest) == CharSigns(c) + Signs(rest)
  {
    assert ([c] + rest)[1..] == rest;
  }

  lemma ByteSigns(b: nat, rest: string)
    requires b < 256
    ensures Signs(NormalByte(b) + rest) == [Octet(b)] + Signs(rest)
  {
    if UnreservedByte(b) { CharacterSigns(b as char, rest); } else { EscapeSigns(b, rest); }
  }

  lemma {:induction false} BytesSigns(bytes: seq<nat>, rest: string)
    requires forall i :: 0 <= i < |bytes| ==> bytes[i] < 256
    ensures Signs(EncodedBytes(bytes) + rest) == Octets(bytes) + Signs(rest)
  {
    hide Signs, EncodedByte;
    if bytes == [] {
      assert EncodedBytes(bytes) + rest == rest;
    } else {
      BytesSigns(bytes[1..], rest);
      EscapeSigns(bytes[0], EncodedBytes(bytes[1..]) + rest);
      assert EncodedBytes(bytes) + rest == EncodedByte(bytes[0]) + (EncodedBytes(bytes[1..]) + rest);
    }
  }

  /** Normalising changes nothing of what a text says. */
  lemma {:induction false} SignsKept(s: string, k: Component)
    requires Normalise(s, k).Ok?
    ensures Signs(Normalise(s, k).value) == Signs(s)
    decreases |s|
  {
    hide EncodedByte, Utf8, Unreserved, NormalByte, CharSigns;
    if s != [] {
      var unit := FirstUnit(s, k).value;
      SignsKept(s[unit.1..], k);
      var rest := Normalise(s[unit.1..], k).value;
      if s[0] == '%' {
        ByteSigns(ByteAt(s), rest);
      } else if Literal(k, s[0]) {
        CharacterSigns(s[0], rest);
      } else {
        BytesSigns(Utf8(s[0]), rest);
        HighSigns(s[0]);
      }
    }
  }

  lemma HighSigns(c: char)
    requires c as int > 0x7F
    ensures CharSigns(c) == Octets(Utf8(c))
  {
  }

  function UnitLength(s: string): (n: nat)
    requires s != []
    ensures n <= |s|
  {
    if s[0] == '%' && EscapeAhead(s) then 3 else 1
  }

  lemma FirstSign(s: string, k: Component)
    requires s != [] && Normal(s, k)
    ensures Signs(s) == [NormalSign(s)] + Signs(s[UnitLength(s)..]) && Normal(s[UnitLength(s)..], k)
    ensures s == SignText(NormalSign(s)) + s[UnitLength(s)..]
  {
    hide Literal;
    if s[0] == '%' {
      assert s == s[..3] + s[3..];
    } else {
      LiteralIsAscii(s[0], k);
      assert s == [s[0]] + s[1..];
    }
  }

  lemma LiteralIsAscii(c: char, k: Component)
    requires Literal(k, c)
    ensures c as int <= 0x7F && c != '%'
  {
  }

  lemma SameCons<T>(x: T, xs: seq<T>, y: T, ys: seq<T>)
    requires [x] + xs == [y] + ys
    ensures x == y && xs == ys
  {
    assert ([x] + xs)[0] == x && ([x] + xs)[1..] == xs && ([y] + ys)[1..] == ys;
  }

  function NormalSign(s: string): Sign
    requires s != []
  {
    if s[0] == '%' && EscapeAhead(s) then Octet(16 * HexValue(s[1]) + HexValue(s[2]))
    else if Unreserved(s[0]) then Octet(s[0] as int)
    else Mark(s[0])
  }

  function SignText(sign: Sign): string {
    match sign
    case Octet(b) => if b < 256 then NormalByte(b) else ""
    case Mark(c) => [c]
  }

  /** A normal text is the only one that says what it says. */
  lemma {:induction false} NormalDetermined(s: string, r: string, k: Component)
    requires Normal(s, k) && Normal(r, k) && Signs(s) == Signs(r)
    ensures s == r
    decreases |s|
  {
    hide Normal, NormalSign, SignText, UnitLength;
    if s != [] { FirstSign(s, k); }
    if r != [] { FirstSign(r, k); }
    if s != [] && r != [] {
      var x, y := s[UnitLength(s)..], r[UnitLength(r)..];
      SameCons(NormalSign(s), Signs(x), NormalSign(r), Signs(y));
      NormalDetermined(x, y, k);
    }
  }

  /** Two texts have one normal form exactly when they say the same. */
  lemma SameNormalForm(s: string, r: string, k: Component)
    requires Normalise(s, k).Ok? && Normalise(r, k).Ok?
    ensures Normalise(s, k) == Normalise(r, k) <==> Signs(s) == Signs(r)
  {
    SignsKept(s, k);
    SignsKept(r, k);
    NormaliseIsNormal(s, k);
    NormaliseIsNormal(r, k);
    if Signs(s) == Signs(r) { NormalDetermined(Normalise(s, k).value, Normalise(r, k).value, k); }
  }

  // ---- what is refused ----

  /** Every percent sign starts an escape, and every other character is allowed here or is beyond ASCII. */
  predicate WellSpelled(s: string, k: Component) {
    forall i :: 0 <= i < |s| ==>
      if s[i] == '%' then EscapeAhead(s[i..]) else Literal(k, s[i]) || s[i] as int > 0x7F
  }

  lemma HexIsLiteral(c: char, k: Component)
    requires IsHex(c)
    ensures Literal(k, c) && c != '%'
  {
  }

  lemma WellSpelledRest(s: string, n: nat, k: Component)
    requires n <= |s| && (n == 1 || n == 3)
    requires if n == 3 then s[0] == '%' && EscapeAhead(s) else s[0] != '%' && (Literal(k, s[0]) || s[0] as int > 0x7F)
    ensures WellSpelled(s, k) <==> WellSpelled(s[n..], k)
  {
    hide Literal;
    if n == 3 {
      HexIsLiteral(s[1], k);
      HexIsLiteral(s[2], k);
    }
    forall i | 0 <= i < |s| - n ensures s[n..][i] == s[i + n] && s[n..][i..] == s[i + n..] {}
    if WellSpelled(s[n..], k) {
      forall i | 0 <= i < |s| ensures if s[i] == '%' then EscapeAhead(s[i..]) else Literal(k, s[i]) || s[i] as int > 0x7F {
        if i >= n { assert s[n..][i - n] == s[i]; } else { assert s[0..] == s; }
      }
    }
    if WellSpelled(s, k) {
      forall i | 0 <= i < |s| - n
        ensures if s[n..][i] == '%' then EscapeAhead(s[n..][i..]) else Literal(k, s[n..][i]) || s[n..][i] as int > 0x7F
      {
        assert s[i + n..] == s[n..][i..];
      }
    }
  }

  /** A text is accepted exactly when it is well spelled. */
  lemma {:induction false} AcceptedExact(s: string, k: Component)
    ensures Normalise(s, k).Ok? <==> WellSpelled(s, k)
    decreases |s|
  {
    hide Literal, NormalByte, EncodedBytes, Utf8, WellSpelled;
    if s != [] {
      if FirstUnit(s, k).Ok? {
        var n := FirstUnit(s, k).value.1;
        WellSpelledRest(s, n, k);
        AcceptedExact(s[n..], k);
      } else {
        BadStart(s, k);
      }
    }
    if s == [] { assert WellSpelled([], k) by { NothingSpelled(k); } }
  }

  lemma NothingSpelled(k: Component)
    ensures WellSpelled([], k)
  {
  }

  lemma BadStart(s: string, k: Component)
    requires s != [] && FirstUnit(s, k).Err?
    ensures !WellSpelled(s, k)
  {
    hide Literal, NormalByte, EncodedBytes, Utf8;
    assert s[0..] == s;
  }
}
