/** Which hosts are accepted, and what each is taken for. */
module Hosts {
  import opened Wrappers
  import opened Texts
  import opened Unicode
  import opened Url

  // ---- addresses in four decimal numbers ----

  function Quad(a: nat, b: nat, c: nat, d: nat): string {
    Join([Digits(a), Digits(b), Digits(c), Digits(d)], '.')
  }

  predicate IsQuad(s: string, a: nat, b: nat, c: nat, d: nat) {
    a <= 255 && b <= 255 && c <= 255 && d <= 255 && s == Quad(a, b, c, d)
  }

  lemma OctetExact(s: string)
    ensures IsOctet(s) <==> AllDigits(s) && Number(s) <= 255 && s == Digits(Number(s))
  {
    hide Number, Digits;
    assert Pow10(3) == 1000;
    if AllDigits(s) {
      if NoLeadingZero(s) {
        DigitsOfNumber(s);
        DigitCount(s, 3);
      }
      NumberOfDigits(Number(s));
    }
  }

  lemma OctetOf(n: nat)
    requires n <= 255
    ensures IsOctet(Digits(n)) && Free(Digits(n), '.')
  {
    hide Number, Digits;
    NumberOfDigits(n);
    OctetExact(Digits(n));
    assert forall i :: 0 <= i < |Digits(n)| ==> IsDigit(Digits(n)[i]);
  }

  /** An IPv4 text is four numbers of at most 255, in their shortest decimal spelling, between points. */
  lemma Ipv4Exact(s: string)
    ensures IsIpv4(s) <==> exists a, b, c, d :: IsQuad(s, a, b, c, d)
  {
    hide Digits, Number, IsOctet, Split, Join;
    if IsIpv4(s) {
      var parts := Split(s, '.');
      JoinSplit(s, '.');
      OctetExact(parts[0]);
      OctetExact(parts[1]);
      OctetExact(parts[2]);
      OctetExact(parts[3]);
      assert parts == [parts[0], parts[1], parts[2], parts[3]];
      assert IsQuad(s, Number(parts[0]), Number(parts[1]), Number(parts[2]), Number(parts[3]));
    }
    forall a, b, c, d | IsQuad(s, a, b, c, d) ensures IsIpv4(s) { QuadIsIpv4(a, b, c, d); }
  }

  lemma QuadIsIpv4(a: nat, b: nat, c: nat, d: nat)
    requires a <= 255 && b <= 255 && c <= 255 && d <= 255
    ensures IsIpv4(Quad(a, b, c, d))
  {
    hide Digits, IsOctet, Split, Join;
    OctetOf(a);
    OctetOf(b);
    OctetOf(c);
    OctetOf(d);
    SplitJoin([Digits(a), Digits(b), Digits(c), Digits(d)], '.');
  }

  // ---- names ----

  /** At least two labels of letters, digits and inner hyphens, the last one no number, within the length. */
  predicate IsHostName(h: string) {
    var labels := Split(h, '.');
    && |labels| >= 2 && |h| <= MAX_HOST_LENGTH && (forall i :: 0 <= i < |labels| ==> IsLabel(labels[i]))
    && IsTopLabel(labels[|labels| - 1])
  }

  function TopLabel(h: string): string { var labels := Split(h, '.'); labels[|labels| - 1] }

  lemma TopIsNoNumber(s: string)
    requires IsTopLabel(s)
    ensures !IsNumericHost(s) && !AllDigits(s)
  {
    assert !IsDigit(s[0]);
  }

  lemma NameIsNoQuad(h: string)
    requires IsIpv4(h)
    ensures !IsHostName(h) && |Split(h, '.')| == 4 && |h| <= 15 && forall l :: l in Split(h, '.') ==> IsLabel(l)
  {
    var labels := Split(h, '.');
    assert IsOctet(labels[0]) && IsOctet(labels[1]) && IsOctet(labels[2]) && IsOctet(labels[3]);
    forall l | l in labels ensures IsLabel(l) {}
    if IsTopLabel(labels[3]) { TopIsNoNumber(labels[3]); }
    JoinSplit(h, '.');
    hide Split;
    assert labels == [labels[0], labels[1], labels[2], labels[3]];
    FourJoined(labels[0], labels[1], labels[2], labels[3]);
  }

  lemma FourJoined(a: string, b: string, c: string, d: string)
    ensures |Join([a, b, c, d], '.')| == |a| + |b| + |c| + |d| + 3
  {
    assert [a, b, c, d][1..] == [b, c, d] && [b, c, d][1..] == [c, d] && [c, d][1..] == [d];
    assert Join([d], '.') == d;
    assert Join([c, d], '.') == c + ['.'] + d;
    assert Join([b, c, d], '.') == b + ['.'] + (c + ['.'] + d);
  }

  /** A text is taken for a host when it is a name, or an IPv4 address where addresses are allowed, and for nothing else. */
  lemma CheckHostExact(h: string, allowIp: bool)
    ensures CheckHost(h, allowIp).Ok? <==> IsHostName(h) || (allowIp && IsIpv4(h))
    ensures CheckHost(h, allowIp).Ok? ==> CheckHost(h, allowIp).value == h
    ensures IsIpv4(h) && !allowIp ==> CheckHost(h, allowIp) == Err("ip_literal_not_allowed")
  {
    hide IsLabel, IsTopLabel, IsNumericHost, Split, IsOctet;
    if IsIpv4(h) { NameIsNoQuad(h); }
  }

  function WithoutFinalDot(s: string): string { if s != [] && s[|s| - 1] == '.' then s[..|s| - 1] else s }

  /** A bracketed text, or one whose encoding is four decimal numbers. */
  predicate SpellsAddress(t: Tables, text: string) {
    text != [] && (text[0] == '[' || var e := t.idna(WithoutFinalDot(t.nfc(text))); e.Some? && IsIpv4(e.value))
  }

  /** What a host text encodes to: an address between brackets, or the A-labels of its normal form. */
  function Encoded(t: Tables, text: string): Option<string> {
    if Bracketed(text) then t.ipv6(Inner(text)) else t.idna(WithoutFinalDot(t.nfc(text)))
  }

  /** The host a text is taken for: an address where those are allowed, or a name. */
  predicate HostSays(t: Tables, text: string, allowIp: bool, h: string) {
    && text != [] && Encoded(t, text).Some?
    && if text[0] == '[' then allowIp && Bracketed(text) && h == "[" + Encoded(t, text).value + "]"
       else h == Encoded(t, text).value && (IsHostName(h) || (allowIp && IsIpv4(h)))
  }

  /** A host text is accepted exactly as what it says; a refused address is named as one. */
  lemma HostExact(t: Tables, text: string, allowIp: bool, h: string)
    ensures CanonicalHost(t, text, allowIp) == Ok(h) <==> HostSays(t, text, allowIp, h)
    ensures !allowIp && SpellsAddress(t, text) ==> CanonicalHost(t, text, allowIp) == Err("ip_literal_not_allowed")
  {
    hide CheckHost, IsHostName, IsIpv4;
    if text != [] && text[0] != '[' {
      var encoded := t.idna(WithoutFinalDot(t.nfc(text)));
      if encoded.Some? { CheckHostExact(encoded.value, allowIp); }
    }
  }

  predicate Opens(text: string) { text != [] && text[0] == '[' }

  /** Two accepted texts are one host exactly when both or neither are bracketed and they encode alike. */
  lemma SameHost(t: Tables, a: string, b: string, allowIp: bool)
    requires CanonicalHost(t, a, allowIp).Ok? && CanonicalHost(t, b, allowIp).Ok?
    ensures CanonicalHost(t, a, allowIp) == CanonicalHost(t, b, allowIp)
            <==> (Opens(a) <==> Opens(b)) && Encoded(t, a) == Encoded(t, b)
  {
    hide CheckHost, IsHostName, IsIpv4, CanonicalHost, Encoded;
    var g, h := CanonicalHost(t, a, allowIp).value, CanonicalHost(t, b, allowIp).value;
    HostExact(t, a, allowIp, g);
    HostExact(t, b, allowIp, h);
    if !Opens(a) { NotBracketed(g); }
    if !Opens(b) { NotBracketed(h); }
    assert Opens(a) ==> g[1..|g| - 1] == Encoded(t, a).value;
    assert Opens(b) ==> h[1..|h| - 1] == Encoded(t, b).value;
  }

  lemma NotBracketed(h: string)
    requires IsHostName(h) || IsIpv4(h)
    ensures !Opens(h)
  {
    hide IsLabel, IsTopLabel, IsNumericHost, IsOctet, Split, IsHostName;
    CheckHostExact(h, true);
    CheckedHost(h, true);
  }

  /** No address in any spelling: a name, not bracketed, no four numbers, its last label neither decimal nor hexadecimal. */
  ghost predicate NoAddress(h: string) {
    && IsHostName(h) && !IsIpv4(h) && h != [] && h[0] != '['
    && !IsNumericHost(TopLabel(h)) && !AllDigits(TopLabel(h))
    && (forall a, b, c, d :: !IsQuad(h, a, b, c, d))
  }

  /** Where addresses are not allowed, no accepted host is one. */
  lemma NamesOnly(t: Tables, text: string)
    requires CanonicalHost(t, text, false).Ok?
    ensures NoAddress(CanonicalHost(t, text, false).value)
  {
    hide IsIpv4, IsNumericHost, IsTopLabel, IsQuad;
    var h := CanonicalHost(t, text, false).value;
    HostExact(t, text, false, h);
    if IsIpv4(h) { NameIsNoQuad(h); }
    Ipv4Exact(h);
    TopIsNoNumber(TopLabel(h));
    CheckHostExact(h, false);
    CheckedHost(h, false);
  }
}
