/** The Unicode, IDNA and address tables the canonicalisers read, as parameters, and the laws they obey. */
module Unicode {
  import opened Wrappers
  import opened Texts

  /** nfc normalises; unassigned is category Cn; idna gives the A-label host; ipv6 the canonical address text. */
  datatype Tables = Tables(
    nfc: string -> string,
    unassigned: char -> bool,
    idna: string -> Option<string>,
    ipv6: string -> Option<string>)

  predicate Ascii(s: string) {
    forall i :: 0 <= i < |s| ==> s[i] as int < 0x80
  }

  predicate IsControl(c: char) {
    c as int < 0x20 || 0x7F <= c as int <= 0x9F
  }

  /** What the URL check refuses wherever it stands. */
  predicate Refused(c: char) { IsControl(c) || c == ' ' || c == '\\' }

  /** Characters that combine with nothing on either side. */
  predicate Inert(c: char) { c in "/%]" }

  /** Characters of an address as Python spells it, its zone aside. */
  predicate AddressChar(c: char) {
    IsHex(c) || c == ':' || c == '.'
  }

  predicate AddressText(s: string) {
    forall i :: 0 <= i < |s| ==> AddressChar(s[i])
  }

  function BeforeZone(s: string): string { s[..Until(s, "%")] }

  /** An address's zone, percent sign included; empty when there is none. */
  function Zone(s: string): (z: string)
    ensures z == "" || z[0] == '%'
    ensures s == BeforeZone(s) + z
  {
    s[Until(s, "%")..]
  }

  predicate Assigned(t: Tables, s: string) {
    forall i :: 0 <= i < |s| ==> !t.unassigned(s[i])
  }

  predicate Stable(t: Tables, s: string) { t.nfc(s) == s }

  /**
   * ASCII is assigned and stable; normalisation and the host encoding are idempotent; normalising yields no refused and no
   * unassigned character; text is stable exactly when it is so on both sides of an inert character.
   */
  ghost predicate LawsAt(t: Tables, s: string) {
    && (Ascii(s) ==> Stable(t, s) && Assigned(t, s))
    && Stable(t, t.nfc(s))
    && (Assigned(t, s) ==> Assigned(t, t.nfc(s)))
    && (forall c :: c in t.nfc(s) && Refused(c) ==> c in s)
    && (forall i :: 0 <= i < |s| && Inert(s[i]) ==> (Stable(t, s) <==> Stable(t, s[..i]) && Stable(t, s[i + 1..])))
    && (t.idna(s).Some? ==> Ascii(t.idna(s).value) && t.idna(t.idna(s).value) == t.idna(s))
  }

  ghost predicate Lawful(t: Tables) {
    forall s :: LawsAt(t, s)
  }

  /** Address text is re-spelled up to its zone, which is kept as written; re-spelling is idempotent. */
  ghost predicate AddressLawsAt(t: Tables, s: string) {
    t.ipv6(s).Some? ==>
      && AddressText(BeforeZone(t.ipv6(s).value)) && Zone(t.ipv6(s).value) == Zone(s)
      && t.ipv6(t.ipv6(s).value) == t.ipv6(s)
  }

  ghost predicate AddressLawful(t: Tables) {
    forall s :: AddressLawsAt(t, s)
  }

  lemma StableAround(t: Tables, x: string, c: char, y: string)
    requires Lawful(t) && Inert(c)
    ensures Stable(t, x + [c] + y) <==> Stable(t, x) && Stable(t, y)
  {
    var s := x + [c] + y;
    assert LawsAt(t, s);
    assert Inert(s[|x|]) && s[..|x|] == x && s[|x| + 1..] == y;
  }

  /** Text is stable exactly when each of its segments is. */
  lemma {:induction false} StableSegments(t: Tables, s: string)
    requires Lawful(t)
    ensures Stable(t, s) <==> forall p :: p in Split(s, '/') ==> Stable(t, p)
    decreases |s|
  {
    hide Stable, Lawful;
    SplitAtFirst(s, '/');
    var n := Until(s, "/");
    if n < |s| {
      var rest := Split(s[n + 1..], '/');
      StableSegments(t, s[n + 1..]);
      StableAround(t, s[..n], '/', s[n + 1..]);
      assert s == s[..n] + ['/'] + s[n + 1..];
      assert forall p :: p in [s[..n]] + rest <==> p == s[..n] || p in rest;
    }
  }

  /** Tables that keep ASCII as it is. */
  const ASCII_TABLES: Tables := Tables(
    s => s,
    c => false,
    s => if Ascii(s) then Some(s) else None,
    s => if AddressText(BeforeZone(s)) then Some(s) else None)

  lemma KeptAsIs(s: string)
    ensures Stable(ASCII_TABLES, s) && Assigned(ASCII_TABLES, s)
  {
  }

  /** The laws hold together. */
  lemma LawsHold()
    ensures Lawful(ASCII_TABLES) && AddressLawful(ASCII_TABLES)
  {
    hide Stable, Ascii, Assigned, BeforeZone, Zone, Until, AddressText, Refused, Inert;
    forall s ensures LawsAt(ASCII_TABLES, s) && AddressLawsAt(ASCII_TABLES, s) {
      KeptAsIs(s);
      forall r ensures Stable(ASCII_TABLES, r) { KeptAsIs(r); }
    }
  }
}
