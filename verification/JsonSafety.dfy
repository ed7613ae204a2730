/** Whatever the strict parser accepts has canonical text, and that text reads back as the same value. */
module JsonSafety {
  import opened Wrappers
  import opened Json
  import opened JsonParser
  import opened JsonRoundTrip

  lemma DepthOfObject(v: Json, d: nat)
    requires v.JObj? && forall k :: k in v.members ==> Depth(v.members[k]) <= d
    ensures Depth(v) <= d + 1
  {
    hide MemberOrder;
    DepthOfMembers(v, MemberOrder(v.members), d);
  }

  lemma {:induction false} DepthOfMembers(v: Json, keys: seq<string>, d: nat)
    requires v.JObj? && forall k :: k in keys ==> k in v.members && Depth(v.members[k]) <= d
    ensures DepthMembers(v, keys) <= d + 1
    decreases |keys|
  {
    if keys != [] { DepthOfMembers(v, keys[1..], d); }
  }

  // ---- the parser lets no integer out of range through ----

  predicate RawSafe(v: Raw)
    decreases v
  {
    match v
    case RInt(n) => -MAX_SAFE_INT <= n <= MAX_SAFE_INT
    case RArr(items) => forall i :: 0 <= i < |items| ==> RawSafe(items[i])
    case RObj(pairs) => forall i :: 0 <= i < |pairs| ==> PairSafe(pairs[i])
    case _ => true
  }

  predicate PairSafe(p: Pair)
    decreases p
  {
    RawSafe(p.value)
  }

  lemma NumberSafe(s: string)
    requires ParseNumber(s).Ok?
    ensures RawSafe(ParseNumber(s).value.value)
  {
  }

  lemma {:induction false} ValueSafe(s: string)
    requires ParseValue(s).Ok?
    ensures RawSafe(ParseValue(s).value.value)
    decreases |s|, 1
  {
    hide ParseNumber, ScanString, HasDuplicate, StartsWith, SkipSpace;
    if s[0] == '{' {
      var t := SkipSpace(s[1..]);
      if t == [] || t[0] != '}' { PairsSafe(t); }
    } else if s[0] == '[' {
      var t := SkipSpace(s[1..]);
      if t == [] || t[0] != ']' { ItemsSafe(t); }
    } else if ParseValue(s) == ParseNumber(s) {
      NumberSafe(s);
    }
  }

  lemma {:induction false} ItemsSafe(s: string)
    requires ParseItems(s).Ok?
    ensures forall i :: 0 <= i < |ParseItems(s).value.value| ==> RawSafe(ParseItems(s).value.value[i])
    decreases |s|, 2
  {
    hide ParseValue, SkipSpace, RawSafe;
    ValueSafe(s);
    var t := SkipSpace(ParseValue(s).value.rest);
    if t[0] == ',' { ItemsSafe(SkipSpace(t[1..])); }
  }

  lemma {:induction false} PairIsSafe(s: string)
    requires ParsePair(s).Ok?
    ensures PairSafe(ParsePair(s).value.value)
    decreases |s|, 0
  {
    hide ParseValue, SkipSpace, ScanString, RawSafe;
    ValueSafe(SkipSpace(SkipSpace(ScanString(s[1..]).value.rest)[1..]));
  }

  lemma {:induction false} PairsSafe(s: string)
    requires ParsePairs(s).Ok?
    ensures forall i :: 0 <= i < |ParsePairs(s).value.value| ==> PairSafe(ParsePairs(s).value.value[i])
    decreases |s|, 2
  {
    hide ParsePair, SkipSpace, PairSafe;
    PairIsSafe(s);
    var t := SkipSpace(ParsePair(s).value.rest);
    if t[0] == ',' { PairsSafe(SkipSpace(t[1..])); }
  }

  // ---- what the final checks let through ----

  /** Canonical JSON that fits below a level of nesting. */
  predicate FitsBelow(v: Json, depth: nat) {
    InRange(v) && depth + Depth(v) <= MAX_DEPTH
  }

  lemma {:induction false} CheckFits(v: Raw, depth: nat)
    requires RawSafe(v) && Check(v, depth).Ok?
    ensures FitsBelow(Check(v, depth).value, depth)
    decreases v
  {
    match v {
      case RArr(items) =>
        ItemsFit(items, depth + 1);
        ArrayFits(CheckItems(items, depth + 1).value, depth);
      case RObj(pairs) =>
        PairsFit(pairs, depth + 1);
        ObjectFits(CheckPairs(pairs, depth + 1).value, depth);
      case _ =>
    }
  }

  lemma ArrayFits(items: seq<Json>, depth: nat)
    requires depth <= MAX_DEPTH && forall i :: 0 <= i < |items| ==> FitsBelow(items[i], depth + 1)
    ensures FitsBelow(JArr(items), depth)
  {
    DepthOfItems(items, MAX_DEPTH - depth);
  }

  lemma {:induction false} DepthOfItems(items: seq<Json>, d: nat)
    requires forall i :: 0 <= i < |items| ==> 1 + Depth(items[i]) <= d
    ensures DepthItems(items) <= d
  {
    if items != [] { DepthOfItems(items[1..], d); }
  }

  lemma ObjectFits(members: map<string, Json>, depth: nat)
    requires depth <= MAX_DEPTH && forall k :: k in members ==> FitsBelow(members[k], depth + 1)
    ensures FitsBelow(JObj(members), depth)
  {
    hide MemberOrder;
    DepthOfMembersWithin(JObj(members), MemberOrder(members), MAX_DEPTH - depth);
  }

  lemma {:induction false} DepthOfMembersWithin(v: Json, keys: seq<string>, d: nat)
    requires v.JObj? && forall k :: k in keys ==> k in v.members && 1 + Depth(v.members[k]) <= d
    ensures DepthMembers(v, keys) <= d
    decreases |keys|
  {
    if keys != [] { DepthOfMembersWithin(v, keys[1..], d); }
  }

  lemma {:induction false} ItemsFit(items: seq<Raw>, depth: nat)
    requires (forall i :: 0 <= i < |items| ==> RawSafe(items[i])) && CheckItems(items, depth).Ok?
    ensures forall i :: 0 <= i < |CheckItems(items, depth).value| ==> FitsBelow(CheckItems(items, depth).value[i], depth)
    decreases items
  {
    hide FitsBelow, RawSafe;
    if items != [] {
      CheckFits(items[0], depth);
      ItemsFit(items[1..], depth);
    }
  }

  lemma {:induction false} PairsFit(pairs: seq<Pair>, depth: nat)
    requires (forall i :: 0 <= i < |pairs| ==> PairSafe(pairs[i])) && CheckPairs(pairs, depth).Ok?
    ensures var m := CheckPairs(pairs, depth).value; forall k :: k in m ==> FitsBelow(m[k], depth)
    decreases pairs
  {
    hide FitsBelow, RawSafe;
    if pairs != [] {
      assert PairSafe(pairs[0]) && pairs[0].value < pairs[0];
      CheckFits(pairs[0].value, depth);
      PairsFit(pairs[1..], depth);
    }
  }

  /** An accepted text denotes a value within the limits, so its canonical text exists and reads back as that value. */
  lemma AcceptedIsCanonicalisable(text: string, maxBytes: nat)
    requires LoadsStrict(text, maxBytes).Ok?
    ensures var v := LoadsStrict(text, maxBytes).value;
      && Jcs(v).Ok? && Depth(v) <= MAX_DEPTH
      && forall size: nat :: LoadsStrict(Jcs(v).value, size) == Ok(v) <==> Utf8Length(Text(v)) <= size
  {
    hide RawSafe, Check, Text, Utf8Length;
    var raw := ParseDocument(text).value;
    ValueSafe(SkipSpace(text));
    CheckFits(raw, 0);
    var v := Check(raw, 0).value;
    forall size: nat ensures LoadsStrict(Jcs(v).value, size) == Ok(v) <==> Utf8Length(Text(v)) <= size { RoundTrip(v, size); }
  }
}
