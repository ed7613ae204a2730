/** Reading canonical text gives back the value, for every value the emitter accepts. */
module JsonRoundTrip {
  import opened Wrappers
  import opened Texts
  import opened Ordering
  import opened Json
  import opened JsonParser

  /** What may follow a value inside canonical text: nothing that could extend a number. */
  predicate Closed(rest: string) {
    rest == [] || rest[0] == ',' || rest[0] == ']' || rest[0] == '}'
  }

  /** The tree the parser builds from the canonical text of v: members in canonical order. */
  function RawOf(v: Json): Raw
    decreases v
  {
    match v
    case JNull => RNull
    case JBool(b) => RBool(b)
    case JInt(n) => RInt(n)
    case JStr(s) => RStr(CodePoints(s))
    case JArr(items) => RArr(RawItems(items))
    case JObj(members) => RObj(RawPairs(v, MemberOrder(members)))
  }

  function RawItems(items: seq<Json>): seq<Raw>
    decreases items
  {
    if items == [] then [] else [RawOf(items[0])] + RawItems(items[1..])
  }

  function RawPairs(v: Json, keys: seq<string>): (pairs: seq<Pair>)
    requires v.JObj? && forall k :: k in keys ==> k in v.members
    ensures |pairs| == |keys| && forall i :: 0 <= i < |keys| ==> pairs[i].key == CodePoints(keys[i])
    decreases v, |keys|
  {
    if keys == [] then [] else [Pair(CodePoints(keys[0]), RawOf(v.members[keys[0]]))] + RawPairs(v, keys[1..])
  }

  // ---- strings ----

  lemma ScanEscapedChar(c: char, t: string)
    ensures var s := EscapeChar(c) + t; s[0] != '"' && ScanChar(s) == Ok(Parsed(c as int, t))
  {
    var e := EscapeChar(c);
    var s := e + t;
    assert s[|e|..] == t;
    if |e| == 6 {
      var n := c as int;
      assert s[2] == '0' && s[3] == '0' && s[4] == HexDigit(n / 16) && s[5] == HexDigit(n % 16);
      assert HexValue(s[4]) == n / 16 && HexValue(s[5]) == n % 16;
      assert UnitAt(s) == Some(n);
    }
  }

  lemma {:induction false} ScanEscaped(s: string, rest: string)
    ensures ScanString(Escape(s) + "\"" + rest) == Ok(Parsed(CodePoints(s), rest))
  {
    if s == [] {
      assert Escape(s) + "\"" + rest == "\"" + rest;
      assert ("\"" + rest)[1..] == rest;
    } else {
      var t := Escape(s[1..]) + "\"" + rest;
      ScanEscaped(s[1..], rest);
      ScanEscapedChar(s[0], t);
      assert Escape(s) + "\"" + rest == EscapeChar(s[0]) + t;
    }
  }

  lemma ScanQuoted(s: string, rest: string)
    ensures var t := Quote(s) + rest; t[0] == '"' && ScanString(t[1..]) == Ok(Parsed(CodePoints(s), rest))
  {
    hide ScanString, Escape, CodePoints;
    ScanEscaped(s, rest);
    assert (Quote(s) + rest)[1..] == Escape(s) + "\"" + rest;
  }

  // ---- numbers ----

  lemma {:induction false} DigitRunStops(s: string, rest: string)
    requires AllDigits(s) && (rest == [] || !IsDigit(rest[0]))
    ensures DigitRun(s + rest) == |s|
  {
    if s != [] {
      DigitRunStops(s[1..], rest);
      assert (s + rest)[1..] == s[1..] + rest;
    } else {
      assert s + rest == rest;
    }
  }

  lemma Pow10Sixteen()
    ensures Pow10(16) == 10000000000000000
  {
    assert Pow10(4) == 10000;
    assert Pow10(8) == 100000000;
    assert Pow10(12) == 1000000000000;
  }

  lemma ParseIntDigits(negative: bool, d: string)
    requires AllDigits(d) && NoLeadingZero(d) && Number(d) <= MAX_SAFE_INT
    ensures ParseInt(negative, d) == Ok(if negative then 0 - Number(d) else Number(d))
  {
    Pow10Sixteen();
    DigitCount(d, 16);
  }

  lemma ParseDigits(negative: bool, d: string, rest: string)
    requires AllDigits(d) && NoLeadingZero(d) && Closed(rest) && Number(d) <= MAX_SAFE_INT
    ensures ParseUnsigned(negative, d + rest) == Ok(Parsed(RInt(if negative then 0 - Number(d) else Number(d)), rest))
  {
    hide ParseInt, Number;
    DigitRunStops(d, rest);
    ParseIntDigits(negative, d);
    var t := d + rest;
    assert t[|d|..] == rest && t[..|d|] == d && t[0] == d[0];
  }

  lemma ParseIntText(n: int, rest: string)
    requires -MAX_SAFE_INT <= n <= MAX_SAFE_INT && Closed(rest)
    ensures ParseNumber(IntText(n) + rest) == Ok(Parsed(RInt(n), rest))
  {
    hide ParseUnsigned, Digits, Number;
    var d := Digits(if n < 0 then -n else n);
    NumberOfDigits(if n < 0 then -n else n);
    ParseDigits(n < 0, d, rest);
    var s := IntText(n) + rest;
    if n < 0 {
      assert s == "-" + (d + rest) && s[1..] == d + rest;
    } else {
      assert s == d + rest && s[0] == d[0];
    }
  }

  // ---- values ----

  lemma SkipNothing(s: string)
    requires s == [] || !IsSpace(s[0])
    ensures SkipSpace(s) == s
  {
  }

  lemma TextStart(v: Json)
    ensures Text(v) != [] && !IsSpace(Text(v)[0]) && Text(v)[0] != ']' && Text(v)[0] != '}'
  {
    if v.JInt? { assert v.n >= 0 ==> IsDigit(Digits(v.n)[0]); }
  }

  lemma {:induction false} ItemsStart(items: seq<Json>)
    requires items != []
    ensures ItemsText(items) != [] && ItemsText(items)[0] == Text(items[0])[0]
  {
    TextStart(items[0]);
  }

  lemma {:induction false} KeysDistinct(v: Json, keys: seq<string>)
    requires v.JObj? && keys == MemberOrder(v.members)
    ensures !HasDuplicate(RawPairs(v, keys))
  {
    SortSetSorts(ByUtf16, v.members.Keys);
    var pairs := RawPairs(v, keys);
    forall i, j | 0 <= i < j < |pairs| ensures pairs[i].key != pairs[j].key {
      LessAsymmetric(ByUtf16, keys[i], keys[j]);
      if pairs[i].key == pairs[j].key { KeyInjective(ByCodePoint, keys[i], keys[j]); }
    }
  }

  lemma {:induction false} ParseText(v: Json, rest: string)
    requires InRange(v) && Closed(rest)
    ensures ParseValue(Text(v) + rest) == Ok(Parsed(RawOf(v), rest))
    decreases v, 1
  {
    var s := Text(v) + rest;
    match v {
      case JNull => assert s[..4] == "null" && s[4..] == rest;
      case JBool(b) =>
        if b { assert s[..4] == "true" && s[4..] == rest; }
        else { assert s[..5] == "false" && s[5..] == rest; }
      case JInt(n) => ParseIntValue(n, rest);
      case JStr(t) => ScanQuoted(t, rest);
      case JArr(items) => ParseArray(v, rest);
      case JObj(members) => ParseObject(v, rest);
    }
  }

  lemma NotPrefix(s: string, p: string, i: nat)
    requires i < |s| && i < |p| && s[i] != p[i]
    ensures !StartsWith(s, p)
  {
    assert |p| <= |s| ==> s[..|p|][i] == s[i];
  }

  lemma ParseIntValue(n: int, rest: string)
    requires -MAX_SAFE_INT <= n <= MAX_SAFE_INT && Closed(rest)
    ensures ParseValue(IntText(n) + rest) == Ok(Parsed(RInt(n), rest))
  {
    hide ParseNumber;
    ParseIntText(n, rest);
    var s := IntText(n) + rest;
    assert s[0] == IntText(n)[0];
    assert s[0] == '-' || IsDigit(s[0]);
    NotPrefix(s, "null", 0);
    NotPrefix(s, "true", 0);
    NotPrefix(s, "false", 0);
    NotPrefix(s, "NaN", 0);
    NotPrefix(s, "Infinity", 0);
    if n < 0 {
      assert s[1] == Digits(-n)[0];
      NotPrefix(s, "-Infinity", 1);
    } else {
      NotPrefix(s, "-Infinity", 0);
    }
  }

  lemma EmptyArray(rest: string)
    ensures ParseValue("[" + "]" + rest) == Ok(Parsed(RArr([]), rest))
  {
    var s := "[" + "]" + rest;
    assert s[1..] == "]" + rest && s[1..][1..] == rest;
  }

  lemma FullArray(body: string, items: seq<Raw>, rest: string)
    requires body != "" && body[0] != ']' && !IsSpace(body[0])
    requires ParseItems(body) == Ok(Parsed(items, rest))
    ensures ParseValue("[" + body) == Ok(Parsed(RArr(items), rest))
  {
    assert ("[" + body)[1..] == body;
    SkipNothing(body);
  }

  lemma ArrayText(v: Json, rest: string)
    requires v.JArr?
    ensures Text(v) + rest == if v.items == [] then "[" + "]" + rest else "[" + (ItemsText(v.items) + "]" + rest)
  {
    if v.items == [] { assert ItemsText(v.items) == ""; }
  }

  lemma {:induction false} ParseArray(v: Json, rest: string)
    requires v.JArr? && InRange(v)
    ensures ParseValue(Text(v) + rest) == Ok(Parsed(RawOf(v), rest))
    decreases v, 0
  {
    hide ParseValue, ParseItems, Text;
    ArrayText(v, rest);
    if v.items == [] {
      EmptyArray(rest);
    } else {
      var body := ItemsText(v.items) + "]" + rest;
      ItemsStart(v.items);
      TextStart(v.items[0]);
      assert body[0] == ItemsText(v.items)[0];
      ParseItemsText(v.items, rest);
      FullArray(body, RawItems(v.items), rest);
    }
  }

  lemma LastItem(s: string, v: Raw, rest: string)
    requires ParseValue(s) == Ok(Parsed(v, "]" + rest))
    ensures ParseItems(s) == Ok(Parsed([v], rest))
  {
    assert ("]" + rest)[1..] == rest;
  }

  lemma NextItem(s: string, v: Raw, more: string, vs: seq<Raw>, rest: string)
    requires ParseValue(s) == Ok(Parsed(v, "," + more))
    requires SkipSpace(more) == more && ParseItems(more) == Ok(Parsed(vs, rest))
    ensures ParseItems(s) == Ok(Parsed([v] + vs, rest))
  {
    assert ("," + more)[1..] == more;
  }

  lemma ItemsSplit(items: seq<Json>, rest: string)
    requires items != []
    ensures ItemsText(items) + "]" + rest == Text(items[0]) +
            if |items| == 1 then "]" + rest else "," + (ItemsText(items[1..]) + "]" + rest)
  {
    hide Text;
    if |items| > 1 { CommaThenMore(Text(items[0]), ItemsText(items[1..]), rest); }
  }

  lemma CommaThenMore(t: string, m: string, rest: string)
    ensures t + "," + m + "]" + rest == t + ("," + (m + "]" + rest))
  {
  }

  lemma RawItemsSplit(items: seq<Json>)
    requires items != []
    ensures RawItems(items) == [RawOf(items[0])] + RawItems(items[1..])
    ensures |items| == 1 ==> RawItems(items) == [RawOf(items[0])]
  {
    if |items| == 1 { assert RawItems(items[1..]) == []; }
  }

  lemma {:induction false} ParseItemsText(items: seq<Json>, rest: string)
    requires items != [] && forall i :: 0 <= i < |items| ==> InRange(items[i])
    ensures ParseItems(ItemsText(items) + "]" + rest) == Ok(Parsed(RawItems(items), rest))
    decreases items
  {
    var s := ItemsText(items) + "]" + rest;
    ItemsSplit(items, rest);
    RawItemsSplit(items);
    if |items| == 1 {
      ParseText(items[0], "]" + rest);
      LastItem(s, RawOf(items[0]), rest);
    } else {
      var more := ItemsText(items[1..]) + "]" + rest;
      ParseText(items[0], "," + more);
      ItemsStart(items[1..]);
      TextStart(items[1]);
      assert more[0] == ItemsText(items[1..])[0];
      SkipNothing(more);
      ParseItemsText(items[1..], rest);
      NextItem(s, RawOf(items[0]), more, RawItems(items[1..]), rest);
    }
  }

  lemma EmptyObject(rest: string)
    ensures ParseValue("{" + "}" + rest) == Ok(Parsed(RObj([]), rest))
  {
    var s := "{" + "}" + rest;
    assert s[1..] == "}" + rest && s[1..][1..] == rest;
  }

  lemma FullObject(body: string, pairs: seq<Pair>, rest: string)
    requires body != "" && body[0] == '"' && !HasDuplicate(pairs)
    requires ParsePairs(body) == Ok(Parsed(pairs, rest))
    ensures ParseValue("{" + body) == Ok(Parsed(RObj(pairs), rest))
  {
    assert ("{" + body)[1..] == body;
    SkipNothing(body);
  }

  lemma ObjectText(v: Json, rest: string)
    requires v.JObj?
    ensures var keys := MemberOrder(v.members);
      Text(v) + rest == if keys == [] then "{" + "}" + rest else "{" + (MembersText(v, keys) + "}" + rest)
  {
    var keys := MemberOrder(v.members);
    if keys == [] { assert MembersText(v, keys) == ""; }
  }

  lemma {:induction false} ParseObject(v: Json, rest: string)
    requires v.JObj? && InRange(v)
    ensures ParseValue(Text(v) + rest) == Ok(Parsed(RawOf(v), rest))
    decreases v, 0
  {
    hide ParseValue, ParsePairs, Text;
    var keys := MemberOrder(v.members);
    ObjectText(v, rest);
    if keys == [] {
      EmptyObject(rest);
    } else {
      var body := MembersText(v, keys) + "}" + rest;
      MembersStart(v, keys);
      assert body[0] == '"';
      ParseMembersText(v, keys, rest);
      KeysDistinct(v, keys);
      FullObject(body, RawPairs(v, keys), rest);
    }
  }

  lemma PairAt(k: string, keyText: string, body: string, key: seq<int>, x: Raw, rest: string)
    requires keyText == Quote(k) + (":" + body)
    requires ScanString(keyText[1..]) == Ok(Parsed(key, ":" + body))
    requires body != "" && !IsSpace(body[0]) && ParseValue(body) == Ok(Parsed(x, rest))
    ensures ParsePair(keyText) == Ok(Parsed(Pair(key, x), rest))
  {
    assert keyText[0] == '"';
    assert (":" + body)[1..] == body;
    SkipNothing(":" + body);
    SkipNothing(body);
  }

  lemma {:induction false} ParseMember(v: Json, k: string, rest: string)
    requires v.JObj? && k in v.members && InRange(v.members[k]) && Closed(rest)
    ensures ParsePair(MemberText(v, k) + rest) == Ok(Parsed(Pair(CodePoints(k), RawOf(v.members[k])), rest))
    decreases v.members[k], 2
  {
    hide ParseValue, ParsePair, ScanString, Text, Quote, CodePoints, RawOf;
    var x := v.members[k];
    var body := Text(x) + rest;
    ScanQuoted(k, ":" + body);
    TextStart(x);
    assert body[0] == Text(x)[0];
    ParseText(x, rest);
    assert MemberText(v, k) + rest == Quote(k) + (":" + body);
    PairAt(k, MemberText(v, k) + rest, body, CodePoints(k), RawOf(x), rest);
  }

  lemma MembersStart(v: Json, keys: seq<string>)
    requires v.JObj? && keys != [] && forall k :: k in keys ==> k in v.members
    ensures MembersText(v, keys) != [] && MembersText(v, keys)[0] == '"'
  {
    assert MemberText(v, keys[0])[0] == Quote(keys[0])[0];
  }

  lemma LastPair(s: string, p: Pair, rest: string)
    requires ParsePair(s) == Ok(Parsed(p, "}" + rest))
    ensures ParsePairs(s) == Ok(Parsed([p], rest))
  {
    assert ("}" + rest)[1..] == rest;
  }

  lemma NextPair(s: string, p: Pair, more: string, ps: seq<Pair>, rest: string)
    requires ParsePair(s) == Ok(Parsed(p, "," + more))
    requires SkipSpace(more) == more && ParsePairs(more) == Ok(Parsed(ps, rest))
    ensures ParsePairs(s) == Ok(Parsed([p] + ps, rest))
  {
    assert ("," + more)[1..] == more;
  }

  lemma MembersSplit(v: Json, keys: seq<string>, rest: string)
    requires v.JObj? && keys != [] && forall k :: k in keys ==> k in v.members
    ensures MembersText(v, keys) + "}" + rest == MemberText(v, keys[0]) +
            if |keys| == 1 then "}" + rest else "," + (MembersText(v, keys[1..]) + "}" + rest)
  {
    hide MemberText;
  }

  function RawPair(v: Json, k: string): Pair
    requires v.JObj? && k in v.members
  {
    Pair(CodePoints(k), RawOf(v.members[k]))
  }

  lemma RawPairsSplit(v: Json, keys: seq<string>)
    requires v.JObj? && keys != [] && forall k :: k in keys ==> k in v.members
    ensures RawPairs(v, keys) == [RawPair(v, keys[0])] + RawPairs(v, keys[1..])
    ensures |keys| == 1 ==> RawPairs(v, keys) == [RawPair(v, keys[0])]
  {
  }

  lemma {:induction false} ParseMembersText(v: Json, keys: seq<string>, rest: string)
    requires v.JObj? && keys != [] && forall k :: k in keys ==> k in v.members && InRange(v.members[k])
    ensures ParsePairs(MembersText(v, keys) + "}" + rest) == Ok(Parsed(RawPairs(v, keys), rest))
    decreases v, 0, |keys|
  {
    var s := MembersText(v, keys) + "}" + rest;
    MembersSplit(v, keys, rest);
    RawPairsSplit(v, keys);
    if |keys| == 1 {
      ParseMember(v, keys[0], "}" + rest);
      LastPair(s, RawPair(v, keys[0]), rest);
    } else {
      var more := MembersText(v, keys[1..]) + "}" + rest;
      ParseMember(v, keys[0], "," + more);
      MembersStart(v, keys[1..]);
      SkipNothing(more);
      ParseMembersText(v, keys[1..], rest);
      NextPair(s, RawPair(v, keys[0]), more, RawPairs(v, keys[1..]), rest);
    }
  }

  // ---- the checks after parsing ----

  lemma {:induction false} DecodeCodePoints(s: string)
    ensures Decode(CodePoints(s)) == Some(s)
  {
    if s != [] {
      DecodeCodePoints(s[1..]);
      assert [s[0]] + s[1..] == s;
    }
  }

  lemma {:induction false} CheckRaw(v: Json, depth: nat)
    ensures Check(RawOf(v), depth) == if depth + Depth(v) <= MAX_DEPTH then Ok(v) else Err(TOO_DEEP)
    decreases v, 1
  {
    match v {
      case JStr(s) => DecodeCodePoints(s);
      case JArr(items) => CheckRawItems(items, depth + 1);
      case JObj(members) => CheckRawObject(v, depth);
      case _ =>
    }
  }

  function Members(v: Json, keys: seq<string>): map<string, Json>
    requires v.JObj? && forall k :: k in keys ==> k in v.members
  {
    map k | k in keys :: v.members[k]
  }

  lemma {:induction false} CheckRawObject(v: Json, depth: nat)
    requires v.JObj?
    ensures Check(RawOf(v), depth) == if depth + Depth(v) <= MAX_DEPTH then Ok(v) else Err(TOO_DEEP)
    decreases v, 0, |MemberOrder(v.members)| + 1
  {
    var keys := MemberOrder(v.members);
    CheckRawPairs(v, keys, depth + 1);
    assert Members(v, keys) == v.members;
    assert keys == [] ==> Depth(v) == 0;
  }

  lemma {:induction false} CheckRawItems(items: seq<Json>, depth: nat)
    requires depth > 0
    ensures CheckItems(RawItems(items), depth) ==
            if items == [] || depth - 1 + DepthItems(items) <= MAX_DEPTH then Ok(items) else Err(TOO_DEEP)
    decreases items
  {
    if items != [] {
      CheckRaw(items[0], depth);
      CheckRawItems(items[1..], depth);
      assert RawItems(items)[1..] == RawItems(items[1..]);
      assert [items[0]] + items[1..] == items;
    }
  }

  lemma CheckFirstPair(v: Json, keys: seq<string>, depth: nat)
    requires v.JObj? && keys != [] && forall k :: k in keys ==> k in v.members
    ensures CheckPair(RawPairs(v, keys)[0], depth) == match Check(RawOf(v.members[keys[0]]), depth)
      case Ok(x) => Ok((keys[0], x))
      case Err(code) => Err(code)
  {
    DecodeCodePoints(keys[0]);
  }

  lemma {:induction false} CheckRawPairs(v: Json, keys: seq<string>, depth: nat)
    requires v.JObj? && depth > 0 && forall k :: k in keys ==> k in v.members
    ensures CheckPairs(RawPairs(v, keys), depth) ==
            if keys == [] || depth - 1 + DepthMembers(v, keys) <= MAX_DEPTH
            then Ok(Members(v, keys)) else Err(TOO_DEEP)
    decreases v, 0, |keys|
  {
    if keys == [] {
      assert Members(v, keys) == map[];
    } else {
      var k := keys[0];
      CheckFirstPair(v, keys, depth);
      CheckRaw(v.members[k], depth);
      CheckRawPairs(v, keys[1..], depth);
      assert RawPairs(v, keys)[1..] == RawPairs(v, keys[1..]);
      assert Members(v, keys[1..])[k := v.members[k]] == Members(v, keys);
    }
  }

  // ---- the main results ----

  lemma ParseCanonical(v: Json)
    requires InRange(v)
    ensures ParseDocument(Text(v)) == Ok(RawOf(v))
  {
    TextStart(v);
    ParseText(v, []);
    SkipNothing(Text(v));
    assert Text(v) + [] == Text(v);
  }

  /** Reading canonical text succeeds exactly within the size and depth limits, and then gives the value back. */
  lemma RoundTrip(v: Json, maxBytes: nat)
    requires Jcs(v).Ok?
    ensures LoadsStrict(Jcs(v).value, maxBytes) == Ok(v)
            <==> Utf8Length(Text(v)) <= maxBytes && Depth(v) <= MAX_DEPTH
  {
    ParseCanonical(v);
    CheckRaw(v, 0);
  }

  lemma {:induction false} RawOfInjective(v: Json, w: Json)
    requires RawOf(v) == RawOf(w)
    ensures v == w
    decreases v, 1
  {
    match v {
      case JStr(s) => KeyInjective(ByCodePoint, s, w.s);
      case JArr(items) => RawItemsInjective(items, w.items);
      case JObj(members) =>
        var keys, others := MemberOrder(members), MemberOrder(w.members);
        RawPairsInjective(v, keys, w, others);
        assert members.Keys == w.members.Keys;
      case _ =>
    }
  }

  lemma {:induction false} RawItemsInjective(items: seq<Json>, others: seq<Json>)
    requires RawItems(items) == RawItems(others)
    ensures items == others
    decreases items
  {
    if items != [] && others != [] {
      assert RawItems(items)[0] == RawItems(others)[0];
      assert RawItems(items)[1..] == RawItems(items[1..]) && RawItems(others)[1..] == RawItems(others[1..]);
      RawOfInjective(items[0], others[0]);
      RawItemsInjective(items[1..], others[1..]);
      assert items == [items[0]] + items[1..] && others == [others[0]] + others[1..];
    }
  }

  lemma {:induction false} RawPairsInjective(v: Json, keys: seq<string>, w: Json, others: seq<string>)
    requires v.JObj? && forall k :: k in keys ==> k in v.members
    requires w.JObj? && forall k :: k in others ==> k in w.members
    requires RawPairs(v, keys) == RawPairs(w, others)
    ensures keys == others
    ensures forall k :: k in keys ==> k in w.members && v.members[k] == w.members[k]
    decreases v, 0, |keys|
  {
    assert |keys| == |RawPairs(v, keys)| == |RawPairs(w, others)| == |others|;
    if keys != [] {
      var p, q := RawPairs(v, keys), RawPairs(w, others);
      assert p[0] == q[0];
      KeyInjective(ByCodePoint, keys[0], others[0]);
      RawOfInjective(v.members[keys[0]], w.members[keys[0]]);
      assert p[1..] == RawPairs(v, keys[1..]) && q[1..] == RawPairs(w, others[1..]);
      RawPairsInjective(v, keys[1..], w, others[1..]);
      assert keys == [keys[0]] + keys[1..] && others == [others[0]] + others[1..];
    }
  }

  /** Canonical text binds: no depth or size limit is needed for two values with one text to be the same value. */
  lemma JcsInjective(v: Json, w: Json)
    requires Jcs(v).Ok? && Jcs(w).Ok? && Jcs(v) == Jcs(w)
    ensures v == w
  {
    ParseCanonical(v);
    ParseCanonical(w);
    RawOfInjective(v, w);
  }
}
