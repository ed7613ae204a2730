/** What written JSON denotes, and that loading accepts exactly the written texts that denote something within the limits. */
module JsonMeaning {
  import opened Wrappers
  import opened Texts
  import opened Ordering
  import opened Json
  import opened JsonParser
  import opened JsonRoundTrip
  import opened JsonSpelling
  import opened JsonGrammar

  // ---- what a tree denotes ----

  /** Code points that are characters: no surrogate is one. */
  predicate Scalars(points: seq<int>) {
    forall i :: 0 <= i < |points| ==> 0 <= points[i] < 0xD800 || 0xE000 <= points[i] < 0x11_0000
  }

  function Spell(points: seq<int>): (s: string)
    requires Scalars(points)
    ensures |s| == |points|
  {
    seq(|points|, i requires 0 <= i < |points| => points[i] as char)
  }

  /** Arrays item by item; objects as finite maps, whatever the order of their members. */
  predicate Denotes(raw: Raw, v: Json)
    decreases raw
  {
    match raw
    case RNull => v.JNull?
    case RBool(b) => v == JBool(b)
    case RInt(n) => v == JInt(n)
    case RStr(points) => Scalars(points) && v == JStr(Spell(points))
    case RArr(items) => v.JArr? && |v.items| == |items| && forall i :: 0 <= i < |items| ==> Denotes(items[i], v.items[i])
    case RObj(pairs) =>
      v.JObj? && (forall i :: 0 <= i < |pairs| ==> DenotesMember(pairs[i], v.members)) && OnlyNamed(pairs, v.members.Keys)
  }

  predicate DenotesMember(p: Pair, members: map<string, Json>)
    decreases p
  {
    Scalars(p.key) && Spell(p.key) in members && Denotes(p.value, members[Spell(p.key)])
  }

  predicate OnlyNamed(pairs: seq<Pair>, names: set<string>) {
    forall k :: k in names ==> exists i :: 0 <= i < |pairs| && Named(pairs[i], k)
  }

  predicate Named(p: Pair, k: string) { Scalars(p.key) && Spell(p.key) == k }

  /** No string in it holds a surrogate. */
  predicate WholeText(raw: Raw)
    decreases raw
  {
    match raw
    case RStr(points) => Scalars(points)
    case RArr(items) => forall i :: 0 <= i < |items| ==> WholeText(items[i])
    case RObj(pairs) => forall i :: 0 <= i < |pairs| ==> WholePair(pairs[i])
    case _ => true
  }

  predicate WholePair(p: Pair)
    decreases p
  {
    Scalars(p.key) && WholeText(p.value)
  }

  /** It lies at this depth, and nothing in it is nested deeper than the limit. */
  predicate Shallow(raw: Raw, depth: nat)
    decreases raw
  {
    depth <= MAX_DEPTH &&
    match raw
    case RArr(items) => forall i :: 0 <= i < |items| ==> Shallow(items[i], depth + 1)
    case RObj(pairs) => forall i :: 0 <= i < |pairs| ==> ShallowPair(pairs[i], depth + 1)
    case _ => true
  }

  predicate ShallowPair(p: Pair, depth: nat)
    decreases p
  {
    Shallow(p.value, depth)
  }

  // ---- the checks made after parsing ----

  lemma {:induction false} DecodeExact(points: seq<int>)
    ensures Decode(points) == if Scalars(points) then Some(Spell(points)) else None
  {
    if points != [] {
      DecodeExact(points[1..]);
      assert Scalars(points) <==> IsScalar(points[0]) && Scalars(points[1..]);
      if Scalars(points) { assert Spell(points) == [points[0] as char] + Spell(points[1..]); }
    }
  }

  /** Why a check refuses: depth if the text is whole, a surrogate if it is shallow. */
  predicate Refuses<T>(r: Result<T>, whole: bool, shallow: bool) {
    && (r.Ok? <==> whole && shallow)
    && (r.Err? ==> (r.code == TOO_DEEP && !shallow) || (r.code == LONE_SURROGATE && !whole))
  }

  lemma {:induction false} CheckExact(raw: Raw, depth: nat)
    ensures Refuses(Check(raw, depth), WholeText(raw), Shallow(raw, depth))
    decreases raw
  {
    if depth <= MAX_DEPTH {
      match raw {
        case RStr(points) => DecodeExact(points);
        case RArr(items) => CheckItemsExact(items, depth + 1);
        case RObj(pairs) => CheckPairsExact(pairs, depth + 1);
        case _ =>
      }
    }
  }

  lemma {:induction false} CheckItemsExact(items: seq<Raw>, depth: nat)
    ensures Refuses(CheckItems(items, depth), forall i :: 0 <= i < |items| ==> WholeText(items[i]),
                    forall i :: 0 <= i < |items| ==> Shallow(items[i], depth))
    decreases items
  {
    hide Check, WholeText, Shallow;
    if items != [] {
      CheckExact(items[0], depth);
      CheckItemsExact(items[1..], depth);
      AllOfItems(items, depth);
    }
  }

  lemma AllOfItems(items: seq<Raw>, depth: nat)
    requires items != []
    ensures (forall i :: 0 <= i < |items| ==> WholeText(items[i])) <==>
            WholeText(items[0]) && forall i :: 0 <= i < |items[1..]| ==> WholeText(items[1..][i])
    ensures (forall i :: 0 <= i < |items| ==> Shallow(items[i], depth)) <==>
            Shallow(items[0], depth) && forall i :: 0 <= i < |items[1..]| ==> Shallow(items[1..][i], depth)
  {
    hide WholeText, Shallow;
    assert items == [items[0]] + items[1..];
  }

  lemma {:induction false} CheckPairExact(p: Pair, depth: nat)
    ensures Refuses(CheckPair(p, depth), WholePair(p), ShallowPair(p, depth))
    decreases p
  {
    hide Check, WholeText, Shallow;
    DecodeExact(p.key);
    CheckExact(p.value, depth);
  }

  lemma {:induction false} CheckPairsExact(pairs: seq<Pair>, depth: nat)
    ensures Refuses(CheckPairs(pairs, depth), forall i :: 0 <= i < |pairs| ==> WholePair(pairs[i]),
                    forall i :: 0 <= i < |pairs| ==> ShallowPair(pairs[i], depth))
    decreases pairs
  {
    hide CheckPair, WholePair, ShallowPair;
    if pairs != [] {
      CheckPairExact(pairs[0], depth);
      CheckPairsExact(pairs[1..], depth);
      AllOfPairs(pairs, depth);
    }
  }

  lemma AllOfPairs(pairs: seq<Pair>, depth: nat)
    requires pairs != []
    ensures (forall i :: 0 <= i < |pairs| ==> WholePair(pairs[i])) <==>
            WholePair(pairs[0]) && forall i :: 0 <= i < |pairs[1..]| ==> WholePair(pairs[1..][i])
    ensures (forall i :: 0 <= i < |pairs| ==> ShallowPair(pairs[i], depth)) <==>
            ShallowPair(pairs[0], depth) && forall i :: 0 <= i < |pairs[1..]| ==> ShallowPair(pairs[1..][i], depth)
  {
    hide WholePair, ShallowPair;
    assert pairs == [pairs[0]] + pairs[1..];
  }

  /** No object names a member twice. */
  predicate Unique(raw: Raw)
    decreases raw
  {
    match raw
    case RArr(items) => forall i :: 0 <= i < |items| ==> Unique(items[i])
    case RObj(pairs) => DistinctNames(pairs) && forall i :: 0 <= i < |pairs| ==> UniquePair(pairs[i])
    case _ => true
  }

  predicate UniquePair(p: Pair)
    decreases p
  {
    Unique(p.value)
  }

  predicate DistinctNames(pairs: seq<Pair>) {
    forall i, j :: 0 <= i < j < |pairs| ==> pairs[i].key != pairs[j].key
  }

  lemma {:induction false} CheckDenotes(raw: Raw, depth: nat)
    requires Unique(raw) && Check(raw, depth).Ok?
    ensures Denotes(raw, Check(raw, depth).value)
    decreases raw
  {
    match raw {
      case RStr(points) => DecodeExact(points);
      case RArr(items) => ItemsDenote(items, depth + 1);
      case RObj(pairs) => PairsDenote(pairs, depth + 1);
      case _ =>
    }
  }

  lemma {:induction false} ItemsDenote(items: seq<Raw>, depth: nat)
    requires (forall i :: 0 <= i < |items| ==> Unique(items[i])) && CheckItems(items, depth).Ok?
    ensures var vs := CheckItems(items, depth).value;
      |vs| == |items| && forall i :: 0 <= i < |items| ==> Denotes(items[i], vs[i])
    decreases items
  {
    hide Check, Unique, Denotes;
    if items != [] {
      CheckDenotes(items[0], depth);
      ItemsDenote(items[1..], depth);
    }
  }

  lemma {:induction false} PairDenotes(p: Pair, depth: nat)
    requires UniquePair(p) && CheckPair(p, depth).Ok?
    ensures var m := CheckPair(p, depth).value; Named(p, m.0) && Denotes(p.value, m.1)
    decreases p
  {
    hide Check, Unique, Denotes;
    DecodeExact(p.key);
    CheckDenotes(p.value, depth);
  }

  lemma {:induction false} PairsDenote(pairs: seq<Pair>, depth: nat)
    requires DistinctNames(pairs) && (forall i :: 0 <= i < |pairs| ==> UniquePair(pairs[i])) && CheckPairs(pairs, depth).Ok?
    ensures var m := CheckPairs(pairs, depth).value;
      OnlyNamed(pairs, m.Keys) && forall i :: 0 <= i < |pairs| ==> DenotesMember(pairs[i], m)
    decreases pairs
  {
    hide CheckPair, UniquePair;
    if pairs != [] {
      var first, rest := pairs[0], pairs[1..];
      PairDenotes(first, depth);
      PairsDenote(rest, depth);
      var named, others := CheckPair(first, depth).value, CheckPairs(rest, depth).value;
      OneMoreMember(pairs, named.0, named.1, others);
    }
  }

  lemma SpellInjective(p: seq<int>, q: seq<int>)
    requires Scalars(p) && Scalars(q) && Spell(p) == Spell(q)
    ensures p == q
  {
    forall i | 0 <= i < |p| ensures p[i] == q[i] { assert Spell(p)[i] == Spell(q)[i]; }
  }

  lemma OneMoreMember(pairs: seq<Pair>, k: string, v: Json, others: map<string, Json>)
    requires pairs != [] && DistinctNames(pairs) && Named(pairs[0], k) && Denotes(pairs[0].value, v)
    requires OnlyNamed(pairs[1..], others.Keys) && forall i :: 0 <= i < |pairs| - 1 ==> DenotesMember(pairs[1..][i], others)
    ensures var m := others[k := v];
      OnlyNamed(pairs, m.Keys) && forall i :: 0 <= i < |pairs| ==> DenotesMember(pairs[i], m)
  {
    hide Denotes, Scalars, Spell;
    var m := others[k := v];
    forall n | n in m ensures exists i :: 0 <= i < |pairs| && Named(pairs[i], n) {
      if n == k {
        assert Named(pairs[0], n);
      } else {
        var i :| 0 <= i < |pairs| - 1 && Named(pairs[1..][i], n);
        assert Named(pairs[i + 1], n);
      }
    }
    forall i | 0 <= i < |pairs| ensures DenotesMember(pairs[i], m) {
      if i > 0 {
        assert DenotesMember(pairs[1..][i - 1], others) && pairs[1..][i - 1] == pairs[i];
        if Spell(pairs[i].key) == k { SpellInjective(pairs[0].key, pairs[i].key); }
      }
    }
  }

  /** A tree denotes at most one value. */
  lemma {:induction false} DenotesOne(raw: Raw, v: Json, w: Json)
    requires Denotes(raw, v) && Denotes(raw, w)
    ensures v == w
    decreases raw
  {
    match raw {
      case RArr(items) =>
        forall i | 0 <= i < |items| ensures v.items[i] == w.items[i] { DenotesOne(items[i], v.items[i], w.items[i]); }
      case RObj(pairs) =>
        forall k | k in v.members ensures k in w.members && w.members[k] == v.members[k] { MemberDenotesOne(pairs, v.members, w.members, k); }
        forall k | k in w.members ensures k in v.members { MemberDenotesOne(pairs, w.members, v.members, k); }
        assert v.members.Keys == w.members.Keys;
        assert v.members == w.members;
      case _ =>
    }
  }

  lemma {:induction false} MemberDenotesOne(pairs: seq<Pair>, m: map<string, Json>, n: map<string, Json>, k: string)
    requires (forall i :: 0 <= i < |pairs| ==> DenotesMember(pairs[i], m)) && OnlyNamed(pairs, m.Keys)
    requires (forall i :: 0 <= i < |pairs| ==> DenotesMember(pairs[i], n)) && k in m
    ensures k in n && n[k] == m[k]
    decreases pairs
  {
    hide Denotes;
    var i :| 0 <= i < |pairs| && Named(pairs[i], k);
    assert DenotesMember(pairs[i], m) && DenotesMember(pairs[i], n);
    DenotesOne(pairs[i].value, m[k], n[k]);
  }

  // ---- loading ----

  lemma {:induction false} ReadingUnique(f: Form)
    requires Written(f) && Reading(f).Ok?
    ensures Unique(Reading(f).value)
    decreases f
  {
    match f {
      case ListForm(items, _) => ReadingItemsUnique(items);
      case RecordForm(fields, _) =>
        ReadingFieldsUnique(fields);
        NoneRepeats(fields, ReadingFields(fields).value);
      case _ =>
    }
  }

  lemma NoneRepeats(fields: seq<Field>, pairs: seq<Pair>)
    requires !Repeats(fields) && |pairs| == |fields| && forall i :: 0 <= i < |fields| ==> pairs[i].key == fields[i].name.points
    ensures DistinctNames(pairs)
  {
  }

  lemma {:induction false} ReadingItemsUnique(items: seq<Item>)
    requires (forall i :: 0 <= i < |items| ==> WrittenItem(items[i])) && ReadingItems(items).Ok?
    ensures var read := ReadingItems(items).value; forall i :: 0 <= i < |read| ==> Unique(read[i])
    decreases items
  {
    hide Reading, Written, Unique;
    if items != [] {
      assert WrittenItem(items[0]);
      ReadingUnique(items[0].value);
      ReadingItemsUnique(items[1..]);
    }
  }

  lemma {:induction false} ReadingFieldsUnique(fields: seq<Field>)
    requires (forall i :: 0 <= i < |fields| ==> WrittenField(fields[i])) && ReadingFields(fields).Ok?
    ensures var read := ReadingFields(fields).value; forall i :: 0 <= i < |read| ==> UniquePair(read[i])
    decreases fields
  {
    hide Reading, Written, Unique, Spelled;
    if fields != [] {
      assert WrittenField(fields[0]);
      ReadingUnique(fields[0].value);
      ReadingFieldsUnique(fields[1..]);
    }
  }

  function DocumentText(lead: string, f: Form, trail: string): string { lead + (FormText(f) + trail) }

  /**
   * What loading any written text answers: too large before anything else; then the first number, constant or repeated name
   * refused in reading order; then nesting and surrogates; and otherwise the value it denotes, however it is spelled.
   */
  lemma LoadsExact(lead: string, f: Form, trail: string, maxBytes: nat)
    requires Blank(lead) && Written(f) && Blank(trail)
    ensures var text, r := DocumentText(lead, f, trail), LoadsStrict(DocumentText(lead, f, trail), maxBytes);
      if Utf8Length(text) > maxBytes then r == Err(TOO_LARGE)
      else match Reading(f)
        case Err(code) => r == Err(code)
        case Ok(raw) => Refuses(r, WholeText(raw), Shallow(raw, 0)) && (r.Ok? ==> Denotes(raw, r.value))
  {
    hide ParseDocument, FormText, Written, Reading, Utf8Length, Check, Denotes, Unique, WholeText, Shallow;
    DocumentRead(lead, f, trail);
    if Reading(f).Ok? {
      CheckExact(Reading(f).value, 0);
      if Check(Reading(f).value, 0).Ok? {
        ReadingUnique(f);
        CheckDenotes(Reading(f).value, 0);
      }
    }
  }

  // ---- nothing else is accepted ----

  lemma {:induction false} SkipSplit(s: string) returns (gap: string)
    ensures Blank(gap) && s == gap + SkipSpace(s) && (SkipSpace(s) == [] || !IsSpace(SkipSpace(s)[0]))
  {
    if s == [] || !IsSpace(s[0]) {
      gap := [];
    } else {
      var more := SkipSplit(s[1..]);
      gap := [s[0]] + more;
      BlankCons(s, more, SkipSpace(s[1..]));
    }
  }

  lemma BlankCons(s: string, more: string, rest: string)
    requires s != [] && IsSpace(s[0]) && Blank(more) && s[1..] == more + rest
    ensures Blank([s[0]] + more) && s == [s[0]] + more + rest
  {
    assert s == [s[0]] + s[1..];
  }

  lemma UnsignedWritten(negative: bool, t: string) returns (digits: string)
    requires ParseUnsigned(negative, t).Ok?
    ensures AllDigits(digits) && NoLeadingZero(digits) && t == digits + ParseUnsigned(negative, t).value.rest
  {
    hide ParseInt, StartsFraction, StartsExponent;
    var n := if t[0] == '0' then 1 else DigitRun(t);
    digits := t[..n];
    assert t == t[..n] + t[n..];
  }

  lemma NumberWritten(s: string) returns (f: Form)
    requires ParseNumber(s).Ok?
    ensures Written(f) && s == FormText(f) + ParseNumber(s).value.rest
  {
    hide ParseUnsigned, AllDigits;
    var negative := s != [] && s[0] == '-';
    var digits := UnsignedWritten(negative, if negative then s[1..] else s);
    f := IntForm(negative, digits);
    SignedText(negative, digits, ParseNumber(s).value.rest);
    assert negative ==> s == "-" + s[1..];
  }

  lemma SignedText(negative: bool, digits: string, rest: string)
    ensures Sign(negative) + digits + rest == if negative then "-" + (digits + rest) else digits + rest
  {
  }

  lemma WordWritten(s: string) returns (f: Form)
    requires StartsWith(s, "null") || StartsWith(s, "true") || StartsWith(s, "false")
    requires ParseValue(s).Ok? && s[0] != '"' && s[0] != '{' && s[0] != '['
    ensures Written(f) && s == FormText(f) + ParseValue(s).value.rest
  {
    hide ParseNumber, ScanString, ParseItems, ParsePairs;
    f := if StartsWith(s, "null") then NullForm else BoolForm(StartsWith(s, "true"));
    var n := |FormText(f)|;
    assert s == s[..n] + s[n..];
  }

  lemma StringWritten(s: string) returns (f: Form)
    requires s != [] && s[0] == '"' && ParseValue(s).Ok?
    ensures Written(f) && s == FormText(f) + ParseValue(s).value.rest
  {
    hide SpellsPoint, ScanString, ParseItems, ParsePairs, ParseNumber, Apart;
    var l := StringSpelled(s[1..]);
    f := TextForm(l);
    assert s == "\"" + s[1..];
    Quoted(l, ScanString(s[1..]).value.rest);
  }

  lemma Quoted(l: Literal, rest: string)
    ensures "\"" + (Concat(l.parts) + "\"" + rest) == LiteralText(l) + rest
  {
    hide Concat;
  }

  /** Every text the parser takes for a value is a written one. */
  lemma {:induction false} ValueWritten(s: string) returns (f: Form)
    requires ParseValue(s).Ok?
    ensures Written(f) && s == FormText(f) + ParseValue(s).value.rest
    decreases |s|, 1
  {
    hide Written, FormText, ParseItems, ParsePairs, ScanString, ParseNumber, StartsWith, HasDuplicate;
    if s[0] == '"' {
      f := StringWritten(s);
    } else if s[0] == '{' {
      f := RecordWritten(s);
    } else if s[0] == '[' {
      f := ListWritten(s);
    } else if StartsWith(s, "null") || StartsWith(s, "true") || StartsWith(s, "false") {
      f := WordWritten(s);
    } else {
      f := NumberWritten(s);
    }
  }

  lemma Moved(i: Item, more: seq<Item>, gap: string)
    requires i.before == ""
    ensures ItemList([i.(before := gap)] + more) == gap + ItemList([i] + more)
  {
    hide FormText;
    var x, y := [i.(before := gap)] + more, [i] + more;
    assert x[1..] == more && y[1..] == more;
    assert ItemText(i.(before := gap)) == gap + ItemText(i);
    assert x != [] && y != [];
  }

  lemma {:induction false} ListWritten(s: string) returns (f: Form)
    requires s != [] && s[0] == '[' && ParseValue(s).Ok?
    ensures Written(f) && s == FormText(f) + ParseValue(s).value.rest
    decreases |s|, 0
  {
    hide ParseItems, WrittenItem, Blank, ItemList, ParsePairs, ScanString, ParseNumber, HasDuplicate;
    var gap := SkipSplit(s[1..]);
    var t := SkipSpace(s[1..]);
    assert s == "[" + (gap + t);
    if t != [] && t[0] == ']' {
      f := ListForm([], gap);
      assert t == "]" + t[1..];
      Brackets("[", gap, "]", t[1..]);
    } else {
      var items := ItemsWritten(t);
      var rest := ParseItems(t).value.rest;
      var first := items[0].(before := gap);
      BeforeWritten(items[0], gap);
      f := ListForm([first] + items[1..], "");
      Moved(items[0], items[1..], gap);
      assert items == [items[0]] + items[1..];
      EmptyIsBlank();
      Brackets("[", ItemList([first] + items[1..]), "]", rest);
      Regap("[", gap, ItemList(items), "]", rest);
    }
  }

  lemma EmptyIsBlank()
    ensures Blank("")
  {
  }

  lemma BeforeWritten(i: Item, gap: string)
    requires WrittenItem(i) && Blank(gap)
    ensures WrittenItem(i.(before := gap))
  {
    hide Written;
  }

  lemma Brackets(a: string, b: string, c: string, rest: string)
    ensures a + (b + (c + rest)) == a + b + c + rest
  {
  }

  lemma Regap(a: string, gap: string, b: string, c: string, rest: string)
    ensures a + (gap + (b + (c + rest))) == a + ((gap + b) + (c + rest))
  {
  }

  lemma LastItemText(i: Item, t: string)
    ensures ItemList([i]) + t == ItemText(i) + t
  {
    hide ItemText;
    assert ItemText(i) + "" == ItemText(i);
  }

  lemma FirstItem(i: Item, more: seq<Item>)
    requires more != []
    ensures ItemList([i] + more) == ItemText(i) + ("," + ItemList(more))
  {
    hide ItemText;
    assert ([i] + more)[1..] == more;
  }

  lemma ItemRegapped(item: Item, more: seq<Item>, gap: string) returns (items: seq<Item>)
    requires WrittenItem(item) && more != [] && more[0].before == "" && Blank(gap)
    requires forall i :: 0 <= i < |more| ==> WrittenItem(more[i])
    ensures |items| == |more| + 1 && items[0] == item && forall i :: 0 <= i < |items| ==> WrittenItem(items[i])
    ensures ItemList(items) == ItemText(item) + ("," + (gap + ItemList(more)))
  {
    hide WrittenItem, ItemText, Blank, ItemList;
    BeforeWritten(more[0], gap);
    var second := more[0].(before := gap);
    items := [item] + ([second] + more[1..]);
    assert more == [more[0]] + more[1..];
    Moved(more[0], more[1..], gap);
    FirstItem(item, [second] + more[1..]);
  }

  lemma ItemAssembled(f: Form, after: string, t: string) returns (item: Item)
    requires Written(f) && Blank(after)
    ensures WrittenItem(item) && item.before == "" && FormText(f) + (after + t) == ItemText(item) + t
  {
    hide Written, FormText;
    EmptyIsBlank();
    item := Item("", f, after);
    assert "" + (FormText(f) + after) + t == FormText(f) + (after + t);
  }

  /** One or more items up to the closing bracket; the first has no white space before it. */
  lemma {:induction false} ItemsWritten(s: string) returns (items: seq<Item>)
    requires ParseItems(s).Ok?
    ensures items != [] && items[0].before == "" && forall i :: 0 <= i < |items| ==> WrittenItem(items[i])
    ensures s == ItemList(items) + ("]" + ParseItems(s).value.rest)
    decreases |s|, 2
  {
    hide ParseValue, WrittenItem, Written, ItemText, FormText, Blank, ItemList, SkipSpace;
    var f := ValueWritten(s);
    var after := SkipSplit(ParseValue(s).value.rest);
    var t := SkipSpace(ParseValue(s).value.rest);
    var item := ItemAssembled(f, after, t);
    if t[0] == ']' {
      items := [item];
      assert t == "]" + t[1..];
      LastItemText(item, t);
    } else {
      var gap := SkipSplit(t[1..]);
      var more := ItemsWritten(SkipSpace(t[1..]));
      items := ItemRegapped(item, more, gap);
      assert t == "," + t[1..];
      MoreText(ItemText(item), gap, ItemList(more), "]" + ParseItems(s).value.rest);
    }
  }

  lemma MovedField(f: Field, more: seq<Field>, gap: string)
    requires f.before == ""
    ensures FieldList([f.(before := gap)] + more) == gap + FieldList([f] + more)
  {
    hide FormText, Concat;
    var x, y := [f.(before := gap)] + more, [f] + more;
    assert x[1..] == more && y[1..] == more;
    assert FieldText(f.(before := gap)) == gap + FieldText(f);
    assert x != [] && y != [];
  }

  lemma BeforeFieldWritten(f: Field, gap: string)
    requires WrittenField(f) && Blank(gap)
    ensures WrittenField(f.(before := gap))
  {
    hide Written, Spelled;
  }

  lemma NamesOnly(fields: seq<Field>, g: Field)
    requires fields != [] && g.name == fields[0].name
    ensures Repeats([g] + fields[1..]) <==> Repeats(fields)
  {
    assert forall i :: 0 <= i < |fields| ==> ([g] + fields[1..])[i].name == fields[i].name;
  }

  lemma {:induction false} RecordWritten(s: string) returns (f: Form)
    requires s != [] && s[0] == '{' && ParseValue(s).Ok?
    ensures Written(f) && s == FormText(f) + ParseValue(s).value.rest
    decreases |s|, 0
  {
    hide ParsePairs, WrittenField, Blank, FieldList, ParseItems, ScanString, ParseNumber, HasDuplicate;
    var gap := SkipSplit(s[1..]);
    var t := SkipSpace(s[1..]);
    assert s == "{" + (gap + t);
    if t != [] && t[0] == '}' {
      f := RecordForm([], gap);
      assert t == "}" + t[1..];
      Brackets("{", gap, "}", t[1..]);
    } else {
      var fields := FieldsWritten(t);
      var rest := ParsePairs(t).value.rest;
      var first := fields[0].(before := gap);
      BeforeFieldWritten(fields[0], gap);
      f := RecordForm([first] + fields[1..], "");
      MovedField(fields[0], fields[1..], gap);
      assert fields == [fields[0]] + fields[1..];
      EmptyIsBlank();
      Brackets("{", FieldList([first] + fields[1..]), "}", rest);
      Regap("{", gap, FieldList(fields), "}", rest);
    }
  }

  lemma PairText(name: string, a: string, b: string, v: string, rest: string)
    ensures "" + (name + (a + (":" + (b + (v + ""))))) + rest == name + (a + (":" + (b + (v + rest))))
  {
    assert v + "" == v;
    Nested("", name, a, b, v, "", rest);
    assert "" + rest == rest;
  }

  lemma FieldAssembled(l: Literal, a: string, b: string, v: Form, rest: string) returns (f: Field)
    requires Spelled(l) && Blank(a) && Blank(b) && Written(v)
    ensures WrittenField(f) && f.before == "" && f.after == ""
    ensures LiteralText(l) + (a + (":" + (b + (FormText(v) + rest)))) == FieldText(f) + rest
  {
    hide Written, FormText, Spelled, LiteralText;
    EmptyIsBlank();
    f := Field("", l, a, b, v, "");
    PairText(LiteralText(l), a, b, FormText(v), rest);
  }

  /** One member, up to the end of its value. */
  lemma {:induction false} FieldWritten(s: string) returns (f: Field)
    requires ParsePair(s).Ok?
    ensures WrittenField(f) && f.before == "" && f.after == "" && s == FieldText(f) + ParsePair(s).value.rest
    decreases |s|, 0
  {
    hide ParseValue, Written, WrittenField, FieldText, FormText, Blank, Spelled, ScanString, LiteralText, SkipSpace, Concat;
    var l := StringSpelled(s[1..]);
    var k := ScanString(s[1..]).value;
    var a := SkipSplit(k.rest);
    var t := SkipSpace(k.rest);
    var b := SkipSplit(t[1..]);
    var v := ValueWritten(SkipSpace(t[1..]));
    assert s == "\"" + s[1..];
    QuotedName(l, k.rest);
    assert t == ":" + t[1..];
    f := FieldAssembled(l, a, b, v, ParsePair(s).value.rest);
  }

  lemma QuotedName(l: Literal, rest: string)
    ensures "\"" + (Concat(l.parts) + "\"" + rest) == LiteralText(l) + rest
  {
    Quoted(l, rest);
  }

  lemma AfterText(f: Field, after: string, t: string)
    requires f.before == "" && f.after == ""
    ensures FieldText(f) + (after + t) == FieldText(f.(after := after)) + t
  {
    hide FormText, LiteralText;
    Nested("", LiteralText(f.name), f.afterName, f.beforeValue, FormText(f.value), "", after + t);
    Nested("", LiteralText(f.name), f.afterName, f.beforeValue, FormText(f.value), after, t);
    assert "" + (after + t) == after + t;
  }

  lemma AfterWritten(f: Field, after: string)
    requires WrittenField(f) && Blank(after)
    ensures WrittenField(f.(after := after))
  {
    hide Written, Spelled;
  }

  lemma LastField(f: Field, t: string)
    ensures FieldList([f]) + t == FieldText(f) + t
  {
    hide FieldText;
    assert FieldText(f) + "" == FieldText(f);
  }

  lemma FirstField(f: Field, more: seq<Field>)
    requires more != []
    ensures FieldList([f] + more) == FieldText(f) + ("," + FieldList(more))
  {
    hide FieldText;
    assert ([f] + more)[1..] == more;
  }

  lemma FirstRegapped(field: Field, more: seq<Field>, gap: string) returns (fields: seq<Field>)
    requires WrittenField(field) && more != [] && more[0].before == "" && Blank(gap)
    requires forall i :: 0 <= i < |more| ==> WrittenField(more[i])
    ensures |fields| == |more| + 1 && fields[0] == field && forall i :: 0 <= i < |fields| ==> WrittenField(fields[i])
    ensures FieldList(fields) == FieldText(field) + ("," + (gap + FieldList(more)))
  {
    hide WrittenField, FieldText, Blank, FieldList;
    BeforeFieldWritten(more[0], gap);
    var second := more[0].(before := gap);
    fields := [field] + ([second] + more[1..]);
    assert more == [more[0]] + more[1..];
    MovedField(more[0], more[1..], gap);
    FirstField(field, [second] + more[1..]);
  }

  /** One or more members up to the closing brace; the first has no white space before it. */
  lemma {:induction false} FieldsWritten(s: string) returns (fields: seq<Field>)
    requires ParsePairs(s).Ok?
    ensures fields != [] && fields[0].before == "" && forall i :: 0 <= i < |fields| ==> WrittenField(fields[i])
    ensures s == FieldList(fields) + ("}" + ParsePairs(s).value.rest)
    decreases |s|, 2
  {
    hide ParsePair, WrittenField, FieldText, Blank, FieldList, SkipSpace;
    var bare := FieldWritten(s);
    var after := SkipSplit(ParsePair(s).value.rest);
    var t := SkipSpace(ParsePair(s).value.rest);
    AfterText(bare, after, t);
    AfterWritten(bare, after);
    var field := bare.(after := after);
    if t[0] == '}' {
      fields := [field];
      assert t == "}" + t[1..];
      LastField(field, t);
    } else {
      var gap := SkipSplit(t[1..]);
      var more := FieldsWritten(SkipSpace(t[1..]));
      fields := FirstRegapped(field, more, gap);
      assert t == "," + t[1..];
      MoreText(FieldText(field), gap, FieldList(more), "}" + ParsePairs(s).value.rest);
    }
  }

  lemma MoreText(f: string, gap: string, more: string, end: string)
    ensures f + ("," + (gap + (more + end))) == f + ("," + (gap + more)) + end
  {
  }

  /** An accepted text is a written one: nothing outside the grammar is loaded. */
  lemma AcceptedIsWritten(text: string, maxBytes: nat) returns (lead: string, f: Form, trail: string)
    requires LoadsStrict(text, maxBytes).Ok?
    ensures Blank(lead) && Written(f) && Blank(trail) && text == DocumentText(lead, f, trail)
    ensures Reading(f).Ok? && Denotes(Reading(f).value, LoadsStrict(text, maxBytes).value)
  {
    hide ParseValue, Written, FormText, Reading, Denotes, Check, Utf8Length, WholeText, Shallow;
    lead := SkipSplit(text);
    f := ValueWritten(SkipSpace(text));
    trail := SkipSplit(ParseValue(SkipSpace(text)).value.rest);
    assert trail + [] == trail;
    LoadsExact(lead, f, trail, maxBytes);
  }
}
