/** The grammar of RFC 8259 as trees of written text, and that the strict parser reads exactly those trees. */
module JsonGrammar {
  import opened Wrappers
  import opened Texts
  import opened Ordering
  import opened Json
  import opened JsonParser
  import opened JsonRoundTrip
  import opened JsonSpelling

  /** A value as it is written; numbers with a fraction or an exponent, and the three constants, are forms too. */
  datatype Form =
    | NullForm
    | BoolForm(b: bool)
    | IntForm(negative: bool, digits: string)
    | RealForm(negative: bool, digits: string, tail: string)
    | ConstForm(name: string)
    | TextForm(text: Literal)
    | ListForm(items: seq<Item>, gap: string)
    | RecordForm(fields: seq<Field>, gap: string)

  datatype Item = Item(before: string, value: Form, after: string)

  datatype Field = Field(before: string, name: Literal, afterName: string, beforeValue: string, value: Form, after: string)

  predicate Blank(s: string) { forall i :: 0 <= i < |s| ==> IsSpace(s[i]) }

  const CONSTANTS: set<string> := {"NaN", "Infinity", "-Infinity"}

  /** A fraction or an exponent, and whatever digits, signs and points go on with it. */
  predicate RealTail(s: string) { StartsFraction(s) || StartsExponent(s) }

  predicate Written(f: Form)
    decreases f
  {
    match f
    case IntForm(_, digits) => AllDigits(digits) && NoLeadingZero(digits)
    case RealForm(_, digits, tail) => AllDigits(digits) && NoLeadingZero(digits) && RealTail(tail)
    case ConstForm(name) => name in CONSTANTS
    case TextForm(text) => Spelled(text)
    case ListForm(items, gap) => Blank(gap) && forall i :: 0 <= i < |items| ==> WrittenItem(items[i])
    case RecordForm(fields, gap) => Blank(gap) && forall i :: 0 <= i < |fields| ==> WrittenField(fields[i])
    case _ => true
  }

  predicate WrittenItem(i: Item)
    decreases i
  {
    Blank(i.before) && Written(i.value) && Blank(i.after)
  }

  predicate WrittenField(f: Field)
    decreases f
  {
    Blank(f.before) && Spelled(f.name) && Blank(f.afterName) && Blank(f.beforeValue) && Written(f.value) && Blank(f.after)
  }

  // ---- its text ----

  function LiteralText(l: Literal): string { "\"" + Concat(l.parts) + "\"" }

  function Sign(negative: bool): string { if negative then "-" else "" }

  function FormText(f: Form): string
    decreases f
  {
    match f
    case NullForm => "null"
    case BoolForm(b) => if b then "true" else "false"
    case IntForm(negative, digits) => Sign(negative) + digits
    case RealForm(negative, digits, tail) => Sign(negative) + digits + tail
    case ConstForm(name) => name
    case TextForm(text) => LiteralText(text)
    case ListForm(items, gap) => "[" + (if items == [] then gap else ItemList(items)) + "]"
    case RecordForm(fields, gap) => "{" + (if fields == [] then gap else FieldList(fields)) + "}"
  }

  function ItemText(i: Item): string
    decreases i
  {
    i.before + (FormText(i.value) + i.after)
  }

  function ItemList(items: seq<Item>): string
    decreases items
  {
    if items == [] then [] else ItemText(items[0]) + (if |items| == 1 then "" else "," + ItemList(items[1..]))
  }

  function FieldText(f: Field): string
    decreases f
  {
    f.before + (LiteralText(f.name) + (f.afterName + (":" + (f.beforeValue + (FormText(f.value) + f.after)))))
  }

  function FieldList(fields: seq<Field>): string
    decreases fields
  {
    if fields == [] then [] else FieldText(fields[0]) + (if |fields| == 1 then "" else "," + FieldList(fields[1..]))
  }

  // ---- what it says, in reading order, the first refusal winning ----

  predicate Repeats(fields: seq<Field>) {
    exists i, j :: 0 <= i < j < |fields| && fields[i].name.points == fields[j].name.points
  }

  function Reading(f: Form): Result<Raw>
    requires Written(f)
    decreases f
  {
    match f
    case NullForm => Ok(RNull)
    case BoolForm(b) => Ok(RBool(b))
    case IntForm(negative, digits) =>
      if Number(digits) > MAX_SAFE_INT then Err(OUT_OF_RANGE)
      else Ok(RInt(if negative then 0 - Number(digits) else Number(digits)))
    case RealForm(_, _, _) => Err(FLOAT)
    case ConstForm(_) => Err(NON_FINITE)
    case TextForm(text) => Ok(RStr(text.points))
    case ListForm(items, _) =>
      var read :- ReadingItems(items);
      Ok(RArr(read))
    case RecordForm(fields, _) =>
      var read :- ReadingFields(fields);
      if Repeats(fields) then Err(DUPLICATE) else Ok(RObj(read))
  }

  function ReadingItems(items: seq<Item>): (r: Result<seq<Raw>>)
    requires forall i :: 0 <= i < |items| ==> WrittenItem(items[i])
    ensures r.Ok? ==> |r.value| == |items|
    decreases items
  {
    if items == [] then Ok([])
    else
      assert WrittenItem(items[0]);
      var first :- Reading(items[0].value);
      var more :- ReadingItems(items[1..]);
      Ok([first] + more)
  }

  function ReadingFields(fields: seq<Field>): (r: Result<seq<Pair>>)
    requires forall i :: 0 <= i < |fields| ==> WrittenField(fields[i])
    ensures r.Ok? ==> |r.value| == |fields| && forall i :: 0 <= i < |fields| ==> r.value[i].key == fields[i].name.points
    decreases fields
  {
    if fields == [] then Ok([])
    else
      assert WrittenField(fields[0]);
      var first :- Reading(fields[0].value);
      var more :- ReadingFields(fields[1..]);
      Ok([Pair(fields[0].name.points, first)] + more)
  }

  function Then<T>(r: Result<T>, rest: string): Result<Parsed<T>> {
    match r
    case Ok(v) => Ok(Parsed(v, rest))
    case Err(code) => Err(code)
  }

  // ---- the parser reads it ----

  /** What may stand behind a value: the end, white space, or a separator. */
  predicate Ends(rest: string) {
    rest == [] || IsSpace(rest[0]) || rest[0] == ',' || rest[0] == ']' || rest[0] == '}'
  }

  lemma {:induction false} SkipBlank(gap: string, t: string)
    requires Blank(gap) && (t == [] || !IsSpace(t[0]))
    ensures SkipSpace(gap + t) == t
  {
    if gap == [] {
      assert gap + t == t;
    } else {
      SkipBlank(gap[1..], t);
      assert (gap + t)[1..] == gap[1..] + t;
    }
  }

  lemma EndsAfter(gap: string, t: string)
    requires Blank(gap) && Ends(t)
    ensures Ends(gap + t)
  {
    if gap == [] { assert gap + t == t; }
  }

  lemma IntRead(negative: bool, digits: string)
    requires AllDigits(digits) && NoLeadingZero(digits)
    ensures ParseInt(negative, digits) ==
            if Number(digits) > MAX_SAFE_INT then Err(OUT_OF_RANGE)
            else Ok(if negative then 0 - Number(digits) else Number(digits))
  {
    Pow10Sixteen();
    DigitCount(digits, 16);
  }

  lemma UnsignedRead(negative: bool, digits: string, tail: string, rest: string)
    requires AllDigits(digits) && NoLeadingZero(digits) && Ends(rest) && (tail == "" || RealTail(tail))
    ensures var t := digits + (tail + rest);
      ParseUnsigned(negative, t) ==
        if tail != "" then Err(FLOAT)
        else if Number(digits) > MAX_SAFE_INT then Err(OUT_OF_RANGE)
        else Ok(Parsed(RInt(if negative then 0 - Number(digits) else Number(digits)), rest))
  {
    hide Number, ParseInt;
    var more := tail + rest;
    assert tail != "" ==> forall i :: 0 <= i < |tail| ==> more[i] == tail[i];
    assert tail == "" ==> more == rest;
    DigitRunStops(digits, more);
    IntRead(negative, digits);
    var t := digits + more;
    assert t[|digits|..] == more && t[..|digits|] == digits && t[0] == digits[0];
  }

  lemma NotWord(s: string)
    requires s != [] && s[0] != '"' && s[0] != '{' && s[0] != '['
    requires !StartsWith(s, "null") && !StartsWith(s, "true") && !StartsWith(s, "false")
    requires !StartsWith(s, "NaN") && !StartsWith(s, "Infinity") && !StartsWith(s, "-Infinity")
    ensures ParseValue(s) == ParseNumber(s)
  {
    hide ParseNumber, ScanString, ParseItems, ParsePairs, StartsWith, HasDuplicate, SkipSpace;
  }

  lemma NotConstant(s: string)
    requires s != [] && (IsDigit(s[0]) || (s[0] == '-' && |s| > 1 && IsDigit(s[1])))
    ensures ParseValue(s) == ParseNumber(s)
  {
    hide ParseValue, ParseNumber, StartsWith;
    NotPrefix(s, "null", 0);
    NotPrefix(s, "true", 0);
    NotPrefix(s, "false", 0);
    NotPrefix(s, "NaN", 0);
    NotPrefix(s, "Infinity", 0);
    if s[0] == '-' { NotPrefix(s, "-Infinity", 1); } else { NotPrefix(s, "-Infinity", 0); }
    NotWord(s);
  }

  lemma NumberRead(negative: bool, digits: string, tail: string, rest: string)
    requires AllDigits(digits) && NoLeadingZero(digits) && Ends(rest) && (tail == "" || RealTail(tail))
    ensures ParseValue(Sign(negative) + digits + tail + rest) ==
            if tail != "" then Err(FLOAT)
            else if Number(digits) > MAX_SAFE_INT then Err(OUT_OF_RANGE)
            else Ok(Parsed(RInt(if negative then 0 - Number(digits) else Number(digits)), rest))
  {
    hide ParseValue, ParseUnsigned, Number;
    var t := digits + (tail + rest);
    var s := Sign(negative) + digits + tail + rest;
    assert s == Sign(negative) + t;
    assert t[0] == digits[0];
    UnsignedRead(negative, digits, tail, rest);
    if negative { assert s[1..] == t && s[1] == t[0]; } else { assert s == t; }
    NotConstant(s);
  }

  lemma ConstantRead(name: string, rest: string)
    requires name in CONSTANTS
    ensures ParseValue(name + rest) == Err(NON_FINITE)
  {
    var s := name + rest;
    assert s[..|name|] == name && s[0] == name[0];
    NotPrefix(s, "null", 0);
    NotPrefix(s, "true", 0);
    NotPrefix(s, "false", 0);
  }

  lemma WordRead(f: Form, rest: string)
    requires f.NullForm? || f.BoolForm?
    ensures ParseValue(FormText(f) + rest) == Then(Reading(f), rest)
  {
    var s := FormText(f) + rest;
    assert s[..|FormText(f)|] == FormText(f) && s[|FormText(f)|..] == rest && s[0] == FormText(f)[0];
    if f.BoolForm? { NotPrefix(s, "null", 0); if !f.b { NotPrefix(s, "true", 0); } }
  }

  lemma LiteralRead(l: Literal, rest: string)
    requires Spelled(l)
    ensures var s := LiteralText(l) + rest; s[0] == '"' && ScanString(s[1..]) == Ok(Parsed(l.points, rest))
  {
    hide SpellsPoint, ScanString;
    ReadString(l.parts, l.points, rest);
    assert (LiteralText(l) + rest)[1..] == Concat(l.parts) + "\"" + rest;
  }

  lemma FormStart(f: Form)
    requires Written(f)
    ensures FormText(f) != [] && !IsSpace(FormText(f)[0]) && FormText(f)[0] != ']' && FormText(f)[0] != '}'
  {
    hide Spelled, Concat;
  }

  lemma TextRead(l: Literal, rest: string)
    requires Spelled(l)
    ensures ParseValue(LiteralText(l) + rest) == Ok(Parsed(RStr(l.points), rest))
  {
    hide ScanString, Spelled;
    LiteralRead(l, rest);
  }

  lemma EmptyRead(gap: string, rest: string)
    requires Blank(gap)
    ensures ParseValue("[" + gap + "]" + rest) == Ok(Parsed(RArr([]), rest))
    ensures ParseValue("{" + gap + "}" + rest) == Ok(Parsed(RObj([]), rest))
  {
    hide ParseItems, ParsePairs, ScanString, ParseNumber, SkipSpace, HasDuplicate;
    SkipBlank(gap, "]" + rest);
    SkipBlank(gap, "}" + rest);
    assert ("[" + gap + "]" + rest)[1..] == gap + ("]" + rest);
    assert ("{" + gap + "}" + rest)[1..] == gap + ("}" + rest);
    assert ("]" + rest)[1..] == rest && ("}" + rest)[1..] == rest;
  }

  /** Reads a written value, whatever follows it. */
  lemma {:induction false} FormRead(f: Form, rest: string)
    requires Written(f) && Ends(rest)
    ensures ParseValue(FormText(f) + rest) == Then(Reading(f), rest)
    decreases f, 2
  {
    hide ParseValue, Spelled, Number, LiteralText;
    match f {
      case IntForm(negative, digits) =>
        NumberRead(negative, digits, "", rest);
        assert Sign(negative) + digits + "" + rest == Sign(negative) + digits + rest;
      case RealForm(negative, digits, tail) => NumberRead(negative, digits, tail, rest);
      case ConstForm(name) => ConstantRead(name, rest);
      case TextForm(text) => TextRead(text, rest);
      case ListForm(items, gap) => ListRead(f, rest);
      case RecordForm(fields, gap) => RecordRead(f, rest);
      case _ => WordRead(f, rest);
    }
  }

  lemma ListOpens(body: string, gap: string, first: string)
    requires Blank(gap) && body == gap + first && first != [] && !IsSpace(first[0]) && first[0] != ']'
    ensures ParseValue("[" + body) == match ParseItems(first)
      case Ok(p) => Ok(Parsed(RArr(p.value), p.rest))
      case Err(code) => Err(code)
  {
    SkipBlank(gap, first);
    assert ("[" + body)[1..] == body;
  }

  lemma ListText(f: Form, rest: string)
    requires f.ListForm?
    ensures FormText(f) + rest ==
            if f.items == [] then "[" + f.gap + "]" + rest else "[" + (ItemList(f.items) + ("]" + rest))
  {
    hide ItemList;
  }

  lemma ListReading(f: Form)
    requires f.ListForm? && Written(f)
    ensures Blank(f.gap) && forall i :: 0 <= i < |f.items| ==> WrittenItem(f.items[i])
    ensures f.items == [] ==> Reading(f) == Ok(RArr([]))
    ensures Reading(f) == match ReadingItems(f.items)
      case Ok(read) => Ok(RArr(read))
      case Err(code) => Err(code)
  {
    hide Blank, WrittenItem;
  }

  lemma {:induction false} ListRead(f: Form, rest: string)
    requires f.ListForm? && Written(f)
    ensures ParseValue(FormText(f) + rest) == Then(Reading(f), rest)
    decreases f, 1
  {
    hide ParseValue, ParseItems, Blank, Written, WrittenItem, ItemList, FormText, Reading, ReadingItems, ItemsFrom;
    ListText(f, rest);
    ListReading(f);
    if f.items == [] {
      EmptyRead(f.gap, rest);
    } else {
      ItemsRead(f.items, rest);
      ItemsOpen(f.items, rest);
      ListOpens(ItemList(f.items) + ("]" + rest), f.items[0].before, ItemsFrom(f.items, rest));
    }
  }

  /** What is left of a list once the white space before its next item is skipped. */
  function ItemsFrom(items: seq<Item>, rest: string): string
    requires items != []
  {
    FormText(items[0].value) + (items[0].after + ItemsAfter(items, rest))
  }

  function ItemsAfter(items: seq<Item>, rest: string): string
    requires items != []
  {
    if |items| == 1 then "]" + rest else "," + (ItemList(items[1..]) + ("]" + rest))
  }

  lemma ItemsOpen(items: seq<Item>, rest: string)
    requires items != [] && WrittenItem(items[0])
    ensures ItemList(items) + ("]" + rest) == items[0].before + ItemsFrom(items, rest) && Blank(items[0].before)
    ensures var first := ItemsFrom(items, rest); first != [] && !IsSpace(first[0]) && first[0] != ']'
  {
    FormStart(items[0].value);
    hide FormText, Written, Blank;
    var i := items[0];
    if |items| == 1 {
      assert i.before + (FormText(i.value) + i.after) + "" + ("]" + rest) == i.before + (FormText(i.value) + (i.after + ("]" + rest)));
    } else {
      FourParts(i.before, FormText(i.value), i.after, ItemList(items[1..]), "]" + rest);
    }
  }

  lemma FourParts(a: string, b: string, c: string, d: string, e: string)
    ensures a + (b + c) + ("," + d) + e == a + (b + (c + ("," + (d + e))))
  {
  }

  lemma ItemsStep(s: string, v: Raw, gap: string, t: string)
    requires ParseValue(s) == Ok(Parsed(v, gap + t)) && Blank(gap) && t != [] && (t[0] == ']' || t[0] == ',')
    ensures ParseItems(s) ==
      if t[0] == ']' then Ok(Parsed([v], t[1..]))
      else match ParseItems(SkipSpace(t[1..]))
        case Ok(more) => Ok(Parsed([v] + more.value, more.rest))
        case Err(code) => Err(code)
  {
    hide ParseValue;
    SkipBlank(gap, t);
  }

  lemma {:induction false} OneItem(items: seq<Item>)
    requires |items| == 1 && WrittenItem(items[0]) && Reading(items[0].value).Ok?
    ensures ReadingItems(items) == Ok([Reading(items[0].value).value])
  {
    hide Reading, Written;
    var more: seq<Raw> := [];
    assert items[1..] == [] && ReadingItems(items[1..]) == Ok(more);
    assert [Reading(items[0].value).value] + more == [Reading(items[0].value).value];
  }

  lemma {:induction false} ItemsRead(items: seq<Item>, rest: string)
    requires items != [] && forall i :: 0 <= i < |items| ==> WrittenItem(items[i])
    ensures ParseItems(ItemsFrom(items, rest)) == Then(ReadingItems(items), rest)
    decreases items, 0
  {
    hide ParseValue, FormText, Written, ItemList, Blank;
    var i, t := items[0], ItemsAfter(items, rest);
    assert WrittenItem(i);
    EndsAfter(i.after, t);
    FormRead(i.value, i.after + t);
    if Reading(i.value).Ok? {
      ItemsStep(ItemsFrom(items, rest), Reading(i.value).value, i.after, t);
      if |items| > 1 {
        var more := items[1..];
        ItemsRead(more, rest);
        ItemsOpen(more, rest);
        SkipBlank(more[0].before, ItemsFrom(more, rest));
        assert t[1..] == ItemList(more) + ("]" + rest);
      } else {
        assert t[1..] == rest && items[1..] == [];
        OneItem(items);
      }
    }
  }

  lemma RecordOpens(body: string, gap: string, first: string)
    requires Blank(gap) && body == gap + first && first != [] && !IsSpace(first[0]) && first[0] != '}'
    ensures ParseValue("{" + body) == match ParsePairs(first)
      case Ok(p) => if HasDuplicate(p.value) then Err(DUPLICATE) else Ok(Parsed(RObj(p.value), p.rest))
      case Err(code) => Err(code)
  {
    SkipBlank(gap, first);
    assert ("{" + body)[1..] == body;
  }

  lemma SameRepeats(fields: seq<Field>, pairs: seq<Pair>)
    requires |pairs| == |fields| && forall i :: 0 <= i < |fields| ==> pairs[i].key == fields[i].name.points
    ensures HasDuplicate(pairs) <==> Repeats(fields)
  {
  }

  lemma RecordText(f: Form, rest: string)
    requires f.RecordForm?
    ensures FormText(f) + rest ==
            if f.fields == [] then "{" + f.gap + "}" + rest else "{" + (FieldList(f.fields) + ("}" + rest))
  {
    hide FieldList;
  }

  lemma RecordReading(f: Form)
    requires f.RecordForm? && Written(f)
    ensures Blank(f.gap) && forall i :: 0 <= i < |f.fields| ==> WrittenField(f.fields[i])
    ensures f.fields == [] ==> Reading(f) == Ok(RObj([]))
    ensures Reading(f) == match ReadingFields(f.fields)
      case Ok(read) => if Repeats(f.fields) then Err(DUPLICATE) else Ok(RObj(read))
      case Err(code) => Err(code)
  {
    hide Blank, WrittenField, Repeats;
    NoRepeats();
  }

  lemma {:induction false} RecordRead(f: Form, rest: string)
    requires f.RecordForm? && Written(f)
    ensures ParseValue(FormText(f) + rest) == Then(Reading(f), rest)
    decreases f, 1
  {
    hide ParseValue, ParsePairs, Blank, Written, WrittenField, HasDuplicate, Repeats, FieldList, FormText, Reading, ReadingFields,
         FieldsFrom;
    RecordText(f, rest);
    RecordReading(f);
    if f.fields == [] {
      EmptyRead(f.gap, rest);
    } else {
      FieldsRead(f.fields, rest);
      FieldsOpen(f.fields, rest);
      RecordOpens(FieldList(f.fields) + ("}" + rest), f.fields[0].before, FieldsFrom(f.fields, rest));
      if ReadingFields(f.fields).Ok? { SameRepeats(f.fields, ReadingFields(f.fields).value); }
    }
  }

  lemma NoRepeats()
    ensures !Repeats([])
  {
  }

  function FieldsAfter(fields: seq<Field>, rest: string): string
    requires fields != []
  {
    if |fields| == 1 then "}" + rest else "," + (FieldList(fields[1..]) + ("}" + rest))
  }

  /** A member from its name on. */
  function FieldFrom(f: Field, t: string): string {
    LiteralText(f.name) + (f.afterName + (":" + (f.beforeValue + (FormText(f.value) + (f.after + t)))))
  }

  function FieldsFrom(fields: seq<Field>, rest: string): string
    requires fields != []
  {
    FieldFrom(fields[0], FieldsAfter(fields, rest))
  }

  lemma Nested(a: string, b: string, c: string, d: string, e: string, f: string, t: string)
    ensures a + (b + (c + (":" + (d + (e + f))))) + t == a + (b + (c + (":" + (d + (e + (f + t))))))
  {
    assert (d + (e + f)) + t == d + (e + (f + t));
    assert (b + (c + (":" + (d + (e + f))))) + t == b + (c + (":" + ((d + (e + f)) + t)));
  }

  lemma FieldsOpen(fields: seq<Field>, rest: string)
    requires fields != [] && WrittenField(fields[0])
    ensures FieldList(fields) + ("}" + rest) == fields[0].before + FieldsFrom(fields, rest) && Blank(fields[0].before)
    ensures var first := FieldsFrom(fields, rest); first != [] && !IsSpace(first[0]) && first[0] != '}'
  {
    hide FormText, Written, Blank, Concat;
    var f := fields[0];
    Nested(f.before, LiteralText(f.name), f.afterName, f.beforeValue, FormText(f.value), f.after, FieldsAfter(fields, rest));
    if |fields| == 1 {
      assert FieldList(fields) == FieldText(f) + "";
      assert FieldText(f) + "" + ("}" + rest) == FieldText(f) + ("}" + rest);
    } else {
      assert FieldText(f) + ("," + FieldList(fields[1..])) + ("}" + rest) == FieldText(f) + ("," + (FieldList(fields[1..]) + ("}" + rest)));
    }
    assert LiteralText(f.name)[0] == '"';
  }

  lemma FieldStep(s: string, key: seq<int>, gap: string, gap2: string, body: string)
    requires s != [] && s[0] == '"' && ScanString(s[1..]) == Ok(Parsed(key, gap + (":" + (gap2 + body))))
    requires Blank(gap) && Blank(gap2) && body != [] && !IsSpace(body[0])
    ensures ParsePair(s) == match ParseValue(body)
      case Ok(p) => Ok(Parsed(Pair(key, p.value), p.rest))
      case Err(code) => Err(code)
  {
    hide ParseValue, ScanString;
    SkipBlank(gap, ":" + (gap2 + body));
    SkipBlank(gap2, body);
    assert (":" + (gap2 + body))[1..] == gap2 + body;
  }

  lemma {:induction false} FieldRead(f: Field, t: string)
    requires WrittenField(f) && Ends(t)
    ensures ParsePair(FieldFrom(f, t)) == match Reading(f.value)
      case Ok(v) => Ok(Parsed(Pair(f.name.points, v), f.after + t))
      case Err(code) => Err(code)
    decreases f.value, 3
  {
    hide ParseValue, ParsePair, FormText, Written, Spelled, ScanString;
    var body := FormText(f.value) + (f.after + t);
    EndsAfter(f.after, t);
    FormStart(f.value);
    LiteralRead(f.name, f.afterName + (":" + (f.beforeValue + body)));
    FieldStep(FieldFrom(f, t), f.name.points, f.afterName, f.beforeValue, body);
    FormRead(f.value, f.after + t);
  }

  lemma PairsStep(s: string, p: Pair, gap: string, t: string)
    requires ParsePair(s) == Ok(Parsed(p, gap + t)) && Blank(gap) && t != [] && (t[0] == '}' || t[0] == ',')
    ensures ParsePairs(s) ==
      if t[0] == '}' then Ok(Parsed([p], t[1..]))
      else match ParsePairs(SkipSpace(t[1..]))
        case Ok(more) => Ok(Parsed([p] + more.value, more.rest))
        case Err(code) => Err(code)
  {
    hide ParsePair;
    SkipBlank(gap, t);
  }

  lemma {:induction false} OneField(fields: seq<Field>)
    requires |fields| == 1 && WrittenField(fields[0]) && Reading(fields[0].value).Ok?
    ensures ReadingFields(fields) == Ok([Pair(fields[0].name.points, Reading(fields[0].value).value)])
  {
    hide Reading, Written, Spelled;
    var more: seq<Pair> := [];
    assert fields[1..] == [] && ReadingFields(fields[1..]) == Ok(more);
    var first := Pair(fields[0].name.points, Reading(fields[0].value).value);
    assert [first] + more == [first];
  }

  lemma {:induction false} FieldsRead(fields: seq<Field>, rest: string)
    requires fields != [] && forall i :: 0 <= i < |fields| ==> WrittenField(fields[i])
    ensures ParsePairs(FieldsFrom(fields, rest)) == Then(ReadingFields(fields), rest)
    decreases fields, 0
  {
    hide ParsePair, FieldFrom, FieldList, Blank, Written, Spelled;
    var f, t := fields[0], FieldsAfter(fields, rest);
    assert WrittenField(f);
    FieldRead(f, t);
    if Reading(f.value).Ok? {
      PairsStep(FieldsFrom(fields, rest), Pair(f.name.points, Reading(f.value).value), f.after, t);
      if |fields| > 1 {
        var more := fields[1..];
        FieldsRead(more, rest);
        FieldsOpen(more, rest);
        SkipBlank(more[0].before, FieldsFrom(more, rest));
        assert t[1..] == FieldList(more) + ("}" + rest);
      } else {
        assert t[1..] == rest && fields[1..] == [];
        OneField(fields);
      }
    }
  }

  /** A document: a written value between white space. */
  lemma DocumentRead(lead: string, f: Form, trail: string)
    requires Blank(lead) && Written(f) && Blank(trail)
    ensures ParseDocument(lead + (FormText(f) + trail)) == Reading(f)
  {
    hide ParseValue, FormText, Written;
    FormStart(f);
    SkipBlank(lead, FormText(f) + trail);
    assert trail == trail + [];
    SkipBlank(trail, []);
    EndsAfter(trail, []);
    FormRead(f, trail);
  }
}
