/** The float-free JSON value domain and its RFC 8785 canonical text. */
module Json {
  import opened Wrappers
  import opened Texts
  import opened Ordering

  const MAX_SAFE_INT: int := 9007199254740991
  const OUT_OF_RANGE := "integer_out_of_range"

  /** A Python dict is a finite map here: equality ignores insertion order, as it does in the program. */
  datatype Json =
    | JNull
    | JBool(b: bool)
    | JInt(n: int)
    | JStr(s: string)
    | JArr(items: seq<Json>)
    | JObj(members: map<string, Json>)

  function HexDigit(n: nat): char
    requires n < 16
  {
    if n < 10 then '0' + n as char else 'a' + (n - 10) as char
  }

  function EscapeChar(c: char): (t: string)
    ensures |t| > 0
  {
    if c == '"' then "\\\""
    else if c == '\\' then "\\\\"
    else if c == '\U{8}' then "\\b"
    else if c == '\t' then "\\t"
    else if c == '\n' then "\\n"
    else if c == '\U{C}' then "\\f"
    else if c == '\r' then "\\r"
    else if c < ' ' then "\\u00" + [HexDigit(c as int / 16), HexDigit(c as int % 16)]
    else [c]
  }

  function Escape(s: string): string {
    if s == [] then [] else EscapeChar(s[0]) + Escape(s[1..])
  }

  function Quote(s: string): string {
    "\"" + Escape(s) + "\""
  }

  function IntText(n: int): string {
    if n < 0 then "-" + Digits(-n) else Digits(n)
  }

  function MemberOrder(m: map<string, Json>): (keys: seq<string>)
    ensures forall k :: k in keys <==> k in m
  {
    SortSetSorts(ByUtf16, m.Keys);
    SortSet(ByUtf16, m.Keys)
  }

  /** The canonical text, defined for every value; Jcs refuses the values RFC 8785 cannot carry. */
  function Text(v: Json): string
    decreases v
  {
    match v
    case JNull => "null"
    case JBool(b) => if b then "true" else "false"
    case JInt(n) => IntText(n)
    case JStr(s) => Quote(s)
    case JArr(items) => "[" + ItemsText(items) + "]"
    case JObj(members) => "{" + MembersText(v, MemberOrder(members)) + "}"
  }

  function ItemsText(items: seq<Json>): string
    decreases items
  {
    if items == [] then []
    else if |items| == 1 then Text(items[0])
    else Text(items[0]) + "," + ItemsText(items[1..])
  }

  function MemberText(v: Json, k: string): string
    requires v.JObj? && k in v.members
    decreases v, 0
  {
    Quote(k) + ":" + Text(v.members[k])
  }

  function MembersText(v: Json, keys: seq<string>): string
    requires v.JObj? && forall k :: k in keys ==> k in v.members
    decreases v, |keys| + 1
  {
    if keys == [] then []
    else if |keys| == 1 then MemberText(v, keys[0])
    else MemberText(v, keys[0]) + "," + MembersText(v, keys[1..])
  }

  /** Every integer, at any depth, is in the I-JSON safe range. */
  predicate InRange(v: Json)
    decreases v
  {
    match v
    case JInt(n) => -MAX_SAFE_INT <= n <= MAX_SAFE_INT
    case JArr(items) => forall i :: 0 <= i < |items| ==> InRange(items[i])
    case JObj(members) => forall k :: k in members ==> InRange(members[k])
    case _ => true
  }

  function Jcs(v: Json): Result<string> {
    if InRange(v) then Ok(Text(v)) else Err(OUT_OF_RANGE)
  }

  /** Levels of nesting below a value. */
  function Depth(v: Json): nat
    decreases v
  {
    match v
    case JArr(items) => DepthItems(items)
    case JObj(members) => DepthMembers(v, MemberOrder(members))
    case _ => 0
  }

  function Max(a: int, b: int): int { if a < b then b else a }

  function DepthItems(items: seq<Json>): nat
    decreases items
  {
    if items == [] then 0 else Max(1 + Depth(items[0]), DepthItems(items[1..]))
  }

  function DepthMembers(v: Json, keys: seq<string>): nat
    requires v.JObj? && forall k :: k in keys ==> k in v.members
    decreases v, |keys|
  {
    if keys == [] then 0 else Max(1 + Depth(v.members[keys[0]]), DepthMembers(v, keys[1..]))
  }

  function Utf8Width(c: char): (n: nat)
    ensures 1 <= n <= 4
  {
    var n := c as int;
    if n < 0x80 then 1 else if n < 0x800 then 2 else if n < 0x10000 then 3 else 4
  }

  function Utf8Length(s: string): nat {
    if s == [] then 0 else Utf8Width(s[0]) + Utf8Length(s[1..])
  }

  // ---- the emitter: fragments appended to an output list, then joined ----

  function Flat(out: seq<string>): string {
    if out == [] then [] else Flat(out[..|out| - 1]) + out[|out| - 1]
  }

  lemma FlatAppend(out: seq<string>, s: string)
    ensures Flat(out + [s]) == Flat(out) + s
  {
    assert (out + [s])[..|out|] == out;
  }

  lemma {:induction false} ItemsTextStep(items: seq<Json>, i: nat)
    requires i < |items|
    ensures ItemsText(items[..i + 1]) == ItemsText(items[..i]) + (if i > 0 then "," else "") + Text(items[i])
  {
    hide Text;
    if i == 0 {
      assert items[..1] == [items[0]] && items[..0] == [];
    } else {
      ItemsTextStep(items[1..], i - 1);
      assert items[..i + 1][1..] == items[1..][..i] && items[..i][1..] == items[1..][..i - 1];
      assert items[..i + 1][0] == items[0] && items[..i][0] == items[0];
      if i == 1 {
        assert items[1..][..0] == [];
        assert items[..1] == [items[0]];
      }
    }
  }

  lemma {:induction false} MembersTextStep(v: Json, keys: seq<string>, i: nat)
    requires v.JObj? && i < |keys| && forall k :: k in keys ==> k in v.members
    ensures MembersText(v, keys[..i + 1]) ==
            MembersText(v, keys[..i]) + (if i > 0 then "," else "") + MemberText(v, keys[i])
    decreases i
  {
    hide MemberText;
    if i == 0 {
      assert keys[..1] == [keys[0]] && keys[..0] == [];
    } else {
      MembersTextStep(v, keys[1..], i - 1);
      assert keys[..i + 1][1..] == keys[1..][..i] && keys[..i][1..] == keys[1..][..i - 1];
      assert keys[..i + 1][0] == keys[0] && keys[..i][0] == keys[0];
      if i == 1 {
        assert keys[1..][..0] == [];
        assert keys[..1] == [keys[0]];
      }
    }
  }

  /** Appends the canonical fragments of v to out, or refuses on the first integer out of range. */
  method Emit(v: Json, out: seq<string>) returns (r: Result<seq<string>>)
    ensures r.Ok? <==> InRange(v)
    ensures r.Ok? ==> Flat(r.value) == Flat(out) + Text(v)
    ensures r.Err? ==> r.code == OUT_OF_RANGE
    decreases v
  {
    match v {
      case JNull => FlatAppend(out, "null"); r := Ok(out + ["null"]);
      case JBool(b) =>
        FlatAppend(out, "true");
        FlatAppend(out, "false");
        r := Ok(out + [if b then "true" else "false"]);
      case JInt(n) =>
        if n < -MAX_SAFE_INT || n > MAX_SAFE_INT { return Err(OUT_OF_RANGE); }
        FlatAppend(out, IntText(n));
        r := Ok(out + [IntText(n)]);
      case JStr(s) => FlatAppend(out, Quote(s)); r := Ok(out + [Quote(s)]);
      case JArr(items) => r := EmitItems(v, out);
      case JObj(members) => r := EmitMembers(v, out);
    }
  }

  lemma Assoc(a: string, b: string, c: string, d: string)
    ensures a + b + c + d == a + (b + c + d)
  {
  }

  /** Appends the separator that precedes member i. */
  method EmitComma(acc: seq<string>, i: nat) returns (r: seq<string>)
    ensures Flat(r) == Flat(acc) + (if i > 0 then "," else "")
  {
    r := acc;
    if i > 0 {
      FlatAppend(acc, ",");
      r := acc + [","];
    }
  }

  method EmitItems(v: Json, out: seq<string>) returns (r: Result<seq<string>>)
    requires v.JArr?
    ensures r.Ok? <==> InRange(v)
    ensures r.Ok? ==> Flat(r.value) == Flat(out) + Text(v)
    ensures r.Err? ==> r.code == OUT_OF_RANGE
    decreases v, 0
  {
    var items := v.items;
    var acc := out + ["["];
    FlatAppend(out, "[");
    ghost var start := Flat(acc);
    for i := 0 to |items|
      invariant Flat(acc) == start + ItemsText(items[..i])
      invariant forall j :: 0 <= j < i ==> InRange(items[j])
    {
      ItemsTextStep(items, i);
      Assoc(start, ItemsText(items[..i]), if i > 0 then "," else "", Text(items[i]));
      acc := EmitComma(acc, i);
      var one := Emit(items[i], acc);
      if one.Err? { return one; }
      acc := one.value;
    }
    assert items[..|items|] == items;
    FlatAppend(acc, "]");
    Assoc(Flat(out), "[", ItemsText(items), "]");
    r := Ok(acc + ["]"]);
  }

  method EmitMember(v: Json, k: string, out: seq<string>) returns (r: Result<seq<string>>)
    requires v.JObj? && k in v.members
    ensures r.Ok? <==> InRange(v.members[k])
    ensures r.Ok? ==> Flat(r.value) == Flat(out) + MemberText(v, k)
    ensures r.Err? ==> r.code == OUT_OF_RANGE
    decreases v, 0
  {
    FlatAppend(out, Quote(k));
    FlatAppend(out + [Quote(k)], ":");
    Assoc(Flat(out), Quote(k), ":", Text(v.members[k]));
    r := Emit(v.members[k], out + [Quote(k)] + [":"]);
  }

  predicate KeysInRange(v: Json, keys: seq<string>)
    requires v.JObj? && forall k :: k in keys ==> k in v.members
  {
    forall k :: k in keys ==> InRange(v.members[k])
  }

  lemma KeysInRangeStep(v: Json, keys: seq<string>, i: nat)
    requires v.JObj? && i < |keys| && forall k :: k in keys ==> k in v.members
    ensures KeysInRange(v, keys[..i + 1]) <==> KeysInRange(v, keys[..i]) && InRange(v.members[keys[i]])
    ensures KeysInRange(v, keys) ==> InRange(v.members[keys[i]])
  {
    assert keys[..i + 1] == keys[..i] + [keys[i]];
  }

  method EmitMembers(v: Json, out: seq<string>) returns (r: Result<seq<string>>)
    requires v.JObj?
    ensures r.Ok? <==> InRange(v)
    ensures r.Ok? ==> Flat(r.value) == Flat(out) + Text(v)
    ensures r.Err? ==> r.code == OUT_OF_RANGE
    decreases v, 1
  {
    var keys := MemberOrder(v.members);
    assert InRange(v) <==> KeysInRange(v, keys);
    var acc := out + ["{"];
    FlatAppend(out, "{");
    ghost var start := Flat(acc);
    for i := 0 to |keys|
      invariant Flat(acc) == start + MembersText(v, keys[..i])
      invariant KeysInRange(v, keys[..i])
    {
      MembersTextStep(v, keys, i);
      KeysInRangeStep(v, keys, i);
      Assoc(start, MembersText(v, keys[..i]), if i > 0 then "," else "", MemberText(v, keys[i]));
      acc := EmitComma(acc, i);
      var one := EmitMember(v, keys[i], acc);
      if one.Err? { return one; }
      acc := one.value;
    }
    assert keys[..|keys|] == keys;
    FlatAppend(acc, "}");
    Assoc(Flat(out), "{", MembersText(v, keys), "}");
    r := Ok(acc + ["}"]);
  }

  /** The program's jcs: the joined fragments are exactly the canonical text. */
  method JcsText(v: Json) returns (r: Result<string>)
    ensures r == Jcs(v)
  {
    var out := Emit(v, []);
    assert [] + Text(v) == Text(v);
    r := match out case Ok(parts) => Ok(Flat(parts)) case Err(code) => Err(code);
  }
}
