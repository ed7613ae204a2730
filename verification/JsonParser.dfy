/** Strict JSON reading: the RFC 8259 grammar with the program's hooks for numbers, constants, members and strings. */
module JsonParser {
  import opened Wrappers
  import opened Texts
  import opened Ordering
  import opened Json

  const MALFORMED := "malformed_json"
  const FLOAT := "float_not_allowed"
  const NON_FINITE := "non_finite_number"
  const DUPLICATE := "duplicate_key"
  const TOO_DEEP := "too_deep"
  const LONE_SURROGATE := "lone_surrogate"
  const TOO_LARGE := "too_large"
  const MAX_DEPTH := 32
  const MAX_INT_DIGITS := 16

  /** A parsed tree before its strings are checked: escapes can spell lone surrogates, so text is code points. */
  datatype Raw =
    | RNull
    | RBool(b: bool)
    | RInt(n: int)
    | RStr(s: seq<int>)
    | RArr(items: seq<Raw>)
    | RObj(pairs: seq<Pair>)

  datatype Pair = Pair(key: seq<int>, value: Raw)

  datatype Parsed<+T> = Parsed(value: T, rest: string)

  predicate IsSpace(c: char) { c == ' ' || c == '\t' || c == '\n' || c == '\r' }

  function SkipSpace(s: string): (r: string)
    ensures |r| <= |s|
  {
    if s != [] && IsSpace(s[0]) then SkipSpace(s[1..]) else s
  }

  predicate StartsWith(s: string, p: string) { |p| <= |s| && s[..|p|] == p }

  // ---- strings ----

  predicate IsHigh(u: int) { 0xD800 <= u < 0xDC00 }
  predicate IsLow(u: int) { 0xDC00 <= u < 0xE000 }

  /** The code unit of a backslash-u escape at the front of s. */
  function UnitAt(s: string): Option<int> {
    if |s| >= 6 && s[0] == '\\' && s[1] == 'u' && IsHex(s[2]) && IsHex(s[3]) && IsHex(s[4]) && IsHex(s[5])
    then Some(4096 * HexValue(s[2]) + 256 * HexValue(s[3]) + 16 * HexValue(s[4]) + HexValue(s[5]))
    else None
  }

  function ScanUnicode(s: string): (r: Result<Parsed<int>>)
    ensures r.Ok? ==> |r.value.rest| < |s|
  {
    match UnitAt(s)
    case None => Err(MALFORMED)
    case Some(u) =>
      var next := UnitAt(s[6..]);
      if IsHigh(u) && next.Some? && IsLow(next.value)
      then Ok(Parsed(0x10000 + (u - 0xD800) * 0x400 + (next.value - 0xDC00), s[12..]))
      else Ok(Parsed(u, s[6..]))
  }

  function ScanChar(s: string): (r: Result<Parsed<int>>)
    ensures r.Ok? ==> |r.value.rest| < |s|
  {
    if s == [] || s[0] < ' ' then Err(MALFORMED)
    else if s[0] != '\\' then Ok(Parsed(s[0] as int, s[1..]))
    else if |s| == 1 then Err(MALFORMED)
    else match s[1]
      case '"' => Ok(Parsed('"' as int, s[2..]))
      case '\\' => Ok(Parsed('\\' as int, s[2..]))
      case '/' => Ok(Parsed('/' as int, s[2..]))
      case 'b' => Ok(Parsed(8, s[2..]))
      case 'f' => Ok(Parsed(12, s[2..]))
      case 'n' => Ok(Parsed(10, s[2..]))
      case 'r' => Ok(Parsed(13, s[2..]))
      case 't' => Ok(Parsed(9, s[2..]))
      case 'u' => ScanUnicode(s)
      case _ => Err(MALFORMED)
  }

  /** The body of a string, after its opening quote. */
  function ScanString(s: string): (r: Result<Parsed<seq<int>>>)
    ensures r.Ok? ==> |r.value.rest| < |s|
  {
    if s == [] then Err(MALFORMED)
    else if s[0] == '"' then Ok(Parsed([], s[1..]))
    else
      var c :- ScanChar(s);
      var t :- ScanString(c.rest);
      Ok(Parsed([c.value] + t.value, t.rest))
  }

  // ---- numbers ----

  function DigitRun(s: string): (n: nat)
    ensures n <= |s| && AllDigits(s[..n])
    ensures n < |s| ==> !IsDigit(s[n])
  {
    if s != [] && IsDigit(s[0]) then
      var n := DigitRun(s[1..]);
      assert forall i :: 0 < i < n + 1 ==> s[i] == s[1..][i - 1];
      n + 1
    else 0
  }

  predicate StartsFraction(s: string) { |s| >= 2 && s[0] == '.' && IsDigit(s[1]) }

  predicate StartsExponent(s: string) {
    && |s| >= 2
    && (s[0] == 'e' || s[0] == 'E')
    && (IsDigit(s[1]) || (|s| >= 3 && (s[1] == '+' || s[1] == '-') && IsDigit(s[2])))
  }

  function ParseInt(negative: bool, digits: string): Result<int>
    requires AllDigits(digits)
  {
    if |digits| > MAX_INT_DIGITS then Err(OUT_OF_RANGE)
    else
      var m: int := Number(digits);
      var n := if negative then -m else m;
      if n > MAX_SAFE_INT || n < -MAX_SAFE_INT then Err(OUT_OF_RANGE) else Ok(n)
  }

  /** The digits of a number whose sign has been read. */
  function ParseUnsigned(negative: bool, t: string): (r: Result<Parsed<Raw>>)
    ensures r.Ok? ==> |r.value.rest| < |t|
  {
    if t == [] || !IsDigit(t[0]) then Err(MALFORMED)
    else
      var n := if t[0] == '0' then 1 else DigitRun(t);
      var rest := t[n..];
      if StartsFraction(rest) || StartsExponent(rest) then Err(FLOAT)
      else
        var value :- ParseInt(negative, t[..n]);
        Ok(Parsed(RInt(value), rest))
  }

  function ParseNumber(s: string): (r: Result<Parsed<Raw>>)
    ensures r.Ok? ==> |r.value.rest| < |s|
  {
    if s != [] && s[0] == '-' then ParseUnsigned(true, s[1..]) else ParseUnsigned(false, s)
  }

  // ---- values ----

  predicate HasDuplicate(pairs: seq<Pair>) {
    exists i, j :: 0 <= i < j < |pairs| && pairs[i].key == pairs[j].key
  }

  function ParseValue(s: string): (r: Result<Parsed<Raw>>)
    ensures r.Ok? ==> |r.value.rest| < |s|
    decreases |s|, 1
  {
    if s == [] then Err(MALFORMED)
    else if s[0] == '"' then
      var p :- ScanString(s[1..]);
      Ok(Parsed(RStr(p.value), p.rest))
    else if s[0] == '{' then
      var t := SkipSpace(s[1..]);
      if t != [] && t[0] == '}' then Ok(Parsed(RObj([]), t[1..]))
      else
        var p :- ParsePairs(t);
        if HasDuplicate(p.value) then Err(DUPLICATE) else Ok(Parsed(RObj(p.value), p.rest))
    else if s[0] == '[' then
      var t := SkipSpace(s[1..]);
      if t != [] && t[0] == ']' then Ok(Parsed(RArr([]), t[1..]))
      else
        var p :- ParseItems(t);
        Ok(Parsed(RArr(p.value), p.rest))
    else if StartsWith(s, "null") then Ok(Parsed(RNull, s[4..]))
    else if StartsWith(s, "true") then Ok(Parsed(RBool(true), s[4..]))
    else if StartsWith(s, "false") then Ok(Parsed(RBool(false), s[5..]))
    else if StartsWith(s, "NaN") || StartsWith(s, "Infinity") || StartsWith(s, "-Infinity") then Err(NON_FINITE)
    else ParseNumber(s)
  }

  /** One or more items and the closing bracket. */
  function ParseItems(s: string): (r: Result<Parsed<seq<Raw>>>)
    ensures r.Ok? ==> |r.value.rest| < |s|
    decreases |s|, 2
  {
    var v :- ParseValue(s);
    var t := SkipSpace(v.rest);
    if t == [] then Err(MALFORMED)
    else if t[0] == ']' then Ok(Parsed([v.value], t[1..]))
    else if t[0] != ',' then Err(MALFORMED)
    else
      var more :- ParseItems(SkipSpace(t[1..]));
      Ok(Parsed([v.value] + more.value, more.rest))
  }

  /** A member name, the colon and the member's value. */
  function ParsePair(s: string): (r: Result<Parsed<Pair>>)
    ensures r.Ok? ==> |r.value.rest| < |s|
    decreases |s|, 0
  {
    if s == [] || s[0] != '"' then Err(MALFORMED)
    else
      var k :- ScanString(s[1..]);
      var t := SkipSpace(k.rest);
      if t == [] || t[0] != ':' then Err(MALFORMED)
      else
        var v :- ParseValue(SkipSpace(t[1..]));
        Ok(Parsed(Pair(k.value, v.value), v.rest))
  }

  /** One or more members and the closing brace. */
  function ParsePairs(s: string): (r: Result<Parsed<seq<Pair>>>)
    ensures r.Ok? ==> |r.value.rest| < |s|
    decreases |s|, 2
  {
    var p :- ParsePair(s);
    var t := SkipSpace(p.rest);
    if t == [] then Err(MALFORMED)
    else if t[0] == '}' then Ok(Parsed([p.value], t[1..]))
    else if t[0] != ',' then Err(MALFORMED)
    else
      var more :- ParsePairs(SkipSpace(t[1..]));
      Ok(Parsed([p.value] + more.value, more.rest))
  }

  // ---- the checks made once the text has parsed ----

  predicate IsScalar(c: int) { 0 <= c < 0xD800 || 0xE000 <= c < 0x11_0000 }

  function Decode(s: seq<int>): Option<string> {
    if s == [] then Some([])
    else if !IsScalar(s[0]) then None
    else
      match Decode(s[1..])
      case Some(t) => Some([s[0] as char] + t)
      case None => None
  }

  function Check(v: Raw, depth: nat): Result<Json>
    decreases v
  {
    if depth > MAX_DEPTH then Err(TOO_DEEP)
    else match v
      case RNull => Ok(JNull)
      case RBool(b) => Ok(JBool(b))
      case RInt(n) => Ok(JInt(n))
      case RStr(s) => (match Decode(s) case Some(t) => Ok(JStr(t)) case None => Err(LONE_SURROGATE))
      case RArr(items) =>
        var checked :- CheckItems(items, depth + 1);
        Ok(JArr(checked))
      case RObj(pairs) =>
        var checked :- CheckPairs(pairs, depth + 1);
        Ok(JObj(checked))
  }

  function CheckItems(items: seq<Raw>, depth: nat): Result<seq<Json>>
    decreases items
  {
    if items == [] then Ok([])
    else
      var first :- Check(items[0], depth);
      var others :- CheckItems(items[1..], depth);
      Ok([first] + others)
  }

  function CheckPair(p: Pair, depth: nat): Result<(string, Json)>
    decreases p
  {
    match Decode(p.key)
    case None => Err(LONE_SURROGATE)
    case Some(k) =>
      var v :- Check(p.value, depth);
      Ok((k, v))
  }

  function CheckPairs(pairs: seq<Pair>, depth: nat): Result<map<string, Json>>
    decreases pairs
  {
    if pairs == [] then Ok(map[])
    else
      var first :- CheckPair(pairs[0], depth);
      var others :- CheckPairs(pairs[1..], depth);
      Ok(others[first.0 := first.1])
  }

  function ParseDocument(text: string): Result<Raw> {
    var v :- ParseValue(SkipSpace(text));
    if SkipSpace(v.rest) != [] then Err(MALFORMED) else Ok(v.value)
  }

  function LoadsStrict(text: string, maxBytes: nat): Result<Json> {
    if Utf8Length(text) > maxBytes then Err(TOO_LARGE)
    else
      var raw :- ParseDocument(text);
      Check(raw, 0)
  }
}
