/** URL canonicalisation: one strict grammar, typed fields out, and the text rebuilt from them. */
module Url {
  import opened Wrappers
  import opened Texts
  import opened Unicode
  import opened Percent
  import opened DotSegments

  const MAX_URL_LENGTH := 2048
  const MAX_HOST_LENGTH := 253

  datatype Url = Url(scheme: string, host: string, port: nat, path: string, query: string)

  const DEFAULT_PORT: map<string, nat> := map["http" := 80, "https" := 443]

  /** The schemes a well-formed manifest may list. */
  predicate KnownSchemes(schemes: seq<string>) {
    forall s :: s in schemes ==> s in DEFAULT_PORT
  }

  // ---- splitting the text ----

  predicate SchemeChar(c: char) { IsAlnum(c) || c in "+.-" }

  function SchemeRun(s: string): (n: nat)
    ensures n <= |s|
  {
    if s == [] || !SchemeChar(s[0]) then 0 else 1 + SchemeRun(s[1..])
  }

  datatype Parts = Parts(scheme: string, authority: string, path: string, query: string)

  predicate HasScheme(s: string) {
    var n := SchemeRun(s);
    n > 0 && IsAlpha(s[0]) && HasPrefix(s[n..], "://")
  }

  /** The generic grammar; the fragment is dropped. */
  function SplitUrl(s: string): Option<Parts> {
    if !HasScheme(s) then None
    else
      var n := SchemeRun(s);
      var afterScheme := s[n + 3..];
      var a := Until(afterScheme, "/?#");
      var afterAuthority := afterScheme[a..];
      var p := Until(afterAuthority, "?#");
      var afterPath := afterAuthority[p..];
      var query := if afterPath != [] && afterPath[0] == '?' then afterPath[1..][..Until(afterPath[1..], "#")] else [];
      Some(Parts(s[..n], afterScheme[..a], afterAuthority[..p], query))
  }

  function Lower(s: string): (r: string)
    ensures |r| == |s|
  {
    seq(|s|, i requires 0 <= i < |s| => if IsUpper(s[i]) then (s[i] as int - 'A' as int + 'a' as int) as char else s[i])
  }

  // ---- hosts ----

  predicate LabelChar(c: char) { IsLower(c) || IsDigit(c) || c == '-' }

  predicate IsLabel(s: string) {
    && 1 <= |s| <= 63
    && (forall i :: 0 <= i < |s| ==> LabelChar(s[i]))
    && s[0] != '-' && s[|s| - 1] != '-'
  }

  predicate IsTopLabel(s: string) {
    || (2 <= |s| <= 63 && forall i :: 0 <= i < |s| ==> IsLower(s[i]))
    || (5 <= |s| <= 63 && s[..4] == "xn--" && forall i :: 4 <= i < |s| ==> LabelChar(s[i]))
  }

  predicate IsNumericHost(s: string) {
    || (|s| > 0 && AllDigits(s))
    || (|s| > 2 && s[0] == '0' && (s[1] == 'x' || s[1] == 'X') && forall i :: 2 <= i < |s| ==> IsHex(s[i]))
  }

  predicate IsOctet(s: string) {
    AllDigits(s) && NoLeadingZero(s) && |s| <= 3 && Number(s) <= 255
  }

  predicate IsIpv4(s: string) {
    var parts := Split(s, '.');
    |parts| == 4 && forall i :: 0 <= i < 4 ==> IsOctet(parts[i])
  }

  function NumericOrBad(s: string): string {
    if IsNumericHost(s) then "ip_literal_not_allowed" else "bad_host"
  }

  function CheckHost(host: string, allowIp: bool): Result<string> {
    var labels := Split(host, '.');
    if |labels| < 2 then Err(NumericOrBad(host))
    else if |host| > MAX_HOST_LENGTH then Err("bad_host")
    else if exists i :: 0 <= i < |labels| && !IsLabel(labels[i]) then Err("bad_host")
    else if IsIpv4(host) then if allowIp then Ok(host) else Err("ip_literal_not_allowed")
    else if !IsTopLabel(labels[|labels| - 1]) then Err(NumericOrBad(labels[|labels| - 1]))
    else Ok(host)
  }

  function CanonicalHost(t: Tables, text: string, allowIp: bool): Result<string> {
    if text == [] then Err("empty_host")
    else if text[0] == '[' then
      if !allowIp then Err("ip_literal_not_allowed")
      else if text[|text| - 1] != ']' || |text| < 2 then Err("bad_host")
      else match t.ipv6(text[1..|text| - 1])
        case Some(address) => Ok("[" + address + "]")
        case None => Err("bad_host")
    else
      var normal := t.nfc(text);
      var trimmed := if normal != [] && normal[|normal| - 1] == '.' then normal[..|normal| - 1] else normal;
      match t.idna(trimmed)
      case None => Err("bad_host")
      case Some(host) => CheckHost(host, allowIp)
  }

  /** Every suffix down to two labels: the entities a host or recipient domain hangs under. */
  function HostSuffixes(host: string): seq<string> {
    if host != [] && host[0] == '[' then [host]
    else
      var labels := Split(host, '.');
      seq(|labels| - 1, i requires 0 <= i < |labels| - 1 => Join(labels[i..], '.'))
  }

  // ---- the canonical URL ----

  function BadChar(t: Tables, c: char): Option<string> {
    if IsControl(c) then Some("control_character")
    else if c == ' ' || c == '\\' then Some("illegal_character")
    else if t.unassigned(c) then Some("unassigned_code_point")
    else None
  }

  function FirstBadChar(t: Tables, s: string): Option<string> {
    if s == [] then None
    else if BadChar(t, s[0]).Some? then BadChar(t, s[0])
    else FirstBadChar(t, s[1..])
  }

  function LastColon(s: string): (n: nat)
    requires ':' in s
    ensures n < |s| && s[n] == ':'
  {
    if s[|s| - 1] == ':' then |s| - 1
    else
      assert s == s[..|s| - 1] + [s[|s| - 1]];
      LastColon(s[..|s| - 1])
  }

  /** The host text and the port text of an authority. */
  function SplitAuthority(authority: string): Result<(string, string)> {
    if authority != [] && authority[0] == '[' then
      var closing := Until(authority, "]");
      if closing == |authority| then Err("bad_host")
      else
        var rest := authority[closing + 1..];
        if rest == [] then Ok((authority, ""))
        else if rest[0] == ':' then Ok((authority[..closing + 1], rest[1..]))
        else Err("bad_host")
    else if ':' in authority then
      var n := LastColon(authority);
      Ok((authority[..n], authority[n + 1..]))
    else Ok((authority, ""))
  }

  function CanonicalPort(port: string, scheme: string): Result<nat>
    requires scheme in DEFAULT_PORT
  {
    if port == "" then Ok(DEFAULT_PORT[scheme])
    else if !(|port| <= 5 && AllDigits(port)) then Err("bad_port")
    else if 1 <= Number(port) <= 65535 then Ok(Number(port))
    else Err("bad_port")
  }

  function CanonicalParts(t: Tables, parts: Parts, schemes: seq<string>, allowIp: bool): Result<Url>
    requires KnownSchemes(schemes)
  {
    var scheme := Lower(parts.scheme);
    if scheme !in schemes then Err("scheme_not_allowed")
    else if '@' in parts.authority then Err("credentials_in_url")
    else
      var hostPort :- SplitAuthority(parts.authority);
      var host :- CanonicalHost(t, hostPort.0, allowIp);
      var port :- CanonicalPort(hostPort.1, scheme);
      var path :- Normalise(parts.path, PathChars);
      var query :- Normalise(parts.query, QueryChars);
      Ok(Url(scheme, host, port, RemoveDots(if path == "" then "/" else path), query))
  }

  function CanonicalUrl(t: Tables, value: string, schemes: seq<string>, allowIp: bool): Result<Url>
    requires KnownSchemes(schemes)
  {
    if |value| > MAX_URL_LENGTH then Err("too_long")
    else match FirstBadChar(t, value)
      case Some(code) => Err(code)
      case None =>
        match SplitUrl(t.nfc(value))
        case None => Err("malformed_url")
        case Some(parts) => CanonicalParts(t, parts, schemes, allowIp)
  }

  lemma AcceptedScheme(t: Tables, value: string, schemes: seq<string>, allowIp: bool)
    requires KnownSchemes(schemes) && CanonicalUrl(t, value, schemes, allowIp).Ok?
    ensures CanonicalUrl(t, value, schemes, allowIp).value.scheme in DEFAULT_PORT
  {
    hide SplitUrl, SplitAuthority, CanonicalHost, CanonicalPort, Normalise, RemoveDots, FirstBadChar;
  }

  function Authority(u: Url): string
    requires u.scheme in DEFAULT_PORT
  {
    if u.port == DEFAULT_PORT[u.scheme] then u.host else u.host + ":" + Digits(u.port)
  }

  function Rebuild(u: Url): string
    requires u.scheme in DEFAULT_PORT
  {
    u.scheme + "://" + (Authority(u) + (u.path + QueryText(u.query)))
  }

  // ---- every accepted URL is a fixed point ----

  predicate HostChar(c: char) { LabelChar(c) || c == '.' }

  predicate Bracketed(host: string) { |host| >= 2 && host[0] == '[' && host[|host| - 1] == ']' }

  function Inner(host: string): string
    requires Bracketed(host)
  {
    host[1..|host| - 1]
  }

  /** The zone an address host carries. */
  function HostZone(host: string): (z: string)
    ensures z == "" || z[0] == '%'
  {
    if Bracketed(host) then Zone(Inner(host)) else ""
  }

  predicate CleanHost(host: string) {
    && host != []
    && (if host[0] == '[' then Bracketed(host) && AddressText(BeforeZone(Inner(host)))
        else forall i :: 0 <= i < |host| ==> HostChar(host[i]))
  }

  lemma {:induction false} LabelsMakeHost(labels: seq<string>)
    requires forall i :: 0 <= i < |labels| ==> IsLabel(labels[i])
    ensures var h := Join(labels, '.'); forall i :: 0 <= i < |h| ==> HostChar(h[i])
    ensures labels != [] ==> Join(labels, '.') != [] && Join(labels, '.')[|Join(labels, '.')| - 1] != '.'
  {
    if |labels| > 1 {
      LabelsMakeHost(labels[1..]);
    }
  }

  lemma CheckedHost(host: string, allowIp: bool)
    requires CheckHost(host, allowIp).Ok?
    ensures CheckHost(host, allowIp) == Ok(host) && CleanHost(host) && host[0] != '[' && host[|host| - 1] != '.'
  {
    JoinSplit(host, '.');
    LabelsMakeHost(Split(host, '.'));
    assert HostChar(host[0]);
  }

  lemma AddressFixed(t: Tables, text: string)
    requires AddressLawful(t) && text != [] && text[0] == '[' && CanonicalHost(t, text, true).Ok?
    ensures var host := CanonicalHost(t, text, true).value;
      CleanHost(host) && CanonicalHost(t, host, true) == Ok(host) && HostZone(host) == HostZone(text)
  {
    var inner := text[1..|text| - 1];
    assert AddressLawsAt(t, inner);
    var address := t.ipv6(inner).value;
    var host := "[" + address + "]";
    assert Inner(host) == address;
  }

  lemma EncodedFixed(t: Tables, s: string)
    requires Lawful(t) && t.idna(s).Some?
    ensures var host := t.idna(s).value; t.nfc(host) == host && t.idna(host) == Some(host)
  {
    assert LawsAt(t, s) && LawsAt(t, t.idna(s).value);
  }

  lemma NameFixed(t: Tables, text: string, allowIp: bool)
    requires Lawful(t) && text != [] && text[0] != '[' && CanonicalHost(t, text, allowIp).Ok?
    ensures var host := CanonicalHost(t, text, allowIp).value;
      CleanHost(host) && CanonicalHost(t, host, allowIp) == Ok(host) && HostZone(host) == HostZone(text)
  {
    hide Lawful, CheckHost, CleanHost;
    var normal := t.nfc(text);
    var trimmed := if normal != [] && normal[|normal| - 1] == '.' then normal[..|normal| - 1] else normal;
    var host := t.idna(trimmed).value;
    EncodedFixed(t, trimmed);
    CheckedHost(host, allowIp);
  }

  /** An accepted host is clean and canonicalises to itself; the zone of an address is kept as written. */
  lemma HostFixed(t: Tables, text: string, allowIp: bool)
    requires Lawful(t) && (allowIp ==> AddressLawful(t)) && CanonicalHost(t, text, allowIp).Ok?
    ensures var host := CanonicalHost(t, text, allowIp).value;
      CleanHost(host) && CanonicalHost(t, host, allowIp) == Ok(host) && HostZone(host) == HostZone(text)
  {
    hide Lawful, AddressLawful;
    if text[0] == '[' { AddressFixed(t, text); } else { NameFixed(t, text, allowIp); }
  }

  /** The port suffix of a rebuilt authority. */
  function PortSuffix(u: Url): string
    requires u.scheme in DEFAULT_PORT
  {
    if u.port == DEFAULT_PORT[u.scheme] then "" else ":" + Digits(u.port)
  }

  /** A zone holds nothing that ends a host. */
  predicate Contained(zone: string) {
    forall i :: 0 <= i < |zone| ==> zone[i] !in "/?#@]"
  }

  function HostHead(host: string): string { if Bracketed(host) then "[" + BeforeZone(Inner(host)) else host }

  function HostTail(host: string): string { if Bracketed(host) then "]" else "" }

  lemma HostInThree(host: string)
    requires CleanHost(host)
    ensures host == HostHead(host) + HostZone(host) + HostTail(host)
    ensures host[0] == '[' <==> Bracketed(host)
    ensures forall i :: 0 <= i < |HostHead(host)| ==> HostHead(host)[i] == '[' || HostChar(HostHead(host)[i]) || AddressChar(HostHead(host)[i])
  {
    hide BeforeZone, Zone;
    if Bracketed(host) {
      var inner := Inner(host);
      assert host == "[" + inner + "]";
      Rebracket(BeforeZone(inner), Zone(inner), "");
      NothingAfter(inner, "[" + BeforeZone(inner) + Zone(inner));
    }
  }

  lemma NothingAfter(inner: string, s: string)
    ensures "[" + inner + "]" + "" == "[" + inner + "]" && s + ("]" + "") == s + "]"
  {
  }

  lemma HostStops(host: string)
    requires CleanHost(host) && Contained(HostZone(host))
    ensures forall i :: 0 <= i < |host| ==> host[i] !in "/?#@"
    ensures host[0] != '[' ==> ':' !in host
    ensures host[0] == '[' ==> forall i :: 0 <= i < |host| - 1 ==> host[i] != ']'
  {
    HostInThree(host);
    var head, zone := HostHead(host), HostZone(host);
    forall i | 0 <= i < |host| ensures host[i] !in "/?#@" && (host[0] == '[' && i < |host| - 1 ==> host[i] != ']') {
      if i < |head| { assert host[i] == head[i]; }
      else if i < |head| + |zone| { assert host[i] == zone[i - |head|]; }
    }
  }

  lemma SplitNamed(host: string, port: string)
    requires host != [] && host[0] != '[' && ':' !in host && AllDigits(port)
    ensures SplitAuthority(host) == Ok((host, ""))
    ensures SplitAuthority(host + ":" + port) == Ok((host, port))
  {
    LastColonBefore(host, port);
  }

  lemma SplitBracketed(host: string, port: string)
    requires CleanHost(host) && host[0] == '[' && Contained(HostZone(host))
    ensures SplitAuthority(host) == Ok((host, ""))
    ensures SplitAuthority(host + ":" + port) == Ok((host, port))
  {
    BracketCloses(host, "");
    BracketCloses(host, ":" + port);
    assert host + "" == host && host + (":" + port) == host + ":" + port;
    assert (":" + port)[1..] == port;
  }

  lemma AuthorityFixed(u: Url)
    requires CleanHost(u.host) && Contained(HostZone(u.host)) && u.scheme in DEFAULT_PORT && 1 <= u.port <= 65535
    ensures '@' !in Authority(u)
    ensures forall i :: 0 <= i < |Authority(u)| ==> Authority(u)[i] !in "/?#"
    ensures SplitAuthority(Authority(u)) ==
            Ok((u.host, if u.port == DEFAULT_PORT[u.scheme] then "" else Digits(u.port)))
  {
    hide SplitAuthority;
    var a := Authority(u);
    HostStops(u.host);
    assert a == u.host + PortSuffix(u);
    forall i | 0 <= i < |a| ensures a[i] !in "/?#@" {
      if i >= |u.host| { assert a[i] == PortSuffix(u)[i - |u.host|]; }
    }
    if u.host[0] == '[' { SplitBracketed(u.host, Digits(u.port)); } else { SplitNamed(u.host, Digits(u.port)); }
  }

  lemma BracketCloses(host: string, rest: string)
    requires CleanHost(host) && host[0] == '[' && Contained(HostZone(host))
    ensures Until(host + rest, "]") == |host| - 1
    ensures (host + rest)[|host|..] == rest && (host + rest)[..|host|] == host
  {
    HostStops(host);
    var inner := host[..|host| - 1];
    UntilStops(inner, "]", "]" + rest);
    assert host + rest == inner + ("]" + rest);
  }

  lemma {:induction false} LastColonBefore(host: string, port: string)
    requires ':' !in port
    ensures var a := host + ":" + port; ':' in a && LastColon(a) == |host| && a[..|host|] == host && a[|host| + 1..] == port
  {
    var a := host + ":" + port;
    assert a[|host|] == ':';
    if port != [] {
      var less := port[..|port| - 1];
      assert forall c :: c in less ==> c in port;
      LastColonBefore(host, less);
      assert a[..|a| - 1] == host + ":" + less;
      assert a[|a| - 1] == port[|port| - 1];
      assert port[|port| - 1] in port;
    }
  }

  lemma {:induction false} SchemeRunStops(s: string, rest: string)
    requires forall i :: 0 <= i < |s| ==> SchemeChar(s[i])
    requires rest != [] && !SchemeChar(rest[0])
    ensures SchemeRun(s + rest) == |s|
  {
    if s == [] {
      assert s + rest == rest;
    } else {
      assert (s + rest)[1..] == s[1..] + rest;
      SchemeRunStops(s[1..], rest);
    }
  }

  predicate IsScheme(s: string) { s != [] && IsAlpha(s[0]) && forall i :: 0 <= i < |s| ==> SchemeChar(s[i]) }

  lemma SchemeRead(scheme: string, rest: string)
    requires IsScheme(scheme)
    ensures var s := scheme + "://" + rest;
      HasScheme(s) && SchemeRun(s) == |scheme| && s[..|scheme|] == scheme && s[|scheme| + 3..] == rest
  {
    var s := scheme + "://" + rest;
    assert s == scheme + ("://" + rest);
    SchemeRunStops(scheme, "://" + rest);
    assert s[|scheme|..] == "://" + rest;
    assert s[|scheme|..][..3] == "://";
  }

  lemma KnownIsScheme(scheme: string)
    requires scheme in DEFAULT_PORT
    ensures IsScheme(scheme)
  {
  }

  /** Cutting at the first stop character takes exactly the part before it. */
  lemma Stage(part: string, stops: string, rest: string)
    requires forall i :: 0 <= i < |part| ==> part[i] !in stops
    requires rest == [] || rest[0] in stops
    ensures var n := Until(part + rest, stops); (part + rest)[..n] == part && (part + rest)[n..] == rest
  {
    UntilStops(part, stops, rest);
  }

  function QueryText(query: string): string {
    if query == "" then "" else "?" + query
  }

  /** The generic grammar reads rebuilt text back into its parts. */
  lemma SplitRebuilt(scheme: string, authority: string, path: string, query: string)
    requires scheme in DEFAULT_PORT
    requires forall i :: 0 <= i < |authority| ==> authority[i] !in "/?#"
    requires (path != [] ==> path[0] == '/') && forall i :: 0 <= i < |path| ==> path[i] !in "?#"
    requires forall i :: 0 <= i < |query| ==> query[i] !in "#"
    ensures SplitUrl(scheme + "://" + (authority + (path + QueryText(query)))) == Some(Parts(scheme, authority, path, query))
  {
    hide SplitUrl, Until, HasScheme, SchemeRun, QueryText, IsScheme;
    var tail := QueryText(query);
    var rest := path + tail;
    TailStops(path, query);
    KnownIsScheme(scheme);
    SchemeRead(scheme, authority + rest);
    Stage(authority, "/?#", rest);
    Stage(path, "?#", tail);
    QueryBack(query);
    SplitInto(scheme + "://" + (authority + rest), authority + rest, rest, tail);
  }

  /** The query of what follows a path. */
  function QueryOf(tail: string): string {
    if tail != [] && tail[0] == '?' then tail[1..][..Until(tail[1..], "#")] else []
  }

  lemma QueryBack(query: string)
    requires forall i :: 0 <= i < |query| ==> query[i] !in "#"
    ensures QueryOf(QueryText(query)) == query
  {
    hide Until;
    if query != "" {
      assert QueryText(query)[1..] == query;
      Stage(query, "#", "");
      assert query + "" == query;
    }
  }

  /** The grammar's cuts, one after the other. */
  lemma SplitInto(s: string, afterScheme: string, afterAuthority: string, afterPath: string)
    requires HasScheme(s) && s[SchemeRun(s) + 3..] == afterScheme
    requires afterScheme[Until(afterScheme, "/?#")..] == afterAuthority
    requires afterAuthority[Until(afterAuthority, "?#")..] == afterPath
    ensures SplitUrl(s) == Some(Parts(s[..SchemeRun(s)], afterScheme[..Until(afterScheme, "/?#")],
                                      afterAuthority[..Until(afterAuthority, "?#")], QueryOf(afterPath)))
  {
    hide SchemeRun, Until;
  }

  lemma TailStops(path: string, query: string)
    requires path != [] ==> path[0] == '/'
    ensures var rest := path + QueryText(query); rest == [] || rest[0] in "/?#"
    ensures QueryText(query) == [] || QueryText(query)[0] in "?#"
  {
  }

  lemma PathFixed(path: string)
    requires Normal(path, PathChars)
    ensures var p := RemoveDots(path);
      && p[0] == '/' && Normal(p, PathChars) && Normalise(p, PathChars) == Ok(p) && RemoveDots(p) == p
  {
    NormalSegments(path);
    WalkProperties([], Split(path, '/')[1..]);
    var segments := Walk([], Split(path, '/')[1..]);
    NormalJoin(segments);
    var p := RemoveDots(path);
    assert p[1..] == Join(segments, '/');
    NormalIsFixed(p, PathChars);
    RemoveDotsFixed(path);
  }

  predicate Printable(s: string) {
    forall i :: 0 <= i < |s| ==> 0x20 < s[i] as int < 0x7F && s[i] != '\\'
  }

  lemma {:induction false} NoBadChar(t: Tables, s: string)
    ensures FirstBadChar(t, s) == None <==> forall i :: 0 <= i < |s| ==> BadChar(t, s[i]) == None
  {
    if s != [] {
      NoBadChar(t, s[1..]);
      assert forall i :: 0 < i < |s| ==> s[i] == s[1..][i - 1];
    }
  }

  /** Normalising readable text leaves it readable. */
  lemma NormalisedReadable(t: Tables, s: string)
    requires Lawful(t) && FirstBadChar(t, s) == None
    ensures FirstBadChar(t, t.nfc(s)) == None
  {
    NoBadChar(t, s);
    var r := t.nfc(s);
    assert LawsAt(t, s);
    forall i | 0 <= i < |r| ensures BadChar(t, r[i]) == None { assert r[i] in r; }
    NoBadChar(t, r);
  }

  lemma PrintableConcat(s: string, r: string)
    requires Printable(s) && Printable(r)
    ensures Printable(s + r)
  {
  }

  /** A zone that may stand in a rebuilt URL. */
  predicate ZoneText(t: Tables, zone: string) {
    Contained(zone) && FirstBadChar(t, zone) == None && Stable(t, zone)
  }

  /** Plain text with a zone inside is readable and stable. */
  lemma ReadableAround(t: Tables, left: string, zone: string, right: string)
    requires Lawful(t) && Printable(left) && Printable(right) && ZoneText(t, zone)
    requires zone != "" ==> zone[0] == '%' && right != "" && right[0] == ']'
    ensures FirstBadChar(t, left + zone + right) == None && Stable(t, left + zone + right)
  {
    var s := left + zone + right;
    NoBadChar(t, s);
    NoBadChar(t, zone);
    assert LawsAt(t, left) && LawsAt(t, right);
    StableWithZone(t, left, zone, right);
    hide Lawful;
    forall i | 0 <= i < |s| ensures BadChar(t, s[i]) == None {
      if i < |left| { assert s[i] == left[i]; }
      else if i < |left| + |zone| { assert s[i] == zone[i - |left|]; }
      else { assert s[i] == right[i - |left| - |zone|]; }
    }
  }

  lemma StableWithZone(t: Tables, left: string, zone: string, right: string)
    requires Lawful(t) && Ascii(left) && Ascii(right) && Stable(t, zone)
    requires zone != "" ==> zone[0] == '%' && right != "" && right[0] == ']'
    ensures Stable(t, left + zone + right)
  {
    assert LawsAt(t, left) && LawsAt(t, right);
    if zone == "" {
      assert LawsAt(t, left + zone + right);
    } else {
      var z, r := zone[1..], right[1..];
      assert LawsAt(t, "") && LawsAt(t, r);
      hide Stable, Lawful;
      assert zone == "" + ['%'] + z;
      StableAround(t, "", '%', z);
      StableAround(t, left, '%', z);
      StableAround(t, left + ['%'] + z, ']', r);
      assert left + zone + right == left + ['%'] + z + [']'] + r;
    }
  }

  /** The zone inside an accepted text is one that may stand in the rebuilt one. */
  lemma ZoneInText(t: Tables, before: string, zone: string, after: string)
    requires Lawful(t) && Stable(t, before + zone + after) && FirstBadChar(t, before + zone + after) == None
    requires Contained(zone) && (zone != "" ==> zone[0] == '%' && after != "" && after[0] == ']')
    ensures ZoneText(t, zone)
  {
    var s := before + zone + after;
    NoBadChar(t, s);
    NoBadChar(t, zone);
    assert forall i :: 0 <= i < |zone| ==> zone[i] == s[|before| + i];
    assert LawsAt(t, "");
    if zone != "" {
      var z, a := zone[1..], after[1..];
      hide Stable, Lawful, FirstBadChar, BadChar;
      assert s == before + ['%'] + z + [']'] + a;
      StableAround(t, before + ['%'] + z, ']', a);
      StableAround(t, before, '%', z);
      StableAround(t, "", '%', z);
      assert zone == "" + ['%'] + z;
    }
  }

  lemma ComponentPrintable(s: string, k: Component)
    requires Normal(s, k)
    ensures Printable(s)
  {
    NormalChars(s, k);
  }

  lemma PortPrintable(u: Url)
    requires u.scheme in DEFAULT_PORT
    ensures Printable(PortSuffix(u))
  {
    PrintableConcat(":", Digits(u.port));
  }

  lemma SchemePrintable(scheme: string)
    requires scheme in DEFAULT_PORT
    ensures Printable(scheme + "://")
  {
    assert Printable("http") && Printable("https");
    PrintableConcat(scheme, "://");
  }

  lemma RebuiltInThree(u: Url)
    requires CleanHost(u.host) && u.scheme in DEFAULT_PORT
    ensures Rebuild(u) == u.scheme + "://" + HostHead(u.host) + HostZone(u.host)
                          + (HostTail(u.host) + (PortSuffix(u) + (u.path + QueryText(u.query))))
  {
    HostInThree(u.host);
    Reassociate(u.scheme + "://", HostHead(u.host), HostZone(u.host), HostTail(u.host), PortSuffix(u), u.path + QueryText(u.query));
    assert Authority(u) == u.host + PortSuffix(u);
  }

  lemma Reassociate(a: string, b: string, c: string, d: string, e: string, f: string)
    ensures a + (b + c + d + e + f) == a + b + c + (d + (e + f))
  {
  }

  /** The rebuilt text passes the character checks and is stable. */
  lemma RebuiltReadable(t: Tables, u: Url)
    requires Lawful(t) && CleanHost(u.host) && ZoneText(t, HostZone(u.host)) && u.scheme in DEFAULT_PORT
    requires Normal(u.path, PathChars) && Normal(u.query, QueryChars)
    ensures FirstBadChar(t, Rebuild(u)) == None && Stable(t, Rebuild(u))
  {
    hide Lawful, ZoneText, Rebuild, Authority;
    ComponentPrintable(u.path, PathChars);
    ComponentPrintable(u.query, QueryChars);
    PortPrintable(u);
    SchemePrintable(u.scheme);
    HostInThree(u.host);
    PrintableConcat("?", u.query);
    PrintableConcat(u.path, QueryText(u.query));
    PrintableConcat(PortSuffix(u), u.path + QueryText(u.query));
    PrintableConcat(HostTail(u.host), PortSuffix(u) + (u.path + QueryText(u.query)));
    PrintableConcat(u.scheme + "://", HostHead(u.host));
    RebuiltInThree(u);
    ReadableAround(t, u.scheme + "://" + HostHead(u.host), HostZone(u.host),
                   HostTail(u.host) + (PortSuffix(u) + (u.path + QueryText(u.query))));
  }

  lemma DigitsOfPort(port: nat)
    requires 1 <= port <= 65535
    ensures |Digits(port)| <= 5 && Number(Digits(port)) == port && Digits(port) != ""
  {
    NumberOfDigits(port);
    assert Pow10(5) == 100000;
    DigitCount(Digits(port), 5);
  }

  lemma LowerKnown(scheme: string)
    requires scheme in DEFAULT_PORT
    ensures Lower(scheme) == scheme
  {
  }

  /** What acceptance says about the fields. */
  ghost predicate Canonical(t: Tables, u: Url, schemes: seq<string>, allowIp: bool) {
    && u.scheme in schemes && u.scheme in DEFAULT_PORT && 1 <= u.port <= 65535
    && CleanHost(u.host) && CanonicalHost(t, u.host, allowIp) == Ok(u.host) && ZoneText(t, HostZone(u.host))
    && u.path != [] && u.path[0] == '/' && RemoveDots(u.path) == u.path
    && Normal(u.path, PathChars) && Normal(u.query, QueryChars)
  }

  lemma CanonicalFields(t: Tables, parts: Parts, schemes: seq<string>, allowIp: bool)
    requires Lawful(t) && (allowIp ==> AddressLawful(t)) && KnownSchemes(schemes)
    requires CanonicalParts(t, parts, schemes, allowIp).Ok? && ZoneText(t, HostZone(SplitAuthority(parts.authority).value.0))
    ensures Canonical(t, CanonicalParts(t, parts, schemes, allowIp).value, schemes, allowIp)
  {
    hide Lawful, AddressLawful, ZoneText, SplitAuthority, CanonicalHost, Normalise;
    var hostPort := SplitAuthority(parts.authority).value;
    HostFixed(t, hostPort.0, allowIp);
    NormaliseIsNormal(parts.path, PathChars);
    NormaliseIsNormal(parts.query, QueryChars);
    var path := Normalise(parts.path, PathChars).value;
    PathFixed(if path == "" then "/" else path);
  }

  lemma AuthorityOf(text: string)
    requires SplitUrl(text).Some?
    ensures var n := SchemeRun(text);
      n + 3 <= |text| && SplitUrl(text).value.authority == text[n + 3..][..Until(text[n + 3..], "/?#")]
  {
    hide SchemeRun, Until;
  }

  /** Cutting s at n and what follows at the first stop character leaves three parts, the middle one free of them. */
  lemma CutAtStop(s: string, n: nat, stops: string) returns (before: string, middle: string, after: string)
    requires n <= |s|
    ensures middle == s[n..][..Until(s[n..], stops)] && s == before + middle + after
    ensures forall i :: 0 <= i < |middle| ==> middle[i] !in stops
  {
    var tail := s[n..];
    var a := Until(tail, stops);
    before, middle, after := s[..n], tail[..a], tail[a..];
    hide Until;
    assert forall i :: 0 <= i < a ==> middle[i] == tail[i];
  }

  /** Where the authority stands in the text, and that none of its characters ends it. */
  lemma AuthorityInText(text: string) returns (before: string, after: string)
    requires SplitUrl(text).Some?
    ensures var authority := SplitUrl(text).value.authority;
      text == before + authority + after && forall i :: 0 <= i < |authority| ==> authority[i] !in "/?#"
  {
    hide SplitUrl, SchemeRun, Until;
    AuthorityOf(text);
    var authority;
    before, authority, after := CutAtStop(text, SchemeRun(text) + 3, "/?#");
    assert SplitUrl(text).value.authority == authority;
  }

  /** A bracketed authority's host ends at the first closing bracket. */
  lemma BracketedAuthority(authority: string) returns (inner: string, rest: string)
    requires SplitAuthority(authority).Ok? && authority != [] && authority[0] == '['
    ensures authority == "[" + inner + "]" + rest && ']' !in inner
    ensures SplitAuthority(authority).value.0 == "[" + inner + "]"
  {
    var closing := Until(authority, "]");
    inner, rest := authority[1..closing], authority[closing + 1..];
    assert authority[..closing + 1] == "[" + inner + "]";
  }

  lemma Rebracket(b: string, z: string, rest: string)
    ensures "[" + (b + z) + "]" + rest == ("[" + b) + z + ("]" + rest)
  {
  }

  lemma ContainedIn(s: string, zone: string)
    requires (forall i :: 0 <= i < |zone| ==> zone[i] in s) && ']' !in zone && forall c :: c in s ==> c !in "/?#@"
    ensures Contained(zone)
  {
    assert forall i :: 0 <= i < |zone| ==> zone[i] in zone;
  }

  /** An authority's zone ends at its closing bracket. */
  lemma ZoneInAuthority(authority: string) returns (before: string, after: string)
    requires SplitAuthority(authority).Ok? && '@' !in authority && forall i :: 0 <= i < |authority| ==> authority[i] !in "/?#"
    ensures var zone := HostZone(SplitAuthority(authority).value.0);
      && authority == before + zone + after && Contained(zone)
      && (zone != "" ==> after != "" && after[0] == ']')
  {
    if authority != [] && authority[0] == '[' {
      var inner, rest := BracketedAuthority(authority);
      hide SplitAuthority, Contained;
      var host := "[" + inner + "]";
      assert Bracketed(host) && Inner(host) == inner;
      var zone := Zone(inner);
      before, after := "[" + BeforeZone(inner), "]" + rest;
      Rebracket(BeforeZone(inner), zone, rest);
      assert forall i :: 0 <= i < |zone| ==> zone[i] in inner;
      ContainedIn(authority, zone);
    } else {
      UnbracketedAuthority(authority);
      before, after := authority, "";
    }
  }

  lemma UnbracketedAuthority(authority: string)
    requires SplitAuthority(authority).Ok? && (authority == [] || authority[0] != '[')
    ensures HostZone(SplitAuthority(authority).value.0) == ""
  {
  }

  lemma TextOfUrl(t: Tables, value: string, schemes: seq<string>, allowIp: bool)
    requires Lawful(t) && KnownSchemes(schemes) && CanonicalUrl(t, value, schemes, allowIp).Ok?
    ensures var text := t.nfc(value); FirstBadChar(t, text) == None && Stable(t, text) && SplitUrl(text).Some?
    ensures var parts := SplitUrl(t.nfc(value)).value;
      && CanonicalParts(t, parts, schemes, allowIp) == CanonicalUrl(t, value, schemes, allowIp)
      && '@' !in parts.authority && SplitAuthority(parts.authority).Ok?
  {
    NormalisedReadable(t, value);
    assert LawsAt(t, value);
    hide Lawful, FirstBadChar, SplitUrl, SplitAuthority, CanonicalHost, Normalise;
  }

  /** What an accepted URL's fields are. */
  lemma AcceptedParts(t: Tables, value: string, schemes: seq<string>, allowIp: bool)
    requires Lawful(t) && (allowIp ==> AddressLawful(t)) && KnownSchemes(schemes)
    requires CanonicalUrl(t, value, schemes, allowIp).Ok?
    ensures Canonical(t, CanonicalUrl(t, value, schemes, allowIp).value, schemes, allowIp)
  {
    hide Lawful, AddressLawful, ZoneText, SplitAuthority, CanonicalHost, Normalise, SplitUrl, Stable, FirstBadChar,
         Canonical, Contained, HostZone, CanonicalUrl, CanonicalParts;
    TextOfUrl(t, value, schemes, allowIp);
    var text := t.nfc(value);
    var parts := SplitUrl(text).value;
    var before, after := AuthorityInText(text);
    var head, tail := ZoneInAuthority(parts.authority);
    var zone := HostZone(SplitAuthority(parts.authority).value.0);
    FiveParts(before, head, zone, tail, after);
    ZoneInText(t, before + head, zone, tail + after);
    CanonicalFields(t, parts, schemes, allowIp);
  }

  lemma FiveParts(a: string, b: string, c: string, d: string, e: string)
    ensures a + (b + c + d) + e == (a + b) + c + (d + e)
  {
  }

  lemma CanonicalPartsFixed(t: Tables, u: Url, schemes: seq<string>, allowIp: bool)
    requires KnownSchemes(schemes) && Canonical(t, u, schemes, allowIp)
    ensures CanonicalParts(t, Parts(u.scheme, Authority(u), u.path, u.query), schemes, allowIp) == Ok(u)
  {
    hide SplitAuthority, CanonicalHost, Normalise, Normal, RemoveDots, CleanHost, Contained, HostZone, FirstBadChar, Stable, Authority;
    AuthorityFixed(u);
    LowerKnown(u.scheme);
    DigitsOfPort(u.port);
    NormalIsFixed(u.path, PathChars);
    NormalIsFixed(u.query, QueryChars);
  }

  lemma ComponentStops(s: string, k: Component)
    requires Normal(s, k)
    ensures forall i :: 0 <= i < |s| ==> s[i] !in "#"
    ensures k.PathChars? ==> forall i :: 0 <= i < |s| ==> s[i] !in "?#"
  {
    NormalChars(s, k);
  }

  lemma RebuiltSplits(u: Url)
    requires CleanHost(u.host) && Contained(HostZone(u.host)) && u.scheme in DEFAULT_PORT && 1 <= u.port <= 65535
    requires u.path != [] && u.path[0] == '/' && Normal(u.path, PathChars) && Normal(u.query, QueryChars)
    ensures SplitUrl(Rebuild(u)) == Some(Parts(u.scheme, Authority(u), u.path, u.query))
  {
    hide SplitUrl, SplitAuthority, Authority;
    AuthorityFixed(u);
    ComponentStops(u.path, PathChars);
    ComponentStops(u.query, QueryChars);
    SplitRebuilt(u.scheme, Authority(u), u.path, u.query);
  }

  /** Canonicalising the rebuilt text gives the same fields back; it can fail only by being too long. */
  lemma UrlFixedPoint(t: Tables, value: string, schemes: seq<string>, allowIp: bool)
    requires Lawful(t) && (allowIp ==> AddressLawful(t)) && KnownSchemes(schemes)
    requires CanonicalUrl(t, value, schemes, allowIp).Ok?
    ensures var u := CanonicalUrl(t, value, schemes, allowIp).value;
      u.scheme in DEFAULT_PORT &&
      CanonicalUrl(t, Rebuild(u), schemes, allowIp) ==
        if |Rebuild(u)| <= MAX_URL_LENGTH then Ok(u) else Err("too_long")
  {
    AcceptedParts(t, value, schemes, allowIp);
    var u := CanonicalUrl(t, value, schemes, allowIp).value;
    RebuiltReadable(t, u);
    RebuiltSplits(u);
    CanonicalPartsFixed(t, u, schemes, allowIp);
    hide Lawful, AddressLawful, Canonical, CanonicalParts, SplitUrl, FirstBadChar, Rebuild, Normal;
  }

  // ---- a URL that grows ----

  const FILLER: nat := MAX_URL_LENGTH - 8

  /** A URL without a path, filled up to the input limit by its query. */
  function FullUrl(host: string): string
    requires |host| <= FILLER
  {
    "http" + "://" + (host + ("" + QueryText(Zeros(FILLER - |host|))))
  }

  lemma {:induction false} ZerosNormal(n: nat)
    ensures Normal(Zeros(n), QueryChars) && Printable(Zeros(n))
  {
    if n > 0 {
      assert Zeros(n)[1..] == Zeros(n - 1);
      ZerosNormal(n - 1);
    }
  }

  lemma AcceptedName(t: Tables, host: string, allowIp: bool)
    requires Lawful(t) && host != [] && host[0] != '[' && CanonicalHost(t, host, allowIp) == Ok(host)
    ensures CleanHost(host) && |host| <= MAX_HOST_LENGTH
  {
    hide Lawful, CleanHost, IsIpv4, IsLabel, IsTopLabel;
    NameFixed(t, host, allowIp);
  }

  lemma FullUrlSplits(host: string)
    requires CleanHost(host) && host[0] != '[' && |host| <= FILLER
    ensures SplitUrl(FullUrl(host)) == Some(Parts("http", host, "", Zeros(FILLER - |host|)))
    ensures SplitAuthority(host) == Ok((host, "")) && '@' !in host
  {
    hide SplitUrl, SplitAuthority, Zeros;
    HostStops(host);
    SplitNamed(host, "");
    assert "/?#@"[3] == '@';
    SplitRebuilt("http", host, "", Zeros(FILLER - |host|));
  }

  lemma FullUrlReadable(t: Tables, host: string)
    requires Lawful(t) && CleanHost(host) && host[0] != '[' && |host| <= FILLER
    ensures FirstBadChar(t, FullUrl(host)) == None && Stable(t, FullUrl(host))
  {
    hide Lawful, FirstBadChar, Normal, CleanHost, ZoneText, Zeros, Stable;
    var query := Zeros(FILLER - |host|);
    ZerosNormal(|query|);
    HostInThree(host);
    EmptyZone(t);
    PrintableConcat("http" + "://", HostHead(host));
    PrintableConcat("?", query);
    Regroup("http" + "://", host, QueryText(query));
    ReadableAround(t, "http" + "://" + HostHead(host), "", QueryText(query));
  }

  lemma Regroup(a: string, b: string, c: string)
    ensures a + (b + ("" + c)) == a + b + "" + c
  {
  }

  lemma EmptyZone(t: Tables)
    requires Lawful(t)
    ensures ZoneText(t, "")
  {
    assert LawsAt(t, "");
  }

  /** With any accepted host name there is an accepted URL whose rebuilt text, its path now a slash, no longer fits. */
  lemma FullUrlGrows(t: Tables, host: string, schemes: seq<string>, allowIp: bool)
    requires Lawful(t) && KnownSchemes(schemes) && "http" in schemes
    requires host != [] && host[0] != '[' && CanonicalHost(t, host, allowIp) == Ok(host)
    ensures |host| <= FILLER
    ensures var u := Url("http", host, 80, "/", Zeros(FILLER - |host|));
      && CanonicalUrl(t, FullUrl(host), schemes, allowIp) == Ok(u)
      && |Rebuild(u)| == MAX_URL_LENGTH + 1 && CanonicalUrl(t, Rebuild(u), schemes, allowIp) == Err("too_long")
  {
    hide Lawful, SplitUrl, SplitAuthority, FirstBadChar, Normal, CanonicalHost, CleanHost, RemoveDots;
    AcceptedName(t, host, allowIp);
    FullUrlSplits(host);
    FullUrlReadable(t, host);
    var query := Zeros(FILLER - |host|);
    ZerosNormal(|query|);
    NormalIsFixed(query, QueryChars);
    LowerKnown("http");
    RootPath();
  }

  /** There is such a name, wherever the encoding keeps it as it is. */
  lemma ShortName(t: Tables, allowIp: bool)
    requires Lawful(t) && t.idna("a.bc") == Some("a.bc")
    ensures CanonicalHost(t, "a.bc", allowIp) == Ok("a.bc")
  {
    assert LawsAt(t, "a.bc");
    assert Split("a.bc", '.') == ["a", "bc"] by { ShortSplit(); }
    assert IsLabel("a") && IsLabel("bc") && IsTopLabel("bc");
    hide Lawful, Split, IsLabel, IsTopLabel;
  }

  lemma ShortSplit()
    ensures Split("a.bc", '.') == ["a", "bc"]
  {
    var parts := ["a", "bc"];
    assert parts[1..] == ["bc"];
    assert Join(parts, '.') == "a.bc";
    SplitJoin(parts, '.');
  }

  lemma RootPath()
    ensures RemoveDots("/") == "/"
  {
  }
}
