/** What an accepted URL says of the text it came from: which piece of the text every field is made of. */
module UrlText {
  import opened Wrappers
  import opened Texts
  import opened Unicode
  import opened Percent
  import opened DotSegments
  import opened Url
  import opened Hosts

  /** A URL text in pieces; a port, a query and a fragment may be missing. */
  datatype Pieces = Pieces(scheme: string, host: string, port: Option<string>, path: string, query: Option<string>, fragment: Option<string>)

  function After(mark: string, o: Option<string>): string {
    match o
    case None => ""
    case Some(s) => mark + s
  }

  function PiecesText(p: Pieces): string {
    p.scheme + "://" + ((p.host + After(":", p.port)) + (p.path + (After("?", p.query) + After("#", p.fragment))))
  }

  predicate FreeOf(s: string, stops: string) { forall i :: 0 <= i < |s| ==> s[i] !in stops }

  /** A bracketed host with no closing bracket inside, or one without brackets in front; without a port it has no colon. */
  predicate HostPiece(host: string, port: Option<string>) {
    if host != [] && host[0] == '[' then Bracketed(host) && ']' !in Inner(host)
    else port.None? ==> ':' !in host
  }

  /** The pieces are told apart by their separators. */
  predicate Separate(p: Pieces) {
    && IsScheme(p.scheme) && HostPiece(p.host, p.port)
    && FreeOf(p.host, "/?#") && (p.port.Some? ==> FreeOf(p.port.value, "/?#:"))
    && (p.path != [] ==> p.path[0] == '/') && FreeOf(p.path, "?#")
    && (p.query.Some? ==> FreeOf(p.query.value, "#"))
  }

  function PortOf(p: Option<string>): string { match p case None => "" case Some(s) => s }

  predicate PortSays(text: string, scheme: string, port: nat)
    requires scheme in DEFAULT_PORT
  {
    if text == "" then port == DEFAULT_PORT[scheme]
    else AllDigits(text) && |text| <= 5 && port == Number(text) && 1 <= port <= 65535
  }

  /** What the pieces say, field by field. */
  predicate Says(t: Tables, p: Pieces, schemes: seq<string>, allowIp: bool, u: Url) {
    && u.scheme == Lower(p.scheme) && u.scheme in schemes && u.scheme in DEFAULT_PORT
    && '@' !in p.host && '@' !in PortOf(p.port)
    && HostSays(t, p.host, allowIp, u.host)
    && PortSays(PortOf(p.port), u.scheme, u.port)
    && Normalise(p.path, PathChars).Ok?
    && u.path == RemoveDots(if Normalise(p.path, PathChars).value == "" then "/" else Normalise(p.path, PathChars).value)
    && Normalise(PortOf(p.query), QueryChars) == Ok(u.query)
  }

  // ---- reading the pieces ----

  lemma BracketEnds(inner: string, rest: string)
    requires ']' !in inner
    ensures var a := "[" + inner + "]" + rest; var n := |inner| + 1;
      Until(a, "]") == n && a[..n + 1] == "[" + inner + "]" && a[n + 1..] == rest
  {
    var a := "[" + inner + "]" + rest;
    UntilStops("[" + inner, "]", "]" + rest);
    assert a == ("[" + inner) + ("]" + rest);
  }

  lemma BracketedRead(host: string, port: Option<string>)
    requires Bracketed(host) && ']' !in Inner(host)
    ensures SplitAuthority(host + After(":", port)) == Ok((host, PortOf(port)))
  {
    hide Until;
    assert host == "[" + Inner(host) + "]";
    BracketEnds(Inner(host), After(":", port));
    var a := host + After(":", port);
    assert a[0] == '[';
    if port.Some? { assert (":" + port.value)[1..] == port.value; }
    else { assert a == host; }
  }

  lemma PortRead(host: string, port: string)
    requires ':' !in port && (host != [] ==> host[0] != '[')
    ensures SplitAuthority(host + ":" + port) == Ok((host, port))
  {
    hide LastColon;
    LastColonBefore(host, port);
    var a := host + ":" + port;
    assert a[0] == if host == [] then ':' else host[0];
  }

  lemma AuthorityRead(host: string, port: Option<string>)
    requires HostPiece(host, port) && (port.Some? ==> ':' !in port.value)
    ensures SplitAuthority(host + After(":", port)) == Ok((host, PortOf(port)))
  {
    hide SplitAuthority;
    if host != [] && host[0] == '[' {
      BracketedRead(host, port);
    } else if port.Some? {
      PortRead(host, port.value);
      assert host + (":" + port.value) == host + ":" + port.value;
    } else {
      BareRead(host);
      assert host + "" == host;
    }
  }

  lemma BareRead(host: string)
    requires ':' !in host && (host != [] ==> host[0] != '[')
    ensures SplitAuthority(host) == Ok((host, ""))
  {
  }

  lemma QueryRead(query: Option<string>, fragment: Option<string>)
    requires query.Some? ==> FreeOf(query.value, "#")
    ensures var tail := After("?", query) + After("#", fragment);
      QueryOf(tail) == PortOf(query) && (tail == [] || tail[0] in "?#")
  {
    var tail := After("?", query) + After("#", fragment);
    if query.Some? {
      var more := After("#", fragment);
      assert tail == "?" + (query.value + more);
      assert tail[1..] == query.value + more;
      Stage(query.value, "#", more);
    }
  }

  lemma Cut(part: string, stops: string, rest: string)
    requires FreeOf(part, stops) && (rest == [] || rest[0] in stops)
    ensures var n := Until(part + rest, stops); (part + rest)[..n] == part && (part + rest)[n..] == rest
  {
    Stage(part, stops, rest);
  }

  lemma CutsRead(scheme: string, authority: string, path: string, tail: string)
    requires IsScheme(scheme) && FreeOf(authority, "/?#") && FreeOf(path, "?#")
    requires (path != [] ==> path[0] == '/') && (tail == [] || tail[0] in "?#")
    ensures SplitUrl(scheme + "://" + (authority + (path + tail))) == Some(Parts(scheme, authority, path, QueryOf(tail)))
  {
    hide SplitUrl, Until, HasScheme, SchemeRun, QueryOf, IsScheme, FreeOf;
    var rest := path + tail;
    PathTail(path, tail);
    SchemeRead(scheme, authority + rest);
    Cut(authority, "/?#", rest);
    Cut(path, "?#", tail);
    SplitInto(scheme + "://" + (authority + rest), authority + rest, rest, tail);
  }

  /** Told apart by their separators, the pieces are what the grammar reads. */
  lemma PiecesRead(p: Pieces)
    requires Separate(p)
    ensures SplitUrl(PiecesText(p)) == Some(Parts(p.scheme, p.host + After(":", p.port), p.path, PortOf(p.query)))
  {
    hide SplitUrl, QueryOf, After, IsScheme, HostPiece, FreeOf;
    AuthorityFree(p);
    QueryRead(p.query, p.fragment);
    CutsRead(p.scheme, p.host + After(":", p.port), p.path, After("?", p.query) + After("#", p.fragment));
  }

  lemma PathTail(path: string, tail: string)
    requires (path != [] ==> path[0] == '/') && (tail == [] || tail[0] in "?#")
    ensures var rest := path + tail; rest == [] || rest[0] in "/?#"
  {
    if path == [] { assert path + tail == tail; }
  }

  lemma AuthorityFree(p: Pieces)
    requires FreeOf(p.host, "/?#") && (p.port.Some? ==> FreeOf(p.port.value, "/?#:"))
    ensures FreeOf(p.host + After(":", p.port), "/?#")
  {
  }

  lemma PortExact(text: string, scheme: string, port: nat)
    requires scheme in DEFAULT_PORT
    ensures CanonicalPort(text, scheme) == Ok(port) <==> PortSays(text, scheme, port)
  {
  }

  lemma PartsSay(t: Tables, p: Pieces, schemes: seq<string>, allowIp: bool, u: Url)
    requires Separate(p) && KnownSchemes(schemes)
    ensures CanonicalParts(t, Parts(p.scheme, p.host + After(":", p.port), p.path, PortOf(p.query)), schemes, allowIp) == Ok(u)
            <==> Says(t, p, schemes, allowIp, u)
  {
    hide SplitAuthority, CanonicalHost, CanonicalPort, Normalise, RemoveDots, Lower, PortSays, IsScheme, HostPiece, HostSays;
    HostExact(t, p.host, allowIp, u.host);
    assert p.port.Some? ==> ':' !in p.port.value by { NoColon(p); }
    AuthorityRead(p.host, p.port);
    AtInAuthority(p.host, p.port);
    if Lower(p.scheme) in schemes {
      var port := CanonicalPort(PortOf(p.port), Lower(p.scheme));
      if port.Ok? { PortExact(PortOf(p.port), Lower(p.scheme), port.value); }
      PortExact(PortOf(p.port), Lower(p.scheme), u.port);
    }
  }

  lemma NoColon(p: Pieces)
    requires p.port.Some? ==> FreeOf(p.port.value, "/?#:")
    ensures p.port.Some? ==> ':' !in p.port.value
  {
    assert "/?#:"[3] == ':';
  }

  lemma AtInAuthority(host: string, port: Option<string>)
    ensures '@' in host + After(":", port) <==> '@' in host || '@' in PortOf(port)
  {
    var a := host + After(":", port);
    if port.Some? {
      assert a == host + (":" + port.value);
      assert forall c :: c in ":" + port.value <==> c == ':' || c in port.value;
    }
  }

  predicate UrlChars(t: Tables, s: string) {
    forall i :: 0 <= i < |s| ==> !IsControl(s[i]) && s[i] !in " \\" && !t.unassigned(s[i])
  }

  lemma {:induction false} NoBadChar(t: Tables, s: string)
    ensures FirstBadChar(t, s) == None <==> UrlChars(t, s)
  {
    if s != [] { NoBadChar(t, s[1..]); }
  }

  /** A text of allowed characters within the length, in separate pieces that say u. */
  predicate UrlSays(t: Tables, value: string, p: Pieces, schemes: seq<string>, allowIp: bool, u: Url) {
    && |value| <= MAX_URL_LENGTH && UrlChars(t, value)
    && Separate(p) && t.nfc(value) == PiecesText(p) && Says(t, p, schemes, allowIp, u)
  }

  /** A text in separate pieces is accepted exactly as what its pieces say. */
  lemma UrlReads(t: Tables, value: string, p: Pieces, schemes: seq<string>, allowIp: bool, u: Url)
    requires KnownSchemes(schemes) && Separate(p) && t.nfc(value) == PiecesText(p)
    ensures CanonicalUrl(t, value, schemes, allowIp) == Ok(u) <==> UrlSays(t, value, p, schemes, allowIp, u)
  {
    hide SplitUrl, CanonicalParts, FirstBadChar, UrlChars, Says, PiecesText, Separate;
    NoBadChar(t, value);
    PiecesRead(p);
    PartsSay(t, p, schemes, allowIp, u);
  }

  // ---- every accepted text is in pieces ----

  lemma {:induction false} SchemeIsRun(s: string)
    ensures forall i :: 0 <= i < SchemeRun(s) ==> SchemeChar(s[i])
  {
    if s != [] && SchemeChar(s[0]) { SchemeIsRun(s[1..]); }
  }

  lemma CutAt(s: string, stops: string) returns (part: string, rest: string)
    ensures part == s[..Until(s, stops)] && rest == s[Until(s, stops)..]
    ensures s == part + rest && FreeOf(part, stops) && (rest == [] || rest[0] in stops)
  {
    part, rest := s[..Until(s, stops)], s[Until(s, stops)..];
  }

  lemma SchemePieced(s: string) returns (scheme: string, rest: string)
    requires HasScheme(s)
    ensures IsScheme(scheme) && s == scheme + "://" + rest && scheme == s[..SchemeRun(s)] && rest == s[SchemeRun(s) + 3..]
  {
    var n := SchemeRun(s);
    SchemeIsRun(s);
    scheme, rest := s[..n], s[n + 3..];
    assert s[n..][..3] == "://";
    assert s[n..] == s[n..][..3] + s[n..][3..];
    assert s == s[..n] + s[n..] && s[n..][3..] == rest;
  }

  lemma TailPieced(tail: string) returns (query: Option<string>, fragment: Option<string>)
    requires tail == [] || tail[0] in "?#"
    ensures tail == After("?", query) + After("#", fragment) && (query.Some? ==> FreeOf(query.value, "#"))
  {
    if tail == [] {
      query, fragment := None, None;
    } else if tail[0] == '?' {
      var part, rest := CutAt(tail[1..], "#");
      assert tail == "?" + (part + rest);
      query, fragment := Some(part), if rest == [] then None else Some(rest[1..]);
      assert rest != [] ==> rest == "#" + rest[1..];
      assert "?" + (part + rest) == ("?" + part) + rest;
    } else {
      query, fragment := None, Some(tail[1..]);
      assert tail == "#" + tail[1..];
    }
  }

  lemma {:induction false} LastColonIsLast(s: string)
    requires ':' in s
    ensures ':' !in s[LastColon(s) + 1..]
  {
    var n := |s| - 1;
    if s[n] != ':' {
      assert s == s[..n] + [s[n]];
      LastColonIsLast(s[..n]);
      var k := LastColon(s);
      assert s[k + 1..] == s[..n][k + 1..] + [s[n]];
    }
  }

  lemma AuthorityPieced(a: string) returns (host: string, port: Option<string>)
    requires SplitAuthority(a).Ok? && (AllDigits(SplitAuthority(a).value.1))
    ensures a == host + After(":", port) && HostPiece(host, port) && (port.Some? ==> AllDigits(port.value))
  {
    hide LastColon, Until;
    if a != [] && a[0] == '[' {
      var n := Until(a, "]");
      host := a[..n + 1];
      assert a == host + a[n + 1..];
      port := if a[n + 1..] == [] then None else Some(a[n + 1..][1..]);
      assert a[n] == ']';
      assert n > 0 && Bracketed(host) && Inner(host) == a[1..n];
      if port.Some? { assert a[n + 1..] == ":" + port.value; }
    } else if ':' in a {
      var n := LastColon(a);
      LastColonIsLast(a);
      host, port := a[..n], Some(a[n + 1..]);
      assert a == a[..n] + (":" + a[n + 1..]);
    } else {
      host, port := a, None;
      assert a == host + "";
    }
  }

  lemma PortDigits(text: string, scheme: string)
    requires scheme in DEFAULT_PORT && CanonicalPort(text, scheme).Ok?
    ensures AllDigits(text)
  {
  }

  lemma FreePieces(host: string, port: Option<string>)
    requires FreeOf(host + After(":", port), "/?#") && (port.Some? ==> AllDigits(port.value))
    ensures FreeOf(host, "/?#") && (port.Some? ==> FreeOf(port.value, "/?#:"))
  {
    var a := host + After(":", port);
    forall i | 0 <= i < |host| ensures host[i] !in "/?#" { assert host[i] == a[i]; }
  }

  lemma SplitPieced(s: string) returns (scheme: string, authority: string, path: string, tail: string)
    requires SplitUrl(s).Some?
    ensures s == scheme + "://" + (authority + (path + tail)) && IsScheme(scheme)
    ensures FreeOf(authority, "/?#") && FreeOf(path, "?#") && (path != [] ==> path[0] == '/')
    ensures tail == [] || tail[0] in "?#"
    ensures SplitUrl(s) == Some(Parts(scheme, authority, path, QueryOf(tail)))
  {
    hide Until, HasScheme, SchemeRun, QueryOf, IsScheme, FreeOf;
    var rest, more;
    scheme, rest := SchemePieced(s);
    authority, more := CutAt(rest, "/?#");
    path, tail := CutAt(more, "?#");
    PathStarts(path, tail);
    SplitInto(s, rest, more, tail);
  }

  lemma PathStarts(path: string, tail: string)
    requires FreeOf(path, "?#") && (path + tail == [] || (path + tail)[0] in "/?#")
    ensures path != [] ==> path[0] == '/'
  {
    if path != [] { assert (path + tail)[0] == path[0]; }
  }

  /** Every accepted text is in separate pieces, and the URL is what they say. */
  lemma UrlPieces(t: Tables, value: string, schemes: seq<string>, allowIp: bool) returns (p: Pieces)
    requires KnownSchemes(schemes) && CanonicalUrl(t, value, schemes, allowIp).Ok?
    ensures UrlSays(t, value, p, schemes, allowIp, CanonicalUrl(t, value, schemes, allowIp).value)
  {
    hide SplitUrl, SplitAuthority, CanonicalHost, CanonicalPort, Normalise, RemoveDots, Lower, IsScheme, HostPiece, FreeOf,
         FirstBadChar, Says, After, QueryOf, AllDigits, UrlSays;
    var scheme, authority, path, tail := SplitPieced(t.nfc(value));
    PortDigits(SplitAuthority(authority).value.1, Lower(scheme));
    var host, port := AuthorityPieced(authority);
    FreePieces(host, port);
    var query, fragment := TailPieced(tail);
    p := Pieces(scheme, host, port, path, query, fragment);
    UrlReads(t, value, p, schemes, allowIp, CanonicalUrl(t, value, schemes, allowIp).value);
  }

  /** A URL is accepted exactly from pieces that say it. */
  lemma UrlExact(t: Tables, value: string, schemes: seq<string>, allowIp: bool, u: Url)
    requires KnownSchemes(schemes)
    ensures CanonicalUrl(t, value, schemes, allowIp) == Ok(u) <==> exists p :: UrlSays(t, value, p, schemes, allowIp, u)
  {
    if CanonicalUrl(t, value, schemes, allowIp) == Ok(u) { var p := UrlPieces(t, value, schemes, allowIp); }
    hide CanonicalUrl, Says, UrlChars, Separate, PiecesText;
    forall p | UrlSays(t, value, p, schemes, allowIp, u) ensures CanonicalUrl(t, value, schemes, allowIp) == Ok(u) {
      UrlReads(t, value, p, schemes, allowIp, u);
    }
  }

  /** The host of a URL is no address where the manifest allows none. */
  lemma UrlNamesOnly(t: Tables, value: string, schemes: seq<string>)
    requires KnownSchemes(schemes) && CanonicalUrl(t, value, schemes, false).Ok?
    ensures NoAddress(CanonicalUrl(t, value, schemes, false).value.host)
  {
    hide Separate, PiecesText, PortSays, Normalise, RemoveDots, CanonicalHost, NoAddress, UrlChars, HostSays;
    var p := UrlPieces(t, value, schemes, false);
    HostExact(t, p.host, false, CanonicalUrl(t, value, schemes, false).value.host);
    NamesOnly(t, p.host);
  }
}
