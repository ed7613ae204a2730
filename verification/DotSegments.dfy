/** Dot-segment removal: the program's stack walk, and the buffer algorithm of section 5.2.4 of RFC 3986. */
module DotSegments {
  import opened Wrappers
  import opened Texts

  function Walk(stack: seq<string>, segments: seq<string>): seq<string>
    decreases |segments|
  {
    if segments == [] then stack
    else if segments[0] == "." then Walk(stack, segments[1..])
    else if segments[0] == ".." then Walk(if stack == [] then [] else stack[..|stack| - 1], segments[1..])
    else Walk(stack + [segments[0]], segments[1..])
  }

  function RemoveDots(path: string): string {
    "/" + Join(Walk([], Split(path, '/')[1..]), '/')
  }

  method RemoveDotSegments(path: string) returns (r: string)
    ensures r == RemoveDots(path)
  {
    var parts := Split(path, '/')[1..];
    var segments: seq<string> := [];
    for i := 0 to |parts|
      invariant Walk([], parts) == Walk(segments, parts[i..])
    {
      assert parts[i..][1..] == parts[i + 1..];
      if parts[i] == "." {
      } else if parts[i] == ".." {
        if segments != [] { segments := segments[..|segments| - 1]; }
      } else {
        segments := segments + [parts[i]];
      }
    }
    r := "/" + Join(segments, '/');
  }

  predicate IsDot(s: string) { s == "." || s == ".." }

  predicate Plain(segments: seq<string>) {
    forall s :: s in segments ==> Free(s, '/') && !IsDot(s)
  }

  lemma {:induction false} WalkProperties(stack: seq<string>, segments: seq<string>)
    ensures forall s :: s in Walk(stack, segments) ==> s in stack || (s in segments && !IsDot(s))
    decreases |segments|
  {
    if segments != [] {
      WalkProperties(if segments[0] == "." then stack
                     else if segments[0] == ".." then (if stack == [] then [] else stack[..|stack| - 1])
                     else stack + [segments[0]], segments[1..]);
    }
  }

  lemma {:induction false} WalkPlain(stack: seq<string>, segments: seq<string>)
    requires forall s :: s in segments ==> !IsDot(s)
    ensures Walk(stack, segments) == stack + segments
    decreases |segments|
  {
    if segments != [] {
      assert segments[0] in segments;
      WalkPlain(stack + [segments[0]], segments[1..]);
      assert stack + [segments[0]] + segments[1..] == stack + segments;
    }
  }

  lemma SplitRooted(segments: seq<string>)
    requires forall s :: s in segments ==> Free(s, '/')
    ensures Split("/" + Join(segments, '/'), '/')[1..] == if segments == [] then [""] else segments
  {
    var parts := if segments == [] then ["", ""] else [""] + segments;
    assert parts[1..] == if segments == [] then [""] else segments;
    assert Join(parts, '/') == "/" + Join(segments, '/');
    SplitJoin(parts, '/');
  }

  lemma SplitSegmentsFree(path: string)
    ensures forall s :: s in Split(path, '/')[1..] ==> Free(s, '/')
  {
    JoinSplit(path, '/');
  }

  /** The result has no dot segment, its segments come from the input, and removal leaves it unchanged. */
  lemma RemoveDotsFixed(path: string)
    ensures Plain(Walk([], Split(path, '/')[1..]))
    ensures RemoveDots(RemoveDots(path)) == RemoveDots(path)
  {
    var parts := Split(path, '/')[1..];
    var segments := Walk([], parts);
    WalkProperties([], parts);
    SplitSegmentsFree(path);
    SplitRooted(segments);
    WalkPlain([], if segments == [] then [""] else segments);
    assert [] + segments == segments;
  }

  // ---- the RFC's own algorithm ----

  predicate HasPrefix(s: string, p: string) { |p| <= |s| && s[..|p|] == p }

  /** Length of the first path segment, with its leading slash if it has one. */
  function FirstSegment(s: string): (n: nat)
    requires s != []
    ensures 1 <= n <= |s|
  {
    1 + UntilSlash(s[1..])
  }

  function UntilSlash(s: string): (n: nat)
    ensures n <= |s|
  {
    if s == [] || s[0] == '/' then 0 else 1 + UntilSlash(s[1..])
  }

  /** The output without its last segment and the slash before it. */
  function DropLast(output: string): string {
    if output == [] then []
    else if output[|output| - 1] == '/' then output[..|output| - 1]
    else DropLast(output[..|output| - 1])
  }

  /** Steps A to E of the RFC, from an input and an output buffer. */
  function RfcRemove(input: string, output: string): string
    decreases |input|
  {
    if input == [] then output
    else if HasPrefix(input, "../") then RfcRemove(input[3..], output)
    else if HasPrefix(input, "./") then RfcRemove(input[2..], output)
    else if HasPrefix(input, "/./") then RfcRemove(input[2..], output)
    else if input == "/." then RfcRemove("/", output)
    else if HasPrefix(input, "/../") then RfcRemove(input[3..], DropLast(output))
    else if input == "/.." then RfcRemove("/", DropLast(output))
    else if input == "." || input == ".." then output
    else
      var n := FirstSegment(input);
      RfcRemove(input[n..], output + input[..n])
  }

  /** A stack of segments as the RFC's output buffer spells it. */
  function Spell(stack: seq<string>): string {
    if stack == [] then [] else Spell(stack[..|stack| - 1]) + "/" + stack[|stack| - 1]
  }

  lemma {:induction false} DropLastSegment(prefix: string, s: string)
    requires Free(s, '/')
    ensures DropLast(prefix + "/" + s) == prefix
  {
    var t := prefix + "/" + s;
    if s == [] {
      assert t[..|t| - 1] == prefix;
    } else {
      var u := s[..|s| - 1];
      assert s == u + [s[|s| - 1]];
      assert s[|s| - 1] in s;
      DropLastSegment(prefix, u);
      assert t[..|t| - 1] == prefix + "/" + u;
    }
  }

  lemma {:induction false} UntilSlashStops(s: string, rest: string)
    requires Free(s, '/') && (rest == [] || rest[0] == '/')
    ensures UntilSlash(s + rest) == |s|
  {
    if s == [] {
      assert s + rest == rest;
    } else {
      assert s[0] in s;
      assert (s + rest)[1..] == s[1..] + rest;
      UntilSlashStops(s[1..], rest);
    }
  }

  /** The input buffer that holds the remaining segments. */
  function Rooted(segments: seq<string>): string
    requires segments != []
  {
    "/" + Join(segments, '/')
  }

  lemma RootedMore(segments: seq<string>)
    requires |segments| > 1
    ensures Rooted(segments) == "/" + segments[0] + Rooted(segments[1..])
  {
  }

  lemma RootedStart(segments: seq<string>)
    requires segments != []
    ensures Rooted(segments) != [] && Rooted(segments)[0] == '/'
  {
  }

  lemma RootedOne(segments: seq<string>)
    requires |segments| == 1
    ensures Rooted(segments) == "/" + segments[0]
  {
  }

  function Popped(stack: seq<string>): seq<string> {
    if stack == [] then [] else stack[..|stack| - 1]
  }

  lemma DropLastSpelled(stack: seq<string>)
    requires Plain(stack)
    ensures DropLast(Spell(stack)) == Spell(Popped(stack))
  {
    if stack != [] {
      assert stack[|stack| - 1] in stack;
      DropLastSegment(Spell(Popped(stack)), stack[|stack| - 1]);
    }
  }

  lemma RfcSlash(output: string)
    ensures RfcRemove("/", output) == output + "/"
  {
    assert FirstSegment("/") == 1;
    assert "/"[1..] == "" && "/"[..1] == "/";
  }

  /** One segment that is not a dot segment moves to the output whole. */
  lemma RfcMove(s: string, rest: string, output: string)
    requires Free(s, '/') && !IsDot(s) && (rest == [] || rest[0] == '/')
    ensures RfcRemove("/" + s + rest, output) == RfcRemove(rest, output + "/" + s)
  {
    var input := "/" + s + rest;
    assert input[1..] == s + rest;
    UntilSlashStops(s, rest);
    assert FirstSegment(input) == 1 + |s|;
    assert input[1 + |s|..] == rest && input[..1 + |s|] == "/" + s;
    assert output + ("/" + s) == output + "/" + s;
    NotDotPrefix(s, rest);
  }

  lemma NotDotPrefix(s: string, rest: string)
    requires Free(s, '/') && !IsDot(s) && (rest == [] || rest[0] == '/')
    ensures var input := "/" + s + rest;
      && !HasPrefix(input, "../") && !HasPrefix(input, "./") && !HasPrefix(input, "/./") && !HasPrefix(input, "/../")
      && input != "/." && input != "/.." && input != "." && input != ".."
  {
    var input := "/" + s + rest;
    assert input[0] == '/';
    assert forall i :: 0 <= i < |s| ==> input[1 + i] == s[i] && s[i] in s;
    assert |rest| > 0 ==> input[1 + |s|] == '/';
    assert |input| >= 3 ==> input[..3][1] == input[1] && input[..3][2] == input[2];
    assert |input| >= 4 ==> input[..4][1] == input[1] && input[..4][2] == input[2] && input[..4][3] == input[3];
    assert |s| == 1 ==> s == [s[0]];
    assert |s| == 2 ==> s == [s[0], s[1]];
  }

  lemma RfcOneDot(rest: string, output: string)
    requires rest == [] || rest[0] == '/'
    ensures RfcRemove("/." + rest, output) == RfcRemove(if rest == [] then "/" else rest, output)
  {
    var input := "/." + rest;
    assert input[0] == '/' && input[1] == '.';
    if rest == [] {
      assert input == "/.";
    } else {
      assert input[..3] == "/./" && input[2..] == rest;
    }
  }

  lemma RfcTwoDots(rest: string, output: string)
    requires rest == [] || rest[0] == '/'
    ensures RfcRemove("/.." + rest, output) == RfcRemove(if rest == [] then "/" else rest, DropLast(output))
  {
    var input := "/.." + rest;
    assert input[0] == '/' && input[1] == '.' && input[2] == '.';
    if rest == [] {
      assert input == "/..";
    } else {
      assert input[..4] == "/../" && input[3..] == rest;
    }
  }

  lemma RfcDot(s: string, rest: string, output: string)
    requires IsDot(s) && (rest == [] || rest[0] == '/')
    ensures RfcRemove("/" + s + rest, output) ==
            RfcRemove(if rest == [] then "/" else rest, if s == "." then output else DropLast(output))
  {
    assert "/" + "." == "/." && "/" + ".." == "/..";
    if s == "." { RfcOneDot(rest, output); } else { RfcTwoDots(rest, output); }
  }

  /** A final dot segment leaves an empty last segment in the RFC's result. */
  function Tail(segments: seq<string>): seq<string>
    requires segments != []
  {
    if IsDot(segments[|segments| - 1]) then [""] else []
  }

  function Next(stack: seq<string>, s: string): seq<string> {
    if s == "." then stack else if s == ".." then Popped(stack) else stack + [s]
  }

  lemma WalkNext(stack: seq<string>, segments: seq<string>)
    requires segments != []
    ensures Walk(stack, segments) == Walk(Next(stack, segments[0]), segments[1..])
  {
  }

  lemma SpellSnoc(stack: seq<string>, s: string)
    ensures Spell(stack + [s]) == Spell(stack) + "/" + s
  {
    assert (stack + [s])[..|stack|] == stack;
  }

  /** One step of the RFC on a non-final segment. */
  lemma RfcStep(stack: seq<string>, s: string, rest: string)
    requires Plain(stack) && Free(s, '/') && rest != [] && rest[0] == '/'
    ensures RfcRemove("/" + s + rest, Spell(stack)) == RfcRemove(rest, Spell(Next(stack, s)))
    ensures Plain(Next(stack, s))
  {
    if IsDot(s) {
      RfcDot(s, rest, Spell(stack));
      DropLastSpelled(stack);
    } else {
      RfcMove(s, rest, Spell(stack));
      SpellSnoc(stack, s);
    }
  }

  lemma RfcLastDot(stack: seq<string>, s: string)
    requires Plain(stack) && IsDot(s)
    ensures RfcRemove("/" + s, Spell(stack)) == Spell(Next(stack, s)) + "/"
  {
    RfcDot(s, "", Spell(stack));
    DropLastSpelled(stack);
    RfcSlash(Spell(Next(stack, s)));
    assert "/" + s == "/" + s + "";
  }

  /** The RFC's last steps, on the final segment. */
  lemma RfcLast(stack: seq<string>, s: string)
    requires Plain(stack) && Free(s, '/')
    ensures RfcRemove("/" + s, Spell(stack)) == Spell(Next(stack, s) + Tail([s]))
  {
    if IsDot(s) {
      RfcLastDot(stack, s);
      SpellSnoc(Next(stack, s), "");
      assert Spell(Next(stack, s)) + "/" + "" == Spell(Next(stack, s)) + "/";
    } else {
      assert "/" + s + "" == "/" + s;
      RfcMove(s, "", Spell(stack));
      SpellSnoc(stack, s);
      assert stack + [s] + [] == stack + [s];
    }
  }

  lemma {:induction false} RfcFollowsWalk(stack: seq<string>, segments: seq<string>)
    requires segments != [] && Plain(stack) && forall s :: s in segments ==> Free(s, '/')
    ensures RfcRemove(Rooted(segments), Spell(stack)) == Spell(Walk(stack, segments) + Tail(segments))
    decreases |segments|
  {
    hide RfcRemove, Spell, Rooted, Next;
    var s := segments[0];
    assert s in segments;
    WalkNext(stack, segments);
    if |segments| == 1 {
      RootedOne(segments);
      RfcLast(stack, s);
      assert segments == [s];
    } else {
      RootedMore(segments);
      RootedStart(segments[1..]);
      RfcStep(stack, s, Rooted(segments[1..]));
      RfcFollowsWalk(Next(stack, s), segments[1..]);
    }
  }

  lemma {:induction false} JoinSnoc(stack: seq<string>, s: string)
    requires stack != []
    ensures Join(stack + [s], '/') == Join(stack, '/') + "/" + s
  {
    var all := stack + [s];
    assert all[1..] == stack[1..] + [s];
    if |stack| > 1 {
      JoinSnoc(stack[1..], s);
    } else {
      assert stack[1..] + [s] == [s];
    }
  }

  lemma {:induction false} SpellIsJoin(stack: seq<string>)
    requires stack != []
    ensures Spell(stack) == "/" + Join(stack, '/')
  {
    var less, last := stack[..|stack| - 1], stack[|stack| - 1];
    assert stack == less + [last];
    if less != [] {
      SpellIsJoin(less);
      JoinSnoc(less, last);
    }
  }

  lemma RootedSplit(path: string)
    requires path != [] && path[0] == '/'
    ensures Split(path, '/')[1..] != [] && path == Rooted(Split(path, '/')[1..])
  {
    JoinSplit(path, '/');
    var all := Split(path, '/');
    assert all == [""] + Split(path[1..], '/');
  }

  /** On every rooted path the RFC's result is the program's, plus one empty segment after a final dot segment. */
  lemma AgreesWithRfc(path: string)
    requires path != [] && path[0] == '/'
    ensures var segments := Split(path, '/')[1..];
      && segments != []
      && RfcRemove(path, "") == "/" + Join(Walk([], segments) + Tail(segments), '/')
      && (!IsDot(segments[|segments| - 1]) ==> RfcRemove(path, "") == RemoveDots(path))
  {
    var segments := Split(path, '/')[1..];
    RootedSplit(path);
    SplitSegmentsFree(path);
    RfcFollowsWalk([], segments);
    WalkEndsNonempty([], segments);
    SpellIsJoin(Walk([], segments) + Tail(segments));
    assert Walk([], segments) + [] == Walk([], segments);
  }

  lemma {:induction false} WalkEndsNonempty(stack: seq<string>, segments: seq<string>)
    requires segments != []
    ensures Walk(stack, segments) + Tail(segments) != []
    decreases |segments|
  {
    WalkNext(stack, segments);
    if |segments| > 1 {
      WalkEndsNonempty(Next(stack, segments[0]), segments[1..]);
    }
  }
}
