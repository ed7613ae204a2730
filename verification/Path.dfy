/** Filesystem paths: absolute, collapsed, free of dot segments and confined to a sandbox. */
module Path {
  import opened Wrappers
  import opened Texts
  import opened Unicode
  import opened DotSegments

  const MAX_PATH_LENGTH := 4096

  function BadPathChar(t: Tables, c: char): Option<string> {
    if IsControl(c) then Some("control_character")
    else if c == '\\' then Some("illegal_character")
    else if t.unassigned(c) then Some("unassigned_code_point")
    else None
  }

  function FirstBadPathChar(t: Tables, s: string): Option<string> {
    if s == [] then None
    else if BadPathChar(t, s[0]).Some? then BadPathChar(t, s[0])
    else FirstBadPathChar(t, s[1..])
  }

  function Collapse(segments: seq<string>): seq<string> {
    if segments == [] then []
    else if segments[0] == "" || segments[0] == "." then Collapse(segments[1..])
    else [segments[0]] + Collapse(segments[1..])
  }

  function StripSlashes(s: string): string {
    if s != [] && s[|s| - 1] == '/' then StripSlashes(s[..|s| - 1]) else s
  }

  predicate Inside(path: string, under: string) {
    path == under || HasPrefix(path, StripSlashes(under) + "/")
  }

  function CanonicalPath(t: Tables, value: string, under: Option<string>): Result<string> {
    if |value| > MAX_PATH_LENGTH then Err("too_long")
    else
      var text := t.nfc(value);
      match FirstBadPathChar(t, text)
      case Some(code) => Err(code)
      case None =>
        if text == [] || text[0] != '/' then Err("path_must_be_absolute")
        else
          var path := RemoveDots("/" + Join(Collapse(Split(text, '/')), '/'));
          if under.Some? && !Inside(path, under.value) then Err("path_outside_sandbox") else Ok(path)
  }

  // ---- the independent reading: a walk from the root ----

  function StackWalk(stack: seq<string>, segments: seq<string>): seq<string>
    decreases |segments|
  {
    if segments == [] then stack
    else
      var s := segments[0];
      StackWalk(if s == "" || s == "." then stack
                else if s == ".." then Popped(stack)
                else stack + [s], segments[1..])
  }

  /** The directory names a canonical path passes through. */
  function Names(path: string): seq<string> {
    if path == "/" then [] else Split(path, '/')[1..]
  }

  predicate CleanName(s: string) {
    s != "" && !IsDot(s) && Free(s, '/')
  }

  predicate Clean(names: seq<string>) {
    forall s :: s in names ==> CleanName(s)
  }

  lemma {:induction false} WalkCollapsed(stack: seq<string>, segments: seq<string>)
    ensures Walk(stack, Collapse(segments)) == StackWalk(stack, segments)
    decreases |segments|
  {
    if segments != [] {
      var s := segments[0];
      if s == "" || s == "." {
        WalkCollapsed(stack, segments[1..]);
      } else {
        WalkCollapsed(Next(stack, s), segments[1..]);
        assert Collapse(segments)[1..] == Collapse(segments[1..]);
      }
    }
  }

  lemma {:induction false} CollapsedSegments(segments: seq<string>)
    ensures forall s :: s in Collapse(segments) ==> s in segments && s != ""
  {
    if segments != [] {
      CollapsedSegments(segments[1..]);
    }
  }

  lemma NamesOfRooted(names: seq<string>)
    requires Clean(names)
    ensures Names("/" + Join(names, '/')) == names
  {
    SplitRooted(names);
    if names != [] {
      assert names[0] in names;
      assert Join(names, '/') != "";
    } else {
      assert "/" + Join(names, '/') == "/";
    }
  }

  lemma CollapsedWalkClean(text: string)
    ensures Clean(StackWalk([], Split(text, '/')))
  {
    var segments := Split(text, '/');
    JoinSplit(text, '/');
    CollapsedSegments(segments);
    WalkProperties([], Collapse(segments));
    WalkCollapsed([], segments);
  }

  lemma RemoveDotsCollapsed(text: string)
    ensures RemoveDots("/" + Join(Collapse(Split(text, '/')), '/')) == "/" + Join(StackWalk([], Split(text, '/')), '/')
  {
    var segments := Split(text, '/');
    JoinSplit(text, '/');
    CollapsedSegments(segments);
    SplitRooted(Collapse(segments));
    WalkCollapsed([], segments);
    if Collapse(segments) == [] {
      assert Walk([], [""]) == Walk([""], []) == [""];
      assert Walk([], []) == [];
    }
  }

  /** The result is the walk of the input's segments from the root, and every name on it is a real name. */
  lemma PathIsStackWalk(t: Tables, value: string, under: Option<string>)
    requires CanonicalPath(t, value, under).Ok?
    ensures var names := StackWalk([], Split(t.nfc(value), '/'));
      && CanonicalPath(t, value, under).value == "/" + Join(names, '/')
      && Names(CanonicalPath(t, value, under).value) == names
      && Clean(names)
  {
    RemoveDotsCollapsed(t.nfc(value));
    CollapsedWalkClean(t.nfc(value));
    NamesOfRooted(StackWalk([], Split(t.nfc(value), '/')));
  }

  // ---- the fixed point ----

  predicate GoodChars(t: Tables, s: string) {
    forall i :: 0 <= i < |s| ==> BadPathChar(t, s[i]) == None
  }

  lemma {:induction false} NoBadIsGood(t: Tables, s: string)
    ensures FirstBadPathChar(t, s) == None <==> GoodChars(t, s)
  {
    if s != [] {
      NoBadIsGood(t, s[1..]);
      assert forall i :: 0 < i < |s| ==> s[i] == s[1..][i - 1];
    }
  }

  lemma {:induction false} GoodSegments(t: Tables, s: string)
    requires GoodChars(t, s)
    ensures forall p :: p in Split(s, '/') ==> GoodChars(t, p)
  {
    if s != [] {
      GoodSegments(t, s[1..]);
      var rest := Split(s[1..], '/');
      assert rest[0] in rest;
      assert forall p :: p in rest[1..] ==> p in rest;
    }
  }

  lemma {:induction false} GoodJoin(t: Tables, parts: seq<string>)
    requires BadPathChar(t, '/') == None && forall p :: p in parts ==> GoodChars(t, p)
    ensures GoodChars(t, Join(parts, '/'))
  {
    if |parts| == 1 {
      assert parts[0] in parts;
    } else if parts != [] {
      assert parts[0] in parts;
      GoodJoin(t, parts[1..]);
    }
  }

  lemma {:induction false} StackWalkSources(stack: seq<string>, segments: seq<string>)
    ensures forall s :: s in StackWalk(stack, segments) ==> s in stack || s in segments
    decreases |segments|
  {
    if segments != [] {
      var s := segments[0];
      StackWalkSources(if s == "" || s == "." then stack else if s == ".." then Popped(stack) else stack + [s], segments[1..]);
    }
  }

  /** Rooting some segments of a stable text keeps it stable. */
  lemma StableRooted(t: Tables, text: string, names: seq<string>)
    requires Lawful(t) && t.nfc(text) == text && Clean(names)
    requires forall s :: s in names ==> s in Split(text, '/')
    ensures t.nfc("/" + Join(names, '/')) == "/" + Join(names, '/')
  {
    var path := "/" + Join(names, '/');
    assert LawsAt(t, "");
    StableSegments(t, text);
    StableSegments(t, path);
    SplitRooted(names);
    assert Split(path, '/')[0] == "";
    forall p | p in Split(path, '/') ensures t.nfc(p) == p {
      if p != "" { assert p in Split(path, '/')[1..]; }
    }
  }

  lemma {:induction false} WalkClean(stack: seq<string>, names: seq<string>)
    requires Clean(names)
    ensures StackWalk(stack, names) == stack + names
    decreases |names|
  {
    if names != [] {
      assert names[0] in names;
      WalkClean(stack + [names[0]], names[1..]);
      assert stack + [names[0]] + names[1..] == stack + names;
    }
  }

  lemma WalkRooted(names: seq<string>)
    requires Clean(names)
    ensures StackWalk([], Split("/" + Join(names, '/'), '/')) == names
  {
    var path := "/" + Join(names, '/');
    SplitRooted(names);
    assert Split(path, '/') == [""] + Split(path, '/')[1..];
    assert StackWalk([], Split(path, '/')) == StackWalk([], Split(path, '/')[1..]);
    if names == [] {
      assert StackWalk([], [""]) == StackWalk([], []);
    } else {
      WalkClean([], names);
      assert [] + names == names;
    }
  }

  /** An accepted path canonicalises to itself; only its length can stop it. */
  lemma PathFixedPoint(t: Tables, value: string, under: Option<string>)
    requires Lawful(t) && CanonicalPath(t, value, under).Ok?
    ensures var path := CanonicalPath(t, value, under).value;
      CanonicalPath(t, path, under) == if |path| <= MAX_PATH_LENGTH then Ok(path) else Err("too_long")
  {
    var text := t.nfc(value);
    var path := CanonicalPath(t, value, under).value;
    var names := StackWalk([], Split(text, '/'));
    PathIsStackWalk(t, value, under);
    assert LawsAt(t, value);
    StackWalkSources([], Split(text, '/'));
    StableRooted(t, text, names);
    NoBadIsGood(t, text);
    GoodSegments(t, text);
    assert text[0] == '/';
    GoodJoin(t, names);
    NoBadIsGood(t, path);
    RemoveDotsCollapsed(path);
    WalkRooted(names);
  }

  // ---- the sandbox ----

  lemma SplitCons(c: char, s: string)
    ensures Split([c] + s, '/') ==
            if c == '/' then [""] + Split(s, '/') else [[c] + Split(s, '/')[0]] + Split(s, '/')[1..]
  {
    assert ([c] + s)[1..] == s;
  }

  lemma Regroup(c: char, x: seq<string>, y: seq<string>)
    requires x != []
    ensures [""] + (x + y) == [""] + x + y
    ensures [[c] + (x + y)[0]] + (x + y)[1..] == [[c] + x[0]] + x[1..] + y
  {
  }

  lemma {:induction false} SplitConcat(a: string, b: string)
    ensures Split(a + "/" + b, '/') == Split(a, '/') + Split(b, '/')
  {
    if a == [] {
      SplitCons('/', b);
      assert a + "/" + b == ['/'] + b;
      assert Split(a, '/') == [""];
    } else {
      var c, x := a[0], a[1..];
      SplitConcat(x, b);
      SplitTail(c, x, b);
      assert a == [c] + x;
    }
  }

  lemma SplitTail(c: char, x: string, b: string)
    requires Split(x + "/" + b, '/') == Split(x, '/') + Split(b, '/')
    ensures Split([c] + x + "/" + b, '/') == Split([c] + x, '/') + Split(b, '/')
  {
    hide Split;
    SplitCons(c, x + "/" + b);
    SplitCons(c, x);
    Regroup(c, Split(x, '/'), Split(b, '/'));
    assert [c] + x + "/" + b == [c] + (x + "/" + b);
  }

  lemma LastCharOfRooted(names: seq<string>)
    requires Clean(names) && names != []
    ensures var u := "/" + Join(names, '/'); u[|u| - 1] != '/'
    decreases |names|
  {
    assert names[0] in names;
    if |names| > 1 {
      LastCharOfRooted(names[1..]);
    } else {
      assert names[0][|names[0]| - 1] in names[0];
    }
  }

  lemma BelowRoot(root: seq<string>, path: string)
    requires Clean(root) && root != [] && HasPrefix(path, "/" + Join(root, '/') + "/")
    ensures root <= Split(path, '/')[1..] && path != "/"
  {
    var under := "/" + Join(root, '/');
    var rest := path[|under| + 1..];
    assert path == under + "/" + rest;
    SplitConcat(under, rest);
    SplitRooted(root);
    hide Split;
    assert (Split(under, '/') + Split(rest, '/'))[1..] == Split(under, '/')[1..] + Split(rest, '/');
  }

  /** For a canonical sandbox, an accepted path passes through the sandbox's own directories first. */
  lemma SandboxContains(t: Tables, value: string, root: seq<string>)
    requires Clean(root) && CanonicalPath(t, value, Some("/" + Join(root, '/'))).Ok?
    ensures root <= Names(CanonicalPath(t, value, Some("/" + Join(root, '/'))).value)
  {
    hide Split, RemoveDots, Collapse, Join;
    var under := "/" + Join(root, '/');
    var path := CanonicalPath(t, value, Some(under)).value;
    assert Inside(path, under);
    NamesOfRooted(root);
    if root != [] && path != under {
      LastCharOfRooted(root);
      assert StripSlashes(under) == under;
      BelowRoot(root, path);
    }
  }

  // ---- what is accepted ----

  predicate PathText(t: Tables, s: string) {
    forall i :: 0 <= i < |s| ==> !IsControl(s[i]) && s[i] != '\\' && !t.unassigned(s[i])
  }

  lemma {:induction false} NoBadPathChar(t: Tables, s: string)
    ensures FirstBadPathChar(t, s) == None <==> PathText(t, s)
  {
    if s != [] { NoBadPathChar(t, s[1..]); }
  }

  /** An absolute text within the length whose walk from the root stays in the sandbox, and that walk. */
  predicate PathSays(t: Tables, value: string, under: Option<string>, path: string) {
    var text := t.nfc(value);
    && |value| <= MAX_PATH_LENGTH && PathText(t, text) && HasPrefix(text, "/")
    && path == "/" + Join(StackWalk([], Split(text, '/')), '/')
    && (under.Some? ==> Inside(path, under.value))
  }

  /** A path is accepted exactly as the walk of its segments. */
  lemma PathExact(t: Tables, value: string, under: Option<string>, path: string)
    ensures CanonicalPath(t, value, under) == Ok(path) <==> PathSays(t, value, under, path)
  {
    hide RemoveDots, Collapse, StackWalk, Join, Split, Inside, PathText, FirstBadPathChar;
    NoBadPathChar(t, t.nfc(value));
    RemoveDotsCollapsed(t.nfc(value));
  }
}
