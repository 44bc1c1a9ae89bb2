/**
 Slash-separated paths as the Unix build of path/filepath treats them: splitting, joining and
 lexical cleaning. A cleaned path is kept as its components; Render gives the string back.
 */
module Paths {

  type Path = seq<string>

  datatype Clean = Clean(rooted: bool, comps: Path)

  /** strings.Split(s, "/"). */
  function Split(s: string): (parts: Path)
    ensures |parts| >= 1
  {
    if s == "" then [""]
    else
      var rest := Split(s[1..]);
      if s[0] == '/' then [""] + rest else [[s[0]] + rest[0]] + rest[1..]
  }

  /** strings.Join(parts, "/"). */
  function Join(parts: Path): string {
    if |parts| == 0 then ""
    else if |parts| == 1 then parts[0]
    else parts[0] + "/" + Join(parts[1..])
  }

  /** What one component does to the components cleaned so far. */
  function Push(rooted: bool, stack: Path, c: string): Path {
    if c == "" || c == "." then stack
    else if c != ".." then stack + [c]
    else if |stack| > 0 && stack[|stack| - 1] != ".." then stack[..|stack| - 1]
    else if rooted then stack
    else stack + [c]
  }

  function PushAll(rooted: bool, stack: Path, parts: Path): Path
    decreases parts
  {
    if parts == [] then stack
    else PushAll(rooted, Push(rooted, stack, parts[0]), parts[1..])
  }

  predicate IsAbs(s: string) { "/" <= s }

  /** filepath.Clean, with the result kept as components. */
  function CleanPath(s: string): Clean {
    Clean(IsAbs(s), PushAll(IsAbs(s), [], Split(s)))
  }

  function Render(p: Clean): string {
    if p.rooted then "/" + Join(p.comps)
    else if p.comps == [] then "."
    else Join(p.comps)
  }

  /** filepath.Join of two non-empty elements. */
  function JoinClean(a: string, b: string): Clean {
    CleanPath(a + "/" + b)
  }

  predicate NoSlash(c: string) { '/' !in c }

  /** A component that cleaning keeps as it stands. */
  predicate Plain(c: string) { c != "" && c != "." && c != ".." && NoSlash(c) }

  predicate AllPlain(p: Path) { forall i :: 0 <= i < |p| ==> Plain(p[i]) }

  /** The shape of every cleaned path: plain components, after leading ".." when it is relative. */
  ghost predicate Tidy(rooted: bool, p: Path) {
    forall i :: 0 <= i < |p| ==>
      Plain(p[i]) || (p[i] == ".." && !rooted && forall j :: 0 <= j < i ==> p[j] == "..")
  }

  lemma {:induction false} SplitHasNoSlash(s: string)
    ensures forall i :: 0 <= i < |Split(s)| ==> NoSlash(Split(s)[i])
  {
    if s != "" { SplitHasNoSlash(s[1..]); }
  }

  lemma {:induction false} SplitPlain(c: string)
    requires NoSlash(c)
    ensures Split(c) == [c]
  {
    if c != "" {
      SplitPlain(c[1..]);
      assert c == [c[0]] + c[1..];
    }
  }

  lemma {:induction false} SplitConcat(a: string, b: string)
    ensures Split(a + "/" + b) == Split(a) + Split(b)
  {
    if a == "" {
      assert a + "/" + b == "/" + b;
      assert ("/" + b)[1..] == b;
    } else {
      assert (a + "/" + b)[1..] == a[1..] + "/" + b;
      SplitConcat(a[1..], b);
    }
  }

  lemma {:induction false} SplitJoin(parts: Path)
    requires parts != []
    requires forall i :: 0 <= i < |parts| ==> NoSlash(parts[i])
    ensures Split(Join(parts)) == parts
  {
    SplitPlain(parts[0]);
    if |parts| > 1 {
      SplitConcat(parts[0], Join(parts[1..]));
      SplitJoin(parts[1..]);
    }
  }

  lemma {:induction false} PushAllConcat(rooted: bool, stack: Path, a: Path, b: Path)
    ensures PushAll(rooted, stack, a + b) == PushAll(rooted, PushAll(rooted, stack, a), b)
    decreases a
  {
    if a == [] {
      assert a + b == b;
    } else {
      assert (a + b)[1..] == a[1..] + b;
      PushAllConcat(rooted, Push(rooted, stack, a[0]), a[1..], b);
    }
  }

  lemma {:induction false} PushAllPlain(rooted: bool, stack: Path, parts: Path)
    requires AllPlain(parts)
    ensures PushAll(rooted, stack, parts) == stack + parts
    decreases parts
  {
    if parts != [] {
      PushAllPlain(rooted, stack + [parts[0]], parts[1..]);
      assert stack + [parts[0]] + parts[1..] == stack + parts;
    }
  }

  lemma {:induction false} PushAllTidy(rooted: bool, stack: Path, parts: Path)
    requires Tidy(rooted, stack)
    requires forall i :: 0 <= i < |parts| ==> NoSlash(parts[i])
    ensures Tidy(rooted, PushAll(rooted, stack, parts))
    decreases parts
  {
    if parts != [] {
      PushAllTidy(rooted, Push(rooted, stack, parts[0]), parts[1..]);
    }
  }

  lemma CleanTidy(s: string)
    ensures Tidy(IsAbs(s), CleanPath(s).comps)
  {
    SplitHasNoSlash(s);
    PushAllTidy(IsAbs(s), [], Split(s));
  }

  // ----- what a path leads to ------------------------------------------------------------------

  /** One step from a directory: to itself, to the one above it, or into it. */
  function Step(at: Path, c: string): Path {
    if c == "" || c == "." then at
    else if c == ".." then if at == [] then [] else at[..|at| - 1]
    else at + [c]
  }

  function Follow(at: Path, parts: Path): Path
    decreases parts
  {
    if parts == [] then at else Follow(Step(at, parts[0]), parts[1..])
  }

  lemma {:induction false} FollowConcat(at: Path, a: Path, b: Path)
    ensures Follow(at, a + b) == Follow(Follow(at, a), b)
    decreases a
  {
    if a == [] {
      assert a + b == b;
    } else {
      assert (a + b)[1..] == a[1..] + b;
      FollowConcat(Step(at, a[0]), a[1..], b);
    }
  }

  lemma FollowOne(at: Path, c: string)
    ensures Follow(at, [c]) == Step(at, c)
  {
    assert [c][1..] == [];
  }

  lemma PushFollows(rooted: bool, at: Path, stack: Path, c: string)
    requires Tidy(rooted, stack) && (rooted ==> at == [])
    ensures Follow(at, Push(rooted, stack, c)) == Step(Follow(at, stack), c)
  {
    if Push(rooted, stack, c) == stack + [c] {
      FollowConcat(at, stack, [c]);
      FollowOne(Follow(at, stack), c);
    } else if stack != [] && c == ".." {
      var up, last := stack[..|stack| - 1], stack[|stack| - 1];
      assert stack == up + [last] && Plain(last);
      FollowConcat(at, up, [last]);
      FollowOne(Follow(at, up), last);
    }
  }

  lemma {:induction false} PushAllFollows(rooted: bool, at: Path, stack: Path, parts: Path)
    requires Tidy(rooted, stack) && (rooted ==> at == [])
    requires forall i :: 0 <= i < |parts| ==> NoSlash(parts[i])
    ensures Follow(at, PushAll(rooted, stack, parts)) == Follow(Follow(at, stack), parts)
    decreases parts
  {
    if parts != [] {
      PushFollows(rooted, at, stack, parts[0]);
      hide Follow;
      PushAllFollows(rooted, at, Push(rooted, stack, parts[0]), parts[1..]);
      FollowFirst(Follow(at, stack), parts);
    }
  }

  lemma FollowFirst(at: Path, parts: Path)
    requires parts != []
    ensures Follow(at, parts) == Follow(Step(at, parts[0]), parts[1..])
  {
  }

  /**
   A cleaned path leads to where the path does, from the root if it is absolute and from any working
   directory otherwise; and it has no "." and no "..", but for those that lead a relative path up.
   */
  lemma CleanLeadsThere(s: string, cwd: Path)
    ensures var at := if IsAbs(s) then [] else cwd;
            Follow(at, CleanPath(s).comps) == Follow(at, Split(s)) && Tidy(IsAbs(s), CleanPath(s).comps)
  {
    var at := if IsAbs(s) then [] else cwd;
    CleanTidy(s);
    SplitHasNoSlash(s);
    PushAllFollows(IsAbs(s), at, [], Split(s));
    assert Follow(at, []) == at;
  }

  /** A tidy relative path that does not begin with ".." has no ".." at all. */
  lemma TidyInside(p: Path)
    requires Tidy(false, p)
    requires p == [] || p[0] != ".."
    ensures AllPlain(p)
  {
  }

  /** Joining plain components and cleaning gives the components back; so does a trailing slash. */
  lemma CleanOfPlain(p: Path)
    requires p != [] && AllPlain(p)
    ensures CleanPath(Join(p)) == Clean(false, p)
    ensures CleanPath(Join(p) + "/") == Clean(false, p)
  {
    SplitJoin(p);
    SplitConcat(Join(p), "");
    assert Join(p) + "/" + "" == Join(p) + "/";
    JoinStart(p);
    PushAllPlain(false, [], p);
    PushAllConcat(false, [], p, [""]);
    assert PushAll(false, p, [""]) == PushAll(false, Push(false, p, ""), []);
  }

  /** The first character of a join is the first character of its first component. */
  lemma JoinStart(p: Path)
    requires p != [] && p[0] != ""
    ensures Join(p) != "" && Join(p)[0] == p[0][0]
  {
  }

  /** Pushing tidy components onto what precedes them only appends them. */
  lemma {:induction false} PushAllTidyAppends(rooted: bool, stack: Path, parts: Path)
    requires Tidy(rooted, stack + parts)
    ensures PushAll(rooted, stack, parts) == stack + parts
    decreases parts
  {
    if parts == [] {
      assert stack + parts == stack;
    } else {
      var c := parts[0];
      assert (stack + parts)[|stack|] == c;
      assert |stack| > 0 ==> (stack + parts)[|stack| - 1] == stack[|stack| - 1];
      assert Push(rooted, stack, c) == stack + [c];
      assert stack + [c] + parts[1..] == stack + parts;
      PushAllTidyAppends(rooted, stack + [c], parts[1..]);
    }
  }

  lemma TidyNoSlash(rooted: bool, d: Path)
    requires Tidy(rooted, d)
    ensures forall i :: 0 <= i < |d| ==> NoSlash(d[i]) && d[i] != ""
  {
  }

  /** Pushing the components of a rendered cleaned path rebuilds them. */
  lemma PushRendered(rooted: bool, d: Path)
    requires Tidy(rooted, d)
    ensures PushAll(rooted, [], Split(Render(Clean(rooted, d)))) == d
  {
    TidyNoSlash(rooted, d);
    assert [] + d == d;
    PushAllTidyAppends(rooted, [], d);
    if d != [] { SplitJoin(d); }
    if rooted {
      RootedParts(d);
    } else if d == [] {
      SplitPlain(".");
      assert PushAll(false, [], ["."]) == PushAll(false, Push(false, [], "."), []);
    }
  }

  lemma RootedParts(d: Path)
    requires PushAll(true, [], Split(Join(d))) == d
    ensures PushAll(true, [], Split(Render(Clean(true, d)))) == d
  {
    SplitConcat("", Join(d));
    assert "" + "/" + Join(d) == Render(Clean(true, d));
    assert Split("") == [""];
    hide Split, Join, Render;
    PushAllConcat(true, [], [""], Split(Join(d)));
    assert PushAll(true, [], [""]) == PushAll(true, Push(true, [], ""), []) == [];
  }

  /** A rendered cleaned path is absolute exactly when it is rooted. */
  lemma RenderIsAbs(rooted: bool, d: Path)
    requires Tidy(rooted, d)
    ensures IsAbs(Render(Clean(rooted, d))) == rooted && Render(Clean(rooted, d)) != ""
  {
    TidyNoSlash(rooted, d);
    if !rooted && d != [] { JoinStart(d); }
  }

  /** Cleaning a cleaned path followed by more is pushing the rest onto its components. */
  lemma CleanUnder(rooted: bool, d: Path, name: string)
    requires Tidy(rooted, d)
    ensures JoinClean(Render(Clean(rooted, d)), name) == Clean(rooted, PushAll(rooted, d, Split(name)))
  {
    var base := Render(Clean(rooted, d));
    SplitConcat(base, name);
    PushRendered(rooted, d);
    PushAllConcat(rooted, [], Split(base), Split(name));
    RenderIsAbs(rooted, d);
    assert IsAbs(base + "/" + name) == IsAbs(base);
  }

  /** Splitting a rendered relative path of plain components recovers them. */
  lemma SplitRender(rooted: bool, stack: Path, p: Path)
    requires AllPlain(p)
    ensures PushAll(rooted, stack, Split(Render(Clean(false, p)))) == stack + p
  {
    if p == [] {
      SplitPlain(".");
      assert PushAll(rooted, stack, ["."]) == PushAll(rooted, Push(rooted, stack, "."), []);
    } else {
      SplitJoin(p);
      PushAllPlain(rooted, stack, p);
    }
  }

  /** A nonempty join distributes over concatenation, with one slash between. */
  lemma {:induction false} JoinConcat(a: Path, b: Path)
    requires a != [] && b != []
    ensures Join(a + b) == Join(a) + "/" + Join(b)
  {
    if |a| == 1 {
      assert (a + b)[1..] == b;
    } else {
      assert (a + b)[1..] == a[1..] + b;
      JoinConcat(a[1..], b);
      assert Join(a) + "/" + Join(b) == a[0] + "/" + (Join(a[1..]) + "/" + Join(b));
    }
  }
}
