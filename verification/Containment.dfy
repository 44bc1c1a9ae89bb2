/**
 Where ExtractDir can write: at or below its destination, whatever the stream says.
 */
module Containment {
  import opened Wrappers
  import opened Paths
  import opened Archive

  /** The first check, on components: a relative name that does not climb out. */
  predicate Inside(p: Clean) {
    !p.rooted && (p.comps == [] || p.comps[0] != "..")
  }

  /** The first check, character by character. */
  lemma EscapesMeans(s: string)
    ensures Escapes(s) <==> || (|s| > 0 && s[0] == '/')
                            || (|s| == 2 && s[0] == '.' && s[1] == '.')
                            || (|s| >= 3 && s[0] == '.' && s[1] == '.' && s[2] == '/')
  {
    assert |s| > 0 ==> ("/" <= s <==> s[0] == '/');
    assert |s| == 2 && s[0] == '.' && s[1] == '.' ==> s == "..";
    assert |s| >= 3 && s[0] == '.' && s[1] == '.' && s[2] == '/' ==> s[..3] == "../";
  }

  lemma JoinHasNoUp(p: Path)
    requires Tidy(false, p) && p != [] && p[0] != ".."
    ensures !Escapes(Join(p))
  {
    TidyInside(p);
    var c, s := p[0], Join(p);
    EscapesMeans(s);
    assert s == if |p| == 1 then c else c + "/" + Join(p[1..]);
    assert forall i :: 0 <= i < |c| ==> s[i] == c[i] && s[i] != '/';
    assert |p| > 1 ==> s[|c|] == '/';
    assert |c| == 2 && c[0] == '.' && c[1] == '.' ==> c == "..";
  }

  lemma JoinWithUp(p: Path)
    requires p != [] && p[0] == ".."
    ensures Escapes(Join(p))
  {
    if |p| > 1 { assert Join(p) == "../" + Join(p[1..]); }
  }

  lemma FirstCheck(name: string)
    ensures !Escapes(Render(CleanPath(name))) <==> Inside(CleanPath(name))
  {
    var p := CleanPath(name);
    CleanTidy(name);
    EscapesMeans(Render(p));
    hide CleanPath;
    if p.rooted {
      assert Render(p)[0] == '/';
    } else if p.comps == [] {
      assert Render(p) == ".";
    } else if p.comps[0] == ".." {
      JoinWithUp(p.comps);
    } else {
      JoinHasNoUp(p.comps);
    }
  }

  /** Cleaning the joined string keeps both component lists, so the prefix test is a component test. */
  lemma JoinedTarget(dest: string, name: string)
    requires Inside(CleanPath(name))
    ensures var d := CleanPath(dest);
            JoinClean(Render(d), Render(CleanPath(name))) == Clean(d.rooted, d.comps + CleanPath(name).comps)
  {
    CleanTidy(dest);
    CleanTidy(name);
    var d, p := CleanPath(dest), CleanPath(name).comps;
    TidyInside(p);
    hide CleanPath;
    CleanUnder(d.rooted, d.comps, Render(CleanPath(name)));
    SplitRender(d.rooted, d.comps, p);
  }

  lemma SecondCheck(rooted: bool, d: Path, p: Path)
    requires Tidy(rooted, d) && AllPlain(p)
    ensures !OutOf(Render(Clean(rooted, d)), Render(Clean(rooted, d + p))) <==> d != [] || p == []
  {
    var cleanDest, target := Render(Clean(rooted, d)), Render(Clean(rooted, d + p));
    if p == [] {
      assert d + p == d;
    } else if d == [] {
      assert d + p == p;
      SecondCheckOnTop(rooted, p);
    } else {
      JoinConcat(d, p);
      assert target == (cleanDest + "/") + Join(p);
    }
  }

  /** At the root, and at the working directory, the check rejects every name but ".". */
  lemma SecondCheckOnTop(rooted: bool, p: Path)
    requires p != [] && AllPlain(p)
    ensures OutOf(Render(Clean(rooted, [])), Render(Clean(rooted, p)))
  {
    var target, c := Render(Clean(rooted, p)), p[0];
    assert Join(p) == if |p| == 1 then c else c + "/" + Join(p[1..]);
    if rooted {
      assert "/" + "/" == "//" && target[1] == c[0];
    } else {
      assert target[0] == c[0] && "." + "/" == "./";
      assert |c| > 1 ==> target[1] == c[1] && c[1] in c;
      assert |c| == 1 ==> c == [c[0]];
      assert target == "." ==> c == ".";
    }
  }

  /**
   Both checks together. Below a destination other than the root and the working directory the second
   check never rejects what the first let through; at those two it rejects every name but ".".
   */
  lemma TargetIs(dest: string, name: string)
    ensures var d, p := CleanPath(dest).comps, CleanPath(name);
            Target(dest, name) == if Inside(p) && (d != [] || p.comps == []) then Some(d + p.comps) else None
  {
    var d, p := CleanPath(dest), CleanPath(name);
    FirstCheck(name);
    if Inside(p) {
      CleanTidy(dest);
      CleanTidy(name);
      TidyInside(p.comps);
      JoinedTarget(dest, name);
      SecondCheck(d.rooted, d.comps, p.comps);
    }
  }

  /** Nothing outside `d` was created, changed or removed between two disks. */
  ghost predicate Confined(d: Path, before: Nodes, after: Nodes) {
    forall p :: !(d <= p) ==> (p in before <==> p in after) && (p in before ==> after[p] == before[p])
  }

  /** `d` is a directory and so is everything above it. */
  ghost predicate DirChain(d: Path, nodes: Nodes) {
    forall i :: 1 <= i <= |d| ==> d[..i] in nodes && nodes[d[..i]].DirNode?
  }

  lemma {:induction false} MkdirConfined(d: Path, nodes: Nodes, p: Path)
    requires DirChain(d, nodes) && (d <= p || p <= d)
    ensures var m := MkdirAll(nodes, p);
            m.Some? ==> Confined(d, nodes, m.value) && DirChain(d, m.value)
    decreases |p|
  {
    if p <= d {
      assert p == d[..|p|];
    } else if p !in nodes {
      MkdirConfined(d, nodes, p[..|p| - 1]);
    }
  }

  lemma PlaceConfined(d: Path, nodes: Nodes, target: Path, data: Bytes)
    requires DirChain(d, nodes) && d <= target
    ensures var m := PlaceFile(nodes, target, data).0;
            Confined(d, nodes, m) && DirChain(d, m)
  {
    MkdirConfined(d, nodes, Parent(target));
    if target == d && d != [] { assert d == d[..|d|]; }
  }

  lemma ReadEntryConfined(dest: string, r: Reader, e: Entry, whole: bool)
    requires DirChain(CleanPath(dest).comps, r.nodes)
    ensures var d, r' := CleanPath(dest).comps, ReadEntry(dest, r, e, whole).r;
            Confined(d, r.nodes, r'.nodes) && DirChain(d, r'.nodes)
  {
    hide Target, CleanPath, MkdirAll, PlaceFile, Confined, DirChain, Chunk;
    var d := CleanPath(dest).comps;
    TargetIs(dest, e.name);
    SelfConfined(d, r.nodes);
    var t := Target(dest, e.name);
    if t.Some? {
      assert d <= t.value;
      if e.kind.Folder? { MkdirConfined(d, r.nodes, t.value); }
      if e.kind.Reg? { PlaceConfined(d, r.nodes, t.value, e.data); }
    }
  }

  lemma SelfConfined(d: Path, nodes: Nodes)
    ensures Confined(d, nodes, nodes)
  {
  }

  lemma ConfinedThen(d: Path, a: Nodes, b: Nodes, c: Nodes)
    requires Confined(d, a, b) && Confined(d, b, c)
    ensures Confined(d, a, c)
  {
  }

  lemma {:induction false} ReadAllConfined(dest: string, r: Reader, entries: seq<Entry>)
    requires DirChain(CleanPath(dest).comps, r.nodes)
    ensures var d, r' := CleanPath(dest).comps, ReadAll(dest, r, entries).r;
            Confined(d, r.nodes, r'.nodes) && DirChain(d, r'.nodes)
    decreases entries
  {
    hide CleanPath, ReadEntry, Confined, DirChain;
    var d := CleanPath(dest).comps;
    SelfConfined(d, r.nodes);
    if entries != [] {
      ReadEntryConfined(dest, r, entries[0], true);
      var first := ReadEntry(dest, r, entries[0], true);
      if first.Next? {
        ReadAllConfined(dest, first.r, entries[1..]);
        ConfinedThen(d, r.nodes, first.r.nodes, ReadAll(dest, first.r, entries[1..]).r.nodes);
      }
    }
  }

  /** For every stream, honest or not: nothing outside an existing destination is touched. */
  lemma ExtractIsConfined(sha1: Bytes -> Bytes, dest: string, nodes: Nodes, stream: TarStream)
    requires DirChain(CleanPath(dest).comps, nodes)
    ensures Confined(CleanPath(dest).comps, nodes, Extract(sha1, dest, nodes, stream).nodes)
  {
    hide CleanPath, ReadAll, ReadEntry, Confined, DirChain;
    var all := ReadAll(dest, Start(nodes), stream.entries);
    ReadAllConfined(dest, Start(nodes), stream.entries);
    if all.Next? && stream.tail.Partial? {
      ReadEntryConfined(dest, all.r, stream.tail.head, false);
      ConfinedThen(CleanPath(dest).comps, nodes, all.r.nodes, ReadEntry(dest, all.r, stream.tail.head, false).r.nodes);
    }
  }

  // ----- what is created -----------------------------------------------------------------------

  /** Every file and directory lies in a directory. */
  ghost predicate Grounded(nodes: Nodes) {
    forall p :: p in nodes && |p| > 1 ==> p[..|p| - 1] in nodes && nodes[p[..|p| - 1]].DirNode?
  }

  /** No file stands where a directory is to be, from the top down to `p`. */
  ghost predicate Clear(nodes: Nodes, p: Path) {
    forall k :: 1 <= k <= |p| && p[..k] in nodes ==> nodes[p[..k]].DirNode?
  }

  /** The disk with `p` and all that is above it made directories. */
  ghost predicate WithDirs(nodes: Nodes, m: Nodes, p: Path) {
    forall q :: (q in m <==> q in nodes || Leads(q, p)) && (q in m ==> m[q] == if Leads(q, p) then DirNode else nodes[q])
  }

  /** `q` is `p` or above it. */
  predicate Leads(q: Path, p: Path) { q != [] && q <= p }

  lemma {:induction false} AboveIsDir(nodes: Nodes, p: Path, k: nat)
    requires Grounded(nodes) && p in nodes && 1 <= k < |p|
    ensures p[..k] in nodes && nodes[p[..k]].DirNode?
    decreases |p|
  {
    var up := p[..|p| - 1];
    if k < |p| - 1 {
      AboveIsDir(nodes, up, k);
      assert up[..k] == p[..k];
    }
  }

  /** MkdirAll works exactly when no file is in the way, and makes just the directories that lead there. */
  lemma {:induction false} MkdirMeans(nodes: Nodes, p: Path)
    requires Grounded(nodes)
    ensures MkdirAll(nodes, p).Some? <==> Clear(nodes, p)
    ensures MkdirAll(nodes, p).Some? ==> Grounded(MkdirAll(nodes, p).value) && WithDirs(nodes, MkdirAll(nodes, p).value, p)
    decreases |p|
  {
    if p == [] {
    } else if p in nodes {
      assert p[..|p|] == p;
      forall k | 1 <= k < |p| ensures p[..k] in nodes && nodes[p[..k]].DirNode? {
        AboveIsDir(nodes, p, k);
      }
      assert forall q :: Leads(q, p) ==> q == p[..|q|];
    } else {
      var up := p[..|p| - 1];
      MkdirMeans(nodes, up);
      ClearAbove(nodes, p);
      if Clear(nodes, up) { DirsBelow(nodes, MkdirAll(nodes, up).value, p); }
    }
  }

  lemma ClearAbove(nodes: Nodes, p: Path)
    requires p != [] && p !in nodes
    ensures Clear(nodes, p) <==> Clear(nodes, p[..|p| - 1])
  {
    var up := p[..|p| - 1];
    assert forall k :: 1 <= k <= |up| ==> up[..k] == p[..k];
    assert p[..|p|] == p;
  }

  lemma GroundedBelow(m: Nodes, p: Path)
    requires p != [] && Grounded(m) && (|p| > 1 ==> p[..|p| - 1] in m && m[p[..|p| - 1]].DirNode?)
    ensures Grounded(m[p := DirNode])
  {
  }

  lemma DirsBelow(nodes: Nodes, m: Nodes, p: Path)
    requires p != [] && WithDirs(nodes, m, p[..|p| - 1]) && Grounded(m)
    ensures WithDirs(nodes, m[p := DirNode], p) && Grounded(m[p := DirNode])
  {
    var up := p[..|p| - 1];
    assert |p| > 1 ==> Leads(up, up);
    GroundedBelow(m, p);
    hide Grounded;
    forall q: Path ensures Leads(q, p) <==> Leads(q, up) || q == p {
      if q <= p && q != p { assert q == p[..|q|] == up[..|q|]; }
    }
    hide Leads;
  }

  /**
   A regular file is written exactly when nothing but directories leads to it and it is no directory; then it
   holds just the entry's contents, the directories above it are there, and nothing else changed.
   */
  lemma PlaceMeans(nodes: Nodes, target: Path, data: Bytes)
    requires Grounded(nodes) && target != []
    ensures var (m, ok) := PlaceFile(nodes, target, data);
            && (ok <==> Clear(nodes, Parent(target)) && !(target in nodes && nodes[target].DirNode?))
            && (ok ==> target in m && m[target] == FileNode(data))
            && (ok ==> WithDirs(nodes - {target}, m - {target}, Parent(target)))
  {
    MkdirMeans(nodes, Parent(target));
  }
}
