/**
 What an archive read back from its own writer leaves on the disk, and exactly when it is accepted.
 */
module RoundTrip {
  import opened Wrappers
  import opened Paths
  import opened Archive
  import opened Containment

  // ----- listings ------------------------------------------------------------------------------

  lemma {:induction false} LessIrreflexive(a: string)
    ensures !Less(a, a)
  {
    if a != "" { LessIrreflexive(a[1..]); }
  }

  lemma {:induction false} LessAsymmetric(a: string, b: string)
    ensures !(Less(a, b) && Less(b, a))
  {
    if a != "" && b != "" { LessAsymmetric(a[1..], b[1..]); }
  }

  lemma NamesDiffer(kids: seq<Kid>, i: nat, j: nat)
    requires Listing(kids) && i < j < |kids|
    ensures kids[i].name != kids[j].name
  {
    LessIrreflexive(kids[i].name);
  }

  lemma ListingTail(kids: seq<Kid>)
    requires Listing(kids) && kids != []
    ensures Listing(kids[1..]) && Plain(kids[0].name) && NulFree(kids[0].name)
    ensures kids[0].node.Dir? ==> Listing(kids[0].node.kids)
    ensures forall i :: 0 <= i < |kids[1..]| ==> kids[1..][i].name != kids[0].name
  {
    forall i | 0 <= i < |kids[1..]| ensures kids[1..][i].name != kids[0].name {
      NamesDiffer(kids, 0, i + 1);
    }
  }

  /** The path lies at or below one of the children of `base`. */
  ghost predicate UnderSome(base: Path, kids: seq<Kid>, p: Path) {
    exists i :: 0 <= i < |kids| && base + [kids[i].name] <= p
  }

  lemma {:induction false} FlatUnder(base: Path, kids: seq<Kid>, p: Path)
    requires p in Flat(base, kids)
    ensures UnderSome(base, kids, p)
    decreases kids
  {
    var q := base + [kids[0].name];
    if p in Flat(base, kids[1..]) {
      FlatUnder(base, kids[1..], p);
      var i :| 0 <= i < |kids[1..]| && base + [kids[1..][i].name] <= p;
      assert kids[i + 1] == kids[1..][i];
    } else {
      if kids[0].node.Dir? && p in Flat(q, kids[0].node.kids) {
        FlatUnder(q, kids[0].node.kids, p);
      }
      assert q <= p;
    }
  }

  // ----- names ---------------------------------------------------------------------------------

  lemma JoinHasSlash(p: Path)
    requires |p| > 1
    ensures !NoSlash(Join(p))
  {
    assert Join(p)[|p[0]|] == '/';
  }

  /** Only a top-level name can be mistaken for the digest entry, and never a folder's. */
  lemma DigestNameOnlyOnTop(p: Path)
    requires p != []
    ensures Join(p) == DIGEST_NAME ==> p == [DIGEST_NAME]
    ensures Join(p) + "/" != DIGEST_NAME
  {
    assert NoSlash(DIGEST_NAME);
    if |p| > 1 { JoinHasSlash(p); }
    assert (Join(p) + "/")[|Join(p)|] == '/';
  }

  /** Where a walked entry lands. */
  lemma WalkTarget(dest: string, p: Path)
    requires CleanPath(dest).comps != [] && p != [] && AllPlain(p)
    ensures Target(dest, Join(p)) == Some(CleanPath(dest).comps + p)
    ensures Target(dest, Join(p) + "/") == Some(CleanPath(dest).comps + p)
  {
    CleanOfPlain(p);
    TargetIs(dest, Join(p));
    TargetIs(dest, Join(p) + "/");
  }

  // ----- reading one entry ---------------------------------------------------------------------

  ghost predicate HasDir(p: Path, nodes: Nodes) { p in nodes && nodes[p].DirNode? }

  lemma MkdirOne(nodes: Nodes, t: Path)
    requires t != [] && HasDir(Parent(t), nodes)
    ensures t !in nodes ==> MkdirAll(nodes, t) == Some(nodes[t := DirNode])
    ensures MkdirAll(nodes, Parent(t)) == Some(nodes)
  {
    assert Parent(t) == t[..|t| - 1];
  }

  lemma ReadFile(dest: string, r: Reader, p: Path, data: Bytes)
    requires CleanPath(dest).comps != [] && p != [] && AllPlain(p)
    requires p != [DIGEST_NAME]
    requires var t := CleanPath(dest).comps + p; HasDir(Parent(t), r.nodes) && t !in r.nodes
    ensures var t, e := CleanPath(dest).comps + p, Entry(Join(p), Reg, data);
            ReadEntry(dest, r, e, true) ==
            Next(r.(nodes := r.nodes[t := FileNode(data)], hashed := r.hashed + Chunk(e), written := r.written + |data|))
  {
    hide Target, CleanPath, Chunk, MkdirAll, Join, AllPlain, HasDir;
    DigestNameOnlyOnTop(p);
    WalkTarget(dest, p);
    MkdirOne(r.nodes, CleanPath(dest).comps + p);
  }

  lemma ReadFolder(dest: string, r: Reader, p: Path)
    requires CleanPath(dest).comps != [] && p != [] && AllPlain(p)
    requires var t := CleanPath(dest).comps + p; HasDir(Parent(t), r.nodes) && t !in r.nodes
    ensures var t := CleanPath(dest).comps + p;
            ReadEntry(dest, r, Entry(Join(p) + "/", Folder, ""), true) == Next(r.(nodes := r.nodes[t := DirNode]))
  {
    DigestNameOnlyOnTop(p);
    WalkTarget(dest, p);
    MkdirOne(r.nodes, CleanPath(dest).comps + p);
    hide Target, CleanPath, Chunk, MkdirAll, PlaceFile, Join;
  }

  // ----- reading a walk ------------------------------------------------------------------------

  /** What the reader looks like once it has read the whole walk of `kids` below `base`. */
  ghost function AfterWalk(base: Path, prefix: Path, r: Reader, kids: seq<Kid>): Reader {
    r.(nodes := r.nodes + Flat(base, kids),
       hashed := r.hashed + Payload(Walk(prefix, kids)),
       written := r.written + Size(kids))
  }

  /** The folder exists and nothing is yet where its children will go. */
  ghost predicate Ready(base: Path, kids: seq<Kid>, nodes: Nodes) {
    HasDir(base, nodes) && forall p :: p in nodes ==> !UnderSome(base, kids, p)
  }

  lemma UnderTail(base: Path, kids: seq<Kid>, p: Path)
    requires kids != [] && Listing(kids)
    ensures UnderSome(base, kids[1..], p) ==> UnderSome(base, kids, p) && !(base + [kids[0].name] <= p)
  {
    ListingTail(kids);
    if UnderSome(base, kids[1..], p) {
      var i :| 0 <= i < |kids[1..]| && base + [kids[1..][i].name] <= p;
      assert kids[i + 1] == kids[1..][i];
      assert p[|base|] == kids[1..][i].name;
    }
  }

  lemma ReadyTail(base: Path, kids: seq<Kid>, nodes: Nodes, extra: Nodes)
    requires kids != [] && Listing(kids) && Ready(base, kids, nodes)
    requires forall p :: p in extra ==> base + [kids[0].name] <= p
    ensures Ready(base, kids[1..], nodes + extra)
  {
    forall p | p in nodes + extra ensures !UnderSome(base, kids[1..], p) {
      UnderTail(base, kids, p);
    }
    assert base !in extra;
  }

  lemma UnderInside(base: Path, kids: seq<Kid>, p: Path)
    requires kids != [] && kids[0].node.Dir?
    ensures var q := base + [kids[0].name];
            UnderSome(q, kids[0].node.kids, p) ==> UnderSome(base, kids, p) && p != q
  {
    var q := base + [kids[0].name];
    if UnderSome(q, kids[0].node.kids, p) { assert q <= p; }
  }

  lemma ReadyInside(base: Path, kids: seq<Kid>, nodes: Nodes)
    requires kids != [] && Ready(base, kids, nodes) && kids[0].node.Dir?
    ensures var q := base + [kids[0].name]; Ready(q, kids[0].node.kids, nodes[q := DirNode])
  {
    var q := base + [kids[0].name];
    forall p | p in nodes[q := DirNode] ensures !UnderSome(q, kids[0].node.kids, p) {
      UnderInside(base, kids, p);
    }
  }

  lemma {:induction false} ReadWalk(dest: string, prefix: Path, r: Reader, kids: seq<Kid>)
    requires CleanPath(dest).comps != [] && AllPlain(prefix)
    requires Listing(kids) && Archivable(kids) && (prefix == [] ==> !HasReservedFile(kids))
    requires Ready(CleanPath(dest).comps + prefix, kids, r.nodes)
    ensures ReadAll(dest, r, Walk(prefix, kids)) == Next(AfterWalk(CleanPath(dest).comps + prefix, prefix, r, kids))
    decreases kids, 1
  {
    var base := CleanPath(dest).comps + prefix;
    if kids == [] {
      assert r.nodes + map[] == r.nodes && r.hashed + "" == r.hashed;
    } else {
      ReadWalkHead(dest, prefix, r, kids);
      ListingTail(kids);
      WalkSplit(prefix, kids);
      FlatHead(base, kids);
      ReadyTail(base, kids, r.nodes, Flat(base, kids[..1]));
      NotReservedTail(kids);
      var mid := AfterWalk(base, prefix, r, kids[..1]);
      hide CleanPath, Flat, Payload, Walk, Size, Archivable, HasReservedFile, Ready, Listing, AllPlain;
      ReadWalk(dest, prefix, mid, kids[1..]);
      ReadAllConcat(dest, r, Walk(prefix, kids[..1]), Walk(prefix, kids[1..]));
      AfterWalkSplit(base, prefix, r, kids);
    }
  }

  lemma NotReservedTail(kids: seq<Kid>)
    requires kids != []
    ensures !HasReservedFile(kids) ==> !HasReservedFile(kids[1..])
  {
    assert forall i :: 0 <= i < |kids[1..]| ==> kids[1..][i] == kids[i + 1];
  }

  lemma AfterWalkSplit(base: Path, prefix: Path, r: Reader, kids: seq<Kid>)
    requires kids != [] && Archivable(kids)
    ensures AfterWalk(base, prefix, AfterWalk(base, prefix, r, kids[..1]), kids[1..]) == AfterWalk(base, prefix, r, kids)
  {
    var head, tail := kids[..1], kids[1..];
    WalkSplit(prefix, kids);
    PayloadConcat(Walk(prefix, head), Walk(prefix, tail));
    FlatSplit(base, kids);
    SizeSplit(kids);
    Associative(r.hashed, Payload(Walk(prefix, head)), Payload(Walk(prefix, tail)));
    MergeAssociative(r.nodes, Flat(base, head), Flat(base, tail));
    hide Flat, Payload, Walk, Size;
  }

  lemma FlatHead(base: Path, kids: seq<Kid>)
    requires kids != []
    ensures forall p :: p in Flat(base, kids[..1]) ==> base + [kids[0].name] <= p
  {
    forall p | p in Flat(base, kids[..1]) ensures base + [kids[0].name] <= p {
      FlatUnder(base, kids[..1], p);
    }
  }

  lemma WalkSplit(prefix: Path, kids: seq<Kid>)
    requires kids != [] && Archivable(kids)
    ensures Archivable(kids[..1]) && Archivable(kids[1..])
    ensures Walk(prefix, kids) == Walk(prefix, kids[..1]) + Walk(prefix, kids[1..])
  {
    assert kids[..1][1..] == [];
    assert kids[..1][0] == kids[0];
    assert Walk(prefix, []) == [];
    if kids[0].node.Dir? {
      var p, ks := prefix + [kids[0].name], kids[0].node.kids;
      assert Walk(prefix, kids[..1]) == [Entry(Join(p) + "/", Folder, "")] + Walk(p, ks);
    } else {
      var p := prefix + [kids[0].name];
      assert Walk(prefix, kids[..1]) == [Entry(Join(p), Reg, kids[0].node.data)];
    }
  }

  lemma FlatSplit(base: Path, kids: seq<Kid>)
    requires kids != []
    ensures Flat(base, kids) == Flat(base, kids[..1]) + Flat(base, kids[1..])
  {
    assert kids[..1][1..] == [];
    assert kids[..1][0] == kids[0];
    assert Flat(base, []) == map[];
  }

  lemma SizeSplit(kids: seq<Kid>)
    requires kids != []
    ensures Size(kids) == Size(kids[..1]) + Size(kids[1..])
  {
    assert kids[..1][1..] == [];
    assert kids[..1][0] == kids[0];
  }

  /** The first child alone. */
  lemma {:induction false} ReadWalkHead(dest: string, prefix: Path, r: Reader, kids: seq<Kid>)
    requires CleanPath(dest).comps != [] && AllPlain(prefix) && kids != []
    requires Listing(kids) && Archivable(kids) && (prefix == [] ==> !HasReservedFile(kids))
    requires Ready(CleanPath(dest).comps + prefix, kids, r.nodes)
    ensures ReadAll(dest, r, Walk(prefix, kids[..1])) ==
            Next(AfterWalk(CleanPath(dest).comps + prefix, prefix, r, kids[..1]))
    decreases kids, 0
  {
    var base, p := CleanPath(dest).comps + prefix, prefix + [kids[0].name];
    ListingTail(kids);
    var t := CleanPath(dest).comps + p;
    assert t == base + [kids[0].name] && Parent(t) == base;
    assert UnderSome(base, kids, t);
    match kids[0].node {
      case File(d) =>
        assert p != [DIGEST_NAME];
        ReadFile(dest, r, p, d);
        hide ReadAll, CleanPath, Listing, Archivable, ReadEntry, Walk, Payload, Size, Flat;
        ReadOne(dest, r, Entry(Join(p), Reg, d));
        AfterOneFile(base, prefix, r, kids);
      case Dir(ks) =>
        ReadFolder(dest, r, p);
        ReadyInside(base, kids, r.nodes);
        ReadWalk(dest, p, r.(nodes := r.nodes[t := DirNode]), ks);
        hide CleanPath, Listing, Archivable, ReadEntry, Walk, Payload, Size, Flat;
        var e := Entry(Join(p) + "/", Folder, "");
        ReadOne(dest, r, e);
        ReadAllConcat(dest, r, [e], Walk(p, ks));
        AfterOneFolder(base, prefix, r, kids);
    }
  }

  lemma AfterOneFile(base: Path, prefix: Path, r: Reader, kids: seq<Kid>)
    requires kids != [] && kids[0].node.File?
    ensures var p, d := prefix + [kids[0].name], kids[0].node.data;
            var t, e := base + [kids[0].name], Entry(Join(p), Reg, d);
            && Walk(prefix, kids[..1]) == [e]
            && AfterWalk(base, prefix, r, kids[..1]) ==
               r.(nodes := r.nodes[t := FileNode(d)], hashed := r.hashed + Chunk(e), written := r.written + |d|)
  {
    var one := kids[..1];
    assert one[1..] == [] && one[0] == kids[0];
    var p, d := prefix + [kids[0].name], kids[0].node.data;
    var t, e := base + [kids[0].name], Entry(Join(p), Reg, d);
    WalkFile(prefix, one);
    assert Walk(prefix, one) == [e];
    assert Payload(Walk(prefix, one)) == Chunk(e) + "" == Chunk(e);
    assert Flat(base, []) == map[] && Size([]) == 0;
    assert Size(one) == |d|;
    assert Flat(base, one) == map[t := FileNode(d)] + map[];
    assert r.nodes[t := FileNode(d)] == r.nodes + Flat(base, one);
  }

  lemma AfterOneFolder(base: Path, prefix: Path, r: Reader, kids: seq<Kid>)
    requires kids != [] && kids[0].node.Dir? && Archivable(kids)
    ensures var p, ks := prefix + [kids[0].name], kids[0].node.kids;
            var t, e := base + [kids[0].name], Entry(Join(p) + "/", Folder, "");
            && Walk(prefix, kids[..1]) == [e] + Walk(p, ks)
            && AfterWalk(base, prefix, r, kids[..1]) == AfterWalk(t, p, r.(nodes := r.nodes[t := DirNode]), ks)
  {
    var p, ks := prefix + [kids[0].name], kids[0].node.kids;
    var t := base + [kids[0].name];
    WalkOneFolder(prefix, kids);
    FlatOneFolder(base, kids);
    hide Walk, Payload, Flat, Size, Join, Archivable;
    AddThenMerge(r.nodes, t, DirNode, Flat(t, ks));
  }

  lemma AddThenMerge(m: Nodes, k: Path, v: Node, n: Nodes)
    ensures m[k := v] + n == m + (map[k := v] + n)
  {
  }

  lemma MergeAssociative(a: Nodes, b: Nodes, c: Nodes)
    ensures (a + b) + c == a + (b + c)
  {
  }

  lemma WalkOneFolder(prefix: Path, kids: seq<Kid>)
    requires kids != [] && kids[0].node.Dir? && Archivable(kids)
    ensures var p, ks := prefix + [kids[0].name], kids[0].node.kids;
            && Walk(prefix, kids[..1]) == [Entry(Join(p) + "/", Folder, "")] + Walk(p, ks)
            && Payload(Walk(prefix, kids[..1])) == Payload(Walk(p, ks))
  {
    var one, p, ks := kids[..1], prefix + [kids[0].name], kids[0].node.kids;
    assert one[1..] == [] && one[0] == kids[0];
    WalkFolder(prefix, one);
    assert Walk(prefix, []) == [];
    var e := Entry(Join(p) + "/", Folder, "");
    assert [e] + Walk(p, ks) + [] == [e] + Walk(p, ks);
    assert Payload(Walk(p, ks)) + "" == Payload(Walk(p, ks));
  }

  lemma FlatOneFolder(base: Path, kids: seq<Kid>)
    requires kids != [] && kids[0].node.Dir?
    ensures var t, ks := base + [kids[0].name], kids[0].node.kids;
            && Flat(base, kids[..1]) == map[t := DirNode] + Flat(t, ks)
            && Size(kids[..1]) == Size(ks)
  {
    var one, t, ks := kids[..1], base + [kids[0].name], kids[0].node.kids;
    assert one[1..] == [] && one[0] == kids[0];
    assert Flat(base, []) == map[] && Size([]) == 0;
    assert Flat(base, one) == map[t := DirNode] + Flat(t, ks) + map[];
  }

  lemma ReadOne(dest: string, r: Reader, e: Entry)
    ensures ReadAll(dest, r, [e]) == ReadEntry(dest, r, e, true)
  {
    assert [e][1..] == [];
    hide ReadEntry;
  }

  // ----- the round trip ------------------------------------------------------------------------

  /** A fresh temporary directory: it exists and holds nothing. */
  ghost predicate EmptyDir(d: Path, nodes: Nodes) {
    HasDir(d, nodes) && forall p :: p in nodes ==> !(d < p)
  }

  lemma EmptyIsReady(d: Path, kids: seq<Kid>, nodes: Nodes)
    requires EmptyDir(d, nodes)
    ensures Ready(d, kids, nodes)
  {
    assert forall p :: UnderSome(d, kids, p) ==> d < p;
  }

  /** Reading a digest entry last leaves the disk alone. */
  lemma ReadDigest(dest: string, r: Reader, digest: Bytes)
    ensures ReadAll(dest, r, [DigestEntry(digest)]) == Next(r.(expected := digest, sawDigest := true))
  {
    ReadOne(dest, r, DigestEntry(digest));
  }

  /**
   Extracting what StreamDir wrote rebuilds exactly the tree, empty directories included, returns
   the writer's digest and counts the bytes of all files.
   */
  lemma RoundTripRebuilds(sha1: Bytes -> Bytes, dest: string, nodes: Nodes, kids: seq<Kid>)
    requires CleanPath(dest).comps != [] && EmptyDir(CleanPath(dest).comps, nodes)
    requires Listing(kids) && Archivable(kids) && !HasReservedFile(kids)
    ensures Extract(sha1, dest, nodes, Stream(sha1, kids)) ==
            Extraction(nodes + Flat(CleanPath(dest).comps, kids), Accepted(Size(kids), sha1(Payload(Walk([], kids)))))
  {
    hide ReadAll, CleanPath, EmptyDir, Ready, Listing, HasReservedFile, Walk, Payload, Flat, Size;
    var cd := CleanPath(dest).comps;
    EmptyIsReady(cd, kids, nodes);
    assert cd + [] == cd;
    ReadWalk(dest, [], Start(nodes), kids);
    var digest := sha1(Payload(Walk([], kids)));
    var r := AfterWalk(cd, [], Start(nodes), kids);
    assert "" + Payload(Walk([], kids)) == Payload(Walk([], kids));
    ReadAllConcat(dest, Start(nodes), Walk([], kids), [DigestEntry(digest)]);
    ReadDigest(dest, r, digest);
  }

  // ----- the order of entries ------------------------------------------------------------------

  /** A directory comes before what is in it, and names that part two paths are in order. */
  ghost predicate Before(p: Path, q: Path) {
    exists k :: 0 <= k <= |p| && k < |q| && PartAt(p, q, k)
  }

  predicate PartAt(p: Path, q: Path, k: nat)
    requires k <= |p| && k < |q|
  {
    p[..k] == q[..k] && (k == |p| || Less(p[k], q[k]))
  }

  function PathOf(e: Entry): Path { CleanPath(e.name).comps }

  ghost predicate Ascending(entries: seq<Entry>) {
    forall i, j :: 0 <= i < j < |entries| ==> Before(PathOf(entries[i]), PathOf(entries[j]))
  }

  /** Each entry of a walk is for something below one of the names listed. */
  ghost predicate UnderOne(prefix: Path, kids: seq<Kid>, p: Path) {
    exists m :: 0 <= m < |kids| && prefix + [kids[m].name] <= p
  }

  lemma {:induction false} WalkUnder(prefix: Path, kids: seq<Kid>)
    requires AllPlain(prefix) && Listing(kids)
    ensures forall i :: 0 <= i < |Walk(prefix, kids)| ==> UnderOne(prefix, kids, PathOf(Walk(prefix, kids)[i]))
    decreases kids
  {
    if kids != [] {
      var p, rest := prefix + [kids[0].name], Walk(prefix, kids[1..]);
      ListingTail(kids);
      assert AllPlain(p);
      CleanOfPlain(p);
      WalkUnder(prefix, kids[1..]);
      match kids[0].node {
        case Special =>
        case File(d) =>
          assert Walk(prefix, kids) == [Entry(Join(p), Reg, d)] + rest;
          hide Walk, Listing, CleanPath, Join, UnderOne;
          EntriesUnder(prefix, kids, [Entry(Join(p), Reg, d)], rest);
        case Dir(ks) =>
          WalkUnder(p, ks);
          var head, inside := [Entry(Join(p) + "/", Folder, "")], Walk(p, ks);
          assert Walk(prefix, kids) == head + inside + if Archivable(ks) then rest else [];
          hide Walk, Listing, CleanPath, Join, Archivable;
          forall i | 0 <= i < |inside| ensures p <= PathOf(inside[i]) {
            var m :| 0 <= m < |ks| && p + [ks[m].name] <= PathOf(inside[i]);
          }
          hide UnderOne;
          EntriesUnder(prefix, kids, head + inside, rest);
      }
    }
  }

  lemma EntriesUnder(prefix: Path, kids: seq<Kid>, head: seq<Entry>, rest: seq<Entry>)
    requires kids != [] && forall i :: 0 <= i < |head| ==> prefix + [kids[0].name] <= PathOf(head[i])
    requires forall i :: 0 <= i < |rest| ==> UnderOne(prefix, kids[1..], PathOf(rest[i]))
    ensures forall i :: 0 <= i < |head| ==> UnderOne(prefix, kids, PathOf(head[i]))
    ensures forall i :: 0 <= i < |rest| ==> UnderOne(prefix, kids, PathOf(rest[i]))
  {
    hide PathOf;
    forall i | 0 <= i < |rest| ensures UnderOne(prefix, kids, PathOf(rest[i])) {
      LaterUnder(prefix, kids, PathOf(rest[i]));
    }
  }

  lemma LaterUnder(prefix: Path, kids: seq<Kid>, p: Path)
    requires kids != [] && UnderOne(prefix, kids[1..], p)
    ensures UnderOne(prefix, kids, p)
  {
    var m :| 0 <= m < |kids[1..]| && prefix + [kids[1..][m].name] <= p;
    assert kids[m + 1].name == kids[1..][m].name;
  }

  /** Everything of `a` comes before everything of `b`. */
  ghost predicate AllBefore(a: seq<Entry>, b: seq<Entry>) {
    forall i, j :: 0 <= i < |a| && 0 <= j < |b| ==> Before(PathOf(a[i]), PathOf(b[j]))
  }

  lemma AscendingConcat(a: seq<Entry>, b: seq<Entry>)
    requires Ascending(a) && Ascending(b) && AllBefore(a, b)
    ensures Ascending(a + b)
  {
    hide Before, PathOf;
  }

  lemma InsideBefore(p: Path, ks: seq<Kid>, q: Path)
    requires UnderOne(p, ks, q)
    ensures Before(p, q) && p <= q
  {
    var m :| 0 <= m < |ks| && p + [ks[m].name] <= q;
    assert q[..|p|] == p;
    assert PartAt(p, q, |p|);
  }

  lemma LaterBefore(prefix: Path, kids: seq<Kid>, p: Path, q: Path)
    requires Listing(kids) && kids != [] && prefix + [kids[0].name] <= p && UnderOne(prefix, kids[1..], q)
    ensures Before(p, q)
  {
    var m :| 0 <= m < |kids[1..]| && prefix + [kids[1..][m].name] <= q;
    var k := |prefix|;
    assert p[..k] == prefix == q[..k] && p[k] == kids[0].name && q[k] == kids[m + 1].name;
    assert PartAt(p, q, k);
  }

  lemma HeadBeforeRest(prefix: Path, kids: seq<Kid>, head: seq<Entry>)
    requires AllPlain(prefix) && Listing(kids) && kids != []
    requires forall i :: 0 <= i < |head| ==> prefix + [kids[0].name] <= PathOf(head[i])
    ensures AllBefore(head, Walk(prefix, kids[1..]))
  {
    ListingTail(kids);
    WalkUnder(prefix, kids[1..]);
    var rest := Walk(prefix, kids[1..]);
    hide Listing, Walk, UnderOne, Before, PathOf, AllPlain;
    forall i, j | 0 <= i < |head| && 0 <= j < |rest| ensures Before(PathOf(head[i]), PathOf(rest[j])) {
      LaterBefore(prefix, kids, PathOf(head[i]), PathOf(rest[j]));
    }
  }

  lemma FolderAscends(p: Path, ks: seq<Kid>)
    requires AllPlain(p) && p != [] && Listing(ks) && Ascending(Walk(p, ks))
    ensures var here := [Entry(Join(p) + "/", Folder, "")] + Walk(p, ks);
            Ascending(here) && forall i :: 0 <= i < |here| ==> p <= PathOf(here[i])
  {
    CleanOfPlain(p);
    WalkUnder(p, ks);
    var folder, inside := Entry(Join(p) + "/", Folder, ""), Walk(p, ks);
    assert PathOf(folder) == p;
    hide Listing, Walk, UnderOne, Before, PathOf, AllPlain, Join;
    forall j | 0 <= j < |inside| ensures Before(p, PathOf(inside[j])) && p <= PathOf(inside[j]) {
      InsideBefore(p, ks, PathOf(inside[j]));
    }
    assert AllBefore([folder], inside);
    AscendingConcat([folder], inside);
  }

  /** The entries of an archive ascend: every directory comes before what is in it, siblings in name order. */
  lemma {:induction false} WalkAscends(prefix: Path, kids: seq<Kid>)
    requires AllPlain(prefix) && Listing(kids)
    ensures Ascending(Walk(prefix, kids))
    decreases kids
  {
    if kids != [] {
      var p := prefix + [kids[0].name];
      assert Plain(kids[0].name);
      ListingTail(kids);
      WalkAscends(prefix, kids[1..]);
      var rest := Walk(prefix, kids[1..]);
      match kids[0].node {
        case Special =>
        case File(d) =>
          var head := [Entry(Join(p), Reg, d)];
          CleanOfPlain(p);
          assert PathOf(head[0]) == p;
          assert Walk(prefix, kids) == head + rest;
          hide Walk, Listing, CleanPath, PathOf, Before, Join;
          HeadBeforeRest(prefix, kids, head);
          AscendingConcat(head, rest);
        case Dir(ks) =>
          WalkAscends(p, ks);
          var head := [Entry(Join(p) + "/", Folder, "")] + Walk(p, ks);
          assert Walk(prefix, kids) == head + if Archivable(ks) then rest else [];
          FolderAscends(p, ks);
          hide Walk, Listing, CleanPath, PathOf, Before, Join, Archivable;
          HeadBeforeRest(prefix, kids, head);
          AscendingConcat(head, rest);
          assert head + [] == head;
      }
    }
  }
}
