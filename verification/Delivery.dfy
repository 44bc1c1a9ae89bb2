/**
 Archives in transit: a stream may arrive cut short, broken off or with altered contents. Unpacking
 one into a fresh temporary directory either fails or yields exactly the tree that was sent.
 */
module Delivery {
  import opened Paths
  import opened Archive
  import opened Containment
  import opened RoundTrip
  import opened Integrity

  /** What became of an entry on its way; a name that tar cannot carry does not arrive. */
  datatype Edit = Edit(name: Bytes, data: Bytes)

  /** What the network does to a stream: new names and contents for files, a cut, and how it ends. */
  datatype Damage = Damage(edits: seq<Edit>, keep: nat, tail: Tail)

  function Altered(e: Entry, x: Edit): Entry {
    var e' := if |x.data| == |e.data| then e.(data := x.data) else e;
    if e.kind.Reg? && NulFree(x.name) && x.name != DIGEST_NAME then e'.(name := x.name) else e'
  }

  function Scramble(entries: seq<Entry>, edits: seq<Edit>): (r: seq<Entry>)
    ensures |r| == |entries|
    ensures forall i :: 0 <= i < |entries| ==>
        r[i] == if i < |edits| then Altered(entries[i], edits[i]) else entries[i]
  {
    if entries == [] || edits == [] then entries
    else [Altered(entries[0], edits[0])] + Scramble(entries[1..], edits[1..])
  }

  /** What arrives of a stream that was sent: the closing entry is never altered, only lost. */
  function Deliver(sent: TarStream, damage: Damage): TarStream {
    var n := |sent.entries|;
    if n == 0 || sent.tail != End then TarStream(Scramble(sent.entries, damage.edits), Broken)
    else
      var got := Scramble(sent.entries[..n - 1], damage.edits) + [sent.entries[n - 1]];
      TarStream(if damage.keep < n then got[..damage.keep] else got, damage.tail)
  }

  /** Nothing happens to it. */
  function Unharmed(sent: TarStream): (d: Damage)
    ensures sent.tail == End && sent.entries != [] ==> Deliver(sent, d) == sent
  {
    var n := |sent.entries|;
    assert n > 0 ==> sent.entries[..n - 1] + [sent.entries[n - 1]] == sent.entries;
    Damage([], n, End)
  }

  /** A tree a sealed partition may hold: regular files and directories, none of them reserved. */
  ghost predicate Sendable(kids: seq<Kid>) {
    Listing(kids) && Archivable(kids) && !HasReservedFile(kids)
  }

  lemma ScrambleShape(entries: seq<Entry>, edits: seq<Edit>)
    requires WriterNames(entries, false)
    ensures var r := Scramble(entries, edits);
            SameShape(r, entries) && forall i :: 0 <= i < |r| ==> r[i].name != DIGEST_NAME
  {
    hide Scramble;
    var r := Scramble(entries, edits);
    forall i | 0 <= i < |r| ensures Alike(r[i], entries[i]) && r[i].name != DIGEST_NAME {
      if i < |edits| { AlteredAlike(entries[i], edits[i]); }
    }
  }

  lemma AlteredAlike(e: Entry, x: Edit)
    requires NulFree(e.name)
    ensures Alike(Altered(e, x), e) && (Altered(e, x).name == DIGEST_NAME ==> e.name == DIGEST_NAME)
  {
  }

  /** Whatever happens in transit, an accepted stream is the one that was sent. */
  lemma DeliveredIsIntact(sha1: Bytes -> Bytes, dest: string, nodes: Nodes, kids: seq<Kid>, damage: Damage)
    requires CollisionFree(sha1) && Sendable(kids)
    requires Extract(sha1, dest, nodes, Deliver(Stream(sha1, kids), damage)).result.Accepted?
    ensures Deliver(Stream(sha1, kids), damage) == Stream(sha1, kids)
  {
    var walk, d := Walk([], kids), DigestEntry(sha1(Payload(Walk([], kids))));
    WalkNames([], kids);
    DeliverCases(walk, d, damage);
    assert Stream(sha1, kids) == TarStream(walk + [d], End);
    var got := Deliver(Stream(sha1, kids), damage);
    hide Extract, Walk, Archivable, Listing, HasReservedFile, CollisionFree, Payload, Stream, Deliver, DigestEntry;
    if damage.keep <= |walk| {
      MissingDigestRejected(sha1, dest, nodes, got);
    } else {
      AcceptedIsIntact(sha1, dest, nodes, kids, got);
    }
  }

  /** Either the closing entry is lost or it frames the altered files. */
  lemma DeliverCases(walk: seq<Entry>, d: Entry, damage: Damage)
    requires WriterNames(walk, false) && d.kind.Reg? && d.name == DIGEST_NAME
    ensures var got := Deliver(TarStream(walk + [d], End), damage).entries;
            if damage.keep <= |walk| then forall i :: 0 <= i < |got| ==> got[i].name != DIGEST_NAME
            else SameFrame(got, walk + [d])
  {
    var all := walk + [d];
    assert all[..|walk|] == walk && all[|walk|] == d;
    ScrambleShape(walk, damage.edits);
    var got := Scramble(walk, damage.edits) + [d];
    if damage.keep > |walk| {
      forall i | 0 <= i < |all| ensures Alike(got[i], all[i]) {
        if i < |walk| { assert Alike(Scramble(walk, damage.edits)[i], walk[i]); }
      }
    }
  }

  // ----- a fresh temporary directory -----------------------------------------------------------

  /** A disk holding nothing but the folders down to `d`. */
  function Fresh(d: Path): Nodes
    decreases |d|
  {
    if d == [] then map[] else Fresh(d[..|d| - 1])[d := DirNode]
  }

  /** The part of a disk below `d`, with paths relative to it. */
  function Below(d: Path, nodes: Nodes): Nodes {
    map q | q in (set p | p in nodes && d < p :: p[|d|..]) && d + q in nodes :: nodes[d + q]
  }

  /** Extraction into a fresh directory: what is then below it, and the verdict. */
  function Unpack(sha1: Bytes -> Bytes, tmpDir: string, stream: TarStream): Extraction {
    var d := CleanPath(tmpDir).comps;
    var x := Extract(sha1, tmpDir, Fresh(d), stream);
    Extraction(Below(d, x.nodes), x.result)
  }

  lemma {:induction false} FreshPaths(d: Path)
    ensures forall p :: p in Fresh(d) ==> p <= d && p != []
    ensures DirChain(d, Fresh(d))
    decreases |d|
  {
    if d != [] {
      var up := d[..|d| - 1];
      FreshPaths(up);
      forall p | p in Fresh(d) ensures p <= d && p != [] {
        assert p == d || p <= up;
      }
      forall i | 1 <= i <= |d| ensures d[..i] in Fresh(d) && Fresh(d)[d[..i]].DirNode? {
        if i < |d| { assert up[..i] == d[..i]; } else { assert d[..i] == d; }
      }
    }
  }

  lemma FreshIsEmpty(d: Path)
    requires d != []
    ensures EmptyDir(d, Fresh(d))
  {
    FreshPaths(d);
  }

  /** Moving a tree down by `d` moves each of its paths. */
  lemma {:induction false} FlatShift(d: Path, base: Path, kids: seq<Kid>)
    ensures forall p :: p in Flat(base, kids) <==> d + p in Flat(d + base, kids)
    ensures forall p :: p in Flat(base, kids) ==> Flat(base, kids)[p] == Flat(d + base, kids)[d + p]
    decreases kids
  {
    if kids != [] {
      var p := base + [kids[0].name];
      assert d + p == d + base + [kids[0].name];
      FlatShift(d, base, kids[1..]);
      if kids[0].node.Dir? { FlatShift(d, p, kids[0].node.kids); }
      forall q ensures (d + q == d + p) == (q == p) {
        assert q == (d + q)[|d|..] && p == (d + p)[|d|..];
      }
    }
  }

  lemma BelowAt(d: Path, nodes: Nodes, q: Path)
    ensures q in Below(d, nodes) <==> q != [] && d + q in nodes
    ensures q in Below(d, nodes) ==> Below(d, nodes)[q] == nodes[d + q]
  {
    if q != [] && d + q in nodes { assert d < d + q && (d + q)[|d|..] == q; }
    if q in Below(d, nodes) {
      var p :| p in nodes && d < p && p[|d|..] == q;
      assert p == d + q;
    }
  }

  lemma BelowFlatAt(d: Path, nodes: Nodes, kids: seq<Kid>, q: Path)
    requires forall p :: p in nodes ==> !(d < p)
    ensures var b, f := Below(d, nodes + Flat(d, kids)), Flat([], kids);
            (q in b <==> q in f) && (q in f ==> b[q] == f[q])
  {
    FlatShift(d, [], kids);
    assert d + [] == d;
    BelowAt(d, nodes + Flat(d, kids), q);
    if q in Flat([], kids) { FlatUnder([], kids, q); }
    hide Below, Flat;
    assert q != [] ==> d < d + q;
  }

  lemma BelowFlat(d: Path, nodes: Nodes, kids: seq<Kid>)
    requires forall p :: p in nodes ==> !(d < p)
    ensures Below(d, nodes + Flat(d, kids)) == Flat([], kids)
  {
    hide Below, Flat;
    var b, f := Below(d, nodes + Flat(d, kids)), Flat([], kids);
    forall q ensures (q in b <==> q in f) && (q in f ==> b[q] == f[q]) {
      BelowFlatAt(d, nodes, kids, q);
    }
  }

  /** Unpacking the stream as sent rebuilds the tree. */
  lemma UnpackIntact(sha1: Bytes -> Bytes, tmpDir: string, kids: seq<Kid>)
    requires CleanPath(tmpDir).comps != [] && Sendable(kids)
    ensures Unpack(sha1, tmpDir, Stream(sha1, kids)) ==
            Extraction(Flat([], kids), Accepted(Size(kids), sha1(Payload(Walk([], kids)))))
  {
    var d := CleanPath(tmpDir).comps;
    FreshIsEmpty(d);
    RoundTripRebuilds(sha1, tmpDir, Fresh(d), kids);
    BelowFlat(d, Fresh(d), kids);
    hide Extract, Stream, Below, Fresh, Flat, CleanPath;
  }

  /** Unpacking whatever arrived either fails or rebuilds the tree that was sent. */
  lemma UnpackDelivered(sha1: Bytes -> Bytes, tmpDir: string, kids: seq<Kid>, damage: Damage)
    requires CleanPath(tmpDir).comps != []
    requires CollisionFree(sha1) && Sendable(kids)
    ensures var x := Unpack(sha1, tmpDir, Deliver(Stream(sha1, kids), damage));
            x.result.Accepted? ==> x.nodes == Flat([], kids) && x.result.written == Size(kids)
  {
    var d := CleanPath(tmpDir).comps;
    if Unpack(sha1, tmpDir, Deliver(Stream(sha1, kids), damage)).result.Accepted? {
      hide Extract, Stream, Below, Fresh, Flat, CleanPath, Deliver;
      DeliveredIsIntact(sha1, tmpDir, Fresh(d), kids, damage);
      UnpackIntact(sha1, tmpDir, kids);
    }
  }

  // ----- the disk determines the tree ----------------------------------------------------------

  /** Which child a path below `base` belongs to. */
  lemma {:induction false} FlatTop(base: Path, kids: seq<Kid>, i: nat)
    requires Listing(kids) && Archivable(kids) && i < |kids|
    ensures var p := base + [kids[i].name];
            p in Flat(base, kids)
                && Flat(base, kids)[p] == (match kids[i].node case File(d) => FileNode(d) case _ => DirNode)
    decreases kids
  {
    ListingTail(kids);
    if i == 0 {
      var p := base + [kids[0].name];
      if p in Flat(base, kids[1..]) {
        FlatUnder(base, kids[1..], p);
        UnderTail(base, kids, p);
        assert false;
      }
      if kids[0].node.Dir? && p in Flat(p, kids[0].node.kids) {
        FlatUnder(p, kids[0].node.kids, p);
        assert false;
      }
    } else {
      FlatTop(base, kids[1..], i - 1);
    }
  }

  /** The part of a flat tree below its first child. */
  lemma FlatSub(base: Path, kids: seq<Kid>, p: Path)
    requires Listing(kids) && kids != [] && kids[0].node.Dir?
    requires base + [kids[0].name] < p
    ensures var q, ks := base + [kids[0].name], kids[0].node.kids;
            && (p in Flat(base, kids) <==> p in Flat(q, ks))
            && (p in Flat(q, ks) ==> Flat(base, kids)[p] == Flat(q, ks)[p])
  {
    if p in Flat(base, kids[1..]) {
      FlatUnder(base, kids[1..], p);
      UnderTail(base, kids, p);
      assert false;
    }
  }

  /** The part of a flat tree outside its first child. */
  lemma FlatRest(base: Path, kids: seq<Kid>, p: Path)
    requires Listing(kids) && kids != []
    ensures var q, rest := base + [kids[0].name], Flat(base, kids[1..]);
            && (p in rest <==> p in Flat(base, kids) && !(q <= p))
            && (p in rest ==> Flat(base, kids)[p] == rest[p])
  {
    if p in Flat(base, kids[1..]) {
      FlatUnder(base, kids[1..], p);
      UnderTail(base, kids, p);
    } else if p in Flat(base, kids) {
      FlatSplit(base, kids);
      FlatHead(base, kids);
    }
  }

  lemma FirstNameLeast(base: Path, a: seq<Kid>, b: seq<Kid>)
    requires Listing(a) && Listing(b) && Archivable(a) && Archivable(b) && a != [] && b != []
    requires Flat(base, a) == Flat(base, b)
    ensures a[0].name == b[0].name || Less(b[0].name, a[0].name)
  {
    FlatTop(base, a, 0);
    var p := base + [a[0].name];
    FlatUnder(base, b, p);
    var i :| 0 <= i < |b| && base + [b[i].name] <= p;
    assert p[|base|] == b[i].name;
  }

  /** Two listings that leave the same paths on a disk are the same listing. */
  lemma {:induction false} FlatInjective(base: Path, a: seq<Kid>, b: seq<Kid>)
    requires Listing(a) && Listing(b) && Archivable(a) && Archivable(b)
    requires Flat(base, a) == Flat(base, b)
    ensures a == b
    decreases a
  {
    if a == [] || b == [] {
      if a != [] { FlatTop(base, a, 0); }
      if b != [] { FlatTop(base, b, 0); }
    } else {
      hide Flat, Less;
      FirstNameLeast(base, a, b);
      FirstNameLeast(base, b, a);
      LessAsymmetric(a[0].name, b[0].name);
      ListingTail(a);
      ListingTail(b);
      FirstKidsAgree(base, a, b);
      FlatRestEqual(base, a, b);
      if a[0].node.Dir? {
        FlatSubEqual(base, a, b);
        hide Listing;
        FlatInjective(base + [a[0].name], a[0].node.kids, b[0].node.kids);
      }
      hide Listing, Archivable;
      FlatInjective(base, a[1..], b[1..]);
      assert a == [a[0]] + a[1..] && b == [b[0]] + b[1..];
    }
  }

  /** The first children are files with the same contents, or both folders. */
  lemma FirstKidsAgree(base: Path, a: seq<Kid>, b: seq<Kid>)
    requires Listing(a) && Listing(b) && Archivable(a) && Archivable(b)
    requires a != [] && b != [] && a[0].name == b[0].name && Flat(base, a) == Flat(base, b)
    ensures a[0].node.Dir? <==> b[0].node.Dir?
    ensures !a[0].node.Dir? ==> a[0] == b[0]
    ensures Archivable(a[1..]) && Archivable(b[1..])
    ensures a[0].node.Dir? ==> Archivable(a[0].node.kids) && Archivable(b[0].node.kids)
  {
    hide Flat, Listing;
    FlatTop(base, a, 0);
    FlatTop(base, b, 0);
  }

  lemma FlatRestEqual(base: Path, a: seq<Kid>, b: seq<Kid>)
    requires Listing(a) && Listing(b) && a != [] && b != [] && a[0].name == b[0].name
    requires Flat(base, a) == Flat(base, b)
    ensures Flat(base, a[1..]) == Flat(base, b[1..])
  {
    var x, y := Flat(base, a[1..]), Flat(base, b[1..]);
    forall p ensures (p in x <==> p in y) && (p in x ==> x[p] == y[p]) {
      FlatRest(base, a, p);
      FlatRest(base, b, p);
    }
  }

  lemma FlatSubEqual(base: Path, a: seq<Kid>, b: seq<Kid>)
    requires Listing(a) && Listing(b) && a != [] && b != [] && a[0].name == b[0].name
    requires a[0].node.Dir? && b[0].node.Dir?
    requires Flat(base, a) == Flat(base, b)
    ensures Flat(base + [a[0].name], a[0].node.kids) == Flat(base + [a[0].name], b[0].node.kids)
  {
    hide Flat, Listing;
    var q := base + [a[0].name];
    var x, y := Flat(q, a[0].node.kids), Flat(q, b[0].node.kids);
    forall p ensures (p in x <==> p in y) && (p in x ==> x[p] == y[p]) {
      if p in x { StrictlyUnder(q, a[0].node.kids, p); }
      if p in y { StrictlyUnder(q, b[0].node.kids, p); }
      if q < p {
        FlatSub(base, a, p);
        FlatSub(base, b, p);
      }
    }
  }

  lemma StrictlyUnder(base: Path, kids: seq<Kid>, p: Path)
    requires p in Flat(base, kids)
    ensures base < p
  {
    FlatUnder(base, kids, p);
  }
}
