/**
 What acceptance by ExtractDir proves about the stream it accepted, and what it does not.
 */
module Integrity {
  import opened Paths
  import opened Archive
  import opened RoundTrip

  ghost predicate CollisionFree(sha1: Bytes -> Bytes) {
    forall a, b :: sha1(a) == sha1(b) ==> a == b
  }

  /** The entries the reader hashes and extracts: all but those named like the digest entry. */
  function Kept(entries: seq<Entry>): seq<Entry> {
    if entries == [] then []
    else (if entries[0].name == DIGEST_NAME then [] else [entries[0]]) + Kept(entries[1..])
  }

  /** A digest entry was read, and the last one carried `digest`. */
  ghost predicate LastDigest(entries: seq<Entry>, digest: Bytes) {
    exists i :: 0 <= i < |entries| && entries[i].name == DIGEST_NAME && entries[i].data == digest
             && forall j :: i < j < |entries| ==> entries[j].name != DIGEST_NAME
  }

  lemma {:induction false} PayloadKept(e: Entry, rest: seq<Entry>)
    ensures Payload(Kept([e] + rest)) == (if e.name == DIGEST_NAME then "" else Chunk(e)) + Payload(Kept(rest))
  {
    assert ([e] + rest)[1..] == rest;
    if e.name == DIGEST_NAME {
      assert [] + Kept(rest) == Kept(rest);
      assert "" + Payload(Kept(rest)) == Payload(Kept(rest));
    } else {
      PayloadCons(e, Kept(rest));
    }
  }

  lemma ReadEntryHashed(dest: string, r: Reader, e: Entry)
    requires ReadEntry(dest, r, e, true).Next?
    ensures var r' := ReadEntry(dest, r, e, true).r;
            if e.name == DIGEST_NAME then r' == r.(expected := e.data, sawDigest := true)
            else r' == r.(nodes := r'.nodes, hashed := r.hashed + Chunk(e), written := r'.written)
  {
    hide Target, PlaceFile, MkdirAll;
    assert !e.kind.Reg? ==> r.hashed + Chunk(e) == r.hashed;
  }

  /** Every stream read to its end hashes exactly the payload of its kept entries. */
  lemma {:induction false} ReadAllHashed(dest: string, r: Reader, entries: seq<Entry>)
    requires ReadAll(dest, r, entries).Next?
    ensures var r' := ReadAll(dest, r, entries).r;
            && r'.hashed == r.hashed + Payload(Kept(entries))
            && (if exists i :: 0 <= i < |entries| && entries[i].name == DIGEST_NAME
                then r'.sawDigest && LastDigest(entries, r'.expected)
                else r'.sawDigest == r.sawDigest && r'.expected == r.expected)
    decreases entries
  {
    if entries == [] {
      assert r.hashed + "" == r.hashed;
    } else {
      var e, rest := entries[0], entries[1..];
      assert entries == [e] + rest;
      ReadEntryHashed(dest, r, e);
      var mid := ReadEntry(dest, r, e, true).r;
      hide ReadEntry;
      ReadAllHashed(dest, mid, rest);
      PayloadKept(e, rest);
      hide Payload, Kept, Chunk;
      if e.name != DIGEST_NAME {
        Associative(r.hashed, Chunk(e), Payload(Kept(rest)));
      } else {
        assert "" + Payload(Kept(rest)) == Payload(Kept(rest));
      }
      DigestLater(e, rest, ReadAll(dest, mid, rest).r.expected);
    }
  }

  lemma DigestLater(e: Entry, rest: seq<Entry>, digest: Bytes)
    ensures LastDigest(rest, digest) ==> LastDigest([e] + rest, digest)
    ensures (forall i :: 0 <= i < |rest| ==> rest[i].name != DIGEST_NAME) && e.name == DIGEST_NAME ==>
              LastDigest([e] + rest, e.data)
  {
    var all := [e] + rest;
    if LastDigest(rest, digest) {
      var i :| 0 <= i < |rest| && rest[i].name == DIGEST_NAME && rest[i].data == digest
               && forall j :: i < j < |rest| ==> rest[j].name != DIGEST_NAME;
      assert all[i + 1] == rest[i];
      assert forall j :: i + 1 < j < |all| ==> all[j] == rest[j - 1];
    }
    assert all[0] == e;
  }

  /** What every acceptance means, whoever wrote the stream. */
  lemma AcceptedMeans(sha1: Bytes -> Bytes, dest: string, nodes: Nodes, stream: TarStream)
    requires Extract(sha1, dest, nodes, stream).result.Accepted?
    ensures stream.tail == End
    ensures ReadAll(dest, Start(nodes), stream.entries).Next?
    ensures LastDigest(stream.entries, sha1(Payload(Kept(stream.entries))))
  {
    var all := ReadAll(dest, Start(nodes), stream.entries);
    if all.Next? {
      ReadAllHashed(dest, Start(nodes), stream.entries);
      assert "" + Payload(Kept(stream.entries)) == Payload(Kept(stream.entries));
      if stream.tail.Partial? { PartialStops(dest, all.r, stream.tail.head); }
    }
  }

  lemma PartialStops(dest: string, r: Reader, e: Entry)
    ensures ReadEntry(dest, r, e, false).Stop?
  {
    hide Target, PlaceFile, MkdirAll;
  }

  /** A stream without a digest entry is rejected, so every truncation before it is. */
  lemma MissingDigestRejected(sha1: Bytes -> Bytes, dest: string, nodes: Nodes, stream: TarStream)
    requires forall i :: 0 <= i < |stream.entries| ==> stream.entries[i].name != DIGEST_NAME
    ensures Extract(sha1, dest, nodes, stream).result.Rejected?
  {
    if Extract(sha1, dest, nodes, stream).result.Accepted? {
      AcceptedMeans(sha1, dest, nodes, stream);
      assert false;
    }
  }

  ghost predicate HasDigest(entries: seq<Entry>) {
    exists i :: 0 <= i < |entries| && entries[i].name == DIGEST_NAME
  }

  /** The sizes of the regular files that are extracted, added up. */
  function FileBytes(entries: seq<Entry>): nat {
    if entries == [] then 0
    else (if entries[0].kind.Reg? && entries[0].name != DIGEST_NAME then |entries[0].data| else 0) + FileBytes(entries[1..])
  }

  lemma {:induction false} ReadAllWritten(dest: string, r: Reader, entries: seq<Entry>)
    requires ReadAll(dest, r, entries).Next?
    ensures ReadAll(dest, r, entries).r.written == r.written + FileBytes(entries)
    decreases entries
  {
    if entries != [] {
      var mid := ReadEntry(dest, r, entries[0], true);
      assert mid.Next? ==> mid.r.written == r.written + FileBytes([entries[0]]) by {
        assert [entries[0]][1..] == [];
        hide Target, PlaceFile, MkdirAll, Chunk;
      }
      hide ReadEntry;
      ReadAllWritten(dest, mid.r, entries[1..]);
      assert [entries[0]][1..] == [];
    }
  }

  lemma LastDigestUnique(entries: seq<Entry>, a: Bytes, b: Bytes)
    requires LastDigest(entries, a) && LastDigest(entries, b)
    ensures a == b
  {
  }

  /**
   Which verdict a stream that was read to its end gets: accepted if the last digest entry is the hash of what was
   extracted, otherwise refused as lacking a digest or as corrupt; a stream not read to its end gets neither.
   */
  lemma VerdictMeans(sha1: Bytes -> Bytes, dest: string, nodes: Nodes, stream: TarStream)
    ensures var x, entries := Extract(sha1, dest, nodes, stream).result, stream.entries;
            var digest := sha1(Payload(Kept(entries)));
            var done := ReadAll(dest, Start(nodes), entries).Next? && stream.tail == End;
            && (x.Accepted? <==> done && LastDigest(entries, digest))
            && (x.Accepted? ==> x.digest == digest && x.written == FileBytes(entries))
            && (x.Rejected? && x.err == NoDigest <==> done && !HasDigest(entries))
            && (x.Rejected? && x.err == Mismatch <==> done && HasDigest(entries) && !LastDigest(entries, digest))
            && (x.Rejected? && x.err == BadStream ==> ReadAll(dest, Start(nodes), entries).Next? && stream.tail != End)
            && (ReadAll(dest, Start(nodes), entries).Next? && stream.tail == Broken ==> x.Rejected? && x.err == BadStream)
  {
    var entries := stream.entries;
    var read := ReadAll(dest, Start(nodes), entries);
    if read.Next? {
      ReadAllHashed(dest, Start(nodes), entries);
      ReadAllWritten(dest, Start(nodes), entries);
      assert "" + Payload(Kept(entries)) == Payload(Kept(entries));
      assert HasDigest(entries) <==> read.r.sawDigest;
      hide LastDigest, HasDigest, Payload, Kept, FileBytes, ReadAll;
      if stream.tail.Partial? { PartialFault(dest, read.r, stream.tail.head); }
      hide ReadEntry;
      if LastDigest(entries, read.r.expected) && LastDigest(entries, sha1(read.r.hashed)) {
        LastDigestUnique(entries, read.r.expected, sha1(read.r.hashed));
      }
    } else {
      ReadStops(dest, Start(nodes), entries);
    }
  }

  lemma PartialFault(dest: string, r: Reader, e: Entry)
    ensures var s := ReadEntry(dest, r, e, false); s.Stop? && s.err != NoDigest && s.err != Mismatch
  {
    hide Target, PlaceFile, MkdirAll;
  }

  /** Reading stops at the first entry that lands outside, is of no supported kind or cannot be created, and says so. */
  lemma {:induction false} ReadStops(dest: string, r: Reader, entries: seq<Entry>)
    requires ReadAll(dest, r, entries).Stop?
    ensures exists i :: 0 <= i < |entries| && StopsAt(dest, r, entries, i, ReadAll(dest, r, entries).err)
    decreases entries
  {
    hide Target, PlaceFile, MkdirAll, Chunk;
    var first := ReadEntry(dest, r, entries[0], true);
    if first.Stop? {
      assert entries[..0] == [];
      assert StopsAt(dest, r, entries, 0, first.err);
    } else {
      hide ReadEntry;
      ReadStops(dest, first.r, entries[1..]);
      var i :| 0 <= i < |entries[1..]| && StopsAt(dest, first.r, entries[1..], i, ReadAll(dest, r, entries).err);
      assert entries[..i + 1][0] == entries[0] && entries[..i + 1][1..] == entries[1..][..i];
      assert StopsAt(dest, r, entries, i + 1, ReadAll(dest, r, entries).err);
    }
  }

  ghost predicate StopsAt(dest: string, r: Reader, entries: seq<Entry>, i: nat, err: Error)
    requires i < |entries|
  {
    var e := entries[i];
    && ReadAll(dest, r, entries[..i]).Next? && e.name != DIGEST_NAME
    && (err == Escape <==> Target(dest, e.name).None?)
    && (err == Unsupported <==> Target(dest, e.name).Some? && e.kind.Other?)
    && (err == DiskFault <==> Target(dest, e.name).Some? && !e.kind.Other?)
  }

  /** No stream with an entry that lands outside, or of another kind than a file or a folder, is accepted. */
  lemma {:induction false} ReadFits(dest: string, r: Reader, entries: seq<Entry>, i: nat)
    requires ReadAll(dest, r, entries).Next? && i < |entries| && entries[i].name != DIGEST_NAME
    ensures Target(dest, entries[i].name).Some? && !entries[i].kind.Other?
    decreases entries
  {
    hide Target, PlaceFile, MkdirAll, Chunk;
    if i > 0 {
      var first := ReadEntry(dest, r, entries[0], true);
      hide ReadEntry;
      ReadFits(dest, first.r, entries[1..], i - 1);
    }
  }

  // ----- the payload determines names and contents once the sizes are fixed --------------------

  /** Entries of one kind and size; what is hashed of them may differ, but no name holds a NUL. */
  predicate Alike(a: Entry, b: Entry) {
    && a.kind == b.kind && |a.data| == |b.data|
    && if a.kind.Reg? then NulFree(a.name) && NulFree(b.name) else a.name == b.name
  }

  ghost predicate SameShape(a: seq<Entry>, b: seq<Entry>) {
    |a| == |b| && forall i :: 0 <= i < |a| ==> Alike(a[i], b[i])
  }

  lemma AlignedHalves(a: Bytes, b: Bytes, c: Bytes, d: Bytes)
    requires a + b == c + d && |a| == |c|
    ensures a == c && b == d
  {
    assert a == (a + b)[..|a|] && c == (c + d)[..|c|];
    assert b == (a + b)[|a|..] && d == (c + d)[|c|..];
  }

  /** The first NUL ends the name. */
  lemma NameEnds(n: string, u: Bytes, m: string, v: Bytes)
    requires NulFree(n) && NulFree(m) && n + "\0" + u == m + "\0" + v
    ensures n == m && u == v
  {
    var s := n + "\0" + u;
    assert s[|n|] == '\0' && s[|m|] == '\0';
    assert forall i :: 0 <= i < |n| ==> s[i] == n[i] && n[i] in n;
    assert forall i :: 0 <= i < |m| ==> s[i] == m[i] && m[i] in m;
    assert |n| == |m|;
    AlignedHalves(n + "\0", u, m + "\0", v);
    assert n == (n + "\0")[..|n|] && m == (m + "\0")[..|m|];
  }

  lemma ChunkParts(e: Entry, x: Bytes)
    requires e.kind.Reg?
    ensures Chunk(e) + x == e.name + "\0" + (e.data + x)
  {
  }

  lemma ChunksAlign(a: Entry, x: Bytes, b: Entry, y: Bytes)
    requires a.kind.Reg? && Alike(a, b) && Chunk(a) + x == Chunk(b) + y
    ensures a == b && x == y
  {
    ChunkParts(a, x);
    ChunkParts(b, y);
    hide Chunk;
    NameEnds(a.name, a.data + x, b.name, b.data + y);
    AlignedHalves(a.data, x, b.data, y);
  }

  /** With sizes and kinds fixed, equal payloads mean equal names and contents. */
  lemma {:induction false} PayloadInjective(a: seq<Entry>, b: seq<Entry>)
    requires SameShape(a, b) && Payload(a) == Payload(b)
    ensures forall i :: 0 <= i < |a| ==> a[i].name == b[i].name && (a[i].kind.Reg? ==> a[i] == b[i])
  {
    if a != [] {
      assert Alike(a[0], b[0]);
      assert SameShape(a[1..], b[1..]) by {
        forall i | 0 <= i < |a[1..]| ensures Alike(a[1..][i], b[1..][i]) {
          assert Alike(a[i + 1], b[i + 1]);
        }
      }
      HeadsAlign(a[0], Payload(a[1..]), b[0], Payload(b[1..]));
      PayloadInjective(a[1..], b[1..]);
      forall i | 0 <= i < |a| ensures a[i].name == b[i].name && (a[i].kind.Reg? ==> a[i] == b[i]) {
        if i > 0 { assert a[1..][i - 1] == a[i] && b[1..][i - 1] == b[i]; }
      }
    }
  }

  lemma HeadsAlign(a: Entry, x: Bytes, b: Entry, y: Bytes)
    requires Alike(a, b) && Chunk(a) + x == Chunk(b) + y
    ensures x == y && a.name == b.name && (a.kind.Reg? ==> a == b)
  {
    if a.kind.Reg? {
      ChunksAlign(a, x, b, y);
    } else {
      assert Chunk(a) + x == x && Chunk(b) + y == y;
    }
  }

  /** With sizes free, they do not: two layouts with different files hash alike. */
  lemma LayoutNotCovered(sha1: Bytes -> Bytes)
    ensures var one, two := [Entry("a", Reg, "xb\0y")], [Entry("a", Reg, "x"), Entry("b", Reg, "y")];
            sha1(Payload(one)) == sha1(Payload(two)) && one != two
  {
    var one, two := [Entry("a", Reg, "xb\0y")], [Entry("a", Reg, "x"), Entry("b", Reg, "y")];
    assert one[1..] == [] && two[1..] == [Entry("b", Reg, "y")] && two[1..][1..] == [];
    assert Payload(one) == "a\0xb\0y";
    assert Payload(two[1..]) == "b\0y";
    assert Payload(two) == "a\0x" + "b\0y" == "a\0xb\0y";
  }

  // ----- what the writer's own entries look like -----------------------------------------------

  /** No walked entry but a reserved top-level file is named like the digest entry. */
  ghost predicate WriterNames(entries: seq<Entry>, reserved: bool) {
    forall i :: 0 <= i < |entries| ==>
      && entries[i].kind != Other && NulFree(entries[i].name)
      && (entries[i].kind.Folder? ==> entries[i].data == "")
      && (entries[i].name == DIGEST_NAME ==> reserved)
  }

  lemma WriterNamesConcat(a: seq<Entry>, b: seq<Entry>, reserved: bool)
    requires WriterNames(a, reserved) && WriterNames(b, reserved)
    ensures WriterNames(a + b, reserved)
  {
  }

  lemma JoinNulFree(prefix: Path, name: string)
    requires NulFree(Join(prefix)) && NulFree(name)
    ensures NulFree(Join(prefix + [name]))
  {
    if prefix == [] {
      assert prefix + [name] == [name];
    } else {
      JoinConcat(prefix, [name]);
      assert Join([name]) == name;
    }
  }

  lemma {:induction false} WalkNames(prefix: Path, kids: seq<Kid>)
    requires AllPlain(prefix) && NulFree(Join(prefix)) && Listing(kids)
    ensures WriterNames(Walk(prefix, kids), prefix == [] && HasReservedFile(kids))
    decreases kids
  {
    if kids != [] {
      var reserved := prefix == [] && HasReservedFile(kids);
      var p := prefix + [kids[0].name];
      ListingTail(kids);
      NotReservedTail(kids);
      DigestNameOnlyOnTop(p);
      JoinNulFree(prefix, kids[0].name);
      WalkNames(prefix, kids[1..]);
      assert WriterNames(Walk(prefix, kids[1..]), reserved);
      match kids[0].node {
        case Special =>
        case File(d) =>
          assert p == [DIGEST_NAME] ==> reserved;
          WriterNamesConcat([Entry(Join(p), Reg, d)], Walk(prefix, kids[1..]), reserved);
        case Dir(ks) =>
          WalkNames(p, ks);
          var head := [Entry(Join(p) + "/", Folder, "")];
          WriterNamesConcat(head, Walk(p, ks), reserved);
          WriterNamesConcat(head + Walk(p, ks), if Archivable(ks) then Walk(prefix, kids[1..]) else [], reserved);
          WalkFolder(prefix, kids);
      }
    }
  }

  lemma {:induction false} KeptAll(entries: seq<Entry>)
    requires forall i :: 0 <= i < |entries| ==> entries[i].name != DIGEST_NAME
    ensures Kept(entries) == entries
  {
    if entries != [] {
      KeptAll(entries[1..]);
      assert [entries[0]] + entries[1..] == entries;
    }
  }

  lemma {:induction false} KeptConcat(a: seq<Entry>, b: seq<Entry>)
    ensures Kept(a + b) == Kept(a) + Kept(b)
  {
    if a == [] {
      assert a + b == b;
    } else {
      assert (a + b)[1..] == a[1..] + b;
      KeptConcat(a[1..], b);
    }
  }

  /** A reserved file at the top of a listing is an entry of its walk named like the digest entry. */
  lemma {:induction false} ReservedInWalk(kids: seq<Kid>)
    requires HasReservedFile(kids) && Archivable(kids)
    ensures var walk := Walk([], kids);
            exists i :: 0 <= i < |walk| && walk[i].name == DIGEST_NAME && walk[i].kind.Reg?
  {
    WalkSplit([], kids);
    if kids[0].name == DIGEST_NAME && kids[0].node.File? {
      WalkFile([], kids);
      assert Join([] + [DIGEST_NAME]) == DIGEST_NAME;
      assert Walk([], kids)[0].name == DIGEST_NAME;
    } else {
      var k :| 0 <= k < |kids| && kids[k].name == DIGEST_NAME && kids[k].node.File?;
      assert kids[1..][k - 1] == kids[k];
      ReservedInWalk(kids[1..]);
      var walk := Walk([], kids[1..]);
      var i :| 0 <= i < |walk| && walk[i].name == DIGEST_NAME && walk[i].kind.Reg?;
      assert Walk([], kids)[i + |Walk([], kids[..1])|] == Walk([], kids[1..])[i];
    }
  }

  // ----- integrity of acceptance ---------------------------------------------------------------

  /**
   The stream has the sizes and the digest entry of `sent`, and its folders; names and contents of files
   may be damaged, save that no file took the reserved name.
   */
  ghost predicate SameFrame(got: seq<Entry>, sent: seq<Entry>) {
    && sent != [] && SameShape(got, sent) && got[|got| - 1] == sent[|sent| - 1]
    && forall i :: 0 <= i < |got| - 1 && got[i].name == DIGEST_NAME ==> sent[i].name == DIGEST_NAME
  }

  /** What is hashed of kept entries begins with a name other than the reserved one. */
  lemma {:induction false} KeptHead(entries: seq<Entry>, rest: Bytes)
    requires forall i :: 0 <= i < |entries| && entries[i].kind.Reg? ==> NulFree(entries[i].name)
    ensures Payload(Kept(entries)) != DIGEST_NAME + "\0" + rest
  {
    if entries == [] {
      assert |DIGEST_NAME + "\0" + rest| > 0;
    } else {
      var e, more := entries[0], Payload(Kept(entries[1..]));
      assert entries == [e] + entries[1..];
      PayloadKept(e, entries[1..]);
      assert !e.kind.Reg? ==> Chunk(e) == "";
      assert "" + more == more;
      KeptHead(entries[1..], rest);
      hide Payload, Kept;
      if e.name != DIGEST_NAME && e.kind.Reg? {
        ChunkParts(e, more);
        hide Chunk;
        assert NulFree(e.name) && NulFree(DIGEST_NAME);
        NamesTell(e.name, e.data + more, DIGEST_NAME, rest);
      }
    }
  }

  lemma NamesTell(n: string, u: Bytes, m: string, v: Bytes)
    requires NulFree(n) && NulFree(m) && n != m
    ensures n + "\0" + u != m + "\0" + v
  {
    if n + "\0" + u == m + "\0" + v { NameEnds(n, u, m, v); }
  }

  /** What the reader hashed is what the writer hashed only if every file is as it was sent. */
  lemma {:induction false} KeptPayloadInjective(a: seq<Entry>, b: seq<Entry>)
    requires SameShape(a, b) && Payload(Kept(a)) == Payload(b)
    requires forall i :: 0 <= i < |a| && a[i].name == DIGEST_NAME ==> b[i].name == DIGEST_NAME
    ensures forall i :: 0 <= i < |a| ==> a[i].name == b[i].name && (a[i].kind.Reg? ==> a[i] == b[i])
    ensures forall i :: 0 <= i < |a| && a[i].kind.Reg? ==> a[i].name != DIGEST_NAME
  {
    if a != [] {
      var e, x, y := a[0], Payload(Kept(a[1..])), Payload(b[1..]);
      assert Alike(e, b[0]);
      assert a == [e] + a[1..];
      PayloadKept(e, a[1..]);
      assert SameShape(a[1..], b[1..]) by {
        forall i | 0 <= i < |a[1..]| ensures Alike(a[1..][i], b[1..][i]) {
          assert Alike(a[i + 1], b[i + 1]);
        }
      }
      if e.kind.Reg? && e.name == DIGEST_NAME {
        ReservedEntryShows(a[1..], b[0], y);
      } else {
        assert !e.kind.Reg? ==> Chunk(e) == "";
        HeadsAlign(e, x, b[0], y);
        KeptPayloadInjective(a[1..], b[1..]);
        forall i | 0 <= i < |a|
          ensures a[i].name == b[i].name && (a[i].kind.Reg? ==> a[i] == b[i] && a[i].name != DIGEST_NAME)
        {
          if i > 0 { assert a[1..][i - 1] == a[i] && b[1..][i - 1] == b[i]; }
        }
      }
    }
  }

  /** A file of the reserved name is hashed by the writer and cannot be made up for by what follows. */
  lemma ReservedEntryShows(rest: seq<Entry>, sent: Entry, later: Bytes)
    requires forall i :: 0 <= i < |rest| && rest[i].kind.Reg? ==> NulFree(rest[i].name)
    requires sent.kind.Reg? && sent.name == DIGEST_NAME
    ensures "" + Payload(Kept(rest)) != Chunk(sent) + later
  {
    hide Payload, Kept, Chunk;
    KeptHead(rest, sent.data + later);
    ChunkParts(sent, later);
    assert "" + Payload(Kept(rest)) == Payload(Kept(rest));
  }

  /** Were a file's name altered to the reserved one, other files could hide it. */
  lemma ReservedNameNotCovered(sha1: Bytes -> Bytes)
    ensures var sent := [Entry("a", Reg, ""), Entry("b", Reg, "cc"), Entry("d", Reg, "")];
            var got := [Entry(DIGEST_NAME, Reg, ""), Entry("a", Reg, "b\0"), Entry("ccd", Reg, "")];
            SameShape(got, sent) && sha1(Payload(Kept(got))) == sha1(Payload(sent)) && got != sent
  {
    var x, y, z := Entry("a", Reg, ""), Entry("b", Reg, "cc"), Entry("d", Reg, "");
    var p, q, r := Entry(DIGEST_NAME, Reg, ""), Entry("a", Reg, "b\0"), Entry("ccd", Reg, "");
    TwoSplits();
    assert SameShape([p, q, r], [x, y, z]);
    KeptAfterReserved(p, [q, r]);
    assert [p] + [q, r] == [p, q, r];
    hide Kept;
    ThreePayload(x, y, z);
    TwoPayload(q, r);
    hide Payload, Chunk;
  }

  lemma TwoSplits()
    ensures Chunk(Entry("a", Reg, "b\0")) + Chunk(Entry("ccd", Reg, ""))
         == Chunk(Entry("a", Reg, "")) + Chunk(Entry("b", Reg, "cc")) + Chunk(Entry("d", Reg, ""))
  {
    assert Chunk(Entry("a", Reg, "b\0")) + Chunk(Entry("ccd", Reg, "")) == "a\0b\0ccd\0";
    assert Chunk(Entry("a", Reg, "")) + Chunk(Entry("b", Reg, "cc")) + Chunk(Entry("d", Reg, "")) == "a\0b\0ccd\0";
  }

  lemma TwoPayload(x: Entry, y: Entry)
    ensures Payload([x, y]) == Chunk(x) + Chunk(y)
  {
    assert [x, y][1..] == [y] && [y][1..] == [];
    assert Payload([y]) == Chunk(y) + "" == Chunk(y);
  }

  lemma KeptAfterReserved(e: Entry, rest: seq<Entry>)
    requires e.name == DIGEST_NAME && forall i :: 0 <= i < |rest| ==> rest[i].name != DIGEST_NAME
    ensures Kept([e] + rest) == rest
  {
    assert ([e] + rest)[0] == e && ([e] + rest)[1..] == rest;
    KeptAll(rest);
  }

  lemma ThreePayload(x: Entry, y: Entry, z: Entry)
    ensures Payload([x, y, z]) == Chunk(x) + Chunk(y) + Chunk(z)
  {
    assert [x, y, z][1..] == [y, z];
    TwoPayload(y, z);
    Associative(Chunk(x), Chunk(y), Chunk(z));
  }

  lemma LastIsTheDigest(entries: seq<Entry>, d: Bytes, digest: Bytes)
    requires entries != [] && entries[|entries| - 1] == DigestEntry(d) && LastDigest(entries, digest)
    ensures digest == d
  {
  }

  lemma KeptBeforeDigest(body: seq<Entry>, d: Bytes)
    ensures Kept(body + [DigestEntry(d)]) == Kept(body)
  {
    KeptConcat(body, [DigestEntry(d)]);
    assert [DigestEntry(d)][1..] == [];
    assert Kept(body) + [] == Kept(body);
  }

  /** The reader of a damaged stream hashed what the writer hashed. */
  lemma AcceptedPayload(sha1: Bytes -> Bytes, dest: string, nodes: Nodes, body: seq<Entry>, sum: Bytes, tail: Tail)
    requires CollisionFree(sha1)
    requires Extract(sha1, dest, nodes, TarStream(body + [DigestEntry(sha1(sum))], tail)).result.Accepted?
    ensures Payload(Kept(body)) == sum && tail == End
  {
    var entries := body + [DigestEntry(sha1(sum))];
    AcceptedMeans(sha1, dest, nodes, TarStream(entries, tail));
    KeptBeforeDigest(body, sha1(sum));
    hide Extract, ReadAll, Kept, Payload;
    LastIsTheDigest(entries, sha1(sum), sha1(Payload(Kept(body))));
  }

  /** In the writer's frame and with the writer's payload, the entries are the writer's. */
  lemma SamePayloadSameWalk(kids: seq<Kid>, body: seq<Entry>)
    requires Listing(kids) && Archivable(kids) && SameShape(body, Walk([], kids))
    requires forall i :: 0 <= i < |body| && body[i].name == DIGEST_NAME ==> Walk([], kids)[i].name == DIGEST_NAME
    requires Payload(Kept(body)) == Payload(Walk([], kids))
    ensures body == Walk([], kids) && !HasReservedFile(kids)
  {
    var walk := Walk([], kids);
    WalkNames([], kids);
    if HasReservedFile(kids) { ReservedInWalk(kids); }
    hide Walk, Listing, Archivable, Payload, Kept, HasReservedFile;
    KeptPayloadInjective(body, walk);
    forall i | 0 <= i < |body| ensures body[i] == walk[i] {
      assert Alike(body[i], walk[i]);
    }
  }

  lemma FrameBody(got: seq<Entry>, walk: seq<Entry>, d: Entry)
    requires SameFrame(got, walk + [d])
    ensures var body := got[..|got| - 1];
            && got == body + [d] && SameShape(body, walk)
            && forall i :: 0 <= i < |body| && body[i].name == DIGEST_NAME ==> walk[i].name == DIGEST_NAME
  {
    assert (walk + [d])[|walk|] == d;
    forall i | 0 <= i < |walk| ensures (walk + [d])[i] == walk[i] && Alike(got[i], walk[i]) {
      assert Alike(got[i], (walk + [d])[i]);
    }
  }

  /**
   If the reader accepts a stream whose sizes, folders and digest entry are those the writer sent, then
   file names and contents are those sent too; and no such stream is accepted when the tree holds a
   top-level file named like the digest entry.
   */
  lemma AcceptedIsIntact(sha1: Bytes -> Bytes, dest: string, nodes: Nodes, kids: seq<Kid>, got: TarStream)
    requires CollisionFree(sha1) && Listing(kids) && Archivable(kids)
    requires SameFrame(got.entries, Stream(sha1, kids).entries)
    requires Extract(sha1, dest, nodes, got).result.Accepted?
    ensures got == Stream(sha1, kids) && !HasReservedFile(kids)
  {
    var walk, body := Walk([], kids), got.entries[..|got.entries| - 1];
    var sum := Payload(walk);
    assert Stream(sha1, kids) == TarStream(walk + [DigestEntry(sha1(sum))], End);
    FrameBody(got.entries, walk, DigestEntry(sha1(sum)));
    hide Extract, Walk, Listing, Archivable, Payload, Kept, HasReservedFile, CollisionFree, DigestEntry, SameFrame, Stream;
    AcceptedPayload(sha1, dest, nodes, body, sum, got.tail);
    SamePayloadSameWalk(kids, body);
  }

  lemma OwnFrame(sha1: Bytes -> Bytes, kids: seq<Kid>)
    requires Listing(kids) && Archivable(kids)
    ensures SameFrame(Stream(sha1, kids).entries, Stream(sha1, kids).entries)
  {
    WalkNames([], kids);
    var walk, d := Walk([], kids), DigestEntry(sha1(Payload(Walk([], kids))));
    hide Walk, Listing, Payload;
    forall i | 0 <= i < |walk + [d]| ensures Alike((walk + [d])[i], (walk + [d])[i]) {
    }
  }

  /** Exactly which trees survive the round trip: those without the reserved top-level file. */
  lemma RoundTripIff(sha1: Bytes -> Bytes, dest: string, nodes: Nodes, kids: seq<Kid>)
    requires CleanPath(dest).comps != [] && EmptyDir(CleanPath(dest).comps, nodes)
    requires CollisionFree(sha1) && Listing(kids)
    ensures Extract(sha1, dest, nodes, Stream(sha1, kids)).result.Accepted? <==>
            Archivable(kids) && !HasReservedFile(kids)
  {
    assert !Archivable(kids) ==> Stream(sha1, kids).tail == Broken;
    hide Extract, Stream, CleanPath, EmptyDir, CollisionFree, Listing, Archivable, HasReservedFile, SameFrame, Flat;
    if Extract(sha1, dest, nodes, Stream(sha1, kids)).result.Accepted? {
      AcceptedMeans(sha1, dest, nodes, Stream(sha1, kids));
      OwnFrame(sha1, kids);
      AcceptedIsIntact(sha1, dest, nodes, kids, Stream(sha1, kids));
    } else if Archivable(kids) && !HasReservedFile(kids) {
      RoundTripRebuilds(sha1, dest, nodes, kids);
    }
  }

  // ----- what the digest does not cover --------------------------------------------------------

  lemma {:induction false} WalkConcat(prefix: Path, a: seq<Kid>, b: seq<Kid>)
    requires Archivable(a)
    ensures Walk(prefix, a + b) == Walk(prefix, a) + Walk(prefix, b)
    decreases a
  {
    if a == [] {
      assert a + b == b;
    } else {
      var p, rest := prefix + [a[0].name], a[1..];
      assert (a + b)[0] == a[0] && (a + b)[1..] == rest + b;
      WalkConcat(prefix, rest, b);
      match a[0].node {
        case File(d) =>
          WalkFile(prefix, a);
          WalkFile(prefix, a + b);
          Associative([Entry(Join(p), Reg, d)], Walk(prefix, rest), Walk(prefix, b));
        case Dir(ks) =>
          Associative([Entry(Join(p) + "/", Folder, "")] + Walk(p, ks), Walk(prefix, rest), Walk(prefix, b));
      }
    }
  }

  lemma {:induction false} ArchivableConcat(a: seq<Kid>, b: seq<Kid>)
    ensures Archivable(a + b) <==> Archivable(a) && Archivable(b)
    decreases a
  {
    if a == [] {
      assert a + b == b;
    } else {
      assert (a + b)[0] == a[0] && (a + b)[1..] == a[1..] + b;
      ArchivableConcat(a[1..], b);
    }
  }

  /** An empty folder among these children, by the entry it becomes. */
  lemma WalkAroundFolder(before: seq<Kid>, name: string, after: seq<Kid>)
    requires Archivable(before) && Archivable(after)
    ensures var all := before + [Kid(name, Dir([]))] + after;
            && Archivable(all)
            && Walk([], all) == Walk([], before) + [Entry(name + "/", Folder, "")] + Walk([], after)
            && Payload(Walk([], all)) == Payload(Walk([], before)) + Payload(Walk([], after))
  {
    var folder, one := Kid(name, Dir([])), [Entry(name + "/", Folder, "")];
    assert [folder][1..] == [] && [] + [name] == [name] && Join([name]) == name;
    assert Walk([], [folder]) == one + [] + [] == one;
    assert Archivable([folder]);
    ArchivableConcat(before, [folder]);
    ArchivableConcat(before + [folder], after);
    WalkConcat([], before, [folder]);
    WalkConcat([], before + [folder], after);
    assert one[1..] == [] && Payload(one) == "" + "" == "";
    hide Walk, Archivable, Payload;
    PayloadConcat(Walk([], before), one);
    PayloadConcat(Walk([], before) + one, Walk([], after));
    assert Payload(Walk([], before)) + "" == Payload(Walk([], before));
  }

  /**
   Folders are not hashed: with the entry of an empty folder dropped in transit, or another in its place,
   a stream is just what the writer would have sent of the other tree, and is accepted as that.
   */
  lemma FoldersNotCovered(sha1: Bytes -> Bytes, before: seq<Kid>, name: string, other: string, after: seq<Kid>)
    requires Archivable(before) && Archivable(after)
    ensures var sent := Stream(sha1, before + [Kid(name, Dir([]))] + after);
            var a, b, d := Walk([], before), Walk([], after), sent.entries[|sent.entries| - 1];
            && sent == TarStream(a + [Entry(name + "/", Folder, "")] + b + [d], End)
            && TarStream(a + b + [d], End) == Stream(sha1, before + after)
            && TarStream(a + [Entry(other + "/", Folder, "")] + b + [d], End)
               == Stream(sha1, before + [Kid(other, Dir([]))] + after)
  {
    WalkAroundFolder(before, name, after);
    WalkAroundFolder(before, other, after);
    WalkConcat([], before, after);
    ArchivableConcat(before, after);
    PayloadConcat(Walk([], before), Walk([], after));
    hide Walk, Archivable, Payload;
  }
}
