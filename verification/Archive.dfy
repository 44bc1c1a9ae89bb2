/**
 The verified archive: StreamDir prints a directory tree as a sequence of tar entries closed by a
 digest entry, ExtractDir parses such a sequence back onto a disk. Gzip and tar framing are taken
 as faithful; SHA-1 (in hex) is a parameter `sha1`. A Go string is a sequence of bytes, so names
 and contents share the type Bytes.
 */
module Archive {
  import opened Wrappers
  import opened Paths

  type Bytes = string

  const DIGEST_NAME: string := ".vlbackup-sha1"

  /** What a directory walk meets: `Special` stands for symlinks, devices and the like. */
  datatype Tree = File(data: Bytes) | Dir(kids: seq<Kid>) | Special
  datatype Kid = Kid(name: string, node: Tree)

  datatype Kind = Reg | Folder | Other
  datatype Entry = Entry(name: string, kind: Kind, data: Bytes)

  /** How a stream ends: cleanly, broken between entries, or broken inside the contents of one. */
  datatype Tail = End | Broken | Partial(head: Entry)
  datatype TarStream = TarStream(entries: seq<Entry>, tail: Tail)

  datatype Node = FileNode(data: Bytes) | DirNode
  type Nodes = map<Path, Node>

  // ----- trees ---------------------------------------------------------------------------------

  /** Go's string order. */
  predicate Less(a: string, b: string) {
    b != "" && (a == "" || a[0] < b[0] || (a[0] == b[0] && Less(a[1..], b[1..])))
  }

  predicate NulFree(s: string) { '\0' !in s }

  /**
   A directory listing as the walk reads it: legal names in ascending order, at every level. No file
   system holds a name with a slash or a NUL in it.
   */
  ghost predicate Listing(kids: seq<Kid>) {
    && (forall i, j :: 0 <= i < j < |kids| ==> Less(kids[i].name, kids[j].name))
    && (forall i :: 0 <= i < |kids| ==> Plain(kids[i].name) && NulFree(kids[i].name))
    && (forall i :: 0 <= i < |kids| && kids[i].node.Dir? ==> Listing(kids[i].node.kids))
  }

  /** Only regular files and directories, all the way down. */
  predicate Archivable(kids: seq<Kid>) {
    if kids == [] then true
    else
      match kids[0].node
      case File(_) => Archivable(kids[1..])
      case Dir(ks) => Archivable(ks) && Archivable(kids[1..])
      case Special => false
  }

  /** The regular file that the reader would mistake for the digest entry. */
  predicate HasReservedFile(kids: seq<Kid>) {
    exists i :: 0 <= i < |kids| && kids[i].name == DIGEST_NAME && kids[i].node.File?
  }

  /** The tree as the paths below `base` that a file system would hold for it. */
  function Flat(base: Path, kids: seq<Kid>): Nodes
    decreases kids
  {
    if kids == [] then map[]
    else
      var p := base + [kids[0].name];
      (match kids[0].node
       case File(d) => map[p := FileNode(d)]
       case Dir(ks) => map[p := DirNode] + Flat(p, ks)
       case Special => map[]) + Flat(base, kids[1..])
  }

  /** The sum of all file sizes. */
  function Size(kids: seq<Kid>): nat {
    if kids == [] then 0
    else (match kids[0].node
          case File(d) => |d|
          case Dir(ks) => Size(ks)
          case Special => 0) + Size(kids[1..])
  }

  // ----- writer --------------------------------------------------------------------------------

  /** The entries of a walk in archive order, up to the first special file if there is one. */
  function Walk(prefix: Path, kids: seq<Kid>): seq<Entry>
    decreases kids
  {
    if kids == [] then []
    else
      var p := prefix + [kids[0].name];
      match kids[0].node
      case File(d) => [Entry(Join(p), Reg, d)] + Walk(prefix, kids[1..])
      case Dir(ks) =>
        [Entry(Join(p) + "/", Folder, "")] + Walk(p, ks) + if Archivable(ks) then Walk(prefix, kids[1..]) else []
      case Special => []
  }

  /** The bytes hashed for a sequence of entries: name, NUL, contents of each regular file. */
  function Payload(entries: seq<Entry>): Bytes {
    if entries == [] then "" else Chunk(entries[0]) + Payload(entries[1..])
  }

  function Chunk(e: Entry): Bytes {
    if e.kind.Reg? then e.name + "\0" + e.data else ""
  }

  function DigestEntry(digest: Bytes): Entry { Entry(DIGEST_NAME, Reg, digest) }

  /** The whole stream: the walk and its digest, or a broken stream when the walk fails. */
  function Stream(sha1: Bytes -> Bytes, kids: seq<Kid>): TarStream {
    var walk := Walk([], kids);
    if Archivable(kids) then TarStream(walk + [DigestEntry(sha1(Payload(walk)))], End)
    else TarStream(walk, Broken)
  }

  /** hashEntry: a file's name and a NUL, ahead of its contents. */
  function HashEntry(h: Bytes, name: string): Bytes { h + name + "\0" }

  lemma HashedChunk(h: Bytes, e: Entry)
    requires e.kind.Reg?
    ensures HashEntry(h, e.name) + e.data == h + Chunk(e)
  {
  }

  lemma PayloadCons(e: Entry, rest: seq<Entry>)
    ensures Payload([e] + rest) == Chunk(e) + Payload(rest)
  {
    assert ([e] + rest)[1..] == rest;
  }

  lemma Associative<T>(a: seq<T>, b: seq<T>, c: seq<T>)
    ensures (a + b) + c == a + (b + c)
  {
  }

  lemma {:induction false} PayloadConcat(a: seq<Entry>, b: seq<Entry>)
    ensures Payload(a + b) == Payload(a) + Payload(b)
  {
    if a == [] {
      assert a + b == b;
      assert Payload(a) + Payload(b) == Payload(b);
    } else {
      assert a == [a[0]] + a[1..] && a + b == [a[0]] + (a[1..] + b);
      PayloadCons(a[0], a[1..]);
      PayloadCons(a[0], a[1..] + b);
      PayloadConcat(a[1..], b);
      Associative(Chunk(a[0]), Payload(a[1..]), Payload(b));
    }
  }

  /** How the walk and its payload continue after a regular file. */
  lemma WalkFile(prefix: Path, kids: seq<Kid>)
    requires kids != [] && kids[0].node.File?
    ensures var e, rest := Entry(Join(prefix + [kids[0].name]), Reg, kids[0].node.data), Walk(prefix, kids[1..]);
            Walk(prefix, kids) == [e] + rest && Payload(Walk(prefix, kids)) == Chunk(e) + Payload(rest)
  {
    PayloadCons(Entry(Join(prefix + [kids[0].name]), Reg, kids[0].node.data), Walk(prefix, kids[1..]));
  }

  /** How the walk and its payload continue after a directory. */
  lemma WalkFolder(prefix: Path, kids: seq<Kid>)
    requires kids != [] && kids[0].node.Dir?
    ensures var p, ks := prefix + [kids[0].name], kids[0].node.kids;
            var head, rest := [Entry(Join(p) + "/", Folder, "")], if Archivable(ks) then Walk(prefix, kids[1..]) else [];
            && Walk(prefix, kids) == head + Walk(p, ks) + rest
            && Payload(Walk(prefix, kids)) == Payload(Walk(p, ks)) + Payload(rest)
  {
    var p, ks := prefix + [kids[0].name], kids[0].node.kids;
    var head, rest := Entry(Join(p) + "/", Folder, ""), if Archivable(ks) then Walk(prefix, kids[1..]) else [];
    PayloadConcat([head] + Walk(p, ks), rest);
    PayloadCons(head, Walk(p, ks));
    assert Chunk(head) + Payload(Walk(p, ks)) == Payload(Walk(p, ks));
  }

  /** The tar writer and the running hash that one walk feeds. */
  class TarWriter {
    var entries: seq<Entry>
    var hashed: Bytes

    constructor ()
      ensures entries == [] && hashed == ""
    {
      entries, hashed := [], "";
    }

    method WalkDir(prefix: Path, kids: seq<Kid>) returns (ok: bool)
      modifies this
      ensures ok == Archivable(kids)
      ensures entries == old(entries) + Walk(prefix, kids)
      ensures hashed == old(hashed) + Payload(Walk(prefix, kids))
      decreases kids
    {
      if kids == [] { return true; }
      ghost var e0, h0, later := entries, hashed, Walk(prefix, kids[1..]);
      var p := prefix + [kids[0].name];
      match kids[0].node {
        case Special =>
          return false;
        case Dir(ks) =>
          entries := entries + [Entry(Join(p) + "/", Folder, "")];
          ok := WalkDir(p, ks);
          ghost var here := [Entry(Join(p) + "/", Folder, "")] + Walk(p, ks);
          Associative(e0, [Entry(Join(p) + "/", Folder, "")], Walk(p, ks));
          WalkFolder(prefix, kids);
          if !ok {
            assert here + [] == here && Payload(Walk(p, ks)) + "" == Payload(Walk(p, ks));
            return;
          }
          ok := WalkDir(prefix, kids[1..]);
          Associative(e0, here, later);
          Associative(h0, Payload(Walk(p, ks)), Payload(later));
        case File(d) =>
          ghost var e := Entry(Join(p), Reg, d);
          entries := entries + [Entry(Join(p), Reg, d)];
          hashed := HashEntry(hashed, Join(p));
          hashed := hashed + d;
          HashedChunk(h0, e);
          ok := WalkDir(prefix, kids[1..]);
          WalkFile(prefix, kids);
          Associative(e0, [e], later);
          Associative(h0, Chunk(e), Payload(later));
      }
    }
  }

  method StreamDir(sha1: Bytes -> Bytes, kids: seq<Kid>) returns (stream: TarStream, digest: Bytes)
    ensures stream == Stream(sha1, kids)
    ensures Archivable(kids) ==> stream.entries[|stream.entries| - 1] == Entry(".vlbackup-sha1", Reg, digest)
  {
    var tw := new TarWriter();
    var ok := tw.WalkDir([], kids);
    assert [] + Walk([], kids) == Walk([], kids);
    assert "" + Payload(Walk([], kids)) == Payload(Walk([], kids));
    if !ok {
      return TarStream(tw.entries, Broken), "";
    }
    digest := sha1(tw.hashed);
    tw.entries := tw.entries + [DigestEntry(digest)];
    stream := TarStream(tw.entries, End);
  }

  // ----- reader --------------------------------------------------------------------------------

  datatype Error = BadStream | Escape | Unsupported | DiskFault | NoDigest | Mismatch

  /** What the reader has built so far. */
  datatype Reader = Reader(nodes: Nodes, hashed: Bytes, written: nat, expected: Bytes, sawDigest: bool)

  datatype Step = Next(r: Reader) | Stop(r: Reader, err: Error)

  datatype Result = Accepted(written: nat, digest: Bytes) | Rejected(written: nat, err: Error)
  datatype Extraction = Extraction(nodes: Nodes, result: Result)

  /** The first containment check, on the cleaned name of an entry. */
  predicate Escapes(name: string) {
    IsAbs(name) || name == ".." || "../" <= name
  }

  /** The second containment check, on the joined target. */
  predicate OutOf(cleanDest: string, target: string) {
    target != cleanDest && !(cleanDest + "/" <= target)
  }

  /** Where an entry lands, or None if either check rejects it. */
  function Target(dest: string, entryName: string): (t: Option<Path>) {
    var cleanDest := Render(CleanPath(dest));
    var name := Render(CleanPath(entryName));
    if Escapes(name) then None
    else
      var target := JoinClean(cleanDest, name);
      if OutOf(cleanDest, Render(target)) then None else Some(target.comps)
  }

  /** os.MkdirAll: None when some component is a file. */
  function MkdirAll(nodes: Nodes, p: Path): Option<Nodes>
    decreases |p|
  {
    if p == [] then Some(nodes)
    else if p in nodes then if nodes[p].DirNode? then Some(nodes) else None
    else
      match MkdirAll(nodes, p[..|p| - 1])
      case None => None
      case Some(m) => Some(m[p := DirNode])
  }

  /** os.OpenFile with O_CREATE and O_TRUNC, then a write: None when the path is a directory. */
  function WriteFile(nodes: Nodes, p: Path, data: Bytes): Option<Nodes> {
    if p == [] || (p in nodes && nodes[p].DirNode?) then None else Some(nodes[p := FileNode(data)])
  }

  /** Creating one regular file at its target: the disk afterwards, and whether it worked. */
  function PlaceFile(nodes: Nodes, target: Path, data: Bytes): (Nodes, bool) {
    match MkdirAll(nodes, Parent(target))
    case None => (nodes, false)
    case Some(m) =>
      match WriteFile(m, target, data)
      case None => (m, false)
      case Some(m') => (m', true)
  }

  /** filepath.Dir of an absolute path. */
  function Parent(p: Path): Path { if p == [] then [] else p[..|p| - 1] }

  /** One turn of the read loop; `whole` is false when the stream breaks inside the contents. */
  function ReadEntry(dest: string, r: Reader, e: Entry, whole: bool): Step {
    if e.name == DIGEST_NAME then
      if whole then Next(r.(expected := e.data, sawDigest := true)) else Stop(r, BadStream)
    else
      match Target(dest, e.name)
      case None => Stop(r, Escape)
      case Some(target) =>
        match e.kind
        case Other => Stop(r, Unsupported)
        case Folder =>
          (match MkdirAll(r.nodes, target)
           case None => Stop(r, DiskFault)
           case Some(m) => if whole then Next(r.(nodes := m)) else Stop(r.(nodes := m), BadStream))
        case Reg =>
          var (m, ok) := PlaceFile(r.nodes, target, e.data);
          if !ok then Stop(r.(nodes := m), DiskFault)
          else
            var r' := r.(nodes := m, hashed := r.hashed + Chunk(e), written := r.written + |e.data|);
            if whole then Next(r') else Stop(r', BadStream)
  }

  function ReadAll(dest: string, r: Reader, entries: seq<Entry>): Step
    decreases entries
  {
    if entries == [] then Next(r)
    else
      match ReadEntry(dest, r, entries[0], true)
      case Stop(r', err) => Stop(r', err)
      case Next(r') => ReadAll(dest, r', entries[1..])
  }

  function ReadTail(dest: string, s: Step, tail: Tail): Step {
    match s
    case Stop(_, _) => s
    case Next(r) =>
      match tail
      case End => s
      case Broken => Stop(r, BadStream)
      case Partial(head) => ReadEntry(dest, r, head, false)
  }

  function Verdict(sha1: Bytes -> Bytes, s: Step): Result {
    match s
    case Stop(r, err) => Rejected(r.written, err)
    case Next(r) =>
      if !r.sawDigest then Rejected(r.written, NoDigest)
      else if sha1(r.hashed) != r.expected then Rejected(r.written, Mismatch)
      else Accepted(r.written, sha1(r.hashed))
  }

  function Start(nodes: Nodes): Reader { Reader(nodes, "", 0, "", false) }

  /** ExtractDir as a function: what it leaves on the disk and what it answers. */
  function Extract(sha1: Bytes -> Bytes, dest: string, nodes: Nodes, stream: TarStream): Extraction {
    var s := ReadTail(dest, ReadAll(dest, Start(nodes), stream.entries), stream.tail);
    Extraction(s.r.nodes, Verdict(sha1, s))
  }

  lemma {:induction false} ReadAllConcat(dest: string, r: Reader, a: seq<Entry>, b: seq<Entry>)
    ensures ReadAll(dest, r, a + b) ==
            match ReadAll(dest, r, a) { case Stop(r', err) => Stop(r', err) case Next(r') => ReadAll(dest, r', b) }
    decreases a
  {
    if a == [] {
      assert a + b == b;
    } else {
      assert (a + b)[1..] == a[1..] + b;
      var first := ReadEntry(dest, r, a[0], true);
      if first.Next? { ReadAllConcat(dest, first.r, a[1..], b); }
    }
  }

  /** The directory tree the reader writes to. */
  class Disk {
    var nodes: Nodes

    constructor (nodes: Nodes)
      ensures this.nodes == nodes
    {
      this.nodes := nodes;
    }

    method Mkdirs(p: Path) returns (ok: bool)
      modifies this
      ensures ok == MkdirAll(old(nodes), p).Some?
      ensures nodes == if ok then MkdirAll(old(nodes), p).value else old(nodes)
      decreases |p|
    {
      if p == [] { return true; }
      if p in nodes { return nodes[p].DirNode?; }
      ok := Mkdirs(p[..|p| - 1]);
      if ok { nodes := nodes[p := DirNode]; }
    }

    method Write(p: Path, data: Bytes) returns (ok: bool)
      modifies this
      ensures ok == WriteFile(old(nodes), p, data).Some?
      ensures nodes == if ok then WriteFile(old(nodes), p, data).value else old(nodes)
    {
      ok := p != [] && !(p in nodes && nodes[p].DirNode?);
      if ok { nodes := nodes[p := FileNode(data)]; }
    }
  }

  /** The reader's running state, over the disk it extracts to. */
  class TarReader {
    const disk: Disk
    var hashed: Bytes
    var written: nat
    var expected: Bytes
    var sawDigest: bool

    constructor (disk: Disk)
      ensures this.disk == disk && View() == Start(disk.nodes)
    {
      this.disk := disk;
      hashed, written, expected, sawDigest := "", 0, "", false;
    }

    function View(): Reader
      reads this, disk
    {
      Reader(disk.nodes, hashed, written, expected, sawDigest)
    }

    /** The body of the read loop for one header; an error ends the extraction. */
    method Read(dest: string, hdr: Entry, whole: bool) returns (err: Option<Error>)
      modifies this, disk
      ensures ReadEntry(dest, old(View()), hdr, whole) ==
              match err { case None => Next(View()) case Some(e) => Stop(View(), e) }
    {
      if hdr.name == DIGEST_NAME {
        if !whole { return Some(BadStream); }
        expected, sawDigest := hdr.data, true;
        return None;
      }
      var target := Target(dest, hdr.name);
      if target.None? { return Some(Escape); }
      match hdr.kind {
        case Folder =>
          var ok := disk.Mkdirs(target.value);
          if !ok { return Some(DiskFault); }
        case Reg =>
          var ok := disk.Mkdirs(Parent(target.value));
          if !ok { return Some(DiskFault); }
          ok := disk.Write(target.value, hdr.data);
          if !ok { return Some(DiskFault); }
          HashedChunk(hashed, hdr);
          hashed := HashEntry(hashed, hdr.name);
          hashed := hashed + hdr.data;
          written := written + |hdr.data|;
        case Other =>
          return Some(Unsupported);
      }
      return if whole then None else Some(BadStream);
    }
  }

  method ExtractDir(sha1: Bytes -> Bytes, stream: TarStream, disk: Disk, dest: string) returns (result: Result)
    modifies disk
    ensures Extraction(disk.nodes, result) == Extract(sha1, dest, old(disk.nodes), stream)
  {
    var tr := new TarReader(disk);
    var i := 0;
    while true
      invariant 0 <= i <= |stream.entries| && tr.disk == disk
      invariant ReadAll(dest, Start(old(disk.nodes)), stream.entries) == ReadAll(dest, tr.View(), stream.entries[i..])
      decreases |stream.entries| - i
    {
      if i == |stream.entries| {
        if stream.tail.End? { break; }
        if stream.tail.Broken? { return Rejected(tr.written, BadStream); }
        var err := tr.Read(dest, stream.tail.head, false);
        return Rejected(tr.written, err.value);
      }
      assert stream.entries[i..][1..] == stream.entries[i + 1..];
      var err := tr.Read(dest, stream.entries[i], true);
      if err.Some? { return Rejected(tr.written, err.value); }
      i := i + 1;
    }
    if !tr.sawDigest { return Rejected(tr.written, NoDigest); }
    var got := sha1(tr.hashed);
    if got != tr.expected { return Rejected(tr.written, Mismatch); }
    return Accepted(tr.written, got);
  }
}
