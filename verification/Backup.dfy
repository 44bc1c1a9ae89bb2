/**
 Backups to an object store: which key a day's archive goes to, the loop that writes them, and that a
 restore from the same place rebuilds the day.
 */
module Backup {
  import opened Wrappers
  import opened Paths
  import opened Archive
  import opened Delivery
  import opened Calendar
  import opened Range
  import opened World
  import opened Preservation
  import opened Receive

  // ----- the name in a snapshot path -----------------------------------------------------------

  const PARTITIONS: string := "partitions"

  /** What follows the first segment "partitions" that anything follows. */
  function FirstAfter(segments: Path): Option<string> {
    if |segments| < 2 then None
    else if segments[0] == PARTITIONS then Some(segments[1])
    else FirstAfter(segments[1..])
  }

  function StripSlashes(p: string): string {
    if p != "" && p[|p| - 1] == '/' then StripSlashes(p[..|p| - 1]) else p
  }

  /** filepath.Base. */
  function Base(p: string): string {
    var q := StripSlashes(p);
    if p == "" then "."
    else if q == "" then "/"
    else Split(q)[|Split(q)| - 1]
  }

  function PartitionOf(p: string): string {
    match FirstAfter(Split(p))
    case Some(name) => name
    case None => Base(p)
  }

  method PartitionFromSnapshotPath(p: string) returns (name: string)
    ensures name == PartitionOf(p)
  {
    var segments := Split(p);
    var i := 0;
    while i < |segments|
      invariant i <= |segments| && FirstAfter(segments) == FirstAfter(segments[i..])
    {
      if segments[i] == PARTITIONS && i + 1 < |segments| { return segments[i + 1]; }
      assert segments[i..][1..] == segments[i + 1..];
      i := i + 1;
    }
    return Base(p);
  }

  /** Where VictoriaLogs keeps a snapshot. */
  function SnapshotPath(data: string, day: Day, id: string): string {
    data + "/" + PARTITIONS + "/" + day + "/" + ("snapshots/" + id)
  }

  lemma SnapshotSegments(data: string, day: Day, id: string)
    requires NoSlash(day)
    ensures Split(SnapshotPath(data, day, id)) == Split(data) + ([PARTITIONS, day] + Split("snapshots/" + id))
  {
    hide Split;
    var tail := "snapshots/" + id;
    assert SnapshotPath(data, day, id) == data + "/" + PARTITIONS + "/" + day + "/" + tail;
    SplitConcat(data + "/" + PARTITIONS + "/" + day, tail);
    SplitConcat(data + "/" + PARTITIONS, day);
    SplitConcat(data, PARTITIONS);
    SplitPlain(PARTITIONS);
    SplitPlain(day);
    FourParts(Split(data), PARTITIONS, day, Split(tail));
  }

  lemma FourParts(a: Path, b: string, c: string, d: Path)
    ensures a + [b] + [c] + d == a + ([b, c] + d)
  {
  }

  lemma {:induction false} FirstAfterConcat(a: Path, rest: Path)
    requires |rest| >= 2 && rest[0] == PARTITIONS
    ensures PARTITIONS !in a ==> FirstAfter(a + rest) == Some(rest[1])
    ensures PARTITIONS in a ==> FirstAfter(a + rest) == FirstAfter(a + [PARTITIONS])
    ensures PARTITIONS in a ==> FirstAfter(a + rest).Some?
  {
    if a == [] {
      assert a + rest == rest;
    } else {
      assert (a + rest)[1..] == a[1..] + rest && (a + [PARTITIONS])[1..] == a[1..] + [PARTITIONS];
      FirstAfterConcat(a[1..], rest);
    }
  }

  /**
   A snapshot path names its day if the data path has no segment "partitions" of its own; if it has,
   the name found is the same for every day.
   */
  lemma LayoutNamesDay(data: string, day: Day, id: string)
    requires NoSlash(day)
    ensures PARTITIONS !in Split(data) ==> PartitionOf(SnapshotPath(data, day, id)) == day
    ensures PARTITIONS in Split(data) ==>
        Some(PartitionOf(SnapshotPath(data, day, id))) == FirstAfter(Split(data) + [PARTITIONS])
  {
    SnapshotSegments(data, day, id);
    FirstAfterConcat(Split(data), [PARTITIONS, day] + Split("snapshots/" + id));
    hide Split, FirstAfter, SnapshotPath;
  }

  lemma {:induction false} NoneAfter(segments: Path)
    requires PARTITIONS !in segments
    ensures FirstAfter(segments) == None
  {
    if |segments| >= 2 { NoneAfter(segments[1..]); }
  }

  lemma {:induction false} StripAll(p: string, slashes: string)
    requires forall i :: 0 <= i < |slashes| ==> slashes[i] == '/'
    ensures StripSlashes(p + slashes) == StripSlashes(p)
    decreases slashes
  {
    if slashes == "" {
      assert p + slashes == p;
    } else {
      var rest := slashes[..|slashes| - 1];
      assert (p + slashes)[..|p + slashes| - 1] == p + rest;
      StripAll(p, rest);
    }
  }

  /** A path of another layout is named by its last segment, slashes at its end aside. */
  lemma OtherLayoutNamesLast(dir: string, name: string, slashes: string)
    requires name != "" && NoSlash(name) && forall i :: 0 <= i < |slashes| ==> slashes[i] == '/'
    requires PARTITIONS !in Split(dir + "/" + name + slashes)
    ensures PartitionOf(dir + "/" + name + slashes) == name
  {
    var p := dir + "/" + name;
    NoneAfter(Split(p + slashes));
    StripAll(p, slashes);
    assert p[|p| - 1] == name[|name| - 1] != '/';
    assert StripSlashes(p) == p;
    SplitConcat(dir, name);
    SplitPlain(name);
    hide Split, FirstAfter;
  }

  // ----- object keys ---------------------------------------------------------------------------

  /** path.Join(keyPrefix, partition + ".tar.gz"): an empty prefix is left out. */
  function KeyOf(prefix: string, partition: string): string {
    var name := partition + ".tar.gz";
    if prefix == "" then Render(CleanPath(name)) else Render(JoinClean(prefix, name))
  }

  lemma ArchiveNamePlain(partition: string)
    requires NoSlash(partition)
    ensures Plain(partition + ".tar.gz")
  {
    assert |partition + ".tar.gz"| > 2;
  }

  lemma JoinOne(c: string)
    ensures Join([c]) == c
  {
  }

  /** The components of a key but for its last. */
  function KeyDir(prefix: string): Path { if prefix == "" then [] else CleanPath(prefix).comps }

  /** A key is its prefix, cleaned, and then the archive's name. */
  lemma KeyShape(prefix: string, partition: string)
    requires NoSlash(partition)
    ensures KeyOf(prefix, partition) == Render(Clean(IsAbs(prefix), KeyDir(prefix) + [partition + ".tar.gz"]))
    ensures forall i :: 0 <= i < |KeyDir(prefix)| ==> NoSlash(KeyDir(prefix)[i])
  {
    hide Split, PushAll, Join;
    var name := partition + ".tar.gz";
    ArchiveNamePlain(partition);
    SplitPlain(name);
    var up := KeyDir(prefix);
    CleanTidy(prefix);
    if prefix == "" {
      CleanOfPlain([name]);
      JoinOne(name);
      assert up + [name] == [name];
    } else {
      SplitConcat(prefix, name);
      PushAllConcat(IsAbs(prefix), [], Split(prefix), [name]);
      PushAllPlain(IsAbs(prefix), up, [name]);
      assert IsAbs(prefix + "/" + name) == IsAbs(prefix);
    }
  }

  lemma RenderInjective(rooted: bool, a: Path, b: Path)
    requires a != [] && b != [] && Render(Clean(rooted, a)) == Render(Clean(rooted, b))
    requires forall i :: 0 <= i < |a| ==> NoSlash(a[i])
    requires forall i :: 0 <= i < |b| ==> NoSlash(b[i])
    ensures a == b
  {
    SplitJoin(a);
    SplitJoin(b);
    assert rooted ==> Join(a) == Render(Clean(rooted, a))[1..] && Join(b) == Render(Clean(rooted, b))[1..];
  }

  lemma ArchiveNameInjective(a: string, b: string)
    requires a + ".tar.gz" == b + ".tar.gz"
    ensures a == b
  {
    var x, y := a + ".tar.gz", b + ".tar.gz";
    assert x[..|x| - 7] == a && y[..|y| - 7] == b;
  }

  /** Whatever the prefix, distinct partitions have distinct keys. */
  lemma KeyInjective(prefix: string, a: string, b: string)
    requires NoSlash(a) && NoSlash(b) && KeyOf(prefix, a) == KeyOf(prefix, b)
    ensures a == b
  {
    hide KeyOf, KeyDir, Render, Join, NoSlash;
    var x, y, up := a + ".tar.gz", b + ".tar.gz", KeyDir(prefix);
    ArchiveNamePlain(a);
    ArchiveNamePlain(b);
    KeyShape(prefix, a);
    KeyShape(prefix, b);
    RenderInjective(IsAbs(prefix), up + [x], up + [y]);
    LastSame(up, x, y);
    ArchiveNameInjective(a, b);
  }

  lemma LastSame(up: Path, x: string, y: string)
    requires up + [x] == up + [y]
    ensures x == y
  {
    assert (up + [x])[|up|] == x;
  }

  /** Snapshots of distinct days go to distinct keys exactly when the data path has no segment "partitions". */
  lemma DistinctKeysIff(prefix: string, data: string, a: Day, idA: string, b: Day, idB: string)
    requires NoSlash(a) && NoSlash(b) && a != b
    ensures var x, y := PartitionOf(SnapshotPath(data, a, idA)), PartitionOf(SnapshotPath(data, b, idB));
            KeyOf(prefix, x) != KeyOf(prefix, y) <==> PARTITIONS !in Split(data)
  {
    LayoutNamesDay(data, a, idA);
    LayoutNamesDay(data, b, idB);
    hide Split, SnapshotPath, KeyOf, PartitionOf, FirstAfter;
    if PARTITIONS !in Split(data) && KeyOf(prefix, a) == KeyOf(prefix, b) { KeyInjective(prefix, a, b); }
  }

  // ----- the backup ----------------------------------------------------------------------------

  type Objects = map<string, TarStream>

  /** How an upload ends; one that fails may leave part of the object behind. */
  datatype Uploaded = Stored | Lost(left: Option<TarStream>)

  /** The VictoriaLogs side: its answers, and the directory behind each snapshot path. */
  datatype Source = Source(
    create: Day -> Option<seq<string>>,
    tree: string -> seq<Kid>,
    upload: string -> Uploaded,
    delete: string -> bool)

  /** Opening the repository of a URL, and the clients. */
  datatype Opened = Repo(prefix: string) | Unsupported | NotOpened

  /** One day's snapshots: uploaded and deleted one after the other. */
  function BackUpPaths(sha1: Bytes -> Bytes, src: Source, prefix: string, paths: seq<string>,
          objects: Objects): (Objects, bool)
    decreases paths
  {
    if paths == [] then (objects, true)
    else
      var key, stream, up := KeyOf(prefix, PartitionOf(paths[0])), Stream(sha1, src.tree(paths[0])), src.upload(paths[0]);
      if stream.tail != End || up.Lost? then
        (if up.Lost? && up.left.Some? then objects[key := up.left.value] else objects, false)
      else if !src.delete(paths[0]) then (objects[key := stream], false)
      else BackUpPaths(sha1, src, prefix, paths[1..], objects[key := stream])
  }

  function BackUpDays(sha1: Bytes -> Bytes, src: Source, prefix: string, days: seq<Day>,
          objects: Objects): (Objects, bool)
    decreases days
  {
    if days == [] then (objects, true)
    else
      match src.create(days[0])
      case None => (objects, false)
      case Some(paths) =>
        var (after, ok) := BackUpPaths(sha1, src, prefix, paths, objects);
        if ok then BackUpDays(sha1, src, prefix, days[1..], after) else (after, false)
  }

  /** TriggerSnapshot as a function: the objects afterwards and the status answered. */
  function Trigger(sha1: Bytes -> Bytes, src: Source, repo: Opened, from: Bound, to: Bound, now: Instant,
          objects: Objects): (Objects, int) {
    match ParseTimeRange(from, to, now)
    case Window(f, t) =>
      (match SealedDays(f, t, now)
       case InvalidRange => (objects, 400)
       case Days(days) =>
         match repo
         case Unsupported => (objects, 400)
         case NotOpened => (objects, 500)
         case Repo(prefix) =>
           var (after, ok) := BackUpDays(sha1, src, prefix, days, objects);
           (after, if ok then 202 else 500))
    case _ => (objects, 400)
  }

  class Vault {
    var objects: Objects

    method Upload(key: string, stream: TarStream, up: Uploaded) returns (ok: bool)
      modifies this
      ensures ok == (stream.tail == End && up.Stored?)
      ensures objects == if ok then old(objects)[key := stream]
                         else if up.Lost? && up.left.Some? then old(objects)[key := up.left.value]
                         else old(objects)
    {
      ok := stream.tail == End && up.Stored?;
      if ok {
        objects := objects[key := stream];
      } else if up.Lost? && up.left.Some? {
        objects := objects[key := up.left.value];
      }
    }

    method TriggerSnapshot(sha1: Bytes -> Bytes, src: Source, repo: Opened, from: Bound, to: Bound, now: Instant)
      returns (status: int)
      modifies this
      ensures (objects, status) == Trigger(sha1, src, repo, from, to, now, old(objects))
    {
      hide SealedDays, ParseTimeRange, KeyOf, PartitionOf, Stream;
      var window := ParseTimeRange(from, to, now);
      if !window.Window? { return 400; }
      var range := DaysInRange(window.from, window.to, now);
      if range.InvalidRange? { return 400; }
      if repo.Unsupported? { return 400; }
      if repo.NotOpened? { return 500; }
      var prefix, days := repo.prefix, range.names;
      ghost var start := objects;
      for i := 0 to |days|
        invariant BackUpDays(sha1, src, prefix, days, start) == BackUpDays(sha1, src, prefix, days[i..], objects)
      {
        assert days[i..][0] == days[i] && days[i..][1..] == days[i + 1..];
        var created := src.create(days[i]);
        if created == None { return 500; }
        var paths := created.value;
        ghost var before := objects;
        for j := 0 to |paths|
          invariant BackUpPaths(sha1, src, prefix, paths, before) == BackUpPaths(sha1, src, prefix, paths[j..], objects)
        {
          assert paths[j..][0] == paths[j] && paths[j..][1..] == paths[j + 1..];
          var partition := PartitionFromSnapshotPath(paths[j]);
          var uploaded := Upload(KeyOf(prefix, partition), Stream(sha1, src.tree(paths[j])), src.upload(paths[j]));
          if !uploaded { return 500; }
          if !src.delete(paths[j]) { return 500; }
        }
      }
      return 202;
    }
  }

  // ----- the restore ---------------------------------------------------------------------------

  datatype Trouble = NoTrouble | Download | MakeDirs | Rename | AttachIt

  datatype Node = Node(dirs: map<Day, Nodes>, attached: set<Day>)

  /** RestoreSnapshot with nobody else at work: the node afterwards, the status and the bytes written. */
  function Restored(cfg: Config, node: Node, repo: Opened, objects: Objects, day: Day, tmp: nat,
          trouble: Trouble): (Node, int, nat) {
    if !PartitionName(day) then (node, 400, 0)
    else if day in node.dirs then (node, 409, 0)
    else
      match repo
      case Unsupported => (node, 400, 0)
      case NotOpened => (node, 500, 0)
      case Repo(prefix) =>
        if trouble == Download then (node, 500, 0)
        else if KeyOf(prefix, day) !in objects then (node, 404, 0)
        else if trouble == MakeDirs then (node, 500, 0)
        else
          var x := Unpack(cfg.sha1, TmpDir(cfg, day, tmp), objects[KeyOf(prefix, day)]);
          if x.result.Rejected? || trouble == Rename then (node, 500, 0)
          else
            var there := node.(dirs := node.dirs[day := x.nodes]);
            if trouble == AttachIt then (there, 500, 0)
            else (there.(attached := there.attached + {day}), 202, x.result.written)
  }

  class LocalNode {
    const cfg: Config
    var dirs: map<Day, Nodes>
    var attached: set<Day>

    function View(): Node
      reads this
    {
      Node(dirs, attached)
    }

    method RestoreSnapshot(repo: Opened, objects: Objects, day: Day, tmp: nat, trouble: Trouble)
      returns (status: int, written: nat)
      modifies this
      ensures (View(), status, written) == Restored(cfg, old(View()), repo, objects, day, tmp, trouble)
    {
      if !PartitionName(day) { return 400, 0; }
      if day in dirs { return 409, 0; }
      if repo.Unsupported? { return 400, 0; }
      if repo.NotOpened? { return 500, 0; }
      var key := KeyOf(repo.prefix, day);
      if trouble == Download { return 500, 0; }
      if key !in objects { return 404, 0; }
      if trouble == MakeDirs { return 500, 0; }
      var x := Unpack(cfg.sha1, TmpDir(cfg, day, tmp), objects[key]);
      if x.result.Rejected? { return 500, 0; }
      if trouble == Rename { return 500, 0; }
      dirs := dirs[day := x.nodes];
      if trouble == AttachIt { return 500, 0; }
      attached := attached + {day};
      return 202, x.result.written;
    }
  }

  /** Every step of this day's backup succeeds. */
  ghost predicate DaySucceeds(src: Source, day: Day) {
    && src.create(day).Some?
    && forall i :: 0 <= i < |src.create(day).value| ==> PathSucceeds(src, src.create(day).value[i])
  }

  predicate PathSucceeds(src: Source, path: string) {
    Archivable(src.tree(path)) && src.upload(path).Stored? && src.delete(path)
  }

  lemma {:induction false} PathsSucceedIff(sha1: Bytes -> Bytes, src: Source, prefix: string, paths: seq<string>,
          objects: Objects)
    ensures BackUpPaths(sha1, src, prefix, paths, objects).1 <==>
            forall i :: 0 <= i < |paths| ==> PathSucceeds(src, paths[i])
    decreases paths
  {
    hide KeyOf, PartitionOf, Archivable, Walk, Payload;
    if paths != [] {
      var key := KeyOf(prefix, PartitionOf(paths[0]));
      PathsSucceedIff(sha1, src, prefix, paths[1..], objects[key := Stream(sha1, src.tree(paths[0]))]);
      assert forall i :: 1 <= i < |paths| ==> paths[i] == paths[1..][i - 1];
    }
  }

  lemma {:induction false} DaysSucceedIff(sha1: Bytes -> Bytes, src: Source, prefix: string, days: seq<Day>,
          objects: Objects)
    ensures BackUpDays(sha1, src, prefix, days, objects).1 <==>
            forall i :: 0 <= i < |days| ==> DaySucceeds(src, days[i])
    decreases days
  {
    hide BackUpPaths, PathSucceeds;
    if days != [] && src.create(days[0]).Some? {
      var paths := src.create(days[0]).value;
      PathsSucceedIff(sha1, src, prefix, paths, objects);
      DaysSucceedIff(sha1, src, prefix, days[1..], BackUpPaths(sha1, src, prefix, paths, objects).0);
      assert forall i :: 1 <= i < |days| ==> days[i] == days[1..][i - 1];
    }
  }

  /** Each day that is wanted succeeds. */
  ghost predicate AllSucceed(src: Source, f: Instant, to: Bound, now: Instant)
    requires to != Given(None)
  {
    forall day {:trigger Name(Civil(day))} :: Wanted(f, to, now, day) ==> DaySucceeds(src, Name(Civil(day)))
  }

  lemma AllListedSucceed(src: Source, from: Bound, to: Bound, now: Instant)
    requires !Refused(from, to, now)
    ensures var w := ParseTimeRange(from, to, now);
            && w.Window? && SealedDays(w.from, w.to, now).Days?
            && var names := SealedDays(w.from, w.to, now).names;
               AllSucceed(src, from.value.value, to, now) <==> forall i :: 0 <= i < |names| ==> DaySucceeds(src, names[i])
  {
    ListedAreWanted(from, to, now);
    hide SealedDays, ParseTimeRange, DaySucceeds, Wanted, Name, Civil, DayOf;
    var w := ParseTimeRange(from, to, now);
    var names := SealedDays(w.from, w.to, now).names;
    if AllSucceed(src, from.value.value, to, now) {
      forall i | 0 <= i < |names| ensures DaySucceeds(src, names[i]) {
        assert names[i] == Name(Civil(DayOf(from.value.value) + i));
        assert names[i] in names;
      }
    }
  }

  /**
   A backup answers 400 exactly when its window or the scheme of its store is refused, 202 exactly when they are
   not, the store opens and every step succeeds for every day wanted, and 500 otherwise.
   */
  lemma AcceptedIff(sha1: Bytes -> Bytes, src: Source, repo: Opened, from: Bound, to: Bound, now: Instant,
          objects: Objects)
    ensures var status := Trigger(sha1, src, repo, from, to, now, objects).1;
            && status in {202, 400, 500}
            && (status == 400 <==> Refused(from, to, now) || repo.Unsupported?)
            && (status == 202 <==>
                  !Refused(from, to, now) && repo.Repo? && AllSucceed(src, from.value.value, to, now))
  {
    ListedAreWanted(from, to, now);
    hide SealedDays, ParseTimeRange, BackUpDays, DaySucceeds, AllSucceed, Wanted, DayOf, Name, Civil;
    var w := ParseTimeRange(from, to, now);
    if !Refused(from, to, now) && repo.Repo? {
      AllListedSucceed(src, from, to, now);
      DaysSucceedIff(sha1, src, repo.prefix, SealedDays(w.from, w.to, now).names, objects);
    }
  }

  lemma {:induction false} StoredThenDeleted(sha1: Bytes -> Bytes, src: Source, prefix: string, paths: seq<string>,
          objects: Objects, k: nat)
    requires k < |paths| && forall i :: 0 <= i < k ==> PathSucceeds(src, paths[i])
    requires Archivable(src.tree(paths[k])) && src.upload(paths[k]).Stored? && !src.delete(paths[k])
    ensures var (after, ok) := BackUpPaths(sha1, src, prefix, paths, objects);
            var key := KeyOf(prefix, PartitionOf(paths[k]));
            !ok && key in after && after[key] == Stream(sha1, src.tree(paths[k]))
    decreases paths
  {
    hide KeyOf, PartitionOf, Archivable, Walk, Payload;
    if k > 0 {
      assert PathSucceeds(src, paths[0]);
      var key := KeyOf(prefix, PartitionOf(paths[0]));
      forall i | 0 <= i < k - 1 ensures PathSucceeds(src, paths[1..][i]) {
        assert PathSucceeds(src, paths[i + 1]);
      }
      StoredThenDeleted(sha1, src, prefix, paths[1..], objects[key := Stream(sha1, src.tree(paths[0]))], k - 1);
    }
  }

  /**
   A restore never touches a directory that is there, adds none but a verified extraction of the archive
   under the day's key, and answers 202 exactly when it added and attached it. Of what goes wrong, a bad name and
   a store of an unknown scheme are answered 400, a directory that is there 409, a missing archive 404, and the
   rest 500.
   */
  lemma RestoreIsCareful(cfg: Config, node: Node, repo: Opened, objects: Objects, day: Day, tmp: nat, trouble: Trouble)
    ensures var (node', status, written) := Restored(cfg, node, repo, objects, day, tmp, trouble);
            && (forall d :: d in node.dirs ==> d in node'.dirs && node'.dirs[d] == node.dirs[d])
            && (forall d :: d in node'.dirs && d !in node.dirs ==>
                  && d == day && repo.Repo? && KeyOf(repo.prefix, day) in objects
                  && var x := Unpack(cfg.sha1, TmpDir(cfg, day, tmp), objects[KeyOf(repo.prefix, day)]);
                     x.result.Accepted? && node'.dirs[d] == x.nodes)
            && (status == 202 <==> day !in node.dirs && day in node'.dirs && trouble != AttachIt)
            && node'.attached == (if status == 202 then node.attached + {day} else node.attached)
            && status in {202, 400, 404, 409, 500}
            && (status == 409 <==> PartitionName(day) && day in node.dirs)
            && (status == 400 <==> !PartitionName(day) || (day !in node.dirs && repo.Unsupported?))
            && (status == 404 <==> && PartitionName(day) && day !in node.dirs && repo.Repo? && trouble != Download
                                   && KeyOf(repo.prefix, day) !in objects)
            && (status == 202 ==>
                  var x := Unpack(cfg.sha1, TmpDir(cfg, day, tmp), objects[KeyOf(repo.prefix, day)]);
                  x.result.Accepted? && written == x.result.written)
  {
    hide Unpack, TmpDir, KeyOf, PartitionName;
  }

  /** Which step of the handler each trouble is. */
  function LuckOf(t: Trouble): Luck {
    Luck(true, t != Download && t != MakeDirs, true, t != Rename, t != AttachIt)
  }

  /**
   The restore of an archive that is under its key is what the restore handler of the two nodes does,
   step by step, when nobody interrupts it.
   */
  lemma RestoreIsHandler(cfg: Config, w: World, id: MsgId, prefix: string, objects: Objects, day: Day, t: Trouble)
    requires PartitionName(day) && KeyOf(prefix, day) in objects
    requires id in w.handlers && w.handlers[id] == Handler(day, true, objects[KeyOf(prefix, day)], Begin)
    ensures var end := Settle(cfg, w, Turns(id, LuckOf(t)));
            var (node, status, written) := Restored(cfg, Node(w.dirs, w.attached), Repo(prefix), objects, day, id, t);
            && Node(end.dirs, end.attached) == node
            && id in end.replies && end.replies[id].status == status && end.replies[id].bytes == written
            && id !in end.temps
  {
    hide Settle, Unpack, TmpDir, KeyOf, PartitionName, Turns;
    HandledTurns(cfg, w, id, LuckOf(t));
  }

  // ----- a backup can be restored --------------------------------------------------------------

  ghost predicate NoneSlashed(days: seq<Day>) { forall i :: 0 <= i < |days| ==> NoSlash(days[i]) }

  /** Snapshot paths have VictoriaLogs' layout, under a data path with no segment "partitions". */
  ghost predicate StandardLayout(src: Source, data: string) {
    && PARTITIONS !in Split(data)
    && forall d, i {:trigger src.create(d).value[i]} ::
         src.create(d).Some? && 0 <= i < |src.create(d).value| ==>
             exists id :: src.create(d).value[i] == SnapshotPath(data, d, id)
  }

  /** Only this object changed. */
  ghost predicate OnlyAt(key: string, a: Objects, b: Objects) {
    forall k :: k != key ==> (k in a <==> k in b) && (k in a ==> a[k] == b[k])
  }

  ghost predicate AllNamed(paths: seq<string>, day: Day) {
    forall i :: 0 <= i < |paths| ==> PartitionOf(paths[i]) == day
  }

  lemma LayoutNamed(src: Source, data: string, day: Day)
    requires StandardLayout(src, data) && NoSlash(day) && src.create(day).Some?
    ensures AllNamed(src.create(day).value, day)
  {
    var paths := src.create(day).value;
    forall i | 0 <= i < |paths| ensures PartitionOf(paths[i]) == day {
      var id :| src.create(day).value[i] == SnapshotPath(data, day, id);
      LayoutNamesDay(data, day, id);
    }
  }

  lemma {:induction false} PathsWriteKey(sha1: Bytes -> Bytes, src: Source, prefix: string, paths: seq<string>,
          objects: Objects, day: Day, kids: seq<Kid>)
    requires AllNamed(paths, day)
    ensures var (after, ok) := BackUpPaths(sha1, src, prefix, paths, objects);
            && OnlyAt(KeyOf(prefix, day), objects, after)
            && (ok && paths == [] ==> after == objects)
            && (ok && paths != [] && (forall i :: 0 <= i < |paths| ==> src.tree(paths[i]) == kids) ==>
                  KeyOf(prefix, day) in after && after[KeyOf(prefix, day)] == Stream(sha1, kids))
    decreases paths
  {
    hide KeyOf, Stream, PartitionOf;
    if paths != [] {
      var key, stream := KeyOf(prefix, day), Stream(sha1, src.tree(paths[0]));
      PathsWriteKey(sha1, src, prefix, paths[1..], objects[key := stream], day, kids);
      assert PartitionOf(paths[0]) == day;
    }
  }

  lemma {:induction false} DaysKeepKey(sha1: Bytes -> Bytes, src: Source, prefix: string, days: seq<Day>,
          objects: Objects, data: string, day: Day)
    requires StandardLayout(src, data) && NoSlash(day) && day !in days && NoneSlashed(days)
    ensures var after, key := BackUpDays(sha1, src, prefix, days, objects).0, KeyOf(prefix, day);
            (key in objects ==> key in after && after[key] == objects[key])
    decreases days
  {
    hide KeyOf, StandardLayout, BackUpPaths, NoSlash;
    if days != [] && src.create(days[0]).Some? {
      var paths := src.create(days[0]).value;
      LayoutNamed(src, data, days[0]);
      PathsWriteKey(sha1, src, prefix, paths, objects, days[0], []);
      if KeyOf(prefix, day) == KeyOf(prefix, days[0]) { KeyInjective(prefix, day, days[0]); }
      DaysKeepKey(sha1, src, prefix, days[1..], BackUpPaths(sha1, src, prefix, paths, objects).0, data, day);
    }
  }

  /** The days' snapshot paths lead to the tree of the sealed day. */
  ghost predicate Holds(src: Source, day: Day, kids: seq<Kid>) {
    && src.create(day).Some? && src.create(day).value != []
    && forall i :: 0 <= i < |src.create(day).value| ==> src.tree(src.create(day).value[i]) == kids
  }

  lemma {:induction false} DaysWriteKey(sha1: Bytes -> Bytes, src: Source, prefix: string, days: seq<Day>,
          objects: Objects, data: string, day: Day, kids: seq<Kid>)
    requires StandardLayout(src, data) && Distinct(days) && day in days && NoneSlashed(days)
    requires Holds(src, day, kids) && BackUpDays(sha1, src, prefix, days, objects).1
    ensures var after, key := BackUpDays(sha1, src, prefix, days, objects).0, KeyOf(prefix, day);
            key in after && after[key] == Stream(sha1, kids)
    decreases days
  {
    hide KeyOf, StandardLayout, BackUpPaths, NoSlash, Stream;
    var paths := src.create(days[0]).value;
    var (after, ok) := BackUpPaths(sha1, src, prefix, paths, objects);
    assert Distinct(days[1..]);
    if day == days[0] {
      LayoutNamed(src, data, day);
      PathsWriteKey(sha1, src, prefix, paths, objects, day, kids);
      assert forall i :: 0 <= i < |days[1..]| ==> days[1..][i] == days[i + 1];
      DaysKeepKey(sha1, src, prefix, days[1..], after, data, day);
    } else {
      DaysWriteKey(sha1, src, prefix, days[1..], after, data, day, kids);
    }
  }

  lemma NamesHaveNoSlash(n: int)
    ensures NoSlash(Name(Civil(n)))
  {
    CivilOfDay(n);
    var d := Civil(n);
    PaddedNoSlash(d.year, 4);
    PaddedNoSlash(d.month, 2);
    PaddedNoSlash(d.day, 2);
    hide Padded, Civil, Legal;
  }

  lemma PaddedNoSlash(x: int, width: nat)
    ensures NoSlash(Padded(x, width))
  {
    PaddedValue(if x < 0 then -x else x, width);
    assert forall c :: IsDigit(c) ==> c != '/';
    hide Zeros, Digits, Value;
  }

  /** After a 202 each day from that of `f` to the end of the window has its archive under its own key. */
  lemma BackupWrites(sha1: Bytes -> Bytes, src: Source, prefix: string, f: Instant, to: Bound, now: Instant,
          objects: Objects, data: string, n: int, kids: seq<Kid>)
    requires to != Given(None) && Wanted(f, to, now, n)
    requires StandardLayout(src, data) && Holds(src, Name(Civil(n)), kids)
    requires Trigger(sha1, src, Repo(prefix), Given(Some(f)), to, now, objects).1 == 202
    ensures var after := Trigger(sha1, src, Repo(prefix), Given(Some(f)), to, now, objects).0;
            var key := KeyOf(prefix, Name(Civil(n)));
            key in after && after[key] == Stream(sha1, kids)
  {
    AcceptedIff(sha1, src, Repo(prefix), Given(Some(f)), to, now, objects);
    ListedAreWanted(Given(Some(f)), to, now);
    hide SealedDays, StandardLayout, KeyOf, Distinct, NoSlash, Stream, BackUpDays, Holds, Wanted, Civil, Name, DayOf;
    hide ParseTimeRange, AllSucceed, Refused;
    var w, day := ParseTimeRange(Given(Some(f)), to, now), Name(Civil(n));
    var days := SealedDays(w.from, w.to, now).names;
    SealedDaysExactly(w.from, w.to, now, 0);
    CoveredNoSlash(w.from, w.to, now);
    DaysWriteKey(sha1, src, prefix, days, objects, data, day, kids);
  }

  lemma RestoreRebuilds(cfg: Config, prefix: string, objects: Objects, day: Day, kids: seq<Kid>, node: Node, tmp: nat)
    requires PartitionName(day) && Sendable(kids) && day !in node.dirs
    requires KeyOf(prefix, day) in objects && objects[KeyOf(prefix, day)] == Stream(cfg.sha1, kids)
    ensures Restored(cfg, node, Repo(prefix), objects, day, tmp, NoTrouble)
            == (Node(node.dirs[day := Flat([], kids)], node.attached + {day}), 202, Size(kids))
  {
    hide KeyOf, Stream, Unpack, TmpDir, Sendable, PartitionName, CleanPath, Flat, Size, Payload, Walk;
    TmpDirIsSafe(cfg, day, tmp);
    UnpackIntact(cfg.sha1, TmpDir(cfg, day, tmp), kids);
  }

  /**
   After a backup answered 202, restoring any covered day that was not empty, from the same place on a
   node without it, finds the archive under its key and rebuilds the same tree.
   */
  lemma BackupThenRestore(cfg: Config, src: Source, prefix: string, f: Instant, to: Bound, now: Instant,
          objects: Objects, data: string, n: int, kids: seq<Kid>, node: Node, tmp: nat)
    requires to != Given(None) && Wanted(f, to, now, n)
    requires PartitionName(Name(Civil(n))) && Sendable(kids) && Name(Civil(n)) !in node.dirs
    requires StandardLayout(src, data) && Holds(src, Name(Civil(n)), kids)
    requires Trigger(cfg.sha1, src, Repo(prefix), Given(Some(f)), to, now, objects).1 == 202
    ensures var after, day := Trigger(cfg.sha1, src, Repo(prefix), Given(Some(f)), to, now, objects).0, Name(Civil(n));
            Restored(cfg, node, Repo(prefix), after, day, tmp, NoTrouble)
            == (Node(node.dirs[day := Flat([], kids)], node.attached + {day}), 202, Size(kids))
  {
    BackupWrites(cfg.sha1, src, prefix, f, to, now, objects, data, n, kids);
    hide *;
    var after := Trigger(cfg.sha1, src, Repo(prefix), Given(Some(f)), to, now, objects).0;
    RestoreRebuilds(cfg, prefix, after, Name(Civil(n)), kids, node, tmp);
  }

  lemma CoveredAt(from: Instant, to: Instant, now: Instant, i: nat)
    requires SealedDays(from, to, now).Days? && i < |SealedDays(from, to, now).names|
    ensures NoSlash(SealedDays(from, to, now).names[i])
  {
    hide *;
    SealedName(from, to, now, i);
    NamesHaveNoSlash(DayOf(from) + i);
  }

  lemma CoveredNoSlash(from: Instant, to: Instant, now: Instant)
    requires SealedDays(from, to, now).Days?
    ensures NoneSlashed(SealedDays(from, to, now).names)
  {
    hide NoSlash, SealedDays;
    var days := SealedDays(from, to, now).names;
    forall i | 0 <= i < |days| ensures NoSlash(days[i]) {
      CoveredAt(from, to, now, i);
    }
  }
}
