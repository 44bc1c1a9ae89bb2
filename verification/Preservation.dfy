/**
 Every step of the servers, handlers and other clients keeps the invariant.
 */
module Preservation {
  import opened Paths
  import opened Archive
  import opened Integrity
  import opened Delivery
  import opened Calendar
  import opened World
  import opened Invariant

  ghost predicate Preserves(cfg: Config, w: World, w': World) { Inv(cfg, w') && Grows(w, w') }

  /** The request was just taken off the wire. */
  ghost predicate Taken(w: World, id: MsgId) {
    id < |w.net| && id in w.served && id !in w.replies && id !in w.handlers
  }

  lemma HandlerAt(cfg: Config, w: World, id: MsgId)
    requires Inv(cfg, w) && id in w.handlers
    ensures HandlerOk(cfg, w, id)
  {
    hide HandlerOk;
  }

  // ----- requests answered at once -------------------------------------------------------------

  /** Answering a taken request, after a change to the source, keeps the invariant if the answer is true. */
  lemma AnswerOnSource(cfg: Config, w: World, w': World, id: MsgId, r: Reply)
    requires Inv(cfg, w) && Taken(w, id)
    requires w' == w.(held := w'.held, snaps := w'.snaps, replies := w.replies[id := r])
    requires w'.held <= w.held && (forall d :: d in w.held && d !in w'.held ==> d in w.attached)
    requires forall s :: s in w'.snaps ==> s in w.snaps && w'.snaps[s] == w.snaps[s]
    requires AnswerOk(cfg, w', w.net[id].msg, id, r)
    ensures Preserves(cfg, w, w')
  {
    hide AnswerOk, InstallOk, StageOk, DeletedBefore, TreeOf;
    assert Grows(w, w');
    RepliesKept(cfg, w, w');
    DetachesKept(w, w');
    HandlersKept(cfg, w, w', id);
    SnapsKept(w, w');
    InstallsKept(cfg, w, w');
  }

  lemma ServeDeleteKeeps(cfg: Config, w: World, id: MsgId, how: How)
    requires Inv(cfg, w) && Taken(w, id) && w.net[id].msg.DeleteSnapshot?
    ensures Preserves(cfg, w, ServeDelete(w, id, w.net[id].msg.snap, how))
  {
    var w' := ServeDelete(w, id, w.net[id].msg.snap, how);
    assert !ClaimsGone(Plainly(500, "")) by { NothingClaimed(); }
    hide ClaimsGone, InstallsOk, HandlersOk, RepliesOk, DetachesOk, NodesOk;
    AnswerOnSource(cfg, w, w', id, w'.replies[id]);
  }

  lemma ServeStaleKeeps(cfg: Config, w: World, id: MsgId, how: How)
    requires Inv(cfg, w) && Taken(w, id) && w.net[id].msg.DeleteStale?
    ensures Preserves(cfg, w, ServeStale(w, id, how))
  {
    var w' := ServeStale(w, id, how);
    hide InstallsOk, HandlersOk, RepliesOk, DetachesOk, NodesOk;
    AnswerOnSource(cfg, w, w', id, w'.replies[id]);
  }

  lemma ServeDetachKeeps(cfg: Config, w: World, id: MsgId, how: How)
    requires Inv(cfg, w) && Taken(w, id) && w.net[id].msg.Detach?
    ensures Preserves(cfg, w, ServeDetach(w, id, w.net[id].msg.day, how))
  {
    var day := w.net[id].msg.day;
    var w' := ServeDetach(w, id, day, how);
    assert day in w.attached;
    assert !ClaimsDetached(Plainly(500, "")) by { NothingClaimed(); }
    hide ClaimsDetached, InstallsOk, HandlersOk, RepliesOk, DetachesOk, NodesOk;
    AnswerOnSource(cfg, w, w', id, w'.replies[id]);
  }

  lemma ServeAttachKeeps(cfg: Config, w: World, id: MsgId, how: How)
    requires Inv(cfg, w) && Taken(w, id) && w.net[id].msg.Attach?
    ensures Preserves(cfg, w, ServeAttach(w, id, w.net[id].msg.day, how))
  {
    var reply := Plainly(how.status, how.body);
    AttachOkReads(reply);
    AttachOkReads(Plainly(500, ""));
    NothingClaimed();
    hide AttachOk, ClaimsAttached, PartitionName;
    var w' := ServeAttach(w, id, w.net[id].msg.day, how);
    AnswerOnTarget(cfg, w, w', id, w'.replies[id]);
  }

  lemma AnswerOnTarget(cfg: Config, w: World, w': World, id: MsgId, r: Reply)
    requires Inv(cfg, w) && Taken(w, id)
    requires w' == w.(attached := w'.attached, replies := w.replies[id := r])
    requires w.attached <= w'.attached <= w.dirs.Keys
    requires AnswerOk(cfg, w', w.net[id].msg, id, r)
    ensures Preserves(cfg, w, w')
  {
    hide Inv, AnswerOk, HandlerOk;
    TargetMoves(cfg, w, w', id);
  }

  /** One handler or request of the target moved: its stage, its temporary directory, its answer, an attach. */
  lemma TargetMoves(cfg: Config, w: World, w': World, id: MsgId)
    requires Inv(cfg, w) && id !in w.replies
    requires w' == w.(attached := w'.attached, temps := w'.temps, handlers := w'.handlers, replies := w'.replies)
    requires w.attached <= w'.attached <= w.dirs.Keys
    requires w'.replies == w.replies
             || (id in w'.replies && w'.replies == w.replies[id := w'.replies[id]] && id < |w.net| && id in w.served
                 && AnswerOk(cfg, w', w.net[id].msg, id, w'.replies[id]))
    requires w'.handlers == w.handlers || (id in w'.handlers && w'.handlers == w.handlers[id := w'.handlers[id]])
    requires OnlyTemp(w.temps, w'.temps, id)
    requires id in w'.handlers ==> HandlerOk(cfg, w', id)
    ensures Preserves(cfg, w, w')
  {
    hide AnswerOk, InstallOk, StageOk, DeletedBefore, TreeOf, HandlerOk;
    assert Grows(w, w');
    RepliesKept(cfg, w, w');
    DetachesKept(w, w');
    HandlersKept(cfg, w, w', id);
    SnapsKept(w, w');
    InstallsKept(cfg, w, w');
  }

  // ----- snapshots -----------------------------------------------------------------------------

  /** New snapshots of one day, numbered from the end of the ledger. */
  lemma IssueKeeps(cfg: Config, w: World, w': World, id: MsgId, n: nat, r: Reply)
    requires Inv(cfg, w) && Taken(w, id) && w.net[id].msg.CreateSnapshot?
    requires w' == w.(issued := w'.issued, snaps := w'.snaps, replies := w.replies[id := r])
    requires w'.issued == w.issued + Repeat(id, n)
    requires forall s :: s in w'.snaps ==> (s in w.snaps && w'.snaps[s] == w.snaps[s])
                                           || (|w.issued| <= s < |w'.issued| && w'.snaps[s] == w.net[id].msg.day)
    requires AnswerOk(cfg, w', w.net[id].msg, id, r)
    ensures Preserves(cfg, w, w')
  {
    hide AnswerOk, InstallOk, StageOk, DeletedBefore, TreeOf;
    assert forall s :: |w.issued| <= s < |w'.issued| ==> w'.issued[s] == id;
    assert Grows(w, w');
    RepliesKept(cfg, w, w');
    DetachesKept(w, w');
    HandlersKept(cfg, w, w', id);
    IssueSnaps(w, w', id);
    InstallsKept(cfg, w, w');
  }

  lemma IssueSnaps(w: World, w': World, id: MsgId)
    requires SnapsOk(w) && id < |w.net| && w.net[id].msg.CreateSnapshot?
    requires w'.net == w.net && w'.served == w.served && w.issued <= w'.issued
    requires forall s :: |w.issued| <= s < |w'.issued| ==> w'.issued[s] == id
    requires forall s :: s in w'.snaps ==> (s in w.snaps && w'.snaps[s] == w.snaps[s])
                                           || (|w.issued| <= s < |w'.issued| && w'.snaps[s] == w.net[id].msg.day)
    ensures SnapsOk(w')
  {
    forall s | 0 <= s < |w'.issued| ensures w'.issued[s] < |w'.net| && w'.net[w'.issued[s]].msg.CreateSnapshot? {
      if s < |w.issued| { assert w'.issued[s] == w.issued[s]; }
    }
    forall s | s in w'.snaps ensures s < |w'.issued| && w'.net[w'.issued[s]].msg == CreateSnapshot(w'.snaps[s]) {
      if s < |w.issued| { assert w'.issued[s] == w.issued[s]; }
    }
  }

  lemma NewSnapshots(w: World, id: MsgId, day: Day, how: How)
    requires day in w.held && how.effect
    ensures var w', n := ServeCreate(w, id, day, how), how.extra + 1;
            && id in w'.replies && w' == w.(issued := w'.issued, snaps := w'.snaps, replies := w.replies[id := w'.replies[id]])
            && w'.issued == w.issued + Repeat(id, n) && w'.issued[|w.issued|..] == Repeat(id, n)
            && (|| w'.replies[id].ids == Numbers(|w.issued|, n)
                || (w'.replies[id].ids == [] && w'.replies[id].status != 200))
            && (forall s :: s in w'.snaps ==> (s in w.snaps && w'.snaps[s] == w.snaps[s])
                                              || (|w.issued| <= s < |w'.issued| && w'.snaps[s] == day))
  {
    hide Numbers, Repeat;
  }

  lemma NewIdsAnswered(cfg: Config, w: World, id: MsgId, n: nat, msg: Msg, r: Reply)
    requires msg.CreateSnapshot? && |w.issued| >= n && w.issued[|w.issued| - n..] == Repeat(id, n)
    requires n > 0 && (r.ids == Numbers(|w.issued| - n, n) || (r.ids == [] && r.status != 200))
    ensures AnswerOk(cfg, w, msg, id, r)
  {
    hide Numbers, Repeat;
    var base := |w.issued| - n;
    assert forall i :: 0 <= i < n ==> w.issued[base + i] == w.issued[base..][i];
  }

  lemma CreateRefused(cfg: Config, w: World, id: MsgId, how: How)
    requires Taken(w, id) && w.net[id].msg.CreateSnapshot? && !(w.net[id].msg.day in w.held && how.effect)
    ensures var day := w.net[id].msg.day;
            var w' := ServeCreate(w, id, day, how);
            id in w'.replies && w' == Answered(w, id, w'.replies[id])
                && AnswerOk(cfg, w, w.net[id].msg, id, w'.replies[id])
  {
  }

  lemma ServeCreateKeeps(cfg: Config, w: World, id: MsgId, how: How)
    requires Inv(cfg, w) && Taken(w, id) && w.net[id].msg.CreateSnapshot?
    ensures Preserves(cfg, w, ServeCreate(w, id, w.net[id].msg.day, how))
  {
    var day := w.net[id].msg.day;
    var w' := ServeCreate(w, id, day, how);
    hide Inv, Preserves, Numbers, Repeat, ServeCreate, AnswerOk;
    if day in w.held && how.effect {
      NewSnapshots(w, id, day, how);
      NewIdsAnswered(cfg, w', id, how.extra + 1, w.net[id].msg, w'.replies[id]);
      IssueKeeps(cfg, w, w', id, how.extra + 1, w'.replies[id]);
    } else {
      CreateRefused(cfg, w, id, how);
      AnswerNothing(cfg, w, id, w'.replies[id]);
    }
  }

  /** An answer that promises nothing. */
  lemma AnswerNothing(cfg: Config, w: World, id: MsgId, r: Reply)
    requires Inv(cfg, w) && Taken(w, id) && AnswerOk(cfg, w, w.net[id].msg, id, r)
    ensures Preserves(cfg, w, Answered(w, id, r))
  {
    hide Inv, Preserves, ClaimsGone, ClaimsDetached;
    var w' := Answered(w, id, r);
    SameAnswer(cfg, w, w', w.net[id].msg, id, r);
    hide AnswerOk;
    AnswerOnSource(cfg, w, w', id, r);
  }

  lemma SameAnswer(cfg: Config, w: World, w': World, msg: Msg, id: MsgId, r: Reply)
    requires AnswerOk(cfg, w, msg, id, r) && w' == w.(replies := w'.replies)
    ensures AnswerOk(cfg, w', msg, id, r)
  {
    hide ClaimsGone, ClaimsDetached;
  }

  // ----- uploads -------------------------------------------------------------------------------

  lemma ServeUploadKeeps(cfg: Config, w: World, id: MsgId, day: Day, restore: bool, lost: bool, how: How)
    requires Inv(cfg, w) && Taken(w, id) && Uploads(w.net[id].msg, day, restore)
    ensures Preserves(cfg, w, ServeUpload(cfg, w, id, day, restore, lost, how))
  {
    var w' := ServeUpload(cfg, w, id, day, restore, lost, how);
    if !PartitionName(day) {
      AnswerNothing(cfg, w, id, w'.replies[id]);
    } else {
      MoveHandler(cfg, w, w', id);
    }
  }

  /** A handler moved and nothing else changed but its own temporary directory. */
  lemma MoveHandler(cfg: Config, w: World, w': World, id: MsgId)
    requires Inv(cfg, w)
    requires w' == w.(handlers := w'.handlers, temps := w'.temps)
    requires id in w'.handlers && w'.handlers == w.handlers[id := w'.handlers[id]]
    requires OnlyTemp(w.temps, w'.temps, id)
    requires HandlerOk(cfg, w', id)
    ensures Preserves(cfg, w, w')
  {
    hide AnswerOk, InstallOk, StageOk, DeletedBefore, TreeOf;
    assert Grows(w, w');
    RepliesKept(cfg, w, w');
    DetachesKept(w, w');
    HandlersKept(cfg, w, w', id);
    SnapsKept(w, w');
    InstallsKept(cfg, w, w');
  }

  // ----- the temporary directory ---------------------------------------------------------------

  lemma {:induction false} DigitsNoSlash(n: nat)
    ensures NoSlash(Digits(n))
  {
    DigitsValue(n);
  }

  /** The temporary directory is neither the root nor the working directory. */
  lemma TmpDirIsSafe(cfg: Config, day: Day, tmp: MsgId)
    requires PartitionName(day)
    ensures CleanPath(TmpDir(cfg, day, tmp)).comps != []
  {
    var name := "." + day + ".tmp-" + Digits(tmp);
    DigitsNoSlash(tmp);
    assert Plain(name) by { assert |name| > 2; }
    var base := if cfg.dataPath == "" then "partitions" else cfg.dataPath + "/partitions";
    assert TmpDir(cfg, day, tmp) == base + "/" + name;
    hide TmpDir, Split;
    LastPlain(base, name);
  }

  /** filepath.Join(DataPath, "partitions", day). */
  function FinalDir(cfg: Config, day: Day): string {
    (if cfg.dataPath == "" then "partitions" else cfg.dataPath + "/partitions") + "/" + day
  }

  /**
   The temporary directory lies beside the final one, under a name that begins with a dot and so is no
   partition's; no two requests have the same.
   */
  lemma TmpDirBeside(cfg: Config, day: Day, tmp: MsgId, other: MsgId)
    requires PartitionName(day)
    ensures var a, b, final := CleanPath(TmpDir(cfg, day, tmp)), CleanPath(TmpDir(cfg, day, other)),
                               CleanPath(FinalDir(cfg, day));
            var n := |a.comps|;
            && n > 0 && n == |final.comps| && a.rooted == final.rooted && a.comps[..n - 1] == final.comps[..n - 1]
            && final.comps[n - 1] == day && "." <= a.comps[n - 1] && !PartitionName(a.comps[n - 1])
            && (a == b ==> tmp == other)
  {
    var base := if cfg.dataPath == "" then "partitions" else cfg.dataPath + "/partitions";
    var name, name' := "." + day + ".tmp-" + Digits(tmp), "." + day + ".tmp-" + Digits(other);
    DigitsNoSlash(tmp);
    DigitsNoSlash(other);
    assert Plain(name) && Plain(name') && Plain(day) by { assert |name| > 2 && |name'| > 2 && |day| > 2; }
    assert TmpDir(cfg, day, tmp) == base + "/" + name && TmpDir(cfg, day, other) == base + "/" + name';
    hide TmpDir, Split, Digits;
    LastPlain(base, name);
    LastPlain(base, name');
    LastPlain(base, day);
    if name == name' {
      assert name[14..] == Digits(tmp) && name'[14..] == Digits(other);
      DigitsValue(tmp);
      DigitsValue(other);
    }
  }

  lemma LastPlain(base: string, name: string)
    requires Plain(name)
    ensures CleanPath(base + "/" + name).comps != []
    ensures base != "" ==> CleanPath(base + "/" + name) == Clean(IsAbs(base), CleanPath(base).comps + [name])
  {
    var rooted := IsAbs(base + "/" + name);
    SplitConcat(base, name);
    SplitPlain(name);
    PushAllConcat(rooted, [], Split(base), [name]);
    PushAllPlain(rooted, PushAll(rooted, [], Split(base)), [name]);
  }

  /** What extraction yields for a sealed day, whatever happened to the stream. */
  lemma BodyUnpacks(cfg: Config, day: Day, tmp: MsgId, how: How)
    requires Sound(cfg) && day in cfg.sealed
    ensures var x := Unpack(cfg.sha1, TmpDir(cfg, day, tmp), Body(cfg, day, how));
            x.result.Accepted? ==> x.nodes == TreeOf(cfg, day) && x.result.written == Size(cfg.sealed[day])
  {
    hide Unpack, TmpDir, Sendable, CollisionFree, CleanPath, Deliver, Stream, PartitionName;
    TmpDirIsSafe(cfg, day, tmp);
    UnpackDelivered(cfg.sha1, TmpDir(cfg, day, tmp), cfg.sealed[day], how.damage);
  }

  // ----- handler steps -------------------------------------------------------------------------

  /** A handler moves on to a stage that is in order. */
  lemma GotoKeeps(cfg: Config, w: World, temps: map<MsgId, Nodes>, id: MsgId, stage: Stage)
    requires Inv(cfg, w) && id in w.handlers && w.handlers[id].stage != Over
    requires OnlyTemp(w.temps, temps, id)
    requires StageOk(cfg, w.(temps := temps), id, w.handlers[id].(stage := stage))
    ensures Preserves(cfg, w, Goto(w.(temps := temps), id, stage))
  {
    var w' := Goto(w.(temps := temps), id, stage);
    HandlerAt(cfg, w, id);
    hide NodesOk, SnapsOk, HandlersOk, RepliesOk, DetachesOk, InstallsOk, Verified, Body, Uploads, PartitionName;
    StageSame(cfg, w.(temps := temps), w', id, w.handlers[id].(stage := stage));
    hide StageOk;
    MoveHandler(cfg, w, w', id);
  }

  lemma StageSame(cfg: Config, w: World, w': World, id: MsgId, h: Handler)
    requires StageOk(cfg, w, id, h) && w'.temps == w.temps && w'.dirs == w.dirs && w'.attached == w.attached
    ensures StageOk(cfg, w', id, h)
  {
    hide Verified;
  }

  /** How the stream of a sealed day's handler came. */
  lemma CameAs(cfg: Config, w: World, id: MsgId) returns (how: How)
    requires id in w.handlers && HandlerOk(cfg, w, id) && w.handlers[id].day in cfg.sealed
    ensures w.handlers[id].stream == Body(cfg, w.handlers[id].day, how)
  {
    hide Body, StageOk, Uploads, PartitionName;
    how :| w.handlers[id].stream == Body(cfg, w.handlers[id].day, how);
  }

  /** The extraction of a stream that belongs to the day is in order, accepted or not. */
  lemma ExtractedOk(cfg: Config, w: World, id: MsgId, x: Extraction)
    requires Sound(cfg) && id in w.handlers && HandlerOk(cfg, w, id)
    requires x == Unpack(cfg.sha1, TmpDir(cfg, w.handlers[id].day, id), w.handlers[id].stream) && x.result.Accepted?
    ensures StageOk(cfg, w.(temps := w.temps[id := x.nodes]), id, w.handlers[id].(stage := Ready(x.result.written)))
  {
    hide Unpack, TmpDir, Sound, HandlerOk, TreeOf;
    if w.handlers[id].day in cfg.sealed {
      var how := CameAs(cfg, w, id);
      BodyUnpacks(cfg, w.handlers[id].day, id, how);
    }
  }

  lemma RejectionOk(cfg: Config, w: World, id: MsgId, h: Handler, mismatch: bool)
    ensures StageOk(cfg, w, id, h.(stage := Closing(Rejection(h.restore, mismatch))))
  {
  }

  lemma ExtractCases(cfg: Config, w: World, id: MsgId, ok: bool)
    requires id in w.handlers
    ensures var h := w.handlers[id];
            var x := Unpack(cfg.sha1, TmpDir(cfg, h.day, id), h.stream);
            var w' := w.(temps := w.temps[id := x.nodes]);
            StepExtract(cfg, w, id, ok) ==
            if !ok then Goto(w, id, Closing(Rejection(h.restore, false)))
            else if x.result.Accepted? then Goto(w', id, Ready(x.result.written))
            else Goto(w', id, Closing(Rejection(h.restore, x.result.err.Mismatch?)))
  {
    hide Unpack, TmpDir, Goto, Rejection;
  }

  lemma StepExtractKeeps(cfg: Config, w: World, id: MsgId, ok: bool)
    requires Sound(cfg) && Inv(cfg, w) && id in w.handlers && w.handlers[id].stage == Made
    ensures Preserves(cfg, w, StepExtract(cfg, w, id, ok))
  {
    hide Inv, Preserves, Unpack, TmpDir, Sound, HandlerOk, StageOk, Goto, Rejection, StepExtract;
    var h := w.handlers[id];
    HandlerAt(cfg, w, id);
    ExtractCases(cfg, w, id, ok);
    var x := Unpack(cfg.sha1, TmpDir(cfg, h.day, id), h.stream);
    if !ok {
      RejectionOk(cfg, w, id, h, false);
      assert w.(temps := w.temps) == w;
      GotoKeeps(cfg, w, w.temps, id, Closing(Rejection(h.restore, false)));
    } else if x.result.Accepted? {
      ExtractedOk(cfg, w, id, x);
      GotoKeeps(cfg, w, w.temps[id := x.nodes], id, Ready(x.result.written));
    } else {
      RejectionOk(cfg, w.(temps := w.temps[id := x.nodes]), id, h, x.result.err.Mismatch?);
      GotoKeeps(cfg, w, w.temps[id := x.nodes], id, Closing(Rejection(h.restore, x.result.err.Mismatch?)));
    }
  }

  /** Everything about a rename that succeeds, except the invariant of installs. */
  lemma InstallKeepsInstalls(cfg: Config, w: World, w': World, i: Install)
    requires InstallsOk(cfg, w) && i.day !in w.dirs
    requires i.day in w'.dirs && w'.installs == w.installs + [i] && w'.dirs == w.dirs[i.day := w'.dirs[i.day]]
    requires Verified(cfg, i.day, i.tmp, i.stream, w'.dirs[i.day]) && CameFrom(cfg, w', i) && LogGrows(w, w')
    ensures InstallsOk(cfg, w')
  {
    hide Verified, CameFrom, LogGrows, InstallOk, InstalledOnce;
    forall d | d in w'.dirs && d !in cfg.before ensures InstalledOnce(w', d) {
      InstalledStill(w, w', i, d);
    }
    forall a, b | 0 <= a < b < |w'.installs| ensures w'.installs[a].day != w'.installs[b].day {
      assert w'.installs[a] == w.installs[a] && InstallOk(cfg, w, w.installs[a]);
      InstallOnDisk(cfg, w, w.installs[a]);
    }
    forall j | 0 <= j < |w'.installs| ensures InstallOk(cfg, w', w'.installs[j]) {
      if j < |w.installs| {
        assert w'.installs[j] == w.installs[j] && InstallOk(cfg, w, w.installs[j]);
        InstallOnDisk(cfg, w, w.installs[j]);
        InstallStill(cfg, w, w', w.installs[j]);
      } else {
        NewInstall(cfg, w', i);
      }
    }
  }

  lemma InstalledStill(w: World, w': World, i: Install, d: Day)
    requires w'.installs == w.installs + [i] && (d == i.day || InstalledOnce(w, d))
    ensures InstalledOnce(w', d)
  {
    if d == i.day {
      assert w'.installs[|w.installs|] == i;
    } else {
      var j :| 0 <= j < |w.installs| && w.installs[j].day == d;
      assert w'.installs[j].day == d;
    }
  }

  lemma InstallOnDisk(cfg: Config, w: World, i: Install)
    requires InstallOk(cfg, w, i)
    ensures i.day in w.dirs && i.day !in cfg.before
  {
  }

  lemma InstallStill(cfg: Config, w: World, w': World, i: Install)
    requires InstallOk(cfg, w, i) && LogGrows(w, w')
    requires i.day in w'.dirs && w'.dirs[i.day] == w.dirs[i.day]
    ensures InstallOk(cfg, w', i)
  {
    hide Verified, CameFrom, LogGrows;
    CameFromKept(cfg, w, w', i);
  }

  lemma NewInstall(cfg: Config, w: World, i: Install)
    requires i.day in w.dirs && i.day !in cfg.before && Verified(cfg, i.day, i.tmp, i.stream, w.dirs[i.day])
    requires CameFrom(cfg, w, i)
    ensures InstallOk(cfg, w, i)
  {
    hide Verified, CameFrom;
  }

  lemma RenamedNodes(cfg: Config, w: World, w': World, day: Day, nodes: Nodes)
    requires NodesOk(cfg, w) && day !in w.dirs && (day in cfg.sealed ==> nodes == TreeOf(cfg, day))
    requires w' == w.(dirs := w.dirs[day := nodes], temps := w'.temps, installs := w'.installs, handlers := w'.handlers)
    ensures NodesOk(cfg, w') && Grows(w, w')
  {
    hide TreeOf;
  }

  lemma RenameSucceeds(cfg: Config, w: World, id: MsgId, bytes: nat)
    requires Sound(cfg) && Inv(cfg, w) && id in w.handlers && w.handlers[id].stage == Ready(bytes)
    requires w.handlers[id].day !in w.dirs
    ensures Preserves(cfg, w, StepRename(w, id, bytes, true))
  {
    assert NodesOk(cfg, w) && InstallsOk(cfg, w);
    hide Verified, Sound, HandlerOk, NodesOk, InstallsOk, TreeOf, Grows, Inv, Preserves, OnlyTemp;
    var h, w' := w.handlers[id], StepRename(w, id, bytes, true);
    HandlerAt(cfg, w, id);
    RenamedTree(cfg, w, id, bytes);
    RenamedHandler(cfg, w, id, bytes);
    RenamedShape(w, id, bytes);
    hide StepRename;
    CameFromKept(cfg, w, w', Install(h.day, id, h.stream));
    hide CameFrom;
    InstallKeepsInstalls(cfg, w, w', Install(h.day, id, h.stream));
    RenamedNodes(cfg, w, w', h.day, w.temps[id]);
    RenameKeepsRest(cfg, w, w', id);
  }

  lemma RenamedShape(w: World, id: MsgId, bytes: nat)
    requires id in w.handlers && id in w.temps && w.handlers[id].day !in w.dirs
    ensures var h, w' := w.handlers[id], StepRename(w, id, bytes, true);
            && w'.dirs == w.dirs[h.day := w.temps[id]] && w'.installs == w.installs + [Install(h.day, id, h.stream)]
            && w' == w.(dirs := w'.dirs, temps := w'.temps, installs := w'.installs, handlers := w'.handlers)
            && id in w'.handlers && w'.handlers == w.handlers[id := w'.handlers[id]]
            && OnlyTemp(w.temps, w'.temps, id)
            && LogGrows(w, w')
  {
  }

  lemma RenamedHandler(cfg: Config, w: World, id: MsgId, bytes: nat)
    requires id in w.handlers && HandlerOk(cfg, w, id) && w.handlers[id].stage == Ready(bytes)
    requires w.handlers[id].day !in w.dirs
    ensures HandlerOk(cfg, StepRename(w, id, bytes, true), id)
    ensures id in w.temps && Verified(cfg, w.handlers[id].day, id, w.handlers[id].stream, w.temps[id])
    ensures CameFrom(cfg, w, Install(w.handlers[id].day, id, w.handlers[id].stream))
  {
    hide Verified, Body, PartitionName, Uploads;
  }

  /** For a sealed day, a verified extraction is the day's tree. */
  lemma RenamedTree(cfg: Config, w: World, id: MsgId, bytes: nat)
    requires Sound(cfg) && id in w.handlers && HandlerOk(cfg, w, id) && w.handlers[id].stage == Ready(bytes)
    ensures id in w.temps && (w.handlers[id].day in cfg.sealed ==> w.temps[id] == TreeOf(cfg, w.handlers[id].day))
  {
    var h := w.handlers[id];
    hide Unpack, TmpDir, Body, Sound, Uploads, PartitionName, TreeOf;
    if h.day in cfg.sealed {
      var how :| h.stream == Body(cfg, h.day, how);
      BodyUnpacks(cfg, h.day, id, how);
    }
  }

  lemma RenameKeepsRest(cfg: Config, w: World, w': World, id: MsgId)
    requires Inv(cfg, w) && Grows(w, w') && InstallsOk(cfg, w') && NodesOk(cfg, w')
    requires w' == w.(dirs := w'.dirs, temps := w'.temps, installs := w'.installs, handlers := w'.handlers)
    requires id in w'.handlers && w'.handlers == w.handlers[id := w'.handlers[id]]
    requires OnlyTemp(w.temps, w'.temps, id)
    requires HandlerOk(cfg, w', id)
    ensures Preserves(cfg, w, w')
  {
    hide AnswerOk, InstallOk, StageOk, DeletedBefore, TreeOf, NodesOk, InstallsOk;
    RepliesKept(cfg, w, w');
    DetachesKept(w, w');
    HandlersKept(cfg, w, w', id);
    SnapsKept(w, w');
  }

  lemma StepRenameKeeps(cfg: Config, w: World, id: MsgId, bytes: nat, ok: bool)
    requires Sound(cfg) && Inv(cfg, w) && id in w.handlers && w.handlers[id].stage == Ready(bytes)
    ensures Preserves(cfg, w, StepRename(w, id, bytes, ok))
  {
    HandlerAt(cfg, w, id);
    hide NodesOk, SnapsOk, HandlersOk, RepliesOk, DetachesOk, InstallsOk, Verified, Body, Sound, Uploads, PartitionName;
    if ok && w.handlers[id].day !in w.dirs {
      RenameSucceeds(cfg, w, id, bytes);
    } else {
      assert w.(temps := w.temps) == w;
      GotoKeeps(cfg, w, w.temps, id, Unmoved);
    }
  }

  lemma ClosedHandler(cfg: Config, w: World, id: MsgId)
    requires id in w.handlers && HandlerOk(cfg, w, id) && w.handlers[id].stage.Closing?
    ensures var w', r := StepHandler(cfg, w, id, true), w.handlers[id].stage.reply;
            && HandlerOk(cfg, w', id) && id !in w.replies && id in w.served && id < |w.net|
            && w' == Goto(Answered(w.(temps := w.temps - {id}), id, r), id, Over)
            && AnswerOk(cfg, w', w.net[id].msg, id, r)
  {
    hide Verified, Body, PartitionName;
  }

  lemma AttachedHasDirs(cfg: Config, w: World)
    requires Inv(cfg, w)
    ensures w.attached <= w.dirs.Keys
  {
  }

  /** The last step: the temporary directory goes and the answer is sent. */
  lemma StepCloseKeeps(cfg: Config, w: World, id: MsgId)
    requires Inv(cfg, w) && id in w.handlers && w.handlers[id].stage.Closing?
    ensures Preserves(cfg, w, StepHandler(cfg, w, id, true))
  {
    hide Inv, Preserves, AnswerOk, HandlerOk, StepHandler, NodesOk;
    AttachedHasDirs(cfg, w);
    var w' := StepHandler(cfg, w, id, true);
    HandlerAt(cfg, w, id);
    ClosedHandler(cfg, w, id);
    TargetMoves(cfg, w, w', id);
  }

  lemma AttachedHandler(cfg: Config, w: World, id: MsgId)
    requires id in w.handlers && HandlerOk(cfg, w, id) && w.handlers[id].stage.Attaching?
    ensures var h, w' := w.handlers[id], StepHandler(cfg, w, id, true);
            && HandlerOk(cfg, w', id) && h.day in w.dirs && id !in w.replies
            && w' == Goto(w.(attached := w.attached + {h.day}), id, Closing(Reply(202, "", [], h.stage.bytes, true)))
  {
    hide Verified, Body, PartitionName, Uploads;
  }

  /** A restore attaches what it has just installed. */
  lemma StepAttachKeeps(cfg: Config, w: World, id: MsgId)
    requires Inv(cfg, w) && id in w.handlers && w.handlers[id].stage.Attaching?
    ensures Preserves(cfg, w, StepHandler(cfg, w, id, true))
  {
    var w' := StepHandler(cfg, w, id, true);
    HandlerAt(cfg, w, id);
    AttachedHandler(cfg, w, id);
    hide Inv, Preserves, AnswerOk, HandlerOk, StepHandler;
    TargetMoves(cfg, w, w', id);
  }

  lemma StepHandlerKeeps(cfg: Config, w: World, id: MsgId, ok: bool)
    requires Sound(cfg) && Inv(cfg, w) && id in w.handlers
    ensures Preserves(cfg, w, StepHandler(cfg, w, id, ok))
  {
    hide Inv, Preserves, Sound, Goto, StepExtract, StepRename;
    match w.handlers[id].stage {
      case Made => StepExtractKeeps(cfg, w, id, ok);
      case Ready(bytes) => StepRenameKeeps(cfg, w, id, bytes, ok);
      case Closing(_) => StepCloseKeeps(cfg, w, id);
      case Attaching(_) =>
        if ok { StepAttachKeeps(cfg, w, id); } else { PlainGoto(cfg, w, w.temps, id, Closing(Plainly(500, ""))); }
      case Over => SelfKept(cfg, w);
      case Begin =>
        var there := ok && w.handlers[id].day in w.dirs;
        PlainGoto(cfg, w, w.temps, id, if there then Closing(Exists409()) else Vacant);
      case Vacant =>
        if ok {
          PlainGoto(cfg, w, w.temps[id := map[]], id, Made);
        } else {
          PlainGoto(cfg, w, w.temps, id, Closing(Plainly(500, "")));
        }
      case Unmoved =>
        var there := ok && w.handlers[id].day in w.dirs;
        PlainGoto(cfg, w, w.temps, id, Closing(if there then Exists409() else Plainly(500, "")));
    }
  }

  /** Stages that need no evidence, and an answer of 409 when the directory is there. */
  lemma PlainGoto(cfg: Config, w: World, temps: map<MsgId, Nodes>, id: MsgId, stage: Stage)
    requires Inv(cfg, w) && id in w.handlers && w.handlers[id].stage != Over
    requires OnlyTemp(w.temps, temps, id)
    requires stage == Vacant || stage == Made || stage == Closing(Plainly(500, ""))
             || (stage == Closing(Exists409()) && w.handlers[id].day in w.dirs)
    ensures Preserves(cfg, w, Goto(w.(temps := temps), id, stage))
    ensures temps == w.temps ==> w.(temps := temps) == w
  {
    hide Inv, Preserves, Goto, Verified;
    assert StageOk(cfg, w.(temps := temps), id, w.handlers[id].(stage := stage));
    hide StageOk;
    GotoKeeps(cfg, w, temps, id, stage);
  }

  lemma SelfKept(cfg: Config, w: World)
    requires Inv(cfg, w)
    ensures Preserves(cfg, w, w)
  {
  }

  // ----- every act -----------------------------------------------------------------------------

  lemma NotTakenYet(cfg: Config, w: World, id: MsgId)
    requires Inv(cfg, w) && id !in w.served
    ensures id !in w.replies && id !in w.handlers
  {
    hide AnswerOk, StageOk, SnapsOk, DetachesOk, InstallsOk, NodesOk;
    assert id in w.handlers ==> HandlerOk(cfg, w, id);
  }

  lemma TakeKeeps(cfg: Config, w: World, id: MsgId)
    requires Inv(cfg, w) && id < |w.net| && id !in w.served
    ensures var w' := w.(served := w.served + {id}); Preserves(cfg, w, w') && Taken(w', id)
  {
    hide HandlerOk, AnswerOk, InstallOk, StageOk, DeletedBefore, TreeOf;
    var w' := w.(served := w.served + {id});
    NotTakenYet(cfg, w, id);
    assert Grows(w, w');
    RepliesKept(cfg, w, w');
    DetachesKept(w, w');
    HandlersKept(cfg, w, w', id);
    SnapsKept(w, w');
    InstallsKept(cfg, w, w');
  }

  lemma ServeMsgKeeps(cfg: Config, w: World, id: MsgId, how: How)
    requires Inv(cfg, w) && Taken(w, id)
    ensures Preserves(cfg, w, ServeMsg(cfg, w, id, w.net[id].msg, how))
  {
    hide Inv, Preserves, ServeCreate, ServeDelete, ServeStale, ServeDetach, ServeAttach, ServeUpload;
    match w.net[id].msg {
      case CreateSnapshot(_) => ServeCreateKeeps(cfg, w, id, how);
      case DeleteSnapshot(_) => ServeDeleteKeeps(cfg, w, id, how);
      case DeleteStale => ServeStaleKeeps(cfg, w, id, how);
      case Detach(_) => ServeDetachKeeps(cfg, w, id, how);
      case Receive(day, snap) => ServeUploadKeeps(cfg, w, id, day, false, snap !in w.snaps, how);
      case Attach(_) => ServeAttachKeeps(cfg, w, id, how);
      case Restore(day) => ServeUploadKeeps(cfg, w, id, day, true, false, how);
    }
  }

  lemma CrashKeeps(cfg: Config, w: World)
    requires Inv(cfg, w)
    ensures Preserves(cfg, w, w.(handlers := map[]))
  {
    var w' := w.(handlers := map[]);
    hide AnswerOk, InstallOk, StageOk, DeletedBefore, TreeOf;
    assert Grows(w, w');
    RepliesKept(cfg, w, w');
    DetachesKept(w, w');
    SnapsKept(w, w');
    InstallsKept(cfg, w, w');
  }

  /** A new request on the wire; a detach must be one the target is ready for. */
  lemma SendKeeps(cfg: Config, w: World, packet: Packet)
    requires Inv(cfg, w)
    requires packet.msg.DeleteSnapshot? ==> packet.msg.snap < |w.issued|
    requires packet.msg.Detach? ==> packet.msg.day in w.attached && DeletedBefore(w, |w.net|, packet.msg.day)
    ensures Preserves(cfg, w, w.(net := w.net + [packet]))
  {
    var w' := w.(net := w.net + [packet]);
    hide AnswerOk, InstallOk, StageOk, TreeOf, DeletionOf;
    assert Grows(w, w');
    RepliesKept(cfg, w, w');
    assert |w.net| !in w.handlers by { assert |w.net| in w.handlers ==> HandlerOk(cfg, w, |w.net|); }
    HandlersKept(cfg, w, w', |w.net|);
    SnapsKept(w, w');
    InstallsKept(cfg, w, w');
    SendDetaches(w, w', packet);
  }

  lemma SendDetaches(w: World, w': World, packet: Packet)
    requires DetachesOk(w) && w' == w.(net := w.net + [packet]) && Grows(w, w')
    requires packet.msg.Detach? ==> packet.msg.day in w.attached && DeletedBefore(w, |w.net|, packet.msg.day)
    ensures DetachesOk(w')
  {
    forall j | 0 <= j < |w'.net| && w'.net[j].msg.Detach?
      ensures w'.net[j].msg.day in w'.attached && DeletedBefore(w', j, w'.net[j].msg.day)
    {
      var d := w'.net[j].msg.day;
      assert DeletedBefore(w, j, d);
      var k :| 0 <= k < j && k < |w.net| && DeletionOf(w, k, d);
      DeletionKept(w, w', k, d);
    }
  }

  lemma DoKeeps(cfg: Config, w: World, a: Act)
    requires Sound(cfg) && Inv(cfg, w)
    ensures Preserves(cfg, w, Do(cfg, w, a))
  {
    hide Inv, Sound, ServeMsg, StepHandler, Taken, Grows;
    match a {
      case Take(id, how) =>
        if id < |w.net| && id !in w.served {
          var w' := w.(served := w.served + {id});
          TakeKeeps(cfg, w, id);
          ServeMsgKeeps(cfg, w', id, how);
          GrowsTransitive(w, w', ServeMsg(cfg, w', id, w'.net[id].msg, how));
        } else {
          SelfKept(cfg, w);
        }
      case Step(id, ok) =>
        if id in w.handlers { StepHandlerKeeps(cfg, w, id, ok); } else { SelfKept(cfg, w); }
      case Crash => CrashKeeps(cfg, w);
      case Inject(msg) =>
        if Harmless(w, msg) { SendKeeps(cfg, w, Packet(msg, false)); } else { SelfKept(cfg, w); }
    }
  }

  /** Any number of steps outside the transferring process keep the invariant. */
  lemma {:induction false} SettleKeeps(cfg: Config, w: World, acts: seq<Act>)
    requires Sound(cfg) && Inv(cfg, w)
    ensures Preserves(cfg, w, Settle(cfg, w, acts))
    decreases acts
  {
    hide Inv, Sound, Do, Grows;
    if acts == [] {
      SelfKept(cfg, w);
    } else {
      var w' := Do(cfg, w, acts[0]);
      DoKeeps(cfg, w, acts[0]);
      SettleKeeps(cfg, w', acts[1..]);
      GrowsTransitive(w, w', Settle(cfg, w', acts[1..]));
    }
  }
}
