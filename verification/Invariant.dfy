/**
 What holds of the two nodes in every reachable world, whatever the network and other clients do.
 */
module Invariant {
  import opened Archive
  import opened Integrity
  import opened Delivery
  import opened World

  /** The assumptions: an ideal hash, and sealed partitions that can be sent. */
  ghost predicate Sound(cfg: Config) {
    && CollisionFree(cfg.sha1)
    && (forall d :: d in cfg.sealed ==> PartitionName(d) && Sendable(cfg.sealed[d]))
  }

  /** The sealed day's tree, as a partition directory holds it. */
  function TreeOf(cfg: Config, d: Day): Nodes
    requires d in cfg.sealed
  {
    Flat([], cfg.sealed[d])
  }

  /** The directory is the complete, digest-verified content of the stream. */
  ghost predicate Verified(cfg: Config, day: Day, tmp: MsgId, stream: TarStream, nodes: Nodes) {
    var x := Unpack(cfg.sha1, TmpDir(cfg, day, tmp), stream);
    x.result.Accepted? && x.nodes == nodes
  }

  // ----- the parts of the invariant ------------------------------------------------------------

  /** Every sealed day is on the source or attached on the target, and what the target has is it. */
  ghost predicate NodesOk(cfg: Config, w: World) {
    && w.held <= cfg.sealed.Keys
    && (forall d :: d in cfg.sealed ==> d in w.held || d in w.attached)
    && w.attached <= w.dirs.Keys
    && (forall d :: d in w.dirs && d in cfg.sealed ==> w.dirs[d] == TreeOf(cfg, d))
  }

  /** Snapshots come from requests for them, and only requests that were sent are served. */
  ghost predicate SnapsOk(w: World) {
    && (forall id :: id in w.served ==> id < |w.net|)
    && (forall s :: 0 <= s < |w.issued| ==> w.issued[s] < |w.net| && w.net[w.issued[s]].msg.CreateSnapshot?)
    && (forall j :: 0 <= j < |w.net| && w.net[j].msg.DeleteSnapshot? ==> w.net[j].msg.snap < |w.issued|)
    && (forall s :: s in w.snaps ==> s < |w.issued| && w.net[w.issued[s]].msg == CreateSnapshot(w.snaps[s]))
  }

  ghost predicate StageOk(cfg: Config, w: World, id: MsgId, h: Handler) {
    match h.stage
    case Ready(n) =>
      && id in w.temps && Verified(cfg, h.day, id, h.stream, w.temps[id])
      && (h.day in cfg.sealed ==> n == Size(cfg.sealed[h.day]))
    case Attaching(n) => h.restore && h.day in w.dirs
    case Closing(r) => UploadAnswered(cfg, w, h.day, h.restore, r)
    case Over => id !in w.temps
    case _ => true
  }

  /** What an answer to an upload means. */
  ghost predicate UploadAnswered(cfg: Config, w: World, day: Day, restore: bool, r: Reply) {
    && (r.status == 200 || r.status == 409 ==> day in w.dirs)
    && (r.status == 200 ==> r.readable && !restore && (day in cfg.sealed ==> r.bytes == Size(cfg.sealed[day])))
    && (r.status == 202 ==> day in w.attached)
  }

  predicate Uploads(msg: Msg, day: Day, restore: bool) {
    if restore then msg.Restore? && msg.day == day else msg.Receive? && msg.day == day
  }

  ghost predicate HandlerOk(cfg: Config, w: World, id: MsgId) {
    id in w.handlers ==>
      var h := w.handlers[id];
      && id < |w.net| && id in w.served && Uploads(w.net[id].msg, h.day, h.restore) && PartitionName(h.day)
      && (h.stage != Over ==> id !in w.replies)
      && (h.day in cfg.sealed ==> exists how :: h.stream == Body(cfg, h.day, how))
      && StageOk(cfg, w, id, h)
  }

  ghost predicate HandlersOk(cfg: Config, w: World) {
    forall id :: id in w.handlers ==> HandlerOk(cfg, w, id)
  }

  /** What each answered request is known to mean from then on. */
  ghost predicate AnswerOk(cfg: Config, w: World, msg: Msg, id: MsgId, r: Reply) {
    match msg
    case CreateSnapshot(d) =>
      && (forall i :: 0 <= i < |r.ids| ==> r.ids[i] < |w.issued| && w.issued[r.ids[i]] == id)
      && (forall i, j :: 0 <= i < j < |r.ids| ==> r.ids[i] != r.ids[j])
      && (r.status == 200 && r.readable && r.ids == [] ==> d !in w.held)
    case DeleteSnapshot(s) => s < |w.issued| && (ClaimsGone(r) ==> s !in w.snaps)
    case DeleteStale => true
    case Detach(d) => ClaimsDetached(r) ==> d !in w.held
    case Receive(d, _) => UploadAnswered(cfg, w, d, false, r)
    case Attach(d) => r.status == 200 ==> d in w.attached
    case Restore(d) => UploadAnswered(cfg, w, d, true, r)
  }

  ghost predicate RepliesOk(cfg: Config, w: World) {
    forall id :: id in w.replies ==>
      id < |w.net| && id in w.served && AnswerOk(cfg, w, w.net[id].msg, id, w.replies[id])
  }

  /** Before request `j` a snapshot of the day was deleted for this client, and it was told so. */
  ghost predicate DeletedBefore(w: World, j: MsgId, d: Day) {
    exists k :: 0 <= k < j && k < |w.net| && DeletionOf(w, k, d)
  }

  ghost predicate DeletionOf(w: World, k: MsgId, d: Day)
    requires k < |w.net|
  {
    && w.net[k].mine && w.net[k].msg.DeleteSnapshot? && w.net[k].msg.snap < |w.issued|
    && w.issued[w.net[k].msg.snap] < |w.net| && w.net[w.issued[w.net[k].msg.snap]].msg == CreateSnapshot(d)
    && k in w.replies && ClaimsGone(w.replies[k])
  }

  /** A detach is only ever asked for once the target has the day attached and the snapshot is gone. */
  ghost predicate DetachesOk(w: World) {
    forall j :: 0 <= j < |w.net| && w.net[j].msg.Detach? ==>
      w.net[j].msg.day in w.attached && DeletedBefore(w, j, w.net[j].msg.day)
  }

  /** Each directory was there before or was installed by one rename, of a verified extraction. */
  ghost predicate InstallsOk(cfg: Config, w: World) {
    && (forall i :: 0 <= i < |w.installs| ==> InstallOk(cfg, w, w.installs[i]))
    && (forall i, j :: 0 <= i < j < |w.installs| ==> w.installs[i].day != w.installs[j].day)
    && (forall d :: d in cfg.before ==> d in w.dirs && w.dirs[d] == cfg.before[d])
    && (forall d :: d in w.dirs && d !in cfg.before ==> InstalledOnce(w, d))
  }

  ghost predicate InstallOk(cfg: Config, w: World, i: Install) {
    && i.day in w.dirs && i.day !in cfg.before
    && Verified(cfg, i.day, i.tmp, i.stream, w.dirs[i.day])
    && CameFrom(cfg, w, i)
  }

  /** The stream is the body of a request for that day that was sent and served. */
  ghost predicate CameFrom(cfg: Config, w: World, i: Install) {
    && i.tmp < |w.net| && i.tmp in w.served
    && (Uploads(w.net[i.tmp].msg, i.day, false) || Uploads(w.net[i.tmp].msg, i.day, true))
    && (i.day in cfg.sealed ==> exists how :: i.stream == Body(cfg, i.day, how))
  }

  ghost predicate InstalledOnce(w: World, d: Day) {
    exists i :: 0 <= i < |w.installs| && w.installs[i].day == d
  }

  ghost predicate Inv(cfg: Config, w: World) {
    && NodesOk(cfg, w)
    && SnapsOk(w)
    && HandlersOk(cfg, w)
    && RepliesOk(cfg, w)
    && DetachesOk(w)
    && InstallsOk(cfg, w)
  }

  /** A world before any request: the target has at most true copies of the source's sealed days. */
  ghost predicate Initial(cfg: Config, w: World) {
    && w.held == cfg.sealed.Keys
    && w.dirs == cfg.before && w.attached <= w.dirs.Keys
    && (forall d :: d in w.dirs && d in cfg.sealed ==> w.dirs[d] == TreeOf(cfg, d))
    && w.snaps == map[] && w.issued == [] && w.temps == map[] && w.installs == []
    && w.handlers == map[] && w.net == [] && w.served == {} && w.replies == map[]
  }

  lemma InitialInv(cfg: Config, w: World)
    requires Initial(cfg, w)
    ensures Inv(cfg, w)
  {
  }

  // ----- what only ever grows ------------------------------------------------------------------

  ghost predicate LogGrows(w: World, w': World) {
    && w.net <= w'.net && w.issued <= w'.issued && w.served <= w'.served
    && (forall id :: id in w.replies ==> id in w'.replies && w'.replies[id] == w.replies[id])
  }

  ghost predicate NodesGrow(w: World, w': World) {
    && w'.held <= w.held && w.attached <= w'.attached
    && (forall d :: d in w.dirs ==> d in w'.dirs && w'.dirs[d] == w.dirs[d])
    && (forall s :: s in w'.snaps && s < |w.issued| ==> s in w.snaps && w'.snaps[s] == w.snaps[s])
  }

  ghost predicate Grows(w: World, w': World) { LogGrows(w, w') && NodesGrow(w, w') }

  lemma GrowsTransitive(a: World, b: World, c: World)
    requires Grows(a, b) && Grows(b, c)
    ensures Grows(a, c)
  {
  }

  lemma AnswerKept(cfg: Config, w: World, w': World, id: MsgId)
    requires Grows(w, w') && id in w.replies && id < |w.net| && AnswerOk(cfg, w, w.net[id].msg, id, w.replies[id])
    ensures id < |w'.net| && AnswerOk(cfg, w', w'.net[id].msg, id, w'.replies[id])
  {
    hide ClaimsGone, ClaimsDetached, UploadAnswered;
    assert w'.net[id] == w.net[id];
    var r := w.replies[id];
    match w.net[id].msg {
      case CreateSnapshot(d) =>
        forall i | 0 <= i < |r.ids| ensures r.ids[i] < |w'.issued| && w'.issued[r.ids[i]] == id {
          assert w.issued[r.ids[i]] == id;
        }
      case Receive(d, _) => UploadKept(cfg, w, w', d, false, r);
      case Restore(d) => UploadKept(cfg, w, w', d, true, r);
      case _ =>
    }
  }

  lemma UploadKept(cfg: Config, w: World, w': World, day: Day, restore: bool, r: Reply)
    requires Grows(w, w') && UploadAnswered(cfg, w, day, restore, r)
    ensures UploadAnswered(cfg, w', day, restore, r)
  {
  }

  /** Old answers keep their meaning; only a new one has to be looked at. */
  lemma RepliesKept(cfg: Config, w: World, w': World)
    requires Grows(w, w') && RepliesOk(cfg, w)
    requires forall id :: id in w'.replies && id !in w.replies ==>
               id < |w'.net| && id in w'.served && AnswerOk(cfg, w', w'.net[id].msg, id, w'.replies[id])
    ensures RepliesOk(cfg, w')
  {
    forall id | id in w'.replies
      ensures id < |w'.net| && id in w'.served && AnswerOk(cfg, w', w'.net[id].msg, id, w'.replies[id])
    {
      if id in w.replies { AnswerKept(cfg, w, w', id); }
    }
  }

  lemma DeletionKept(w: World, w': World, k: MsgId, d: Day)
    requires LogGrows(w, w') && k < |w.net| && DeletionOf(w, k, d)
    ensures k < |w'.net| && DeletionOf(w', k, d)
  {
    hide ClaimsGone;
    assert w'.net[k] == w.net[k];
  }

  lemma DetachesKept(w: World, w': World)
    requires Grows(w, w') && DetachesOk(w)
    requires forall j :: |w.net| <= j < |w'.net| ==> !w'.net[j].msg.Detach?
    ensures DetachesOk(w')
  {
    forall j | 0 <= j < |w'.net| && w'.net[j].msg.Detach?
      ensures w'.net[j].msg.day in w'.attached && DeletedBefore(w', j, w'.net[j].msg.day)
    {
      assert w'.net[j] == w.net[j];
      var k :| 0 <= k < j && k < |w.net| && DeletionOf(w, k, w.net[j].msg.day);
      DeletionKept(w, w', k, w.net[j].msg.day);
    }
  }

  /** No temporary directory but this one appeared, changed or went away. */
  ghost predicate OnlyTemp(a: map<MsgId, Nodes>, b: map<MsgId, Nodes>, id: MsgId) {
    forall j :: j != id ==> (j in a <==> j in b) && (j in a ==> b[j] == a[j])
  }

  /** A handler that did not move stays in order. */
  lemma HandlerKept(cfg: Config, w: World, w': World, id: MsgId)
    requires Grows(w, w') && HandlerOk(cfg, w, id) && id in w.handlers
    requires id in w'.handlers && w'.handlers[id] == w.handlers[id]
    requires id in w'.replies ==> id in w.replies
    requires (id in w.temps <==> id in w'.temps) && (id in w.temps ==> w'.temps[id] == w.temps[id])
    ensures HandlerOk(cfg, w', id)
  {
    hide Verified, Body, TreeOf, PartitionName;
    assert w'.net[id] == w.net[id];
  }

  lemma HandlersKept(cfg: Config, w: World, w': World, moved: MsgId)
    requires Grows(w, w') && HandlersOk(cfg, w)
    requires forall id :: id in w'.handlers && id != moved ==> id in w.handlers && w'.handlers[id] == w.handlers[id]
    requires forall id :: id in w'.replies && id != moved ==> id in w.replies
    requires OnlyTemp(w.temps, w'.temps, moved)
    requires moved in w'.handlers ==> HandlerOk(cfg, w', moved)
    ensures HandlersOk(cfg, w')
  {
    forall id | id in w'.handlers ensures HandlerOk(cfg, w', id) {
      if id != moved { HandlerKept(cfg, w, w', id); }
    }
  }

  lemma SnapsKept(w: World, w': World)
    requires SnapsOk(w) && LogGrows(w, w') && w'.issued == w.issued
    requires forall id :: id in w'.served ==> id in w.served || id < |w'.net|
    requires forall s :: s in w'.snaps ==> s in w.snaps && w'.snaps[s] == w.snaps[s]
    requires forall j :: |w.net| <= j < |w'.net| && w'.net[j].msg.DeleteSnapshot? ==> w'.net[j].msg.snap < |w.issued|
    ensures SnapsOk(w')
  {
    forall s | 0 <= s < |w'.issued| ensures w'.issued[s] < |w'.net| && w'.net[w'.issued[s]] == w.net[w.issued[s]] {
    }
  }

  lemma CameFromKept(cfg: Config, w: World, w': World, i: Install)
    requires CameFrom(cfg, w, i) && LogGrows(w, w')
    ensures CameFrom(cfg, w', i)
  {
    hide Body, Uploads;
    assert w'.net[i.tmp] == w.net[i.tmp];
  }

  lemma InstallsKept(cfg: Config, w: World, w': World)
    requires InstallsOk(cfg, w) && LogGrows(w, w') && w'.dirs == w.dirs && w'.installs == w.installs
    ensures InstallsOk(cfg, w')
  {
    hide Verified, CameFrom, LogGrows;
    forall i | 0 <= i < |w'.installs| ensures InstallOk(cfg, w', w'.installs[i]) {
      assert InstallOk(cfg, w, w.installs[i]);
      CameFromKept(cfg, w, w', w.installs[i]);
    }
    forall d | d in w'.dirs && d !in cfg.before ensures InstalledOnce(w', d) {
      assert InstalledOnce(w, d);
    }
  }
}
