/**
 Safety over all runs: no sealed day is ever lost, each partition is installed at most once, and what
 the transferring process is told by its calls is so.
 */
module Safety {
  import opened Archive
  import opened World
  import opened Invariant
  import opened Preservation
  import opened Transfer

  /** What may be sent: only snapshots that were issued, and only a detach the target is ready for. */
  ghost predicate MaySend(w: World, msg: Msg) {
    && (msg.DeleteSnapshot? ==> msg.snap < |w.issued|)
    && (msg.Detach? ==> msg.day in w.attached && DeletedBefore(w, |w.net|, msg.day))
  }

  /** One call keeps the invariant, and its answer means what it says. */
  lemma ExchangeKeeps(cfg: Config, env: Env, w: World, msg: Msg)
    requires Sound(cfg) && Inv(cfg, w) && MaySend(w, msg)
    ensures var (w', got) := Exchange(cfg, env, w, msg);
            && Preserves(cfg, w, w')
            && |w.net| < |w'.net| && w'.net[|w.net|] == Packet(msg, true)
            && (got.Got? ==> |w.net| in w'.replies && w'.replies[|w.net|] == got.reply
                             && AnswerOk(cfg, w', msg, |w.net|, got.reply))
  {
    hide Settle, Sound, Inv, Grows, DeletedBefore, AnswerOk;
    SendKeeps(cfg, w, Packet(msg, true));
    var sent := Sent(w, msg);
    SettleKeeps(cfg, sent, env(sent).acts);
    var w' := Settle(cfg, sent, env(sent).acts);
    GrowsTransitive(w, sent, w');
    LogStays(sent, w', |w.net|);
    if |w.net| in w'.replies { AnswerAt(cfg, w', |w.net|); }
  }

  lemma LogStays(w: World, w': World, id: MsgId)
    requires Grows(w, w') && id < |w.net|
    ensures id < |w'.net| && w'.net[id] == w.net[id]
  {
  }

  lemma AnswerAt(cfg: Config, w: World, id: MsgId)
    requires Inv(cfg, w) && id in w.replies
    ensures id < |w.net| && AnswerOk(cfg, w, w.net[id].msg, id, w.replies[id])
  {
    hide AnswerOk;
  }

  // ----- what the calls mean -------------------------------------------------------------------

  /** The snapshot was taken of this day by this very request. */
  ghost predicate TakenOf(w: World, snap: SnapId, day: Day) {
    snap < |w.issued| && w.issued[snap] < |w.net| && w.net[w.issued[snap]].msg == CreateSnapshot(day)
  }

  lemma TakenKept(w: World, w': World, snap: SnapId, day: Day)
    requires TakenOf(w, snap, day) && Grows(w, w')
    ensures TakenOf(w', snap, day)
  {
    assert w'.issued[snap] == w.issued[snap];
    assert w'.net[w.issued[snap]] == w.net[w.issued[snap]];
  }

  /** Snapshots a call returns are new, of the day asked for, and all different. */
  lemma CreateMeans(cfg: Config, env: Env, w: World, day: Day)
    requires Sound(cfg) && Inv(cfg, w)
    ensures var (w', c) := Create(cfg, env, w, day);
            && Preserves(cfg, w, w')
            && (c.Paths? ==> FreshOf(w, w', c.ids, day))
            && (c.Paths? && c.ids == [] ==> day !in w'.held)
  {
    ExchangeKeeps(cfg, env, w, CreateSnapshot(day));
    var (w', got) := Exchange(cfg, env, w, CreateSnapshot(day));
    assert SnapsOk(w);
    hide Exchange, Inv, Preserves;
    if got.Got? {
      forall i | 0 <= i < |got.reply.ids| ensures |w.issued| <= got.reply.ids[i] && TakenOf(w', got.reply.ids[i], day) {
        var s := got.reply.ids[i];
        assert s < |w'.issued| && w'.issued[s] == |w.net|;
        OldIssue(cfg, w, w', s);
      }
    }
  }

  lemma OldIssue(cfg: Config, w: World, w': World, s: SnapId)
    requires SnapsOk(w) && Preserves(cfg, w, w') && s < |w'.issued| && w'.issued[s] == |w.net|
    ensures |w.issued| <= s
  {
    if s < |w.issued| {
      IssueKept(w, w', s);
      assert false;
    }
  }

  lemma IssueKept(w: World, w': World, s: SnapId)
    requires SnapsOk(w) && Grows(w, w') && s < |w.issued|
    ensures s < |w'.issued| && w'.issued[s] < |w.net|
  {
    assert w'.issued[s] == w.issued[s];
  }

  ghost predicate FreshOf(w: World, w': World, ids: seq<SnapId>, day: Day) {
    && (forall i :: 0 <= i < |ids| ==> |w.issued| <= ids[i] && TakenOf(w', ids[i], day))
    && (forall i, j :: 0 <= i < j < |ids| ==> ids[i] != ids[j])
  }

  /** A delete that succeeded: the snapshot is gone for good, and the log shows it. */
  lemma DeleteMeans(cfg: Config, env: Env, w: World, snap: SnapId, day: Day)
    requires Sound(cfg) && Inv(cfg, w) && TakenOf(w, snap, day)
    ensures var (w', e) := Delete(cfg, env, w, snap);
            && Preserves(cfg, w, w') && TakenOf(w', snap, day)
            && (e == Done ==> snap !in w'.snaps && DeletedBefore(w', |w'.net|, day))
  {
    ExchangeKeeps(cfg, env, w, DeleteSnapshot(snap));
    var (w', got) := Exchange(cfg, env, w, DeleteSnapshot(snap));
    TakenKept(w, w', snap, day);
    if got.Got? { DeleteOkReads(got.reply); }
    hide Exchange, Inv, DeleteOk, ClaimsGone;
    if got.Got? && DeleteOk(got.reply) { assert DeletionOf(w', |w.net|, day); }
  }

  lemma AttachedStays(w: World, w': World, day: Day)
    requires Grows(w, w') && day in w.attached
    ensures day in w'.attached
  {
  }

  lemma DetachMeans(cfg: Config, env: Env, w: World, day: Day)
    requires Sound(cfg) && Inv(cfg, w) && day in w.attached && DeletedBefore(w, |w.net|, day)
    ensures var (w', e) := DetachDay(cfg, env, w, day);
            Preserves(cfg, w, w') && (e == Done ==> day !in w'.held)
  {
    hide Exchange, Inv, Sound, Preserves, DetachOk, ClaimsDetached, DeletedBefore;
    ExchangeKeeps(cfg, env, w, Detach(day));
    var (_, got) := Exchange(cfg, env, w, Detach(day));
    if got.Got? { DetachOkReads(got.reply); }
  }

  lemma {:induction false} AttachMeans(cfg: Config, env: Env, w: World, day: Day, attempt: nat)
    requires Sound(cfg) && Inv(cfg, w)
    ensures var (w', e) := AttachPeer(cfg, env, w, day, attempt);
            Preserves(cfg, w, w') && (e == Done ==> day in w'.attached)
    decreases MAX_ATTEMPTS - attempt
  {
    hide Inv, Grows, Sound, Exchange, DeletedBefore;
    if attempt >= MAX_ATTEMPTS {
      SelfKept(cfg, w);
    } else {
      ExchangeKeeps(cfg, env, w, Attach(day));
      var (w1, got) := Exchange(cfg, env, w, Attach(day));
      var next := AttachPeer(cfg, env, w1, day, attempt + 1);
      assert AttachPeer(cfg, env, w, day, attempt) ==
             match got
             case Dead(p) => (w1, Halted(p))
             case Nothing => next
             case Got(r) => if r.status == 200 then (w1, Done) else if r.status >= 500 then next else (w1, Failed);
      hide AttachPeer;
      AttachMeans(cfg, env, w1, day, attempt + 1);
      GrowsTransitive(w, w1, next.0);
    }
  }

  /** How an attempt ends, given what the remaining attempts would lead to. */
  function AfterSend(w: World, got: Got, next: (World, Sending)): (World, Sending) {
    match got
    case Dead(p) => (w, SendHalted(p))
    case Nothing => next
    case Got(r) =>
      if r.status == 200 then (w, if r.readable then Received(r.bytes) else NotSent)
      else if r.status == 409 then (w, Conflict)
      else if RetrySend(r) then next
      else (w, NotSent)
  }

  lemma SendUnfolds(cfg: Config, env: Env, w: World, day: Day, snap: SnapId, attempt: nat)
    requires attempt < MAX_ATTEMPTS
    ensures var (w1, got) := Exchange(cfg, env, w, Receive(day, snap));
            Send(cfg, env, w, day, snap, attempt) == AfterSend(w1, got, Send(cfg, env, w1, day, snap, attempt + 1))
  {
    hide Exchange, RetrySend;
  }

  ghost predicate SendTold(cfg: Config, w: World, day: Day, s: Sending) {
    && (s.Received? || s.Conflict? ==> day in w.dirs)
    && (s.Received? && day in cfg.sealed ==> s.bytes == Size(cfg.sealed[day]))
  }

  lemma AfterSendTold(cfg: Config, w: World, day: Day, got: Got, next: (World, Sending))
    requires got.Got? ==> UploadAnswered(cfg, w, day, false, got.reply)
    requires SendTold(cfg, next.0, day, next.1)
    ensures var end := AfterSend(w, got, next); SendTold(cfg, end.0, day, end.1) && (end.0 == w || end.0 == next.0)
  {
    hide RetrySend;
  }

  /**
   Exactly-once placement: however many of its attempts were delivered, and whatever else arrived,
   when the sender is told 200 or 409 the directory is there; the count it is told is the tree's size.
   */
  lemma {:induction false} SendMeans(cfg: Config, env: Env, w: World, day: Day, snap: SnapId, attempt: nat)
    requires Sound(cfg) && Inv(cfg, w)
    ensures var (w', s) := Send(cfg, env, w, day, snap, attempt); Preserves(cfg, w, w') && SendTold(cfg, w', day, s)
    decreases MAX_ATTEMPTS - attempt
  {
    if attempt >= MAX_ATTEMPTS {
      SelfKept(cfg, w);
    } else {
      ExchangeKeeps(cfg, env, w, Receive(day, snap));
      SendUnfolds(cfg, env, w, day, snap, attempt);
      var (w1, got) := Exchange(cfg, env, w, Receive(day, snap));
      var next := Send(cfg, env, w1, day, snap, attempt + 1);
      hide Exchange, Inv, Grows, Sound, Send, AfterSend, UploadAnswered, SendTold;
      SendMeans(cfg, env, w1, day, snap, attempt + 1);
      AfterSendTold(cfg, w1, day, got, next);
      GrowsTransitive(w, w1, next.0);
    }
  }

  /** How often a day's directory was installed. */
  function Placements(installs: seq<Install>, day: Day): nat {
    if installs == [] then 0
    else Placements(installs[..|installs| - 1], day) + if installs[|installs| - 1].day == day then 1 else 0
  }

  lemma {:induction false} PlacementsOnce(installs: seq<Install>, day: Day)
    requires forall i, j :: 0 <= i < j < |installs| ==> installs[i].day != installs[j].day
    ensures Placements(installs, day) == if exists i :: 0 <= i < |installs| && installs[i].day == day then 1 else 0
  {
    if installs != [] {
      var n := |installs| - 1;
      PlacementsOnce(installs[..n], day);
      assert forall i :: 0 <= i < n ==> installs[..n][i] == installs[i];
    }
  }

  /**
   A visible directory was there from the start or was placed exactly once, and for a sealed day it
   is the sealed tree.
   */
  lemma PlacedOnce(cfg: Config, w: World, day: Day)
    requires Inv(cfg, w) && day in w.dirs
    ensures Placements(w.installs, day) == if day in cfg.before then 0 else 1
    ensures day in cfg.sealed ==> w.dirs[day] == TreeOf(cfg, day)
  {
    hide InstallOk, TreeOf, HandlersOk, RepliesOk, DetachesOk, SnapsOk;
    PlacementsOnce(w.installs, day);
    if day in cfg.before {
      forall i | 0 <= i < |w.installs| ensures w.installs[i].day != day {
        InstallAt(cfg, w, i);
      }
    } else {
      assert InstalledOnce(w, day);
    }
  }

  lemma InstallAt(cfg: Config, w: World, i: nat)
    requires InstallsOk(cfg, w) && i < |w.installs|
    ensures w.installs[i].day !in cfg.before
  {
    assert InstallOk(cfg, w, w.installs[i]);
  }

  /** SendPartition, whole: at most three requests of its own, and a success means placed exactly once. */
  lemma SendPlacesOnce(cfg: Config, env: Env, w: World, day: Day, snap: SnapId)
    requires Sound(cfg) && Inv(cfg, w) && day in cfg.sealed
    ensures var (w', s) := Send(cfg, env, w, day, snap, 0);
            s.Received? || s.Conflict? ==>
              && day in w'.dirs && w'.dirs[day] == TreeOf(cfg, day)
              && Placements(w'.installs, day) == if day in cfg.before then 0 else 1
  {
    SendMeans(cfg, env, w, day, snap, 0);
    var (w', s) := Send(cfg, env, w, day, snap, 0);
    hide Send, Inv, Sound, Placements, TreeOf;
    if s.Received? || s.Conflict? { PlacedOnce(cfg, w', day); }
  }

  // ----- a day, and all days -------------------------------------------------------------------

  lemma {:induction false} DeleteAllKeeps(cfg: Config, env: Env, w: World, ids: seq<SnapId>, day: Day)
    requires Sound(cfg) && Inv(cfg, w) && forall i :: 0 <= i < |ids| ==> TakenOf(w, ids[i], day)
    ensures Preserves(cfg, w, DeleteAll(cfg, env, w, ids).0)
    decreases ids
  {
    if ids == [] {
      SelfKept(cfg, w);
    } else {
      DeleteMeans(cfg, env, w, ids[0], day);
      var (w1, e) := Delete(cfg, env, w, ids[0]);
      forall i | 0 <= i < |ids[1..]| ensures TakenOf(w1, ids[1..][i], day) {
        TakenKept(w, w1, ids[i + 1], day);
      }
      hide Delete, Inv, Grows, Sound, TakenOf;
      if !e.Halted? {
        DeleteAllKeeps(cfg, env, w1, ids[1..], day);
        GrowsTransitive(w, w1, DeleteAll(cfg, env, w1, ids[1..]).0);
      }
    }
  }

  /** What a day's end tells of the two nodes. */
  predicate EndMeans(w: World, day: Day, end: DayEnd) {
    && (end == Transferred ==> day in w.attached && day !in w.held)
    && (end == Skipped ==> day !in w.held)
  }

  lemma GoneMeans(w: World, day: Day)
    ensures forall p :: EndMeans(w, day, Gone(p))
  {
  }

  lemma CleanAndDetachKeeps(cfg: Config, env: Env, w: World, day: Day, snap: SnapId)
    requires Sound(cfg) && Inv(cfg, w) && TakenOf(w, snap, day) && day in w.attached
    ensures var m := CleanAndDetach(cfg, env, w, day, snap);
            Preserves(cfg, w, m.w) && EndMeans(m.w, day, m.end)
  {
    hide Delete, DetachDay, Inv, Sound, TakenOf, DeletedBefore, LogGrows;
    DeleteMeans(cfg, env, w, snap, day);
    var (w1, e) := Delete(cfg, env, w, snap);
    if e == Done {
      DetachMeans(cfg, env, w1, day);
      GrowsTransitive(w, w1, DetachDay(cfg, env, w1, day).0);
    }
  }

  lemma GiveUpKeeps(cfg: Config, env: Env, w: World, snap: SnapId, stage: string, day: Day)
    requires Sound(cfg) && Inv(cfg, w) && TakenOf(w, snap, day)
    ensures var m := GiveUp(cfg, env, w, snap, stage); Preserves(cfg, w, m.w) && EndMeans(m.w, day, m.end)
  {
    DeleteMeans(cfg, env, w, snap, day);
    hide Delete, Preserves;
  }

  lemma AttachAndFinishKeeps(cfg: Config, env: Env, w: World, day: Day, snap: SnapId)
    requires Sound(cfg) && Inv(cfg, w) && TakenOf(w, snap, day)
    ensures var m := AttachAndFinish(cfg, env, w, day, snap);
            Preserves(cfg, w, m.w) && EndMeans(m.w, day, m.end)
  {
    hide AttachPeer, CleanAndDetach, Inv, Sound, TakenOf, Grows, GiveUp, EndMeans;
    AttachMeans(cfg, env, w, day, 0);
    var (w1, a) := AttachPeer(cfg, env, w, day, 0);
    TakenKept(w, w1, snap, day);
    GoneMeans(w1, day);
    if a == Failed {
      GiveUpKeeps(cfg, env, w1, snap, "attach", day);
      GrowsTransitive(w, w1, GiveUp(cfg, env, w1, snap, "attach").w);
    } else if a == Done {
      CleanAndDetachKeeps(cfg, env, w1, day, snap);
      GrowsTransitive(w, w1, CleanAndDetach(cfg, env, w1, day, snap).w);
    }
  }

  lemma MoveSnapshotKeeps(cfg: Config, env: Env, w: World, day: Day, snap: SnapId)
    requires Sound(cfg) && Inv(cfg, w) && TakenOf(w, snap, day)
    ensures var m := MoveSnapshot(cfg, env, w, day, snap);
            Preserves(cfg, w, m.w) && EndMeans(m.w, day, m.end)
  {
    hide Send, AttachAndFinish, Inv, Sound, TakenOf, Grows, GiveUp, EndMeans, SendTold;
    SendMeans(cfg, env, w, day, snap, 0);
    var (w1, s) := Send(cfg, env, w, day, snap, 0);
    TakenKept(w, w1, snap, day);
    GoneMeans(w1, day);
    if s.NotSent? {
      GiveUpKeeps(cfg, env, w1, snap, "stream", day);
      GrowsTransitive(w, w1, GiveUp(cfg, env, w1, snap, "stream").w);
    } else if !s.SendHalted? {
      AttachAndFinishKeeps(cfg, env, w1, day, snap);
      GrowsTransitive(w, w1, AttachAndFinish(cfg, env, w1, day, snap).w);
    }
  }

  /** One day, however it ends; a day reported transferred or skipped has left the source. */
  lemma MoveDayKeeps(cfg: Config, env: Env, w: World, day: Day)
    requires Sound(cfg) && Inv(cfg, w)
    ensures var m := MoveDay(cfg, env, w, day);
            Preserves(cfg, w, m.w) && EndMeans(m.w, day, m.end)
  {
    hide Create, DeleteAll, MoveSnapshot, Inv, Sound, TakenOf, Grows;
    CreateMeans(cfg, env, w, day);
    var (w1, c) := Create(cfg, env, w, day);
    if c.Paths? && |c.ids| == 1 {
      MoveSnapshotKeeps(cfg, env, w1, day, c.ids[0]);
      GrowsTransitive(w, w1, MoveSnapshot(cfg, env, w1, day, c.ids[0]).w);
    } else if c.Paths? && |c.ids| > 1 {
      DeleteAllKeeps(cfg, env, w1, c.ids, day);
      GrowsTransitive(w, w1, DeleteAll(cfg, env, w1, c.ids).0);
    }
  }

  lemma {:induction false} MoveDaysKeeps(cfg: Config, env: Env, run: Run, days: seq<Day>)
    requires Sound(cfg) && Inv(cfg, run.w)
    ensures Preserves(cfg, run.w, MoveDays(cfg, env, run, days).w)
    decreases days
  {
    hide Inv, Sound, Grows, MoveDay;
    if days == [] {
      SelfKept(cfg, run.w);
    } else {
      var m := MoveDay(cfg, env, run.w, days[0]);
      MoveDayKeeps(cfg, env, run.w, days[0]);
      if m.end.Transferred? || m.end.Skipped? {
        MoveDaysKeeps(cfg, env, Added(run, days[0], m), days[1..]);
        GrowsTransitive(run.w, m.w, MoveDays(cfg, env, Added(run, days[0], m), days[1..]).w);
      }
    }
  }

  lemma RunKeeps(cfg: Config, env: Env, w: World, days: seq<Day>)
    requires Sound(cfg) && Inv(cfg, w)
    ensures Preserves(cfg, w, RunTransfer(cfg, env, w, days).w)
  {
    ExchangeKeeps(cfg, env, w, DeleteStale);
    var (w1, got) := Exchange(cfg, env, w, DeleteStale);
    hide Exchange, Inv, Sound, Grows, MoveDays;
    if !got.Dead? {
      MoveDaysKeeps(cfg, env, Run(w1, Blank(), Finished, [], []), days);
      GrowsTransitive(w, w1, MoveDays(cfg, env, Run(w1, Blank(), Finished, [], []), days).w);
    }
  }

  // ----- all histories -------------------------------------------------------------------------

  /** A history: transfer runs, each over its own days in its own environment, and what happens between. */
  datatype Leg = Go(env: Env, days: seq<Day>) | Idle(acts: seq<Act>)

  function After(cfg: Config, w: World, legs: seq<Leg>): World
    decreases legs
  {
    if legs == [] then w
    else
      var w' := match legs[0]
                case Go(env, days) => RunTransfer(cfg, env, w, days).w
                case Idle(acts) => Settle(cfg, w, acts);
      After(cfg, w', legs[1..])
  }

  lemma {:induction false} AfterKeeps(cfg: Config, w: World, legs: seq<Leg>)
    requires Sound(cfg) && Inv(cfg, w)
    ensures Preserves(cfg, w, After(cfg, w, legs))
    decreases legs
  {
    hide Inv, Sound, Grows, RunTransfer, Settle;
    if legs == [] {
      SelfKept(cfg, w);
    } else {
      var w' := match legs[0]
                case Go(env, days) => RunTransfer(cfg, env, w, days).w
                case Idle(acts) => Settle(cfg, w, acts);
      match legs[0] {
        case Go(env, days) => RunKeeps(cfg, env, w, days);
        case Idle(acts) => SettleKeeps(cfg, w, acts);
      }
      AfterKeeps(cfg, w', legs[1..]);
      GrowsTransitive(w, w', After(cfg, w', legs[1..]));
    }
  }

  /** Still on the source, or attached on the target with the identical tree. */
  ghost predicate Safe(cfg: Config, w: World, day: Day)
    requires day in cfg.sealed
  {
    day in w.held || (day in w.attached && day in w.dirs && w.dirs[day] == TreeOf(cfg, day))
  }

  /**
   No data loss. A run killed at any of its calls is itself a run, and a prefix of what its
   environment did is what another environment does, so the end of a history is any reachable world.
   */
  lemma NoDataLoss(cfg: Config, w: World, legs: seq<Leg>, day: Day)
    requires Sound(cfg) && Initial(cfg, w) && day in cfg.sealed
    ensures Safe(cfg, After(cfg, w, legs), day)
  {
    hide After, Sound, Grows;
    InitialInv(cfg, w);
    AfterKeeps(cfg, w, legs);
    assert NodesOk(cfg, After(cfg, w, legs));
  }

  /** The directory is what one rename installed: the verified extraction of what a request brought. */
  ghost predicate InstalledBy(cfg: Config, w: World, day: Day, i: nat)
    requires day in w.dirs
  {
    && i < |w.installs| && w.installs[i].day == day
    && Verified(cfg, day, w.installs[i].tmp, w.installs[i].stream, w.dirs[day])
    && CameFrom(cfg, w, w.installs[i])
  }

  /**
   Every visible directory was there from the start, or was installed by exactly one rename, and is the
   complete, digest-verified extraction of the stream of a served receive or restore of that day.
   */
  lemma VisibleIsVerified(cfg: Config, w: World, legs: seq<Leg>, day: Day)
    requires Sound(cfg) && Initial(cfg, w) && day in After(cfg, w, legs).dirs
    ensures var now := After(cfg, w, legs);
            if day in cfg.before then now.dirs[day] == cfg.before[day] && Placements(now.installs, day) == 0
            else Placements(now.installs, day) == 1 && exists i :: InstalledBy(cfg, now, day, i)
  {
    hide After, Sound, Grows, Verified, CameFrom, Placements;
    InitialInv(cfg, w);
    AfterKeeps(cfg, w, legs);
    var w' := After(cfg, w, legs);
    hide HandlersOk, RepliesOk, DetachesOk, SnapsOk, NodesOk;
    PlacedOnce(cfg, w', day);
    if day !in cfg.before {
      assert InstalledOnce(w', day);
      var i :| 0 <= i < |w'.installs| && w'.installs[i].day == day;
      assert InstallOk(cfg, w', w'.installs[i]);
      assert InstalledBy(cfg, w', day, i);
    }
  }

  /** A handler that has answered has no temporary directory any more. */
  lemma NoLeftovers(cfg: Config, w: World, legs: seq<Leg>, id: MsgId)
    requires Sound(cfg) && Initial(cfg, w)
    ensures var now := After(cfg, w, legs); id in now.handlers && now.handlers[id].stage == Over ==> id !in now.temps
  {
    hide After, Sound, Grows, Inv;
    InitialInv(cfg, w);
    AfterKeeps(cfg, w, legs);
    var now := After(cfg, w, legs);
    if id in now.handlers { HandlerAt(cfg, now, id); }
  }

  /** Once visible, a directory never changes or disappears, and nothing is installed over it. */
  lemma VisibleIsFinal(cfg: Config, w: World, past: seq<Leg>, future: seq<Leg>, day: Day)
    requires Sound(cfg) && Initial(cfg, w) && day in After(cfg, w, past).dirs
    ensures var now := After(cfg, w, past);
            var later := After(cfg, now, future);
            && day in later.dirs && later.dirs[day] == now.dirs[day]
            && Placements(later.installs, day) == Placements(now.installs, day) <= 1
  {
    hide After, Sound, Inv, Placements;
    InitialInv(cfg, w);
    AfterKeeps(cfg, w, past);
    var now := After(cfg, w, past);
    AfterKeeps(cfg, now, future);
    PlacedOnce(cfg, now, day);
    PlacedOnce(cfg, After(cfg, now, future), day);
  }
}
