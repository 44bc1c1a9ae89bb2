/**
 Environments that a run gets through: requests are served without fault, but for such failures of an
 upload or an attach as the client tries again after; and what each of its calls then comes to.
 */
module Fairness {
  import opened Paths
  import opened Archive
  import opened Delivery
  import opened World
  import opened Invariant
  import opened Preservation
  import opened Transfer
  import opened Safety
  import opened Bookkeeping

  // ----- an environment a run gets through -------------------------------------------------------

  /** Served without fault: done, and said so; one snapshot for a day; the archive arrives as sent. */
  predicate Faultless(cfg: Config, msg: Msg, how: How) {
    && how.effect && how.status == 200 && how.extra == 0
    && (msg.Receive? && msg.day in cfg.sealed ==> Body(cfg, msg.day, how) == Stream(cfg.sha1, cfg.sealed[msg.day]))
  }

  predicate OnTarget(msg: Msg) { msg.Receive? || msg.Attach? || msg.Restore? }

  /** Serving or handling the request itself, without fault. */
  predicate Own(cfg: Config, w: World, id: MsgId, a: Act) {
    || (a.Take? && a.id == id && id < |w.net| && Faultless(cfg, w.net[id].msg, a.how))
    || a == Step(id, true)
  }

  /**
   Others may do anything on the target meanwhile, with or without faults: late requests of earlier
   runs, restores and pushes. On the source nothing else is served, and the target does not crash.
   */
  predicate Quiet(w: World, id: MsgId, a: Act) {
    match a
    case Take(j, _) => j != id && (j < |w.net| ==> OnTarget(w.net[j].msg))
    case Step(j, _) => j != id
    case Crash => false
    case Inject(_) => true
  }

  predicate Smooth(cfg: Config, w: World, id: MsgId, acts: seq<Act>)
    decreases acts
  {
    acts == [] || ((Own(cfg, w, id, acts[0]) || Quiet(w, id, acts[0]))
        && Smooth(cfg, Do(cfg, w, acts[0]), id, acts[1..]))
  }

  /** A request of the transfer has just been sent. */
  ghost predicate JustSent(cfg: Config, w: World) {
    Inv(cfg, w) && w.net != [] && w.net[|w.net| - 1].mine && |w.net| - 1 !in w.served
  }

  /**
   Every request of the transfer is served without fault and its answer heard, save that an upload or an
   attach may fail in a way the client tries again after, as long as an attempt is left.
   */
  ghost predicate Fair(cfg: Config, env: Env) {
    forall w {:trigger env(w)} :: JustSent(cfg, w) ==> Serves(cfg, w, env(w)) || Stumbles(cfg, w, env(w))
  }

  predicate Serves(cfg: Config, w: World, fate: Fate)
    requires w.net != []
  {
    && fate.seen == Heard && Smooth(cfg, w, |w.net| - 1, fate.acts)
    && |w.net| - 1 in Settle(cfg, w, fate.acts).replies
  }

  predicate ToPeer(msg: Msg) { msg.Receive? || msg.Attach? }

  /** How often this message ends the list, in a row. */
  function Trail(msgs: seq<Msg>, m: Msg): nat {
    if msgs == [] || msgs[|msgs| - 1] != m then 0 else 1 + Trail(msgs[..|msgs| - 1], m)
  }

  /** An answer the peer client tries again after. */
  predicate Transient(msg: Msg, r: Reply) {
    || (ToPeer(msg) && r.status >= 500)
    || (msg.Receive? && r.status == 400 && Quotes(r.body, "checksum mismatch"))
  }

  /** Anything at all on the target, a crash included; nothing is served on the source. */
  predicate Mild(cfg: Config, w: World, acts: seq<Act>)
    decreases acts
  {
    acts == [] || ((acts[0].Take? && acts[0].id < |w.net| ==> OnTarget(w.net[acts[0].id].msg))
        && Mild(cfg, Do(cfg, w, acts[0]), acts[1..]))
  }

  /** A request to the peer is lost, or its reply is, or it fails transiently; it was not the last attempt. */
  predicate Stumbles(cfg: Config, w: World, fate: Fate)
    requires w.net != []
  {
    var id, msg, w' := |w.net| - 1, w.net[|w.net| - 1].msg, Settle(cfg, w, fate.acts);
    && ToPeer(msg) && Trail(Mine(w.net), msg) < MAX_ATTEMPTS
    && Mild(cfg, w, fate.acts)
    && (fate.seen == Unheard || (fate.seen == Heard && (id in w'.replies ==> Transient(msg, w'.replies[id]))))
  }

  // ----- what others do does not matter ----------------------------------------------------------

  predicate Untouched(w: World, w': World) { w'.held == w.held && w'.snaps == w.snaps && w'.issued == w.issued }

  /** Nothing of the source, and nothing of this request, changed. */
  predicate Apart(w: World, w': World, id: MsgId) {
    && Untouched(w, w')
    && (id in w'.served <==> id in w.served)
    && (id in w'.replies <==> id in w.replies) && (id in w.replies ==> w'.replies[id] == w.replies[id])
    && (id in w'.handlers <==> id in w.handlers) && (id in w.handlers ==> w'.handlers[id] == w.handlers[id])
    && (id in w'.temps <==> id in w.temps) && (id in w.temps ==> w'.temps[id] == w.temps[id])
  }

  lemma ServedApart(cfg: Config, w: World, j: MsgId, how: How, id: MsgId)
    requires j != id && (j < |w.net| ==> OnTarget(w.net[j].msg))
    ensures Apart(w, Serve(cfg, w, j, how), id)
  {
    if j < |w.net| && j !in w.served {
      var w1, msg := w.(served := w.served + {j}), w.net[j].msg;
      var w2 := Serve(cfg, w, j, how);
      assert w2 == ServeMsg(cfg, w1, j, msg, how);
      if msg.Attach? {
        AttachApart(w1, j, msg.day, how, id);
        assert w2 == ServeAttach(w1, j, msg.day, how);
      } else {
        var lost := msg.Receive? && msg.snap !in w.snaps;
        UploadApart(cfg, w1, j, msg.day, msg.Restore?, lost, how, id);
        assert w2 == ServeUpload(cfg, w1, j, msg.day, msg.Restore?, lost, how);
      }
      hide *;
      TakenApart(w, w1, w2, j, id);
    }
  }

  lemma TakenApart(w: World, w1: World, w2: World, j: MsgId, id: MsgId)
    requires j != id && w1 == w.(served := w.served + {j}) && Apart(w1, w2, id)
    ensures Apart(w, w2, id)
  {
  }

  lemma AttachApart(w: World, j: MsgId, day: Day, how: How, id: MsgId)
    requires j != id
    ensures Apart(w, ServeAttach(w, j, day, how), id)
  {
    hide PartitionName, AttachOk, ClaimsAttached;
  }

  lemma UploadApart(cfg: Config, w: World, j: MsgId, day: Day, restore: bool, lost: bool, how: How, id: MsgId)
    requires j != id
    ensures Apart(w, ServeUpload(cfg, w, j, day, restore, lost, how), id)
  {
    hide PartitionName, Body;
  }

  lemma SteppedApart(cfg: Config, w: World, j: MsgId, ok: bool, id: MsgId)
    requires j != id && j in w.handlers
    ensures Apart(w, StepHandler(cfg, w, j, ok), id)
  {
    match w.handlers[j].stage {
      case Made => ExtractApart(cfg, w, j, ok, id);
      case Ready(bytes) => RenameApart(w, j, bytes, ok, id);
      case _ =>
    }
    hide StepExtract, StepRename;
  }

  lemma ExtractApart(cfg: Config, w: World, j: MsgId, ok: bool, id: MsgId)
    requires j != id && j in w.handlers
    ensures Apart(w, StepExtract(cfg, w, j, ok), id)
  {
    hide Unpack, TmpDir, Rejection;
  }

  lemma RenameApart(w: World, j: MsgId, bytes: nat, ok: bool, id: MsgId)
    requires j != id && j in w.handlers
    ensures Apart(w, StepRename(w, j, bytes, ok), id)
  {
  }

  lemma QuietApart(cfg: Config, w: World, id: MsgId, a: Act)
    requires Quiet(w, id, a)
    ensures Apart(w, Do(cfg, w, a), id)
  {
    match a {
      case Take(j, how) => ServedApart(cfg, w, j, how, id);
      case Step(j, ok) => if j in w.handlers { SteppedApart(cfg, w, j, ok, id); }
      case Inject(_) =>
    }
    hide Serve, StepHandler;
  }

  // ----- a faultless request stays on track ------------------------------------------------------

  /** What each request needs in order to succeed. */
  ghost predicate Able(cfg: Config, w: World, msg: Msg) {
    match msg
    case DeleteSnapshot(s) => s in w.snaps && w.snaps[s] in w.held
    case Attach(d) => d in w.dirs && PartitionName(d)
    case Receive(d, s) => d in cfg.sealed && s in w.snaps
    case Restore(_) => false
    case _ => true
  }

  /** Where an undamaged upload can be on its way to a 200 or a 409. */
  ghost predicate HandlerWell(cfg: Config, w: World, h: Handler, id: MsgId, day: Day) {
    && h.day == day && !h.restore && day in cfg.sealed && h.stream == Stream(cfg.sha1, cfg.sealed[day])
    && match h.stage
       case Ready(_) => id in w.temps
       case Unmoved => day in w.dirs
       case Attaching(_) => false
       case Closing(r) => PlacedSaid(r)
       case Over => false
       case _ => true
  }

  predicate PlacedSaid(r: Reply) { (r.status == 200 && r.readable) || r.status == 409 }

  /** The snapshot taken when the day was there, and none when it was not. */
  predicate CreatedWell(w: World, w': World, day: Day, r: Reply) {
    && w'.held == w.held && r.status == 200 && r.readable
    && if day in w.held then r.ids == [|w.issued|] && w'.snaps == w.snaps[|w.issued| := day] else r.ids == []
  }

  /** From the world just after the request was sent to one in which it is served without fault. */
  ghost predicate OnTrack(cfg: Config, w: World, w': World, id: MsgId)
    requires id < |w.net|
  {
    if id !in w'.served then Untouched(w, w')
    else
      match w.net[id].msg
      case CreateSnapshot(d) => id in w'.replies && CreatedWell(w, w', d, w'.replies[id])
      case DeleteSnapshot(s) =>
        id in w'.replies && w'.replies[id].status == 200 && w'.held == w.held && w'.issued == w.issued
            && w'.snaps == w.snaps - {s}
      case DeleteStale => id in w'.replies && w'.held == w.held
      case Detach(d) => id in w'.replies && w'.replies[id].status == 200 && w'.held == w.held - {d}
      case Attach(d) => id in w'.replies && w'.replies[id].status == 200 && Untouched(w, w')
      case Receive(d, _) =>
        && Untouched(w, w')
        && if id in w'.replies then PlacedSaid(w'.replies[id])
           else id in w'.handlers && HandlerWell(cfg, w', w'.handlers[id], id, d)
      case Restore(_) => false
  }

  lemma QuietOnTrack(cfg: Config, w: World, w1: World, w2: World, id: MsgId)
    requires id < |w.net| && OnTrack(cfg, w, w1, id) && Apart(w1, w2, id) && Grows(w1, w2)
    ensures OnTrack(cfg, w, w2, id)
  {
    hide PlacedSaid;
  }

  lemma OwnServed(cfg: Config, w: World, w1: World, id: MsgId, how: How)
    requires id < |w.net| && OnTrack(cfg, w, w1, id) && id !in w1.served
    requires Sound(cfg) && Able(cfg, w, w.net[id].msg) && Faultless(cfg, w.net[id].msg, how) && Grows(w, w1)
        && Inv(cfg, w1)
    ensures OnTrack(cfg, w, Serve(cfg, w1, id, how), id)
  {
    LogStays(w, w1, id);
    assert Untouched(w, w1);
    hide Inv, Sound, Serve, OnTrack, PartitionName, HandlerWell;
    match w.net[id].msg {
      case CreateSnapshot(d) => OwnCreated(cfg, w, w1, id, d, how);
      case Receive(d, s) => OwnReceive(cfg, w, w1, id, d, s, how);
      case Attach(d) =>
        DirStays(w, w1, d);
        OwnAttached(cfg, w, w1, id, d, how);
      case _ => OwnAtOnce(cfg, w, w1, id, how);
    }
  }

  lemma DirStays(w: World, w': World, day: Day)
    requires Grows(w, w') && day in w.dirs
    ensures day in w'.dirs
  {
  }

  /** The request is on the wire in both worlds and not served yet. */
  ghost predicate Waiting(w: World, w1: World, id: MsgId, how: How) {
    && id < |w.net| && id < |w1.net| && w1.net[id] == w.net[id] && id !in w1.served && Untouched(w, w1)
    && how.effect && how.status == 200 && how.extra == 0
  }

  lemma OwnCreated(cfg: Config, w: World, w1: World, id: MsgId, day: Day, how: How)
    requires Waiting(w, w1, id, how) && w.net[id].msg == CreateSnapshot(day)
    ensures OnTrack(cfg, w, Serve(cfg, w1, id, how), id)
  {
    OwnCreate(w, w1, id, day, how);
    hide ServeCreate, CreatedWell;
  }

  lemma OwnAttached(cfg: Config, w: World, w1: World, id: MsgId, day: Day, how: How)
    requires Waiting(w, w1, id, how) && w.net[id].msg == Attach(day) && day in w1.dirs && PartitionName(day)
    ensures OnTrack(cfg, w, Serve(cfg, w1, id, how), id)
  {
    hide PartitionName, Signals, Says;
  }

  lemma OwnAtOnce(cfg: Config, w: World, w1: World, id: MsgId, how: How)
    requires Waiting(w, w1, id, how) && Able(cfg, w, w.net[id].msg)
    requires w.net[id].msg.DeleteSnapshot? || w.net[id].msg.Detach? || w.net[id].msg.DeleteStale?
    ensures OnTrack(cfg, w, Serve(cfg, w1, id, how), id)
  {
    hide Says;
  }

  lemma OwnCreate(w: World, w1: World, id: MsgId, day: Day, how: How)
    requires Untouched(w, w1) && how.effect && how.status == 200 && how.extra == 0
    ensures var w2 := ServeCreate(w1.(served := w1.served + {id}), id, day, how);
            id in w2.replies && id in w2.served && CreatedWell(w, w2, day, w2.replies[id])
  {
    OneMore(w1.snaps, |w1.issued|, day);
    hide Numbers, Repeat;
  }

  lemma OneMore(snaps: map<SnapId, Day>, n: SnapId, day: Day)
    ensures Numbers(n, 1) == [n] && snaps + (map s | s in Numbers(n, 1) :: day) == snaps[n := day]
  {
    assert Numbers(n, 1) == [n];
    assert (map s | s in Numbers(n, 1) :: day) == map[n := day];
  }

  lemma NoReplyYet(cfg: Config, w: World, id: MsgId)
    requires Inv(cfg, w) && id !in w.served
    ensures id !in w.replies
  {
    hide AnswerOk;
  }

  lemma OwnReceive(cfg: Config, w: World, w1: World, id: MsgId, day: Day, snap: SnapId, how: How)
    requires id < |w.net| <= |w1.net| && w.net[id] == w1.net[id] && w.net[id].msg == Receive(day, snap)
    requires Sound(cfg) && Inv(cfg, w1) && Untouched(w, w1) && id !in w1.served
    requires day in cfg.sealed && snap in w.snaps && Body(cfg, day, how) == Stream(cfg.sha1, cfg.sealed[day])
    ensures OnTrack(cfg, w, Serve(cfg, w1, id, how), id)
  {
    assert PartitionName(day);
    hide Body, Inv, Sound, PartitionName, Stream;
    NoReplyYet(cfg, w1, id);
    var w2 := Serve(cfg, w1, id, how);
    assert w2.handlers[id] == Handler(day, false, Body(cfg, day, how), Begin);
  }

  /** The temporary directory takes the undamaged archive. */
  lemma StreamUnpacks(cfg: Config, day: Day, id: MsgId)
    requires Sound(cfg) && day in cfg.sealed
    ensures Unpack(cfg.sha1, TmpDir(cfg, day, id), Stream(cfg.sha1, cfg.sealed[day])).result.Accepted?
  {
    TmpDirIsSafe(cfg, day, id);
    hide TmpDir, Unpack, CleanPath, Stream, Sendable;
    UnpackIntact(cfg.sha1, TmpDir(cfg, day, id), cfg.sealed[day]);
  }

  /** The handler's request is answered well, or the handler is still on its way to that. */
  ghost predicate Advanced(cfg: Config, w: World, w': World, id: MsgId, day: Day) {
    && Untouched(w, w') && w'.served == w.served
    && if id in w'.replies then PlacedSaid(w'.replies[id])
       else id in w'.handlers && HandlerWell(cfg, w', w'.handlers[id], id, day)
  }

  /** Each step of the request's own handler brings it closer to its answer. */
  lemma OwnStepped(cfg: Config, w: World, id: MsgId, day: Day)
    requires Sound(cfg) && id in w.handlers && id !in w.replies && HandlerWell(cfg, w, w.handlers[id], id, day)
    ensures Advanced(cfg, w, StepHandler(cfg, w, id, true), id, day)
  {
    hide Sound, Answered, StepExtract, StepRename, Stream;
    match w.handlers[id].stage {
      case Made => OwnExtracted(cfg, w, id, day); hide HandlerWell;
      case Ready(bytes) => OwnRenamed(cfg, w, id, day, bytes); hide HandlerWell;
      case Closing(r) => OwnAnswered(cfg, w, id, day, r); hide HandlerWell;
      case _ =>
    }
  }

  lemma OwnAnswered(cfg: Config, w: World, id: MsgId, day: Day, r: Reply)
    requires id in w.handlers && w.handlers[id].stage == Closing(r) && PlacedSaid(r)
    ensures Advanced(cfg, w, StepHandler(cfg, w, id, true), id, day)
  {
    hide HandlerWell;
  }

  lemma OwnExtracted(cfg: Config, w: World, id: MsgId, day: Day)
    requires Sound(cfg) && id in w.handlers && id !in w.replies && HandlerWell(cfg, w, w.handlers[id], id, day)
    ensures Advanced(cfg, w, StepExtract(cfg, w, id, true), id, day)
  {
    StreamUnpacks(cfg, day, id);
    hide Sound, Unpack, Stream, TmpDir;
  }

  lemma OwnRenamed(cfg: Config, w: World, id: MsgId, day: Day, bytes: nat)
    requires id in w.handlers && id !in w.replies && HandlerWell(cfg, w, w.handlers[id], id, day)
    requires w.handlers[id].stage == Ready(bytes)
    ensures Advanced(cfg, w, StepRename(w, id, bytes, true), id, day)
  {
    hide Stream;
  }

  lemma OwnOnTrack(cfg: Config, w: World, w1: World, id: MsgId, a: Act)
    requires Sound(cfg) && Inv(cfg, w1) && Grows(w, w1) && id < |w.net| && Able(cfg, w, w.net[id].msg)
    requires OnTrack(cfg, w, w1, id) && Own(cfg, w1, id, a)
    ensures OnTrack(cfg, w, Do(cfg, w1, a), id)
  {
    assert w1.net[id] == w.net[id];
    if a.Take? {
      if id !in w1.served {
        OwnServed(cfg, w, w1, id, a.how);
        hide Serve, Inv, Sound, OnTrack;
      }
    } else if id in w1.handlers {
      HandlerAt(cfg, w1, id);
      assert Uploads(w.net[id].msg, w1.handlers[id].day, w1.handlers[id].restore) && id in w1.served;
      assert w.net[id].msg.Receive?;
      hide Inv, HandlerOk;
      OwnHandled(cfg, w, w1, id, w.net[id].msg.day);
    }
  }

  lemma OwnHandled(cfg: Config, w: World, w1: World, id: MsgId, day: Day)
    requires Sound(cfg) && id < |w.net| && w.net[id].msg.Receive? && w.net[id].msg.day == day
    requires OnTrack(cfg, w, w1, id) && id in w1.served && id in w1.handlers
    requires w1.handlers[id].stage != Over ==> id !in w1.replies
    ensures OnTrack(cfg, w, StepHandler(cfg, w1, id, true), id)
  {
    hide Sound;
    if id !in w1.replies {
      OwnStepped(cfg, w1, id, day);
      hide StepHandler;
    }
  }

  lemma {:induction false} SmoothOnTrack(cfg: Config, w: World, w1: World, id: MsgId, acts: seq<Act>)
    requires Sound(cfg) && Inv(cfg, w1) && Grows(w, w1) && id < |w.net| && Able(cfg, w, w.net[id].msg)
    requires OnTrack(cfg, w, w1, id) && Smooth(cfg, w1, id, acts)
    ensures OnTrack(cfg, w, Settle(cfg, w1, acts), id)
    decreases acts
  {
    if acts != [] {
      var a, w2 := acts[0], Do(cfg, w1, acts[0]);
      DoKeeps(cfg, w1, a);
      hide Inv, Sound, Grows, Able, Apart, OnTrack, Do, Quiet, Own;
      if Own(cfg, w1, id, a) {
        OwnOnTrack(cfg, w, w1, id, a);
      } else {
        QuietApart(cfg, w1, id, a);
        QuietOnTrack(cfg, w, w1, w2, id);
      }
      GrowsTransitive(w, w1, w2);
      SmoothOnTrack(cfg, w, w2, id, acts[1..]);
    }
  }

  /** The call was answered, and as the request deserves. */
  ghost predicate ServedWell(cfg: Config, w: World, msg: Msg, w': World, got: Got) {
    && got.Got? && |w.net| in w'.replies && w'.replies[|w.net|] == got.reply
    && |w.net| in w'.served && OnTrack(cfg, Sent(w, msg), w', |w.net|)
  }

  /** The call failed in a way that is tried again, with the source as it was and an attempt left. */
  predicate Slipped(w: World, msg: Msg, w': World, got: Got) {
    && Untouched(w, w') && Trail(Mine(w.net), msg) + 1 < MAX_ATTEMPTS
    && match got case Nothing => true case Got(r) => Transient(msg, r) case Dead(_) => false
  }

  lemma MildUntouched(cfg: Config, w: World, acts: seq<Act>)
    requires Mild(cfg, w, acts)
    ensures Untouched(w, Settle(cfg, w, acts))
    decreases acts
  {
    if acts != [] {
      var a := acts[0];
      match a {
        case Take(j, _) => QuietApart(cfg, w, j + 1, a);
        case Step(j, _) => QuietApart(cfg, w, j + 1, a);
        case Inject(_) => QuietApart(cfg, w, 0, a);
        case Crash =>
      }
      assert Untouched(w, Do(cfg, w, a)) by { hide Serve, StepHandler; }
      hide Do, OnTarget;
      MildUntouched(cfg, Do(cfg, w, a), acts[1..]);
    }
  }

  lemma TrailMore(msgs: seq<Msg>, m: Msg)
    ensures Trail(msgs + [m], m) == Trail(msgs, m) + 1
  {
    assert (msgs + [m])[..|msgs|] == msgs;
  }

  lemma FairAt(cfg: Config, env: Env, w: World)
    requires Fair(cfg, env) && JustSent(cfg, w)
    ensures Serves(cfg, w, env(w)) || Stumbles(cfg, w, env(w))
  {
    hide Serves, Stumbles, Inv;
  }

  /** Each call is answered as its request deserves, or, to the peer, may slip. */
  lemma FairCall(cfg: Config, env: Env, w: World, msg: Msg)
    requires Sound(cfg) && Inv(cfg, w) && MaySend(w, msg) && Fair(cfg, env) && Able(cfg, w, msg)
    ensures var (w', got) := Exchange(cfg, env, w, msg);
            && Preserves(cfg, w, w')
            && (ServedWell(cfg, w, msg, w', got) || (ToPeer(msg) && Slipped(w, msg, w', got)))
  {
    hide Inv, Sound, Grows, Able, OnTrack, Settle, Fair, Mild, Smooth, Trail, Mine, Transient, AnswerOk;
    var sent, id := Sent(w, msg), |w.net|;
    ExchangeKeeps(cfg, env, w, msg);
    SentOnTrack(cfg, w, msg);
    FairAt(cfg, env, sent);
    if Serves(cfg, sent, env(sent)) {
      SmoothOnTrack(cfg, sent, sent, id, env(sent).acts);
      RepliedIsServed(cfg, Settle(cfg, sent, env(sent).acts), id);
    } else {
      MildUntouched(cfg, sent, env(sent).acts);
      MineAppend(w.net, Packet(msg, true));
      TrailMore(Mine(w.net), msg);
    }
  }

  lemma FairExchange(cfg: Config, env: Env, w: World, msg: Msg)
    requires Sound(cfg) && Inv(cfg, w) && MaySend(w, msg) && Fair(cfg, env) && Able(cfg, w, msg) && !ToPeer(msg)
    ensures var (w', got) := Exchange(cfg, env, w, msg); Preserves(cfg, w, w') && ServedWell(cfg, w, msg, w', got)
  {
    FairCall(cfg, env, w, msg);
    hide *;
  }

  lemma SentOnTrack(cfg: Config, w: World, msg: Msg)
    requires Inv(cfg, w) && MaySend(w, msg) && Able(cfg, w, msg)
    ensures var sent, id := Sent(w, msg), |w.net|;
            && JustSent(cfg, sent) && Grows(sent, sent) && sent.net[id].msg == msg
            && Able(cfg, sent, msg) && OnTrack(cfg, sent, sent, id)
  {
    hide Inv, Able, OnTrack, DeletedBefore, Grows;
    NotYetServed(cfg, w);
    AbleSent(cfg, w, msg);
    SendKeeps(cfg, w, Packet(msg, true));
    SelfKept(cfg, Sent(w, msg));
  }

  lemma AbleSent(cfg: Config, w: World, msg: Msg)
    requires Able(cfg, w, msg) && |w.net| !in w.served
    ensures Able(cfg, Sent(w, msg), msg) && OnTrack(cfg, Sent(w, msg), Sent(w, msg), |w.net|)
  {
    hide PartitionName;
  }

  lemma NotYetServed(cfg: Config, w: World)
    requires Inv(cfg, w)
    ensures |w.net| !in w.served
  {
    assert SnapsOk(w);
  }

  lemma RepliedIsServed(cfg: Config, w: World, id: MsgId)
    requires Inv(cfg, w) && id in w.replies
    ensures id in w.served
  {
  }
}
