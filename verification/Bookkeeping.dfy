/**
 The books of one day's move: which requests the process sent, and that each snapshot it was given is
 asked to be deleted exactly once, before any detach.
 */
module Bookkeeping {
  import opened Archive
  import opened Delivery
  import opened World
  import opened Invariant
  import opened Preservation
  import opened Transfer
  import opened Safety

  // ----- the requests of the process itself ----------------------------------------------------

  /** The transfer's own requests, in order. */
  function Mine(net: seq<Packet>): seq<Msg> {
    if net == [] then []
    else Mine(net[..|net| - 1]) + if net[|net| - 1].mine then [net[|net| - 1].msg] else []
  }

  lemma MineAppend(net: seq<Packet>, p: Packet)
    ensures Mine(net + [p]) == if p.mine then Mine(net) + [p.msg] else Mine(net)
  {
    assert (net + [p])[..|net|] == net;
  }

  lemma DoMine(cfg: Config, w: World, a: Act)
    ensures Mine(Do(cfg, w, a).net) == Mine(w.net)
  {
    match a {
      case Inject(msg) => MineAppend(w.net, Packet(msg, false));
      case _ => DoNet(cfg, w, a);
    }
  }

  lemma DoNet(cfg: Config, w: World, a: Act)
    requires !a.Inject?
    ensures Do(cfg, w, a).net == w.net
  {
    if a.Take? { ServeNet(cfg, w, a.id, a.how); }
    if a.Step? && a.id in w.handlers { StepNet(cfg, w, a.id, a.ok); }
    hide Serve, StepHandler;
  }

  lemma ServeNet(cfg: Config, w: World, id: MsgId, how: How)
    ensures Serve(cfg, w, id, how).net == w.net
  {
    if id < |w.net| && id !in w.served {
      ServeMsgNet(cfg, w.(served := w.served + {id}), id, w.net[id].msg, how);
      hide ServeMsg;
    }
  }

  lemma ServeMsgNet(cfg: Config, w: World, id: MsgId, msg: Msg, how: How)
    ensures ServeMsg(cfg, w, id, msg, how).net == w.net
  {
    hide ServeCreate, ServeDelete, ServeDetach, ServeAttach, ServeUpload;
    match msg {
      case CreateSnapshot(day) => CreateNet(w, id, day, how);
      case DeleteSnapshot(snap) => DeleteNet(w, id, snap, how);
      case Detach(day) => DetachNet(w, id, day, how);
      case Attach(day) => AttachNet(w, id, day, how);
      case Receive(day, snap) => UploadNet(cfg, w, id, day, false, snap !in w.snaps, how);
      case Restore(day) => UploadNet(cfg, w, id, day, true, false, how);
      case DeleteStale =>
    }
  }

  lemma CreateNet(w: World, id: MsgId, day: Day, how: How)
    ensures ServeCreate(w, id, day, how).net == w.net
  {
    hide Numbers, Repeat;
  }

  lemma DeleteNet(w: World, id: MsgId, snap: SnapId, how: How)
    ensures ServeDelete(w, id, snap, how).net == w.net
  {
    hide ClaimsGone;
  }

  lemma DetachNet(w: World, id: MsgId, day: Day, how: How)
    ensures ServeDetach(w, id, day, how).net == w.net
  {
    hide ClaimsDetached;
  }

  lemma AttachNet(w: World, id: MsgId, day: Day, how: How)
    ensures ServeAttach(w, id, day, how).net == w.net
  {
    hide AttachOk, ClaimsAttached, PartitionName;
  }

  lemma UploadNet(cfg: Config, w: World, id: MsgId, day: Day, restore: bool, lost: bool, how: How)
    ensures ServeUpload(cfg, w, id, day, restore, lost, how).net == w.net
  {
    hide Body, PartitionName;
  }

  lemma RenameNet(w: World, id: MsgId, bytes: nat, ok: bool)
    requires id in w.handlers
    ensures StepRename(w, id, bytes, ok).net == w.net
  {
  }

  lemma StepNet(cfg: Config, w: World, id: MsgId, ok: bool)
    requires id in w.handlers
    ensures StepHandler(cfg, w, id, ok).net == w.net
  {
    hide StepExtract, StepRename;
    match w.handlers[id].stage {
      case Made =>
        hide Unpack, TmpDir, Rejection;
        ExtractCases(cfg, w, id, ok);
      case Ready(bytes) => RenameNet(w, id, bytes, ok);
      case _ =>
    }
  }

  lemma {:induction false} SettleMine(cfg: Config, w: World, acts: seq<Act>)
    ensures Mine(Settle(cfg, w, acts).net) == Mine(w.net)
    decreases acts
  {
    if acts != [] {
      DoMine(cfg, w, acts[0]);
      hide Do, Mine;
      SettleMine(cfg, Do(cfg, w, acts[0]), acts[1..]);
    }
  }

  /** The world after the process made these requests, one after the other. */
  function Talk(cfg: Config, env: Env, w: World, msgs: seq<Msg>): World
    decreases msgs
  {
    if msgs == [] then w else Talk(cfg, env, Exchange(cfg, env, w, msgs[0]).0, msgs[1..])
  }

  /** What came between `w` and `w'` are exactly these requests of the process, in this order. */
  ghost predicate Said(cfg: Config, env: Env, w: World, w': World, msgs: seq<Msg>) {
    w' == Talk(cfg, env, w, msgs) && Mine(w'.net) == Mine(w.net) + msgs
  }

  lemma {:induction false} TalkConcat(cfg: Config, env: Env, w: World, x: seq<Msg>, y: seq<Msg>)
    ensures Talk(cfg, env, w, x + y) == Talk(cfg, env, Talk(cfg, env, w, x), y)
    decreases x
  {
    hide Exchange;
    if x == [] {
      assert x + y == y;
    } else {
      assert (x + y)[0] == x[0] && (x + y)[1..] == x[1..] + y;
      TalkConcat(cfg, env, Exchange(cfg, env, w, x[0]).0, x[1..], y);
    }
  }

  lemma SaidThen(cfg: Config, env: Env, a: World, b: World, c: World, x: seq<Msg>, y: seq<Msg>)
    requires Said(cfg, env, a, b, x) && Said(cfg, env, b, c, y)
    ensures Said(cfg, env, a, c, x + y)
  {
    hide Mine, Talk;
    TalkConcat(cfg, env, a, x, y);
    Associative(Mine(a.net), x, y);
  }

  lemma SaidNothing(cfg: Config, env: Env, w: World)
    ensures Said(cfg, env, w, w, [])
  {
    hide Mine;
  }

  lemma ExchangeSays(cfg: Config, env: Env, w: World, msg: Msg)
    ensures Said(cfg, env, w, Exchange(cfg, env, w, msg).0, [msg])
  {
    var sent := Sent(w, msg);
    MineAppend(w.net, Packet(msg, true));
    SettleMine(cfg, sent, env(sent).acts);
    hide Mine, Settle;
    assert [msg][1..] == [];
    assert Talk(cfg, env, w, [msg]) == Talk(cfg, env, Exchange(cfg, env, w, msg).0, []);
  }

  // ----- what one day's move may say -----------------------------------------------------------

  /** The request is about this day or one of these snapshots, and detaches nothing. */
  predicate About(msg: Msg, day: Day, given: seq<SnapId>) {
    match msg
    case CreateSnapshot(d) => d == day
    case Receive(d, _) => d == day
    case Attach(d) => d == day
    case DeleteSnapshot(s) => s in given
    case _ => false
  }

  ghost predicate AllAbout(msgs: seq<Msg>, day: Day, given: seq<SnapId>) {
    forall i :: 0 <= i < |msgs| ==> About(msgs[i], day, given)
  }

  /** The snapshots that requests ask to delete, in order. */
  function Deletes(msgs: seq<Msg>): seq<SnapId> {
    if msgs == [] then []
    else (if msgs[0].DeleteSnapshot? then [msgs[0].snap] else []) + Deletes(msgs[1..])
  }

  lemma {:induction false} DeletesConcat(a: seq<Msg>, b: seq<Msg>)
    ensures Deletes(a + b) == Deletes(a) + Deletes(b)
  {
    if a == [] {
      assert a + b == b;
    } else {
      assert (a + b)[0] == a[0] && (a + b)[1..] == a[1..] + b;
      DeletesConcat(a[1..], b);
      Associative(if a[0].DeleteSnapshot? then [a[0].snap] else [], Deletes(a[1..]), Deletes(b));
    }
  }

  lemma DeletesOne(msg: Msg)
    ensures Deletes([msg]) == if msg.DeleteSnapshot? then [msg.snap] else []
  {
    assert [msg][1..] == [];
  }

  /** What was said about one day between two worlds: only that, deleting exactly `gone`. */
  ghost predicate Spoke(cfg: Config, env: Env, w: World, w': World, day: Day, given: seq<SnapId>, gone: seq<SnapId>) {
    exists msgs :: Said(cfg, env, w, w', msgs) && AllAbout(msgs, day, given) && Deletes(msgs) == gone
  }

  lemma SpokeThen(cfg: Config, env: Env, a: World, b: World, c: World, day: Day, given: seq<SnapId>,
          x: seq<SnapId>, y: seq<SnapId>)
    requires Spoke(cfg, env, a, b, day, given, x) && Spoke(cfg, env, b, c, day, given, y)
    ensures Spoke(cfg, env, a, c, day, given, x + y)
  {
    var m :| Said(cfg, env, a, b, m) && AllAbout(m, day, given) && Deletes(m) == x;
    var n :| Said(cfg, env, b, c, n) && AllAbout(n, day, given) && Deletes(n) == y;
    hide Said, Deletes, About;
    SaidThen(cfg, env, a, b, c, m, n);
    DeletesConcat(m, n);
    assert AllAbout(m + n, day, given);
  }

  lemma SpokeOnce(cfg: Config, env: Env, w: World, msg: Msg, day: Day, given: seq<SnapId>)
    requires About(msg, day, given)
    ensures Spoke(cfg, env, w, Exchange(cfg, env, w, msg).0, day, given, if msg.DeleteSnapshot? then [msg.snap] else [])
  {
    ExchangeSays(cfg, env, w, msg);
    DeletesOne(msg);
    hide Exchange, Said, Deletes;
    assert AllAbout([msg], day, given);
  }

  lemma SpokeNothing(cfg: Config, env: Env, w: World, day: Day, given: seq<SnapId>)
    ensures Spoke(cfg, env, w, w, day, given, [])
  {
    SaidNothing(cfg, env, w);
    hide Said;
    assert AllAbout([], day, given) && Deletes([]) == [];
  }

  /** Still nothing was asked to be deleted. */
  lemma StillSpoke(cfg: Config, env: Env, a: World, b: World, c: World, day: Day, given: seq<SnapId>)
    requires Spoke(cfg, env, a, b, day, given, []) && Spoke(cfg, env, b, c, day, given, [])
    ensures Spoke(cfg, env, a, c, day, given, [])
  {
    hide Spoke;
    var none: seq<SnapId> := [];
    SpokeThen(cfg, env, a, b, c, day, given, none, none);
    assert none + none == none;
  }

  lemma EitherWorld(w: World, got: Got, next: (World, Sending))
    ensures AfterSend(w, got, next).0 == w || AfterSend(w, got, next).0 == next.0
  {
    hide RetrySend;
  }

  lemma {:induction false} SendSpeaks(cfg: Config, env: Env, w: World, day: Day, snap: SnapId, attempt: nat,
          given: seq<SnapId>)
    ensures Spoke(cfg, env, w, Send(cfg, env, w, day, snap, attempt).0, day, given, [])
    decreases MAX_ATTEMPTS - attempt
  {
    hide Exchange, Spoke, AfterSend;
    if attempt >= MAX_ATTEMPTS {
      SpokeNothing(cfg, env, w, day, given);
    } else {
      SpokeOnce(cfg, env, w, Receive(day, snap), day, given);
      SendUnfolds(cfg, env, w, day, snap, attempt);
      var (w1, got) := Exchange(cfg, env, w, Receive(day, snap));
      var next := Send(cfg, env, w1, day, snap, attempt + 1);
      EitherWorld(w1, got, next);
      hide Send;
      SendSpeaks(cfg, env, w1, day, snap, attempt + 1, given);
      StillSpoke(cfg, env, w, w1, next.0, day, given);
    }
  }

  lemma {:induction false} AttachSpeaks(cfg: Config, env: Env, w: World, day: Day, attempt: nat, given: seq<SnapId>)
    ensures Spoke(cfg, env, w, AttachPeer(cfg, env, w, day, attempt).0, day, given, [])
    decreases MAX_ATTEMPTS - attempt
  {
    hide Exchange, Spoke;
    if attempt >= MAX_ATTEMPTS {
      SpokeNothing(cfg, env, w, day, given);
    } else {
      SpokeOnce(cfg, env, w, Attach(day), day, given);
      var (w1, got) := Exchange(cfg, env, w, Attach(day));
      var next := AttachPeer(cfg, env, w1, day, attempt + 1);
      var end := AttachPeer(cfg, env, w, day, attempt);
      assert end.0 == w1 || end.0 == next.0;
      hide AttachPeer;
      AttachSpeaks(cfg, env, w1, day, attempt + 1, given);
      StillSpoke(cfg, env, w, w1, next.0, day, given);
    }
  }

  /** The snapshots a ledger lists, in order. */
  function Listed(ledger: seq<Deletion>): (snaps: seq<SnapId>)
    ensures |snaps| == |ledger| && forall i :: 0 <= i < |ledger| ==> snaps[i] == ledger[i].snap
  {
    seq(|ledger|, i requires 0 <= i < |ledger| => ledger[i].snap)
  }

  /**
   A day's move kept its books: no snapshot it was given is asked to be deleted twice, and, unless the
   process died, each is, in order, and the ledger lists just these calls. The one thing that may
   follow is the detach, once the only snapshot is known to be deleted.
   */
  ghost predicate Books(cfg: Config, env: Env, w: World, day: Day, m: Moved) {
    exists w1, gone :: Spoke(cfg, env, w, w1, day, m.given, gone) && Closed(cfg, env, w1, day, m, gone)
  }

  ghost predicate Closed(cfg: Config, env: Env, w1: World, day: Day, m: Moved, gone: seq<SnapId>) {
    && gone <= m.given
    && (!m.end.Gone? ==> gone == m.given && Listed(m.ledger) == m.given)
    && (w1 == m.w || (Said(cfg, env, w1, m.w, [Detach(day)]) && |m.given| == 1 && m.ledger == [Deletion(m.given[0], true)]))
  }

  lemma DeleteSpeaks(cfg: Config, env: Env, w: World, day: Day, snap: SnapId, given: seq<SnapId>)
    requires snap in given
    ensures Spoke(cfg, env, w, Delete(cfg, env, w, snap).0, day, given, [snap])
  {
    SpokeOnce(cfg, env, w, DeleteSnapshot(snap), day, given);
    hide Exchange, Spoke, DeleteOk;
  }

  lemma GiveUpBooks(cfg: Config, env: Env, w: World, day: Day, snap: SnapId, stage: string)
    ensures Books(cfg, env, w, day, GiveUp(cfg, env, w, snap, stage))
  {
    DeleteSpeaks(cfg, env, w, day, snap, [snap]);
    hide Delete, Spoke, Listed, Said;
    var m := GiveUp(cfg, env, w, snap, stage);
    assert !m.end.Gone? ==> Listed(m.ledger) == [snap];
    assert Closed(cfg, env, m.w, day, m, [snap]);
  }

  lemma DetachSays(cfg: Config, env: Env, w: World, day: Day)
    ensures Said(cfg, env, w, DetachDay(cfg, env, w, day).0, [Detach(day)])
  {
    ExchangeSays(cfg, env, w, Detach(day));
    hide Exchange, Said, DetachOk;
  }

  lemma CleanAndDetachBooks(cfg: Config, env: Env, w: World, day: Day, snap: SnapId)
    ensures Books(cfg, env, w, day, CleanAndDetach(cfg, env, w, day, snap))
  {
    hide Delete, DetachDay, Spoke, Listed, Said;
    DeleteSpeaks(cfg, env, w, day, snap, [snap]);
    var (w1, e) := Delete(cfg, env, w, snap);
    DetachSays(cfg, env, w1, day);
    var m := CleanAndDetach(cfg, env, w, day, snap);
    assert !m.end.Gone? ==> Listed(m.ledger) == [snap];
    assert Closed(cfg, env, w1, day, m, [snap]);
  }

  /** Silence first, then a move that keeps its books. */
  lemma BooksAfter(cfg: Config, env: Env, a: World, b: World, day: Day, m: Moved)
    requires Spoke(cfg, env, a, b, day, m.given, []) && Books(cfg, env, b, day, m)
    ensures Books(cfg, env, a, day, m)
  {
    hide Spoke, Closed;
    var c, gone :| Spoke(cfg, env, b, c, day, m.given, gone) && Closed(cfg, env, c, day, m, gone);
    SpokeThen(cfg, env, a, b, c, day, m.given, [], gone);
    assert [] + gone == gone;
  }

  lemma GoneBooks(cfg: Config, env: Env, w: World, day: Day, m: Moved)
    requires m.end.Gone? && Spoke(cfg, env, w, m.w, day, m.given, [])
    ensures Books(cfg, env, w, day, m)
  {
    hide Spoke;
    assert Closed(cfg, env, m.w, day, m, []);
  }

  lemma AttachAndFinishBooks(cfg: Config, env: Env, w: World, day: Day, snap: SnapId)
    ensures Books(cfg, env, w, day, AttachAndFinish(cfg, env, w, day, snap))
        && AttachAndFinish(cfg, env, w, day, snap).given == [snap]
  {
    AttachSpeaks(cfg, env, w, day, 0, [snap]);
    var (w1, a) := AttachPeer(cfg, env, w, day, 0);
    assert GiveUp(cfg, env, w1, snap, "attach").given == [snap] == CleanAndDetach(cfg, env, w1, day, snap).given;
    hide AttachPeer, GiveUp, CleanAndDetach, Spoke, Books;
    var m := AttachAndFinish(cfg, env, w, day, snap);
    if a.Halted? {
      GoneBooks(cfg, env, w, day, m);
    } else {
      if a == Failed {
        GiveUpBooks(cfg, env, w1, day, snap, "attach");
      } else {
        CleanAndDetachBooks(cfg, env, w1, day, snap);
      }
      BooksAfter(cfg, env, w, w1, day, m);
    }
  }

  lemma MoveSnapshotBooks(cfg: Config, env: Env, w: World, day: Day, snap: SnapId)
    ensures Books(cfg, env, w, day, MoveSnapshot(cfg, env, w, day, snap)) && MoveSnapshot(cfg, env, w, day, snap).given == [snap]
  {
    SendSpeaks(cfg, env, w, day, snap, 0, [snap]);
    var (w1, s) := Send(cfg, env, w, day, snap, 0);
    assert GiveUp(cfg, env, w1, snap, "stream").given == [snap];
    AttachAndFinishBooks(cfg, env, w1, day, snap);
    hide Send, GiveUp, AttachAndFinish, Spoke, Books;
    var m := MoveSnapshot(cfg, env, w, day, snap);
    if s.SendHalted? {
      GoneBooks(cfg, env, w, day, m);
    } else {
      if s.NotSent? { GiveUpBooks(cfg, env, w1, day, snap, "stream"); }
      BooksAfter(cfg, env, w, w1, day, m);
    }
  }

  /** Deletes were asked for in order, each once, as far as the process lived; the ledger lists them. */
  ghost predicate Cleared(cfg: Config, env: Env, w: World, w': World, halted: bool, day: Day, given: seq<SnapId>,
          ids: seq<SnapId>,
          ledger: seq<Deletion>) {
    exists gone :: Spoke(cfg, env, w, w', day, given, gone) && gone <= ids && (!halted ==> gone == ids && Listed(ledger) == ids)
  }

  lemma ClearedThen(cfg: Config, env: Env, a: World, b: World, c: World, halted: bool, day: Day,
          given: seq<SnapId>, ids: seq<SnapId>,
          rest: seq<Deletion>, ok: bool)
    requires ids != [] && Spoke(cfg, env, a, b, day, given, [ids[0]]) && Cleared(cfg, env, b, c, halted, day, given, ids[1..], rest)
    ensures Cleared(cfg, env, a, c, halted, day, given, ids, [Deletion(ids[0], ok)] + rest)
  {
    hide Spoke, Listed;
    var gone :| Spoke(cfg, env, b, c, day, given, gone) && gone <= ids[1..]
                && (!halted ==> gone == ids[1..] && Listed(rest) == ids[1..]);
    SpokeThen(cfg, env, a, b, c, day, given, [ids[0]], gone);
    assert !halted ==> [ids[0]] + gone == ids && Listed([Deletion(ids[0], ok)] + rest) == ids;
  }

  lemma {:induction false} DeleteAllSpeaks(cfg: Config, env: Env, w: World, day: Day, ids: seq<SnapId>,
          given: seq<SnapId>)
    requires forall i :: 0 <= i < |ids| ==> ids[i] in given
    ensures var (w', e, ledger) := DeleteAll(cfg, env, w, ids); Cleared(cfg, env, w, w', e.Halted?, day, given, ids, ledger)
    decreases ids
  {
    if ids == [] {
      SpokeNothing(cfg, env, w, day, given);
      assert Listed([]) == [];
    } else {
      DeleteSpeaks(cfg, env, w, day, ids[0], given);
      var (w1, first) := Delete(cfg, env, w, ids[0]);
      hide Delete, Spoke, Listed;
      if !first.Halted? {
        hide Cleared;
        DeleteAllSpeaks(cfg, env, w1, day, ids[1..], given);
        var (w2, e2, rest) := DeleteAll(cfg, env, w1, ids[1..]);
        ClearedThen(cfg, env, w, w1, w2, e2.Halted?, day, given, ids, rest, first == Done);
      }
    }
  }

  lemma SurplusBooks(cfg: Config, env: Env, w: World, day: Day, ids: seq<SnapId>)
    ensures var (w', e, ledger) := DeleteAll(cfg, env, w, ids);
            Books(cfg, env, w, day, Moved(w', if e.Halted? then Gone(e.panicked) else Broke("snapshot"), ids, ledger))
  {
    hide DeleteAll, Spoke, Listed, Said;
    DeleteAllSpeaks(cfg, env, w, day, ids, ids);
    var (w', e, ledger) := DeleteAll(cfg, env, w, ids);
    var gone :| Spoke(cfg, env, w, w', day, ids, gone) && gone <= ids
                && (!e.Halted? ==> gone == ids && Listed(ledger) == ids);
    assert Closed(cfg, env, w', day, Moved(w', if e.Halted? then Gone(e.panicked) else Broke("snapshot"), ids, ledger), gone);
  }

  lemma NoneGivenBooks(cfg: Config, env: Env, w: World, day: Day, end: DayEnd)
    ensures Books(cfg, env, w, day, Moved(w, end, [], []))
  {
    SpokeNothing(cfg, env, w, day, []);
    hide Spoke, Said;
    assert Listed([]) == [];
    assert Closed(cfg, env, w, day, Moved(w, end, [], []), []);
  }

  lemma MoveDayBooks(cfg: Config, env: Env, w: World, day: Day)
    ensures Books(cfg, env, w, day, MoveDay(cfg, env, w, day))
  {
    hide Create, MoveSnapshot, DeleteAll, Spoke, Books;
    var (w1, c) := Create(cfg, env, w, day);
    var m := MoveDay(cfg, env, w, day);
    if c.Paths? && |c.ids| == 1 {
      MoveSnapshotBooks(cfg, env, w1, day, c.ids[0]);
    } else if c.Paths? && |c.ids| > 1 {
      SurplusBooks(cfg, env, w1, day, c.ids);
    } else {
      NoneGivenBooks(cfg, env, w1, day, m.end);
    }
    CreateSpeaks(cfg, env, w, day, m.given);
    BooksAfter(cfg, env, w, w1, day, m);
  }

  lemma CreateSpeaks(cfg: Config, env: Env, w: World, day: Day, given: seq<SnapId>)
    ensures Spoke(cfg, env, w, Create(cfg, env, w, day).0, day, given, [])
  {
    SpokeOnce(cfg, env, w, CreateSnapshot(day), day, given);
    hide Exchange, Spoke;
  }

  /** A call of SendPartition makes at most three requests. */
  lemma {:induction false} SendAttempts(cfg: Config, env: Env, w: World, day: Day, snap: SnapId, attempt: nat)
    requires attempt <= MAX_ATTEMPTS
    ensures |Mine(Send(cfg, env, w, day, snap, attempt).0.net)| <= |Mine(w.net)| + MAX_ATTEMPTS - attempt
    decreases MAX_ATTEMPTS - attempt
  {
    if attempt < MAX_ATTEMPTS {
      ExchangeSays(cfg, env, w, Receive(day, snap));
      SendUnfolds(cfg, env, w, day, snap, attempt);
      var (w1, got) := Exchange(cfg, env, w, Receive(day, snap));
      var next := Send(cfg, env, w1, day, snap, attempt + 1);
      assert AfterSend(w1, got, next).0 == w1 || AfterSend(w1, got, next).0 == next.0;
      hide Exchange, Mine, Send, AfterSend;
      SendAttempts(cfg, env, w1, day, snap, attempt + 1);
    }
  }

  /** An answer that trying again would not change: no success, no conflict, no 5xx, no checksum mismatch. */
  predicate Permanent(r: Reply) {
    || (r.status == 200 && !r.readable)
    || (r.status != 200 && r.status != 409 && r.status < 500
        && !(r.status == 400 && Quotes(r.body, "checksum mismatch")))
  }

  /** One of the process's own requests, sent between the two worlds, was answered so. */
  ghost predicate Refused(w: World, w': World, msg: Msg, permanent: Reply -> bool) {
    exists id :: |w.net| <= id < |w'.net| && RefusedAt(w', id, msg, permanent)
  }

  ghost predicate RefusedAt(w: World, id: MsgId, msg: Msg, permanent: Reply -> bool)
    requires id < |w.net|
  {
    w.net[id] == Packet(msg, true) && id in w.replies && permanent(w.replies[id])
  }

  lemma RefusedEarlier(a: World, b: World, c: World, msg: Msg, permanent: Reply -> bool)
    requires Refused(b, c, msg, permanent) && |a.net| <= |b.net|
    ensures Refused(a, c, msg, permanent)
  {
    hide RefusedAt;
  }

  lemma AfterSendCases(w: World, got: Got, next: (World, Sending))
    ensures var end := AfterSend(w, got, next);
            end.1.NotSent? ==> end == next || (end.0 == w && got.Got? && Permanent(got.reply))
  {
    if got.Got? { HeadQuotes(got.reply.body, "checksum mismatch"); }
    hide Quotes, Contains, ReadBody;
  }

  /**
   SendPartition gives up early on a permanent answer only: a lost request or reply, a 5xx or a checksum
   mismatch is followed by another attempt as long as one is left.
   */
  lemma {:induction false} SendPersists(cfg: Config, env: Env, w: World, day: Day, snap: SnapId, attempt: nat)
    requires Sound(cfg) && Inv(cfg, w) && attempt <= MAX_ATTEMPTS
    ensures var (w', s) := Send(cfg, env, w, day, snap, attempt);
            s.NotSent? ==> || Refused(w, w', Receive(day, snap), Permanent)
                           || |Mine(w'.net)| == |Mine(w.net)| + MAX_ATTEMPTS - attempt
    decreases MAX_ATTEMPTS - attempt
  {
    hide Exchange, Inv, Sound, Mine, Refused, Permanent, AfterSend, AnswerOk, Grows;
    if attempt < MAX_ATTEMPTS {
      ExchangeSays(cfg, env, w, Receive(day, snap));
      ExchangeKeeps(cfg, env, w, Receive(day, snap));
      SendUnfolds(cfg, env, w, day, snap, attempt);
      var (w1, got) := Exchange(cfg, env, w, Receive(day, snap));
      var next := Send(cfg, env, w1, day, snap, attempt + 1);
      AfterSendCases(w1, got, next);
      hide Send;
      SendPersists(cfg, env, w1, day, snap, attempt + 1);
      if next.1.NotSent? && Refused(w1, next.0, Receive(day, snap), Permanent) {
        RefusedEarlier(w, w1, next.0, Receive(day, snap), Permanent);
      }
      if got.Got? && Permanent(got.reply) { RefusedNow(w, w1, |w.net|, Receive(day, snap), Permanent); }
    }
  }

  lemma RefusedNow(w: World, w': World, id: MsgId, msg: Msg, permanent: Reply -> bool)
    requires |w.net| <= id < |w'.net| && w'.net[id] == Packet(msg, true) && id in w'.replies
        && permanent(w'.replies[id])
    ensures Refused(w, w', msg, permanent)
  {
    assert RefusedAt(w', id, msg, permanent);
  }

  /** The attach keeps trying in the same way, and takes any answer below 500 but a 200 as final. */
  lemma {:induction false} AttachPersists(cfg: Config, env: Env, w: World, day: Day, attempt: nat)
    requires Sound(cfg) && Inv(cfg, w) && attempt <= MAX_ATTEMPTS
    ensures var (w', e) := AttachPeer(cfg, env, w, day, attempt);
            && |Mine(w'.net)| <= |Mine(w.net)| + MAX_ATTEMPTS - attempt
            && (e == Failed ==> || Refused(w, w', Attach(day), AttachFinal)
                                || |Mine(w'.net)| == |Mine(w.net)| + MAX_ATTEMPTS - attempt)
    decreases MAX_ATTEMPTS - attempt
  {
    hide Exchange, Inv, Sound, Mine, Refused, AnswerOk, Grows;
    if attempt < MAX_ATTEMPTS {
      ExchangeSays(cfg, env, w, Attach(day));
      ExchangeKeeps(cfg, env, w, Attach(day));
      var (w1, got) := Exchange(cfg, env, w, Attach(day));
      var next := AttachPeer(cfg, env, w1, day, attempt + 1);
      var end := AttachPeer(cfg, env, w, day, attempt);
      assert end == next || (end.0 == w1 && (end.1 == Failed ==> got.Got? && AttachFinal(got.reply)));
      hide AttachPeer;
      AttachPersists(cfg, env, w1, day, attempt + 1);
      if next.1 == Failed && Refused(w1, next.0, Attach(day), AttachFinal) {
        RefusedEarlier(w, w1, next.0, Attach(day), AttachFinal);
      }
      if got.Got? && AttachFinal(got.reply) { RefusedNow(w, w1, |w.net|, Attach(day), AttachFinal); }
    }
  }

  predicate AttachFinal(r: Reply) { r.status != 200 && r.status < 500 }
}
