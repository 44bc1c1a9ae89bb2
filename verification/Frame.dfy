/**
 What a run leaves as it was: on both nodes, every day it did not reach.
 */
module Frame {
  import opened Delivery
  import opened World
  import opened Invariant
  import opened Preservation
  import opened Transfer
  import opened Bookkeeping
  import opened RunReport

  // ----- environments --------------------------------------------------------------------------

  predicate OnlyOwn(id: MsgId, acts: seq<Act>) {
    forall i :: 0 <= i < |acts| ==> (acts[i].Take? || acts[i].Step?) && acts[i].id == id
  }

  /** Nobody but the transfer is at work. */
  ghost predicate Alone(env: Env) {
    forall w: World {:trigger env(w)} :: w.net != [] ==> OnlyOwn(|w.net| - 1, env(w).acts)
  }

  /** Serving the request may change what a node holds of the day. */
  predicate Concerns(msg: Msg, day: Day) {
    match msg
    case Detach(d) => d == day
    case Receive(d, _) => d == day
    case Attach(d) => d == day
    case Restore(d) => d == day
    case _ => false
  }

  /** Other than for the request itself, nothing is done about this day. */
  predicate SparesDay(w: World, own: MsgId, day: Day, a: Act) {
    match a
    case Take(j, _) => j != own && j < |w.net| ==> !Concerns(w.net[j].msg, day)
    case Step(j, _) => j != own && j in w.handlers ==> w.handlers[j].day != day
    case _ => true
  }

  predicate SpareDay(cfg: Config, w: World, own: MsgId, day: Day, acts: seq<Act>)
    decreases acts
  {
    acts == [] || (SparesDay(w, own, day, acts[0]) && SpareDay(cfg, Do(cfg, w, acts[0]), own, day, acts[1..]))
  }

  /** Whoever else is at work, none of it is about this day. */
  ghost predicate Spared(cfg: Config, env: Env, day: Day) {
    forall w: World {:trigger env(w)} :: w.net != [] ==> SpareDay(cfg, w, |w.net| - 1, day, env(w).acts)
  }

  lemma {:induction false} OnlyOwnSpare(cfg: Config, w: World, own: MsgId, day: Day, acts: seq<Act>)
    requires OnlyOwn(own, acts)
    ensures SpareDay(cfg, w, own, day, acts)
    decreases acts
  {
    hide Do;
    if acts != [] {
      assert acts[0].id == own;
      OnlyOwnSpare(cfg, Do(cfg, w, acts[0]), own, day, acts[1..]);
    }
  }

  lemma AloneSpares(cfg: Config, env: Env, day: Day)
    requires Alone(env)
    ensures Spared(cfg, env, day)
  {
    forall w: World | w.net != [] ensures SpareDay(cfg, w, |w.net| - 1, day, env(w).acts) {
      OnlyOwnSpare(cfg, w, |w.net| - 1, day, env(w).acts);
    }
    hide SpareDay, OnlyOwn;
  }

  // ----- the day as it was ---------------------------------------------------------------------

  /** Neither node has the day now if it had not, nor lacks it if it had, nor has it changed. */
  predicate DayAsItWas(w: World, w': World, day: Day) {
    && (day in w'.held <==> day in w.held)
    && (day in w'.attached <==> day in w.attached)
    && (day in w'.dirs <==> day in w.dirs) && (day in w.dirs ==> w'.dirs[day] == w.dirs[day])
  }

  /** Each handler serves a request about its day. */
  predicate Known(w: World) {
    forall id :: id in w.handlers ==> id < |w.net| && Concerns(w.net[id].msg, w.handlers[id].day)
  }

  lemma InvIsKnown(cfg: Config, w: World)
    requires Inv(cfg, w)
    ensures Known(w)
  {
    hide Inv, StageOk, Body, PartitionName;
    forall id | id in w.handlers ensures id < |w.net| && Concerns(w.net[id].msg, w.handlers[id].day) {
      HandlerAt(cfg, w, id);
    }
  }

  lemma ServedSpares(cfg: Config, w: World, id: MsgId, how: How, day: Day)
    requires Known(w) && (id < |w.net| ==> !Concerns(w.net[id].msg, day))
    ensures var w' := Serve(cfg, w, id, how); DayAsItWas(w, w', day) && Known(w')
  {
    hide ServeMsg, Known;
    if id < |w.net| && id !in w.served {
      var w1 := w.(served := w.served + {id});
      KnownSame(w, w1);
      MsgSpares(cfg, w1, id, how, day);
    }
  }

  lemma KnownSame(w: World, w': World)
    requires Known(w) && w'.net == w.net && w'.handlers == w.handlers
    ensures Known(w')
  {
  }

  lemma MsgSpares(cfg: Config, w: World, id: MsgId, how: How, day: Day)
    requires Known(w) && id < |w.net| && !Concerns(w.net[id].msg, day)
    ensures var w' := ServeMsg(cfg, w, id, w.net[id].msg, how); DayAsItWas(w, w', day) && Known(w')
  {
    hide ServeCreate, ServeDelete, ServeStale, ServeDetach, ServeAttach, ServeUpload, Known;
    var w' := ServeMsg(cfg, w, id, w.net[id].msg, how);
    match w.net[id].msg {
      case CreateSnapshot(d) => CreateSpares(w, id, d, how); KnownSame(w, w');
      case DeleteSnapshot(s) => DeleteSpares(w, id, s, how); KnownSame(w, w');
      case DeleteStale => StaleSpares(w, id, how); KnownSame(w, w');
      case Detach(d) => DetachSpares(w, id, d, how, day); KnownSame(w, w');
      case Receive(d, s) => UploadSpares(cfg, w, id, d, false, s !in w.snaps, how);
      case Attach(d) => AttachSpares(w, id, d, how, day); KnownSame(w, w');
      case Restore(d) => UploadSpares(cfg, w, id, d, true, false, how);
    }
  }

  /** Nothing changed that a day or a handler is in. */
  predicate Elsewhere(w: World, w': World) {
    && w'.held == w.held && w'.dirs == w.dirs && w'.attached == w.attached
    && w'.net == w.net && w'.handlers == w.handlers
  }

  lemma CreateSpares(w: World, id: MsgId, d: Day, how: How)
    ensures Elsewhere(w, ServeCreate(w, id, d, how))
  {
    hide Numbers, Repeat, Plainly, Answered, Elsewhere;
    forall r: Reply ensures Elsewhere(w, Answered(w, id, r)) {
      AnsweredElsewhere(w, w, id, r);
    }
    if d in w.held && how.effect {
      var ids := Numbers(|w.issued|, how.extra + 1);
      var w' := w.(issued := w.issued + Repeat(id, how.extra + 1), snaps := w.snaps + map s | s in ids :: d);
      forall r: Reply ensures Elsewhere(w, Answered(w', id, r)) {
        AnsweredElsewhere(w, w', id, r);
      }
    }
  }

  lemma AnsweredElsewhere(w: World, w': World, id: MsgId, r: Reply)
    requires w' == w.(issued := w'.issued, snaps := w'.snaps)
    ensures Elsewhere(w, Answered(w', id, r))
  {
  }

  lemma DeleteSpares(w: World, id: MsgId, snap: SnapId, how: How)
    ensures Elsewhere(w, ServeDelete(w, id, snap, how))
  {
    hide ClaimsGone;
  }

  lemma StaleSpares(w: World, id: MsgId, how: How)
    ensures Elsewhere(w, ServeStale(w, id, how))
  {
  }

  lemma DetachSpares(w: World, id: MsgId, d: Day, how: How, day: Day)
    requires d != day
    ensures var w' := ServeDetach(w, id, d, how);
            DayAsItWas(w, w', day) && w'.net == w.net && w'.handlers == w.handlers
  {
    hide ClaimsDetached;
  }

  lemma AttachSpares(w: World, id: MsgId, d: Day, how: How, day: Day)
    requires d != day
    ensures var w' := ServeAttach(w, id, d, how);
            DayAsItWas(w, w', day) && w'.net == w.net && w'.handlers == w.handlers
  {
    hide AttachOk, ClaimsAttached, PartitionName;
  }

  lemma UploadSpares(cfg: Config, w: World, id: MsgId, d: Day, restore: bool, lost: bool, how: How)
    requires Known(w) && id < |w.net| && Concerns(w.net[id].msg, d)
    ensures var w' := ServeUpload(cfg, w, id, d, restore, lost, how);
            w'.held == w.held && w'.dirs == w.dirs && w'.attached == w.attached && Known(w')
  {
    hide Body, PartitionName, Known, Concerns;
    if PartitionName(d) {
      var w' := ServeUpload(cfg, w, id, d, restore, lost, how);
      assert w' == w.(handlers := w.handlers[id := w'.handlers[id]]) && w'.handlers[id].day == d;
      NewHandlerKnown(w, id, w'.handlers[id]);
    } else {
      KnownSame(w, Answered(w, id, Plainly(400, "")));
    }
  }

  lemma NewHandlerKnown(w: World, id: MsgId, h: Handler)
    requires Known(w) && id < |w.net| && Concerns(w.net[id].msg, h.day)
    ensures Known(w.(handlers := w.handlers[id := h]))
  {
    hide Concerns;
  }

  lemma SteppedSpares(cfg: Config, w: World, id: MsgId, ok: bool, day: Day)
    requires Known(w) && id in w.handlers && w.handlers[id].day != day
    ensures var w' := StepHandler(cfg, w, id, ok); DayAsItWas(w, w', day) && Known(w')
  {
    hide StepExtract, StepRename, Known;
    StepKnown(cfg, w, id, ok);
    match w.handlers[id].stage {
      case Made => ExtractSpares(cfg, w, id, ok);
      case Ready(bytes) => RenameSpares(w, id, bytes, ok, day);
      case _ =>
    }
  }

  lemma StepKnown(cfg: Config, w: World, id: MsgId, ok: bool)
    requires Known(w) && id in w.handlers
    ensures Known(StepHandler(cfg, w, id, ok))
  {
    HandlersStay(cfg, w, id, ok);
    DoNet(cfg, w, Step(id, ok));
    hide StepHandler;
  }

  /** No handler is new, and each keeps its day. */
  predicate SameDuties(w: World, w': World) {
    forall j :: j in w'.handlers ==> j in w.handlers && w'.handlers[j].day == w.handlers[j].day
  }

  lemma HandlersStay(cfg: Config, w: World, id: MsgId, ok: bool)
    requires id in w.handlers
    ensures SameDuties(w, StepHandler(cfg, w, id, ok))
  {
    hide StepExtract, StepRename;
    match w.handlers[id].stage {
      case Made => ExtractStays(cfg, w, id, ok);
      case Ready(bytes) => RenameStays(w, id, bytes, ok);
      case _ =>
    }
  }

  lemma ExtractStays(cfg: Config, w: World, id: MsgId, ok: bool)
    requires id in w.handlers
    ensures SameDuties(w, StepExtract(cfg, w, id, ok))
  {
    hide Unpack, TmpDir, Rejection;
  }

  lemma RenameStays(w: World, id: MsgId, bytes: nat, ok: bool)
    requires id in w.handlers
    ensures SameDuties(w, StepRename(w, id, bytes, ok))
  {
  }

  lemma ExtractSpares(cfg: Config, w: World, id: MsgId, ok: bool)
    requires id in w.handlers
    ensures var w' := StepExtract(cfg, w, id, ok);
            w'.held == w.held && w'.dirs == w.dirs && w'.attached == w.attached
  {
    hide Unpack, TmpDir, Rejection;
  }

  lemma RenameSpares(w: World, id: MsgId, bytes: nat, ok: bool, day: Day)
    requires id in w.handlers && w.handlers[id].day != day
    ensures DayAsItWas(w, StepRename(w, id, bytes, ok), day)
  {
  }

  lemma ActSpares(cfg: Config, w: World, own: MsgId, a: Act, day: Day)
    requires Known(w) && own < |w.net| && !Concerns(w.net[own].msg, day) && SparesDay(w, own, day, a)
    ensures var w' := Do(cfg, w, a); DayAsItWas(w, w', day) && Known(w') && w.net <= w'.net
  {
    hide Serve, StepHandler, Concerns;
    match a {
      case Take(id, how) =>
        ServedSpares(cfg, w, id, how, day);
        DoNet(cfg, w, a);
      case Step(id, ok) =>
        if id in w.handlers { SteppedSpares(cfg, w, id, ok, day); }
        DoNet(cfg, w, a);
      case Crash =>
      case Inject(msg) =>
    }
  }

  lemma {:induction false} ActsSpare(cfg: Config, w: World, own: MsgId, acts: seq<Act>, day: Day)
    requires Known(w) && own < |w.net| && !Concerns(w.net[own].msg, day) && SpareDay(cfg, w, own, day, acts)
    ensures DayAsItWas(w, Settle(cfg, w, acts), day) && Known(Settle(cfg, w, acts))
    decreases acts
  {
    hide Do, Concerns, Known, SparesDay;
    if acts != [] {
      var w' := Do(cfg, w, acts[0]);
      ActSpares(cfg, w, own, acts[0], day);
      assert w'.net[own] == w.net[own];
      ActsSpare(cfg, w', own, acts[1..], day);
    }
  }

  /** A request about other days leaves this one as it was. */
  lemma ExchangeSpares(cfg: Config, env: Env, w: World, msg: Msg, day: Day)
    requires Known(w) && Spared(cfg, env, day) && !Concerns(msg, day)
    ensures var w' := Exchange(cfg, env, w, msg).0; DayAsItWas(w, w', day) && Known(w')
  {
    var sent := Sent(w, msg);
    assert Known(sent);
    assert SpareDay(cfg, sent, |sent.net| - 1, day, env(sent).acts);
    hide Spared, SpareDay, Settle, Known, Concerns;
    ActsSpare(cfg, sent, |w.net|, env(sent).acts, day);
  }

  lemma {:induction false} TalkSpares(cfg: Config, env: Env, w: World, msgs: seq<Msg>, day: Day)
    requires Known(w) && Spared(cfg, env, day) && forall i :: 0 <= i < |msgs| ==> !Concerns(msgs[i], day)
    ensures DayAsItWas(w, Talk(cfg, env, w, msgs), day)
    decreases msgs
  {
    hide Exchange, Known, Spared, Concerns;
    if msgs != [] {
      ExchangeSpares(cfg, env, w, msgs[0], day);
      TalkSpares(cfg, env, Exchange(cfg, env, w, msgs[0]).0, msgs[1..], day);
    }
  }

  /**
   Days past a failure, and all others a run did not reach, are on both nodes as they were, as long as
   nobody else is at work on them.
   */
  lemma UnreachedUntouched(cfg: Config, env: Env, w: World, days: seq<Day>, day: Day)
    requires Inv(cfg, w) && Spared(cfg, env, day) && day !in Reached(RunTransfer(cfg, env, w, days), days)
    ensures DayAsItWas(w, RunTransfer(cfg, env, w, days).w, day)
  {
    hide Inv, Spared, RunTransfer, Reached, Known, Talk, Paid, Mine;
    var run := RunTransfer(cfg, env, w, days);
    var reached := Reached(run, days);
    InvIsKnown(cfg, w);
    RunBalances(cfg, env, w, days);
    var msgs :| Said(cfg, env, w, run.w, msgs) && OnlyThese(msgs, reached, run.given) && Paid(msgs, run);
    forall i | 0 <= i < |msgs| ensures !Concerns(msgs[i], day) {
      if msgs[i] != DeleteStale {
        var k :| 0 <= k < |reached| && AboutDay(msgs[i], reached[k], run.given);
        OtherDay(msgs[i], reached[k], run.given, day);
      }
    }
    TalkSpares(cfg, env, w, msgs, day);
  }

  lemma OtherDay(msg: Msg, about: Day, given: seq<SnapId>, day: Day)
    requires AboutDay(msg, about, given) && about != day
    ensures !Concerns(msg, day)
  {
  }
}
