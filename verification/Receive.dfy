/**
 ReceiveSnapshot and RestoreSnapshot as they are written: a straight line of file operations with early
 returns. Run without interruption they do what the handlers' separate steps do; those are what interleaves.
 */
module Receive {
  import opened Archive
  import opened Delivery
  import opened World
  import opened Preservation

  /** Which of the handler's own operations succeed; the last is the second look, or a restore's attach. */
  datatype Luck = Luck(stat: bool, make: bool, extract: bool, rename: bool, last: bool)

  /** The handler's steps, one after the other; those after the last have no effect. */
  function Turns(id: MsgId, l: Luck): (acts: seq<Act>)
    ensures |acts| == 6 && AllTurns(id, acts)
  {
    [Step(id, l.stat), Step(id, l.make), Step(id, l.extract), Step(id, l.rename), Step(id, l.last), Step(id, true)]
  }

  /** The deferred clean-up and the answer. */
  function Done(w: World, id: MsgId, reply: Reply): World
    requires id in w.handlers
  {
    Goto(Answered(w.(temps := w.temps - {id}), id, reply), id, Over)
  }

  predicate AllTurns(id: MsgId, acts: seq<Act>) { forall i :: 0 <= i < |acts| ==> acts[i].Step? && acts[i].id == id }

  lemma GotoTwice(w: World, id: MsgId, a: Stage, b: Stage)
    requires id in w.handlers
    ensures Goto(Goto(w, id, a), id, b) == Goto(w, id, b)
  {
  }

  lemma {:induction false} OverStays(cfg: Config, w: World, id: MsgId, acts: seq<Act>)
    requires id in w.handlers && w.handlers[id].stage == Over && AllTurns(id, acts)
    ensures Settle(cfg, w, acts) == w
    decreases acts
  {
    if acts != [] { OverStays(cfg, w, id, acts[1..]); }
  }

  /** Once it has a reply, any further turns clean up and answer. */
  lemma ClosingEnds(cfg: Config, w: World, id: MsgId, reply: Reply, acts: seq<Act>)
    requires id in w.handlers && acts != [] && AllTurns(id, acts)
    ensures Settle(cfg, Goto(w, id, Closing(reply)), acts) == Done(w, id, reply)
  {
    var m := Goto(w, id, Closing(reply));
    assert Do(cfg, m, acts[0]) == Done(w, id, reply) by { DoneAfterClosing(cfg, w, id, reply, acts[0].ok); }
    OverStays(cfg, Done(w, id, reply), id, acts[1..]);
    hide Goto, Do, Done;
  }

  lemma DoneAfterClosing(cfg: Config, w: World, id: MsgId, reply: Reply, ok: bool)
    requires id in w.handlers
    ensures StepHandler(cfg, Goto(w, id, Closing(reply)), id, ok) == Done(w, id, reply)
  {
  }

  lemma StatTurn(cfg: Config, w: World, id: MsgId, ok: bool)
    requires id in w.handlers && w.handlers[id].stage == Begin
    ensures StepHandler(cfg, w, id, ok) ==
            Goto(w, id, if ok && w.handlers[id].day in w.dirs then Closing(Exists409()) else Vacant)
  {
  }

  lemma MakeTurn(cfg: Config, w: World, id: MsgId, ok: bool)
    requires id in w.handlers
    ensures StepHandler(cfg, Goto(w, id, Vacant), id, ok) ==
            if ok then Goto(w.(temps := w.temps[id := map[]]), id, Made) else Goto(w, id, Closing(Plainly(500, "")))
  {
    var m := Goto(w, id, Vacant);
    GotoTwice(w, id, Vacant, Closing(Plainly(500, "")));
    GotoTwice(w.(temps := w.temps[id := map[]]), id, Vacant, Made);
    assert Goto(w.(temps := w.temps[id := map[]]), id, Vacant) == m.(temps := m.temps[id := map[]]);
  }

  lemma ExtractTurn(cfg: Config, w: World, id: MsgId, ok: bool)
    requires id in w.handlers
    ensures var h := w.handlers[id];
            var x := Unpack(cfg.sha1, TmpDir(cfg, h.day, id), h.stream);
            var w' := w.(temps := w.temps[id := x.nodes]);
            StepHandler(cfg, Goto(w, id, Made), id, ok) ==
            if !ok then Goto(w, id, Closing(Rejection(h.restore, false)))
            else if x.result.Accepted? then Goto(w', id, Ready(x.result.written))
            else Goto(w', id, Closing(Rejection(h.restore, x.result.err.Mismatch?)))
  {
    hide Unpack, TmpDir, Rejection, StepExtract, StepRename;
    var h, m := w.handlers[id], Goto(w, id, Made);
    assert m.handlers[id] == h.(stage := Made);
    assert StepHandler(cfg, m, id, ok) == StepExtract(cfg, m, id, ok);
    ExtractCases(cfg, m, id, ok);
    var x := Unpack(cfg.sha1, TmpDir(cfg, h.day, id), h.stream);
    var w' := w.(temps := w.temps[id := x.nodes]);
    assert m.(temps := m.temps[id := x.nodes]) == Goto(w', id, Made);
    GotoTwice(w, id, Made, Closing(Rejection(h.restore, false)));
    if x.result.Accepted? {
      GotoTwice(w', id, Made, Ready(x.result.written));
    } else {
      GotoTwice(w', id, Made, Closing(Rejection(h.restore, x.result.err.Mismatch?)));
    }
    hide Goto;
  }

  /** The rename, seen from before: moved away, or not. */
  function Renamed(w: World, id: MsgId): (w': World)
    requires id in w.handlers && id in w.temps
    ensures w'.handlers == w.handlers && w'.attached == w.attached
  {
    var h := w.handlers[id];
    w.(dirs := w.dirs[h.day := w.temps[id]], temps := w.temps - {id}, installs := w.installs + [Install(h.day, id, h.stream)])
  }

  function AfterRename(restore: bool, bytes: nat): Stage {
    if restore then Attaching(bytes) else Closing(Reply(200, "", [], bytes, true))
  }

  lemma RenameTurn(cfg: Config, w: World, id: MsgId, bytes: nat, ok: bool)
    requires id in w.handlers && id in w.temps
    ensures StepHandler(cfg, Goto(w, id, Ready(bytes)), id, ok) ==
            if ok && w.handlers[id].day !in w.dirs then Goto(Renamed(w, id), id, AfterRename(w.handlers[id].restore, bytes))
            else Goto(w, id, Unmoved)
  {
    var m := Goto(w, id, Ready(bytes));
    assert StepHandler(cfg, m, id, ok) == StepRename(m, id, bytes, ok);
    GotoTwice(w, id, Ready(bytes), Unmoved);
    GotoTwice(Renamed(w, id), id, Ready(bytes), AfterRename(w.handlers[id].restore, bytes));
    assert Goto(Renamed(w, id), id, Ready(bytes)) == Renamed(w, id).(handlers := m.handlers);
  }

  lemma RestatTurn(cfg: Config, w: World, id: MsgId, ok: bool)
    requires id in w.handlers
    ensures StepHandler(cfg, Goto(w, id, Unmoved), id, ok) ==
            Goto(w, id, Closing(if ok && w.handlers[id].day in w.dirs then Exists409() else Plainly(500, "")))
  {
    GotoTwice(w, id, Unmoved, Closing(if ok && w.handlers[id].day in w.dirs then Exists409() else Plainly(500, "")));
  }

  lemma AttachTurn(cfg: Config, w: World, id: MsgId, bytes: nat, ok: bool)
    requires id in w.handlers
    ensures StepHandler(cfg, Goto(w, id, Attaching(bytes)), id, ok) ==
            if ok then Goto(w.(attached := w.attached + {w.handlers[id].day}), id, Closing(Reply(202, "", [], bytes, true)))
            else Goto(w, id, Closing(Plainly(500, "")))
  {
    var w' := w.(attached := w.attached + {w.handlers[id].day});
    GotoTwice(w, id, Attaching(bytes), Closing(Plainly(500, "")));
    GotoTwice(w', id, Attaching(bytes), Closing(Reply(202, "", [], bytes, true)));
    assert Goto(w', id, Attaching(bytes)) == Goto(w, id, Attaching(bytes)).(attached := w'.attached);
  }

  function Chance(l: Luck, k: nat): bool {
    match k
    case 0 => l.stat
    case 1 => l.make
    case 2 => l.extract
    case 3 => l.rename
    case 4 => l.last
    case _ => true
  }

  /** What is left after the first `k` turns. */
  function Left(cfg: Config, w: World, id: MsgId, l: Luck, k: nat): World
    requires k <= 6
  {
    Settle(cfg, w, Turns(id, l)[k..])
  }

  lemma SettleFirst(cfg: Config, w: World, id: MsgId, ok: bool, acts: seq<Act>)
    requires acts != [] && acts[0] == Step(id, ok) && id in w.handlers
    ensures Settle(cfg, w, acts) == Settle(cfg, StepHandler(cfg, w, id, ok), acts[1..])
  {
    hide StepHandler;
  }

  lemma NextTurn(cfg: Config, w: World, id: MsgId, l: Luck, k: nat)
    requires k < 6 && id in w.handlers
    ensures Left(cfg, w, id, l, k) == Left(cfg, StepHandler(cfg, w, id, Chance(l, k)), id, l, k + 1)
  {
    hide StepHandler, Settle;
    var acts := Turns(id, l)[k..];
    assert acts[0] == Turns(id, l)[k] == Step(id, Chance(l, k));
    hide Turns, Chance;
    assert acts[1..] == Turns(id, l)[k + 1..];
    SettleFirst(cfg, w, id, Chance(l, k), acts);
  }

  lemma LastTurns(cfg: Config, w: World, id: MsgId, l: Luck, k: nat, reply: Reply)
    requires k < 6 && id in w.handlers
    ensures Left(cfg, Goto(w, id, Closing(reply)), id, l, k) == Done(w, id, reply)
  {
    ClosingEnds(cfg, w, id, reply, Turns(id, l)[k..]);
    hide Goto, Done;
  }

  lemma InPlay(w: World, id: MsgId, stage: Stage)
    requires id in w.handlers
    ensures id in Goto(w, id, stage).handlers
  {
  }

  /**
   The world when the handler returns, but for its clean-up, and its reply; of a restore, from the opened
   archive on.
   */
  function HandledBy(cfg: Config, w: World, id: MsgId, l: Luck): (r: (World, Reply))
    requires id in w.handlers
    ensures r.0.handlers == w.handlers
  {
    var h := w.handlers[id];
    if l.stat && h.day in w.dirs then (w, Exists409())
    else if !l.make then (w, Plainly(500, ""))
    else
      var made := w.(temps := w.temps[id := map[]]);
      if !l.extract then (made, Rejection(h.restore, false))
      else
        var x := Unpack(cfg.sha1, TmpDir(cfg, h.day, id), h.stream);
        var full := w.(temps := w.temps[id := x.nodes]);
        if x.result.Rejected? then (full, Rejection(h.restore, x.result.err.Mismatch?))
        else if !l.rename || h.day in w.dirs then
          (full, if l.last && h.day in w.dirs then Exists409() else Plainly(500, ""))
        else if !h.restore then (Renamed(full, id), Reply(200, "", [], x.result.written, true))
        else if l.last then
          (Renamed(full, id).(attached := w.attached + {h.day}), Reply(202, "", [], x.result.written, true))
        else (Renamed(full, id), Plainly(500, ""))
  }

  /** The handler as written does what its separate steps do, one after the other. */
  lemma HandledTurns(cfg: Config, w: World, id: MsgId, l: Luck)
    requires id in w.handlers && w.handlers[id].stage == Begin
    ensures var (w', reply) := HandledBy(cfg, w, id, l); Settle(cfg, w, Turns(id, l)) == Done(w', id, reply)
  {
    hide Turns, Renamed, Settle, StepHandler, Unpack, TmpDir, Rejection, Goto, Done, Exists409, Plainly;
    assert Turns(id, l)[0..] == Turns(id, l);
    assert Settle(cfg, w, Turns(id, l)) == Left(cfg, w, id, l, 0);
    hide Left;
    NextTurn(cfg, w, id, l, 0);
    StatTurn(cfg, w, id, l.stat);
    if l.stat && w.handlers[id].day in w.dirs {
      LastTurns(cfg, w, id, l, 1, Exists409());
    } else {
      InPlay(w, id, Vacant);
      NextTurn(cfg, Goto(w, id, Vacant), id, l, 1);
      MakeTurn(cfg, w, id, l.make);
      if l.make { HandledMade(cfg, w, id, l); } else { LastTurns(cfg, w, id, l, 2, Plainly(500, "")); }
    }
  }

  lemma HandledMade(cfg: Config, w: World, id: MsgId, l: Luck)
    requires id in w.handlers && l.make && !(l.stat && w.handlers[id].day in w.dirs)
    ensures var (w', reply) := HandledBy(cfg, w, id, l);
            Left(cfg, Goto(w.(temps := w.temps[id := map[]]), id, Made), id, l, 2) == Done(w', id, reply)
  {
    hide Left, Turns, Renamed, StepHandler, Unpack, TmpDir, Rejection, Goto, Done, Exists409, Plainly;
    var h, made := w.handlers[id], w.(temps := w.temps[id := map[]]);
    InPlay(made, id, Made);
    NextTurn(cfg, Goto(made, id, Made), id, l, 2);
    ExtractTurn(cfg, made, id, l.extract);
    var x := Unpack(cfg.sha1, TmpDir(cfg, h.day, id), h.stream);
    var full := w.(temps := w.temps[id := x.nodes]);
    assert made.temps[id := x.nodes] == full.temps;
    if !l.extract {
      LastTurns(cfg, made, id, l, 3, Rejection(h.restore, false));
    } else if x.result.Rejected? {
      LastTurns(cfg, full, id, l, 3, Rejection(h.restore, x.result.err.Mismatch?));
    } else {
      HandledExtracted(cfg, full, id, l, x.result.written);
    }
  }

  lemma HandledExtracted(cfg: Config, w: World, id: MsgId, l: Luck, bytes: nat)
    requires id in w.handlers && id in w.temps
    ensures var h := w.handlers[id];
            Left(cfg, Goto(w, id, Ready(bytes)), id, l, 3) ==
            if !l.rename || h.day in w.dirs then
              Done(w, id, if l.last && h.day in w.dirs then Exists409() else Plainly(500, ""))
            else if !h.restore then Done(Renamed(w, id), id, Reply(200, "", [], bytes, true))
            else if l.last then
              Done(Renamed(w, id).(attached := Renamed(w, id).attached + {h.day}), id, Reply(202, "", [], bytes, true))
            else Done(Renamed(w, id), id, Plainly(500, ""))
  {
    hide Left, Turns, Renamed, StepHandler, Goto, Done, Exists409, Plainly;
    var h := w.handlers[id];
    InPlay(w, id, Ready(bytes));
    NextTurn(cfg, Goto(w, id, Ready(bytes)), id, l, 3);
    RenameTurn(cfg, w, id, bytes, l.rename);
    if !l.rename || h.day in w.dirs {
      InPlay(w, id, Unmoved);
      NextTurn(cfg, Goto(w, id, Unmoved), id, l, 4);
      RestatTurn(cfg, w, id, l.last);
      LastTurns(cfg, w, id, l, 5, if l.last && h.day in w.dirs then Exists409() else Plainly(500, ""));
    } else if h.restore {
      AttachLeft(cfg, Renamed(w, id), id, l, bytes);
    } else {
      LastTurns(cfg, Renamed(w, id), id, l, 4, Reply(200, "", [], bytes, true));
    }
  }

  lemma AttachLeft(cfg: Config, w: World, id: MsgId, l: Luck, bytes: nat)
    requires id in w.handlers
    ensures Left(cfg, Goto(w, id, Attaching(bytes)), id, l, 4) ==
            if l.last then Done(w.(attached := w.attached + {w.handlers[id].day}), id, Reply(202, "", [], bytes, true))
            else Done(w, id, Plainly(500, ""))
  {
    hide Left, Turns, StepHandler, Goto, Done, Plainly;
    InPlay(w, id, Attaching(bytes));
    NextTurn(cfg, Goto(w, id, Attaching(bytes)), id, l, 4);
    AttachTurn(cfg, w, id, bytes, l.last);
    if l.last {
      LastTurns(cfg, w.(attached := w.attached + {w.handlers[id].day}), id, l, 5, Reply(202, "", [], bytes, true));
    } else {
      LastTurns(cfg, w, id, l, 5, Plainly(500, ""));
    }
  }

  /** The target node. A request that was accepted has its handler at its first stage. */
  class Target {
    const cfg: Config
    var w: World

    method ReceiveSnapshot(id: MsgId, l: Luck) returns (reply: Reply)
      requires id in w.handlers && w.handlers[id].stage == Begin && !w.handlers[id].restore
      modifies this
      ensures w == Settle(cfg, old(w), Turns(id, l))
      ensures id in w.replies && w.replies[id] == reply
    {
      HandledTurns(cfg, w, id, l);
      hide Turns, Settle, HandledBy;
      reply := Received(id, l);
      // deferred: the temporary directory is removed, whatever the reply
      w := w.(temps := w.temps - {id});
      w := Goto(Answered(w, id, reply), id, Over);
    }

    /** Up to the reply. */
    method Received(id: MsgId, l: Luck) returns (reply: Reply)
      requires id in w.handlers && !w.handlers[id].restore
      modifies this
      ensures (w, reply) == HandledBy(cfg, old(w), id, l)
    {
      hide Unpack, TmpDir, Rejection, Exists409, Plainly;
      var day, stream := w.handlers[id].day, w.handlers[id].stream;
      if l.stat && day in w.dirs { return Exists409(); }
      if !l.make { return Plainly(500, ""); }
      w := w.(temps := w.temps[id := map[]]);
      if !l.extract { return Rejection(false, false); }
      var x := Unpack(cfg.sha1, TmpDir(cfg, day, id), stream);
      w := w.(temps := w.temps[id := x.nodes]);
      assert w.temps == old(w).temps[id := x.nodes];
      if x.result.Rejected? { return Rejection(false, x.result.err.Mismatch?); }
      if !l.rename || day in w.dirs {
        if l.last && day in w.dirs { return Exists409(); }
        return Plainly(500, "");
      }
      w := w.(dirs := w.dirs[day := w.temps[id]], temps := w.temps - {id},
              installs := w.installs + [Install(day, id, stream)]);
      return Reply(200, "", [], x.result.written, true);
    }
  }

  // ----- the answers ---------------------------------------------------------------------------

  /** Extracting what arrived into the handler's temporary directory. */
  function Unpacked(cfg: Config, h: Handler, id: MsgId): Extraction {
    Unpack(cfg.sha1, TmpDir(cfg, h.day, id), h.stream)
  }

  lemma DoneLeaves(w: World, id: MsgId, reply: Reply)
    requires id in w.handlers
    ensures var w' := Done(w, id, reply);
            && id in w'.replies && w'.replies[id] == reply && id !in w'.temps
            && w'.dirs == w.dirs && w'.attached == w.attached && w'.installs == w.installs
  {
  }

  /** A receive, as ReceiveAnswers states it. */
  ghost predicate ReceivedAs(cfg: Config, w: World, id: MsgId, l: Luck, w': World, r: Reply)
    requires id in w.handlers
  {
    var h, x := w.handlers[id], Unpacked(cfg, w.handlers[id], id);
    var there, extracted := h.day in w.dirs, l.make && l.extract && x.result.Accepted?;
    && r.status in {200, 400, 409, 500}
    && (r.status == 409 <==> there && (l.stat || (extracted && l.last)))
    && (r.status == 400 <==> !(there && l.stat) && l.make && !extracted)
    && (r.status == 200 <==> !there && extracted && l.rename)
    && (r.status == 200 ==> r.readable && r.bytes == x.result.written)
    && w'.dirs == (if r.status == 200 then w.dirs[h.day := x.nodes] else w.dirs)
    && w'.installs == w.installs + (if r.status == 200 then [Install(h.day, id, h.stream)] else [])
    && w'.attached == w.attached
  }

  lemma HandledReceive(cfg: Config, w: World, id: MsgId, l: Luck)
    requires id in w.handlers && !w.handlers[id].restore
    ensures var (w', r) := HandledBy(cfg, w, id, l); ReceivedAs(cfg, w, id, l, w', r)
  {
    hide Unpack, TmpDir;
  }

  /**
   What a receive answers and does when nobody interrupts it. 409: the directory is there, seen at the start
   or after the failed rename. 400: the archive was rejected. 200: it was not, and is now the directory.
   */
  lemma ReceiveAnswers(cfg: Config, w: World, id: MsgId, l: Luck)
    requires id in w.handlers && w.handlers[id].stage == Begin && !w.handlers[id].restore
    ensures var w' := Settle(cfg, w, Turns(id, l));
            id in w'.replies && id !in w'.temps && ReceivedAs(cfg, w, id, l, w', w'.replies[id])
  {
    HandledTurns(cfg, w, id, l);
    HandledReceive(cfg, w, id, l);
    var (w', r) := HandledBy(cfg, w, id, l);
    DoneLeaves(w', id, r);
    hide Settle, Turns, HandledBy, Done, Unpacked;
  }

  /** A restore, as RestoreAnswers states it. */
  ghost predicate RestoredAs(cfg: Config, w: World, id: MsgId, l: Luck, w': World, r: Reply)
    requires id in w.handlers
  {
    var h, x := w.handlers[id], Unpacked(cfg, w.handlers[id], id);
    var there, extracted := h.day in w.dirs, l.make && l.extract && x.result.Accepted?;
    var moved := !there && extracted && l.rename;
    && r.status in {202, 409, 500}
    && (r.status == 409 <==> there && (l.stat || (extracted && l.last)))
    && (r.status == 202 <==> moved && l.last)
    && (r.status == 202 ==> r.bytes == x.result.written)
    && w'.dirs == (if moved then w.dirs[h.day := x.nodes] else w.dirs)
    && w'.installs == w.installs + (if moved then [Install(h.day, id, h.stream)] else [])
    && w'.attached == (if r.status == 202 then w.attached + {h.day} else w.attached)
  }

  lemma HandledRestore(cfg: Config, w: World, id: MsgId, l: Luck)
    requires id in w.handlers && w.handlers[id].restore
    ensures var (w', r) := HandledBy(cfg, w, id, l); RestoredAs(cfg, w, id, l, w', r)
  {
    hide Unpack, TmpDir;
  }

  /** The same of a restore, which answers 500 to a rejected archive and 202 once the day is also attached. */
  lemma RestoreAnswers(cfg: Config, w: World, id: MsgId, l: Luck)
    requires id in w.handlers && w.handlers[id].stage == Begin && w.handlers[id].restore
    ensures var w' := Settle(cfg, w, Turns(id, l));
            id in w'.replies && id !in w'.temps && RestoredAs(cfg, w, id, l, w', w'.replies[id])
  {
    HandledTurns(cfg, w, id, l);
    HandledRestore(cfg, w, id, l);
    var (w', r) := HandledBy(cfg, w, id, l);
    DoneLeaves(w', id, r);
    hide Settle, Turns, HandledBy, Done, Unpacked;
  }
}
