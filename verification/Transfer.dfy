/**
 The transferring process: the calls of its two clients and the loop over sealed days, first as
 functions of the world they find, then as the methods of the source, proved equal to them.

 What the outside does is an environment: for every world in which a request has just been sent, what
 happens until the sender goes on, and what the sender then sees. As the list of requests only grows,
 no two requests of a history meet the same world, so environments range over all behaviours.
 */
module Transfer {
  import opened Archive
  import opened World

  datatype Seen = Heard | Unheard | Killed | Panicked

  datatype Fate = Fate(acts: seq<Act>, seen: Seen)

  type Env = World -> Fate

  datatype Got = Got(reply: Reply) | Nothing | Dead(panicked: bool)

  function Sent(w: World, msg: Msg): World { w.(net := w.net + [Packet(msg, true)]) }

  /** One request: sent, perhaps served, perhaps answered; the process may die meanwhile. */
  function Exchange(cfg: Config, env: Env, w: World, msg: Msg): (World, Got) {
    var fate := env(Sent(w, msg));
    var w' := Settle(cfg, Sent(w, msg), fate.acts);
    var got :=
      match fate.seen
      case Killed => Dead(false)
      case Panicked => Dead(true)
      case Unheard => Nothing
      case Heard => if |w.net| in w'.replies then Got(w'.replies[|w.net|]) else Nothing;
    (w', got)
  }

  // ----- VictoriaLogs client -------------------------------------------------------------------

  datatype Ended = Done | Failed | Halted(panicked: bool)

  datatype Created = Paths(ids: seq<SnapId>) | NotCreated | CreateHalted(panicked: bool)

  function Judge(got: Got, ok: Reply -> bool): Ended {
    match got
    case Dead(p) => Halted(p)
    case Nothing => Failed
    case Got(r) => if ok(r) then Done else Failed
  }

  function Create(cfg: Config, env: Env, w: World, day: Day): (World, Created) {
    var (w', got) := Exchange(cfg, env, w, CreateSnapshot(day));
    (w', match got
         case Dead(p) => CreateHalted(p)
         case Nothing => NotCreated
         case Got(r) => if r.status == 200 && r.readable then Paths(r.ids) else NotCreated)
  }

  function Delete(cfg: Config, env: Env, w: World, snap: SnapId): (World, Ended) {
    var (w', got) := Exchange(cfg, env, w, DeleteSnapshot(snap));
    (w', Judge(got, DeleteOk))
  }

  function DetachDay(cfg: Config, env: Env, w: World, day: Day): (World, Ended) {
    var (w', got) := Exchange(cfg, env, w, Detach(day));
    (w', Judge(got, DetachOk))
  }

  // ----- peer client ---------------------------------------------------------------------------

  const MAX_ATTEMPTS: nat := 3

  datatype Sending = Received(bytes: nat) | Conflict | NotSent | SendHalted(panicked: bool)

  /** Which failures sendOnce calls transient: 5xx, and a 400 that reports a checksum mismatch. */
  predicate RetrySend(r: Reply) {
    r.status >= 500 || (r.status == 400 && Contains(Head(r), "checksum mismatch"))
  }

  /** SendPartition from the given attempt on. */
  function Send(cfg: Config, env: Env, w: World, day: Day, snap: SnapId, attempt: nat): (World, Sending)
    decreases MAX_ATTEMPTS - attempt
  {
    if attempt >= MAX_ATTEMPTS then (w, NotSent)
    else
      var (w', got) := Exchange(cfg, env, w, Receive(day, snap));
      match got
      case Dead(p) => (w', SendHalted(p))
      case Nothing => Send(cfg, env, w', day, snap, attempt + 1)
      case Got(r) =>
        if r.status == 200 then (w', if r.readable then Received(r.bytes) else NotSent)
        else if r.status == 409 then (w', Conflict)
        else if RetrySend(r) then Send(cfg, env, w', day, snap, attempt + 1)
        else (w', NotSent)
  }

  /** Attach from the given attempt on. */
  function AttachPeer(cfg: Config, env: Env, w: World, day: Day, attempt: nat): (World, Ended)
    decreases MAX_ATTEMPTS - attempt
  {
    if attempt >= MAX_ATTEMPTS then (w, Failed)
    else
      var (w', got) := Exchange(cfg, env, w, Attach(day));
      match got
      case Dead(p) => (w', Halted(p))
      case Nothing => AttachPeer(cfg, env, w', day, attempt + 1)
      case Got(r) =>
        if r.status == 200 then (w', Done)
        else if r.status >= 500 then AttachPeer(cfg, env, w', day, attempt + 1)
        else (w', Failed)
  }

  // ----- one day -------------------------------------------------------------------------------

  datatype DayEnd = Transferred | Skipped | Broke(stage: string) | Gone(panicked: bool)

  /** A delete call for a snapshot, and whether it succeeded. */
  datatype Deletion = Deletion(snap: SnapId, ok: bool)

  /** One day's move: where it ended, the snapshots it was given and the deletes it made. */
  datatype Moved = Moved(w: World, end: DayEnd, given: seq<SnapId>, ledger: seq<Deletion>)

  function DeleteAll(cfg: Config, env: Env, w: World, ids: seq<SnapId>): (World, Ended, seq<Deletion>)
    decreases ids
  {
    if ids == [] then (w, Done, [])
    else
      var (w1, e) := Delete(cfg, env, w, ids[0]);
      if e.Halted? then (w1, e, [])
      else
        var (w2, e2, rest) := DeleteAll(cfg, env, w1, ids[1..]);
        (w2, e2, [Deletion(ids[0], e == Done)] + rest)
  }

  /** The outcome of deletes of which some were made before. */
  function Continued(before: seq<Deletion>, rest: (World, Ended, seq<Deletion>)): (World, Ended, seq<Deletion>) {
    (rest.0, rest.1, before + rest.2)
  }

  /** Delete the snapshot as far as possible and break off. */
  function GiveUp(cfg: Config, env: Env, w: World, snap: SnapId, stage: string): Moved {
    var (w', e) := Delete(cfg, env, w, snap);
    if e.Halted? then Moved(w', Gone(e.panicked), [snap], [])
    else Moved(w', Broke(stage), [snap], [Deletion(snap, e == Done)])
  }

  function CleanAndDetach(cfg: Config, env: Env, w: World, day: Day, snap: SnapId): Moved {
    var (w1, e) := Delete(cfg, env, w, snap);
    match e
    case Halted(p) => Moved(w1, Gone(p), [snap], [])
    case Failed => Moved(w1, Broke("snapshot_cleanup"), [snap], [Deletion(snap, false)])
    case Done =>
      var (w2, d) := DetachDay(cfg, env, w1, day);
      var end := match d case Halted(p) => Gone(p) case Failed => Broke("detach") case Done => Transferred;
      Moved(w2, end, [snap], [Deletion(snap, true)])
  }

  function AttachAndFinish(cfg: Config, env: Env, w: World, day: Day, snap: SnapId): Moved {
    var (w1, a) := AttachPeer(cfg, env, w, day, 0);
    match a
    case Halted(p) => Moved(w1, Gone(p), [snap], [])
    case Failed => GiveUp(cfg, env, w1, snap, "attach")
    case Done => CleanAndDetach(cfg, env, w1, day, snap)
  }

  function MoveSnapshot(cfg: Config, env: Env, w: World, day: Day, snap: SnapId): Moved {
    var (w1, s) := Send(cfg, env, w, day, snap, 0);
    match s
    case SendHalted(p) => Moved(w1, Gone(p), [snap], [])
    case NotSent => GiveUp(cfg, env, w1, snap, "stream")
    case _ => AttachAndFinish(cfg, env, w1, day, snap)
  }

  function MoveDay(cfg: Config, env: Env, w: World, day: Day): Moved {
    var (w1, c) := Create(cfg, env, w, day);
    match c
    case CreateHalted(p) => Moved(w1, Gone(p), [], [])
    case NotCreated => Moved(w1, Broke("snapshot"), [], [])
    case Paths(ids) =>
      if ids == [] then Moved(w1, Skipped, [], [])
      else if |ids| != 1 then
        var (w2, e, ledger) := DeleteAll(cfg, env, w1, ids);
        Moved(w2, if e.Halted? then Gone(e.panicked) else Broke("snapshot"), ids, ledger)
      else MoveSnapshot(cfg, env, w1, day, ids[0])
  }

  // ----- all days ------------------------------------------------------------------------------

  datatype Report = Report(transferred: seq<Day>, skipped: seq<Day>, errors: seq<(Day, string)>)

  datatype Ending = Finished | Died(panicked: bool)

  datatype Run = Run(w: World, report: Report, ending: Ending, given: seq<SnapId>, ledger: seq<Deletion>)

  function Blank(): Report { Report([], [], []) }

  function Noted(report: Report, day: Day, end: DayEnd): Report {
    match end
    case Transferred => report.(transferred := report.transferred + [day])
    case Skipped => report.(skipped := report.skipped + [day])
    case Broke(stage) => report.(errors := report.errors + [(day, stage)])
    case Gone(_) => report
  }

  function Added(run: Run, day: Day, m: Moved): Run {
    Run(m.w, Noted(run.report, day, m.end), if m.end.Gone? then Died(m.end.panicked) else Finished,
        run.given + m.given, run.ledger + m.ledger)
  }

  function MoveDays(cfg: Config, env: Env, run: Run, days: seq<Day>): Run
    decreases days
  {
    if days == [] then run
    else
      var m := MoveDay(cfg, env, run.w, days[0]);
      if m.end.Transferred? || m.end.Skipped? then MoveDays(cfg, env, Added(run, days[0], m), days[1..])
      else Added(run, days[0], m)
  }

  /** transferSealedDays as a function. */
  function RunTransfer(cfg: Config, env: Env, w: World, days: seq<Day>): Run {
    var (w1, got) := Exchange(cfg, env, w, DeleteStale);
    if got.Dead? then Run(w1, Blank(), Died(got.panicked), [], [])
    else MoveDays(cfg, env, Run(w1, Blank(), Finished, [], []), days)
  }

  // ----- the process itself --------------------------------------------------------------------

  /** The process and the world it talks to. A call that ends in Halted is the end of the process. */
  class Cluster {
    const cfg: Config
    const env: Env
    var w: World

    constructor (cfg: Config, env: Env, w: World)
      ensures this.cfg == cfg && this.env == env && this.w == w
    {
      this.cfg, this.env, this.w := cfg, env, w;
    }

    method Request(msg: Msg) returns (got: Got)
      modifies this
      ensures (w, got) == Exchange(cfg, env, old(w), msg)
    {
      var id := |w.net|;
      w := Sent(w, msg);
      var fate := env(w);
      w := Settle(cfg, w, fate.acts);
      match fate.seen {
        case Killed => got := Dead(false);
        case Panicked => got := Dead(true);
        case Unheard => got := Nothing;
        case Heard => got := if id in w.replies then Got(w.replies[id]) else Nothing;
      }
    }

    method CreateSnapshot(day: Day) returns (c: Created)
      modifies this
      ensures (w, c) == Create(cfg, env, old(w), day)
    {
      var got := Request(Msg.CreateSnapshot(day));
      match got {
        case Dead(p) => c := CreateHalted(p);
        case Nothing => c := NotCreated;
        case Got(r) =>
          if r.status != 200 || !r.readable { return NotCreated; }
          return Paths(r.ids);
      }
    }

    method DeleteSnapshot(snap: SnapId) returns (e: Ended)
      modifies this
      ensures (w, e) == Delete(cfg, env, old(w), snap)
    {
      var got := Request(Msg.DeleteSnapshot(snap));
      match got {
        case Dead(p) => e := Halted(p);
        case Nothing => e := Failed;
        case Got(r) =>
          if r.status == 200 || r.status == 204 { return Done; }
          var gone := BodySignals(Head(r), GONE);
          return if gone then Done else Failed;
      }
    }

    method DetachPartition(day: Day) returns (e: Ended)
      modifies this
      ensures (w, e) == DetachDay(cfg, env, old(w), day)
    {
      var got := Request(Detach(day));
      match got {
        case Dead(p) => e := Halted(p);
        case Nothing => e := Failed;
        case Got(r) =>
          if r.status == 200 { return Done; }
          var gone := BodySignals(Head(r), DETACHED);
          return if gone then Done else Failed;
      }
    }

    method SendPartition(day: Day, snap: SnapId) returns (s: Sending)
      modifies this
      ensures (w, s) == Send(cfg, env, old(w), day, snap, 0)
    {
      for attempt := 0 to MAX_ATTEMPTS
        invariant Send(cfg, env, old(w), day, snap, 0) == Send(cfg, env, w, day, snap, attempt)
      {
        var got := Request(Receive(day, snap));
        if got.Dead? { return SendHalted(got.panicked); }
        if got.Nothing? { continue; }
        var r := got.reply;
        if r.status == 200 { return if r.readable then Received(r.bytes) else NotSent; }
        if r.status == 409 { return Conflict; }
        if !RetrySend(r) { return NotSent; }
      }
      return NotSent;
    }

    method AttachOnTarget(day: Day) returns (e: Ended)
      modifies this
      ensures (w, e) == AttachPeer(cfg, env, old(w), day, 0)
    {
      for attempt := 0 to MAX_ATTEMPTS
        invariant AttachPeer(cfg, env, old(w), day, 0) == AttachPeer(cfg, env, w, day, attempt)
      {
        var got := Request(Attach(day));
        if got.Dead? { return Halted(got.panicked); }
        if got.Nothing? { continue; }
        if got.reply.status == 200 { return Done; }
        if got.reply.status < 500 { return Failed; }
      }
      return Failed;
    }

    /** Deletes the surplus snapshots of a day, ignoring failures. */
    method DeleteSnapshots(ids: seq<SnapId>) returns (e: Ended, ghost ledger: seq<Deletion>)
      modifies this
      ensures (w, e, ledger) == DeleteAll(cfg, env, old(w), ids)
    {
      ledger := [];
      assert ids[0..] == ids && ledger + DeleteAll(cfg, env, w, ids).2 == DeleteAll(cfg, env, w, ids).2;
      for i := 0 to |ids|
        invariant DeleteAll(cfg, env, old(w), ids) == Continued(ledger, DeleteAll(cfg, env, w, ids[i..]))
      {
        assert ids[i..][0] == ids[i] && ids[i..][1..] == ids[i + 1..];
        var deleted := DeleteSnapshot(ids[i]);
        if deleted.Halted? {
          assert ledger + [] == ledger;
          return deleted, ledger;
        }
        ghost var later := DeleteAll(cfg, env, w, ids[i + 1..]);
        Associative(ledger, [Deletion(ids[i], deleted == Done)], later.2);
        ledger := ledger + [Deletion(ids[i], deleted == Done)];
      }
      assert ledger + [] == ledger;
      e := Done;
    }

    /** The body of the loop over the days. */
    method MoveOneDay(day: Day) returns (end: DayEnd, ghost given: seq<SnapId>, ghost ledger: seq<Deletion>)
      modifies this
      ensures Moved(w, end, given, ledger) == MoveDay(cfg, env, old(w), day)
    {
      given, ledger := [], [];
      var paths := CreateSnapshot(day);
      if paths.CreateHalted? { return Gone(paths.panicked), [], []; }
      if paths.NotCreated? { return Broke("snapshot"), [], []; }
      if |paths.ids| == 0 { return Skipped, [], []; }
      given := paths.ids;
      if |paths.ids| != 1 {
        var e;
        e, ledger := DeleteSnapshots(paths.ids);
        return if e.Halted? then Gone(e.panicked) else Broke("snapshot"), given, ledger;
      }
      var snap := paths.ids[0];
      assert given == [snap];
      var sent := SendPartition(day, snap);
      if sent.SendHalted? { return Gone(sent.panicked), given, []; }
      if sent.NotSent? {
        end, ledger := BreakOff(snap, "stream");
        return;
      }
      var attached := AttachOnTarget(day);
      if attached.Halted? { return Gone(attached.panicked), given, []; }
      if attached == Failed {
        end, ledger := BreakOff(snap, "attach");
        return;
      }
      var deleted := DeleteSnapshot(snap);
      if deleted.Halted? { return Gone(deleted.panicked), given, []; }
      ledger := [Deletion(snap, deleted == Done)];
      if deleted == Failed { return Broke("snapshot_cleanup"), given, ledger; }
      var detached := DetachPartition(day);
      if detached.Halted? { return Gone(detached.panicked), given, ledger; }
      if detached == Failed { return Broke("detach"), given, ledger; }
      return Transferred, given, ledger;
    }

    method BreakOff(snap: SnapId, stage: string) returns (end: DayEnd, ghost ledger: seq<Deletion>)
      modifies this
      ensures Moved(w, end, [snap], ledger) == GiveUp(cfg, env, old(w), snap, stage)
    {
      var e := DeleteSnapshot(snap);
      if e.Halted? { return Gone(e.panicked), []; }
      return Broke(stage), [Deletion(snap, e == Done)];
    }

    method TransferSealedDays(days: seq<Day>)
      returns (resp: Report, ending: Ending, ghost given: seq<SnapId>, ghost ledger: seq<Deletion>)
      modifies this
      ensures Run(w, resp, ending, given, ledger) == RunTransfer(cfg, env, old(w), days)
    {
      resp, ending, given, ledger := Blank(), Finished, [], [];
      var stale := Request(DeleteStale);
      if stale.Dead? { return resp, Died(stale.panicked), [], []; }
      var i := 0;
      while i < |days|
        invariant 0 <= i <= |days| && ending == Finished
        invariant RunTransfer(cfg, env, old(w), days) == MoveDays(cfg, env, Run(w, resp, ending, given, ledger), days[i..])
      {
        assert days[i..][0] == days[i] && days[i..][1..] == days[i + 1..];
        var day := days[i];
        var end;
        ghost var got, deletions;
        end, got, deletions := MoveOneDay(day);
        given, ledger := given + got, ledger + deletions;
        match end {
          case Transferred => resp := resp.(transferred := resp.transferred + [day]);
          case Skipped => resp := resp.(skipped := resp.skipped + [day]);
          case Broke(stage) =>
            resp := resp.(errors := resp.errors + [(day, stage)]);
            return;
          case Gone(panicked) =>
            ending := Died(panicked);
            return;
        }
        i := i + 1;
      }
    }
  }
}
