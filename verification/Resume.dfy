/**
 Crash-resume convergence: from any reachable world, one run that meets no faults but such as it tries
 again after leaves every one of its days on the target only and no snapshot of its own; the next run
 finds nothing to do.
 */
module Resume {
  import opened Archive
  import opened Delivery
  import opened World
  import opened Invariant
  import opened Preservation
  import opened Transfer
  import opened Safety
  import opened Bookkeeping
  import opened RunReport
  import opened Fairness
  import opened Frame

  // ----- calls in such an environment ------------------------------------------------------------

  /** The last request of the process itself. */
  predicate LastSaid(w: World, msg: Msg) { Mine(w.net) != [] && Mine(w.net)[|Mine(w.net)| - 1] == msg }

  lemma SaysLast(cfg: Config, env: Env, w: World, msg: Msg)
    ensures var w' := Exchange(cfg, env, w, msg).0;
            LastSaid(w', msg) && Trail(Mine(w'.net), msg) == Trail(Mine(w.net), msg) + 1
  {
    ExchangeSays(cfg, env, w, msg);
    TrailMore(Mine(w.net), msg);
    hide Exchange, Mine, Trail;
  }

  lemma NoTrail(w: World, last: Msg, msg: Msg)
    requires LastSaid(w, last) && last != msg
    ensures Trail(Mine(w.net), msg) == 0
  {
    hide Mine;
  }

  lemma FairCreate(cfg: Config, env: Env, w: World, day: Day)
    requires Sound(cfg) && Inv(cfg, w) && Fair(cfg, env)
    ensures var (w', c) := Create(cfg, env, w, day);
            && Preserves(cfg, w, w') && c.Paths? && w'.held == w.held && LastSaid(w', CreateSnapshot(day))
            && (day !in w.held ==> c.ids == [])
            && (day in w.held ==>
                  |c.ids| == 1 && c.ids[0] in w'.snaps && w'.snaps[c.ids[0]] == day && TakenOf(w', c.ids[0], day))
  {
    hide Exchange, Inv, Sound, Fair, Preserves, TakenOf, HandlerWell, LastSaid;
    SaysLast(cfg, env, w, CreateSnapshot(day));
    FairExchange(cfg, env, w, CreateSnapshot(day));
    CreateMeans(cfg, env, w, day);
    assert Sent(w, CreateSnapshot(day)).net[|w.net|].msg == CreateSnapshot(day);
    var (w', got) := Exchange(cfg, env, w, CreateSnapshot(day));
  }

  /** Some attempt succeeds, or finds the day placed already. */
  lemma {:induction false} FairSend(cfg: Config, env: Env, w: World, day: Day, snap: SnapId, attempt: nat)
    requires Sound(cfg) && Inv(cfg, w) && Fair(cfg, env) && day in cfg.sealed && snap in w.snaps
    requires attempt < MAX_ATTEMPTS && Trail(Mine(w.net), Receive(day, snap)) == attempt
    ensures var (w', s) := Send(cfg, env, w, day, snap, attempt);
            Preserves(cfg, w, w') && (s.Received? || s.Conflict?) && Untouched(w, w')
                && LastSaid(w', Receive(day, snap))
    decreases MAX_ATTEMPTS - attempt
  {
    hide Exchange, Inv, Sound, Fair, Grows, ServedWell, Trail, Mine, LastSaid, RetrySend, Transient;
    FairCall(cfg, env, w, Receive(day, snap));
    SaysLast(cfg, env, w, Receive(day, snap));
    SendUnfolds(cfg, env, w, day, snap, attempt);
    var (w1, got) := Exchange(cfg, env, w, Receive(day, snap));
    hide Send;
    if ServedWell(cfg, w, Receive(day, snap), w1, got) {
      PlacedAnswer(cfg, w, day, snap, w1, got);
    } else {
      SlipGoesOn(w, Receive(day, snap), w1, got, Send(cfg, env, w1, day, snap, attempt + 1));
      FairSend(cfg, env, w1, day, snap, attempt + 1);
      GrowsTransitive(w, w1, Send(cfg, env, w1, day, snap, attempt + 1).0);
    }
  }

  lemma SlipGoesOn(w: World, msg: Msg, w': World, got: Got, next: (World, Sending))
    requires msg.Receive? && Slipped(w, msg, w', got)
    ensures AfterSend(w', got, next) == next
  {
    if got.Got? { HeadQuotes(got.reply.body, "checksum mismatch"); }
    hide Trail, Mine, Contains, Quotes, ReadBody;
  }

  lemma PlacedAnswer(cfg: Config, w: World, day: Day, snap: SnapId, w': World, got: Got)
    requires ServedWell(cfg, w, Receive(day, snap), w', got)
    ensures got.Got? && PlacedSaid(got.reply) && Untouched(w, w')
  {
    hide HandlerWell, PlacedSaid;
    assert Sent(w, Receive(day, snap)).net[|w.net|].msg == Receive(day, snap);
  }

  lemma AttachedAnswer(cfg: Config, w: World, day: Day, w': World, got: Got)
    requires ServedWell(cfg, w, Attach(day), w', got)
    ensures got.Got? && got.reply.status == 200 && Untouched(w, w')
  {
    hide HandlerWell;
    assert Sent(w, Attach(day)).net[|w.net|].msg == Attach(day);
  }

  lemma {:induction false} FairAttach(cfg: Config, env: Env, w: World, day: Day, attempt: nat)
    requires Sound(cfg) && Inv(cfg, w) && Fair(cfg, env) && day in w.dirs && PartitionName(day)
    requires attempt < MAX_ATTEMPTS && Trail(Mine(w.net), Attach(day)) == attempt
    ensures var (w', e) := AttachPeer(cfg, env, w, day, attempt);
            Preserves(cfg, w, w') && e == Done && Untouched(w, w')
    decreases MAX_ATTEMPTS - attempt
  {
    hide Exchange, Inv, Sound, Fair, Grows, ServedWell, Trail, Mine, LastSaid, PartitionName;
    FairCall(cfg, env, w, Attach(day));
    SaysLast(cfg, env, w, Attach(day));
    var (w1, got) := Exchange(cfg, env, w, Attach(day));
    var next := AttachPeer(cfg, env, w1, day, attempt + 1);
    assert AttachPeer(cfg, env, w, day, attempt) ==
           match got
           case Dead(p) => (w1, Halted(p))
           case Nothing => next
           case Got(r) => if r.status == 200 then (w1, Done) else if r.status >= 500 then next else (w1, Failed);
    hide AttachPeer;
    if ServedWell(cfg, w, Attach(day), w1, got) {
      AttachedAnswer(cfg, w, day, w1, got);
    } else {
      DirStays(w, w1, day);
      FairAttach(cfg, env, w1, day, attempt + 1);
      GrowsTransitive(w, w1, next.0);
    }
  }

  lemma FairDelete(cfg: Config, env: Env, w: World, snap: SnapId, day: Day)
    requires Sound(cfg) && Inv(cfg, w) && Fair(cfg, env) && TakenOf(w, snap, day)
    requires snap in w.snaps && w.snaps[snap] in w.held
    ensures var (w', e) := Delete(cfg, env, w, snap); Preserves(cfg, w, w') && e == Done && w'.held == w.held
  {
    hide Exchange, Inv, Sound, Fair, Preserves, HandlerWell, Signals;
    FairExchange(cfg, env, w, DeleteSnapshot(snap));
    assert Sent(w, DeleteSnapshot(snap)).net[|w.net|].msg == DeleteSnapshot(snap);
  }

  lemma FairDetach(cfg: Config, env: Env, w: World, day: Day)
    requires Sound(cfg) && Inv(cfg, w) && Fair(cfg, env) && day in w.attached && DeletedBefore(w, |w.net|, day)
    ensures var (w', e) := DetachDay(cfg, env, w, day); Preserves(cfg, w, w') && e == Done && w'.held == w.held - {day}
  {
    hide Exchange, Inv, Sound, Fair, Preserves, HandlerWell, Signals, DeletedBefore;
    FairExchange(cfg, env, w, Detach(day));
    assert Sent(w, Detach(day)).net[|w.net|].msg == Detach(day);
  }

  // ----- days ------------------------------------------------------------------------------------

  /** How a day ends then: it moves if it is there, with its snapshot deleted, or is skipped. */
  ghost predicate MovedWell(w: World, day: Day, m: Moved) {
    && m.w.held == w.held - {day}
    && if day in w.held then m.end == Transferred && |m.given| == 1 && m.ledger == [Deletion(m.given[0], true)]
       else m.end == Skipped && m.given == [] && m.ledger == []
  }

  lemma FairClean(cfg: Config, env: Env, w: World, day: Day, snap: SnapId)
    requires Sound(cfg) && Inv(cfg, w) && Fair(cfg, env) && TakenOf(w, snap, day)
    requires snap in w.snaps && w.snaps[snap] == day && day in w.held && day in w.attached
    ensures MovedWell(w, day, CleanAndDetach(cfg, env, w, day, snap))
  {
    hide Inv, Sound, Fair, Grows, TakenOf, DeletedBefore;
    FairDelete(cfg, env, w, snap, day);
    DeleteMeans(cfg, env, w, snap, day);
    var (w1, e) := Delete(cfg, env, w, snap);
    AttachedStays(w, w1, day);
    hide Delete;
    FairDetach(cfg, env, w1, day);
    hide DetachDay, Preserves;
  }

  lemma FairFinish(cfg: Config, env: Env, w: World, day: Day, snap: SnapId)
    requires Sound(cfg) && Inv(cfg, w) && Fair(cfg, env) && TakenOf(w, snap, day)
    requires snap in w.snaps && w.snaps[snap] == day && day in w.held && day in w.dirs && PartitionName(day)
    requires LastSaid(w, Receive(day, snap))
    ensures MovedWell(w, day, AttachAndFinish(cfg, env, w, day, snap))
  {
    hide Inv, Sound, Fair, Grows, TakenOf, PartitionName, AttachPeer, CleanAndDetach, LastSaid, Mine, Trail;
    NoTrail(w, Receive(day, snap), Attach(day));
    FairAttach(cfg, env, w, day, 0);
    AttachMeans(cfg, env, w, day, 0);
    var (w1, a) := AttachPeer(cfg, env, w, day, 0);
    TakenKept(w, w1, snap, day);
    FairClean(cfg, env, w1, day, snap);
    hide Preserves;
  }

  lemma FairSnapshotMoves(cfg: Config, env: Env, w: World, day: Day, snap: SnapId)
    requires Sound(cfg) && Inv(cfg, w) && Fair(cfg, env) && TakenOf(w, snap, day)
    requires snap in w.snaps && w.snaps[snap] == day && day in w.held && LastSaid(w, CreateSnapshot(day))
    ensures MovedWell(w, day, MoveSnapshot(cfg, env, w, day, snap))
  {
    assert day in cfg.sealed && PartitionName(day);
    hide LastSaid, Mine, Trail;
    NoTrail(w, CreateSnapshot(day), Receive(day, snap));
    FairSend(cfg, env, w, day, snap, 0);
    SendMeans(cfg, env, w, day, snap, 0);
    var (w1, s) := Send(cfg, env, w, day, snap, 0);
    TakenKept(w, w1, snap, day);
    hide Inv, Sound, Fair, Send, Grows, TakenOf, AttachAndFinish, PartitionName;
    FairFinish(cfg, env, w1, day, snap);
  }

  lemma FairMoveDay(cfg: Config, env: Env, w: World, day: Day)
    requires Sound(cfg) && Inv(cfg, w) && Fair(cfg, env)
    ensures MovedWell(w, day, MoveDay(cfg, env, w, day))
  {
    FairCreate(cfg, env, w, day);
    var (w1, c) := Create(cfg, env, w, day);
    hide Inv, Sound, Fair, Create, Grows, TakenOf, MoveSnapshot;
    if day in w.held { FairSnapshotMoves(cfg, env, w1, day, c.ids[0]); }
  }

  // ----- runs ------------------------------------------------------------------------------------

  function Days(days: seq<Day>): set<Day> { set d | d in days }

  ghost predicate AllDeleted(ledger: seq<Deletion>) { forall i :: 0 <= i < |ledger| ==> ledger[i].ok }

  /** So far no fault: everything asked for is off the source, and every delete call succeeded. */
  ghost predicate Clean(w: World, run: Run, days: seq<Day>) {
    && run.ending == Finished && run.report.errors == [] && AllDeleted(run.ledger)
    && run.w.held == w.held - Days(days)
  }

  lemma CleanMore(w: World, run: Run, days: seq<Day>, day: Day, m: Moved)
    requires Clean(w, run, days) && MovedWell(run.w, day, m)
    ensures Clean(w, Added(run, day, m), days + [day])
  {
    assert Days(days + [day]) == Days(days) + {day};
    assert AllDeleted(run.ledger + m.ledger);
  }

  lemma {:induction false} FairMoveDays(cfg: Config, env: Env, w: World, run: Run, days: seq<Day>, k: nat)
    requires Sound(cfg) && Inv(cfg, run.w) && Fair(cfg, env) && k <= |days| && Clean(w, run, days[..k])
    ensures Clean(w, MoveDays(cfg, env, run, days[k..]), days)
    decreases |days| - k
  {
    if k == |days| {
      assert days[..k] == days;
    } else {
      var m := MoveDay(cfg, env, run.w, days[k]);
      FairMoveDay(cfg, env, run.w, days[k]);
      MoveDayKeeps(cfg, env, run.w, days[k]);
      CleanMore(w, run, days[..k], days[k], m);
      MoveDaysUnfolds(cfg, env, run, days, k);
      assert days[..k] + [days[k]] == days[..k + 1];
      hide Inv, Sound, Fair, MoveDay, MoveDays, Clean, Grows;
      assert m.end.Transferred? || m.end.Skipped?;
      FairMoveDays(cfg, env, w, Added(run, days[k], m), days, k + 1);
    }
  }

  lemma FairRun(cfg: Config, env: Env, w: World, days: seq<Day>)
    requires Sound(cfg) && Inv(cfg, w) && Fair(cfg, env)
    ensures Clean(w, RunTransfer(cfg, env, w, days), days)
  {
    FairExchange(cfg, env, w, DeleteStale);
    assert Sent(w, DeleteStale).net[|w.net|].msg == DeleteStale;
    var (w1, got) := Exchange(cfg, env, w, DeleteStale);
    var start := Run(w1, Blank(), Finished, [], []);
    hide Exchange, Inv, Sound, Fair, MoveDays, Grows, HandlerWell;
    assert w1.held == w.held;
    assert Days([]) == {};
    assert Clean(w, start, []);
    assert days[..0] == [] && days[0..] == days;
    FairMoveDays(cfg, env, w, start, days, 0);
  }

  /** The day has left the source, and if the source ever had it the target serves the identical tree. */
  ghost predicate Arrived(cfg: Config, w: World, day: Day) {
    && day !in w.held
    && (day in cfg.sealed ==> day in w.attached && day in w.dirs && w.dirs[day] == TreeOf(cfg, day))
  }

  /**
   Resuming: after any history, one run in such an environment ends without errors, every one of its days is on
   the target only, and no snapshot it was given is left.
   */
  lemma ResumeConverges(cfg: Config, start: World, legs: seq<Leg>, env: Env, days: seq<Day>)
    requires Sound(cfg) && Initial(cfg, start) && Fair(cfg, env)
    ensures var run := RunTransfer(cfg, env, After(cfg, start, legs), days);
            && run.ending == Finished && run.report.errors == []
            && (forall d :: d in days ==> Arrived(cfg, run.w, d))
            && (forall s :: s in run.given ==> s !in run.w.snaps)
  {
    InitialInv(cfg, start);
    AfterKeeps(cfg, start, legs);
    var w := After(cfg, start, legs);
    FairRun(cfg, env, w, days);
    RunKeeps(cfg, env, w, days);
    LedgerExact(cfg, env, w, days);
    hide After, RunTransfer, Fair, Sound, Said, Deletes, TreeOf;
    var run := RunTransfer(cfg, env, w, days);
    assert NodesOk(cfg, run.w);
    hide Inv;
  }

  // ----- the run after that ----------------------------------------------------------------------

  /** One request for a snapshot of each day. */
  function Asked(days: seq<Day>): (msgs: seq<Msg>)
    ensures |msgs| == |days| && forall i :: 0 <= i < |days| ==> msgs[i] == CreateSnapshot(days[i])
  {
    seq(|days|, i requires 0 <= i < |days| => CreateSnapshot(days[i]))
  }

  /** Nothing found so far: every day skipped, and nothing asked but for snapshots. */
  ghost predicate FoundNothing(cfg: Config, env: Env, w: World, run: Run, days: seq<Day>) {
    && run == Run(run.w, Report([], days, []), Finished, [], [])
    && run.w.held == w.held && Said(cfg, env, w, run.w, [DeleteStale] + Asked(days))
  }

  lemma EmptyDay(cfg: Config, env: Env, w: World, day: Day)
    requires Sound(cfg) && Inv(cfg, w) && Fair(cfg, env) && day !in w.held
    ensures var m := MoveDay(cfg, env, w, day);
            && m == Moved(Exchange(cfg, env, w, CreateSnapshot(day)).0, Skipped, [], [])
            && m.w.held == w.held && Said(cfg, env, w, m.w, [CreateSnapshot(day)])
  {
    FairCreate(cfg, env, w, day);
    ExchangeSays(cfg, env, w, CreateSnapshot(day));
    hide Exchange, Inv, Sound, Fair, Preserves, Said;
  }

  lemma FoundNothingMore(cfg: Config, env: Env, w: World, run: Run, days: seq<Day>, day: Day, m: Moved)
    requires FoundNothing(cfg, env, w, run, days) && m == Moved(m.w, Skipped, [], []) && m.w.held == run.w.held
    requires Said(cfg, env, run.w, m.w, [CreateSnapshot(day)])
    ensures FoundNothing(cfg, env, w, Added(run, day, m), days + [day])
  {
    SaidThen(cfg, env, w, run.w, m.w, [DeleteStale] + Asked(days), [CreateSnapshot(day)]);
    hide Said;
    assert [DeleteStale] + Asked(days) + [CreateSnapshot(day)] == [DeleteStale] + Asked(days + [day]);
  }

  lemma EndOfDays(cfg: Config, env: Env, run: Run, days: seq<Day>)
    ensures MoveDays(cfg, env, run, days[|days|..]) == run
  {
    assert days[|days|..] == [];
  }

  lemma StillOff(cfg: Config, env: Env, w: World, run: Run, days: seq<Day>, k: nat)
    requires k < |days| && FoundNothing(cfg, env, w, run, days[..k]) && forall d :: d in days ==> d !in w.held
    ensures days[k] !in run.w.held
  {
    hide Said;
  }

  lemma {:induction false} EmptyDays(cfg: Config, env: Env, w: World, run: Run, days: seq<Day>, k: nat)
    requires Sound(cfg) && Inv(cfg, run.w) && Fair(cfg, env) && k <= |days| && FoundNothing(cfg, env, w, run, days[..k])
    requires forall d :: d in days ==> d !in w.held
    ensures var end := MoveDays(cfg, env, run, days[k..]);
            FoundNothing(cfg, env, w, end, days) && (Alone(env) ==> SamePlaces(run.w, end.w))
    decreases |days| - k
  {
    hide Inv, Sound, Fair, Alone, MoveDay, MoveDays, FoundNothing, Grows, Exchange;
    if k == |days| {
      assert days[..k] == days;
      EndOfDays(cfg, env, run, days);
    } else {
      var m := MoveDay(cfg, env, run.w, days[k]);
      StillOff(cfg, env, w, run, days, k);
      EmptyDay(cfg, env, run.w, days[k]);
      MoveDayKeeps(cfg, env, run.w, days[k]);
      if Alone(env) { AloneExchange(cfg, env, run.w, CreateSnapshot(days[k])); }
      FoundNothingMore(cfg, env, w, run, days[..k], days[k], m);
      MoveDaysUnfolds(cfg, env, run, days, k);
      assert days[..k] + [days[k]] == days[..k + 1];
      EmptyDays(cfg, env, w, Added(run, days[k], m), days, k + 1);
    }
  }

  /** Such a run over days the source does not hold asks for their snapshots, and that is all. */
  lemma EmptyRun(cfg: Config, env: Env, w: World, days: seq<Day>)
    requires Sound(cfg) && Inv(cfg, w) && Fair(cfg, env) && forall d :: d in days ==> d !in w.held
    ensures var run := RunTransfer(cfg, env, w, days);
            FoundNothing(cfg, env, w, run, days) && (Alone(env) ==> SamePlaces(w, run.w))
  {
    hide Exchange, Inv, Sound, Fair, MoveDays, Grows, HandlerWell, Alone, Said;
    FairExchange(cfg, env, w, DeleteStale);
    ExchangeSays(cfg, env, w, DeleteStale);
    if Alone(env) { AloneExchange(cfg, env, w, DeleteStale); }
    assert Sent(w, DeleteStale).net[|w.net|].msg == DeleteStale;
    var (w1, got) := Exchange(cfg, env, w, DeleteStale);
    var start := Run(w1, Blank(), Finished, [], []);
    assert [DeleteStale] + Asked([]) == [DeleteStale];
    assert FoundNothing(cfg, env, w, start, []);
    assert days[..0] == [] && days[0..] == days;
    EmptyDays(cfg, env, w, start, days, 0);
  }

  predicate SamePlaces(w: World, w': World) { w'.dirs == w.dirs && w'.attached == w.attached }

  predicate SnapshotsOnly(msg: Msg) { msg.CreateSnapshot? || msg.DeleteStale? }

  /** Alone, a request for snapshots changes neither node's partitions. */
  lemma AloneExchange(cfg: Config, env: Env, w: World, msg: Msg)
    requires Inv(cfg, w) && Alone(env) && SnapshotsOnly(msg)
    ensures SamePlaces(w, Exchange(cfg, env, w, msg).0)
  {
    hide Inv, Alone, Exchange, Spared;
    InvIsKnown(cfg, w);
    var w' := Exchange(cfg, env, w, msg).0;
    forall d ensures DayAsItWas(w, w', d) {
      AloneSpares(cfg, env, d);
      ExchangeSpares(cfg, env, w, msg, d);
    }
    SameDays(w, w');
  }

  lemma SameDays(w: World, w': World)
    requires forall d :: DayAsItWas(w, w', d)
    ensures SamePlaces(w, w')
  {
    forall d ensures (d in w'.dirs <==> d in w.dirs) && (d in w'.attached <==> d in w.attached) {
      assert DayAsItWas(w, w', d);
    }
    forall d | d in w.dirs ensures w'.dirs[d] == w.dirs[d] {
      assert DayAsItWas(w, w', d);
    }
  }

  /**
   After that run, and whatever happens then, a second one skips every day and asks for
   nothing but snapshots; working alone, it changes neither node's partitions.
   */
  lemma SecondRunFindsNothing(cfg: Config, start: World, legs: seq<Leg>, env: Env, acts: seq<Act>, again: Env,
          days: seq<Day>)
    requires Sound(cfg) && Initial(cfg, start) && Fair(cfg, env) && Fair(cfg, again)
    ensures var w := Settle(cfg, RunTransfer(cfg, env, After(cfg, start, legs), days).w, acts);
            var run := RunTransfer(cfg, again, w, days);
            && run.ending == Finished && run.report == Report([], days, []) && run.given == []
            && run.w.held == w.held && Said(cfg, again, w, run.w, [DeleteStale] + Asked(days))
            && (Alone(again) ==> run.w.dirs == w.dirs && run.w.attached == w.attached)
  {
    InitialInv(cfg, start);
    AfterKeeps(cfg, start, legs);
    var w0 := After(cfg, start, legs);
    var first := RunTransfer(cfg, env, w0, days);
    RunKeeps(cfg, env, w0, days);
    FairRun(cfg, env, w0, days);
    SettleKeeps(cfg, first.w, acts);
    var w := Settle(cfg, first.w, acts);
    hide After, RunTransfer, Fair, Sound, Said, Inv, Settle, Alone;
    assert forall d :: d in days ==> d in Days(days);
    EmptyRun(cfg, again, w, days);
  }

  // ----- there is such an environment ------------------------------------------------------------

  function NoFault(cfg: Config, msg: Msg): How {
    var damage :=
      if msg.Receive? && msg.day in cfg.sealed then Unharmed(Stream(cfg.sha1, cfg.sealed[msg.day])) else Damage([], 0, End);
    How(true, 200, "", 0, {}, damage, TarStream([], Broken))
  }

  function Steps(id: MsgId, n: nat): seq<Act> { if n == 0 then [] else [Step(id, true)] + Steps(id, n - 1) }

  /** Each request is served at once and handled to its end. */
  function Steady(cfg: Config): Env {
    (w: World) =>
      if w.net == [] then Fate([], Unheard)
      else Fate([Take(|w.net| - 1, NoFault(cfg, w.net[|w.net| - 1].msg))] + Steps(|w.net| - 1, 6), Heard)
  }

  function Rank(stage: Stage): nat {
    match stage
    case Begin => 6
    case Vacant => 5
    case Made => 4
    case Ready(_) => 3
    case Unmoved => 2
    case Attaching(_) => 2
    case Closing(_) => 1
    case Over => 0
  }

  lemma StepRanks(cfg: Config, w: World, id: MsgId)
    requires id in w.handlers && 0 < Rank(w.handlers[id].stage)
    ensures var w' := StepHandler(cfg, w, id, true);
            id in w'.replies || (id in w'.handlers && 0 < Rank(w'.handlers[id].stage) < Rank(w.handlers[id].stage))
  {
    hide StepExtract, StepRename;
    match w.handlers[id].stage {
      case Made => ExtractRanks(cfg, w, id);
      case Ready(bytes) => RenameRanks(w, id, bytes);
      case _ =>
    }
  }

  lemma ExtractRanks(cfg: Config, w: World, id: MsgId)
    requires id in w.handlers
    ensures var w' := StepExtract(cfg, w, id, true); id in w'.handlers && 0 < Rank(w'.handlers[id].stage) < 4
  {
    hide Unpack, TmpDir, Rejection;
  }

  lemma RenameRanks(w: World, id: MsgId, bytes: nat)
    requires id in w.handlers
    ensures var w' := StepRename(w, id, bytes, true); id in w'.handlers && 0 < Rank(w'.handlers[id].stage) < 3
  {
  }

  /** Answered, or at most `n` steps away from it. */
  predicate Nearly(w: World, id: MsgId, n: nat) {
    id in w.replies || (id in w.handlers && 0 < Rank(w.handlers[id].stage) <= n)
  }

  lemma StepNears(cfg: Config, w: World, id: MsgId, n: nat)
    requires Sound(cfg) && Inv(cfg, w) && n > 0 && Nearly(w, id, n)
    ensures var w' := Do(cfg, w, Step(id, true)); Inv(cfg, w') && Nearly(w', id, n - 1)
  {
    hide Inv, Sound, StepHandler, NodesGrow, Rank;
    DoKeeps(cfg, w, Step(id, true));
    if id in w.replies {
      hide Do;
    } else {
      StepRanks(cfg, w, id);
      hide Grows;
    }
  }

  lemma {:induction false} StepsAnswer(cfg: Config, w: World, id: MsgId, n: nat)
    requires Sound(cfg) && Inv(cfg, w) && Nearly(w, id, n)
    ensures id in Settle(cfg, w, Steps(id, n)).replies && Smooth(cfg, w, id, Steps(id, n))
    decreases n
  {
    hide Inv, Sound, Do, Quiet, Rank;
    if n > 0 {
      StepNears(cfg, w, id, n);
      assert Steps(id, n)[0] == Step(id, true) && Steps(id, n)[1..] == Steps(id, n - 1);
      hide Nearly;
      StepsAnswer(cfg, Do(cfg, w, Step(id, true)), id, n - 1);
    }
  }

  lemma NoFaultIsFaultless(cfg: Config, msg: Msg)
    requires Sound(cfg)
    ensures Faultless(cfg, msg, NoFault(cfg, msg))
  {
    if msg.Receive? && msg.day in cfg.sealed {
      var sent := Stream(cfg.sha1, cfg.sealed[msg.day]);
      assert Archivable(cfg.sealed[msg.day]);
      assert sent.tail == End && sent.entries != [] by { hide Archivable, Walk, Payload; }
      hide Stream, Archivable;
      assert Deliver(sent, Unharmed(sent)) == sent;
      hide Deliver;
    }
  }

  lemma TakenStarts(cfg: Config, w: World, id: MsgId, how: How)
    requires id < |w.net| && id !in w.served
    ensures var w' := Serve(cfg, w, id, how); id in w'.replies || (id in w'.handlers && w'.handlers[id].stage == Begin)
  {
    hide ServeCreate, ServeDelete, ServeDetach, ServeAttach, ServeUpload;
    var w1 := w.(served := w.served + {id});
    match w.net[id].msg {
      case CreateSnapshot(d) => CreateAnswers(w1, id, d, how);
      case DeleteSnapshot(s) => SourceAnswers(w1, id, s, "", how);
      case DeleteStale =>
      case Detach(d) => SourceAnswers(w1, id, 0, d, how);
      case Receive(d, s) => UploadStarts(cfg, w1, id, d, false, s !in w1.snaps, how);
      case Attach(d) => AttachAnswers(w1, id, d, how);
      case Restore(d) => UploadStarts(cfg, w1, id, d, true, false, how);
    }
  }

  lemma CreateAnswers(w: World, id: MsgId, day: Day, how: How)
    ensures id in ServeCreate(w, id, day, how).replies
  {
    hide Numbers, Repeat;
  }

  lemma SourceAnswers(w: World, id: MsgId, snap: SnapId, day: Day, how: How)
    ensures id in ServeDelete(w, id, snap, how).replies && id in ServeDetach(w, id, day, how).replies
  {
    hide ClaimsGone, ClaimsDetached;
  }

  lemma AttachAnswers(w: World, id: MsgId, day: Day, how: How)
    ensures id in ServeAttach(w, id, day, how).replies
  {
    hide AttachOk, ClaimsAttached, PartitionName;
  }

  lemma UploadStarts(cfg: Config, w: World, id: MsgId, day: Day, restore: bool, lost: bool, how: How)
    ensures var w' := ServeUpload(cfg, w, id, day, restore, lost, how);
            id in w'.replies || (id in w'.handlers && w'.handlers[id].stage == Begin)
  {
    hide Body, PartitionName;
  }

  lemma TakeNears(cfg: Config, w: World, id: MsgId, how: How)
    requires Sound(cfg) && Inv(cfg, w) && id < |w.net| && id !in w.served && Faultless(cfg, w.net[id].msg, how)
    ensures var w' := Do(cfg, w, Take(id, how)); Inv(cfg, w') && Nearly(w', id, 6) && Own(cfg, w, id, Take(id, how))
  {
    hide Inv, Sound, Serve, Faultless, Grows;
    TakenStarts(cfg, w, id, how);
    DoKeeps(cfg, w, Take(id, how));
  }

  lemma TakeAndSteps(cfg: Config, w: World, id: MsgId, how: How)
    requires Sound(cfg) && Inv(cfg, w) && id < |w.net| && id !in w.served && Faultless(cfg, w.net[id].msg, how)
    ensures var acts := [Take(id, how)] + Steps(id, 6);
            Smooth(cfg, w, id, acts) && id in Settle(cfg, w, acts).replies
  {
    hide Inv, Sound, Do, Own, Quiet, Faultless, Nearly, Steps;
    var acts := [Take(id, how)] + Steps(id, 6);
    TakeNears(cfg, w, id, how);
    StepsAnswer(cfg, Do(cfg, w, Take(id, how)), id, 6);
    assert acts[0] == Take(id, how) && acts[1..] == Steps(id, 6);
  }

  lemma SteadyServes(cfg: Config, w: World)
    requires Sound(cfg) && JustSent(cfg, w)
    ensures Serves(cfg, w, Steady(cfg)(w))
  {
    var id := |w.net| - 1;
    NoFaultIsFaultless(cfg, w.net[id].msg);
    TakeAndSteps(cfg, w, id, NoFault(cfg, w.net[id].msg));
    hide Inv, Sound, Smooth, Settle, Steps, NoFault, Faultless;
  }

  lemma {:induction false} StepsOwn(id: MsgId, n: nat)
    ensures OnlyOwn(id, Steps(id, n))
  {
    if n > 0 { StepsOwn(id, n - 1); }
  }

  lemma SteadyIsAlone(cfg: Config)
    ensures Alone(Steady(cfg))
  {
    hide NoFault, Steps;
    forall w: World | w.net != [] ensures OnlyOwn(|w.net| - 1, Steady(cfg)(w).acts) {
      StepsOwn(|w.net| - 1, 6);
    }
  }

  /** The assumption can be met: this environment is fault-free and nobody else is at work in it. */
  lemma SteadyIsFair(cfg: Config)
    requires Sound(cfg)
    ensures Fair(cfg, Steady(cfg)) && Alone(Steady(cfg))
  {
    hide Steady, Serves, Alone, Inv, Sound;
    SteadyIsAlone(cfg);
    forall w | JustSent(cfg, w) ensures Serves(cfg, w, Steady(cfg)(w)) {
      SteadyServes(cfg, w);
    }
  }
}
