/**
 All interleavings of requests for jobs, status queries and the background bodies. A body goes through
 its stages one turn at a time, and may panic at any; what calls it makes to the store is for its code to
 say, so that each job is finished once is proved of the bodies, not asked of them.
 */
module Interleaving {
  import opened Wrappers
  import opened Calendar
  import opened World
  import opened Jobs
  import opened Migrate
  import Transfer

  // ----- the bodies, turn by turn --------------------------------------------------------------

  /** Where a body stands: clients still to be built, the sealed phase, the recent phase, returned. */
  datatype Body =
    | Preparing(kind: Kind, left: nat)
    | Moving(kind: Kind)
    | Copying(sealed: Transfer.Report)
    | Returned

  /** What happens next in a body; the sealed phase runs in some environment, from some world. */
  datatype Turn =
    | Built
    | NotBuilt(err: string)
    | Sealed(cfg: Config, env: Transfer.Env, w: World, days: seq<Day>)
    | Copied(r: Recently, now: Instant)
    | Panics

  function Starts(kind: Kind): Body { Preparing(kind, if kind == TransferJob then 1 else 3) }

  function Recovered(kind: Kind): Outcome {
    Broken(if kind == TransferJob then "transfer job panicked" else "migrate job panicked")
  }

  /**
   One turn of runTransfer or runMigrate: where the body stands then, and the finish call it made on the
   way. A panic is caught by the deferred recoverJob. When the process dies in the sealed phase there is
   no next turn.
   */
  function Advance(b: Body, t: Turn): (Body, Option<Outcome>) {
    match b
    case Preparing(kind, left) =>
      if t.Built? then (if left > 1 then Preparing(kind, left - 1) else Moving(kind), None)
      else if t.NotBuilt? then (Returned, Some(Broken(t.err)))
      else if t.Panics? then (Returned, Some(Recovered(kind)))
      else (b, None)
    case Moving(kind) =>
      if t.Sealed? then AfterSealed(kind, Transfer.RunTransfer(t.cfg, t.env, t.w, t.days))
      else if t.Panics? then (Returned, Some(Recovered(kind)))
      else (b, None)
    case Copying(sealed) =>
      if t.Copied? then (Returned, Some(Migrated(Combined(sealed, t.r, t.now))))
      else if t.Panics? then (Returned, Some(Recovered(MigrateJob)))
      else (b, None)
    case Returned => (b, None)
  }

  function AfterSealed(kind: Kind, run: Transfer.Run): (Body, Option<Outcome>) {
    match run.ending
    case Died(panicked) => if panicked then (Returned, Some(Recovered(kind))) else (Moving(kind), None)
    case Finished =>
      if kind == TransferJob then (Returned, Some(Transferred(run.report))) else (Copying(run.report), None)
  }

  /** All calls of a body over these turns. */
  function CallsOf(b: Body, turns: seq<Turn>): seq<Outcome>
    decreases turns
  {
    if turns == [] then []
    else
      var (b', call) := Advance(b, turns[0]);
      (if call.Some? then [call.value] else []) + CallsOf(b', turns[1..])
  }

  function AsCalls(o: Option<Outcome>): seq<Outcome> { if o.Some? then [o.value] else [] }

  /** The turns that the straight run of runTransfer goes through. */
  function TransferTurns(setup: Option<string>, phase: Turn): seq<Turn> {
    if setup.Some? then [NotBuilt(setup.value)] else [Built, phase]
  }

  lemma CallsOne(b: Body, t: Turn)
    ensures CallsOf(b, [t]) == AsCalls(Advance(b, t).1)
  {
    assert [t][1..] == [];
    hide Advance;
  }

  lemma CallsFirst(b: Body, t: Turn, rest: seq<Turn>)
    ensures CallsOf(b, [t] + rest) == AsCalls(Advance(b, t).1) + CallsOf(Advance(b, t).0, rest)
  {
    assert ([t] + rest)[1..] == rest;
    hide Advance;
  }

  /** Turn by turn, runTransfer makes the very call it makes when run straight through. */
  lemma TransferBody(cfg: Config, env: Transfer.Env, w: World, days: seq<Day>, setup: Option<string>)
    ensures var run := Transfer.RunTransfer(cfg, env, w, days);
            CallsOf(Starts(TransferJob), TransferTurns(setup, Sealed(cfg, env, w, days)))
            == AsCalls(TransferOutcome(setup, run))
  {
    hide Transfer.RunTransfer, CallsOf;
    var phase := Sealed(cfg, env, w, days);
    if setup.Some? {
      CallsOne(Starts(TransferJob), NotBuilt(setup.value));
    } else {
      assert [Built] + [phase] == [Built, phase];
      CallsFirst(Starts(TransferJob), Built, [phase]);
      CallsOne(Moving(TransferJob), phase);
    }
  }

  /** The turns that the straight run of runMigrate goes through. */
  function MigrateTurns(s: Setting, phase: Turn, died: bool, r: Recently, now: Instant): seq<Turn> {
    if s.insert.Some? then [NotBuilt("target_vlinsert_url: " + s.insert.value)]
    else if s.select.Some? then [Built] + [NotBuilt("target_vlselect_url: " + s.select.value)]
    else if s.source.Some? then [Built] + ([Built] + [NotBuilt(s.source.value)])
    else [Built] + ([Built] + ([Built] + ([phase] + LastTurn(s, died, r, now))))
  }

  function LastTurn(s: Setting, died: bool, r: Recently, now: Instant): seq<Turn> {
    if died || s.cutOff == Some(false) then [] else if s.cutOff.Some? then [Panics] else [Copied(r, now)]
  }

  lemma LastCalls(s: Setting, died: bool, r: Recently, now: Instant, b: Body)
    ensures CallsOf(b, LastTurn(s, died, r, now)) ==
            if died || s.cutOff == Some(false) then []
            else AsCalls(Advance(b, if s.cutOff.Some? then Panics else Copied(r, now)).1)
  {
    hide Advance;
    if !died && s.cutOff != Some(false) { CallsOne(b, if s.cutOff.Some? then Panics else Copied(r, now)); }
  }

  /** And so does runMigrate. */
  lemma MigrateBody(cfg: Config, env: Transfer.Env, w: World, days: seq<Day>, s: Setting, r: Recently, now: Instant)
    ensures var run := Transfer.RunTransfer(cfg, env, w, days);
            var turns := MigrateTurns(s, Sealed(cfg, env, w, days), run.ending == Transfer.Died(false), r, now);
            CallsOf(Starts(MigrateJob), turns) == AsCalls(MigrateOutcome(s, run, r, now))
  {
    hide Transfer.RunTransfer, CallsOf, LastTurn, Combined, AsCalls;
    var b := Starts(MigrateJob);
    if s.insert.Some? {
      CallsOne(b, NotBuilt("target_vlinsert_url: " + s.insert.value));
    } else if s.select.Some? {
      BuiltFirst(3, [NotBuilt("target_vlselect_url: " + s.select.value)]);
      CallsOne(Preparing(MigrateJob, 2), NotBuilt("target_vlselect_url: " + s.select.value));
    } else if s.source.Some? {
      BuiltFirst(3, [Built] + [NotBuilt(s.source.value)]);
      BuiltFirst(2, [NotBuilt(s.source.value)]);
      CallsOne(Preparing(MigrateJob, 1), NotBuilt(s.source.value));
    } else {
      BothPhases(cfg, env, w, days, s, r, now);
    }
  }

  lemma BuiltFirst(left: nat, rest: seq<Turn>)
    requires left > 0
    ensures CallsOf(Preparing(MigrateJob, left), [Built] + rest) ==
            CallsOf(if left > 1 then Preparing(MigrateJob, left - 1) else Moving(MigrateJob), rest)
  {
    CallsFirst(Preparing(MigrateJob, left), Built, rest);
    hide CallsOf;
  }

  lemma BothPhases(cfg: Config, env: Transfer.Env, w: World, days: seq<Day>, s: Setting, r: Recently, now: Instant)
    requires SetupError(s).None?
    ensures var run := Transfer.RunTransfer(cfg, env, w, days);
            var turns := MigrateTurns(s, Sealed(cfg, env, w, days), run.ending == Transfer.Died(false), r, now);
            CallsOf(Starts(MigrateJob), turns) == AsCalls(MigrateOutcome(s, run, r, now))
  {
    hide Transfer.RunTransfer, CallsOf, LastTurn, Combined;
    var run, phase := Transfer.RunTransfer(cfg, env, w, days), Sealed(cfg, env, w, days);
    var died := run.ending == Transfer.Died(false);
    var last := LastTurn(s, died, r, now);
    BuiltFirst(3, [Built] + ([Built] + ([phase] + last)));
    BuiltFirst(2, [Built] + ([phase] + last));
    BuiltFirst(1, [phase] + last);
    CallsFirst(Moving(MigrateJob), phase, last);
    LastCalls(s, died, r, now, AfterSealed(MigrateJob, run).0);
  }

  // ----- the whole system ----------------------------------------------------------------------

  datatype Event =
    | Ask(kind: Kind, id: JobId, now: Time)
    | Look(id: JobId)
    | Goes(id: JobId, turn: Turn, now: Time)

  /** The store, the bodies that were started, and how often each job was named in a finish call. */
  datatype Sys = Sys(store: Store, bodies: map<JobId, Body>, calls: multiset<JobId>)

  function Empty(): Sys { Sys(Store(map[], false), map[], multiset{}) }

  function Next(s: Sys, e: Event): Sys {
    match e
    case Ask(kind, id, now) =>
      if id in s.store.jobs || s.store.active then s
      else Sys(Begun(s.store, id, kind, now), s.bodies[id := Starts(kind)], s.calls)
    case Look(_) => s
    case Goes(id, turn, now) =>
      if id !in s.bodies then s
      else
        var (b, call) := Advance(s.bodies[id], turn);
        var moved := s.(bodies := s.bodies[id := b]);
        if call.None? then moved
        else moved.(store := Concluded(s.store, id, call.value, now), calls := s.calls + multiset{id})
  }

  function Play(s: Sys, events: seq<Event>): Sys
    decreases events
  {
    if events == [] then s else Play(Next(s, events[0]), events[1..])
  }

  ghost predicate BodyOk(b: Body, kind: Kind) {
    match b
    case Preparing(k, left) => k == kind && left > 0
    case Moving(k) => k == kind
    case Copying(sealed) => kind == MigrateJob && SealedErrors(sealed) && |sealed.errors| <= 1
    case Returned => true
  }

  ghost predicate Orderly(s: Sys) {
    && SingleFlight(s.store)
    && s.bodies.Keys == s.store.jobs.Keys
    && (forall id :: id in s.bodies ==> BodyOk(s.bodies[id], s.store.jobs[id].kind))
    && (forall id :: id in s.bodies ==> (s.bodies[id].Returned? <==> s.store.jobs[id].state != Running))
    && (forall id :: s.calls[id] == if id in s.store.jobs && s.store.jobs[id].state != Running then 1 else 0)
    && (forall id :: id in s.store.jobs ==> Consistent(s.store.jobs[id]))
  }

  /** What finished stays as it is. */
  ghost predicate Settled(s: Store, t: Store) {
    forall id :: id in s.jobs && s.jobs[id].state != Running ==> id in t.jobs && t.jobs[id] == s.jobs[id]
  }

  /** A body calls the store exactly on the turn on which it returns, with an outcome of its own kind. */
  lemma AdvanceCalls(b: Body, t: Turn, kind: Kind)
    requires BodyOk(b, kind)
    ensures var (b', call) := Advance(b, t);
            && BodyOk(b', kind)
            && (call.Some? <==> b'.Returned? && !b.Returned?)
            && (call.Some? ==> Fits(kind, call.value))
  {
    hide Transfer.RunTransfer, SealedErrors, MigrateShaped, Combined;
    if b.Moving? && t.Sealed? { RunStages(t.cfg, t.env, t.w, t.days); }
    if b.Copying? && t.Copied? { CombinedShaped(b.sealed, t.r, t.now); }
  }

  lemma AskOrderly(s: Sys, kind: Kind, id: JobId, now: Time)
    requires Orderly(s) && id !in s.store.jobs && !s.store.active
    ensures Orderly(Next(s, Ask(kind, id, now))) && Settled(s.store, Next(s, Ask(kind, id, now)).store)
  {
    hide BodyOk, Consistent, SingleFlight;
    FreshOk(kind, now);
    BegunSingle(s.store, id, kind, now);
    var t := Next(s, Ask(kind, id, now));
    assert t.store.jobs[id].state == Running;
  }

  lemma BegunSingle(s: Store, id: JobId, kind: Kind, now: Time)
    requires SingleFlight(s) && id !in s.jobs && !s.active
    ensures SingleFlight(Begun(s, id, kind, now))
  {
    assert Begun(s, id, kind, now).jobs[id].state == Running;
  }

  lemma FreshOk(kind: Kind, now: Time)
    ensures Consistent(Record(kind, Running, now, None, None, None, ""))
    ensures BodyOk(Starts(kind), kind) && !Starts(kind).Returned?
  {
  }

  lemma MarkedConsistent(r: Record, o: Outcome, now: Time)
    requires Consistent(r) && r.state == Running && Fits(r.kind, o)
    ensures Consistent(Marked(r.(state := StateOf(o), finishedAt := Some(now)), o))
  {
    hide MigrateShaped;
  }

  lemma CallOrderly(s: Sys, id: JobId, turn: Turn, now: Time)
    requires Orderly(s) && id in s.bodies && Advance(s.bodies[id], turn).1.Some?
    ensures Orderly(Next(s, Goes(id, turn, now))) && Settled(s.store, Next(s, Goes(id, turn, now)).store)
  {
    hide Advance, BodyOk, Consistent, Fits, MigrateShaped;
    var (b, call) := Advance(s.bodies[id], turn);
    AdvanceCalls(s.bodies[id], turn, s.store.jobs[id].kind);
    MarkedConsistent(s.store.jobs[id], call.value, now);
    var t := Next(s, Goes(id, turn, now));
    assert t.store == Concluded(s.store, id, call.value, now);
    assert t.store.jobs[id].kind == s.store.jobs[id].kind;
  }

  lemma QuietOrderly(s: Sys, id: JobId, turn: Turn, now: Time)
    requires Orderly(s) && id in s.bodies && Advance(s.bodies[id], turn).1.None?
    ensures Orderly(Next(s, Goes(id, turn, now))) && Settled(s.store, Next(s, Goes(id, turn, now)).store)
  {
    hide Advance, BodyOk, Consistent, Fits, MigrateShaped;
    AdvanceCalls(s.bodies[id], turn, s.store.jobs[id].kind);
    StaysReturned(s.bodies[id], turn);
  }

  lemma StaysReturned(b: Body, t: Turn)
    ensures b.Returned? ==> Advance(b, t) == (b, None)
  {
  }

  lemma NextOrderly(s: Sys, e: Event)
    requires Orderly(s)
    ensures Orderly(Next(s, e)) && Settled(s.store, Next(s, e).store)
  {
    hide Orderly, Begun, Concluded, Advance;
    match e {
      case Ask(kind, id, now) => if id !in s.store.jobs && !s.store.active { AskOrderly(s, kind, id, now); }
      case Look(_) =>
      case Goes(id, turn, now) =>
        if id in s.bodies {
          if Advance(s.bodies[id], turn).1.Some? {
            CallOrderly(s, id, turn, now);
          } else {
            QuietOrderly(s, id, turn, now);
          }
        }
    }
  }

  /**
   Single flight and consistency over every interleaving; a job is finished once, by the turn on which its
   body returns, and once finished never changes again.
   */
  lemma {:induction false} AlwaysOrderly(s: Sys, events: seq<Event>)
    requires Orderly(s)
    ensures Orderly(Play(s, events)) && Settled(s.store, Play(s, events).store)
    decreases events
  {
    hide Orderly, Next;
    if events != [] {
      NextOrderly(s, events[0]);
      AlwaysOrderly(Next(s, events[0]), events[1..]);
    }
  }

  lemma JobsOrderly(past: seq<Event>, future: seq<Event>, id: JobId)
    ensures Orderly(Play(Empty(), past))
    ensures var now, later := Play(Empty(), past).store.jobs, Play(Play(Empty(), past), future).store.jobs;
            id in now && now[id].state != Running ==> id in later && later[id] == now[id]
  {
    EmptyOrderly();
    hide Orderly, Play;
    AlwaysOrderly(Empty(), past);
    AlwaysOrderly(Play(Empty(), past), future);
  }

  /** No job is forgotten, and each keeps the kind and the time it was started with. */
  lemma {:induction false} StartStays(s: Sys, events: seq<Event>, id: JobId)
    requires id in s.store.jobs
    ensures var r, t := s.store.jobs[id], Play(s, events).store;
            id in t.jobs && t.jobs[id].kind == r.kind && t.jobs[id].startedAt == r.startedAt
    decreases events
  {
    if events != [] {
      StartKept(s, events[0], id);
      hide Next;
      StartStays(Next(s, events[0]), events[1..], id);
    }
  }

  lemma StartKept(s: Sys, e: Event, id: JobId)
    requires id in s.store.jobs
    ensures var r, t := s.store.jobs[id], Next(s, e).store;
            id in t.jobs && t.jobs[id].kind == r.kind && t.jobs[id].startedAt == r.startedAt
  {
    hide Advance;
  }

  lemma EmptyOrderly()
    ensures Orderly(Empty())
  {
  }
}
