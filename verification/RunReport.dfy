/**
 What a whole run reports and leaves behind: its report partitions the days it reached, days past a
 failure are never named, and each snapshot it was given is deleted by exactly one call.
 */
module RunReport {
  import opened World
  import opened Invariant
  import opened Preservation
  import opened Transfer
  import opened Safety
  import opened Bookkeeping

  // ----- the report as a partition -------------------------------------------------------------

  function Processed(r: Report): nat { |r.transferred| + |r.skipped| + |r.errors| }

  /** The days at these positions, in order. */
  ghost predicate Picked(days: seq<Day>, picked: seq<Day>, at: seq<nat>) {
    && |at| == |picked|
    && (forall i :: 0 <= i < |at| ==> at[i] < |days| && days[at[i]] == picked[i])
    && (forall i, j :: 0 <= i < j < |at| ==> at[i] < at[j])
  }

  /** Each position is in exactly one of the two lists, save the last when it failed. */
  ghost predicate Splits(n: nat, failed: bool, t: seq<nat>, s: seq<nat>) {
    forall i {:trigger i in t} {:trigger i in s} :: 0 <= i < n ==>
      if failed && i == n - 1 then i !in t && i !in s else (i in t) != (i in s)
  }

  /**
   The report names each of these days once, by position: transferred and skipped are in order and
   disjoint, and a failed day can only be the last.
   */
  ghost predicate Partitions(r: Report, days: seq<Day>) {
    && |r.errors| <= 1
    && (r.errors != [] ==> days != [] && r.errors[0].0 == days[|days| - 1])
    && exists t, s :: Picked(days, r.transferred, t) && Picked(days, r.skipped, s)
        && Splits(|days|, r.errors != [], t, s)
  }

  lemma PickedMore(days: seq<Day>, day: Day, picked: seq<Day>, at: seq<nat>)
    requires Picked(days, picked, at)
    ensures Picked(days + [day], picked, at) && Picked(days + [day], picked + [day], at + [|days|])
    ensures |days| !in at
  {
  }

  lemma NotedPartitions(r: Report, days: seq<Day>, day: Day, end: DayEnd)
    requires Partitions(r, days) && r.errors == [] && !end.Gone?
    ensures Partitions(Noted(r, day, end), days + [day])
  {
    var t, s :| Picked(days, r.transferred, t) && Picked(days, r.skipped, s) && Splits(|days|, false, t, s);
    PickedMore(days, day, r.transferred, t);
    PickedMore(days, day, r.skipped, s);
    hide Picked;
    var r', n := Noted(r, day, end), |days|;
    match end {
      case Transferred => assert Splits(n + 1, false, t + [n], s) by { SplitsMore(n, t, s); }
      case Skipped => assert Splits(n + 1, false, t, s + [n]) by { SplitsMore(n, t, s); }
      case Broke(_) => assert Splits(n + 1, true, t, s);
    }
  }

  lemma SplitsMore(n: nat, t: seq<nat>, s: seq<nat>)
    requires Splits(n, false, t, s) && n !in t && n !in s
    ensures Splits(n + 1, false, t + [n], s) && Splits(n + 1, false, t, s + [n])
  {
    forall i | 0 <= i < n + 1 ensures (i in t + [n]) != (i in s) && (i in t) != (i in s + [n]) {
    }
  }

  /** The report partitions the first days, as many as it names. */
  ghost predicate Tells(r: Report, days: seq<Day>) {
    Processed(r) <= |days| && Partitions(r, days[..Processed(r)])
  }

  lemma {:induction false} MoveDaysTells(cfg: Config, env: Env, run: Run, days: seq<Day>, k: nat)
    requires k <= |days| && run.ending == Finished && run.report.errors == []
    requires Processed(run.report) == k && Tells(run.report, days)
    ensures var end := MoveDays(cfg, env, run, days[k..]);
            && Tells(end.report, days)
            && (end.ending.Finished? && end.report.errors == [] ==> Processed(end.report) == |days|)
    decreases |days| - k
  {
    if k < |days| {
      var m := MoveDay(cfg, env, run.w, days[k]);
      var next := Added(run, days[k], m);
      assert days[k..][0] == days[k] && days[k..][1..] == days[k + 1..];
      assert days[..k] + [days[k]] == days[..k + 1];
      if !m.end.Gone? { NotedPartitions(run.report, days[..k], days[k], m.end); }
      hide MoveDay, Partitions;
      if m.end.Transferred? || m.end.Skipped? {
        MoveDaysTells(cfg, env, next, days, k + 1);
      }
    }
  }

  /** The report of a whole run partitions the days it processed; without an error, all of them. */
  lemma ReportPartitions(cfg: Config, env: Env, w: World, days: seq<Day>)
    ensures var run := RunTransfer(cfg, env, w, days);
            && Tells(run.report, days)
            && (run.ending.Finished? && run.report.errors == [] ==> Processed(run.report) == |days|)
  {
    var (w1, got) := Exchange(cfg, env, w, DeleteStale);
    var start := Run(w1, Blank(), Finished, [], []);
    assert Picked([], [], []) && Splits(0, false, [], []);
    assert days[..0] == [] && days[0..] == days;
    hide Exchange, MoveDays;
    if !got.Dead? { MoveDaysTells(cfg, env, start, days, 0); }
  }

  /** Days asked for once are named once. */
  lemma NamedOnce(r: Report, days: seq<Day>)
    requires Tells(r, days)
    requires forall i, j :: 0 <= i < j < |days| ==> days[i] != days[j]
    ensures forall d :: d in r.transferred ==> d !in r.skipped
    ensures forall d :: d in r.transferred || d in r.skipped ==> r.errors == [] || d != r.errors[0].0
  {
    var done := days[..Processed(r)];
    assert forall i, j :: 0 <= i < j < |done| ==> done[i] != done[j];
    var t, s :| Picked(done, r.transferred, t) && Picked(done, r.skipped, s) && Splits(|done|, r.errors != [], t, s);
    forall i | 0 <= i < |t| ensures t[i] in t && t[i] !in s {
    }
    forall i | 0 <= i < |s| ensures s[i] in s && s[i] !in t {
    }
  }

  // ----- what the report means for the two nodes -----------------------------------------------

  /** What was transferred is attached on the target, and neither it nor what was skipped is on the source. */
  ghost predicate Backed(w: World, r: Report) {
    && (forall i :: 0 <= i < |r.transferred| ==> r.transferred[i] in w.attached && r.transferred[i] !in w.held)
    && (forall i :: 0 <= i < |r.skipped| ==> r.skipped[i] !in w.held)
  }

  lemma BackedMore(w: World, w': World, r: Report, day: Day, end: DayEnd)
    requires Backed(w, r) && Grows(w, w') && EndMeans(w', day, end)
    ensures Backed(w', Noted(r, day, end))
  {
  }

  lemma {:induction false} MoveDaysBacked(cfg: Config, env: Env, run: Run, days: seq<Day>)
    requires Sound(cfg) && Inv(cfg, run.w) && Backed(run.w, run.report)
    ensures var end := MoveDays(cfg, env, run, days); Backed(end.w, end.report)
    decreases days
  {
    if days != [] {
      var m := MoveDay(cfg, env, run.w, days[0]);
      MoveDayKeeps(cfg, env, run.w, days[0]);
      BackedMore(run.w, m.w, run.report, days[0], m.end);
      hide MoveDay, Inv, Sound, Backed, EndMeans, Grows;
      if m.end.Transferred? || m.end.Skipped? {
        MoveDaysBacked(cfg, env, Added(run, days[0], m), days[1..]);
      }
    }
  }

  lemma ReportIsTrue(cfg: Config, env: Env, w: World, days: seq<Day>)
    requires Sound(cfg) && Inv(cfg, w)
    ensures var run := RunTransfer(cfg, env, w, days); Backed(run.w, run.report)
  {
    ExchangeKeeps(cfg, env, w, DeleteStale);
    var (w1, got) := Exchange(cfg, env, w, DeleteStale);
    hide Exchange, MoveDays, Inv, Sound;
    if !got.Dead? { MoveDaysBacked(cfg, env, Run(w1, Blank(), Finished, [], []), days); }
  }

  // ----- what a run asks for -------------------------------------------------------------------

  predicate AboutDay(msg: Msg, day: Day, given: seq<SnapId>) { msg == Detach(day) || About(msg, day, given) }

  /** Nothing was asked but to drop stale snapshots and what concerns these days and snapshots. */
  ghost predicate OnlyThese(msgs: seq<Msg>, days: seq<Day>, given: seq<SnapId>) {
    forall i :: 0 <= i < |msgs| ==>
      msgs[i] == DeleteStale || exists k :: 0 <= k < |days| && AboutDay(msgs[i], days[k], given)
  }

  /** The books of a run over the days it reached. */
  ghost predicate Balanced(cfg: Config, env: Env, w0: World, run: Run, days: seq<Day>) {
    exists msgs :: Said(cfg, env, w0, run.w, msgs) && OnlyThese(msgs, days, run.given) && Paid(msgs, run)
  }

  ghost predicate Paid(msgs: seq<Msg>, run: Run) {
    && Deletes(msgs) <= run.given
    && (run.ending.Finished? ==> Deletes(msgs) == run.given && Listed(run.ledger) == run.given)
  }

  ghost predicate DaySaid(cfg: Config, env: Env, w: World, day: Day, m: Moved, msgs: seq<Msg>) {
    && Said(cfg, env, w, m.w, msgs) && OnlyThese(msgs, [day], m.given)
    && Deletes(msgs) <= m.given
    && (!m.end.Gone? ==> Deletes(msgs) == m.given && Listed(m.ledger) == m.given)
  }

  lemma DayBalances(cfg: Config, env: Env, w: World, day: Day, m: Moved)
    requires Books(cfg, env, w, day, m)
    ensures exists msgs :: DaySaid(cfg, env, w, day, m, msgs)
  {
    hide Said, Listed, Deletes, About;
    var w1, gone :| Spoke(cfg, env, w, w1, day, m.given, gone) && Closed(cfg, env, w1, day, m, gone);
    var msgs :| Said(cfg, env, w, w1, msgs) && AllAbout(msgs, day, m.given) && Deletes(msgs) == gone;
    hide Spoke, Books;
    forall i | 0 <= i < |msgs| ensures AboutDay(msgs[i], [day][0], m.given) {
    }
    if w1 == m.w {
      assert DaySaid(cfg, env, w, day, m, msgs);
    } else {
      SaidThen(cfg, env, w, w1, m.w, msgs, [Detach(day)]);
      DeletesConcat(msgs, [Detach(day)]);
      DeletesOne(Detach(day));
      assert AboutDay(Detach(day), [day][0], m.given);
      assert gone + [] == gone;
      assert DaySaid(cfg, env, w, day, m, msgs + [Detach(day)]);
    }
  }

  lemma OnlyTheseMore(x: seq<Msg>, y: seq<Msg>, days: seq<Day>, day: Day, given: seq<SnapId>, more: seq<SnapId>)
    requires OnlyThese(x, days, given) && OnlyThese(y, [day], more)
    ensures OnlyThese(x + y, days + [day], given + more)
  {
    forall i | 0 <= i < |x + y| && (x + y)[i] != DeleteStale
      ensures exists k :: 0 <= k < |days + [day]| && AboutDay((x + y)[i], (days + [day])[k], given + more)
    {
      if i < |x| {
        var k :| 0 <= k < |days| && AboutDay(x[i], days[k], given);
        assert AboutDay((x + y)[i], (days + [day])[k], given + more);
      } else {
        var k :| 0 <= k < |[day]| && AboutDay(y[i - |x|], [day][k], more);
        assert AboutDay((x + y)[i], (days + [day])[|days|], given + more);
      }
    }
  }

  lemma ListedConcat(a: seq<Deletion>, b: seq<Deletion>)
    ensures Listed(a + b) == Listed(a) + Listed(b)
  {
  }

  lemma BalancedMore(cfg: Config, env: Env, w0: World, run: Run, days: seq<Day>, day: Day, m: Moved)
    requires Balanced(cfg, env, w0, run, days) && run.ending.Finished? && Books(cfg, env, run.w, day, m)
    ensures Balanced(cfg, env, w0, Added(run, day, m), days + [day])
  {
    DayBalances(cfg, env, run.w, day, m);
    var x :| Said(cfg, env, w0, run.w, x) && OnlyThese(x, days, run.given) && Paid(x, run);
    var y :| DaySaid(cfg, env, run.w, day, m, y);
    SaidThen(cfg, env, w0, run.w, m.w, x, y);
    DeletesConcat(x, y);
    OnlyTheseMore(x, y, days, day, run.given, m.given);
    ListedConcat(run.ledger, m.ledger);
    hide Said, OnlyThese, Listed, Deletes, Books;
    assert Paid(x + y, Added(run, day, m));
  }

  /** The days a run reached: those it processed and the one it died at. */
  function Reached(run: Run, days: seq<Day>): seq<Day> {
    var n := Processed(run.report) + if run.ending.Died? then 1 else 0;
    if n <= |days| then days[..n] else days
  }

  lemma MoveDaysUnfolds(cfg: Config, env: Env, run: Run, days: seq<Day>, k: nat)
    requires k < |days|
    ensures var m := MoveDay(cfg, env, run.w, days[k]);
            MoveDays(cfg, env, run, days[k..]) ==
            if m.end.Transferred? || m.end.Skipped? then MoveDays(cfg, env, Added(run, days[k], m), days[k + 1..])
            else Added(run, days[k], m)
  {
    assert days[k..][0] == days[k] && days[k..][1..] == days[k + 1..];
    hide MoveDay;
  }

  lemma AddedProcessed(run: Run, day: Day, m: Moved)
    requires run.ending == Finished
    ensures var next := Added(run, day, m);
            && (m.end.Gone? <==> next.ending.Died?)
            && Processed(next.report) == Processed(run.report) + if m.end.Gone? then 0 else 1
  {
  }

  lemma ReachedIs(run: Run, days: seq<Day>, n: nat)
    requires n <= |days| && Processed(run.report) == n - if run.ending.Died? then 1 else 0
    ensures Reached(run, days) == days[..n]
  {
  }

  lemma {:induction false} MoveDaysBalanced(cfg: Config, env: Env, w0: World, run: Run, days: seq<Day>, k: nat)
    requires k <= |days| && run.ending == Finished && Processed(run.report) == k
    requires Balanced(cfg, env, w0, run, days[..k])
    ensures var end := MoveDays(cfg, env, run, days[k..]); Balanced(cfg, env, w0, end, Reached(end, days))
    decreases |days| - k
  {
    hide MoveDay, Balanced, Books, Reached;
    if k == |days| {
      ReachedIs(run, days, k);
    } else {
      var m := MoveDay(cfg, env, run.w, days[k]);
      var next := Added(run, days[k], m);
      MoveDayBooks(cfg, env, run.w, days[k]);
      BalancedMore(cfg, env, w0, run, days[..k], days[k], m);
      MoveDaysUnfolds(cfg, env, run, days, k);
      AddedProcessed(run, days[k], m);
      assert days[..k] + [days[k]] == days[..k + 1];
      hide MoveDays, Added, Processed;
      if m.end.Transferred? || m.end.Skipped? {
        MoveDaysBalanced(cfg, env, w0, next, days, k + 1);
      } else {
        ReachedIs(next, days, k + 1);
      }
    }
  }

  /**
   Whatever happens, a run asks only about the days it reached, so days past a failure are untouched;
   it never asks twice to delete a snapshot, and a run that is not killed asks once for each.
   */
  lemma RunBalances(cfg: Config, env: Env, w: World, days: seq<Day>)
    ensures var run := RunTransfer(cfg, env, w, days); Balanced(cfg, env, w, run, Reached(run, days))
  {
    ExchangeSays(cfg, env, w, DeleteStale);
    DeletesOne(DeleteStale);
    var (w1, got) := Exchange(cfg, env, w, DeleteStale);
    var start := Run(w1, Blank(), if got.Dead? then Died(got.panicked) else Finished, [], []);
    hide Exchange, MoveDays, Said;
    assert Listed([]) == [];
    assert OnlyThese([DeleteStale], [], []) && Paid([DeleteStale], start);
    assert days[..0] == [] && days[0..] == days;
    if got.Dead? {
      OnlyTheseAny([DeleteStale], Reached(start, days));
    } else {
      MoveDaysBalanced(cfg, env, w, start, days, 0);
    }
  }

  lemma OnlyTheseAny(msgs: seq<Msg>, days: seq<Day>)
    requires OnlyThese(msgs, [], [])
    ensures OnlyThese(msgs, days, [])
  {
  }

  // ----- snapshots a run was given -------------------------------------------------------------

  /** Where a delete succeeded, the snapshot is gone. */
  ghost predicate LedgerTrue(w: World, ledger: seq<Deletion>) {
    forall i :: 0 <= i < |ledger| ==> ledger[i].snap < |w.issued| && (ledger[i].ok ==> ledger[i].snap !in w.snaps)
  }

  lemma LedgerTrueKept(w: World, w': World, ledger: seq<Deletion>)
    requires LedgerTrue(w, ledger) && Grows(w, w')
    ensures LedgerTrue(w', ledger)
  {
  }

  lemma GiveUpTrue(cfg: Config, env: Env, w: World, day: Day, snap: SnapId, stage: string)
    requires Sound(cfg) && Inv(cfg, w) && TakenOf(w, snap, day)
    ensures var m := GiveUp(cfg, env, w, snap, stage); LedgerTrue(m.w, m.ledger) && m.given == [snap]
  {
    DeleteMeans(cfg, env, w, snap, day);
    hide Delete, Inv, DeletedBefore, Preserves;
  }

  lemma CleanAndDetachTrue(cfg: Config, env: Env, w: World, day: Day, snap: SnapId)
    requires Sound(cfg) && Inv(cfg, w) && TakenOf(w, snap, day) && day in w.attached
    ensures var m := CleanAndDetach(cfg, env, w, day, snap); LedgerTrue(m.w, m.ledger) && m.given == [snap]
  {
    hide Delete, DetachDay, Inv, Sound, Grows, DeletedBefore;
    DeleteMeans(cfg, env, w, snap, day);
    var (w1, e) := Delete(cfg, env, w, snap);
    assert e == Done ==> LedgerTrue(w1, [Deletion(snap, true)]);
    assert LedgerTrue(w1, [Deletion(snap, false)]);
    hide TakenOf;
    AttachedStays(w, w1, day);
    if e == Done {
      DetachMeans(cfg, env, w1, day);
      LedgerTrueKept(w1, DetachDay(cfg, env, w1, day).0, [Deletion(snap, true)]);
    }
    hide LedgerTrue;
  }

  lemma {:induction false} DeleteAllTrue(cfg: Config, env: Env, w: World, ids: seq<SnapId>, day: Day)
    requires Sound(cfg) && Inv(cfg, w) && forall i :: 0 <= i < |ids| ==> TakenOf(w, ids[i], day)
    ensures var (w', e, ledger) := DeleteAll(cfg, env, w, ids); LedgerTrue(w', ledger)
    decreases ids
  {
    hide Inv, Sound, Delete, DeletedBefore, Grows;
    if ids != [] {
      DeleteMeans(cfg, env, w, ids[0], day);
      var (w1, e) := Delete(cfg, env, w, ids[0]);
      assert LedgerTrue(w1, [Deletion(ids[0], e == Done)]);
      hide TakenOf;
      forall i | 0 <= i < |ids[1..]| ensures TakenOf(w1, ids[1..][i], day) {
        TakenKept(w, w1, ids[i + 1], day);
      }
      if !e.Halted? {
        DeleteAllKeeps(cfg, env, w1, ids[1..], day);
        LedgerTrueKept(w1, DeleteAll(cfg, env, w1, ids[1..]).0, [Deletion(ids[0], e == Done)]);
        DeleteAllTrue(cfg, env, w1, ids[1..], day);
      }
    }
  }

  lemma MoveSnapshotTrue(cfg: Config, env: Env, w: World, day: Day, snap: SnapId)
    requires Sound(cfg) && Inv(cfg, w) && TakenOf(w, snap, day)
    ensures var m := MoveSnapshot(cfg, env, w, day, snap); LedgerTrue(m.w, m.ledger) && m.given == [snap]
  {
    hide Inv, Sound, Send, TakenOf, Grows, GiveUp, AttachAndFinish;
    SendMeans(cfg, env, w, day, snap, 0);
    var (w1, s) := Send(cfg, env, w, day, snap, 0);
    TakenKept(w, w1, snap, day);
    if s.NotSent? {
      GiveUpTrue(cfg, env, w1, day, snap, "stream");
    } else if !s.SendHalted? {
      AttachAndFinishTrue(cfg, env, w1, day, snap);
    }
  }

  lemma AttachAndFinishTrue(cfg: Config, env: Env, w: World, day: Day, snap: SnapId)
    requires Sound(cfg) && Inv(cfg, w) && TakenOf(w, snap, day)
    ensures var m := AttachAndFinish(cfg, env, w, day, snap); LedgerTrue(m.w, m.ledger) && m.given == [snap]
  {
    hide Inv, Sound, AttachPeer, TakenOf, Grows, GiveUp, CleanAndDetach;
    AttachMeans(cfg, env, w, day, 0);
    var (w1, a) := AttachPeer(cfg, env, w, day, 0);
    TakenKept(w, w1, snap, day);
    if a == Failed {
      GiveUpTrue(cfg, env, w1, day, snap, "attach");
    } else if a == Done {
      CleanAndDetachTrue(cfg, env, w1, day, snap);
    }
  }

  /** These snapshots did not exist before, exist now, and are all different. */
  ghost predicate NewGiven(w: World, w': World, given: seq<SnapId>) {
    && (forall i :: 0 <= i < |given| ==> |w.issued| <= given[i] < |w'.issued|)
    && (forall i, j :: 0 <= i < j < |given| ==> given[i] != given[j])
  }

  lemma FreshGiven(a: World, b: World, c: World, ids: seq<SnapId>, day: Day)
    requires FreshOf(a, b, ids, day) && Grows(b, c)
    ensures NewGiven(a, c, ids)
  {
    forall i | 0 <= i < |ids| ensures |a.issued| <= ids[i] < |c.issued| {
      assert TakenOf(b, ids[i], day);
    }
  }

  lemma MoveDayGiven(cfg: Config, env: Env, w: World, day: Day)
    requires Sound(cfg) && Inv(cfg, w)
    ensures var m := MoveDay(cfg, env, w, day); NewGiven(w, m.w, m.given) && LedgerTrue(m.w, m.ledger)
  {
    CreateMeans(cfg, env, w, day);
    var (w1, c) := Create(cfg, env, w, day);
    hide Create, DeleteAll, MoveSnapshot, Inv, Sound, Grows, TakenOf;
    if c.Paths? && |c.ids| == 1 {
      MoveSnapshotKeeps(cfg, env, w1, day, c.ids[0]);
      MoveSnapshotTrue(cfg, env, w1, day, c.ids[0]);
      FreshGiven(w, w1, MoveSnapshot(cfg, env, w1, day, c.ids[0]).w, c.ids, day);
      hide NewGiven, LedgerTrue, FreshOf;
      assert c.ids == [c.ids[0]];
    } else if c.Paths? && |c.ids| > 1 {
      DeleteAllKeeps(cfg, env, w1, c.ids, day);
      DeleteAllTrue(cfg, env, w1, c.ids, day);
      FreshGiven(w, w1, DeleteAll(cfg, env, w1, c.ids).0, c.ids, day);
      hide NewGiven, LedgerTrue, FreshOf;
    }
  }

  lemma GivenMore(w0: World, run: Run, day: Day, m: Moved)
    requires |w0.issued| <= |run.w.issued| && NewGiven(w0, run.w, run.given) && LedgerTrue(run.w, run.ledger)
    requires Grows(run.w, m.w) && NewGiven(run.w, m.w, m.given) && LedgerTrue(m.w, m.ledger)
    ensures NewGiven(w0, m.w, run.given + m.given) && LedgerTrue(m.w, run.ledger + m.ledger)
  {
    LedgerTrueKept(run.w, m.w, run.ledger);
    hide Grows;
    assert |run.w.issued| <= |m.w.issued|;
  }

  lemma {:induction false} MoveDaysGiven(cfg: Config, env: Env, w0: World, run: Run, days: seq<Day>)
    requires Sound(cfg) && Inv(cfg, run.w) && |w0.issued| <= |run.w.issued|
    requires NewGiven(w0, run.w, run.given) && LedgerTrue(run.w, run.ledger)
    ensures var end := MoveDays(cfg, env, run, days); NewGiven(w0, end.w, end.given) && LedgerTrue(end.w, end.ledger)
    decreases days
  {
    if days != [] {
      var m := MoveDay(cfg, env, run.w, days[0]);
      MoveDayKeeps(cfg, env, run.w, days[0]);
      MoveDayGiven(cfg, env, run.w, days[0]);
      GivenMore(w0, run, days[0], m);
      assert |run.w.issued| <= |m.w.issued|;
      hide MoveDay, Inv, Sound, NewGiven, LedgerTrue, EndMeans, Grows;
      if m.end.Transferred? || m.end.Skipped? {
        MoveDaysGiven(cfg, env, w0, Added(run, days[0], m), days[1..]);
      }
    }
  }

  lemma RunGiven(cfg: Config, env: Env, w: World, days: seq<Day>)
    requires Sound(cfg) && Inv(cfg, w)
    ensures var run := RunTransfer(cfg, env, w, days); NewGiven(w, run.w, run.given) && LedgerTrue(run.w, run.ledger)
  {
    ExchangeKeeps(cfg, env, w, DeleteStale);
    var (w1, got) := Exchange(cfg, env, w, DeleteStale);
    assert |w.issued| <= |w1.issued|;
    hide Exchange, MoveDays, Inv, Sound, Grows;
    if !got.Dead? { MoveDaysGiven(cfg, env, w, Run(w1, Blank(), Finished, [], []), days); }
  }

  /**
   The snapshot ledger: in every run that is not killed, each snapshot it was given gets exactly one
   delete call, and one still exists only where that call failed.
   */
  lemma LedgerExact(cfg: Config, env: Env, w: World, days: seq<Day>)
    requires Sound(cfg) && Inv(cfg, w) && RunTransfer(cfg, env, w, days).ending.Finished?
    ensures var run := RunTransfer(cfg, env, w, days);
            && (exists msgs :: Said(cfg, env, w, run.w, msgs) && Deletes(msgs) == run.given)
            && (forall i, j :: 0 <= i < j < |run.given| ==> run.given[i] != run.given[j])
            && (forall s :: s in run.given && s in run.w.snaps ==> Deletion(s, false) in run.ledger)
  {
    RunBalances(cfg, env, w, days);
    RunGiven(cfg, env, w, days);
    var run := RunTransfer(cfg, env, w, days);
    hide RunTransfer, Said, Inv, Sound, OnlyThese, Deletes;
    var msgs :| Said(cfg, env, w, run.w, msgs) && OnlyThese(msgs, Reached(run, days), run.given) && Paid(msgs, run);
    forall s | s in run.given && s in run.w.snaps ensures Deletion(s, false) in run.ledger {
      var i :| 0 <= i < |run.given| && run.given[i] == s;
      assert Listed(run.ledger)[i] == s;
      assert run.ledger[i] == Deletion(s, false);
    }
  }

  /** In every history, each detach follows the successful delete of a snapshot of its day. */
  lemma DeletedThenDetached(cfg: Config, w: World, legs: seq<Leg>, j: MsgId)
    requires Sound(cfg) && Initial(cfg, w) && j < |After(cfg, w, legs).net| && After(cfg, w, legs).net[j].msg.Detach?
    ensures var now := After(cfg, w, legs);
            now.net[j].msg.day in now.attached && DeletedBefore(now, j, now.net[j].msg.day)
  {
    hide After, Sound, DeletedBefore;
    InitialInv(cfg, w);
    AfterKeeps(cfg, w, legs);
    assert DetachesOk(After(cfg, w, legs));
  }
}
