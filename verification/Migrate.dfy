/**
 A migrate job: sealed days move as in a transfer, then today's records are copied and counted on both
 sides. Each phase adds at most one error, and the job is finished by exactly one call.
 */
module Migrate {
  import opened Wrappers
  import Archive
  import opened Calendar
  import opened World
  import opened Invariant
  import opened Jobs
  import Transfer
  import RunReport

  type Bytes = Archive.Bytes

  // ----- the counting reader -------------------------------------------------------------------

  function Joined(pieces: seq<Bytes>): Bytes { if pieces == [] then "" else pieces[0] + Joined(pieces[1..]) }

  /** An export stream, read piece by piece; `broken` tells how it ends. */
  class CountingReader {
    const broken: bool
    var rest: seq<Bytes>
    var n: nat

    constructor (pieces: seq<Bytes>, broken: bool)
      ensures rest == pieces && this.broken == broken && n == 0
    {
      rest, this.broken, n := pieces, broken, 0;
    }

    /** None at the end of the stream. */
    method Read() returns (piece: Option<Bytes>)
      modifies this
      ensures piece.None? <==> old(rest) == []
      ensures piece.Some? ==> old(rest) == [piece.value] + rest && n == old(n) + |piece.value|
      ensures piece.None? ==> rest == old(rest) && n == old(n)
    {
      if rest == [] { return None; }
      piece := Some(rest[0]);
      n := n + |rest[0]|;
      rest := rest[1..];
    }
  }

  /** What the recent phase meets. The target may stop reading before the export ends. */
  datatype Recently = Recently(
    exported: Option<seq<Bytes>>,
    broken: bool,
    taken: nat,
    accepted: bool,
    sourceCount: Option<int>,
    targetCount: Option<int>)

  function Consumed(pieces: seq<Bytes>, taken: nat): Bytes {
    Joined(if taken <= |pieces| then pieces[..taken] else pieces)
  }

  predicate IngestOk(pieces: seq<Bytes>, r: Recently) {
    r.accepted && !(r.broken && |pieces| < r.taken)
  }

  lemma {:induction false} JoinedMore(pieces: seq<Bytes>, piece: Bytes)
    ensures Joined(pieces + [piece]) == Joined(pieces) + piece
  {
    if pieces == [] {
      assert [piece][1..] == [];
    } else {
      assert (pieces + [piece])[1..] == pieces[1..] + [piece];
      JoinedMore(pieces[1..], piece);
    }
  }

  /** Ingest: passes the stream on until it ends or the target stops reading. */
  method Ingest(body: CountingReader, r: Recently) returns (ok: bool, ghost received: Bytes)
    requires body.n == 0 && body.broken == r.broken
    modifies body
    ensures received == Consumed(old(body.rest), r.taken) && body.n == |received|
    ensures ok <==> r.accepted && (r.broken ==> r.taken <= |old(body.rest)|)
  {
    var count := 0;
    ok := r.accepted;
    received := "";
    ghost var all := body.rest;
    assert all[..0] == [];
    while count < r.taken
      invariant count <= r.taken && count <= |all| && body.rest == all[count..]
      invariant received == Joined(all[..count]) && body.n == |received|
      invariant ok == r.accepted
    {
      var piece := body.Read();
      if piece == None {
        ok := r.accepted && !r.broken;
        assert all[..count] == all;
        return;
      }
      assert all[..count] + [piece.value] == all[..count + 1];
      JoinedMore(all[..count], piece.value);
      received := received + piece.value;
      count := count + 1;
    }
  }

  // ----- the recent phase ----------------------------------------------------------------------

  function Today(now: Instant): Day { Name(Civil(DayOf(now))) }

  /** migrateRecent: what it established, and the stage it failed at if it failed. */
  function RecentResult(r: Recently, now: Instant): (Recent, Option<string>) {
    var blank := Recent(Today(now), 0, 0, 0, false);
    if r.exported.None? then (blank, Some("recent: export"))
    else
      var recent := blank.(bytesIngested := |Consumed(r.exported.value, r.taken)|);
      if !IngestOk(r.exported.value, r) then (recent, Some("recent: ingest"))
      else if r.sourceCount.None? then (recent, Some("recent: verify_source"))
      else if r.targetCount.None? then (recent, Some("recent: verify_target"))
      else
        var s, t := r.sourceCount.value, r.targetCount.value;
        (recent.(sourceCount := s, targetCount := t, verified := t >= s), None)
  }

  function Noted(errors: seq<(Day, string)>, day: Day, stage: Option<string>): seq<(Day, string)> {
    if stage.None? then errors else errors + [(day, stage.value)]
  }

  method MigrateRecent(r: Recently, now: Instant, errs: seq<(Day, string)>)
    returns (recent: Recent, errs': seq<(Day, string)>)
    ensures recent == RecentResult(r, now).0
    ensures errs' == Noted(errs, Today(now), RecentResult(r, now).1)
  {
    var today := TruncateUTC(now);
    TruncateIsMidnight(now);
    recent, errs' := Recent(Name(Civil(DayOf(today))), 0, 0, 0, false), errs;
    if r.exported.None? {
      errs' := errs + [(recent.partition, "recent: export")];
      return;
    }
    var counter := new CountingReader(r.exported.value, r.broken);
    var ok;
    ghost var received;
    ok, received := Ingest(counter, r);
    recent := recent.(bytesIngested := counter.n);
    if !ok {
      errs' := errs + [(recent.partition, "recent: ingest")];
      return;
    }
    if r.sourceCount.None? {
      errs' := errs + [(recent.partition, "recent: verify_source")];
      return;
    }
    if r.targetCount.None? {
      errs' := errs + [(recent.partition, "recent: verify_target")];
      return;
    }
    recent := recent.(sourceCount := r.sourceCount.value, targetCount := r.targetCount.value);
    recent := recent.(verified := recent.targetCount >= recent.sourceCount);
  }

  /** The export was opened, the target took it, and it did not break off while the target was reading. */
  predicate Copied(r: Recently) {
    r.exported.Some? && r.accepted && (r.broken ==> r.taken <= |r.exported.value|)
  }

  /**
   Each stage fails exactly as stated, and the first that fails is named. Verified means that none did and the
   target counts no fewer; the bytes reported are those of the pieces the target read; the counts are reported
   only if both were read.
   */
  lemma RecentMeans(r: Recently, now: Instant)
    ensures var (recent, failed) := RecentResult(r, now);
            && recent.partition == Name(Civil(DayOf(now)))
            && (failed == Some("recent: export") <==> r.exported.None?)
            && (failed == Some("recent: ingest") <==> r.exported.Some? && !Copied(r))
            && (failed == Some("recent: verify_source") <==> Copied(r) && r.sourceCount.None?)
            && (failed == Some("recent: verify_target") <==>
                  Copied(r) && r.sourceCount.Some? && r.targetCount.None?)
            && (failed.None? <==> Copied(r) && r.sourceCount.Some? && r.targetCount.Some?)
            && (failed.None? ==> recent.sourceCount == r.sourceCount.value && recent.targetCount == r.targetCount.value)
            && (failed.Some? ==> recent.sourceCount == recent.targetCount == 0)
            && (recent.verified <==> failed.None? && r.targetCount.value >= r.sourceCount.value)
            && recent.bytesIngested == if r.exported.None? then 0 else
                  |Joined(r.exported.value[..if r.taken <= |r.exported.value| then r.taken else |r.exported.value|])|
  {
    if r.exported.Some? { assert r.exported.value[..|r.exported.value|] == r.exported.value; }
    hide Joined, Name, Civil;
  }

  /** What the target took is a prefix of the export. */
  lemma ConsumedPrefix(pieces: seq<Bytes>, taken: nat)
    ensures Consumed(pieces, taken) <= Joined(pieces) && (taken >= |pieces| ==> Consumed(pieces, taken) == Joined(pieces))
  {
    hide Joined;
    if taken <= |pieces| { JoinedPrefix(pieces, taken); }
    assert pieces[..|pieces|] == pieces;
  }

  lemma {:induction false} JoinedPrefix(pieces: seq<Bytes>, k: nat)
    requires k <= |pieces|
    ensures Joined(pieces[..k]) <= Joined(pieces)
  {
    if k > 0 {
      assert pieces[..k][1..] == pieces[1..][..k - 1];
      JoinedPrefix(pieces[1..], k - 1);
    }
  }

  // ----- the body of the job -------------------------------------------------------------------

  /** Whether each of the three clients can be built, and whether the recent phase is cut off. */
  datatype Setting = Setting(insert: Option<string>, select: Option<string>, source: Option<string>,
          cutOff: Option<bool>)

  function SetupError(s: Setting): Option<string> {
    if s.insert.Some? then Some("target_vlinsert_url: " + s.insert.value)
    else if s.select.Some? then Some("target_vlselect_url: " + s.select.value)
    else s.source
  }

  function Combined(sealed: Transfer.Report, r: Recently, now: Instant): MigrateReport {
    var (recent, failed) := RecentResult(r, now);
    MigrateReport(sealed.transferred, sealed.skipped, Noted(sealed.errors, Today(now), failed), recent)
  }

  /** The one call runMigrate makes to the store, if the process lives to make it. */
  function MigrateOutcome(s: Setting, run: Transfer.Run, r: Recently, now: Instant): Option<Outcome> {
    if SetupError(s).Some? then Some(Broken(SetupError(s).value))
    else if run.ending.Died? then if run.ending.panicked then Some(Broken("migrate job panicked")) else None
    else if s.cutOff.Some? then if s.cutOff.value then Some(Broken("migrate job panicked")) else None
    else Some(Migrated(Combined(run.report, r, now)))
  }

  /** runMigrate, with the deferred recoverJob. */
  method RunMigrateJob(store: JobStore, cluster: Transfer.Cluster, id: JobId, s: Setting, days: seq<Day>,
          r: Recently, now: Instant, end: Time)
    returns (killed: bool)
    requires store.Valid()
    modifies store, set j | j in store.jobs :: store.jobs[j]
    modifies cluster
    ensures store.Valid() && store.jobs == old(store.jobs)
    ensures cluster.w == if SetupError(s).Some? then old(cluster.w)
                         else Transfer.RunTransfer(cluster.cfg, cluster.env, old(cluster.w), days).w
    ensures var o := MigrateOutcome(s, Transfer.RunTransfer(cluster.cfg, cluster.env, old(cluster.w), days), r, now);
            && killed == o.None?
            && store.finishes == old(store.finishes) + (if killed then [] else [id])
            && store.View() == if killed then old(store.View()) else Concluded(old(store.View()), id, o.value, end)
  {
    hide Transfer.RunTransfer, Concluded, RecentResult, Noted, Today, Marked, JobStore.View, Jobs.Job.View;
    killed := false;
    if s.insert.Some? {
      store.Fail(id, "target_vlinsert_url: " + s.insert.value, end);
      return;
    }
    if s.select.Some? {
      store.Fail(id, "target_vlselect_url: " + s.select.value, end);
      return;
    }
    if s.source.Some? {
      store.Fail(id, s.source.value, end);
      return;
    }
    var sealed, ending;
    ghost var given, ledger;
    sealed, ending, given, ledger := cluster.TransferSealedDays(days);
    var died := if ending.Died? then Some(ending.panicked) else s.cutOff;
    if died.Some? {
      if died.value { store.Fail(id, "migrate job panicked", end); } else { killed := true; }
      return;
    }
    var recent, errors := MigrateRecent(r, now, sealed.errors);
    store.CompleteMigrate(id, MigrateReport(sealed.transferred, sealed.skipped, errors, recent), end);
  }

  // ----- what the bodies report ----------------------------------------------------------------

  predicate SealedStage(stage: string) { stage in {"snapshot", "stream", "attach", "snapshot_cleanup", "detach"} }

  lemma MoveDayStage(cfg: Config, env: Transfer.Env, w: World, day: Day)
    ensures var end := Transfer.MoveDay(cfg, env, w, day).end; end.Broke? ==> SealedStage(end.stage)
  {
    hide Transfer.Create, Transfer.Delete, Transfer.Send, Transfer.AttachPeer, Transfer.DetachDay, Transfer.DeleteAll;
  }

  ghost predicate SealedErrors(r: Transfer.Report) {
    forall i :: 0 <= i < |r.errors| ==> SealedStage(r.errors[i].1)
  }

  lemma {:induction false} MoveDaysStages(cfg: Config, env: Transfer.Env, run: Transfer.Run, days: seq<Day>)
    requires SealedErrors(run.report)
    ensures SealedErrors(Transfer.MoveDays(cfg, env, run, days).report)
    decreases days
  {
    if days != [] {
      var m := Transfer.MoveDay(cfg, env, run.w, days[0]);
      MoveDayStage(cfg, env, run.w, days[0]);
      assert SealedErrors(Transfer.Added(run, days[0], m).report);
      hide Transfer.MoveDay, SealedErrors, SealedStage;
      if m.end.Transferred? || m.end.Skipped? { MoveDaysStages(cfg, env, Transfer.Added(run, days[0], m), days[1..]); }
    }
  }

  lemma RunStages(cfg: Config, env: Transfer.Env, w: World, days: seq<Day>)
    ensures var r := Transfer.RunTransfer(cfg, env, w, days).report; SealedErrors(r) && |r.errors| <= 1
  {
    RunReport.ReportPartitions(cfg, env, w, days);
    var (w1, got) := Transfer.Exchange(cfg, env, w, DeleteStale);
    hide Transfer.Exchange, Transfer.MoveDays;
    if !got.Dead? { MoveDaysStages(cfg, env, Transfer.Run(w1, Transfer.Blank(), Transfer.Finished, [], []), days); }
  }

  /** At most one sealed error, then at most one recent one. */
  lemma CombinedShaped(sealed: Transfer.Report, r: Recently, now: Instant)
    requires SealedErrors(sealed) && |sealed.errors| <= 1
    ensures MigrateShaped(Combined(sealed, r, now))
  {
    RecentMeans(r, now);
    var m, k := Combined(sealed, r, now), |sealed.errors|;
    hide Joined, Consumed, IngestOk, Today;
    assert RecentResult(r, now).0.partition == Today(now);
    forall i | 0 <= i < k ensures !RecentStage(m.errors[i].1) {
      assert m.errors[i] == sealed.errors[i];
    }
    hide RecentStage, SealedStage;
    assert SplitAt(m, k);
  }

  /** Whatever its run and its recent phase come to, a body's one call is one its job may end with. */
  lemma BodiesFit(cfg: Config, env: Transfer.Env, w: World, days: seq<Day>, setup: Option<string>, s: Setting,
          r: Recently, now: Instant)
    ensures var run := Transfer.RunTransfer(cfg, env, w, days);
            var t, m := TransferOutcome(setup, run), MigrateOutcome(s, run, r, now);
            && (t.Some? ==> Fits(TransferJob, t.value))
            && (m.Some? ==> Fits(MigrateJob, m.value))
            && (setup.Some? || run.ending != Transfer.Died(false) ==> t.Some?)
            && (SetupError(s).Some? || (run.ending != Transfer.Died(false) && s.cutOff != Some(false)) ==> m.Some?)
  {
    hide Transfer.RunTransfer, Combined, MigrateShaped, SealedErrors, SetupError;
    var run := Transfer.RunTransfer(cfg, env, w, days);
    RunStages(cfg, env, w, days);
    CombinedShaped(run.report, r, now);
  }

  lemma NoErrorsNoted(errors: seq<(Day, string)>, day: Day, stage: Option<string>)
    ensures Noted(errors, day, stage) == [] <==> errors == [] && stage.None?
    ensures stage.Some? ==> Noted(errors, day, stage) == errors + [(day, stage.value)]
  {
  }

  /**
   A transfer that lives to finish its job ends it as succeeded exactly if it was set up, its run came to its end
   and no day failed; a migrate, if also the copy of today was made and counted on both sides.
   */
  lemma SucceededIff(setup: Option<string>, s: Setting, run: Transfer.Run, r: Recently, now: Instant)
    ensures var t, m := TransferOutcome(setup, run), MigrateOutcome(s, run, r, now);
            var clean := run.ending.Finished? && run.report.errors == [];
            && (t.Some? && StateOf(t.value) == Succeeded <==> setup.None? && clean)
            && (m.Some? && StateOf(m.value) == Succeeded <==>
                  && s.insert.None? && s.select.None? && s.source.None? && clean && s.cutOff.None?
                  && Copied(r) && r.sourceCount.Some? && r.targetCount.Some?)
  {
    RecentMeans(r, now);
    NoErrorsNoted(run.report.errors, Today(now), RecentResult(r, now).1);
    hide RecentResult, Noted, Copied;
  }

  /**
   Which call each body makes: the error of the first step of its set-up that failed, that it panicked, or what its
   phases reported; a migrate reports the sealed days as the run did and adds what became of today.
   */
  lemma OutcomesAre(setup: Option<string>, s: Setting, run: Transfer.Run, r: Recently, now: Instant)
    ensures var t := TransferOutcome(setup, run);
            && (setup.Some? ==> t == Some(Broken(setup.value)))
            && (setup.None? && run.ending == Transfer.Died(true) ==> t == Some(Broken("transfer job panicked")))
            && (setup.None? && run.ending.Finished? ==> t == Some(Transferred(run.report)))
            && (t.None? <==> setup.None? && run.ending == Transfer.Died(false))
    ensures var m := MigrateOutcome(s, run, r, now);
            && (s.insert.Some? ==> m == Some(Broken("target_vlinsert_url: " + s.insert.value)))
            && (s.insert.None? && s.select.Some? ==> m == Some(Broken("target_vlselect_url: " + s.select.value)))
            && (s.insert.None? && s.select.None? && s.source.Some? ==> m == Some(Broken(s.source.value)))
            && (s.insert.None? && s.select.None? && s.source.None? ==>
                  && (run.ending == Transfer.Died(true) || (run.ending.Finished? && s.cutOff == Some(true)) ==>
                        m == Some(Broken("migrate job panicked")))
                  && (m.None? <==> run.ending == Transfer.Died(false) || (run.ending.Finished? && s.cutOff == Some(false)))
                  && (run.ending.Finished? && s.cutOff.None? ==>
                        && m.Some? && m.value.Migrated? && var report := m.value.migrate;
                        var (recent, failed) := RecentResult(r, now);
                        && report.transferred == run.report.transferred && report.skipped == run.report.skipped
                        && report.recent == recent
                        && report.errors == run.report.errors + if failed.Some? then [(Today(now), failed.value)] else []))
  {
    NoErrorsNoted(run.report.errors, Today(now), RecentResult(r, now).1);
    hide RecentResult;
    assert run.report.errors + [] == run.report.errors;
  }

  /** A job that succeeded moved or skipped each of its days, and none of them is left on the source. */
  lemma SucceededMeansAll(cfg: Config, env: Transfer.Env, w: World, days: seq<Day>, setup: Option<string>,
          s: Setting, r: Recently, now: Instant)
    requires Sound(cfg) && Inv(cfg, w)
    ensures var run := Transfer.RunTransfer(cfg, env, w, days);
            var t, m := TransferOutcome(setup, run), MigrateOutcome(s, run, r, now);
            (t.Some? && StateOf(t.value) == Succeeded) || (m.Some? && StateOf(m.value) == Succeeded) ==>
              && RunReport.Partitions(run.report, days) && run.report.errors == []
              && RunReport.Backed(run.w, run.report)
  {
    hide Transfer.RunTransfer, RunReport.Partitions, RunReport.Backed, RecentResult, SetupError, Inv, Sound;
    var run := Transfer.RunTransfer(cfg, env, w, days);
    RunReport.ReportPartitions(cfg, env, w, days);
    RunReport.ReportIsTrue(cfg, env, w, days);
    assert days[..|days|] == days;
  }
}
