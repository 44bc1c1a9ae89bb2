/**
 The in-memory job store: at most one transfer or migrate runs at a time, and each is finished once.

 The store's methods hold one lock, so each is a single step; what interleaves are requests for new
 jobs, status queries and the one store call that ends each background body.
 */
module Jobs {
  import opened Wrappers
  import opened World
  import Transfer

  type JobId = string
  type Time = int

  datatype Kind = TransferJob | MigrateJob

  datatype State = Running | Succeeded | Failed

  datatype Recent = Recent(partition: Day, bytesIngested: nat, sourceCount: int, targetCount: int, verified: bool)

  datatype MigrateReport = MigrateReport(transferred: seq<Day>, skipped: seq<Day>, errors: seq<(Day, string)>,
          recent: Recent)

  /** A job as it stands. */
  datatype Record = Record(
    kind: Kind,
    state: State,
    startedAt: Time,
    finishedAt: Option<Time>,
    transfer: Option<Transfer.Report>,
    migrate: Option<MigrateReport>,
    err: string)

  datatype Store = Store(jobs: map<JobId, Record>, active: bool)

  /** How a body ends: with the result of its kind, or with a set-up error or a panic. */
  datatype Outcome = Transferred(transfer: Transfer.Report) | Migrated(migrate: MigrateReport) | Broken(err: string)

  datatype JobStatus = JobStatus(jobId: JobId, record: Record, error: Option<string>)

  function TerminalState(errors: nat): State { if errors > 0 then Failed else Succeeded }

  function StateOf(o: Outcome): State {
    match o
    case Transferred(r) => TerminalState(|r.errors|)
    case Migrated(r) => TerminalState(|r.errors|)
    case Broken(_) => Failed
  }

  function Begun(s: Store, id: JobId, kind: Kind, now: Time): Store {
    if s.active then s
    else Store(s.jobs[id := Record(kind, Running, now, None, None, None, "")], true)
  }

  function Marked(r: Record, o: Outcome): Record {
    match o
    case Transferred(resp) => r.(transfer := Some(resp))
    case Migrated(resp) => r.(migrate := Some(resp))
    case Broken(err) => r.(err := err)
  }

  /** finish, as the source has it: whether the job still runs is not looked at. */
  function Finished(s: Store, id: JobId, state: State, o: Outcome, now: Time): Store {
    if id !in s.jobs then s
    else Store(s.jobs[id := Marked(s.jobs[id].(state := state, finishedAt := Some(now)), o)], false)
  }

  function Concluded(s: Store, id: JobId, o: Outcome, now: Time): Store { Finished(s, id, StateOf(o), o, now) }

  // ----- the store as an object ----------------------------------------------------------------

  class Job {
    const id: JobId
    const kind: Kind
    const startedAt: Time
    var state: State
    var finishedAt: Option<Time>
    var transfer: Option<Transfer.Report>
    var migrate: Option<MigrateReport>
    var err: string

    constructor (id: JobId, kind: Kind, now: Time)
      ensures this.id == id && View() == Record(kind, Running, now, None, None, None, "")
    {
      this.id, this.kind, this.startedAt := id, kind, now;
      state, finishedAt, transfer, migrate, err := Running, None, None, None, "";
    }

    function View(): Record
      reads this
    {
      Record(kind, state, startedAt, finishedAt, transfer, migrate, err)
    }

    /** What finish does to the job itself; `mutate` stands for the callback it is handed. */
    method Close(state: State, now: Time, mutate: Outcome)
      modifies this
      ensures View() == Marked(old(View()).(state := state, finishedAt := Some(now)), mutate)
    {
      this.state := state;
      finishedAt := Some(now);
      match mutate {
        case Transferred(resp) => transfer := Some(resp);
        case Migrated(resp) => migrate := Some(resp);
        case Broken(e) => err := e;
      }
    }
  }

  class JobStore {
    var jobs: map<JobId, Job>
    var active: bool
    ghost var finishes: seq<JobId>

    ghost predicate Valid()
      reads this
    {
      && (forall id :: id in jobs ==> jobs[id].id == id)
    }

    ghost function View(): Store
      reads this, set id | id in jobs :: jobs[id]
    {
      Store(map id | id in jobs :: jobs[id].View(), active)
    }

    constructor ()
      ensures Valid() && View() == Store(map[], false) && finishes == []
    {
      jobs, active, finishes := map[], false, [];
    }

    /** Identifiers are random in the source; here the new one is given and must be unused. */
    method Start(kind: Kind, id: JobId, now: Time) returns (job: Job?)
      requires Valid() && id !in jobs
      modifies this`jobs, this`active
      ensures Valid() && View() == Begun(old(View()), id, kind, now)
      ensures job == null <==> old(active)
      ensures job != null ==> fresh(job) && id in jobs && jobs[id] == job
    {
      if active { return null; }
      job := new Job(id, kind, now);
      jobs := jobs[id := job];
      active := true;
    }

    method Status(id: JobId) returns (status: JobStatus, ok: bool)
      requires Valid()
      ensures ok <==> id in View().jobs
      ensures ok ==> var r := View().jobs[id]; status == JobStatus(id, r, if r.err == "" then None else Some(r.err))
    {
      if id !in jobs {
        return JobStatus("", Record(TransferJob, Running, 0, None, None, None, ""), None), false;
      }
      var job := jobs[id];
      status := JobStatus(job.id, job.View(), None);
      if job.err != "" { status := status.(error := Some(job.err)); }
      ok := true;
    }

    method CompleteTransfer(id: JobId, resp: Transfer.Report, now: Time)
      requires Valid()
      modifies this, if id in jobs then {jobs[id]} else {}
      ensures Valid() && jobs == old(jobs) && finishes == old(finishes) + [id]
      ensures View() == Concluded(old(View()), id, Transferred(resp), now)
      ensures id in jobs ==> jobs[id].View() == old(jobs[id].View()).(
                               state := if resp.errors == [] then Succeeded else Failed,
                               finishedAt := Some(now), transfer := Some(resp))
    {
      Finish(id, TerminalState(|resp.errors|), Transferred(resp), now);
    }

    method CompleteMigrate(id: JobId, resp: MigrateReport, now: Time)
      requires Valid()
      modifies this, if id in jobs then {jobs[id]} else {}
      ensures Valid() && jobs == old(jobs) && finishes == old(finishes) + [id]
      ensures View() == Concluded(old(View()), id, Migrated(resp), now)
      ensures id in jobs ==> jobs[id].View() == old(jobs[id].View()).(
                               state := if resp.errors == [] then Succeeded else Failed,
                               finishedAt := Some(now), migrate := Some(resp))
    {
      Finish(id, TerminalState(|resp.errors|), Migrated(resp), now);
    }

    method Fail(id: JobId, err: string, now: Time)
      requires Valid()
      modifies this, if id in jobs then {jobs[id]} else {}
      ensures Valid() && jobs == old(jobs) && finishes == old(finishes) + [id]
      ensures View() == Concluded(old(View()), id, Broken(err), now)
      ensures id in jobs ==>
          jobs[id].View() == old(jobs[id].View()).(state := Failed, finishedAt := Some(now), err := err)
    {
      Finish(id, Failed, Broken(err), now);
    }

    method Finish(id: JobId, state: State, mutate: Outcome, now: Time)
      requires Valid()
      modifies this, if id in jobs then {jobs[id]} else {}
      ensures Valid() && jobs == old(jobs) && finishes == old(finishes) + [id]
      ensures View() == Finished(old(View()), id, state, mutate, now)
    {
      hide Marked;
      finishes := finishes + [id];
      if id !in jobs { return; }
      var job := jobs[id];
      job.Close(state, now, mutate);
      active := false;
      forall other | other in jobs && other != id ensures jobs[other].View() == old(jobs[other].View()) {
        assert jobs[other].id == other;
      }
    }
  }

  // ----- a background body ---------------------------------------------------------------------

  /** The one call runTransfer makes to the store, if the process lives to make it. */
  function TransferOutcome(setup: Option<string>, run: Transfer.Run): Option<Outcome> {
    if setup.Some? then Some(Broken(setup.value))
    else if run.ending.Finished? then Some(Transferred(run.report))
    else if run.ending.panicked then Some(Broken("transfer job panicked"))
    else None
  }

  /**
   runTransfer, with the deferred recoverJob: on a set-up error, at the normal end and after a panic it
   finishes its job by exactly one call. Only the death of the process, and of the store, prevents it.
   */
  method RunTransferJob(store: JobStore, cluster: Transfer.Cluster, id: JobId, setup: Option<string>, days: seq<Day>,
          now: Time)
    returns (killed: bool)
    requires store.Valid()
    modifies store, set j | j in store.jobs :: store.jobs[j]
    modifies cluster
    ensures store.Valid() && store.jobs == old(store.jobs)
    ensures cluster.w == if setup.Some? then old(cluster.w)
                         else Transfer.RunTransfer(cluster.cfg, cluster.env, old(cluster.w), days).w
    ensures var o := TransferOutcome(setup, Transfer.RunTransfer(cluster.cfg, cluster.env, old(cluster.w), days));
            && killed == o.None?
            && store.finishes == old(store.finishes) + (if killed then [] else [id])
            && store.View() == if killed then old(store.View()) else Concluded(old(store.View()), id, o.value, now)
  {
    hide Transfer.RunTransfer, Concluded, Marked, JobStore.View, Job.View;
    killed := false;
    if setup.Some? {
      store.Fail(id, setup.value, now);
      return;
    }
    var resp, ending;
    ghost var given, ledger;
    resp, ending, given, ledger := cluster.TransferSealedDays(days);
    match ending {
      case Finished => store.CompleteTransfer(id, resp, now);
      case Died(panicked) =>
        if panicked { store.Fail(id, "transfer job panicked", now); } else { killed := true; }
    }
  }

  // ----- what a job may report ------------------------------------------------------------------

  /** What a migrate may report: at most one sealed error, then at most one recent one. */
  predicate MigrateShaped(m: MigrateReport) {
    exists k :: 0 <= k <= 1 && k <= |m.errors| <= k + 1 && SplitAt(m, k)
  }

  predicate SplitAt(m: MigrateReport, k: nat)
    requires k <= |m.errors|
  {
    && (forall i :: 0 <= i < k ==> !RecentStage(m.errors[i].1))
    && (forall i :: k <= i < |m.errors| ==> RecentStage(m.errors[i].1) && m.errors[i].0 == m.recent.partition)
    && (m.recent.verified ==> |m.errors| == k && m.recent.targetCount >= m.recent.sourceCount)
  }

  predicate RecentStage(stage: string) {
    stage in {"recent: export", "recent: ingest", "recent: verify_source", "recent: verify_target"}
  }

  predicate Fits(kind: Kind, o: Outcome) {
    match o
    case Transferred(r) => kind == TransferJob && |r.errors| <= 1
    case Migrated(m) => kind == MigrateJob && MigrateShaped(m)
    case Broken(_) => true
  }

  /** Active holds exactly when one job runs, and never do two. */
  ghost predicate SingleFlight(s: Store) {
    && (s.active <==> exists id :: id in s.jobs && s.jobs[id].state == Running)
    && (forall a, b :: a in s.jobs && b in s.jobs ==>
          s.jobs[a].state == Running && s.jobs[b].state == Running ==> a == b)
  }

  /** What a job's record says is consistent. */
  predicate Consistent(r: Record) {
    && (r.finishedAt.Some? <==> r.state != Running)
    && (r.state == Running ==> r.transfer.None? && r.migrate.None? && r.err == "")
    && (r.transfer.Some? ==>
          r.kind == TransferJob && r.err == "" && (r.state == Succeeded <==> r.transfer.value.errors == []))
    && (r.migrate.Some? ==>
          && r.kind == MigrateJob && r.err == "" && (r.state == Succeeded <==> r.migrate.value.errors == [])
          && MigrateShaped(r.migrate.value))
    && (r.state == Succeeded ==> if r.kind == TransferJob then r.transfer.Some? else r.migrate.Some?)
  }

  /**
   What starting and finishing a job make of its record: the time it started stays, the time of the finish call
   is noted, and its state is that of the outcome, succeeded exactly if there is a report without errors.
   */
  lemma RecordTells(s: Store, id: JobId, kind: Kind, began: Time, o: Outcome, ended: Time)
    requires !s.active
    ensures var t := Concluded(Begun(s, id, kind, began), id, o, ended);
            && id in t.jobs && !t.active && var r := t.jobs[id];
            && r.kind == kind && r.startedAt == began && r.finishedAt == Some(ended)
            && (r.state == Succeeded <==>
                  (o.Transferred? && o.transfer.errors == []) || (o.Migrated? && o.migrate.errors == []))
            && (r.state == Failed <==> r.state != Succeeded)
            && r.transfer == (if o.Transferred? then Some(o.transfer) else None)
            && r.migrate == (if o.Migrated? then Some(o.migrate) else None)
            && r.err == (if o.Broken? then o.err else "")
            && t.jobs - {id} == s.jobs - {id}
  {
  }

  /** finish itself keeps single flight exactly when it names the running job, no job, or none runs. */
  lemma FinishKeepsSingleFlight(s: Store, id: JobId, o: Outcome, now: Time)
    requires SingleFlight(s)
    ensures SingleFlight(Concluded(s, id, o, now)) <==> id !in s.jobs || s.jobs[id].state == Running || !s.active
  {
    var t := Concluded(s, id, o, now);
    if id in s.jobs {
      assert t.jobs[id].state != Running;
      if s.active && s.jobs[id].state != Running {
        var r :| r in s.jobs && s.jobs[r].state == Running;
        assert r in t.jobs && t.jobs[r].state == Running;
      }
    }
  }

  /** Finishing a finished job while another runs lets a third start beside it. */
  lemma SecondFinishBreaksSingleFlight(id: JobId, other: JobId, third: JobId, o: Outcome, now: Time)
    requires id != other && id != third && other != third
    ensures var once := Concluded(Begun(Store(map[], false), id, TransferJob, now), id, o, now);
            var twice := Begun(Concluded(Begun(once, other, TransferJob, now), id, o, now), third, MigrateJob, now);
            && SingleFlight(Begun(once, other, TransferJob, now)) && !SingleFlight(twice)
            && twice.jobs[other].state == Running == twice.jobs[third].state
  {
    var once := Concluded(Begun(Store(map[], false), id, TransferJob, now), id, o, now);
    var running := Begun(once, other, TransferJob, now);
    assert running.jobs[other].state == Running && running.jobs[id].state != Running;
    var twice := Begun(Concluded(running, id, o, now), third, MigrateJob, now);
    assert twice.jobs[other].state == Running && twice.jobs[third].state == Running;
  }
}
