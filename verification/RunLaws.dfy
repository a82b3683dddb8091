/** What one runSync leaves behind (internal/controller/sync.go): whose history, whose
    error, and what goes on record. */
module RunLaws {
  import opened Cluster
  import opened DecisionLog
  import opened Engine
  import opened PassLaws
  import opened SyncRun
  import opened Wrappers

  /** A resource that flows one way, or not at all, leaves the engine's history as it
      was. */
  lemma OneWayJobKeepsHistory(cfg: Config, policy: Policy, rec: Retention, p: Progress, job: Job)
    requires job.res.direction != Bidirectional
    ensures RunJob(cfg, policy, rec, p, job).w.history == p.w.history
  {
    hide SyncPass, ApplyEdits;
    if job.res.direction != Unsupported {
      OneWayPassKeepsHistory(cfg, job.res, PolicyFor(job.res, policy), p.w, job.orders);
    }
  }

  /** So do any number of them in a row. */
  lemma {:induction false} OneWayJobsKeepHistory(cfg: Config, policy: Policy, rec: Retention, p: Progress, jobs: seq<Job>)
    requires forall i :: 0 <= i < |jobs| ==> jobs[i].res.direction != Bidirectional
    ensures RunJobs(cfg, policy, rec, p, jobs).w.history == p.w.history
    decreases |jobs|
  {
    hide RunJob;
    if jobs != [] {
      OneWayJobKeepsHistory(cfg, policy, rec, p, jobs[0]);
      OneWayJobsKeepHistory(cfg, policy, rec, RunJob(cfg, policy, rec, p, jobs[0]), jobs[1..]);
    }
  }

  /** The pass that a job is: the policy counts only where both sides may have moved. */
  function PassOf(cfg: Config, policy: Policy, w: World, job: Job): PassResult {
    SyncPass(cfg, job.res, if job.res.direction == Bidirectional then policy else Manual, w, job.orders)
  }

  /** The errors of the passes, each run on what the ones before it left. */
  function PassErrors(cfg: Config, policy: Policy, rec: Retention, p: Progress, jobs: seq<Job>): seq<Error>
    decreases |jobs|
  {
    if jobs == [] then []
    else
      (if jobs[0].res.direction == Unsupported then []
       else AsErrors(PassOf(cfg, policy, p.w, jobs[0]).error))
      + PassErrors(cfg, policy, rec, RunJob(cfg, policy, rec, p, jobs[0]), jobs[1..])
  }

  /** An error stops nothing: what the passes after it do, and record, is the same. */
  lemma {:induction false} ErrorsStopNothing(cfg: Config, policy: Policy, rec: Retention, p: Progress, error: Option<Error>, jobs: seq<Job>)
    ensures var a, b := RunJobs(cfg, policy, rec, p, jobs), RunJobs(cfg, policy, rec, p.(firstError := error), jobs);
            a.w == b.w && a.records == b.records
    decreases |jobs|
  {
    hide SyncPass, Persist;
    if jobs != [] {
      ErrorsStopNothing(cfg, policy, rec, RunJob(cfg, policy, rec, p, jobs[0]),
                        RunJob(cfg, policy, rec, p.(firstError := error), jobs[0]).firstError, jobs[1..]);
    }
  }

  /** The run reports the first error that any of its passes gave. */
  lemma {:induction false} FirstErrorIsReported(cfg: Config, policy: Policy, rec: Retention, p: Progress, jobs: seq<Job>)
    ensures var errors := AsErrors(p.firstError) + PassErrors(cfg, policy, rec, p, jobs);
            RunJobs(cfg, policy, rec, p, jobs).firstError == if errors == [] then None else Some(errors[0])
    decreases |jobs|
  {
    hide SyncPass, Persist;
    if jobs != [] {
      FirstErrorIsReported(cfg, policy, rec, RunJob(cfg, policy, rec, p, jobs[0]), jobs[1..]);
    }
  }

  /** A pass goes on record if and only if it had no error, made decisions, recording
      is on with room to retain any, and the one write for it got through; then the
      record ends with an entry for each decision, as far as there is room, and holds
      the engine's history unless that is empty. */
  lemma JobIsRecorded(cfg: Config, policy: Policy, rec: Retention, p: Progress, job: Job)
    requires job.res.direction != Unsupported
    ensures var pass, after := PassOf(cfg, policy, p.w, job), RunJob(cfg, policy, rec, p, job).w;
            after.audit == pass.w.audit && after.history == pass.w.history && after.limiter == pass.w.limiter
    ensures var pass := PassOf(cfg, policy, p.w, job);
            var records := RunJob(cfg, policy, rec, p, job).records;
            if pass.error == None && pass.decisions != [] && rec.enabled && rec.retain > 0 && Await(pass.w).1.fault != Rejected then
              && |records| == |p.records| + 1 && p.records == records[..|p.records|]
              && TellsLast(Stored(Latest(p.records)), records[|p.records|].entries, pass.decisions, rec.retain)
              && (pass.w.history != map[] ==> records[|p.records|].lastConverged == pass.w.history)
              && (pass.w.history == map[] ==> records[|p.records|].lastConverged == Load(Latest(p.records)))
            else records == p.records
  {
    hide SyncPass, ApplyEdits, TellsLast, EntriesOf, Last;
    var pass := PassOf(cfg, policy, p.w, job);
    if pass.decisions != [] && rec.retain > 0 {
      RecordingTells(Latest(p.records), pass.decisions, rec.retain, pass.w.history);
    }
  }

  lemma {:induction false} OffTheRecord(cfg: Config, policy: Policy, rec: Retention, p: Progress, jobs: seq<Job>)
    requires !rec.enabled
    ensures RunJobs(cfg, policy, rec, p, jobs).records == p.records
    decreases |jobs|
  {
    hide SyncPass;
    if jobs != [] {
      OffTheRecord(cfg, policy, rec, RunJob(cfg, policy, rec, p, jobs[0]), jobs[1..]);
    }
  }

  /** With recording off a sync starts without any baseline and leaves the record
      alone; with it on it starts from what its cache shows, and when that cannot be
      read it does nothing but report. */
  lemma WhatASyncStartsFrom(cfg: Config, s: System, step: Step)
    requires step.Sync?
    ensures var start := Starts(s, step);
            var p := RunSync(cfg, step.policy, step.rec, start, s.records, step.jobs);
            && start.limiter == step.grants
            && (!step.rec.enabled ==> start.history == map[] && p.records == s.records)
            && (step.rec.enabled ==>
                  match Loaded(s.records, step.seen)
                  case None => start.history == map[]
                  case Some(r) => start.history == r.lastConverged)
            && (step.rec.enabled && step.jobs != [] && Await(start).1.fault != Served ==>
                  && p.firstError == Some(ListFailed) && p.records == s.records
                  && p.w.audit == s.w.audit && p.w.history == start.history)
  {
    hide RunJobs, ApplyEdits, Loaded;
    if !step.rec.enabled {
      OffTheRecord(cfg, step.policy, step.rec, Progress(Starts(s, step), s.records, None), step.jobs);
    }
  }
}
