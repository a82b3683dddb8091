/** `runSync` as the controller performs it: one fresh engine for all resources,
    recording after each of them (internal/controller/sync.go). */
module TenantSync {
  import opened Cluster
  import opened DecisionLog
  import opened Engine
  import opened Safety
  import opened SyncRun
  import opened Syncer
  import opened Wrappers

  lemma {:induction false} OneMoreJob(cfg: Config, policy: Policy, rec: Retention, p: Progress, jobs: seq<Job>, job: Job)
    ensures RunJobs(cfg, policy, rec, p, jobs + [job]) == RunJob(cfg, policy, rec, RunJobs(cfg, policy, rec, p, jobs), job)
    ensures JobsAnswered(cfg, policy, rec, p, jobs + [job])
       <==> JobsAnswered(cfg, policy, rec, p, jobs)
            && (job.res.direction != Unsupported ==>
                  Answered(cfg, job.res, PolicyFor(job.res, policy), RunJobs(cfg, policy, rec, p, jobs).w, job.orders))
    decreases |jobs|
  {
    hide RunJob, Answered;
    if jobs == [] {
      assert ([] + [job])[1..] == [];
    } else {
      assert (jobs + [job])[1..] == jobs[1..] + [job];
      OneMoreJob(cfg, policy, rec, RunJob(cfg, policy, rec, p, jobs[0]), jobs[1..], job);
    }
  }

  ghost predicate JobsFor(resources: seq<Resource>, jobs: seq<Job>) {
    |jobs| == |resources| && forall i :: 0 <= i < |jobs| ==> jobs[i].res == resources[i]
  }

  class TenantSync {
    const cfg: Config
    const durable: SyncDecision

    constructor (cfg: Config, durable: SyncDecision)
      ensures this.cfg == cfg && this.durable == durable
    {
      this.cfg := cfg;
      this.durable := durable;
    }

    /** sync_decisions.go:50-94, called when recording is on; its one write may
        fail, which is only logged. */
    method Persist(engine: SyncEngine, rec: Retention, decisions: seq<Decision>)
      requires engine.cfg == cfg && durable.Valid()
      modifies engine, durable
      ensures durable.Valid()
      ensures (engine.View(), durable.versions) == SyncRun.Persist(rec, old(engine.View()), old(durable.versions), decisions)
    {
      hide ApplyEdits, RecordDecisions;
      if rec.enabled && decisions != [] && rec.retain > 0 {
        var turn := engine.Yield();
        if turn.fault != Rejected {
          durable.RecordSyncDecisions(decisions, rec.retain, engine.history);
        }
      }
    }

    /** One resource's turn, and the error it leaves. */
    method RunResource(engine: SyncEngine, policy: Policy, rec: Retention, res: Resource, firstErr: Option<Error>)
      returns (err: Option<Error>, ghost job: Job)
      requires engine.cfg == cfg && durable.Valid() && WellNamed(cfg) && Inv(cfg, engine.View())
      modifies engine, durable
      ensures job.res == res && durable.Valid()
      ensures res.direction != Unsupported ==> Answered(cfg, res, PolicyFor(res, policy), old(engine.View()), job.orders)
      ensures Progress(engine.View(), durable.versions, err)
           == RunJob(cfg, policy, rec, Progress(old(engine.View()), old(durable.versions), firstErr), job)
      ensures Inv(cfg, engine.View())
    {
      hide Inv, Engine.SyncPass, Answered, SyncRun.Persist;
      err, job := firstErr, Job(res, Orders([], []));
      if res.direction == Unsupported {
        return;
      }
      var decisions, error, orders := engine.SyncPass(res, if res.direction == Bidirectional then policy else Manual);
      job := Job(res, orders);
      if error.Some? {
        if firstErr.None? {
          err := error;
        }
        return;
      }
      PersistKeepsWorldInv(cfg, rec, engine.View(), durable.versions, decisions);
      Persist(engine, rec, decisions);
    }

    /** sync.go:52-122, with the tenant's resources in `resources`. `cached` is the
        copy of the record that the cached client serves. */
    method RunSync(w: World, policy: Policy, rec: Retention, cached: SyncDecision, ghost seen: nat, grants: Option<nat>, script: seq<Turn>, resources: seq<Resource>)
      returns (w': World, firstErr: Option<Error>, ghost jobs: seq<Job>)
      requires WellNamed(cfg) && durable.Valid() && SystemInv(cfg, System(w, durable.versions))
      requires cached.Stored() == Loaded(durable.versions, seen)
      modifies durable
      ensures JobsFor(resources, jobs) && durable.Valid()
      ensures var s, step := System(w, old(durable.versions)), Sync(policy, rec, seen, grants, script, jobs);
              && Enabled(cfg, s, step)
              && Progress(w', durable.versions, firstErr) == SyncRun.RunSync(cfg, policy, rec, Starts(s, step), s.records, jobs)
    {
      hide Inv, RunJob, Answered, ApplyEdits, Loaded;
      jobs := [];
      firstErr := None;
      ghost var begun := FreshEngine(w, rec, Loaded(durable.versions, seen), grants, script);
      StartsSafely(cfg, System(w, durable.versions), Sync(policy, rec, seen, grants, script, []));
      if |resources| == 0 {
        return FreshEngine(w, rec, cached.Stored(), grants, script), None, [];
      }
      var history: History := map[];
      if rec.enabled {
        history := cached.LoadConvergenceHistory();
      }
      var engine := new SyncEngine(cfg, w.(history := history, limiter := grants, script := script));
      AwaitKeepsInv(cfg, begun);
      if rec.enabled {
        var turn := engine.Yield();
        if turn.fault != Served {
          w' := engine.View();
          firstErr := Some(ListFailed);
          jobs := seq(|resources|, i requires 0 <= i < |resources| => Job(resources[i], Orders([], [])));
          return;
        }
      }
      ghost var start := Progress(engine.View(), durable.versions, None);
      for i := 0 to |resources|
        invariant Inv(cfg, engine.View()) && engine.cfg == cfg && durable.Valid()
        invariant |jobs| == i && forall j :: 0 <= j < i ==> jobs[j].res == resources[j]
        invariant JobsAnswered(cfg, policy, rec, start, jobs)
        invariant Progress(engine.View(), durable.versions, firstErr) == RunJobs(cfg, policy, rec, start, jobs)
      {
        var err, job := RunResource(engine, policy, rec, resources[i], firstErr);
        OneMoreJob(cfg, policy, rec, start, jobs, job);
        firstErr := err;
        jobs := jobs + [job];
      }
      w' := engine.View();
    }
  }

  lemma PersistKeepsWorldInv(cfg: Config, rec: Retention, w: World, records: seq<Record>, decisions: seq<Decision>)
    requires Inv(cfg, w)
    ensures Inv(cfg, SyncRun.Persist(rec, w, records, decisions).0)
  {
    hide Inv, Await;
    AwaitKeepsInv(cfg, w);
  }
}
