/** The record is read through a cache. What a sync forgets when the cache is
    behind. */
module StaleRecords {
  import opened Cluster
  import opened DecisionLog
  import opened Engine
  import opened Objects
  import opened OrphanRaces
  import opened Safety
  import opened SyncRun
  import opened Wrappers

  /** A recorded sync of one resource, with nobody about and a cache that has seen
      only so much of the record. */
  function Recording(res: Resource, policy: Policy, retain: int, seen: nat, orders: Orders): Step {
    Sync(policy, Retention(true, retain), seen, None, [], [Job(res, orders)])
  }

  /** What is recorded replaces what was on record: a name is on record afterwards
      exactly when the engine knows it, having loaded or set it. */
  lemma RecordReplaces(cfg: Config, policy: Policy, rec: Retention, p: Progress, job: Job)
    requires job.res.direction != Unsupported && rec.enabled && rec.retain > 0
    requires var pass := SyncPass(cfg, job.res, PolicyFor(job.res, policy), p.w, job.orders);
             pass.error == None && |pass.decisions| > 0 && Await(pass.w).1.fault != Rejected && pass.w.history != map[]
    ensures var p' := RunJob(cfg, policy, rec, p, job); Load(Latest(p'.records)) == p'.w.history
  {
    hide SyncPass, EntriesOf, ApplyEdits;
  }

  /** A sync that records leaves on record what the version it loaded held and what
      it set itself, and no more, whichever version that is. */
  lemma RecordIsLoadedPlusSet(cfg: Config, res: Resource, policy: Policy, retain: int, seen: nat, s: System, obj: Object)
    requires WellNamed(cfg) && Wanted(cfg, res, obj) && res.direction == Bidirectional && retain > 0
    requires s.w.tenant.objects == map[KeyOf(obj) := obj] && s.w.host.objects == map[]
    ensures var next := s.w.host.next;
            var step := Recording(res, policy, retain, seen, Orders([obj], [FirstMirror(cfg, res, obj, next)]));
            && Enabled(cfg, s, step)
            && Load(Latest(TakeStep(cfg, s, step).records))
               == Load(Loaded(s.records, seen))[MirrorKey(cfg, res, obj).name := Converged(obj.meta.version, next)]
  {
    hide Desired, Eligible, SyncPass, Answered, KeyOf, MirrorKey, FirstMirror, RunJob, Loaded;
    var m := FirstMirror(cfg, res, obj, s.w.host.next);
    var orders := Orders([obj], [m]);
    var step := Recording(res, policy, retain, seen, orders);
    var w := Starts(s, step);
    FirstMirrorIsLabelled(cfg, res, obj, s.w.host.next);
    assert m.meta.name == MirrorKey(cfg, res, obj).name by { NameOfKey(m); }
    FirstPassCreates(cfg, res, policy, w, obj);
    var job, rec := Job(res, orders), Retention(true, retain);
    var p := Progress(w, s.records, None);
    assert [job][1..] == [];
    assert RunJobs(cfg, policy, rec, p, [job]) == RunJob(cfg, policy, rec, p, job);
    assert JobsAnswered(cfg, policy, rec, p, [job]);
    var pass := SyncPass(cfg, res, policy, w, orders);
    assert m.meta.name in pass.w.history;
    RecordReplaces(cfg, policy, rec, p, job);
    JobKeepsHistory(cfg, policy, rec, p, job);
  }

  lemma JobKeepsHistory(cfg: Config, policy: Policy, rec: Retention, p: Progress, job: Job)
    requires job.res.direction != Unsupported
    ensures RunJob(cfg, policy, rec, p, job).w.history == SyncPass(cfg, job.res, PolicyFor(job.res, policy), p.w, job.orders).w.history
  {
    hide SyncPass, EntriesOf, ApplyEdits;
  }

  /** So of the pairs on record it forgets exactly those that the loaded version
      lacks, but for the one it has just made. */
  lemma StaleLoadForgets(cfg: Config, res: Resource, policy: Policy, retain: int, seen: nat, s: System, obj: Object, name: string)
    requires WellNamed(cfg) && Wanted(cfg, res, obj) && res.direction == Bidirectional && retain > 0
    requires s.w.tenant.objects == map[KeyOf(obj) := obj] && s.w.host.objects == map[]
    requires name in Load(Latest(s.records))
    ensures var step := Recording(res, policy, retain, seen, Orders([obj], [FirstMirror(cfg, res, obj, s.w.host.next)]));
            && Enabled(cfg, s, step)
            && (name in Load(Latest(TakeStep(cfg, s, step).records)) <==> Recalls(s, step, name) || name == MirrorKey(cfg, res, obj).name)
  {
    hide Desired, Eligible, TakeStep, Enabled, KeyOf, MirrorKey, FirstMirror;
    RecordIsLoadedPlusSet(cfg, res, policy, retain, seen, s, obj);
  }

  lemma NameOfKey(o: Object)
    ensures KeyOf(o).name == o.meta.name
  {
  }
}
