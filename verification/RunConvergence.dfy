/** Convergence of a whole tenant: all resources of a run share one limiter, and
    run after run pays off as much of what they all owe together as its grants
    allow. */
module RunConvergence {
  import opened Calm
  import opened Cluster
  import opened Conservation
  import opened Convergence
  import opened DecisionLog
  import opened Engine
  import HostNames
  import opened ManualPass
  import opened Safety
  import opened StandoffRuns
  import opened SyncRun
  import Transform
  import opened Wrappers

  // ---- one resource's work is not another's ----

  /** Nothing of this kind is different on either side. */
  ghost predicate SameOfKind(w: World, w': World, kind: string) {
    forall k: Key :: k.kind == kind ==> w'.tenant.Lookup(k) == w.tenant.Lookup(k) && w'.host.Lookup(k) == w.host.Lookup(k)
  }

  lemma PassSparesKind(cfg: Config, other: Resource, policy: Policy, w: World, orders: Orders, kind: string)
    requires WellNamed(cfg) && Inv(cfg, w) && IsCalm(w) && Answered(cfg, other, policy, w, orders) && other.kind != kind
    ensures SameOfKind(w, SyncPass(cfg, other, policy, w, orders).w, kind)
  {
    hide SyncPass, Answered, Inv, IsCalm, PairKept;
    var w' := SyncPass(cfg, other, policy, w, orders).w;
    forall k: Key | k.kind == kind
      ensures w'.tenant.Lookup(k) == w.tenant.Lookup(k) && w'.host.Lookup(k) == w.host.Lookup(k)
    {
      CalmSpares(w, k, k);
      OtherKindsPass(cfg, other, policy, w, orders, k, k);
      KeptLooks(w, w', k, k);
    }
  }

  lemma KeptLooks(w: World, w': World, tenantKey: Key, hostKey: Key)
    requires PairKept(w, w', tenantKey, hostKey)
    ensures w'.tenant.Lookup(tenantKey) == w.tenant.Lookup(tenantKey) && w'.host.Lookup(hostKey) == w.host.Lookup(hostKey)
  {
  }

  lemma LiveByKind(cfg: Config, res: Resource, policy: Policy, w: World, w': World)
    requires !NoWinner(res, policy)
    requires SameOfKind(w, w', res.kind) && w.tenant.Valid() && w'.tenant.Valid()
    ensures LiveNames(cfg, res, w'.tenant) == LiveNames(cfg, res, w.tenant)
    ensures forall k :: Pending(cfg, res, policy, w', k) <==> Pending(cfg, res, policy, w, k)
    ensures forall k :: Pending(cfg, res, policy, w, k) ==> k in w.tenant.objects && k in w'.tenant.objects && w'.tenant.objects[k] == w.tenant.objects[k]
  {
    hide HostNames.HostName, Desired, Eligible, Transform.ReverseLookup, Transform.ContentOf;
    forall k: Key
      ensures k in w.tenant.objects && Wanted(cfg, res, w.tenant.objects[k]) ==> k.kind == res.kind
      ensures k in w'.tenant.objects && Wanted(cfg, res, w'.tenant.objects[k]) ==> k.kind == res.kind
    {
      assert k in w.tenant.objects ==> KeyOf(w.tenant.objects[k]) == k;
      assert k in w'.tenant.objects ==> KeyOf(w'.tenant.objects[k]) == k;
    }
    forall k: Key | k.kind == res.kind
      ensures k in w.tenant.objects <==> k in w'.tenant.objects
      ensures k in w.tenant.objects ==> w'.tenant.objects[k] == w.tenant.objects[k]
    {
      assert w'.tenant.Lookup(k) == w.tenant.Lookup(k);
    }
  }

  lemma OrphansByKind(cfg: Config, res: Resource, w: World, w': World)
    requires SameOfKind(w, w', res.kind) && w.host.Valid() && w'.host.Valid()
    requires LiveNames(cfg, res, w'.tenant) == LiveNames(cfg, res, w.tenant)
    ensures forall k :: IsOrphan(cfg, res, w', k) <==> IsOrphan(cfg, res, w, k)
    ensures forall k :: IsOrphan(cfg, res, w, k) ==> k in w.host.objects && k in w'.host.objects
  {
    hide LiveNames;
    forall k: Key
      ensures IsOrphan(cfg, res, w', k) <==> IsOrphan(cfg, res, w, k)
    {
      assert k in w.host.objects ==> KeyOf(w.host.objects[k]) == k;
      assert k in w'.host.objects ==> KeyOf(w'.host.objects[k]) == k;
      if k.kind == res.kind {
        assert w'.host.Lookup(k) == w.host.Lookup(k);
      }
    }
  }

  lemma SameListsSameTodo(cfg: Config, res: Resource, policy: Policy, w: World, w': World)
    requires forall k :: Pending(cfg, res, policy, w', k) <==> Pending(cfg, res, policy, w, k)
    requires forall k :: Pending(cfg, res, policy, w, k) ==> k in w.tenant.objects && k in w'.tenant.objects && w'.tenant.objects[k] == w.tenant.objects[k]
    requires forall k :: IsOrphan(cfg, res, w', k) <==> IsOrphan(cfg, res, w, k)
    requires forall k :: IsOrphan(cfg, res, w, k) ==> k in w.host.objects && k in w'.host.objects
    ensures Todo(cfg, res, policy, w') <= Todo(cfg, res, policy, w)
  {
    hide Pending, IsOrphan, MirrorKey;
  }

  /** What a resource owes depends on its own kind only. */
  lemma TodoByKind(cfg: Config, res: Resource, policy: Policy, w: World, w': World)
    requires !NoWinner(res, policy)
    requires SameOfKind(w, w', res.kind) && IsCalm(w) && IsCalm(w')
    ensures Todo(cfg, res, policy, w') == Todo(cfg, res, policy, w)
  {
    hide SameOfKind, Pending, IsOrphan, LiveNames, MirrorKey, IsCalm, NoWinner, Todo;
    CalmStores(w);
    CalmStores(w');
    LiveByKind(cfg, res, policy, w, w');
    OrphansByKind(cfg, res, w, w');
    SameListsSameTodo(cfg, res, policy, w, w');
    SameListsSameTodo(cfg, res, policy, w', w);
  }

  lemma ReadyByKind(cfg: Config, res: Resource, policy: Policy, w: World, w': World)
    requires SameOfKind(w, w', res.kind) && Ready(cfg, res, policy, w) && IsCalm(w') && !NoWinner(res, policy)
    ensures Ready(cfg, res, policy, w')
  {
    hide Pending, Mirrors, SameOfKind, LiveNames;
    LiveByKind(cfg, res, policy, w, w');
  }

  // ---- all resources of one run ----

  ghost function Debts(cfg: Config, policy: Policy, w: World, res: Resource): set<string> {
    if res.direction == Unsupported then {} else Todo(cfg, res, PolicyFor(res, policy), w)
  }

  /** What is left to do for all of them; unsupported ones are passed over. */
  ghost function Owed(cfg: Config, policy: Policy, w: World, jobs: seq<Job>): nat {
    if jobs == [] then 0 else |Debts(cfg, policy, w, jobs[0].res)| + Owed(cfg, policy, w, jobs[1..])
  }

  /** Every resource has a winner, and no kind is listed twice. */
  ghost predicate AllReady(cfg: Config, policy: Policy, w: World, jobs: seq<Job>) {
    && (forall i :: 0 <= i < |jobs| && jobs[i].res.direction != Unsupported ==> Ready(cfg, jobs[i].res, PolicyFor(jobs[i].res, policy), w))
    && (forall i :: 0 <= i < |jobs| ==> !NoWinner(jobs[i].res, PolicyFor(jobs[i].res, policy)))
    && (forall i, j :: 0 <= i < j < |jobs| ==> jobs[i].res.kind != jobs[j].res.kind)
  }

  /** None of the jobs is of this kind. */
  predicate Unlisted(jobs: seq<Job>, kind: string) {
    forall i :: 0 <= i < |jobs| ==> jobs[i].res.kind != kind
  }

  lemma {:induction false} OwedByKind(cfg: Config, policy: Policy, w: World, w': World, jobs: seq<Job>)
    requires forall i :: 0 <= i < |jobs| ==> !NoWinner(jobs[i].res, PolicyFor(jobs[i].res, policy))
    requires IsCalm(w) && IsCalm(w') && forall i :: 0 <= i < |jobs| ==> SameOfKind(w, w', jobs[i].res.kind)
    ensures Owed(cfg, policy, w', jobs) == Owed(cfg, policy, w, jobs)
    decreases |jobs|
  {
    hide IsCalm, SameOfKind, Todo;
    if jobs != [] {
      TodoByKind(cfg, jobs[0].res, PolicyFor(jobs[0].res, policy), w, w');
      OwedByKind(cfg, policy, w, w', jobs[1..]);
    }
  }

  lemma AllReadyByKind(cfg: Config, policy: Policy, w: World, w': World, jobs: seq<Job>)
    requires AllReady(cfg, policy, w, jobs) && IsCalm(w') && forall i :: 0 <= i < |jobs| ==> SameOfKind(w, w', jobs[i].res.kind)
    ensures AllReady(cfg, policy, w', jobs)
  {
    hide IsCalm, SameOfKind, Ready;
    forall i | 0 <= i < |jobs| && jobs[i].res.direction != Unsupported
      ensures Ready(cfg, jobs[i].res, PolicyFor(jobs[i].res, policy), w')
    {
      ReadyByKind(cfg, jobs[i].res, PolicyFor(jobs[i].res, policy), w, w');
    }
  }

  lemma SameOfKindInTurn(a: World, b: World, c: World, kind: string)
    requires SameOfKind(a, b, kind) && SameOfKind(b, c, kind)
    ensures SameOfKind(a, c, kind)
  {
    forall k: Key | k.kind == kind
      ensures c.tenant.Lookup(k) == a.tenant.Lookup(k) && c.host.Lookup(k) == a.host.Lookup(k)
    {
      assert b.tenant.Lookup(k) == a.tenant.Lookup(k);
      assert c.tenant.Lookup(k) == b.tenant.Lookup(k);
    }
  }

  lemma CalmKeepsKinds(w: World, w': World)
    requires w'.tenant == w.tenant && w'.host == w.host
    ensures forall kind :: SameOfKind(w, w', kind)
  {
  }

  lemma PersistIsStill(rec: Retention, w: World, records: seq<Record>, decisions: seq<Decision>)
    requires IsCalm(w)
    ensures Still(w, Persist(rec, w, records, decisions).0)
  {
    hide EntriesOf;
    CalmAwait(w);
  }

  /** One resource's turn: what it owes falls by what its grants pay for, and no
      other kind is touched. */
  lemma JobPays(cfg: Config, policy: Policy, rec: Retention, p: Progress, job: Job, grants: nat)
    requires ProgressInv(cfg, rec, p, {}) && Ready(cfg, job.res, PolicyFor(job.res, policy), p.w) && p.w.limiter == Some(grants)
    requires !NoWinner(job.res, PolicyFor(job.res, policy))
    requires Answered(cfg, job.res, PolicyFor(job.res, policy), p.w, job.orders)
    ensures var w' := RunJob(cfg, policy, rec, p, job).w;
            var paid := Min(grants, |Debts(cfg, policy, p.w, job.res)|);
            && ProgressInv(cfg, rec, RunJob(cfg, policy, rec, p, job), {})
            && Ready(cfg, job.res, PolicyFor(job.res, policy), w') && w'.limiter == Some(grants - paid)
            && |Debts(cfg, policy, w', job.res)| == |Debts(cfg, policy, p.w, job.res)| - paid
            && forall kind :: kind != job.res.kind ==> SameOfKind(p.w, w', kind)
  {
    hide SyncPass, Answered, ProgressInv, Ready, Todo, Advances, Inv, SameOfKind, Persist;
    var policy' := PolicyFor(job.res, policy);
    ReadyParts(cfg, job.res, policy', p.w);
    assert Inv(cfg, p.w) by { ProgressIsSound(cfg, rec, p); }
    var pass := SyncPass(cfg, job.res, policy', p.w, job.orders);
    PassAdvances(cfg, job.res, policy', p.w, job.orders);
    RunJobKeepsInv(cfg, policy, rec, p, job, {});
    AdvancesPays(cfg, job.res, policy', p.w, pass.w);
    forall kind | kind != job.res.kind
      ensures SameOfKind(p.w, pass.w, kind)
    {
      PassSparesKind(cfg, job.res, policy', p.w, job.orders, kind);
    }
    PersistIsStill(rec, pass.w, p.records, pass.decisions);
    var w' := RunJob(cfg, policy, rec, p, job).w;
    assert Still(pass.w, w') || w' == pass.w;
    CalmKeepsKinds(pass.w, w');
    TodoByKind(cfg, job.res, policy', pass.w, w');
    ReadyByKind(cfg, job.res, policy', pass.w, w');
    forall kind | kind != job.res.kind
      ensures SameOfKind(p.w, w', kind)
    {
      SameOfKindInTurn(p.w, pass.w, w', kind);
    }
  }

  lemma ProgressIsSound(cfg: Config, rec: Retention, p: Progress)
    requires ProgressInv(cfg, rec, p, {})
    ensures Inv(cfg, p.w)
  {
  }

  lemma AdvancesPays(cfg: Config, res: Resource, policy: Policy, w: World, w': World)
    requires Advances(cfg, res, policy, w, w')
    ensures Ready(cfg, res, policy, w') && IsCalm(w') && Todo(cfg, res, policy, w') <= Todo(cfg, res, policy, w)
    ensures Paid(w, w', |Todo(cfg, res, policy, w)| - |Todo(cfg, res, policy, w')|)
  {
  }

  /** The jobs of one run: together they pay the smaller of the grants and what all
      of them owe, and leave every other kind alone. */
  ghost predicate Pays(cfg: Config, policy: Policy, rec: Retention, p: Progress, p': Progress, jobs: seq<Job>, grants: nat) {
    var paid := Min(grants, Owed(cfg, policy, p.w, jobs));
    && ProgressInv(cfg, rec, p', {}) && IsCalm(p'.w) && AllReady(cfg, policy, p'.w, jobs)
    && Owed(cfg, policy, p'.w, jobs) == Owed(cfg, policy, p.w, jobs) - paid && p'.w.limiter == Some(grants - paid)
    && forall kind :: Unlisted(jobs, kind) ==> SameOfKind(p.w, p'.w, kind)
  }

  lemma {:induction false} JobsPay(cfg: Config, policy: Policy, rec: Retention, p: Progress, jobs: seq<Job>, grants: nat)
    requires WellNamed(cfg) && ProgressInv(cfg, rec, p, {}) && IsCalm(p.w) && p.w.limiter == Some(grants)
    requires AllReady(cfg, policy, p.w, jobs) && JobsAnswered(cfg, policy, rec, p, jobs)
    ensures Pays(cfg, policy, rec, p, RunJobs(cfg, policy, rec, p, jobs), jobs, grants)
    decreases |jobs|
  {
    hide ProgressInv, RunJob, Answered, Ready, Debts, IsCalm, SameOfKind, NoWinner;
    CalmKeepsKinds(p.w, p.w);
    if jobs != [] {
      var job, rest := jobs[0], jobs[1..];
      var p1 := RunJob(cfg, policy, rec, p, job);
      var paid := Min(grants, |Debts(cfg, policy, p.w, job.res)|);
      FirstJobPays(cfg, policy, rec, p, jobs, grants);
      AllReadyByKind(cfg, policy, p.w, p1.w, rest);
      OwedByKind(cfg, policy, p.w, p1.w, rest);
      JobsPay(cfg, policy, rec, p1, rest, grants - paid);
      var p' := RunJobs(cfg, policy, rec, p1, rest);
      assert Unlisted(rest, job.res.kind);
      FirstJobStands(cfg, policy, p1.w, p'.w, job);
      forall kind | Unlisted(jobs, kind)
        ensures SameOfKind(p.w, p'.w, kind)
      {
        assert jobs[0].res.kind != kind && Unlisted(rest, kind);
        SameOfKindInTurn(p.w, p1.w, p'.w, kind);
      }
    }
  }

  lemma FirstJobPays(cfg: Config, policy: Policy, rec: Retention, p: Progress, jobs: seq<Job>, grants: nat)
    requires WellNamed(cfg) && ProgressInv(cfg, rec, p, {}) && IsCalm(p.w) && p.w.limiter == Some(grants) && jobs != []
    requires AllReady(cfg, policy, p.w, jobs) && JobsAnswered(cfg, policy, rec, p, jobs)
    ensures var job := jobs[0];
            var p1 := RunJob(cfg, policy, rec, p, job);
            var paid := Min(grants, |Debts(cfg, policy, p.w, job.res)|);
            && ProgressInv(cfg, rec, p1, {}) && IsCalm(p1.w) && p1.w.limiter == Some(grants - paid)
            && (job.res.direction != Unsupported ==> Ready(cfg, job.res, PolicyFor(job.res, policy), p1.w))
            && |Debts(cfg, policy, p1.w, job.res)| == |Debts(cfg, policy, p.w, job.res)| - paid
            && (forall i :: 0 <= i < |jobs[1..]| ==> SameOfKind(p.w, p1.w, jobs[1..][i].res.kind))
            && forall kind :: kind != job.res.kind ==> SameOfKind(p.w, p1.w, kind)
  {
    hide ProgressInv, SyncPass, Answered, Ready, Todo, IsCalm, SameOfKind, Persist, NoWinner;
    CalmKeepsKinds(p.w, p.w);
    if jobs[0].res.direction != Unsupported {
      JobPays(cfg, policy, rec, p, jobs[0], grants);
      ReadyParts(cfg, jobs[0].res, PolicyFor(jobs[0].res, policy), RunJob(cfg, policy, rec, p, jobs[0]).w);
    }
  }

  lemma FirstJobStands(cfg: Config, policy: Policy, w: World, w': World, job: Job)
    requires IsCalm(w) && IsCalm(w') && SameOfKind(w, w', job.res.kind) && !NoWinner(job.res, PolicyFor(job.res, policy))
    ensures Debts(cfg, policy, w', job.res) == Debts(cfg, policy, w, job.res)
    ensures Ready(cfg, job.res, PolicyFor(job.res, policy), w) ==> Ready(cfg, job.res, PolicyFor(job.res, policy), w')
  {
    hide SameOfKind, Todo, Ready, IsCalm;
    TodoByKind(cfg, job.res, PolicyFor(job.res, policy), w, w');
    if Ready(cfg, job.res, PolicyFor(job.res, policy), w) {
      ReadyByKind(cfg, job.res, PolicyFor(job.res, policy), w, w');
    }
  }

  // ---- runs ----

  predicate CalmScript(script: seq<Turn>) {
    forall i :: 0 <= i < |script| ==> script[i].tenantEdits == [] && script[i].hostEdits == [] && script[i].fault == Served
  }

  /** An undisturbed sync of these resources, with these grants for all of them. */
  predicate Undisturbed(step: Step, policy: Policy, jobs: seq<Job>, grants: nat) {
    && step.Sync? && step.policy == policy && step.grants == Some(grants) && CalmScript(step.script)
    && |step.jobs| == |jobs| && forall i :: 0 <= i < |jobs| ==> step.jobs[i].res == jobs[i].res
  }

  lemma {:induction false} OwedByResources(cfg: Config, policy: Policy, w: World, jobs: seq<Job>, jobs': seq<Job>)
    requires |jobs'| == |jobs| && forall i :: 0 <= i < |jobs| ==> jobs'[i].res == jobs[i].res
    ensures Owed(cfg, policy, w, jobs') == Owed(cfg, policy, w, jobs) && (AllReady(cfg, policy, w, jobs') <==> AllReady(cfg, policy, w, jobs))
    decreases |jobs|
  {
    hide Todo, Ready;
    if jobs != [] {
      OwedByResources(cfg, policy, w, jobs[1..], jobs'[1..]);
    }
  }

  /** At rest: sound, nobody writing, and every resource with a winner. */
  ghost predicate AtRest(cfg: Config, policy: Policy, s: System, jobs: seq<Job>) {
    SystemInv(cfg, s) && IsCalm(s.w.(script := [])) && AllReady(cfg, policy, s.w.(script := []), jobs)
  }

  lemma StartsAtRest(cfg: Config, policy: Policy, s: System, step: Step, jobs: seq<Job>, grants: nat)
    requires WellNamed(cfg) && AtRest(cfg, policy, s, jobs) && Undisturbed(step, policy, jobs, grants)
    ensures var w := Starts(s, step);
            && IsCalm(w) && AllReady(cfg, policy, w, step.jobs) && Owed(cfg, policy, w, step.jobs) == Owed(cfg, policy, s.w.(script := []), jobs)
            && ProgressInv(cfg, step.rec, Progress(w, s.records, None), {}) && w.limiter == Some(grants)
  {
    hide Inv, RecordsTruthful, Ready, Todo, SameOfKind;
    var still, w := s.w.(script := []), Starts(s, step);
    StartsSafely(cfg, s, step);
    CalmKeepsKinds(still, w);
    AllReadyByKind(cfg, policy, still, w, jobs);
    OwedByKind(cfg, policy, still, w, jobs);
    OwedByResources(cfg, policy, w, jobs, step.jobs);
  }

  lemma AwaitsAtRest(cfg: Config, policy: Policy, rec: Retention, w: World, records: seq<Record>, jobs: seq<Job>)
    requires IsCalm(w) && AllReady(cfg, policy, w, jobs) && ProgressInv(cfg, rec, Progress(w, records, None), {})
    ensures var w1 := Await(w).0;
            && Await(w).1.fault == Served && IsCalm(w1) && AllReady(cfg, policy, w1, jobs) && Owed(cfg, policy, w1, jobs) == Owed(cfg, policy, w, jobs)
            && ProgressInv(cfg, rec, Progress(w1, records, None), {}) && w1.limiter == w.limiter
  {
    hide Inv, RecordsTruthful, Ready, Todo, SameOfKind, Await;
    CalmAwait(w);
    AwaitKeepsInv(cfg, w);
    RecordsOutlive(cfg, w, Await(w).0, records);
    CalmKeepsKinds(w, Await(w).0);
    AllReadyByKind(cfg, policy, w, Await(w).0, jobs);
    OwedByKind(cfg, policy, w, Await(w).0, jobs);
  }

  /** Over one run the sum of what all its resources owe falls by exactly the smaller
      of the shared grants and that sum. */
  lemma RunPaysMinimum(cfg: Config, policy: Policy, s: System, step: Step, jobs: seq<Job>, grants: nat)
    requires WellNamed(cfg) && AtRest(cfg, policy, s, jobs) && Undisturbed(step, policy, jobs, grants) && Enabled(cfg, s, step)
    ensures var s' := TakeStep(cfg, s, step);
            var owed := Owed(cfg, policy, s.w.(script := []), jobs);
            AtRest(cfg, policy, s', jobs) && Owed(cfg, policy, s'.w.(script := []), jobs) == owed - Min(grants, owed)
  {
    hide SystemInv, Inv, ProgressInv, RecordsTruthful, Ready, Todo, SameOfKind, Await, RunJobs, JobsAnswered, IsCalm, CalmScript;
    var w := Starts(s, step);
    StartsAtRest(cfg, policy, s, step, jobs, grants);
    AwaitsAtRest(cfg, policy, step.rec, w, s.records, step.jobs);
    StepKeepsInv(cfg, s, step);
    var p := Progress(if step.rec.enabled then Await(w).0 else w, s.records, None);
    JobsPay(cfg, policy, step.rec, p, step.jobs, grants);
    var s', done := TakeStep(cfg, s, step), RunJobs(cfg, policy, step.rec, p, step.jobs);
    if step.jobs == [] {
      EmptyRunRests(cfg, policy, s, step, jobs);
    } else {
      assert s' == System(done.w, done.records);
      ScriptAtRest(cfg, policy, done.w, step.jobs);
      OwedByResources(cfg, policy, s'.w.(script := []), step.jobs, jobs);
    }
  }

  lemma EmptyRunRests(cfg: Config, policy: Policy, s: System, step: Step, jobs: seq<Job>)
    requires AtRest(cfg, policy, s, jobs) && step.Sync? && step.jobs == [] && jobs == []
    ensures var s' := TakeStep(cfg, s, step);
            IsCalm(s'.w.(script := [])) && AllReady(cfg, policy, s'.w.(script := []), jobs) && Owed(cfg, policy, s'.w.(script := []), jobs) == 0
  {
    hide SystemInv;
  }

  lemma ScriptAtRest(cfg: Config, policy: Policy, w: World, jobs: seq<Job>)
    requires IsCalm(w) && AllReady(cfg, policy, w, jobs)
    ensures var still := w.(script := []);
            IsCalm(still) && AllReady(cfg, policy, still, jobs) && Owed(cfg, policy, still, jobs) == Owed(cfg, policy, w, jobs)
  {
    hide Ready, Todo, SameOfKind;
    CalmKeepsKinds(w, w.(script := []));
    AllReadyByKind(cfg, policy, w, w.(script := []), jobs);
    OwedByKind(cfg, policy, w, w.(script := []), jobs);
  }

  lemma {:induction false} NothingOwed(cfg: Config, policy: Policy, w: World, jobs: seq<Job>, i: nat)
    requires Owed(cfg, policy, w, jobs) == 0 && i < |jobs| && jobs[i].res.direction != Unsupported
    ensures Debts(cfg, policy, w, jobs[i].res) == {}
    decreases |jobs|
  {
    hide Todo;
    if i > 0 {
      NothingOwed(cfg, policy, w, jobs[1..], i - 1);
    }
  }

  /** As many runs as it takes to cover the sum leave nothing to do for any resource,
      whatever each run loads of the record, whatever it records, and in whatever
      orders the servers list. */
  lemma {:induction false} RunsConverge(cfg: Config, policy: Policy, s: System, steps: seq<Step>, jobs: seq<Job>, grants: nat)
    requires WellNamed(cfg) && AtRest(cfg, policy, s, jobs) && IsRun(cfg, s, steps)
    requires forall i :: 0 <= i < |steps| ==> Undisturbed(steps[i], policy, jobs, grants)
    requires |steps| * grants >= Owed(cfg, policy, s.w.(script := []), jobs)
    ensures var s' := TakeSteps(cfg, s, steps);
            AtRest(cfg, policy, s', jobs)
            && forall i :: 0 <= i < |jobs| && jobs[i].res.direction != Unsupported ==> Debts(cfg, policy, s'.w.(script := []), jobs[i].res) == {}
    decreases |steps|
  {
    hide AtRest, Undisturbed, TakeStep, Enabled, Todo;
    if steps == [] {
      forall i | 0 <= i < |jobs| && jobs[i].res.direction != Unsupported
        ensures Debts(cfg, policy, s.w.(script := []), jobs[i].res) == {}
      {
        NothingOwed(cfg, policy, s.w.(script := []), jobs, i);
      }
    } else {
      RunPaysMinimum(cfg, policy, s, steps[0], jobs, grants);
      assert (|steps| - 1) * grants == |steps| * grants - grants;
      RunsConverge(cfg, policy, TakeStep(cfg, s, steps[0]), steps[1..], jobs, grants);
    }
  }
}
