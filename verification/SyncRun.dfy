/** Runs of the whole system: `runSync` from internal/controller/sync.go, which
    shares one engine, history and limiter among all resources and persists what
    it learns, repeated forever and interleaved with everyone else's edits. */
module SyncRun {
  import opened Cluster
  import opened DecisionLog
  import opened Engine
  import opened PassSafety
  import opened Safety
  import Transform
  import opened Wrappers

  datatype Retention = Retention(enabled: bool, retain: int)

  datatype Job = Job(res: Resource, orders: Orders)

  /** `records` lists every version of the durable record so far. */
  datatype Progress = Progress(w: World, records: seq<Record>, firstError: Option<Error>)

  function PolicyFor(res: Resource, policy: Policy): Policy {
    if res.direction == Bidirectional then policy else Manual
  }

  function Persist(rec: Retention, w: World, records: seq<Record>, decisions: seq<Decision>): (World, seq<Record>) {
    if !rec.enabled || decisions == [] || rec.retain <= 0 then (w, records)
    else
      var (w', turn) := Await(w);
      (w', if turn.fault == Rejected then records
           else records + [RecordDecisions(Latest(records), decisions, rec.retain, w.history).value])
  }

  function RunJob(cfg: Config, policy: Policy, rec: Retention, p: Progress, job: Job): Progress {
    if job.res.direction == Unsupported then p
    else
      var pass := SyncPass(cfg, job.res, PolicyFor(job.res, policy), p.w, job.orders);
      if pass.error.Some?
      then Progress(pass.w, p.records, if p.firstError.None? then pass.error else p.firstError)
      else
        var (w, records) := Persist(rec, pass.w, p.records, pass.decisions);
        Progress(w, records, p.firstError)
  }

  function RunJobs(cfg: Config, policy: Policy, rec: Retention, p: Progress, jobs: seq<Job>): Progress
    decreases |jobs|
  {
    if jobs == [] then p else RunJobs(cfg, policy, rec, RunJob(cfg, policy, rec, p, jobs[0]), jobs[1..])
  }

  /** A fresh engine: the history as loaded, and a limiter with `grants` left. */
  function FreshEngine(w: World, rec: Retention, loaded: Option<Record>, grants: Option<nat>, script: seq<Turn>): World {
    w.(history := if rec.enabled then Load(loaded) else map[], limiter := grants, script := script)
  }

  /** One runSync; nothing happens when the stored history cannot be loaded. */
  function RunSync(cfg: Config, policy: Policy, rec: Retention, w: World, records: seq<Record>, jobs: seq<Job>): Progress {
    if jobs == [] then Progress(w, records, None)
    else if !rec.enabled then RunJobs(cfg, policy, rec, Progress(w, records, None), jobs)
    else
      var (w', turn) := Await(w);
      if turn.fault != Served then Progress(w', records, Some(ListFailed))
      else RunJobs(cfg, policy, rec, Progress(w', records, None), jobs)
  }

  ghost predicate JobsAnswered(cfg: Config, policy: Policy, rec: Retention, p: Progress, jobs: seq<Job>)
    decreases |jobs|
  {
    jobs != [] ==>
      && (jobs[0].res.direction != Unsupported ==>
            Answered(cfg, jobs[0].res, PolicyFor(jobs[0].res, policy), p.w, jobs[0].orders))
      && JobsAnswered(cfg, policy, rec, RunJob(cfg, policy, rec, p, jobs[0]), jobs[1..])
  }

  // ---- the system ----

  datatype System = System(w: World, records: seq<Record>)

  /** A sync reads the record through a cache that has seen `seen` of its versions. */
  datatype Step =
    | Others(turn: Turn)
    | Sync(policy: Policy, rec: Retention, seen: nat, grants: Option<nat>, script: seq<Turn>, jobs: seq<Job>)

  function Loaded(records: seq<Record>, seen: nat): Option<Record> {
    if seen < |records| then Latest(records[..seen]) else Latest(records)
  }

  function Disturb(w: World, turn: Turn): World {
    Await(w.(script := [turn])).0
  }

  /** The engine that a sync starts with. */
  function Starts(s: System, step: Step): World
    requires step.Sync?
  {
    FreshEngine(s.w, step.rec, Loaded(s.records, step.seen), step.grants, step.script)
  }

  function TakeStep(cfg: Config, s: System, step: Step): System {
    match step
    case Others(turn) => System(Disturb(s.w, turn), s.records)
    case Sync(policy, rec, _, _, _, jobs) =>
      var p := RunSync(cfg, policy, rec, Starts(s, step), s.records, jobs);
      System(p.w, p.records)
  }

  /** The lists handed to each pass are what the servers answered. */
  ghost predicate Enabled(cfg: Config, s: System, step: Step) {
    match step
    case Others(_) => true
    case Sync(policy, rec, _, _, _, jobs) =>
      var w := Starts(s, step);
      (rec.enabled ==> Await(w).1.fault == Served) ==>
        JobsAnswered(cfg, policy, rec, Progress(if rec.enabled then Await(w).0 else w, s.records, None), jobs)
  }

  function TakeSteps(cfg: Config, s: System, steps: seq<Step>): System
    decreases |steps|
  {
    if steps == [] then s else TakeSteps(cfg, TakeStep(cfg, s, steps[0]), steps[1..])
  }

  ghost predicate IsRun(cfg: Config, s: System, steps: seq<Step>)
    decreases |steps|
  {
    steps != [] ==> Enabled(cfg, s, steps[0]) && IsRun(cfg, TakeStep(cfg, s, steps[0]), steps[1..])
  }

  /** Every version of the record tells the truth, so it does not matter which one
      a cache serves. */
  ghost predicate RecordsTruthful(cfg: Config, w: World, records: seq<Record>) {
    forall i :: 0 <= i < |records| ==> Truthful(cfg, w.tenant, w.host, records[i].lastConverged)
  }

  ghost predicate SystemInv(cfg: Config, s: System) {
    Inv(cfg, s.w) && RecordsTruthful(cfg, s.w, s.records)
  }

  /** `names` are pairs on record that the engine has not forgotten either. */
  ghost predicate ProgressInv(cfg: Config, rec: Retention, p: Progress, names: set<string>) {
    && Inv(cfg, p.w) && RecordsTruthful(cfg, p.w, p.records)
    && names <= Load(Latest(p.records)).Keys && (rec.enabled ==> names <= p.w.history.Keys)
  }

  lemma TruthOutlives(cfg: Config, w: World, w': World, h: History)
    requires Truthful(cfg, w.tenant, w.host, h) && Later(w, w')
    ensures Truthful(cfg, w'.tenant, w'.host, h)
  {
    hide Mirrors, Provenance;
    forall name | name in h
      ensures TruthfulEntry(cfg, w'.tenant, w'.host, name, h[name])
    {
      assert TruthfulEntry(cfg, w.tenant, w.host, name, h[name]);
    }
  }

  lemma RecordsOutlive(cfg: Config, w: World, w': World, records: seq<Record>)
    requires RecordsTruthful(cfg, w, records) && Later(w, w')
    ensures RecordsTruthful(cfg, w', records)
  {
    hide Truthful, Later;
    forall i | 0 <= i < |records|
      ensures Truthful(cfg, w'.tenant, w'.host, records[i].lastConverged)
    {
      TruthOutlives(cfg, w, w', records[i].lastConverged);
    }
  }

  lemma LoadedIsTruthful(cfg: Config, w: World, records: seq<Record>, seen: nat)
    requires RecordsTruthful(cfg, w, records)
    ensures Truthful(cfg, w.tenant, w.host, Load(Loaded(records, seen)))
  {
    hide TruthfulEntry;
  }

  lemma PersistKeepsInv(cfg: Config, rec: Retention, w: World, records: seq<Record>, decisions: seq<Decision>, names: set<string>)
    requires Inv(cfg, w) && RecordsTruthful(cfg, w, records)
    requires names <= Load(Latest(records)).Keys && (rec.enabled ==> names <= w.history.Keys)
    ensures var (w', records') := Persist(rec, w, records, decisions);
            && Inv(cfg, w') && RecordsTruthful(cfg, w', records') && Later(w, w')
            && names <= Load(Latest(records')).Keys && (rec.enabled ==> names <= w'.history.Keys)
            && w'.history == w.history
  {
    hide Await, SafeAttempt, ClassInv, TruthfulEntry, EntriesOf;
    AwaitKeepsInv(cfg, w);
    var w' := Await(w).0;
    LaterIsReflexive(w);
    RecordsOutlive(cfg, w, w', records);
    TruthOutlives(cfg, w, w', w.history);
    LoadedIsTruthful(cfg, w', records, |records|);
  }

  lemma LaterIsReflexive(w: World)
    ensures Later(w, w)
  {
  }

  lemma RunJobKeepsInv(cfg: Config, policy: Policy, rec: Retention, p: Progress, job: Job, names: set<string>)
    requires WellNamed(cfg) && ProgressInv(cfg, rec, p, names)
    requires job.res.direction != Unsupported ==> Answered(cfg, job.res, PolicyFor(job.res, policy), p.w, job.orders)
    ensures ProgressInv(cfg, rec, RunJob(cfg, policy, rec, p, job), names) && Later(p.w, RunJob(cfg, policy, rec, p, job).w)
  {
    hide SyncPass, Answered, Inv, RecordsTruthful, Persist;
    LaterIsReflexive(p.w);
    if job.res.direction != Unsupported {
      SyncPassKeepsInv(cfg, job.res, PolicyFor(job.res, policy), p.w, job.orders);
      var pass := SyncPass(cfg, job.res, PolicyFor(job.res, policy), p.w, job.orders);
      RecordsOutlive(cfg, p.w, pass.w, p.records);
      PersistKeepsInv(cfg, rec, pass.w, p.records, pass.decisions, names);
      LaterIsTransitive(p.w, pass.w, Persist(rec, pass.w, p.records, pass.decisions).0);
    }
  }

  lemma {:induction false} RunJobsKeepInv(cfg: Config, policy: Policy, rec: Retention, p: Progress, jobs: seq<Job>, names: set<string>)
    requires WellNamed(cfg) && ProgressInv(cfg, rec, p, names) && JobsAnswered(cfg, policy, rec, p, jobs)
    ensures ProgressInv(cfg, rec, RunJobs(cfg, policy, rec, p, jobs), names) && Later(p.w, RunJobs(cfg, policy, rec, p, jobs).w)
    decreases |jobs|
  {
    hide ProgressInv, RunJob, Answered, Later;
    LaterIsReflexive(p.w);
    if jobs != [] {
      var p' := RunJob(cfg, policy, rec, p, jobs[0]);
      RunJobKeepsInv(cfg, policy, rec, p, jobs[0], names);
      RunJobsKeepInv(cfg, policy, rec, p', jobs[1..], names);
      LaterIsTransitive(p.w, p'.w, RunJobs(cfg, policy, rec, p', jobs[1..]).w);
    }
  }

  /** The step does not load a version of the record that lacks this pair. */
  predicate Recalls(s: System, step: Step, name: string) {
    step.Sync? && step.rec.enabled ==> name in Load(Loaded(s.records, step.seen))
  }

  lemma StartsSafely(cfg: Config, s: System, step: Step)
    requires SystemInv(cfg, s) && step.Sync?
    ensures var w := Starts(s, step); Inv(cfg, w) && RecordsTruthful(cfg, w, s.records)
  {
    hide TruthfulEntry, SafeAttempt, ClassedAt, NeverDropped, Loaded;
    LoadedIsTruthful(cfg, s.w, s.records, step.seen);
  }

  lemma ScriptIsNoState(cfg: Config, s: System, script: seq<Turn>)
    requires SystemInv(cfg, s)
    ensures Inv(cfg, s.w.(script := script)) && RecordsTruthful(cfg, s.w.(script := script), s.records)
  {
    hide TruthfulEntry, SafeAttempt, ClassedAt, NeverDropped;
  }

  lemma GrowsInTurn(a: World, b: World, c: World)
    requires Grows(a, b) && Grows(b, c)
    ensures Grows(a, c)
  {
  }

  lemma StepKeepsInv(cfg: Config, s: System, step: Step)
    requires WellNamed(cfg) && SystemInv(cfg, s) && Enabled(cfg, s, step)
    ensures SystemInv(cfg, TakeStep(cfg, s, step)) && Grows(s.w, TakeStep(cfg, s, step).w)
    ensures forall name :: name in Load(Latest(s.records)) && Recalls(s, step, name) ==> name in Load(Latest(TakeStep(cfg, s, step).records))
  {
    hide RunJobs, JobsAnswered, Inv, RecordsTruthful, Await, Extends;
    ExtendsItself(s.w.tenant);
    ExtendsItself(s.w.host);
    match step {
      case Others(turn) =>
        ScriptIsNoState(cfg, s, [turn]);
        AwaitKeepsInv(cfg, s.w.(script := [turn]));
        RecordsOutlive(cfg, s.w.(script := [turn]), Disturb(s.w, turn), s.records);
      case Sync(policy, rec, seen, grants, script, jobs) =>
        var w := Starts(s, step);
        StartsSafely(cfg, s, step);
        AwaitKeepsInv(cfg, w);
        RecordsOutlive(cfg, w, Await(w).0, s.records);
        var names := set name | name in Load(Latest(s.records)) && Recalls(s, step, name);
        LaterIsReflexive(w);
        if jobs != [] && (rec.enabled ==> Await(w).1.fault == Served) {
          RunJobsKeepInv(cfg, policy, rec, Progress(if rec.enabled then Await(w).0 else w, s.records, None), jobs, names);
          if rec.enabled {
            LaterIsTransitive(w, Await(w).0, RunJobs(cfg, policy, rec, Progress(Await(w).0, s.records, None), jobs).w);
          }
        }
    }
  }

  ghost predicate RecallsAlong(cfg: Config, s: System, steps: seq<Step>, name: string)
    decreases |steps|
  {
    steps != [] ==> Recalls(s, steps[0], name) && RecallsAlong(cfg, TakeStep(cfg, s, steps[0]), steps[1..], name)
  }

  /** From empty stores, or any sound state, every run keeps the history truthful
      in memory and on record, however old the record it loads, and every write it
      ever made was safe: no lost update under "manual", no clobbered stranger. A
      pair once on record stays there unless a sync loads an older version that
      lacks it. */
  lemma {:induction false} EveryRunIsSafe(cfg: Config, s: System, steps: seq<Step>)
    requires WellNamed(cfg) && SystemInv(cfg, s) && IsRun(cfg, s, steps)
    ensures SystemInv(cfg, TakeSteps(cfg, s, steps)) && Grows(s.w, TakeSteps(cfg, s, steps).w)
    ensures forall name :: name in Load(Latest(s.records)) && RecallsAlong(cfg, s, steps, name)
              ==> name in Load(Latest(TakeSteps(cfg, s, steps).records))
    decreases |steps|
  {
    hide SystemInv, TakeStep, Enabled, Recalls, Latest, Extends;
    ExtendsItself(s.w.tenant);
    ExtendsItself(s.w.host);
    if steps != [] {
      StepKeepsInv(cfg, s, steps[0]);
      EveryRunIsSafe(cfg, TakeStep(cfg, s, steps[0]), steps[1..]);
      GrowsInTurn(s.w, TakeStep(cfg, s, steps[0]).w, TakeSteps(cfg, s, steps).w);
    }
  }

  function Genesis(): System {
    var empty := Store(map[], map[], 1);
    System(World(empty, empty, map[], None, [], [], [], 0), [])
  }

  lemma GenesisIsSound(cfg: Config)
    ensures SystemInv(cfg, Genesis())
  {
  }

  /** No lost update under "manual", read off any run from empty stores: whatever
      was overwritten was the very version last agreed, and the other side once
      held the same content under the same identity. */
  lemma ManualLosesNoUpdate(cfg: Config, steps: seq<Step>, i: nat)
    requires WellNamed(cfg) && IsRun(cfg, Genesis(), steps)
    requires var audit := TakeSteps(cfg, Genesis(), steps).w.audit;
             i < |audit| && audit[i].reply.Accepted? && audit[i].call.res.direction == Bidirectional && audit[i].call.policy == Manual
    ensures var w := TakeSteps(cfg, Genesis(), steps).w;
            var a := w.audit[i];
            (a.call.op == UpdateHost ==>
               && a.before.Some? && a.call.baseline.Some?
               && a.before.value.meta.version == a.call.baseline.value.hostVersion
               && a.call.baseline.value.tenantVersion in w.tenant.log
               && var agreed := w.tenant.log[a.call.baseline.value.tenantVersion];
                  SameObject(agreed, a.call.read) && (Mirrors(agreed) ==> Transform.ContentEqual(agreed, a.before.value)))
            && (a.call.op == UpdateTenant ==>
               && a.before.Some? && a.call.baseline.Some?
               && a.before.value.meta.version == a.call.baseline.value.tenantVersion
               && a.call.baseline.value.hostVersion in w.host.log
               && var agreed := w.host.log[a.call.baseline.value.hostVersion];
                  Provenance(cfg, a.before.value, agreed) && (Mirrors(a.before.value) ==> Transform.ContentEqual(a.before.value, agreed)))
  {
    hide TakeSteps, Provenance, Mirrors, KeepsClass;
    GenesisIsSound(cfg);
    EveryRunIsSafe(cfg, Genesis(), steps);
    assert SafeAttempt(cfg, TakeSteps(cfg, Genesis(), steps).w.tenant, TakeSteps(cfg, Genesis(), steps).w.host, TakeSteps(cfg, Genesis(), steps).w.audit[i]);
  }

  /** With a required runtime class, a managed host Pod has it after any run unless
      someone else once put a managed Pod without it at that very key; what the
      engine creates has it; and no Pod ever pulled into the tenant carries one. */
  lemma RuntimeClassOverRuns(cfg: Config, steps: seq<Step>)
    requires WellNamed(cfg) && IsRun(cfg, Genesis(), steps)
    ensures var w := TakeSteps(cfg, Genesis(), steps).w;
            && (forall k :: NeverDropped(cfg, w.past, k) ==> ClassedAt(cfg, w.host, k))
            && forall a :: a in w.audit && a.reply.Accepted? && Isolated(cfg, a.reply.o) ==>
                 && (a.call.op == CreateHost ==> HasClass(a.reply.o, cfg.runtimeClass))
                 && (a.call.op == UpdateTenant ==> HasNoClass(a.reply.o))
  {
    hide TakeSteps, ClassedAt, NeverDropped, HasNoClass, HasClass;
    GenesisIsSound(cfg);
    EveryRunIsSafe(cfg, Genesis(), steps);
    var w := TakeSteps(cfg, Genesis(), steps).w;
    forall i | 0 <= i < |w.audit|
      ensures KeepsClass(cfg, w.audit[i])
    {
      assert SafeAttempt(cfg, w.tenant, w.host, w.audit[i]);
    }
  }
}
