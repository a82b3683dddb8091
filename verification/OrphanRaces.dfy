/** The race between the two lists of a pass: a name that comes alive behind the
    tenant's list is collected with the mirror it still has. */
module OrphanRaces {
  import opened Cluster
  import opened Engine
  import HostNames
  import opened Objects
  import opened Orphans
  import opened PassSafety
  import opened Safety
  import opened SyncRun
  import Transform
  import opened Wrappers

  const QUIETLY := Transform.Allocation(map[], map[])

  /** The tenant's list is served; `obj` comes into being before the host's is. */
  function Recreates(obj: Object): seq<Turn> {
    [QUIET, Turn([Put(obj)], [], Served, QUIETLY)]
  }

  lemma PutStands(s: Store, o: Object)
    ensures ApplyEdits(s, [Put(o)]) == s.Write(o) && ApplyEdits(s, []) == s
  {
    assert [Put(o)][1..] == [];
  }

  lemma BuildIgnoresVersion(ref: HostNames.ResourceRef, o: Object, version: nat)
    ensures Transform.BuildHostObject(ref, o.WithVersion(version)) == Transform.BuildHostObject(ref, o)
  {
    hide HostNames.Explain, Transform.Strip, Transform.HostLabels, Transform.HostAnnotations;
  }

  lemma ClaimsIgnoreVersion(cfg: Config, res: Resource, o: Object, version: nat, name: string)
    ensures Claims(cfg, res, o.WithVersion(version), name) == Claims(cfg, res, o, name)
  {
    hide Transform.BuildHostObject, HostNames.HostName, SetSpecField, SkippedNamespace, VirtualInfrastructure;
    BuildIgnoresVersion(RefFor(cfg, res.kind, o), o, version);
    EligibleIgnoresVersion(cfg, res, o, version);
  }

  lemma EligibleIgnoresVersion(cfg: Config, res: Resource, o: Object, version: nat)
    ensures Eligible(cfg, res, o.WithVersion(version)) == Eligible(cfg, res, o)
  {
  }

  /** The race: a tenant object that is re-created between the two lists of a pass
      has its standing mirror deleted while it is live. */
  lemma RecreatedLosesItsMirror(cfg: Config, res: Resource, policy: Policy, w: World, obj: Object, mirror: Object)
    requires w.tenant.objects == map[] && w.host.objects == map[KeyOf(mirror) := mirror] && w.limiter == None
    requires w.script == Recreates(obj) && Labelled(cfg, res.kind, mirror) && Claims(cfg, res, obj, mirror.meta.name)
    ensures Answered(cfg, res, policy, w, Orders([], [mirror]))
    ensures var w' := SyncPass(cfg, res, policy, w, Orders([], [mirror])).w;
            && w'.tenant.Lookup(KeyOf(obj)) == Some(obj.WithVersion(w.tenant.next)) && KeyOf(mirror) !in w'.host.objects
            && |w'.audit| == |w.audit| + 1
            && var a := w'.audit[|w.audit|];
               a.call.op == DeleteHost && a.reply == Accepted(mirror) && ClaimedBy(cfg, a, KeyOf(obj))
  {
    hide Claims, Labelled, LookedUp, KeyOf, ApplyEdits;
    PutStands(w.tenant, obj);
    PutStands(w.host, obj);
    ClaimsIgnoreVersion(cfg, res, obj, w.tenant.next, mirror.meta.name);
    var w1 := AskTenant(w).0;
    var t := Tally(w1, [], [], {});
    assert RunItems(cfg, res, policy, t, []) == t;
    var w2 := Await(w1).0;
    assert w2.script == [] && w2.tenant == w.tenant.Write(obj) && w2.host == w.host;
    var g := CollectOne(res, policy, Tally(w2, [], [], {}), mirror);
    assert [mirror][1..] == [];
    assert CollectOrphans(res, policy, Tally(w2, [], [], {}), [mirror]) == g;
  }

  // ---- a run that gets there ----

  /** What the engine makes of an object the host does not have, with nobody about. */
  function FirstMirror(cfg: Config, res: Resource, obj: Object, version: nat): Object
    requires Desired(cfg, res, obj).Success?
  {
    Transform.Allocate(Desired(cfg, res, obj).value, QUIETLY).WithVersion(version)
  }

  lemma FirstMirrorIsLabelled(cfg: Config, res: Resource, obj: Object, version: nat)
    requires WellNamed(cfg) && Wanted(cfg, res, obj)
    ensures var m := FirstMirror(cfg, res, obj, version);
            KeyOf(m) == KeyOf(Desired(cfg, res, obj).value) == MirrorKey(cfg, res, obj) && Labelled(cfg, res.kind, m)
  {
    hide Desired, Eligible, MirrorKey, Transform.Allocate;
    DesiredKey(cfg, res, obj);
    DesiredIsLabelled(cfg, res, obj);
    Transform.StripForgetsAllocation(Desired(cfg, res, obj).value, QUIETLY);
  }

  lemma FirstTurnCreates(cfg: Config, res: Resource, policy: Policy, w: World, obj: Object)
    requires Desired(cfg, res, obj).Success? && w.script == [] && w.limiter == None && w.host.objects == map[]
    requires KeyOf(FirstMirror(cfg, res, obj, w.host.next)) == KeyOf(Desired(cfg, res, obj).value)
    ensures var (w', outcome) := Reconcile(cfg, res, policy, w, obj, Desired(cfg, res, obj).value);
            var m := FirstMirror(cfg, res, obj, w.host.next);
            && w'.tenant == w.tenant && w'.host.objects == map[KeyOf(m) := m] && w'.script == [] && w'.limiter == None
            && outcome.Success?
            && w'.history == if res.direction == Bidirectional then w.history[m.meta.name := Converged(obj.meta.version, w.host.next)] else w.history
  {
    hide Desired, Transform.Allocate, Transform.ContentOf, Report, RefFor;
    var host := Desired(cfg, res, obj).value;
    Transform.StripForgetsAllocation(host, QUIETLY);
    assert Judge(cfg, res, policy, w.history, obj, host, None) == MakeMirror;
    assert Allow(w) == Some(w);
    var (w', reply) := Submit(w, Call(CreateHost, host, obj, Baseline(w.history, host.meta.name), res, policy));
    assert reply.Accepted? && w'.host == w.host.Write(Transform.Allocate(host, QUIETLY));
  }

  lemma MirrorOfFirst(cfg: Config, res: Resource, obj: Object)
    requires WellNamed(cfg) && Wanted(cfg, res, obj)
    ensures var o := obj.WithVersion(1);
            Wanted(cfg, res, o) && KeyOf(o) == KeyOf(obj) && Claims(cfg, res, obj, FirstMirror(cfg, res, o, 1).meta.name)
  {
    hide Desired, Eligible, FirstMirror;
    ClaimsIgnoreVersion(cfg, res, obj, 1, MirrorKey(cfg, res, obj).name);
    FirstMirrorIsLabelled(cfg, res, obj.WithVersion(1), 1);
  }

  /** An undisturbed pass over one object creates its mirror. */
  lemma FirstPassCreates(cfg: Config, res: Resource, policy: Policy, w: World, obj: Object)
    requires WellNamed(cfg) && Wanted(cfg, res, obj) && w.script == [] && w.limiter == None
    requires w.tenant.objects == map[KeyOf(obj) := obj] && w.host.objects == map[]
    ensures var m := FirstMirror(cfg, res, obj, w.host.next);
            var orders := Orders([obj], [m]);
            var r := SyncPass(cfg, res, policy, w, orders);
            && Answered(cfg, res, policy, w, orders)
            && r.w.tenant == w.tenant && r.w.host.objects == map[KeyOf(m) := m] && r.w.script == []
            && |r.decisions| == 1 && r.error == None
            && r.w.history == if res.direction == Bidirectional then w.history[m.meta.name := Converged(obj.meta.version, w.host.next)] else w.history
  {
    hide Desired, Eligible, MirrorKey, KeyOf, Reconcile, Labelled, FirstMirror;
    var m := FirstMirror(cfg, res, obj, w.host.next);
    FirstMirrorIsLabelled(cfg, res, obj, w.host.next);
    var w1 := AskTenant(w).0;
    FirstTurnCreates(cfg, res, policy, w1, obj);
    var t0 := Tally(w1, [], [], {});
    var t := RunItem(cfg, res, policy, t0, obj);
    assert [obj][1..] == [];
    assert RunItems(cfg, res, policy, t0, [obj]) == t;
    assert m.meta.name in t.desired by { SameName(m, Desired(cfg, res, obj).value); }
    var g0 := Tally(Await(t.w).0, [], [], t.desired);
    assert [m][1..] == [];
    assert CollectOrphans(res, policy, g0, [m]) == g0;
  }

  lemma SameName(a: Object, b: Object)
    requires KeyOf(a) == KeyOf(b)
    ensures a.meta.name == b.meta.name
  {
  }

  /** One sync of one resource, nothing recorded and no limit. */
  function Once(res: Resource, policy: Policy, script: seq<Turn>, orders: Orders): Step {
    Sync(policy, Retention(false, 0), 0, None, script, [Job(res, orders)])
  }

  lemma OnceIsAPass(cfg: Config, s: System, res: Resource, policy: Policy, script: seq<Turn>, orders: Orders)
    requires res.direction != Unsupported
    ensures var w := s.w.(history := map[], limiter := None, script := script);
            && TakeStep(cfg, s, Once(res, policy, script, orders)) == System(SyncPass(cfg, res, PolicyFor(res, policy), w, orders).w, s.records)
            && (Answered(cfg, res, PolicyFor(res, policy), w, orders) ==> Enabled(cfg, s, Once(res, policy, script, orders)))
  {
    hide SyncPass, Answered;
    var job, rec := Job(res, orders), Retention(false, 0);
    var p := Progress(FreshEngine(s.w, rec, Loaded(s.records, 0), None, script), s.records, None);
    assert [job][1..] == [];
    assert RunJobs(cfg, policy, rec, p, [job]) == RunJob(cfg, policy, rec, p, job);
    assert Answered(cfg, res, PolicyFor(res, policy), p.w, orders) ==> JobsAnswered(cfg, policy, rec, p, [job]);
  }

  lemma PutStep(cfg: Config, obj: Object)
    ensures var step := Others(Turn([Put(obj)], [], Served, QUIETLY));
            && Enabled(cfg, Genesis(), step)
            && var w := TakeStep(cfg, Genesis(), step).w;
               && w.tenant.objects == map[KeyOf(obj) := obj.WithVersion(1)] && w.host == Store(map[], map[], 1)
               && w.script == [] && w.limiter == None && w.history == map[]
  {
    hide ApplyEdits, KeyOf;
    PutStands(Genesis().w.tenant, obj);
    PutStands(Genesis().w.host, obj);
  }

  lemma DropStep(cfg: Config, s: System, obj: Object)
    requires s.w.tenant.objects.Keys == {KeyOf(obj)}
    ensures var step := Others(Turn([Drop(KeyOf(obj))], [], Served, QUIETLY));
            && Enabled(cfg, s, step)
            && var s' := TakeStep(cfg, s, step);
               s'.w.tenant.objects == map[] && s'.w.host == s.w.host
  {
    hide KeyOf;
    var key := KeyOf(obj);
    assert [Drop(key)][1..] == [];
    assert ApplyEdits(s.w.tenant, [Drop(key)]) == s.w.tenant.Remove(key);
    assert (s.w.tenant.objects - {key}).Keys == {};
  }

  lemma FourInTurn(cfg: Config, s: System, steps: seq<Step>)
    requires |steps| == 4
    ensures var s1 := TakeStep(cfg, s, steps[0]);
            var s2 := TakeStep(cfg, s1, steps[1]);
            var s3 := TakeStep(cfg, s2, steps[2]);
            && TakeSteps(cfg, s, steps) == TakeStep(cfg, s3, steps[3])
            && (Enabled(cfg, s, steps[0]) && Enabled(cfg, s1, steps[1]) && Enabled(cfg, s2, steps[2]) && Enabled(cfg, s3, steps[3])
                ==> IsRun(cfg, s, steps))
  {
    hide TakeStep, Enabled;
    var s1 := TakeStep(cfg, s, steps[0]);
    var s2 := TakeStep(cfg, s1, steps[1]);
    var s3 := TakeStep(cfg, s2, steps[2]);
    var s4 := TakeStep(cfg, s3, steps[3]);
    var rest := steps[1..];
    assert rest[1..] == steps[2..] && steps[2..][1..] == steps[3..] && steps[3..][1..] == [];
    assert TakeSteps(cfg, s3, steps[3..]) == s4;
    assert TakeSteps(cfg, s2, steps[2..]) == s4;
    assert TakeSteps(cfg, s1, steps[1..]) == s4;
    assert Enabled(cfg, s3, steps[3]) ==> IsRun(cfg, s3, steps[3..]);
    assert Enabled(cfg, s2, steps[2]) && Enabled(cfg, s3, steps[3]) ==> IsRun(cfg, s2, steps[2..]);
    assert Enabled(cfg, s1, steps[1]) && Enabled(cfg, s2, steps[2]) && Enabled(cfg, s3, steps[3]) ==> IsRun(cfg, s1, steps[1..]);
  }

  function Recreation(cfg: Config, res: Resource, policy: Policy, obj: Object): seq<Step>
    requires Desired(cfg, res, obj.WithVersion(1)).Success?
  {
    var m := FirstMirror(cfg, res, obj.WithVersion(1), 1);
    [Others(Turn([Put(obj)], [], Served, QUIETLY)),
     Once(res, policy, [], Orders([obj.WithVersion(1)], [m])),
     Others(Turn([Drop(KeyOf(obj))], [], Served, QUIETLY)),
     Once(res, policy, Recreates(obj), Orders([], [m]))]
  }

  /** The race is reached from empty stores, by nothing more than a tenant that
      creates, deletes and re-creates one object between two syncs. */
  lemma RecreationIsReachable(cfg: Config, res: Resource, policy: Policy, obj: Object)
    requires WellNamed(cfg) && Wanted(cfg, res, obj) && res.direction != Unsupported
    ensures Desired(cfg, res, obj.WithVersion(1)).Success?
    ensures var steps := Recreation(cfg, res, policy, obj);
            && IsRun(cfg, Genesis(), steps)
            && var audit := TakeSteps(cfg, Genesis(), steps).w.audit;
               exists i :: 0 <= i < |audit| && audit[i].call.op == DeleteHost && audit[i].reply.Accepted? && ClaimedBy(cfg, audit[i], KeyOf(obj))
  {
    hide Desired, Eligible, SyncPass, Answered, KeyOf, Labelled, FirstMirror, TakeStep, Enabled, MirrorKey, Claims;
    var o := obj.WithVersion(1);
    MirrorOfFirst(cfg, res, obj);
    var m := FirstMirror(cfg, res, o, 1);
    FirstMirrorIsLabelled(cfg, res, o, 1);
    var steps := Recreation(cfg, res, policy, obj);
    var p := PolicyFor(res, policy);
    var s1 := TakeStep(cfg, Genesis(), steps[0]);
    PutStep(cfg, obj);
    FirstPassCreates(cfg, res, p, s1.w, o);
    OnceIsAPass(cfg, s1, res, policy, [], Orders([o], [m]));
    var s2 := TakeStep(cfg, s1, steps[1]);
    DropStep(cfg, s2, obj);
    var s3 := TakeStep(cfg, s2, steps[2]);
    var w3 := s3.w.(history := map[], limiter := None, script := Recreates(obj));
    RecreatedLosesItsMirror(cfg, res, p, w3, obj, m);
    OnceIsAPass(cfg, s3, res, policy, Recreates(obj), Orders([], [m]));
    FourInTurn(cfg, Genesis(), steps);
  }
}
