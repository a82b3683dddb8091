/** The namespace delete of teardown names the namespace only. What it hits, and
    exactly when that is still the tenant's own. */
module TeardownRaces {
  import opened HostNames
  import Naming
  import opened Teardown
  import opened Wrappers

  /** The step makes this namespace disappear. */
  predicate Vanishes(s: State, step: Step, name: string) {
    step == NamespaceGone(name) && name in s.namespaces && s.namespaces[name].terminating
  }

  predicate VanishesAlong(s: State, steps: seq<Step>, name: string)
    decreases |steps|
  {
    steps != [] && (Vanishes(s, steps[0], name) || VanishesAlong(Take(s, steps[0]), steps[1..], name))
  }

  /** Everyone moves but this tenant's worker. */
  predicate Rests(steps: seq<Step>, t: Tenant) {
    forall i :: 0 <= i < |steps| ==>
      match steps[i]
      case Worker(u, _) => u != t
      case Abort(u) => u != t
      case CachedRead(u, _) => u != t
      case CachedBegin(u, _) => u != t
      case _ => true
  }

  lemma RunCons(s: State, step: Step, rest: seq<Step>)
    ensures Run(s, [step] + rest) == Run(Take(s, step), rest)
    ensures AllHonest(s, [step] + rest) <==> Honest(s, step) && AllHonest(Take(s, step), rest)
  {
    hide Take, Honest;
    assert ([step] + rest)[1..] == rest;
  }

  lemma WorkersKeepOthersOwner(s: State, u: Tenant, conflict: bool, t: Tenant)
    requires u != t
    ensures OwnsNamespace(Work(s, u, conflict), t) <==> OwnsNamespace(s, t)
  {
    hide DesiredLabels, HostName, ControlPlaneNamespace, OwnedBy, Converge;
    var name := ControlPlaneNamespace(u);
    match WorkerOf(s, u) {
      case SawNamespace(found) =>
        var written := if found.None? then Namespace(DesiredLabels(u), false)
                       else found.value.(labels := Converge(found.value.labels, DesiredLabels(u)));
        DesiredIsOwned(u, if found.Some? then found.value.labels else map[], written.terminating);
        if OwnedBy(written, t) {
          OneOwner(written, t, u);
        }
        if found.Some? && OwnedBy(found.value, t) && OwnedBy(found.value, u) {
          OneOwner(found.value, t, u);
        }
      case SawDoomed =>
        if name in s.namespaces {
          TerminatingKeepsOwner(s.namespaces[name], t);
        }
      case _ =>
    }
  }

  lemma StepKeepsOwner(s: State, step: Step, t: Tenant)
    requires Honest(s, step) && Rests([step], t)
    ensures OwnsNamespace(Take(s, step), t) <==> OwnsNamespace(s, t) && !Vanishes(s, step, ControlPlaneNamespace(t))
    ensures WorkerOf(Take(s, step), t) == WorkerOf(s, t)
  {
    hide HostName, ControlPlaneNamespace, OwnedBy, OwnsNamespace, DesiredLabels;
    assert [step][0] == step;
    match step {
      case Worker(u, conflict) =>
        WorkersKeepOthersOwner(s, u, conflict, t);
      case _ =>
        OthersKeepOwner(s, step, t);
    }
  }

  lemma OthersKeepOwner(s: State, step: Step, t: Tenant)
    requires Honest(s, step) && !step.Worker? && Rests([step], t)
    ensures OwnsNamespace(Take(s, step), t) <==> OwnsNamespace(s, t) && !Vanishes(s, step, ControlPlaneNamespace(t))
    ensures WorkerOf(Take(s, step), t) == WorkerOf(s, t)
  {
    hide HostName, ControlPlaneNamespace, OwnedBy, Work;
    assert [step][0] == step;
    if step.StrangerDeletes? && step.name in s.namespaces {
      TerminatingKeepsOwner(s.namespaces[step.name], t);
    }
  }

  /** While its worker rests, a tenant stays the owner of its namespace exactly as
      long as the namespace does not disappear. */
  lemma {:induction false} OwnerUntilGone(s: State, steps: seq<Step>, t: Tenant)
    requires AllHonest(s, steps) && Rests(steps, t)
    ensures OwnsNamespace(Run(s, steps), t)
       <==> OwnsNamespace(s, t) && !VanishesAlong(s, steps, ControlPlaneNamespace(t))
    ensures WorkerOf(Run(s, steps), t) == WorkerOf(s, t)
    decreases |steps|
  {
    hide Take, Honest, OwnsNamespace, Vanishes, HostName;
    if steps != [] {
      StepKeepsOwner(s, steps[0], t);
      OwnerUntilGone(Take(s, steps[0]), steps[1..], t);
    }
  }

  /** From the read that dooms a namespace, current or cached, to the delete, over
      every honest interleaving: the delete does nothing, or it hits whatever has
      the name, and that is the tenant's own if and only if the tenant owned it
      when it read and the namespace did not disappear in between. */
  lemma DeleteHitsOwnIffNeverGone(s: State, t: Tenant, read: Option<Namespace>, steps: seq<Step>, conflict: bool)
    requires WorkerOf(s, t) == TearingDown && WorkerOf(TeardownReads(s, t, read), t) == SawDoomed
    requires AllHonest(TeardownReads(s, t, read), steps) && Rests(steps, t)
    ensures var name := ControlPlaneNamespace(t);
            var start := TeardownReads(s, t, read);
            var met := Run(start, steps);
            var after := Take(met, Worker(t, conflict));
            if name !in met.namespaces then after.acts == met.acts
            else
              && after.acts == met.acts + [Deleted(t, met.namespaces[name])]
              && (OwnedBy(met.namespaces[name], t) <==> OwnsNamespace(s, t) && !VanishesAlong(start, steps, name))
  {
    hide DesiredLabels, HostName, ControlPlaneNamespace, OwnedBy, Run, AllHonest, VanishesAlong, Rests;
    OwnerUntilGone(TeardownReads(s, t, read), steps, t);
  }

  /** A read, current or cached, that lets go of the finalizer: once it is released,
      over every honest interleaving, the namespace outlives it if and only if the
      tenant owned it when it read and it did not disappear in between. */
  lemma NamespaceOutlivesFinalizerIff(s: State, t: Tenant, read: Option<Namespace>, steps: seq<Step>)
    requires WorkerOf(s, t) == TearingDown && WorkerOf(TeardownReads(s, t, read), t) == Releasing
    requires AllHonest(TeardownReads(s, t, read), steps) && Rests(steps, t)
    ensures var start := TeardownReads(s, t, read);
            var after := Take(Run(start, steps), Worker(t, false));
            (OwnsNamespace(after, t) && !HoldsFinalizer(after, t)
             <==> OwnsNamespace(s, t) && !VanishesAlong(start, steps, ControlPlaneNamespace(t)))
  {
    hide DesiredLabels, HostName, ControlPlaneNamespace, OwnedBy, Run, AllHonest, VanishesAlong, Rests;
    OwnerUntilGone(TeardownReads(s, t, read), steps, t);
  }

  /** Only its own worker adds or releases a tenant's finalizer. */
  lemma {:induction false} FinalizerRests(s: State, steps: seq<Step>, t: Tenant)
    requires Rests(steps, t)
    ensures HoldsFinalizer(Run(s, steps), t) <==> HoldsFinalizer(s, t)
    decreases |steps|
  {
    hide Take, HoldsFinalizer;
    if steps != [] {
      FinalizerRestsOnce(s, steps[0], t);
      FinalizerRests(Take(s, steps[0]), steps[1..], t);
    }
  }

  lemma FinalizerRestsOnce(s: State, step: Step, t: Tenant)
    requires Rests([step], t)
    ensures HoldsFinalizer(Take(s, step), t) <==> HoldsFinalizer(s, t)
  {
    hide ControlPlaneNamespace, OwnedBy, DesiredLabels, Converge;
    assert [step][0] == step;
  }

  /** Starting on a cached TenantCluster that shows a finalizer, and provisioning over
      every honest interleaving: the tenant ends up with a namespace and no
      finalizer if and only if the finalizer was gone and the name was free, both
      when it was looked up and when it was created. */
  lemma StaleBeginLeavesNamespaceIff(s: State, t: Tenant, read: TenantCluster, upToRead: seq<Step>, upToWrite: seq<Step>)
    requires WorkerOf(s, t) == Idle && TenantInv(s, t) && read.finalizer && !read.deleting
    requires var begun := BeginFromCache(s, t, Some(read));
             AllHonest(begun, upToRead) && Rests(upToRead, t)
             && AllHonest(ReadForEnsure(Run(begun, upToRead), t), upToWrite) && Rests(upToWrite, t)
    ensures var name := ControlPlaneNamespace(t);
            var met := Run(BeginFromCache(s, t, Some(read)), upToRead);
            var met' := Run(ReadForEnsure(met, t), upToWrite);
            var after := Take(met', Worker(t, false));
            (OwnsNamespace(after, t) && !HoldsFinalizer(after, t)
             <==> !HoldsFinalizer(s, t) && name !in met.namespaces && name !in met'.namespaces)
  {
    hide HostName, ControlPlaneNamespace, OwnedBy, DesiredLabels, Converge, Run, AllHonest, VanishesAlong, Rests;
    var begun := BeginFromCache(s, t, Some(read));
    var met := Run(begun, upToRead);
    OwnerUntilGone(begun, upToRead, t);
    FinalizerRests(begun, upToRead, t);
    OwnerUntilGone(ReadForEnsure(met, t), upToWrite, t);
    FinalizerRests(ReadForEnsure(met, t), upToWrite, t);
    DesiredIsOwned(t, map[], false);
  }

  // ---- the race is real ----

  /** Two tenants of different names may share a control-plane name. */
  lemma ControlPlaneNamesCollide(b: string, c: string, d: string)
    requires Naming.IsLabel(b) && Naming.IsLabel(c) && Naming.IsLabel(d)
    ensures Tenant(b + "-x-" + c, d) != Tenant(b, c + "-x-" + d)
    ensures ControlPlaneNamespace(Tenant(b + "-x-" + c, d)) == ControlPlaneNamespace(Tenant(b, c + "-x-" + d))
    ensures Naming.IsLabel(b + "-x-" + c) && Naming.IsLabel(c + "-x-" + d)
  {
    hide HostName, Naming.IsLabel;
    assert Naming.IsLabel("cp") by { CpIsLabel(); }
    ShortNamesCanCollide("cp", b, c, d);
    assert |b + "-x-" + c| > |b|;
  }

  lemma CpIsLabel()
    ensures Naming.IsLabel("cp")
  {
  }

  /** A tenant of labels on a short name keeps both in its control-plane namespace. */
  lemma ShortControlPlaneName(t: Tenant)
    requires Naming.IsLabel(t.name) && Naming.IsLabel(t.namespace) && |t.name| + |t.namespace| <= 55
    ensures ControlPlaneNamespace(t) == "cp-x-" + t.name + "-x-" + t.namespace
  {
    hide Naming.IsLabel, HostName;
    CpIsLabel();
    TripleName("cp", t.name, t.namespace);
    assert "cp" + "-x-" == "cp-x-";
  }

  /** No other tenant with short labels has this control-plane name. */
  ghost predicate KeepsItsName(t: Tenant) {
    forall u: Tenant :: IsTriple("cp", u.name, u.namespace) && ControlPlaneNamespace(u) == ControlPlaneNamespace(t) ==> u == t
  }

  /** There is one way to cut the base behind its first part. */
  ghost predicate OneCutAfterCp(base: string) {
    forall j: nat, j': nat :: CutAt(base, 2, j) && CutAt(base, 2, j') ==> j == j'
  }

  /** Exactly when a short control-plane name is nobody else's: behind "cp" its base
      can be cut in one way only. */
  lemma ControlPlaneNameIsAlone(t: Tenant)
    requires IsTriple("cp", t.name, t.namespace)
    ensures KeepsItsName(t) <==> OneCutAfterCp(BaseName("cp", t.name, t.namespace))
  {
    hide Naming.IsLabel, HostName, MarkAt;
    var base := BaseName("cp", t.name, t.namespace);
    if OneCutAfterCp(base) {
      forall u: Tenant | IsTriple("cp", u.name, u.namespace) && ControlPlaneNamespace(u) == ControlPlaneNamespace(t)
        ensures u == t
      {
        SameCutSameTenant(t, u);
      }
    }
    if KeepsItsName(t) {
      forall j: nat | CutAt(base, 2, j)
        ensures j == 5 + |t.name|
      {
        CutBelongsToTenant(t, j);
      }
    }
  }

  lemma SameCutSameTenant(t: Tenant, u: Tenant)
    requires IsTriple("cp", t.name, t.namespace) && IsTriple("cp", u.name, u.namespace)
    requires ControlPlaneNamespace(u) == ControlPlaneNamespace(t) && OneCutAfterCp(BaseName("cp", t.name, t.namespace))
    ensures u == t
  {
    hide Naming.IsLabel, HostName;
    TripleName("cp", t.name, t.namespace);
    TripleName("cp", u.name, u.namespace);
    LabelIsNotEmpty(t.name);
    LabelIsNotEmpty(u.name);
    TripleIsCut("cp", t.name, t.namespace);
    TripleIsCut("cp", u.name, u.namespace);
    PartsOfBase("cp", t.name, t.namespace);
    PartsOfBase("cp", u.name, u.namespace);
  }

  lemma CutBelongsToTenant(t: Tenant, j: nat)
    requires IsTriple("cp", t.name, t.namespace) && KeepsItsName(t) && CutAt(BaseName("cp", t.name, t.namespace), 2, j)
    ensures j == 5 + |t.name|
  {
    hide Naming.IsLabel, HostName;
    var base := BaseName("cp", t.name, t.namespace);
    TripleName("cp", t.name, t.namespace);
    PartsOfBase("cp", t.name, t.namespace);
    CutIsTriple(base, 2, j);
    var u := Tenant(base[5..j], base[j + 3..]);
    assert base[..2] == "cp";
    assert IsTriple("cp", u.name, u.namespace);
    TripleName("cp", u.name, u.namespace);
  }

  /** Two tenants of one name in different namespaces may not, where the names are
      labels and short enough not to be hashed. */
  lemma SameNameTenantsDiffer(t: Tenant, u: Tenant)
    requires t.name == u.name && t.namespace != u.namespace
    requires IsTriple("cp", t.name, t.namespace) && IsTriple("cp", u.name, u.namespace)
    ensures ControlPlaneNamespace(t) != ControlPlaneNamespace(u)
  {
    hide IsTriple, HostName;
    if ControlPlaneNamespace(t) == ControlPlaneNamespace(u) {
      LastPartIsTold("cp", t.name, t.namespace, u.namespace);
    }
  }

  /** `u` looks for its namespace before `t` has made one of the same name; `t` is
      then deleted and dooms its own. */
  function Opening(t: Tenant, u: Tenant): seq<Step> {
    [UserCreates(u), Worker(u, false), Worker(u, false)]
    + [UserCreates(t), Worker(t, false), Worker(t, false), Worker(t, false)]
    + [UserDeletes(t), Worker(t, false), Worker(t, false)]
  }

  /** The rival's create fills the gap between the owner's read and its delete. */
  function Takeover(t: Tenant, u: Tenant): seq<Step> {
    var name := ControlPlaneNamespace(t);
    [StrangerDeletes(name), NamespaceGone(name), Worker(u, false), Worker(t, false)]
  }

  function StrangerTakeover(t: Tenant): seq<Step> {
    var name := ControlPlaneNamespace(t);
    [StrangerDeletes(name), NamespaceGone(name), StrangerWrites(name, Namespace(map[], false)), Worker(t, false)]
  }

  lemma ThreeSteps(s: State, a: Step, b: Step, c: Step)
    ensures Run(s, [a, b, c]) == Take(Take(Take(s, a), b), c)
    ensures AllHonest(s, [a, b, c]) <==> Honest(s, a) && Honest(Take(s, a), b) && Honest(Take(Take(s, a), b), c)
  {
    hide Take, Honest;
    assert [a, b, c] == [a] + ([b] + ([c] + []));
    RunCons(s, a, [b] + ([c] + []));
    RunCons(Take(s, a), b, [c] + []);
    RunCons(Take(Take(s, a), b), c, []);
  }

  lemma FourSteps(s: State, a: Step, b: Step, c: Step, d: Step)
    ensures Run(s, [a, b, c, d]) == Take(Take(Take(Take(s, a), b), c), d)
    ensures AllHonest(s, [a, b, c, d])
       <==> Honest(s, a) && Honest(Take(s, a), b) && Honest(Take(Take(s, a), b), c) && Honest(Take(Take(Take(s, a), b), c), d)
  {
    hide Take, Honest;
    assert [a, b, c, d] == [a] + [b, c, d];
    RunCons(s, a, [b, c, d]);
    ThreeSteps(Take(s, a), b, c, d);
  }

  lemma NewcomerLooks(u: Tenant)
    ensures var steps := [UserCreates(u), Worker(u, false), Worker(u, false)];
            && AllHonest(GENESIS, steps)
            && Run(GENESIS, steps) == State(map[u := TenantCluster(true, false)], map[], map[u := SawNamespace(None)], [])
  {
    hide HostName, ControlPlaneNamespace, OwnedBy;
    ThreeSteps(GENESIS, UserCreates(u), Worker(u, false), Worker(u, false));
    assert map[u := Provisioning][u := SawNamespace(None)] == map[u := SawNamespace(None)];
    assert map[u := TenantCluster(false, false)][u := TenantCluster(true, false)] == map[u := TenantCluster(true, false)];
  }

  lemma OwnerBuilds(s: State, t: Tenant)
    requires t !in s.clusters && t !in s.workers && ControlPlaneNamespace(t) !in s.namespaces
    ensures var steps := [UserCreates(t), Worker(t, false), Worker(t, false), Worker(t, false)];
            && AllHonest(s, steps)
            && Run(s, steps) == s.(clusters := s.clusters[t := TenantCluster(true, false)],
                                   namespaces := s.namespaces[ControlPlaneNamespace(t) := Namespace(DesiredLabels(t), false)],
                                   workers := s.workers[t := Idle])
  {
    hide HostName, ControlPlaneNamespace, OwnedBy, DesiredLabels;
    FourSteps(s, UserCreates(t), Worker(t, false), Worker(t, false), Worker(t, false));
  }

  lemma OwnerDooms(s: State, t: Tenant)
    requires t in s.clusters && s.clusters[t] == TenantCluster(true, false) && WorkerOf(s, t) == Idle
    requires ControlPlaneNamespace(t) in s.namespaces && s.namespaces[ControlPlaneNamespace(t)] == Namespace(DesiredLabels(t), false)
    ensures var steps := [UserDeletes(t), Worker(t, false), Worker(t, false)];
            && AllHonest(s, steps)
            && Run(s, steps) == s.(clusters := s.clusters[t := TenantCluster(true, true)], workers := s.workers[t := SawDoomed])
  {
    hide HostName, ControlPlaneNamespace, OwnedBy, DesiredLabels;
    DesiredIsOwned(t, map[], false);
    ThreeSteps(s, UserDeletes(t), Worker(t, false), Worker(t, false));
  }

  /** The state before the takeover is reached from an empty cluster by ten honest
      steps. */
  lemma RaceIsReachable(t: Tenant, u: Tenant)
    requires t != u && ControlPlaneNamespace(t) == ControlPlaneNamespace(u)
    ensures AllHonest(GENESIS, Opening(t, u))
    ensures var s := Run(GENESIS, Opening(t, u));
            WorkerOf(s, t) == SawDoomed && WorkerOf(s, u) == SawNamespace(None) && OwnsNamespace(s, t) && s.acts == []
  {
    hide HostName, ControlPlaneNamespace, OwnedBy, DesiredLabels, Run, AllHonest, Take;
    var a := [UserCreates(u), Worker(u, false), Worker(u, false)];
    var b := [UserCreates(t), Worker(t, false), Worker(t, false), Worker(t, false)];
    var c := [UserDeletes(t), Worker(t, false), Worker(t, false)];
    NewcomerLooks(u);
    var s1 := Run(GENESIS, a);
    OwnerBuilds(s1, t);
    var s2 := Run(s1, b);
    OwnerDooms(s2, t);
    RunConcat(GENESIS, a, b);
    RunConcat(GENESIS, a + b, c);
    DesiredIsOwned(t, map[], false);
  }

  /** The delete may take a newcomer's namespace: if someone deletes the tenant's
      own between the read and the delete, and a tenant whose name collides takes
      its place. */
  lemma DeleteMayHitANewcomer(s: State, t: Tenant, u: Tenant)
    requires t != u && ControlPlaneNamespace(t) == ControlPlaneNamespace(u)
    requires WorkerOf(s, t) == SawDoomed && WorkerOf(s, u) == SawNamespace(None) && OwnsNamespace(s, t)
    ensures AllHonest(s, Takeover(t, u))
    ensures var end := Run(s, Takeover(t, u));
            && |end.acts| == |s.acts| + 1
            && end.acts[|s.acts|] == Deleted(t, Namespace(DesiredLabels(u), false))
            && OwnedBy(end.acts[|s.acts|].met, u) && !OwnedBy(end.acts[|s.acts|].met, t)
  {
    hide DesiredLabels, HostName, ControlPlaneNamespace, OwnedBy;
    var name := ControlPlaneNamespace(t);
    FourSteps(s, StrangerDeletes(name), NamespaceGone(name), Worker(u, false), Worker(t, false));
    DesiredIsOwned(u, map[], false);
    if OwnedBy(Namespace(DesiredLabels(u), false), t) {
      OneOwner(Namespace(DesiredLabels(u), false), t, u);
    }
  }

  /** No colliding tenant is needed: a stranger's namespace in the gap goes too. */
  lemma DeleteMayHitAStranger(s: State, t: Tenant)
    requires WorkerOf(s, t) == SawDoomed && OwnsNamespace(s, t)
    ensures AllHonest(s, StrangerTakeover(t))
    ensures var end := Run(s, StrangerTakeover(t));
            && end.acts == s.acts + [Deleted(t, Namespace(map[], false))]
            && forall o :: !OwnedBy(Namespace(map[], false), o)
  {
    hide DesiredLabels, HostName, ControlPlaneNamespace;
    var name := ControlPlaneNamespace(t);
    FourSteps(s, StrangerDeletes(name), NamespaceGone(name), StrangerWrites(name, Namespace(map[], false)), Worker(t, false));
  }

  /** A cache that has not seen the tenant's namespace yet makes its teardown let
      go of the finalizer: the namespace is left behind. */
  lemma StaleReadLeavesNamespaceBehind(t: Tenant)
    ensures var steps := Doomed(t) + [CachedRead(t, None), Worker(t, false)];
            && AllHonest(GENESIS, Doomed(t))
            && var s := Run(GENESIS, steps);
               OwnsNamespace(s, t) && t !in s.clusters && !TenantInv(s, t)
  {
    hide HostName, ControlPlaneNamespace, OwnedBy, DesiredLabels, Run, AllHonest;
    var a := [UserCreates(t), Worker(t, false), Worker(t, false), Worker(t, false)];
    OwnerBuilds(GENESIS, t);
    var s1 := Run(GENESIS, a);
    TwoSteps(s1, UserDeletes(t), Worker(t, false));
    RunConcat(GENESIS, a, [UserDeletes(t), Worker(t, false)]);
    var s2 := Run(GENESIS, Doomed(t));
    TwoSteps(s2, CachedRead(t, None), Worker(t, false));
    RunConcat(GENESIS, Doomed(t), [CachedRead(t, None), Worker(t, false)]);
    DesiredIsOwned(t, map[], false);
  }

  /** A tenant that got its finalizer is deleted and let go before it ever got a
      namespace. A cache that still shows it alive brings the namespace into being,
      and nobody will delete it. */
  lemma StaleBeginRevivesNamespace(t: Tenant)
    ensures var steps := LetGo(t) + [CachedBegin(t, Some(TenantCluster(true, false))), Worker(t, false), Worker(t, false)];
            && AllHonest(GENESIS, LetGo(t)) && t !in Run(GENESIS, LetGo(t)).clusters
            && var s := Run(GENESIS, steps);
               OwnsNamespace(s, t) && t !in s.clusters && !TenantInv(s, t)
  {
    hide HostName, ControlPlaneNamespace, OwnedBy, DesiredLabels, Run, AllHonest;
    var a := [UserCreates(t), Worker(t, false), Abort(t)];
    var b := [UserDeletes(t), Worker(t, false), Worker(t, false), Worker(t, false)];
    ThreeSteps(GENESIS, UserCreates(t), Worker(t, false), Abort(t));
    var s1 := Run(GENESIS, a);
    FourSteps(s1, UserDeletes(t), Worker(t, false), Worker(t, false), Worker(t, false));
    RunConcat(GENESIS, a, b);
    var s2 := Run(GENESIS, LetGo(t));
    var c := [CachedBegin(t, Some(TenantCluster(true, false))), Worker(t, false), Worker(t, false)];
    ThreeSteps(s2, CachedBegin(t, Some(TenantCluster(true, false))), Worker(t, false), Worker(t, false));
    RunConcat(GENESIS, LetGo(t), c);
    DesiredIsOwned(t, map[], false);
  }

  function LetGo(t: Tenant): seq<Step> {
    [UserCreates(t), Worker(t, false), Abort(t)] + [UserDeletes(t), Worker(t, false), Worker(t, false), Worker(t, false)]
  }

  /** A tenant gets its namespace and is deleted; its worker is about to read. */
  function Doomed(t: Tenant): seq<Step> {
    [UserCreates(t), Worker(t, false), Worker(t, false), Worker(t, false)] + [UserDeletes(t), Worker(t, false)]
  }

  lemma TwoSteps(s: State, a: Step, b: Step)
    ensures Run(s, [a, b]) == Take(Take(s, a), b)
    ensures AllHonest(s, [a, b]) <==> Honest(s, a) && Honest(Take(s, a), b)
  {
    hide Take, Honest;
    assert [a, b] == [a] + ([b] + []);
    RunCons(s, a, [b] + []);
    RunCons(Take(s, a), b, []);
  }

  /** So, for any three labels, an honest run from an empty cluster deletes a
      namespace that belongs to another tenant. */
  lemma HonestRunsCanDeleteAnothersNamespace(b: string, c: string, d: string)
    requires Naming.IsLabel(b) && Naming.IsLabel(c) && Naming.IsLabel(d)
    ensures var t, u := Tenant(b + "-x-" + c, d), Tenant(b, c + "-x-" + d);
            var steps := Opening(t, u) + Takeover(t, u);
            && AllHonest(GENESIS, steps)
            && Run(GENESIS, steps).acts == [Deleted(t, Namespace(DesiredLabels(u), false))]
            && OwnedBy(Namespace(DesiredLabels(u), false), u) && !DeletesSafe(Run(GENESIS, steps))
  {
    hide HostName, ControlPlaneNamespace, OwnedBy, DesiredLabels, Run, AllHonest, Take, Opening, Takeover, Naming.IsLabel;
    var t, u := Tenant(b + "-x-" + c, d), Tenant(b, c + "-x-" + d);
    ControlPlaneNamesCollide(b, c, d);
    RaceIsReachable(t, u);
    var s := Run(GENESIS, Opening(t, u));
    DeleteMayHitANewcomer(s, t, u);
    RunConcat(GENESIS, Opening(t, u), Takeover(t, u));
  }
}
