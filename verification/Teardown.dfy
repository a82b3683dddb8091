/** The control-plane namespace under its finalizer: `ensureControlPlaneNamespace`
    and `teardown` from internal/controller/namespace.go with the deletion part
    of `Reconcile`, as small steps of many tenants' workers interleaved with
    users, strangers and the namespace controller. */
module Teardown {
  import opened HostNames
  import Objects
  import opened Wrappers

  datatype Tenant = Tenant(name: string, namespace: string)

  datatype Namespace = Namespace(labels: map<string, string>, terminating: bool)

  datatype TenantCluster = TenantCluster(finalizer: bool, deleting: bool)

  /** Where a tenant's worker stands between two API calls. */
  datatype Worker =
    | Idle
    | Provisioning
    | SawNamespace(found: Option<Namespace>)
    | TearingDown
    | SawDoomed
    | Releasing

  /** What the workers did to namespaces that existed. */
  datatype Act = Updated(tenant: Tenant, met: Namespace, written: Namespace) | Deleted(tenant: Tenant, met: Namespace)

  datatype State = State(
    clusters: map<Tenant, TenantCluster>, namespaces: map<string, Namespace>, workers: map<Tenant, Worker>, acts: seq<Act>)

  const LABEL_TENANT_NAMESPACE := "tenantplane.io/tenant-namespace"

  function ControlPlaneNamespace(t: Tenant): string {
    HostName("cp", t.name, t.namespace)
  }

  function DesiredLabels(t: Tenant): map<string, string> {
    map[LABEL_MANAGED_BY := MANAGED_BY, LABEL_TENANT := t.name, LABEL_TENANT_NAMESPACE := t.namespace,
        "pod-security.kubernetes.io/enforce" := "baseline", "pod-security.kubernetes.io/audit" := "baseline",
        "pod-security.kubernetes.io/warn" := "baseline"]
  }

  function LabelOf(ns: Namespace, key: string): string {
    if key in ns.labels then ns.labels[key] else ""
  }

  /** The labels once each desired one has been set where it read differently; an
      absent label reads as empty. */
  function Converge(labels: map<string, string>, desired: map<string, string>): map<string, string> {
    labels + Differing(labels, desired)
  }

  function Differing(labels: map<string, string>, desired: map<string, string>): map<string, string> {
    map k | k in desired && (if k in labels then labels[k] else "") != desired[k] :: desired[k]
  }

  predicate OwnedBy(ns: Namespace, t: Tenant) {
    LabelOf(ns, LABEL_MANAGED_BY) == MANAGED_BY && LabelOf(ns, LABEL_TENANT) == t.name
    && LabelOf(ns, LABEL_TENANT_NAMESPACE) == t.namespace
  }

  function Lookup(s: State, name: string): Option<Namespace> {
    if name in s.namespaces then Some(s.namespaces[name]) else None
  }

  function WorkerOf(s: State, t: Tenant): Worker {
    if t in s.workers then s.workers[t] else Idle
  }

  function At(s: State, t: Tenant, worker: Worker): State {
    s.(workers := s.workers[t := worker])
  }

  // ---- one worker's steps ----

  /** Reconcile reads the TenantCluster and takes the deletion path, or makes sure
      of the finalizer first; that update may lose against another writer. */
  function Begin(s: State, t: Tenant, conflict: bool): State {
    if t !in s.clusters then s
    else
      var tc := s.clusters[t];
      if tc.deleting then (if tc.finalizer then At(s, t, TearingDown) else s)
      else if tc.finalizer then At(s, t, Provisioning)
      else if conflict then s
      else At(s.(clusters := s.clusters[t := tc.(finalizer := true)]), t, Provisioning)
  }

  function ReadForEnsure(s: State, t: Tenant): State {
    At(s, t, SawNamespace(Lookup(s, ControlPlaneNamespace(t))))
  }

  /** Create what was missing, refuse what is foreign, or converge the labels;
      the update is checked against the version read. */
  function WriteEnsure(s: State, t: Tenant, found: Option<Namespace>): State {
    var name := ControlPlaneNamespace(t);
    match found
    case None =>
      At(if name in s.namespaces then s else s.(namespaces := s.namespaces[name := Namespace(DesiredLabels(t), false)]), t, Idle)
    case Some(read) =>
      var written := read.(labels := Converge(read.labels, DesiredLabels(t)));
      if !OwnedBy(read, t) || written == read || Lookup(s, name) != Some(read) then At(s, t, Idle)
      else At(s.(namespaces := s.namespaces[name := written], acts := s.acts + [Updated(t, read, written)]), t, Idle)
  }

  function ReadForTeardown(s: State, t: Tenant): State {
    TeardownReads(s, t, Lookup(s, ControlPlaneNamespace(t)))
  }

  /** What the worker does on what it reads. */
  function TeardownReads(s: State, t: Tenant, read: Option<Namespace>): State {
    match read
    case None => At(s, t, Releasing)
    case Some(ns) =>
      if !OwnedBy(ns, t) then At(s, t, Releasing)
      else if ns.terminating then At(s, t, Idle)
      else At(s, t, SawDoomed)
  }

  /** The delete names the namespace only. */
  function DeleteDoomed(s: State, t: Tenant): State {
    var name := ControlPlaneNamespace(t);
    if name !in s.namespaces then At(s, t, Idle)
    else
      var met := s.namespaces[name];
      At(s.(namespaces := s.namespaces[name := met.(terminating := true)], acts := s.acts + [Deleted(t, met)]), t, Idle)
  }

  /** Without its last finalizer a TenantCluster being deleted is gone. */
  function Release(s: State, t: Tenant, conflict: bool): State {
    if conflict || t !in s.clusters then At(s, t, Idle)
    else
      var tc := s.clusters[t];
      At(if tc.deleting then s.(clusters := s.clusters - {t}) else s.(clusters := s.clusters[t := tc.(finalizer := false)]), t, Idle)
  }

  function Work(s: State, t: Tenant, conflict: bool): State {
    match WorkerOf(s, t)
    case Idle => Begin(s, t, conflict)
    case Provisioning => ReadForEnsure(s, t)
    case SawNamespace(found) => WriteEnsure(s, t, found)
    case TearingDown => ReadForTeardown(s, t)
    case SawDoomed => DeleteDoomed(s, t)
    case Releasing => Release(s, t, conflict)
  }

  // ---- everyone else ----

  datatype Step =
    | Worker(tenant: Tenant, conflict: bool)
    | Abort(tenant: Tenant)
    | CachedRead(tenant: Tenant, read: Option<Namespace>)
    | CachedBegin(tenant: Tenant, shown: Option<TenantCluster>)
    | UserCreates(tenant: Tenant)
    | UserDeletes(tenant: Tenant)
    | NamespaceGone(name: string)
    | StrangerWrites(name: string, ns: Namespace)
    | StrangerDeletes(name: string)

  /** The worker's read of the namespace is served from a cache, which may answer
      anything. */
  function ReadFromCache(s: State, t: Tenant, read: Option<Namespace>): State {
    match WorkerOf(s, t)
    case Provisioning => At(s, t, SawNamespace(read))
    case TearingDown => TeardownReads(s, t, read)
    case _ => s
  }

  /** An idle worker starts on a TenantCluster served from a cache. Adding the
      finalizer is checked against the version read, so it only succeeds on a
      current one. */
  function BeginFromCache(s: State, t: Tenant, read: Option<TenantCluster>): State {
    if WorkerOf(s, t) != Idle then s
    else match read
      case None => s
      case Some(tc) =>
        if tc.deleting then (if tc.finalizer then At(s, t, TearingDown) else s)
        else if tc.finalizer then At(s, t, Provisioning)
        else if t in s.clusters && s.clusters[t] == tc then Begin(s, t, false)
        else s
  }

  /** A worker may stop with an error, or be restarted, at any point. A terminating
      namespace goes away in its own time. */
  function Take(s: State, step: Step): State {
    match step
    case Worker(t, conflict) => Work(s, t, conflict)
    case Abort(t) => At(s, t, Idle)
    case CachedRead(t, read) => ReadFromCache(s, t, read)
    case CachedBegin(t, read) => BeginFromCache(s, t, read)
    case UserCreates(t) => if t in s.clusters then s else s.(clusters := s.clusters[t := TenantCluster(false, false)])
    case UserDeletes(t) =>
      if t !in s.clusters then s
      else if s.clusters[t].finalizer then s.(clusters := s.clusters[t := s.clusters[t].(deleting := true)])
      else s.(clusters := s.clusters - {t})
    case NamespaceGone(name) =>
      if name in s.namespaces && s.namespaces[name].terminating then s.(namespaces := s.namespaces - {name}) else s
    case StrangerWrites(name, ns) => s.(namespaces := s.namespaces[name := ns])
    case StrangerDeletes(name) =>
      if name in s.namespaces then s.(namespaces := s.namespaces[name := s.namespaces[name].(terminating := true)]) else s
  }

  /** The cache does not hide from a tenant's teardown that it owns its namespace. */
  ghost predicate ShowsOwn(s: State, t: Tenant, read: Option<Namespace>) {
    WorkerOf(s, t).TearingDown? && OwnsNamespace(s, t) ==> read.Some? && OwnedBy(read.value, t)
  }

  /** Nor does it show a finalizer, with no deletion under way, that is gone. */
  ghost predicate ShowsFinalizer(s: State, t: Tenant, read: Option<TenantCluster>) {
    WorkerOf(s, t).Idle? && read.Some? && read.value.finalizer && !read.value.deleting ==> HoldsFinalizer(s, t)
  }

  /** Nobody else forges or strips ownership. */
  ghost predicate Honest(s: State, step: Step) {
    && (step.CachedRead? ==> ShowsOwn(s, step.tenant, step.read))
    && (step.CachedBegin? ==> ShowsFinalizer(s, step.tenant, step.shown))
    && (step.StrangerWrites? ==>
          forall t :: OwnedBy(step.ns, t) <==> step.name in s.namespaces && OwnedBy(s.namespaces[step.name], t))
  }

  /** Nor deletes a namespace some tenant owns, nor dooms one on an old answer. */
  ghost predicate Sparing(s: State, step: Step) {
    && (step.CachedRead? && WorkerOf(ReadFromCache(s, step.tenant, step.read), step.tenant).SawDoomed? ==>
          OwnsNamespace(s, step.tenant) && !s.namespaces[ControlPlaneNamespace(step.tenant)].terminating)
    && (step.StrangerDeletes? && step.name in s.namespaces ==> forall t :: !OwnedBy(s.namespaces[step.name], t))
    && (step.StrangerWrites? && step.name in s.namespaces ==>
          forall t :: OwnedBy(s.namespaces[step.name], t) ==> step.ns.terminating == s.namespaces[step.name].terminating)
  }

  // ---- the invariant ----

  ghost predicate HoldsFinalizer(s: State, t: Tenant) {
    t in s.clusters && s.clusters[t].finalizer
  }

  ghost predicate OwnsNamespace(s: State, t: Tenant) {
    var name := ControlPlaneNamespace(t);
    name in s.namespaces && OwnedBy(s.namespaces[name], t)
  }

  ghost predicate TenantInv(s: State, t: Tenant) {
    && (OwnsNamespace(s, t) ==> HoldsFinalizer(s, t))
    && (WorkerOf(s, t).Provisioning? || WorkerOf(s, t).SawNamespace? ==> HoldsFinalizer(s, t))
    && (WorkerOf(s, t).Releasing? ==> !OwnsNamespace(s, t))
  }

  ghost predicate AllTenantsInv(s: State) {
    forall t :: TenantInv(s, t)
  }

  /** A doomed namespace stays its owner's, alive, until the owner deletes it. */
  ghost predicate DoomedInv(s: State) {
    forall t :: WorkerOf(s, t).SawDoomed? ==>
      OwnsNamespace(s, t) && !s.namespaces[ControlPlaneNamespace(t)].terminating
  }

  ghost predicate UpdatesSafe(s: State) {
    forall i :: 0 <= i < |s.acts| && s.acts[i].Updated? ==>
      && OwnedBy(s.acts[i].met, s.acts[i].tenant) && OwnedBy(s.acts[i].written, s.acts[i].tenant)
      && s.acts[i].met.labels.Keys <= s.acts[i].written.labels.Keys
  }

  ghost predicate DeletesSafe(s: State) {
    forall i :: 0 <= i < |s.acts| && s.acts[i].Deleted? ==> OwnedBy(s.acts[i].met, s.acts[i].tenant)
  }

  lemma DesiredIsOwned(t: Tenant, base: map<string, string>, terminating: bool)
    ensures OwnedBy(Namespace(Converge(base, DesiredLabels(t)), terminating), t)
    ensures OwnedBy(Namespace(DesiredLabels(t), terminating), t)
  {
    assert |LABEL_MANAGED_BY| == 28 && |LABEL_TENANT| == 21 && |LABEL_TENANT_NAMESPACE| == 31;
    assert |"pod-security.kubernetes.io/enforce"| == 34 && |"pod-security.kubernetes.io/audit"| == 32 && |"pod-security.kubernetes.io/warn"| == 31;
    assert LABEL_TENANT_NAMESPACE[0] == 't' && "pod-security.kubernetes.io/warn"[0] == 'p';
  }

  // ---- the labels by name ----

  /** An absent label reads as empty. */
  predicate Reads(labels: map<string, string>, key: string, value: string) {
    (if key in labels then labels[key] else "") == value
  }

  /** The three labels that make a namespace the tenant's. */
  predicate Marked(labels: map<string, string>, t: Tenant) {
    Reads(labels, "app.kubernetes.io/managed-by", "tenantplane") && Reads(labels, "tenantplane.io/tenant", t.name)
    && Reads(labels, "tenantplane.io/tenant-namespace", t.namespace)
  }

  /** From these labels to those of a control-plane namespace: the three, the three
      levels of Pod security, and every other label as it was. */
  ghost predicate Shaped(before: map<string, string>, after: map<string, string>, t: Tenant) {
    && Marked(after, t)
    && Reads(after, "pod-security.kubernetes.io/enforce", "baseline")
    && Reads(after, "pod-security.kubernetes.io/audit", "baseline")
    && Reads(after, "pod-security.kubernetes.io/warn", "baseline")
    && forall k :: k !in {"app.kubernetes.io/managed-by", "tenantplane.io/tenant", "tenantplane.io/tenant-namespace",
                          "pod-security.kubernetes.io/enforce", "pod-security.kubernetes.io/audit", "pod-security.kubernetes.io/warn"}
         ==> Objects.SameAt(before, after, k)
  }

  lemma OwnedMeansMarked(ns: Namespace, t: Tenant)
    ensures OwnedBy(ns, t) <==> Marked(ns.labels, t)
  {
  }

  lemma DesiredByName(t: Tenant)
    ensures Shaped(map[], DesiredLabels(t), t)
    ensures forall k :: k in DesiredLabels(t) <==>
              k in {"app.kubernetes.io/managed-by", "tenantplane.io/tenant", "tenantplane.io/tenant-namespace",
                    "pod-security.kubernetes.io/enforce", "pod-security.kubernetes.io/audit", "pod-security.kubernetes.io/warn"}
  {
    assert |"app.kubernetes.io/managed-by"| == 28 && |"tenantplane.io/tenant"| == 21 && |"tenantplane.io/tenant-namespace"| == 31;
    assert |"pod-security.kubernetes.io/enforce"| == 34 && |"pod-security.kubernetes.io/audit"| == 32 && |"pod-security.kubernetes.io/warn"| == 31;
    assert "tenantplane.io/tenant-namespace"[0] == 't' && "pod-security.kubernetes.io/warn"[0] == 'p';
  }

  lemma ConvergeReads(labels: map<string, string>, desired: map<string, string>, k: string)
    ensures k in desired ==> Reads(Converge(labels, desired), k, desired[k])
    ensures k !in desired ==> Objects.SameAt(labels, Converge(labels, desired), k)
  {
  }

  /** A label that drifted is set back, whatever the others say. */
  lemma ConvergeShapes(labels: map<string, string>, t: Tenant)
    ensures Shaped(labels, Converge(labels, DesiredLabels(t)), t)
  {
    hide DesiredLabels, Converge, Objects.SameAt;
    DesiredByName(t);
    forall k
      ensures k in DesiredLabels(t) ==> Reads(Converge(labels, DesiredLabels(t)), k, DesiredLabels(t)[k])
      ensures k !in DesiredLabels(t) ==> Objects.SameAt(labels, Converge(labels, DesiredLabels(t)), k)
    {
      ConvergeReads(labels, DesiredLabels(t), k);
    }
  }

  lemma OneOwner(ns: Namespace, t: Tenant, u: Tenant)
    requires OwnedBy(ns, t) && OwnedBy(ns, u)
    ensures t == u
  {
  }

  lemma StepKeepsTenantInv(s: State, step: Step, t: Tenant)
    requires AllTenantsInv(s) && Honest(s, step)
    ensures TenantInv(Take(s, step), t)
  {
    hide DesiredLabels, LabelOf, HostName;
    assert TenantInv(s, t);
    match step {
      case Worker(u, conflict) =>
        assert TenantInv(s, u);
        WorkKeepsTenantInv(s, u, conflict, t);
      case _ =>
        StrangersKeepTenantInv(s, step, t);
    }
  }

  lemma StrangersKeepTenantInv(s: State, step: Step, t: Tenant)
    requires TenantInv(s, t) && Honest(s, step) && !step.Worker?
    ensures TenantInv(Take(s, step), t)
  {
    hide DesiredLabels, HostName, ControlPlaneNamespace;
  }

  lemma WorkKeepsTenantInv(s: State, u: Tenant, conflict: bool, t: Tenant)
    requires TenantInv(s, t) && TenantInv(s, u)
    ensures TenantInv(Work(s, u, conflict), t)
  {
    hide DesiredLabels, HostName, ControlPlaneNamespace, OwnedBy;
    match WorkerOf(s, u) {
      case SawNamespace(found) =>
        var written := if found.None? then Namespace(DesiredLabels(u), false)
                       else found.value.(labels := Converge(found.value.labels, DesiredLabels(u)));
        DesiredIsOwned(u, if found.Some? then found.value.labels else map[], written.terminating);
        if OwnedBy(written, t) {
          OneOwner(written, t, u);
        }
      case SawDoomed =>
        if ControlPlaneNamespace(u) in s.namespaces {
          TerminatingKeepsOwner(s.namespaces[ControlPlaneNamespace(u)], t);
        }
      case _ =>
    }
  }

  lemma TerminatingKeepsOwner(ns: Namespace, t: Tenant)
    ensures OwnedBy(ns.(terminating := true), t) <==> OwnedBy(ns, t)
  {
  }

  /** Every step keeps every tenant's invariant. */
  lemma StepKeepsTenants(s: State, step: Step)
    requires AllTenantsInv(s) && Honest(s, step)
    ensures AllTenantsInv(Take(s, step))
  {
    forall t
      ensures TenantInv(Take(s, step), t)
    {
      StepKeepsTenantInv(s, step, t);
    }
  }

  /** The updates are checked against what was read, so they are safe however the
      steps interleave. */
  lemma StepKeepsUpdatesSafe(s: State, step: Step)
    requires UpdatesSafe(s)
    ensures UpdatesSafe(Take(s, step))
  {
    hide DesiredLabels, HostName, ControlPlaneNamespace, OwnedBy;
    if step.Worker? && WorkerOf(s, step.tenant).SawNamespace? && WorkerOf(s, step.tenant).found.Some? {
      var read := WorkerOf(s, step.tenant).found.value;
      DesiredIsOwned(step.tenant, read.labels, read.terminating);
    }
  }

  lemma StepKeepsDoomed(s: State, step: Step)
    requires DoomedInv(s) && Honest(s, step) && Sparing(s, step)
    ensures DoomedInv(Take(s, step))
  {
    hide DesiredLabels, HostName, ControlPlaneNamespace, OwnedBy;
    forall t | WorkerOf(Take(s, step), t).SawDoomed?
      ensures OwnsNamespace(Take(s, step), t) && !Take(s, step).namespaces[ControlPlaneNamespace(t)].terminating
    {
      if step.Worker? {
        WorkKeepsDoomed(s, step.tenant, step.conflict, t);
      } else {
        OthersKeepDoomed(s, step, t);
      }
    }
  }

  lemma OthersKeepDoomed(s: State, step: Step, t: Tenant)
    requires DoomedInv(s) && Honest(s, step) && Sparing(s, step) && !step.Worker? && WorkerOf(Take(s, step), t).SawDoomed?
    ensures OwnsNamespace(Take(s, step), t) && !Take(s, step).namespaces[ControlPlaneNamespace(t)].terminating
  {
    hide DesiredLabels, HostName, ControlPlaneNamespace, OwnedBy;
    assert !(step.CachedRead? && step.tenant == t) ==> WorkerOf(s, t).SawDoomed?;
  }

  lemma WorkKeepsDoomed(s: State, u: Tenant, conflict: bool, t: Tenant)
    requires DoomedInv(s) && WorkerOf(Work(s, u, conflict), t).SawDoomed?
    ensures OwnsNamespace(Work(s, u, conflict), t) && !Work(s, u, conflict).namespaces[ControlPlaneNamespace(t)].terminating
  {
    hide DesiredLabels, HostName, ControlPlaneNamespace, OwnedBy;
    if t != u {
      assert WorkerOf(s, t).SawDoomed?;
      assert !(WorkerOf(s, u).SawDoomed? && ControlPlaneNamespace(u) == ControlPlaneNamespace(t)) by {
        if WorkerOf(s, u).SawDoomed? && ControlPlaneNamespace(u) == ControlPlaneNamespace(t) {
          OneOwner(s.namespaces[ControlPlaneNamespace(t)], t, u);
        }
      }
      if WorkerOf(s, u).SawNamespace? && WorkerOf(s, u).found.Some? && ControlPlaneNamespace(u) == ControlPlaneNamespace(t)
         && OwnedBy(s.namespaces[ControlPlaneNamespace(t)], u) {
        OneOwner(s.namespaces[ControlPlaneNamespace(t)], t, u);
      }
    }
  }

  lemma StepKeepsDeletesSafe(s: State, step: Step)
    requires DeletesSafe(s) && DoomedInv(s)
    ensures DeletesSafe(Take(s, step))
  {
    hide DesiredLabels, HostName, ControlPlaneNamespace, OwnedBy;
  }

  // ---- runs ----

  function Run(s: State, steps: seq<Step>): State
    decreases |steps|
  {
    if steps == [] then s else Run(Take(s, steps[0]), steps[1..])
  }

  ghost predicate AllHonest(s: State, steps: seq<Step>)
    decreases |steps|
  {
    steps != [] ==> Honest(s, steps[0]) && AllHonest(Take(s, steps[0]), steps[1..])
  }

  ghost predicate AllSparing(s: State, steps: seq<Step>)
    decreases |steps|
  {
    steps != [] ==> Sparing(s, steps[0]) && AllSparing(Take(s, steps[0]), steps[1..])
  }

  lemma {:induction false} RunConcat(s: State, a: seq<Step>, b: seq<Step>)
    ensures Run(s, a + b) == Run(Run(s, a), b)
    ensures AllHonest(s, a + b) <==> AllHonest(s, a) && AllHonest(Run(s, a), b)
    decreases |a|
  {
    hide Take, Honest;
    if a == [] {
      assert a + b == b;
    } else {
      assert (a + b)[1..] == a[1..] + b;
      RunConcat(Take(s, a[0]), a[1..], b);
    }
  }

  /** Over every run in which nobody else forges or strips ownership, and no cached
      answer hides a tenant's own namespace from its teardown, a namespace owned by
      a tenant at its control-plane name exists only while the tenant still holds
      the finalizer, and no update ever touched a namespace without the tenant's
      three labels, even where two tenants' names collide. */
  lemma {:induction false} TeardownIsSafe(s: State, steps: seq<Step>)
    requires AllTenantsInv(s) && UpdatesSafe(s) && AllHonest(s, steps)
    ensures AllTenantsInv(Run(s, steps)) && UpdatesSafe(Run(s, steps))
    decreases |steps|
  {
    hide Take, Honest, AllTenantsInv, UpdatesSafe;
    if steps != [] {
      StepKeepsTenants(s, steps[0]);
      StepKeepsUpdatesSafe(s, steps[0]);
      TeardownIsSafe(Take(s, steps[0]), steps[1..]);
    }
  }

  /** If moreover nobody else deletes owned namespaces, and none is doomed on an
      old answer, no delete ever hit one without the deleting tenant's three
      labels. */
  lemma {:induction false} DeletesAreSafe(s: State, steps: seq<Step>)
    requires DoomedInv(s) && DeletesSafe(s) && AllHonest(s, steps) && AllSparing(s, steps)
    ensures DoomedInv(Run(s, steps)) && DeletesSafe(Run(s, steps))
    decreases |steps|
  {
    hide Take, Honest, Sparing, DoomedInv, DeletesSafe;
    if steps != [] {
      StepKeepsDoomed(s, steps[0]);
      StepKeepsDeletesSafe(s, steps[0]);
      DeletesAreSafe(Take(s, steps[0]), steps[1..]);
    }
  }

  const GENESIS := State(map[], map[], map[], [])

  lemma GenesisIsSafe()
    ensures AllTenantsInv(GENESIS) && UpdatesSafe(GENESIS) && DoomedInv(GENESIS) && DeletesSafe(GENESIS)
  {
  }

  /** In particular over every such run of a cluster that starts empty. */
  lemma TeardownIsSafeFromGenesis(steps: seq<Step>)
    requires AllHonest(GENESIS, steps)
    ensures forall t :: OwnsNamespace(Run(GENESIS, steps), t) ==> HoldsFinalizer(Run(GENESIS, steps), t)
    ensures UpdatesSafe(Run(GENESIS, steps))
    ensures AllSparing(GENESIS, steps) ==> DeletesSafe(Run(GENESIS, steps))
  {
    hide Run, AllHonest, AllSparing, UpdatesSafe, DeletesSafe, DoomedInv, OwnsNamespace, HoldsFinalizer;
    GenesisIsSafe();
    TeardownIsSafe(GENESIS, steps);
    if AllSparing(GENESIS, steps) {
      DeletesAreSafe(GENESIS, steps);
    }
    forall t
      ensures OwnsNamespace(Run(GENESIS, steps), t) ==> HoldsFinalizer(Run(GENESIS, steps), t)
    {
      assert TenantInv(Run(GENESIS, steps), t);
    }
  }

  /** The condition on cached answers is exact: an answer keeps the invariant if and
      only if it shows the teardown a namespace that is the tenant's own. */
  lemma CachedReadIsSafeIffItShowsOwn(s: State, t: Tenant, read: Option<Namespace>)
    requires TenantInv(s, t)
    ensures TenantInv(Take(s, CachedRead(t, read)), t) <==> Honest(s, CachedRead(t, read))
  {
    hide OwnedBy, ControlPlaneNamespace;
  }

  /** So is the one on a cached TenantCluster: starting on it keeps the invariant if
      and only if it does not show a finalizer that is gone. */
  lemma CachedBeginIsSafeIffItShowsFinalizer(s: State, t: Tenant, read: Option<TenantCluster>)
    requires TenantInv(s, t)
    ensures TenantInv(Take(s, CachedBegin(t, read)), t) <==> Honest(s, CachedBegin(t, read))
  {
    hide OwnedBy, ControlPlaneNamespace;
  }
}
