/** Teardown comes to an end: what a reconcile of a tenant under deletion achieves
    when its calls are served, whoever acts in between. */
module TeardownLiveness {
  import opened ReconcilerOps
  import opened Teardown
  import opened TeardownRaces
  import opened Wrappers

  const SERVED := Calls(Served, Served, true, Served, Served)

  function Reconciled(s: State, t: Tenant): State {
    Run(s, StepsOf(s, t, SERVED))
  }

  /** Deleted by its user, held by its finalizer, and its worker is free. */
  predicate IsHeld(s: State, t: Tenant) {
    t in s.clusters && s.clusters[t] == TenantCluster(true, true) && WorkerOf(s, t) == Idle
  }

  /** A reconcile lets a tenant go that owns no namespace, and touches nothing, were
      a foreign namespace in its place; else it dooms the namespace and no other,
      and the tenant stays. */
  lemma HeldTenantIsReconciled(s: State, t: Tenant)
    requires IsHeld(s, t)
    ensures var s', name := Reconciled(s, t), ControlPlaneNamespace(t);
            && WorkerOf(s', t) == Idle
            && if OwnsNamespace(s, t)
               then s'.clusters == s.clusters && s'.namespaces == s.namespaces[name := s.namespaces[name].(terminating := true)]
               else s'.clusters == s.clusters - {t} && s'.namespaces == s.namespaces && s'.acts == s.acts
  {
    hide Run, TeardownSteps, CallSteps, ControlPlaneNamespace, OwnedBy;
    var start := At(s, t, TearingDown);
    var steps := TeardownSteps(start, t, Served, Served, Served);
    AbortIsRejected(t);
    OneCall(s, t, Served);
    TeardownInCalls(start, t, Served, Served, Served);
    RunConcat(s, [Worker(t, false)], steps);
    RunConcat(s, [Worker(t, false)] + steps, CallSteps(t, Served));
    OneCall(Run(start, steps), t, Served);
  }

  lemma HeldRestsOnce(s: State, step: Step, t: Tenant)
    requires IsHeld(s, t) && Rests([step], t)
    ensures IsHeld(Take(s, step), t)
  {
    hide ControlPlaneNamespace, OwnedBy, DesiredLabels, Converge;
    assert [step][0] == step;
  }

  lemma {:induction false} HeldRests(s: State, steps: seq<Step>, t: Tenant)
    requires IsHeld(s, t) && Rests(steps, t)
    ensures IsHeld(Run(s, steps), t)
    decreases |steps|
  {
    hide Take, IsHeld;
    if steps != [] {
      HeldRestsOnce(s, steps[0], t);
      HeldRests(Take(s, steps[0]), steps[1..], t);
    }
  }

  /** A tenant that owns its namespace: the first reconcile dooms it, and over every
      honest interleaving the next one lets the tenant go if and only if the
      namespace has disappeared in between; else it is doomed still. */
  lemma DeletionEndsIffNamespaceGoes(s: State, t: Tenant, others: seq<Step>)
    requires IsHeld(s, t) && OwnsNamespace(s, t)
    requires Rests(others, t) && AllHonest(Reconciled(s, t), others)
    ensures var name, doomed := ControlPlaneNamespace(t), Reconciled(s, t);
            var after := Reconciled(Run(doomed, others), t);
            && IsHeld(doomed, t) && name in doomed.namespaces && doomed.namespaces[name].terminating
            && (t !in after.clusters <==> VanishesAlong(doomed, others, name))
            && (t in after.clusters ==> IsHeld(after, t) && name in after.namespaces && after.namespaces[name].terminating)
            && (OwnsNamespace(after, t) ==> t in after.clusters)
  {
    hide Reconciled, Run, AllHonest, VanishesAlong, Rests, ControlPlaneNamespace, OwnedBy;
    var doomed := Reconciled(s, t);
    HeldTenantIsReconciled(s, t);
    TerminatingKeepsOwner(s.namespaces[ControlPlaneNamespace(t)], t);
    OwnerUntilGone(doomed, others, t);
    HeldRests(doomed, others, t);
    HeldTenantIsReconciled(Run(doomed, others), t);
  }

  /** Nothing holds a tenant without a namespace: over every honest interleaving
      before it, one reconcile is enough, and it leaves every namespace alone. */
  lemma NothingHoldsWithoutNamespace(s: State, t: Tenant, others: seq<Step>)
    requires IsHeld(s, t) && !OwnsNamespace(s, t)
    requires Rests(others, t) && AllHonest(s, others)
    ensures var met := Run(s, others);
            var after := Reconciled(met, t);
            t !in after.clusters && after.namespaces == met.namespaces && after.acts == met.acts
  {
    hide Reconciled, Run, AllHonest, VanishesAlong, Rests, ControlPlaneNamespace, OwnedBy;
    OwnerUntilGone(s, others, t);
    HeldRests(s, others, t);
    HeldTenantIsReconciled(Run(s, others), t);
  }

  /** A deleted tenant that no finalizer holds is left alone. */
  lemma NothingToTearDown(s: State, t: Tenant, conflict: bool)
    requires t in s.clusters && s.clusters[t] == TenantCluster(false, true) && WorkerOf(s, t) == Idle
    ensures Take(s, Worker(t, conflict)) == s
  {
  }
}
