/** One reconcile of the teardown machine with nobody in between, as the controller
    performs it call by call (internal/controller/namespace.go and the parts of
    internal/controller/tenantcluster_controller.go that concern the finalizer and
    the namespace). Any call may fail. */
module ReconcilerOps {
  import opened HostNames
  import opened Objects
  import opened Teardown
  import opened Wrappers

  /** How the calls of one reconcile fare: reading the TenantCluster; adding the
      finalizer or deleting the runtime-class binding; reading the namespace;
      writing it or releasing the finalizer. `prepared` says that what comes
      between finalizer and namespace went well. */
  datatype Calls = Calls(get: Fault, mark: Fault, prepared: bool, read: Fault, write: Fault)

  // ---- the same in small steps ----

  function CallSteps(t: Tenant, call: Fault): seq<Step> {
    match call
    case Served => [Worker(t, false)]
    case Rejected => [Abort(t)]
    case ReplyLost => [Worker(t, false), Abort(t)]
  }

  function EnsureSteps(t: Tenant, read: Fault, write: Fault): seq<Step> {
    if read != Served then CallSteps(t, read) else CallSteps(t, read) + CallSteps(t, write)
  }

  /** Up to the decision whether the finalizer may go. */
  function TeardownSteps(s: State, t: Tenant, mark: Fault, read: Fault, write: Fault): seq<Step> {
    if mark != Served then [Abort(t)]
    else if read != Served || !WorkerOf(Work(s, t, false), t).SawDoomed? then CallSteps(t, read)
    else CallSteps(t, read) + CallSteps(t, write)
  }

  function StepsOf(s: State, t: Tenant, calls: Calls): seq<Step> {
    if calls.get != Served || t !in s.clusters then []
    else
      var tc := s.clusters[t];
      if tc.deleting then
        if !tc.finalizer then []
        else
          var steps := TeardownSteps(At(s, t, TearingDown), t, calls.mark, calls.read, calls.write);
          if WorkerOf(Run(At(s, t, TearingDown), steps), t) != Releasing then [Worker(t, false)] + steps
          else [Worker(t, false)] + steps + CallSteps(t, calls.write)
      else if !tc.finalizer && calls.mark == Rejected then [Worker(t, true)]
      else if (!tc.finalizer && calls.mark == ReplyLost) || !calls.prepared then [Worker(t, false), Abort(t)]
      else [Worker(t, false)] + EnsureSteps(t, calls.read, calls.write)
  }

  lemma OneCall(s: State, t: Tenant, call: Fault)
    ensures Run(s, CallSteps(t, call))
         == match call
            case Served => Work(s, t, false)
            case Rejected => At(s, t, Idle)
            case ReplyLost => At(Work(s, t, false), t, Idle)
  {
    hide Work;
    assert [Worker(t, false)][1..] == [] && [Abort(t)][1..] == [] && [Worker(t, false), Abort(t)][1..] == [Abort(t)];
    assert Run(Work(s, t, false), [Abort(t)]) == Run(At(Work(s, t, false), t, Idle), []);
  }

  ghost predicate StepsBy(t: Tenant, steps: seq<Step>) {
    forall i :: 0 <= i < |steps| ==> (steps[i].Worker? || steps[i].Abort?) && steps[i].tenant == t
  }

  lemma {:induction false} OwnStepsAreHonest(s: State, t: Tenant, steps: seq<Step>)
    requires StepsBy(t, steps)
    ensures AllHonest(s, steps) && AllSparing(s, steps)
    decreases |steps|
  {
    hide Take;
    if steps != [] {
      OwnStepsAreHonest(Take(s, steps[0]), t, steps[1..]);
    }
  }

  /** However its calls fare, a reconcile is a run of the machine by this tenant's
      worker alone, so it keeps every tenant's invariant and deletes only what is
      the tenant's own. */
  lemma ReconcileIsSafe(s: State, t: Tenant, calls: Calls)
    requires AllTenantsInv(s) && UpdatesSafe(s) && DoomedInv(s) && DeletesSafe(s)
    ensures StepsBy(t, StepsOf(s, t, calls))
    ensures var s' := Run(s, StepsOf(s, t, calls)); AllTenantsInv(s') && UpdatesSafe(s') && DoomedInv(s') && DeletesSafe(s')
  {
    hide AllTenantsInv, UpdatesSafe, DoomedInv, DeletesSafe, Run, Work;
    OwnStepsAreHonest(s, t, StepsOf(s, t, calls));
    TeardownIsSafe(s, StepsOf(s, t, calls));
    DeletesAreSafe(s, StepsOf(s, t, calls));
  }

  lemma NoSteps(s: State)
    ensures Run(s, []) == s
  {
  }

  lemma EnsureInCalls(s: State, t: Tenant, read: Fault, write: Fault)
    requires WorkerOf(s, t) == Provisioning
    ensures Run(s, EnsureSteps(t, read, write))
         == if read != Served then At(s, t, Idle)
            else
              var s1, found := ReadForEnsure(s, t), Lookup(s, ControlPlaneNamespace(t));
              match write
              case Served => WriteEnsure(s1, t, found)
              case Rejected => At(s1, t, Idle)
              case ReplyLost => At(WriteEnsure(s1, t, found), t, Idle)
  {
    hide Run, ControlPlaneNamespace, CallSteps, WriteEnsure;
    OneCall(s, t, read);
    if read == Served {
      RunConcat(s, CallSteps(t, read), CallSteps(t, write));
      OneCall(ReadForEnsure(s, t), t, write);
    }
  }

  lemma TeardownInCalls(s: State, t: Tenant, mark: Fault, read: Fault, write: Fault)
    requires WorkerOf(s, t) == TearingDown
    ensures Run(s, TeardownSteps(s, t, mark, read, write))
         == if mark != Served || read != Served then At(s, t, Idle)
            else
              var s1 := ReadForTeardown(s, t);
              if WorkerOf(s1, t) != SawDoomed then s1
              else match write
                case Served => DeleteDoomed(s1, t)
                case Rejected => At(s1, t, Idle)
                case ReplyLost => At(DeleteDoomed(s1, t), t, Idle)
  {
    hide Run, ControlPlaneNamespace, CallSteps;
    OneCall(s, t, read);
    OneCall(s, t, Rejected);
    assert [Abort(t)] == CallSteps(t, Rejected) by { AbortIsRejected(t); }
    if mark == read == Served && WorkerOf(ReadForTeardown(s, t), t).SawDoomed? {
      RunConcat(s, CallSteps(t, read), CallSteps(t, write));
      OneCall(ReadForTeardown(s, t), t, write);
    }
  }

  lemma AbortIsRejected(t: Tenant)
    ensures [Abort(t)] == CallSteps(t, Rejected) && [Worker(t, false)] == CallSteps(t, Served)
    ensures [Worker(t, false), Abort(t)] == CallSteps(t, ReplyLost)
  {
  }

  /** The whole reconcile in terms of its parts. */
  lemma ReconcileInCalls(s: State, t: Tenant, calls: Calls)
    requires s.workers == map[] && calls.get == Served && t in s.clusters
    ensures var tc := s.clusters[t];
            var s' := Run(s, StepsOf(s, t, calls));
            if tc.deleting then
              if !tc.finalizer then s' == s
              else
                var start := At(s, t, TearingDown);
                var s1 := Run(start, TeardownSteps(start, t, calls.mark, calls.read, calls.write));
                s'.(workers := map[]) == (if WorkerOf(s1, t) == Releasing && calls.write != Rejected then Release(s1, t, false) else s1).(workers := map[])
            else if !tc.finalizer && calls.mark == Rejected then s' == s
            else
              var start := Begin(s, t, false);
              s'.(workers := map[]) == (if (!tc.finalizer && calls.mark == ReplyLost) || !calls.prepared then start
                                        else Run(start, EnsureSteps(t, calls.read, calls.write))).(workers := map[])
  {
    hide Run, TeardownSteps, EnsureSteps, CallSteps, ControlPlaneNamespace, ReadForTeardown, ReadForEnsure;
    AbortIsRejected(t);
    NoSteps(s);
    OneCall(s, t, Served);
    OneCall(s, t, ReplyLost);
    var tc := s.clusters[t];
    if tc.deleting && tc.finalizer {
      var start := At(s, t, TearingDown);
      var steps := TeardownSteps(start, t, calls.mark, calls.read, calls.write);
      RunConcat(s, [Worker(t, false)], steps);
      RunConcat(s, [Worker(t, false)] + steps, CallSteps(t, calls.write));
      OneCall(Run(start, steps), t, calls.write);
    } else if !tc.deleting {
      OneConflict(s, t);
      RunConcat(s, [Worker(t, false)], EnsureSteps(t, calls.read, calls.write));
    }
  }

  lemma OneConflict(s: State, t: Tenant)
    ensures Run(s, [Worker(t, true)]) == Work(s, t, true)
  {
    hide Work;
    assert [Worker(t, true)][1..] == [];
  }

  function Without(m: map<string, string>, keys: set<string>): map<string, string> {
    map k | k in m && k !in keys :: m[k]
  }

  predicate Differs(existing: map<string, string>, desired: map<string, string>, k: string)
    requires k in desired
  {
    (if k in existing then existing[k] else "") != desired[k]
  }

  lemma OneMoreDiffers(existing: map<string, string>, desired: map<string, string>, left: set<string>, k: string)
    requires k in left && k in desired
    ensures var w, w' := Without(desired, left), Without(desired, left - {k});
            && k !in Differing(existing, w)
            && Differing(existing, w') == if Differs(existing, desired, k) then Differing(existing, w)[k := desired[k]] else Differing(existing, w)
  {
    var w, w' := Without(desired, left), Without(desired, left - {k});
    assert w' == w[k := desired[k]] && k !in w;
  }

  lemma OneMoreLabel(existing: map<string, string>, desired: map<string, string>, left: set<string>, k: string)
    requires k in left && k in desired
    ensures var before, after := Converge(existing, Without(desired, left)), Converge(existing, Without(desired, left - {k}));
            && (k in before <==> k in existing) && (k in existing ==> before[k] == existing[k])
            && after == if Differs(existing, desired, k) then before[k := desired[k]] else before
  {
    hide Without, Differing;
    OneMoreDiffers(existing, desired, left, k);
  }

  class Reconciler {
    var clusters: map<Tenant, TenantCluster>
    var namespaces: map<string, Namespace>
    var acts: seq<Act>

    function View(): State
      reads this
    {
      State(clusters, namespaces, map[], acts)
    }

    constructor (s: State)
      requires s.workers == map[]
      ensures View() == s
    {
      clusters, namespaces, acts := s.clusters, s.namespaces, s.acts;
    }

    /** Its name is taken by a namespace that carries the tenant's three labels. */
    predicate Owns(t: Tenant)
      reads this
    {
      ControlPlaneNamespace(t) in namespaces && Marked(namespaces[ControlPlaneNamespace(t)].labels, t)
    }

    /** Its name is taken by a namespace that does not. */
    predicate Obstructed(t: Tenant)
      reads this
    {
      ControlPlaneNamespace(t) in namespaces && !Marked(namespaces[ControlPlaneNamespace(t)].labels, t)
    }

    /** The tenant's namespace is there with all its labels; others it had stay. */
    twostate predicate Provisioned(t: Tenant)
      reads this
    {
      var name := ControlPlaneNamespace(t);
      && name in namespaces
      && (if name in old(namespaces)
          then Shaped(old(namespaces)[name].labels, namespaces[name].labels, t) && namespaces[name].terminating == old(namespaces)[name].terminating
          else Shaped(map[], namespaces[name].labels, t) && !namespaces[name].terminating)
    }

    /** The tenant's namespace is on its way out, and no other is touched. */
    twostate predicate Doomed(t: Tenant)
      reads this
    {
      var name := ControlPlaneNamespace(t);
      name in old(namespaces) && namespaces == old(namespaces)[name := old(namespaces)[name].(terminating := true)]
    }

    /** namespace.go:68-97; false when it returns an error. */
    method EnsureControlPlaneNamespace(t: Tenant, read: Fault, write: Fault) returns (ok: bool)
      modifies this`namespaces, this`acts
      ensures View() == Run(At(old(View()), t, Provisioning), EnsureSteps(t, read, write)).(workers := map[])
      ensures ok ==> OwnsNamespace(View(), t)
      ensures read == write == Served ==> (ok <==> OwnsNamespace(View(), t))
      ensures old(Obstructed(t)) ==> !ok && namespaces == old(namespaces)
      ensures !old(Obstructed(t)) && read == write == Served ==> ok && Provisioned(t)
      ensures forall n :: n != ControlPlaneNamespace(t) ==> SameAt(old(namespaces), namespaces, n)
    {
      hide HostName, LabelOf, Run, EnsureSteps, Work, OwnedBy, Marked, Shaped, Converge, DesiredLabels;
      ghost var start := At(View(), t, Provisioning);
      EnsureInCalls(start, t, read, write);
      var name := ControlPlaneNamespace(t);
      var desired := DesiredLabels(t);
      DesiredIsOwned(t, map[], false);
      if read != Served {
        return false;
      }
      if name !in namespaces {
        DesiredByName(t);
        if write != Rejected {
          namespaces := namespaces[name := Namespace(desired, false)];
        }
        return write == Served;
      }
      var existing := namespaces[name];
      OwnedMeansMarked(existing, t);
      if !OwnedBy(existing, t) {
        return false;
      }
      DesiredIsOwned(t, existing.labels, existing.terminating);
      ConvergeShapes(existing.labels, t);
      var labels, changed := ConvergeLabels(existing.labels, desired);
      if changed {
        var written := existing.(labels := labels);
        if write != Rejected {
          namespaces := namespaces[name := written];
          acts := acts + [Updated(t, existing, written)];
        }
        return write == Served;
      }
      ok := true;
    }

    /** The loop of namespace.go:83-92. */
    static method ConvergeLabels(existing: map<string, string>, desired: map<string, string>)
      returns (labels: map<string, string>, changed: bool)
      ensures labels == Converge(existing, desired) && (changed <==> labels != existing)
    {
      labels, changed := existing, false;
      var left := desired.Keys;
      while left != {}
        invariant left <= desired.Keys
        invariant labels == Converge(existing, Without(desired, left))
        invariant changed <==> labels != existing
        decreases left
      {
        var k :| k in left;
        OneMoreLabel(existing, desired, left, k);
        if (if k in labels then labels[k] else "") != desired[k] {
          labels := labels[k := desired[k]];
          changed := true;
        }
        left := left - {k};
      }
      assert Without(desired, left) == desired;
    }

    /** namespace.go:103-127: true when the finalizer may be released. */
    method TeardownNamespace(t: Tenant, binding: Fault, read: Fault, write: Fault) returns (done: bool)
      modifies this`namespaces, this`acts
      ensures var start := At(old(View()), t, TearingDown);
              var s := Run(start, TeardownSteps(start, t, binding, read, write));
              View() == s.(workers := map[]) && (done <==> WorkerOf(s, t) == Releasing)
      ensures done ==> !OwnsNamespace(View(), t)
      ensures binding == read == Served ==> (done <==> !old(Owns(t)))
      ensures !old(Owns(t)) ==> namespaces == old(namespaces)
      ensures old(Owns(t)) && binding == read == write == Served ==> Doomed(t)
      ensures forall n :: n != ControlPlaneNamespace(t) ==> SameAt(old(namespaces), namespaces, n)
    {
      hide HostName, OwnedBy, Marked, Run, TeardownSteps;
      ghost var start := At(View(), t, TearingDown);
      TeardownInCalls(start, t, binding, read, write);
      if binding != Served || read != Served {
        return false;
      }
      var name := ControlPlaneNamespace(t);
      if name !in namespaces {
        return true;
      }
      var ns := namespaces[name];
      OwnedMeansMarked(ns, t);
      if !OwnedBy(ns, t) {
        return true;
      }
      if !ns.terminating && write != Rejected {
        namespaces := namespaces[name := ns.(terminating := true)];
        acts := acts + [Deleted(t, ns)];
      }
      done := false;
    }

    /** tenantcluster_controller.go:47-79 and :129. */
    method Reconcile(t: Tenant, calls: Calls)
      modifies this
      ensures View() == Run(old(View()), StepsOf(old(View()), t, calls)).(workers := map[])
      ensures t in old(clusters) && calls.get == calls.mark == calls.read == calls.write == Served && calls.prepared ==>
                var tc := old(clusters)[t];
                if !tc.deleting then
                  && clusters == old(clusters)[t := TenantCluster(true, false)]
                  && (if old(Obstructed(t)) then namespaces == old(namespaces) else Provisioned(t))
                else if !tc.finalizer then clusters == old(clusters) && namespaces == old(namespaces)
                else if old(Owns(t)) then clusters == old(clusters) && Doomed(t)
                else clusters == old(clusters) - {t} && namespaces == old(namespaces)
      ensures t !in old(clusters) ==> View() == old(View())
      ensures forall u :: u != t ==> SameAt(old(clusters), clusters, u)
      ensures forall n :: n != ControlPlaneNamespace(t) ==> SameAt(old(namespaces), namespaces, n)
    {
      hide HostName, OwnedBy, Marked, Shaped, DesiredLabels, ControlPlaneNamespace, Run, TeardownSteps, EnsureSteps, CallSteps;
      ghost var s := View();
      if calls.get != Served || t !in clusters {
        NoSteps(s);
        return;
      }
      var tc := clusters[t];
      ReconcileInCalls(s, t, calls);
      if tc.deleting {
        if !tc.finalizer {
          return;
        }
        var done := TeardownNamespace(t, calls.mark, calls.read, calls.write);
        if done && calls.write != Rejected {
          clusters := clusters - {t};
        }
        return;
      }
      if !tc.finalizer {
        if calls.mark != Rejected {
          clusters := clusters[t := tc.(finalizer := true)];
        }
        if calls.mark != Served {
          return;
        }
      }
      if !calls.prepared {
        return;
      }
      var ok := EnsureControlPlaneNamespace(t, calls.read, calls.write);
    }
  }
}
