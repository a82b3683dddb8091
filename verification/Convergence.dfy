/** Convergence with a measure: each pass over a calm world pays off as much of what
    is left to do as its grants allow, under every policy. Without a winner, what is
    left to do does not include standoffs. */
module Convergence {
  import opened Calm
  import opened CalmPass
  import opened Cluster
  import opened Conservation
  import opened Engine
  import HostNames
  import opened Objects
  import opened PassSafety
  import opened Safety
  import Transform
  import opened Wrappers

  /** Directions that compare before they write. */
  predicate Compares(res: Resource) {
    res.kind != "Pod" && (res.direction == FromHost || res.direction == Bidirectional)
  }

  /** Neither side is declared the winner. */
  predicate NoWinner(res: Resource, policy: Policy) {
    res.direction == Bidirectional && policy == Manual
  }

  /** Exactly one side has moved since this baseline. */
  predicate OneMoved(b: Option<Converged>, o: Object, e: Object) {
    match b
    case None => false
    case Some(c) => (o.meta.version != c.tenantVersion) != (e.meta.version != c.hostVersion)
  }

  /** The mirror is missing, or is this object's own and disagrees with it; without a
      winner, only if exactly one side has moved. */
  ghost predicate NeedsWrite(cfg: Config, res: Resource, policy: Policy, w: World, o: Object) {
    match w.host.Lookup(MirrorKey(cfg, res, o))
    case None => true
    case Some(e) =>
      && Ours(cfg, res, o, e) && !Transform.ContentEqual(o, e)
      && (NoWinner(res, policy) ==> OneMoved(Baseline(w.history, MirrorKey(cfg, res, o).name), o, e))
  }

  ghost predicate Pending(cfg: Config, res: Resource, policy: Policy, w: World, k: Key) {
    k in w.tenant.objects && Wanted(cfg, res, w.tenant.objects[k]) && NeedsWrite(cfg, res, policy, w, w.tenant.objects[k])
  }

  ghost function LiveNames(cfg: Config, res: Resource, tenant: Store): set<string> {
    set k | k in tenant.objects && Wanted(cfg, res, tenant.objects[k]) :: MirrorKey(cfg, res, tenant.objects[k]).name
  }

  ghost predicate IsOrphan(cfg: Config, res: Resource, w: World, k: Key) {
    k in w.host.objects && Labelled(cfg, res.kind, w.host.objects[k]) && k.name !in LiveNames(cfg, res, w.tenant)
  }

  /** What is left to do, by host name: missing mirrors, disagreeing pairs and
      orphans. */
  ghost function Todo(cfg: Config, res: Resource, policy: Policy, w: World): set<string> {
    (set k | k in w.tenant.objects && Pending(cfg, res, policy, w, k) :: MirrorKey(cfg, res, w.tenant.objects[k]).name)
    + (set k | k in w.host.objects && IsOrphan(cfg, res, w, k) :: k.name)
  }

  ghost predicate Ready(cfg: Config, res: Resource, policy: Policy, w: World) {
    && WellNamed(cfg) && IsCalm(w) && Compares(res)
    && (res.direction == Bidirectional && policy != HostWins ==>
          forall k :: Pending(cfg, res, policy, w, k) ==> Mirrors(w.tenant.objects[k]))
  }

  predicate SameIdentity(a: Object, b: Object) {
    a.meta.name == b.meta.name && a.meta.namespace == b.meta.namespace && a.Kind() == b.Kind()
  }

  lemma WantedByIdentity(cfg: Config, res: Resource, a: Object, b: Object)
    requires SameIdentity(a, b) && res.kind != "Pod"
    ensures Wanted(cfg, res, a) <==> Wanted(cfg, res, b)
    ensures MirrorKey(cfg, res, a) == MirrorKey(cfg, res, b) && RefFor(cfg, res.kind, a) == RefFor(cfg, res.kind, b)
  {
    hide HostNames.Explain, HostNames.HostName, Transform.Strip;
  }

  // ---- what a write mends ----

  /** The pair at `o` agrees now, and nothing else of either store has changed. */
  ghost predicate Mended(cfg: Config, res: Resource, w: World, w': World, o: Object) {
    var key, mirror := KeyOf(o), MirrorKey(cfg, res, o);
    && w'.tenant.objects.Keys == w.tenant.objects.Keys && key in w.tenant.objects
    && (forall k :: k in w.tenant.objects && k != key ==> w'.tenant.objects[k] == w.tenant.objects[k])
    && SameIdentity(o, w.tenant.objects[key]) && SameIdentity(o, w'.tenant.objects[key])
    && w'.host.objects.Keys == w.host.objects.Keys + {mirror}
    && (forall k :: k in w.host.objects && k != mirror ==> w'.host.objects[k] == w.host.objects[k])
    && Ours(cfg, res, o, w'.host.objects[mirror])
    && Transform.ContentEqual(w'.tenant.objects[key], w'.host.objects[mirror])
    && forall name :: name != mirror.name ==> Baseline(w'.history, name) == Baseline(w.history, name)
  }

  lemma MendedNames(cfg: Config, res: Resource, w: World, w': World, o: Object)
    requires Mended(cfg, res, w, w', o) && res.kind != "Pod"
    ensures LiveNames(cfg, res, w'.tenant) == LiveNames(cfg, res, w.tenant)
  {
    hide Wanted, Transform.ReverseLookup, Transform.ContentOf, HostNames.HostName;
    var key := KeyOf(o);
    WantedByIdentity(cfg, res, w.tenant.objects[key], o);
    WantedByIdentity(cfg, res, w'.tenant.objects[key], o);
  }

  /** Another object's pair is as pending as before, unless it maps to the mended
      name: there it is shut out by the mended mirror. */
  lemma MendedPending(cfg: Config, res: Resource, policy: Policy, w: World, w': World, o: Object, k: Key)
    requires Mended(cfg, res, w, w', o) && res.kind != "Pod" && w.tenant.Valid() && o.Kind() == res.kind
    requires k in w.tenant.objects
    ensures Pending(cfg, res, policy, w', k) <==> Pending(cfg, res, policy, w, k) && MirrorKey(cfg, res, w.tenant.objects[k]) != MirrorKey(cfg, res, o)
    ensures MirrorKey(cfg, res, w'.tenant.objects[k]) == MirrorKey(cfg, res, w.tenant.objects[k])
  {
    hide Transform.ReverseLookup, Transform.ContentOf, HostNames.HostName, Desired, Eligible;
    WantedByIdentity(cfg, res, w.tenant.objects[KeyOf(o)], o);
    WantedByIdentity(cfg, res, w'.tenant.objects[KeyOf(o)], o);
    assert KeyOf(w.tenant.objects[k]) == k;
  }

  /** A mended pair is off the list, and the list is otherwise the same. */
  lemma MendedTodo(cfg: Config, res: Resource, policy: Policy, w: World, w': World, o: Object)
    requires Mended(cfg, res, w, w', o) && res.kind != "Pod" && w.tenant.Valid() && o.Kind() == res.kind
    requires Wanted(cfg, res, o) && w.host.Valid()
    ensures Todo(cfg, res, policy, w') == Todo(cfg, res, policy, w) - {MirrorKey(cfg, res, o).name}
  {
    hide Transform.ReverseLookup, Transform.ContentOf, HostNames.HostName, Desired, Eligible, Pending, Labelled, Wanted;
    var n := MirrorKey(cfg, res, o).name;
    MendedNames(cfg, res, w, w', o);
    forall k | k in w.tenant.objects
      ensures Pending(cfg, res, policy, w', k) <==> Pending(cfg, res, policy, w, k) && MirrorKey(cfg, res, w.tenant.objects[k]) != MirrorKey(cfg, res, o)
      ensures MirrorKey(cfg, res, w'.tenant.objects[k]) == MirrorKey(cfg, res, w.tenant.objects[k])
    {
      MendedPending(cfg, res, policy, w, w', o, k);
    }
    assert n in LiveNames(cfg, res, w.tenant) by {
      WantedByIdentity(cfg, res, w.tenant.objects[KeyOf(o)], o);
    }
    OrphansElsewhere(cfg, res, w, w', o);
  }

  lemma OrphansElsewhere(cfg: Config, res: Resource, w: World, w': World, o: Object)
    requires Mended(cfg, res, w, w', o)
    requires LiveNames(cfg, res, w'.tenant) == LiveNames(cfg, res, w.tenant)
    requires MirrorKey(cfg, res, o).name in LiveNames(cfg, res, w.tenant)
    ensures forall k :: IsOrphan(cfg, res, w', k) <==> IsOrphan(cfg, res, w, k)
    ensures forall k :: IsOrphan(cfg, res, w, k) ==> k.name != MirrorKey(cfg, res, o).name
  {
    hide Transform.ReverseLookup, Transform.ContentOf, HostNames.HostName, Desired, Eligible, Labelled, Wanted;
  }

  // ---- one turn ----

  /** A turn writes exactly when there is something to do. */
  lemma VerdictNeeds(cfg: Config, res: Resource, policy: Policy, w: World, o: Object, mirror: Object)
    requires Compares(res) && KeyOf(mirror) == MirrorKey(cfg, res, o)
    ensures var found := w.host.Lookup(KeyOf(mirror));
            var verdict := Judge(cfg, res, policy, w.history, o, mirror, found);
            && (WantsWrite(verdict) <==> NeedsWrite(cfg, res, policy, w, o))
            && (verdict.MakeMirror? <==> found.None?)
            && (verdict.Push? ==> res.direction == Bidirectional && policy != HostWins)
            && (verdict.Pull? ==> found.Some? && Ours(cfg, res, o, found.value) && !TenantIsWinner(res, policy))
            && (verdict.Agree? ==> found.Some? && Ours(cfg, res, o, found.value) && Transform.ContentEqual(o, found.value))
  {
    hide Transform.ReverseLookup, Transform.ContentOf, HostNames.HostName, SameSource;
  }

  predicate TenantIsWinner(res: Resource, policy: Policy) {
    res.direction == Bidirectional && policy == TenantWins
  }

  /** The winner's side stands, if there is one: the whole tenant store, or every
      host object under a live name. */
  ghost predicate WinnerStands(cfg: Config, res: Resource, policy: Policy, w: World, w': World) {
    if NoWinner(res, policy) then true
    else if TenantIsWinner(res, policy) then w'.tenant == w.tenant
    else forall k :: k in w.host.objects && k.name in LiveNames(cfg, res, w.tenant) ==> w'.host.Lookup(k) == w.host.Lookup(k)
  }

  /** The stores, the names wanted and the debts between w and w'. */
  ghost predicate Advances(cfg: Config, res: Resource, policy: Policy, w: World, w': World) {
    && Ready(cfg, res, policy, w') && Todo(cfg, res, policy, w') <= Todo(cfg, res, policy, w) && WinnerStands(cfg, res, policy, w, w')
    && Paid(w, w', |Todo(cfg, res, policy, w)| - |Todo(cfg, res, policy, w')|)
    && w'.tenant.objects.Keys == w.tenant.objects.Keys
    && LiveNames(cfg, res, w'.tenant) == LiveNames(cfg, res, w.tenant)
    && (forall k :: Pending(cfg, res, policy, w', k) ==> Pending(cfg, res, policy, w, k))
    && (forall k :: IsOrphan(cfg, res, w', k) ==> IsOrphan(cfg, res, w, k))
    && (|w'.audit| == |w.audit| ==> w'.tenant == w.tenant && w'.host == w.host)
  }

  lemma AdvancesInTurn(cfg: Config, res: Resource, policy: Policy, a: World, b: World, c: World)
    requires Advances(cfg, res, policy, a, b) && Advances(cfg, res, policy, b, c)
    ensures Advances(cfg, res, policy, a, c)
  {
    hide Ready, Todo, LiveNames, Pending, IsOrphan;
    PaidInTurn(a, b, c, |Todo(cfg, res, policy, a)| - |Todo(cfg, res, policy, b)|, |Todo(cfg, res, policy, b)| - |Todo(cfg, res, policy, c)|);
  }

  ghost predicate SameDebts(cfg: Config, res: Resource, policy: Policy, w: World, w': World) {
    forall k :: Pending(cfg, res, policy, w', k) <==> Pending(cfg, res, policy, w, k)
  }

  lemma SameHistorySameDebts(cfg: Config, res: Resource, policy: Policy, w: World, w': World)
    requires w'.tenant.objects == w.tenant.objects && w'.host.objects == w.host.objects && w'.history == w.history
    ensures SameDebts(cfg, res, policy, w, w')
  {
    hide Wanted, HostNames.HostName, Transform.ReverseLookup, Transform.ContentOf;
  }

  /** Renewing the baseline of a pair that agrees concerns no other. */
  lemma AgreeingKeepsDebts(cfg: Config, res: Resource, policy: Policy, w: World, w': World, o: Object, e: Object)
    requires w'.tenant == w.tenant && w'.host == w.host && w.tenant.Valid() && w.tenant.Lookup(KeyOf(o)) == Some(o) && o.Kind() == res.kind
    requires w.host.Lookup(MirrorKey(cfg, res, o)) == Some(e) && Ours(cfg, res, o, e) && Transform.ContentEqual(o, e)
    requires forall name :: name != MirrorKey(cfg, res, o).name ==> Baseline(w'.history, name) == Baseline(w.history, name)
    ensures SameDebts(cfg, res, policy, w, w')
  {
    hide Desired, Eligible, HostNames.HostName, Transform.ReverseLookup, Transform.ContentOf;
    forall k | k in w.tenant.objects
      ensures Pending(cfg, res, policy, w', k) <==> Pending(cfg, res, policy, w, k)
    {
      assert KeyOf(w.tenant.objects[k]) == k;
    }
  }

  lemma DeniedKeepsHistory(cfg: Config, res: Resource, policy: Policy, w: World, o: Object, host: Object)
    requires IsCalm(w) && w.limiter == Some(0)
    requires WantsWrite(Judge(cfg, res, policy, w.history, o, host, w.host.Lookup(KeyOf(host))))
    ensures Reconcile(cfg, res, policy, w, o, host).0.history == w.history
  {
    hide Judge, Submit, CallFor, Report, RefFor;
    CalmAwait(w);
    JudgeFindsNothing(cfg, res, policy, w.history, o, host, w.host.Lookup(KeyOf(host)));
  }

  lemma IdleAdvances(cfg: Config, res: Resource, policy: Policy, w: World, w': World)
    requires Ready(cfg, res, policy, w) && IsCalm(w')
    requires w'.tenant == w.tenant && w'.host == w.host && w'.limiter == w.limiter && w'.audit == w.audit
    requires SameDebts(cfg, res, policy, w, w')
    ensures Advances(cfg, res, policy, w, w')
  {
    hide Wanted, Labelled, NeedsWrite, HostNames.HostName;
    SameStoresSameTodo(cfg, res, policy, w, w');
  }

  lemma SameStoresSameTodo(cfg: Config, res: Resource, policy: Policy, w: World, w': World)
    requires w'.tenant.objects == w.tenant.objects && w'.host.objects == w.host.objects && SameDebts(cfg, res, policy, w, w')
    ensures Todo(cfg, res, policy, w') == Todo(cfg, res, policy, w)
    ensures LiveNames(cfg, res, w'.tenant) == LiveNames(cfg, res, w.tenant)
    ensures forall k :: (Pending(cfg, res, policy, w', k) <==> Pending(cfg, res, policy, w, k)) && (IsOrphan(cfg, res, w', k) <==> IsOrphan(cfg, res, w, k))
  {
    hide Wanted, Labelled, HostNames.HostName, Transform.ReverseLookup, Transform.ContentOf;
  }

  lemma WriteMends(cfg: Config, res: Resource, w: World, w': World, outcome: Outcome, o: Object, verdict: Verdict)
    requires WellNamed(cfg) && Compares(res) && w.tenant.Lookup(KeyOf(o)) == Some(o) && Wanted(cfg, res, o) && w.limiter != Some(0)
    requires PairEffect(cfg, res, w, w', outcome, o, Desired(cfg, res, o).value, verdict) && WantsWrite(verdict)
    requires verdict.Push? ==> Mirrors(o)
    requires verdict.Pull? ==> w.host.Lookup(MirrorKey(cfg, res, o)).Some? && Ours(cfg, res, o, w.host.objects[MirrorKey(cfg, res, o)])
    ensures Mended(cfg, res, w, w', o)
  {
    hide Desired, Eligible, HostNames.HostName, Transform.ReverseLookup, Transform.ContentOf, IsCalm, Mirrors;
    DesiredKey(cfg, res, o);
    DesiredIsOurs(cfg, res, o);
    if !verdict.Pull? {
      StampedView(Desired(cfg, res, o).value, w'.host.objects[MirrorKey(cfg, res, o)]);
    }
  }

  lemma PendingMirrors(cfg: Config, res: Resource, policy: Policy, w: World, o: Object)
    requires Ready(cfg, res, policy, w) && w.tenant.Lookup(KeyOf(o)) == Some(o) && Wanted(cfg, res, o) && NeedsWrite(cfg, res, policy, w, o)
    ensures res.direction == Bidirectional && policy != HostWins ==> Mirrors(o)
  {
    hide Wanted, NeedsWrite, Mirrors, IsCalm;
    assert Pending(cfg, res, policy, w, KeyOf(o));
  }

  lemma WriteSparesWinner(cfg: Config, res: Resource, policy: Policy, w: World, w': World, outcome: Outcome, o: Object, verdict: Verdict)
    requires Desired(cfg, res, o).Success? && PairEffect(cfg, res, w, w', outcome, o, Desired(cfg, res, o).value, verdict)
    requires verdict.MakeMirror? ==> KeyOf(Desired(cfg, res, o).value) !in w.host.objects
    requires verdict.Push? ==> TenantIsWinner(res, policy) || NoWinner(res, policy)
    requires verdict.Pull? ==> !TenantIsWinner(res, policy)
    ensures WinnerStands(cfg, res, policy, w, w')
  {
    hide Desired, LiveNames, IsCalm, Paid, Comparable, Mirrors;
  }

  lemma MendingPaysOff(cfg: Config, res: Resource, policy: Policy, w: World, w': World, o: Object)
    requires w.tenant.Valid() && w.host.Valid() && w.tenant.Lookup(KeyOf(o)) == Some(o) && Wanted(cfg, res, o)
    requires NeedsWrite(cfg, res, policy, w, o) && Mended(cfg, res, w, w', o) && res.kind != "Pod" && o.Kind() == res.kind
    ensures Todo(cfg, res, policy, w') <= Todo(cfg, res, policy, w) && |Todo(cfg, res, policy, w)| - |Todo(cfg, res, policy, w')| == 1
    ensures LiveNames(cfg, res, w'.tenant) == LiveNames(cfg, res, w.tenant)
    ensures forall k :: Pending(cfg, res, policy, w', k) ==> Pending(cfg, res, policy, w, k)
    ensures forall k :: IsOrphan(cfg, res, w', k) ==> IsOrphan(cfg, res, w, k)
    ensures !Pending(cfg, res, policy, w', KeyOf(o))
  {
    hide HostNames.HostName, Transform.ReverseLookup, Transform.ContentOf, Labelled, Wanted, MirrorKey, NeedsWrite, Mended, IsOrphan;
    MendedTodo(cfg, res, policy, w, w', o);
    MendedNames(cfg, res, w, w', o);
    assert w'.tenant.objects.Keys == w.tenant.objects.Keys by { MendedKeys(cfg, res, w, w', o); }
    forall k | k in w.tenant.objects
      ensures Pending(cfg, res, policy, w', k) ==> Pending(cfg, res, policy, w, k)
      ensures k == KeyOf(o) ==> !Pending(cfg, res, policy, w', k)
    {
      MendedPending(cfg, res, policy, w, w', o, k);
    }
    var n := MirrorKey(cfg, res, o).name;
    assert n in LiveNames(cfg, res, w.tenant);
    OrphansElsewhere(cfg, res, w, w', o);
    assert Pending(cfg, res, policy, w, KeyOf(o)) && n in Todo(cfg, res, policy, w);
  }

  lemma MendedKeys(cfg: Config, res: Resource, w: World, w': World, o: Object)
    requires Mended(cfg, res, w, w', o)
    ensures w'.tenant.objects.Keys == w.tenant.objects.Keys
  {
  }

  lemma MendingAdvances(cfg: Config, res: Resource, policy: Policy, w: World, w': World, o: Object)
    requires Ready(cfg, res, policy, w) && w.tenant.Lookup(KeyOf(o)) == Some(o) && Wanted(cfg, res, o) && o.Kind() == res.kind
    requires NeedsWrite(cfg, res, policy, w, o) && Mended(cfg, res, w, w', o) && IsCalm(w') && Paid(w, w', 1)
    requires WinnerStands(cfg, res, policy, w, w')
    ensures Advances(cfg, res, policy, w, w') && !Pending(cfg, res, policy, w', KeyOf(o))
  {
    hide Ready, Wanted, MirrorKey, NeedsWrite, Mended, IsOrphan, Pending, IsCalm, LiveNames, Todo, WinnerStands;
    ReadyParts(cfg, res, policy, w);
    CalmStores(w);
    MendingPaysOff(cfg, res, policy, w, w', o);
    MendedKeys(cfg, res, w, w', o);
    MendedOthers(cfg, res, w, w', o);
    PendingIsThere(cfg, res, policy, w);
    StaysReady(cfg, res, policy, w, w');
  }

  lemma MendedOthers(cfg: Config, res: Resource, w: World, w': World, o: Object)
    requires Mended(cfg, res, w, w', o)
    ensures forall k :: k in w.tenant.objects && k != KeyOf(o) ==> w'.tenant.objects[k] == w.tenant.objects[k]
  {
  }

  lemma StaysReady(cfg: Config, res: Resource, policy: Policy, w: World, w': World)
    requires Ready(cfg, res, policy, w) && IsCalm(w')
    requires forall k :: Pending(cfg, res, policy, w', k) ==> Pending(cfg, res, policy, w, k) && w'.tenant.objects[k] == w.tenant.objects[k]
    ensures Ready(cfg, res, policy, w')
  {
    hide Pending, Mirrors;
  }

  /** One listed object's turn: what it wrote it took off the list, and unless the
      grants ran out its pair is done. */
  lemma ItemAdvances(cfg: Config, res: Resource, policy: Policy, t: Tally, o: Object)
    requires Ready(cfg, res, policy, t.w) && t.w.tenant.Lookup(KeyOf(o)) == Some(o) && o.Kind() == res.kind
    ensures var t' := RunItem(cfg, res, policy, t, o);
            && Advances(cfg, res, policy, t.w, t'.w)
            && (t'.w.limiter == Some(0) || !Pending(cfg, res, policy, t'.w, KeyOf(o)))
            && Writes(t'.decisions) - Writes(t.decisions) == |t'.w.audit| - |t.w.audit|
  {
    hide Advances, Ready, Reconcile, Desired, Eligible, Judge, HostNames.HostName, PairEffect;
    assert WellNamed(cfg) && IsCalm(t.w) && Compares(res) by { ReadyParts(cfg, res, policy, t.w); }
    if !Wanted(cfg, res, o) {
      SameHistorySameDebts(cfg, res, policy, t.w, t.w);
      IdleAdvances(cfg, res, policy, t.w, t.w);
    } else {
      WantedItemAdvances(cfg, res, policy, t.w, o);
      var outcome := Reconcile(cfg, res, policy, t.w, o, Desired(cfg, res, o).value).1;
      OneMoreDecision(t.decisions, outcome.value);
    }
  }

  lemma ReadyParts(cfg: Config, res: Resource, policy: Policy, w: World)
    requires Ready(cfg, res, policy, w)
    ensures WellNamed(cfg) && IsCalm(w) && Compares(res)
  {
  }

  lemma WantedItemAdvances(cfg: Config, res: Resource, policy: Policy, w: World, o: Object)
    requires Ready(cfg, res, policy, w) && w.tenant.Lookup(KeyOf(o)) == Some(o) && Wanted(cfg, res, o)
    ensures var (w', outcome) := Reconcile(cfg, res, policy, w, o, Desired(cfg, res, o).value);
            && Advances(cfg, res, policy, w, w') && outcome.Success?
            && (w'.limiter == Some(0) || !Pending(cfg, res, policy, w', KeyOf(o)))
            && (|w'.audit| - |w.audit| == if outcome.value.action == SkipAction then 0 else 1)
  {
    hide Advances, Reconcile, Desired, Eligible, Judge, HostNames.HostName, Transform.ReverseLookup, Transform.ContentOf, IsCalm, Replaced, Mirrors;
    var host := Desired(cfg, res, o).value;
    var (w', outcome) := Reconcile(cfg, res, policy, w, o, host);
    CalmReconcile(cfg, res, policy, w, o);
    DesiredKey(cfg, res, o);
    VerdictNeeds(cfg, res, policy, w, o, host);
    var verdict := Judge(cfg, res, policy, w.history, o, host, w.host.Lookup(KeyOf(host)));
    if WantsWrite(verdict) && w.limiter != Some(0) {
      PendingMirrors(cfg, res, policy, w, o);
      WriteMends(cfg, res, w, w', outcome, o, verdict);
      WriteSparesWinner(cfg, res, policy, w, w', outcome, o, verdict);
      MendingAdvances(cfg, res, policy, w, w', o);
    } else {
      IdleTurn(cfg, res, policy, w, o);
      IdleAdvances(cfg, res, policy, w, w');
    }
  }

  /** A turn that writes nothing leaves all debts as they are. */
  lemma IdleTurn(cfg: Config, res: Resource, policy: Policy, w: World, o: Object)
    requires Ready(cfg, res, policy, w) && w.tenant.Lookup(KeyOf(o)) == Some(o) && Wanted(cfg, res, o)
    requires !WantsWrite(Judge(cfg, res, policy, w.history, o, Desired(cfg, res, o).value, w.host.Lookup(MirrorKey(cfg, res, o)))) || w.limiter == Some(0)
    ensures SameDebts(cfg, res, policy, w, Reconcile(cfg, res, policy, w, o, Desired(cfg, res, o).value).0)
  {
    hide Reconcile, Desired, Eligible, Judge, HostNames.HostName, Transform.ReverseLookup, Transform.ContentOf, IsCalm, Replaced, Mirrors, SameDebts, NeedsWrite;
    var host := Desired(cfg, res, o).value;
    var w' := Reconcile(cfg, res, policy, w, o, host).0;
    CalmReconcile(cfg, res, policy, w, o);
    DesiredKey(cfg, res, o);
    VerdictNeeds(cfg, res, policy, w, o, host);
    var verdict := Judge(cfg, res, policy, w.history, o, host, w.host.Lookup(KeyOf(host)));
    if verdict.Agree? {
      CalmStores(w);
      AgreeingKeepsDebts(cfg, res, policy, w, w', o, w.host.objects[KeyOf(host)]);
    } else {
      if WantsWrite(verdict) {
        DeniedKeepsHistory(cfg, res, policy, w, o, host);
      }
      SameBaselinesSameDebts(cfg, res, policy, w, w');
    }
  }

  lemma SameBaselinesSameDebts(cfg: Config, res: Resource, policy: Policy, w: World, w': World)
    requires w'.tenant == w.tenant && w'.host == w.host
    requires forall name :: Baseline(w'.history, name) == Baseline(w.history, name)
    ensures SameDebts(cfg, res, policy, w, w')
  {
    hide Wanted, HostNames.HostName, Transform.ReverseLookup, Transform.ContentOf;
  }

  // ---- the loops ----

  predicate OutOfGrants(w: World) {
    w.limiter == Some(0)
  }

  lemma {:induction false} ItemsAdvance(cfg: Config, res: Resource, policy: Policy, t: Tally, items: seq<Object>)
    requires Ready(cfg, res, policy, t.w) && AllLive(t.w.tenant, res.kind, items)
    ensures var t' := RunItems(cfg, res, policy, t, items);
            && Advances(cfg, res, policy, t.w, t'.w)
            && (OutOfGrants(t'.w) || forall i :: 0 <= i < |items| ==> !Pending(cfg, res, policy, t'.w, KeyOf(items[i])))
            && Writes(t'.decisions) - Writes(t.decisions) == |t'.w.audit| - |t.w.audit|
    decreases |items|
  {
    hide Ready, RunItem, Todo, LiveNames, Pending, IsOrphan, Writes, IsCalm;
    ReadyParts(cfg, res, policy, t.w);
    if items == [] {
      SameHistorySameDebts(cfg, res, policy, t.w, t.w);
      IdleAdvances(cfg, res, policy, t.w, t.w);
    } else {
      var t' := RunItem(cfg, res, policy, t, items[0]);
      ItemAdvances(cfg, res, policy, t, items[0]);
      RestStaysLive(cfg, res, policy, t, items);
      ItemsAdvance(cfg, res, policy, t', items[1..]);
      var t'' := RunItems(cfg, res, policy, t', items[1..]);
      AdvancesInTurn(cfg, res, policy, t.w, t'.w, t''.w);
      assert OutOfGrants(t'.w) ==> OutOfGrants(t''.w);
    }
  }

  lemma DeleteLeavesPairs(cfg: Config, res: Resource, policy: Policy, w: World, w': World, key: Key)
    requires key.name !in LiveNames(cfg, res, w.tenant)
    requires w'.tenant == w.tenant && w'.host.objects == w.host.objects - {key} && w'.history == w.history
    ensures forall k :: Pending(cfg, res, policy, w', k) <==> Pending(cfg, res, policy, w, k)
    ensures forall k :: Pending(cfg, res, policy, w, k) ==> MirrorKey(cfg, res, w.tenant.objects[k]).name != key.name
  {
    hide HostNames.HostName, Transform.ReverseLookup, Transform.ContentOf, Wanted;
    forall k | k in w.tenant.objects && Wanted(cfg, res, w.tenant.objects[k])
      ensures MirrorKey(cfg, res, w.tenant.objects[k]).name in LiveNames(cfg, res, w.tenant)
    {
    }
  }

  lemma OrphanNamesAreUnique(cfg: Config, res: Resource, w: World, key: Key, k: Key)
    requires w.host.Valid() && IsOrphan(cfg, res, w, key) && IsOrphan(cfg, res, w, k) && k.name == key.name
    ensures k == key
  {
    hide LiveNames;
    assert KeyOf(w.host.objects[k]) == k && KeyOf(w.host.objects[key]) == key;
  }

  lemma OrphansWithout(cfg: Config, res: Resource, policy: Policy, w: World, w': World, key: Key)
    requires w.host.Valid() && IsOrphan(cfg, res, w, key)
    requires w'.tenant == w.tenant && w'.host.objects == w.host.objects - {key} && w'.history == w.history
    ensures forall k :: IsOrphan(cfg, res, w', k) <==> IsOrphan(cfg, res, w, k) && k != key
    ensures forall k :: IsOrphan(cfg, res, w, k) && k.name == key.name ==> k == key
    ensures key.name !in LiveNames(cfg, res, w.tenant) && key.name in Todo(cfg, res, policy, w)
  {
    hide MirrorKey, Labelled, Pending, LiveNames;
    forall k | IsOrphan(cfg, res, w, k) && k.name == key.name
      ensures k == key
    {
      OrphanNamesAreUnique(cfg, res, w, key, k);
    }
  }

  /** A deleted orphan is off the list, and the list is otherwise the same. */
  lemma DeletePaysOff(cfg: Config, res: Resource, policy: Policy, w: World, w': World, key: Key)
    requires w.host.Valid() && IsOrphan(cfg, res, w, key)
    requires w'.tenant == w.tenant && w'.host.objects == w.host.objects - {key} && w'.history == w.history
    ensures Todo(cfg, res, policy, w') <= Todo(cfg, res, policy, w) && |Todo(cfg, res, policy, w)| - |Todo(cfg, res, policy, w')| == 1
    ensures forall k :: Pending(cfg, res, policy, w', k) <==> Pending(cfg, res, policy, w, k)
    ensures forall k :: IsOrphan(cfg, res, w', k) <==> IsOrphan(cfg, res, w, k) && k != key
  {
    hide MirrorKey, Labelled, Pending, LiveNames, Todo, IsOrphan;
    OrphansWithout(cfg, res, policy, w, w', key);
    DeleteLeavesPairs(cfg, res, policy, w, w', key);
    TodoWithout(cfg, res, policy, w, w', key);
  }

  lemma TodoWithout(cfg: Config, res: Resource, policy: Policy, w: World, w': World, key: Key)
    requires w'.tenant == w.tenant && w'.host.objects == w.host.objects - {key} && w'.history == w.history
    requires forall k :: Pending(cfg, res, policy, w', k) <==> Pending(cfg, res, policy, w, k)
    requires forall k :: IsOrphan(cfg, res, w', k) <==> IsOrphan(cfg, res, w, k) && k != key
    requires forall k :: IsOrphan(cfg, res, w, k) && k.name == key.name ==> k == key
    requires forall k :: Pending(cfg, res, policy, w, k) ==> MirrorKey(cfg, res, w.tenant.objects[k]).name != key.name
    ensures Todo(cfg, res, policy, w') == Todo(cfg, res, policy, w) - {key.name}
  {
    hide Pending, IsOrphan, MirrorKey;
    assert forall k :: Pending(cfg, res, policy, w, k) ==> k in w.tenant.objects by { PendingIsThere(cfg, res, policy, w); }
  }

  lemma PendingIsThere(cfg: Config, res: Resource, policy: Policy, w: World)
    ensures forall k :: Pending(cfg, res, policy, w, k) ==> k in w.tenant.objects
    ensures forall k :: IsOrphan(cfg, res, w, k) ==> k in w.host.objects
  {
  }

  /** The host objects listed for collection, as they stand. */
  ghost predicate AllStanding(cfg: Config, kind: string, s: Store, hosts: seq<Object>) {
    && (forall i :: 0 <= i < |hosts| ==> Labelled(cfg, kind, hosts[i]) && s.Lookup(KeyOf(hosts[i])) == Some(hosts[i]))
    && (forall i, j :: 0 <= i < j < |hosts| ==> KeyOf(hosts[i]) != KeyOf(hosts[j]))
  }

  lemma CollectAdvances(cfg: Config, res: Resource, policy: Policy, t: Tally, o: Object)
    requires Ready(cfg, res, policy, t.w) && Labelled(cfg, res.kind, o) && t.w.host.Lookup(KeyOf(o)) == Some(o)
    requires t.desired == LiveNames(cfg, res, t.w.tenant)
    ensures var t' := CollectOne(res, policy, t, o);
            && Advances(cfg, res, policy, t.w, t'.w) && t'.desired == t.desired && t'.w.tenant == t.w.tenant
            && (OutOfGrants(t'.w) || !IsOrphan(cfg, res, t'.w, KeyOf(o)))
            && Writes(t'.decisions) - Writes(t.decisions) == |t'.w.audit| - |t.w.audit|
            && forall k :: k in t.w.host.objects && k != KeyOf(o) ==> t'.w.host.Lookup(k) == t.w.host.Lookup(k)
  {
    hide CollectOne, Wanted, Labelled, Pending, Writes, Todo, Mirrors, LiveNames;
    CalmCollectOne(res, policy, t, o);
    var w' := CollectOne(res, policy, t, o).w;
    if o.meta.name in t.desired || OutOfGrants(t.w) {
      CollectIdles(res, policy, t, o);
      SameHistorySameDebts(cfg, res, policy, t.w, w');
      IdleAdvances(cfg, res, policy, t.w, w');
    } else {
      DeletePaysOff(cfg, res, policy, t.w, w', KeyOf(o));
    }
  }

  lemma CollectIdles(res: Resource, policy: Policy, t: Tally, o: Object)
    requires o.meta.name in t.desired || t.w.limiter == Some(0)
    ensures CollectOne(res, policy, t, o).w == t.w
  {
  }

  lemma {:induction false} CollectionAdvances(cfg: Config, res: Resource, policy: Policy, t: Tally, hosts: seq<Object>)
    requires Ready(cfg, res, policy, t.w) && AllStanding(cfg, res.kind, t.w.host, hosts)
    requires t.desired == LiveNames(cfg, res, t.w.tenant)
    ensures var t' := CollectOrphans(res, policy, t, hosts);
            && Advances(cfg, res, policy, t.w, t'.w)
            && (OutOfGrants(t'.w) || forall i :: 0 <= i < |hosts| ==> !IsOrphan(cfg, res, t'.w, KeyOf(hosts[i])))
            && Writes(t'.decisions) - Writes(t.decisions) == |t'.w.audit| - |t.w.audit|
    decreases |hosts|
  {
    hide Ready, CollectOne, Todo, LiveNames, Pending, IsOrphan, Writes, Labelled;
    if hosts == [] {
      ReadyParts(cfg, res, policy, t.w);
      SameHistorySameDebts(cfg, res, policy, t.w, t.w);
      IdleAdvances(cfg, res, policy, t.w, t.w);
    } else {
      var t' := CollectOne(res, policy, t, hosts[0]);
      CollectAdvances(cfg, res, policy, t, hosts[0]);
      CollectionAdvances(cfg, res, policy, t', hosts[1..]);
      AdvancesInTurn(cfg, res, policy, t.w, t'.w, CollectOrphans(res, policy, t', hosts[1..]).w);
    }
  }

  // ---- whole passes ----

  /** After a pass, either the grants are spent or there is nothing left to do;
      every write took one thing off the list. */
  lemma PassAdvances(cfg: Config, res: Resource, policy: Policy, w: World, orders: Orders)
    requires Ready(cfg, res, policy, w) && Answered(cfg, res, policy, w, orders)
    ensures var r := SyncPass(cfg, res, policy, w, orders);
            && Advances(cfg, res, policy, w, r.w) && (OutOfGrants(r.w) || Todo(cfg, res, policy, r.w) == {})
            && Writes(r.decisions) == |r.w.audit| - |w.audit|
  {
    hide RunItems, CollectOrphans, Await, AskTenant, Advances, Ready, IsCalm, Wanted, HostNames.HostName, Labelled;
    ReadyParts(cfg, res, policy, w);
    CalmAwait(w);
    var w1 := AskTenant(w).0;
    StillAdvances(cfg, res, policy, w);
    var t0 := Tally(w1, [], [], {});
    ListedIsLive(w1.tenant, res.kind, orders.items);
    ItemsAdvance(cfg, res, policy, t0, orders.items);
    var t := RunItems(cfg, res, policy, t0, orders.items);
    AdvancesParts(cfg, res, policy, w1, t.w);
    CalmAwait(t.w);
    var w2 := Await(t.w).0;
    StillAdvances(cfg, res, policy, t.w);
    ItemsDesire(cfg, res, policy, t0, orders.items);
    ListedNames(cfg, res, w1.tenant, orders.items);
    HostsAreDistinct(cfg, res.kind, w2.host, orders.hosts);
    var g0 := Tally(w2, [], [], t.desired);
    CollectionAdvances(cfg, res, policy, g0, orders.hosts);
    var g := CollectOrphans(res, policy, g0, orders.hosts);
    AdvancesInTurn(cfg, res, policy, w, w1, t.w);
    AdvancesInTurn(cfg, res, policy, w, t.w, w2);
    AdvancesInTurn(cfg, res, policy, w, w2, g.w);
    WritesAdd(t.decisions, g.decisions);
    NothingLeft(cfg, res, policy, w1, t.w, w2, g.w, orders);
  }

  lemma StillAdvances(cfg: Config, res: Resource, policy: Policy, w: World)
    requires Ready(cfg, res, policy, w)
    ensures Advances(cfg, res, policy, w, Await(w).0) && Ready(cfg, res, policy, Await(w).0)
    ensures Advances(cfg, res, policy, w, AskTenant(w).0) && Ready(cfg, res, policy, AskTenant(w).0)
  {
    hide Wanted, Await, AskTenant, Todo, LiveNames, Pending, IsOrphan;
    CalmAwait(w);
    SameHistorySameDebts(cfg, res, policy, w, Await(w).0);
    SameHistorySameDebts(cfg, res, policy, w, AskTenant(w).0);
    IdleAdvances(cfg, res, policy, w, Await(w).0);
    IdleAdvances(cfg, res, policy, w, AskTenant(w).0);
  }

  lemma AdvancesParts(cfg: Config, res: Resource, policy: Policy, w: World, w': World)
    requires Advances(cfg, res, policy, w, w')
    ensures Ready(cfg, res, policy, w') && IsCalm(w') && LiveNames(cfg, res, w'.tenant) == LiveNames(cfg, res, w.tenant)
  {
  }

  lemma ListedNames(cfg: Config, res: Resource, s: Store, items: seq<Object>)
    requires s.Valid() && Lists(s, res.kind, items)
    ensures WantedNames(cfg, res, items) == LiveNames(cfg, res, s)
  {
    hide Desired, Eligible, HostNames.HostName;
    forall k | k in s.objects && Wanted(cfg, res, s.objects[k])
      ensures s.objects[k] in items
    {
      assert KeyOf(s.objects[k]) == k;
    }
  }

  lemma NothingLeft(cfg: Config, res: Resource, policy: Policy, w1: World, w: World, w2: World, w': World, orders: Orders)
    requires Advances(cfg, res, policy, w1, w) && Advances(cfg, res, policy, w, w2) && Advances(cfg, res, policy, w2, w')
    requires w1.tenant.Valid() && Lists(w1.tenant, res.kind, orders.items) && ListsLabelled(cfg, res.kind, w2.host, orders.hosts)
    requires w2.host.Valid()
    requires OutOfGrants(w) || forall i :: 0 <= i < |orders.items| ==> !Pending(cfg, res, policy, w, KeyOf(orders.items[i]))
    requires OutOfGrants(w') || forall i :: 0 <= i < |orders.hosts| ==> !IsOrphan(cfg, res, w', KeyOf(orders.hosts[i]))
    ensures OutOfGrants(w') || Todo(cfg, res, policy, w') == {}
  {
    hide Advances, Lists, ListsLabelled, Pending, IsOrphan, MirrorKey;
    if !OutOfGrants(w') {
      assert !OutOfGrants(w) && !OutOfGrants(w2) by { GrantsLast(cfg, res, policy, w2, w'); GrantsLast(cfg, res, policy, w, w2); }
      NoPairLeft(cfg, res, policy, w1, w, w2, w', orders.items);
      NoOrphanLeft(cfg, res, policy, w2, w', orders.hosts);
    }
  }

  lemma GrantsLast(cfg: Config, res: Resource, policy: Policy, w: World, w': World)
    requires Advances(cfg, res, policy, w, w') && !OutOfGrants(w')
    ensures !OutOfGrants(w)
  {
    hide Ready, Todo, LiveNames, Pending, IsOrphan;
  }

  lemma NoPairLeft(cfg: Config, res: Resource, policy: Policy, w1: World, w: World, w2: World, w': World, items: seq<Object>)
    requires Advances(cfg, res, policy, w1, w) && Advances(cfg, res, policy, w, w2) && Advances(cfg, res, policy, w2, w')
    requires w1.tenant.Valid() && Lists(w1.tenant, res.kind, items)
    requires forall i :: 0 <= i < |items| ==> !Pending(cfg, res, policy, w, KeyOf(items[i]))
    ensures forall k :: !Pending(cfg, res, policy, w', k)
  {
    hide Todo, LiveNames, IsOrphan, NeedsWrite, MirrorKey, Desired, Eligible;
    forall k | k in w1.tenant.objects && k.kind == res.kind
      ensures !Pending(cfg, res, policy, w, k)
    {
      var o := w1.tenant.objects[k];
      assert KeyOf(o) == k && o in items;
    }
    forall k
      ensures Pending(cfg, res, policy, w1, k) ==> k in w1.tenant.objects && k.kind == res.kind
    {
      assert k in w1.tenant.objects ==> KeyOf(w1.tenant.objects[k]) == k;
    }
  }

  lemma NoOrphanLeft(cfg: Config, res: Resource, policy: Policy, w2: World, w': World, hosts: seq<Object>)
    requires Advances(cfg, res, policy, w2, w') && w2.host.Valid() && ListsLabelled(cfg, res.kind, w2.host, hosts)
    requires forall i :: 0 <= i < |hosts| ==> !IsOrphan(cfg, res, w', KeyOf(hosts[i]))
    ensures forall k :: !IsOrphan(cfg, res, w', k)
  {
    hide Todo, LiveNames, Pending, Labelled;
    forall k | k in w2.host.objects && Labelled(cfg, res.kind, w2.host.objects[k])
      ensures !IsOrphan(cfg, res, w', k)
    {
      var o := w2.host.objects[k];
      assert KeyOf(o) == k && o in hosts;
    }
  }

  function Min(a: nat, b: nat): nat {
    if a < b then a else b
  }

  /** The measure falls by exactly the smaller of the grants and the measure. */
  lemma PassPaysMinimum(cfg: Config, res: Resource, policy: Policy, w: World, orders: Orders, grants: nat)
    requires Ready(cfg, res, policy, w) && Answered(cfg, res, policy, w, orders) && w.limiter == Some(grants)
    ensures var w' := SyncPass(cfg, res, policy, w, orders).w;
            && Ready(cfg, res, policy, w') && WinnerStands(cfg, res, policy, w, w')
            && |Todo(cfg, res, policy, w')| == |Todo(cfg, res, policy, w)| - Min(grants, |Todo(cfg, res, policy, w)|)
            && LiveNames(cfg, res, w'.tenant) == LiveNames(cfg, res, w.tenant)
  {
    hide SyncPass, Answered, Ready, Todo, LiveNames, Pending, IsOrphan, WinnerStands;
    PassAdvances(cfg, res, policy, w, orders);
  }

  function FundedPasses(cfg: Config, res: Resource, policy: Policy, w: World, grants: nat, passes: seq<Orders>): World
    decreases |passes|
  {
    if passes == [] then w
    else FundedPasses(cfg, res, policy, SyncPass(cfg, res, policy, w.(limiter := Some(grants)), passes[0]).w, grants, passes[1..])
  }

  ghost predicate FundedAnswered(cfg: Config, res: Resource, policy: Policy, w: World, grants: nat, passes: seq<Orders>)
    decreases |passes|
  {
    passes != [] ==>
      && Answered(cfg, res, policy, w.(limiter := Some(grants)), passes[0])
      && FundedAnswered(cfg, res, policy, SyncPass(cfg, res, policy, w.(limiter := Some(grants)), passes[0]).w, grants, passes[1..])
  }

  lemma FundingIsFree(cfg: Config, res: Resource, policy: Policy, w: World, limiter: Option<nat>)
    requires Ready(cfg, res, policy, w)
    ensures Ready(cfg, res, policy, w.(limiter := limiter)) && Todo(cfg, res, policy, w.(limiter := limiter)) == Todo(cfg, res, policy, w)
  {
    hide Wanted, Mirrors;
    SameHistorySameDebts(cfg, res, policy, w, w.(limiter := limiter));
    SameStoresSameTodo(cfg, res, policy, w, w.(limiter := limiter));
  }

  /** With some grants each, as many passes as it takes to cover the measure leave
      nothing to do, whatever the list orders and allocated values; and the
      winner's side, if there is one, comes through untouched. */
  lemma {:induction false} Converges(cfg: Config, res: Resource, policy: Policy, w: World, grants: nat, passes: seq<Orders>)
    requires Ready(cfg, res, policy, w) && FundedAnswered(cfg, res, policy, w, grants, passes)
    requires |passes| * grants >= |Todo(cfg, res, policy, w)|
    ensures var w' := FundedPasses(cfg, res, policy, w, grants, passes);
            Ready(cfg, res, policy, w') && Todo(cfg, res, policy, w') == {} && WinnerStands(cfg, res, policy, w, w')
    decreases |passes|
  {
    hide SyncPass, Answered, Ready, Todo, LiveNames;
    if passes != [] {
      var funded := w.(limiter := Some(grants));
      FundingIsFree(cfg, res, policy, w, Some(grants));
      PassPaysMinimum(cfg, res, policy, funded, passes[0], grants);
      var w' := SyncPass(cfg, res, policy, funded, passes[0]).w;
      assert (|passes| - 1) * grants == |passes| * grants - grants;
      Converges(cfg, res, policy, w', grants, passes[1..]);
    }
  }

  lemma {:induction false} NoWritesAllSkips(decisions: seq<Decision>)
    requires Writes(decisions) == 0
    ensures forall i :: 0 <= i < |decisions| ==> decisions[i].action == SkipAction
    decreases |decisions|
  {
    if decisions != [] {
      NoWritesAllSkips(decisions[..|decisions| - 1]);
    }
  }

  /** From then on every pass, with any budget, is all Skip and writes nothing. */
  lemma SettledStaysSettled(cfg: Config, res: Resource, policy: Policy, w: World, orders: Orders)
    requires Ready(cfg, res, policy, w) && Answered(cfg, res, policy, w, orders) && Todo(cfg, res, policy, w) == {}
    ensures var r := SyncPass(cfg, res, policy, w, orders);
            && r.w.tenant == w.tenant && r.w.host == w.host && r.w.audit == w.audit
            && (forall i :: 0 <= i < |r.decisions| ==> r.decisions[i].action == SkipAction)
            && Ready(cfg, res, policy, r.w) && Todo(cfg, res, policy, r.w) == {}
  {
    hide SyncPass, Answered, Ready, Todo, LiveNames, Pending, IsOrphan, Writes;
    PassAdvances(cfg, res, policy, w, orders);
    NoWritesAllSkips(SyncPass(cfg, res, policy, w, orders).decisions);
  }

  /** What "nothing to do" means: every wanted object has a mirror, which agrees
      with it unless it belongs to someone else, or there is no winner and not
      exactly one side has moved; and no labelled host object is left without a
      source. */
  lemma NothingToDoMeans(cfg: Config, res: Resource, policy: Policy, w: World)
    requires Todo(cfg, res, policy, w) == {}
    ensures forall k :: k in w.tenant.objects && Wanted(cfg, res, w.tenant.objects[k]) ==>
      var o := w.tenant.objects[k];
      && MirrorKey(cfg, res, o) in w.host.objects
      && var h := w.host.objects[MirrorKey(cfg, res, o)];
         Ours(cfg, res, o, h) ==>
           Transform.ContentEqual(o, h) || (NoWinner(res, policy) && !OneMoved(Baseline(w.history, MirrorKey(cfg, res, o).name), o, h))
    ensures forall k :: k in w.host.objects && Labelled(cfg, res.kind, w.host.objects[k]) ==> k.name in LiveNames(cfg, res, w.tenant)
  {
    hide Wanted, Labelled, HostNames.HostName, Transform.ContentOf, Transform.ReverseLookup;
    TodoLists(cfg, res, policy, w);
  }

  lemma TodoLists(cfg: Config, res: Resource, policy: Policy, w: World)
    ensures forall k :: k in w.tenant.objects && Pending(cfg, res, policy, w, k) ==> MirrorKey(cfg, res, w.tenant.objects[k]).name in Todo(cfg, res, policy, w)
    ensures forall k :: k in w.host.objects && IsOrphan(cfg, res, w, k) ==> k.name in Todo(cfg, res, policy, w)
  {
    hide Pending, IsOrphan, MirrorKey;
  }
}
