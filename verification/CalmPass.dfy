/** Passes over a calm world: what each listed object's turn leaves for the
    others, and what garbage collection is handed. */
module CalmPass {
  import opened Calm
  import opened Cluster
  import opened Conservation
  import opened Engine
  import opened Objects
  import opened Safety
  import Transform
  import opened Wrappers

  /** The items still stand in the store as they were listed. */
  ghost predicate AllLive(s: Store, kind: string, items: seq<Object>) {
    && (forall i :: 0 <= i < |items| ==> items[i].Kind() == kind && s.Lookup(KeyOf(items[i])) == Some(items[i]))
    && (forall i, j :: 0 <= i < j < |items| ==> KeyOf(items[i]) != KeyOf(items[j]))
  }

  lemma ListedIsLive(s: Store, kind: string, items: seq<Object>)
    requires Lists(s, kind, items)
    ensures AllLive(s, kind, items)
  {
  }

  lemma HostsAreDistinct(cfg: Config, kind: string, s: Store, hosts: seq<Object>)
    requires ListsLabelled(cfg, kind, s, hosts)
    ensures forall i :: 0 <= i < |hosts| ==> KeyOf(hosts[i]) in s.objects && s.objects[KeyOf(hosts[i])] == hosts[i]
    ensures forall i, j :: 0 <= i < j < |hosts| ==> KeyOf(hosts[i]) != KeyOf(hosts[j])
  {
    hide Labelled;
  }

  /** A turn rewrites at most its own tenant object. */
  lemma ItemRewritesItself(cfg: Config, res: Resource, policy: Policy, t: Tally, obj: Object)
    requires WellNamed(cfg) && IsCalm(t.w) && obj.Kind() == res.kind && t.w.tenant.Lookup(KeyOf(obj)) == Some(obj)
    ensures var w' := RunItem(cfg, res, policy, t, obj).w;
            && IsCalm(w') && w'.tenant.objects.Keys == t.w.tenant.objects.Keys
            && forall k :: k in t.w.tenant.objects && k != KeyOf(obj) ==> w'.tenant.objects[k] == t.w.tenant.objects[k]
  {
    hide Desired, Reconcile, Eligible, Judge, Transform.ContentOf, Comparable, IsCalm;
    if Eligible(cfg, res, obj) && Desired(cfg, res, obj).Success? {
      CalmReconcile(cfg, res, policy, t.w, obj);
    }
  }

  lemma RestStaysLive(cfg: Config, res: Resource, policy: Policy, t: Tally, items: seq<Object>)
    requires WellNamed(cfg) && IsCalm(t.w) && items != [] && AllLive(t.w.tenant, res.kind, items)
    ensures var w' := RunItem(cfg, res, policy, t, items[0]).w;
            IsCalm(w') && AllLive(w'.tenant, res.kind, items[1..])
  {
    hide RunItem, IsCalm;
    ItemRewritesItself(cfg, res, policy, t, items[0]);
  }

  /** One collected host object is gone; a desired one, or one without a grant,
      stays. */
  lemma CalmCollectOne(res: Resource, policy: Policy, t: Tally, o: Object)
    requires IsCalm(t.w) && KeyOf(o) in t.w.host.objects
    ensures var t' := CollectOne(res, policy, t, o);
            && IsCalm(t'.w) && t'.desired == t.desired && t'.w.tenant == t.w.tenant && t'.w.history == t.w.history
            && t'.errors == t.errors
            && if o.meta.name in t.desired || t.w.limiter == Some(0) then
                 t'.w.host == t.w.host && Paid(t.w, t'.w, 0) && Writes(t'.decisions) == Writes(t.decisions)
               else
                 && t'.w.host.objects == t.w.host.objects - {KeyOf(o)}
                 && Paid(t.w, t'.w, 1) && Writes(t'.decisions) == Writes(t.decisions) + 1
  {
    hide Submit, LookedUp;
    if o.meta.name !in t.desired && t.w.limiter != Some(0) {
      var call := Call(DeleteHost, o, o, Baseline(t.w.history, o.meta.name), res, policy);
      CalmSubmit(t.w, call);
      SubmitIsOneAttempt(Allow(t.w).value, call);
      OneMoreDecision(t.decisions, Decide(res, LookedUp(o), o, DeleteAction, Orphaned));
    }
    OneMoreDecision(t.decisions, Decide(res, LookedUp(o), o, SkipAction, RateLimited));
  }

  function Passes(cfg: Config, res: Resource, policy: Policy, w: World, passes: seq<Orders>): World
    decreases |passes|
  {
    if passes == [] then w else Passes(cfg, res, policy, SyncPass(cfg, res, policy, w, passes[0]).w, passes[1..])
  }

  ghost predicate AllAnswered(cfg: Config, res: Resource, policy: Policy, w: World, passes: seq<Orders>)
    decreases |passes|
  {
    passes != [] ==>
      Answered(cfg, res, policy, w, passes[0]) && AllAnswered(cfg, res, policy, SyncPass(cfg, res, policy, w, passes[0]).w, passes[1..])
  }
}
