/** What a truthful history says about a pair before the conflict switch compares
    versions. */
module Baselines {
  import opened Engine
  import opened Objects
  import opened Safety
  import opened Transform
  import opened Wrappers

  /** A pair that stands at the two versions on record agrees. */
  lemma UnchangedPairAgrees(cfg: Config, w: World, obj: Object, existing: Object)
    requires Inv(cfg, w) && OnRecord(w.tenant, obj) && OnRecord(w.host, existing) && Mirrors(obj)
    requires Baseline(w.history, existing.meta.name) == Some(Converged(obj.meta.version, existing.meta.version))
    ensures ContentEqual(obj, existing)
  {
    hide ReverseLookup, ContentOf, SafeAttempt, ClassInv, Mirrors;
    var c := w.history[existing.meta.name];
    assert TruthfulEntry(cfg, w.tenant, w.host, existing.meta.name, c);
  }

  /** The conflict switch holds a pair back only if there is no baseline, or both
      sides have moved since; for Pods see PodDrift. */
  lemma HeldMeansBothMoved(cfg: Config, res: Resource, w: World, obj: Object, host: Object, existing: Object)
    requires Inv(cfg, w) && OnRecord(w.tenant, obj) && OnRecord(w.host, existing) && Mirrors(obj)
    requires obj.Kind() == res.kind && host.meta.name == existing.meta.name && res.direction == Bidirectional
    requires Ours(cfg, res, obj, existing) && !ContentEqual(obj, existing)
    ensures Judge(cfg, res, Manual, w.history, obj, host, Some(existing)) == Hold
       <==> match Baseline(w.history, host.meta.name)
            case None => true
            case Some(c) => obj.meta.version != c.tenantVersion && existing.meta.version != c.hostVersion
  {
    hide ReverseLookup, ContentOf, Inv;
    if Baseline(w.history, host.meta.name) == Some(Converged(obj.meta.version, existing.meta.version)) {
      UnchangedPairAgrees(cfg, w, obj, existing);
    }
  }

  /** A baseline left under the same host name by another kind names neither of
      the two versions: the pair looks changed on both sides, and is held. */
  lemma OtherKindLooksChanged(cfg: Config, res: Resource, w: World, obj: Object, host: Object, existing: Object)
    requires Inv(cfg, w) && OnRecord(w.tenant, obj) && OnRecord(w.host, existing)
    requires obj.Kind() == existing.Kind() == res.kind && host.meta.name in w.history
    requires w.history[host.meta.name].tenantVersion in w.tenant.log
    requires w.tenant.log[w.history[host.meta.name].tenantVersion].Kind() != res.kind
    ensures var c := w.history[host.meta.name]; obj.meta.version != c.tenantVersion && existing.meta.version != c.hostVersion
    ensures res.direction == Bidirectional && Ours(cfg, res, obj, existing) && !ContentEqual(obj, Comparable(cfg, res.kind, existing))
            ==> Judge(cfg, res, Manual, w.history, obj, host, Some(existing)) == Hold
  {
    hide ReverseLookup, ContentOf, SafeAttempt, ClassInv, Mirrors, Comparable;
    assert TruthfulEntry(cfg, w.tenant, w.host, host.meta.name, w.history[host.meta.name]);
  }
}
