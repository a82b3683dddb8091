/** Pods are the kind for which an unchanged pair can disagree: a push keeps the
    live spec but for a few fields, and records a baseline all the same. */
module PodDrift {
  import opened Calm
  import opened Cluster
  import opened Drift
  import opened Engine
  import HostNames
  import opened Objects
  import opened PassSafety
  import Pods
  import opened Safety
  import opened Standoff
  import opened Transform
  import opened Wrappers

  function SpecField(o: Object, field: string): Option<Json> {
    match NestedMap(o.body, "spec")
    case None => None
    case Some(spec) => if field in spec then Some(spec[field]) else None
  }

  /** A field that no push to a running Pod touches. */
  predicate Fixed(field: string) {
    !Pods.IsMutable(field) && field != "runtimeClassName"
  }

  lemma PushKeepsLiveField(existing: Object, desired: Object, field: string)
    requires existing.Kind() == "Pod" && NestedMap(existing.body, "spec").Some? && Fixed(field)
    ensures SpecField(Adopt(existing, desired), field) == SpecField(existing, field)
  {
    hide Pods.AdoptPod;
    assert |"Pod"| != |"Service"|;
    Pods.AdoptPodTouchesMutableFieldsOnly(existing.body, desired.body);
  }

  lemma ContentShowsSpec(a: Object, b: Object, field: string)
    requires a.Kind() == b.Kind() == "Pod" && ContentEqual(a, b)
    ensures SpecField(a, field) == SpecField(b, field)
  {
    HeaderKeys();
    assert |"Pod"| != |"Service"|;
    assert ContentOf(a) == ContentFrom(a.body) && ContentOf(b) == ContentFrom(b.body);
    assert "spec" in a.body <==> "spec" in ContentFrom(a.body);
    assert "spec" in b.body <==> "spec" in ContentFrom(b.body);
  }

  lemma ComparableKeepsField(cfg: Config, o: Object, field: string)
    requires Fixed(field)
    ensures SpecField(Comparable(cfg, "Pod", o), field) == SpecField(o, field)
  {
  }

  lemma DifferenceShows(cfg: Config, obj: Object, existing: Object, field: string)
    requires obj.Kind() == existing.Kind() == "Pod" && Fixed(field) && SpecField(obj, field) != SpecField(existing, field)
    ensures !ContentEqual(obj, Comparable(cfg, "Pod", existing))
  {
    hide ContentOf, SpecField, Comparable, Fixed;
    ComparableKeepsMeta(cfg, "Pod", existing);
    ComparableKeepsField(cfg, existing, field);
    if ContentEqual(obj, Comparable(cfg, "Pod", existing)) {
      ContentShowsSpec(obj, Comparable(cfg, "Pod", existing), field);
    }
  }

  /** The tenant's Pod and its mirror, which differ in a field that cannot be
      pushed to a running Pod. */
  ghost predicate Unpushable(cfg: Config, res: Resource, w: World, obj: Object, existing: Object, field: string) {
    && res.kind == "Pod" && res.direction == Bidirectional
    && Wanted(cfg, res, obj) && w.tenant.Lookup(KeyOf(obj)) == Some(obj)
    && w.host.Lookup(MirrorKey(cfg, res, obj)) == Some(existing) && Ours(cfg, res, obj, existing)
    && NestedMap(existing.body, "spec").Some? && Fixed(field) && SpecField(obj, field) != SpecField(existing, field)
  }

  lemma UnpushableVerdicts(cfg: Config, res: Resource, history: History, obj: Object, host: Object, existing: Object)
    requires res.direction == Bidirectional && Ours(cfg, res, obj, existing) && !ContentEqual(obj, Comparable(cfg, res.kind, existing))
    ensures Judge(cfg, res, TenantWins, history, obj, host, Some(existing)) == Push(true)
    ensures Baseline(history, host.meta.name) == Some(Converged(obj.meta.version, existing.meta.version))
            ==> Judge(cfg, res, Manual, history, obj, host, Some(existing)) == Hold
  {
    hide ReverseLookup, ContentOf, Comparable;
  }

  lemma PushRewrites(cfg: Config, res: Resource, w: World, obj: Object, existing: Object)
    requires WellNamed(cfg) && IsCalm(w) && w.limiter != Some(0) && Wanted(cfg, res, obj) && w.tenant.Lookup(KeyOf(obj)) == Some(obj)
    requires w.host.Lookup(MirrorKey(cfg, res, obj)) == Some(existing)
    requires Judge(cfg, res, TenantWins, w.history, obj, Desired(cfg, res, obj).value, Some(existing)) == Push(true)
    ensures var host := Desired(cfg, res, obj).value;
            var w' := Reconcile(cfg, res, TenantWins, w, obj, host).0;
            && w'.tenant == w.tenant && |w'.audit| == |w.audit| + 1
            && Rewrote(w.host, w'.host, Adopt(existing, host.WithVersion(existing.meta.version)))
  {
    hide Desired, Judge, Settle, Rewrote, Adopt, Eligible, HostNames.HostName;
    CalmAwait(w);
    DesiredKey(cfg, res, obj);
    var w1 := Await(w).0;
    CalmSettle(cfg, res, TenantWins, w1, obj, Desired(cfg, res, obj).value, Some(existing), Push(true));
  }

  /** After a push under "tenant-wins" the two still differ, the baseline names the
      very versions that stand, and "manual" holds the pair though neither side has
      changed since. */
  lemma UnchangedPodsMayDisagree(cfg: Config, res: Resource, w: World, obj: Object, existing: Object, field: string)
    requires WellNamed(cfg) && IsCalm(w) && w.limiter != Some(0) && Unpushable(cfg, res, w, obj, existing, field)
    ensures var host := Desired(cfg, res, obj).value;
            var w' := Reconcile(cfg, res, TenantWins, w, obj, host).0;
            && w'.tenant == w.tenant && |w'.audit| == |w.audit| + 1
            && Baselined(cfg, res, w', KeyOf(obj), MirrorKey(cfg, res, obj))
            && var pushed := w'.host.objects[MirrorKey(cfg, res, obj)];
               && Unpushable(cfg, res, w', obj, pushed, field)
               && !ContentEqual(obj, Comparable(cfg, res.kind, pushed))
               && Judge(cfg, res, Manual, w'.history, obj, host, Some(pushed)) == Hold
  {
    hide Desired, Eligible, HostNames.HostName, ReverseLookup, ContentOf, Judge, Reconcile, IsCalm, Comparable, Adopt, SpecField, Fixed, Takes;
    var host := Desired(cfg, res, obj).value;
    DesiredKey(cfg, res, obj);
    DesiredIsOurs(cfg, res, obj);
    assert existing.Kind() == "Pod" by { CalmStores(w); }
    DifferenceShows(cfg, obj, existing, field);
    UnpushableVerdicts(cfg, res, w.history, obj, host, existing);
    SettledPairIsBaselined(cfg, res, TenantWins, w, obj);
    PushRewrites(cfg, res, w, obj, existing);
    var w' := Reconcile(cfg, res, TenantWins, w, obj, host).0;
    AdoptKeepsHeader(existing, host.WithVersion(existing.meta.version));
    var sent := Adopt(existing, host.WithVersion(existing.meta.version));
    assert KeyOf(sent) == MirrorKey(cfg, res, obj);
    var pushed := w'.host.objects[MirrorKey(cfg, res, obj)];
    PushedFieldStays(cfg, res, obj, existing, sent, pushed, field);
    DifferenceShows(cfg, obj, pushed, field);
    UnpushableVerdicts(cfg, res, w'.history, obj, host, pushed);
  }

  lemma PushedFieldStays(cfg: Config, res: Resource, obj: Object, existing: Object, sent: Object, pushed: Object, field: string)
    requires existing.Kind() == "Pod" && NestedMap(existing.body, "spec").Some? && Fixed(field)
    requires WellNamed(cfg) && Wanted(cfg, res, obj) && res.kind == "Pod"
    requires sent == Adopt(existing, Desired(cfg, res, obj).value.WithVersion(existing.meta.version))
    requires pushed.Kind() == sent.Kind() && pushed.meta == sent.meta.(version := pushed.meta.version) && ContentOf(pushed) == ContentOf(sent)
    ensures SpecField(pushed, field) == SpecField(existing, field) && NestedMap(pushed.body, "spec").Some?
    ensures Ours(cfg, res, obj, pushed)
  {
    hide Desired, Eligible, HostNames.HostName, ReverseLookup, ContentOf, Fixed;
    var host := Desired(cfg, res, obj).value;
    DesiredIsOurs(cfg, res, obj);
    AdoptKeepsHeader(existing, host.WithVersion(existing.meta.version));
    PushKeepsLiveField(existing, host.WithVersion(existing.meta.version), field);
    ContentShowsSpec(pushed, sent, field);
    StampedView(host, pushed);
    PushedSpec(existing, host.WithVersion(existing.meta.version), pushed);
  }

  lemma PushedSpec(existing: Object, desired: Object, pushed: Object)
    requires existing.Kind() == pushed.Kind() == Adopt(existing, desired).Kind() == "Pod" && NestedMap(existing.body, "spec").Some?
    requires ContentOf(pushed) == ContentOf(Adopt(existing, desired))
    ensures NestedMap(pushed.body, "spec").Some?
  {
    hide Pods.AdoptPod;
    HeaderKeys();
    assert |"Pod"| != |"Service"|;
    Pods.AdoptPodTouchesMutableFieldsOnly(existing.body, desired.body);
    var sent := Adopt(existing, desired);
    assert ContentOf(sent) == ContentFrom(sent.body) && ContentOf(pushed) == ContentFrom(pushed.body);
    assert "spec" in ContentFrom(sent.body);
    assert "spec" in ContentFrom(pushed.body);
  }

  /** The mirror once it has been scheduled. */
  function ScheduledOn(mirror: Object, node: string, version: nat): Object
    requires NestedMap(mirror.body, "spec").Some?
  {
    mirror.(body := mirror.body["spec" := Dict(mirror.body["spec"].fields["nodeName" := Str(node)])]).WithVersion(version)
  }

  lemma NodeNameIsFixed()
    ensures Fixed("nodeName")
  {
    Pods.MutableKeysDiffer();
    assert |"nodeName"| == 8 && |"runtimeClassName"| == 16;
  }

  lemma DesiredPodHasSpec(cfg: Config, res: Resource, obj: Object)
    requires Desired(cfg, res, obj).Success? && res.kind == "Pod" && NestedMap(obj.body, "spec").Some?
    ensures NestedMap(Desired(cfg, res, obj).value.body, "spec").Some?
  {
    HeaderKeys();
    assert |"Pod"| != |"Service"|;
  }

  /** Every mirrored Pod is such a case as soon as the host has scheduled it. */
  lemma ScheduledPodsAreUnpushable(cfg: Config, res: Resource, obj: Object, node: string, version: nat, history: History)
    requires WellNamed(cfg) && Wanted(cfg, res, obj) && res.kind == "Pod" && res.direction == Bidirectional
    requires NestedMap(obj.body, "spec").Some? && SpecField(obj, "nodeName") != Some(Str(node)) && obj.meta.version > 0 && version > 0
    ensures NestedMap(Desired(cfg, res, obj).value.body, "spec").Some?
    ensures var existing := ScheduledOn(Desired(cfg, res, obj).value, node, version);
            var w := PairWorld(obj, existing, history);
            IsCalm(w) && w.limiter == None && Unpushable(cfg, res, w, obj, existing, "nodeName")
  {
    hide Desired, Eligible, HostNames.HostName, ReverseLookup, ContentOf, IsCalm;
    DesiredPodHasSpec(cfg, res, obj);
    var mirror := Desired(cfg, res, obj).value;
    var existing := ScheduledOn(mirror, node, version);
    HeaderKeys();
    NodeNameIsFixed();
    DesiredIsOurs(cfg, res, obj);
    DesiredKey(cfg, res, obj);
    StampedView(mirror, existing);
    PairStands(obj, existing, history);
  }
}
