/** Bidirectional pairs in a calm world: what leaves a baseline leaves the exact
    versions that stand, and under "manual" a one-sided drift heals by itself. */
module Drift {
  import opened Calm
  import opened Cluster
  import opened Conservation
  import opened Engine
  import HostNames
  import opened Objects
  import opened PassSafety
  import opened Safety
  import opened Standoff
  import Transform
  import opened Wrappers

  /** The baseline on record names the versions now standing on both sides. */
  ghost predicate Baselined(cfg: Config, res: Resource, w: World, tenantKey: Key, hostKey: Key) {
    tenantKey in w.tenant.objects && hostKey in w.host.objects
    && Baseline(w.history, hostKey.name)
       == Some(Converged(w.tenant.objects[tenantKey].meta.version, w.host.objects[hostKey].meta.version))
  }

  lemma AcceptedStands(w: World, call: Call)
    requires IsCalm(w) && Takes(w, call) && w.limiter != Some(0) && call.op != DeleteHost
    ensures var (w', reply) := Submit(Allow(w).value, call);
            && reply.Accepted? && w'.history == w.history
            && Side(w', call.op).Lookup(KeyOf(call.sent)) == Some(reply.o)
            && (call.op == UpdateTenant ==> w'.host == w.host) && (call.op != UpdateTenant ==> w'.tenant == w.tenant)
  {
    hide Transform.Allocate, Transform.ContentOf, ApplyEdits, Await;
    var granted := Allow(w).value;
    CalmAwait(granted);
    var turn := Await(granted).1;
    Transform.StripForgetsAllocation(call.sent, turn.allocation);
  }

  /** A tracked write records the version it made and the version it was made of. */
  lemma TrackedWriteIsBaselined(w: World, call: Call, name: string, skip: Decision, done: Decision)
    requires IsCalm(w) && Takes(w, call) && w.limiter != Some(0) && call.op != DeleteHost
    ensures var w' := WriteOut(w, call, name, true, skip, done).0;
            KeyOf(call.sent) in Side(w', call.op).objects
            && var version := Side(w', call.op).objects[KeyOf(call.sent)].meta.version;
               Baseline(w'.history, name) == Some(if call.op == UpdateTenant then Converged(version, call.read.meta.version)
                                                  else Converged(call.read.meta.version, version))
  {
    hide Submit, Takes;
    AcceptedStands(w, call);
  }

  /** However a bidirectional pair is settled short of a conflict or a denial, the
      baseline left behind is the one that stands. */
  lemma SettledPairIsBaselined(cfg: Config, res: Resource, policy: Policy, w: World, obj: Object)
    requires WellNamed(cfg) && IsCalm(w) && res.direction == Bidirectional
    requires Wanted(cfg, res, obj) && w.tenant.Lookup(KeyOf(obj)) == Some(obj)
    requires var verdict := Judge(cfg, res, policy, w.history, obj, Desired(cfg, res, obj).value, w.host.Lookup(MirrorKey(cfg, res, obj)));
             verdict.Agree? || (WantsWrite(verdict) && w.limiter != Some(0))
    ensures var w' := Reconcile(cfg, res, policy, w, obj, Desired(cfg, res, obj).value).0;
            Baselined(cfg, res, w', KeyOf(obj), MirrorKey(cfg, res, obj))
  {
    hide Desired, Eligible, Judge, HostNames.HostName, Transform.ReverseLookup, Transform.ContentOf, WriteOut, CallFor, IsCalm, Report, Takes;
    CalmAwait(w);
    var w1 := Await(w).0;
    CalmStores(w);
    var host := Desired(cfg, res, obj).value;
    DesiredKey(cfg, res, obj);
    var found := w1.host.Lookup(KeyOf(host));
    var verdict := Judge(cfg, res, policy, w1.history, obj, host, found);
    JudgeMakesOnlyMissing(cfg, res, policy, w1.history, obj, host, found);
    BidirectionalTracks(cfg, res, policy, w1.history, obj, host, found);
    if WantsWrite(verdict) {
      CarriedOutIsBaselined(cfg, res, policy, w1, obj, found, verdict);
    }
  }

  lemma BidirectionalTracks(cfg: Config, res: Resource, policy: Policy, history: History, obj: Object, host: Object, found: Option<Object>)
    requires res.direction == Bidirectional
    ensures var verdict := Judge(cfg, res, policy, history, obj, host, found);
            (WantsWrite(verdict) ==> Tracks(res, verdict)) && (verdict.Agree? ==> found.Some?)
  {
    hide Transform.ReverseLookup, Transform.ContentOf;
  }

  lemma CarriedOutIsBaselined(cfg: Config, res: Resource, policy: Policy, w: World, obj: Object, found: Option<Object>, verdict: Verdict)
    requires WellNamed(cfg) && IsCalm(w) && Wanted(cfg, res, obj) && w.tenant.Lookup(KeyOf(obj)) == Some(obj)
    requires found == w.host.Lookup(MirrorKey(cfg, res, obj)) && (found.None? <==> verdict.MakeMirror?)
    requires WantsWrite(verdict) && Tracks(res, verdict) && w.limiter != Some(0)
    ensures var w' := CarryOut(cfg, res, policy, w, obj, Desired(cfg, res, obj).value, found, verdict).0;
            Baselined(cfg, res, w', KeyOf(obj), MirrorKey(cfg, res, obj))
  {
    hide Desired, Eligible, HostNames.HostName, Transform.ReverseLookup, Transform.ContentOf, CallFor, Takes, WriteOut, Report, Paid;
    var host := Desired(cfg, res, obj).value;
    DesiredKey(cfg, res, obj);
    var call := CallFor(cfg, res, policy, w.history, obj, host, found, verdict);
    var ref := RefFor(cfg, res.kind, obj);
    var limited, report := Decide(res, ref, host, SkipAction, RateLimited), Report(res, ref, host, verdict);
    CalmCallIsTaken(cfg, res, policy, w, obj, host, found, verdict);
    CallReads(cfg, res, policy, w.history, obj, found, verdict);
    CalmWriteOut(w, call, host.meta.name, true, limited, report);
    TrackedWriteIsBaselined(w, call, host.meta.name, limited, report);
  }

  lemma CallReads(cfg: Config, res: Resource, policy: Policy, history: History, obj: Object, found: Option<Object>, verdict: Verdict)
    requires WellNamed(cfg) && Wanted(cfg, res, obj) && WantsWrite(verdict) && (found.None? <==> verdict.MakeMirror?)
    requires found.Some? ==> KeyOf(found.value) == MirrorKey(cfg, res, obj)
    ensures var call := CallFor(cfg, res, policy, history, obj, Desired(cfg, res, obj).value, found, verdict);
            if verdict.Pull? then call.op == UpdateTenant && KeyOf(call.sent) == KeyOf(obj) && call.read.meta.version == found.value.meta.version
            else (call.op == UpdateHost || call.op == CreateHost) && KeyOf(call.sent) == MirrorKey(cfg, res, obj) && call.read == obj
  {
    hide Desired, Eligible, HostNames.HostName, Transform.ReverseLookup, Transform.ContentOf, Comparable, Transform.Adopt, Transform.MergeHostContentIntoTenant;
    DesiredKey(cfg, res, obj);
    SentView(cfg, res, policy, history, obj, found, verdict);
    if verdict.Pull? {
      ComparableKeepsMeta(cfg, res.kind, found.value);
    }
  }

  /** Own mirror in place, contents differing, and exactly one side moved since the
      two last agreed. */
  ghost predicate OneSided(cfg: Config, res: Resource, w: World, obj: Object, existing: Object, tenantMoved: bool) {
    && res.direction == Bidirectional && Wanted(cfg, res, obj) && w.tenant.Lookup(KeyOf(obj)) == Some(obj)
    && w.host.Lookup(MirrorKey(cfg, res, obj)) == Some(existing) && Ours(cfg, res, obj, existing)
    && !Transform.ContentEqual(obj, Comparable(cfg, res.kind, existing))
    && MirrorKey(cfg, res, obj).name in w.history
    && var c := w.history[MirrorKey(cfg, res, obj).name];
       && (obj.meta.version != c.tenantVersion <==> tenantMoved)
       && (existing.meta.version != c.hostVersion <==> !tenantMoved)
  }

  lemma OneSidedVerdict(cfg: Config, res: Resource, w: World, obj: Object, host: Object, existing: Object, tenantMoved: bool)
    requires OneSided(cfg, res, w, obj, existing, tenantMoved) && KeyOf(host) == MirrorKey(cfg, res, obj)
    ensures Judge(cfg, res, Manual, w.history, obj, host, Some(existing)) == if tenantMoved then Push(true) else Pull(true)
  {
    hide Desired, Eligible, HostNames.HostName, Transform.ReverseLookup, Transform.ContentOf, Comparable;
  }

  /** One turn heals a one-sided drift: the side that moved is carried over to the
      other and stays as it was, the two agree, and the baseline is renewed. */
  lemma OneSidedDriftHeals(cfg: Config, res: Resource, w: World, obj: Object, existing: Object, tenantMoved: bool)
    requires WellNamed(cfg) && IsCalm(w) && w.limiter != Some(0) && OneSided(cfg, res, w, obj, existing, tenantMoved)
    ensures var w' := Reconcile(cfg, res, Manual, w, obj, Desired(cfg, res, obj).value).0;
            var tenantKey, hostKey := KeyOf(obj), MirrorKey(cfg, res, obj);
            && Baselined(cfg, res, w', tenantKey, hostKey)
            && (if tenantMoved then w'.tenant == w.tenant else w'.host == w.host)
            && (Mirrors(obj) || !tenantMoved ==>
                  Transform.ContentEqual(w'.tenant.objects[tenantKey], Comparable(cfg, res.kind, w'.host.objects[hostKey])))
  {
    hide Desired, Eligible, HostNames.HostName, Transform.ReverseLookup, Transform.ContentOf, Judge, Reconcile, IsCalm, Paid;
    var host := Desired(cfg, res, obj).value;
    DesiredKey(cfg, res, obj);
    OneSidedVerdict(cfg, res, w, obj, host, existing, tenantMoved);
    CalmReconcile(cfg, res, Manual, w, obj);
    SettledPairIsBaselined(cfg, res, Manual, w, obj);
  }

  /** One-sided drifts do happen, on either side: the same pair under a baseline
      that one of the two versions has left behind. */
  lemma OneSidedHappens(cfg: Config, res: Resource, obj: Object, version: nat, tenantMoved: bool)
    requires WellNamed(cfg) && res.direction == Bidirectional && obj.Kind() == res.kind && res.kind != "Pod" && res.kind != ""
    requires Eligible(cfg, res, obj) && obj.meta.name != "" && obj.meta.namespace != "" && obj.meta.version > 0 && version > 0
    ensures Desired(cfg, res, obj).Success?
    ensures var existing := Drifted(Desired(cfg, res, obj).value, obj, version);
            var last := if tenantMoved then Converged(0, version) else Converged(obj.meta.version, 0);
            var w := PairWorld(obj, existing, map[MirrorKey(cfg, res, obj).name := last]);
            IsCalm(w) && OneSided(cfg, res, w, obj, existing, tenantMoved)
  {
    hide HostNames.HostName, Transform.Strip, Transform.ContentOf, Transform.ReverseLookup, Drifted;
    var last := if tenantMoved then Converged(0, version) else Converged(obj.meta.version, 0);
    DriftedPair(cfg, res, obj, version, map[MirrorKey(cfg, res, obj).name := last]);
  }
}
