/** What every pass keeps, whoever else writes in between: the convergence
    history tells the truth, and no write loses an update or clobbers an object
    that is not the engine's to change. */
module Safety {
  import opened Cluster
  import opened Engine
  import opened HostNames
  import opened Naming
  import opened Objects
  import Pods
  import opened Transform
  import opened Wrappers

  /** Tenant and namespace must be labels already: provenance compares the raw
      tenant name with the sanitized label. */
  predicate WellNamed(cfg: Config) {
    IsLabel(cfg.tenant) && IsLabel(cfg.hostNamespace)
  }

  /** Kinds whose pushed content agrees: not a Pod, whose live spec is kept, and
      not a Service without a spec, which adopts the live one's addresses. */
  predicate Mirrors(t: Object) {
    t.Kind() != "Pod" && (t.Kind() == "Service" ==> "spec" in t.body)
  }

  predicate SameObject(a: Object, b: Object) {
    KeyOf(a) == KeyOf(b)
  }

  predicate Provenance(cfg: Config, t: Object, h: Object) {
    t.Kind() == h.Kind() && ReverseLookup(h).Some?
    && SameSource(ReverseLookup(h).value, RefFor(cfg, t.Kind(), t))
  }

  /** A baseline names a tenant version and a host version that both existed,
      are two views of one object, and agreed in content. */
  ghost predicate TruthfulEntry(cfg: Config, tenant: Store, host: Store, name: string, c: Converged) {
    && c.tenantVersion in tenant.log && c.hostVersion in host.log
    && var t, h := tenant.log[c.tenantVersion], host.log[c.hostVersion];
       h.meta.name == name && Provenance(cfg, t, h) && (Mirrors(t) ==> ContentEqual(t, h))
  }

  ghost predicate Truthful(cfg: Config, tenant: Store, host: Store, h: History) {
    forall name :: name in h ==> TruthfulEntry(cfg, tenant, host, name, h[name])
  }

  /** Under "manual" a push overwrites a host object only if it is the very
      version on record as agreed, so that the tenant's side once held the same
      content. */
  ghost predicate NoLostHostUpdate(cfg: Config, tenant: Store, call: Call, before: Object) {
    call.res.direction == Bidirectional && call.policy == Manual ==>
      && call.baseline.Some? && before.meta.version == call.baseline.value.hostVersion
      && call.baseline.value.tenantVersion in tenant.log
      && var t := tenant.log[call.baseline.value.tenantVersion];
         SameObject(t, call.read) && (Mirrors(t) ==> ContentEqual(t, before))
  }

  /** Likewise for a pull and the tenant object it overwrites. */
  ghost predicate NoLostTenantUpdate(cfg: Config, host: Store, call: Call, before: Object) {
    call.res.direction == Bidirectional && call.policy == Manual ==>
      && call.baseline.Some? && before.meta.version == call.baseline.value.tenantVersion
      && call.baseline.value.hostVersion in host.log
      && var h := host.log[call.baseline.value.hostVersion];
         Provenance(cfg, before, h) && (Mirrors(before) ==> ContentEqual(before, h))
  }

  // ---- the runtime class ----

  predicate HasClass(o: Object, class_: string) {
    var spec := NestedMap(o.body, "spec");
    spec.Some? && "runtimeClassName" in spec.value && spec.value["runtimeClassName"] == Str(class_)
  }

  predicate HasNoClass(o: Object) {
    var spec := NestedMap(o.body, "spec");
    spec.Some? ==> "runtimeClassName" !in spec.value
  }

  /** Pods that a required runtime class is about. */
  predicate Isolated(cfg: Config, o: Object) {
    cfg.runtimeClass != "" && o.Kind() == "Pod"
  }

  /** A created Pod has the required class, an update never takes it away, and
      what is pulled into the tenant carries none. */
  ghost predicate KeepsClass(cfg: Config, a: Attempt) {
    a.reply.Accepted? && Isolated(cfg, a.reply.o) ==>
      match a.call.op
      case CreateHost => HasClass(a.reply.o, cfg.runtimeClass)
      case UpdateHost => a.before.Some? && (HasClass(a.before.value, cfg.runtimeClass) ==> HasClass(a.reply.o, cfg.runtimeClass))
      case UpdateTenant => HasNoClass(a.reply.o)
      case DeleteHost => true
  }

  /** A managed Pod at this host key has the required class. */
  predicate ClassedAt(cfg: Config, host: Store, k: Key) {
    (k in host.objects && Isolated(cfg, host.objects[k]) && ReverseLookup(host.objects[k]).Some?)
    ==> HasClass(host.objects[k], cfg.runtimeClass)
  }

  /** These edits put no managed Pod without it at this key. */
  ghost predicate LeavesClassAt(cfg: Config, edits: seq<Edit>, k: Key) {
    forall i :: 0 <= i < |edits| && edits[i].Put? && KeyOf(edits[i].o) == k && Isolated(cfg, edits[i].o) && ReverseLookup(edits[i].o).Some?
      ==> HasClass(edits[i].o, cfg.runtimeClass)
  }

  /** No one but the engine ever left a managed Pod without it there. */
  ghost predicate NeverDropped(cfg: Config, past: seq<Turn>, k: Key) {
    forall i :: 0 <= i < |past| ==> LeavesClassAt(cfg, past[i].hostEdits, k)
  }

  ghost predicate ClassInv(cfg: Config, w: World) {
    forall k :: NeverDropped(cfg, w.past, k) ==> ClassedAt(cfg, w.host, k)
  }

  // ---- garbage collection ----

  /** An object takes part in the pass and has its mirror at this host name. */
  predicate Claims(cfg: Config, res: Resource, o: Object, name: string) {
    Wanted(cfg, res, o) && MirrorKey(cfg, res, o).name == name
  }

  /** Whoever claimed the name at the moment of the attempt was written since the
      tenant was last listed. */
  ghost predicate SparesListed(cfg: Config, a: Attempt) {
    forall k :: k in a.tenant.objects && Claims(cfg, a.call.res, a.tenant.objects[k], a.call.sent.meta.name)
      ==> a.listed <= a.tenant.objects[k].meta.version
  }

  /** What an accepted write did to the object it met. */
  ghost predicate SafeAttempt(cfg: Config, tenant: Store, host: Store, a: Attempt) {
    a.reply.Accepted? ==>
      var o := a.reply.o;
      KeepsClass(cfg, a) &&
      match a.call.op
      case CreateHost => a.before.None? && Provenance(cfg, a.call.read, o)
      case UpdateHost =>
        && a.before.Some? && SameObject(a.before.value, o)
        && Provenance(cfg, a.call.read, a.before.value) && Provenance(cfg, a.call.read, o)
        && (Mirrors(a.call.read) ==> ContentEqual(a.call.read, o))
        && NoLostHostUpdate(cfg, tenant, a.call, a.before.value)
      case UpdateTenant =>
        && a.before.Some? && SameObject(a.before.value, o)
        && o.meta == a.before.value.meta.(version := o.meta.version)
        && Provenance(cfg, a.before.value, a.call.read) && ContentEqual(o, a.call.read)
        && NoLostTenantUpdate(cfg, host, a.call, a.before.value)
      case DeleteHost =>
        && a.before == Some(o) && SameObject(o, a.call.read) && Labelled(cfg, o.Kind(), a.call.read)
        && (o.meta.version == a.call.read.meta.version ==> o == a.call.read)
        && SparesListed(cfg, a)
  }

  ghost predicate Inv(cfg: Config, w: World) {
    && w.tenant.Valid() && w.host.Valid() && w.listed <= w.tenant.next && ClassInv(cfg, w)
    && Truthful(cfg, w.tenant, w.host, w.history)
    && forall i :: 0 <= i < |w.audit| ==> SafeAttempt(cfg, w.tenant, w.host, w.audit[i])
  }

  /** Nothing ever written drops off the log. */
  ghost predicate Grows(w: World, w': World) {
    Extends(w.tenant, w'.tenant) && Extends(w.host, w'.host)
  }

  /** Nor does a pair that once agreed drop off the history. */
  ghost predicate Later(w: World, w': World) {
    Grows(w, w') && w.history.Keys <= w'.history.Keys
  }

  // ---- foreign writers ----

  lemma StoresMayGrow(cfg: Config, w: World, w': World)
    requires Inv(cfg, w) && Later(w, w')
    requires w'.tenant.Valid() && w'.host.Valid() && w'.audit == w.audit && w'.history == w.history && ClassInv(cfg, w')
    requires w'.listed <= w'.tenant.next
    ensures Inv(cfg, w')
  {
    hide ReverseLookup, ContentOf, ClassInv, KeepsClass, Labelled, SparesListed;
    forall i | 0 <= i < |w.audit|
      ensures SafeAttempt(cfg, w'.tenant, w'.host, w'.audit[i])
    {
      assert SafeAttempt(cfg, w.tenant, w.host, w.audit[i]);
    }
    forall name | name in w.history
      ensures TruthfulEntry(cfg, w'.tenant, w'.host, name, w.history[name])
    {
      assert TruthfulEntry(cfg, w.tenant, w.host, name, w.history[name]);
    }
  }

  lemma AwaitKeepsInv(cfg: Config, w: World)
    requires Inv(cfg, w)
    ensures Inv(cfg, Await(w).0) && Later(w, Await(w).0)
    ensures Await(w).0.history == w.history && Await(w).0.audit == w.audit && Await(w).0.limiter == w.limiter && Await(w).0.listed == w.listed
  {
    hide Truthful, SafeAttempt;
    if w.script != [] {
      EditsKeepValid(w.tenant, w.script[0].tenantEdits);
      EditsKeepValid(w.host, w.script[0].hostEdits);
      AwaitKeepsClass(cfg, w);
      StoresMayGrow(cfg, w, Await(w).0);
    }
  }

  lemma {:induction false} EditsKeepClass(cfg: Config, s: Store, edits: seq<Edit>, k: Key)
    requires ClassedAt(cfg, s, k) && LeavesClassAt(cfg, edits, k)
    ensures ClassedAt(cfg, ApplyEdits(s, edits), k)
    decreases |edits|
  {
    hide HasClass, ReverseLookup;
    if edits != [] {
      var s' := match edits[0] case Put(o) => s.Write(o) case Drop(k) => s.Remove(k);
      if edits[0].Put? {
        VersionIsNoClass(cfg, edits[0].o, s.next);
      }
      EditsKeepClass(cfg, s', edits[1..], k);
    }
  }

  lemma VersionIsNoClass(cfg: Config, o: Object, version: nat)
    ensures var o' := o.WithVersion(version);
            Isolated(cfg, o') == Isolated(cfg, o) && HasClass(o', cfg.runtimeClass) == HasClass(o, cfg.runtimeClass)
            && HasNoClass(o') == HasNoClass(o) && ReverseLookup(o') == ReverseLookup(o)
  {
  }

  lemma AwaitKeepsClass(cfg: Config, w: World)
    requires ClassInv(cfg, w)
    ensures ClassInv(cfg, Await(w).0)
  {
    hide ClassedAt, LeavesClassAt, ApplyEdits;
    if w.script != [] {
      var w' := Await(w).0;
      var turn := w.script[0];
      forall k | NeverDropped(cfg, w'.past, k)
        ensures ClassedAt(cfg, w'.host, k)
      {
        assert w'.past[|w.past|] == turn;
        assert forall i :: 0 <= i < |w.past| ==> w.past[i] == w'.past[i];
        assert NeverDropped(cfg, w.past, k);
        EditsKeepClass(cfg, w.host, turn.hostEdits, k);
      }
    }
  }

  // ---- the objects the engine sends ----

  lemma BuiltIsOurs(cfg: Config, res: Resource, obj: Object)
    requires WellNamed(cfg) && BuildHostObject(RefFor(cfg, res.kind, obj), obj).Success? && obj.Kind() == res.kind
    ensures var host := BuildHostObject(RefFor(cfg, res.kind, obj), obj).value.WithKind(res.apiVersion, res.kind);
            && host.Kind() == res.kind && host.meta.version == 0 && Provenance(cfg, obj, host)
            && host.meta.namespace == cfg.hostNamespace
            && host.meta.name == HostName(obj.meta.name, obj.meta.namespace, cfg.tenant)
            && ContentEqual(obj, host)
  {
    var ref := RefFor(cfg, res.kind, obj);
    BuildReverts(ref, obj);
    BuiltContent(ref, obj, res.apiVersion);
    SanitizeFixpoint(cfg.hostNamespace);
    HeaderKeys();
  }

  lemma DesiredIsOurs(cfg: Config, res: Resource, obj: Object)
    requires WellNamed(cfg) && Desired(cfg, res, obj).Success? && obj.Kind() == res.kind
    ensures var host := Desired(cfg, res, obj).value;
            && host.Kind() == res.kind && host.meta.version == 0 && Provenance(cfg, obj, host)
            && host.meta.namespace == cfg.hostNamespace
            && host.meta.name == HostName(obj.meta.name, obj.meta.namespace, cfg.tenant)
            && (res.kind != "Pod" ==>
                  && ContentEqual(obj, host)
                  && host == BuildHostObject(RefFor(cfg, res.kind, obj), obj).value.WithKind(res.apiVersion, res.kind))
  {
    hide BuildHostObject, Sanitize, HostName, ReverseLookup, Strip, ContentOf;
    BuiltIsOurs(cfg, res, obj);
    HeaderKeys();
    var built := BuildHostObject(RefFor(cfg, res.kind, obj), obj).value.WithKind(res.apiVersion, res.kind);
    var host := Desired(cfg, res, obj).value;
    assert host.meta == built.meta && host.Kind() == built.Kind();
    StampedView(built, host);
  }

  lemma PushedObject(cfg: Config, res: Resource, obj: Object, existing: Object, a: Allocation)
    requires WellNamed(cfg) && Desired(cfg, res, obj).Success?
    requires obj.Kind() == existing.Kind() == res.kind
    ensures var host := Desired(cfg, res, obj).value.WithVersion(existing.meta.version);
            var o := Allocate(Adopt(existing, host), a);
            o.meta == host.meta && o.Kind() == res.kind && (Mirrors(obj) ==> ContentEqual(obj, o))
  {
    DesiredIsOurs(cfg, res, obj);
    var host := Desired(cfg, res, obj).value.WithVersion(existing.meta.version);
    AdoptKeepsHeader(existing, host);
    StripForgetsAllocation(Adopt(existing, host), a);
    if Mirrors(obj) {
      PushAgrees(RefFor(cfg, res.kind, obj), obj, res.apiVersion, existing.meta.version, existing, a);
    }
  }

  lemma ComparableKeepsMeta(cfg: Config, kind: string, existing: Object)
    ensures var c := Comparable(cfg, kind, existing); c.meta == existing.meta && c.Kind() == existing.Kind()
  {
    HeaderKeys();
  }

  lemma PulledObject(source: Object, obj: Object, a: Allocation)
    requires source.Kind() == obj.Kind()
    ensures var merged := MergeHostContentIntoTenant(source, obj);
            && merged.meta == obj.meta && merged.Kind() == obj.Kind()
            && Allocate(merged, a).meta == obj.meta && Allocate(merged, a).Kind() == obj.Kind()
            && ContentEqual(Allocate(merged, a), source)
  {
    MergedHeader(source, obj);
    PullAgrees(source, obj, a);
  }

  // ---- one write ----

  /** A write prepared from what was read: the object read is on record, and an
      update carries the version of the object it means to replace. */
  ghost predicate Prepared(cfg: Config, res: Resource, w: World, call: Call, obj: Object, existing: Object) {
    && obj.Kind() == res.kind && Desired(cfg, res, obj).Success?
    && obj.meta.version in w.tenant.log && w.tenant.log[obj.meta.version] == obj
    && var host := Desired(cfg, res, obj).value;
       match call.op
       case CreateHost => call.sent == host && call.read == obj
       case UpdateHost =>
         && OnRecord(w.host, existing) && SameObject(existing, host) && Provenance(cfg, obj, existing)
         && call.sent == Adopt(existing, host.WithVersion(existing.meta.version)) && call.read == obj
         && NoLostHostUpdate(cfg, w.tenant, call, existing)
       case UpdateTenant =>
         && OnRecord(w.host, existing) && SameObject(existing, host) && Provenance(cfg, obj, existing)
         && call.read == Comparable(cfg, res.kind, existing)
         && call.sent == MergeHostContentIntoTenant(call.read, obj)
         && NoLostTenantUpdate(cfg, w.host, call, obj)
       case DeleteHost => false
  }

  ghost predicate OnRecord(s: Store, o: Object) {
    o.meta.version in s.log && s.log[o.meta.version] == o
  }

  /** The version pair that a tracked write leaves on record. */
  function NewBaseline(call: Call, o: Object): Converged {
    if call.op == UpdateTenant then Converged(o.meta.version, call.read.meta.version)
    else Converged(call.read.meta.version, o.meta.version)
  }

  /** A write stamps a version; identity and content stay. */
  lemma StampedView(o: Object, stored: Object)
    requires stored.Kind() == o.Kind() && stored.meta == o.meta.(version := stored.meta.version)
    ensures ReverseLookup(stored) == ReverseLookup(o) && KeyOf(stored) == KeyOf(o)
  {
  }

  lemma VersionIsNotContent(o: Object, version: nat)
    ensures ContentOf(o.WithVersion(version)) == ContentOf(o)
    ensures o.WithVersion(version).Kind() == o.Kind()
  {
  }

  lemma DesiredHasClass(cfg: Config, res: Resource, obj: Object)
    requires Desired(cfg, res, obj).Success? && obj.Kind() == res.kind && res.kind == "Pod" && cfg.runtimeClass != ""
    ensures HasClass(Desired(cfg, res, obj).value, cfg.runtimeClass)
  {
    hide BuildHostObject;
  }

  lemma PushKeepsClass(existing: Object, desired: Object, class_: string)
    requires existing.Kind() == "Pod" && HasClass(existing, class_)
    ensures HasClass(Adopt(existing, desired), class_)
  {
    hide Pods.AdoptPod;
    assert |"Pod"| != |"Service"|;
    PodClassIsNotMutable();
    Pods.AdoptPodTouchesMutableFieldsOnly(existing.body, desired.body);
  }

  lemma PodClassIsNotMutable()
    ensures !Pods.IsMutable("runtimeClassName")
  {
    Pods.MutableKeysDiffer();
    assert |"runtimeClassName"| == 16;
  }

  lemma PullDropsClass(cfg: Config, existing: Object, obj: Object)
    requires existing.Kind() == "Pod" && cfg.runtimeClass != ""
    ensures HasNoClass(MergeHostContentIntoTenant(Comparable(cfg, "Pod", existing), obj))
  {
    HeaderKeys();
    assert |"Pod"| != |"Service"|;
    var source := Comparable(cfg, "Pod", existing);
    ComparableKeepsMeta(cfg, "Pod", existing);
    assert ContentOf(source) == ContentFrom(source.body);
  }

  /** A Pod is stored as sent. */
  lemma PodsAreNotAllocated(o: Object, a: Allocation)
    requires o.Kind() == "Pod"
    ensures Allocate(o, a) == o
  {
    assert |"Pod"| != |"Service"|;
  }

  ghost predicate ServedSafely(cfg: Config, res: Resource, w: World, call: Call, name: string, a: Allocation) {
    var s := Side(w, call.op);
    var (s', reply) := Serve(s, call.op, call.sent, a);
    && s'.Valid() && Extends(s, s')
    && SafeAttempt(cfg, w.tenant, w.host, Attempt(call, if reply.Accepted? then s.Lookup(KeyOf(call.sent)) else None, reply, w.tenant, w.listed))
    && (reply.Accepted? ==>
          && OnRecord(s', reply.o) && reply.o.Kind() == res.kind
          && var (tenant, host) := if call.op == UpdateTenant then (s', w.host) else (w.tenant, s');
             TruthfulEntry(cfg, tenant, host, name, NewBaseline(call, reply.o)))
  }

  lemma CreateIsClassed(cfg: Config, res: Resource, w: World, call: Call, obj: Object, a: Allocation)
    requires WellNamed(cfg) && Prepared(cfg, res, w, call, obj, obj) && call.op == CreateHost
    ensures var o := Allocate(call.sent, a).WithVersion(w.host.next); Isolated(cfg, o) ==> HasClass(o, cfg.runtimeClass)
  {
    hide Desired, Allocate, HasClass, ReverseLookup;
    DesiredIsOurs(cfg, res, obj);
    StripForgetsAllocation(call.sent, a);
    if Isolated(cfg, call.sent) {
      DesiredHasClass(cfg, res, obj);
      PodsAreNotAllocated(call.sent, a);
      VersionIsNoClass(cfg, call.sent, w.host.next);
    }
  }

  lemma PushIsClassed(cfg: Config, res: Resource, w: World, call: Call, obj: Object, existing: Object, a: Allocation)
    requires WellNamed(cfg) && Prepared(cfg, res, w, call, obj, existing) && call.op == UpdateHost
    ensures var o := Allocate(call.sent, a).WithVersion(w.host.next);
            Isolated(cfg, o) && HasClass(existing, cfg.runtimeClass) ==> HasClass(o, cfg.runtimeClass)
    ensures Isolated(cfg, Allocate(call.sent, a).WithVersion(w.host.next)) == Isolated(cfg, existing)
  {
    hide Desired, Allocate, HasClass, ReverseLookup, Adopt;
    var host := Desired(cfg, res, obj).value.WithVersion(existing.meta.version);
    DesiredIsOurs(cfg, res, obj);
    AdoptKeepsHeader(existing, host);
    StripForgetsAllocation(call.sent, a);
    if Isolated(cfg, existing) && HasClass(existing, cfg.runtimeClass) {
      PushKeepsClass(existing, host, cfg.runtimeClass);
      PodsAreNotAllocated(call.sent, a);
      VersionIsNoClass(cfg, call.sent, w.host.next);
    }
  }

  lemma PullIsClassless(cfg: Config, res: Resource, w: World, call: Call, obj: Object, existing: Object, a: Allocation)
    requires Prepared(cfg, res, w, call, obj, existing) && call.op == UpdateTenant
    ensures var o := Allocate(call.sent, a).WithVersion(w.tenant.next); Isolated(cfg, o) ==> HasNoClass(o)
  {
    hide Desired, Allocate, HasNoClass, ReverseLookup, Comparable, MergeHostContentIntoTenant;
    ComparableKeepsMeta(cfg, res.kind, existing);
    PulledObject(call.read, obj, a);
    if Isolated(cfg, obj) {
      PullDropsClass(cfg, existing, obj);
      PodsAreNotAllocated(call.sent, a);
      VersionIsNoClass(cfg, call.sent, w.tenant.next);
    }
  }

  lemma ServedCreate(cfg: Config, res: Resource, w: World, call: Call, obj: Object, a: Allocation)
    requires WellNamed(cfg) && w.host.Valid() && Prepared(cfg, res, w, call, obj, obj) && call.op == CreateHost
    ensures ServedSafely(cfg, res, w, call, call.sent.meta.name, a)
  {
    hide BuildHostObject, ReverseLookup, Strip, Adopt, Allocate, ContentOf, Desired, HostName,
         Truthful, NoLostHostUpdate, NoLostTenantUpdate, SameSource, Labelled, Sanitize,
         HasClass, HasNoClass, ClassInv, SparesListed;
    CreateIsClassed(cfg, res, w, call, obj, a);
    DesiredIsOurs(cfg, res, obj);
    WriteIsValid(w.host, Allocate(call.sent, a));
    StripForgetsAllocation(call.sent, a);
    var stored := Allocate(call.sent, a).WithVersion(w.host.next);
    VersionIsNotContent(Allocate(call.sent, a), w.host.next);
    StampedView(call.sent, stored);
  }

  /** What a push stores: the tenant's view under the live object's identity. */
  lemma PushStores(cfg: Config, res: Resource, w: World, call: Call, obj: Object, existing: Object, a: Allocation)
    requires WellNamed(cfg) && Prepared(cfg, res, w, call, obj, existing) && call.op == UpdateHost
    ensures var stored := Allocate(call.sent, a).WithVersion(w.host.next);
            && KeyOf(call.sent) == KeyOf(stored) == KeyOf(Allocate(call.sent, a)) == KeyOf(existing)
            && call.sent.meta.version == existing.meta.version && call.sent.meta.name == existing.meta.name == stored.meta.name
            && stored.Kind() == res.kind && Provenance(cfg, obj, stored) && (Mirrors(obj) ==> ContentEqual(obj, stored))
  {
    hide BuildHostObject, ReverseLookup, Strip, Adopt, Allocate, ContentOf, Desired, HostName, NoLostHostUpdate, SameSource, Sanitize;
    DesiredIsOurs(cfg, res, obj);
    PushedObject(cfg, res, obj, existing, a);
    var host := Desired(cfg, res, obj).value;
    VersionIsNotContent(host, existing.meta.version);
    AdoptKeepsHeader(existing, host.WithVersion(existing.meta.version));
    StripForgetsAllocation(call.sent, a);
    var stored := Allocate(call.sent, a).WithVersion(w.host.next);
    VersionIsNotContent(Allocate(call.sent, a), w.host.next);
    StampedView(host, stored);
  }

  lemma ServedPush(cfg: Config, res: Resource, w: World, call: Call, obj: Object, existing: Object, a: Allocation)
    requires WellNamed(cfg) && w.host.Valid() && Prepared(cfg, res, w, call, obj, existing) && call.op == UpdateHost
    ensures ServedSafely(cfg, res, w, call, call.sent.meta.name, a)
    ensures call.sent.meta.name == existing.meta.name
  {
    hide KeyOf, ReverseLookup, Adopt, Allocate, ContentOf, Desired, Mirrors, Provenance, Extends, Isolated,
         Truthful, NoLostHostUpdate, NoLostTenantUpdate, Labelled, HasClass, HasNoClass, ClassInv, SparesListed;
    PushIsClassed(cfg, res, w, call, obj, existing, a);
    PushStores(cfg, res, w, call, obj, existing, a);
    WriteIsValid(w.host, Allocate(call.sent, a));
    ExtendsItself(w.host);
  }

  lemma ServedPull(cfg: Config, res: Resource, w: World, call: Call, obj: Object, existing: Object, a: Allocation)
    requires WellNamed(cfg) && w.tenant.Valid() && Prepared(cfg, res, w, call, obj, existing) && call.op == UpdateTenant
    ensures ServedSafely(cfg, res, w, call, existing.meta.name, a)
  {
    hide BuildHostObject, ReverseLookup, Strip, Adopt, Allocate, ContentOf, Desired, HostName,
         Truthful, NoLostHostUpdate, NoLostTenantUpdate, SameSource, Labelled, MergeHostContentIntoTenant, Sanitize,
         HasClass, HasNoClass, ClassInv, SparesListed;
    PullIsClassless(cfg, res, w, call, obj, existing, a);
    WriteIsValid(w.tenant, Allocate(call.sent, a));
    ComparableKeepsMeta(cfg, res.kind, existing);
    PulledObject(call.read, obj, a);
    var stored := Allocate(call.sent, a).WithVersion(w.tenant.next);
    VersionIsNotContent(Allocate(call.sent, a), w.tenant.next);
    StampedView(obj, stored);
    StampedView(existing, call.read);
  }

  /** The name whose baseline a write concerns. */
  function MirrorName(call: Call, existing: Object): string {
    if call.op == UpdateTenant then existing.meta.name else call.sent.meta.name
  }

  lemma ServedCall(cfg: Config, res: Resource, w: World, call: Call, obj: Object, existing: Object, a: Allocation)
    requires WellNamed(cfg) && Inv(cfg, w) && Prepared(cfg, res, w, call, obj, existing)
    ensures ServedSafely(cfg, res, w, call, MirrorName(call, existing), a)
  {
    match call.op
    case CreateHost => ServedCreate(cfg, res, w, call, obj, a);
    case UpdateHost => ServedPush(cfg, res, w, call, obj, existing, a);
    case UpdateTenant => ServedPull(cfg, res, w, call, obj, existing, a);
  }

  lemma ServedKeepsClass(cfg: Config, res: Resource, w: World, call: Call, obj: Object, existing: Object, a: Allocation, k: Key)
    requires WellNamed(cfg) && w.host.Valid() && Prepared(cfg, res, w, call, obj, existing) && call.op != UpdateTenant
    requires ClassedAt(cfg, w.host, k)
    ensures ClassedAt(cfg, Serve(w.host, call.op, call.sent, a).0, k)
  {
    hide HasClass, Desired, Adopt, ReverseLookup, ContentOf, Allocate, NoLostHostUpdate, SameSource;
    if call.op == CreateHost {
      CreateIsClassed(cfg, res, w, call, obj, a);
    } else {
      AdoptKeepsHeader(existing, Desired(cfg, res, obj).value.WithVersion(existing.meta.version));
      StripForgetsAllocation(call.sent, a);
      PushIsClassed(cfg, res, w, call, obj, existing, a);
      assert w.host.Lookup(KeyOf(call.sent)) == Some(existing) || !Serve(w.host, call.op, call.sent, a).1.Accepted?;
    }
  }

  lemma PreparedLater(cfg: Config, res: Resource, w: World, w': World, call: Call, obj: Object, existing: Object)
    requires Prepared(cfg, res, w, call, obj, existing) && Later(w, w')
    ensures Prepared(cfg, res, w', call, obj, existing)
  {
    hide Desired, Adopt, ReverseLookup, ContentOf, Comparable, MergeHostContentIntoTenant;
  }

  lemma AuditGrows(cfg: Config, w: World, w': World, a: Attempt)
    requires Inv(cfg, w) && Later(w, w') && w'.tenant.Valid() && w'.host.Valid()
    requires w'.audit == w.audit + [a] && w'.history == w.history && ClassInv(cfg, w')
    requires w'.listed <= w'.tenant.next
    requires SafeAttempt(cfg, w.tenant, w.host, a)
    ensures Inv(cfg, w')
  {
    hide ReverseLookup, ContentOf, Labelled, ClassedAt, NeverDropped, KeepsClass, SparesListed;
    var audited := w'.(audit := w.audit);
    StoresMayGrow(cfg, w, audited);
    assert SafeAttempt(cfg, w'.tenant, w'.host, a);
    forall i | 0 <= i < |w'.audit|
      ensures SafeAttempt(cfg, w'.tenant, w'.host, w'.audit[i])
    {
      assert i < |w.audit| ==> SafeAttempt(cfg, w'.tenant, w'.host, audited.audit[i]);
    }
  }

  lemma UnheardIsSafe(cfg: Config, w: World, call: Call)
    ensures SafeAttempt(cfg, w.tenant, w.host, Attempt(call, None, Unheard, w.tenant, w.listed))
  {
  }

  /** The world once a call has been served and entered in the audit. */
  function AfterServing(w: World, call: Call, a: Allocation): (World, Reply) {
    var store := Side(w, call.op);
    var (store', reply) := Serve(store, call.op, call.sent, a);
    var attempt := Attempt(call, if reply.Accepted? then store.Lookup(KeyOf(call.sent)) else None, reply, w.tenant, w.listed);
    var w' := if call.op == UpdateTenant then w.(tenant := store') else w.(host := store');
    (w'.(audit := w.audit + [attempt]), reply)
  }

  lemma ServingKeepsInv(cfg: Config, res: Resource, w: World, call: Call, obj: Object, existing: Object, a: Allocation)
    requires WellNamed(cfg) && Inv(cfg, w) && Prepared(cfg, res, w, call, obj, existing)
    ensures var (w', reply) := AfterServing(w, call, a);
            && Inv(cfg, w') && Later(w, w')
            && (reply.Accepted? ==> TruthfulEntry(cfg, w'.tenant, w'.host, MirrorName(call, existing), NewBaseline(call, reply.o)))
  {
    hide Desired, Serve, Prepared, SafeAttempt, Truthful, TruthfulEntry, ClassedAt, NeverDropped, Store.Lookup;
    var (w', reply) := AfterServing(w, call, a);
    ServedCall(cfg, res, w, call, obj, existing, a);
    ExtendsItself(w.tenant);
    ExtendsItself(w.host);
    forall k | NeverDropped(cfg, w'.past, k)
      ensures ClassedAt(cfg, w'.host, k)
    {
      if call.op != UpdateTenant {
        ServedKeepsClass(cfg, res, w, call, obj, existing, a, k);
      }
    }
    AuditGrows(cfg, w, w', w'.audit[|w.audit|]);
  }

  lemma UnheardKeepsInv(cfg: Config, w: World, call: Call)
    requires Inv(cfg, w)
    ensures var w' := w.(audit := w.audit + [Attempt(call, None, Unheard, w.tenant, w.listed)]);
            Inv(cfg, w') && Later(w, w')
  {
    hide SafeAttempt, TruthfulEntry, ClassedAt, NeverDropped;
    var w' := w.(audit := w.audit + [Attempt(call, None, Unheard, w.tenant, w.listed)]);
    UnheardIsSafe(cfg, w, call);
    ExtendsItself(w.tenant);
    ExtendsItself(w.host);
    AuditGrows(cfg, w, w', Attempt(call, None, Unheard, w.tenant, w.listed));
  }

  lemma LaterIsTransitive(a: World, b: World, c: World)
    requires Later(a, b) && Later(b, c)
    ensures Later(a, c)
  {
  }

  lemma SubmitIsServing(w: World, call: Call)
    ensures var (w1, turn) := Await(w);
            Submit(w, call)
            == if turn.fault == Rejected then (w1.(audit := w1.audit + [Attempt(call, None, Unheard, w1.tenant, w1.listed)]), Unheard)
               else
                 var (w', reply) := AfterServing(w1, call, turn.allocation);
                 (w', if turn.fault == ReplyLost then Unheard else reply)
  {
    hide Serve, Await;
  }

  lemma SubmitKeepsInv(cfg: Config, res: Resource, w: World, call: Call, obj: Object, existing: Object)
    requires WellNamed(cfg) && Inv(cfg, w) && Prepared(cfg, res, w, call, obj, existing)
    ensures var (w', reply) := Submit(w, call);
            && Inv(cfg, w') && Later(w, w') && w'.history == w.history && w'.limiter == w.limiter
            && (reply.Accepted? ==> TruthfulEntry(cfg, w'.tenant, w'.host, MirrorName(call, existing), NewBaseline(call, reply.o)))
  {
    hide Submit, Serve, Await, Prepared, Inv, Later, TruthfulEntry;
    AwaitKeepsInv(cfg, w);
    SubmitIsServing(w, call);
    var (w1, turn) := Await(w);
    if turn.fault == Rejected {
      UnheardKeepsInv(cfg, w1, call);
    } else {
      PreparedLater(cfg, res, w, w1, call, obj, existing);
      ServingKeepsInv(cfg, res, w1, call, obj, existing, turn.allocation);
    }
    LaterIsTransitive(w, w1, Submit(w, call).0);
  }

  lemma ServedDelete(cfg: Config, kind: string, w: World, call: Call, desired: set<string>)
    requires w.host.Valid() && call.op == DeleteHost && call.sent == call.read
    requires Labelled(cfg, kind, call.read) && OnRecord(w.host, call.read)
    requires Covered(cfg, call.res, w, desired) && call.sent.meta.name !in desired
    ensures var (s', reply) := Delete(w.host, call.sent);
            && s'.Valid() && Extends(w.host, s') && (forall k :: ClassedAt(cfg, w.host, k) ==> ClassedAt(cfg, s', k))
            && SafeAttempt(cfg, w.tenant, w.host, Attempt(call, if reply.Accepted? then w.host.Lookup(KeyOf(call.sent)) else None, reply, w.tenant, w.listed))
  {
    hide ReverseLookup, HasClass, Sanitize, Wanted, HostName;
  }

  /** Every object listed and still standing has its name among those desired. */
  ghost predicate Covered(cfg: Config, res: Resource, w: World, desired: set<string>) {
    forall k :: k in w.tenant.objects && Wanted(cfg, res, w.tenant.objects[k]) && w.tenant.objects[k].meta.version < w.listed
      ==> MirrorKey(cfg, res, w.tenant.objects[k]).name in desired
  }

  lemma CoveredLater(cfg: Config, res: Resource, w: World, w': World, desired: set<string>)
    requires Covered(cfg, res, w, desired) && Later(w, w') && w'.listed == w.listed <= w.tenant.next
    ensures Covered(cfg, res, w', desired)
  {
    hide Wanted, HostName;
  }

  lemma SubmitDeleteKeepsInv(cfg: Config, kind: string, w: World, call: Call, desired: set<string>)
    requires Inv(cfg, w) && call.op == DeleteHost && call.sent == call.read
    requires Labelled(cfg, kind, call.read) && OnRecord(w.host, call.read)
    requires Covered(cfg, call.res, w, desired) && call.sent.meta.name !in desired
    ensures var (w', reply) := Submit(w, call);
            Inv(cfg, w') && Later(w, w') && w'.history == w.history && w'.listed == w.listed
  {
    hide Submit, Await, Inv, Later, Labelled, Covered;
    AwaitKeepsInv(cfg, w);
    SubmitIsServing(w, call);
    var (w1, turn) := Await(w);
    ListingIsPast(cfg, w);
    CoveredLater(cfg, call.res, w, w1, desired);
    RecordStands(w, w1, call.read);
    if turn.fault == Rejected {
      UnheardKeepsInv(cfg, w1, call);
    } else {
      DeletingKeepsInv(cfg, kind, w1, call, desired, turn.allocation);
    }
    LaterIsTransitive(w, w1, Submit(w, call).0);
  }

  lemma ListingIsPast(cfg: Config, w: World)
    requires Inv(cfg, w)
    ensures w.listed <= w.tenant.next
  {
  }

  lemma RecordStands(w: World, w': World, o: Object)
    requires OnRecord(w.host, o) && Later(w, w')
    ensures OnRecord(w'.host, o)
  {
  }

  lemma DeletingKeepsInv(cfg: Config, kind: string, w: World, call: Call, desired: set<string>, a: Allocation)
    requires Inv(cfg, w) && call.op == DeleteHost && call.sent == call.read
    requires Labelled(cfg, kind, call.read) && OnRecord(w.host, call.read)
    requires Covered(cfg, call.res, w, desired) && call.sent.meta.name !in desired
    ensures var w' := AfterServing(w, call, a).0;
            Inv(cfg, w') && Later(w, w') && w'.history == w.history && w'.listed == w.listed
  {
    hide Delete, Truthful, Labelled, ClassedAt, NeverDropped, SafeAttempt, Covered;
    var w' := AfterServing(w, call, a).0;
    ServedDelete(cfg, kind, w, call, desired);
    ExtendsItself(w.tenant);
    AuditGrows(cfg, w, w', w'.audit[|w.audit|]);
  }

  lemma TrackedHistory(cfg: Config, w: World, name: string, c: Converged)
    requires Inv(cfg, w) && TruthfulEntry(cfg, w.tenant, w.host, name, c)
    ensures Inv(cfg, SetConverged(w, name, c.tenantVersion, c.hostVersion))
  {
    hide ReverseLookup, ContentOf, Labelled;
  }

  // ---- one pair ----

  lemma WriteOutKeepsInv(cfg: Config, res: Resource, w: World, call: Call, obj: Object, existing: Object, track: bool, skip: Decision, done: Decision)
    requires WellNamed(cfg) && Inv(cfg, w) && Prepared(cfg, res, w, call, obj, existing)
    ensures var w' := WriteOut(w, call, MirrorName(call, existing), track, skip, done).0;
            Inv(cfg, w') && Later(w, w')
  {
    hide Prepared, SafeAttempt, TruthfulEntry, Submit;
    match Allow(w) {
      case None =>
      case Some(granted) =>
        StoresMayGrow(cfg, w, granted);
        PreparedLater(cfg, res, w, granted, call, obj, existing);
        SubmitKeepsInv(cfg, res, granted, call, obj, existing);
        var (w1, reply) := Submit(granted, call);
        if reply.Accepted? && track {
          TrackedHistory(cfg, w1, MirrorName(call, existing), NewBaseline(call, reply.o));
        }
    }
  }

  /** A verdict is sound when what it would write is prepared, and when the
      agreement it claims is there. */
  ghost predicate Sound(cfg: Config, res: Resource, policy: Policy, w: World, obj: Object, host: Object, found: Option<Object>, verdict: Verdict) {
    && (found.None? ==> verdict.MakeMirror?)
    && (WantsWrite(verdict) ==>
          var call := CallFor(cfg, res, policy, w.history, obj, host, found, verdict);
          var existing := if found.Some? then found.value else obj;
          Prepared(cfg, res, w, call, obj, existing) && host.meta.name == MirrorName(call, existing))
    && (verdict.Agree? ==>
          && OnRecord(w.host, found.value) && found.value.Kind() == res.kind && found.value.meta.name == host.meta.name
          && Ours(cfg, res, obj, found.value) && ContentEqual(obj, Comparable(cfg, res.kind, found.value)))
  }

  /** Under "manual" the recorded versions are compared before either side is
      overwritten; together with a truthful history this is the whole guard. */
  lemma ManualGuard(cfg: Config, res: Resource, policy: Policy, w: World, obj: Object, name: string, existing: Object, verdict: Verdict, call: Call)
    requires Inv(cfg, w) && OnRecord(w.tenant, obj) && OnRecord(w.host, existing)
    requires obj.Kind() == res.kind == existing.Kind() && Ours(cfg, res, obj, existing)
    requires call.baseline == Baseline(w.history, name) && call.res == res && call.policy == policy
    requires res.direction == Bidirectional && policy == Manual && (verdict.Push? || verdict.Pull?) ==>
      && name in w.history
      && (verdict.Push? ==> existing.meta.version == w.history[name].hostVersion)
      && (verdict.Pull? ==> obj.meta.version == w.history[name].tenantVersion)
    ensures verdict.Push? && call.read == obj ==> NoLostHostUpdate(cfg, w.tenant, call, existing)
    ensures verdict.Pull? ==> NoLostTenantUpdate(cfg, w.host, call, obj)
  {
    hide ReverseLookup, ContentOf, Labelled;
    if name in w.history {
      assert TruthfulEntry(cfg, w.tenant, w.host, name, w.history[name]);
    }
  }

  lemma StandingIsOnRecord(cfg: Config, w: World, k: Key, o: Object)
    requires Inv(cfg, w) && w.host.Lookup(k) == Some(o)
    ensures OnRecord(w.host, o) && KeyOf(o) == k
  {
  }

  lemma UpdateIsPrepared(cfg: Config, res: Resource, policy: Policy, w: World, obj: Object, host: Object, existing: Object, verdict: Verdict)
    requires WellNamed(cfg) && Inv(cfg, w)
    requires obj.Kind() == res.kind && Desired(cfg, res, obj) == Success(host) && OnRecord(w.tenant, obj)
    requires w.host.Lookup(KeyOf(host)) == Some(existing) && host.Kind() == res.kind && Ours(cfg, res, obj, existing)
    requires verdict == Judge(cfg, res, policy, w.history, obj, host, Some(existing)) && (verdict.Push? || verdict.Pull?)
    ensures var call := CallFor(cfg, res, policy, w.history, obj, host, Some(existing), verdict);
            Prepared(cfg, res, w, call, obj, existing) && host.meta.name == MirrorName(call, existing)
  {
    hide Desired, ReverseLookup, ContentOf, HostName, Sanitize, Adopt, Comparable, MergeHostContentIntoTenant, Labelled,
         NoLostHostUpdate, NoLostTenantUpdate, Inv, SameSource;
    var call := CallFor(cfg, res, policy, w.history, obj, host, Some(existing), verdict);
    StandingIsOnRecord(cfg, w, KeyOf(host), existing);
    AdoptKeepsHeader(existing, host.WithVersion(existing.meta.version));
    ManualGuard(cfg, res, policy, w, obj, host.meta.name, existing, verdict, call);
  }

  lemma FoundVerdictIsSound(cfg: Config, res: Resource, policy: Policy, w: World, obj: Object, host: Object, existing: Object)
    requires WellNamed(cfg) && Inv(cfg, w)
    requires obj.Kind() == res.kind && Desired(cfg, res, obj) == Success(host) && OnRecord(w.tenant, obj)
    requires w.host.Lookup(KeyOf(host)) == Some(existing) && host.Kind() == res.kind
    ensures Sound(cfg, res, policy, w, obj, host, Some(existing), Judge(cfg, res, policy, w.history, obj, host, Some(existing)))
  {
    hide Desired, ReverseLookup, ContentOf, Comparable, Prepared, CallFor, Truthful, SafeAttempt, SameSource;
    var verdict := Judge(cfg, res, policy, w.history, obj, host, Some(existing));
    if verdict.Push? || verdict.Pull? {
      UpdateIsPrepared(cfg, res, policy, w, obj, host, existing, verdict);
    }
  }

  lemma MissingVerdictIsSound(cfg: Config, res: Resource, policy: Policy, w: World, obj: Object, host: Object)
    requires obj.Kind() == res.kind && Desired(cfg, res, obj) == Success(host) && OnRecord(w.tenant, obj)
    ensures Sound(cfg, res, policy, w, obj, host, None, Judge(cfg, res, policy, w.history, obj, host, None))
  {
    hide Desired, ReverseLookup, ContentOf, Comparable;
  }

  /** Verdicts are reached on what was read, and what was read is on record. */
  lemma VerdictIsSound(cfg: Config, res: Resource, policy: Policy, w: World, obj: Object)
    requires WellNamed(cfg) && Inv(cfg, w)
    requires obj.Kind() == res.kind && Desired(cfg, res, obj).Success? && OnRecord(w.tenant, obj)
    ensures var host := Desired(cfg, res, obj).value;
            var found := w.host.Lookup(KeyOf(host));
            Sound(cfg, res, policy, w, obj, host, found, Judge(cfg, res, policy, w.history, obj, host, found))
  {
    hide Desired, ReverseLookup, ContentOf, Inv, Prepared, Comparable, Provenance;
    DesiredIsOurs(cfg, res, obj);
    var host := Desired(cfg, res, obj).value;
    match w.host.Lookup(KeyOf(host))
    case None => MissingVerdictIsSound(cfg, res, policy, w, obj, host);
    case Some(existing) => FoundVerdictIsSound(cfg, res, policy, w, obj, host, existing);
  }

  lemma AgreementIsTruthful(cfg: Config, res: Resource, w: World, obj: Object, existing: Object)
    requires Inv(cfg, w) && OnRecord(w.tenant, obj) && OnRecord(w.host, existing)
    requires obj.Kind() == res.kind == existing.Kind() && Ours(cfg, res, obj, existing)
    requires ContentEqual(obj, Comparable(cfg, res.kind, existing))
    ensures Inv(cfg, SetConverged(w, existing.meta.name, obj.meta.version, existing.meta.version))
  {
    hide ReverseLookup, ContentOf, Labelled;
    TrackedHistory(cfg, w, existing.meta.name, Converged(obj.meta.version, existing.meta.version));
  }

  lemma SettleKeepsInv(cfg: Config, res: Resource, policy: Policy, w: World, obj: Object, host: Object, found: Option<Object>, verdict: Verdict)
    requires WellNamed(cfg) && Inv(cfg, w) && obj.Kind() == res.kind && OnRecord(w.tenant, obj)
    requires Sound(cfg, res, policy, w, obj, host, found, verdict)
    ensures var w' := Settle(cfg, res, policy, w, obj, host, found, verdict).0;
            Inv(cfg, w') && Later(w, w')
  {
    hide Desired, ReverseLookup, ContentOf, Comparable, WriteOut, CallFor, Prepared, SafeAttempt, Truthful, Report, Inv;
    var ref := RefFor(cfg, res.kind, obj);
    var existing := if found.Some? then found.value else obj;
    if verdict.Agree? {
      AgreementIsTruthful(cfg, res, w, obj, existing);
    } else if WantsWrite(verdict) {
      WriteOutKeepsInv(cfg, res, w, CallFor(cfg, res, policy, w.history, obj, host, found, verdict), obj, existing,
                       Tracks(res, verdict), Decide(res, ref, host, SkipAction, RateLimited), Report(res, ref, host, verdict));
    }
  }

  /** One reconciled pair keeps everything, however stale the tenant object it
      was handed and whoever writes in between. */
  lemma ReconcileKeepsInv(cfg: Config, res: Resource, policy: Policy, w: World, obj: Object)
    requires WellNamed(cfg) && Inv(cfg, w)
    requires obj.Kind() == res.kind && Desired(cfg, res, obj).Success? && OnRecord(w.tenant, obj)
    ensures var w' := Reconcile(cfg, res, policy, w, obj, Desired(cfg, res, obj).value).0;
            Inv(cfg, w') && Later(w, w')
  {
    hide Desired, Judge, Settle, Sound, Inv, Await;
    AwaitKeepsInv(cfg, w);
    var w1 := Await(w).0;
    var host := Desired(cfg, res, obj).value;
    var found := w1.host.Lookup(KeyOf(host));
    VerdictIsSound(cfg, res, policy, w1, obj);
    SettleKeepsInv(cfg, res, policy, w1, obj, host, found, Judge(cfg, res, policy, w1.history, obj, host, found));
  }
}
