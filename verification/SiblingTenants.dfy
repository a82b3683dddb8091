/** Two tenants that share a host namespace: when the garbage collection of one
    reaches into the other's mirrors. */
module SiblingTenants {
  import opened Cluster
  import opened Engine
  import HostNames
  import opened Naming
  import opened Objects
  import opened OrphanRaces
  import opened Orphans
  import opened PassSafety
  import opened Safety
  import opened SyncRun
  import Transform
  import opened Wrappers

  // ---- what a pass sends for deletion, and what it meets ----

  /** An accepted delete met an object at the key it named, and that was the one
      listed unless it has another version. */
  ghost predicate MeetsListed(a: Attempt) {
    a.reply.Accepted? ==>
      && a.before.Some? && KeyOf(a.before.value) == KeyOf(a.call.sent)
      && (Unreplaced(a) ==> a.before.value == a.call.sent)
  }

  /** What was met has still the version that was listed. */
  predicate Unreplaced(a: Attempt) {
    a.before.Some? && a.before.value.meta.version == a.call.sent.meta.version
  }

  /** Between w and w', only these host objects were sent for deletion. */
  ghost predicate DeletesAmong(w: World, w': World, hosts: seq<Object>) {
    && w.audit <= w'.audit
    && forall i :: |w.audit| <= i < |w'.audit| && w'.audit[i].call.op == DeleteHost ==>
         w'.audit[i].call.sent in hosts && MeetsListed(w'.audit[i])
  }

  ghost predicate ServersStand(w: World) {
    w.tenant.Valid() && w.host.Valid()
  }

  lemma AwaitKeepsServers(w: World)
    requires ServersStand(w)
    ensures ServersStand(Await(w).0) && Grows(w, Await(w).0)
  {
    hide Store.Valid, Extends;
    ExtendsItself(w.tenant);
    ExtendsItself(w.host);
    if w.script != [] {
      EditsKeepValid(w.tenant, w.script[0].tenantEdits);
      EditsKeepValid(w.host, w.script[0].hostEdits);
    }
  }

  lemma RemoveIsValid(s: Store, k: Key)
    requires s.Valid()
    ensures s.Remove(k).Valid() && Extends(s, s.Remove(k))
  {
  }

  lemma ServeKeepsValid(s: Store, op: Op, o: Object, a: Transform.Allocation)
    requires s.Valid()
    ensures Serve(s, op, o, a).0.Valid() && Extends(s, Serve(s, op, o, a).0)
  {
    hide Transform.Allocate, Extends, Store.Valid, Store.Write, Store.Remove;
    ExtendsItself(s);
    WriteIsValid(s, Transform.Allocate(o, a));
    RemoveIsValid(s, KeyOf(o));
  }

  lemma SubmitKeepsServers(w: World, call: Call)
    requires ServersStand(w)
    ensures ServersStand(Submit(w, call).0)
  {
    hide Serve, Await, Store.Valid, Extends;
    AwaitKeepsServers(w);
    var (w1, turn) := Await(w);
    ServeKeepsValid(Side(w1, call.op), call.op, call.sent, turn.allocation);
  }

  lemma ReconcileKeepsServers(cfg: Config, res: Resource, policy: Policy, w: World, obj: Object, host: Object)
    requires ServersStand(w)
    ensures ServersStand(Reconcile(cfg, res, policy, w, obj, host).0)
  {
    hide Judge, Submit, CallFor, Await, Report, RefFor, Store.Valid;
    AwaitKeepsServers(w);
    var w1 := Await(w).0;
    var found := w1.host.Lookup(KeyOf(host));
    var verdict := Judge(cfg, res, policy, w1.history, obj, host, found);
    JudgeFindsNothing(cfg, res, policy, w1.history, obj, host, found);
    if WantsWrite(verdict) && Allow(w1).Some? {
      SubmitKeepsServers(Allow(w1).value, CallFor(cfg, res, policy, w1.history, obj, host, found, verdict));
    }
  }

  lemma {:induction false} ItemsKeepServers(cfg: Config, res: Resource, policy: Policy, t: Tally, items: seq<Object>)
    requires ServersStand(t.w)
    ensures ServersStand(RunItems(cfg, res, policy, t, items).w)
    decreases |items|
  {
    hide Reconcile, Desired, Eligible, ServersStand;
    if items != [] {
      if Desired(cfg, res, items[0]).Success? {
        ReconcileKeepsServers(cfg, res, policy, t.w, items[0], Desired(cfg, res, items[0]).value);
      }
      ItemsKeepServers(cfg, res, policy, RunItem(cfg, res, policy, t, items[0]), items[1..]);
    }
  }

  lemma ItemsDeleteAmongNone(cfg: Config, res: Resource, policy: Policy, t: Tally, items: seq<Object>)
    ensures DeletesAmong(t.w, RunItems(cfg, res, policy, t, items).w, [])
  {
    hide RunItems;
    var w' := RunItems(cfg, res, policy, t, items).w;
    ItemsDeleteNothing(cfg, res, policy, t, items, {});
    forall i | |t.w.audit| <= i < |w'.audit|
      ensures w'.audit[i].call.op != DeleteHost
    {
      ItemsDeleteNothing(cfg, res, policy, t, items, {w'.audit[i].call.sent.meta.name});
    }
  }

  lemma DeleteMeetsListed(w: World, call: Call)
    requires ServersStand(w) && call.op == DeleteHost && OnRecord(w.host, call.sent)
    ensures var w' := Submit(w, call).0;
            && ServersStand(w') && Extends(w.host, w'.host)
            && |w'.audit| == |w.audit| + 1 && w.audit <= w'.audit && w'.audit[|w.audit|].call == call && MeetsListed(w'.audit[|w.audit|])
  {
    hide Await;
    AwaitKeepsServers(w);
    AwaitKeepsAudit(w);
  }

  lemma AwaitKeepsAudit(w: World)
    ensures Await(w).0.audit == w.audit
  {
  }

  ghost predicate AllOnHost(s: Store, hosts: seq<Object>) {
    forall i :: 0 <= i < |hosts| ==> OnRecord(s, hosts[i])
  }

  lemma {:induction false} CollectionDeletesAmong(res: Resource, policy: Policy, t: Tally, hosts: seq<Object>)
    requires ServersStand(t.w) && AllOnHost(t.w.host, hosts)
    ensures DeletesAmong(t.w, CollectOrphans(res, policy, t, hosts).w, hosts)
    decreases |hosts|
  {
    hide LookedUp, Submit, ServersStand, MeetsListed;
    if hosts != [] {
      var o := hosts[0];
      var t' := CollectOne(res, policy, t, o);
      assert o in hosts;
      if o.meta.name !in t.desired && Allow(t.w).Some? {
        GrantKeepsServers(t.w, Allow(t.w).value);
        DeleteMeetsListed(Allow(t.w).value, Call(DeleteHost, o, o, Baseline(t.w.history, o.meta.name), res, policy));
      }
      assert DeletesAmong(t.w, t'.w, hosts);
      CollectionDeletesAmong(res, policy, t', hosts[1..]);
    }
  }

  lemma GrantKeepsServers(w: World, w': World)
    requires ServersStand(w) && w'.tenant == w.tenant && w'.host == w.host
    ensures ServersStand(w')
  {
  }

  /** In any interleaving, whatever a pass sends for deletion carries its own
      selector's labels; and so does what it removes, unless that was put in the
      listed object's place since. */
  lemma PassDeletesSelected(cfg: Config, res: Resource, policy: Policy, w: World, orders: Orders)
    requires ServersStand(w) && Answered(cfg, res, policy, w, orders)
    ensures var w' := SyncPass(cfg, res, policy, w, orders).w;
            && w.audit <= w'.audit
            && forall i :: |w.audit| <= i < |w'.audit| && w'.audit[i].call.op == DeleteHost ==>
                 && Labelled(cfg, res.kind, w'.audit[i].call.sent) && MeetsListed(w'.audit[i])
                 && (Unreplaced(w'.audit[i]) && w'.audit[i].reply.Accepted? ==> Labelled(cfg, res.kind, w'.audit[i].before.value))
  {
    hide RunItems, CollectOrphans, Labelled, Await, Lists, ServersStand, Unreplaced;
    AwaitKeepsServers(w);
    AwaitKeepsAudit(w);
    var (w1, turn) := AskTenant(w);
    if turn.fault == Served {
      GrantKeepsServers(Await(w).0, w1);
      var t0 := Tally(w1, [], [], {});
      ItemsDeleteAmongNone(cfg, res, policy, t0, orders.items);
      ItemsKeepServers(cfg, res, policy, t0, orders.items);
      var t := RunItems(cfg, res, policy, t0, orders.items);
      AwaitKeepsServers(t.w);
      AwaitKeepsAudit(t.w);
      var (w2, turn2) := Await(t.w);
      if turn2.fault == Served {
        ListedOnHost(cfg, res.kind, w2, orders.hosts);
        CollectionDeletesAmong(res, policy, Tally(w2, [], [], t.desired), orders.hosts);
      }
    }
  }

  lemma ListedOnHost(cfg: Config, kind: string, w: World, hosts: seq<Object>)
    requires ServersStand(w) && ListsLabelled(cfg, kind, w.host, hosts)
    ensures AllOnHost(w.host, hosts)
  {
    hide Labelled;
  }

  // ---- one tenant's passes and another's mirrors ----

  predicate SameSelector(a: Config, b: Config) {
    a.hostNamespace == b.hostNamespace && Sanitize(a.tenant) == Sanitize(b.tenant)
  }

  /** The attempt removed an object under the labels of this tenant. */
  predicate Removes(a: Attempt, cfg: Config, kind: string) {
    a.call.op == DeleteHost && a.reply.Accepted? && a.before.Some? && Labelled(cfg, kind, a.before.value)
  }

  /** A pass of tenant `a` removes an object that carries the labels of tenant `b`. */
  ghost predicate DeletesFrom(a: Config, b: Config, res: Resource, policy: Policy, w: World, orders: Orders) {
    && ServersStand(w) && Answered(a, res, policy, w, orders)
    && var audit := SyncPass(a, res, policy, w, orders).w.audit;
       exists i :: |w.audit| <= i < |audit| && Removes(audit[i], b, res.kind)
  }

  /** And that is the very object it had listed. */
  ghost predicate DeletesListedFrom(a: Config, b: Config, res: Resource, policy: Policy, w: World, orders: Orders) {
    && ServersStand(w) && Answered(a, res, policy, w, orders)
    && var audit := SyncPass(a, res, policy, w, orders).w.audit;
       exists i :: |w.audit| <= i < |audit| && Removes(audit[i], b, res.kind) && Unreplaced(audit[i])
  }

  lemma OneLabelOneSelector(a: Config, b: Config, kind: string, o: Object)
    requires Labelled(a, kind, o) && Labelled(b, kind, o)
    ensures SameSelector(a, b)
  {
    hide Sanitize;
  }

  /** A pass removes another tenant's object only if the two sanitize to one label,
      or if that object took the place of a listed one. */
  lemma CrossDeletionsAreReplacements(a: Config, b: Config, res: Resource, policy: Policy, w: World, orders: Orders, i: nat)
    requires ServersStand(w) && Answered(a, res, policy, w, orders)
    requires |w.audit| <= i < |SyncPass(a, res, policy, w, orders).w.audit|
    requires Removes(SyncPass(a, res, policy, w, orders).w.audit[i], b, res.kind)
    ensures SameSelector(a, b) || !Unreplaced(SyncPass(a, res, policy, w, orders).w.audit[i])
  {
    hide SyncPass, Answered, Labelled, ServersStand, SameSelector, Unreplaced;
    PassDeletesSelected(a, res, policy, w, orders);
    var attempt := SyncPass(a, res, policy, w, orders).w.audit[i];
    if Unreplaced(attempt) {
      OneLabelOneSelector(a, b, res.kind, attempt.before.value);
    }
  }

  /** With nobody about, a pass of `a` over an empty tenant deletes the one mirror
      on the host, although it is `b`'s. */
  lemma SiblingLosesItsMirror(a: Config, b: Config, res: Resource, policy: Policy, w: World, mirror: Object)
    requires SameSelector(a, b) && Labelled(b, res.kind, mirror) && ServersStand(w)
    requires w.tenant.objects == map[] && w.host.objects == map[KeyOf(mirror) := mirror] && w.script == [] && w.limiter == None
    ensures DeletesListedFrom(a, b, res, policy, w, Orders([], [mirror]))
    ensures KeyOf(mirror) !in SyncPass(a, res, policy, w, Orders([], [mirror])).w.host.objects
  {
    hide Sanitize, LookedUp, KeyOf, ServersStand;
    var w1 := AskTenant(w).0;
    var t := Tally(w1, [], [], {});
    assert RunItems(a, res, policy, t, []) == t;
    var g := CollectOne(res, policy, t, mirror);
    assert [mirror][1..] == [];
    assert CollectOrphans(res, policy, t, [mirror]) == g;
    var attempt := g.w.audit[|w.audit|];
    assert attempt.before == Some(mirror) && Removes(attempt, b, res.kind) && Unreplaced(attempt);
  }

  /** An object under the labels of a tenant. */
  function Stamped(cfg: Config, kind: string): Object {
    Object(Metadata("x", cfg.hostNamespace, Transform.HostLabels(HostNames.ResourceRef(cfg.tenant, cfg.hostNamespace, "", kind, "")), map[], 1, map[]),
           map["kind" := Str(kind)])
  }

  lemma StampedIsLabelled(cfg: Config, kind: string)
    ensures Labelled(cfg, kind, Stamped(cfg, kind))
  {
    hide Sanitize;
    var ref := HostNames.ResourceRef(cfg.tenant, cfg.hostNamespace, "", kind, "");
    Transform.StampedLabels(map[], ref);
    assert map[] + Transform.HostLabels(ref) == Transform.HostLabels(ref);
  }

  /** Of the objects it has listed, a tenant's passes delete only its own if and only
      if no other tenant of the host namespace sanitizes to the same label. */
  lemma DeletionsStayWithinTenantIff(a: Config, b: Config, res: Resource)
    requires a.hostNamespace == b.hostNamespace
    ensures (exists policy, w, orders :: DeletesListedFrom(a, b, res, policy, w, orders)) <==> Sanitize(a.tenant) == Sanitize(b.tenant)
  {
    hide Sanitize, SyncPass, Answered, ServersStand, Removes;
    forall policy, w, orders | DeletesListedFrom(a, b, res, policy, w, orders)
      ensures Sanitize(a.tenant) == Sanitize(b.tenant)
    {
      var audit := SyncPass(a, res, policy, w, orders).w.audit;
      var i :| |w.audit| <= i < |audit| && Removes(audit[i], b, res.kind) && Unreplaced(audit[i]);
      CrossDeletionsAreReplacements(a, b, res, policy, w, orders, i);
    }
    if Sanitize(a.tenant) == Sanitize(b.tenant) {
      var mirror := Stamped(b, res.kind);
      StampedIsLabelled(b, res.kind);
      var w := World(Store(map[], map[], 1), Store(map[KeyOf(mirror) := mirror], map[1 := mirror], 2), map[], None, [], [], [], 0);
      assert ServersStand(w) by { OneMirrorStands(w, mirror); }
      SiblingLosesItsMirror(a, b, res, Manual, w, mirror);
      assert DeletesListedFrom(a, b, res, Manual, w, Orders([], [mirror]));
    }
  }

  lemma OneMirrorStands(w: World, mirror: Object)
    requires w.tenant == Store(map[], map[], 1) && w.host == Store(map[KeyOf(mirror) := mirror], map[1 := mirror], 2)
    requires mirror.meta.version == 1
    ensures ServersStand(w)
  {
  }

  /** So two well-named tenants delete from each other only what took the place of a
      listed object. */
  lemma WellNamedTenantsStayApart(a: Config, b: Config, res: Resource, policy: Policy, w: World, orders: Orders)
    requires WellNamed(a) && WellNamed(b) && a.hostNamespace == b.hostNamespace && a.tenant != b.tenant
    ensures !DeletesListedFrom(a, b, res, policy, w, orders)
  {
    hide Sanitize, DeletesListedFrom;
    SanitizeFixpoint(a.tenant);
    SanitizeFixpoint(b.tenant);
    DeletionsStayWithinTenantIff(a, b, res);
  }

  /** The same over every run of a well-named tenant. */
  lemma RunsRemoveOwnOrReplaced(a: Config, b: Config, steps: seq<Step>, i: nat)
    requires WellNamed(a) && WellNamed(b) && a.tenant != b.tenant && IsRun(a, Genesis(), steps)
    requires var audit := TakeSteps(a, Genesis(), steps).w.audit;
             i < |audit| && audit[i].before.Some? && Removes(audit[i], b, audit[i].before.value.Kind())
    ensures var attempt := TakeSteps(a, Genesis(), steps).w.audit[i];
            attempt.before.value.meta.version != attempt.call.read.meta.version
  {
    hide TakeSteps, Labelled, Sanitize;
    DeletedIsListedIffUnchanged(a, steps, i);
    SanitizeFixpoint(a.tenant);
    SanitizeFixpoint(b.tenant);
    var deleted := TakeSteps(a, Genesis(), steps).w.audit[i].before.value;
    if Labelled(a, deleted.Kind(), deleted) {
      OneLabelOneSelector(a, b, deleted.Kind(), deleted);
    }
  }

  // ---- what takes a listed orphan's place ----

  /** The two lists are served; then another writer puts `mirror` on the host. */
  function Replaces(mirror: Object): seq<Turn> {
    [QUIET, QUIET, Turn([], [Put(mirror)], Served, QUIETLY)]
  }

  /** The delete is unconditional: a mirror of `b` that took the place of a listed
      orphan of `a` is removed, whatever the two tenants are called. */
  lemma ReplacementIsDeleted(a: Config, b: Config, res: Resource, policy: Policy, w: World, orphan: Object, mirror: Object)
    requires Labelled(a, res.kind, orphan) && Labelled(b, res.kind, mirror) && KeyOf(mirror) == KeyOf(orphan) && ServersStand(w)
    requires w.tenant.objects == map[] && w.host.objects == map[KeyOf(orphan) := orphan] && w.limiter == None && w.script == Replaces(mirror)
    ensures DeletesFrom(a, b, res, policy, w, Orders([], [orphan]))
    ensures KeyOf(mirror) !in SyncPass(a, res, policy, w, Orders([], [orphan])).w.host.objects
  {
    hide Labelled, CollectOne, KeyOf, ApplyEdits, ServersStand;
    PutStands(w.tenant, mirror);
    PutStands(w.host, mirror);
    var w1 := AskTenant(w).0;
    var t := Tally(w1, [], [], {});
    assert RunItems(a, res, policy, t, []) == t;
    var g0 := Tally(Await(w1).0, [], [], {});
    assert g0.w.script == [Turn([], [Put(mirror)], Served, QUIETLY)] && g0.w.tenant == w.tenant && g0.w.host == w.host;
    DeleteTakesWhatItMeets(a, res, policy, g0, orphan, mirror);
    var g := CollectOne(res, policy, g0, orphan);
    assert [orphan][1..] == [];
    assert CollectOrphans(res, policy, g0, [orphan]) == g;
    VersionIsNoLabel(b, res.kind, mirror, w.host.next);
    assert Removes(g.w.audit[|w.audit|], b, res.kind);
  }

  lemma VersionIsNoLabel(cfg: Config, kind: string, o: Object, version: nat)
    ensures Labelled(cfg, kind, o.WithVersion(version)) == Labelled(cfg, kind, o)
  {
  }

  /** Two tenants with different labels may well share a key: for any four labels,
      the object p-x-q in c of tenant d, and p in q of tenant c-x-d. */
  lemma SiblingsShareAKey(a: Config, b: Config, res: Resource, mine: Object, theirs: Object, p: string, q: string, c: string, d: string)
    requires IsLabel(p) && IsLabel(q) && IsLabel(c) && IsLabel(d) && a.hostNamespace == b.hostNamespace
    requires a.tenant == d && b.tenant == c + "-x-" + d
    requires mine.meta.name == p + "-x-" + q && mine.meta.namespace == c
    requires theirs.meta.name == p && theirs.meta.namespace == q
    ensures MirrorKey(a, res, mine) == MirrorKey(b, res, theirs)
    ensures IsLabel(a.tenant) && IsLabel(b.tenant) && a.tenant != b.tenant
  {
    hide IsLabel, HostNames.HostName;
    HostNames.ShortNamesCanCollide(p, q, c, d);
    assert |b.tenant| > |a.tenant|;
  }

  /** So, of two well-named tenants, one may lose a true mirror to the other's pass:
      it only has to be created between the other's list and its delete. */
  lemma WellNamedTenantLosesItsMirror(a: Config, b: Config, res: Resource, policy: Policy, w: World, mine: Object, theirs: Object)
    requires WellNamed(a) && WellNamed(b) && a.tenant != b.tenant && MirrorKey(a, res, mine) == MirrorKey(b, res, theirs)
    requires Wanted(a, res, mine) && Wanted(b, res, theirs) && ServersStand(w)
    requires var orphan := FirstMirror(a, res, mine, 1);
             && w.tenant.objects == map[] && w.host.objects == map[KeyOf(orphan) := orphan] && w.limiter == None
             && w.script == Replaces(FirstMirror(b, res, theirs, 1))
    ensures var orphan := FirstMirror(a, res, mine, 1);
            && DeletesFrom(a, b, res, policy, w, Orders([], [orphan])) && !DeletesListedFrom(a, b, res, policy, w, Orders([], [orphan]))
            && MirrorKey(b, res, theirs) !in SyncPass(a, res, policy, w, Orders([], [orphan])).w.host.objects
  {
    hide Desired, Eligible, SyncPass, Answered, FirstMirror, MirrorKey, KeyOf, Labelled, ServersStand, DeletesFrom, DeletesListedFrom;
    FirstMirrorIsLabelled(a, res, mine, 1);
    FirstMirrorIsLabelled(b, res, theirs, 1);
    assert a.hostNamespace == b.hostNamespace by { KeysNamespaces(a, b, res, mine, theirs); }
    ReplacementIsDeleted(a, b, res, policy, w, FirstMirror(a, res, mine, 1), FirstMirror(b, res, theirs, 1));
    WellNamedTenantsStayApart(a, b, res, policy, w, Orders([], [FirstMirror(a, res, mine, 1)]));
  }

  lemma KeysNamespaces(a: Config, b: Config, res: Resource, mine: Object, theirs: Object)
    requires MirrorKey(a, res, mine) == MirrorKey(b, res, theirs)
    ensures a.hostNamespace == b.hostNamespace
  {
    hide HostNames.HostName;
  }

  /** And a tenant with a dash in its name has a sibling, one dot away, whose selector
      is the same. */
  lemma DottedSiblingReachesIn(a: Config, c: Config, x: string, y: string)
    requires IsLabel(x) && IsLabel(y) && a.tenant == x + "." + y && c.tenant == x + "-" + y && a.hostNamespace == c.hostNamespace
    ensures a.tenant != c.tenant && SameSelector(a, c)
  {
    hide Sanitize;
    DotReadsLikeDash(x, y);
    assert (x + "." + y)[|x|] == '.' && (x + "-" + y)[|x|] == '-';
  }

  lemma DotReadsLikeDash(x: string, y: string)
    requires IsLabel(x) && IsLabel(y)
    ensures Sanitize(x + "." + y) == Sanitize(x + "-" + y)
  {
    var p, q := x + "." + y, x + "-" + y;
    assert |p| == |q| && forall i :: 0 <= i < |p| && i != |x| ==> p[i] == q[i];
    assert p[|x|] == '.' && q[|x|] == '-';
    assert p[0] == x[0] && p[|p| - 1] == y[|y| - 1] && q[0] == x[0] && q[|q| - 1] == y[|y| - 1];
    assert Trim(p, SPACE) == p && Trim(q, SPACE) == q;
    HostNames.SweepReadsClasses(Lower(p), Lower(q), false);
  }
}
