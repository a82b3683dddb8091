/** A toHost pass against its declarative specification: afterwards the labelled
    host objects are exactly the mirrors of the eligible tenant objects. */
module ToHostPass {
  import opened Calm
  import opened CalmPass
  import opened Cluster
  import opened Conservation
  import opened Engine
  import HostNames
  import opened Objects
  import opened PassSafety
  import opened Safety
  import Transform
  import opened Wrappers

  /** No two wanted objects map to one host name, and no mirror's place is taken
      by an object that is not its own. */
  ghost predicate Unobstructed(cfg: Config, res: Resource, w: World) {
    && (forall k, k' :: k in w.tenant.objects && k' in w.tenant.objects && k != k'
          && Wanted(cfg, res, w.tenant.objects[k]) && Wanted(cfg, res, w.tenant.objects[k'])
          ==> MirrorKey(cfg, res, w.tenant.objects[k]) != MirrorKey(cfg, res, w.tenant.objects[k']))
    && (forall k :: k in w.tenant.objects && Wanted(cfg, res, w.tenant.objects[k]) ==>
          match w.host.Lookup(MirrorKey(cfg, res, w.tenant.objects[k]))
          case None => true
          case Some(e) => Ours(cfg, res, w.tenant.objects[k], e))
  }

  ghost predicate Clear(cfg: Config, res: Resource, w: World) {
    WellNamed(cfg) && IsCalm(w) && res.direction == ToHost && w.limiter == None && Unobstructed(cfg, res, w)
  }

  /** The object's mirror stands: its own, labelled for collection, and (but for
      Pods and spec-less Services) equal in content. */
  ghost predicate Placed(cfg: Config, res: Resource, host: Store, o: Object) {
    MirrorKey(cfg, res, o) in host.objects
    && var h := host.objects[MirrorKey(cfg, res, o)];
       Ours(cfg, res, o, h) && Labelled(cfg, res.kind, h) && (Mirrors(o) ==> Transform.ContentEqual(o, h))
  }

  lemma LabelsCarry(cfg: Config, kind: string, a: Object, b: Object)
    requires Labelled(cfg, kind, a) && b.Kind() == a.Kind() && b.meta == a.meta.(version := b.meta.version)
    ensures Labelled(cfg, kind, b)
  {
  }

  /** A toHost verdict on an unobstructed mirror always writes it. */
  lemma VerdictWrites(cfg: Config, res: Resource, policy: Policy, history: History, o: Object, host: Object, found: Option<Object>)
    requires res.direction == ToHost && (found.Some? ==> Ours(cfg, res, o, found.value))
    ensures var verdict := Judge(cfg, res, policy, history, o, host, found);
            verdict == if found.None? then MakeMirror else Push(false)
  {
    hide Transform.ReverseLookup, Transform.ContentOf;
  }

  /** A wanted object's turn places its mirror and touches nothing else. */
  lemma PairIsPlaced(cfg: Config, res: Resource, policy: Policy, w: World, o: Object)
    requires Clear(cfg, res, w) && w.tenant.Lookup(KeyOf(o)) == Some(o) && Wanted(cfg, res, o)
    ensures var w' := Reconcile(cfg, res, policy, w, o, Desired(cfg, res, o).value).0;
            && IsCalm(w') && w'.limiter == None && w'.tenant == w.tenant && Placed(cfg, res, w'.host, o)
            && forall k :: k != MirrorKey(cfg, res, o) ==> w'.host.Lookup(k) == w.host.Lookup(k)
  {
    hide Reconcile, Desired, Eligible, Judge, HostNames.HostName, Transform.ReverseLookup, Transform.ContentOf, IsCalm, Labelled, Mirrors;
    var host := Desired(cfg, res, o).value;
    var w' := Reconcile(cfg, res, policy, w, o, host).0;
    CalmReconcile(cfg, res, policy, w, o);
    DesiredKey(cfg, res, o);
    DesiredIsOurs(cfg, res, o);
    DesiredIsLabelled(cfg, res, o);
    VerdictWrites(cfg, res, policy, w.history, o, host, w.host.Lookup(KeyOf(host)));
    StampedView(host, w'.host.objects[KeyOf(host)]);
    LabelsCarry(cfg, res.kind, host, w'.host.objects[KeyOf(host)]);
  }

  lemma StaysClear(cfg: Config, res: Resource, w: World, w': World, o: Object)
    requires Clear(cfg, res, w) && w.tenant.Lookup(KeyOf(o)) == Some(o) && Wanted(cfg, res, o)
    requires IsCalm(w') && w'.limiter == None && w'.tenant == w.tenant && Placed(cfg, res, w'.host, o)
    requires forall k :: k != MirrorKey(cfg, res, o) ==> w'.host.Lookup(k) == w.host.Lookup(k)
    ensures Clear(cfg, res, w')
    ensures forall k :: k in w.tenant.objects && Wanted(cfg, res, w.tenant.objects[k]) && Placed(cfg, res, w.host, w.tenant.objects[k])
              ==> Placed(cfg, res, w'.host, w.tenant.objects[k])
  {
    hide Wanted, HostNames.HostName, Transform.ReverseLookup, Transform.ContentOf, IsCalm, Labelled, Mirrors, SameSource;
    forall k | k in w.tenant.objects && Wanted(cfg, res, w.tenant.objects[k])
      ensures k != KeyOf(o) ==> MirrorKey(cfg, res, w.tenant.objects[k]) != MirrorKey(cfg, res, o)
      ensures w'.host.Lookup(MirrorKey(cfg, res, w.tenant.objects[k])) == w.host.Lookup(MirrorKey(cfg, res, w.tenant.objects[k]))
              || w.tenant.objects[k] == o
    {
    }
  }

  /** Mirrors of these items may change; every other host object stands still. */
  ghost predicate OnlyMirrorsMove(cfg: Config, res: Resource, w: World, w': World, items: seq<Object>) {
    forall k :: (forall i :: 0 <= i < |items| && Wanted(cfg, res, items[i]) ==> MirrorKey(cfg, res, items[i]) != k)
      ==> w'.host.Lookup(k) == w.host.Lookup(k)
  }

  ghost predicate AllPlaced(cfg: Config, res: Resource, host: Store, items: seq<Object>) {
    forall i :: 0 <= i < |items| && Wanted(cfg, res, items[i]) ==> Placed(cfg, res, host, items[i])
  }

  lemma ItemIsPlaced(cfg: Config, res: Resource, policy: Policy, t: Tally, o: Object)
    requires Clear(cfg, res, t.w) && t.w.tenant.Lookup(KeyOf(o)) == Some(o) && o.Kind() == res.kind
    ensures var w' := RunItem(cfg, res, policy, t, o).w;
            && Clear(cfg, res, w') && w'.tenant == t.w.tenant
            && (Wanted(cfg, res, o) ==> Placed(cfg, res, w'.host, o))
            && (forall k :: !Wanted(cfg, res, o) || k != MirrorKey(cfg, res, o) ==> w'.host.Lookup(k) == t.w.host.Lookup(k))
            && forall k :: k in w'.tenant.objects && Wanted(cfg, res, w'.tenant.objects[k]) && Placed(cfg, res, t.w.host, w'.tenant.objects[k])
                 ==> Placed(cfg, res, w'.host, w'.tenant.objects[k])
  {
    hide Clear, Reconcile, Desired, Eligible, Placed, MirrorKey;
    if Wanted(cfg, res, o) {
      PairIsPlaced(cfg, res, policy, t.w, o);
      StaysClear(cfg, res, t.w, RunItem(cfg, res, policy, t, o).w, o);
    }
  }

  lemma {:induction false} ItemsArePlaced(cfg: Config, res: Resource, policy: Policy, t: Tally, items: seq<Object>)
    requires Clear(cfg, res, t.w) && AllLive(t.w.tenant, res.kind, items)
    ensures var w' := RunItems(cfg, res, policy, t, items).w;
            && Clear(cfg, res, w') && w'.tenant == t.w.tenant
            && AllPlaced(cfg, res, w'.host, items) && OnlyMirrorsMove(cfg, res, t.w, w', items)
            && forall k :: k in w'.tenant.objects && Wanted(cfg, res, w'.tenant.objects[k]) && Placed(cfg, res, t.w.host, w'.tenant.objects[k])
                 ==> Placed(cfg, res, w'.host, w'.tenant.objects[k])
    decreases |items|
  {
    hide Clear, RunItem, Placed, MirrorKey, Wanted;
    if items != [] {
      var t' := RunItem(cfg, res, policy, t, items[0]);
      ItemIsPlaced(cfg, res, policy, t, items[0]);
      ItemsArePlaced(cfg, res, policy, t', items[1..]);
      var w' := RunItems(cfg, res, policy, t', items[1..]).w;
      assert Wanted(cfg, res, items[0]) ==> Placed(cfg, res, w'.host, w'.tenant.objects[KeyOf(items[0])]);
      assert forall i :: 1 <= i < |items| ==> items[i] == items[1..][i - 1];
      forall k | forall i :: 0 <= i < |items| && Wanted(cfg, res, items[i]) ==> MirrorKey(cfg, res, items[i]) != k
        ensures w'.host.Lookup(k) == t.w.host.Lookup(k)
      {
        assert forall i :: 0 <= i < |items[1..]| ==> items[1..][i] == items[i + 1];
      }
    }
  }

  /** With no limiter, exactly the undesired among the listed are deleted. */
  lemma {:induction false} CollectsUndesired(res: Resource, policy: Policy, t: Tally, hosts: seq<Object>)
    requires IsCalm(t.w) && t.w.limiter == None
    requires forall i :: 0 <= i < |hosts| ==> KeyOf(hosts[i]) in t.w.host.objects
    requires forall i, j :: 0 <= i < j < |hosts| ==> KeyOf(hosts[i]) != KeyOf(hosts[j])
    ensures var w' := CollectOrphans(res, policy, t, hosts).w;
            && IsCalm(w') && w'.tenant == t.w.tenant
            && w'.host.objects == t.w.host.objects - (set o | o in hosts && o.meta.name !in t.desired :: KeyOf(o))
    decreases |hosts|
  {
    hide CollectOne, IsCalm, Writes;
    if hosts != [] {
      var t' := CollectOne(res, policy, t, hosts[0]);
      CalmCollectOne(res, policy, t, hosts[0]);
      CollectsUndesired(res, policy, t', hosts[1..]);
      assert hosts == [hosts[0]] + hosts[1..];
    }
  }

  ghost predicate IsMirror(cfg: Config, res: Resource, tenant: Store, key: Key) {
    exists k :: k in tenant.objects && Wanted(cfg, res, tenant.objects[k]) && MirrorKey(cfg, res, tenant.objects[k]) == key
  }

  /** The pass refines its specification, whatever the list order: every wanted
      object has its mirror, the labelled objects are exactly the mirrors, every
      other host object stands as it was, and so does the whole tenant store. */
  lemma PassPlacesExactlyTheMirrors(cfg: Config, res: Resource, policy: Policy, w: World, orders: Orders)
    requires Clear(cfg, res, w) && Answered(cfg, res, policy, w, orders)
    ensures var w' := SyncPass(cfg, res, policy, w, orders).w;
            && w'.tenant.objects == w.tenant.objects
            && (forall k :: k in w.tenant.objects && Wanted(cfg, res, w.tenant.objects[k]) ==> Placed(cfg, res, w'.host, w.tenant.objects[k]))
            && (forall key :: key in w'.host.objects && Labelled(cfg, res.kind, w'.host.objects[key]) <==> IsMirror(cfg, res, w.tenant, key))
            && (forall key :: !IsMirror(cfg, res, w.tenant, key) && !(key in w.host.objects && Labelled(cfg, res.kind, w.host.objects[key]))
                  ==> w'.host.Lookup(key) == w.host.Lookup(key))
  {
    hide RunItems, CollectOrphans, Await, Unobstructed, IsCalm, Wanted, MirrorKey, Labelled, Placed, IsMirror;
    CalmAwait(w);
    var w1 := AskTenant(w).0;
    ClockIsIdle(cfg, res, w, w1);
    var t0 := Tally(w1, [], [], {});
    ListedIsLive(w1.tenant, res.kind, orders.items);
    ItemsArePlaced(cfg, res, policy, t0, orders.items);
    var t := RunItems(cfg, res, policy, t0, orders.items);
    CalmAwait(t.w);
    var w2 := Await(t.w).0;
    ItemsDesire(cfg, res, policy, t0, orders.items);
    HostsAreDistinct(cfg, res.kind, w2.host, orders.hosts);
    CollectsUndesired(res, policy, Tally(w2, [], [], t.desired), orders.hosts);
    var w' := CollectOrphans(res, policy, Tally(w2, [], [], t.desired), orders.hosts).w;
    CalmStores(w1);
    CalmStores(w2);
    Assemble(cfg, res, w1, w2, w', orders.items, orders.hosts);
  }

  lemma ClockIsIdle(cfg: Config, res: Resource, w: World, w': World)
    requires Clear(cfg, res, w) && Still(w, w')
    ensures Clear(cfg, res, w')
  {
    hide Wanted, MirrorKey, IsCalm, Ours;
  }

  lemma ListedAreAll(cfg: Config, res: Resource, s: Store, items: seq<Object>)
    requires s.Valid() && Lists(s, res.kind, items)
    ensures forall k :: k in s.objects && Wanted(cfg, res, s.objects[k]) ==> s.objects[k] in items
    ensures forall o :: o in items ==> KeyOf(o) in s.objects && s.objects[KeyOf(o)] == o
  {
    hide Desired, Eligible;
    forall k | k in s.objects && Wanted(cfg, res, s.objects[k])
      ensures s.objects[k] in items
    {
      assert KeyOf(s.objects[k]) == k;
    }
  }

  lemma Assemble(cfg: Config, res: Resource, w: World, w2: World, w': World, items: seq<Object>, hosts: seq<Object>)
    requires w.tenant.Valid() && w2.host.Valid() && Lists(w.tenant, res.kind, items)
    requires AllPlaced(cfg, res, w2.host, items) && OnlyMirrorsMove(cfg, res, w, w2, items)
    requires ListsLabelled(cfg, res.kind, w2.host, hosts)
    requires w'.host.objects == w2.host.objects - (set o | o in hosts && o.meta.name !in WantedNames(cfg, res, items) :: KeyOf(o))
    ensures forall k :: k in w.tenant.objects && Wanted(cfg, res, w.tenant.objects[k]) ==> Placed(cfg, res, w'.host, w.tenant.objects[k])
    ensures forall key :: key in w'.host.objects && Labelled(cfg, res.kind, w'.host.objects[key]) <==> IsMirror(cfg, res, w.tenant, key)
    ensures forall key :: !IsMirror(cfg, res, w.tenant, key) && !(key in w.host.objects && Labelled(cfg, res.kind, w.host.objects[key]))
                  ==> w'.host.Lookup(key) == w.host.Lookup(key)
  {
    hide Wanted, HostNames.HostName, Transform.ReverseLookup, Transform.ContentOf, Mirrors, SameSource;
    ListedAreAll(cfg, res, w.tenant, items);
  }
}
