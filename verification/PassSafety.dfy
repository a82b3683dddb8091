/** The same guarantees over whole passes: every tenant object listed, however
    stale by the time its turn comes, and every orphan collected. */
module PassSafety {
  import opened Cluster
  import opened Engine
  import HostNames
  import Naming
  import opened Objects
  import opened Safety
  import opened Transform
  import opened Wrappers

  ghost predicate AllOnRecord(s: Store, kind: string, items: seq<Object>) {
    forall i :: 0 <= i < |items| ==> items[i].Kind() == kind && OnRecord(s, items[i])
  }

  ghost predicate AllLabelled(cfg: Config, kind: string, s: Store, hosts: seq<Object>) {
    forall i :: 0 <= i < |hosts| ==> Labelled(cfg, kind, hosts[i]) && OnRecord(s, hosts[i])
  }

  ghost function WantedNames(cfg: Config, res: Resource, items: seq<Object>): set<string> {
    set o | o in items && Wanted(cfg, res, o) :: MirrorKey(cfg, res, o).name
  }

  lemma DesiredKey(cfg: Config, res: Resource, o: Object)
    requires WellNamed(cfg) && Desired(cfg, res, o).Success? && o.Kind() == res.kind
    ensures KeyOf(Desired(cfg, res, o).value) == MirrorKey(cfg, res, o)
  {
    hide Desired, HostNames.HostName, ReverseLookup, ContentOf, BuildHostObject;
    DesiredIsOurs(cfg, res, o);
  }

  lemma DesiredIsLabelled(cfg: Config, res: Resource, o: Object)
    requires WellNamed(cfg) && Desired(cfg, res, o).Success? && o.Kind() == res.kind
    ensures Labelled(cfg, res.kind, Desired(cfg, res, o).value)
  {
    hide HostNames.HostName, Strip, Naming.Sanitize;
    DesiredIsOurs(cfg, res, o);
    StampedLabels(o.meta.labels, RefFor(cfg, res.kind, o));
  }

  /** The pass desires exactly the names of the wanted items. */
  lemma {:induction false} ItemsDesire(cfg: Config, res: Resource, policy: Policy, t: Tally, items: seq<Object>)
    requires WellNamed(cfg) && forall i :: 0 <= i < |items| ==> items[i].Kind() == res.kind
    ensures RunItems(cfg, res, policy, t, items).desired == t.desired + WantedNames(cfg, res, items)
    decreases |items|
  {
    hide Desired, Reconcile, Eligible, HostNames.HostName;
    if items != [] {
      ItemsDesire(cfg, res, policy, RunItem(cfg, res, policy, t, items[0]), items[1..]);
      if Desired(cfg, res, items[0]).Success? {
        DesiredKey(cfg, res, items[0]);
      }
      assert items == [items[0]] + items[1..];
    }
  }

  // ---- the listing holds through the pass ----

  lemma SubmitKeepsListing(w: World, call: Call)
    ensures Submit(w, call).0.listed == w.listed
  {
    hide Serve, ApplyEdits;
  }

  lemma ReconcileKeepsListing(cfg: Config, res: Resource, policy: Policy, w: World, obj: Object, host: Object)
    ensures Reconcile(cfg, res, policy, w, obj, host).0.listed == w.listed
  {
    hide Judge, CallFor, Submit, ApplyEdits, Report, RefFor;
    var w1 := Await(w).0;
    var found := w1.host.Lookup(KeyOf(host));
    var verdict := Judge(cfg, res, policy, w1.history, obj, host, found);
    JudgeFindsNothing(cfg, res, policy, w1.history, obj, host, found);
    if WantsWrite(verdict) && Allow(w1).Some? {
      SubmitKeepsListing(Allow(w1).value, CallFor(cfg, res, policy, w1.history, obj, host, found, verdict));
    }
  }

  lemma JudgeFindsNothing(cfg: Config, res: Resource, policy: Policy, history: History, obj: Object, host: Object, found: Option<Object>)
    ensures found.None? ==> Judge(cfg, res, policy, history, obj, host, found).MakeMirror?
  {
    hide ReverseLookup, ContentOf;
  }

  lemma {:induction false} ItemsKeepListing(cfg: Config, res: Resource, policy: Policy, t: Tally, items: seq<Object>)
    ensures RunItems(cfg, res, policy, t, items).w.listed == t.w.listed
    decreases |items|
  {
    hide Desired, Reconcile, Eligible;
    if items != [] {
      if Desired(cfg, res, items[0]).Success? {
        ReconcileKeepsListing(cfg, res, policy, t.w, items[0], Desired(cfg, res, items[0]).value);
      }
      ItemsKeepListing(cfg, res, policy, RunItem(cfg, res, policy, t, items[0]), items[1..]);
    }
  }

  /** What still stands of the tenant's old objects was listed, so its name is
      desired by the time garbage is collected. */
  lemma ListedAreCovered(cfg: Config, res: Resource, w1: World, w: World, items: seq<Object>)
    requires Lists(w1.tenant, res.kind, items) && w1.tenant.Valid() && Later(w1, w) && w.listed == w1.tenant.next
    ensures Covered(cfg, res, w, WantedNames(cfg, res, items))
  {
    hide Desired, Eligible, HostNames.HostName;
    forall k | k in w.tenant.objects && Wanted(cfg, res, w.tenant.objects[k]) && w.tenant.objects[k].meta.version < w.listed
      ensures MirrorKey(cfg, res, w.tenant.objects[k]).name in WantedNames(cfg, res, items)
    {
      assert KeyOf(w1.tenant.objects[k]) == k;
      assert w.tenant.objects[k] in items;
    }
  }

  lemma RunItemKeepsInv(cfg: Config, res: Resource, policy: Policy, t: Tally, obj: Object)
    requires WellNamed(cfg) && Inv(cfg, t.w) && obj.Kind() == res.kind && OnRecord(t.w.tenant, obj)
    ensures var w := RunItem(cfg, res, policy, t, obj).w; Inv(cfg, w) && Later(t.w, w)
  {
    hide Desired, Reconcile, Inv;
    if Eligible(cfg, res, obj) && Desired(cfg, res, obj).Success? {
      ReconcileKeepsInv(cfg, res, policy, t.w, obj);
    }
  }

  lemma {:induction false} RunItemsKeepInv(cfg: Config, res: Resource, policy: Policy, t: Tally, items: seq<Object>)
    requires WellNamed(cfg) && Inv(cfg, t.w) && AllOnRecord(t.w.tenant, res.kind, items)
    ensures var w := RunItems(cfg, res, policy, t, items).w; Inv(cfg, w) && Later(t.w, w)
    decreases |items|
  {
    hide Inv, RunItem;
    if items != [] {
      RunItemKeepsInv(cfg, res, policy, t, items[0]);
      var t' := RunItem(cfg, res, policy, t, items[0]);
      RunItemsKeepInv(cfg, res, policy, t', items[1..]);
      LaterIsTransitive(t.w, t'.w, RunItems(cfg, res, policy, t', items[1..]).w);
    }
  }

  lemma CollectOneKeepsInv(cfg: Config, res: Resource, policy: Policy, t: Tally, o: Object)
    requires Inv(cfg, t.w) && Labelled(cfg, res.kind, o) && OnRecord(t.w.host, o) && Covered(cfg, res, t.w, t.desired)
    ensures var t' := CollectOne(res, policy, t, o);
            Inv(cfg, t'.w) && Later(t.w, t'.w) && Covered(cfg, res, t'.w, t'.desired)
  {
    hide Submit, Labelled, SafeAttempt, TruthfulEntry, Decide, LookedUp, Covered, ClassedAt, NeverDropped;
    if o.meta.name !in t.desired && Allow(t.w).Some? {
      var granted := Allow(t.w).value;
      var call := Call(DeleteHost, o, o, Baseline(t.w.history, o.meta.name), res, policy);
      StoresMayGrow(cfg, t.w, granted);
      CoveredLater(cfg, res, t.w, granted, t.desired);
      SubmitDeleteKeepsInv(cfg, res.kind, granted, call, t.desired);
      CoveredLater(cfg, res, t.w, Submit(granted, call).0, t.desired);
    }
  }

  lemma {:induction false} CollectOrphansKeepsInv(cfg: Config, res: Resource, policy: Policy, t: Tally, hosts: seq<Object>)
    requires Inv(cfg, t.w) && AllLabelled(cfg, res.kind, t.w.host, hosts) && Covered(cfg, res, t.w, t.desired)
    ensures var w := CollectOrphans(res, policy, t, hosts).w; Inv(cfg, w) && Later(t.w, w)
    decreases |hosts|
  {
    hide Inv, CollectOne, Labelled, Covered;
    if hosts != [] {
      CollectOneKeepsInv(cfg, res, policy, t, hosts[0]);
      var t' := CollectOne(res, policy, t, hosts[0]);
      CollectOrphansKeepsInv(cfg, res, policy, t', hosts[1..]);
      LaterIsTransitive(t.w, t'.w, CollectOrphans(res, policy, t', hosts[1..]).w);
    }
  }

  lemma ListedIsOnRecord(s: Store, kind: string, items: seq<Object>)
    requires s.Valid() && Lists(s, kind, items)
    ensures AllOnRecord(s, kind, items)
  {
  }

  lemma LabelledIsOnRecord(cfg: Config, kind: string, s: Store, hosts: seq<Object>)
    requires s.Valid() && ListsLabelled(cfg, kind, s, hosts)
    ensures AllLabelled(cfg, kind, s, hosts)
  {
    hide Labelled;
  }

  /** Asking for the tenant's list marks the point from which on nothing has been
      listed yet. */
  lemma AskKeepsInv(cfg: Config, w: World)
    requires Inv(cfg, w)
    ensures var w1 := AskTenant(w).0;
            && Inv(cfg, w1) && Later(w, w1) && w1.listed == w1.tenant.next
            && w1.history == w.history && w1.audit == w.audit && w1.limiter == w.limiter
  {
    hide SafeAttempt, TruthfulEntry, ClassedAt, NeverDropped, Await;
    AwaitKeepsInv(cfg, w);
  }

  /** A whole pass, with any interleaving, fault and list order. */
  lemma SyncPassKeepsInv(cfg: Config, res: Resource, policy: Policy, w: World, orders: Orders)
    requires WellNamed(cfg) && Inv(cfg, w) && Answered(cfg, res, policy, w, orders)
    ensures var w' := SyncPass(cfg, res, policy, w, orders).w; Inv(cfg, w') && Later(w, w')
  {
    hide RunItem, CollectOne, Labelled, Inv, Await, AskTenant, Covered, Lists, ListsLabelled;
    AskKeepsInv(cfg, w);
    var (w1, turn) := AskTenant(w);
    if turn.fault == Served {
      StoresStandUp(cfg, w1);
      ListedIsOnRecord(w1.tenant, res.kind, orders.items);
      RunItemsKeepInv(cfg, res, policy, Tally(w1, [], [], {}), orders.items);
      var t := RunItems(cfg, res, policy, Tally(w1, [], [], {}), orders.items);
      LaterIsTransitive(w, w1, t.w);
      ItemsKeepListing(cfg, res, policy, Tally(w1, [], [], {}), orders.items);
      ItemsDesire(cfg, res, policy, Tally(w1, [], [], {}), orders.items);
      ListedAreCovered(cfg, res, w1, t.w, orders.items);
      assert t.desired == WantedNames(cfg, res, orders.items);
      CollectionKeepsInv(cfg, res, policy, t, orders.hosts);
      LaterIsTransitive(w, t.w, SyncPass(cfg, res, policy, w, orders).w);
    }
  }

  lemma StoresStandUp(cfg: Config, w: World)
    requires Inv(cfg, w)
    ensures w.tenant.Valid() && w.host.Valid() && w.listed <= w.tenant.next
  {
  }

  /** Garbage collection from asking for the labelled host objects on. */
  lemma CollectionKeepsInv(cfg: Config, res: Resource, policy: Policy, t: Tally, hosts: seq<Object>)
    requires Inv(cfg, t.w) && Covered(cfg, res, t.w, t.desired)
    requires Await(t.w).1.fault == Served ==> ListsLabelled(cfg, res.kind, Await(t.w).0.host, hosts)
    ensures var (w2, turn) := Await(t.w);
            var w' := if turn.fault == Served then CollectOrphans(res, policy, Tally(w2, [], [], t.desired), hosts).w else w2;
            Inv(cfg, w') && Later(t.w, w')
  {
    hide CollectOrphans, Labelled, Inv, Await, Covered;
    AwaitKeepsInv(cfg, t.w);
    var (w2, turn) := Await(t.w);
    StoresStandUp(cfg, t.w);
    StoresStandUp(cfg, w2);
    CoveredLater(cfg, res, t.w, w2, t.desired);
    if turn.fault == Served {
      LabelledIsOnRecord(cfg, res.kind, w2.host, hosts);
      var g := Tally(w2, [], [], t.desired);
      CollectOrphansKeepsInv(cfg, res, policy, g, hosts);
      LaterIsTransitive(t.w, w2, CollectOrphans(res, policy, g, hosts).w);
    }
  }
}
