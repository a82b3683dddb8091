/** Garbage collection over every interleaving: what it may delete, and the one
    race it does not close. */
module Orphans {
  import opened Cluster
  import opened Engine
  import opened Objects
  import opened PassSafety
  import opened Safety
  import opened SyncRun
  import Transform
  import opened Wrappers

  /** Between w and w', host deletions were attempted only by these names' leave,
      and every attempt is marked with the listing it came after. */
  ghost predicate DeletesOutside(w: World, w': World, desired: set<string>) {
    && w.audit <= w'.audit && w'.listed == w.listed
    && forall i :: |w.audit| <= i < |w'.audit| ==>
         && w'.audit[i].listed == w.listed
         && (w'.audit[i].call.op == DeleteHost ==> w'.audit[i].call.sent.meta.name !in desired)
  }

  lemma OutsideInTurn(a: World, b: World, c: World, desired: set<string>)
    requires DeletesOutside(a, b, desired) && DeletesOutside(b, c, desired)
    ensures DeletesOutside(a, c, desired)
  {
  }

  lemma SubmitDeletesOutside(w: World, call: Call, desired: set<string>)
    requires call.op == DeleteHost ==> call.sent.meta.name !in desired
    ensures DeletesOutside(w, Submit(w, call).0, desired)
  {
    hide ApplyEdits, Serve;
  }

  /** Reconciling a pair never deletes. */
  lemma ReconcileDeletesNothing(cfg: Config, res: Resource, policy: Policy, w: World, obj: Object, host: Object, desired: set<string>)
    ensures DeletesOutside(w, Reconcile(cfg, res, policy, w, obj, host).0, desired)
  {
    hide Judge, Submit, Transform.Adopt, Comparable, Transform.MergeHostContentIntoTenant, ApplyEdits, Report, RefFor;
    var w1 := Await(w).0;
    var found := w1.host.Lookup(KeyOf(host));
    var verdict := Judge(cfg, res, policy, w1.history, obj, host, found);
    JudgeFindsNothing(cfg, res, policy, w1.history, obj, host, found);
    if WantsWrite(verdict) && Allow(w1).Some? {
      SubmitDeletesOutside(Allow(w1).value, CallFor(cfg, res, policy, w1.history, obj, host, found, verdict), desired);
    }
  }

  lemma {:induction false} ItemsDeleteNothing(cfg: Config, res: Resource, policy: Policy, t: Tally, items: seq<Object>, desired: set<string>)
    ensures DeletesOutside(t.w, RunItems(cfg, res, policy, t, items).w, desired)
    decreases |items|
  {
    hide Reconcile, Desired, Eligible;
    if items != [] {
      if Desired(cfg, res, items[0]).Success? {
        ReconcileDeletesNothing(cfg, res, policy, t.w, items[0], Desired(cfg, res, items[0]).value, desired);
      }
      var t' := RunItem(cfg, res, policy, t, items[0]);
      ItemsDeleteNothing(cfg, res, policy, t', items[1..], desired);
      OutsideInTurn(t.w, t'.w, RunItems(cfg, res, policy, t', items[1..]).w, desired);
    }
  }

  lemma {:induction false} CollectionSparesDesired(res: Resource, policy: Policy, t: Tally, hosts: seq<Object>)
    ensures DeletesOutside(t.w, CollectOrphans(res, policy, t, hosts).w, t.desired)
    decreases |hosts|
  {
    hide Submit, LookedUp;
    if hosts != [] {
      var o := hosts[0];
      if o.meta.name !in t.desired && Allow(t.w).Some? {
        SubmitDeletesOutside(Allow(t.w).value, Call(DeleteHost, o, o, Baseline(t.w.history, o.meta.name), res, policy), t.desired);
      }
      var t' := CollectOne(res, policy, t, o);
      CollectionSparesDesired(res, policy, t', hosts[1..]);
      OutsideInTurn(t.w, t'.w, CollectOrphans(res, policy, t', hosts[1..]).w, t.desired);
    }
  }

  /** In any interleaving, a pass never deletes at the host name of an object it
      listed, found eligible and could build, collisions included. */
  lemma PassSparesLiveNames(cfg: Config, res: Resource, policy: Policy, w: World, orders: Orders)
    requires WellNamed(cfg) && Answered(cfg, res, policy, w, orders)
    ensures AskTenant(w).0.listed == AskTenant(w).0.tenant.next && AskTenant(w).0.audit == w.audit
    ensures DeletesOutside(AskTenant(w).0, SyncPass(cfg, res, policy, w, orders).w, WantedNames(cfg, res, orders.items))
  {
    hide RunItems, CollectOrphans, WantedNames, ListsLabelled;
    var names := WantedNames(cfg, res, orders.items);
    var (w1, turn) := AskTenant(w);
    if turn.fault == Served {
      var t0 := Tally(w1, [], [], {});
      ItemsDeleteNothing(cfg, res, policy, t0, orders.items, names);
      ItemsDesire(cfg, res, policy, t0, orders.items);
      var t := RunItems(cfg, res, policy, t0, orders.items);
      CollectionSparesDesired(res, policy, Tally(Await(t.w).0, [], [], t.desired), orders.hosts);
    }
  }

  // ---- names that come alive behind the listing ----

  /** At the moment of the attempt the tenant held, under this key, an object whose
      mirror has the name to be deleted. */
  ghost predicate ClaimedBy(cfg: Config, a: Attempt, k: Key) {
    k in a.tenant.objects && Claims(cfg, a.call.res, a.tenant.objects[k], a.call.sent.meta.name)
  }

  /** After any run: whoever had a deleted name at the moment of the deletion was
      written after the tenant was listed. */
  lemma DeletedNameWasTakenSince(cfg: Config, steps: seq<Step>, i: nat)
    requires WellNamed(cfg) && IsRun(cfg, Genesis(), steps)
    requires var audit := TakeSteps(cfg, Genesis(), steps).w.audit;
             i < |audit| && audit[i].reply.Accepted? && audit[i].call.op == DeleteHost
    ensures var a := TakeSteps(cfg, Genesis(), steps).w.audit[i];
            forall k :: ClaimedBy(cfg, a, k) ==> a.listed <= a.tenant.objects[k].meta.version
  {
    hide TakeSteps, Claims, KeepsClass, Labelled;
    GenesisIsSound(cfg);
    EveryRunIsSafe(cfg, Genesis(), steps);
    var w := TakeSteps(cfg, Genesis(), steps).w;
    assert SafeAttempt(cfg, w.tenant, w.host, w.audit[i]);
  }

  /** The delete carries no version. Whatever another writer put at the key since
      the listing is what goes, with or without the labels. */
  lemma DeleteTakesWhatItMeets(cfg: Config, res: Resource, policy: Policy, t: Tally, listed: Object, replacement: Object)
    requires t.w.host.Lookup(KeyOf(listed)) == Some(listed) && KeyOf(replacement) == KeyOf(listed)
    requires listed.meta.name !in t.desired && t.w.limiter == None
    requires t.w.script == [Turn([], [Put(replacement)], Served, Transform.Allocation(map[], map[]))]
    ensures var w' := CollectOne(res, policy, t, listed).w;
            && |w'.audit| == |t.w.audit| + 1
            && w'.audit[|t.w.audit|].call.op == DeleteHost && w'.audit[|t.w.audit|].reply.Accepted?
            && w'.audit[|t.w.audit|].before == Some(replacement.WithVersion(t.w.host.next))
            && KeyOf(listed) !in w'.host.objects
  {
    hide LookedUp;
    assert ApplyEdits(t.w.host, [Put(replacement)]) == t.w.host.Write(replacement) by {
      assert [Put(replacement)][1..] == [];
    }
    assert ApplyEdits(t.w.tenant, []) == t.w.tenant;
  }

  /** So after any run the deleted object is the one that was listed exactly when
      its version is still the listed one; then it carries the engine's labels. */
  lemma DeletedIsListedIffUnchanged(cfg: Config, steps: seq<Step>, i: nat)
    requires WellNamed(cfg) && IsRun(cfg, Genesis(), steps)
    requires var audit := TakeSteps(cfg, Genesis(), steps).w.audit;
             i < |audit| && audit[i].reply.Accepted? && audit[i].call.op == DeleteHost
    ensures TakeSteps(cfg, Genesis(), steps).w.audit[i].before.Some?
    ensures var a := TakeSteps(cfg, Genesis(), steps).w.audit[i];
            var listed, deleted := a.call.read, a.before.value;
            && KeyOf(deleted) == KeyOf(listed) && Labelled(cfg, deleted.Kind(), listed)
            && (deleted == listed <==> deleted.meta.version == listed.meta.version)
            && (deleted.meta.version == listed.meta.version ==> Labelled(cfg, deleted.Kind(), deleted))
  {
    hide TakeSteps, Labelled, KeepsClass, SparesListed;
    GenesisIsSound(cfg);
    EveryRunIsSafe(cfg, Genesis(), steps);
    var w := TakeSteps(cfg, Genesis(), steps).w;
    assert SafeAttempt(cfg, w.tenant, w.host, w.audit[i]);
  }
}
