/** A whole pass under "manual" over a calm world: where each pair ends is decided
    by where it stood, however the servers list. */
module ManualPass {
  import opened Baselines
  import opened Calm
  import opened CalmPass
  import opened Cluster
  import opened Conservation
  import opened Convergence
  import opened Drift
  import opened Engine
  import HostNames
  import opened Objects
  import opened PassSafety
  import opened Safety
  import opened Standoff
  import Transform
  import opened Wrappers

  /** Mirror and provenance by the tenant object's key alone. */
  function MirrorOf(cfg: Config, res: Resource, k: Key): Key {
    Key(res.kind, cfg.hostNamespace, HostNames.HostName(k.name, k.namespace, cfg.tenant))
  }

  predicate Owns(cfg: Config, res: Resource, k: Key, h: Object) {
    Transform.ReverseLookup(h).Some?
    && SameSource(Transform.ReverseLookup(h).value, HostNames.ResourceRef(cfg.tenant, cfg.hostNamespace, k.namespace, res.kind, k.name))
  }

  lemma ByKey(cfg: Config, res: Resource, o: Object, h: Object)
    ensures MirrorOf(cfg, res, KeyOf(o)) == MirrorKey(cfg, res, o)
    ensures Owns(cfg, res, KeyOf(o), h) == Ours(cfg, res, o, h)
  {
  }

  /** The pair agrees and the baseline names the two versions that stand. */
  ghost predicate Agreed(cfg: Config, res: Resource, w: World, k: Key) {
    var mirror := MirrorOf(cfg, res, k);
    && k in w.tenant.objects && mirror in w.host.objects && Owns(cfg, res, k, w.host.objects[mirror])
    && Transform.ContentEqual(w.tenant.objects[k], w.host.objects[mirror])
    && Baselined(cfg, res, w, k, mirror)
  }

  /** Someone else has the mirror's place. */
  predicate ShutOut(cfg: Config, res: Resource, w: World, k: Key) {
    MirrorOf(cfg, res, k) in w.host.objects && !Owns(cfg, res, k, w.host.objects[MirrorOf(cfg, res, k)])
  }

  ghost predicate Held(cfg: Config, res: Resource, w: World, k: Key) {
    var mirror := MirrorOf(cfg, res, k);
    k in w.tenant.objects && mirror in w.host.objects && IsStandoff(cfg, res, w, w.tenant.objects[k], w.host.objects[mirror])
  }

  /** While others have their turn: an own mirror is left alone, a foreign occupant
      stays foreign, and a free place can only be taken by another. */
  ghost predicate Waits(cfg: Config, res: Resource, w: World, w': World, k: Key) {
    var mirror := MirrorOf(cfg, res, k);
    && w'.tenant.Lookup(k) == w.tenant.Lookup(k)
    && match w.host.Lookup(mirror)
       case None => w'.host.Lookup(mirror) == None || ShutOut(cfg, res, w', k)
       case Some(h) => if Owns(cfg, res, k, h) then Unmoved(w, w', k, mirror) else ShutOut(cfg, res, w', k)
  }

  /** Once it has had its turn: a standoff is left exactly as it was, any other own
      mirror agrees, a foreign occupant stays, and a free place was filled. */
  ghost predicate Done(cfg: Config, res: Resource, w: World, w': World, k: Key) {
    var mirror := MirrorOf(cfg, res, k);
    match w.host.Lookup(mirror)
    case None => Agreed(cfg, res, w', k) || ShutOut(cfg, res, w', k)
    case Some(h) =>
      if !Owns(cfg, res, k, h) then ShutOut(cfg, res, w', k)
      else if Held(cfg, res, w, k) then Unmoved(w, w', k, mirror)
      else Agreed(cfg, res, w', k)
  }

  lemma HeldCarries(cfg: Config, res: Resource, w: World, w': World, k: Key)
    requires Unmoved(w, w', k, MirrorOf(cfg, res, k)) && w.tenant.Valid()
    ensures Held(cfg, res, w', k) == Held(cfg, res, w, k)
    ensures Agreed(cfg, res, w, k) ==> Agreed(cfg, res, w', k)
  {
    hide Desired, Eligible, Transform.ReverseLookup, Transform.ContentOf, HostNames.HostName;
    if k in w.tenant.objects && MirrorOf(cfg, res, k) in w.host.objects {
      ByKey(cfg, res, w.tenant.objects[k], w.host.objects[MirrorOf(cfg, res, k)]);
    }
  }

  lemma WaitsThenWaits(cfg: Config, res: Resource, a: World, b: World, c: World, k: Key)
    requires Waits(cfg, res, a, b, k) && Waits(cfg, res, b, c, k)
    ensures Waits(cfg, res, a, c, k)
  {
    hide Owns, MirrorOf;
  }

  lemma WaitsThenDone(cfg: Config, res: Resource, a: World, b: World, c: World, k: Key)
    requires Waits(cfg, res, a, b, k) && Done(cfg, res, b, c, k) && a.tenant.Valid()
    ensures Done(cfg, res, a, c, k)
  {
    hide Owns, MirrorOf, Held, Agreed;
    if a.host.Lookup(MirrorOf(cfg, res, k)).Some? && Owns(cfg, res, k, a.host.objects[MirrorOf(cfg, res, k)]) {
      HeldCarries(cfg, res, a, b, k);
    }
  }

  lemma DoneThenWaits(cfg: Config, res: Resource, a: World, b: World, c: World, k: Key)
    requires Done(cfg, res, a, b, k) && Waits(cfg, res, b, c, k) && b.tenant.Valid()
    ensures Done(cfg, res, a, c, k)
  {
    hide Owns, MirrorOf, Held, Agreed;
    if Agreed(cfg, res, b, k) {
      AgreedIsOwn(cfg, res, b, k);
      HeldCarries(cfg, res, b, c, k);
    }
  }

  lemma AgreedIsOwn(cfg: Config, res: Resource, w: World, k: Key)
    requires Agreed(cfg, res, w, k)
    ensures MirrorOf(cfg, res, k) in w.host.objects && Owns(cfg, res, k, w.host.objects[MirrorOf(cfg, res, k)])
  {
  }

  lemma UnmovedWaits(cfg: Config, res: Resource, w: World, w': World, k: Key)
    requires Unmoved(w, w', k, MirrorOf(cfg, res, k))
    ensures Waits(cfg, res, w, w', k)
  {
    hide Owns, MirrorOf;
  }

  // ---- one turn ----

  ghost predicate Tame(cfg: Config, res: Resource, w: World) {
    WellNamed(cfg) && IsCalm(w) && Inv(cfg, w) && w.limiter == None && res.direction == Bidirectional && res.kind != "Pod"
  }

  lemma CalmSpares(w: World, tenantKey: Key, hostKey: Key)
    requires IsCalm(w)
    ensures SparesPair(w.script, tenantKey, hostKey)
  {
  }

  lemma EffectElsewhere(cfg: Config, res: Resource, w: World, w': World, outcome: Outcome, o: Object, host: Object, verdict: Verdict, k: Key)
    requires PairEffect(cfg, res, w, w', outcome, o, host, verdict) && w.limiter == None && w.tenant.Lookup(KeyOf(o)) == Some(o)
    ensures k != KeyOf(o) ==> w'.tenant.Lookup(k) == w.tenant.Lookup(k)
    ensures k != KeyOf(host) ==> w'.host.Lookup(k) == w.host.Lookup(k)
    ensures forall name :: name != host.meta.name || !Rebases(verdict) ==> Baseline(w'.history, name) == Baseline(w.history, name)
    ensures !WantsWrite(verdict) || verdict.Pull? ==> w'.host == w.host
    ensures WantsWrite(verdict) && !verdict.Pull? ==> Replaced(w.host, w'.host, host)
  {
    hide KeyOf, IsCalm, Paid, Transform.ContentOf, Comparable, Mirrors;
  }

  /** A turn of another object. */
  lemma OtherWaits(cfg: Config, res: Resource, w: World, o: Object, k: Key)
    requires Tame(cfg, res, w) && Wanted(cfg, res, o) && w.tenant.Lookup(KeyOf(o)) == Some(o)
    requires k != KeyOf(o) && k.kind == res.kind
    ensures Waits(cfg, res, w, Reconcile(cfg, res, Manual, w, o, Desired(cfg, res, o).value).0, k)
  {
    hide Desired, Eligible, Reconcile, Judge, HostNames.HostName, Transform.ReverseLookup, Transform.ContentOf, IsCalm, Inv, PairEffect, Replaced, Waits;
    var host := Desired(cfg, res, o).value;
    DesiredKey(cfg, res, o);
    DesiredIsOurs(cfg, res, o);
    CalmReconcile(cfg, res, Manual, w, o);
    var (w', outcome) := Reconcile(cfg, res, Manual, w, o, host);
    var mirror := MirrorOf(cfg, res, k);
    var verdict := Judge(cfg, res, Manual, w.history, o, host, w.host.Lookup(KeyOf(host)));
    EffectElsewhere(cfg, res, w, w', outcome, o, host, verdict, k);
    EffectElsewhere(cfg, res, w, w', outcome, o, host, verdict, mirror);
    if mirror != KeyOf(host) {
      assert mirror.name != host.meta.name;
      UnmovedWaits(cfg, res, w, w', k);
    } else {
      SamePlace(cfg, res, w, w', o, host, k, verdict);
    }
  }

  /** The two compete for one host name. */
  lemma SamePlace(cfg: Config, res: Resource, w: World, w': World, o: Object, host: Object, k: Key, verdict: Verdict)
    requires MirrorOf(cfg, res, k) == KeyOf(host) && k != KeyOf(o) && k.kind == o.Kind() == res.kind
    requires verdict == Judge(cfg, res, Manual, w.history, o, host, w.host.Lookup(KeyOf(host)))
    requires Provenance(cfg, o, host) && w'.tenant.Lookup(k) == w.tenant.Lookup(k)
    requires !WantsWrite(verdict) || verdict.Pull? ==> w'.host == w.host
    requires WantsWrite(verdict) && !verdict.Pull? ==> Replaced(w.host, w'.host, host)
    requires forall name :: name != host.meta.name || !Rebases(verdict) ==> Baseline(w'.history, name) == Baseline(w.history, name)
    ensures Waits(cfg, res, w, w', k)
  {
    hide HostNames.HostName, Transform.ReverseLookup, Transform.ContentOf, MirrorOf;
    if WantsWrite(verdict) && !verdict.Pull? {
      StampedView(host, w'.host.objects[KeyOf(host)]);
    }
  }

  /** Its own turn. */
  lemma OwnTurnIsDone(cfg: Config, res: Resource, w: World, o: Object)
    requires Tame(cfg, res, w) && Wanted(cfg, res, o) && w.tenant.Lookup(KeyOf(o)) == Some(o) && Mirrors(o)
    ensures Done(cfg, res, w, Reconcile(cfg, res, Manual, w, o, Desired(cfg, res, o).value).0, KeyOf(o))
  {
    hide Desired, Eligible, Reconcile, Judge, HostNames.HostName, Transform.ReverseLookup, Transform.ContentOf, IsCalm, Inv, Paid, Mirrors, Baselined, IsStandoff;
    var host := Desired(cfg, res, o).value;
    DesiredKey(cfg, res, o);
    DesiredIsOurs(cfg, res, o);
    CalmReconcile(cfg, res, Manual, w, o);
    var w' := Reconcile(cfg, res, Manual, w, o, host).0;
    var found := w.host.Lookup(KeyOf(host));
    var verdict := Judge(cfg, res, Manual, w.history, o, host, found);
    OwnVerdict(cfg, res, w, o, host);
    if verdict.Agree? || WantsWrite(verdict) {
      SettledPairIsBaselined(cfg, res, Manual, w, o);
      OwnAgrees(cfg, res, w, w', o, host, verdict);
    } else if found.Some? {
      ByKey(cfg, res, o, found.value);
    }
  }

  lemma OwnAgrees(cfg: Config, res: Resource, w: World, w': World, o: Object, host: Object, verdict: Verdict)
    requires KeyOf(host) == MirrorKey(cfg, res, o) && Provenance(cfg, o, host) && o.Kind() == host.Kind() == res.kind != "Pod"
    requires verdict == Judge(cfg, res, Manual, w.history, o, host, w.host.Lookup(KeyOf(host)))
    requires verdict.Agree? || WantsWrite(verdict)
    requires verdict.Agree? ==> w'.tenant == w.tenant && w'.host == w.host && w.tenant.Lookup(KeyOf(o)) == Some(o)
    requires verdict.Pull? ==>
      && w'.host == w.host && Replaced(w.tenant, w'.tenant, o)
      && (KeyOf(host) in w.host.objects ==> Transform.ContentEqual(w'.tenant.objects[KeyOf(o)], Comparable(cfg, res.kind, w.host.objects[KeyOf(host)])))
    requires verdict.MakeMirror? || verdict.Push? ==>
      && w'.tenant == w.tenant && w.tenant.Lookup(KeyOf(o)) == Some(o)
      && Replaced(w.host, w'.host, host) && Transform.ContentEqual(o, w'.host.objects[KeyOf(host)])
    requires Baselined(cfg, res, w', KeyOf(o), MirrorKey(cfg, res, o))
    ensures Agreed(cfg, res, w', KeyOf(o))
    ensures w.host.Lookup(KeyOf(host)).Some? ==> Owns(cfg, res, KeyOf(o), w.host.objects[KeyOf(host)])
  {
    hide HostNames.HostName, Transform.ReverseLookup, Transform.ContentOf, Desired, Eligible;
    if verdict.MakeMirror? || verdict.Push? {
      StampedView(host, w'.host.objects[KeyOf(host)]);
    }
  }

  /** What "manual" concludes about a pair that is the object's own. */
  lemma OwnVerdict(cfg: Config, res: Resource, w: World, o: Object, host: Object)
    requires Tame(cfg, res, w) && Wanted(cfg, res, o) && w.tenant.Lookup(KeyOf(o)) == Some(o) && Mirrors(o)
    requires KeyOf(host) == MirrorKey(cfg, res, o)
    ensures var verdict := Judge(cfg, res, Manual, w.history, o, host, w.host.Lookup(KeyOf(host)));
            match w.host.Lookup(KeyOf(host))
            case None => verdict == MakeMirror
            case Some(h) =>
              if !Ours(cfg, res, o, h) then verdict.Foreign? || verdict.Collides?
              else if IsStandoff(cfg, res, w, o, h) then verdict.Hold?
              else verdict.Agree? || verdict.Push? || verdict.Pull?
  {
    hide HostNames.HostName, Transform.ReverseLookup, Transform.ContentOf, Desired, Eligible, Truthful, SafeAttempt, ClassInv, Mirrors;
    match w.host.Lookup(KeyOf(host))
    case None =>
    case Some(h) =>
      if Ours(cfg, res, o, h) && !Transform.ContentEqual(o, h) {
        HeldMeansBothMoved(cfg, res, w, o, host, h);
      }
  }

  // ---- the loops ----

  lemma TurnStaysTame(cfg: Config, res: Resource, t: Tally, o: Object)
    requires Tame(cfg, res, t.w) && o.Kind() == res.kind && t.w.tenant.Lookup(KeyOf(o)) == Some(o)
    ensures Tame(cfg, res, RunItem(cfg, res, Manual, t, o).w)
  {
    hide Desired, Eligible, Reconcile, Judge, IsCalm, Inv;
    assert OnRecord(t.w.tenant, o) by { CalmStores(t.w); }
    RunItemKeepsInv(cfg, res, Manual, t, o);
    if Eligible(cfg, res, o) && Desired(cfg, res, o).Success? {
      CalmReconcile(cfg, res, Manual, t.w, o);
    }
  }

  lemma {:induction false} ItemsAreDone(cfg: Config, res: Resource, t: Tally, items: seq<Object>)
    requires Tame(cfg, res, t.w) && AllLive(t.w.tenant, res.kind, items)
    requires forall i :: 0 <= i < |items| && Wanted(cfg, res, items[i]) ==> Mirrors(items[i])
    ensures var w' := RunItems(cfg, res, Manual, t, items).w;
            && Tame(cfg, res, w')
            && (forall i :: 0 <= i < |items| && Wanted(cfg, res, items[i]) ==> Done(cfg, res, t.w, w', KeyOf(items[i])))
            && (forall k: Key :: k.kind == res.kind && (forall i :: 0 <= i < |items| ==> KeyOf(items[i]) != k) ==> Waits(cfg, res, t.w, w', k))
    decreases |items|
  {
    hide Tame, RunItem, Done, Waits, Mirrors, Wanted, KeyOf;
    if items == [] {
      forall k: Key
        ensures Waits(cfg, res, t.w, t.w, k)
      {
        UnmovedWaits(cfg, res, t.w, t.w, k);
      }
    } else {
      var o, rest := items[0], items[1..];
      var t' := RunItem(cfg, res, Manual, t, o);
      TameParts(cfg, res, t.w);
      RestStaysLive(cfg, res, Manual, t, items);
      TurnStaysTame(cfg, res, t, o);
      TameParts(cfg, res, t'.w);
      ItemsAreDone(cfg, res, t', rest);
      var w' := RunItems(cfg, res, Manual, t', rest).w;
      assert KeyOf(o).kind == res.kind by { KindOfKey(o); }
      forall k: Key | k.kind == res.kind && k != KeyOf(o)
        ensures Waits(cfg, res, t.w, t'.w, k)
      {
        TurnWaits(cfg, res, t, o, k);
      }
      forall k: Key | k.kind == res.kind && forall i :: 0 <= i < |items| ==> KeyOf(items[i]) != k
        ensures Waits(cfg, res, t.w, w', k)
      {
        assert k != KeyOf(items[0]);
        WaitsThenWaits(cfg, res, t.w, t'.w, w', k);
      }
      forall i | 0 <= i < |items| && Wanted(cfg, res, items[i])
        ensures Done(cfg, res, t.w, w', KeyOf(items[i]))
      {
        if i == 0 {
          OwnTurn(cfg, res, t, o);
          DoneThenWaits(cfg, res, t.w, t'.w, w', KeyOf(o));
        } else {
          assert items[i] == rest[i - 1];
          KindOfKey(items[i]);
          WaitsThenDone(cfg, res, t.w, t'.w, w', KeyOf(items[i]));
        }
      }
    }
  }

  lemma KindOfKey(o: Object)
    ensures KeyOf(o).kind == o.Kind()
  {
  }

  lemma TameParts(cfg: Config, res: Resource, w: World)
    requires Tame(cfg, res, w)
    ensures WellNamed(cfg) && IsCalm(w) && w.tenant.Valid() && w.host.Valid()
  {
  }

  lemma TurnWaits(cfg: Config, res: Resource, t: Tally, o: Object, k: Key)
    requires Tame(cfg, res, t.w) && o.Kind() == res.kind && t.w.tenant.Lookup(KeyOf(o)) == Some(o)
    requires k != KeyOf(o) && k.kind == res.kind
    ensures Waits(cfg, res, t.w, RunItem(cfg, res, Manual, t, o).w, k)
  {
    hide Desired, Eligible, Reconcile, Waits, Tame;
    if Wanted(cfg, res, o) {
      OtherWaits(cfg, res, t.w, o, k);
    } else {
      UnmovedWaits(cfg, res, t.w, t.w, k);
    }
  }

  lemma OwnTurn(cfg: Config, res: Resource, t: Tally, o: Object)
    requires Tame(cfg, res, t.w) && Wanted(cfg, res, o) && t.w.tenant.Lookup(KeyOf(o)) == Some(o) && Mirrors(o)
    ensures Done(cfg, res, t.w, RunItem(cfg, res, Manual, t, o).w, KeyOf(o))
  {
    hide Desired, Eligible, Reconcile, Done, Tame, Mirrors;
    OwnTurnIsDone(cfg, res, t.w, o);
  }

  /** After a manual pass every wanted pair is where its start decides: a standoff
      is left exactly as it was; every other pair with its own mirror agrees, with
      the standing versions on record; a foreign occupant still shuts it out; and
      where there was no mirror, it has one and agrees, or one that claims the same
      name came first. */
  lemma ManualPassSettles(cfg: Config, res: Resource, w: World, orders: Orders)
    requires WellNamed(cfg) && IsCalm(w) && Inv(cfg, w) && w.limiter == None && res.direction == Bidirectional && res.kind != "Pod"
    requires forall k :: k in w.tenant.objects && Wanted(cfg, res, w.tenant.objects[k]) ==> Mirrors(w.tenant.objects[k])
    requires Answered(cfg, res, Manual, w, orders)
    ensures var w' := SyncPass(cfg, res, Manual, w, orders).w;
            forall k :: k in w.tenant.objects && Wanted(cfg, res, w.tenant.objects[k]) ==> Done(cfg, res, w, w', k)
  {
    hide RunItems, CollectOrphans, AskTenant, Await, IsCalm, Inv, Wanted, Mirrors, Done, Waits, ListsLabelled, KeyOf;
    CalmAwait(w);
    AskKeepsInv(cfg, w);
    var w1 := AskTenant(w).0;
    TameParts(cfg, res, w1);
    ListedIsLive(w1.tenant, res.kind, orders.items);
    var t0 := Tally(w1, [], [], {});
    ItemsAreDone(cfg, res, t0, orders.items);
    ItemsDesire(cfg, res, Manual, t0, orders.items);
    var t := RunItems(cfg, res, Manual, t0, orders.items);
    TameParts(cfg, res, t.w);
    CalmAwait(t.w);
    var g0 := Tally(Await(t.w).0, [], [], t.desired);
    var w' := CollectOrphans(res, Manual, g0, orders.hosts).w;
    forall k | k in w.tenant.objects && Wanted(cfg, res, w.tenant.objects[k])
      ensures Done(cfg, res, w, w', k)
    {
      ListedByKey(cfg, res, w1.tenant, orders.items, k);
      var i :| 0 <= i < |orders.items| && orders.items[i] == w1.tenant.objects[k];
      CalmSpares(g0.w, k, MirrorOf(cfg, res, k));
      CollectionLeavesItBe(res, g0, orders.hosts, k, MirrorOf(cfg, res, k));
      UnmovedWaits(cfg, res, t.w, w', k);
      UnmovedWaits(cfg, res, w, w1, k);
      DoneThenWaits(cfg, res, w1, t.w, w', k);
      WaitsThenDone(cfg, res, w, w1, w', k);
    }
  }

  lemma ListedByKey(cfg: Config, res: Resource, s: Store, items: seq<Object>, k: Key)
    requires s.Valid() && Lists(s, res.kind, items) && k in s.objects && Wanted(cfg, res, s.objects[k])
    ensures KeyOf(s.objects[k]) == k && s.objects[k] in items && MirrorOf(cfg, res, k).name in WantedNames(cfg, res, items)
  {
    hide Desired, Eligible, HostNames.HostName;
    ByKey(cfg, res, s.objects[k], s.objects[k]);
  }

  /** And in a sound state where a manual pass has nothing left to do, every wanted
      object has a mirror, and where that is its own the two agree or are in a
      standoff. */
  lemma NothingLeftButStandoffs(cfg: Config, res: Resource, w: World, k: Key)
    requires Inv(cfg, w) && res.direction == Bidirectional && res.kind != "Pod" && Todo(cfg, res, Manual, w) == {}
    requires k in w.tenant.objects && Wanted(cfg, res, w.tenant.objects[k]) && Mirrors(w.tenant.objects[k])
    ensures var o := w.tenant.objects[k];
            && MirrorKey(cfg, res, o) in w.host.objects
            && var h := w.host.objects[MirrorKey(cfg, res, o)];
               Ours(cfg, res, o, h) ==> Transform.ContentEqual(o, h) || IsStandoff(cfg, res, w, o, h)
  {
    hide Desired, Eligible, HostNames.HostName, Transform.ReverseLookup, Transform.ContentOf, Todo, Truthful, SafeAttempt, ClassInv, Mirrors;
    NothingToDoMeans(cfg, res, Manual, w);
    var o := w.tenant.objects[k];
    var h := w.host.objects[MirrorKey(cfg, res, o)];
    assert KeyOf(o) == k;
    if Ours(cfg, res, o, h) && !Transform.ContentEqual(o, h)
       && Baseline(w.history, h.meta.name) == Some(Converged(o.meta.version, h.meta.version)) {
      UnchangedPairAgrees(cfg, w, o, h);
    }
  }
}
