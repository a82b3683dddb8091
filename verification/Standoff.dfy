/** A two-sided change under "manual": neither side and no baseline moves, pass
    after pass, until someone edits. */
module Standoff {
  import opened Calm
  import opened CalmPass
  import opened Cluster
  import opened Engine
  import HostNames
  import opened Objects
  import opened PassSafety
  import opened Safety
  import Transform
  import opened Wrappers

  /** Tenant and host disagree and both have moved since they last agreed, or
      never agreed on record. `obj` and `existing` are the two sides. */
  ghost predicate IsStandoff(cfg: Config, res: Resource, w: World, obj: Object, existing: Object) {
    && res.direction == Bidirectional && obj.Kind() == res.kind && Eligible(cfg, res, obj)
    && Desired(cfg, res, obj).Success?
    && w.tenant.Lookup(KeyOf(obj)) == Some(obj)
    && w.host.Lookup(MirrorKey(cfg, res, obj)) == Some(existing)
    && Ours(cfg, res, obj, existing) && !Transform.ContentEqual(obj, Comparable(cfg, res.kind, existing))
    && match Baseline(w.history, MirrorKey(cfg, res, obj).name)
       case None => true
       case Some(c) => obj.meta.version != c.tenantVersion && existing.meta.version != c.hostVersion
  }

  /** Both objects and the baseline are just as they were. */
  ghost predicate Unmoved(w: World, w': World, tenantKey: Key, hostKey: Key) {
    && w'.tenant.Lookup(tenantKey) == w.tenant.Lookup(tenantKey)
    && w'.host.Lookup(hostKey) == w.host.Lookup(hostKey)
    && Baseline(w'.history, hostKey.name) == Baseline(w.history, hostKey.name)
  }

  lemma StandoffIsHeld(cfg: Config, res: Resource, history: History, obj: Object, host: Object, existing: Object)
    requires res.direction == Bidirectional && Ours(cfg, res, obj, existing)
    requires !Transform.ContentEqual(obj, Comparable(cfg, res.kind, existing))
    requires match Baseline(history, host.meta.name)
             case None => true
             case Some(c) => obj.meta.version != c.tenantVersion && existing.meta.version != c.hostVersion
    ensures Judge(cfg, res, Manual, history, obj, host, Some(existing)) == Hold
  {
    hide Transform.ReverseLookup, Transform.ContentOf;
  }

  lemma OccupiedByAnother(cfg: Config, res: Resource, history: History, obj: Object, other: Object, host: Object, existing: Object)
    requires Ours(cfg, res, obj, existing) && KeyOf(other) != KeyOf(obj) && other.Kind() == obj.Kind()
    ensures Judge(cfg, res, Manual, history, other, host, Some(existing)).Collides?
  {
    hide Transform.ReverseLookup, Transform.ContentOf;
  }

  // ---- whoever else writes ----

  function EditKey(e: Edit): Key {
    match e
    case Put(o) => KeyOf(o)
    case Drop(k) => k
  }

  ghost predicate EditsSpare(edits: seq<Edit>, k: Key) {
    forall i :: 0 <= i < |edits| ==> EditKey(edits[i]) != k
  }

  /** No one edits either object of the pair. Everything else may be edited, and
      any call may fail. */
  ghost predicate SparesPair(script: seq<Turn>, tenantKey: Key, hostKey: Key) {
    forall i :: 0 <= i < |script| ==> EditsSpare(script[i].tenantEdits, tenantKey) && EditsSpare(script[i].hostEdits, hostKey)
  }

  /** The pair is just as it was, and so is everyone's intention to spare it. */
  ghost predicate LeftAlone(w: World, w': World, tenantKey: Key, hostKey: Key) {
    Unmoved(w, w', tenantKey, hostKey) && SparesPair(w'.script, tenantKey, hostKey)
  }

  lemma {:induction false} SparedStands(s: Store, edits: seq<Edit>, k: Key)
    requires EditsSpare(edits, k)
    ensures ApplyEdits(s, edits).Lookup(k) == s.Lookup(k)
    decreases |edits|
  {
    if edits != [] {
      assert EditKey(edits[0]) != k;
      var s' := match edits[0] case Put(o) => s.Write(o) case Drop(d) => s.Remove(d);
      SparedStands(s', edits[1..], k);
    }
  }

  lemma AwaitLeavesItBe(w: World, tenantKey: Key, hostKey: Key)
    requires SparesPair(w.script, tenantKey, hostKey)
    ensures LeftAlone(w, Await(w).0, tenantKey, hostKey) && LeftAlone(w, AskTenant(w).0, tenantKey, hostKey)
    ensures Await(w).0.history == w.history
  {
    if w.script != [] {
      SparedStands(w.tenant, w.script[0].tenantEdits, tenantKey);
      SparedStands(w.host, w.script[0].hostEdits, hostKey);
    }
  }

  lemma ServeTouchesOneKey(s: Store, op: Op, o: Object, a: Transform.Allocation, k: Key)
    requires k != KeyOf(o)
    ensures Serve(s, op, o, a).0.Lookup(k) == s.Lookup(k)
  {
    hide Transform.Allocate;
    Transform.StripForgetsAllocation(o, a);
  }

  /** A call spares the pair when it is about something else. */
  predicate Elsewhere(call: Call, tenantKey: Key, hostKey: Key) {
    KeyOf(call.sent) != if call.op == UpdateTenant then tenantKey else hostKey
  }

  lemma SubmitLeavesItBe(w: World, call: Call, tenantKey: Key, hostKey: Key)
    requires SparesPair(w.script, tenantKey, hostKey) && Elsewhere(call, tenantKey, hostKey)
    ensures LeftAlone(w, Submit(w, call).0, tenantKey, hostKey)
  {
    hide Serve, Await, SparesPair, KeyOf;
    AwaitLeavesItBe(w, tenantKey, hostKey);
    var (w1, turn) := Await(w);
    ServeTouchesOneKey(Side(w1, call.op), call.op, call.sent, turn.allocation, if call.op == UpdateTenant then tenantKey else hostKey);
  }

  lemma WriteOutLeavesItBe(w: World, call: Call, name: string, track: bool, skip: Decision, done: Decision, tenantKey: Key, hostKey: Key)
    requires SparesPair(w.script, tenantKey, hostKey) && Elsewhere(call, tenantKey, hostKey) && name != hostKey.name
    ensures LeftAlone(w, WriteOut(w, call, name, track, skip, done).0, tenantKey, hostKey)
  {
    hide Submit, SparesPair, KeyOf;
    if Allow(w).Some? {
      SubmitLeavesItBe(Allow(w).value, call, tenantKey, hostKey);
    }
  }

  /** Each write goes to the mirror, or to the tenant object itself. */
  lemma SentKey(cfg: Config, res: Resource, policy: Policy, history: History, obj: Object, host: Object, found: Option<Object>, verdict: Verdict)
    requires WantsWrite(verdict) && (found.None? ==> verdict.MakeMirror?)
    ensures var call := CallFor(cfg, res, policy, history, obj, host, found, verdict);
            if verdict.Pull? then call.op == UpdateTenant && KeyOf(call.sent) == KeyOf(obj)
            else call.op != UpdateTenant && KeyOf(call.sent) == KeyOf(host)
  {
    hide Transform.Adopt, Comparable, Transform.MergeHostContentIntoTenant;
    if verdict.Push? {
      Transform.AdoptKeepsHeader(found.value, host.WithVersion(found.value.meta.version));
    } else if verdict.Pull? {
      MergeKeepsIdentity(cfg, res, obj, found.value);
    }
  }

  /** Another object's pair is settled elsewhere. */
  lemma SettleElsewhere(cfg: Config, res: Resource, policy: Policy, w: World, item: Object, host: Object, found: Option<Object>, verdict: Verdict, tenantKey: Key, hostKey: Key)
    requires found.None? ==> verdict.MakeMirror?
    requires SparesPair(w.script, tenantKey, hostKey)
    requires KeyOf(item) != tenantKey && KeyOf(host) != hostKey && host.meta.name != hostKey.name
    ensures LeftAlone(w, Settle(cfg, res, policy, w, item, host, found, verdict).0, tenantKey, hostKey)
  {
    hide WriteOut, CallFor, KeyOf, SparesPair, Report, RefFor;
    var ref := RefFor(cfg, res.kind, item);
    if WantsWrite(verdict) {
      SentKey(cfg, res, policy, w.history, item, host, found, verdict);
      WriteOutLeavesItBe(w, CallFor(cfg, res, policy, w.history, item, host, found, verdict), host.meta.name, Tracks(res, verdict),
                         Decide(res, ref, host, SkipAction, RateLimited), Report(res, ref, host, verdict), tenantKey, hostKey);
    }
  }

  /** Neither its own turn disturbs a standoff, nor another object's, even one
      that maps to the same host name. */
  lemma PairsLeaveItBe(cfg: Config, res: Resource, w: World, obj: Object, existing: Object, item: Object)
    requires WellNamed(cfg) && IsStandoff(cfg, res, w, obj, existing) && SparesPair(w.script, KeyOf(obj), MirrorKey(cfg, res, obj))
    requires item.Kind() == res.kind && (KeyOf(item) == KeyOf(obj) ==> item == obj) && Desired(cfg, res, item).Success?
    ensures LeftAlone(w, Reconcile(cfg, res, Manual, w, item, Desired(cfg, res, item).value).0, KeyOf(obj), MirrorKey(cfg, res, obj))
  {
    hide Desired, Judge, Settle, HostNames.HostName, Transform.ReverseLookup, Transform.ContentOf, Await, SparesPair, Comparable;
    AwaitLeavesItBe(w, KeyOf(obj), MirrorKey(cfg, res, obj));
    DesiredKey(cfg, res, obj);
    DesiredKey(cfg, res, item);
    var (w1, turn) := Await(w);
    var host := Desired(cfg, res, item).value;
    var found := w1.host.Lookup(KeyOf(host));
    var verdict := Judge(cfg, res, Manual, w1.history, item, host, found);
    if KeyOf(item) == KeyOf(obj) {
      StandoffIsHeld(cfg, res, w1.history, obj, host, existing);
      HoldIsIdle(cfg, res, w1, item, host, found, verdict);
    } else if KeyOf(host) == MirrorKey(cfg, res, obj) {
      OccupiedByAnother(cfg, res, w1.history, obj, item, host, existing);
      HoldIsIdle(cfg, res, w1, item, host, found, verdict);
    } else {
      JudgeFindsNothing(cfg, res, Manual, w1.history, item, host, found);
      SettleElsewhere(cfg, res, Manual, w1, item, host, found, verdict, KeyOf(obj), MirrorKey(cfg, res, obj));
    }
  }

  lemma HoldIsIdle(cfg: Config, res: Resource, w: World, item: Object, host: Object, found: Option<Object>, verdict: Verdict)
    requires found.Some? && (verdict.Hold? || verdict.Collides?)
    ensures Settle(cfg, res, Manual, w, item, host, found, verdict).0 == w
  {
    hide CarryOut;
  }

  lemma StandoffCarries(cfg: Config, res: Resource, w: World, w': World, obj: Object, existing: Object)
    requires IsStandoff(cfg, res, w, obj, existing) && Unmoved(w, w', KeyOf(obj), MirrorKey(cfg, res, obj))
    ensures IsStandoff(cfg, res, w', obj, existing)
  {
    hide Desired, HostNames.HostName, Transform.ReverseLookup, Transform.ContentOf, Comparable;
  }

  lemma {:induction false} ItemsLeaveItBe(cfg: Config, res: Resource, t: Tally, items: seq<Object>, obj: Object, existing: Object)
    requires WellNamed(cfg) && IsStandoff(cfg, res, t.w, obj, existing) && SparesPair(t.w.script, KeyOf(obj), MirrorKey(cfg, res, obj))
    requires forall i :: 0 <= i < |items| ==> items[i].Kind() == res.kind && (KeyOf(items[i]) == KeyOf(obj) ==> items[i] == obj)
    ensures LeftAlone(t.w, RunItems(cfg, res, Manual, t, items).w, KeyOf(obj), MirrorKey(cfg, res, obj))
    decreases |items|
  {
    hide IsStandoff, Desired, Reconcile, Eligible, HostNames.HostName, KeyOf, SparesPair;
    if items != [] {
      var t' := RunItem(cfg, res, Manual, t, items[0]);
      if Eligible(cfg, res, items[0]) && Desired(cfg, res, items[0]).Success? {
        PairsLeaveItBe(cfg, res, t.w, obj, existing, items[0]);
      }
      StandoffCarries(cfg, res, t.w, t'.w, obj, existing);
      ItemsLeaveItBe(cfg, res, t', items[1..], obj, existing);
    }
  }

  lemma {:induction false} CollectionLeavesItBe(res: Resource, t: Tally, hosts: seq<Object>, tenantKey: Key, hostKey: Key)
    requires SparesPair(t.w.script, tenantKey, hostKey) && hostKey.name in t.desired
    ensures LeftAlone(t.w, CollectOrphans(res, Manual, t, hosts).w, tenantKey, hostKey)
    decreases |hosts|
  {
    hide Submit, LookedUp, SparesPair;
    if hosts != [] {
      var o := hosts[0];
      if o.meta.name !in t.desired && Allow(t.w).Some? {
        SubmitLeavesItBe(Allow(t.w).value, Call(DeleteHost, o, o, Baseline(t.w.history, o.meta.name), res, Manual), tenantKey, hostKey);
      }
      CollectionLeavesItBe(res, CollectOne(res, Manual, t, o), hosts[1..], tenantKey, hostKey);
    }
  }

  /** A pass leaves a standoff exactly as it found it, whatever is edited
      elsewhere, whatever fails, and however the servers list. */
  lemma PassLeavesItBe(cfg: Config, res: Resource, w: World, orders: Orders, obj: Object, existing: Object)
    requires WellNamed(cfg) && IsStandoff(cfg, res, w, obj, existing) && Answered(cfg, res, Manual, w, orders)
    requires SparesPair(w.script, KeyOf(obj), MirrorKey(cfg, res, obj))
    ensures var w' := SyncPass(cfg, res, Manual, w, orders).w;
            IsStandoff(cfg, res, w', obj, existing) && LeftAlone(w, w', KeyOf(obj), MirrorKey(cfg, res, obj))
  {
    hide RunItems, CollectOrphans, Desired, HostNames.HostName, Await, AskTenant, IsStandoff, SparesPair, ListsLabelled;
    var tenantKey, hostKey := KeyOf(obj), MirrorKey(cfg, res, obj);
    AwaitLeavesItBe(w, tenantKey, hostKey);
    var (w1, turn) := AskTenant(w);
    StandoffCarries(cfg, res, w, w1, obj, existing);
    if turn.fault == Served {
      var t0 := Tally(w1, [], [], {});
      StandoffIsListed(cfg, res, w1, obj, existing, orders.items);
      ItemsLeaveItBe(cfg, res, t0, orders.items, obj, existing);
      ItemsDesire(cfg, res, Manual, t0, orders.items);
      var t := RunItems(cfg, res, Manual, t0, orders.items);
      AwaitLeavesItBe(t.w, tenantKey, hostKey);
      CollectionLeavesItBe(res, Tally(Await(t.w).0, [], [], t.desired), orders.hosts, tenantKey, hostKey);
    }
    StandoffCarries(cfg, res, w, SyncPass(cfg, res, Manual, w, orders).w, obj, existing);
  }

  lemma StandoffIsListed(cfg: Config, res: Resource, w: World, obj: Object, existing: Object, items: seq<Object>)
    requires IsStandoff(cfg, res, w, obj, existing) && Lists(w.tenant, res.kind, items)
    ensures MirrorKey(cfg, res, obj).name in WantedNames(cfg, res, items)
    ensures forall i :: 0 <= i < |items| ==> items[i].Kind() == res.kind && (KeyOf(items[i]) == KeyOf(obj) ==> items[i] == obj)
  {
    hide Desired, HostNames.HostName, Eligible, Transform.ReverseLookup, Transform.ContentOf, Comparable;
    assert KeyOf(obj).kind == res.kind;
    assert obj in items;
  }

  /** And so does every number of them, until someone edits one of the two. */
  lemma {:induction false} PassesLeaveItBe(cfg: Config, res: Resource, w: World, passes: seq<Orders>, obj: Object, existing: Object)
    requires WellNamed(cfg) && IsStandoff(cfg, res, w, obj, existing) && AllAnswered(cfg, res, Manual, w, passes)
    requires SparesPair(w.script, KeyOf(obj), MirrorKey(cfg, res, obj))
    ensures var w' := Passes(cfg, res, Manual, w, passes);
            IsStandoff(cfg, res, w', obj, existing) && LeftAlone(w, w', KeyOf(obj), MirrorKey(cfg, res, obj))
    decreases |passes|
  {
    hide SyncPass, Answered, IsStandoff, HostNames.HostName, SparesPair;
    if passes != [] {
      PassLeavesItBe(cfg, res, w, passes[0], obj, existing);
      PassesLeaveItBe(cfg, res, SyncPass(cfg, res, Manual, w, passes[0]).w, passes[1..], obj, existing);
    }
  }

  /** The host side of a drifted pair: the mirror as built, with one more field. */
  function Drifted(mirror: Object, obj: Object, version: nat): Object {
    var content := Transform.ContentOf(obj);
    var value := if "drift" in content && content["drift"] == Int(0) then Int(1) else Int(0);
    mirror.(body := mirror.body["drift" := value]).WithVersion(version)
  }

  function Only(o: Object): Store {
    Store(map[KeyOf(o) := o], map[o.meta.version := o], o.meta.version + 1)
  }

  lemma OnlyIsValid(o: Object)
    requires o.meta.version > 0
    ensures Only(o).Valid() && Only(o).Lookup(KeyOf(o)) == Some(o)
  {
    hide KeyOf;
  }

  /** A world that holds just this pair and this history. */
  function PairWorld(obj: Object, existing: Object, history: History): World {
    World(Only(obj), Only(existing), history, None, [], [], [], 0)
  }

  lemma DriftedPair(cfg: Config, res: Resource, obj: Object, version: nat, history: History)
    requires WellNamed(cfg) && Wanted(cfg, res, obj) && res.kind != "Pod" && obj.meta.version > 0 && version > 0
    ensures var existing := Drifted(Desired(cfg, res, obj).value, obj, version);
            var w := PairWorld(obj, existing, history);
            && IsCalm(w) && w.tenant.Lookup(KeyOf(obj)) == Some(obj)
            && w.host.Lookup(MirrorKey(cfg, res, obj)) == Some(existing) && existing.meta.version == version
            && Ours(cfg, res, obj, existing) && !Transform.ContentEqual(obj, Comparable(cfg, res.kind, existing))
  {
    hide Desired, HostNames.HostName, Transform.ReverseLookup, Transform.ContentOf, Eligible, Drifted, IsCalm, PairWorld, Mirrors;
    var mirror := Desired(cfg, res, obj).value;
    var existing := Drifted(mirror, obj, version);
    DesiredIsOurs(cfg, res, obj);
    DesiredKey(cfg, res, obj);
    DriftShows(mirror, obj, version);
    StampedView(mirror, existing);
    PairStands(obj, existing, history);
  }

  lemma PairStands(obj: Object, existing: Object, history: History)
    requires obj.meta.version > 0 && existing.meta.version > 0
    ensures var w := PairWorld(obj, existing, history);
            IsCalm(w) && w.tenant.Lookup(KeyOf(obj)) == Some(obj) && w.host.Lookup(KeyOf(existing)) == Some(existing)
  {
    hide Only, KeyOf;
    OnlyIsValid(obj);
    OnlyIsValid(existing);
  }

  lemma DriftShows(mirror: Object, obj: Object, version: nat)
    ensures var existing := Drifted(mirror, obj, version);
            && existing.Kind() == mirror.Kind() && existing.meta == mirror.meta.(version := version)
            && Transform.ContentOf(existing) != Transform.ContentOf(obj)
  {
    var existing := Drifted(mirror, obj, version);
    assert |"drift"| == 5 && |"kind"| == 4 && |"spec"| == 4 && |"apiVersion"| == 10 && |"status"| == 6;
    Transform.StripKeepsHeader(existing.Kind(), existing.body);
    assert "drift" in Transform.ContentOf(existing);
  }

  /** Standoffs do happen: every mirrored object that drifted on the host is in
      one when its baseline is lost, or older than both sides. */
  lemma StandoffHappens(cfg: Config, res: Resource, obj: Object, version: nat, last: Option<Converged>)
    requires WellNamed(cfg) && res.direction == Bidirectional && obj.Kind() == res.kind && res.kind != "Pod" && res.kind != ""
    requires Eligible(cfg, res, obj) && obj.meta.name != "" && obj.meta.namespace != "" && obj.meta.version > 0 && version > 0
    requires last.Some? ==> obj.meta.version != last.value.tenantVersion && version != last.value.hostVersion
    ensures Desired(cfg, res, obj).Success?
    ensures var existing := Drifted(Desired(cfg, res, obj).value, obj, version);
            var w := PairWorld(obj, existing, if last.Some? then map[MirrorKey(cfg, res, obj).name := last.value] else map[]);
            IsCalm(w) && IsStandoff(cfg, res, w, obj, existing)
  {
    hide HostNames.HostName, Transform.Strip, Transform.ContentOf, Transform.ReverseLookup, Drifted;
    DriftedPair(cfg, res, obj, version, if last.Some? then map[MirrorKey(cfg, res, obj).name := last.value] else map[]);
  }

  function Twice(first: Object, second: Object): Store {
    Store(map[], map[], 1).Write(first).Write(second)
  }

  lemma TwiceWritten(first: Object, second: Object)
    requires KeyOf(first) == KeyOf(second) && second.meta.version == 2
    ensures var s := Twice(first, second);
            && s.Valid() && s.next == 3 && s.Lookup(KeyOf(first)) == Some(second) && s.objects.Keys == {KeyOf(first)}
            && 1 in s.log && s.log[1] == first.WithVersion(1)
  {
    hide KeyOf;
    var empty := Store(map[], map[], 1);
    assert second.WithVersion(2) == second;
    WriteIsValid(empty, first);
    WriteIsValid(empty.Write(first), second);
  }

  /** A pair that agreed at its first versions, has that on record, and has been
      written once more on both sides. */
  function EditedTwice(obj: Object, mirror: Object, existing: Object): World {
    World(Twice(obj, obj), Twice(mirror, existing), map[mirror.meta.name := Converged(1, 1)], None, [], [], [], 1)
  }

  /** And they happen in sound states, with the truthful baseline on record that
      both sides have left behind. */
  lemma StandoffAfterAgreement(cfg: Config, res: Resource, obj: Object)
    requires WellNamed(cfg) && Wanted(cfg, res, obj) && res.direction == Bidirectional && res.kind != "Pod"
    requires obj.meta.version == 2 && Mirrors(obj)
    ensures var mirror := Desired(cfg, res, obj).value;
            var existing := Drifted(mirror, obj, 2);
            var w := EditedTwice(obj, mirror, existing);
            Inv(cfg, w) && IsStandoff(cfg, res, w, obj, existing)
  {
    hide Desired, HostNames.HostName, Transform.ReverseLookup, Transform.ContentOf, Eligible, Drifted, Mirrors, EditedTwice;
    var mirror := Desired(cfg, res, obj).value;
    var existing := Drifted(mirror, obj, 2);
    DesiredIsOurs(cfg, res, obj);
    DesiredKey(cfg, res, obj);
    DriftShows(mirror, obj, 2);
    StampedView(mirror, existing);
    TwiceIsSound(cfg, obj, mirror, existing);
  }

  lemma TwiceIsSound(cfg: Config, obj: Object, mirror: Object, existing: Object)
    requires obj.meta.version == 2 && existing.meta == mirror.meta.(version := 2) && KeyOf(existing) == KeyOf(mirror)
    requires Provenance(cfg, obj, mirror) && Transform.ContentEqual(obj, mirror) && mirror.Kind() != "Pod"
    ensures var w := EditedTwice(obj, mirror, existing);
            && Inv(cfg, w) && w.tenant.Lookup(KeyOf(obj)) == Some(obj) && w.host.Lookup(KeyOf(mirror)) == Some(existing)
            && w.history == map[mirror.meta.name := Converged(1, 1)]
  {
    hide Transform.ReverseLookup, Transform.ContentOf, Mirrors, Twice;
    TwiceWritten(obj, obj);
    TwiceWritten(mirror, existing);
    VersionIsNotContent(obj, 1);
    VersionIsNotContent(mirror, 1);
    StampedView(mirror, mirror.WithVersion(1));
    var w := EditedTwice(obj, mirror, existing);
    assert TruthfulEntry(cfg, w.tenant, w.host, mirror.meta.name, Converged(1, 1));
  }
}
