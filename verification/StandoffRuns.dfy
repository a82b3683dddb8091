/** A standoff over whole runs: every sync builds a fresh engine, reloads the
    history and shares it among all kinds, and still neither side moves. */
module StandoffRuns {
  import opened Cluster
  import opened DecisionLog
  import opened Engine
  import HostNames
  import opened Objects
  import opened PassSafety
  import opened Safety
  import opened Standoff
  import opened SyncRun
  import Transform
  import opened Wrappers

  // ---- what another kind may do to the pair ----

  /** Both versions are those of objects of another kind. */
  ghost predicate OfAnotherKind(w: World, kind: string, c: Converged) {
    && c.tenantVersion in w.tenant.log && w.tenant.log[c.tenantVersion].Kind() != kind
    && c.hostVersion in w.host.log && w.host.log[c.hostVersion].Kind() != kind
  }

  /** The baseline is as before, or another kind of the same host name has put its
      own in its place. */
  ghost predicate Inherits(w: World, kind: string, before: Option<Converged>, after: Option<Converged>) {
    after == before || (after.Some? && OfAnotherKind(w, kind, after.value))
  }

  lemma InheritsInTurn(a: World, b: World, kind: string, x: Option<Converged>, y: Option<Converged>, z: Option<Converged>)
    requires Inherits(a, kind, x, y) && Inherits(b, kind, y, z) && Grows(a, b)
    ensures Inherits(b, kind, x, z)
  {
  }

  /** Both objects stand as they did, and no one is about to touch them. */
  ghost predicate BothStand(w: World, w': World, tenantKey: Key, hostKey: Key) {
    && w'.tenant.Lookup(tenantKey) == w.tenant.Lookup(tenantKey)
    && w'.host.Lookup(hostKey) == w.host.Lookup(hostKey)
    && SparesPair(w'.script, tenantKey, hostKey)
  }

  ghost predicate PairKept(w: World, w': World, tenantKey: Key, hostKey: Key) {
    && BothStand(w, w', tenantKey, hostKey)
    && Inherits(w', tenantKey.kind, Baseline(w.history, hostKey.name), Baseline(w'.history, hostKey.name))
  }

  lemma KeptInTurn(a: World, b: World, c: World, tenantKey: Key, hostKey: Key)
    requires PairKept(a, b, tenantKey, hostKey) && PairKept(b, c, tenantKey, hostKey) && Later(b, c)
    ensures PairKept(a, c, tenantKey, hostKey)
  {
    hide Extends;
    InheritsInTurn(b, c, tenantKey.kind, Baseline(a.history, hostKey.name), Baseline(b.history, hostKey.name), Baseline(c.history, hostKey.name));
  }

  lemma AloneIsKept(w: World, w': World, tenantKey: Key, hostKey: Key)
    requires LeftAlone(w, w', tenantKey, hostKey)
    ensures PairKept(w, w', tenantKey, hostKey)
  {
  }

  /** A verdict leaves the history as it is but for its own host name, and there it
      records the tenant's version or the host's as they were read. */
  lemma SettleRecords(cfg: Config, res: Resource, policy: Policy, w: World, obj: Object, host: Object, found: Option<Object>, verdict: Verdict, name: string)
    requires found.None? ==> verdict.MakeMirror?
    ensures var h := Settle(cfg, res, policy, w, obj, host, found, verdict).0.history;
            Baseline(h, name) == Baseline(w.history, name)
            || (name == host.meta.name && name in h
                && (h[name].tenantVersion == obj.meta.version || (found.Some? && h[name].hostVersion == found.value.meta.version)))
  {
    hide Submit, Report, RefFor, Transform.Adopt, Transform.MergeHostContentIntoTenant, Comparable;
    if WantsWrite(verdict) && Allow(w).Some? {
      var call := CallFor(cfg, res, policy, w.history, obj, host, found, verdict);
      SubmitKeepsHistory(Allow(w).value, call);
      if verdict.Pull? {
        ComparableKeepsMeta(cfg, res.kind, found.value);
      }
    }
  }

  lemma SubmitKeepsHistory(w: World, call: Call)
    ensures Submit(w, call).0.history == w.history
  {
    hide Serve, ApplyEdits;
  }

  lemma SettleStaysElsewhere(cfg: Config, res: Resource, policy: Policy, w: World, item: Object, host: Object, found: Option<Object>, verdict: Verdict, tenantKey: Key, hostKey: Key)
    requires found.None? ==> verdict.MakeMirror?
    requires SparesPair(w.script, tenantKey, hostKey) && KeyOf(item) != tenantKey && KeyOf(host) != hostKey
    ensures BothStand(w, Settle(cfg, res, policy, w, item, host, found, verdict).0, tenantKey, hostKey)
  {
    hide Submit, CallFor, KeyOf, SparesPair, Report, RefFor;
    if WantsWrite(verdict) && Allow(w).Some? {
      SentKey(cfg, res, policy, w.history, item, host, found, verdict);
      SubmitLeavesItBe(Allow(w).value, CallFor(cfg, res, policy, w.history, item, host, found, verdict), tenantKey, hostKey);
    }
  }

  /** The turn of an object of another kind, even one that maps to the same host
      name. */
  lemma OtherKindsTurn(cfg: Config, other: Resource, policy: Policy, w: World, item: Object, tenantKey: Key, hostKey: Key)
    requires WellNamed(cfg) && Inv(cfg, w) && SparesPair(w.script, tenantKey, hostKey)
    requires item.Kind() == other.kind && OnRecord(w.tenant, item) && Desired(cfg, other, item).Success?
    requires tenantKey.kind == hostKey.kind != other.kind
    ensures PairKept(w, Reconcile(cfg, other, policy, w, item, Desired(cfg, other, item).value).0, tenantKey, hostKey)
  {
    hide Desired, Judge, Settle, HostNames.HostName, Transform.ReverseLookup, Await, SparesPair, Inv, MirrorKey;
    AwaitLeavesItBe(w, tenantKey, hostKey);
    AwaitKeepsInv(cfg, w);
    DesiredKey(cfg, other, item);
    DesiredIsOurs(cfg, other, item);
    var (w1, turn) := Await(w);
    var host := Desired(cfg, other, item).value;
    var found := w1.host.Lookup(KeyOf(host));
    var verdict := Judge(cfg, other, policy, w1.history, item, host, found);
    JudgeFindsNothing(cfg, other, policy, w1.history, item, host, found);
    if turn.fault == Served {
      SettleStaysElsewhere(cfg, other, policy, w1, item, host, found, verdict, tenantKey, hostKey);
      SettleRecords(cfg, other, policy, w1, item, host, found, verdict, hostKey.name);
      var w' := Settle(cfg, other, policy, w1, item, host, found, verdict).0;
      assert w' == Reconcile(cfg, other, policy, w, item, host).0;
      ReconcileKeepsInv(cfg, other, policy, w, item);
      if Baseline(w'.history, hostKey.name) != Baseline(w1.history, hostKey.name) {
        VerdictIsSound(cfg, other, policy, w1, item);
        SettleKeepsInv(cfg, other, policy, w1, item, host, found, verdict);
        EntryOfKind(cfg, other.kind, w1, w', KeyOf(host), item, found);
      }
    }
  }

  /** A new entry that names a version of an object of this kind names two. */
  lemma EntryOfKind(cfg: Config, kind: string, w: World, w': World, hostKey: Key, item: Object, found: Option<Object>)
    requires Inv(cfg, w) && Inv(cfg, w') && Later(w, w') && OnRecord(w.tenant, item) && item.Kind() == kind == hostKey.kind
    requires found == w.host.Lookup(hostKey) && hostKey.name in w'.history
    requires var c := w'.history[hostKey.name];
             c.tenantVersion == item.meta.version || (found.Some? && c.hostVersion == found.value.meta.version)
    ensures var c := w'.history[hostKey.name];
            && c.tenantVersion in w'.tenant.log && w'.tenant.log[c.tenantVersion].Kind() == kind
            && c.hostVersion in w'.host.log && w'.host.log[c.hostVersion].Kind() == kind
  {
    hide SafeAttempt, ClassInv, Transform.ReverseLookup, Transform.ContentOf, Mirrors;
    assert TruthfulEntry(cfg, w'.tenant, w'.host, hostKey.name, w'.history[hostKey.name]);
    if found.Some? {
      assert OnRecord(w.host, found.value) && KeyOf(found.value) == hostKey;
    }
  }

  lemma {:induction false} OtherKindsItems(cfg: Config, other: Resource, policy: Policy, t: Tally, items: seq<Object>, tenantKey: Key, hostKey: Key)
    requires WellNamed(cfg) && Inv(cfg, t.w) && AllOnRecord(t.w.tenant, other.kind, items) && SparesPair(t.w.script, tenantKey, hostKey)
    requires tenantKey.kind == hostKey.kind != other.kind
    ensures PairKept(t.w, RunItems(cfg, other, policy, t, items).w, tenantKey, hostKey)
    decreases |items|
  {
    hide Inv, Reconcile, Desired, Eligible, SparesPair, Inherits;
    if items == [] {
      SameIsKept(t.w, tenantKey, hostKey);
    } else {
      var t' := RunItem(cfg, other, policy, t, items[0]);
      SameIsKept(t.w, tenantKey, hostKey);
      if Eligible(cfg, other, items[0]) && Desired(cfg, other, items[0]).Success? {
        OtherKindsTurn(cfg, other, policy, t.w, items[0], tenantKey, hostKey);
      }
      RunItemKeepsInv(cfg, other, policy, t, items[0]);
      RestOnRecord(t.w, t'.w, other.kind, items);
      OtherKindsItems(cfg, other, policy, t', items[1..], tenantKey, hostKey);
      RunItemsKeepInv(cfg, other, policy, t', items[1..]);
      KeptInTurn(t.w, t'.w, RunItems(cfg, other, policy, t', items[1..]).w, tenantKey, hostKey);
    }
  }

  lemma SameIsKept(w: World, tenantKey: Key, hostKey: Key)
    requires SparesPair(w.script, tenantKey, hostKey)
    ensures PairKept(w, w, tenantKey, hostKey)
  {
  }

  lemma RestOnRecord(w: World, w': World, kind: string, items: seq<Object>)
    requires AllOnRecord(w.tenant, kind, items) && items != [] && Later(w, w')
    ensures AllOnRecord(w'.tenant, kind, items[1..])
  {
  }

  lemma {:induction false} OtherKindsOrphans(res: Resource, policy: Policy, t: Tally, hosts: seq<Object>, tenantKey: Key, hostKey: Key)
    requires SparesPair(t.w.script, tenantKey, hostKey) && forall i :: 0 <= i < |hosts| ==> hosts[i].Kind() != hostKey.kind
    ensures LeftAlone(t.w, CollectOrphans(res, policy, t, hosts).w, tenantKey, hostKey)
    decreases |hosts|
  {
    hide Submit, LookedUp, SparesPair;
    if hosts != [] {
      var o := hosts[0];
      if o.meta.name !in t.desired && Allow(t.w).Some? {
        SubmitLeavesItBe(Allow(t.w).value, Call(DeleteHost, o, o, Baseline(t.w.history, o.meta.name), res, policy), tenantKey, hostKey);
      }
      OtherKindsOrphans(res, policy, CollectOne(res, policy, t, o), hosts[1..], tenantKey, hostKey);
    }
  }

  /** A pass of another kind keeps the pair, and replaces its baseline at most by
      one of its own kind. */
  lemma OtherKindsPass(cfg: Config, other: Resource, policy: Policy, w: World, orders: Orders, tenantKey: Key, hostKey: Key)
    requires WellNamed(cfg) && Inv(cfg, w) && Answered(cfg, other, policy, w, orders) && SparesPair(w.script, tenantKey, hostKey)
    requires tenantKey.kind == hostKey.kind != other.kind
    ensures PairKept(w, SyncPass(cfg, other, policy, w, orders).w, tenantKey, hostKey)
  {
    hide RunItems, CollectOrphans, Await, AskTenant, Inv, SparesPair, Lists, ListsLabelled, PairKept;
    AwaitLeavesItBe(w, tenantKey, hostKey);
    AskKeepsInv(cfg, w);
    var (w1, turn) := AskTenant(w);
    AloneIsKept(w, w1, tenantKey, hostKey);
    if turn.fault == Served {
      var t0 := Tally(w1, [], [], {});
      StoresStandUp(cfg, w1);
      ListedIsOnRecord(w1.tenant, other.kind, orders.items);
      OtherKindsItems(cfg, other, policy, t0, orders.items, tenantKey, hostKey);
      RunItemsKeepInv(cfg, other, policy, t0, orders.items);
      var t := RunItems(cfg, other, policy, t0, orders.items);
      KeptInTurn(w, w1, t.w, tenantKey, hostKey);
      KeptSpares(w, t.w, tenantKey, hostKey);
      ItemsKeepListing(cfg, other, policy, t0, orders.items);
      ItemsDesire(cfg, other, policy, t0, orders.items);
      ListedAreCovered(cfg, other, w1, t.w, orders.items);
      assert t.desired == WantedNames(cfg, other, orders.items);
      CollectionKeepsInv(cfg, other, policy, t, orders.hosts);
      OtherKindsCollection(cfg, other, policy, t, orders.hosts, tenantKey, hostKey);
      AloneIsKept(t.w, SyncPass(cfg, other, policy, w, orders).w, tenantKey, hostKey);
      KeptInTurn(w, t.w, SyncPass(cfg, other, policy, w, orders).w, tenantKey, hostKey);
    }
  }

  lemma OtherKindsCollection(cfg: Config, other: Resource, policy: Policy, t: Tally, hosts: seq<Object>, tenantKey: Key, hostKey: Key)
    requires SparesPair(t.w.script, tenantKey, hostKey) && hostKey.kind != other.kind
    requires Await(t.w).1.fault == Served ==> ListsLabelled(cfg, other.kind, Await(t.w).0.host, hosts)
    ensures var (w2, turn) := Await(t.w);
            LeftAlone(t.w, if turn.fault == Served then CollectOrphans(other, policy, Tally(w2, [], [], t.desired), hosts).w else w2, tenantKey, hostKey)
  {
    hide CollectOrphans, Await, SparesPair;
    AwaitLeavesItBe(t.w, tenantKey, hostKey);
    var (w2, turn) := Await(t.w);
    if turn.fault == Served {
      OtherKindsOrphans(other, policy, Tally(w2, [], [], t.desired), hosts, tenantKey, hostKey);
    }
  }

  lemma KeptSpares(w: World, w': World, tenantKey: Key, hostKey: Key)
    requires PairKept(w, w', tenantKey, hostKey)
    ensures SparesPair(w'.script, tenantKey, hostKey)
  {
  }

  // ---- passes of all kinds ----

  /** Both sides have moved since this baseline, if there is one. */
  predicate BothPast(b: Option<Converged>, obj: Object, existing: Object) {
    match b
    case None => true
    case Some(c) => obj.meta.version != c.tenantVersion && existing.meta.version != c.hostVersion
  }

  lemma HeirIsPast(w: World, kind: string, before: Option<Converged>, after: Option<Converged>, obj: Object, existing: Object)
    requires OnRecord(w.tenant, obj) && OnRecord(w.host, existing) && obj.Kind() == existing.Kind() == kind
    requires BothPast(before, obj, existing) && Inherits(w, kind, before, after)
    ensures BothPast(after, obj, existing)
  {
  }

  lemma StandoffParts(cfg: Config, res: Resource, w: World, obj: Object, existing: Object)
    requires IsStandoff(cfg, res, w, obj, existing) && Inv(cfg, w)
    ensures OnRecord(w.tenant, obj) && OnRecord(w.host, existing) && obj.Kind() == existing.Kind() == res.kind
    ensures KeyOf(obj).kind == MirrorKey(cfg, res, obj).kind == res.kind
    ensures BothPast(Baseline(w.history, MirrorKey(cfg, res, obj).name), obj, existing)
  {
    hide Desired, HostNames.HostName, Eligible, Transform.ReverseLookup, Transform.ContentOf, Comparable, SafeAttempt, TruthfulEntry, ClassInv;
  }

  lemma StandoffFrom(cfg: Config, res: Resource, w: World, w': World, obj: Object, existing: Object)
    requires IsStandoff(cfg, res, w, obj, existing)
    requires w'.tenant.Lookup(KeyOf(obj)) == Some(obj) && w'.host.Lookup(MirrorKey(cfg, res, obj)) == Some(existing)
    requires BothPast(Baseline(w'.history, MirrorKey(cfg, res, obj).name), obj, existing)
    ensures IsStandoff(cfg, res, w', obj, existing)
  {
    hide Desired, HostNames.HostName, Eligible, Transform.ReverseLookup, Transform.ContentOf, Comparable;
  }

  lemma StandoffLooks(cfg: Config, res: Resource, w: World, obj: Object, existing: Object)
    requires IsStandoff(cfg, res, w, obj, existing)
    ensures w.tenant.Lookup(KeyOf(obj)) == Some(obj) && w.host.Lookup(MirrorKey(cfg, res, obj)) == Some(existing)
  {
  }

  lemma SameKindDesired(cfg: Config, res: Resource, res': Resource, obj: Object)
    requires res'.kind == res.kind
    ensures Desired(cfg, res', obj).Success? == Desired(cfg, res, obj).Success?
  {
    hide Transform.BuildHostObject;
    Transform.HeaderKeys();
  }

  /** The resource may be listed under another version of its API. */
  lemma SameKindStandoff(cfg: Config, res: Resource, res': Resource, w: World, obj: Object, existing: Object)
    requires IsStandoff(cfg, res, w, obj, existing) && res'.kind == res.kind && res'.direction == Bidirectional
    ensures IsStandoff(cfg, res', w, obj, existing) && MirrorKey(cfg, res', obj) == MirrorKey(cfg, res, obj)
  {
    hide HostNames.HostName, Desired, SkippedNamespace, VirtualInfrastructure, Transform.ReverseLookup, Transform.ContentOf, Comparable;
    SameKindDesired(cfg, res, res', obj);
  }

  /** Resources of this kind are synced both ways, under "manual". */
  predicate ManualFor(kind: string, policy: Policy, job: Job) {
    job.res.kind == kind && job.res.direction != Unsupported ==> job.res.direction == Bidirectional && policy == Manual
  }

  lemma AnyPassKeepsStandoff(cfg: Config, res: Resource, policy: Policy, w: World, job: Job, obj: Object, existing: Object)
    requires WellNamed(cfg) && Inv(cfg, w) && IsStandoff(cfg, res, w, obj, existing)
    requires SparesPair(w.script, KeyOf(obj), MirrorKey(cfg, res, obj)) && ManualFor(res.kind, policy, job) && job.res.direction != Unsupported
    requires Answered(cfg, job.res, PolicyFor(job.res, policy), w, job.orders)
    ensures var w' := SyncPass(cfg, job.res, PolicyFor(job.res, policy), w, job.orders).w;
            && Inv(cfg, w') && Later(w, w') && IsStandoff(cfg, res, w', obj, existing)
            && PairKept(w, w', KeyOf(obj), MirrorKey(cfg, res, obj))
  {
    hide SyncPass, Answered, Inv, IsStandoff, SparesPair, MirrorKey, KeyOf, Inherits;
    var policy' := PolicyFor(job.res, policy);
    var w' := SyncPass(cfg, job.res, policy', w, job.orders).w;
    SyncPassKeepsInv(cfg, job.res, policy', w, job.orders);
    StandoffParts(cfg, res, w, obj, existing);
    StandoffLooks(cfg, res, w, obj, existing);
    if job.res.kind == res.kind {
      SameKindStandoff(cfg, res, job.res, w, obj, existing);
      PassLeavesItBe(cfg, job.res, w, job.orders, obj, existing);
      AloneIsKept(w, w', KeyOf(obj), MirrorKey(cfg, res, obj));
    } else {
      OtherKindsPass(cfg, job.res, policy', w, job.orders, KeyOf(obj), MirrorKey(cfg, res, obj));
    }
    RecordsAreKept(cfg, w, w', obj, existing);
    HeirIsPast(w', res.kind, Baseline(w.history, MirrorKey(cfg, res, obj).name), Baseline(w'.history, MirrorKey(cfg, res, obj).name), obj, existing);
    StandoffFrom(cfg, res, w, w', obj, existing);
  }

  lemma RecordsAreKept(cfg: Config, w: World, w': World, obj: Object, existing: Object)
    requires OnRecord(w.tenant, obj) && OnRecord(w.host, existing) && Later(w, w')
    ensures OnRecord(w'.tenant, obj) && OnRecord(w'.host, existing)
  {
  }

  // ---- one sync ----

  /** The pair is in dispute, the engine's baseline stems from the one it loaded,
      and the recorded one from what was on record or from what was loaded. */
  ghost predicate Disputed(cfg: Config, res: Resource, rec: Retention, p: Progress, obj: Object, existing: Object, recorded: Option<Converged>, loaded: Option<Converged>) {
    var name := MirrorKey(cfg, res, obj).name;
    var now := Baseline(Load(Latest(p.records)), name);
    && Inv(cfg, p.w) && IsStandoff(cfg, res, p.w, obj, existing) && SparesPair(p.w.script, KeyOf(obj), MirrorKey(cfg, res, obj))
    && (rec.enabled ==> Inherits(p.w, res.kind, loaded, Baseline(p.w.history, name)))
    && (Inherits(p.w, res.kind, recorded, now) || (rec.enabled && Inherits(p.w, res.kind, loaded, now)))
  }

  lemma PersistKeepsDispute(cfg: Config, res: Resource, rec: Retention, p: Progress, decisions: seq<Decision>, obj: Object, existing: Object, recorded: Option<Converged>, loaded: Option<Converged>)
    requires Disputed(cfg, res, rec, p, obj, existing, recorded, loaded)
    ensures var (w', records') := Persist(rec, p.w, p.records, decisions);
            Disputed(cfg, res, rec, Progress(w', records', p.firstError), obj, existing, recorded, loaded)
  {
    hide Await, Inv, IsStandoff, SparesPair, MirrorKey, KeyOf, Inherits, EntriesOf;
    var name := MirrorKey(cfg, res, obj).name;
    var w' := Await(p.w).0;
    AwaitKeepsInv(cfg, p.w);
    AwaitLeavesItBe(p.w, KeyOf(obj), MirrorKey(cfg, res, obj));
    StandoffCarries(cfg, res, p.w, w', obj, existing);
    HeirsLater(p.w, w', res.kind, loaded, Baseline(p.w.history, name));
    HeirsLater(p.w, w', res.kind, loaded, Baseline(Load(Latest(p.records)), name));
    HeirsLater(p.w, w', res.kind, recorded, Baseline(Load(Latest(p.records)), name));
  }

  lemma HeirsLater(a: World, b: World, kind: string, x: Option<Converged>, y: Option<Converged>)
    requires Grows(a, b)
    ensures Inherits(a, kind, x, y) ==> Inherits(b, kind, x, y)
  {
  }

  lemma JobKeepsDispute(cfg: Config, res: Resource, policy: Policy, rec: Retention, p: Progress, job: Job, obj: Object, existing: Object, recorded: Option<Converged>, loaded: Option<Converged>)
    requires WellNamed(cfg) && Disputed(cfg, res, rec, p, obj, existing, recorded, loaded) && ManualFor(res.kind, policy, job)
    requires job.res.direction != Unsupported ==> Answered(cfg, job.res, PolicyFor(job.res, policy), p.w, job.orders)
    ensures Disputed(cfg, res, rec, RunJob(cfg, policy, rec, p, job), obj, existing, recorded, loaded)
  {
    hide SyncPass, Answered, Inv, IsStandoff, SparesPair, MirrorKey, KeyOf, Inherits, Persist;
    if job.res.direction != Unsupported {
      AnyPassKeepsStandoff(cfg, res, policy, p.w, job, obj, existing);
      var pass := SyncPass(cfg, job.res, PolicyFor(job.res, policy), p.w, job.orders);
      var name := MirrorKey(cfg, res, obj).name;
      StandoffParts(cfg, res, p.w, obj, existing);
      HeirsLater(p.w, pass.w, res.kind, loaded, Baseline(Load(Latest(p.records)), name));
      HeirsLater(p.w, pass.w, res.kind, recorded, Baseline(Load(Latest(p.records)), name));
      if rec.enabled {
        InheritsInTurn(p.w, pass.w, res.kind, loaded, Baseline(p.w.history, name), Baseline(pass.w.history, name));
      }
      var p' := Progress(pass.w, p.records, p.firstError);
      assert Disputed(cfg, res, rec, p', obj, existing, recorded, loaded);
      PersistKeepsDispute(cfg, res, rec, p', pass.decisions, obj, existing, recorded, loaded);
    }
  }

  lemma {:induction false} JobsKeepDispute(cfg: Config, res: Resource, policy: Policy, rec: Retention, p: Progress, jobs: seq<Job>, obj: Object, existing: Object, recorded: Option<Converged>, loaded: Option<Converged>)
    requires WellNamed(cfg) && Disputed(cfg, res, rec, p, obj, existing, recorded, loaded) && JobsAnswered(cfg, policy, rec, p, jobs)
    requires forall i :: 0 <= i < |jobs| ==> ManualFor(res.kind, policy, jobs[i])
    ensures Disputed(cfg, res, rec, RunJobs(cfg, policy, rec, p, jobs), obj, existing, recorded, loaded)
    decreases |jobs|
  {
    hide Disputed, RunJob, Answered, ManualFor;
    if jobs != [] {
      JobKeepsDispute(cfg, res, policy, rec, p, jobs[0], obj, existing, recorded, loaded);
      JobsKeepDispute(cfg, res, policy, rec, RunJob(cfg, policy, rec, p, jobs[0]), jobs[1..], obj, existing, recorded, loaded);
    }
  }

  // ---- runs ----

  /** The pair is in a standoff, with its baseline read from the record. */
  ghost predicate InDispute(cfg: Config, res: Resource, s: System, obj: Object, existing: Object) {
    IsStandoff(cfg, res, s.w.(history := Load(Latest(s.records))), obj, existing)
  }

  function RecordedBaseline(records: seq<Record>, name: string): Option<Converged> {
    Baseline(Load(Latest(records)), name)
  }

  predicate LoadsLatest(s: System, step: Step) {
    step.Sync? && step.rec.enabled ==> |s.records| <= step.seen
  }

  /** No one edits either object, the kind is synced under "manual", and a record
      that is loaded late is one that both sides have left behind, too. */
  ghost predicate Spares(cfg: Config, res: Resource, s: System, step: Step, obj: Object, existing: Object) {
    var mirror := MirrorKey(cfg, res, obj);
    match step
    case Others(turn) => SparesPair([turn], KeyOf(obj), mirror)
    case Sync(policy, rec, seen, _, script, jobs) =>
      && SparesPair(script, KeyOf(obj), mirror)
      && (forall i :: 0 <= i < |jobs| ==> ManualFor(res.kind, policy, jobs[i]))
      && (LoadsLatest(s, step) || BothPast(Baseline(Load(Loaded(s.records, seen)), mirror.name), obj, existing))
  }

  ghost predicate SparesAlong(cfg: Config, res: Resource, s: System, steps: seq<Step>, obj: Object, existing: Object)
    decreases |steps|
  {
    steps != [] ==>
      Spares(cfg, res, s, steps[0], obj, existing) && SparesAlong(cfg, res, TakeStep(cfg, s, steps[0]), steps[1..], obj, existing)
  }

  predicate LoadsLatestAlong(cfg: Config, s: System, steps: seq<Step>)
    decreases |steps|
  {
    steps != [] ==> LoadsLatest(s, steps[0]) && LoadsLatestAlong(cfg, TakeStep(cfg, s, steps[0]), steps[1..])
  }

  lemma SyncStartsInDispute(cfg: Config, res: Resource, s: System, step: Step, obj: Object, existing: Object)
    requires SystemInv(cfg, s) && InDispute(cfg, res, s, obj, existing) && step.Sync? && Spares(cfg, res, s, step, obj, existing)
    ensures var name := MirrorKey(cfg, res, obj).name;
            var w := Starts(s, step);
            var loaded := Baseline(Load(Loaded(s.records, step.seen)), name);
            && Disputed(cfg, res, step.rec, Progress(w, s.records, None), obj, existing, RecordedBaseline(s.records, name), loaded)
            && Disputed(cfg, res, step.rec, Progress(Await(w).0, s.records, None), obj, existing, RecordedBaseline(s.records, name), loaded)
  {
    hide Inv, SystemInv, IsStandoff, SparesPair, MirrorKey, KeyOf, Await, Inherits;
    var name := MirrorKey(cfg, res, obj).name;
    var before := s.w.(history := Load(Latest(s.records)));
    var w := Starts(s, step);
    var loaded := Baseline(Load(Loaded(s.records, step.seen)), name);
    StartsSafely(cfg, s, step);
    StandoffLooks(cfg, res, before, obj, existing);
    PastOfRecord(cfg, res, before, obj, existing);
    StandoffFrom(cfg, res, before, w, obj, existing);
    Itself(w, res.kind, loaded);
    Itself(w, res.kind, RecordedBaseline(s.records, name));
    var p := Progress(w, s.records, None);
    assert Disputed(cfg, res, step.rec, p, obj, existing, RecordedBaseline(s.records, name), loaded);
    AwaitKeepsInv(cfg, w);
    AwaitLeavesItBe(w, KeyOf(obj), MirrorKey(cfg, res, obj));
    StandoffCarries(cfg, res, w, Await(w).0, obj, existing);
    HeirsLater(w, Await(w).0, res.kind, loaded, loaded);
    HeirsLater(w, Await(w).0, res.kind, RecordedBaseline(s.records, name), RecordedBaseline(s.records, name));
  }

  lemma Itself(w: World, kind: string, b: Option<Converged>)
    ensures Inherits(w, kind, b, b)
  {
  }

  lemma PastOfRecord(cfg: Config, res: Resource, w: World, obj: Object, existing: Object)
    requires IsStandoff(cfg, res, w, obj, existing)
    ensures BothPast(Baseline(w.history, MirrorKey(cfg, res, obj).name), obj, existing)
  {
    hide Desired, HostNames.HostName, Eligible, Transform.ReverseLookup, Transform.ContentOf, Comparable;
  }

  lemma StepKeepsDispute(cfg: Config, res: Resource, s: System, step: Step, obj: Object, existing: Object)
    requires WellNamed(cfg) && SystemInv(cfg, s) && Enabled(cfg, s, step)
    requires InDispute(cfg, res, s, obj, existing) && Spares(cfg, res, s, step, obj, existing)
    ensures var s' := TakeStep(cfg, s, step);
            var name := MirrorKey(cfg, res, obj).name;
            && InDispute(cfg, res, s', obj, existing)
            && (LoadsLatest(s, step) ==> Inherits(s'.w, res.kind, RecordedBaseline(s.records, name), RecordedBaseline(s'.records, name)))
  {
    hide Inv, RunJobs, JobsAnswered, IsStandoff, SparesPair, MirrorKey, KeyOf, Await, Inherits, ManualFor, SystemInv;
    var name := MirrorKey(cfg, res, obj).name;
    var before := s.w.(history := Load(Latest(s.records)));
    StandoffLooks(cfg, res, before, obj, existing);
    PastOfRecord(cfg, res, before, obj, existing);
    match step {
      case Others(turn) =>
        AwaitLeavesItBe(s.w.(script := [turn]), KeyOf(obj), MirrorKey(cfg, res, obj));
        var s' := TakeStep(cfg, s, step);
        StandoffFrom(cfg, res, before, s'.w.(history := Load(Latest(s'.records))), obj, existing);
        Itself(s'.w, res.kind, RecordedBaseline(s.records, name));
      case Sync(policy, rec, seen, grants, script, jobs) =>
        var w := Starts(s, step);
        var loaded := Baseline(Load(Loaded(s.records, seen)), name);
        SyncStartsInDispute(cfg, res, s, step, obj, existing);
        if jobs != [] && (rec.enabled ==> Await(w).1.fault == Served) {
          JobsKeepDispute(cfg, res, policy, rec, Progress(if rec.enabled then Await(w).0 else w, s.records, None), jobs, obj, existing,
                          RecordedBaseline(s.records, name), loaded);
        }
        var p := RunSync(cfg, policy, rec, w, s.records, jobs);
        assert Disputed(cfg, res, rec, Progress(p.w, p.records, None), obj, existing, RecordedBaseline(s.records, name), loaded);
        DisputeIsOnRecord(cfg, res, rec, p, obj, existing, RecordedBaseline(s.records, name), loaded);
    }
  }

  lemma DisputeIsOnRecord(cfg: Config, res: Resource, rec: Retention, p: Progress, obj: Object, existing: Object, recorded: Option<Converged>, loaded: Option<Converged>)
    requires Disputed(cfg, res, rec, Progress(p.w, p.records, None), obj, existing, recorded, loaded)
    requires BothPast(recorded, obj, existing) && (rec.enabled ==> BothPast(loaded, obj, existing))
    ensures InDispute(cfg, res, System(p.w, p.records), obj, existing)
  {
    hide Inv, IsStandoff, SparesPair, KeyOf, Inherits, MirrorKey;
    var now := RecordedBaseline(p.records, MirrorKey(cfg, res, obj).name);
    StandoffParts(cfg, res, p.w, obj, existing);
    StandoffLooks(cfg, res, p.w, obj, existing);
    if Inherits(p.w, res.kind, recorded, now) {
      HeirIsPast(p.w, res.kind, recorded, now, obj, existing);
    } else {
      HeirIsPast(p.w, res.kind, loaded, now, obj, existing);
    }
    StandoffFrom(cfg, res, p.w, p.w.(history := Load(Latest(p.records))), obj, existing);
  }

  /** Over every run, through fresh engines, reloaded histories and passes of all
      kinds, a two-sided change under "manual" leaves both objects just as they are
      until someone edits one of them. The recorded baseline is the one it was, or
      names versions of another kind of the same host name. */
  lemma {:induction false} StandoffLastsOverRuns(cfg: Config, res: Resource, s: System, steps: seq<Step>, obj: Object, existing: Object)
    requires WellNamed(cfg) && SystemInv(cfg, s) && IsRun(cfg, s, steps)
    requires InDispute(cfg, res, s, obj, existing) && SparesAlong(cfg, res, s, steps, obj, existing)
    ensures var s' := TakeSteps(cfg, s, steps);
            var name := MirrorKey(cfg, res, obj).name;
            && SystemInv(cfg, s') && InDispute(cfg, res, s', obj, existing)
            && s'.w.tenant.Lookup(KeyOf(obj)) == Some(obj) && s'.w.host.Lookup(MirrorKey(cfg, res, obj)) == Some(existing)
            && (LoadsLatestAlong(cfg, s, steps) ==>
                  Inherits(s'.w, res.kind, RecordedBaseline(s.records, name), RecordedBaseline(s'.records, name)))
    decreases |steps|
  {
    hide SystemInv, TakeStep, Enabled, IsStandoff, Spares, LoadsLatest, Inherits, RecordedBaseline, MirrorKey;
    var name := MirrorKey(cfg, res, obj).name;
    if steps == [] {
      StandoffLooks(cfg, res, s.w.(history := Load(Latest(s.records))), obj, existing);
      Itself(s.w, res.kind, RecordedBaseline(s.records, name));
    } else {
      var s1 := TakeStep(cfg, s, steps[0]);
      StepKeepsInv(cfg, s, steps[0]);
      StepKeepsDispute(cfg, res, s, steps[0], obj, existing);
      StandoffLastsOverRuns(cfg, res, s1, steps[1..], obj, existing);
      var s' := TakeSteps(cfg, s1, steps[1..]);
      if LoadsLatestAlong(cfg, s, steps) {
        EveryRunIsSafe(cfg, s1, steps[1..]);
        InheritsInTurn(s1.w, s'.w, res.kind, RecordedBaseline(s.records, name), RecordedBaseline(s1.records, name), RecordedBaseline(s'.records, name));
      }
    }
  }

  /** Such runs can start in sound systems: the pair has once agreed, that is on
      record, and both sides have been written since. */
  lemma DisputeHappens(cfg: Config, res: Resource, obj: Object)
    requires WellNamed(cfg) && Wanted(cfg, res, obj) && res.direction == Bidirectional && res.kind != "Pod"
    requires obj.meta.version == 2 && Mirrors(obj)
    ensures var mirror := Desired(cfg, res, obj).value;
            var existing := Drifted(mirror, obj, 2);
            var w := EditedTwice(obj, mirror, existing);
            var s := System(w, [Record([], w.history)]);
            SystemInv(cfg, s) && InDispute(cfg, res, s, obj, existing) && RecordedBaseline(s.records, MirrorKey(cfg, res, obj).name).Some?
  {
    hide Desired, HostNames.HostName, Transform.ReverseLookup, Transform.ContentOf, Eligible, Drifted, Mirrors, TruthfulEntry, SafeAttempt, ClassInv, IsStandoff;
    StandoffAfterAgreement(cfg, res, obj);
    DesiredKey(cfg, res, obj);
    var mirror := Desired(cfg, res, obj).value;
    var w := EditedTwice(obj, mirror, Drifted(mirror, obj, 2));
    assert w.(history := Load(Latest([Record([], w.history)]))) == w;
  }
}
