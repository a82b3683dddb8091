/** Whole passes tell what they did (internal/syncer/engine.go): one decision for
    each object, in order, and one request for each decision that reports one. */
module PassLaws {
  import opened Cluster
  import opened Conservation
  import opened DecisionLaws
  import opened Engine
  import opened FieldLaws
  import opened HostNames
  import opened Naming
  import opened Objects
  import opened Transform
  import opened Wrappers

  // ---- history ----

  predicate OneWay(res: Resource) {
    res.direction == ToHost || res.direction == FromHost
  }

  /** What a resource that flows one way does is not remembered. */
  lemma OneWayPairKeepsHistory(cfg: Config, res: Resource, policy: Policy, w: World, obj: Object, host: Object)
    requires OneWay(res)
    ensures Reconcile(cfg, res, policy, w, obj, host).0.history == w.history
  {
    hide Judge, Reconcile, Report, Claimed, ApplyEdits, SentFor, Attempted;
    var w1 := Await(w).0;
    var found := w1.host.Lookup(KeyOf(host));
    var reason := Report(res, RefFor(cfg, res.kind, obj), host, Judge(cfg, res, policy, w1.history, obj, host, found)).reason;
    VerdictIsClaimed(cfg, res, policy, w1.history, obj, host, found);
    ReconcileTells(cfg, res, policy, w, obj, host, reason);
  }

  lemma {:induction false} OneWayItemsKeepHistory(cfg: Config, res: Resource, policy: Policy, t: Tally, items: seq<Object>)
    requires OneWay(res)
    ensures RunItems(cfg, res, policy, t, items).w.history == t.w.history
    decreases |items|
  {
    hide Reconcile, Desired, Eligible;
    if items != [] {
      if Eligible(cfg, res, items[0]) && Desired(cfg, res, items[0]).Success? {
        OneWayPairKeepsHistory(cfg, res, policy, t.w, items[0], Desired(cfg, res, items[0]).value);
      }
      OneWayItemsKeepHistory(cfg, res, policy, RunItem(cfg, res, policy, t, items[0]), items[1..]);
    }
  }

  lemma {:induction false} CollectingKeepsHistory(res: Resource, policy: Policy, t: Tally, hosts: seq<Object>)
    ensures CollectOrphans(res, policy, t, hosts).w.history == t.w.history
    decreases |hosts|
  {
    hide Submit;
    if hosts != [] {
      if Allow(t.w).Some? {
        SubmitTells(Allow(t.w).value, Call(DeleteHost, hosts[0], hosts[0], Baseline(t.w.history, hosts[0].meta.name), res, policy));
      }
      CollectingKeepsHistory(res, policy, CollectOne(res, policy, t, hosts[0]), hosts[1..]);
    }
  }

  /** A pass of a resource that flows one way leaves every baseline as it was, those
      of other kinds under the same host names included, whatever call fails. */
  lemma OneWayPassKeepsHistory(cfg: Config, res: Resource, policy: Policy, w: World, orders: Orders)
    requires OneWay(res)
    ensures SyncPass(cfg, res, policy, w, orders).w.history == w.history
  {
    hide RunItems, CollectOrphans, ApplyEdits;
    var t := PairTally(cfg, res, policy, w, orders);
    OneWayItemsKeepHistory(cfg, res, policy, Tally(AskTenant(w).0, [], [], {}), orders.items);
    CollectingKeepsHistory(res, policy, Tally(Await(t.w).0, [], [], t.desired), orders.hosts);
  }

  // ---- what takes part ----

  /** Neither in a system namespace of the tenant nor part of its API machinery. */
  predicate Projectable(cfg: Config, kind: string, o: Object) {
    && (match cfg.skipNamespaces
        case Some(names) => o.meta.namespace !in names
        case None => o.meta.namespace != "kube-system" && o.meta.namespace != "kube-public" && o.meta.namespace != "kube-node-lease")
    && !(kind == "Service" && o.meta.namespace == "default" && o.meta.name == "kubernetes")
    && !(kind == "Endpoints" && o.meta.namespace == "default" && o.meta.name == "kubernetes")
    && !(kind == "ConfigMap" && o.meta.name == "kube-root-ca.crt")
  }

  lemma EligibleIsProjectable(cfg: Config, res: Resource, o: Object)
    ensures Eligible(cfg, res, o) <==> Projectable(cfg, res.kind, o)
  {
    assert |"Service"| == 7 && |"Endpoints"| == 9 && |"ConfigMap"| == 9 && "Endpoints"[0] == 'E' && "ConfigMap"[0] == 'C';
  }

  function Projected(cfg: Config, kind: string, items: seq<Object>): seq<Object> {
    if items == [] then []
    else (if Projectable(cfg, kind, items[0]) then [items[0]] else []) + Projected(cfg, kind, items[1..])
  }

  // ---- decisions and requests ----

  predicate Stands(o: Object, target: HostTarget) {
    o.meta.namespace == target.namespace && o.meta.name == target.name
  }

  /** The decision reports this very request. */
  predicate Carries(d: Decision, a: Attempt) {
    match d.action
    case CreateAction => a.call.op == CreateHost && a.reply.Accepted? && Stands(a.call.sent, d.host)
    case UpdateAction =>
      && a.reply.Accepted?
      && if d.reason == Pushed then a.call.op == UpdateHost && Stands(a.call.sent, d.host)
         else a.call.op == UpdateTenant && a.call.sent.meta.namespace == d.ref.virtualNamespace && a.call.sent.meta.name == d.ref.name
    case DeleteAction => a.call.op == DeleteHost && (a.reply.Accepted? || a.reply.Absent?) && Stands(a.call.sent, d.host)
    case SkipAction => false
  }

  /** The decisions that are no Skip report exactly these requests, in order. */
  predicate Matches(decisions: seq<Decision>, attempts: seq<Attempt>)
    decreases |decisions|
  {
    if decisions == [] then attempts == []
    else if decisions[0].action == SkipAction then Matches(decisions[1..], attempts)
    else attempts != [] && Carries(decisions[0], attempts[0]) && Matches(decisions[1..], attempts[1..])
  }

  lemma {:induction false} MatchesInTurn(d: seq<Decision>, d': seq<Decision>, a: seq<Attempt>, a': seq<Attempt>)
    requires Matches(d, a) && Matches(d', a')
    ensures Matches(d + d', a + a')
    decreases |d|
  {
    hide Carries;
    if d == [] {
      assert d + d' == d' && a + a' == a';
    } else if d[0].action == SkipAction {
      assert (d + d')[1..] == d[1..] + d';
      MatchesInTurn(d[1..], d', a, a');
    } else {
      assert (d + d')[1..] == d[1..] + d' && (a + a')[1..] == a[1..] + a';
      MatchesInTurn(d[1..], d', a[1..], a');
    }
  }

  /** The decision is about this tenant object and its place on the host. */
  predicate AboutPair(cfg: Config, res: Resource, o: Object, d: Decision) {
    && d.kind == res.kind
    && d.ref == ResourceRef(cfg.tenant, cfg.hostNamespace, o.meta.namespace, res.kind, o.meta.name)
    && d.host == HostTarget(Sanitize(cfg.hostNamespace), HostName(o.meta.name, o.meta.namespace, cfg.tenant))
  }

  /** The decision is about this host object and the source that its marks name. */
  predicate AboutOrphan(res: Resource, o: Object, d: Decision) {
    && d.kind == res.kind && Stands(o, d.host)
    && ((d.action == DeleteAction && d.reason == Orphaned) || (d.action == SkipAction && d.reason == RateLimited))
    && (IsManaged(o) ==>
          d.ref == ResourceRef(o.Label("tenantplane.io/tenant"), o.meta.namespace, o.Annotation("tenantplane.io/virtual-namespace"),
                               o.Kind(), o.Annotation("tenantplane.io/virtual-name")))
  }

  predicate AboutEachPair(cfg: Config, res: Resource, objs: seq<Object>, decisions: seq<Decision>) {
    |objs| == |decisions| && forall i :: 0 <= i < |objs| ==> AboutPair(cfg, res, objs[i], decisions[i])
  }

  predicate AboutEachOrphan(res: Resource, objs: seq<Object>, decisions: seq<Decision>) {
    |objs| == |decisions| && forall i :: 0 <= i < |objs| ==> AboutOrphan(res, objs[i], decisions[i])
  }

  /** What `after` has beyond `before`. */
  function Gain<T>(before: seq<T>, after: seq<T>): seq<T> {
    if |before| <= |after| then after[|before|..] else []
  }

  /** Nothing is lost from t to t', and every new decision that is no Skip reports
      one new request, unless there was an error. */
  ghost predicate Follows(t: Tally, t': Tally) {
    && t.decisions <= t'.decisions && t.errors <= t'.errors && t.w.audit <= t'.w.audit
    && (t'.errors == t.errors ==> Matches(Gain(t.decisions, t'.decisions), Gain(t.w.audit, t'.w.audit)))
  }

  lemma GainInTurn<T>(a: seq<T>, b: seq<T>, c: seq<T>)
    requires a <= b <= c
    ensures a <= c && Gain(a, c) == Gain(a, b) + Gain(b, c)
    ensures a == c <==> a == b && b == c
  {
  }

  lemma FollowsInTurn(a: Tally, b: Tally, c: Tally)
    requires Follows(a, b) && Follows(b, c)
    ensures Follows(a, c)
    ensures Gain(a.decisions, c.decisions) == Gain(a.decisions, b.decisions) + Gain(b.decisions, c.decisions)
    ensures c.errors == a.errors <==> b.errors == a.errors && c.errors == b.errors
  {
    hide Matches, Gain;
    GainInTurn(a.decisions, b.decisions, c.decisions);
    GainInTurn(a.errors, b.errors, c.errors);
    GainInTurn(a.w.audit, b.w.audit, c.w.audit);
    if c.errors == a.errors {
      MatchesInTurn(Gain(a.decisions, b.decisions), Gain(b.decisions, c.decisions), Gain(a.w.audit, b.w.audit), Gain(b.w.audit, c.w.audit));
    }
  }

  lemma NothingFollows(t: Tally)
    ensures Follows(t, t) && Gain(t.decisions, t.decisions) == [] && Gain(t.w.audit, t.w.audit) == []
  {
    assert Gain(t.decisions, t.decisions) == [] && Gain(t.w.audit, t.w.audit) == [];
  }

  /** A pair's turn: one decision and the request it reports, or an error. */
  lemma PairTells(cfg: Config, res: Resource, policy: Policy, w: World, obj: Object, host: Object)
    requires res.direction != Unsupported
    ensures var (w', outcome) := Reconcile(cfg, res, policy, w, obj, host);
            && w.audit <= w'.audit
            && (outcome.Success? ==> About(cfg, res, obj, host, outcome.value) && Matches([outcome.value], Gain(w.audit, w'.audit)))
  {
    hide Judge, Reconcile, Report, Claimed, ApplyEdits, AdoptedFrom, Matches;
    var w1 := Await(w).0;
    var found := w1.host.Lookup(KeyOf(host));
    var reason := Report(res, RefFor(cfg, res.kind, obj), host, Judge(cfg, res, policy, w1.history, obj, host, found)).reason;
    VerdictIsClaimed(cfg, res, policy, w1.history, obj, host, found);
    ReconcileTells(cfg, res, policy, w, obj, host, reason);
    var (w', outcome) := Reconcile(cfg, res, policy, w, obj, host);
    if outcome.Success? {
      if outcome.value.action == SkipAction {
        OneSkip(outcome.value);
        assert Gain(w.audit, w'.audit) == [];
      } else {
        OneWrite(outcome.value, w'.audit[|w.audit|]);
        assert Gain(w.audit, w'.audit) == [w'.audit[|w.audit|]];
      }
    }
  }

  lemma OneSkip(d: Decision)
    requires d.action == SkipAction
    ensures Matches([d], [])
  {
    assert [d][1..] == [];
  }

  lemma OneWrite(d: Decision, a: Attempt)
    requires d.action != SkipAction
    ensures Matches([d], [a]) <==> Carries(d, a)
  {
    assert [d][1..] == [] && [a][1..] == [];
  }

  lemma DesiredStands(cfg: Config, res: Resource, obj: Object)
    requires Desired(cfg, res, obj).Success?
    ensures var host := Desired(cfg, res, obj).value;
            && host.meta.namespace == Sanitize(cfg.hostNamespace)
            && host.meta.name == HostName(obj.meta.name, obj.meta.namespace, cfg.tenant)
  {
    hide BuildHostObject, Sanitize, HostName, LabelledFor, AnnotatedFor, CarriesNoAddress;
    BuildFieldByField(RefFor(cfg, res.kind, obj), obj);
  }

  lemma ItemTells(cfg: Config, res: Resource, policy: Policy, t: Tally, obj: Object)
    requires res.direction != Unsupported
    ensures var t' := RunItem(cfg, res, policy, t, obj);
            && Follows(t, t')
            && (!Projectable(cfg, res.kind, obj) ==> t' == t)
            && (Projectable(cfg, res.kind, obj) && t'.errors == t.errors ==>
                  && AboutEachPair(cfg, res, [obj], Gain(t.decisions, t'.decisions))
                  && t'.desired == t.desired + {HostName(obj.meta.name, obj.meta.namespace, cfg.tenant)})
  {
    hide Desired, Reconcile, Eligible, Projectable, Matches, HostName, Sanitize;
    EligibleIsProjectable(cfg, res, obj);
    NothingFollows(t);
    if Eligible(cfg, res, obj) && Desired(cfg, res, obj).Success? {
      var outcome := Reconcile(cfg, res, policy, t.w, obj, Desired(cfg, res, obj).value).1;
      PairTells(cfg, res, policy, t.w, obj, Desired(cfg, res, obj).value);
      DesiredStands(cfg, res, obj);
      if outcome.Success? {
        assert Gain(t.decisions, t.decisions + [outcome.value]) == [outcome.value];
      }
    }
  }

  /** The names that the mirrors of these objects take. */
  function NamesOf(cfg: Config, objs: seq<Object>): set<string> {
    set o | o in objs :: HostName(o.meta.name, o.meta.namespace, cfg.tenant)
  }

  lemma NamesAdd(cfg: Config, a: seq<Object>, b: seq<Object>)
    ensures NamesOf(cfg, a + b) == NamesOf(cfg, a) + NamesOf(cfg, b) && NamesOf(cfg, []) == {}
    ensures |a| == 1 ==> NamesOf(cfg, a) == {HostName(a[0].meta.name, a[0].meta.namespace, cfg.tenant)}
  {
    hide HostName;
  }

  lemma NoneAbout(cfg: Config, res: Resource)
    ensures AboutEachPair(cfg, res, [], [])
  {
  }

  lemma CountPairs(cfg: Config, res: Resource, objs: seq<Object>, decisions: seq<Decision>)
    requires AboutEachPair(cfg, res, objs, decisions)
    ensures |objs| == |decisions|
  {
  }

  lemma NoOrphans(res: Resource)
    ensures AboutEachOrphan(res, [], [])
  {
  }

  lemma PairsAdd(cfg: Config, res: Resource, a: seq<Object>, b: seq<Object>, d: seq<Decision>, e: seq<Decision>)
    requires AboutEachPair(cfg, res, a, d) && AboutEachPair(cfg, res, b, e)
    ensures AboutEachPair(cfg, res, a + b, d + e)
  {
    hide AboutPair;
  }

  lemma OrphansAdd(res: Resource, a: seq<Object>, b: seq<Object>, d: seq<Decision>, e: seq<Decision>)
    requires AboutEachOrphan(res, a, d) && AboutEachOrphan(res, b, e)
    ensures AboutEachOrphan(res, a + b, d + e)
  {
    hide AboutOrphan;
  }

  lemma {:induction false} ItemsTell(cfg: Config, res: Resource, policy: Policy, t: Tally, items: seq<Object>)
    requires res.direction != Unsupported
    ensures var t' := RunItems(cfg, res, policy, t, items);
            && Follows(t, t')
            && (t'.errors == t.errors ==>
                  && AboutEachPair(cfg, res, Projected(cfg, res.kind, items), Gain(t.decisions, t'.decisions))
                  && t'.desired == t.desired + NamesOf(cfg, Projected(cfg, res.kind, items)))
    decreases |items|
  {
    hide RunItem, Projectable, HostName, AboutEachPair, Follows, Gain, NamesOf;
    NamesAdd(cfg, [], []);
    if items == [] {
      NothingFollows(t);
      NoneAbout(cfg, res);
    } else {
      var t1, t' := RunItem(cfg, res, policy, t, items[0]), RunItems(cfg, res, policy, t, items);
      ItemTells(cfg, res, policy, t, items[0]);
      ItemsTell(cfg, res, policy, t1, items[1..]);
      FollowsInTurn(t, t1, t');
      NamesAdd(cfg, [items[0]], Projected(cfg, res.kind, items[1..]));
      var rest := Projected(cfg, res.kind, items[1..]);
      assert [] + rest == rest && [] + Gain(t1.decisions, t'.decisions) == Gain(t1.decisions, t'.decisions);
      if t'.errors == t.errors && Projectable(cfg, res.kind, items[0]) {
        PairsAdd(cfg, res, [items[0]], rest, Gain(t.decisions, t1.decisions), Gain(t1.decisions, t'.decisions));
      } else if t'.errors == t.errors {
        NothingFollows(t);
      }
    }
  }

  lemma OrphanTells(res: Resource, policy: Policy, t: Tally, o: Object)
    ensures var t' := CollectOne(res, policy, t, o);
            && Follows(t, t') && t'.desired == t.desired
            && (o.meta.name in t.desired ==> t' == t)
            && (o.meta.name !in t.desired && t'.errors == t.errors ==> AboutEachOrphan(res, [o], Gain(t.decisions, t'.decisions)))
  {
    hide Submit, Matches, IsManaged;
    NothingFollows(t);
    MarksOf(o);
    if o.meta.name !in t.desired {
      var deletion, skip := Decide(res, LookedUp(o), o, DeleteAction, Orphaned), Decide(res, LookedUp(o), o, SkipAction, RateLimited);
      OneSkip(skip);
      assert Gain(t.decisions, t.decisions + [deletion]) == [deletion] && Gain(t.decisions, t.decisions + [skip]) == [skip];
      if Allow(t.w).Some? {
        var call := Call(DeleteHost, o, o, Baseline(t.w.history, o.meta.name), res, policy);
        var (w', reply) := Submit(Allow(t.w).value, call);
        DeleteTells(t.w, call);
        assert t.decisions <= t.decisions + [deletion] && t.errors <= t.errors + [CallFailed(reply)];
        assert t.errors + [CallFailed(reply)] != t.errors;
        if reply.Accepted? || reply.Absent? {
          OneWrite(deletion, w'.audit[|t.w.audit|]);
        }
      }
    }
  }

  lemma DeleteTells(w: World, call: Call)
    requires Allow(w).Some?
    ensures var (w', reply) := Submit(Allow(w).value, call);
            && Attempted(w, w', call, reply) && Gain(w.audit, w'.audit) == [w'.audit[|w.audit|]]
  {
    hide Submit, ApplyEdits;
    SubmitTells(Allow(w).value, call);
  }

  /** An orphan's turn: deleted, or found to be gone already, it gives a Delete; without
      a grant a Skip and nothing sent; any other reply is an error, which a served one never is. */
  lemma OrphanIsCollected(res: Resource, policy: Policy, t: Tally, o: Object)
    requires o.meta.name !in t.desired
    ensures var t' := CollectOne(res, policy, t, o);
            if t.w.limiter == Some(0) then
              t'.w == t.w && t'.errors == t.errors && |t'.decisions| == |t.decisions| + 1 && t'.decisions[|t.decisions|].action == SkipAction
            else
              && |t'.w.audit| == |t.w.audit| + 1 && (Await(t.w).1.fault == Served ==> t'.errors == t.errors)
              && var call := t'.w.audit[|t.w.audit|].call;
                 && call.op == DeleteHost && call.sent == o && t'.w.history == t.w.history
                 && exists reply :: Attempted(t.w, t'.w, call, reply)
                      && if reply.Accepted? || reply.Absent?
                         then t'.errors == t.errors && |t'.decisions| == |t.decisions| + 1 && t'.decisions[|t.decisions|].action == DeleteAction
                         else t'.errors == t.errors + [CallFailed(reply)] && t'.decisions == t.decisions
  {
    hide Submit, ApplyEdits, Attempted, LookedUp;
    if Allow(t.w).Some? {
      var call := Call(DeleteHost, o, o, Baseline(t.w.history, o.meta.name), res, policy);
      SubmitTells(Allow(t.w).value, call);
      DeleteTells(t.w, call);
      AttemptIsLast(t.w, Submit(Allow(t.w).value, call).0, call, Submit(Allow(t.w).value, call).1);
      if Await(t.w).1.fault == Served {
        ServedDeletes(Allow(t.w).value, call);
      }
    }
  }

  lemma ServedDeletes(w: World, call: Call)
    requires call.op == DeleteHost && Await(w).1.fault == Served
    ensures Submit(w, call).1.Accepted? || Submit(w, call).1.Absent?
  {
    hide ApplyEdits;
  }

  lemma AttemptIsLast(w: World, w': World, call: Call, reply: Reply)
    requires Attempted(w, w', call, reply)
    ensures |w'.audit| == |w.audit| + 1 && w'.audit[|w.audit|].call == call && w.audit <= w'.audit
  {
  }

  lemma MarksOf(o: Object)
    ensures IsManaged(o) ==> LookedUp(o) == ResourceRef(
              o.Label("tenantplane.io/tenant"), o.meta.namespace, o.Annotation("tenantplane.io/virtual-namespace"),
              o.Kind(), o.Annotation("tenantplane.io/virtual-name"))
  {
  }

  function Unclaimed(names: set<string>, hosts: seq<Object>): seq<Object> {
    if hosts == [] then []
    else (if hosts[0].meta.name in names then [] else [hosts[0]]) + Unclaimed(names, hosts[1..])
  }

  lemma {:induction false} OrphansTell(res: Resource, policy: Policy, t: Tally, hosts: seq<Object>)
    ensures var t' := CollectOrphans(res, policy, t, hosts);
            && Follows(t, t')
            && (t'.errors == t.errors ==> AboutEachOrphan(res, Unclaimed(t.desired, hosts), Gain(t.decisions, t'.decisions)))
    decreases |hosts|
  {
    hide CollectOne, AboutEachOrphan, Follows, Gain;
    if hosts == [] {
      NothingFollows(t);
      NoOrphans(res);
    } else {
      var t1, t' := CollectOne(res, policy, t, hosts[0]), CollectOrphans(res, policy, t, hosts);
      OrphanTells(res, policy, t, hosts[0]);
      OrphansTell(res, policy, t1, hosts[1..]);
      FollowsInTurn(t, t1, t');
      NothingFollows(t);
      var rest := Unclaimed(t.desired, hosts[1..]);
      assert [] + rest == rest && [] + Gain(t1.decisions, t'.decisions) == Gain(t1.decisions, t'.decisions);
      if t'.errors == t.errors && hosts[0].meta.name !in t.desired {
        OrphansAdd(res, [hosts[0]], rest, Gain(t.decisions, t1.decisions), Gain(t1.decisions, t'.decisions));
      }
    }
  }

  /** A pass without error gives one decision for each projectable object listed and
      then one for each labelled host object that none of them has as its mirror, in
      the order of the lists; and what it sent to either server is exactly what these
      decisions report, in their order. */
  lemma PassTells(cfg: Config, res: Resource, policy: Policy, w: World, orders: Orders)
    requires res.direction != Unsupported && SyncPass(cfg, res, policy, w, orders).error == None
    ensures var r := SyncPass(cfg, res, policy, w, orders);
            var objs := Projected(cfg, res.kind, orders.items);
            && w.audit <= r.w.audit && |objs| <= |r.decisions|
            && AboutEachPair(cfg, res, objs, r.decisions[..|objs|])
            && AboutEachOrphan(res, Unclaimed(NamesOf(cfg, objs), orders.hosts), r.decisions[|objs|..])
            && Matches(r.decisions, Gain(w.audit, r.w.audit))
  {
    hide RunItems, CollectOrphans, Await, Matches, AboutEachPair, AboutEachOrphan, NamesOf;
    var t0 := Tally(AskTenant(w).0, [], [], {});
    var t := PairTally(cfg, res, policy, w, orders);
    var g0 := Tally(Await(t.w).0, [], [], t.desired);
    var g := OrphanTally(cfg, res, policy, w, orders);
    AwaitIsFree(w);
    AwaitIsFree(t.w);
    ItemsTell(cfg, res, policy, t0, orders.items);
    OrphansTell(res, policy, g0, orders.hosts);
    MatchesInTurn(t.decisions, g.decisions, Gain(w.audit, t.w.audit), Gain(t.w.audit, g.w.audit));
    GainInTurn(w.audit, t.w.audit, g.w.audit);
    assert {} + t.desired == t.desired;
    assert Gain([], t.decisions) == t.decisions && Gain([], g.decisions) == g.decisions;
    var r := SyncPass(cfg, res, policy, w, orders);
    assert r.decisions == t.decisions + g.decisions;
    assert t.errors == [] && g.errors == [];
    var objs := Projected(cfg, res.kind, orders.items);
    assert |objs| == |t.decisions| by { assert AboutEachPair(cfg, res, objs, t.decisions); CountPairs(cfg, res, objs, t.decisions); }
    assert r.decisions[..|objs|] == t.decisions && r.decisions[|objs|..] == g.decisions;
  }

  // ---- which objects these are ----

  /** The labels by which the host's list is selected. */
  predicate Selected(cfg: Config, kind: string, o: Object) {
    && o.meta.namespace == cfg.hostNamespace && o.Kind() == kind
    && o.Label("app.kubernetes.io/managed-by") == "tenantplane"
    && o.Label("tenantplane.io/tenant") == Sanitize(cfg.tenant)
    && o.Label("tenantplane.io/kind") == Sanitize(kind)
  }

  lemma {:induction false} ProjectedIs(cfg: Config, kind: string, items: seq<Object>, o: Object)
    ensures o in Projected(cfg, kind, items) <==> o in items && Projectable(cfg, kind, o)
  {
    hide Projectable;
    if items != [] {
      ProjectedIs(cfg, kind, items[1..], o);
    }
  }

  lemma {:induction false} UnclaimedIs(names: set<string>, hosts: seq<Object>, o: Object)
    ensures o in Unclaimed(names, hosts) <==> o in hosts && o.meta.name !in names
  {
    if hosts != [] {
      UnclaimedIs(names, hosts[1..], o);
    }
  }

  predicate Holds(s: Store, o: Object) {
    s.Lookup(KeyOf(o)) == Some(o)
  }

  /** Whatever order the servers list in, a pass is about exactly the objects of the
      kind that the tenant held when asked and that are projectable, and about exactly
      the host objects in its namespace that then carried the three labels and none of
      those objects' mirror names. */
  lemma PassCoversExactly(cfg: Config, res: Resource, policy: Policy, w: World, orders: Orders, o: Object)
    requires Answered(cfg, res, policy, w, orders) && AskTenant(w).1.fault == Served
    requires AskTenant(w).0.tenant.Valid()
    ensures o in Projected(cfg, res.kind, orders.items)
       <==> Holds(AskTenant(w).0.tenant, o) && o.Kind() == res.kind && Projectable(cfg, res.kind, o)
    ensures var asked := Await(PairTally(cfg, res, policy, w, orders).w);
            var names := NamesOf(cfg, Projected(cfg, res.kind, orders.items));
            asked.1.fault == Served ==>
              (o in Unclaimed(names, orders.hosts) <==> Holds(asked.0.host, o) && Selected(cfg, res.kind, o) && o.meta.name !in names)
  {
    hide RunItems, Await, AskTenant, Projectable, NamesOf, Sanitize;
    ProjectedIs(cfg, res.kind, orders.items, o);
    UnclaimedIs(NamesOf(cfg, Projected(cfg, res.kind, orders.items)), orders.hosts, o);
    assert Labelled(cfg, res.kind, o) <==> Selected(cfg, res.kind, o);
  }

  // ---- only what takes part is written ----

  /** The tenant object that a write is for. */
  function Subject(a: Attempt): Object {
    if a.call.op == UpdateTenant then a.call.sent else a.call.read
  }

  /** Every write from w to w' but the deletions is for a projectable object. */
  ghost predicate WritesProjectable(cfg: Config, kind: string, w: World, w': World) {
    w.audit <= w'.audit
    && forall i :: |w.audit| <= i < |w'.audit| && w'.audit[i].call.op != DeleteHost ==> Projectable(cfg, kind, Subject(w'.audit[i]))
  }

  lemma PairWritesProjectable(cfg: Config, res: Resource, policy: Policy, w: World, obj: Object, host: Object)
    requires res.direction != Unsupported && Projectable(cfg, res.kind, obj)
    ensures WritesProjectable(cfg, res.kind, w, Reconcile(cfg, res, policy, w, obj, host).0)
  {
    hide Judge, Reconcile, Report, Claimed, ApplyEdits, AdoptedFrom;
    var w1 := Await(w).0;
    var found := w1.host.Lookup(KeyOf(host));
    var reason := Report(res, RefFor(cfg, res.kind, obj), host, Judge(cfg, res, policy, w1.history, obj, host, found)).reason;
    VerdictIsClaimed(cfg, res, policy, w1.history, obj, host, found);
    ReconcileTells(cfg, res, policy, w, obj, host, reason);
  }

  lemma {:induction false} ItemsWriteProjectable(cfg: Config, res: Resource, policy: Policy, t: Tally, items: seq<Object>)
    requires res.direction != Unsupported
    ensures WritesProjectable(cfg, res.kind, t.w, RunItems(cfg, res, policy, t, items).w)
    decreases |items|
  {
    hide Reconcile, Desired, Eligible, Projectable;
    if items != [] {
      EligibleIsProjectable(cfg, res, items[0]);
      if Eligible(cfg, res, items[0]) && Desired(cfg, res, items[0]).Success? {
        PairWritesProjectable(cfg, res, policy, t.w, items[0], Desired(cfg, res, items[0]).value);
      }
      ItemsWriteProjectable(cfg, res, policy, RunItem(cfg, res, policy, t, items[0]), items[1..]);
    }
  }

  lemma {:induction false} CollectingOnlyDeletes(cfg: Config, res: Resource, policy: Policy, t: Tally, hosts: seq<Object>)
    ensures WritesProjectable(cfg, res.kind, t.w, CollectOrphans(res, policy, t, hosts).w)
    decreases |hosts|
  {
    hide Submit, Projectable;
    if hosts != [] {
      if Allow(t.w).Some? {
        DeleteTells(t.w, Call(DeleteHost, hosts[0], hosts[0], Baseline(t.w.history, hosts[0].meta.name), res, policy));
      }
      CollectingOnlyDeletes(cfg, res, policy, CollectOne(res, policy, t, hosts[0]), hosts[1..]);
    }
  }

  /** In any interleaving, a pass writes nothing for an object in a system namespace,
      nor for the objects that every API server makes for itself. */
  lemma PassWritesProjectable(cfg: Config, res: Resource, policy: Policy, w: World, orders: Orders)
    requires res.direction != Unsupported
    ensures WritesProjectable(cfg, res.kind, w, SyncPass(cfg, res, policy, w, orders).w)
  {
    hide RunItems, CollectOrphans, Await, Projectable;
    var t := PairTally(cfg, res, policy, w, orders);
    AwaitIsFree(w);
    AwaitIsFree(t.w);
    ItemsWriteProjectable(cfg, res, policy, Tally(AskTenant(w).0, [], [], {}), orders.items);
    CollectingOnlyDeletes(cfg, res, policy, Tally(Await(t.w).0, [], [], t.desired), orders.hosts);
  }

  // ---- errors ----

  /** Every single error among these, whatever was summed up in one. */
  function Leaves(errors: seq<Error>): seq<Error> {
    if errors == [] then []
    else (match errors[0] case Many(es) => Leaves(es) case e => [e]) + Leaves(errors[1..])
  }

  lemma {:induction false} LeavesAdd(a: seq<Error>, b: seq<Error>)
    ensures Leaves(a + b) == Leaves(a) + Leaves(b)
    decreases |a|
  {
    if a == [] {
      assert a + b == b;
    } else {
      assert (a + b)[1..] == a[1..] + b;
      LeavesAdd(a[1..], b);
    }
  }

  lemma SummingLosesNothing(errors: seq<Error>)
    ensures Leaves(AsErrors(Aggregate(errors))) == Leaves(errors)
    ensures |errors| == 1 ==> Aggregate(errors) == Some(errors[0])
  {
    if |errors| == 1 {
      assert errors == [errors[0]];
    } else if |errors| > 1 {
      assert [Many(errors)][1..] == [];
    }
  }

  /** A pass that cannot list the tenant does nothing; one that cannot list the host
      deletes nothing; and its error holds every single error there was, in order. */
  lemma PassReportsErrors(cfg: Config, res: Resource, policy: Policy, w: World, orders: Orders)
    ensures var r := SyncPass(cfg, res, policy, w, orders);
            var pairs, orphans := PairTally(cfg, res, policy, w, orders), OrphanTally(cfg, res, policy, w, orders);
            if AskTenant(w).1.fault != Served then
              r.error == Some(ListFailed) && r.decisions == [] && r.w.audit == w.audit && r.w.history == w.history
            else if Await(pairs.w).1.fault != Served then
              && Leaves(AsErrors(r.error)) == Leaves(pairs.errors) + [ListFailed]
              && r.decisions == pairs.decisions && r.w.audit == pairs.w.audit
            else Leaves(AsErrors(r.error)) == Leaves(pairs.errors) + Leaves(orphans.errors)
  {
    hide RunItems, CollectOrphans, ApplyEdits;
    var pairs, orphans := PairTally(cfg, res, policy, w, orders), OrphanTally(cfg, res, policy, w, orders);
    SummingLosesNothing(pairs.errors + [ListFailed]);
    LeavesAdd(pairs.errors, [ListFailed]);
    assert [ListFailed][1..] == [];
    SummingLosesNothing(orphans.errors);
    LeavesAdd(pairs.errors, AsErrors(Aggregate(orphans.errors)));
    SummingLosesNothing(pairs.errors + AsErrors(Aggregate(orphans.errors)));
  }
}
