/** The sync engine of internal/syncer/engine.go as functions on values: what a
    reconciled pair, a pass and its garbage collection do to the world. */
module Engine {
  import opened Cluster
  import opened HostNames
  import opened Naming
  import opened Objects
  import opened Transform
  import opened Wrappers

  datatype Direction = ToHost | FromHost | Bidirectional | Unsupported

  /** Manual stands for "manual", unset, and anything unrecognized. */
  datatype Policy = TenantWins | HostWins | Manual

  datatype Resource = Resource(apiVersion: string, kind: string, direction: Direction)

  /** `skipNamespaces` overrides the default system namespaces when given. */
  datatype Config = Config(
    tenant: string, hostNamespace: string, skipNamespaces: Option<set<string>>, runtimeClass: string)

  const DEFAULT_SKIP: set<string> := {"kube-system", "kube-public", "kube-node-lease"}

  datatype Action = CreateAction | UpdateAction | DeleteAction | SkipAction

  datatype Reason =
    | NoCounterpart | NotManaged | NameCollision | Agreed | Pushed | Pulled | TwoSided | RateLimited | Orphaned

  datatype Decision = Decision(action: Action, kind: string, ref: ResourceRef, host: HostTarget, reason: Reason)

  datatype Error =
    | BuildFailed(error: PlanError) | SpecNotAMap | CallFailed(reply: Reply) | ListFailed | Many(errors: seq<Error>)

  type Outcome = Result<Decision, Error>

  datatype Converged = Converged(tenantVersion: nat, hostVersion: nat)

  type History = map<string, Converged>

  // ---- the world ----

  datatype Op = CreateHost | UpdateHost | UpdateTenant | DeleteHost

  /** A write the engine attempts: the object sent, the object it was made from,
      and the baseline on record for the host name at that moment. */
  datatype Call = Call(op: Op, sent: Object, read: Object, baseline: Option<Converged>, res: Resource, policy: Policy)

  /** The server's account of an attempt; `reply` is Unheard when it never ran,
      and `before` is the object that was overwritten or deleted, if any. `tenant`
      is what the tenant held at that moment, and every version from `listed` on
      was written there after the engine last listed it. */
  datatype Attempt = Attempt(call: Call, before: Option<Object>, reply: Reply, tenant: Store, listed: nat)

  /** `limiter` counts the grants left; None is unlimited. `script` lists what the
      world does around the engine's next calls; after it, all is quiet. `past`
      lists what it did so far, `audit` what the engine attempted, and `listed` is
      the next version the tenant was about to write when last listed. */
  datatype World = World(
    tenant: Store, host: Store, history: History, limiter: Option<nat>,
    script: seq<Turn>, past: seq<Turn>, audit: seq<Attempt>, listed: nat)

  function Await(w: World): (World, Turn) {
    if w.script == [] then (w, QUIET)
    else
      var turn := w.script[0];
      (w.(tenant := ApplyEdits(w.tenant, turn.tenantEdits),
          host := ApplyEdits(w.host, turn.hostEdits),
          script := w.script[1..], past := w.past + [turn]), turn)
  }

  function Side(w: World, op: Op): Store {
    if op == UpdateTenant then w.tenant else w.host
  }

  function Serve(s: Store, op: Op, o: Object, a: Allocation): (Store, Reply) {
    match op
    case CreateHost => Create(s, o, a)
    case UpdateHost => Update(s, o, a)
    case UpdateTenant => Update(s, o, a)
    case DeleteHost => Delete(s, o)
  }

  function Submit(w: World, call: Call): (World, Reply) {
    var (w1, turn) := Await(w);
    if turn.fault == Rejected then (w1.(audit := w1.audit + [Attempt(call, None, Unheard, w1.tenant, w1.listed)]), Unheard)
    else
      var store := Side(w1, call.op);
      var (store', reply) := Serve(store, call.op, call.sent, turn.allocation);
      var attempt := Attempt(call, if reply.Accepted? then store.Lookup(KeyOf(call.sent)) else None, reply, w1.tenant, w1.listed);
      var w2 := if call.op == UpdateTenant then w1.(tenant := store') else w1.(host := store');
      (w2.(audit := w2.audit + [attempt]), if turn.fault == ReplyLost then Unheard else reply)
  }

  /** One Allow() of the limiter; None when the budget is exhausted. */
  function Allow(w: World): Option<World> {
    match w.limiter
    case None => Some(w)
    case Some(n) => if n == 0 then None else Some(w.(limiter := Some(n - 1)))
  }

  function SetConverged(w: World, name: string, tenantVersion: nat, hostVersion: nat): World {
    w.(history := w.history[name := Converged(tenantVersion, hostVersion)])
  }

  function Baseline(h: History, name: string): Option<Converged> {
    if name in h then Some(h[name]) else None
  }

  // ---- one pair ----

  function RefFor(cfg: Config, kind: string, o: Object): ResourceRef {
    ResourceRef(cfg.tenant, cfg.hostNamespace, o.meta.namespace, kind, o.meta.name)
  }

  predicate SameSource(a: ResourceRef, b: ResourceRef) {
    a.tenantCluster == b.tenantCluster && a.virtualNamespace == b.virtualNamespace && a.name == b.name
  }

  /** The live host object as it may be compared with the tenant's: without the
      runtime class that the engine itself stamped on it. */
  function Comparable(cfg: Config, kind: string, existing: Object): Object {
    if kind == "Pod" && cfg.runtimeClass != "" then existing.(body := RemoveSpecField(existing.body, "runtimeClassName"))
    else existing
  }

  datatype Verdict = MakeMirror | Foreign | Collides | Agree | Push(track: bool) | Pull(track: bool) | Hold

  predicate Ours(cfg: Config, res: Resource, obj: Object, existing: Object) {
    ReverseLookup(existing).Some? && SameSource(ReverseLookup(existing).value, RefFor(cfg, res.kind, obj))
  }

  /** What a pair calls for, given the tenant object as listed and the host
      object as just read. */
  function Judge(cfg: Config, res: Resource, policy: Policy, history: History, obj: Object, host: Object, found: Option<Object>): Verdict {
    if found.None? then MakeMirror
    else
      var existing := found.value;
      if ReverseLookup(existing).None? then Foreign
      else if !Ours(cfg, res, obj, existing) then Collides
      else if res.direction == ToHost then Push(false)
      else if ContentEqual(obj, Comparable(cfg, res.kind, existing)) then Agree
      else if res.direction == FromHost then Pull(false)
      else match policy
        case TenantWins => Push(true)
        case HostWins => Pull(true)
        case Manual =>
          match Baseline(history, host.meta.name)
          case None => Hold
          case Some(last) =>
            var tenantChanged := obj.meta.version != last.tenantVersion;
            var hostChanged := existing.meta.version != last.hostVersion;
            if tenantChanged && !hostChanged then Push(true)
            else if hostChanged && !tenantChanged then Pull(true)
            else Hold
  }

  function Decide(res: Resource, ref: ResourceRef, host: Object, action: Action, reason: Reason): Decision {
    Decision(action, res.kind, ref, HostTarget(host.meta.namespace, host.meta.name), reason)
  }

  /** A rate-limited write, followed by the new baseline when it is tracked. */
  function WriteOut(w: World, call: Call, name: string, track: bool, skip: Decision, done: Decision): (World, Outcome) {
    match Allow(w)
    case None => (w, Success(skip))
    case Some(granted) =>
      var (w1, reply) := Submit(granted, call);
      if !reply.Accepted? then (w1, Failure(CallFailed(reply)))
      else
        var (tenantVersion, hostVersion) :=
          if call.op == UpdateTenant then (reply.o.meta.version, call.read.meta.version)
          else (call.read.meta.version, reply.o.meta.version);
        (if track then SetConverged(w1, name, tenantVersion, hostVersion) else w1, Success(done))
  }

  function CallFor(cfg: Config, res: Resource, policy: Policy, h: History, obj: Object, host: Object, found: Option<Object>, verdict: Verdict): Call
    requires WantsWrite(verdict) && (found.None? ==> verdict.MakeMirror?)
  {
    var baseline := Baseline(h, host.meta.name);
    match verdict
    case MakeMirror => Call(CreateHost, host, obj, baseline, res, policy)
    case Push(_) =>
      var sent := Adopt(found.value, host.WithVersion(found.value.meta.version));
      Call(UpdateHost, sent, obj, baseline, res, policy)
    case Pull(_) =>
      var source := Comparable(cfg, res.kind, found.value);
      Call(UpdateTenant, MergeHostContentIntoTenant(source, obj), source, baseline, res, policy)
  }

  predicate WantsWrite(verdict: Verdict) {
    verdict.MakeMirror? || verdict.Push? || verdict.Pull?
  }

  /** Whether a write leaves a new baseline. */
  predicate Tracks(res: Resource, verdict: Verdict) {
    if verdict.MakeMirror? then res.direction == Bidirectional else (verdict.Push? || verdict.Pull?) && verdict.track
  }

  /** The decision that reports a verdict once it is carried out. */
  function Report(res: Resource, ref: ResourceRef, host: Object, verdict: Verdict): (d: Decision)
    ensures d.action != SkipAction <==> WantsWrite(verdict)
    ensures d.reason != RateLimited && d.ref == ref
  {
    match verdict
    case Foreign => Decide(res, ref, host, SkipAction, NotManaged)
    case Collides => Decide(res, ref, host, SkipAction, NameCollision)
    case Hold => Decide(res, ref, host, SkipAction, TwoSided)
    case Agree => Decide(res, ref, host, SkipAction, Agreed)
    case MakeMirror => Decide(res, ref, host, CreateAction, NoCounterpart)
    case Push(_) => Decide(res, ref, host, UpdateAction, Pushed)
    case Pull(_) => Decide(res, ref, host, UpdateAction, Pulled)
  }

  /** The write a verdict calls for. */
  function CarryOut(cfg: Config, res: Resource, policy: Policy, w: World, obj: Object, host: Object, found: Option<Object>, verdict: Verdict): (World, Outcome)
    requires WantsWrite(verdict) && (found.None? ==> verdict.MakeMirror?)
  {
    var ref := RefFor(cfg, res.kind, obj);
    WriteOut(w, CallFor(cfg, res, policy, w.history, obj, host, found, verdict), host.meta.name, Tracks(res, verdict),
             Decide(res, ref, host, SkipAction, RateLimited), Report(res, ref, host, verdict))
  }

  /** What a verdict does. */
  function Settle(cfg: Config, res: Resource, policy: Policy, w: World, obj: Object, host: Object, found: Option<Object>, verdict: Verdict): (World, Outcome)
    requires found.None? ==> verdict.MakeMirror?
  {
    if WantsWrite(verdict) then CarryOut(cfg, res, policy, w, obj, host, found, verdict)
    else
      (if verdict.Agree? && res.direction == Bidirectional
       then SetConverged(w, host.meta.name, obj.meta.version, found.value.meta.version) else w,
       Success(Report(res, RefFor(cfg, res.kind, obj), host, verdict)))
  }

  /** internal/syncer/engine.go:252-412: read the host object, judge, act. */
  function Reconcile(cfg: Config, res: Resource, policy: Policy, w: World, obj: Object, host: Object): (World, Outcome) {
    var (w1, turn) := Await(w);
    if turn.fault != Served then (w1, Failure(CallFailed(Unheard)))
    else
      var found := w1.host.Lookup(KeyOf(host));
      Settle(cfg, res, policy, w1, obj, host, found, Judge(cfg, res, policy, w1.history, obj, host, found))
  }

  // ---- one pass ----

  predicate SkippedNamespace(cfg: Config, namespace: string) {
    match cfg.skipNamespaces
    case Some(names) => namespace in names
    case None => namespace in DEFAULT_SKIP
  }

  predicate VirtualInfrastructure(kind: string, o: Object) {
    if kind == "Service" || kind == "Endpoints" then o.meta.namespace == "default" && o.meta.name == "kubernetes"
    else kind == "ConfigMap" && o.meta.name == "kube-root-ca.crt"
  }

  predicate Eligible(cfg: Config, res: Resource, o: Object) {
    !SkippedNamespace(cfg, o.meta.namespace) && !VirtualInfrastructure(res.kind, o)
  }

  /** The host object wanted for a tenant object. */
  function Desired(cfg: Config, res: Resource, obj: Object): Result<Object, Error> {
    match BuildHostObject(RefFor(cfg, res.kind, obj), obj)
    case Failure(e) => Failure(BuildFailed(e))
    case Success(built) =>
      var host := built.WithKind(res.apiVersion, res.kind);
      if res.kind == "Pod" && cfg.runtimeClass != "" then
        match SetSpecField(host.body, "runtimeClassName", Str(cfg.runtimeClass))
        case None => Failure(SpecNotAMap)
        case Some(body) => Success(host.(body := body))
      else Success(host)
  }

  /** Where the mirror of a tenant object lives. */
  function MirrorKey(cfg: Config, res: Resource, o: Object): Key {
    Key(res.kind, cfg.hostNamespace, HostName(o.meta.name, o.meta.namespace, cfg.tenant))
  }

  /** The object takes part in the pass: eligible, and a host object can be built. */
  predicate Wanted(cfg: Config, res: Resource, o: Object) {
    o.Kind() == res.kind && Eligible(cfg, res, o) && Desired(cfg, res, o).Success?
  }

  datatype Tally = Tally(w: World, decisions: seq<Decision>, errors: seq<Error>, desired: set<string>)

  function RunItem(cfg: Config, res: Resource, policy: Policy, t: Tally, obj: Object): Tally {
    if !Eligible(cfg, res, obj) then t
    else match Desired(cfg, res, obj)
      case Failure(e) => t.(errors := t.errors + [e])
      case Success(host) =>
        var (w, outcome) := Reconcile(cfg, res, policy, t.w, obj, host);
        var t' := t.(w := w, desired := t.desired + {host.meta.name});
        match outcome
        case Failure(e) => t'.(errors := t.errors + [e])
        case Success(d) => t'.(decisions := t.decisions + [d])
  }

  function RunItems(cfg: Config, res: Resource, policy: Policy, t: Tally, items: seq<Object>): Tally
    decreases |items|
  {
    if items == [] then t else RunItems(cfg, res, policy, RunItem(cfg, res, policy, t, items[0]), items[1..])
  }

  /** The label selector of garbage collection. */
  predicate Labelled(cfg: Config, kind: string, o: Object) {
    && o.meta.namespace == cfg.hostNamespace && o.Kind() == kind
    && o.Label(LABEL_MANAGED_BY) == MANAGED_BY
    && o.Label(LABEL_TENANT) == Sanitize(cfg.tenant)
    && o.Label(LABEL_KIND) == Sanitize(kind)
  }

  function LookedUp(o: Object): ResourceRef {
    var ref := ReverseLookup(o);
    if ref.Some? then ref.value else ResourceRef("", "", "", "", "")
  }

  function CollectOne(res: Resource, policy: Policy, t: Tally, o: Object): Tally {
    if o.meta.name in t.desired then t
    else match Allow(t.w)
      case None => t.(decisions := t.decisions + [Decide(res, LookedUp(o), o, SkipAction, RateLimited)])
      case Some(granted) =>
        var call := Call(DeleteHost, o, o, Baseline(t.w.history, o.meta.name), res, policy);
        var (w, reply) := Submit(granted, call);
        if reply.Accepted? || reply.Absent?
        then t.(w := w, decisions := t.decisions + [Decide(res, LookedUp(o), o, DeleteAction, Orphaned)])
        else t.(w := w, errors := t.errors + [CallFailed(reply)])
  }

  function CollectOrphans(res: Resource, policy: Policy, t: Tally, listed: seq<Object>): Tally
    decreases |listed|
  {
    if listed == [] then t else CollectOrphans(res, policy, CollectOne(res, policy, t, listed[0]), listed[1..])
  }

  function Aggregate(errors: seq<Error>): Option<Error> {
    if errors == [] then None else if |errors| == 1 then Some(errors[0]) else Some(Many(errors))
  }

  function AsErrors(e: Option<Error>): seq<Error> {
    if e.Some? then [e.value] else []
  }

  /** In which order the two servers return their lists. */
  datatype Orders = Orders(items: seq<Object>, hosts: seq<Object>)

  datatype PassResult = PassResult(w: World, decisions: seq<Decision>, error: Option<Error>)

  /** The tenant is asked for its list. */
  function AskTenant(w: World): (World, Turn) {
    var (w1, turn) := Await(w);
    (w1.(listed := w1.tenant.next), turn)
  }

  function SyncPass(cfg: Config, res: Resource, policy: Policy, w: World, orders: Orders): PassResult {
    var (w1, turn) := AskTenant(w);
    if turn.fault != Served then PassResult(w1, [], Some(ListFailed))
    else
      var t := RunItems(cfg, res, policy, Tally(w1, [], [], {}), orders.items);
      var (w2, turn2) := Await(t.w);
      if turn2.fault != Served then PassResult(w2, t.decisions, Aggregate(t.errors + [ListFailed]))
      else
        var g := CollectOrphans(res, policy, Tally(w2, [], [], t.desired), orders.hosts);
        PassResult(g.w, t.decisions + g.decisions, Aggregate(t.errors + AsErrors(Aggregate(g.errors))))
  }

  ghost predicate Lists(s: Store, kind: string, items: seq<Object>) {
    && (forall i :: 0 <= i < |items| ==> items[i].Kind() == kind && KeyOf(items[i]) in s.objects && s.objects[KeyOf(items[i])] == items[i])
    && (forall i, j :: 0 <= i < j < |items| ==> items[i] != items[j])
    && (forall k :: k in s.objects && k.kind == kind ==> s.objects[k] in items)
  }

  ghost predicate ListsLabelled(cfg: Config, kind: string, s: Store, hosts: seq<Object>) {
    && (forall i :: 0 <= i < |hosts| ==> Labelled(cfg, kind, hosts[i]) && KeyOf(hosts[i]) in s.objects && s.objects[KeyOf(hosts[i])] == hosts[i])
    && (forall i, j :: 0 <= i < j < |hosts| ==> hosts[i] != hosts[j])
    && (forall k :: k in s.objects && Labelled(cfg, kind, s.objects[k]) ==> s.objects[k] in hosts)
  }

  /** The orders are listings of what each server held when it was asked. */
  ghost predicate Answered(cfg: Config, res: Resource, policy: Policy, w: World, orders: Orders) {
    var (w1, turn) := AskTenant(w);
    turn.fault == Served ==>
      && Lists(w1.tenant, res.kind, orders.items)
      && var t := RunItems(cfg, res, policy, Tally(w1, [], [], {}), orders.items);
         var (w2, turn2) := Await(t.w);
         turn2.fault == Served ==> ListsLabelled(cfg, res.kind, w2.host, orders.hosts)
  }
}
