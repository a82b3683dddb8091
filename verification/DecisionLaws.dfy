/** Decisions tell the truth: what each claims about the pair it is about, and what
    was sent for it (internal/syncer/engine.go). */
module DecisionLaws {
  import opened Cluster
  import opened Engine
  import opened FieldLaws
  import opened HostNames
  import opened Naming
  import opened Objects
  import Pods
  import opened Transform
  import opened Wrappers

  // ---- the host object wanted ----

  predicate IsStamped(cfg: Config, res: Resource) {
    res.kind == "Pod" && cfg.runtimeClass != ""
  }

  /** There is a host object to want unless the reference is incomplete, or the spec of
      a Pod that needs the required class is no map; it is the built one under the
      resource's own version and kind, and such a Pod has the class whatever the
      tenant asked for, with every other field of its spec as it was. */
  lemma DesiredFieldByField(cfg: Config, res: Resource, obj: Object)
    ensures Desired(cfg, res, obj).Success?
       <==> cfg.tenant != "" && cfg.hostNamespace != "" && obj.meta.namespace != "" && res.kind != "" && obj.meta.name != ""
            && (IsStamped(cfg, res) && "spec" in obj.body ==> obj.body["spec"].Dict?)
    ensures Desired(cfg, res, obj).Success? ==>
              var host := Desired(cfg, res, obj).value;
              var built := BuildHostObject(RefFor(cfg, res.kind, obj), obj);
              && built.Success? && host.meta == built.value.meta
              && "apiVersion" in host.body && host.body["apiVersion"] == Str(res.apiVersion)
              && "kind" in host.body && host.body["kind"] == Str(res.kind)
              && (forall k :: k != "apiVersion" && k != "kind" && k != "spec" ==> SameAt(built.value.body, host.body, k))
              && (if IsStamped(cfg, res) then
                    && NestedMap(host.body, "spec").Some?
                    && "runtimeClassName" in SpecOf(host.body) && SpecOf(host.body)["runtimeClassName"] == Str(cfg.runtimeClass)
                    && forall k :: k != "runtimeClassName" ==> SameAt(SpecOf(obj.body), SpecOf(host.body), k)
                  else SameAt(built.value.body, host.body, "spec"))
  {
    hide BuildHostObject, Sanitize, HostName, LabelledFor, AnnotatedFor, SameServiceSpec, CarriesNoAddress;
    BuildFieldByField(RefFor(cfg, res.kind, obj), obj);
    assert |"apiVersion"| == 10 && |"kind"| == 4 && |"spec"| == 4 && |"status"| == 6 && |"Pod"| == 3 && |"Service"| == 7;
    assert "kind"[0] == 'k' && "spec"[0] == 's';
    if BuildHostObject(RefFor(cfg, res.kind, obj), obj).Success? {
      assert res.kind == "Pod" ==> SameAt(obj.body, BuildHostObject(RefFor(cfg, res.kind, obj), obj).value.body, "spec");
    }
  }

  // ---- what a reason claims ----

  predicate IsManaged(o: Object) {
    o.Label("app.kubernetes.io/managed-by") == "tenantplane"
  }

  /** The host object carries the marks of this very tenant object. */
  predicate MirrorOf(cfg: Config, obj: Object, e: Object) {
    && IsManaged(e) && e.Label("tenantplane.io/tenant") == cfg.tenant
    && e.Annotation("tenantplane.io/virtual-namespace") == obj.meta.namespace
    && e.Annotation("tenantplane.io/virtual-name") == obj.meta.name
  }

  /** Equal content; the class that is required of host Pods does not count. */
  predicate Agree(cfg: Config, kind: string, obj: Object, e: Object) {
    if kind == "Pod" && cfg.runtimeClass != "" then ContentEqual(obj, e.(body := RemoveSpecField(e.body, "runtimeClassName")))
    else ContentEqual(obj, e)
  }

  predicate TenantMoved(last: Option<Converged>, obj: Object) {
    last.Some? && last.value.tenantVersion != obj.meta.version
  }

  predicate HostMoved(last: Option<Converged>, e: Object) {
    last.Some? && last.value.hostVersion != e.meta.version
  }

  /** The pair disagrees, and the tenant's side is the one that counts. */
  predicate TenantPrevails(policy: Policy, last: Option<Converged>, obj: Object, e: Object) {
    policy == TenantWins || (policy == Manual && TenantMoved(last, obj) && !HostMoved(last, e))
  }

  predicate HostPrevails(policy: Policy, last: Option<Converged>, obj: Object, e: Object) {
    policy == HostWins || (policy == Manual && HostMoved(last, e) && !TenantMoved(last, obj))
  }

  /** What each reason claims of the tenant object as listed, the host object met
      under the mirror's name, and the baseline on record. */
  predicate Claimed(reason: Reason, cfg: Config, res: Resource, policy: Policy, last: Option<Converged>, obj: Object, found: Option<Object>) {
    match found
    case None => reason == NoCounterpart
    case Some(e) =>
      if !IsManaged(e) then reason == NotManaged
      else if !MirrorOf(cfg, obj, e) then reason == NameCollision
      else match res.direction
        case ToHost => reason == Pushed
        case FromHost => reason == if Agree(cfg, res.kind, obj, e) then Agreed else Pulled
        case _ =>
          reason == if Agree(cfg, res.kind, obj, e) then Agreed
                    else if TenantPrevails(policy, last, obj, e) then Pushed
                    else if HostPrevails(policy, last, obj, e) then Pulled
                    else TwoSided
  }

  /** The action that goes with a reason. */
  predicate Fits(action: Action, reason: Reason) {
    match action
    case CreateAction => reason == NoCounterpart
    case UpdateAction => reason == Pushed || reason == Pulled
    case DeleteAction => reason == Orphaned
    case SkipAction => reason == NotManaged || reason == NameCollision || reason == Agreed || reason == TwoSided || reason == RateLimited
  }

  predicate About(cfg: Config, res: Resource, obj: Object, host: Object, d: Decision) {
    && d.kind == res.kind
    && d.ref == ResourceRef(cfg.tenant, cfg.hostNamespace, obj.meta.namespace, res.kind, obj.meta.name)
    && d.host == HostTarget(host.meta.namespace, host.meta.name)
  }

  lemma MarksAre(cfg: Config, res: Resource, obj: Object, e: Object)
    ensures ReverseLookup(e).Some? <==> IsManaged(e)
    ensures Ours(cfg, res, obj, e) <==> MirrorOf(cfg, obj, e)
  {
  }

  /** The reason that goes with a verdict is the one whose claim holds. */
  lemma VerdictIsClaimed(cfg: Config, res: Resource, policy: Policy, h: History, obj: Object, host: Object, found: Option<Object>)
    requires res.direction != Unsupported
    ensures var verdict := Judge(cfg, res, policy, h, obj, host, found);
            var d := Report(res, RefFor(cfg, res.kind, obj), host, verdict);
            About(cfg, res, obj, host, d) && Fits(d.action, d.reason) && d.action != DeleteAction
            && Claimed(d.reason, cfg, res, policy, Baseline(h, host.meta.name), obj, found)
  {
    hide ContentOf, ReverseLookup, IsManaged, MirrorOf;
    if found.Some? {
      MarksAre(cfg, res, obj, found.value);
    }
  }

  // ---- what was sent for it ----

  /** The request that a write stands for, field by field. */
  ghost predicate SentFor(reason: Reason, cfg: Config, kind: string, obj: Object, host: Object, found: Option<Object>, call: Call) {
    match (reason, found)
    case (NoCounterpart, _) => call.op == CreateHost && call.sent == host && call.read == obj
    case (Pushed, Some(e)) =>
      && call.op == UpdateHost && call.read == obj && call.sent.meta == host.meta.(version := e.meta.version)
      && (if e.Kind() == "Service" then AdoptedFrom(e.body, host.body, call.sent.body)
          else call.sent.body == if e.Kind() == "Pod" then Pods.AdoptPod(e.body, host.body) else host.body)
    case (Pulled, Some(e)) =>
      && call.op == UpdateTenant
      && MergedFrom(if kind == "Pod" && cfg.runtimeClass != "" then e.(body := RemoveSpecField(e.body, "runtimeClassName")) else e, obj, call.sent)
    case _ => false
  }

  /** The two versions that stand once the write is through. */
  function Standing(reason: Reason, obj: Object, found: Option<Object>, written: Object): Converged {
    if reason == Pulled && found.Some? then Converged(written.meta.version, found.value.meta.version)
    else Converged(obj.meta.version, written.meta.version)
  }

  function Tracked(res: Resource, h: History, name: string, c: Converged): History {
    if res.direction == Bidirectional then h[name := c] else h
  }

  /** One request more was attempted, and this is the reply that came back. */
  ghost predicate Attempted(w: World, w': World, call: Call, reply: Reply) {
    && |w'.audit| == |w.audit| + 1 && w.audit == w'.audit[..|w.audit|]
    && w'.audit[|w.audit|].call == call
    && reply == if Await(w).1.fault == Served then w'.audit[|w.audit|].reply else Unheard
  }

  /** What a pair's turn does when this is what is claimed: the decision, or the error,
      the request if there was one, and the history. */
  ghost predicate Turned(reason: Reason, cfg: Config, res: Resource, w: World, w': World, outcome: Outcome, obj: Object, host: Object, found: Option<Object>) {
    if Fits(SkipAction, reason) then
      && outcome.Success? && outcome.value.reason == reason
      && w' == w.(history := if reason == Agreed && found.Some? then Tracked(res, w.history, host.meta.name, Converged(obj.meta.version, found.value.meta.version)) else w.history)
    else if w.limiter == Some(0) then
      outcome.Success? && outcome.value.reason == RateLimited && w' == w
    else
      && |w'.audit| == |w.audit| + 1 && SentFor(reason, cfg, res.kind, obj, host, found, w'.audit[|w.audit|].call)
      && exists reply :: Attempted(w, w', w'.audit[|w.audit|].call, reply)
           && if reply.Accepted? then
                && outcome.Success? && outcome.value.reason == reason
                && w'.history == Tracked(res, w.history, host.meta.name, Standing(reason, obj, found, reply.o))
              else outcome == Failure(CallFailed(reply)) && w'.history == w.history
  }

  lemma SubmitTells(w: World, call: Call)
    ensures var (w', reply) := Submit(w, call);
            w'.history == w.history && w'.limiter == w.limiter && Attempted(w, w', call, reply)
  {
    hide ApplyEdits, Create, Update, Delete;
  }

  lemma CallIsFor(cfg: Config, res: Resource, policy: Policy, h: History, obj: Object, host: Object, found: Option<Object>, verdict: Verdict)
    requires WantsWrite(verdict) && (found.None? <==> verdict.MakeMirror?)
    ensures var call := CallFor(cfg, res, policy, h, obj, host, found, verdict);
            SentFor(Report(res, RefFor(cfg, res.kind, obj), host, verdict).reason, cfg, res.kind, obj, host, found, call)
            && (call.op == UpdateTenant <==> verdict.Pull?)
            && (if verdict.Pull? then call.read.meta == found.value.meta else call.read == obj)
  {
    hide MergedFrom, MergeHostContentIntoTenant, AdoptedFrom, AdoptService, Pods.AdoptPod;
    if found.Some? {
      var wanted := host.WithVersion(found.value.meta.version);
      AdoptFieldByField(found.value, wanted);
      MergeFieldByField(Comparable(cfg, res.kind, found.value), obj);
      assert |"Service"| == 7 && |"Pod"| == 3;
    }
  }

  /** At most one reason can be claimed. */
  lemma OneClaim(a: Reason, b: Reason, cfg: Config, res: Resource, policy: Policy, last: Option<Converged>, obj: Object, found: Option<Object>)
    requires Claimed(a, cfg, res, policy, last, obj, found) && Claimed(b, cfg, res, policy, last, obj, found)
    ensures a == b
  {
    hide Agree, IsManaged, MirrorOf, TenantPrevails, HostPrevails;
  }

  lemma WriteOutTells(w: World, call: Call, name: string, track: bool, skip: Decision, done: Decision)
    ensures var (w', outcome) := WriteOut(w, call, name, track, skip, done);
            if w.limiter == Some(0) then w' == w && outcome == Success(skip)
            else
              && |w'.audit| == |w.audit| + 1 && w'.audit[|w.audit|].call == call
              && exists reply :: Attempted(w, w', call, reply)
                   && if reply.Accepted? then
                        && outcome == Success(done)
                        && var (tenantVersion, hostVersion) :=
                             if call.op == UpdateTenant then (reply.o.meta.version, call.read.meta.version)
                             else (call.read.meta.version, reply.o.meta.version);
                           w'.history == if track then w.history[name := Converged(tenantVersion, hostVersion)] else w.history
                      else outcome == Failure(CallFailed(reply)) && w'.history == w.history
  {
    hide Submit, ApplyEdits;
    if Allow(w).Some? {
      var (w', reply) := Submit(Allow(w).value, call);
      SubmitTells(Allow(w).value, call);
      assert forall history :: Attempted(w, w'.(history := history), call, reply);
    }
  }

  lemma CarriedOut(cfg: Config, res: Resource, policy: Policy, w: World, obj: Object, host: Object, found: Option<Object>, verdict: Verdict)
    requires WantsWrite(verdict) && (found.None? <==> verdict.MakeMirror?)
    requires Tracks(res, verdict) <==> res.direction == Bidirectional
    ensures var (w', outcome) := CarryOut(cfg, res, policy, w, obj, host, found, verdict);
            && Turned(Report(res, RefFor(cfg, res.kind, obj), host, verdict).reason, cfg, res, w, w', outcome, obj, host, found)
            && (outcome.Success? ==> About(cfg, res, obj, host, outcome.value) && Fits(outcome.value.action, outcome.value.reason))
  {
    hide WriteOut, CallFor, SentFor, Attempted, RefFor;
    var call := CallFor(cfg, res, policy, w.history, obj, host, found, verdict);
    var ref := RefFor(cfg, res.kind, obj);
    CallIsFor(cfg, res, policy, w.history, obj, host, found, verdict);
    WriteOutTells(w, call, host.meta.name, Tracks(res, verdict), Decide(res, ref, host, SkipAction, RateLimited), Report(res, ref, host, verdict));
    RefIs(cfg, res, obj);
    var reason := Report(res, ref, host, verdict).reason;
    if w.limiter != Some(0) {
      var w' := CarryOut(cfg, res, policy, w, obj, host, found, verdict).0;
      assert SentFor(reason, cfg, res.kind, obj, host, found, w'.audit[|w.audit|].call);
    }
  }

  lemma RefIs(cfg: Config, res: Resource, obj: Object)
    ensures RefFor(cfg, res.kind, obj) == ResourceRef(cfg.tenant, cfg.hostNamespace, obj.meta.namespace, res.kind, obj.meta.name)
  {
  }

  lemma VerdictTracks(cfg: Config, res: Resource, policy: Policy, h: History, obj: Object, host: Object, found: Option<Object>)
    requires res.direction != Unsupported
    ensures var verdict := Judge(cfg, res, policy, h, obj, host, found);
            (WantsWrite(verdict) ==> (Tracks(res, verdict) <==> res.direction == Bidirectional)) && (found.None? <==> verdict.MakeMirror?)
  {
    hide ContentOf, ReverseLookup;
  }

  /** Every turn of a pair: it fails with nothing done when the host object cannot be
      read; else it does what goes with the one reason whose claim holds. */
  lemma ReconcileTells(cfg: Config, res: Resource, policy: Policy, w: World, obj: Object, host: Object, reason: Reason)
    requires res.direction != Unsupported
    requires var w1 := Await(w).0;
             Claimed(reason, cfg, res, policy, Baseline(w1.history, host.meta.name), obj, w1.host.Lookup(KeyOf(host)))
    ensures var (w1, turn) := Await(w);
            var (w', outcome) := Reconcile(cfg, res, policy, w, obj, host);
            && (outcome.Success? ==> About(cfg, res, obj, host, outcome.value) && Fits(outcome.value.action, outcome.value.reason))
            && if turn.fault != Served then w' == w1 && outcome.Failure?
               else Turned(reason, cfg, res, w1, w', outcome, obj, host, w1.host.Lookup(KeyOf(host)))
  {
    hide Await, Judge, CarryOut, SentFor, Claimed, Attempted;
    var w1 := Await(w).0;
    var found := w1.host.Lookup(KeyOf(host));
    var verdict := Judge(cfg, res, policy, w1.history, obj, host, found);
    VerdictIsClaimed(cfg, res, policy, w1.history, obj, host, found);
    OneClaim(reason, Report(res, RefFor(cfg, res.kind, obj), host, verdict).reason, cfg, res, policy, Baseline(w1.history, host.meta.name), obj, found);
    VerdictTracks(cfg, res, policy, w1.history, obj, host, found);
    if WantsWrite(verdict) {
      CarriedOut(cfg, res, policy, w1, obj, host, found, verdict);
    }
  }
}
