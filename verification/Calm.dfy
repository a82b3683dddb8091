/** The world when nobody else writes and no call fails. Allocators still pick
    what they like. */
module Calm {
  import opened Cluster
  import opened Conservation
  import opened Engine
  import HostNames
  import opened Objects
  import opened Safety
  import opened Transform
  import opened Wrappers

  ghost predicate IsCalm(w: World) {
    && w.tenant.Valid() && w.host.Valid()
    && forall i :: 0 <= i < |w.script| ==>
         w.script[i].tenantEdits == [] && w.script[i].hostEdits == [] && w.script[i].fault == Served
  }

  /** Nothing but the world's own clock has moved. */
  ghost predicate Still(w: World, w': World) {
    IsCalm(w') && w' == w.(script := w'.script, past := w'.past, listed := w'.listed)
  }

  lemma CalmAwait(w: World)
    requires IsCalm(w)
    ensures Still(w, Await(w).0) && Await(w).1.fault == Served
    ensures Still(w, AskTenant(w).0) && AskTenant(w).1.fault == Served
  {
  }

  /** One object of one store was written; all else is as it was. */
  ghost predicate Rewrote(s: Store, s': Store, sent: Object) {
    var key := KeyOf(sent);
    && s'.Valid() && s'.objects.Keys == s.objects.Keys + {key}
    && (forall k :: k in s.objects && k != key ==> s'.objects[k] == s.objects[k])
    && var o := s'.objects[key];
       o.Kind() == sent.Kind() && o.meta == sent.meta.(version := o.meta.version) && ContentOf(o) == ContentOf(sent)
  }

  lemma WriteRewrites(s: Store, sent: Object, a: Allocation)
    requires s.Valid()
    ensures Rewrote(s, s.Write(Allocate(sent, a)), sent)
  {
    hide ContentOf, Allocate;
    StripForgetsAllocation(sent, a);
    VersionIsNotContent(Allocate(sent, a), s.next);
    WriteIsValid(s, Allocate(sent, a));
  }

  /** The server would take this write. */
  ghost predicate Takes(w: World, call: Call) {
    match call.op
    case CreateHost => KeyOf(call.sent) !in w.host.objects
    case DeleteHost => KeyOf(call.sent) in w.host.objects
    case _ => KeyOf(call.sent) in Side(w, call.op).objects
              && Side(w, call.op).objects[KeyOf(call.sent)].meta.version == call.sent.meta.version
  }

  /** What an accepted call leaves behind. */
  ghost predicate Wrote(w: World, w': World, call: Call) {
    && IsCalm(w') && Paid(w, w', 1)
    && match call.op
       case UpdateTenant => w'.host == w.host && Rewrote(w.tenant, w'.tenant, call.sent)
       case DeleteHost => w'.tenant == w.tenant && w'.host.objects == w.host.objects - {KeyOf(call.sent)}
       case _ => w'.tenant == w.tenant && Rewrote(w.host, w'.host, call.sent)
  }

  lemma TakenIsServed(w: World, call: Call, a: Allocation)
    requires w.tenant.Valid() && w.host.Valid() && Takes(w, call)
    ensures var s := Side(w, call.op);
            var (s', reply) := Serve(s, call.op, call.sent, a);
            && reply.Accepted? && s'.Valid()
            && (call.op == DeleteHost ==> s'.objects == s.objects - {KeyOf(call.sent)})
            && (call.op != DeleteHost ==> Rewrote(s, s', call.sent))
  {
    hide Allocate, Rewrote;
    var s := Side(w, call.op);
    StripForgetsAllocation(call.sent, a);
    WriteRewrites(s, call.sent, a);
    WriteIsValid(s, Allocate(call.sent, a));
  }

  lemma TakesByStores(w: World, w': World, call: Call)
    requires Takes(w, call) && w'.tenant == w.tenant && w'.host == w.host
    ensures Takes(w', call)
  {
  }

  lemma CalmServing(w: World, call: Call, a: Allocation)
    requires IsCalm(w) && Takes(w, call)
    ensures var (w', reply) := AfterServing(w, call, a);
            && reply.Accepted? && Wrote(w.(limiter := if w.limiter.Some? then Some(w.limiter.value + 1) else None), w', call)
  {
    hide Serve, Rewrote, Takes;
    TakenIsServed(w, call, a);
  }

  /** A grant was spent in between. */
  lemma WroteByStores(w: World, w1: World, w': World, call: Call)
    requires Wrote(w1.(limiter := if w1.limiter.Some? then Some(w1.limiter.value + 1) else None), w', call)
    requires w1.tenant == w.tenant && w1.host == w.host && w1.audit == w.audit
    requires if w.limiter.Some? then w.limiter.value > 0 && w1.limiter == Some(w.limiter.value - 1) else w1.limiter == None
    ensures Wrote(w, w', call)
  {
    hide IsCalm, Rewrote;
  }

  lemma CalmSubmit(w: World, call: Call)
    requires IsCalm(w) && Takes(w, call) && w.limiter != Some(0)
    ensures Allow(w).Some? && Wrote(w, Submit(Allow(w).value, call).0, call) && Submit(Allow(w).value, call).1.Accepted?
  {
    hide Submit, AfterServing, Takes, Wrote, Await;
    var granted := Allow(w).value;
    CalmAwait(granted);
    var (w1, turn) := Await(granted);
    SubmitIsServing(granted, call);
    TakesByStores(w, w1, call);
    CalmServing(w1, call, turn.allocation);
    WroteByStores(w, w1, Submit(granted, call).0, call);
  }

  lemma CalmWriteOut(w: World, call: Call, name: string, track: bool, skip: Decision, done: Decision)
    requires IsCalm(w) && Takes(w, call) && w.limiter != Some(0)
    ensures var (w', outcome) := WriteOut(w, call, name, track, skip, done);
            Wrote(w, w', call) && outcome == Success(done)
  {
    hide Submit, Rewrote, Takes;
    CalmSubmit(w, call);
  }

  /** What one pair does to a calm world, by verdict. */
  ghost predicate Settled(cfg: Config, res: Resource, policy: Policy, w: World, w': World, outcome: Outcome, obj: Object, host: Object, found: Option<Object>, verdict: Verdict)
    requires found.None? ==> verdict.MakeMirror?
  {
    if !WantsWrite(verdict) then Still(w.(history := w'.history), w') && Skips(outcome)
    else if w.limiter == Some(0) then Still(w, w') && Skips(outcome)
    else
      && outcome.Success? && outcome.value.action != SkipAction
      && Wrote(w, w', CallFor(cfg, res, policy, w.history, obj, host, found, verdict))
  }

  predicate Skips(outcome: Outcome) {
    outcome.Success? && outcome.value.action == SkipAction
  }

  lemma CalmCarryOut(cfg: Config, res: Resource, policy: Policy, w: World, obj: Object, host: Object, found: Option<Object>, verdict: Verdict)
    requires IsCalm(w) && found == w.host.Lookup(KeyOf(host)) && (found.None? <==> verdict.MakeMirror?)
    requires w.tenant.Lookup(KeyOf(obj)) == Some(obj) && WantsWrite(verdict)
    ensures var (w', outcome) := CarryOut(cfg, res, policy, w, obj, host, found, verdict);
            if w.limiter == Some(0) then w' == w && Skips(outcome)
            else
              && outcome.Success? && outcome.value.action != SkipAction
              && Wrote(w, w', CallFor(cfg, res, policy, w.history, obj, host, found, verdict))
  {
    hide WriteOut, RefFor, Paid, Wrote, Takes, CallFor, IsCalm;
    var call := CallFor(cfg, res, policy, w.history, obj, host, found, verdict);
    var ref := RefFor(cfg, res.kind, obj);
    var limited := Decide(res, ref, host, SkipAction, RateLimited);
    var report := Report(res, ref, host, verdict);
    CalmStores(w);
    CalmCallIsTaken(cfg, res, policy, w, obj, host, found, verdict);
    if w.limiter != Some(0) {
      CalmWriteOut(w, call, host.meta.name, Tracks(res, verdict), limited, report);
    } else {
      DeniedIsStill(w, call, host.meta.name, Tracks(res, verdict), limited, report);
    }
  }

  lemma CalmSettle(cfg: Config, res: Resource, policy: Policy, w: World, obj: Object, host: Object, found: Option<Object>, verdict: Verdict)
    requires IsCalm(w) && found == w.host.Lookup(KeyOf(host)) && (found.None? <==> verdict.MakeMirror?)
    requires w.tenant.Lookup(KeyOf(obj)) == Some(obj)
    ensures var (w', outcome) := Settle(cfg, res, policy, w, obj, host, found, verdict);
            Settled(cfg, res, policy, w, w', outcome, obj, host, found, verdict)
  {
    hide CarryOut, RefFor, Wrote, CallFor, IsCalm;
    if WantsWrite(verdict) {
      CalmCarryOut(cfg, res, policy, w, obj, host, found, verdict);
    } else {
      HistoryIsNoStore(w, Settle(cfg, res, policy, w, obj, host, found, verdict).0);
    }
  }

  lemma DeniedIsStill(w: World, call: Call, name: string, track: bool, skip: Decision, done: Decision)
    requires IsCalm(w) && w.limiter == Some(0)
    ensures WriteOut(w, call, name, track, skip, done) == (w, Success(skip))
  {
  }

  lemma HistoryIsNoStore(w: World, w': World)
    requires IsCalm(w) && w' == w.(history := w'.history)
    ensures IsCalm(w')
  {
  }

  lemma CalmStores(w: World)
    requires IsCalm(w)
    ensures w.tenant.Valid() && w.host.Valid()
  {
  }

  lemma CalmCallIsTaken(cfg: Config, res: Resource, policy: Policy, w: World, obj: Object, host: Object, found: Option<Object>, verdict: Verdict)
    requires w.tenant.Valid() && w.host.Valid()
    requires found == w.host.Lookup(KeyOf(host)) && (found.None? <==> verdict.MakeMirror?)
    requires WantsWrite(verdict)
    requires w.tenant.Lookup(KeyOf(obj)) == Some(obj)
    ensures Takes(w, CallFor(cfg, res, policy, w.history, obj, host, found, verdict))
  {
    hide Adopt, Comparable, MergeHostContentIntoTenant;
    if verdict.Push? {
      AdoptKeepsHeader(found.value, host.WithVersion(found.value.meta.version));
    } else if verdict.Pull? {
      MergeKeepsIdentity(cfg, res, obj, found.value);
    }
  }

  lemma MergeKeepsIdentity(cfg: Config, res: Resource, obj: Object, existing: Object)
    ensures var merged := MergeHostContentIntoTenant(Comparable(cfg, res.kind, existing), obj);
            merged.meta == obj.meta && merged.Kind() == obj.Kind()
  {
    MergedHeader(Comparable(cfg, res.kind, existing), obj);
  }

  // ---- one pair, in plain terms ----

  /** One store holds a new object at `key` that looks like `like`; the rest of
      it is as it was. */
  ghost predicate Replaced(s: Store, s': Store, like: Object) {
    var key := KeyOf(like);
    && s'.Valid() && s'.objects.Keys == s.objects.Keys + {key}
    && (forall k :: k in s.objects && k != key ==> s'.objects[k] == s.objects[k])
    && s'.objects[key].meta == like.meta.(version := s'.objects[key].meta.version)
    && s'.objects[key].Kind() == like.Kind()
  }

  predicate Rebases(verdict: Verdict) {
    WantsWrite(verdict) || verdict.Agree?
  }

  /** What a pair does to a calm world: nothing, or one paid write of either its
      mirror or itself, which then agree. */
  ghost predicate PairEffect(cfg: Config, res: Resource, w: World, w': World, outcome: Outcome, obj: Object, host: Object, verdict: Verdict) {
    && IsCalm(w')
    && (forall name :: name != host.meta.name || !Rebases(verdict) ==> Baseline(w'.history, name) == Baseline(w.history, name))
    && if !WantsWrite(verdict) || w.limiter == Some(0) then
         Skips(outcome) && w'.tenant == w.tenant && w'.host == w.host && w'.limiter == w.limiter && w'.audit == w.audit
       else
         && outcome.Success? && outcome.value.action != SkipAction && Paid(w, w', 1)
         && if verdict.Pull? then
              && w'.host == w.host && Replaced(w.tenant, w'.tenant, obj)
              && (KeyOf(host) in w.host.objects ==> ContentEqual(w'.tenant.objects[KeyOf(obj)], Comparable(cfg, res.kind, w.host.objects[KeyOf(host)])))
            else
              && w'.tenant == w.tenant && Replaced(w.host, w'.host, host)
              && (Mirrors(obj) || (verdict.MakeMirror? && res.kind != "Pod") ==> ContentEqual(obj, w'.host.objects[KeyOf(host)]))
  }

  lemma SettleTouchesOneBaseline(cfg: Config, res: Resource, policy: Policy, w: World, obj: Object, host: Object, found: Option<Object>, verdict: Verdict, name: string)
    requires found.None? ==> verdict.MakeMirror?
    requires name != host.meta.name || !Rebases(verdict)
    ensures Baseline(Settle(cfg, res, policy, w, obj, host, found, verdict).0.history, name) == Baseline(w.history, name)
  {
    hide CallFor, Submit, Report, RefFor;
    if WantsWrite(verdict) && Allow(w).Some? {
      SubmitIsOneAttempt(Allow(w).value, CallFor(cfg, res, policy, w.history, obj, host, found, verdict));
    }
  }

  /** What each write sends: under the mirror's identity the tenant's content, or
      under the tenant's own identity the host's. */
  lemma SentView(cfg: Config, res: Resource, policy: Policy, history: History, obj: Object, found: Option<Object>, verdict: Verdict)
    requires WellNamed(cfg) && Desired(cfg, res, obj).Success? && obj.Kind() == res.kind
    requires WantsWrite(verdict) && (found.None? <==> verdict.MakeMirror?)
    requires found.Some? ==> KeyOf(found.value) == KeyOf(Desired(cfg, res, obj).value)
    ensures var host := Desired(cfg, res, obj).value;
            var call := CallFor(cfg, res, policy, history, obj, host, found, verdict);
            if verdict.Pull? then
              && call.op == UpdateTenant && call.sent.meta == obj.meta && call.sent.Kind() == obj.Kind()
              && ContentEqual(call.sent, Comparable(cfg, res.kind, found.value))
            else
              && (call.op == if verdict.Push? then UpdateHost else CreateHost)
              && call.sent.meta == host.meta.(version := call.sent.meta.version) && call.sent.Kind() == host.Kind()
              && (Mirrors(obj) || (verdict.MakeMirror? && res.kind != "Pod") ==> ContentEqual(obj, call.sent))
  {
    hide Desired, ReverseLookup, Strip, Comparable, MergeHostContentIntoTenant, Adopt, HostNames.HostName, BuildHostObject;
    DesiredIsOurs(cfg, res, obj);
    var host := Desired(cfg, res, obj).value;
    match verdict {
      case MakeMirror =>
      case Push(_) =>
        var existing := found.value;
        AdoptKeepsHeader(existing, host.WithVersion(existing.meta.version));
        if Mirrors(obj) {
          PushedObject(cfg, res, obj, existing, Allocation(map[], map[]));
          StripForgetsAllocation(Adopt(existing, host.WithVersion(existing.meta.version)), Allocation(map[], map[]));
        }
      case Pull(_) =>
        var source := Comparable(cfg, res.kind, found.value);
        ComparableKeepsMeta(cfg, res.kind, found.value);
        MergeKeepsIdentity(cfg, res, obj, found.value);
        PullAgrees(source, obj, Allocation(map[], map[]));
        StripForgetsAllocation(MergeHostContentIntoTenant(source, obj), Allocation(map[], map[]));
    }
  }

  lemma JudgeMakesOnlyMissing(cfg: Config, res: Resource, policy: Policy, history: History, obj: Object, host: Object, found: Option<Object>)
    ensures Judge(cfg, res, policy, history, obj, host, found).MakeMirror? <==> found.None?
  {
    hide ReverseLookup, ContentOf;
  }

  lemma WroteReplaces(w: World, w': World, call: Call, like: Object)
    requires Wrote(w, w', call) && call.op != DeleteHost
    requires call.sent.meta == like.meta.(version := call.sent.meta.version) && call.sent.Kind() == like.Kind()
    ensures if call.op == UpdateTenant then w'.host == w.host && Replaced(w.tenant, w'.tenant, like)
            else w'.tenant == w.tenant && Replaced(w.host, w'.host, like)
    ensures var s' := if call.op == UpdateTenant then w'.tenant else w'.host;
            KeyOf(like) in s'.objects && ContentOf(s'.objects[KeyOf(like)]) == ContentOf(call.sent)
  {
    hide ContentOf, IsCalm, Paid;
  }

  lemma SettledEffect(cfg: Config, res: Resource, policy: Policy, w: World, w': World, outcome: Outcome, obj: Object, found: Option<Object>, verdict: Verdict)
    requires WellNamed(cfg) && IsCalm(w) && Desired(cfg, res, obj).Success? && obj.Kind() == res.kind
    requires found == w.host.Lookup(KeyOf(Desired(cfg, res, obj).value)) && (found.None? <==> verdict.MakeMirror?)
    requires Settled(cfg, res, policy, w, w', outcome, obj, Desired(cfg, res, obj).value, found, verdict)
    requires var host := Desired(cfg, res, obj).value;
      forall name :: name != host.meta.name || !Rebases(verdict) ==> Baseline(w'.history, name) == Baseline(w.history, name)
    ensures PairEffect(cfg, res, w, w', outcome, obj, Desired(cfg, res, obj).value, verdict)
  {
    hide Desired, Comparable, CallFor, ContentOf, Mirrors, Paid, IsCalm, Replaced, Rewrote;
    var host := Desired(cfg, res, obj).value;
    if WantsWrite(verdict) && w.limiter != Some(0) {
      assert found.Some? ==> KeyOf(found.value) == KeyOf(host) by { CalmStores(w); }
      SentView(cfg, res, policy, w.history, obj, found, verdict);
      WroteReplaces(w, w', CallFor(cfg, res, policy, w.history, obj, host, found, verdict), if verdict.Pull? then obj else host);
    }
  }

  /** One pair in a calm world. */
  lemma CalmReconcile(cfg: Config, res: Resource, policy: Policy, w: World, obj: Object)
    requires WellNamed(cfg) && IsCalm(w) && Desired(cfg, res, obj).Success? && obj.Kind() == res.kind
    requires w.tenant.Lookup(KeyOf(obj)) == Some(obj)
    ensures var host := Desired(cfg, res, obj).value;
            var verdict := Judge(cfg, res, policy, w.history, obj, host, w.host.Lookup(KeyOf(host)));
            var (w', outcome) := Reconcile(cfg, res, policy, w, obj, host);
            PairEffect(cfg, res, w, w', outcome, obj, host, verdict)
  {
    hide Desired, Judge, Settle, Settled, PairEffect;
    CalmAwait(w);
    var w1 := Await(w).0;
    var host := Desired(cfg, res, obj).value;
    var found := w1.host.Lookup(KeyOf(host));
    var verdict := Judge(cfg, res, policy, w1.history, obj, host, found);
    JudgeMakesOnlyMissing(cfg, res, policy, w1.history, obj, host, found);
    var (w', outcome) := Settle(cfg, res, policy, w1, obj, host, found, verdict);
    CalmSettle(cfg, res, policy, w1, obj, host, found, verdict);
    forall name | name != host.meta.name || !Rebases(verdict)
      ensures Baseline(w'.history, name) == Baseline(w1.history, name)
    {
      SettleTouchesOneBaseline(cfg, res, policy, w1, obj, host, found, verdict, name);
    }
    SettledEffect(cfg, res, policy, w1, w', outcome, obj, found, verdict);
    EffectIgnoresClock(cfg, res, w, w1, w', outcome, obj, host, verdict);
  }

  lemma EffectIgnoresClock(cfg: Config, res: Resource, w: World, w1: World, w': World, outcome: Outcome, obj: Object, host: Object, verdict: Verdict)
    requires w1 == w.(script := w1.script, past := w1.past, listed := w1.listed) && PairEffect(cfg, res, w1, w', outcome, obj, host, verdict)
    ensures PairEffect(cfg, res, w, w', outcome, obj, host, verdict)
  {
    hide IsCalm, Replaced, ContentEqual, Comparable;
  }
}
