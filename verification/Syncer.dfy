/** The engine as the object it is: its history, limiter and recorder are updated
    in place, the two servers are written step by step, and loops grow the
    decisions, the errors and the desired names (internal/syncer/engine.go). */
module Syncer {
  import opened Cluster
  import opened DecisionLaws
  import E = Engine
  import opened Engine
  import opened Objects
  import opened PassLaws
  import opened PassSafety
  import opened Safety
  import opened Transform
  import opened TransformOps
  import opened Wrappers

  lemma StoresAreValid(cfg: Config, w: World)
    requires Inv(cfg, w)
    ensures w.tenant.Valid() && w.host.Valid()
  {
  }

  lemma PairTellsAndKeeps(cfg: Config, res: Resource, policy: Policy, w: World, obj: Object, host: Object)
    requires res.direction != Unsupported
    ensures var (w', outcome) := E.Reconcile(cfg, res, policy, w, obj, host);
            && (res.direction != Bidirectional ==> w'.history == w.history)
            && (outcome.Success? ==> About(cfg, res, obj, host, outcome.value) && Matches([outcome.value], Gain(w.audit, w'.audit)))
  {
    hide E.Reconcile, Matches, Gain;
    PairTells(cfg, res, policy, w, obj, host);
    if res.direction != Bidirectional {
      OneWayPairKeepsHistory(cfg, res, policy, w, obj, host);
    }
  }

  lemma PassTellsAndKeeps(cfg: Config, res: Resource, policy: Policy, w: World, orders: Orders)
    requires res.direction != Unsupported
    ensures var r := E.SyncPass(cfg, res, policy, w, orders);
            && (res.direction != Bidirectional ==> r.w.history == w.history)
            && (r.error == None ==> Matches(r.decisions, Gain(w.audit, r.w.audit)))
  {
    hide E.SyncPass, Matches, Gain;
    if res.direction != Bidirectional {
      OneWayPassKeepsHistory(cfg, res, policy, w, orders);
    }
    if E.SyncPass(cfg, res, policy, w, orders).error == None {
      PassTells(cfg, res, policy, w, orders);
    }
  }

  class SyncEngine {
    const cfg: Config
    var history: History
    var limiter: Option<nat>
    var recorded: seq<Decision>

    // What the two API clients reach, and what the world does around each call.
    var virtual: Store
    var host: Store
    var script: seq<Turn>
    var past: seq<Turn>
    var audit: seq<Attempt>
    var listed: nat

    function View(): World
      reads this
    {
      World(virtual, host, history, limiter, script, past, audit, listed)
    }

    constructor (cfg: Config, w: World)
      ensures View() == w && this.cfg == cfg && recorded == []
    {
      this.cfg := cfg;
      history, limiter, recorded := w.history, w.limiter, [];
      virtual, host, script, past, audit, listed := w.tenant, w.host, w.script, w.past, w.audit, w.listed;
    }

    /** Others act first. */
    method Yield() returns (turn: Turn)
      modifies this
      ensures (View(), turn) == E.Await(old(View())) && recorded == old(recorded)
    {
      turn := QUIET;
      if script != [] {
        turn := script[0];
        virtual := ApplyEdits(virtual, turn.tenantEdits);
        host := ApplyEdits(host, turn.hostEdits);
        script := script[1..];
        past := past + [turn];
      }
    }

    /** A write request to one of the two servers. */
    method Send(call: Call) returns (reply: Reply)
      modifies this
      ensures (View(), reply) == E.Submit(old(View()), call) && recorded == old(recorded)
    {
      hide ApplyEdits, Create, Update, Delete;
      var turn := Yield();
      if turn.fault == Rejected {
        audit := audit + [Attempt(call, None, Unheard, virtual, listed)];
        return Unheard;
      }
      var store := if call.op == UpdateTenant then virtual else host;
      var (store', answer) := Serve(store, call.op, call.sent, turn.allocation);
      audit := audit + [Attempt(call, if answer.Accepted? then store.Lookup(KeyOf(call.sent)) else None, answer, virtual, listed)];
      if call.op == UpdateTenant {
        virtual := store';
      } else {
        host := store';
      }
      reply := if turn.fault == ReplyLost then Unheard else answer;
    }

    /** engine.go:418-424. */
    method RateLimited() returns (limited: bool)
      modifies this`limiter
      ensures match E.Allow(old(View()))
              case None => limited && View() == old(View())
              case Some(w) => !limited && View() == w
    {
      if limiter.Some? {
        if limiter.value == 0 {
          return true;
        }
        limiter := Some(limiter.value - 1);
      }
      limited := false;
    }

    /** engine.go:369-374. */
    method SetConverged(hostName: string, tenantVersion: nat, hostVersion: nat)
      modifies this`history
      ensures View() == E.SetConverged(old(View()), hostName, tenantVersion, hostVersion)
    {
      history := history[hostName := Converged(tenantVersion, hostVersion)];
    }

    ghost function Limited(res: Resource, obj: Object, mirror: Object): Decision {
      Decide(res, RefFor(cfg, res.kind, obj), mirror, SkipAction, E.RateLimited)
    }

    /** engine.go:380-394: the version and the host-allocated fields of the live
        object are taken over before the update. */
    method PushToHost(res: Resource, policy: Policy, obj: Object, existing: Object, desired: Object, track: bool) returns (outcome: Outcome)
      modifies this
      ensures recorded == old(recorded)
      ensures (View(), outcome) == E.WriteOut(old(View()),
                CallFor(cfg, res, policy, old(history), obj, desired, Some(existing), Push(track)), desired.meta.name, track,
                Limited(res, obj, desired), Report(res, RefFor(cfg, res.kind, obj), desired, Push(track)))
    {
      hide E.Submit, Adopt;
      var ref := RefFor(cfg, res.kind, obj);
      var baseline := Baseline(history, desired.meta.name);
      var limited := RateLimited();
      if limited {
        return Success(Decide(res, ref, desired, SkipAction, E.RateLimited));
      }
      var live := new Unstructured(existing);
      var wanted := new Unstructured(desired.WithVersion(existing.meta.version));
      Unstructured.AdoptHostAllocatedFields(live, wanted);
      var reply := Send(Call(UpdateHost, wanted.obj, obj, baseline, res, policy));
      if !reply.Accepted? {
        return Failure(CallFailed(reply));
      }
      if track {
        SetConverged(desired.meta.name, obj.meta.version, reply.o.meta.version);
      }
      outcome := Success(Decide(res, ref, desired, UpdateAction, Pushed));
    }

    /** engine.go:400-412. `source` is the live host object as compared. */
    method PullToTenant(res: Resource, policy: Policy, obj: Object, existing: Object, source: Object, desired: Object, track: bool) returns (outcome: Outcome)
      requires source == Comparable(cfg, res.kind, existing)
      modifies this
      ensures recorded == old(recorded)
      ensures (View(), outcome) == E.WriteOut(old(View()),
                CallFor(cfg, res, policy, old(history), obj, desired, Some(existing), Pull(track)), desired.meta.name, track,
                Limited(res, obj, desired), Report(res, RefFor(cfg, res.kind, obj), desired, Pull(track)))
    {
      hide E.Submit, MergeHostContentIntoTenant, Comparable;
      var ref := RefFor(cfg, res.kind, obj);
      var baseline := Baseline(history, desired.meta.name);
      var limited := RateLimited();
      if limited {
        return Success(Decide(res, ref, desired, SkipAction, E.RateLimited));
      }
      var hostObj := new Unstructured(source);
      var tenantObj := new Unstructured(obj);
      var merged := Unstructured.MergeContent(hostObj, tenantObj);
      var reply := Send(Call(UpdateTenant, merged.obj, source, baseline, res, policy));
      if !reply.Accepted? {
        return Failure(CallFailed(reply));
      }
      if track {
        SetConverged(desired.meta.name, reply.o.meta.version, source.meta.version);
      }
      outcome := Success(Decide(res, ref, desired, UpdateAction, Pulled));
    }

    /** engine.go:338-362. */
    method ReconcileBidirectionalConflict(res: Resource, policy: Policy, obj: Object, existing: Object, source: Object, desired: Object) returns (outcome: Outcome)
      requires res.direction == Bidirectional && Ours(cfg, res, obj, existing)
      requires source == Comparable(cfg, res.kind, existing) && !Transform.ContentEqual(obj, source)
      modifies this
      ensures recorded == old(recorded)
      ensures (View(), outcome) == E.Settle(cfg, res, policy, old(View()), obj, desired, Some(existing),
                                           Judge(cfg, res, policy, old(history), obj, desired, Some(existing)))
    {
      hide E.WriteOut, CallFor, ContentOf, ReverseLookup, Comparable;
      match policy {
        case TenantWins =>
          outcome := PushToHost(res, policy, obj, existing, desired, true);
          return;
        case HostWins =>
          outcome := PullToTenant(res, policy, obj, existing, source, desired, true);
          return;
        case Manual =>
      }
      if desired.meta.name in history {
        var last := history[desired.meta.name];
        var tenantChanged := obj.meta.version != last.tenantVersion;
        var hostChanged := existing.meta.version != last.hostVersion;
        if tenantChanged && !hostChanged {
          outcome := PushToHost(res, policy, obj, existing, desired, true);
          return;
        } else if hostChanged && !tenantChanged {
          outcome := PullToTenant(res, policy, obj, existing, source, desired, true);
          return;
        }
      }
      outcome := Success(Decide(res, RefFor(cfg, res.kind, obj), desired, SkipAction, TwoSided));
    }

    /** engine.go:259-271. */
    method CreateMirror(res: Resource, policy: Policy, obj: Object, desired: Object) returns (outcome: Outcome)
      modifies this
      ensures recorded == old(recorded)
      ensures (View(), outcome) == E.Settle(cfg, res, policy, old(View()), obj, desired, None, MakeMirror)
    {
      hide E.Submit;
      var ref := RefFor(cfg, res.kind, obj);
      var baseline := Baseline(history, desired.meta.name);
      var limited := RateLimited();
      if limited {
        return Success(Decide(res, ref, desired, SkipAction, E.RateLimited));
      }
      var reply := Send(Call(CreateHost, desired, obj, baseline, res, policy));
      if !reply.Accepted? {
        return Failure(CallFailed(reply));
      }
      if res.direction == Bidirectional {
        SetConverged(desired.meta.name, obj.meta.version, reply.o.meta.version);
      }
      outcome := Success(Decide(res, ref, desired, CreateAction, NoCounterpart));
    }

    /** engine.go:252-313. */
    method ReconcilePair(res: Resource, policy: Policy, obj: Object, desired: Object) returns (outcome: Outcome)
      requires res.direction != Unsupported
      modifies this
      ensures recorded == old(recorded)
      ensures (View(), outcome) == E.Reconcile(cfg, res, policy, old(View()), obj, desired)
      ensures res.direction != Bidirectional ==> history == old(history)
      ensures outcome.Success? ==> About(cfg, res, obj, desired, outcome.value) && Matches([outcome.value], Gain(old(audit), audit))
    {
      hide E.WriteOut, CallFor, ContentEqual, Comparable, ReverseLookup, ApplyEdits, SameSource, RefFor, KeyOf, Decide, E.Await, About, Matches, Gain;
      PairTellsAndKeeps(cfg, res, policy, View(), obj, desired);
      var turn := Yield();
      if turn.fault != Served {
        return Failure(CallFailed(Unheard));
      }
      var ref := RefFor(cfg, res.kind, obj);
      if KeyOf(desired) !in host.objects {
        outcome := CreateMirror(res, policy, obj, desired);
        return;
      }
      var existing := host.objects[KeyOf(desired)];
      var existingRef := ReverseLookup(existing);
      if existingRef.None? {
        return Success(Decide(res, ref, desired, SkipAction, NotManaged));
      }
      if !SameSource(existingRef.value, ref) {
        return Success(Decide(res, ref, desired, SkipAction, NameCollision));
      }
      if res.direction == ToHost {
        outcome := PushToHost(res, policy, obj, existing, desired, false);
        return;
      }
      var comparableHost := Comparable(cfg, res.kind, existing);
      var tenantSide := new Unstructured(obj);
      var hostSide := new Unstructured(comparableHost);
      var equal := Unstructured.CompareContent(tenantSide, hostSide);
      if equal {
        if res.direction == Bidirectional {
          SetConverged(desired.meta.name, obj.meta.version, existing.meta.version);
        }
        return Success(Decide(res, ref, desired, SkipAction, Agreed));
      }
      if res.direction == FromHost {
        outcome := PullToTenant(res, policy, obj, existing, comparableHost, desired, false);
      } else {
        outcome := ReconcileBidirectionalConflict(res, policy, obj, existing, comparableHost, desired);
      }
    }

    method Record(d: Decision)
      modifies this`recorded
      ensures recorded == old(recorded) + [d]
    {
      recorded := recorded + [d];
    }

    /** The objects at these keys, in whatever order the server returns them. */
    static method Enumerate(s: Store, keys: set<Key>) returns (items: seq<Object>)
      requires s.Valid() && keys <= s.objects.Keys
      ensures forall i :: 0 <= i < |items| ==> KeyOf(items[i]) in keys && s.objects[KeyOf(items[i])] == items[i]
      ensures forall i, j :: 0 <= i < j < |items| ==> KeyOf(items[i]) != KeyOf(items[j])
      ensures forall k :: k in keys ==> s.objects[k] in items
    {
      items := [];
      var left := keys;
      while left != {}
        invariant left <= keys
        invariant forall i :: 0 <= i < |items| ==> KeyOf(items[i]) in keys - left && s.objects[KeyOf(items[i])] == items[i]
        invariant forall i, j :: 0 <= i < j < |items| ==> KeyOf(items[i]) != KeyOf(items[j])
        invariant forall k :: k in keys - left ==> s.objects[k] in items
        decreases left
      {
        var k :| k in left;
        assert KeyOf(s.objects[k]) == k;
        items := items + [s.objects[k]];
        left := left - {k};
      }
    }

    /** The tenant's objects of a kind. */
    method ListVirtual(kind: string) returns (items: seq<Object>)
      requires virtual.Valid()
      ensures Lists(virtual, kind, items)
    {
      items := Enumerate(virtual, set k | k in virtual.objects && k.kind == kind);
    }

    /** The host objects that the garbage collector's selector matches. */
    method ListLabelled(kind: string) returns (hosts: seq<Object>)
      requires host.Valid()
      ensures ListsLabelled(cfg, kind, host, hosts)
    {
      hide Labelled;
      hosts := Enumerate(host, set k | k in host.objects && Labelled(cfg, kind, host.objects[k]));
    }

    /** engine.go:438-475. */
    method CollectOrphans(res: Resource, policy: Policy, desired: set<string>)
      returns (decisions: seq<Decision>, error: Option<Error>, ghost hosts: seq<Object>)
      requires host.Valid()
      modifies this
      ensures recorded == old(recorded)
      ensures var (w1, turn) := E.Await(old(View()));
              if turn.fault != Served then View() == w1 && decisions == [] && error == Some(ListFailed)
              else
                && ListsLabelled(cfg, res.kind, w1.host, hosts)
                && var g := E.CollectOrphans(res, policy, Tally(w1, [], [], desired), hosts);
                   View() == g.w && decisions == g.decisions && error == Aggregate(g.errors)
    {
      hide ApplyEdits, Labelled, E.Submit;
      hosts := [];
      var turn := YieldValid();
      if turn.fault != Served {
        return [], Some(ListFailed), [];
      }
      var listed := ListLabelled(res.kind);
      hosts := listed;
      ghost var start := Tally(View(), [], [], desired);
      decisions := [];
      var errors: seq<Error> := [];
      for i := 0 to |listed|
        invariant recorded == old(recorded)
        invariant E.CollectOrphans(res, policy, Tally(View(), decisions, errors, desired), listed[i..])
               == E.CollectOrphans(res, policy, start, listed)
      {
        assert listed[i..][1..] == listed[i + 1..];
        var o := listed[i];
        if o.meta.name !in desired {
          var baseline := Baseline(history, o.meta.name);
          var limited := RateLimited();
          if limited {
            decisions := decisions + [Decide(res, LookedUp(o), o, SkipAction, E.RateLimited)];
          } else {
            var reply := Send(Call(DeleteHost, o, o, baseline, res, policy));
            if reply.Accepted? || reply.Absent? {
              decisions := decisions + [Decide(res, LookedUp(o), o, DeleteAction, Orphaned)];
            } else {
              errors := errors + [CallFailed(reply)];
            }
          }
        }
      }
      error := Aggregate(errors);
    }

    method YieldValid() returns (turn: Turn)
      requires host.Valid()
      modifies this
      ensures (View(), turn) == E.Await(old(View())) && recorded == old(recorded) && host.Valid()
    {
      if script != [] {
        EditsKeepValid(host, script[0].hostEdits);
      }
      turn := Yield();
    }

    /** engine.go:205-216: the host object wanted for a tenant object. */
    method BuildDesired(res: Resource, obj: Object) returns (built: Result<Object, Error>)
      ensures built == E.Desired(cfg, res, obj)
    {
      hide Transform.BuildHostObject;
      var tenantObj := new Unstructured(obj);
      var host, error := Unstructured.BuildHostObject(RefFor(cfg, res.kind, obj), tenantObj);
      if error.Some? {
        return Failure(BuildFailed(error.value));
      }
      host.obj := host.obj.WithKind(res.apiVersion, res.kind);
      if res.kind == "Pod" && cfg.runtimeClass != "" {
        var body := SetSpecField(host.obj.body, "runtimeClassName", Str(cfg.runtimeClass));
        if body.None? {
          return Failure(SpecNotAMap);
        }
        host.obj := host.obj.(body := body.value);
      }
      built := Success(host.obj);
    }

    /** engine.go:195-226: the loop over the listed tenant objects. */
    method RunPairs(res: Resource, policy: Policy, items: seq<Object>)
      returns (decisions: seq<Decision>, errors: seq<Error>, desired: set<string>)
      requires res.direction != Unsupported
      modifies this
      ensures E.RunItems(cfg, res, policy, Tally(old(View()), [], [], {}), items) == Tally(View(), decisions, errors, desired)
      ensures recorded == old(recorded) + decisions
    {
      hide E.Reconcile, E.Desired, SkippedNamespace, VirtualInfrastructure;
      decisions, errors, desired := [], [], {};
      ghost var start := Tally(View(), [], [], {});
      for i := 0 to |items|
        invariant recorded == old(recorded) + decisions
        invariant E.RunItems(cfg, res, policy, Tally(View(), decisions, errors, desired), items[i..])
               == E.RunItems(cfg, res, policy, start, items)
      {
        assert items[i..][1..] == items[i + 1..];
        var obj := items[i];
        if !SkippedNamespace(cfg, obj.meta.namespace) && !VirtualInfrastructure(res.kind, obj) {
          var built := BuildDesired(res, obj);
          if built.Failure? {
            errors := errors + [built.error];
          } else {
            desired := desired + {built.value.meta.name};
            var outcome := ReconcilePair(res, policy, obj, built.value);
            if outcome.Failure? {
              errors := errors + [outcome.error];
            } else {
              Record(outcome.value);
              decisions := decisions + [outcome.value];
            }
          }
        }
      }
    }

    method RecordAll(decisions: seq<Decision>, gc: seq<Decision>) returns (all: seq<Decision>)
      modifies this`recorded
      ensures all == decisions + gc && recorded == old(recorded) + gc
    {
      all := decisions;
      for i := 0 to |gc|
        invariant all == decisions + gc[..i] && recorded == old(recorded) + gc[..i]
      {
        assert gc[..i + 1] == gc[..i] + [gc[i]];
        Record(gc[i]);
        all := all + [gc[i]];
      }
      assert gc[..|gc|] == gc;
    }

    /** engine.go:184-238: one convergence pass. It refines the pass on values for
        the orders in which the two servers happened to list, and the recorder
        sees exactly the decisions returned, in order. */
    method SyncPass(res: Resource, policy: Policy) returns (decisions: seq<Decision>, error: Option<Error>, ghost orders: Orders)
      requires res.direction != Unsupported && WellNamed(cfg) && Inv(cfg, View())
      modifies this
      ensures Answered(cfg, res, policy, old(View()), orders)
      ensures PassResult(View(), decisions, error) == E.SyncPass(cfg, res, policy, old(View()), orders)
      ensures recorded == old(recorded) + decisions
      ensures Inv(cfg, View())
      ensures res.direction != Bidirectional ==> history == old(history)
      ensures error == None ==> Matches(decisions, Gain(old(audit), audit))
    {
      hide Matches, Gain;
      hide E.RunItems, E.CollectOrphans, E.Await, Inv, Covered, Lists, ListsLabelled, AllOnRecord, Aggregate;
      decisions, orders := [], Orders([], []);
      AskKeepsInv(cfg, View());
      var turn := Yield();
      listed := virtual.next;
      StoresAreValid(cfg, View());
      if turn.fault != Served {
        return [], Some(ListFailed), orders;
      }
      var items := ListVirtual(res.kind);
      orders := Orders(items, []);
      ListedIsOnRecord(virtual, res.kind, items);
      RunItemsKeepInv(cfg, res, policy, Tally(View(), [], [], {}), items);
      StoresAreValid(cfg, E.RunItems(cfg, res, policy, Tally(View(), [], [], {}), items).w);
      var errors: seq<Error>, desired: set<string>;
      decisions, errors, desired := RunPairs(res, policy, items);
      var gc, gcError, hosts := CollectOrphans(res, policy, desired);
      orders := Orders(items, hosts);
      decisions := RecordAll(decisions, gc);
      error := Aggregate(errors + AsErrors(gcError));
      SyncPassKeepsInv(cfg, res, policy, old(View()), orders);
      PassTellsAndKeeps(cfg, res, policy, old(View()), orders);
    }
  }
}
