/** Accounting: every object gives one decision or one error, and every grant of
    the limiter pays for exactly one attempted write. */
module Conservation {
  import opened Cluster
  import opened Engine
  import opened Objects
  import opened PassSafety
  import opened SyncRun
  import opened Wrappers

  function EligibleCount(cfg: Config, res: Resource, items: seq<Object>): nat {
    if items == [] then 0 else (if Eligible(cfg, res, items[0]) then 1 else 0) + EligibleCount(cfg, res, items[1..])
  }

  function OrphanCount(desired: set<string>, hosts: seq<Object>): nat {
    if hosts == [] then 0 else (if hosts[0].meta.name in desired then 0 else 1) + OrphanCount(desired, hosts[1..])
  }

  /** The decisions that report a write. */
  function Writes(decisions: seq<Decision>): nat {
    if decisions == [] then 0
    else Writes(decisions[..|decisions| - 1]) + (if decisions[|decisions| - 1].action == SkipAction then 0 else 1)
  }

  /** From w to w', `n` writes were attempted, each paid for by one grant. */
  ghost predicate Paid(w: World, w': World, n: int) {
    && w.audit <= w'.audit && |w'.audit| == |w.audit| + n
    && (match w.limiter
        case None => w'.limiter == None
        case Some(grants) => n <= grants && w'.limiter == Some(grants - n))
  }

  ghost predicate Denied(d: Decision) {
    d.action == SkipAction && d.reason == RateLimited
  }

  lemma PaidInTurn(a: World, b: World, c: World, m: int, n: int)
    requires Paid(a, b, m) && Paid(b, c, n)
    ensures Paid(a, c, m + n)
  {
  }

  lemma SubmitIsOneAttempt(w: World, call: Call)
    ensures var w' := Submit(w, call).0;
            && w.audit <= w'.audit && |w'.audit| == |w.audit| + 1
            && w'.audit[|w.audit|].call == call && w'.limiter == w.limiter && w'.history == w.history
  {
    hide ApplyEdits, Serve;
  }

  /** A grant is followed by exactly one attempt; a denial changes nothing. */
  lemma WriteOutIsPaid(w: World, call: Call, name: string, track: bool, skip: Decision, done: Decision)
    requires done.action != SkipAction && Denied(skip)
    ensures var (w', outcome) := WriteOut(w, call, name, track, skip, done);
            if w.limiter == Some(0) then w' == w && outcome == Success(skip)
            else Paid(w, w', 1) && (outcome == Success(done) || outcome.Failure?)
  {
    hide Submit;
    if Allow(w).Some? {
      SubmitIsOneAttempt(Allow(w).value, call);
    }
  }

  /** Nothing, one denial, or one paid attempt; and a denial changes nothing. */
  ghost predicate PaidOutcome(w: World, w': World, outcome: Outcome) {
    && (Paid(w, w', 0) || Paid(w, w', 1))
    && (outcome.Success? && outcome.value.action != SkipAction ==> Paid(w, w', 1))
    && (outcome.Success? && outcome.value.action == SkipAction ==> Paid(w, w', 0))
    && (outcome.Success? && Denied(outcome.value) ==> w.limiter == Some(0) && w' == w)
  }

  lemma SettleIsPaid(cfg: Config, res: Resource, policy: Policy, w: World, obj: Object, host: Object, found: Option<Object>, verdict: Verdict)
    requires found.None? ==> verdict.MakeMirror?
    ensures var (w', outcome) := Settle(cfg, res, policy, w, obj, host, found, verdict); PaidOutcome(w, w', outcome)
  {
    hide CallFor, WriteOut, RefFor;
    if WantsWrite(verdict) {
      var ref := RefFor(cfg, res.kind, obj);
      WriteOutIsPaid(w, CallFor(cfg, res, policy, w.history, obj, host, found, verdict), host.meta.name, Tracks(res, verdict),
                     Decide(res, ref, host, SkipAction, RateLimited), Report(res, ref, host, verdict));
    }
  }

  /** Per pair: one denial leaves both stores and the history just as the others
      left them. */
  lemma ReconcileIsPaid(cfg: Config, res: Resource, policy: Policy, w: World, obj: Object, host: Object)
    ensures var (w', outcome) := Reconcile(cfg, res, policy, w, obj, host);
            PaidOutcome(Await(w).0, w', outcome) && (Paid(w, w', 0) || Paid(w, w', 1))
  {
    hide Judge, Settle, Await;
    AwaitIsFree(w);
    var w1 := Await(w).0;
    var found := w1.host.Lookup(KeyOf(host));
    JudgeFindsNothing(cfg, res, policy, w1.history, obj, host, found);
    SettleIsPaid(cfg, res, policy, w1, obj, host, found, Judge(cfg, res, policy, w1.history, obj, host, found));
  }

  /** From t to t', `n` decisions or errors were added, and as many attempts paid
      for as there are reported writes and failures that got so far. */
  ghost predicate Accounted(t: Tally, t': Tally, n: nat) {
    && t.decisions <= t'.decisions && t.errors <= t'.errors
    && |t'.decisions| + |t'.errors| == |t.decisions| + |t.errors| + n
    && Paid(t.w, t'.w, |t'.w.audit| - |t.w.audit|)
    && Writes(t'.decisions) - Writes(t.decisions) <= |t'.w.audit| - |t.w.audit|
    && |t'.w.audit| - |t.w.audit| <= Writes(t'.decisions) - Writes(t.decisions) + |t'.errors| - |t.errors|
  }

  lemma AccountedInTurn(a: Tally, b: Tally, c: Tally, m: nat, n: nat)
    requires Accounted(a, b, m) && Accounted(b, c, n)
    ensures Accounted(a, c, m + n)
  {
  }

  lemma OneMoreDecision(decisions: seq<Decision>, d: Decision)
    ensures Writes(decisions + [d]) == Writes(decisions) + (if d.action == SkipAction then 0 else 1)
  {
    assert (decisions + [d])[..|decisions|] == decisions;
  }

  lemma RunItemAccounts(cfg: Config, res: Resource, policy: Policy, t: Tally, obj: Object)
    ensures Accounted(t, RunItem(cfg, res, policy, t, obj), if Eligible(cfg, res, obj) then 1 else 0)
  {
    hide Desired, Reconcile, Eligible, Await;
    if Eligible(cfg, res, obj) && Desired(cfg, res, obj).Success? {
      var host := Desired(cfg, res, obj).value;
      ReconcileIsPaid(cfg, res, policy, t.w, obj, host);
      AwaitIsFree(t.w);
      var outcome := Reconcile(cfg, res, policy, t.w, obj, host).1;
      if outcome.Success? {
        OneMoreDecision(t.decisions, outcome.value);
      }
    }
  }

  lemma {:induction false} RunItemsAccount(cfg: Config, res: Resource, policy: Policy, t: Tally, items: seq<Object>)
    ensures Accounted(t, RunItems(cfg, res, policy, t, items), EligibleCount(cfg, res, items))
    decreases |items|
  {
    hide RunItem, Accounted, Eligible;
    if items == [] {
      NothingAccounted(t);
    } else {
      var t' := RunItem(cfg, res, policy, t, items[0]);
      RunItemAccounts(cfg, res, policy, t, items[0]);
      RunItemsAccount(cfg, res, policy, t', items[1..]);
      AccountedInTurn(t, t', RunItems(cfg, res, policy, t', items[1..]),
                      if Eligible(cfg, res, items[0]) then 1 else 0, EligibleCount(cfg, res, items[1..]));
    }
  }

  lemma NothingAccounted(t: Tally)
    ensures Accounted(t, t, 0)
  {
  }

  lemma CollectOneAccounts(res: Resource, policy: Policy, t: Tally, o: Object)
    ensures Accounted(t, CollectOne(res, policy, t, o), if o.meta.name in t.desired then 0 else 1)
    ensures CollectOne(res, policy, t, o).desired == t.desired
  {
    hide Submit, LookedUp;
    if o.meta.name !in t.desired && Allow(t.w).Some? {
      SubmitIsOneAttempt(Allow(t.w).value, Call(DeleteHost, o, o, Baseline(t.w.history, o.meta.name), res, policy));
      OneMoreDecision(t.decisions, Decide(res, LookedUp(o), o, DeleteAction, Orphaned));
    }
    OneMoreDecision(t.decisions, Decide(res, LookedUp(o), o, SkipAction, RateLimited));
  }

  lemma {:induction false} CollectOrphansAccounts(res: Resource, policy: Policy, t: Tally, hosts: seq<Object>)
    ensures Accounted(t, CollectOrphans(res, policy, t, hosts), OrphanCount(t.desired, hosts))
    decreases |hosts|
  {
    hide CollectOne, Accounted;
    if hosts == [] {
      NothingAccounted(t);
    } else {
      var t' := CollectOne(res, policy, t, hosts[0]);
      CollectOneAccounts(res, policy, t, hosts[0]);
      CollectOrphansAccounts(res, policy, t', hosts[1..]);
      AccountedInTurn(t, t', CollectOrphans(res, policy, t', hosts[1..]),
                      if hosts[0].meta.name in t.desired then 0 else 1, OrphanCount(t.desired, hosts[1..]));
    }
  }

  function PairTally(cfg: Config, res: Resource, policy: Policy, w: World, orders: Orders): Tally {
    RunItems(cfg, res, policy, Tally(AskTenant(w).0, [], [], {}), orders.items)
  }

  function OrphanTally(cfg: Config, res: Resource, policy: Policy, w: World, orders: Orders): Tally {
    var t := PairTally(cfg, res, policy, w, orders);
    CollectOrphans(res, policy, Tally(Await(t.w).0, [], [], t.desired), orders.hosts)
  }

  lemma AwaitIsFree(w: World)
    ensures Paid(w, Await(w).0, 0) && Paid(w, AskTenant(w).0, 0)
  {
  }

  /** Over a pass whose lists were served, each eligible object and each orphan
      gives exactly one decision or one error; the pass reports them all; and
      every attempt was paid for by one grant, in any interleaving. */
  lemma PassConserves(cfg: Config, res: Resource, policy: Policy, w: World, orders: Orders)
    ensures var r := SyncPass(cfg, res, policy, w, orders);
            var pairs, orphans := PairTally(cfg, res, policy, w, orders), OrphanTally(cfg, res, policy, w, orders);
            && Paid(w, r.w, |r.w.audit| - |w.audit|) && Writes(r.decisions) <= |r.w.audit| - |w.audit|
            && (AskTenant(w).1.fault == Served && Await(pairs.w).1.fault == Served ==>
                  && r.decisions == pairs.decisions + orphans.decisions
                  && |pairs.decisions| + |pairs.errors| == EligibleCount(cfg, res, orders.items)
                  && |orphans.decisions| + |orphans.errors| == OrphanCount(pairs.desired, orders.hosts)
                  && (r.error == None <==> pairs.errors == [] && orphans.errors == [])
                  && (r.error == None ==> |r.w.audit| - |w.audit| == Writes(r.decisions)))
  {
    hide RunItems, CollectOrphans, Await, AskTenant, Accounted;
    TalliesAccount(cfg, res, policy, w, orders);
    WritesAdd(PairTally(cfg, res, policy, w, orders).decisions, OrphanTally(cfg, res, policy, w, orders).decisions);
  }

  lemma TalliesAccount(cfg: Config, res: Resource, policy: Policy, w: World, orders: Orders)
    ensures var t, g := PairTally(cfg, res, policy, w, orders), OrphanTally(cfg, res, policy, w, orders);
            && |t.decisions| + |t.errors| == EligibleCount(cfg, res, orders.items)
            && |g.decisions| + |g.errors| == OrphanCount(t.desired, orders.hosts)
            && Paid(w, AskTenant(w).0, 0) && Paid(w, Await(t.w).0, |t.w.audit| - |w.audit|) && Paid(w, g.w, |g.w.audit| - |w.audit|)
            && |Await(t.w).0.audit| == |t.w.audit|
            && 0 <= |t.w.audit| - |w.audit| - Writes(t.decisions) <= |t.errors|
            && 0 <= |g.w.audit| - |t.w.audit| - Writes(g.decisions) <= |g.errors|
  {
    hide RunItems, CollectOrphans, Await, AskTenant;
    AwaitIsFree(w);
    var t0 := Tally(AskTenant(w).0, [], [], {});
    RunItemsAccount(cfg, res, policy, t0, orders.items);
    var t := RunItems(cfg, res, policy, t0, orders.items);
    AwaitIsFree(t.w);
    var g0 := Tally(Await(t.w).0, [], [], t.desired);
    CollectOrphansAccounts(res, policy, g0, orders.hosts);
    var g := CollectOrphans(res, policy, g0, orders.hosts);
    PaidInTurn(w, t0.w, t.w, 0, |t.w.audit| - |t0.w.audit|);
    PaidInTurn(w, t.w, g0.w, |t.w.audit| - |w.audit|, 0);
    PaidInTurn(w, g0.w, g.w, |g0.w.audit| - |w.audit|, |g.w.audit| - |g0.w.audit|);
  }

  lemma {:induction false} WritesAdd(a: seq<Decision>, b: seq<Decision>)
    ensures Writes(a + b) == Writes(a) + Writes(b)
    decreases |b|
  {
    if b == [] {
      assert a + b == a;
    } else {
      assert a + b == (a + b[..|b| - 1]) + [b[|b| - 1]];
      OneMoreDecision(a + b[..|b| - 1], b[|b| - 1]);
      WritesAdd(a, b[..|b| - 1]);
    }
  }

  lemma RunJobIsPaid(cfg: Config, policy: Policy, rec: Retention, p: Progress, job: Job)
    ensures var w := RunJob(cfg, policy, rec, p, job).w; Paid(p.w, w, |w.audit| - |p.w.audit|)
  {
    hide SyncPass, Await;
    if job.res.direction != Unsupported {
      PassConserves(cfg, job.res, PolicyFor(job.res, policy), p.w, job.orders);
      AwaitIsFree(SyncPass(cfg, job.res, PolicyFor(job.res, policy), p.w, job.orders).w);
    }
  }

  /** All resources of one run share one limiter: the writes attempted among all
      of them together never exceed its grants. */
  lemma {:induction false} RunIsPaid(cfg: Config, policy: Policy, rec: Retention, p: Progress, jobs: seq<Job>)
    ensures var w := RunJobs(cfg, policy, rec, p, jobs).w;
            && Paid(p.w, w, |w.audit| - |p.w.audit|)
            && (p.w.limiter.Some? ==> |w.audit| - |p.w.audit| <= p.w.limiter.value)
    decreases |jobs|
  {
    hide RunJob;
    if jobs != [] {
      var p' := RunJob(cfg, policy, rec, p, jobs[0]);
      RunJobIsPaid(cfg, policy, rec, p, jobs[0]);
      RunIsPaid(cfg, policy, rec, p', jobs[1..]);
      var w := RunJobs(cfg, policy, rec, p', jobs[1..]).w;
      PaidInTurn(p.w, p'.w, w, |p'.w.audit| - |p.w.audit|, |w.audit| - |p'.w.audit|);
    }
  }
}
