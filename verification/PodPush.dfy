/** When a push makes a Pod agree: exactly when the live spec and the wanted one
    differ in nothing but what a running Pod lets change. */
module PodPush {
  import opened Calm
  import opened Cluster
  import opened Drift
  import opened Engine
  import HostNames
  import opened Objects
  import opened PassSafety
  import opened PodDrift
  import opened Pods
  import opened Safety
  import opened Transform
  import opened Wrappers

  /** Container by container the same, but that each wanted one has the image that
      the wanted list gives its name. */
  predicate OnlyImagesDiffer(live: seq<Json>, want: seq<Json>) {
    && |live| == |want|
    && forall i :: 0 <= i < |live| ==>
         if NameOf(live[i]) in DesiredImages(want)
         then SameButImage(live[i], want[i]) && HasImage(want[i], DesiredImages(want)[NameOf(live[i])])
         else want[i] == live[i]
  }

  /** The wanted list is the running one, followed by new ones. */
  predicate OnlyAppended(live: seq<Json>, want: seq<Json>) {
    live <= want && forall i :: |live| <= i < |want| ==> want[i] !in live
  }

  /** The specs differ in same-named images, the deadline and appended tolerations
      at most. */
  ghost predicate Reconcilable(live: Fields, want: Fields) {
    && (forall k :: !IsMutable(k) ==> SameAt(live, want, k))
    && (forall k :: k == "containers" || k == "initContainers" ==>
          if NestedSlice(live, k).Some? && NestedSlice(want, k).Some?
          then OnlyImagesDiffer(NestedSlice(live, k).value, NestedSlice(want, k).value)
          else SameAt(live, want, k))
    && (("activeDeadlineSeconds" in want && want["activeDeadlineSeconds"].Int?) || SameAt(live, want, "activeDeadlineSeconds"))
    && (if NestedSlice(want, "tolerations").Some?
        then OnlyAppended(Items(NestedSlice(live, "tolerations")), NestedSlice(want, "tolerations").value)
        else SameAt(live, want, "tolerations"))
  }

  lemma OverlaySettlesIff(live: seq<Json>, want: seq<Json>)
    ensures OverlayContainerImages(live, want) == want <==> OnlyImagesDiffer(live, want)
  {
    var out, images := OverlayContainerImages(live, want), DesiredImages(want);
    OverlayTouchesImagesOnly(live, want);
    if OnlyImagesDiffer(live, want) {
      forall i | 0 <= i < |live|
        ensures out[i] == want[i]
      {
        if NameOf(live[i]) in images {
          OneImage(live[i], out[i], want[i], images[NameOf(live[i])]);
        }
      }
      assert out == want;
    }
  }

  lemma OneImage(live: Json, a: Json, b: Json, image: Json)
    requires SameButImage(live, a) && SameButImage(live, b) && HasImage(a, image) && HasImage(b, image)
    ensures a == b
  {
    if live == a && live == b {
    } else {
      assert a.fields == (a.fields - {"image"})["image" := image];
      assert b.fields == (b.fields - {"image"})["image" := image];
    }
  }

  lemma {:induction false} MissingAppends(existing: seq<Json>, a: seq<Json>, b: seq<Json>)
    ensures MissingFrom(existing, a + b) == MissingFrom(existing, a) + MissingFrom(existing, b)
    decreases |a|
  {
    if a == [] {
      assert a + b == b;
    } else {
      assert (a + b)[1..] == a[1..] + b;
      MissingAppends(existing, a[1..], b);
    }
  }

  lemma {:induction false} AllMissing(existing: seq<Json>, desired: seq<Json>)
    requires forall d :: d in desired ==> d !in existing
    ensures MissingFrom(existing, desired) == desired
  {
    if desired != [] {
      AllMissing(existing, desired[1..]);
    }
  }

  lemma MissingAllIff(existing: seq<Json>, desired: seq<Json>)
    ensures MissingFrom(existing, desired) == desired <==> forall d :: d in desired ==> d !in existing
  {
    MissingCovers(existing, desired);
    if forall d :: d in desired ==> d !in existing {
      AllMissing(existing, desired);
    }
  }

  lemma MergeSettlesIff(live: seq<Json>, want: seq<Json>)
    ensures MergeTolerations(live, want) == want <==> OnlyAppended(live, want)
  {
    hide MissingFrom;
    if live <= want {
      var rest := want[|live|..];
      MissingAppends(live, live, rest);
      NothingMissing(live, live);
      MissingAllIff(live, rest);
      assert want == live + rest;
      assert MergeTolerations(live, want) == live + MissingFrom(live, rest);
      RestIsNew(live, want);
    }
  }

  lemma RestIsNew(live: seq<Json>, want: seq<Json>)
    requires live <= want
    ensures OnlyAppended(live, want) <==> forall d :: d in want[|live|..] ==> d !in live
    ensures forall rest: seq<Json> :: live + rest == want <==> rest == want[|live|..]
  {
    forall i | |live| <= i < |want|
      ensures want[i] in want[|live|..]
    {
      assert want[i] == want[|live|..][i - |live|];
    }
    assert forall rest: seq<Json> :: (live + rest)[|live|..] == rest;
    assert live + want[|live|..] == want;
  }

  lemma SameAts(a: Fields, b: Fields)
    requires forall k :: SameAt(a, b, k)
    ensures a == b
  {
    assert forall k :: k in a ==> SameAt(a, b, k);
    assert forall k :: k in b ==> SameAt(a, b, k);
  }

  lemma SliceIsField(a: Fields, b: Fields, k: string)
    requires NestedSlice(a, k).Some? && NestedSlice(a, k) == NestedSlice(b, k)
    ensures SameAt(a, b, k)
  {
  }

  /** Adoption gives back the wanted spec exactly when nothing else differs. */
  lemma AdoptSettlesIff(live: Fields, want: Fields)
    ensures AdoptSpec(live, want) == want <==> Reconcilable(live, want)
  {
    hide AdoptSpec, OverlayContainerImages, MergeTolerations, OnlyImagesDiffer, OnlyAppended;
    var out := AdoptSpec(live, want);
    AdoptSpecByField(live, want);
    MutableKeysDiffer();
    OverlaySettlesIff(Items(NestedSlice(live, "containers")), Items(NestedSlice(want, "containers")));
    OverlaySettlesIff(Items(NestedSlice(live, "initContainers")), Items(NestedSlice(want, "initContainers")));
    MergeSettlesIff(Items(NestedSlice(live, "tolerations")), Items(NestedSlice(want, "tolerations")));
    if Reconcilable(live, want) {
      forall k
        ensures SameAt(out, want, k)
      {
        if NestedSlice(out, k).Some? && NestedSlice(out, k) == NestedSlice(want, k) {
          SliceIsField(out, want, k);
        } else if IsMutable(k) {
          assert k == "containers" || k == "initContainers" || k == "activeDeadlineSeconds" || k == "tolerations";
        }
      }
      SameAts(out, want);
    }
  }

  // ---- whole Pods ----

  const CLASS := "runtimeClassName"

  function SpecOf(o: Object): Fields {
    match NestedMap(o.body, "spec")
    case Some(spec) => spec
    case None => map[]
  }

  lemma ClassIsNotMutable()
    ensures !IsMutable(CLASS) && "spec" !in HEADER && |"Pod"| != |"Service"|
  {
    PodClassIsNotMutable();
    HeaderKeys();
  }

  /** Adoption takes the class from the running spec, whatever class is wanted. */
  lemma ClassComesFromLive(live: Fields, want: Fields, class_: Json)
    ensures AdoptSpec(live, want[CLASS := class_]) - {CLASS} == AdoptSpec(live - {CLASS}, want)
  {
    hide AdoptSpec, OverlayContainerImages, MergeTolerations;
    ClassIsNotMutable();
    MutableKeysDiffer();
    var want' := want[CLASS := class_];
    AdoptSpecByField(live, want');
    AdoptSpecByField(live - {CLASS}, want);
    var a, b := AdoptSpec(live, want') - {CLASS}, AdoptSpec(live - {CLASS}, want);
    forall k
      ensures SameAt(a, b, k)
    {
      if IsMutable(k) {
        assert NestedSlice(want', k) == NestedSlice(want, k) && NestedSlice(live - {CLASS}, k) == NestedSlice(live, k);
        if NestedSlice(a, k).Some? && NestedSlice(a, k) == NestedSlice(b, k) {
          SliceIsField(a, b, k);
        } else {
          assert k == "containers" || k == "initContainers" || k == "activeDeadlineSeconds" || k == "tolerations";
        }
      }
    }
    SameAts(a, b);
  }

  lemma ContentByField(a: Object, b: Object)
    requires a.Kind() == b.Kind() == "Pod"
    ensures ContentEqual(a, b) <==> forall k :: k !in HEADER ==> SameAt(a.body, b.body, k)
  {
    ClassIsNotMutable();
    assert ContentOf(a) == ContentFrom(a.body) && ContentOf(b) == ContentFrom(b.body);
    if forall k :: k !in HEADER ==> SameAt(a.body, b.body, k) {
      forall k
        ensures SameAt(ContentFrom(a.body), ContentFrom(b.body), k)
      {
      }
      SameAts(ContentFrom(a.body), ContentFrom(b.body));
    } else {
      var k :| k !in HEADER && !SameAt(a.body, b.body, k);
      assert !SameAt(ContentFrom(a.body), ContentFrom(b.body), k);
    }
  }

  lemma DesiredPodBody(cfg: Config, res: Resource, obj: Object)
    requires Desired(cfg, res, obj).Success? && res.kind == "Pod"
    ensures var d := Desired(cfg, res, obj).value;
            && (forall k :: k !in HEADER && k != "spec" ==> SameAt(obj.body, d.body, k))
            && SpecOf(d) == if cfg.runtimeClass == "" then SpecOf(obj) else SpecOf(obj)[CLASS := Str(cfg.runtimeClass)]
  {
    hide HostNames.HostName, HostNames.Explain, HostLabels, HostAnnotations;
    HeaderKeys();
    ClassIsNotMutable();
  }

  lemma AdoptedPodBody(existing: Object, desired: Object)
    requires existing.Kind() == "Pod" && NestedMap(existing.body, "spec").Some?
    ensures Adopt(existing, desired).body == desired.body["spec" := Dict(AdoptSpec(SpecOf(existing), SpecOf(desired)))]
  {
    hide AdoptSpec;
    ClassIsNotMutable();
  }

  lemma ComparablePodBody(cfg: Config, o: Object)
    requires NestedMap(o.body, "spec").Some?
    ensures Comparable(cfg, "Pod", o).body
         == o.body["spec" := Dict(if cfg.runtimeClass == "" then SpecOf(o) else SpecOf(o) - {CLASS})]
  {
  }

  /** A push to a running Pod makes the two agree exactly when the specs, the
      required class apart, differ in nothing other than same-named images, the
      deadline and tolerations appended to the running ones. */
  lemma PodPushAgreesIff(cfg: Config, res: Resource, obj: Object, existing: Object)
    requires Desired(cfg, res, obj).Success? && obj.Kind() == existing.Kind() == res.kind == "Pod"
    requires NestedMap(existing.body, "spec").Some?
    ensures var pushed := Adopt(existing, Desired(cfg, res, obj).value.WithVersion(existing.meta.version));
            (ContentEqual(obj, Comparable(cfg, "Pod", pushed))
             <==> NestedMap(obj.body, "spec").Some? && Reconcilable(SpecOf(Comparable(cfg, "Pod", existing)), SpecOf(obj)))
  {
    hide Desired, Adopt, Comparable, ContentOf, AdoptSpec, Reconcilable, HEADER;
    var desired := Desired(cfg, res, obj).value.WithVersion(existing.meta.version);
    var pushed := Adopt(existing, desired);
    var live, want := SpecOf(existing), SpecOf(obj);
    DesiredPodBody(cfg, res, obj);
    AdoptedPodBody(existing, desired);
    ComparablePodBody(cfg, pushed);
    ComparablePodBody(cfg, existing);
    PushedKind(cfg, res, obj, existing);
    ContentByField(obj, Comparable(cfg, "Pod", pushed));
    ClassComesFromLive(live, want, Str(cfg.runtimeClass));
    AdoptSettlesIff(SpecOf(Comparable(cfg, "Pod", existing)), want);
    ClassIsNotMutable();
    PodFields(obj, Comparable(cfg, "Pod", pushed), AdoptSpec(SpecOf(Comparable(cfg, "Pod", existing)), want));
  }

  lemma PodFields(obj: Object, c: Object, spec: Fields)
    requires forall k :: k !in HEADER && k != "spec" ==> SameAt(obj.body, c.body, k)
    requires "spec" !in HEADER && NestedMap(c.body, "spec") == Some(spec)
    ensures (forall k :: k !in HEADER ==> SameAt(obj.body, c.body, k)) <==> NestedMap(obj.body, "spec") == Some(spec)
  {
    hide HEADER;
    assert SameAt(obj.body, c.body, "spec") <==> NestedMap(obj.body, "spec") == Some(spec);
  }

  lemma PushedKind(cfg: Config, res: Resource, obj: Object, existing: Object)
    requires Desired(cfg, res, obj).Success? && obj.Kind() == existing.Kind() == res.kind == "Pod"
    ensures Comparable(cfg, "Pod", Adopt(existing, Desired(cfg, res, obj).value.WithVersion(existing.meta.version))).Kind() == "Pod"
  {
    hide Desired, Adopt, Comparable;
    AdoptKeepsHeader(existing, Desired(cfg, res, obj).value.WithVersion(existing.meta.version));
    DesiredKind(cfg, res, obj);
    ComparableKeepsMeta(cfg, "Pod", Adopt(existing, Desired(cfg, res, obj).value.WithVersion(existing.meta.version)));
  }

  lemma DesiredKind(cfg: Config, res: Resource, obj: Object)
    requires Desired(cfg, res, obj).Success?
    ensures Desired(cfg, res, obj).value.Kind() == res.kind
  {
    hide BuildHostObject;
    HeaderKeys();
  }

  // ---- what follows for the conflict switch ----

  /** Equal contents compare equally. */
  lemma ComparableByContent(cfg: Config, a: Object, b: Object)
    requires a.Kind() == b.Kind() == "Pod" && ContentEqual(a, b)
    ensures ContentEqual(Comparable(cfg, "Pod", a), Comparable(cfg, "Pod", b))
  {
    hide ContentOf;
    ComparableKeepsMeta(cfg, "Pod", a);
    ComparableKeepsMeta(cfg, "Pod", b);
    ClassIsNotMutable();
    ContentByField(a, b);
    assert SameAt(a.body, b.body, "spec");
    ContentByField(Comparable(cfg, "Pod", a), Comparable(cfg, "Pod", b));
  }

  lemma VerdictOnUnmoved(cfg: Config, res: Resource, history: History, obj: Object, host: Object, existing: Object)
    requires res.direction == Bidirectional && Ours(cfg, res, obj, existing)
    requires Baseline(history, host.meta.name) == Some(Converged(obj.meta.version, existing.meta.version))
    ensures Judge(cfg, res, Manual, history, obj, host, Some(existing))
         == if ContentEqual(obj, Comparable(cfg, res.kind, existing)) then Agree else Hold
  {
    hide ReverseLookup, ContentOf, Comparable;
  }

  /** So after a push under "tenant-wins" the baseline names the two versions that
      stand, and "manual" then finds the Pods agreed if and only if the specs were
      reconcilable; else it holds them, though neither has changed since. */
  lemma PushedPodAgreesOrIsHeld(cfg: Config, res: Resource, w: World, obj: Object, existing: Object)
    requires WellNamed(cfg) && IsCalm(w) && w.limiter != Some(0) && res.kind == "Pod" && res.direction == Bidirectional
    requires Wanted(cfg, res, obj) && w.tenant.Lookup(KeyOf(obj)) == Some(obj)
    requires w.host.Lookup(MirrorKey(cfg, res, obj)) == Some(existing) && Ours(cfg, res, obj, existing)
    requires NestedMap(existing.body, "spec").Some? && !ContentEqual(obj, Comparable(cfg, res.kind, existing))
    ensures var host := Desired(cfg, res, obj).value;
            var w' := Reconcile(cfg, res, TenantWins, w, obj, host).0;
            && w'.tenant == w.tenant && Baselined(cfg, res, w', KeyOf(obj), MirrorKey(cfg, res, obj))
            && var pushed := w'.host.objects[MirrorKey(cfg, res, obj)];
               Judge(cfg, res, Manual, w'.history, obj, host, Some(pushed))
               == if NestedMap(obj.body, "spec").Some? && Reconcilable(SpecOf(Comparable(cfg, "Pod", existing)), SpecOf(obj)) then Agree else Hold
  {
    hide Desired, Eligible, HostNames.HostName, ReverseLookup, ContentOf, Judge, Reconcile, IsCalm, Comparable, Adopt, Reconcilable, Takes, SpecOf;
    var host := Desired(cfg, res, obj).value;
    DesiredKey(cfg, res, obj);
    DesiredIsOurs(cfg, res, obj);
    assert existing.Kind() == "Pod" by { CalmStores(w); }
    UnpushableVerdicts(cfg, res, w.history, obj, host, existing);
    SettledPairIsBaselined(cfg, res, TenantWins, w, obj);
    PushRewrites(cfg, res, w, obj, existing);
    var w' := Reconcile(cfg, res, TenantWins, w, obj, host).0;
    var sent := Adopt(existing, host.WithVersion(existing.meta.version));
    AdoptKeepsHeader(existing, host.WithVersion(existing.meta.version));
    assert KeyOf(sent) == MirrorKey(cfg, res, obj);
    var pushed := w'.host.objects[MirrorKey(cfg, res, obj)];
    StampedView(host, pushed);
    ComparableByContent(cfg, sent, pushed);
    PodPushAgreesIff(cfg, res, obj, existing);
    VerdictOnUnmoved(cfg, res, w'.history, obj, host, pushed);
  }
}
