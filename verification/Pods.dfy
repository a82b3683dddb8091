/** What may change on a Pod that already runs: `adoptPodImmutableFields`,
    `overlayContainerImages` and `mergeTolerations` from
    internal/syncplan/transform.go. */
module Pods {
  import opened Objects
  import opened Wrappers

  function NameOf(container: Json): string {
    if container.Dict? && "name" in container.fields && container.fields["name"].Str?
    then container.fields["name"].s else ""
  }

  predicate GivesImage(container: Json) {
    NameOf(container) != "" && "image" in container.fields
  }

  /** The image wanted for each container name; of duplicates the last wins. */
  function DesiredImages(desired: seq<Json>): map<string, Json> {
    if desired == [] then map[]
    else
      var last := desired[|desired| - 1];
      var images := DesiredImages(desired[..|desired| - 1]);
      if GivesImage(last) then images[NameOf(last) := last.fields["image"]] else images
  }

  function OverlayImage(container: Json, images: map<string, Json>): Json {
    if container.Dict? && NameOf(container) in images
    then Dict(container.fields["image" := images[NameOf(container)]]) else container
  }

  function OverlayContainerImages(existing: seq<Json>, desired: seq<Json>): seq<Json> {
    seq(|existing|, i requires 0 <= i < |existing| => OverlayImage(existing[i], DesiredImages(desired)))
  }

  function MissingFrom(existing: seq<Json>, desired: seq<Json>): seq<Json> {
    if desired == [] then []
    else (if desired[0] in existing then [] else [desired[0]]) + MissingFrom(existing, desired[1..])
  }

  function MergeTolerations(existing: seq<Json>, desired: seq<Json>): seq<Json> {
    existing + MissingFrom(existing, desired)
  }

  function AdoptContainers(live: Fields, desired: Fields, key: string): Fields {
    match (NestedSlice(desired, key), NestedSlice(live, key))
    case (Some(wanted), Some(running)) => live[key := List(OverlayContainerImages(running, wanted))]
    case _ => live
  }

  function AdoptDeadline(live: Fields, desired: Fields): Fields {
    if "activeDeadlineSeconds" in desired && desired["activeDeadlineSeconds"].Int?
    then live["activeDeadlineSeconds" := desired["activeDeadlineSeconds"]] else live
  }

  function AdoptTolerations(live: Fields, desired: Fields): Fields {
    match NestedSlice(desired, "tolerations")
    case None => live
    case Some(wanted) =>
      var running := NestedSlice(live, "tolerations");
      live["tolerations" := List(MergeTolerations(if running.Some? then running.value else [], wanted))]
  }

  function AdoptSpec(live: Fields, desired: Fields): Fields {
    AdoptTolerations(
      AdoptDeadline(
        AdoptContainers(AdoptContainers(live, desired, "containers"), desired, "initContainers"),
        desired),
      desired)
  }

  function AdoptPod(existing: Fields, desired: Fields): Fields {
    match NestedMap(existing, "spec")
    case None => desired
    case Some(live) =>
      var wanted := NestedMap(desired, "spec");
      desired["spec" := Dict(AdoptSpec(live, if wanted.Some? then wanted.value else map[]))]
  }

  // ---- the loops ----

  /** internal/syncplan/transform.go:200-230. */
  method OverlayImages(existing: seq<Json>, desired: seq<Json>) returns (out: seq<Json>)
    ensures out == OverlayContainerImages(existing, desired)
  {
    var desiredImages: map<string, Json> := map[];
    for i := 0 to |desired|
      invariant desiredImages == DesiredImages(desired[..i])
    {
      assert desired[..i + 1][..i] == desired[..i];
      var c := desired[i];
      if c.Dict? {
        var name := NameOf(c);
        if name != "" && "image" in c.fields {
          desiredImages := desiredImages[name := c.fields["image"]];
        }
      }
    }
    assert desired[..|desired|] == desired;
    out := [];
    for i := 0 to |existing|
      invariant |out| == i
      invariant forall j :: 0 <= j < i ==> out[j] == OverlayImage(existing[j], desiredImages)
    {
      var c := existing[i];
      if c.Dict? {
        var name := NameOf(c);
        if name in desiredImages {
          c := Dict(c.fields["image" := desiredImages[name]]);
        }
      }
      out := out + [c];
    }
  }

  /** internal/syncplan/transform.go:235-250: each wanted toleration is compared
      with the running ones only, not with those already appended. */
  method AppendTolerations(existing: seq<Json>, desired: seq<Json>) returns (out: seq<Json>)
    ensures out == MergeTolerations(existing, desired)
  {
    out := existing;
    for i := 0 to |desired|
      invariant out + MissingFrom(existing, desired[i..]) == MergeTolerations(existing, desired)
    {
      assert desired[i..][1..] == desired[i + 1..];
      var dup := false;
      for j := 0 to |existing|
        invariant !dup
        invariant desired[i] !in existing[..j]
      {
        if desired[i] == existing[j] {
          dup := true;
          break;
        }
      }
      assert dup <==> desired[i] in existing;
      if !dup {
        out := out + [desired[i]];
      }
    }
    assert desired[|desired|..] == [];
  }

  // ---- laws ----

  /** The same container, but for its image. */
  predicate SameButImage(before: Json, after: Json) {
    before == after
    || (before.Dict? && after.Dict? && before.fields - {"image"} == after.fields - {"image"}
        && NameOf(before) == NameOf(after) && NameOf(before) != "" && "image" in after.fields)
  }

  predicate HasImage(container: Json, image: Json) {
    container.Dict? && "image" in container.fields && container.fields["image"] == image
  }

  lemma {:induction false} ImagesHaveNames(desired: seq<Json>)
    ensures "" !in DesiredImages(desired)
    ensures forall name :: name in DesiredImages(desired) <==>
      exists i :: 0 <= i < |desired| && GivesImage(desired[i]) && NameOf(desired[i]) == name
  {
    if desired != [] {
      ImagesHaveNames(desired[..|desired| - 1]);
    }
  }

  /** The container that has the say about a name: the last to give it an image. */
  predicate LastToGive(desired: seq<Json>, i: int, name: string) {
    && 0 <= i < |desired| && GivesImage(desired[i]) && NameOf(desired[i]) == name
    && forall j :: i < j < |desired| && GivesImage(desired[j]) ==> NameOf(desired[j]) != name
  }

  /** Each wanted image is the one that the last container of that name gives. */
  lemma {:induction false} LastImageWins(desired: seq<Json>, name: string)
    requires name in DesiredImages(desired)
    ensures exists i :: LastToGive(desired, i, name) && desired[i].fields["image"] == DesiredImages(desired)[name]
  {
    var n := |desired| - 1;
    var init := desired[..n];
    if GivesImage(desired[n]) && NameOf(desired[n]) == name {
      assert LastToGive(desired, n, name);
    } else {
      LastImageWins(init, name);
      var i :| LastToGive(init, i, name) && init[i].fields["image"] == DesiredImages(init)[name];
      assert forall j :: 0 <= j < n ==> desired[j] == init[j];
      assert LastToGive(desired, i, name);
    }
  }

  lemma OverlayImageLaws(container: Json, images: map<string, Json>)
    requires "" !in images
    ensures var c := OverlayImage(container, images);
            && SameButImage(container, c)
            && OverlayImage(c, images) == c
            && (NameOf(container) in images ==> HasImage(c, images[NameOf(container)]))
            && (NameOf(container) !in images ==> c == container)
  {
    assert |"name"| != |"image"|;
    if container.Dict? && NameOf(container) in images {
      var fields := container.fields["image" := images[NameOf(container)]];
      assert fields - {"image"} == container.fields - {"image"};
      assert NameOf(Dict(fields)) == NameOf(container);
      assert fields["image" := images[NameOf(container)]] == fields;
    }
  }

  /** Containers keep their names, number and order; each takes the image wanted
      for its name, and nothing else changes. Doing it twice changes no more. */
  lemma OverlayTouchesImagesOnly(existing: seq<Json>, desired: seq<Json>)
    ensures var out := OverlayContainerImages(existing, desired);
            var images := DesiredImages(desired);
            && |out| == |existing|
            && (forall i :: 0 <= i < |out| ==>
                  && SameButImage(existing[i], out[i])
                  && (NameOf(existing[i]) in images ==> HasImage(out[i], images[NameOf(existing[i])]))
                  && (NameOf(existing[i]) !in images ==> out[i] == existing[i]))
            && OverlayContainerImages(out, desired) == out
  {
    ImagesHaveNames(desired);
    forall c: Json
      ensures NameOf(c) in DesiredImages(desired) ==> c.Dict?
      ensures SameButImage(c, OverlayImage(c, DesiredImages(desired)))
    {
      OverlayImageLaws(c, DesiredImages(desired));
    }
    forall i | 0 <= i < |existing| {
      OverlayImageLaws(existing[i], DesiredImages(desired));
    }
  }

  lemma {:induction false} NothingMissing(existing: seq<Json>, desired: seq<Json>)
    requires forall d :: d in desired ==> d in existing
    ensures MissingFrom(existing, desired) == []
  {
    if desired != [] {
      NothingMissing(existing, desired[1..]);
    }
  }

  lemma {:induction false} MissingCovers(existing: seq<Json>, desired: seq<Json>)
    ensures forall d :: d in desired ==> d in existing || d in MissingFrom(existing, desired)
    ensures forall d :: d in MissingFrom(existing, desired) ==> d in desired && d !in existing
  {
    if desired != [] {
      MissingCovers(existing, desired[1..]);
    }
  }

  lemma {:induction false} MissingCounts(existing: seq<Json>, desired: seq<Json>, d: Json)
    ensures multiset(MissingFrom(existing, desired))[d] == if d in existing then 0 else multiset(desired)[d]
  {
    if desired != [] {
      MissingCounts(existing, desired[1..], d);
      assert desired == [desired[0]] + desired[1..];
    }
  }

  /** Exactly how often each toleration occurs in the result: what was running as
      often as it was, anything new as often as it is wanted. */
  lemma MergeTolerationsCounts(existing: seq<Json>, desired: seq<Json>, d: Json)
    ensures multiset(MergeTolerations(existing, desired))[d]
         == if d in existing then multiset(existing)[d] else multiset(desired)[d]
  {
    MissingCounts(existing, desired, d);
  }

  /** Running tolerations stay in front, untouched; everything wanted is there,
      nothing else is added, and merging again adds nothing, even when the
      wanted list repeats itself. */
  lemma MergeTolerationsLaws(existing: seq<Json>, desired: seq<Json>)
    ensures var out := MergeTolerations(existing, desired);
            && existing <= out
            && (forall d :: d in out <==> d in existing || d in desired)
            && MergeTolerations(out, desired) == out
  {
    MissingCovers(existing, desired);
    NothingMissing(MergeTolerations(existing, desired), desired);
  }

  /** The fields of a running Pod's spec that a push may touch. */
  predicate IsMutable(k: string) {
    k == "containers" || k == "initContainers" || k == "activeDeadlineSeconds" || k == "tolerations"
  }

  lemma MutableKeysDiffer()
    ensures |"containers"| == 10 && |"initContainers"| == 14 && |"activeDeadlineSeconds"| == 21 && |"tolerations"| == 11
  {
  }

  function Items(o: Option<seq<Json>>): seq<Json> {
    if o.Some? then o.value else []
  }

  /** Adoption reads and writes each mutable field by itself. */
  lemma AdoptSpecByField(live: Fields, desired: Fields)
    ensures var out := AdoptSpec(live, desired);
            && (forall k :: !IsMutable(k) ==> (k in out <==> k in live) && (k in live ==> out[k] == live[k]))
            && (forall k :: k == "containers" || k == "initContainers" ==>
                  if NestedSlice(live, k).Some? && NestedSlice(desired, k).Some?
                  then NestedSlice(out, k) == Some(OverlayContainerImages(NestedSlice(live, k).value, NestedSlice(desired, k).value))
                  else (k in out <==> k in live) && (k in live ==> out[k] == live[k]))
            && (var k := "activeDeadlineSeconds";
                if k in desired && desired[k].Int? then k in out && out[k] == desired[k]
                else (k in out <==> k in live) && (k in live ==> out[k] == live[k]))
            && (var k := "tolerations";
                if NestedSlice(desired, k).Some?
                then NestedSlice(out, k) == Some(MergeTolerations(Items(NestedSlice(live, k)), NestedSlice(desired, k).value))
                else (k in out <==> k in live) && (k in live ==> out[k] == live[k]))
  {
    MutableKeysDiffer();
  }

  /** Re-applying the same wanted spec to the adopted one changes nothing. */
  lemma AdoptSpecIdempotent(live: Fields, desired: Fields)
    ensures AdoptSpec(AdoptSpec(live, desired), desired) == AdoptSpec(live, desired)
  {
    var once := AdoptSpec(live, desired);
    var twice := AdoptSpec(once, desired);
    AdoptSpecByField(live, desired);
    AdoptSpecByField(once, desired);
    OverlayTouchesImagesOnly(Items(NestedSlice(live, "containers")), Items(NestedSlice(desired, "containers")));
    OverlayTouchesImagesOnly(Items(NestedSlice(live, "initContainers")), Items(NestedSlice(desired, "initContainers")));
    MergeTolerationsLaws(Items(NestedSlice(live, "tolerations")), Items(NestedSlice(desired, "tolerations")));
    forall k
      ensures k in twice <==> k in once
      ensures k in once ==> twice[k] == once[k]
    {
      if k == "containers" || k == "initContainers" {
      } else if k == "activeDeadlineSeconds" || k == "tolerations" {
      }
    }
  }

  /** Same containers, but for their images. */
  predicate SameButImages(before: seq<Json>, after: seq<Json>) {
    |before| == |after| && forall i :: 0 <= i < |before| ==> SameButImage(before[i], after[i])
  }

  /** Adopting a running Pod touches nothing but container images, the deadline
      and added tolerations: every other field of the live spec, nodeName and
      runtimeClassName among them, is written back as it was. Adopting the same
      wish again changes nothing. */
  lemma AdoptPodTouchesMutableFieldsOnly(existing: Fields, desired: Fields)
    requires NestedMap(existing, "spec").Some?
    ensures var adopted := AdoptPod(existing, desired);
            && NestedMap(adopted, "spec").Some?
            && var live, spec := existing["spec"].fields, adopted["spec"].fields;
               && (forall k :: !IsMutable(k) ==> SameAt(live, spec, k))
               && (forall k :: (k == "containers" || k == "initContainers") && NestedSlice(live, k).Some? ==>
                     NestedSlice(spec, k).Some? && SameButImages(NestedSlice(live, k).value, NestedSlice(spec, k).value))
               && (NestedSlice(live, "tolerations").Some? ==>
                     NestedSlice(spec, "tolerations").Some? && NestedSlice(live, "tolerations").value <= NestedSlice(spec, "tolerations").value)
               && (forall k :: k != "spec" ==> SameAt(desired, adopted, k))
               && AdoptPod(adopted, desired) == adopted
  {
    hide AdoptSpec, OverlayContainerImages, MergeTolerations;
    var wanted := NestedMap(desired, "spec");
    var spec := if wanted.Some? then wanted.value else map[];
    var live := existing["spec"].fields;
    AdoptSpecByField(live, spec);
    AdoptSpecIdempotent(live, spec);
    MutableKeysDiffer();
    OverlayTouchesImagesOnly(Items(NestedSlice(live, "containers")), Items(NestedSlice(spec, "containers")));
    OverlayTouchesImagesOnly(Items(NestedSlice(live, "initContainers")), Items(NestedSlice(spec, "initContainers")));
    MergeTolerationsLaws(Items(NestedSlice(live, "tolerations")), Items(NestedSlice(spec, "tolerations")));
  }
}
