/** The transformations as they are performed: on objects updated in place, with
    their loops (internal/syncplan/transform.go). */
module TransformOps {
  import opened FieldLaws
  import opened HostNames
  import opened Objects
  import Pods
  import opened Transform
  import T = Transform
  import opened Wrappers

  /** Overlay wins; the base is never shared. */
  method MergeMap<V>(base: map<string, V>, overlay: map<string, V>) returns (merged: map<string, V>)
    ensures merged == base + overlay
  {
    merged := base;
    var left := overlay.Keys;
    while left != {}
      invariant left <= overlay.Keys
      invariant merged == base + (map k | k in overlay && k !in left :: overlay[k])
      decreases left
    {
      var k :| k in left;
      merged := merged[k := overlay[k]];
      left := left - {k};
    }
    assert (map k | k in overlay && k !in left :: overlay[k]) == overlay;
  }

  class Unstructured {
    var obj: Object

    constructor (o: Object)
      ensures obj == o
    {
      obj := o;
    }

    /** A deep copy shares nothing with the original. */
    method DeepCopy() returns (copy: Unstructured)
      ensures fresh(copy) && copy.obj == obj
    {
      copy := new Unstructured(obj);
    }

    /** transform.go:113-130. */
    method StripHostAllocatedSpecFields(kind: string)
      modifies this
      ensures obj == old(obj).(body := Strip(kind, old(obj).body))
      ensures if kind == "Service" then Unaddressed(old(obj).body, obj.body) else obj == old(obj)
    {
      hide Unaddressed;
      StripFieldByField(kind, obj.body);
      if kind != "Service" {
        return;
      }
      var found := NestedMap(obj.body, "spec");
      if found.None? {
        return;
      }
      var spec := found.value;
      for i := 0 to |ALLOCATED|
        invariant spec == map k | k in found.value && k !in ALLOCATED[..i] :: found.value[k]
      {
        assert ALLOCATED[..i + 1] == ALLOCATED[..i] + [ALLOCATED[i]];
        spec := spec - {ALLOCATED[i]};
      }
      assert ALLOCATED[..|ALLOCATED|] == ALLOCATED;
      var ports := NestedSlice(spec, "ports");
      if ports.Some? {
        var stripped := StripPortsInPlace(ports.value);
        spec := spec["ports" := List(stripped)];
      }
      obj := obj.(body := obj.body["spec" := Dict(spec)]);
    }

    static method StripPortsInPlace(ports: seq<Json>) returns (out: seq<Json>)
      ensures out == StripPorts(ports)
    {
      out := ports;
      for i := 0 to |ports|
        invariant |out| == |ports|
        invariant forall j :: 0 <= j < i ==> out[j] == StripPort(ports[j])
        invariant forall j :: i <= j < |ports| ==> out[j] == ports[j]
      {
        if out[i].Dict? {
          out := out[i := Dict(out[i].fields - {"nodePort"})];
        }
      }
    }

    /** transform.go:76-98: the input is never mutated. */
    static method BuildHostObject(ref: ResourceRef, tenant: Unstructured?) returns (host: Unstructured?, error: Option<PlanError>)
      ensures tenant == null ==> host == null
      ensures tenant != null ==>
        match T.BuildHostObject(ref, tenant.obj)
        case Failure(e) => host == null && error == Some(e)
        case Success(o) => host != null && fresh(host) && host.obj == o && error == None
      ensures host != null ==> BuiltFrom(ref, tenant.obj, host.obj)
    {
      hide Strip, Explain, BuiltFrom;
      if tenant != null {
        BuildFieldByField(ref, tenant.obj);
      }
      host, error := null, None;
      if tenant == null {
        return;
      }
      var plan := Explain(ref);
      if plan.Failure? {
        error := Some(plan.error);
        return;
      }
      host := tenant.DeepCopy();
      host.RemoveHostManagedMetadata();
      host.obj := host.obj.(body := host.obj.body - {"status"});
      host.StripHostAllocatedSpecFields(ref.kind);
      var labels := MergeMap(host.obj.meta.labels, HostLabels(ref));
      var annotations := MergeMap(host.obj.meta.annotations, HostAnnotations(ref));
      host.obj := host.obj.(meta := host.obj.meta.(
        namespace := plan.value.namespace, name := plan.value.name, labels := labels, annotations := annotations));
    }

    method RemoveHostManagedMetadata()
      modifies this
      ensures obj == old(obj).(meta := old(obj).meta.(version := 0, rest := old(obj).meta.rest - HOST_MANAGED_METADATA))
    {
      var rest := obj.meta.rest;
      var left := HOST_MANAGED_METADATA;
      while left != {}
        invariant left <= HOST_MANAGED_METADATA
        invariant rest == old(obj).meta.rest - (HOST_MANAGED_METADATA - left)
        invariant obj == old(obj)
        decreases left
      {
        var field :| field in left;
        rest := rest - {field};
        left := left - {field};
      }
      obj := obj.(meta := obj.meta.(version := 0, rest := rest));
    }

    /** transform.go:138-158: `desired` takes over what the host owns, field by
        field; the live object stays as it is. */
    static method AdoptHostAllocatedFields(existing: Unstructured?, desired: Unstructured?)
      modifies if desired == null then {} else {desired}
      ensures existing != null && desired != null ==> desired.obj == Adopt(old(existing.obj), old(desired.obj))
      ensures existing == null && desired != null ==> desired.obj == old(desired.obj)
    {
      hide Pods.AdoptPod, AdoptService;
      if existing == null || desired == null {
        return;
      }
      if existing.obj.Kind() == "Service" {
        var body := AdoptServiceFields(existing.obj.body, desired.obj.body);
        desired.obj := desired.obj.(body := body);
      } else if existing.obj.Kind() == "Pod" {
        var body := AdoptPodFields(existing.obj.body, desired.obj.body);
        desired.obj := desired.obj.(body := body);
      }
    }

    static method AdoptServiceFields(existing: Fields, desired: Fields) returns (body: Fields)
      ensures body == AdoptService(existing, desired) && AdoptedFrom(existing, desired, body)
    {
      hide AdoptedFrom;
      ServiceAdoption(existing, desired);
      body := desired;
      var live := NestedMap(existing, "spec");
      if live.None? {
        return;
      }
      for i := 0 to |ALLOCATED|
        invariant body == AdoptSome(live.value, desired, ALLOCATED[..i])
      {
        AdoptOneMore(live.value, desired, ALLOCATED[..i], ALLOCATED[i]);
        assert ALLOCATED[..i + 1] == ALLOCATED[..i] + [ALLOCATED[i]];
        if ALLOCATED[i] in live.value {
          var set_ := SetSpecField(body, ALLOCATED[i], live.value[ALLOCATED[i]]);
          if set_.Some? {
            body := set_.value;
          }
        }
      }
      assert ALLOCATED[..|ALLOCATED|] == ALLOCATED;
      AdoptsAll(existing, live.value, desired);
    }

    /** transform.go:168-194. */
    static method AdoptPodFields(existing: Fields, desired: Fields) returns (body: Fields)
      ensures body == Pods.AdoptPod(existing, desired)
    {
      hide Pods.OverlayContainerImages, Pods.MergeTolerations;
      var live := NestedMap(existing, "spec");
      if live.None? {
        return desired;
      }
      var wanted := NestedMap(desired, "spec");
      var desiredSpec := if wanted.Some? then wanted.value else map[];
      var spec := AdoptContainersOf(live.value, desiredSpec, "containers");
      spec := AdoptContainersOf(spec, desiredSpec, "initContainers");
      if "activeDeadlineSeconds" in desiredSpec && desiredSpec["activeDeadlineSeconds"].Int? {
        spec := spec["activeDeadlineSeconds" := desiredSpec["activeDeadlineSeconds"]];
      }
      var tolerations := NestedSlice(desiredSpec, "tolerations");
      if tolerations.Some? {
        var running := NestedSlice(spec, "tolerations");
        var merged := Pods.AppendTolerations(if running.Some? then running.value else [], tolerations.value);
        spec := spec["tolerations" := List(merged)];
      }
      body := desired["spec" := Dict(spec)];
    }

    static method AdoptContainersOf(live: Fields, desired: Fields, key: string) returns (spec: Fields)
      ensures spec == Pods.AdoptContainers(live, desired, key)
    {
      hide Pods.OverlayContainerImages;
      spec := live;
      var wanted, running := NestedSlice(desired, key), NestedSlice(live, key);
      if wanted.Some? && running.Some? {
        var overlaid := Pods.OverlayImages(running.value, wanted.value);
        spec := live[key := List(overlaid)];
      }
    }

    /** transform.go:301-306: neither side is touched. */
    static method CompareContent(a: Unstructured, b: Unstructured) returns (equal: bool)
      ensures equal == ContentEqual(a.obj, b.obj)
      ensures (a.obj.Kind() == "Service" <==> b.obj.Kind() == "Service") ==> equal == SameContent(a.obj, b.obj)
    {
      hide Strip, SameContent;
      if a.obj.Kind() == "Service" <==> b.obj.Kind() == "Service" {
        ContentFieldByField(a.obj, b.obj);
      }
      var ac := a.DeepCopy();
      var bc := b.DeepCopy();
      ac.StripHostAllocatedSpecFields(a.obj.Kind());
      bc.StripHostAllocatedSpecFields(b.obj.Kind());
      equal := ContentFrom(ac.obj.body) == ContentFrom(bc.obj.body);
    }

    /** transform.go:317-328: the tenant's content fields are deleted one by one,
        then the host's are set one by one, on a copy. */
    static method MergeContent(hostObj: Unstructured, tenantObj: Unstructured) returns (merged: Unstructured)
      ensures fresh(merged) && merged.obj == MergeHostContentIntoTenant(hostObj.obj, tenantObj.obj)
      ensures MergedFrom(hostObj.obj, tenantObj.obj, merged.obj)
    {
      hide Strip, MergedFrom;
      MergeFieldByField(hostObj.obj, tenantObj.obj);
      merged := tenantObj.DeepCopy();
      var hostCopy := hostObj.DeepCopy();
      hostCopy.StripHostAllocatedSpecFields(hostObj.obj.Kind());
      var content := ContentFrom(hostCopy.obj.body);
      var body := RemoveKeys(merged.obj.body, ContentFrom(merged.obj.body).Keys);
      body := MergeMap(body, content);
      assert tenantObj.obj.body - ContentFrom(tenantObj.obj.body).Keys
          == map k | k in tenantObj.obj.body && k in HEADER :: tenantObj.obj.body[k];
      merged.obj := merged.obj.(body := body);
    }

    static method RemoveKeys(body: Fields, keys: set<string>) returns (out: Fields)
      ensures out == body - keys
    {
      out := body;
      var left := keys;
      while left != {}
        invariant left <= keys && out == body - (keys - left)
        decreases left
      {
        var k :| k in left;
        out := out - {k};
        left := left - {k};
      }
    }
  }

  /** What has been adopted once these fields have had their turn. */
  function AdoptSome(live: Fields, desired: Fields, fields: seq<string>): Fields {
    var found := map k | k in live && k in fields :: live[k];
    if found == map[] then desired
    else if "spec" !in desired then desired["spec" := Dict(found)]
    else if desired["spec"].Dict? then desired["spec" := Dict(desired["spec"].fields + found)]
    else desired
  }

  lemma AdoptOneMore(live: Fields, desired: Fields, fields: seq<string>, field: string)
    ensures AdoptSome(live, desired, fields + [field])
         == if field !in live then AdoptSome(live, desired, fields)
            else match SetSpecField(AdoptSome(live, desired, fields), field, live[field])
                 case Some(body) => body
                 case None => AdoptSome(live, desired, fields)
  {
    var before := map k | k in live && k in fields :: live[k];
    var after := map k | k in live && k in fields + [field] :: live[k];
    if field !in live {
      assert after == before;
    } else {
      assert after == before[field := live[field]];
      assert field in after;
      if "spec" in desired && desired["spec"].Dict? {
        assert desired["spec"].fields + after == (desired["spec"].fields + before)[field := live[field]];
        assert before == map[] ==> desired["spec"].fields + before == desired["spec"].fields;
      }
    }
  }

  lemma AdoptsAll(existing: Fields, live: Fields, desired: Fields)
    requires NestedMap(existing, "spec") == Some(live)
    ensures AdoptSome(live, desired, ALLOCATED) == AdoptService(existing, desired)
  {
  }
}
