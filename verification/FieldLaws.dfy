/** What the transformations of internal/syncplan/transform.go do to each field,
    told in the names that Kubernetes gives the fields. */
module FieldLaws {
  import opened HostNames
  import opened Naming
  import opened Objects
  import opened Transform
  import opened Wrappers

  /** The five fields of a Service's spec that every cluster allocates for itself. */
  predicate IsAddress(k: string) {
    k == "clusterIP" || k == "clusterIPs" || k == "healthCheckNodePort" || k == "ipFamilies" || k == "ipFamilyPolicy"
  }

  /** The top-level fields that are no content, beside metadata. */
  predicate IsHeader(k: string) {
    k == "apiVersion" || k == "kind" || k == "status"
  }

  /** The same port, but for its nodePort. */
  ghost predicate SamePort(p: Json, q: Json) {
    if p.Dict? && q.Dict? then forall k | k != "nodePort" :: SameAt(p.fields, q.fields, k) else p == q
  }

  ghost predicate SamePorts(ps: seq<Json>, qs: seq<Json>) {
    |ps| == |qs| && forall i :: 0 <= i < |ps| ==> SamePort(ps[i], qs[i])
  }

  /** The same Service spec, but for what each cluster allocates. */
  ghost predicate SameServiceSpec(a: Fields, b: Fields) {
    && (forall k :: !IsAddress(k) && k != "ports" ==> SameAt(a, b, k))
    && match (NestedSlice(a, "ports"), NestedSlice(b, "ports"))
       case (Some(ps), Some(qs)) => SamePorts(ps, qs)
       case _ => SameAt(a, b, "ports")
  }

  ghost predicate CarriesNoAddress(spec: Fields) {
    && (forall k :: IsAddress(k) ==> k !in spec)
    && (NestedSlice(spec, "ports").Some? ==>
          forall p :: p in NestedSlice(spec, "ports").value && p.Dict? ==> "nodePort" !in p.fields)
  }

  function SpecOf(body: Fields): Fields {
    if NestedMap(body, "spec").Some? then body["spec"].fields else map[]
  }

  /** Two bodies have the same Service spec, but for what each cluster allocates. */
  ghost predicate SameSpec(a: Fields, b: Fields) {
    if NestedMap(a, "spec").Some? && NestedMap(b, "spec").Some? then SameServiceSpec(SpecOf(a), SpecOf(b)) else SameAt(a, b, "spec")
  }

  // ---- strip ----

  /** `after` is `before` without the addresses and nodePorts of a Service. */
  ghost predicate Unaddressed(before: Fields, after: Fields) {
    && (forall k :: k != "spec" ==> SameAt(before, after, k))
    && SameSpec(before, after) && CarriesNoAddress(SpecOf(after))
  }

  lemma AllocatedAreAddresses()
    ensures forall k :: k in ALLOCATED <==> IsAddress(k)
    ensures !IsAddress("ports")
  {
    assert ALLOCATED[0] == "clusterIP" && ALLOCATED[1] == "clusterIPs" && ALLOCATED[2] == "healthCheckNodePort"
        && ALLOCATED[3] == "ipFamilies" && ALLOCATED[4] == "ipFamilyPolicy";
    assert |"ports"| == 5;
  }

  lemma SameOutside(a: Fields, b: Fields, keys: set<string>)
    ensures a - keys == b - keys <==> forall k :: k !in keys ==> SameAt(a, b, k)
  {
    var x, y := a - keys, b - keys;
    if x == y {
      forall k | k !in keys
        ensures SameAt(a, b, k)
      {
        assert (k in x <==> k in a) && (k in y <==> k in b);
        assert k in x ==> x[k] == a[k] && y[k] == b[k];
      }
    }
    if forall k :: k !in keys ==> SameAt(a, b, k) {
      forall k
        ensures SameAt(x, y, k)
      {
        assert k !in keys ==> SameAt(a, b, k);
      }
      assert x == y;
    }
  }

  lemma StrippedPort(p: Json, q: Json)
    ensures SamePort(p, StripPort(p)) && (StripPort(p).Dict? ==> "nodePort" !in StripPort(p).fields)
    ensures StripPort(p) == StripPort(q) <==> SamePort(p, q)
  {
    if p.Dict? && q.Dict? {
      SameOutside(p.fields, q.fields, {"nodePort"});
    }
  }

  lemma StrippedPorts(ps: seq<Json>, qs: seq<Json>)
    ensures SamePorts(ps, StripPorts(ps)) && forall p :: p in StripPorts(ps) && p.Dict? ==> "nodePort" !in p.fields
    ensures StripPorts(ps) == StripPorts(qs) <==> SamePorts(ps, qs)
  {
    hide StripPort, SamePort;
    forall i | 0 <= i < |ps|
      ensures SamePort(ps[i], StripPort(ps[i])) && (StripPort(ps[i]).Dict? ==> "nodePort" !in StripPort(ps[i]).fields)
      ensures i < |qs| ==> (StripPorts(ps)[i] == StripPorts(qs)[i] <==> SamePort(ps[i], qs[i]))
    {
      StrippedPort(ps[i], if i < |qs| then qs[i] else ps[i]);
    }
  }

  /** Stripping takes out the addresses and nothing else, and makes two specs equal
      exactly when they are the same but for them. */
  lemma StrippedSpec(a: Fields, b: Fields)
    ensures SameServiceSpec(a, StripSpec(a)) && CarriesNoAddress(StripSpec(a))
    ensures StripSpec(a) == StripSpec(b) <==> SameServiceSpec(a, b)
  {
    hide StripPorts, SamePorts, IsAddress;
    AllocatedAreAddresses();
    var ps, qs := NestedSlice(a, "ports"), NestedSlice(b, "ports");
    var x, y := StripSpec(a), StripSpec(b);
    StrippedPorts(if ps.Some? then ps.value else [], if qs.Some? then qs.value else []);
    assert forall k :: !IsAddress(k) && k != "ports" ==> SameAt(a, x, k) && SameAt(b, y, k);
    if x == y {
      assert SameAt(x, y, "ports");
      forall k | !IsAddress(k) && k != "ports"
        ensures SameAt(a, b, k)
      {
        assert SameAt(x, y, k);
      }
    }
    if SameServiceSpec(a, b) {
      forall k
        ensures SameAt(x, y, k)
      {
        if !IsAddress(k) && k != "ports" {
          assert SameAt(a, b, k);
        }
      }
      assert x == y;
    }
  }

  /** For a Service, and only for it, exactly the addresses and nodePorts go. */
  lemma StripFieldByField(kind: string, body: Fields)
    ensures kind == "Service" ==> Unaddressed(body, Strip(kind, body))
    ensures kind != "Service" ==> Strip(kind, body) == body
  {
    hide StripSpec, SameServiceSpec, CarriesNoAddress, IsAddress;
    match NestedMap(body, "spec")
    case Some(spec) => StrippedSpec(spec, spec);
    case None => assert CarriesNoAddress(map[]) by { EmptySpec(); }
  }

  lemma EmptySpec()
    ensures CarriesNoAddress(map[])
  {
  }

  // ---- compare ----

  /** Two objects hold the same content, told field by field. */
  ghost predicate SameContent(a: Object, b: Object) {
    if a.Kind() == "Service" && b.Kind() == "Service" then
      (forall k :: !IsHeader(k) && k != "spec" ==> SameAt(a.body, b.body, k)) && SameSpec(a.body, b.body)
    else forall k :: !IsHeader(k) ==> SameAt(a.body, b.body, k)
  }

  lemma HeadersAre()
    ensures forall k :: k in HEADER <==> IsHeader(k)
    ensures !IsHeader("spec")
  {
    assert |"spec"| == 4 && |"kind"| == 4 && |"status"| == 6 && |"apiVersion"| == 10;
    assert "spec"[0] == 's' && "kind"[0] == 'k';
  }

  lemma SameFrom(a: Fields, b: Fields)
    ensures ContentFrom(a) == ContentFrom(b) <==> forall k :: !IsHeader(k) ==> SameAt(a, b, k)
  {
    hide IsHeader, SameAt;
    HeadersAre();
    SameOutside(a, b, HEADER);
  }

  /** Equal content means equal top-level fields but for apiVersion, kind and status,
      and for two Services equal specs but for the five addresses and the nodePorts. */
  lemma ContentFieldByField(a: Object, b: Object)
    requires a.Kind() == "Service" <==> b.Kind() == "Service"
    ensures ContentEqual(a, b) <==> SameContent(a, b)
  {
    hide StripSpec, SameServiceSpec, IsHeader, ContentFrom;
    HeadersAre();
    var x, y := Strip(a.Kind(), a.body), Strip(b.Kind(), b.body);
    SameFrom(x, y);
    StrippedSpec(SpecOf(a.body), SpecOf(b.body));
    if a.Kind() == "Service" {
      assert SameSpec(a.body, b.body) <==> SameAt(x, y, "spec");
      assert forall k :: k != "spec" ==> (SameAt(x, y, k) <==> SameAt(a.body, b.body, k));
    }
  }

  // ---- merge ----

  /** The tenant's object with the host's content, told field by field. */
  ghost predicate MergedFrom(host: Object, tenant: Object, merged: Object) {
    && merged.meta == tenant.meta
    && (forall k :: IsHeader(k) ==> SameAt(tenant.body, merged.body, k))
    && (forall k :: !IsHeader(k) && (host.Kind() != "Service" || k != "spec") ==> SameAt(host.body, merged.body, k))
    && (host.Kind() == "Service" ==> SameSpec(host.body, merged.body) && CarriesNoAddress(SpecOf(merged.body)))
  }

  /** Merging takes every field from the host but apiVersion, kind and status, which
      stay the tenant's, and leaves a Service's addresses and nodePorts out. */
  lemma MergeFieldByField(host: Object, tenant: Object)
    ensures MergedFrom(host, tenant, MergeHostContentIntoTenant(host, tenant))
  {
    hide Strip, SameServiceSpec, CarriesNoAddress, IsHeader;
    HeadersAre();
    StripFieldByField(host.Kind(), host.body);
    var merged := MergeHostContentIntoTenant(host, tenant);
    var stripped := Strip(host.Kind(), host.body);
    forall k
      ensures if IsHeader(k) then SameAt(tenant.body, merged.body, k) else SameAt(stripped, merged.body, k)
    {
      assert k in stripped - HEADER <==> k in stripped && !IsHeader(k);
    }
    assert SameAt(stripped, merged.body, "spec");
    assert NestedMap(merged.body, "spec") == NestedMap(stripped, "spec");
    if host.Kind() == "Service" {
      forall k | !IsHeader(k) && k != "spec"
        ensures SameAt(host.body, merged.body, k)
      {
        assert SameAt(host.body, stripped, k);
      }
    }
  }

  // ---- build ----

  /** Metadata that a server populates or owns, beside the resource version. */
  predicate IsServerOwned(k: string) {
    || k == "uid" || k == "generation" || k == "creationTimestamp" || k == "deletionTimestamp"
    || k == "deletionGracePeriodSeconds" || k == "managedFields" || k == "ownerReferences" || k == "selfLink"
    || k == "finalizers"
  }

  /** The four labels of a mirror; every other label is the tenant's. */
  ghost predicate LabelledFor(ref: ResourceRef, tenant: map<string, string>, host: map<string, string>) {
    && "app.kubernetes.io/managed-by" in host && host["app.kubernetes.io/managed-by"] == "tenantplane"
    && "tenantplane.io/tenant" in host && host["tenantplane.io/tenant"] == Sanitize(ref.tenantCluster)
    && "tenantplane.io/virtual-namespace" in host && host["tenantplane.io/virtual-namespace"] == Sanitize(ref.virtualNamespace)
    && "tenantplane.io/kind" in host && host["tenantplane.io/kind"] == Sanitize(ref.kind)
    && forall k :: k !in {"app.kubernetes.io/managed-by", "tenantplane.io/tenant", "tenantplane.io/virtual-namespace", "tenantplane.io/kind"}
         ==> SameAt(tenant, host, k)
  }

  /** Its two annotations, verbatim; every other one is the tenant's. */
  ghost predicate AnnotatedFor(ref: ResourceRef, tenant: map<string, string>, host: map<string, string>) {
    && "tenantplane.io/virtual-namespace" in host && host["tenantplane.io/virtual-namespace"] == ref.virtualNamespace
    && "tenantplane.io/virtual-name" in host && host["tenantplane.io/virtual-name"] == ref.name
    && forall k :: k != "tenantplane.io/virtual-namespace" && k != "tenantplane.io/virtual-name" ==> SameAt(tenant, host, k)
  }

  /** The host object for a tenant's, told field by field. */
  ghost predicate BuiltFrom(ref: ResourceRef, tenant: Object, host: Object) {
    && host.meta.name == HostName(ref.name, ref.virtualNamespace, ref.tenantCluster)
    && host.meta.namespace == Sanitize(ref.tenantNamespace) && host.meta.version == 0
    && (forall k :: if IsServerOwned(k) then k !in host.meta.rest else SameAt(tenant.meta.rest, host.meta.rest, k))
    && LabelledFor(ref, tenant.meta.labels, host.meta.labels)
    && AnnotatedFor(ref, tenant.meta.annotations, host.meta.annotations)
    && "status" !in host.body
    && (forall k :: k != "status" && (ref.kind != "Service" || k != "spec") ==> SameAt(tenant.body, host.body, k))
    && (ref.kind == "Service" ==> SameSpec(tenant.body, host.body) && CarriesNoAddress(SpecOf(host.body)))
  }

  lemma HostOwnedMetadata()
    ensures forall k :: k in HOST_MANAGED_METADATA <==> IsServerOwned(k)
  {
  }

  lemma LabelsAreStamped(base: map<string, string>, ref: ResourceRef)
    ensures LabelledFor(ref, base, base + HostLabels(ref))
    ensures AnnotatedFor(ref, base, base + HostAnnotations(ref))
  {
    hide Sanitize;
    assert |"app.kubernetes.io/managed-by"| == 28 && |"tenantplane.io/tenant"| == 21 && |"tenantplane.io/kind"| == 19
        && |"tenantplane.io/virtual-namespace"| == 32 && |"tenantplane.io/virtual-name"| == 27;
  }

  /** Building fails exactly when the reference is incomplete; else it sets name,
      namespace, four labels and two annotations, drops ten metadata fields, the
      status, and a Service's addresses and nodePorts, and carries over the rest. */
  lemma BuildFieldByField(ref: ResourceRef, tenant: Object)
    ensures BuildHostObject(ref, tenant).Success?
       <==> ref.tenantCluster != "" && ref.tenantNamespace != "" && ref.virtualNamespace != "" && ref.kind != "" && ref.name != ""
    ensures BuildHostObject(ref, tenant).Success? ==> BuiltFrom(ref, tenant, BuildHostObject(ref, tenant).value)
  {
    hide Strip, HostLabels, HostAnnotations, HostName, Sanitize, SameServiceSpec, CarriesNoAddress, IsServerOwned, LabelledFor, AnnotatedFor;
    if BuildHostObject(ref, tenant).Success? {
      HostOwnedMetadata();
      LabelsAreStamped(tenant.meta.labels, ref);
      LabelsAreStamped(tenant.meta.annotations, ref);
      assert |"spec"| == 4 && |"status"| == 6;
      var body := tenant.body - {"status"};
      StripFieldByField(ref.kind, body);
      var host := BuildHostObject(ref, tenant).value;
      assert forall k :: k != "status" ==> SameAt(tenant.body, body, k);
      forall k | k != "status" && (ref.kind != "Service" || k != "spec")
        ensures SameAt(tenant.body, host.body, k)
      {
        assert SameAt(body, host.body, k);
      }
      assert SameAt(body, host.body, "status");
      assert NestedMap(body, "spec") == NestedMap(tenant.body, "spec");
    }
  }

  // ---- adopt ----

  /** A Service to be written takes over each address that the live one has. */
  ghost predicate AdoptedFrom(live: Fields, wanted: Fields, adopted: Fields) {
    && (forall k :: k != "spec" ==> SameAt(wanted, adopted, k))
    && if "spec" in wanted && !wanted["spec"].Dict? then SameAt(wanted, adopted, "spec")
       else
         && (forall k :: SameAt(if IsAddress(k) && k in SpecOf(live) then SpecOf(live) else SpecOf(wanted), SpecOf(adopted), k))
         && ("spec" in adopted <==> "spec" in wanted || exists k :: IsAddress(k) && k in SpecOf(live))
         && ("spec" in adopted ==> adopted["spec"].Dict?)
  }

  lemma AllocatedByName(live: Fields)
    ensures forall k :: k in AllocatedIn(live) <==> IsAddress(k) && k in live
    ensures forall k :: k in AllocatedIn(live) ==> AllocatedIn(live)[k] == live[k]
    ensures AllocatedIn(live) != map[] <==> exists k :: IsAddress(k) && k in live
  {
    hide IsAddress;
    AllocatedAreAddresses();
    if AllocatedIn(live) != map[] {
      var k :| k in AllocatedIn(live).Keys;
      assert IsAddress(k) && k in live;
    }
  }

  lemma ServiceAdoption(live: Fields, wanted: Fields)
    ensures AdoptedFrom(live, wanted, AdoptService(live, wanted))
  {
    hide IsAddress, AllocatedIn;
    AllocatedByName(SpecOf(live));
  }

  /** Before an update a Service takes over the five addresses of the live one, as
      far as it has them, and nothing else; other kinds but Pods take over nothing. */
  lemma AdoptFieldByField(existing: Object, desired: Object)
    ensures Adopt(existing, desired).meta == desired.meta
    ensures existing.Kind() == "Service" ==> AdoptedFrom(existing.body, desired.body, Adopt(existing, desired).body)
    ensures existing.Kind() != "Service" && existing.Kind() != "Pod" ==> Adopt(existing, desired) == desired
    ensures existing.Kind() == "Pod" && NestedMap(existing.body, "spec").None? ==> Adopt(existing, desired) == desired
  {
    hide AdoptService, AdoptedFrom;
    ServiceAdoption(existing.body, desired.body);
    assert |"Service"| == 7 && |"Pod"| == 3;
  }

  /** Hence what a push sends for a Service: the live addresses where there are any
      and none where there are not, never the tenant's; all else is the tenant's. */
  lemma PushedServiceAddresses(ref: ResourceRef, tenant: Object, existing: Object)
    requires ref.kind == "Service" && existing.Kind() == "Service" && BuildHostObject(ref, tenant).Success?
    requires NestedMap(tenant.body, "spec").Some?
    ensures var sent := Adopt(existing, BuildHostObject(ref, tenant).value);
            && NestedMap(sent.body, "spec").Some?
            && (forall k :: IsAddress(k) ==> SameAt(SpecOf(existing.body), SpecOf(sent.body), k))
            && (forall k :: !IsAddress(k) && k != "ports" ==> SameAt(SpecOf(tenant.body), SpecOf(sent.body), k))
            && (forall k :: k != "spec" && k != "status" ==> SameAt(tenant.body, sent.body, k))
  {
    hide BuildHostObject, Adopt, IsAddress;
    AllocatedAreAddresses();
    var host := BuildHostObject(ref, tenant).value;
    var sent := Adopt(existing, host);
    BuildFieldByField(ref, tenant);
    AdoptFieldByField(existing, host);
    forall k
      ensures IsAddress(k) ==> SameAt(SpecOf(existing.body), SpecOf(sent.body), k)
      ensures !IsAddress(k) && k != "ports" ==> SameAt(SpecOf(tenant.body), SpecOf(sent.body), k)
      ensures k != "spec" && k != "status" ==> SameAt(tenant.body, sent.body, k)
    {
      assert SameAt(if IsAddress(k) && k in SpecOf(existing.body) then SpecOf(existing.body) else SpecOf(host.body), SpecOf(sent.body), k);
      if k != "spec" && k != "status" {
        assert SameAt(tenant.body, host.body, k) && SameAt(host.body, sent.body, k);
      }
      if !IsAddress(k) && k != "ports" {
        assert SameAt(SpecOf(tenant.body), SpecOf(host.body), k);
      }
    }
  }
}
