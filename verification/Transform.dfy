/** The transformation algebra of internal/syncplan/transform.go: strip,
    build, adopt, merge, compare, and look back. */
module Transform {
  import opened HostNames
  import opened Naming
  import opened Objects
  import opened Wrappers
  import Pods

  const LABEL_VIRTUAL_NAMESPACE := "tenantplane.io/virtual-namespace"
  const LABEL_KIND := "tenantplane.io/kind"
  const ANNOTATION_VIRTUAL_NAMESPACE := "tenantplane.io/virtual-namespace"
  const ANNOTATION_VIRTUAL_NAME := "tenantplane.io/virtual-name"

  const HOST_MANAGED_METADATA: set<string> := {
    "uid", "generation", "creationTimestamp", "deletionTimestamp", "deletionGracePeriodSeconds",
    "managedFields", "ownerReferences", "selfLink", "finalizers"}

  /** The Service fields that each cluster's API server allocates for itself. */
  const ALLOCATED: seq<string> := ["clusterIP", "clusterIPs", "healthCheckNodePort", "ipFamilies", "ipFamilyPolicy"]

  // ---- strip ----

  function StripPort(port: Json): Json {
    if port.Dict? then Dict(port.fields - {"nodePort"}) else port
  }

  function StripPorts(ports: seq<Json>): seq<Json> {
    seq(|ports|, i requires 0 <= i < |ports| => StripPort(ports[i]))
  }

  function StripSpec(spec: Fields): Fields {
    var kept := map k | k in spec && k !in ALLOCATED :: spec[k];
    match NestedSlice(kept, "ports")
    case Some(ports) => kept["ports" := List(StripPorts(ports))]
    case None => kept
  }

  function Strip(kind: string, body: Fields): Fields {
    if kind != "Service" then body
    else match NestedMap(body, "spec")
      case Some(spec) => body["spec" := Dict(StripSpec(spec))]
      case None => body
  }

  // ---- content ----

  const HEADER: set<string> := {"apiVersion", "kind", "status"}

  function ContentFrom(body: Fields): Fields {
    body - HEADER
  }

  function ContentOf(o: Object): Fields {
    ContentFrom(Strip(o.Kind(), o.body))
  }

  predicate ContentEqual(a: Object, b: Object) {
    ContentOf(a) == ContentOf(b)
  }

  // ---- build ----

  function HostLabels(ref: ResourceRef): map<string, string> {
    map[LABEL_MANAGED_BY := MANAGED_BY, LABEL_TENANT := Sanitize(ref.tenantCluster),
        LABEL_VIRTUAL_NAMESPACE := Sanitize(ref.virtualNamespace), LABEL_KIND := Sanitize(ref.kind)]
  }

  function HostAnnotations(ref: ResourceRef): map<string, string> {
    map[ANNOTATION_VIRTUAL_NAMESPACE := ref.virtualNamespace, ANNOTATION_VIRTUAL_NAME := ref.name]
  }

  function BuildHostObject(ref: ResourceRef, tenant: Object): Result<Object, PlanError> {
    match Explain(ref)
    case Failure(e) => Failure(e)
    case Success(target) =>
      Success(Object(
        Metadata(target.name, target.namespace, tenant.meta.labels + HostLabels(ref),
                 tenant.meta.annotations + HostAnnotations(ref), 0, tenant.meta.rest - HOST_MANAGED_METADATA),
        Strip(ref.kind, tenant.body - {"status"})))
  }

  // ---- look back ----

  function ReverseLookup(host: Object): Option<ResourceRef> {
    if host.Label(LABEL_MANAGED_BY) != MANAGED_BY then None
    else Some(ResourceRef(host.Label(LABEL_TENANT), host.meta.namespace,
                          host.Annotation(ANNOTATION_VIRTUAL_NAMESPACE), host.Kind(),
                          host.Annotation(ANNOTATION_VIRTUAL_NAME)))
  }

  // ---- adopt ----

  function AllocatedIn(spec: Fields): Fields {
    map k | k in spec && k in ALLOCATED :: spec[k]
  }

  function AdoptService(existing: Fields, desired: Fields): Fields {
    match NestedMap(existing, "spec")
    case None => desired
    case Some(live) =>
      if AllocatedIn(live) == map[] then desired
      else if "spec" !in desired then desired["spec" := Dict(AllocatedIn(live))]
      else if desired["spec"].Dict? then desired["spec" := Dict(desired["spec"].fields + AllocatedIn(live))]
      else desired
  }

  function Adopt(existing: Object, desired: Object): Object {
    if existing.Kind() == "Service" then desired.(body := AdoptService(existing.body, desired.body))
    else if existing.Kind() == "Pod" then desired.(body := Pods.AdoptPod(existing.body, desired.body))
    else desired
  }

  // ---- merge ----

  function MergeHostContentIntoTenant(host: Object, tenant: Object): Object {
    tenant.(body := (map k | k in tenant.body && k in HEADER :: tenant.body[k]) + ContentOf(host))
  }

  // ---- what an API server's allocator may fill in ----

  datatype Allocation = Allocation(fields: Fields, nodePorts: map<nat, Json>)

  function FillPort(port: Json, i: nat, nodePorts: map<nat, Json>): Json {
    if port.Dict? && i in nodePorts then Dict(port.fields["nodePort" := nodePorts[i]]) else port
  }

  function FillPorts(ports: seq<Json>, nodePorts: map<nat, Json>): seq<Json> {
    seq(|ports|, i requires 0 <= i < |ports| => FillPort(ports[i], i, nodePorts))
  }

  function FillSpec(spec: Fields, a: Allocation): Fields {
    var filled := spec + AllocatedIn(a.fields);
    match NestedSlice(spec, "ports")
    case Some(ports) => filled["ports" := List(FillPorts(ports, a.nodePorts))]
    case None => filled
  }

  /** A server writes what it is given and fills in a Service's allocated fields. */
  function Allocate(o: Object, a: Allocation): Object {
    if o.Kind() != "Service" then o
    else match NestedMap(o.body, "spec")
      case Some(spec) => o.(body := o.body["spec" := Dict(FillSpec(spec, a))])
      case None => o
  }

  // ---- laws ----

  lemma StripPortsIdempotent(ports: seq<Json>)
    ensures StripPorts(StripPorts(ports)) == StripPorts(ports)
  {
    forall p: Json
      ensures StripPort(StripPort(p)) == StripPort(p)
    {
      if p.Dict? {
        assert p.fields - {"nodePort"} - {"nodePort"} == p.fields - {"nodePort"};
      }
    }
  }

  lemma StripSpecIdempotent(spec: Fields)
    ensures StripSpec(StripSpec(spec)) == StripSpec(spec)
  {
    match NestedSlice(spec, "ports")
    case Some(ports) => StripPortsIdempotent(ports);
    case None =>
  }

  lemma StripIdempotent(kind: string, body: Fields)
    ensures Strip(kind, Strip(kind, body)) == Strip(kind, body)
  {
    match NestedMap(body, "spec")
    case Some(spec) => StripSpecIdempotent(spec);
    case None =>
  }

  /** Stripping forgets exactly what an allocator filled in. */
  lemma StripForgetsAllocation(o: Object, a: Allocation)
    ensures Allocate(o, a).Kind() == o.Kind() && Allocate(o, a).meta == o.meta
    ensures ContentOf(Allocate(o, a)) == ContentOf(o)
  {
    match NestedMap(o.body, "spec")
    case Some(spec) => StripForgetsFill(spec, a);
    case None =>
  }

  lemma StripForgetsFill(spec: Fields, a: Allocation)
    ensures StripSpec(FillSpec(spec, a)) == StripSpec(spec)
  {
    assert "ports" !in ALLOCATED;
    match NestedSlice(spec, "ports")
    case Some(ports) =>
      forall i | 0 <= i < |ports|
        ensures StripPort(FillPort(ports[i], i, a.nodePorts)) == StripPort(ports[i])
      {
        if ports[i].Dict? && i in a.nodePorts {
          var fields := ports[i].fields;
          assert fields["nodePort" := a.nodePorts[i]] - {"nodePort"} == fields - {"nodePort"};
        }
      }
      assert StripPorts(FillPorts(ports, a.nodePorts)) == StripPorts(ports);
    case None =>
  }

  lemma StampedLabels(base: map<string, string>, ref: ResourceRef)
    ensures var m := base + HostLabels(ref);
            && LABEL_MANAGED_BY in m && m[LABEL_MANAGED_BY] == MANAGED_BY
            && LABEL_TENANT in m && m[LABEL_TENANT] == Sanitize(ref.tenantCluster)
            && LABEL_KIND in m && m[LABEL_KIND] == Sanitize(ref.kind)
  {
    assert |LABEL_MANAGED_BY| == 28 && |LABEL_TENANT| == 21 && |LABEL_VIRTUAL_NAMESPACE| == 32 && |LABEL_KIND| == 19;
  }

  lemma StampedAnnotations(base: map<string, string>, ref: ResourceRef)
    ensures var m := base + HostAnnotations(ref);
            && ANNOTATION_VIRTUAL_NAMESPACE in m && m[ANNOTATION_VIRTUAL_NAMESPACE] == ref.virtualNamespace
            && ANNOTATION_VIRTUAL_NAME in m && m[ANNOTATION_VIRTUAL_NAME] == ref.name
  {
    assert |ANNOTATION_VIRTUAL_NAMESPACE| == 32 && |ANNOTATION_VIRTUAL_NAME| == 27;
  }

  lemma StripKeepsHeader(kind: string, body: Fields)
    ensures forall k | k != "spec" :: k in Strip(kind, body) <==> k in body
    ensures forall k | k != "spec" && k in body :: Strip(kind, body)[k] == body[k]
  {
  }

  lemma BuiltKind(ref: ResourceRef, tenant: Object)
    requires BuildHostObject(ref, tenant).Success?
    ensures BuildHostObject(ref, tenant).value.Kind() == tenant.Kind()
  {
    var body := tenant.body - {"status"};
    StripKeepsHeader(ref.kind, body);
    assert "kind"[0] == 'k' && "spec"[0] == 's' && |"kind"| != |"status"|;
    assert "kind" in body <==> "kind" in tenant.body;
  }

  /** Looking back at the object built for `ref` gives `ref` itself, whatever
      labels and annotations the tenant object carried and however long its
      name: exactly when the tenant and its namespace are labels already and
      the object is of the kind asked for. Name and namespace are those that
      Explain predicts. */
  lemma BuildReverts(ref: ResourceRef, tenant: Object)
    requires BuildHostObject(ref, tenant).Success?
    ensures var host := BuildHostObject(ref, tenant).value;
            Explain(ref) == Success(HostTarget(host.meta.namespace, host.meta.name))
    ensures ReverseLookup(BuildHostObject(ref, tenant).value) == Some(ref)
       <==> IsLabel(ref.tenantCluster) && IsLabel(ref.tenantNamespace) && tenant.Kind() == ref.kind
  {
    SanitizeFixpoint(ref.tenantCluster);
    SanitizeFixpoint(ref.tenantNamespace);
    StampedLabels(tenant.meta.labels, ref);
    StampedAnnotations(tenant.meta.annotations, ref);
    BuiltKind(ref, tenant);
  }

  // ---- agreement ----

  lemma HeaderKeys()
    ensures "spec" !in HEADER && "kind" in HEADER && "status" in HEADER && "apiVersion" in HEADER && "kind" != "spec"
    ensures "apiVersion" != "spec" && "status" != "spec" && "kind" != "apiVersion" && "kind" != "status"
  {
    assert "kind"[0] == 'k' && "spec"[0] == 's';
    assert |"kind"| == 4 && |"spec"| == 4 && |"apiVersion"| == 10 && |"status"| == 6;
  }

  lemma ContentCommutesWithStrip(kind: string, body: Fields)
    ensures ContentFrom(Strip(kind, body)) == Strip(kind, ContentFrom(body))
  {
    HeaderKeys();
  }

  /** What the host object is built from is what it agrees with. */
  lemma BuiltContent(ref: ResourceRef, tenant: Object, apiVersion: string)
    requires BuildHostObject(ref, tenant).Success? && tenant.Kind() == ref.kind
    ensures var host := BuildHostObject(ref, tenant).value.WithKind(apiVersion, ref.kind);
            host.Kind() == ref.kind && ContentEqual(tenant, host)
  {
    hide Explain, HostName, Sanitize, HostLabels, HostAnnotations, StripSpec;
    HeaderKeys();
    var built := BuildHostObject(ref, tenant).value.body;
    var body := built["apiVersion" := Str(apiVersion)]["kind" := Str(ref.kind)];
    ContentCommutesWithStrip(ref.kind, tenant.body);
    ContentCommutesWithStrip(ref.kind, body);
    StripKeepsHeader(ref.kind, tenant.body - {"status"});
    assert ContentFrom(body) == ContentFrom(built);
    ContentCommutesWithStrip(ref.kind, tenant.body - {"status"});
    assert ContentFrom(tenant.body - {"status"}) == ContentFrom(tenant.body);
    StripIdempotent(ref.kind, ContentFrom(tenant.body));
  }

  lemma StripForgetsAdoption(spec: Fields, live: Fields)
    ensures StripSpec(spec + AllocatedIn(live)) == StripSpec(spec)
  {
    assert "ports" !in ALLOCATED;
  }

  lemma AdoptKeepsHeader(existing: Object, desired: Object)
    ensures var o := Adopt(existing, desired);
            o.meta == desired.meta && o.Kind() == desired.Kind()
  {
    HeaderKeys();
  }

  predicate NothingAllocated(o: Object) {
    NestedMap(o.body, "spec").None? || AllocatedIn(NestedMap(o.body, "spec").value) == map[]
  }

  /** Adopting leaves a Service's content alone, unless it has no spec at all and
      receives one made of the live object's allocated fields. */
  lemma AdoptedContent(existing: Object, desired: Object)
    requires desired.Kind() == existing.Kind() != "Pod"
    ensures ContentEqual(Adopt(existing, desired), desired)
       <==> desired.Kind() != "Service" || "spec" in desired.body || NothingAllocated(existing)
  {
    HeaderKeys();
    AdoptKeepsHeader(existing, desired);
    if existing.Kind() == "Service" {
      var adopted := AdoptService(existing.body, desired.body);
      ContentCommutesWithStrip("Service", desired.body);
      ContentCommutesWithStrip("Service", adopted);
      match NestedMap(existing.body, "spec")
      case None =>
      case Some(live) =>
        if "spec" in desired.body && desired.body["spec"].Dict? {
          StripForgetsAdoption(desired.body["spec"].fields, live);
        } else if "spec" !in desired.body && AllocatedIn(live) != map[] {
          assert "spec" in ContentOf(Adopt(existing, desired)) && "spec" !in ContentOf(desired);
        }
    }
  }

  /** Push reaches agreement: build, adopt from the live object, write, and let
      the host allocate what it likes. For a Service it does so exactly when the
      tenant's has a spec, or the live one has nothing to adopt. */
  lemma PushAgrees(ref: ResourceRef, tenant: Object, apiVersion: string, version: nat, existing: Object, a: Allocation)
    requires BuildHostObject(ref, tenant).Success?
    requires tenant.Kind() == existing.Kind() == ref.kind != "Pod"
    ensures var host := BuildHostObject(ref, tenant).value.WithKind(apiVersion, ref.kind).WithVersion(version);
            (ContentEqual(tenant, Allocate(Adopt(existing, host), a))
             <==> ref.kind != "Service" || "spec" in tenant.body || NothingAllocated(existing))
  {
    BuiltContent(ref, tenant, apiVersion);
    var host := BuildHostObject(ref, tenant).value.WithKind(apiVersion, ref.kind).WithVersion(version);
    AdoptKeepsHeader(existing, host);
    AdoptedContent(existing, host);
    StripForgetsAllocation(Adopt(existing, host), a);
    HeaderKeys();
    assert "spec" in host.body <==> "spec" in tenant.body;
  }

  lemma MergedHeader(host: Object, tenant: Object)
    ensures var merged := MergeHostContentIntoTenant(host, tenant);
            && merged.meta == tenant.meta && merged.Kind() == tenant.Kind()
            && (forall k :: k in HEADER ==> (k in merged.body <==> k in tenant.body))
            && (forall k :: k in HEADER && k in tenant.body ==> merged.body[k] == tenant.body[k])
            && ContentFrom(merged.body) == ContentOf(host)
  {
    HeaderKeys();
  }

  /** Pull reaches agreement: whatever the tenant's own allocator fills in, the
      result agrees with the host object and keeps the tenant's metadata. */
  lemma PullAgrees(host: Object, tenant: Object, a: Allocation)
    requires host.Kind() == tenant.Kind()
    ensures var pulled := Allocate(MergeHostContentIntoTenant(host, tenant), a);
            pulled.meta == tenant.meta && pulled.Kind() == tenant.Kind() && ContentEqual(pulled, host)
  {
    var merged := MergeHostContentIntoTenant(host, tenant);
    MergedHeader(host, tenant);
    StripForgetsAllocation(merged, a);
    ContentCommutesWithStrip(host.Kind(), merged.body);
    ContentCommutesWithStrip(host.Kind(), host.body);
    StripIdempotent(host.Kind(), ContentFrom(host.body));
  }

  /** Merging again changes nothing. */
  lemma MergeIdempotent(host: Object, tenant: Object)
    ensures var merged := MergeHostContentIntoTenant(host, tenant);
            MergeHostContentIntoTenant(host, merged) == merged
  {
    MergedHeader(host, tenant);
  }
}
