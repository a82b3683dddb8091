/** Kubernetes objects as the engine sees them: an unstructured tree below
    typed metadata. */
module Objects {
  import opened Wrappers

  datatype Json =
    | Null
    | Bool(b: bool)
    | Int(i: int)
    | Float(r: real)
    | Str(s: string)
    | List(items: seq<Json>)
    | Dict(fields: Fields)

  type Fields = map<string, Json>

  /** The zero version stands for an absent resourceVersion. `rest` holds every
      other metadata field (uid, finalizers, ownerReferences, ...). */
  datatype Metadata = Metadata(
    name: string, namespace: string,
    labels: map<string, string>, annotations: map<string, string>,
    version: nat, rest: Fields)

  /** `body` holds every top-level field except metadata. */
  datatype Object = Object(meta: Metadata, body: Fields) {
    function Kind(): string {
      if "kind" in body && body["kind"].Str? then body["kind"].s else ""
    }

    function Annotation(key: string): string {
      if key in meta.annotations then meta.annotations[key] else ""
    }

    function Label(key: string): string {
      if key in meta.labels then meta.labels[key] else ""
    }

    function WithVersion(version: nat): Object {
      this.(meta := meta.(version := version))
    }

    function WithKind(apiVersion: string, kind: string): Object {
      this.(body := body["apiVersion" := Str(apiVersion)]["kind" := Str(kind)])
    }
  }

  /** The nested map `key`, when there is one. */
  function NestedMap(body: Fields, key: string): Option<Fields> {
    if key in body && body[key].Dict? then Some(body[key].fields) else None
  }

  function NestedSlice(body: Fields, key: string): Option<seq<Json>> {
    if key in body && body[key].List? then Some(body[key].items) else None
  }

  /** Sets body.spec[key], creating the spec when it is absent; None when the
      spec is there but is not a map. */
  function SetSpecField(body: Fields, key: string, value: Json): Option<Fields> {
    if "spec" !in body then Some(body["spec" := Dict(map[key := value])])
    else if body["spec"].Dict? then Some(body["spec" := Dict(body["spec"].fields[key := value])])
    else None
  }

  function RemoveSpecField(body: Fields, key: string): Fields {
    match NestedMap(body, "spec")
    case Some(spec) => body["spec" := Dict(spec - {key})]
    case None => body
  }

  /** Both maps hold the same under this key, or neither has it. */
  predicate SameAt<K(==), V(==)>(a: map<K, V>, b: map<K, V>, k: K) {
    (k in a <==> k in b) && (k in a ==> a[k] == b[k])
  }
}
