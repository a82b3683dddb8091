/** An API server as the engine meets it: objects under optimistic concurrency,
    fresh versions, a log of everything ever written, and other writers who may
    step in before each call. */
module Cluster {
  import opened Objects
  import opened Transform
  import opened Wrappers

  datatype Key = Key(kind: string, namespace: string, name: string)

  function KeyOf(o: Object): Key {
    Key(o.Kind(), o.meta.namespace, o.meta.name)
  }

  datatype Store = Store(objects: map<Key, Object>, log: map<nat, Object>, next: nat) {
    ghost predicate Valid() {
      && 0 < next
      && (forall v :: v in log ==> 0 < v < next && log[v].meta.version == v)
      && (forall k :: k in objects ==> KeyOf(objects[k]) == k && objects[k].meta.version in log && log[objects[k].meta.version] == objects[k])
    }

    function Lookup(k: Key): Option<Object> {
      if k in objects then Some(objects[k]) else None
    }

    function Write(o: Object): Store {
      var stored := o.WithVersion(next);
      Store(objects[KeyOf(o) := stored], log[next := stored], next + 1)
    }

    function Remove(k: Key): Store {
      this.(objects := objects - {k})
    }
  }

  /** What was once written stays on record, and whatever stands with an old
      version stood before. */
  ghost predicate Extends(s: Store, s': Store) {
    && s.next <= s'.next
    && (forall v :: v in s.log ==> v in s'.log && s'.log[v] == s.log[v])
    && forall k :: k in s'.objects && s'.objects[k].meta.version < s.next ==> k in s.objects && s.objects[k] == s'.objects[k]
  }

  datatype Reply = Accepted(o: Object) | Absent | Refused | Unheard

  function Create(s: Store, o: Object, a: Allocation): (Store, Reply) {
    if KeyOf(o) in s.objects then (s, Refused)
    else (s.Write(Allocate(o, a)), Accepted(Allocate(o, a).WithVersion(s.next)))
  }

  function Update(s: Store, o: Object, a: Allocation): (Store, Reply) {
    if KeyOf(o) !in s.objects then (s, Absent)
    else if o.meta.version != 0 && o.meta.version != s.objects[KeyOf(o)].meta.version then (s, Refused)
    else (s.Write(Allocate(o, a)), Accepted(Allocate(o, a).WithVersion(s.next)))
  }

  function Delete(s: Store, o: Object): (Store, Reply) {
    if KeyOf(o) !in s.objects then (s, Absent) else (s.Remove(KeyOf(o)), Accepted(s.objects[KeyOf(o)]))
  }

  // ---- other writers ----

  datatype Edit = Put(o: Object) | Drop(key: Key)

  function ApplyEdits(s: Store, edits: seq<Edit>): Store
    decreases |edits|
  {
    if edits == [] then s
    else
      var s' := match edits[0] case Put(o) => s.Write(o) case Drop(k) => s.Remove(k);
      ApplyEdits(s', edits[1..])
  }

  /** What the world does around one API call: foreign edits on both sides just
      before it, a fault, and the values the allocator picks. */
  datatype Turn = Turn(tenantEdits: seq<Edit>, hostEdits: seq<Edit>, fault: Fault, allocation: Allocation)

  const QUIET := Turn([], [], Served, Allocation(map[], map[]))

  lemma ExtendsItself(s: Store)
    ensures Extends(s, s)
  {
  }

  lemma WriteIsValid(s: Store, o: Object)
    requires s.Valid()
    ensures s.Write(o).Valid() && Extends(s, s.Write(o))
  {
    assert KeyOf(o.WithVersion(s.next)) == KeyOf(o);
  }

  lemma {:induction false} EditsKeepValid(s: Store, edits: seq<Edit>)
    requires s.Valid()
    ensures ApplyEdits(s, edits).Valid() && Extends(s, ApplyEdits(s, edits))
    decreases |edits|
  {
    if edits != [] {
      match edits[0] {
        case Put(o) =>
          WriteIsValid(s, o);
          EditsKeepValid(s.Write(o), edits[1..]);
        case Drop(k) =>
          EditsKeepValid(s.Remove(k), edits[1..]);
      }
    }
  }
}
