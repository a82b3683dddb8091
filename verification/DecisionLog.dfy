/** The durable record of one tenant: a bounded window of sync decisions and
    the convergence history (internal/controller/sync_decisions.go). */
module DecisionLog {
  import opened Engine
  import opened Wrappers

  datatype Entry = Entry(
    action: Action, kind: string, tenantNamespace: string, tenantName: string,
    hostNamespace: string, hostName: string, reason: Reason)

  /** What the SyncDecision object's status holds. */
  datatype Record = Record(entries: seq<Entry>, lastConverged: History)

  function EntryOf(d: Decision): Entry {
    Entry(d.action, d.kind, d.ref.virtualNamespace, d.ref.name, d.host.namespace, d.host.name, d.reason)
  }

  function EntriesOf(decisions: seq<Decision>): seq<Entry> {
    seq(|decisions|, i requires 0 <= i < |decisions| => EntryOf(decisions[i]))
  }

  function Last<T>(s: seq<T>, n: nat): seq<T> {
    if |s| > n then s[|s| - n..] else s
  }

  /** The entry says what was decided, about which tenant object and which host
      object, and why. */
  predicate Tells(e: Entry, d: Decision) {
    && e.action == d.action && e.kind == d.kind
    && e.tenantNamespace == d.ref.virtualNamespace && e.tenantName == d.ref.name
    && e.hostNamespace == d.host.namespace && e.hostName == d.host.name
    && e.reason == d.reason
  }

  /** The log ends with these decisions, one entry each, as far as `retain` lets it,
      and begins with as much of the older log as still fits. */
  ghost predicate TellsLast(older: seq<Entry>, entries: seq<Entry>, decisions: seq<Decision>, retain: nat) {
    var kept := if |decisions| <= retain then |decisions| else retain;
    var from := |entries| - kept;
    && |entries| == (if |older| + |decisions| <= retain then |older| + |decisions| else retain)
    && (forall i :: from <= i < |entries| ==> Tells(entries[i], decisions[i - |entries| + |decisions|]))
    && forall i :: 0 <= i < from ==> entries[i] == older[i - from + |older|]
  }

  function Stored(stored: Option<Record>): seq<Entry> {
    if stored.Some? then stored.value.entries else []
  }

  function Load(stored: Option<Record>): History {
    if stored.Some? then stored.value.lastConverged else map[]
  }

  function RecordDecisions(stored: Option<Record>, decisions: seq<Decision>, retain: int, history: History): Option<Record> {
    if decisions == [] || retain <= 0 then stored
    else
      var r := if stored.Some? then stored.value else Record([], map[]);
      Some(Record(Last(r.entries + EntriesOf(decisions), retain), if history != map[] then history else r.lastConverged))
  }

  lemma NoEntries()
    ensures EntriesOf([]) == []
  {
  }

  lemma OneMoreEntry(decisions: seq<Decision>, i: nat)
    requires i < |decisions|
    ensures EntriesOf(decisions[..i + 1]) == EntriesOf(decisions[..i]) + [EntryOf(decisions[i])]
  {
    hide EntryOf;
    assert decisions[..i + 1][..i] == decisions[..i];
  }

  lemma LastTells(older: seq<Entry>, decisions: seq<Decision>, retain: nat)
    ensures TellsLast(older, Last(older + EntriesOf(decisions), retain), decisions, retain)
  {
    var full := older + EntriesOf(decisions);
    var entries := Last(full, retain);
    var cut := |full| - |entries|;
    assert entries == full[cut..];
    forall i | 0 <= i < |entries|
      ensures entries[i] == if cut + i < |older| then older[cut + i] else EntryOf(decisions[cut + i - |older|])
    {
      assert entries[i] == full[cut + i];
    }
  }

  /** A recording ends the log with the decisions it was given. */
  lemma RecordingTells(stored: Option<Record>, decisions: seq<Decision>, retain: int, history: History)
    requires decisions != [] && retain > 0
    ensures RecordDecisions(stored, decisions, retain, history).Some?
    ensures TellsLast(Stored(stored), RecordDecisions(stored, decisions, retain, history).value.entries, decisions, retain)
  {
    hide Last, EntriesOf, TellsLast;
    LastTells(Stored(stored), decisions, retain);
  }

  /** What is stored once these versions have been written. */
  function Latest(versions: seq<Record>): Option<Record> {
    if versions == [] then None else Some(versions[|versions| - 1])
  }

  /** The durable object, rewritten in place after each pass. `versions` is all it
      ever held. */
  class SyncDecision {
    var present: bool
    var entries: seq<Entry>
    var lastConverged: History
    ghost var versions: seq<Record>

    ghost predicate Valid()
      reads this
    {
      Stored() == Latest(versions)
    }

    function Stored(): Option<Record>
      reads this
    {
      if present then Some(Record(entries, lastConverged)) else None
    }

    constructor ()
      ensures Stored() == None && Valid() && versions == []
    {
      present, entries, lastConverged := false, [], map[];
      versions := [];
    }

    /** internal/controller/sync_decisions.go:23-37. */
    method LoadConvergenceHistory() returns (history: History)
      ensures history == Load(Stored())
    {
      if !present {
        return map[];
      }
      history := CopyOf(lastConverged);
    }

    /** Both directions copy the map entry by entry. */
    static method CopyOf(history: History) returns (copy: History)
      ensures copy == history
    {
      copy := map[];
      var left := history.Keys;
      while left != {}
        invariant left <= history.Keys
        invariant copy == map k | k in history && k !in left :: history[k]
        decreases left
      {
        var k :| k in left;
        copy := copy[k := history[k]];
        left := left - {k};
      }
    }

    /** internal/controller/sync_decisions.go:50-94. */
    method RecordSyncDecisions(decisions: seq<Decision>, retain: int, history: History)
      requires Valid()
      modifies this
      ensures Valid() && Stored() == RecordDecisions(old(Stored()), decisions, retain, history)
      ensures versions == if decisions == [] || retain <= 0 then old(versions) else old(versions) + [Stored().value]
      ensures decisions != [] && retain > 0 ==> present && TellsLast(old(if present then entries else []), entries, decisions, retain)
    {
      hide TellsLast, EntryOf, EntriesOf;
      if decisions != [] && retain > 0 {
        RecordingTells(Stored(), decisions, retain, history);
      }
      if |decisions| == 0 || retain <= 0 {
        return;
      }
      if !present {
        present, entries, lastConverged := true, [], map[];
      }
      ghost var before := entries;
      assert EntriesOf(decisions[..0]) == [] by { NoEntries(); }
      for i := 0 to |decisions|
        invariant versions == old(versions)
        invariant present && lastConverged == if old(present) then old(lastConverged) else map[]
        invariant entries == before + EntriesOf(decisions[..i])
      {
        OneMoreEntry(decisions, i);
        entries := entries + [EntryOf(decisions[i])];
      }
      assert decisions[..|decisions|] == decisions;
      if |entries| > retain {
        entries := entries[|entries| - retain..];
      }
      if |history| > 0 {
        assert history != map[];
        lastConverged := CopyOf(history);
      }
      versions := versions + [Stored().value];
    }
  }

  // ---- the window refines the full log ----

  datatype Batch = Batch(decisions: seq<Decision>, history: History)

  function AllDecisions(batches: seq<Batch>): seq<Decision> {
    if batches == [] then []
    else AllDecisions(batches[..|batches| - 1]) + batches[|batches| - 1].decisions
  }

  function RecordBatches(batches: seq<Batch>, retain: int): Option<Record> {
    if batches == [] then None
    else
      var last := batches[|batches| - 1];
      RecordDecisions(RecordBatches(batches[..|batches| - 1], retain), last.decisions, retain, last.history)
  }

  lemma LastOfLast<T>(s: seq<T>, more: seq<T>, n: nat)
    ensures Last(Last(s, n) + more, n) == Last(s + more, n)
  {
  }

  lemma {:induction false} WindowIsLast(batches: seq<Batch>, retain: int)
    requires retain > 0
    ensures Stored(RecordBatches(batches, retain)) == Last(EntriesOf(AllDecisions(batches)), retain)
  {
    if batches != [] {
      var before, last := batches[..|batches| - 1], batches[|batches| - 1];
      WindowIsLast(before, retain);
      LastOfLast(EntriesOf(AllDecisions(before)), EntriesOf(last.decisions), retain);
      assert EntriesOf(AllDecisions(batches)) == EntriesOf(AllDecisions(before)) + EntriesOf(last.decisions);
      if last.decisions == [] {
        assert EntriesOf(AllDecisions(before)) + EntriesOf([]) == EntriesOf(AllDecisions(before));
      }
    }
  }

  /** Over every sequence of recorded batches, the window tells exactly the last
      `retain` of all decisions ever recorded, one entry each, in order. */
  lemma WindowRefinesFullLog(batches: seq<Batch>, retain: int)
    requires retain > 0
    ensures TellsLast([], Stored(RecordBatches(batches, retain)), AllDecisions(batches), retain)
  {
    hide Last, TellsLast;
    WindowIsLast(batches, retain);
    LastTells([], AllDecisions(batches), retain);
    assert [] + EntriesOf(AllDecisions(batches)) == EntriesOf(AllDecisions(batches));
  }

  /** A history that was recorded loads back equal, if and only if there was a
      decision to record, room to retain it, and an entry in the history; else
      what was there before stays. */
  lemma RecordThenLoad(stored: Option<Record>, decisions: seq<Decision>, retain: int, history: History)
    ensures Load(RecordDecisions(stored, decisions, retain, history)) == history
       <==> (decisions != [] && retain > 0 && history != map[]) || Load(stored) == history
  {
  }
}
