/**
 The log store (src/log.rs): a window of entries above a snapshot boundary.

 `Log` is the store's state as a value, with the effect of each operation as a function; the class
 `MemoryLog` is the store itself. `AsMap` is the simpler thing both must agree with: an
 index-to-entry map.
 */
module LogStore {
  import opened Types

  datatype Log = Log(entries: seq<LogEntry>, base: Index, baseTerm: Term,
                     data: Option<Bytes>, snapshotConfig: seq<NodeId>, hard: HardState)
  {
    function LastIndex(): Index { base + |entries| }

    function LastTerm(): Term {
      if entries == [] then baseTerm else entries[|entries| - 1].term
    }

    /** Slot in `entries` for `index`, if it is in `(base, last]`. */
    function Slot(index: Index): (slot: Option<nat>)
      ensures slot.Some? ==> slot.value < |entries|
    {
      if index <= base || index > LastIndex() then None else Some(index - base - 1)
    }

    function TermAt(index: Index): Option<Term> {
      if index == base then Some(baseTerm)
      else match Slot(index)
           case Some(s) => Some(entries[s].term)
           case None => None
    }

    function Entry(index: Index): Option<LogEntry> {
      match Slot(index)
      case Some(s) => Some(entries[s])
      case None => None
    }

    function Entries(from: Index, to: Index): seq<LogEntry> {
      if from == 0 then [] else
      var first := if from > base + 1 then from else base + 1;
      if to < first then [] else
      var start := first - base - 1;
      var end := if to - base < |entries| then to - base else |entries|;
      if start >= end then [] else entries[start..end]
    }

    function Append(batch: seq<LogEntry>): Result<Log, Error> {
      if batch == [] then Ok(this)
      else if batch[0].index != LastIndex() + 1 then Err(Storage("append entries"))
      else if !Contiguous(batch) then Err(Storage("append entries"))
      else Ok(this.(entries := entries + batch))
    }

    function Truncate(from: Index): Result<Log, Error> {
      if from <= base then Err(Storage("truncate log"))
      else
        var keep := from - base - 1;
        Ok(if keep < |entries| then this.(entries := entries[..keep]) else this)
    }

    function SetHardState(state: HardState): Log { this.(hard := state) }

    function CurrentSnapshot(): Option<Snapshot> {
      match data
      case Some(d) => Some(Snapshot(base, baseTerm, snapshotConfig, d))
      case None => None
    }

    function ApplySnapshot(s: Snapshot): Log {
      if s.index <= base then this
      else
        var tail :=
          if TermAt(s.index) == Some(s.term) then
            var drop := if s.index - base < |entries| then s.index - base else |entries|;
            entries[drop..]
          else [];
        Log(tail, s.index, s.term, Some(s.data), s.config, hard)
    }

    // ---- what the store means -------------------------------------------

    /** Slot k holds index `base + k + 1`. */
    ghost predicate Indexed() {
      forall k :: 0 <= k < |entries| ==> entries[k].index == base + k + 1
    }

    /** The store as a map from index to entry. */
    ghost function AsMap(): map<Index, LogEntry> {
      map i: Index | base < i <= LastIndex() :: Entry(i).value
    }
  }

  const EMPTY_LOG := Log([], 0, 0, None, [], INITIAL_HARD_STATE)

  predicate Contiguous(batch: seq<LogEntry>) {
    forall k :: 0 <= k < |batch| - 1 ==> batch[k + 1].index == batch[k].index + 1
  }

  lemma {:induction false} ContiguousAt(batch: seq<LogEntry>, k: nat)
    requires Contiguous(batch) && k < |batch|
    ensures batch[k].index == batch[0].index + k
  {
    if k > 0 {
      ContiguousAt(batch, k - 1);
      assert batch[k - 1 + 1].index == batch[k - 1].index + 1;
    }
  }

  // ---- MemoryLog refines an index-to-entry map ---------------------------

  lemma MapAt(log: Log, i: Index)
    ensures i in log.AsMap() <==> log.base < i <= log.LastIndex()
    ensures i in log.AsMap() ==> log.AsMap()[i] == log.entries[i - log.base - 1]
  {
  }

  /** An accepted append adds exactly the batch, each entry at its own index; a gap, an overlap or
      a break inside the batch is refused, and nothing else is. */
  lemma AppendRefinesMap(log: Log, batch: seq<LogEntry>, i: Index)
    requires log.Indexed()
    ensures log.Append(batch).Ok? <==>
              forall k :: 0 <= k < |batch| ==> batch[k].index == log.LastIndex() + 1 + k
    ensures log.Append(batch).Ok? ==>
              var l := log.Append(batch).value;
              && l.Indexed()
              && (i in l.AsMap() <==> i in log.AsMap() || exists e :: e in batch && e.index == i)
              && (i in log.AsMap() ==> l.AsMap()[i] == log.AsMap()[i])
              && (forall e :: e in batch && e.index == i ==> l.AsMap()[i] == e)
  {
    if log.Append(batch).Ok? {
      var l := log.Append(batch).value;
      forall k | 0 <= k < |batch| ensures batch[k].index == log.LastIndex() + 1 + k {
        ContiguousAt(batch, k);
      }
      MapAt(l, i);
      MapAt(log, i);
      if log.LastIndex() < i <= l.LastIndex() {
        var e := batch[i - log.LastIndex() - 1];
        assert e in batch && e.index == i;
      }
    }
  }

  /** Truncation removes exactly the indices at or above `from`; it refuses only to cut into the
      snapshot. */
  lemma TruncateRefinesMap(log: Log, from: Index, i: Index)
    requires log.Indexed()
    ensures log.Truncate(from).Ok? <==> from > log.base
    ensures log.Truncate(from).Ok? ==>
              var l := log.Truncate(from).value;
              && l.Indexed()
              && (i in l.AsMap() <==> i in log.AsMap() && i < from)
              && (i in l.AsMap() ==> l.AsMap()[i] == log.AsMap()[i])
  {
    MapAt(log, i);
    if log.Truncate(from).Ok? { MapAt(log.Truncate(from).value, i); }
  }

  /** Installing a snapshot keeps exactly the entries above it, and those only when the log agrees
      with the snapshot at its boundary. */
  lemma ApplySnapshotRefinesMap(log: Log, s: Snapshot, i: Index)
    requires log.Indexed()
    ensures var l := log.ApplySnapshot(s);
            && l.Indexed()
            && l.base == (if s.index > log.base then s.index else log.base)
            && (i in l.AsMap() <==>
                  i in log.AsMap() && i > l.base
                  && (s.index <= log.base || log.TermAt(s.index) == Some(s.term)))
            && (i in l.AsMap() ==> l.AsMap()[i] == log.AsMap()[i])
            && (s.index > log.base ==> l.TermAt(s.index) == Some(s.term)
                                       && l.CurrentSnapshot() == Some(s))
            && l.hard == log.hard
  {
    MapAt(log, i);
    MapAt(log.ApplySnapshot(s), i);
  }

  /** Reads answer from the map, except that the boundary index still has a term. */
  lemma ReadsRefineMap(log: Log, i: Index)
    ensures log.Entry(i) == if i in log.AsMap() then Some(log.AsMap()[i]) else None
    ensures log.TermAt(i) == if i == log.base then Some(log.baseTerm)
                             else if i in log.AsMap() then Some(log.AsMap()[i].term)
                             else None
  {
  }

  // ---- the bulk read against the trait's default loop --------------------

  ghost function PresentAt(log: Log, index: Index): seq<LogEntry> {
    match log.Entry(index)
    case Some(e) => [e]
    case None => []
  }

  /** Widening the bulk slice by one index adds exactly what a read of that index returns. */
  lemma EntriesGrow(log: Log, from: Index, last: Index)
    requires 1 <= from <= last
    ensures log.Entries(from, last) == log.Entries(from, last - 1) + PresentAt(log, last)
  {
  }

  /** The in-memory store. */
  class MemoryLog {
    var entries: seq<LogEntry>
    var baseIndex: Index
    var baseTerm: Term
    var snapshot: Option<Bytes>
    var snapshotConfig: seq<NodeId>
    var hard: HardState

    function View(): Log
      reads this
    {
      Log(entries, baseIndex, baseTerm, snapshot, snapshotConfig, hard)
    }

    constructor ()
      ensures View() == EMPTY_LOG
    {
      entries, baseIndex, baseTerm := [], 0, 0;
      snapshot, snapshotConfig, hard := None, [], INITIAL_HARD_STATE;
    }

    method Append(batch: seq<LogEntry>) returns (r: Result<(), Error>)
      modifies this
      ensures r.Ok? <==> old(View()).Append(batch).Ok?
      ensures r.Ok? ==> View() == old(View()).Append(batch).value
      ensures r.Err? ==> View() == old(View()) && r.error == old(View()).Append(batch).error
    {
      if batch == [] { return Ok(()); }
      var expected := View().LastIndex() + 1;
      if batch[0].index != expected { return Err(Storage("append entries")); }
      for k := 0 to |batch| - 1
        invariant forall j :: 0 <= j < k ==> batch[j + 1].index == batch[j].index + 1
        invariant View() == old(View())
      {
        if batch[k + 1].index != batch[k].index + 1 { return Err(Storage("append entries")); }
      }
      entries := entries + batch;
      return Ok(());
    }

    method Truncate(from: Index) returns (r: Result<(), Error>)
      modifies this
      ensures r.Ok? <==> old(View()).Truncate(from).Ok?
      ensures r.Ok? ==> View() == old(View()).Truncate(from).value
      ensures r.Err? ==> View() == old(View()) && r.error == old(View()).Truncate(from).error
    {
      if from <= baseIndex { return Err(Storage("truncate log")); }
      var keep := from - baseIndex - 1;
      if keep < |entries| { entries := entries[..keep]; }
      return Ok(());
    }

    method SetHardState(state: HardState)
      modifies this`hard
      ensures View() == old(View()).SetHardState(state)
    {
      hard := state;
    }

    method ApplySnapshot(s: Snapshot)
      modifies this
      ensures View() == old(View()).ApplySnapshot(s)
    {
      if s.index <= baseIndex { return; }
      if View().TermAt(s.index) == Some(s.term) {
        var drop := if s.index - baseIndex < |entries| then s.index - baseIndex else |entries|;
        entries := entries[drop..];
      } else {
        entries := [];
      }
      baseIndex, baseTerm := s.index, s.term;
      snapshot, snapshotConfig := Some(s.data), s.config;
    }

    /** The trait's default `entries`: one read per index. It returns what the bulk slice does, for
        every range, including one that straddles the snapshot boundary. */
    method EntriesByDefault(from: Index, to: Index) returns (out: seq<LogEntry>)
      ensures out == View().Entries(from, to)
    {
      if from == 0 || to < from { return []; }
      out := [];
      var index := from;
      while index <= to
        invariant from <= index <= to + 1
        invariant out == View().Entries(from, index - 1)
      {
        EntriesGrow(View(), from, index);
        match View().Entry(index) {
          case Some(e) => out := out + [e];
          case None =>
        }
        index := index + 1;
      }
    }
  }
}
