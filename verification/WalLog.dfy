/**
 The durable log (src/wal_log.rs): a sequence of records, one or two per mutation, and an in-memory
 index that mirrors them. Opening the log replays the records from an empty index.

 The write-ahead log itself is not part of this model: it is the sequence of the records appended.
 */
module WalStore {
  import opened Types
  import opened LogStore
  import opened RecordCodec

  // ---- replay ------------------------------------------------------------

  function Replayed(log: Log, r: Record): Result<Log, Error> {
    match r
    case EntryRecord(e) => log.Append([e])
    case HardStateRecord(h) => Ok(log.SetHardState(h))
    case TruncateRecord(from) => log.Truncate(from)
    case SnapshotRecord(s) => Ok(log.ApplySnapshot(s))
  }

  function Replay(log: Log, records: seq<Bytes>): Result<Log, Error>
    decreases |records|
  {
    if records == [] then Ok(log)
    else
      var r :- Decoded(records[0]);
      var next :- Replayed(log, r);
      Replay(next, records[1..])
  }

  lemma {:induction false} ReplayJoin(log: Log, a: seq<Bytes>, b: seq<Bytes>)
    ensures Replay(log, a + b) == if Replay(log, a).Ok? then Replay(Replay(log, a).value, b) else Replay(log, a)
    decreases |a|
  {
    hide Decoded, Replayed;
    if a == [] {
      assert a + b == b;
    } else {
      assert (a + b)[1..] == a[1..] + b;
      if Decoded(a[0]).Ok? && Replayed(log, Decoded(a[0]).value).Ok? {
        ReplayJoin(Replayed(log, Decoded(a[0]).value).value, a[1..], b);
      }
    }
  }

  lemma ReplayOne(log: Log, r: Record)
    requires RecordFits(r)
    ensures Replay(log, [RecordBytes(r)]) == Replayed(log, r)
  {
    hide Decoded, RecordBytes, Replayed;
    RecordRoundTrip(r);
  }

  // ---- mutations, and the records they write -----------------------------

  datatype Mutation =
    | Append(entries: seq<LogEntry>)
    | Truncate(from: Index)
    | SetHardState(state: HardState)
    | ApplySnapshot(snapshot: Snapshot)

  predicate MutationFits(m: Mutation) {
    match m
    case Append(entries) => forall e :: e in entries ==> EntryFits(e)
    case Truncate(from) => Fits(from)
    case SetHardState(h) => HardStateFits(h)
    case ApplySnapshot(s) => SnapshotFits(s)
  }

  function Mutated(log: Log, m: Mutation): Result<Log, Error> {
    match m
    case Append(entries) => log.Append(entries)
    case Truncate(from) => log.Truncate(from)
    case SetHardState(h) => Ok(log.SetHardState(h))
    case ApplySnapshot(s) => Ok(log.ApplySnapshot(s))
  }

  function EntryRecords(entries: seq<LogEntry>): seq<Bytes>
    requires forall e :: e in entries ==> EntryFits(e)
  {
    if entries == [] then []
    else EntryRecords(entries[..|entries| - 1]) + [EntryBytes(entries[|entries| - 1])]
  }

  function Written(log: Log, m: Mutation): seq<Bytes>
    requires MutationFits(m) && HardStateFits(log.hard)
  {
    match m
    case Append(entries) => EntryRecords(entries)
    case Truncate(from) => [TruncateBytes(from)]
    case SetHardState(h) => [HardStateBytes(h)]
    case ApplySnapshot(s) => if s.index <= log.base then [] else [SnapshotBytes(s), HardStateBytes(log.hard)]
  }

  /** A mutation the index refuses changes nothing and writes nothing. */
  function After(log: Log, m: Mutation): Log {
    if Mutated(log, m).Ok? then Mutated(log, m).value else log
  }

  function Records(log: Log, m: Mutation): seq<Bytes>
    requires MutationFits(m) && HardStateFits(log.hard)
  {
    if Mutated(log, m).Ok? then Written(log, m) else []
  }

  lemma AfterFits(log: Log, m: Mutation)
    requires MutationFits(m) && HardStateFits(log.hard)
    ensures HardStateFits(After(log, m).hard)
  {
  }

  lemma AppendFront(log: Log, entries: seq<LogEntry>)
    requires entries != [] && log.Append(entries).Ok?
    ensures var front, last := entries[..|entries| - 1], entries[|entries| - 1];
            && log.Append(front).Ok?
            && log.Append(front).value.Append([last]) == log.Append(entries)
  {
    var front, last := entries[..|entries| - 1], entries[|entries| - 1];
    ContiguousAt(entries, |entries| - 1);
    if front == [] {
      assert entries == [last];
    } else {
      assert log.entries + entries == log.entries + front + [last];
    }
  }

  /** Replaying a batch's records one by one appends the batch. */
  lemma {:induction false} ReplayEntries(log: Log, entries: seq<LogEntry>)
    requires (forall e :: e in entries ==> EntryFits(e)) && log.Append(entries).Ok?
    ensures Replay(log, EntryRecords(entries)) == log.Append(entries)
  {
    hide Replay, EntryBytes, Contiguous, Log.Append;
    if entries == [] {
      EmptyAppend(log);
    } else {
      var front, last := entries[..|entries| - 1], entries[|entries| - 1];
      AppendFront(log, entries);
      ReplayEntries(log, front);
      ReplayJoin(log, EntryRecords(front), [EntryBytes(last)]);
      EntryReplays(log.Append(front).value, last);
    }
  }

  lemma EmptyAppend(log: Log)
    ensures log.Append([]) == Ok(log) && Replay(log, []) == Ok(log)
  {
  }

  lemma EntryReplays(log: Log, e: LogEntry)
    requires EntryFits(e)
    ensures Replay(log, [EntryBytes(e)]) == log.Append([e])
  {
    ReplayOne(log, EntryRecord(e));
  }

  lemma SnapshotReplays(log: Log, s: Snapshot, h: HardState)
    requires SnapshotFits(s) && HardStateFits(h)
    ensures Replay(log, [SnapshotBytes(s), HardStateBytes(h)]) == Ok(log.ApplySnapshot(s).SetHardState(h))
  {
    hide Decoded, SnapshotBytes, HardStateBytes, Log.ApplySnapshot;
    ReplayOne(log, SnapshotRecord(s));
    ReplayOne(log.ApplySnapshot(s), HardStateRecord(h));
    ReplayJoin(log, [SnapshotBytes(s)], [HardStateBytes(h)]);
    assert [SnapshotBytes(s)] + [HardStateBytes(h)] == [SnapshotBytes(s), HardStateBytes(h)];
  }

  /** Replaying what a mutation wrote does what the mutation did. */
  lemma ReplayMutation(log: Log, m: Mutation)
    requires MutationFits(m) && HardStateFits(log.hard)
    ensures Replay(log, Records(log, m)) == Ok(After(log, m))
  {
    if Mutated(log, m).Ok? {
      match m {
        case Append(entries) => ReplayEntries(log, entries);
        case Truncate(from) => ReplayOne(log, TruncateRecord(from));
        case SetHardState(h) => ReplayOne(log, HardStateRecord(h));
        case ApplySnapshot(s) => if s.index > log.base { SnapshotReplays(log, s, log.hard); }
      }
    }
  }

  // ---- every history -----------------------------------------------------

  predicate AllFit(ms: seq<Mutation>) {
    forall m :: m in ms ==> MutationFits(m)
  }

  function AfterAll(log: Log, ms: seq<Mutation>): Log
    decreases |ms|
  {
    if ms == [] then log else AfterAll(After(log, ms[0]), ms[1..])
  }

  function AllRecords(log: Log, ms: seq<Mutation>): seq<Bytes>
    requires AllFit(ms) && HardStateFits(log.hard)
    decreases |ms|
  {
    if ms == [] then []
    else
      AfterFits(log, ms[0]);
      Records(log, ms[0]) + AllRecords(After(log, ms[0]), ms[1..])
  }

  lemma {:induction false} ReplayContinues(log: Log, ms: seq<Mutation>)
    requires AllFit(ms) && HardStateFits(log.hard)
    ensures Replay(log, AllRecords(log, ms)) == Ok(AfterAll(log, ms))
    decreases |ms|
  {
    hide Replay, Records, After, MutationFits, HardStateFits;
    if ms == [] {
      EmptyAppend(log);
    } else {
      AfterFits(log, ms[0]);
      ReplayMutation(log, ms[0]);
      ReplayContinues(After(log, ms[0]), ms[1..]);
      ReplayJoin(log, Records(log, ms[0]), AllRecords(After(log, ms[0]), ms[1..]));
    }
  }

  /** Recovery is exact: whatever the history of mutations, replaying all its records from an empty
      index gives the live index. A crash that loses the last of them still leaves a log that opens. */
  lemma ReplayIsExact(ms: seq<Mutation>, k: nat)
    requires AllFit(ms) && k <= |AllRecords(EMPTY_LOG, ms)|
    ensures Replay(EMPTY_LOG, AllRecords(EMPTY_LOG, ms)) == Ok(AfterAll(EMPTY_LOG, ms))
    ensures Replay(EMPTY_LOG, AllRecords(EMPTY_LOG, ms)[..k]).Ok?
  {
    var all := AllRecords(EMPTY_LOG, ms);
    ReplayContinues(EMPTY_LOG, ms);
    assert all == all[..k] + all[k..];
    ReplayJoin(EMPTY_LOG, all[..k], all[k..]);
  }

  // ---- replay from a snapshot onward -------------------------------------

  /** Whether a snapshot leaves a tail above it, as the caller can tell before installing it. */
  predicate LeavesTail(log: Log, s: Snapshot) {
    log.TermAt(s.index) == Some(s.term) && s.index < log.LastIndex()
  }

  /** From the snapshot record on, replay recovers all but the tail: so it recovers the live state
      exactly when the snapshot left none. */
  lemma ReplayFromSnapshot(log: Log, s: Snapshot)
    requires SnapshotFits(s) && HardStateFits(log.hard) && s.index > log.base
    ensures var live := After(log, ApplySnapshot(s));
            var suffix := Records(log, ApplySnapshot(s));
            && Replay(EMPTY_LOG, suffix) == Ok(live.(entries := []))
            && (Replay(EMPTY_LOG, suffix) == Ok(live) <==> !LeavesTail(log, s))
  {
    hide Replay, SnapshotBytes, HardStateBytes;
    SnapshotReplays(EMPTY_LOG, s, log.hard);
    var live := After(log, ApplySnapshot(s));
    assert live.entries == [] <==> !LeavesTail(log, s);
    if live.entries == [] { assert live.(entries := []) == live; }
  }

  /** If it left none, the earlier records are never needed again, whatever follows. */
  lemma ReplayPastSnapshot(log: Log, s: Snapshot, ms: seq<Mutation>)
    requires SnapshotFits(s) && HardStateFits(log.hard) && s.index > log.base && !LeavesTail(log, s) && AllFit(ms)
    ensures var live := After(log, ApplySnapshot(s));
            && HardStateFits(live.hard)
            && Replay(EMPTY_LOG, Records(log, ApplySnapshot(s)) + AllRecords(live, ms)) == Ok(AfterAll(live, ms))
  {
    hide Replay, AllRecords, AfterAll, Records, LeavesTail, AllFit;
    var live := After(log, ApplySnapshot(s));
    AfterFits(log, ApplySnapshot(s));
    ReplayFromSnapshot(log, s);
    ReplayContinues(live, ms);
    ReplayJoin(EMPTY_LOG, Records(log, ApplySnapshot(s)), AllRecords(live, ms));
  }

  /** If it left one, the next entry appended cannot be replayed without the earlier records. */
  lemma TailNeedsEarlierRecords(log: Log, s: Snapshot, e: LogEntry)
    requires SnapshotFits(s) && HardStateFits(log.hard) && s.index > log.base && LeavesTail(log, s)
    requires EntryFits(e) && After(log, ApplySnapshot(s)).Append([e]).Ok?
    ensures Replay(EMPTY_LOG, Records(log, ApplySnapshot(s)) + [EntryBytes(e)]).Err?
  {
    hide Replay, EntryBytes, Records;
    ReplayFromSnapshot(log, s);
    ReplayJoin(EMPTY_LOG, Records(log, ApplySnapshot(s)), [EntryBytes(e)]);
    EntryReplays(After(log, ApplySnapshot(s)).(entries := []), e);
  }

  /** A store of two entries and a snapshot at the first: the second is the tail. */
  lemma SnapshotsLeaveTails()
    ensures var log := EMPTY_LOG.(entries := [NormalEntry(1, 1, []), NormalEntry(1, 2, [])]);
            var s := Snapshot(1, 1, [], []);
            && log.Indexed() && SnapshotFits(s) && HardStateFits(log.hard) && s.index > log.base && LeavesTail(log, s)
            && AfterAll(EMPTY_LOG, [Append(log.entries)]) == log
            && After(log, ApplySnapshot(s)).entries == [NormalEntry(1, 2, [])]
            && Replay(EMPTY_LOG, Records(log, ApplySnapshot(s)) + [EntryBytes(NormalEntry(1, 3, []))]).Err?
  {
    hide Replay, EntryBytes, Records;
    var log := EMPTY_LOG.(entries := [NormalEntry(1, 1, []), NormalEntry(1, 2, [])]);
    var s := Snapshot(1, 1, [], []);
    assert After(EMPTY_LOG, Append(log.entries)) == log;
    assert After(log, ApplySnapshot(s)).entries == [NormalEntry(1, 2, [])];
    TailNeedsEarlierRecords(log, s, NormalEntry(1, 3, []));
  }

  // ---- the store ---------------------------------------------------------

  class WalLog {
    var records: seq<Bytes>
    const index: MemoryLog

    /** The index is what replaying the records gives. */
    ghost predicate Valid()
      reads this, index
    {
      Replay(EMPTY_LOG, records) == Ok(index.View()) && HardStateFits(index.View().hard)
    }

    constructor (records: seq<Bytes>, index: MemoryLog)
      ensures this.records == records && this.index == index
    {
      this.records, this.index := records, index;
    }

    /** Opening replays every record; it fails only where replay does. */
    static method Open(records: seq<Bytes>) returns (r: Result<WalLog, Error>)
      ensures r.Ok? <==> Replay(EMPTY_LOG, records).Ok?
      ensures r.Ok? ==> fresh(r.value) && fresh(r.value.index) && r.value.Valid() && r.value.records == records
      ensures r.Err? ==> r.error == Replay(EMPTY_LOG, records).error
    {
      var index := new MemoryLog();
      for i := 0 to |records|
        invariant fresh(index) && HardStateFits(index.View().hard)
        invariant Replay(EMPTY_LOG, records) == Replay(index.View(), records[i..])
      {
        var record := Decode(records[i]);
        if record.Err? { return Err(record.error); }
        RecordOnlyFromEncoding(records[i], record.value);
        var done := Redo(index, record.value);
        if done.Err? { return Err(done.error); }
      }
      var log := new WalLog(records, index);
      return Ok(log);
    }

    static method Redo(index: MemoryLog, record: Record) returns (r: Result<(), Error>)
      requires RecordFits(record) && HardStateFits(index.View().hard)
      modifies index
      ensures r.Ok? <==> Replayed(old(index.View()), record).Ok?
      ensures r.Ok? ==> Ok(index.View()) == Replayed(old(index.View()), record) && HardStateFits(index.View().hard)
      ensures r.Err? ==> r.error == Replayed(old(index.View()), record).error
    {
      match record {
        case EntryRecord(e) => r := index.Append([e]);
        case HardStateRecord(h) => index.SetHardState(h); r := Ok(());
        case TruncateRecord(from) => r := index.Truncate(from);
        case SnapshotRecord(s) => index.ApplySnapshot(s); r := Ok(());
      }
    }

    /** The store after a mutation that found it at `before`, with `written` in the records. */
    ghost predicate Performed(before: Log, written: seq<Bytes>, m: Mutation, r: Result<(), Error>)
      requires MutationFits(m) && HardStateFits(before.hard)
      reads this, index
    {
      && index.View() == After(before, m)
      && records == written + Records(before, m)
      && (r.Ok? <==> Mutated(before, m).Ok?)
      && (r.Err? ==> r.error == Mutated(before, m).error)
    }

    method Append(entries: seq<LogEntry>) returns (r: Result<(), Error>)
      requires Valid() && forall e :: e in entries ==> EntryFits(e)
      modifies this, index
      ensures Valid() && Performed(old(index.View()), old(records), Mutation.Append(entries), r)
    {
      ghost var m := Mutation.Append(entries);
      Keeps(m);
      r := index.Append(entries);
      if r.Err? { return; }
      for i := 0 to |entries|
        invariant index.View() == old(index.View()).Append(entries).value
        invariant records == old(records) + EntryRecords(entries[..i])
      {
        assert entries[..i + 1][..i] == entries[..i];
        var record := EncodeEntry(entries[i]);
        records := records + [record];
      }
      assert entries[..|entries|] == entries;
    }

    method Truncate(from: Index) returns (r: Result<(), Error>)
      requires Valid() && Fits(from)
      modifies this, index
      ensures Valid() && Performed(old(index.View()), old(records), Mutation.Truncate(from), r)
    {
      Keeps(Mutation.Truncate(from));
      r := index.Truncate(from);
      if r.Err? { return; }
      var record := EncodeTruncate(from);
      records := records + [record];
    }

    method SetHardState(state: HardState) returns (r: Result<(), Error>)
      requires Valid() && HardStateFits(state)
      modifies this, index
      ensures Valid() && Performed(old(index.View()), old(records), Mutation.SetHardState(state), r)
    {
      Keeps(Mutation.SetHardState(state));
      index.SetHardState(state);
      var record := EncodeHardState(state);
      records := records + [record];
      r := Ok(());
    }

    /** The snapshot record, then the hard state again so that it stands after the snapshot. */
    method ApplySnapshot(s: Snapshot) returns (r: Result<(), Error>)
      requires Valid() && SnapshotFits(s)
      modifies this, index
      ensures Valid() && Performed(old(index.View()), old(records), Mutation.ApplySnapshot(s), r)
    {
      Keeps(Mutation.ApplySnapshot(s));
      if s.index <= index.baseIndex {
        assert records + [] == records;
        return Ok(());
      }
      index.ApplySnapshot(s);
      var record := EncodeSnapshot(s);
      records := records + [record];
      var state := EncodeHardState(index.hard);
      records := records + [state];
      assert records == old(records) + [record, state];
      r := Ok(());
    }

    /** What a mutation will write keeps the index and the records in step. */
    lemma Keeps(m: Mutation)
      requires Valid() && MutationFits(m)
      ensures Replay(EMPTY_LOG, records + Records(index.View(), m)) == Ok(After(index.View(), m))
      ensures HardStateFits(After(index.View(), m).hard)
    {
      hide Replay, Records, After;
      ReplayMutation(index.View(), m);
      ReplayJoin(EMPTY_LOG, records, Records(index.View(), m));
      AfterFits(index.View(), m);
    }
  }
}
