/**
 The record codec of the durable log (src/wal_log.rs): one tagged, little-endian record per mutation.

 The `…Bytes` functions say what a record is; the `Encode…` and `Decode` methods build and read it
 step by step and are proved to agree with them.
 */
module RecordCodec {
  import opened LittleEndian
  import opened Types

  datatype Record =
    | EntryRecord(entry: LogEntry)
    | HardStateRecord(state: HardState)
    | TruncateRecord(from: Index)
    | SnapshotRecord(snapshot: Snapshot)

  const TAG_ENTRY: Byte := 1
  const TAG_HARD_STATE: Byte := 2
  const TAG_TRUNCATE: Byte := 3
  const TAG_SNAPSHOT: Byte := 4

  const DECODE_ERROR := Storage("decode durable log record")

  // ---- 64-bit fields -----------------------------------------------------

  predicate Fits(x: nat) { x < 0x1_0000_0000_0000_0000 }

  predicate EntryFits(e: LogEntry) { Fits(e.term) && Fits(e.index) && Fits(|e.command|) }

  predicate HardStateFits(h: HardState) { Fits(h.term) }

  predicate SnapshotFits(s: Snapshot) { Fits(s.index) && Fits(s.term) && Fits(|s.config|) && Fits(|s.data|) }

  predicate RecordFits(r: Record) {
    match r
    case EntryRecord(e) => EntryFits(e)
    case HardStateRecord(h) => HardStateFits(h)
    case TruncateRecord(from) => Fits(from)
    case SnapshotRecord(s) => SnapshotFits(s)
  }

  // ---- what a record is --------------------------------------------------

  function KindByte(kind: EntryKind): Byte {
    match kind case Normal => 0 case Config => 1
  }

  function KindFromByte(b: Byte): Result<EntryKind, Error> {
    if b == 0 then Ok(Normal) else if b == 1 then Ok(Config) else Err(DECODE_ERROR)
  }

  function EntryBytes(e: LogEntry): Bytes
    requires EntryFits(e)
  {
    [TAG_ENTRY] + U64Bytes(e.term) + U64Bytes(e.index) + [KindByte(e.kind)] + U64Bytes(|e.command|) + e.command
  }

  function HardStateBytes(h: HardState): Bytes
    requires HardStateFits(h)
  {
    [TAG_HARD_STATE] + U64Bytes(h.term)
    + (match h.votedFor
       case Some(id) => [1] + U64Bytes(id)
       case None => [0] + U64Bytes(0))
  }

  function TruncateBytes(from: Index): Bytes
    requires Fits(from)
  {
    [TAG_TRUNCATE] + U64Bytes(from)
  }

  function SnapshotBytes(s: Snapshot): Bytes
    requires SnapshotFits(s)
  {
    [TAG_SNAPSHOT] + U64Bytes(s.index) + U64Bytes(s.term) + U64Bytes(|s.config|) + MembersBytes(s.config)
    + U64Bytes(|s.data|) + s.data
  }

  function RecordBytes(r: Record): Bytes
    requires RecordFits(r)
  {
    match r
    case EntryRecord(e) => EntryBytes(e)
    case HardStateRecord(h) => HardStateBytes(h)
    case TruncateRecord(from) => TruncateBytes(from)
    case SnapshotRecord(s) => SnapshotBytes(s)
  }

  // ---- encoding ----------------------------------------------------------

  method EncodeEntry(e: LogEntry) returns (buf: Bytes)
    requires EntryFits(e)
    ensures buf == EntryBytes(e)
    ensures Decoded(buf) == Ok(EntryRecord(e))
  {
    buf := [TAG_ENTRY];
    buf := buf + U64Bytes(e.term);
    buf := buf + U64Bytes(e.index);
    buf := buf + [KindByte(e.kind)];
    buf := buf + U64Bytes(|e.command|);
    buf := buf + e.command;
    EntryRoundTrip(e);
  }

  method EncodeHardState(h: HardState) returns (buf: Bytes)
    requires HardStateFits(h)
    ensures buf == HardStateBytes(h)
    ensures Decoded(buf) == Ok(HardStateRecord(h))
  {
    buf := [TAG_HARD_STATE];
    buf := buf + U64Bytes(h.term);
    match h.votedFor {
      case Some(id) =>
        buf := buf + [1];
        buf := buf + U64Bytes(id);
      case None =>
        buf := buf + [0];
        buf := buf + U64Bytes(0);
    }
    HardStateRoundTrip(h);
  }

  method EncodeTruncate(from: Index) returns (buf: Bytes)
    requires Fits(from)
    ensures buf == TruncateBytes(from)
    ensures Decoded(buf) == Ok(TruncateRecord(from))
  {
    buf := [TAG_TRUNCATE];
    buf := buf + U64Bytes(from);
    TruncateRoundTrip(from);
  }

  method EncodeSnapshot(s: Snapshot) returns (buf: Bytes)
    requires SnapshotFits(s)
    ensures buf == SnapshotBytes(s)
    ensures Decoded(buf) == Ok(SnapshotRecord(s))
  {
    buf := [TAG_SNAPSHOT];
    buf := buf + U64Bytes(s.index);
    buf := buf + U64Bytes(s.term);
    buf := buf + U64Bytes(|s.config|);
    ghost var head := buf;
    for i := 0 to |s.config|
      invariant buf == head + MembersBytes(s.config[..i])
    {
      assert s.config[..i + 1][..i] == s.config[..i];
      buf := buf + U64Bytes(s.config[i]);
    }
    assert s.config[..|s.config|] == s.config;
    buf := buf + U64Bytes(|s.data|);
    buf := buf + s.data;
    SnapshotRoundTrip(s);
  }

  // ---- decoding ----------------------------------------------------------

  function ReadU64(data: Bytes, offset: nat): (r: Result<U64, Error>)
    ensures r.Ok? <==> offset + 8 <= |data|
  {
    if offset + 8 <= |data| then Ok(U64At(data[offset..offset + 8])) else Err(DECODE_ERROR)
  }

  function ReadByte(data: Bytes, offset: nat): Result<Byte, Error> {
    if offset < |data| then Ok(data[offset]) else Err(DECODE_ERROR)
  }

  /** The bytes from `start`, if there are exactly `len` of them. */
  function ReadRest(data: Bytes, start: nat, len: nat): Result<Bytes, Error> {
    if start + len == |data| then Ok(data[start..]) else Err(DECODE_ERROR)
  }

  function DecodedEntry(data: Bytes): Result<Record, Error> {
    var term :- ReadU64(data, 1);
    var index :- ReadU64(data, 9);
    var kindByte :- ReadByte(data, 17);
    var kind :- KindFromByte(kindByte);
    var len :- ReadU64(data, 18);
    var command :- ReadRest(data, 26, len);
    Ok(EntryRecord(LogEntry(term, index, kind, command)))
  }

  function DecodedHardState(data: Bytes): Result<Record, Error> {
    var term :- ReadU64(data, 1);
    var flag :- ReadByte(data, 9);
    var vote :- ReadU64(data, 10);
    Ok(HardStateRecord(HardState(term, if flag == 1 then Some(vote) else None)))
  }

  function DecodedTruncate(data: Bytes): Result<Record, Error> {
    var from :- ReadU64(data, 1);
    Ok(TruncateRecord(from))
  }

  /** How many members can be present at all in a snapshot record of this length. */
  function MaxMembers(data: Bytes): nat {
    (if |data| > 25 then |data| - 25 else 0) / 8
  }

  function DecodedSnapshot(data: Bytes): Result<Record, Error> {
    var index :- ReadU64(data, 1);
    var term :- ReadU64(data, 9);
    var count :- ReadU64(data, 17);
    if count > MaxMembers(data) then Err(DECODE_ERROR)
    else
      var off := 25 + 8 * count;
      var len :- ReadU64(data, off);
      var body :- ReadRest(data, off + 8, len);
      Ok(SnapshotRecord(Snapshot(index, term, DecodeMembers(data[25..off]), body)))
  }

  function Decoded(data: Bytes): Result<Record, Error> {
    if data == [] then Err(DECODE_ERROR)
    else if data[0] == TAG_ENTRY then DecodedEntry(data)
    else if data[0] == TAG_HARD_STATE then DecodedHardState(data)
    else if data[0] == TAG_TRUNCATE then DecodedTruncate(data)
    else if data[0] == TAG_SNAPSHOT then DecodedSnapshot(data)
    else Err(DECODE_ERROR)
  }

  /** Reading a record, with its offset moving over a snapshot's members one by one. */
  method Decode(data: Bytes) returns (r: Result<Record, Error>)
    ensures r == Decoded(data)
  {
    if data == [] { return Err(DECODE_ERROR); }
    var tag := data[0];
    if tag == TAG_ENTRY {
      r := DecodedEntry(data);
    } else if tag == TAG_HARD_STATE {
      r := DecodedHardState(data);
    } else if tag == TAG_TRUNCATE {
      r := DecodedTruncate(data);
    } else if tag == TAG_SNAPSHOT {
      r := DecodeSnapshot(data);
    } else {
      r := Err(DECODE_ERROR);
    }
  }

  method DecodeSnapshot(data: Bytes) returns (r: Result<Record, Error>)
    ensures r == DecodedSnapshot(data)
  {
    var index :- ReadU64(data, 1);
    var term :- ReadU64(data, 9);
    var count :- ReadU64(data, 17);
    if count > MaxMembers(data) { return Err(DECODE_ERROR); }
    var config: seq<NodeId> := [];
    var off := 25;
    for i := 0 to count
      invariant off == 25 + 8 * i
      invariant config == DecodeMembers(data[25..off])
    {
      NextMember(data, off);
      config := config + [U64At(data[off..off + 8])];
      off := off + 8;
    }
    var len :- ReadU64(data, off);
    var body :- ReadRest(data, off + 8, len);
    r := Ok(SnapshotRecord(Snapshot(index, term, config, body)));
  }

  lemma NextMember(data: Bytes, off: nat)
    requires 25 <= off && off + 8 <= |data| && (off - 25) % 8 == 0
    ensures DecodeMembers(data[25..off + 8]) == DecodeMembers(data[25..off]) + [U64At(data[off..off + 8])]
  {
    assert data[25..off + 8] == data[25..off] + data[off..off + 8];
    MembersExtend(data[25..off], data[off..off + 8]);
  }

  lemma {:induction false} MembersExtend(bytes: Bytes, group: Bytes)
    requires |bytes| % 8 == 0 && |group| == 8
    ensures DecodeMembers(bytes + group) == DecodeMembers(bytes) + [U64At(group)]
    decreases |bytes|
  {
    if bytes == [] {
      assert bytes + group == group && group[..8] == group && DecodeMembers(group[8..]) == [];
    } else {
      assert (bytes + group)[..8] == bytes[..8] && (bytes + group)[8..] == bytes[8..] + group;
      MembersExtend(bytes[8..], group);
    }
  }

  // ---- round trips -------------------------------------------------------

  lemma ReadBack(data: Bytes, offset: nat, x: U64)
    requires offset + 8 <= |data| && data[offset..offset + 8] == U64Bytes(x)
    ensures ReadU64(data, offset) == Ok(x)
  {
    U64RoundTrip(x, U64Bytes(x));
  }

  lemma EntryRoundTrip(e: LogEntry)
    requires EntryFits(e)
    ensures Decoded(EntryBytes(e)) == Ok(EntryRecord(e))
  {
    hide U64Bytes, ReadU64;
    var data := EntryBytes(e);
    ReadBack(data, 1, e.term);
    ReadBack(data, 9, e.index);
    ReadBack(data, 18, |e.command|);
    assert data[26..] == e.command;
  }

  lemma HardStateRoundTrip(h: HardState)
    requires HardStateFits(h)
    ensures Decoded(HardStateBytes(h)) == Ok(HardStateRecord(h))
  {
    hide U64Bytes, ReadU64;
    var data := HardStateBytes(h);
    ReadBack(data, 1, h.term);
    ReadBack(data, 10, if h.votedFor.Some? then h.votedFor.value else 0);
  }

  lemma TruncateRoundTrip(from: Index)
    requires Fits(from)
    ensures Decoded(TruncateBytes(from)) == Ok(TruncateRecord(from))
  {
    ReadBack(TruncateBytes(from), 1, from);
  }

  lemma SnapshotRoundTrip(s: Snapshot)
    requires SnapshotFits(s)
    ensures Decoded(SnapshotBytes(s)) == Ok(SnapshotRecord(s))
  {
    hide U64Bytes, ReadU64, MembersBytes, DecodeMembers;
    var data := SnapshotBytes(s);
    var off := 25 + 8 * |s.config|;
    ReadBack(data, 1, s.index);
    ReadBack(data, 9, s.term);
    ReadBack(data, 17, |s.config|);
    ReadBack(data, off, |s.data|);
    assert data[off + 8..] == s.data;
    assert data[25..off] == MembersBytes(s.config) + [];
    MembersRoundTrip(s.config, []);
  }

  /** Decoding the encoding of any record with 64-bit fields returns it. */
  lemma RecordRoundTrip(r: Record)
    requires RecordFits(r)
    ensures Decoded(RecordBytes(r)) == Ok(r)
  {
    match r {
      case EntryRecord(e) => EntryRoundTrip(e);
      case HardStateRecord(h) => HardStateRoundTrip(h);
      case TruncateRecord(from) => TruncateRoundTrip(from);
      case SnapshotRecord(s) => SnapshotRoundTrip(s);
    }
  }

  lemma WrittenBack(data: Bytes, offset: nat)
    requires offset + 8 <= |data|
    ensures ReadU64(data, offset).Ok? && U64Bytes(ReadU64(data, offset).value) == data[offset..offset + 8]
  {
    U64RoundTrip(0, data[offset..offset + 8]);
  }

  lemma EntryOnlyFromEncoding(data: Bytes, e: LogEntry)
    requires Decoded(data) == Ok(EntryRecord(e))
    ensures EntryFits(e) && data == EntryBytes(e)
  {
    hide U64Bytes, U64At;
    WrittenBack(data, 1);
    WrittenBack(data, 9);
    WrittenBack(data, 18);
    assert data == data[..1] + data[1..9] + data[9..17] + data[17..18] + data[18..26] + data[26..];
  }

  lemma SnapshotOnlyFromEncoding(data: Bytes, s: Snapshot)
    requires Decoded(data) == Ok(SnapshotRecord(s))
    ensures SnapshotFits(s) && data == SnapshotBytes(s)
  {
    hide U64Bytes, U64At, MembersBytes, DecodeMembers;
    var off := 25 + 8 * |s.config|;
    WrittenBack(data, 1);
    WrittenBack(data, 9);
    WrittenBack(data, 17);
    WrittenBack(data, off);
    MembersOnlyFromEncoding(data[25..off]);
    assert data == data[..1] + data[1..9] + data[9..17] + data[17..25] + data[25..off] + data[off..off + 8]
                   + data[off + 8..];
  }

  lemma TruncateFromEncoding(data: Bytes, from: Index)
    requires Decoded(data) == Ok(TruncateRecord(from))
    ensures Fits(from) && TruncateBytes(from) <= data
  {
    WrittenBack(data, 1);
  }

  lemma HardStateFromEncoding(data: Bytes, h: HardState)
    requires Decoded(data) == Ok(HardStateRecord(h))
    ensures HardStateFits(h) && |data| >= 18 && data[..9] == HardStateBytes(h)[..9]
    ensures if h.votedFor.Some? then HardStateBytes(h) <= data else data[9] != 1
  {
    hide U64Bytes, U64At;
    WrittenBack(data, 1);
    WrittenBack(data, 10);
    assert data[..18] == data[..1] + data[1..9] + data[9..10] + data[10..18];
  }

  /** Whatever bytes a record was read from: for an entry or a snapshot they are exactly its
      encoding. A truncation's encoding may be followed by more bytes, which are ignored, and so may a
      hard state's, where any flag but 1 also reads as no vote. */
  lemma RecordOnlyFromEncoding(data: Bytes, r: Record)
    requires Decoded(data) == Ok(r)
    ensures RecordFits(r)
    ensures r.EntryRecord? || r.SnapshotRecord? ==> data == RecordBytes(r)
    ensures r.TruncateRecord? ==> RecordBytes(r) <= data
    ensures r.HardStateRecord? ==>
              if r.state.votedFor.Some? then RecordBytes(r) <= data
              else |data| >= 18 && data[..9] == RecordBytes(r)[..9] && data[9] != 1
  {
    hide U64Bytes, U64At, ReadU64, MembersBytes, DecodeMembers;
    match r {
      case EntryRecord(e) => EntryOnlyFromEncoding(data, e);
      case SnapshotRecord(s) => SnapshotOnlyFromEncoding(data, s);
      case TruncateRecord(from) => TruncateFromEncoding(data, from);
      case HardStateRecord(h) => HardStateFromEncoding(data, h);
    }
  }
}
