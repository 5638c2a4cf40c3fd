/** Little-endian byte strings for 64-bit integers, as `to_le_bytes` and `from_le_bytes` give them. */
module LittleEndian {
  type Byte = x: int | 0 <= x < 256
  type U64 = x: int | 0 <= x < 0x1_0000_0000_0000_0000

  /** The `n` low bytes of `x`, least significant first. */
  function ToBytes(x: nat, n: nat): (s: seq<Byte>)
    ensures |s| == n
  {
    if n == 0 then [] else [x % 256] + ToBytes(x / 256, n - 1)
  }

  function FromBytes(s: seq<Byte>): nat {
    if s == [] then 0 else s[0] + 256 * FromBytes(s[1..])
  }

  function Pow256(n: nat): nat {
    if n == 0 then 1 else 256 * Pow256(n - 1)
  }

  lemma Pow256Eight()
    ensures Pow256(8) == 0x1_0000_0000_0000_0000
  {
    assert Pow256(4) == 0x1_0000_0000;
    assert Pow256(6) == 256 * Pow256(5);
  }

  lemma {:induction false} ToFrom(x: nat, n: nat)
    requires x < Pow256(n)
    ensures FromBytes(ToBytes(x, n)) == x
  {
    if n > 0 {
      ToFrom(x / 256, n - 1);
      assert ToBytes(x, n)[1..] == ToBytes(x / 256, n - 1);
    }
  }

  lemma {:induction false} FromTo(s: seq<Byte>)
    ensures FromBytes(s) < Pow256(|s|)
    ensures ToBytes(FromBytes(s), |s|) == s
  {
    if s != [] {
      FromTo(s[1..]);
      var low := FromBytes(s[1..]);
      assert (s[0] + 256 * low) % 256 == s[0] && (s[0] + 256 * low) / 256 == low;
      assert s == [s[0]] + s[1..];
    }
  }

  function U64Bytes(x: U64): (s: seq<Byte>)
    ensures |s| == 8
  {
    ToBytes(x, 8)
  }

  function U64At(s: seq<Byte>): (x: U64)
    requires |s| == 8
  {
    FromTo(s);
    Pow256Eight();
    FromBytes(s)
  }

  /** Encoding and decoding of one 64-bit integer are inverse in both directions. */
  lemma U64RoundTrip(x: U64, s: seq<Byte>)
    requires |s| == 8
    ensures U64At(U64Bytes(x)) == x
    ensures U64Bytes(U64At(s)) == s
  {
    Pow256Eight();
    ToFrom(x, 8);
    FromTo(s);
  }
}

/** The value types shared across the protocol (src/types.rs, src/message.rs, src/error.rs). */
module Types {
  import opened LittleEndian

  type Bytes = seq<Byte>
  type NodeId = U64
  type Term = nat
  type Index = nat

  datatype Option<+T> = None | Some(value: T)
  datatype Result<+T, +E> = Ok(value: T) | Err(error: E) {
    predicate IsFailure() { Err? }
    function PropagateFailure<U>(): Result<U, E>
      requires Err?
    {
      Err(error)
    }
    function Extract(): T
      requires Ok?
    {
      value
    }
  }

  datatype Error =
    | NotLeader(leader: Option<NodeId>)
    | ConfigInProgress
    | Storage(context: string)

  datatype Role = Follower | Candidate | Leader

  datatype EntryKind = Normal | Config

  datatype LogEntry = LogEntry(term: Term, index: Index, kind: EntryKind, command: Bytes) {
    /** The voting membership a configuration entry carries. */
    function Members(): Option<seq<NodeId>> {
      match kind
      case Normal => None
      case Config => Some(DecodeMembers(command))
    }
  }

  function NormalEntry(term: Term, index: Index, command: Bytes): LogEntry {
    LogEntry(term, index, Normal, command)
  }

  function ConfigEntry(term: Term, index: Index, members: seq<NodeId>): LogEntry {
    LogEntry(term, index, Config, MembersBytes(members))
  }

  datatype HardState = HardState(term: Term, votedFor: Option<NodeId>)

  const INITIAL_HARD_STATE := HardState(0, None)

  datatype Snapshot = Snapshot(index: Index, term: Term, config: seq<NodeId>, data: Bytes)

  datatype Message =
    | PreVote(term: Term, candidate: NodeId, lastLogIndex: Index, lastLogTerm: Term)
    | PreVoteReply(term: Term, voteGranted: bool, from: NodeId)
    | RequestVote(term: Term, candidate: NodeId, lastLogIndex: Index, lastLogTerm: Term, force: bool)
    | RequestVoteReply(term: Term, voteGranted: bool, from: NodeId)
    | AppendEntries(term: Term, leader: NodeId, prevLogIndex: Index, prevLogTerm: Term,
                    entries: seq<LogEntry>, leaderCommit: Index)
    | AppendEntriesReply(term: Term, success: bool, from: NodeId, matchIndex: Index,
                         conflictIndex: Index, conflictTerm: Term)
    | InstallSnapshot(term: Term, leader: NodeId, snapshot: Snapshot)
    | InstallSnapshotReply(term: Term, from: NodeId, lastIndex: Index)
    | TimeoutNow(term: Term, leader: NodeId)

  datatype Event =
    | Tick
    | Receive(message: Message)
    | Propose(command: Bytes)
    | TakeSnapshot(index: Index, data: Bytes)
    | AddServer(id: NodeId)
    | RemoveServer(id: NodeId)
    | TransferLeadership(target: NodeId)

  datatype Action =
    | Send(to: NodeId, message: Message)
    | Apply(index: Index, term: Term, command: Bytes)
    | SnapshotHint(index: Index, term: Term)
    | RestoreSnapshot(index: Index, term: Term, data: Bytes)
    | MembershipChanged(members: seq<NodeId>)

  // ---- membership encoding -----------------------------------------------

  /** What `encode_members` writes: each id as a little-endian `u64`, in order. */
  function MembersBytes(members: seq<NodeId>): (s: Bytes)
    ensures |s| == 8 * |members|
  {
    if members == [] then []
    else MembersBytes(members[..|members| - 1]) + U64Bytes(members[|members| - 1])
  }

  /** `chunks_exact(8)`: whole groups only, so a trailing partial group is ignored. */
  function DecodeMembers(bytes: Bytes): (members: seq<NodeId>)
    ensures |members| == |bytes| / 8
    decreases |bytes|
  {
    if |bytes| < 8 then [] else [U64At(bytes[..8])] + DecodeMembers(bytes[8..])
  }

  method EncodeMembers(members: seq<NodeId>) returns (buf: Bytes)
    ensures buf == MembersBytes(members)
  {
    buf := [];
    for i := 0 to |members|
      invariant buf == MembersBytes(members[..i])
    {
      assert members[..i + 1][..i] == members[..i];
      buf := buf + U64Bytes(members[i]);
    }
    assert members[..|members|] == members;
  }

  lemma {:induction false} DecodeMembersAt(bytes: Bytes, k: nat)
    requires k < |bytes| / 8
    ensures DecodeMembers(bytes)[k] == U64At(bytes[8 * k..8 * k + 8])
    decreases k
  {
    if k > 0 {
      DecodeMembersAt(bytes[8..], k - 1);
      assert bytes[8..][8 * (k - 1)..8 * (k - 1) + 8] == bytes[8 * k..8 * k + 8];
    }
  }

  lemma {:induction false} MembersBytesAt(members: seq<NodeId>, k: nat)
    requires k < |members|
    ensures MembersBytes(members)[8 * k..8 * k + 8] == U64Bytes(members[k])
  {
    var front := members[..|members| - 1];
    if k < |front| {
      MembersBytesAt(front, k);
      assert MembersBytes(members)[8 * k..8 * k + 8] == MembersBytes(front)[8 * k..8 * k + 8];
    }
  }

  lemma MembersRoundTripAt(members: seq<NodeId>, trailing: Bytes, k: nat)
    requires |trailing| < 8 && k < |members|
    ensures |MembersBytes(members) + trailing| / 8 == |members|
    ensures DecodeMembers(MembersBytes(members) + trailing)[k] == members[k]
  {
    var coded := MembersBytes(members);
    DecodeMembersAt(coded + trailing, k);
    MembersBytesAt(members, k);
    assert (coded + trailing)[8 * k..8 * k + 8] == coded[8 * k..8 * k + 8];
    U64RoundTrip(members[k], U64Bytes(members[k]));
  }

  /** A membership round-trips, whatever partial group (fewer than 8 bytes) trails it. */
  lemma MembersRoundTrip(members: seq<NodeId>, trailing: Bytes)
    requires |trailing| < 8
    ensures DecodeMembers(MembersBytes(members) + trailing) == members
  {
    var decoded := DecodeMembers(MembersBytes(members) + trailing);
    forall k | 0 <= k < |members| ensures k < |decoded| && decoded[k] == members[k] {
      MembersRoundTripAt(members, trailing, k);
    }
  }

  lemma {:induction false} MembersBytesFront(x: NodeId, rest: seq<NodeId>)
    ensures MembersBytes([x] + rest) == U64Bytes(x) + MembersBytes(rest)
  {
    var all := [x] + rest;
    if rest == [] {
      assert all[..0] == [];
      assert MembersBytes(all[..0]) == [];
    } else {
      assert all[..|all| - 1] == [x] + rest[..|rest| - 1];
      MembersBytesFront(x, rest[..|rest| - 1]);
    }
  }

  /** The bytes that decode to a given membership are its encoding plus a partial group. */
  lemma {:induction false} MembersOnlyFromEncoding(bytes: Bytes)
    ensures MembersBytes(DecodeMembers(bytes)) <= bytes
    ensures |bytes| - |MembersBytes(DecodeMembers(bytes))| < 8
    decreases |bytes|
  {
    if |bytes| >= 8 {
      MembersOnlyFromEncoding(bytes[8..]);
      MembersBytesFront(U64At(bytes[..8]), DecodeMembers(bytes[8..]));
      U64RoundTrip(0, bytes[..8]);
      assert bytes == bytes[..8] + bytes[8..];
    }
  }

  lemma ConfigEntryMembers(term: Term, index: Index, members: seq<NodeId>)
    ensures ConfigEntry(term, index, members).Members() == Some(members)
  {
    MembersRoundTrip(members, []);
    assert MembersBytes(members) + [] == MembersBytes(members);
  }

  // ---- sorted, de-duplicated memberships ---------------------------------

  ghost predicate Ascending(s: seq<NodeId>) {
    forall i, j :: 0 <= i < j < |s| ==> s[i] < s[j]
  }

  function InsertMember(x: NodeId, s: seq<NodeId>): seq<NodeId> {
    if s == [] then [x]
    else if x < s[0] then [x] + s
    else if x == s[0] then s
    else [s[0]] + InsertMember(x, s[1..])
  }

  /** `sorted_members`: collect, sort, remove duplicates. */
  function SortedMembers(ids: seq<NodeId>): seq<NodeId> {
    if ids == [] then [] else InsertMember(ids[0], SortedMembers(ids[1..]))
  }

  lemma {:induction false} InsertMemberIn(x: NodeId, s: seq<NodeId>, y: NodeId)
    ensures y in InsertMember(x, s) <==> y == x || y in s
  {
    if s != [] && x > s[0] {
      InsertMemberIn(x, s[1..], y);
      assert s == [s[0]] + s[1..];
    }
  }

  lemma {:induction false} InsertMemberAscends(x: NodeId, s: seq<NodeId>)
    requires Ascending(s)
    ensures Ascending(InsertMember(x, s))
  {
    if s != [] && x > s[0] {
      InsertMemberAscends(x, s[1..]);
      var t := InsertMember(x, s[1..]);
      forall i | 0 <= i < |t| ensures s[0] < t[i] {
        InsertMemberIn(x, s[1..], t[i]);
        if t[i] != x {
          var j :| 0 <= j < |s[1..]| && s[1..][j] == t[i];
          assert s[j + 1] == t[i];
        }
      }
    }
  }

  /** The result is strictly ascending and has exactly the given ids. */
  lemma {:induction false} SortedMembersCorrect(ids: seq<NodeId>)
    ensures Ascending(SortedMembers(ids))
    ensures forall y :: y in SortedMembers(ids) <==> y in ids
  {
    if ids != [] {
      SortedMembersCorrect(ids[1..]);
      InsertMemberAscends(ids[0], SortedMembers(ids[1..]));
      assert ids == [ids[0]] + ids[1..];
      forall y ensures y in SortedMembers(ids) <==> y in ids {
        InsertMemberIn(ids[0], SortedMembers(ids[1..]), y);
      }
    }
  }
}
