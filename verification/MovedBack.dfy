/**
 A run in which a snapshot moves a node's applied index back, against section 5 of docs/PROTOCOL.md.

 Three servers. Server 1 leads, and commits four entries with server 3 while server 2 hears nothing.
 The leader's append to server 2, three entries with commit index 4, is delivered twice. The first
 delivery brings server 2 to commit and apply three entries. It then compacts to 1 on its own, so the
 second delivery is taken for an old one below its boundary, and lowers its commit index to 1. The
 leader has meanwhile compacted to 2 and sent its snapshot, which is now above the commit index.
 */
module MovedBack {
  import opened Types
  import opened LogStore
  import opened Protocol
  import opened Bookkeeping
  import opened SnapshotOrder
  import ElectionSteps
  import opened HandlerSteps
  import opened Cluster
  import opened Safety

  // ---- the servers -------------------------------------------------------

  const PARAMS := Params(1, 1, 1, 3, 0)

  const ROSTER: seq<NodeId> := [1, 2, 3]

  const SETUP: Setup := map[1 := ClusterConfig(1, [2, 3], PARAMS),
                            2 := ClusterConfig(2, [1, 3], PARAMS),
                            3 := ClusterConfig(3, [1, 2], PARAMS)]

  const E1 := NormalEntry(1, 1, [])
  const E2 := NormalEntry(1, 2, [])
  const E3 := NormalEntry(1, 3, [])
  const E4 := NormalEntry(1, 4, [])

  function Blank(id: NodeId): Node {
    Node(id, ROSTER, ROSTER, 0, PARAMS, EMPTY_LOG, Follower, 0, None, None, 0, 0, 0, 0, 1, [], false, [], [], 0, None)
  }

  function Plain(entries: seq<LogEntry>, votedFor: Option<NodeId>): Log {
    Log(entries, 0, 0, None, [], HardState(1, votedFor))
  }

  const PROBER := Blank(1).(preVoting := true, preVotes := [1])

  const CANDIDATE := Blank(1).(log := Plain([], Some(1)), role := Candidate, term := 1, votedFor := Some(1),
                               votes := [1])

  function Row3(matched: Index, next: Index, state: ProgressState): seq<Progress> {
    [Progress(2, 1, 0, Probe), Progress(3, next, matched, state)]
  }

  const UNKNOWN := Row3(0, 1, Probe)

  /** Server 1 leading, with this log, everything through `commit` applied, and these rows. */
  function Leading(log: Log, commit: Index, rows: seq<Progress>): Node {
    Blank(1).(log := log, role := Leader, term := 1, votedFor := Some(1), leaderId := Some(1), votes := [1, 3],
              commit := commit, applied := commit, progress := rows)
  }

  /** Server 3 following, once it has voted. */
  function Helping(entries: seq<LogEntry>, leader: Option<NodeId>, commit: Index): Node {
    Blank(3).(log := Plain(entries, Some(1)), term := 1, votedFor := Some(1), leaderId := leader, commit := commit,
              applied := commit)
  }

  // ---- packets -----------------------------------------------------------

  const ASK := PreVote(1, 1, 0, 0)
  const WOULD := PreVoteReply(0, true, 3)
  const STAND := RequestVote(1, 1, 0, 0, false)
  const VOTE := RequestVoteReply(1, true, 3)
  const FIRST := AppendEntries(1, 1, 0, 0, [E1, E2, E3], 0)
  const ACK3 := AppendEntriesReply(1, true, 3, 3, 0, 0)
  const FOURTH := AppendEntries(1, 1, 3, 1, [E4], 3)
  const ACK4 := AppendEntriesReply(1, true, 3, 4, 0, 0)
  const TWICE := AppendEntries(1, 1, 0, 0, [E1, E2, E3], 4)
  const SNAPSHOT := InstallSnapshot(1, 1, Snapshot(2, 1, ROSTER, []))

  // ---- the election ------------------------------------------------------

  lemma Asks()
    ensures Step(Blank(1), Tick, 1) == Done(Effect(PROBER, [Send(2, ASK), Send(3, ASK)]))
  {
    hide StartElection;
    assert Broadcast([], ROSTER, 1, ASK) == [Send(2, ASK), Send(3, ASK)] by { ToOthers(ASK); }
  }

  lemma ToOthers(m: Message)
    ensures Broadcast([], ROSTER, 1, m) == [Send(2, m), Send(3, m)]
  {
    assert ROSTER[..2] == [1, 2] && ROSTER[..2][..1] == [1] && ROSTER[..2][..1][..0] == [];
    assert Broadcast([], [1], 1, m) == [];
    assert Broadcast([], [1, 2], 1, m) == [Send(2, m)];
  }

  lemma WouldVote()
    ensures Step(Blank(3), Receive(ASK), 1) == Done(Effect(Blank(3), [Send(1, WOULD)]))
  {
  }

  lemma Stands()
    ensures Step(PROBER, Receive(WOULD), 1) == Done(Effect(CANDIDATE, [Send(2, STAND), Send(3, STAND)]))
  {
    hide BecomeLeader;
    ToOthers(STAND);
  }

  lemma Votes()
    ensures Step(Blank(3), Receive(STAND), 1) == Done(Effect(Helping([], None, 0), [Send(1, VOTE)]))
  {
  }

  lemma Wins()
    ensures Step(CANDIDATE, Receive(VOTE), 1).Final() == Leading(Plain([], Some(1)), 0, UNKNOWN)
    ensures Step(CANDIDATE, Receive(VOTE), 1).Done?
  {
    hide SendAppend;
    var n := CANDIDATE.(votes := [1, 3]);
    assert CANDIDATE.votes + [3] == [1, 3];
    assert Step(CANDIDATE, Receive(VOTE), 1) == Done(BecomeLeader(Effect(n, [])));
    FreshRows();
    assert Elected(n) == Leading(Plain([], Some(1)), 0, UNKNOWN);
    Heartbeats(Leading(Plain([], Some(1)), 0, UNKNOWN));
  }

  lemma FreshRows()
    ensures ProgressFor(ROSTER, 1, [], 1) == UNKNOWN
  {
    assert ROSTER[..2] == [1, 2] && ROSTER[..2][..1] == [1] && ROSTER[..2][..1][..0] == [];
    assert ProgressFor([1], 1, [], 1) == [];
    assert ProgressFor([1, 2], 1, [], 1) == [Progress(2, 1, 0, Probe)];
  }

  /** Sending to all leaves rows that are probing, or have nothing to stream, as they are. */
  lemma Heartbeats(n: Node)
    requires n.role == Leader && |n.progress| == 2 && n.progress[0].state == Probe
    requires n.progress[1].state == Probe || n.progress[1].next == n.log.LastIndex() + 1
    requires n.log.base < n.progress[1].next
    ensures var r := ReplicateFrom(Effect(n, []), 0, true);
            && r.node == n
            && r == SendAppend(SendAppend(Effect(n, []), 0), 1)
  {
    var e := SendAppend(Effect(n, []), 0);
    assert n.progress[0 := n.progress[0].(state := Probe)] == n.progress;
    assert e.node == n;
    assert SendAppend(e, 1).node == n;
    assert ReplicateFrom(e, 1, true) == ReplicateFrom(SendAppend(e, 1), 2, true);
  }

  // ---- four entries ------------------------------------------------------

  lemma {:induction false} NothingCounts(n: Node, i: Index)
    requires n.progress == UNKNOWN && n.voters == ROSTER && n.commit == 0
    ensures CommitScan(n, i) == 0
  {
    hide Log.TermAt;
    if i > 0 {
      NoneReach(i);
      NothingCounts(n, i - 1);
    }
  }

  lemma NoneReach(i: Index)
    requires i > 0
    ensures CountAcked(UNKNOWN, i) == 0
  {
    assert UNKNOWN[..1][..0] == [];
    assert CountAcked(UNKNOWN[..1], i) == 0;
  }

  lemma Proposes(entries: seq<LogEntry>)
    requires forall k :: 0 <= k < |entries| ==> entries[k].index == k + 1
    ensures var n := Leading(Plain(entries, Some(1)), 0, UNKNOWN);
            var e := NormalEntry(1, |entries| + 1, []);
            Step(n, Propose([]), 1) == Done(Effect(Leading(Plain(entries + [e], Some(1)), 0, UNKNOWN), []))
  {
    hide CommitScan;
    var e := NormalEntry(1, |entries| + 1, []);
    var n := Leading(Plain(entries + [e], Some(1)), 0, UNKNOWN);
    assert Plain(entries, Some(1)).Append([e]) == Ok(Plain(entries + [e], Some(1)));
    NothingCounts(n, |entries| + 1);
    assert ReplicateFrom(Effect(n, []), 1, false) == Effect(n, []);
    assert ReplicateFrom(Effect(n, []), 0, false) == Effect(n, []);
  }

  const FOUR := Plain([E1, E2, E3, E4], Some(1))

  lemma Beats(n: Node)
    requires n.role == Leader && n.params == PARAMS && n.heartbeatElapsed == 0
    ensures Step(n, Tick, 1) == Done(ReplicateFrom(Effect(n, []), 0, true))
  {
    hide ReplicateFrom;
  }

  lemma RowSent(e: Effect, i: nat, m: Message)
    requires i < |e.node.progress| && e.node.progress[i].next > e.node.log.base
    requires var n, next := e.node, e.node.progress[i].next;
             m == AppendEntries(n.term, n.id, next - 1, TermOrZero(n.log, next - 1), Batch(n, next), n.commit)
    ensures SendAppend(e, i).actions == e.actions + [Send(e.node.progress[i].id, m)]
  {
    hide Batch, Log.TermAt;
  }

  lemma FirstThree(commit: Index, rows: seq<Progress>)
    ensures Batch(Leading(FOUR, commit, rows), 1) == [E1, E2, E3] && TermOrZero(FOUR, 0) == 0
  {
    assert FOUR.Entries(1, 3) == [E1, E2, E3];
  }

  lemma SendsFirst()
    ensures var o := Step(Leading(FOUR, 0, UNKNOWN), Tick, 1);
            o.Final() == Leading(FOUR, 0, UNKNOWN) && Send(3, FIRST) in o.Emitted()
  {
    hide ReplicateFrom, SendAppend, Batch, Step, Log.TermAt;
    var n := Leading(FOUR, 0, UNKNOWN);
    Beats(n);
    Heartbeats(n);
    FirstThree(0, UNKNOWN);
    SameAfterFirst(n);
    RowSent(SendAppend(Effect(n, []), 0), 1, FIRST);
  }

  lemma SameAfterFirst(n: Node)
    requires |n.progress| == 2 && n.progress[0].state == Probe
    ensures SendAppend(Effect(n, []), 0).node == n
  {
    hide Batch, Log.TermAt;
    assert n.progress[0 := n.progress[0].(state := Probe)] == n.progress;
  }

  lemma TakesThree()
    ensures Step(Helping([], None, 0), Receive(FIRST), 1) ==
            Done(Effect(Helping([E1, E2, E3], Some(1), 0), [Send(1, ACK3)]))
  {
    hide RefreshConfig;
    assert [E1, E2, E3][0..] == [E1, E2, E3];
    assert AppendFromLeader(Plain([], Some(1)), [E1, E2, E3]) ==
           Merge(Plain([E1, E2, E3], Some(1)), Ok((3, false)));
  }

  lemma {:induction false} NoHint(e: Effect)
    requires e.node.params.snapshotThreshold == 0
    ensures DrainApplies(e).node == e.node.(applied := Max(e.node.applied, e.node.commit))
    decreases e.node.commit - e.node.applied
  {
    hide ApplyActions;
    if e.node.applied < e.node.commit {
      var i := e.node.applied + 1;
      NoHint(Effect(e.node.(applied := i), e.actions + ApplyActions(e.node.log, i)));
    }
  }

  lemma Reach(a: Index, i: Index)
    requires i > 0
    ensures CountAcked(Row3(a, a + 1, Replicate), i) == if a >= i then 1 else 0
  {
    var rows := Row3(a, a + 1, Replicate);
    assert rows[..1][..0] == [];
    assert CountAcked(rows[..1], i) == 0;
  }

  lemma CommitsThree()
    ensures var o := Step(Leading(FOUR, 0, UNKNOWN), Receive(ACK3), 1);
            o.Final() == Leading(FOUR, 3, Row3(3, 5, Replicate)) && Send(3, FOURTH) in o.Emitted()
  {
    hide DrainApplies, CountAcked, Log.TermAt;
    var n := Leading(FOUR, 0, UNKNOWN).(progress := Row3(3, 4, Replicate));
    Counted34(n);
    NoHint(Effect(n.(commit := 3), []));
    var e := DrainApplies(Effect(n.(commit := 3), []));
    assert e.node == Leading(FOUR, 3, Row3(3, 4, Replicate));
    assert FindProgress(UNKNOWN, 3) == Some(1) by { assert UNKNOWN[1..][0].id == 3; }
    assert UNKNOWN[1 := Progress(3, 4, 3, Replicate)] == Row3(3, 4, Replicate);
    assert AdvanceCommit(Effect(n, [])) == e;
    SendsFourth(e);
    assert Step(Leading(FOUR, 0, UNKNOWN), Receive(ACK3), 1) == Done(SendAppend(e, 1));
  }

  lemma Counted34(n: Node)
    requires n == Leading(FOUR, 0, UNKNOWN).(progress := Row3(3, 4, Replicate))
    ensures CommitScan(n, 4) == 3
  {
    hide CountAcked;
    Reach(3, 4);
    Reach(3, 3);
    assert CommitScan(n, 3) == 3;
  }

  lemma SendsFourth(e: Effect)
    requires e.node == Leading(FOUR, 3, Row3(3, 4, Replicate))
    ensures SendAppend(e, 1) == Effect(Leading(FOUR, 3, Row3(3, 5, Replicate)), e.actions + [Send(3, FOURTH)])
  {
    assert FOUR.Entries(4, 4) == [E4];
  }

  lemma TakesFourth()
    ensures var o := Step(Helping([E1, E2, E3], Some(1), 0), Receive(FOURTH), 1);
            o.Final().id == 3 && Send(1, ACK4) in o.Emitted()
  {
    hide RefreshConfig, DrainApplies, MaybeHintSnapshot;
    var n := Helping([E1, E2, E3], Some(1), 0);
    assert [E4][0..] == [E4];
    assert AppendFromLeader(n.log, [E4]) == Merge(Plain([E1, E2, E3, E4], Some(1)), Ok((4, false)));
    NoHint(Effect(n.(log := Plain([E1, E2, E3, E4], Some(1)), commit := 3), []));
  }

  lemma CommitsFour()
    ensures Step(Leading(FOUR, 3, Row3(3, 5, Replicate)), Receive(ACK4), 1).Final() ==
            Leading(FOUR, 4, Row3(4, 5, Replicate))
  {
    hide DrainApplies, CountAcked, Log.TermAt;
    var n := Leading(FOUR, 3, Row3(3, 5, Replicate)).(progress := Row3(4, 5, Replicate));
    Counted4(n);
    NoHint(Effect(n.(commit := 4), []));
    var e := DrainApplies(Effect(n.(commit := 4), []));
    assert e.node == Leading(FOUR, 4, Row3(4, 5, Replicate));
    var rows := Row3(3, 5, Replicate);
    assert FindProgress(rows, 3) == Some(1) by { assert rows[1..][0].id == 3; }
    assert rows[1 := Progress(3, 5, 4, Replicate)] == Row3(4, 5, Replicate);
    assert AdvanceCommit(Effect(n, [])) == e;
    assert Step(Leading(FOUR, 3, Row3(3, 5, Replicate)), Receive(ACK4), 1) == Done(e);
  }

  lemma Counted4(n: Node)
    requires n == Leading(FOUR, 3, Row3(3, 5, Replicate)).(progress := Row3(4, 5, Replicate))
    ensures CommitScan(n, 4) == 4
  {
    hide CountAcked;
    Reach(4, 4);
  }

  // ---- the late append and the snapshot ----------------------------------

  const SETTLED := Row3(4, 5, Replicate)

  lemma SendsTwice()
    ensures var o := Step(Leading(FOUR, 4, SETTLED), Tick, 1);
            o.Final() == Leading(FOUR, 4, SETTLED) && Send(2, TWICE) in o.Emitted()
  {
    hide ReplicateFrom, SendAppend, Batch, Step, Log.TermAt;
    var n := Leading(FOUR, 4, SETTLED);
    Beats(n);
    Heartbeats(n);
    FirstThree(4, SETTLED);
    RowSent(Effect(n, []), 0, TWICE);
    SameAfterFirst(n);
    KeepsSent(SendAppend(Effect(n, []), 0), 1, Send(2, TWICE));
  }

  lemma KeepsSent(e: Effect, i: nat, a: Action)
    requires i < |e.node.progress| && a in e.actions
    ensures a in SendAppend(e, i).actions
  {
    hide Batch, Log.TermAt;
  }

  const CUT := Log([E3, E4], 2, 1, Some([]), ROSTER, HardState(1, Some(1)))

  lemma Compacts()
    ensures Step(Leading(FOUR, 4, SETTLED), TakeSnapshot(2, []), 1).Final() == Leading(CUT, 4, SETTLED).(hintedAt := 2)
  {
    var n := Leading(FOUR, 4, SETTLED);
    assert ScanConfig(FOUR, 0) == None;
    assert ScanConfig(FOUR, 1) == None;
    assert ConfigAt(n, 2) == ROSTER;
    assert [E1, E2, E3, E4][2..] == [E3, E4];
    assert FOUR.ApplySnapshot(Snapshot(2, 1, ROSTER, [])) == CUT;
    assert ScanConfig(CUT, 2) == None;
    assert ScanConfig(CUT, 3) == None;
    SameRows();
  }

  lemma SameRows()
    ensures ProgressFor(ROSTER, 1, SETTLED, 5) == SETTLED
  {
    assert ROSTER[..2] == [1, 2] && ROSTER[..2][..1] == [1] && ROSTER[..2][..1][..0] == [];
    assert SETTLED[1..][0].id == 3;
    assert FindProgress(SETTLED, 2) == Some(0) && FindProgress(SETTLED, 3) == Some(1);
    assert ProgressFor([1], 1, SETTLED, 5) == [];
    assert ProgressFor([1, 2], 1, SETTLED, 5) == [SETTLED[0]];
  }

  lemma SendsSnapshot()
    ensures Send(2, SNAPSHOT) in Step(Leading(CUT, 4, SETTLED).(hintedAt := 2), Tick, 1).Emitted()
  {
    hide ReplicateFrom;
    var n := Leading(CUT, 4, SETTLED).(hintedAt := 2);
    Heartbeats(n);
    assert SendAppend(SendAppend(Effect(n, []), 0), 1).actions[0] == Send(2, SNAPSHOT);
  }

  /** Server 2 after the first delivery, and after compacting to 1. */
  const CAUGHT_UP := Blank(2).(log := Plain([E1, E2, E3], None), term := 1, leaderId := Some(1), commit := 3,
                               applied := 3)

  const SHORT := CAUGHT_UP.(log := Log([E2, E3], 1, 1, Some([]), ROSTER, HardState(1, None)), hintedAt := 1)

  lemma CatchesUp()
    ensures Step(Blank(2), Receive(TWICE), 1).Final() == CAUGHT_UP
  {
    hide RefreshConfig, DrainApplies, AppendFromLeader, BecomeFollower;
    var f := Blank(2).(term := 1, log := Plain([], None));
    assert BecomeFollower(Blank(2), 1, None) == f by { Adopts(); }
    var e := Effect(f.(leaderId := Some(1)), []);
    assert Step(Blank(2), Receive(TWICE), 1) == MergeBatch(e, TWICE);
    MergesThree();
    NoHint(e.(node := e.node.(log := Plain([E1, E2, E3], None), commit := 3)));
  }

  lemma Adopts()
    ensures BecomeFollower(Blank(2), 1, None) == Blank(2).(term := 1, log := Plain([], None))
  {
  }

  lemma MergesThree()
    ensures AppendFromLeader(Plain([], None), [E1, E2, E3]) == Merge(Plain([E1, E2, E3], None), Ok((3, false)))
  {
    assert [E1, E2, E3][0..] == [E1, E2, E3];
  }

  lemma CutsShort()
    ensures Step(CAUGHT_UP, TakeSnapshot(1, []), 1).Final() == SHORT
  {
    assert ScanConfig(CAUGHT_UP.log, 0) == None;
    assert ConfigAt(CAUGHT_UP, 1) == ROSTER;
    assert [E1, E2, E3][1..] == [E2, E3];
    assert ScanConfig(SHORT.log, 1) == None;
    assert ScanConfig(SHORT.log, 2) == None;
  }

  lemma FallsBack()
    ensures Step(SHORT, Receive(TWICE), 1).Final() == SHORT.(commit := 1)
  {
    hide DrainApplies;
    NoHint(Effect(SHORT.(commit := 1), []));
    assert Step(SHORT, Receive(TWICE), 1) ==
           Done(Emit(DrainApplies(Effect(SHORT.(commit := 1), [])), Send(1, AppendEntriesReply(1, true, 2, 1, 0, 0))));
  }

  lemma MovesBack()
    ensures Step(SHORT.(commit := 1), Receive(SNAPSHOT), 1).Final().applied < 3
  {
    hide HandleInstallSnapshot;
    SnapshotMovesBack(SHORT.(commit := 1), SNAPSHOT, 1);
  }

  // ---- the run -----------------------------------------------------------

  /** A run that ends in this state. */
  ghost predicate Ends(r: Run, s: State) {
    IsRun(SETUP, r) && r.states[|r.states| - 1] == s && s.nodes.Keys == {1, 2, 3}
  }

  lemma ValidServers()
    ensures ValidSetup(SETUP) && SETUP.Keys == {1, 2, 3}
  {
    hide ElectionSteps.SetOf;
    PeersAre([2, 3], 1);
    PeersAre([1, 3], 2);
    PeersAre([1, 2], 3);
    assert SETUP.Keys == {1, 2, 3};
    forall id | id in SETUP ensures ElectionSteps.SetOf(SETUP[id].peers + [id]) == SETUP.Keys {
      assert id == 1 || id == 2 || id == 3;
    }
  }

  lemma PeersAre(peers: seq<NodeId>, id: NodeId)
    requires |peers| == 2
    ensures ElectionSteps.SetOf(peers + [id]) == {peers[0], peers[1], id}
  {
    assert peers + [id] == [peers[0], peers[1], id];
  }

  lemma StartsBlank(id: NodeId)
    requires id in SETUP
    ensures WithLog(SETUP[id], EMPTY_LOG, 1) == Blank(id)
  {
    assert SortedMembers([1]) == [1] && SortedMembers([2]) == [2] && SortedMembers([3]) == [3];
    assert SETUP[1].peers + [1] == [2, 3, 1];
    assert SETUP[2].peers + [2] == [1, 3, 2];
    assert SETUP[3].peers + [3] == [1, 2, 3];
    assert [2, 3, 1][1..] == [3, 1] && [3, 1][1..] == [1];
    assert [1, 3, 2][1..] == [3, 2] && [3, 2][1..] == [2];
    assert [1, 2, 3][1..] == [2, 3] && [2, 3][1..] == [3];
    assert SortedMembers([3, 1]) == [1, 3] && SortedMembers([3, 2]) == [2, 3] && SortedMembers([2, 3]) == [2, 3];
    assert SortedMembers([2, 3, 1]) == ROSTER;
    assert SortedMembers([1, 3, 2]) == ROSTER;
    assert SortedMembers([1, 2, 3]) == ROSTER;
  }

  const BEFORE := State(map[1 := Blank(1), 2 := Blank(2), 3 := Blank(3)], {})

  lemma Begins() returns (r: Run)
    ensures Ends(r, BEFORE)
  {
    hide WithLog, ValidSetup, Blank;
    ValidServers();
    r := Run([BEFORE], []);
    forall id | id in SETUP
      ensures Drawn(SETUP, id, 1) && BEFORE.nodes[id] == WithLog(SETUP[id], EMPTY_LOG, 1)
    {
      StartsBlank(id);
    }
    assert Init(SETUP, BEFORE);
  }

  /** One more move of a run: a server handles an event or a packet already sent. */
  lemma Then(r: Run, s: State, id: NodeId, event: Event) returns (r': Run, s': State)
    requires Ends(r, s) && id in {1, 2, 3} && KeepsVoters(event)
    requires event.Receive? ==> Packet(id, event.message) in s.net
    ensures Ends(r', s') && r' == Run(r.states + [s'], r.moves + [Handle(id, event, 1)])
    ensures s'.nodes == s.nodes[id := Step(s.nodes[id], event, 1).Final()]
    ensures s.net <= s'.net
    ensures forall to, m :: Send(to, m) in Step(s.nodes[id], event, 1).Emitted() ==> Packet(to, m) in s'.net
  {
    hide Step, ValidSetup, Init;
    ValidServers();
    var move := Handle(id, event, 1);
    var o := Step(s.nodes[id], event, 1);
    s' := State(s.nodes[id := o.Final()], s.net + Packets(o.Emitted()));
    r' := Run(r.states + [s'], r.moves + [move]);
    forall to, m | Send(to, m) in o.Emitted() ensures Packet(to, m) in s'.net {
      assert Send(to, m).Send?;
      assert Packet(to, m) in Packets(o.Emitted());
    }
    assert Next(SETUP, s, move, s');
    forall i | 0 <= i < |r'.moves| ensures Next(SETUP, r'.states[i], r'.moves[i], r'.states[i + 1]) {
      if i < |r.moves| { assert Next(SETUP, r.states[i], r.moves[i], r.states[i + 1]); }
    }
  }

  /** Server 1 is elected. */
  lemma Elects() returns (r: Run, s: State)
    ensures Ends(r, s)
    ensures s.nodes == map[1 := Leading(Plain([], Some(1)), 0, UNKNOWN), 2 := Blank(2), 3 := Helping([], None, 0)]
  {
    hide Ends, Step;
    r := Begins();
    s := BEFORE;
    Asks();
    r, s := Then(r, s, 1, Tick);
    WouldVote();
    r, s := Then(r, s, 3, Receive(ASK));
    Stands();
    r, s := Then(r, s, 1, Receive(WOULD));
    Votes();
    r, s := Then(r, s, 3, Receive(STAND));
    Wins();
    r, s := Then(r, s, 1, Receive(VOTE));
  }

  lemma Fill(r: Run, s: State, entries: seq<LogEntry>) returns (r': Run, s': State)
    requires Ends(r, s) && 1 in s.nodes && s.nodes[1] == Leading(Plain(entries, Some(1)), 0, UNKNOWN)
    requires forall k :: 0 <= k < |entries| ==> entries[k].index == k + 1
    ensures Ends(r', s')
    ensures s'.nodes == s.nodes[1 := Leading(Plain(entries + [NormalEntry(1, |entries| + 1, [])], Some(1)), 0, UNKNOWN)]
  {
    hide Ends, Step, Leading, Plain;
    Proposes(entries);
    r', s' := Then(r, s, 1, Propose([]));
  }

  /** It takes four proposals. */
  lemma Fills() returns (r: Run, s: State)
    ensures Ends(r, s)
    ensures s.nodes == map[1 := Leading(FOUR, 0, UNKNOWN), 2 := Blank(2), 3 := Helping([], None, 0)]
  {
    hide Ends, Leading, Plain, Blank, Helping;
    r, s := Elects();
    r, s := Fill(r, s, []);
    assert [] + [E1] == [E1];
    r, s := Fill(r, s, [E1]);
    assert [E1] + [E2] == [E1, E2];
    r, s := Fill(r, s, [E1, E2]);
    assert [E1, E2] + [E3] == [E1, E2, E3];
    r, s := Fill(r, s, [E1, E2, E3]);
    assert [E1, E2, E3] + [E4] == [E1, E2, E3, E4];
  }

  /** It commits them with server 3. */
  lemma Commits() returns (r: Run, s: State)
    ensures Ends(r, s) && s.nodes[1] == Leading(FOUR, 4, SETTLED) && s.nodes[2] == Blank(2)
  {
    hide Ends, Step;
    r, s := Fills();
    SendsFirst();
    r, s := Then(r, s, 1, Tick);
    TakesThree();
    r, s := Then(r, s, 3, Receive(FIRST));
    CommitsThree();
    r, s := Then(r, s, 1, Receive(ACK3));
    TakesFourth();
    r, s := Then(r, s, 3, Receive(FOURTH));
    CommitsFour();
    r, s := Then(r, s, 1, Receive(ACK4));
  }

  /** It sends server 2 an append, compacts, and sends it the snapshot. */
  lemma SendsBoth() returns (r: Run, s: State)
    ensures Ends(r, s) && s.nodes[2] == Blank(2) && Packet(2, TWICE) in s.net && Packet(2, SNAPSHOT) in s.net
  {
    hide Ends, Step;
    r, s := Commits();
    SendsTwice();
    r, s := Then(r, s, 1, Tick);
    Compacts();
    r, s := Then(r, s, 1, TakeSnapshot(2, []));
    SendsSnapshot();
    r, s := Then(r, s, 1, Tick);
  }

  /** The run: at its last move a server handles a snapshot, and its applied index falls. */
  lemma SnapshotCanMoveBack() returns (r: Run, i: nat)
    ensures IsRun(SETUP, r) && i < |r.moves| && r.moves[i].Handle? && r.moves[i].event == Receive(SNAPSHOT)
    ensures 2 in r.states[i].nodes && 2 in r.states[i + 1].nodes && r.moves[i].id == 2
    ensures r.states[i + 1].nodes[2].applied < r.states[i].nodes[2].applied
  {
    hide Step, IsRun;
    var s: State;
    r, s := SendsBoth();
    CatchesUp();
    r, s := Then(r, s, 2, Receive(TWICE));
    CutsShort();
    r, s := Then(r, s, 2, TakeSnapshot(1, []));
    FallsBack();
    r, s := Then(r, s, 2, Receive(TWICE));
    MovesBack();
    var before := r;
    r, s := Then(r, s, 2, Receive(SNAPSHOT));
    i := |before.moves|;
    RunLength(SETUP, before);
  }
}
