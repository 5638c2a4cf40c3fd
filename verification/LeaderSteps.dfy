/**
 The leader's side of the protocol keeps a node fitted to the ledger: elections won, batches and
 snapshots sent, proposals appended, acknowledgements counted, commits advanced and applied.

 Each lemma follows one handler; where the ledger moves, the lemma returns the ledger after it.
 */
module LeaderSteps {
  import opened Types
  import opened LogStore
  import opened Protocol
  import opened Ledger
  import opened LedgerSteps
  import opened NodeInvariant

  // ---- sending -----------------------------------------------------------

  lemma {:induction false} BroadcastOk(actions: seq<Action>, peers: seq<NodeId>, self: NodeId, m: Message,
                                       roster: seq<NodeId>, g: Ledger)
    requires ActionsOk(actions, roster, g)
    requires forall to :: to != self ==> PacketOk(to, m, roster, g)
    ensures ActionsOk(Broadcast(actions, peers, self, m), roster, g)
  {
    hide PacketOk, ActionsOk;
    if peers != [] {
      var peer := peers[|peers| - 1];
      var rest := Broadcast(actions, peers[..|peers| - 1], self, m);
      BroadcastOk(actions, peers[..|peers| - 1], self, m, roster, g);
      if peer != self { ActionsAppend(rest, Send(peer, m), roster, g); }
    }
  }

  /** A leader's log is its term's log in the ledger. */
  lemma LeaderLog(n: Node, roster: seq<NodeId>, g: Ledger)
    requires Inv(g) && NodeOk(n, roster, g) && n.role == Leader
    ensures n.term in g.led && n.term in g.elected && g.elected[n.term] == n.id
    ensures n.id in g.full && g.full[n.id] == g.led[n.term]
    ensures (n.id, n.term) in g.acked && g.acked[(n.id, n.term)] == |g.led[n.term]|
  {
    hide Inv, Covered, LedShape, AllConsistent, TermsBounded, Elections, AckHeld, AckKept, VoteKept, Complete,
         CommitsHeld, Fixed, Durable, Window;
    InvParts(g);
  }

  lemma RowFacts(n: Node, i: nat, roster: seq<NodeId>, g: Ledger)
    requires NodeOk(n, roster, g) && n.role == Leader && i < |n.progress|
    ensures RowOk(g, n.term, n.id, n.log.LastIndex(), n.progress[i])
  {
    hide CoreOk;
  }

  /** The batch a leader sends is the stretch of its log after the follower's `next - 1`. */
  lemma BatchIsStretch(n: Node, full: seq<LogEntry>, next: Index)
    requires Window(n.log, full) && n.log.base < next <= |full| + 1 && n.params.maxBatch >= 1
    ensures Stretch(Batch(n, next), full, next - 1)
  {
    WindowReads(n.log, full, next);
    var last := n.log.LastIndex();
    if last >= next {
      var to := Min(last, next + n.params.maxBatch - 1);
      assert Batch(n, next) == n.log.entries[next - n.log.base - 1..to - n.log.base];
    }
  }

  lemma AppendPacketOk(n: Node, i: nat, roster: seq<NodeId>, g: Ledger)
    requires Inv(g) && NodeOk(n, roster, g) && n.role == Leader && i < |n.progress|
    requires n.progress[i].next > n.log.base
    ensures var p := n.progress[i];
            PacketOk(p.id, AppendEntries(n.term, n.id, p.next - 1, TermOrZero(n.log, p.next - 1), Batch(n, p.next),
                                         n.commit), roster, g)
  {
    hide Inv, NodeOk, Window, Covered, Batch;
    var p := n.progress[i];
    LeaderLog(n, roster, g);
    NodeFacts(n, roster, g);
    RowFacts(n, i, roster, g);
    WindowReads(n.log, g.full[n.id], p.next - 1);
    BatchIsStretch(n, g.full[n.id], p.next);
  }

  lemma BaseSnapshot(n: Node, roster: seq<NodeId>, g: Ledger)
    requires NodeOk(n, roster, g) && n.log.base > 0
    ensures n.log.CurrentSnapshot().Some?
    ensures var s := n.log.CurrentSnapshot().value;
            && s.index == n.log.base && s.term == TermOf(g.full[n.id], n.log.base) && s.config == roster
            && (s.index, s.term, s.data) in g.taken
  {
    hide Covered;
  }

  lemma SnapshotPacketOk(n: Node, i: nat, roster: seq<NodeId>, g: Ledger)
    requires Inv(g) && NodeOk(n, roster, g) && n.role == Leader && i < |n.progress|
    requires n.progress[i].next <= n.log.base
    ensures n.log.CurrentSnapshot().Some?
    ensures PacketOk(n.progress[i].id, InstallSnapshot(n.term, n.id, n.log.CurrentSnapshot().value), roster, g)
  {
    hide Inv, NodeOk, Window, Covered;
    LeaderLog(n, roster, g);
    NodeFacts(n, roster, g);
    RowFacts(n, i, roster, g);
    BaseSnapshot(n, roster, g);
    CoveredShorter(g, n.term, g.full[n.id], n.commit, n.log.base);
  }

  /** Changing one row of a leader's table to another good row. */
  lemma RowChanges(n: Node, i: nat, p: Progress, roster: seq<NodeId>, g: Ledger)
    requires NodeOk(n, roster, g) && n.role == Leader && i < |n.progress|
    requires p.id == n.progress[i].id && RowOk(g, n.term, n.id, n.log.LastIndex(), p)
    ensures NodeOk(n.(progress := n.progress[i := p]), roster, g)
  {
    hide Fixed, Durable, Voted, Holds, RowOk;
    CoreStays(n, n.(progress := n.progress[i := p]), roster, g);
  }

  lemma BatchLength(n: Node, next: Index)
    requires n.log.base < next <= n.log.LastIndex() + 1 && n.params.maxBatch >= 1
    ensures next + |Batch(n, next)| <= n.log.LastIndex() + 1
  {
  }

  lemma SendAppendOk(e: Effect, i: nat, roster: seq<NodeId>, g: Ledger)
    requires Inv(g) && EffectOk(e, roster, g) && e.node.role == Leader && i < |e.node.progress|
    ensures EffectOk(SendAppend(e, i), roster, g) && SendAppend(e, i).node.role == Leader
    ensures |SendAppend(e, i).node.progress| == |e.node.progress|
    ensures SameCore(e.node, SendAppend(e, i).node)
  {
    hide Inv, NodeOk, ActionsOk, PacketOk, Batch;
    var n := e.node;
    var p := n.progress[i];
    NodeFacts(n, roster, g);
    RowFacts(n, i, roster, g);
    if p.next <= n.log.base {
      SnapshotPacketOk(n, i, roster, g);
      RowChanges(n, i, p.(state := Probe), roster, g);
      ActionsAppend(e.actions, Send(p.id, InstallSnapshot(n.term, n.id, n.log.CurrentSnapshot().value)), roster, g);
    } else {
      AppendPacketOk(n, i, roster, g);
      BatchLength(n, p.next);
      ActionsAppend(e.actions, Send(p.id, AppendEntries(n.term, n.id, p.next - 1, TermOrZero(n.log, p.next - 1),
                                                        Batch(n, p.next), n.commit)), roster, g);
      if |Batch(n, p.next)| > 0 && p.state == Replicate {
        RowChanges(n, i, p.(next := p.next + |Batch(n, p.next)|), roster, g);
      }
    }
  }

  lemma {:induction false} ReplicateOk(e: Effect, i: nat, all: bool, roster: seq<NodeId>, g: Ledger)
    requires Inv(g) && EffectOk(e, roster, g) && e.node.role == Leader
    ensures EffectOk(ReplicateFrom(e, i, all), roster, g) && ReplicateFrom(e, i, all).node.role == Leader
    ensures SameCore(e.node, ReplicateFrom(e, i, all).node)
    decreases |e.node.progress| - i
  {
    hide Inv, EffectOk, SendAppend;
    if i < |e.node.progress| {
      if all || e.node.progress[i].state == Replicate {
        SendAppendOk(e, i, roster, g);
        ReplicateOk(SendAppend(e, i), i + 1, all, roster, g);
      } else {
        ReplicateOk(e, i + 1, all, roster, g);
      }
    }
  }

  // ---- applying ----------------------------------------------------------

  lemma ApplyIsCommitted(n: Node, i: Index, roster: seq<NodeId>, g: Ledger)
    requires LedShape(g) && n.id in g.full && Window(n.log, g.full[n.id])
    requires Covered(g, n.term, g.full[n.id], n.commit) && n.log.base < i <= n.commit <= |g.full[n.id]|
    ensures n.log.Entry(i).Some?
    ensures var e := n.log.Entry(i).value;
            e.index == i && e.kind == Normal && AppliedOk(g, i, e.term, e.command)
  {
    var full := g.full[n.id];
    WindowReads(n.log, full, i);
    var c :| c in g.commits && CoveredBy(g, n.term, full, n.commit, c);
    assert full[i - 1] == g.led[c.0][i - 1];
    assert AppliedBy(g, i, full[i - 1].term, full[i - 1].command, c);
  }

  lemma ApplyNext(e: Effect, roster: seq<NodeId>, g: Ledger)
    requires Inv(g) && EffectOk(e, roster, g) && e.node.applied < e.node.commit
    ensures var i := e.node.applied + 1;
            EffectOk(Effect(e.node.(applied := i), e.actions + ApplyActions(e.node.log, i)), roster, g)
  {
    hide Inv, LedShape, NodeOk, Window, Covered, AppliedOk, ActionsOk, Domains, AllConsistent, TermsBounded,
         Elections, LeaderLogs, AckHeld, AckKept, VoteKept, Complete, CommitsHeld;
    InvParts(g);
    var n := e.node;
    var i := n.applied + 1;
    NodeFacts(n, roster, g);
    ApplyIsCommitted(n, i, roster, g);
    CoveredShorter(g, n.term, g.full[n.id], n.commit, i);
    IndicesMove(n, n.commit, i, roster, g);
    var entry := n.log.Entry(i).value;
    ActionsAppend(e.actions, Apply(entry.index, entry.term, entry.command), roster, g);
  }

  lemma {:induction false} DrainOk(e: Effect, roster: seq<NodeId>, g: Ledger)
    requires Inv(g) && EffectOk(e, roster, g)
    ensures EffectOk(DrainApplies(e), roster, g)
    ensures SameCore(e.node.(applied := Max(e.node.applied, e.node.commit)), DrainApplies(e).node)
    ensures DrainApplies(e).node.role == e.node.role
    ensures DrainApplies(e).node.progress == e.node.progress
    decreases e.node.commit - e.node.applied
  {
    hide Inv, EffectOk, ApplyActions;
    if e.node.applied < e.node.commit {
      ApplyNext(e, roster, g);
      var i := e.node.applied + 1;
      DrainOk(Effect(e.node.(applied := i), e.actions + ApplyActions(e.node.log, i)), roster, g);
    } else {
      HintOk(e, roster, g);
    }
  }

  lemma HintOk(e: Effect, roster: seq<NodeId>, g: Ledger)
    requires EffectOk(e, roster, g)
    ensures EffectOk(MaybeHintSnapshot(e), roster, g)
  {
    var h := MaybeHintSnapshot(e);
    CoreStays(e.node, h.node, roster, g);
    hide CoreOk, RowOk;
    if h.actions != e.actions {
      ActionsAppend(e.actions, SnapshotHint(e.node.applied, e.node.log.TermAt(e.node.applied).value), roster, g);
    }
  }

  // ---- committing --------------------------------------------------------

  /** The followers whose rows reach `index`. */
  ghost function Ackers(progress: seq<Progress>, index: Index): set<NodeId> {
    if progress == [] then {}
    else Ackers(progress[..|progress| - 1], index)
         + (if progress[|progress| - 1].matched >= index then {progress[|progress| - 1].id} else {})
  }

  lemma {:induction false} AckersIn(progress: seq<Progress>, index: Index, v: NodeId)
    requires v in Ackers(progress, index)
    ensures exists i :: 0 <= i < |progress| && progress[i].id == v && progress[i].matched >= index
  {
    var front := progress[..|progress| - 1];
    if v in Ackers(front, index) {
      AckersIn(front, index, v);
      var i :| 0 <= i < |front| && front[i].id == v && front[i].matched >= index;
      assert progress[i] == front[i];
    }
  }

  /** With one row per follower, counting rows counts followers. */
  lemma {:induction false} AckersCounted(progress: seq<Progress>, index: Index)
    requires forall i, j :: 0 <= i < j < |progress| ==> progress[i].id != progress[j].id
    ensures |Ackers(progress, index)| == CountAcked(progress, index)
  {
    if progress != [] {
      var front := progress[..|progress| - 1];
      AckersCounted(front, index);
      var p := progress[|progress| - 1];
      if p.id in Ackers(front, index) {
        AckersIn(front, index, p.id);
      }
    }
  }

  lemma {:induction false} CommitScanFound(n: Node, i: Index)
    ensures var k := CommitScan(n, i);
            k > n.commit ==> k <= i && n.log.TermAt(k) == Some(n.term) && Replicas(n, k) >= Quorum(n)
    ensures CommitScan(n, i) >= n.commit
  {
    if i > n.commit { CommitScanFound(n, i - 1); }
  }

  /** A count that reaches the quorum is a majority that really holds the leader's log that far. */
  lemma QuorumHolds(n: Node, k: Index, roster: seq<NodeId>, g: Ledger) returns (q: set<NodeId>)
    requires Inv(g) && NodeOk(n, roster, g) && n.role == Leader && 0 < k <= n.log.LastIndex()
    requires Replicas(n, k) >= Quorum(n)
    ensures Majority(q, g.servers) && forall v :: v in q ==> (v, n.term) in g.acked && g.acked[(v, n.term)] >= k
  {
    hide Inv, NodeOk, Window, Covered;
    LeaderLog(n, roster, g);
    NodeFacts(n, roster, g);
    RosterSize(n, roster, g);
    RowsDistinct(n, roster, g);
    AckersCounted(n.progress, k);
    var others := Ackers(n.progress, k);
    forall v | v in others ensures v in g.servers && v != n.id && Acked(g, v, n.term) >= k {
      AckersIn(n.progress, k, v);
      var i :| 0 <= i < |n.progress| && n.progress[i].id == v && n.progress[i].matched >= k;
      RowFacts(n, i, roster, g);
    }
    q := others + {n.id};
    assert |q| == |others| + 1;
  }

  lemma RosterSize(n: Node, roster: seq<NodeId>, g: Ledger)
    requires NodeOk(n, roster, g)
    ensures |n.voters| == |g.servers|
  {
  }

  lemma RowsDistinct(n: Node, roster: seq<NodeId>, g: Ledger)
    requires NodeOk(n, roster, g) && n.role == Leader
    ensures forall i, j :: 0 <= i < j < |n.progress| ==> n.progress[i].id != n.progress[j].id
  {
    hide CoreOk;
  }

  /** The ledger after a leader has committed up to `k` by counting. */
  lemma LeaderCommits(n: Node, k: Index, roster: seq<NodeId>, g: Ledger) returns (h: Ledger)
    requires Inv(g) && NodeOk(n, roster, g) && n.role == Leader
    requires n.commit < k <= n.log.LastIndex() && n.log.TermAt(k) == Some(n.term) && Replicas(n, k) >= Quorum(n)
    ensures Inv(h) && Moved(g, h, n.id) && NodeOk(n.(commit := k), roster, h) && h.term == g.term
  {
    hide Inv, NodeOk, Window, Covered, OnlyNode, KeepsCovered, AcksNow, GrowsNodes, GrowsVotes, GrowsLogs;
    var q := QuorumHolds(n, k, roster, g);
    LeaderLog(n, roster, g);
    NodeFacts(n, roster, g);
    h := g.(commits := g.commits[(n.term, k) := q]);
    CommitInTerm(n, k, roster, g);
    CommitMoves(g, h, n.id, n.term, k, q);
    CommitAdvances(n, k, roster, g, h);
  }

  lemma CommitInTerm(n: Node, k: Index, roster: seq<NodeId>, g: Ledger)
    requires Inv(g) && NodeOk(n, roster, g) && n.role == Leader
    requires 0 < k <= n.log.LastIndex() && n.log.TermAt(k) == Some(n.term)
    ensures n.term in g.led && |StartLog(g, n.term)| < k <= |g.led[n.term]|
  {
    hide Inv, NodeOk, Covered, Domains, AllConsistent, TermsBounded, Elections, LeaderLogs, AckHeld, AckKept,
         VoteKept, Complete, CommitsHeld;
    InvParts(g);
    LeaderLog(n, roster, g);
    NodeFacts(n, roster, g);
    WindowReads(n.log, g.full[n.id], k);
    assert g.led[n.term][k - 1].term == n.term;
  }

  /** Recording a commit keeps a node fitted, and covers what was committed. */
  lemma CommitAdvances(n: Node, k: Index, roster: seq<NodeId>, g: Ledger, h: Ledger)
    requires NodeOk(n, roster, g) && n.role == Leader && n.commit < k <= n.log.LastIndex()
    requires n.term in g.led && n.id in g.full && g.full[n.id] == g.led[n.term] && k <= |g.led[n.term]|
    requires h == g.(commits := h.commits) && Grows(g, h) && (n.term, k) in h.commits
    ensures NodeOk(n.(commit := k), roster, h)
  {
    hide NodeOk, Covered, GrowsNodes, GrowsVotes, GrowsLogs;
    NodeFacts(n, roster, g);
    SameNodeStays(n, roster, g, h);
    CoveredStays(g, h, n.term, n.term, g.full[n.id], n.applied);
    CommitCovers(h, n.term, k);
    IndicesMove(n, k, n.applied, roster, h);
  }

  lemma CommitCovers(h: Ledger, t: Term, k: nat)
    requires (t, k) in h.commits && t in h.led && k <= |h.led[t]|
    ensures Covered(h, t, h.led[t], k)
  {
    assert CoveredBy(h, t, h.led[t], k, (t, k));
  }

  /** A node fits on when the ledger grows and the node's own term, log and votes are as they were. */
  lemma SameNodeStays(n: Node, roster: seq<NodeId>, g: Ledger, h: Ledger)
    requires NodeOk(n, roster, g) && Grows(g, h)
    requires h.term == g.term && h.full == g.full && h.ballots == g.ballots && h.elected == g.elected
    ensures NodeOk(n, roster, h)
  {
    hide Window, Covered, GrowsNodes, GrowsLogs, Fixed, Durable, LeaderOk;
    GrowsServers(g, h);
    FixedStays(n, roster, g, h);
    CoveredStays(g, h, n.term, n.term, g.full[n.id], n.commit);
    CoveredStays(g, h, n.term, n.term, g.full[n.id], n.applied);
    if n.role == Leader { LeaderStays(n, g, h); }
  }

  lemma GrowsServers(g: Ledger, h: Ledger)
    requires Grows(g, h)
    ensures h.servers == g.servers && g.taken <= h.taken
  {
  }

  lemma FixedStays(n: Node, roster: seq<NodeId>, g: Ledger, h: Ledger)
    requires Fixed(n, roster, g) && h.servers == g.servers && g.taken <= h.taken
    ensures Fixed(n, roster, h)
  {
  }

  lemma AdvanceCommitOk(e: Effect, roster: seq<NodeId>, g: Ledger) returns (h: Ledger)
    requires Inv(g) && EffectOk(e, roster, g) && e.node.role == Leader
    ensures Inv(h) && Moved(g, h, e.node.id) && h.term == g.term
    ensures EffectOk(AdvanceCommit(e), roster, h)
    ensures AdvanceCommit(e).node.role == Leader && AdvanceCommit(e).node.progress == e.node.progress
    ensures AdvanceCommit(e).node.id == e.node.id
  {
    hide Inv, NodeOk, ActionsOk, OnlyNode, KeepsCovered, AcksNow, GrowsNodes, GrowsVotes, GrowsLogs, CommitScan,
         Window, Covered, DrainApplies;
    var n := e.node;
    var k := CommitScan(n, n.log.LastIndex());
    CommitScanFound(n, n.log.LastIndex());
    NodeFacts(n, roster, g);
    if k > n.commit {
      h := LeaderCommits(n, k, roster, g);
      ActionsStay(e.actions, roster, g, h);
      DrainOk(e.(node := n.(commit := k)), roster, h);
    } else {
      h := g;
      StillMoved(g, n.id);
    }
  }

  lemma StillMoved(g: Ledger, n: NodeId)
    ensures Moved(g, g, n)
  {
    hide Covered;
    LongerKeeps(g, g);
  }
}
