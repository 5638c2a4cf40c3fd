/**
 Elections keep a node fitted to the ledger: adopting a term, campaigning, voting and winning.
 */
module ElectionSteps {
  import opened Types
  import opened LogStore
  import opened Protocol
  import opened Ledger
  import opened LedgerSteps
  import opened NodeInvariant
  import opened LeaderSteps

  // ---- adopting a later term ---------------------------------------------

  lemma NoBallotAhead(g: Ledger, n: NodeId, t: Term)
    requires Domains(g) && n in g.term && t > g.term[n]
    ensures (n, t) !in g.ballots && (n, t) !in g.cand && (t in g.elected ==> g.elected[t] != n)
  {
  }

  lemma BecomeFollowerOk(n: Node, t: Term, roster: seq<NodeId>, g: Ledger) returns (h: Ledger)
    requires Inv(g) && NodeOk(n, roster, g) && t > n.term
    ensures Inv(h) && Moved(g, h, n.id) && NodeOk(BecomeFollower(n, t, None), roster, h) && h.acked == g.acked
  {
    hide Inv, Window, Covered, OnlyNode, KeepsCovered, AcksNow, GrowsNodes, GrowsVotes, GrowsLogs, IsRoster,
         CandidateOk, LeaderOk, LedShape, AllConsistent, TermsBounded, Elections, LeaderLogs, AckHeld, AckKept,
         VoteKept, Complete, CommitsHeld, Domains;
    NodeFacts(n, roster, g);
    InvParts(g);
    NoBallotAhead(g, n.id, t);
    h := g.(term := g.term[n.id := t]);
    BumpMoves(g, h, n.id, t);
    CoveredStays(g, h, n.term, t, g.full[n.id], n.commit);
    CoveredStays(g, h, n.term, t, g.full[n.id], n.applied);
    WindowIgnoresHardState(n.log, g.full[n.id], HardState(t, None));
  }

  lemma WindowIgnoresHardState(log: Log, full: seq<LogEntry>, hard: HardState)
    requires Window(log, full)
    ensures Window(log.SetHardState(hard), full)
  {
  }

  // ---- campaigning -------------------------------------------------------

  lemma CampaignedOk(n: Node, draw: nat, roster: seq<NodeId>, g: Ledger) returns (h: Ledger)
    requires Inv(g) && NodeOk(n, roster, g)
    ensures Inv(h) && Moved(g, h, n.id) && NodeOk(Campaigned(n, draw), roster, h) && h.acked == g.acked
  {
    hide Inv, Window, Covered, OnlyNode, KeepsCovered, AcksNow, GrowsNodes, GrowsVotes, GrowsLogs, IsRoster,
         LeaderOk, LedShape, AllConsistent, TermsBounded, Elections, LeaderLogs, AckHeld, AckKept, VoteKept,
         Complete, CommitsHeld, Domains;
    NodeFacts(n, roster, g);
    InvParts(g);
    var t := n.term + 1;
    NoBallotAhead(g, n.id, t);
    h := g.(term := g.term[n.id := t], ballots := g.ballots[(n.id, t) := n.id],
            cand := g.cand[(n.id, t) := g.full[n.id]]);
    CampaignMoves(g, h, n.id);
    CoveredStays(g, h, n.term, t, g.full[n.id], n.commit);
    CoveredStays(g, h, n.term, t, g.full[n.id], n.applied);
    WindowIgnoresHardState(n.log, g.full[n.id], HardState(t, Some(n.id)));
  }

  // ---- the progress table ------------------------------------------------

  ghost predicate Distinct(ids: seq<NodeId>) {
    forall i, j :: 0 <= i < j < |ids| ==> ids[i] != ids[j]
  }

  /** One row for each voter other than `self`, and no two for the same one. */
  ghost predicate RowsFor(rows: seq<Progress>, voters: seq<NodeId>, self: NodeId, known: seq<Progress>, next: Index) {
    && (forall i :: 0 <= i < |rows| ==>
          rows[i].id in voters && rows[i].id != self && rows[i] == ProgressOf(known, rows[i].id, next))
    && (forall i, j :: 0 <= i < j < |rows| ==> rows[i].id != rows[j].id)
  }

  /** The rebuilt table has one row for each other voter: its old row, or a fresh one. */
  lemma {:induction false} ProgressForRows(voters: seq<NodeId>, self: NodeId, known: seq<Progress>, next: Index)
    requires Distinct(voters)
    ensures RowsFor(ProgressFor(voters, self, known, next), voters, self, known, next)
  {
    if voters != [] {
      var front := voters[..|voters| - 1];
      var v := voters[|voters| - 1];
      ProgressForRows(front, self, known, next);
      var rows := ProgressFor(front, self, known, next);
      assert ProgressFor(voters, self, known, next) == rows + (if v == self then [] else [ProgressOf(known, v, next)]);
      forall i | 0 <= i < |rows| ensures rows[i].id != v && rows[i].id in voters {
        assert rows[i].id in front;
        var j :| 0 <= j < |front| && front[j] == rows[i].id;
        assert voters[j] == rows[i].id;
      }
    }
  }

  lemma RebuiltOk(n: Node, roster: seq<NodeId>, g: Ledger)
    requires CoreOk(n, roster, g) && n.role == Leader && n.term in g.elected && g.elected[n.term] == n.id
    requires forall i :: 0 <= i < |n.progress| ==> RowOk(g, n.term, n.id, n.log.LastIndex(), n.progress[i])
    ensures NodeOk(RebuildProgress(n), roster, g)
  {
    hide Durable, Voted, Holds, ProgressFor, CoreOk, ProgressOf;
    var m := RebuildProgress(n);
    CoreStays(n, m, roster, g);
    RosterDistinct(n, roster, g);
    ProgressForRows(n.voters, n.id, n.progress, n.log.LastIndex() + 1);
    forall i | 0 <= i < |m.progress| ensures RowOk(g, m.term, m.id, m.log.LastIndex(), m.progress[i]) {
      RowKnownOrFresh(n, m.progress[i].id, g);
    }
  }

  lemma RowKnownOrFresh(n: Node, id: NodeId, g: Ledger)
    requires forall i :: 0 <= i < |n.progress| ==> RowOk(g, n.term, n.id, n.log.LastIndex(), n.progress[i])
    requires id in g.servers && id != n.id
    ensures RowOk(g, n.term, n.id, n.log.LastIndex(), ProgressOf(n.progress, id, n.log.LastIndex() + 1))
  {
  }

  lemma RosterDistinct(n: Node, roster: seq<NodeId>, g: Ledger)
    requires CoreOk(n, roster, g)
    ensures Distinct(n.voters) && forall v :: v in n.voters ==> v in g.servers
  {
    hide Durable, Voted, Holds;
  }

  // ---- winning -----------------------------------------------------------

  ghost function SetOf(ids: seq<NodeId>): set<NodeId> {
    set v | v in ids
  }

  lemma {:induction false} DistinctSize(ids: seq<NodeId>)
    requires Distinct(ids)
    ensures |SetOf(ids)| == |ids|
  {
    if ids != [] {
      var front := ids[..|ids| - 1];
      var last := ids[|ids| - 1];
      DistinctSize(front);
      assert ids == front + [last];
      assert SetOf(ids) == SetOf(front) + {last};
    }
  }

  lemma VotesCount(n: Node, roster: seq<NodeId>, g: Ledger)
    requires Domains(g) && NodeOk(n, roster, g) && n.role == Candidate && |n.votes| >= Quorum(n)
    ensures Majority(SetOf(n.votes), g.servers)
    ensures forall v :: v in SetOf(n.votes) ==> (v, n.term) in g.ballots && g.ballots[(v, n.term)] == n.id
    ensures n.term in g.elected ==> g.elected[n.term] != n.id
  {
    hide Durable, Voted, Holds, LeaderOk;
    DistinctSize(n.votes);
    forall v | v in SetOf(n.votes) ensures v in g.servers { assert v in n.votes; }
  }

  /** The votes of a candidate that reaches the quorum are a majority, and no one else won. */
  lemma VotesWin(n: Node, roster: seq<NodeId>, g: Ledger) returns (q: set<NodeId>)
    requires Inv(g) && NodeOk(n, roster, g) && n.role == Candidate && |n.votes| >= Quorum(n)
    ensures Majority(q, g.servers) && n.term !in g.led
    ensures forall v :: v in q ==> (v, n.term) in g.ballots && g.ballots[(v, n.term)] == n.id
  {
    hide Inv, NodeOk, Domains, LedShape, AllConsistent, TermsBounded, LeaderLogs, AckHeld, AckKept, VoteKept,
         Complete, CommitsHeld, SetOf;
    InvParts(g);
    q := SetOf(n.votes);
    VotesCount(n, roster, g);
    if n.term in g.led {
      var v := MajoritiesMeet(q, g.electors[n.term], g.servers);
      assert false;
    }
  }

  lemma BecomeLeaderOk(e: Effect, roster: seq<NodeId>, g: Ledger) returns (h: Ledger)
    requires Inv(g) && EffectOk(e, roster, g) && e.node.role == Candidate && |e.node.votes| >= Quorum(e.node)
    ensures Inv(h) && Moved(g, h, e.node.id)
    ensures EffectOk(BecomeLeader(e), roster, h) && BecomeLeader(e).node.id == e.node.id
  {
    hide Inv, NodeOk, ActionsOk, OnlyNode, KeepsCovered, AcksNow, GrowsNodes, GrowsVotes, GrowsLogs,
         ReplicateFrom, AdvanceCommit, Elected;
    var h1 := WinOk(e.node, roster, g);
    ActionsStay(e.actions, roster, g, h1);
    ElectedKeepsId(e.node);
    var e1 := e.(node := Elected(e.node));
    ReplicateOk(e1, 0, true, roster, h1);
    h := AdvanceCommitOk(ReplicateFrom(e1, 0, true), roster, h1);
    MovedTransitive(g, h1, h, e.node.id);
  }

  lemma ElectedKeepsId(n: Node)
    ensures Elected(n).id == n.id && Elected(n).role == Leader
  {
  }

  lemma WinOk(n: Node, roster: seq<NodeId>, g: Ledger) returns (h: Ledger)
    requires Inv(g) && NodeOk(n, roster, g) && n.role == Candidate && |n.votes| >= Quorum(n)
    ensures Inv(h) && Moved(g, h, n.id) && NodeOk(Elected(n), roster, h)
  {
    hide Inv, Window, Covered, OnlyNode, KeepsCovered, AcksNow, GrowsNodes, GrowsVotes, GrowsLogs, Fixed,
         Durable, Voted, Holds, LeaderOk, RebuildProgress;
    var q := VotesWin(n, roster, g);
    NodeFacts(n, roster, g);
    h := g.(elected := g.elected[n.term := n.id], electors := g.electors[n.term := q],
            led := g.led[n.term := g.full[n.id]], acked := g.acked[(n.id, n.term) := |g.full[n.id]|]);
    WinMoves(g, h, n.id, q);
    SameCoreStays(n, roster, g, h);
    var m := n.(role := Leader, leaderId := Some(n.id), heartbeatElapsed := 0, transferTarget := None,
                preVoting := false, preVotes := []);
    CoreStays(n, m, roster, h);
    RebuiltOk(m, roster, h);
  }

  /** The core of a node fits on when the ledger grows and the node's term, log and votes stay. */
  lemma SameCoreStays(n: Node, roster: seq<NodeId>, g: Ledger, h: Ledger)
    requires CoreOk(n, roster, g) && Grows(g, h)
    requires h.term == g.term && h.full == g.full && h.ballots == g.ballots
    ensures CoreOk(n, roster, h)
  {
    hide Window, Covered, GrowsNodes, GrowsVotes, GrowsLogs, Durable, Fixed;
    GrowsServers(g, h);
    FixedStays(n, roster, g, h);
    CoveredStays(g, h, n.term, n.term, g.full[n.id], n.commit);
    CoveredStays(g, h, n.term, n.term, g.full[n.id], n.applied);
  }

  // ---- the handlers ------------------------------------------------------

  lemma CandidatePacket(n: Node, force: bool, roster: seq<NodeId>, g: Ledger, to: NodeId)
    requires NodeOk(n, roster, g) && n.role == Candidate
    ensures PacketOk(to, RequestVote(n.term, n.id, n.log.LastIndex(), n.log.LastTerm(), force), roster, g)
  {
    hide Covered, Fixed;
    WindowReads(n.log, g.full[n.id], 0);
  }

  lemma StartElectionOk(e: Effect, force: bool, draw: nat, roster: seq<NodeId>, g: Ledger) returns (h: Ledger)
    requires Inv(g) && EffectOk(e, roster, g)
    ensures Inv(h) && Moved(g, h, e.node.id)
    ensures EffectOk(StartElection(e, force, draw), roster, h)
    ensures StartElection(e, force, draw).node.id == e.node.id
  {
    hide Inv, NodeOk, ActionsOk, OnlyNode, KeepsCovered, AcksNow, GrowsNodes, GrowsVotes, GrowsLogs,
         BecomeLeader, Broadcast, PacketOk;
    var n := Campaigned(e.node, draw);
    var h1 := CampaignedOk(e.node, draw, roster, g);
    ActionsStay(e.actions, roster, g, h1);
    if 1 >= Quorum(n) {
      h := BecomeLeaderOk(e.(node := n), roster, h1);
      MovedTransitive(g, h1, h, e.node.id);
    } else {
      h := h1;
      var m := RequestVote(n.term, n.id, n.log.LastIndex(), n.log.LastTerm(), force);
      forall to ensures PacketOk(to, m, roster, h) { CandidatePacket(n, force, roster, h, to); }
      BroadcastOk(e.actions, n.voters, n.id, m, roster, h);
    }
  }

  /** Changes to a follower's volatile state, or a return to that role, need nothing of the ledger. */
  lemma FollowerOk(n: Node, m: Node, roster: seq<NodeId>, g: Ledger)
    requires NodeOk(n, roster, g) && SameCore(n, m) && m.role == Follower
    ensures NodeOk(m, roster, g)
  {
    CoreStays(n, m, roster, g);
    hide CoreOk;
  }

  lemma StartPreVoteOk(e: Effect, draw: nat, roster: seq<NodeId>, g: Ledger) returns (h: Ledger)
    requires Inv(g) && EffectOk(e, roster, g)
    ensures Inv(h) && Moved(g, h, e.node.id)
    ensures EffectOk(StartPreVote(e, draw), roster, h) && StartPreVote(e, draw).node.id == e.node.id
  {
    hide Inv, NodeOk, ActionsOk, OnlyNode, KeepsCovered, AcksNow, GrowsNodes, GrowsVotes, GrowsLogs,
         StartElection, Broadcast;
    var n := Probing(e.node, draw);
    FollowerOk(e.node, n, roster, g);
    if 1 >= Quorum(n) {
      h := StartElectionOk(e.(node := n), false, draw, roster, g);
    } else {
      h := g;
      StillMoved(g, n.id);
      BroadcastOk(e.actions, n.voters, n.id, PreVote(n.term + 1, n.id, n.log.LastIndex(), n.log.LastTerm()), roster, g);
    }
  }

  /** A vote follows the election restriction on the whole logs. */
  lemma VoteOk(n: Node, c: NodeId, lastIndex: Index, lastTerm: Term, roster: seq<NodeId>, g: Ledger)
    returns (h: Ledger)
    requires Inv(g) && NodeOk(n, roster, g)
    requires (c, n.term) in g.cand && |g.cand[(c, n.term)]| == lastIndex && LastTermOf(g.cand[(c, n.term)]) == lastTerm
    requires n.votedFor == None || n.votedFor == Some(c)
    requires CandidateLogUpToDate(n.log, lastTerm, lastIndex)
    ensures Inv(h) && Moved(g, h, n.id)
    ensures NodeOk(PersistHardState(n.(votedFor := Some(c))), roster, h)
    ensures (n.id, n.term) in h.ballots && h.ballots[(n.id, n.term)] == c
  {
    hide Inv, Window, Covered, OnlyNode, KeepsCovered, AcksNow, GrowsNodes, GrowsLogs, IsRoster, RowOk;
    NodeFacts(n, roster, g);
    WindowReads(n.log, g.full[n.id], 0);
    h := g.(ballots := g.ballots[(n.id, n.term) := c]);
    VoteMoves(g, h, n.id, c);
    CoveredStays(g, h, n.term, n.term, g.full[n.id], n.commit);
    CoveredStays(g, h, n.term, n.term, g.full[n.id], n.applied);
    WindowIgnoresHardState(n.log, g.full[n.id], HardState(n.term, Some(c)));
    if n.role == Leader { LeaderStays(n, g, h); }
  }

  lemma HandleRequestVoteOk(e: Effect, rv: Message, draw: nat, roster: seq<NodeId>, g: Ledger) returns (h: Ledger)
    requires Inv(g) && EffectOk(e, roster, g) && rv.RequestVote? && rv.term <= e.node.term
    requires PacketOk(e.node.id, rv, roster, g)
    ensures Inv(h) && Moved(g, h, e.node.id)
    ensures EffectOk(HandleRequestVote(e, rv, draw), roster, h)
    ensures HandleRequestVote(e, rv, draw).node.id == e.node.id
  {
    hide Inv, NodeOk, ActionsOk, OnlyNode, KeepsCovered, AcksNow, GrowsNodes, GrowsVotes, GrowsLogs,
         CandidateLogUpToDate;
    var n := e.node;
    var granted := rv.term >= n.term
                   && (n.votedFor == None || n.votedFor == Some(rv.candidate))
                   && CandidateLogUpToDate(n.log, rv.lastLogTerm, rv.lastLogIndex);
    if granted {
      h := VoteOk(n, rv.candidate, rv.lastLogIndex, rv.lastLogTerm, roster, g);
      ActionsStay(e.actions, roster, g, h);
      var voted := PersistHardState(n.(votedFor := Some(rv.candidate)));
      VolatileStays(voted, ResetElectionTimer(voted, draw), roster, h);
    } else {
      h := g;
      StillMoved(g, n.id);
    }
    ActionsAppend(e.actions, Send(rv.candidate, RequestVoteReply(n.term, granted, n.id)), roster, h);
  }

  lemma VoteCounted(n: Node, from: NodeId, roster: seq<NodeId>, g: Ledger)
    requires NodeOk(n, roster, g) && n.role == Candidate && from !in n.votes
    requires (from, n.term) in g.ballots && g.ballots[(from, n.term)] == n.id
    ensures NodeOk(n.(votes := n.votes + [from]), roster, g)
  {
    CoreStays(n, n.(votes := n.votes + [from]), roster, g);
    hide CoreOk;
  }

  lemma HandleVoteReplyOk(e: Effect, reply: Message, roster: seq<NodeId>, g: Ledger) returns (h: Ledger)
    requires Inv(g) && EffectOk(e, roster, g) && reply.RequestVoteReply?
    requires PacketOk(e.node.id, reply, roster, g)
    ensures Inv(h) && Moved(g, h, e.node.id)
    ensures EffectOk(HandleVoteReply(e, reply), roster, h) && HandleVoteReply(e, reply).node.id == e.node.id
  {
    hide Inv, NodeOk, ActionsOk, OnlyNode, KeepsCovered, AcksNow, GrowsNodes, GrowsVotes, GrowsLogs,
         BecomeLeader;
    var n := e.node;
    h := g;
    StillMoved(g, n.id);
    if n.role == Candidate && reply.term == n.term && reply.voteGranted && reply.from !in n.votes {
      VoteCounted(n, reply.from, roster, g);
      var n1 := n.(votes := n.votes + [reply.from]);
      if |n1.votes| >= Quorum(n1) { h := BecomeLeaderOk(e.(node := n1), roster, g); }
    }
  }

  lemma HandlePreVoteReplyOk(e: Effect, reply: Message, draw: nat, roster: seq<NodeId>, g: Ledger)
    returns (h: Ledger)
    requires Inv(g) && EffectOk(e, roster, g) && reply.PreVoteReply?
    ensures Inv(h) && Moved(g, h, e.node.id)
    ensures EffectOk(HandlePreVoteReply(e, reply, draw), roster, h)
    ensures HandlePreVoteReply(e, reply, draw).node.id == e.node.id
  {
    hide Inv, NodeOk, ActionsOk, OnlyNode, KeepsCovered, AcksNow, GrowsNodes, GrowsVotes, GrowsLogs,
         StartElection;
    var n := e.node;
    h := g;
    StillMoved(g, n.id);
    if n.preVoting {
      if reply.term > n.term {
        h := BecomeFollowerOk(n, reply.term, roster, g);
        ActionsStay(e.actions, roster, g, h);
      } else if reply.voteGranted && reply.from !in n.preVotes {
        var n1 := n.(preVotes := n.preVotes + [reply.from]);
        VolatileStays(n, n1, roster, g);
        if |n1.preVotes| >= Quorum(n1) { h := StartElectionOk(e.(node := n1), false, draw, roster, g); }
      }
    }
  }

  lemma HandleTimeoutNowOk(e: Effect, rpc: Message, draw: nat, roster: seq<NodeId>, g: Ledger) returns (h: Ledger)
    requires Inv(g) && EffectOk(e, roster, g) && rpc.TimeoutNow?
    ensures Inv(h) && Moved(g, h, e.node.id)
    ensures EffectOk(HandleTimeoutNow(e, rpc, draw), roster, h)
    ensures HandleTimeoutNow(e, rpc, draw).node.id == e.node.id
  {
    hide Inv, EffectOk, OnlyNode, KeepsCovered, AcksNow, GrowsNodes, GrowsVotes, GrowsLogs, StartElection;
    h := g;
    StillMoved(g, e.node.id);
    if rpc.term >= e.node.term && IsVoter(e.node) { h := StartElectionOk(e, true, draw, roster, g); }
  }
}
