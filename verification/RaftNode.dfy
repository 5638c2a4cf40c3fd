/**
 `RaftNode` itself (src/node.rs): the fields it keeps and the methods that change them in place.
 Each method is proved to do exactly what the function of the same name in `Protocol` says, to the
 whole state and to the list of actions, so everything proved of those functions holds of it.
 */
module RaftNodes {
  import opened Types
  import opened LogStore
  import P = Protocol
  import opened Protocol

  class RaftNode {
    const id: NodeId
    const params: Params
    const log: MemoryLog
    var voters: seq<NodeId>
    var baseConfig: seq<NodeId>
    var configIndex: Index
    var role: Role
    var term: Term
    var votedFor: Option<NodeId>
    var leaderId: Option<NodeId>
    var commit: Index
    var applied: Index
    var electionElapsed: nat
    var heartbeatElapsed: nat
    var electionTimeout: nat
    var votes: seq<NodeId>
    var preVoting: bool
    var preVotes: seq<NodeId>
    var progress: seq<Progress>
    var hintedAt: Index
    var transferTarget: Option<NodeId>

    /** The node's state as a value. */
    ghost function View(): Node
      reads this, log
    {
      Node(id, voters, baseConfig, configIndex, params, log.View(), role, term, votedFor, leaderId, commit, applied,
           electionElapsed, heartbeatElapsed, electionTimeout, votes, preVoting, preVotes, progress, hintedAt,
           transferTarget)
    }

    constructor WithLog(config: ClusterConfig, log: MemoryLog, draw: nat)
      ensures View() == P.WithLog(config, log.View(), draw) && this.log == log
    {
      var base := log.baseIndex;
      var bootstrap := SortedMembers(config.peers + [config.id]);
      var snapshot := log.View().CurrentSnapshot();
      var start := if snapshot.Some? && snapshot.value.config != [] then snapshot.value.config else bootstrap;
      var found := ScanFrom(log, log.View().LastIndex());
      this.id, this.params, this.log := config.id, config.params, log;
      baseConfig := start;
      voters := if found.Some? then found.value.0 else start;
      configIndex := if found.Some? then found.value.1 else 0;
      role, leaderId, commit, applied := Follower, None, base, base;
      term, votedFor := log.hard.term, log.hard.votedFor;
      electionElapsed, heartbeatElapsed, electionTimeout := 0, 0, draw;
      votes, preVoting, preVotes, progress := [], false, [], [];
      hintedAt, transferTarget := base, None;
    }

    // ---- configuration ---------------------------------------------------

    /** Scans the live log downwards for a configuration entry. */
    static method ScanFrom(log: MemoryLog, from: Index) returns (found: Option<(seq<NodeId>, Index)>)
      ensures found == P.ScanConfig(log.View(), from)
    {
      var i: Index := from;
      while i > log.baseIndex
        invariant P.ScanConfig(log.View(), from) == P.ScanConfig(log.View(), i)
      {
        var e := log.View().Entry(i);
        if e.Some? && e.value.Members().Some? { return Some((e.value.Members().value, i)); }
        i := i - 1;
      }
      return None;
    }

    method SetConfig(members: seq<NodeId>, index: Index, actions: seq<Action>) returns (out: seq<Action>)
      modifies this`voters, this`configIndex, this`progress
      ensures Effect(View(), out) == P.SetConfig(Effect(old(View()), actions), members, index)
    {
      var changed := members != voters;
      voters, configIndex := members, index;
      if role == Leader { RebuildProgress(); }
      out := if changed then actions + [MembershipChanged(voters)] else actions;
    }

    method RefreshConfig(actions: seq<Action>) returns (out: seq<Action>)
      modifies this`voters, this`configIndex, this`progress
      ensures Effect(View(), out) == P.RefreshConfig(Effect(old(View()), actions))
    {
      var found := ScanFrom(log, log.View().LastIndex());
      if found.Some? {
        out := SetConfig(found.value.0, found.value.1, actions);
      } else {
        out := SetConfig(baseConfig, 0, actions);
      }
    }

    method RebuildProgress()
      modifies this`progress
      ensures View() == P.RebuildProgress(old(View()))
    {
      var next := log.View().LastIndex() + 1;
      var known := progress;
      var rows: seq<Progress> := [];
      for i := 0 to |voters|
        invariant rows == P.ProgressFor(voters[..i], id, known, next)
      {
        assert voters[..i + 1][..i] == voters[..i];
        if voters[i] != id { rows := rows + [P.ProgressOf(known, voters[i], next)]; }
      }
      assert voters[..|voters|] == voters;
      progress := rows;
    }

    method ConfigAt(index: Index) returns (members: seq<NodeId>)
      ensures members == P.ConfigAt(View(), index)
    {
      var found := ScanFrom(log, Min(index, log.View().LastIndex()));
      members := if found.Some? then found.value.0 else baseConfig;
    }

    // ---- ticks -----------------------------------------------------------

    method Tick(draw: nat) returns (out: seq<Action>)
      modifies this, log
      ensures Effect(View(), out) == P.HandleTick(old(View()), draw)
    {
      hide P.ReplicateFrom, P.StartPreVote;
      out := [];
      match role
      case Leader =>
        heartbeatElapsed := heartbeatElapsed + 1;
        if heartbeatElapsed >= params.heartbeat {
          heartbeatElapsed := 0;
          out := ReplicateToAll(out);
        }
      case _ =>
        electionElapsed := electionElapsed + 1;
        if electionElapsed >= electionTimeout && id in voters { out := StartPreVote(draw, out); }
    }

    // ---- elections -------------------------------------------------------

    method ResetElectionTimer(draw: nat)
      modifies this`electionElapsed, this`electionTimeout
      ensures View() == P.ResetElectionTimer(old(View()), draw)
    {
      electionElapsed, electionTimeout := 0, draw;
    }

    method PersistHardState()
      modifies log
      ensures View() == P.PersistHardState(old(View()))
    {
      log.SetHardState(HardState(term, votedFor));
    }

    method SendToPeers(message: Message, actions: seq<Action>) returns (out: seq<Action>)
      ensures out == P.Broadcast(actions, voters, id, message)
    {
      out := actions;
      for i := 0 to |voters|
        invariant out == P.Broadcast(actions, voters[..i], id, message)
      {
        assert voters[..i + 1][..i] == voters[..i];
        if voters[i] != id { out := out + [Send(voters[i], message)]; }
      }
      assert voters[..|voters|] == voters;
    }

    method SetRole(newRole: Role, leader: Option<NodeId>)
      modifies this`role, this`leaderId
      ensures View() == old(View()).(role := newRole, leaderId := leader)
    {
      role, leaderId := newRole, leader;
    }

    method SetPreVote(open: bool, granted: seq<NodeId>)
      modifies this`preVoting, this`preVotes
      ensures View() == old(View()).(preVoting := open, preVotes := granted)
    {
      preVoting, preVotes := open, granted;
    }

    method DropTransfer()
      modifies this`transferTarget
      ensures View() == old(View()).(transferTarget := None)
    {
      transferTarget := None;
    }

    /** Forget the followers, and the votes but for those in `granted`. */
    method ResetTallies(granted: seq<NodeId>)
      modifies this`progress, this`votes
      ensures View() == old(View()).(progress := [], votes := granted)
    {
      progress, votes := [], granted;
    }

    method OpenPreVote(draw: nat)
      modifies this
      ensures View() == P.Probing(old(View()), draw)
    {
      SetRole(Follower, None);
      SetPreVote(true, [id]);
      ResetElectionTimer(draw);
    }

    method StartPreVote(draw: nat, actions: seq<Action>) returns (out: seq<Action>)
      modifies this, log
      ensures Effect(View(), out) == P.StartPreVote(Effect(old(View()), actions), draw)
    {
      OpenPreVote(draw);
      if |preVotes| >= |voters| / 2 + 1 {
        out := StartElection(false, draw, actions);
      } else {
        out := SendToPeers(PreVote(term + 1, id, log.View().LastIndex(), log.View().LastTerm()), actions);
      }
    }

    method VoteForSelf()
      modifies this`term, this`votedFor
      ensures View() == old(View()).(term := old(term) + 1, votedFor := Some(id))
    {
      term, votedFor := term + 1, Some(id);
    }

    method Campaign(draw: nat)
      modifies this, log
      ensures View() == P.Campaigned(old(View()), draw)
    {
      VoteForSelf();
      SetRole(Candidate, None);
      DropTransfer();
      SetPreVote(false, []);
      ResetTallies([id]);
      ResetElectionTimer(draw);
      PersistHardState();
    }

    method StartElection(force: bool, draw: nat, actions: seq<Action>) returns (out: seq<Action>)
      modifies this, log
      ensures Effect(View(), out) == P.StartElection(Effect(old(View()), actions), force, draw)
    {
      Campaign(draw);
      if |votes| >= |voters| / 2 + 1 {
        out := BecomeLeader(actions);
      } else {
        out := SendToPeers(RequestVote(term, id, log.View().LastIndex(), log.View().LastTerm(), force), actions);
      }
    }

    method BecomeLeader(actions: seq<Action>) returns (out: seq<Action>)
      modifies this
      ensures Effect(View(), out) == P.BecomeLeader(Effect(old(View()), actions))
    {
      heartbeatElapsed := 0;
      SetRole(Leader, Some(id));
      DropTransfer();
      SetPreVote(false, []);
      RebuildProgress();
      assert View() == P.Elected(old(View()));
      out := ReplicateToAll(actions);
      out := AdvanceCommit(out);
    }

    /** Leave whatever role the node had, in its current term. */
    method Follow(leader: Option<NodeId>)
      modifies this
      ensures View() == P.BecomeFollower(old(View()), old(term), leader)
    {
      SetRole(Follower, leader);
      DropTransfer();
      SetPreVote(false, []);
      ResetTallies([]);
    }

    method BecomeFollower(newTerm: Term, leader: Option<NodeId>)
      modifies this, log
      ensures View() == P.BecomeFollower(old(View()), newTerm, leader)
    {
      var hardStateChanged := newTerm > term;
      if newTerm > term { term, votedFor := newTerm, None; }
      Follow(leader);
      if hardStateChanged { PersistHardState(); }
    }

    method HandleRequestVote(rv: Message, draw: nat, actions: seq<Action>) returns (out: seq<Action>)
      requires rv.RequestVote?
      modifies this, log
      ensures Effect(View(), out) == P.HandleRequestVote(Effect(old(View()), actions), rv, draw)
    {
      var granted := false;
      if rv.term >= term {
        var canVote := votedFor == None || votedFor == Some(rv.candidate);
        if canVote && P.CandidateLogUpToDate(log.View(), rv.lastLogTerm, rv.lastLogIndex) {
          granted := true;
          votedFor := Some(rv.candidate);
          PersistHardState();
          ResetElectionTimer(draw);
        }
      }
      out := actions + [Send(rv.candidate, RequestVoteReply(term, granted, id))];
    }

    method HandleVoteReply(reply: Message, actions: seq<Action>) returns (out: seq<Action>)
      requires reply.RequestVoteReply?
      modifies this
      ensures Effect(View(), out) == P.HandleVoteReply(Effect(old(View()), actions), reply)
    {
      out := actions;
      if role != Candidate || reply.term != term { return; }
      if reply.voteGranted && reply.from !in votes {
        votes := votes + [reply.from];
        if |votes| >= |voters| / 2 + 1 { out := BecomeLeader(out); }
      }
    }

    method HandlePreVote(pv: Message, actions: seq<Action>) returns (out: seq<Action>)
      requires pv.PreVote?
      ensures Effect(View(), out) == P.HandlePreVote(Effect(View(), actions), pv)
    {
      var haveActiveLeader := leaderId.Some? && electionElapsed < params.electionMin;
      var granted := pv.term >= term && !haveActiveLeader
                     && P.CandidateLogUpToDate(log.View(), pv.lastLogTerm, pv.lastLogIndex);
      out := actions + [Send(pv.candidate, PreVoteReply(term, granted, id))];
    }

    method HandlePreVoteReply(reply: Message, draw: nat, actions: seq<Action>) returns (out: seq<Action>)
      requires reply.PreVoteReply?
      modifies this, log
      ensures Effect(View(), out) == P.HandlePreVoteReply(Effect(old(View()), actions), reply, draw)
    {
      out := actions;
      if !preVoting { return; }
      if reply.term > term {
        preVoting, preVotes := false, [];
        BecomeFollower(reply.term, None);
        return;
      }
      if reply.voteGranted && reply.from !in preVotes {
        preVotes := preVotes + [reply.from];
        if |preVotes| >= |voters| / 2 + 1 { out := StartElection(false, draw, out); }
      }
    }

    // ---- replication: the leader's side ----------------------------------

    method ReplicateToAll(actions: seq<Action>) returns (out: seq<Action>)
      modifies this
      ensures Effect(View(), out) == P.ReplicateFrom(Effect(old(View()), actions), 0, true)
    {
      out := actions;
      for i := 0 to |progress|
        invariant |progress| == old(|progress|)
        invariant P.ReplicateFrom(Effect(View(), out), i, true) ==
                  P.ReplicateFrom(Effect(old(View()), actions), 0, true)
      {
        out := SendAppend(i, out);
      }
    }

    method ReplicateToStreaming(actions: seq<Action>) returns (out: seq<Action>)
      modifies this
      ensures Effect(View(), out) == P.ReplicateFrom(Effect(old(View()), actions), 0, false)
    {
      out := actions;
      for i := 0 to |progress|
        invariant |progress| == old(|progress|)
        invariant P.ReplicateFrom(Effect(View(), out), i, false) ==
                  P.ReplicateFrom(Effect(old(View()), actions), 0, false)
      {
        if progress[i].state == Replicate { out := SendAppend(i, out); }
      }
    }

    method SendAppend(i: nat, actions: seq<Action>) returns (out: seq<Action>)
      requires i < |progress|
      modifies this`progress
      ensures Effect(View(), out) == P.SendAppend(Effect(old(View()), actions), i)
      ensures |progress| == old(|progress|)
    {
      var next := progress[i].next;
      if next <= log.baseIndex {
        out := SendSnapshot(i, actions);
        return;
      }
      var prevTerm := match log.View().TermAt(next - 1) case Some(t) => t case None => 0;
      var last := log.View().LastIndex();
      var batch := if last >= next then log.View().Entries(next, Min(last, next + params.maxBatch - 1)) else [];
      out := actions + [Send(progress[i].id, AppendEntries(term, id, next - 1, prevTerm, batch, commit))];
      if |batch| > 0 && progress[i].state == Replicate {
        progress := progress[i := progress[i].(next := next + |batch|)];
      }
    }

    method SendSnapshot(i: nat, actions: seq<Action>) returns (out: seq<Action>)
      requires i < |progress|
      modifies this`progress
      ensures Effect(View(), out) == P.SendSnapshot(Effect(old(View()), actions), i)
      ensures |progress| == old(|progress|)
    {
      out := actions;
      match log.View().CurrentSnapshot()
      case Some(s) =>
        progress := progress[i := progress[i].(state := Probe)];
        out := actions + [Send(progress[i].id, InstallSnapshot(term, id, s))];
      case None =>
    }

    method Propose(command: Bytes) returns (r: Result<seq<Action>, Error>)
      modifies this, log
      ensures Ends(old(View()), r, P.HandlePropose(old(View()), command))
    {
      hide P.AdvanceCommit, P.ReplicateFrom;
      if role != Leader || transferTarget.Some? { return Err(NotLeader(leaderId)); }
      var entry := NormalEntry(term, log.View().LastIndex() + 1, command);
      var appended := log.Append([entry]);
      // An entry at the next index is always contiguous, so the store does not refuse it.
      if appended.Err? { assert false; }
      var out := ReplicateToStreaming([]);
      out := AdvanceCommit(out);
      r := Ok(out);
    }

    /** How a step that began in `before` ended, as `outcome` says it should. */
    ghost predicate Ends(before: Node, r: Result<seq<Action>, Error>, outcome: Outcome)
      reads this, log
    {
      && View() == outcome.Final()
      && (r.Ok? <==> outcome.Done?)
      && (r.Ok? ==> r.value == outcome.effect.actions)
      && (r.Err? ==> r.error == outcome.error)
    }

    /** The commit loop: the scan down from the last index, counting rows for each candidate. */
    method AdvanceCommit(actions: seq<Action>) returns (out: seq<Action>)
      modifies this
      ensures Effect(View(), out) == P.AdvanceCommit(Effect(old(View()), actions))
    {
      out := actions;
      var newCommit := commit;
      var n: Index := log.View().LastIndex();
      ghost var found := P.CommitScan(View(), n);
      while n > commit
        invariant View() == old(View()) && newCommit == commit
        invariant found == P.CommitScan(View(), n)
        decreases n
      {
        var t := log.View().TermAt(n);
        if t == Some(term) {
          var replicas := CountReplicas(n);
          if replicas >= |voters| / 2 + 1 {
            newCommit := n;
            break;
          }
        } else if t.Some? && t.value < term {
          break;
        }
        n := n - 1;
      }
      assert newCommit == found;
      if newCommit > commit {
        commit := newCommit;
        out := DrainApplies(out);
        if role == Leader && id !in voters && configIndex != 0 && commit >= configIndex { Follow(None); }
      }
    }

    method CountReplicas(n: Index) returns (replicas: nat)
      ensures replicas == P.Replicas(View(), n)
    {
      replicas := if id in voters then 1 else 0;
      for i := 0 to |progress|
        invariant replicas == (if id in voters then 1 else 0) + P.CountAcked(progress[..i], n)
      {
        assert progress[..i + 1][..i] == progress[..i];
        if progress[i].matched >= n { replicas := replicas + 1; }
      }
      assert progress[..|progress|] == progress;
    }

    method DrainApplies(actions: seq<Action>) returns (out: seq<Action>)
      modifies this`applied, this`hintedAt
      ensures Effect(View(), out) == P.DrainApplies(Effect(old(View()), actions))
    {
      out := actions;
      while applied < commit
        invariant P.DrainApplies(Effect(View(), out)) == P.DrainApplies(Effect(old(View()), actions))
        decreases commit - applied
      {
        applied := applied + 1;
        ghost var before := out;
        match log.View().Entry(applied) {
          case Some(entry) =>
            if entry.Members().None? { out := out + [Apply(entry.index, entry.term, entry.command)]; }
          case None =>
        }
        assert out == before + P.ApplyActions(log.View(), applied);
      }
      out := MaybeHintSnapshot(out);
    }

    method MaybeHintSnapshot(actions: seq<Action>) returns (out: seq<Action>)
      modifies this`hintedAt
      ensures Effect(View(), out) == P.MaybeHintSnapshot(Effect(old(View()), actions))
    {
      out := actions;
      if params.snapshotThreshold == 0 { return; }
      var base := log.baseIndex;
      var grown := if applied > base then applied - base else 0;
      if grown >= params.snapshotThreshold && applied > hintedAt {
        match log.View().TermAt(applied) {
          case Some(t) =>
            hintedAt := applied;
            out := out + [SnapshotHint(applied, t)];
          case None =>
        }
      }
    }

    method HandleAppendReply(reply: Message, actions: seq<Action>) returns (out: seq<Action>)
      requires reply.AppendEntriesReply?
      modifies this
      ensures Effect(View(), out) == P.HandleAppendReply(Effect(old(View()), actions), reply)
    {
      hide P.CountAck, P.FindProgress, P.RejectedNext, P.SendAppend;
      out := actions;
      if role != Leader || reply.term != term { return; }
      var row := P.FindProgress(progress, reply.from);
      if row.None? { return; }
      var i := row.value;
      var p := progress[i];
      if reply.success {
        var matched := if reply.matchIndex > p.matched then reply.matchIndex else p.matched;
        var next := if matched + 1 > p.next then matched + 1 else p.next;
        out := CountAck(i, matched, next, out);
      } else {
        var next := RejectedNext(p.next, p.matched, reply.conflictIndex, reply.conflictTerm);
        progress := progress[i := p.(next := next, state := Probe)];
        out := SendAppend(i, out);
      }
    }

    method CountAck(i: nat, matched: Index, next: Index, actions: seq<Action>) returns (out: seq<Action>)
      requires i < |progress|
      modifies this
      ensures Effect(View(), out) == P.CountAck(Effect(old(View()), actions), i, matched, next)
    {
      var p := progress[i].(matched := matched, next := next, state := Replicate);
      progress := progress[i := p];
      out := AdvanceCommit(actions);
      out := Resume(p.id, i, out);
    }

    method Resume(from: NodeId, i: nat, actions: seq<Action>) returns (out: seq<Action>)
      modifies this
      ensures Effect(View(), out) == P.Resume(Effect(old(View()), actions), from, i)
    {
      out := MaybeSendTimeoutNow(from, actions);
      if role == Leader && i < |progress| && progress[i].next <= log.View().LastIndex() { out := SendAppend(i, out); }
    }

    method HandleInstallSnapshotReply(reply: Message, actions: seq<Action>) returns (out: seq<Action>)
      requires reply.InstallSnapshotReply?
      modifies this
      ensures Effect(View(), out) == P.HandleInstallSnapshotReply(Effect(old(View()), actions), reply)
    {
      hide P.CountAck, P.FindProgress;
      out := actions;
      if role != Leader || reply.term != term { return; }
      var row := P.FindProgress(progress, reply.from);
      if row.None? { return; }
      var i := row.value;
      var p := progress[i];
      var matched := if reply.lastIndex > p.matched then reply.lastIndex else p.matched;
      out := CountAck(i, matched, matched + 1, out);
    }

    method RejectedNext(next: Index, matched: Index, conflictIndex: Index, conflictTerm: Term) returns (r: Index)
      ensures r == P.RejectedNext(log.View(), next, matched, conflictIndex, conflictTerm)
    {
      var floor := matched + 1;
      var target := Max(conflictIndex, 1);
      if conflictTerm > 0 {
        var last := LastIndexOfTerm(conflictTerm);
        if last.Some? { target := last.value + 1; }
      }
      var ceil := Max(if next > 0 then next - 1 else 0, floor);
      r := if target < floor then floor else if target > ceil then ceil else target;
    }

    method FirstIndexOfTerm(t: Term, upto: Index) returns (i: Index)
      ensures i == P.FirstIndexOfTerm(log.View(), t, upto)
    {
      i := upto;
      while i > 1 && log.View().TermAt(i - 1) == Some(t)
        invariant P.FirstIndexOfTerm(log.View(), t, i) == P.FirstIndexOfTerm(log.View(), t, upto)
      {
        i := i - 1;
      }
    }

    method LastIndexOfTerm(t: Term) returns (found: Option<Index>)
      ensures found == P.LastIndexOfTerm(log.View(), t, log.View().LastIndex())
    {
      var i := log.View().LastIndex();
      while i >= 1
        invariant P.LastIndexOfTerm(log.View(), t, i) == P.LastIndexOfTerm(log.View(), t, log.View().LastIndex())
      {
        match log.View().TermAt(i) {
          case Some(u) => if u == t { return Some(i); } else if u < t { return None; }
          case None =>
        }
        i := i - 1;
      }
      return None;
    }

    // ---- replication: the follower's side --------------------------------

    method Recognise(leader: NodeId, draw: nat)
      modifies this
      ensures View() == P.Recognise(old(View()), leader, draw)
    {
      SetRole(Follower, Some(leader));
      preVoting := false;
      ResetElectionTimer(draw);
    }

    method FollowCommit(leaderCommit: Index, covered: Index, actions: seq<Action>) returns (out: seq<Action>)
      modifies this`commit, this`applied, this`hintedAt
      ensures Effect(View(), out) == P.FollowCommit(Effect(old(View()), actions), leaderCommit, covered)
    {
      out := actions;
      if leaderCommit > commit {
        commit := Min(leaderCommit, covered);
        out := DrainApplies(out);
      }
    }

    method HandleAppendEntries(ae: Message, draw: nat, actions: seq<Action>) returns (r: Result<seq<Action>, Error>)
      requires ae.AppendEntries?
      modifies this, log
      ensures Ends(old(View()), r, P.HandleAppendEntries(Effect(old(View()), actions), ae, draw))
    {
      if ae.term < term {
        return Ok(actions + [Send(ae.leader, AppendEntriesReply(term, false, id, 0, 0, 0))]);
      }
      Recognise(ae.leader, draw);
      var base := log.baseIndex;
      if ae.prevLogIndex < base {
        var out := FollowCommit(ae.leaderCommit, base, actions);
        return Ok(out + [Send(ae.leader, AppendEntriesReply(term, true, id, base, 0, 0))]);
      }
      if log.View().TermAt(ae.prevLogIndex) != Some(ae.prevLogTerm) {
        var hint := Rejection(ae.prevLogIndex);
        return Ok(actions + [Send(ae.leader, hint)]);
      }
      r := MergeBatch(ae, actions);
    }

    method Rejection(prev: Index) returns (m: Message)
      ensures m == P.Rejection(View(), prev)
    {
      var last := log.View().LastIndex();
      if prev > last { return AppendEntriesReply(term, false, id, 0, last + 1, 0); }
      var conflictTerm := match log.View().TermAt(prev) case Some(t) => t case None => 0;
      var first := FirstIndexOfTerm(conflictTerm, prev);
      m := AppendEntriesReply(term, false, id, 0, first, conflictTerm);
    }

    method MergeBatch(ae: Message, actions: seq<Action>) returns (r: Result<seq<Action>, Error>)
      requires ae.AppendEntries?
      modifies this, log
      ensures Ends(old(View()), r, P.MergeBatch(Effect(old(View()), actions), ae))
    {
      var matchIndex, truncated := ae.prevLogIndex, false;
      if ae.entries != [] {
        var merged := AppendFromLeader(ae.entries);
        if merged.Err? { return Err(merged.error); }
        matchIndex, truncated := merged.value.0, merged.value.1;
      }
      var out := actions;
      if truncated || P.HasConfigEntry(ae.entries) { out := RefreshConfig(out); }
      out := FollowCommit(ae.leaderCommit, matchIndex, out);
      r := Ok(out + [Send(ae.leader, AppendEntriesReply(term, true, id, matchIndex, 0, 0))]);
    }

    /** Skip what the log already holds, truncate at the first divergence, append the rest. */
    method AppendFromLeader(batch: seq<LogEntry>) returns (r: Result<(Index, bool), Error>)
      requires batch != []
      modifies log
      ensures View() == old(View()).(log := P.AppendFromLeader(old(log.View()), batch).log)
      ensures r == P.AppendFromLeader(old(log.View()), batch).result
    {
      var i := 0;
      while i < |batch| && log.View().TermAt(batch[i].index) == Some(batch[i].term)
        invariant i <= |batch|
        invariant P.FirstUnmatched(log.View(), batch, i) == P.FirstUnmatched(log.View(), batch, 0)
      {
        i := i + 1;
      }
      var truncated := false;
      if i < |batch| {
        if log.View().TermAt(batch[i].index).Some? {
          var cut := log.Truncate(batch[i].index);
          if cut.Err? { return Err(cut.error); }
          truncated := true;
        }
        var added := log.Append(batch[i..]);
        if added.Err? { return Err(added.error); }
      }
      return Ok((batch[|batch| - 1].index, truncated));
    }

    method ResumeFrom(index: Index)
      modifies this`commit, this`applied, this`hintedAt
      ensures View() == old(View()).(commit := index, applied := index, hintedAt := Max(old(hintedAt), index))
    {
      commit, applied := index, index;
      if index > hintedAt { hintedAt := index; }
    }

    method Install(s: Snapshot, actions: seq<Action>) returns (out: seq<Action>)
      modifies this, log
      ensures Effect(View(), out) == P.Install(Effect(old(View()), actions), s)
    {
      if s.config != [] { baseConfig := s.config; }
      log.ApplySnapshot(s);
      ResumeFrom(s.index);
      out := RefreshConfig(actions);
      out := out + [RestoreSnapshot(s.index, s.term, s.data)];
    }

    method HandleInstallSnapshot(rpc: Message, draw: nat, actions: seq<Action>) returns (out: seq<Action>)
      requires rpc.InstallSnapshot?
      modifies this, log
      ensures Effect(View(), out) == P.HandleInstallSnapshot(Effect(old(View()), actions), rpc, draw)
    {
      if rpc.term < term { return actions + [Send(rpc.leader, InstallSnapshotReply(term, id, 0))]; }
      Recognise(rpc.leader, draw);
      var s := rpc.snapshot;
      out := actions;
      if s.index > log.baseIndex && s.index > commit { out := Install(s, out); }
      var lastIndex := Max(log.baseIndex, Min(s.index, commit));
      out := out + [Send(rpc.leader, InstallSnapshotReply(term, id, lastIndex))];
    }

    // ---- snapshots taken locally -----------------------------------------

    method CompactTo(s: Snapshot)
      modifies this`baseConfig, this`hintedAt, log
      ensures View() == old(View()).(baseConfig := s.config, log := old(log.View()).ApplySnapshot(s),
                                     hintedAt := Max(old(hintedAt), s.index))
    {
      baseConfig := s.config;
      log.ApplySnapshot(s);
      if hintedAt < s.index { hintedAt := s.index; }
    }

    method HandleSnapshotEvent(index: Index, data: Bytes) returns (out: seq<Action>)
      modifies this, log
      ensures Effect(View(), out) == P.HandleSnapshotEvent(old(View()), index, data)
    {
      out := [];
      if index > commit || index > applied || index <= log.baseIndex { return; }
      match log.View().TermAt(index) {
        case None =>
        case Some(t) =>
          var config := ConfigAt(index);
          CompactTo(Snapshot(index, t, config, data));
          out := RefreshConfig(out);
      }
    }

    // ---- membership and leadership transfer ------------------------------

    method ChangeMembership(add: Option<NodeId>, remove: Option<NodeId>) returns (r: Result<seq<Action>, Error>)
      modifies this, log
      ensures Ends(old(View()), r, P.ChangeMembership(old(View()), add, remove))
    {
      if role != Leader || transferTarget.Some? { return Err(NotLeader(leaderId)); }
      if configIndex > commit { return Err(ConfigInProgress); }
      var members := voters;
      if add.Some? && add.value !in members { members := members + [add.value]; }
      if remove.Some? { members := P.Without(members, remove.value); }
      members := SortedMembers(members);
      if members == voters { return Ok([]); }
      r := AdoptMembers(members);
    }

    method AdoptMembers(members: seq<NodeId>) returns (r: Result<seq<Action>, Error>)
      modifies this, log
      ensures Ends(old(View()), r, P.AdoptMembers(old(View()), members))
    {
      hide P.AdvanceCommit, P.ReplicateFrom, P.SetConfig;
      var index := log.View().LastIndex() + 1;
      var appended := log.Append([ConfigEntry(term, index, members)]);
      if appended.Err? { assert false; }
      var out := SetConfig(members, index, []);
      out := ReplicateToAll(out);
      out := AdvanceCommit(out);
      r := Ok(out);
    }

    method TransferTo(target: NodeId) returns (out: seq<Action>)
      modifies this
      ensures Effect(View(), out) == P.TransferTo(old(View()), target)
    {
      out := [];
      if role != Leader || target == id || target !in voters { return; }
      transferTarget := Some(target);
      out := MaybeSendTimeoutNow(target, out);
      if transferTarget.Some? {
        var row := P.FindProgress(progress, target);
        if row.Some? { out := SendAppend(row.value, out); }
      }
    }

    method MaybeSendTimeoutNow(target: NodeId, actions: seq<Action>) returns (out: seq<Action>)
      modifies this`transferTarget
      ensures Effect(View(), out) == P.MaybeSendTimeoutNow(Effect(old(View()), actions), target)
    {
      out := actions;
      if transferTarget != Some(target) { return; }
      var row := P.FindProgress(progress, target);
      if row.Some? && progress[row.value].matched >= log.View().LastIndex() {
        transferTarget := None;
        out := out + [Send(target, TimeoutNow(term, id))];
      }
    }

    method HandleTimeoutNow(rpc: Message, draw: nat, actions: seq<Action>) returns (out: seq<Action>)
      requires rpc.TimeoutNow?
      modifies this, log
      ensures Effect(View(), out) == P.HandleTimeoutNow(Effect(old(View()), actions), rpc, draw)
    {
      if rpc.term < term || id !in voters { return actions; }
      out := StartElection(true, draw, actions);
    }

    // ---- the step function -----------------------------------------------

    method HandleMessage(m: Message, draw: nat) returns (r: Result<seq<Action>, Error>)
      modifies this, log
      ensures Ends(old(View()), r, P.HandleMessage(old(View()), m, draw))
    {
      hide P.Dispatch, P.HandlePreVote, P.HandlePreVoteReply, P.BecomeFollower;
      if m.RequestVote? && !m.force && leaderId.Some? && electionElapsed < params.electionMin { return Ok([]); }
      var out: seq<Action> := [];
      if m.PreVote? {
        out := HandlePreVote(m, out);
        return Ok(out);
      }
      if m.PreVoteReply? {
        out := HandlePreVoteReply(m, draw, out);
        return Ok(out);
      }
      if m.term > term { BecomeFollower(m.term, None); }
      r := Dispatch(m, draw);
    }

    method Dispatch(m: Message, draw: nat) returns (r: Result<seq<Action>, Error>)
      requires !m.PreVote? && !m.PreVoteReply?
      modifies this, log
      ensures Ends(old(View()), r, P.Dispatch(Effect(old(View()), []), m, draw))
    {
      var out: seq<Action> := [];
      match m {
        case RequestVote(_, _, _, _, _) => out := HandleRequestVote(m, draw, out);
        case RequestVoteReply(_, _, _) => out := HandleVoteReply(m, out);
        case AppendEntries(_, _, _, _, _, _) =>
          r := HandleAppendEntries(m, draw, out);
          return;
        case AppendEntriesReply(_, _, _, _, _, _) => out := HandleAppendReply(m, out);
        case InstallSnapshot(_, _, _) => out := HandleInstallSnapshot(m, draw, out);
        case InstallSnapshotReply(_, _, _) => out := HandleInstallSnapshotReply(m, out);
        case TimeoutNow(_, _) => out := HandleTimeoutNow(m, draw, out);
      }
      r := Ok(out);
    }

    method Step(event: Event, draw: nat) returns (r: Result<seq<Action>, Error>)
      modifies this, log
      ensures Ends(old(View()), r, P.Step(old(View()), event, draw))
    {
      hide P.HandleTick, P.HandleMessage, P.HandlePropose, P.HandleSnapshotEvent, P.ChangeMembership,
           P.TransferTo;
      var out: seq<Action> := [];
      match event {
        case Tick => out := this.Tick(draw);
        case Receive(m) => r := HandleMessage(m, draw); return;
        case Propose(command) => r := this.Propose(command); return;
        case TakeSnapshot(index, data) => out := HandleSnapshotEvent(index, data);
        case AddServer(server) => r := ChangeMembership(Some(server), None); return;
        case RemoveServer(server) => r := ChangeMembership(None, Some(server)); return;
        case TransferLeadership(target) => out := TransferTo(target);
      }
      r := Ok(out);
    }
  }
}
