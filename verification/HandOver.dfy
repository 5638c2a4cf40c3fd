/**
 A leader's rows as followers acknowledge, and handing leadership over: the signal goes only to a server
 that holds the leader's whole log.
 */
module HandOver {
  import opened Types
  import opened LogStore
  import opened Protocol
  import opened NodeInvariant
  import opened Bookkeeping
  import opened NodeSteps
  import opened MembershipRuns
  import opened Elections
  import opened Replication
  import opened Backtracking
  import opened Cluster
  import opened Safety

  // ---- acknowledgements --------------------------------------------------

  /** The match point a reply acknowledges. */
  function Acknowledged(reply: Message): Index
    requires reply.AppendEntriesReply? || reply.InstallSnapshotReply?
  {
    if reply.AppendEntriesReply? then reply.matchIndex else reply.lastIndex
  }

  /** Where the row sends from next: a snapshot's reply starts over from the match point. */
  function NextAfter(p: Progress, reply: Message): Index
    requires reply.AppendEntriesReply? || reply.InstallSnapshotReply?
  {
    var matched := Max(p.matched, Acknowledged(reply));
    if reply.AppendEntriesReply? then Max(p.next, matched + 1) else matched + 1
  }

  /** The row has taken the acknowledgement and streams from there, the others are as they were, the
      follower was sent the packet for the next index if there is more of the log, and the signal if it is
      the one a hand-over waits for and there is no more. */
  ghost predicate RowTakes(n: Node, row: nat, reply: Message, m: Node, actions: seq<Action>)
    requires row < |n.progress| && (reply.AppendEntriesReply? || reply.InstallSnapshotReply?)
  {
    var p := n.progress[row];
    && |m.progress| == |n.progress|
    && (forall k :: 0 <= k < |n.progress| && k != row ==> m.progress[k] == n.progress[k])
    && m.progress[row].id == p.id && m.progress[row].matched == Max(p.matched, Acknowledged(reply))
    && (if NextAfter(p, reply) > m.log.base
        then m.progress[row].state == Replicate
             && m.progress[row].next == NextAfter(p, reply) + |Batch(m, NextAfter(p, reply))|
        else m.progress[row].state == Probe && m.progress[row].next == NextAfter(p, reply))
    && (n.transferTarget == Some(p.id) && m.progress[row].matched >= m.log.LastIndex() ==>
          m.transferTarget == None && Send(p.id, TimeoutNow(m.term, m.id)) in actions)
    && (NextAfter(p, reply) <= m.log.LastIndex() ==>
          exists packet :: Send(p.id, packet) in actions && SentFor(m, NextAfter(p, reply), packet))
  }

  lemma AdvanceKeepsRows(e: Effect)
    ensures var m := AdvanceCommit(e).node;
            && m.log == e.node.log && m.id == e.node.id && m.params == e.node.params && m.term == e.node.term
            && (m.role == Leader ==> m.progress == e.node.progress && m.transferTarget == e.node.transferTarget)
            && (m.role != Leader && e.node.role == Leader ==> m.progress == [] && m.transferTarget == None)
  {
    hide Deliveries, Delivered, CommitScan, AdvanceCommit;
    AdvanceShape(e);
  }

  lemma SignalNow(n: Node, e: Effect, row: nat)
    requires row < |n.progress| && RowsApart(n.progress) && e.node.progress == n.progress
    ensures var p, r := n.progress[row], MaybeSendTimeoutNow(e, n.progress[row].id);
            e.node.transferTarget == Some(p.id) && p.matched >= e.node.log.LastIndex() ==>
              r.node.transferTarget == None && Send(p.id, TimeoutNow(e.node.term, e.node.id)) in r.actions
  {
    RowFound(n.progress, row);
  }

  /** What the leader's own packet takes from the log. */
  lemma SameBatch(n: Node, m: Node, next: Index)
    requires next >= 1 && m.log == n.log && m.params == n.params
    ensures Batch(m, next) == Batch(n, next)
    ensures next > n.log.LastIndex() ==> Batch(n, next) == []
  {
  }

  lemma AckCounted(n: Node, row: nat, reply: Message)
    requires n.role == Leader && CanSend(n) && RowsApart(n.progress) && row < |n.progress|
    requires reply.AppendEntriesReply? || reply.InstallSnapshotReply?
    ensures var matched := Max(n.progress[row].matched, Acknowledged(reply));
            var r := CountAck(Effect(n, []), row, matched, NextAfter(n.progress[row], reply));
            r.node.role == Leader ==> RowTakes(n, row, reply, r.node, r.actions)
  {
    hide AdvanceCommit, SendAppend, FindProgress, SentFor, Log.Indexed, Log.CurrentSnapshot, Batch;
    var p := n.progress[row];
    var matched, next := Max(p.matched, Acknowledged(reply)), NextAfter(p, reply);
    var n1 := n.(progress := n.progress[row := p.(matched := matched, next := next, state := Replicate)]);
    var e1 := AdvanceCommit(Effect(n1, []));
    AdvanceKeepsRows(Effect(n1, []));
    if e1.node.role == Leader {
      var e2 := MaybeSendTimeoutNow(e1, p.id);
      SignalNow(n1, e1, row);
      assert e2.node == e1.node.(transferTarget := e2.node.transferTarget);
      if next <= e2.node.log.LastIndex() {
        var packet, q := PacketSent(e2.node, row);
        SendAppendAppends(e2, row);
        SendMovesRow(e2, row);
        SentForStill(e2.node, SendAppend(e2, row).node, next, packet);
        SameBatch(e2.node, SendAppend(e2, row).node, next);
      } else {
        SameBatch(e2.node, e2.node, next);
      }
    }
  }

  /** A leader that takes an acknowledgement of its own term and goes on leading moves the follower's row,
      and only it, and goes on sending. */
  lemma AcknowledgementTaken(n: Node, row: nat, reply: Message, draw: nat)
    requires n.role == Leader && CanSend(n) && RowsApart(n.progress) && row < |n.progress|
    requires (reply.AppendEntriesReply? && reply.success) || reply.InstallSnapshotReply?
    requires reply.term == n.term && reply.from == n.progress[row].id
    ensures var o := Step(n, Receive(reply), draw);
            o.Done? && (o.effect.node.role == Leader ==> RowTakes(n, row, reply, o.effect.node, o.effect.actions))
  {
    hide CountAck, RowTakes, FindProgress, CanSend, RowsApart;
    RowFound(n.progress, row);
    AckCounted(n, row, reply);
  }

  /** Replies of an earlier term, from a server without a row, or to a node that does not lead, change
      nothing. */
  lemma AcknowledgementIgnored(n: Node, reply: Message, draw: nat)
    requires (reply.AppendEntriesReply? || reply.InstallSnapshotReply?) && reply.term <= n.term
    requires n.role != Leader || reply.term < n.term
             || forall k :: 0 <= k < |n.progress| ==> n.progress[k].id != reply.from
    ensures Step(n, Receive(reply), draw) == Done(Effect(n, []))
  {
  }

  /** A snapshot that a follower has handled moves the leader's row to its index or beyond. */
  lemma SnapshotMovesRow(n: Node, row: nat, f: Node, draw: nat, draw': nat) returns (reply: Message)
    requires n.role == Leader && CanSend(n) && RowsApart(n.progress) && row < |n.progress| && n.log.base > 0
    requires n.progress[row].id == f.id && f.term <= n.term
    ensures var packet := InstallSnapshot(n.term, n.id, n.log.CurrentSnapshot().value);
            var o := Step(f, Receive(packet), draw);
            o.Done? && Send(n.id, reply) in o.effect.actions
    ensures reply.InstallSnapshotReply?
    ensures var o := Step(n, Receive(reply), draw');
            && o.Done?
            && (o.effect.node.role == Leader ==>
                  row < |o.effect.node.progress| && o.effect.node.progress[row].matched >= n.log.base)
  {
    hide Step, RowsApart, Log.Indexed, SentFor;
    var packet := InstallSnapshot(n.term, n.id, n.log.CurrentSnapshot().value);
    var covered := SnapshotAnswered(f, packet, draw);
    reply := InstallSnapshotReply(n.term, f.id, covered);
    AcknowledgementTaken(n, row, reply, draw');
  }

  // ---- no other signal ---------------------------------------------------

  /** Nothing here hands leadership over. */
  ghost predicate NoSignal(actions: seq<Action>) {
    forall a :: a in actions ==> !(a.Send? && a.message.TimeoutNow?)
  }

  lemma {:induction false} BroadcastSilent(actions: seq<Action>, peers: seq<NodeId>, self: NodeId, m: Message)
    requires NoSignal(actions) && !m.TimeoutNow?
    ensures NoSignal(Broadcast(actions, peers, self, m))
  {
    if peers != [] { BroadcastSilent(actions, peers[..|peers| - 1], self, m); }
  }

  lemma SendSilent(e: Effect, i: nat)
    requires NoSignal(e.actions) && i < |e.node.progress|
    ensures NoSignal(SendAppend(e, i).actions)
  {
    hide Batch, Log.TermAt, Log.CurrentSnapshot;
  }

  lemma {:induction false} ReplicateSilent(e: Effect, i: nat, all: bool)
    requires NoSignal(e.actions)
    ensures NoSignal(ReplicateFrom(e, i, all).actions)
    decreases |e.node.progress| - i
  {
    hide SendAppend, NoSignal, SameMatches, Deliveries;
    if i < |e.node.progress| {
      if all || e.node.progress[i].state == Replicate {
        SendSilent(e, i);
        SendAppendSends(e, i);
        assert |SendAppend(e, i).node.progress| == |e.node.progress| by { SameLength(e, SendAppend(e, i)); }
        ReplicateSilent(SendAppend(e, i), i + 1, all);
      } else {
        ReplicateSilent(e, i + 1, all);
      }
    }
  }

  lemma SameLength(e: Effect, r: Effect)
    requires Sends(e, r)
    ensures |r.node.progress| == |e.node.progress|
  {
    hide Deliveries;
  }

  lemma {:induction false} DrainSilent(e: Effect)
    requires NoSignal(e.actions)
    ensures NoSignal(DrainApplies(e).actions)
    decreases e.node.commit - e.node.applied
  {
    hide Log.Entry, Log.TermAt;
    if e.node.applied < e.node.commit {
      var i := e.node.applied + 1;
      DrainSilent(Effect(e.node.(applied := i), e.actions + ApplyActions(e.node.log, i)));
    }
  }

  lemma AdvanceSilent(e: Effect)
    requires NoSignal(e.actions)
    ensures NoSignal(AdvanceCommit(e).actions)
  {
    hide DrainApplies, CommitScan, NoSignal;
    DrainSilent(e.(node := e.node.(commit := CommitScan(e.node, e.node.log.LastIndex()))));
  }

  lemma FollowSilent(e: Effect, leaderCommit: Index, covered: Index)
    requires NoSignal(e.actions)
    ensures NoSignal(FollowCommit(e, leaderCommit, covered).actions)
  {
    hide DrainApplies, NoSignal;
    DrainSilent(e.(node := e.node.(commit := Min(leaderCommit, covered))));
  }

  lemma ConfigSilent(e: Effect, voters: seq<NodeId>, index: Index)
    requires NoSignal(e.actions)
    ensures NoSignal(SetConfig(e, voters, index).actions) && NoSignal(RefreshConfig(e).actions)
  {
    hide ProgressFor, ScanConfig;
  }

  lemma ElectionSilent(e: Effect, force: bool, draw: nat)
    requires NoSignal(e.actions)
    ensures NoSignal(StartElection(e, force, draw).actions)
  {
    hide BecomeLeader, Broadcast, NoSignal, Log.LastTerm;
    var n := Campaigned(e.node, draw);
    LeadSilent(e.(node := n));
    BroadcastSilent(e.actions, n.voters, n.id, RequestVote(n.term, n.id, n.log.LastIndex(), n.log.LastTerm(), force));
  }

  lemma LeadSilent(e: Effect)
    requires NoSignal(e.actions)
    ensures NoSignal(BecomeLeader(e).actions)
  {
    hide ReplicateFrom, AdvanceCommit, NoSignal;
    ReplicateSilent(e.(node := Elected(e.node)), 0, true);
    AdvanceSilent(ReplicateFrom(e.(node := Elected(e.node)), 0, true));
  }

  lemma TickSilent(n: Node, draw: nat)
    ensures NoSignal(HandleTick(n, draw).actions)
  {
    hide ReplicateFrom, StartElection, Broadcast, Log.LastTerm;
    ReplicateSilent(Effect(n.(heartbeatElapsed := 0), []), 0, true);
    var n1 := Probing(n.(electionElapsed := n.electionElapsed + 1), draw);
    ElectionSilent(Effect(n1, []), false, draw);
    BroadcastSilent([], n1.voters, n1.id, PreVote(n1.term + 1, n1.id, n1.log.LastIndex(), n1.log.LastTerm()));
  }

  lemma MembershipSilent(n: Node, add: Option<NodeId>, remove: Option<NodeId>)
    ensures NoSignal(ChangeMembership(n, add, remove).Emitted())
  {
    hide ChangedMembers, AdvanceCommit, ReplicateFrom, SetConfig, Log.Append;
    var members, index := ChangedMembers(n.voters, add, remove), n.log.LastIndex() + 1;
    var appended := n.log.Append([ConfigEntry(n.term, index, members)]);
    if appended.Ok? {
      var e := Effect(n.(log := appended.value), []);
      ConfigSilent(e, members, index);
      ReplicateSilent(SetConfig(e, members, index), 0, true);
      AdvanceSilent(ReplicateFrom(SetConfig(e, members, index), 0, true));
    }
  }

  lemma ProposeSilent(n: Node, command: Bytes)
    ensures NoSignal(HandlePropose(n, command).Emitted())
  {
    hide AdvanceCommit, ReplicateFrom, Log.Append;
    var appended := n.log.Append([NormalEntry(n.term, n.log.LastIndex() + 1, command)]);
    if appended.Ok? {
      ReplicateSilent(Effect(n.(log := appended.value), []), 0, false);
      AdvanceSilent(ReplicateFrom(Effect(n.(log := appended.value), []), 0, false));
    }
  }

  lemma AppendSilent(e: Effect, ae: Message, draw: nat)
    requires ae.AppendEntries? && NoSignal(e.actions)
    ensures NoSignal(HandleAppendEntries(e, ae, draw).Emitted())
  {
    hide FollowCommit, MergeBatch, Log.TermAt;
    var e1 := e.(node := Recognise(e.node, ae.leader, draw));
    FollowSilent(e1, ae.leaderCommit, e1.node.log.base);
    MergeSilent(e1, ae);
  }

  lemma MergeSilent(e: Effect, ae: Message)
    requires ae.AppendEntries? && NoSignal(e.actions)
    ensures NoSignal(MergeBatch(e, ae).Emitted())
  {
    hide FollowCommit, RefreshConfig, AppendFromLeader, HasConfigEntry;
    if MergeBatch(e, ae).Done? {
      var m := if ae.entries == [] then Merge(e.node.log, Ok((ae.prevLogIndex, false)))
               else AppendFromLeader(e.node.log, ae.entries);
      var e1 := e.(node := e.node.(log := m.log));
      ConfigSilent(e1, [], 0);
      FollowSilent(RefreshConfig(e1), ae.leaderCommit, m.result.value.0);
      FollowSilent(e1, ae.leaderCommit, m.result.value.0);
    }
  }

  lemma SnapshotSilent(e: Effect, rpc: Message, draw: nat)
    requires rpc.InstallSnapshot? && NoSignal(e.actions)
    ensures NoSignal(HandleInstallSnapshot(e, rpc, draw).actions)
  {
    hide RefreshConfig;
    var e1 := e.(node := Recognise(e.node, rpc.leader, draw));
    ConfigSilent(e1.(node := Installed(e1.node, rpc.snapshot)), [], 0);
  }

  lemma VotesSilent(e: Effect, m: Message, draw: nat)
    requires NoSignal(e.actions)
    ensures m.RequestVote? ==> NoSignal(HandleRequestVote(e, m, draw).actions)
    ensures m.RequestVoteReply? ==> NoSignal(HandleVoteReply(e, m).actions)
    ensures m.PreVote? ==> NoSignal(HandlePreVote(e, m).actions)
    ensures m.PreVoteReply? ==> NoSignal(HandlePreVoteReply(e, m, draw).actions)
    ensures m.TimeoutNow? ==> NoSignal(HandleTimeoutNow(e, m, draw).actions)
  {
    hide BecomeLeader, StartElection, CandidateLogUpToDate, BecomeFollower;
    if m.RequestVoteReply? { LeadSilent(e.(node := e.node.(votes := e.node.votes + [m.from]))); }
    if m.PreVoteReply? { ElectionSilent(e.(node := e.node.(preVotes := e.node.preVotes + [m.from])), false, draw); }
    ElectionSilent(e, true, draw);
  }

  lemma TakenSilent(n: Node, index: Index, data: Bytes)
    ensures NoSignal(HandleSnapshotEvent(n, index, data).actions)
  {
    forall a | a in HandleSnapshotEvent(n, index, data).actions ensures !(a.Send? && a.message.TimeoutNow?) {
      TakingRestoresNothing(n, index, data, a);
    }
  }

  // ---- the signal --------------------------------------------------------

  /** A leader whose row for `to` has reached its last index. */
  ghost predicate CaughtUp(m: Node, to: NodeId) {
    && m.role == Leader && m.transferTarget == None
    && exists k :: 0 <= k < |m.progress| && m.progress[k].id == to && m.progress[k].matched >= m.log.LastIndex()
  }

  ghost predicate IsSignal(a: Action, n: Node) {
    a.Send? && a.message == TimeoutNow(n.term, n.id)
  }

  /** Every signal among the actions went to a server that has caught up. */
  ghost predicate SignalsCaughtUp(e: Effect) {
    forall a :: a in e.actions && a.Send? && a.message.TimeoutNow? ==> IsSignal(a, e.node) && CaughtUp(e.node, a.to)
  }

  lemma SilentCaughtUp(e: Effect)
    requires NoSignal(e.actions)
    ensures SignalsCaughtUp(e)
  {
  }

  /** The signal goes out exactly when it is pending for this server and its row has reached the end. */
  lemma SignalSent(e: Effect, target: NodeId)
    requires NoSignal(e.actions) && (e.node.role == Leader || e.node.transferTarget == None)
    ensures SignalsCaughtUp(MaybeSendTimeoutNow(e, target))
    ensures var r := MaybeSendTimeoutNow(e, target);
            && r.node == e.node.(transferTarget := r.node.transferTarget)
            && (r.actions == e.actions || r.node.role == Leader)
  {
    hide FindProgress;
  }

  lemma SendKeepsSignals(e: Effect, i: nat)
    requires SignalsCaughtUp(e) && i < |e.node.progress|
    ensures SignalsCaughtUp(SendAppend(e, i))
  {
    hide Batch, Log.TermAt, Log.CurrentSnapshot;
    var r := SendAppend(e, i);
    forall a | a in r.actions && a.Send? && a.message.TimeoutNow?
      ensures IsSignal(a, r.node) && CaughtUp(r.node, a.to)
    {
      assert a in e.actions;
      var k :| 0 <= k < |e.node.progress| && e.node.progress[k].id == a.to
               && e.node.progress[k].matched >= e.node.log.LastIndex();
      assert r.node.progress[k].id == a.to && r.node.progress[k].matched == e.node.progress[k].matched;
    }
  }

  lemma ResumeSignals(e: Effect, from: NodeId, i: nat)
    requires NoSignal(e.actions) && (e.node.role == Leader || e.node.transferTarget == None)
    ensures SignalsCaughtUp(Resume(e, from, i))
  {
    hide MaybeSendTimeoutNow, SendAppend, SignalsCaughtUp, NoSignal;
    SignalSent(e, from);
    var e1 := MaybeSendTimeoutNow(e, from);
    if i < |e1.node.progress| { SendKeepsSignals(e1, i); }
  }

  lemma CountAckSignals(e: Effect, i: nat, matched: Index, next: Index)
    requires NoSignal(e.actions) && e.node.role == Leader && i < |e.node.progress|
    ensures SignalsCaughtUp(CountAck(e, i, matched, next))
  {
    hide AdvanceCommit, Resume, NoSignal, SignalsCaughtUp;
    var p := e.node.progress[i].(matched := matched, next := next, state := Replicate);
    var e1 := e.(node := e.node.(progress := e.node.progress[i := p]));
    AdvanceSilent(e1);
    AdvanceKeepsRows(e1);
    ResumeSignals(AdvanceCommit(e1), p.id, i);
  }

  lemma ReplySignals(e: Effect, reply: Message)
    requires NoSignal(e.actions)
    ensures reply.AppendEntriesReply? ==> SignalsCaughtUp(HandleAppendReply(e, reply))
    ensures reply.InstallSnapshotReply? ==> SignalsCaughtUp(HandleInstallSnapshotReply(e, reply))
  {
    hide CountAck, FindProgress, RejectedNext, SendAppend, NoSignal, SignalsCaughtUp;
    var n := e.node;
    SilentCaughtUp(e);
    if (reply.AppendEntriesReply? || reply.InstallSnapshotReply?) && n.role == Leader
       && FindProgress(n.progress, reply.from).Some? {
      var i := FindProgress(n.progress, reply.from).value;
      var p := n.progress[i];
      if reply.InstallSnapshotReply? {
        var matched := Max(p.matched, reply.lastIndex);
        CountAckSignals(e, i, matched, matched + 1);
      } else if reply.success {
        var matched := Max(p.matched, reply.matchIndex);
        CountAckSignals(e, i, matched, Max(p.next, matched + 1));
      } else {
        var next := RejectedNext(n.log, p.next, p.matched, reply.conflictIndex, reply.conflictTerm);
        var e1 := e.(node := n.(progress := n.progress[i := p.(next := next, state := Probe)]));
        SilentCaughtUp(e1);
        SendKeepsSignals(e1, i);
      }
    }
  }

  lemma TransferSignals(n: Node, target: NodeId)
    ensures SignalsCaughtUp(TransferTo(n, target))
  {
    hide MaybeSendTimeoutNow, SendAppend, FindProgress, SignalsCaughtUp;
    SilentCaughtUp(Effect(n, []));
    if n.role == Leader && target != n.id && target in n.voters {
      var e := MaybeSendTimeoutNow(Effect(n.(transferTarget := Some(target)), []), target);
      SignalSent(Effect(n.(transferTarget := Some(target)), []), target);
      var found := FindProgress(e.node.progress, target);
      if found.Some? { SendKeepsSignals(e, found.value); }
    }
  }

  lemma MessageSignals(n: Node, m: Message, draw: nat)
    requires HandleMessage(n, m, draw).Done?
    ensures SignalsCaughtUp(HandleMessage(n, m, draw).effect)
  {
    hide NoSignal, SignalsCaughtUp, HandleRequestVote, HandleVoteReply, HandlePreVote, HandlePreVoteReply,
         HandleAppendEntries, HandleAppendReply, HandleInstallSnapshot, HandleInstallSnapshotReply,
         HandleTimeoutNow, BecomeFollower;
    var e0 := Effect(n, []);
    var e := Effect(if m.term > n.term then BecomeFollower(n, m.term, None) else n, []);
    var r := HandleMessage(n, m, draw).effect;
    Silence();
    VotesSilent(e0, m, draw);
    VotesSilent(e, m, draw);
    if m.AppendEntries? { AppendSilent(e, m, draw); }
    if m.InstallSnapshot? { SnapshotSilent(e, m, draw); }
    if m.AppendEntriesReply? || m.InstallSnapshotReply? { ReplySignals(e, m); } else { SilentCaughtUp(r); }
  }

  lemma Silence()
    ensures NoSignal([])
  {
  }

  /** Whatever the event, the signal is sent only by a leader, in its term, and only to a server whose row
      has reached the last index of its log; and the hand-over is then no longer pending. */
  lemma SignalMeansCaughtUp(n: Node, event: Event, draw: nat, to: NodeId, t: Term, l: NodeId)
    requires Send(to, TimeoutNow(t, l)) in Step(n, event, draw).Emitted()
    ensures var m := Step(n, event, draw).Final();
            && m.term == t && m.id == l && m.role == Leader && m.transferTarget == None
            && exists k :: 0 <= k < |m.progress| && m.progress[k].id == to
                           && m.progress[k].matched >= m.log.LastIndex()
  {
    hide NoSignal, HandleMessage, HandleTick, HandlePropose, HandleSnapshotEvent, ChangeMembership, TransferTo;
    match event {
      case Tick =>
        TickSilent(n, draw);
        SilentCaughtUp(HandleTick(n, draw));
      case Receive(m) => MessageSignals(n, m, draw);
      case Propose(command) =>
        ProposeSilent(n, command);
        SilentCaughtUp(HandlePropose(n, command).effect);
      case TakeSnapshot(index, data) =>
        TakenSilent(n, index, data);
        SilentCaughtUp(HandleSnapshotEvent(n, index, data));
      case AddServer(id) =>
        MembershipSilent(n, Some(id), None);
        SilentCaughtUp(ChangeMembership(n, Some(id), None).effect);
      case RemoveServer(id) =>
        MembershipSilent(n, None, Some(id));
        SilentCaughtUp(ChangeMembership(n, None, Some(id)).effect);
      case TransferLeadership(target) => TransferSignals(n, target);
    }
  }

  /** In any run: when the signal goes out, its target, if still in the leader's term, holds the leader's
      whole log. */
  lemma SignalGoesToWholeLog(setup: Setup, r: Run, i: nat, to: NodeId, t: Term, l: NodeId, f: Node, y: Index)
    requires IsRun(setup, r) && Emits(r, i, Send(to, TimeoutNow(t, l))) && i + 1 < |r.states|
    requires At(r, i + 1, to, f) && f.term == t
    ensures r.moves[i].id in r.states[i + 1].nodes
    ensures var m := r.states[i + 1].nodes[r.moves[i].id];
            && m.role == Leader && m.term == t && m.log.LastIndex() <= f.log.LastIndex()
            && (y <= m.log.LastIndex() ==> SameReads(m.log, f.log, y))
  {
    hide Step, Init, ValidSetup, SameReads, WithLog;
    assert Next(setup, r.states[i], r.moves[i], r.states[i + 1]);
    var n := r.states[i].nodes[r.moves[i].id];
    var event, draw := r.moves[i].event, r.moves[i].draw;
    SignalMeansCaughtUp(n, event, draw, to, t, l);
    var m := r.states[i + 1].nodes[r.moves[i].id];
    var k :| 0 <= k < |m.progress| && m.progress[k].id == to && m.progress[k].matched >= m.log.LastIndex();
    ProgressIsReal(setup, r, i + 1, r.moves[i].id, m, k, f, if y <= m.log.LastIndex() then y else 0);
  }

  /** Handing over: only a leader does, to another voter; at once if that server has caught up, and
      otherwise it is sent its packet and the hand-over stays pending. */
  lemma TransferStarts(n: Node, target: NodeId, row: nat, draw: nat)
    requires CanSend(n) && RowsApart(n.progress) && row < |n.progress| && n.progress[row].id == target
    requires n.progress[row].next > 0
    ensures var o := Step(n, TransferLeadership(target), draw);
            && o.Done?
            && if n.role != Leader || target == n.id || target !in n.voters then o.effect == Effect(n, [])
               else if n.progress[row].matched >= n.log.LastIndex()
               then o.effect == Effect(n.(transferTarget := None), [Send(target, TimeoutNow(n.term, n.id))])
               else o.effect.node.transferTarget == Some(target) && ReachesRow(n, row, o.effect.actions)
  {
    hide SendAppend, FindProgress, CanSend, SentFor;
    RowFound(n.progress, row);
    var n1 := n.(transferTarget := Some(target));
    TargetSends(n, n1);
    var m, p := PacketSent(n1, row);
    TargetSent(n, n1, n.progress[row].next, m);
  }

  lemma TargetSends(n: Node, n1: Node)
    requires CanSend(n) && n1 == n.(transferTarget := n1.transferTarget)
    ensures CanSend(n1)
  {
  }

  lemma TargetSent(n: Node, n1: Node, next: Index, m: Message)
    requires SentFor(n1, next, m) && n1 == n.(transferTarget := n1.transferTarget)
    ensures SentFor(n, next, m)
  {
  }
}
