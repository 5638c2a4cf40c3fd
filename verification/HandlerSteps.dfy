/**
 The rest of the handlers, and the step function: whatever event a node that fits the ledger takes,
 it fits a ledger that only grew, fails only where a client asked the wrong node, and everything it
 emits is justified.
 */
module HandlerSteps {
  import opened Types
  import opened LogStore
  import opened Protocol
  import opened Ledger
  import opened LedgerSteps
  import opened NodeInvariant
  import opened LeaderSteps
  import opened ElectionSteps
  import opened FollowerSteps

  // ---- replies to a leader -----------------------------------------------

  lemma AckedBound(g: Ledger, v: NodeId, t: Term)
    requires Inv(g) && t in g.led
    ensures Acked(g, v, t) <= |g.led[t]|
  {
    hide Inv, LedShape, AllConsistent, TermsBounded, Elections, LeaderLogs, AckHeld, AckKept, VoteKept,
         Complete, CommitsHeld;
    InvParts(g);
  }

  /** A row may record any match point its follower has really acknowledged in this term. */
  lemma RowAcked(n: Node, i: nat, matched: Index, next: Index, roster: seq<NodeId>, g: Ledger)
    requires Inv(g) && NodeOk(n, roster, g) && n.role == Leader && i < |n.progress|
    requires matched <= Acked(g, n.progress[i].id, n.term)
    requires next == matched + 1 || (next == n.progress[i].next && matched < next)
    ensures var p := n.progress[i].(matched := matched, next := next, state := Replicate);
            NodeOk(n.(progress := n.progress[i := p]), roster, g)
  {
    hide Inv, NodeOk, Window, Covered;
    LeaderLog(n, roster, g);
    NodeFacts(n, roster, g);
    RowFacts(n, i, roster, g);
    AckedBound(g, n.progress[i].id, n.term);
    RowChanges(n, i, n.progress[i].(matched := matched, next := next, state := Replicate), roster, g);
  }

  lemma TimeoutNowOk(e: Effect, target: NodeId, roster: seq<NodeId>, g: Ledger)
    requires EffectOk(e, roster, g)
    ensures EffectOk(MaybeSendTimeoutNow(e, target), roster, g)
    ensures SameCore(e.node, MaybeSendTimeoutNow(e, target).node)
    ensures MaybeSendTimeoutNow(e, target).node.role == e.node.role
    ensures MaybeSendTimeoutNow(e, target).node.progress == e.node.progress
  {
    hide NodeOk, ActionsOk, FindProgress;
    var n := e.node;
    var m := n.(transferTarget := None);
    VolatileStays(n, m, roster, g);
    ActionsAppend(e.actions, Send(target, TimeoutNow(n.term, n.id)), roster, g);
  }

  lemma ResumeOk(e: Effect, from: NodeId, i: nat, roster: seq<NodeId>, g: Ledger)
    requires Inv(g) && EffectOk(e, roster, g) && e.node.role == Leader
    ensures EffectOk(Resume(e, from, i), roster, g) && Resume(e, from, i).node.id == e.node.id
  {
    hide Inv, EffectOk, MaybeSendTimeoutNow, SendAppend;
    TimeoutNowOk(e, from, roster, g);
    var e1 := MaybeSendTimeoutNow(e, from);
    if i < |e1.node.progress| { SendAppendOk(e1, i, roster, g); }
  }

  /** Counting an acknowledgement, then everything it sets in motion. */
  lemma CountAndResume(e: Effect, i: nat, matched: Index, next: Index, roster: seq<NodeId>, g: Ledger)
    returns (h: Ledger)
    requires Inv(g) && EffectOk(e, roster, g) && e.node.role == Leader && i < |e.node.progress|
    requires matched <= Acked(g, e.node.progress[i].id, e.node.term)
    requires next == matched + 1 || (next == e.node.progress[i].next && matched < next)
    ensures Inv(h) && Moved(g, h, e.node.id)
    ensures EffectOk(CountAck(e, i, matched, next), roster, h) && CountAck(e, i, matched, next).node.id == e.node.id
  {
    hide Inv, NodeOk, ActionsOk, AdvanceCommit, Resume, OnlyNode, KeepsCovered, AcksNow, GrowsNodes, GrowsVotes,
         GrowsLogs;
    var n := e.node;
    var p := n.progress[i].(matched := matched, next := next, state := Replicate);
    RowAcked(n, i, matched, next, roster, g);
    var e1 := e.(node := n.(progress := n.progress[i := p]));
    h := AdvanceCommitOk(e1, roster, g);
    ResumeOk(AdvanceCommit(e1), n.progress[i].id, i, roster, h);
  }

  lemma HandleAppendReplyOk(e: Effect, reply: Message, roster: seq<NodeId>, g: Ledger) returns (h: Ledger)
    requires Inv(g) && EffectOk(e, roster, g) && reply.AppendEntriesReply?
    requires PacketOk(e.node.id, reply, roster, g)
    ensures Inv(h) && Moved(g, h, e.node.id)
    ensures EffectOk(HandleAppendReply(e, reply), roster, h) && HandleAppendReply(e, reply).node.id == e.node.id
  {
    hide Inv, NodeOk, ActionsOk, CountAck, OnlyNode, KeepsCovered, AcksNow, GrowsNodes, GrowsVotes, GrowsLogs,
         FindProgress, RejectedNext, SendAppend, Acked;
    var n := e.node;
    h := g;
    StillMoved(g, n.id);
    if n.role == Leader && reply.term == n.term && FindProgress(n.progress, reply.from).Some? {
      var i := FindProgress(n.progress, reply.from).value;
      var p := n.progress[i];
      RowFacts(n, i, roster, g);
      if reply.success {
        var matched := Max(p.matched, reply.matchIndex);
        h := CountAndResume(e, i, matched, Max(p.next, matched + 1), roster, g);
      } else {
        var next := RejectedNext(n.log, p.next, p.matched, reply.conflictIndex, reply.conflictTerm);
        RowChanges(n, i, p.(next := next, state := Probe), roster, g);
        SendAppendOk(e.(node := n.(progress := n.progress[i := p.(next := next, state := Probe)])), i, roster, g);
      }
    }
  }

  lemma HandleInstallSnapshotReplyOk(e: Effect, reply: Message, roster: seq<NodeId>, g: Ledger)
    returns (h: Ledger)
    requires Inv(g) && EffectOk(e, roster, g) && reply.InstallSnapshotReply?
    requires PacketOk(e.node.id, reply, roster, g)
    ensures Inv(h) && Moved(g, h, e.node.id)
    ensures EffectOk(HandleInstallSnapshotReply(e, reply), roster, h)
    ensures HandleInstallSnapshotReply(e, reply).node.id == e.node.id
  {
    hide Inv, NodeOk, ActionsOk, CountAck, OnlyNode, KeepsCovered, AcksNow, GrowsNodes, GrowsVotes, GrowsLogs,
         FindProgress, Acked;
    var n := e.node;
    h := g;
    StillMoved(g, n.id);
    if n.role == Leader && reply.term == n.term && FindProgress(n.progress, reply.from).Some? {
      var i := FindProgress(n.progress, reply.from).value;
      RowFacts(n, i, roster, g);
      var matched := Max(n.progress[i].matched, reply.lastIndex);
      h := CountAndResume(e, i, matched, matched + 1, roster, g);
    }
  }

  // ---- proposals and transfers -------------------------------------------

  lemma AppendOne(log: Log, full: seq<LogEntry>, e: LogEntry)
    requires Window(log, full) && e.index == |full| + 1
    ensures log.Append([e]) == Ok(log.(entries := log.entries + [e]))
    ensures Window(log.(entries := log.entries + [e]), full + [e])
  {
  }

  lemma ProposedFits(n: Node, command: Bytes, roster: seq<NodeId>, g: Ledger) returns (h: Ledger)
    requires Inv(g) && NodeOk(n, roster, g) && n.role == Leader
    ensures var e := NormalEntry(n.term, n.log.LastIndex() + 1, command);
            && n.log.Append([e]).Ok?
            && Inv(h) && Moved(g, h, n.id) && NodeOk(n.(log := n.log.Append([e]).value), roster, h)
  {
    hide Inv, Window, Covered, OnlyNode, KeepsCovered, AcksNow, GrowsNodes, GrowsVotes, GrowsLogs, IsRoster,
         CandidateOk, Log.Append, Acked;
    NodeFacts(n, roster, g);
    LeaderLog(n, roster, g);
    var full := g.full[n.id];
    var e := NormalEntry(n.term, n.log.LastIndex() + 1, command);
    AppendOne(n.log, full, e);
    h := g.(full := g.full[n.id := full + [e]], led := g.led[n.term := full + [e]],
            acked := g.acked[(n.id, n.term) := |full + [e]|]);
    ExtendMoves(g, h, n.id, e);
    CoveredInExtension(n.term, full, full + [e], n.commit, g, h);
    CoveredInExtension(n.term, full, full + [e], n.applied, g, h);
    LeaderStays(n, g, h);
  }

  lemma CoveredInExtension(t: Term, log: seq<LogEntry>, longer: seq<LogEntry>, k: nat, g: Ledger, h: Ledger)
    requires Covered(g, t, log, k) && log <= longer && k <= |log| && GrowsLogs(g, h)
    ensures Covered(h, t, longer, k)
  {
    hide Covered, GrowsLogs;
    CoveredStays(g, h, t, t, log, k);
    CoveredMoves(h, t, log, longer, k);
  }

  lemma HandleProposeOk(n: Node, command: Bytes, roster: seq<NodeId>, g: Ledger) returns (h: Ledger)
    requires Inv(g) && NodeOk(n, roster, g)
    ensures Inv(h) && Moved(g, h, n.id)
    ensures HandlePropose(n, command).Failed? ==>
              HandlePropose(n, command) == Failed(n, NotLeader(n.leaderId)) && h == g
    ensures HandlePropose(n, command).Done? ==>
              EffectOk(HandlePropose(n, command).effect, roster, h) && HandlePropose(n, command).effect.node.id == n.id
  {
    hide Inv, NodeOk, AdvanceCommit, ReplicateFrom, OnlyNode, KeepsCovered, AcksNow, GrowsNodes, GrowsVotes,
         GrowsLogs, Log.Append;
    h := g;
    StillMoved(g, n.id);
    if n.role == Leader && n.transferTarget.None? {
      var e := NormalEntry(n.term, n.log.LastIndex() + 1, command);
      var h1 := ProposedFits(n, command, roster, g);
      var e1 := Effect(n.(log := n.log.Append([e]).value), []);
      ReplicateOk(e1, 0, false, roster, h1);
      h := AdvanceCommitOk(ReplicateFrom(e1, 0, false), roster, h1);
      MovedTransitive(g, h1, h, n.id);
    }
  }

  lemma TransferOk(n: Node, target: NodeId, roster: seq<NodeId>, g: Ledger)
    requires Inv(g) && NodeOk(n, roster, g)
    ensures EffectOk(TransferTo(n, target), roster, g) && TransferTo(n, target).node.id == n.id
  {
    hide Inv, NodeOk, MaybeSendTimeoutNow, SendAppend, FindProgress;
    if n.role == Leader && target != n.id && target in n.voters {
      var m := n.(transferTarget := Some(target));
      VolatileStays(n, m, roster, g);
      TimeoutNowOk(Effect(m, []), target, roster, g);
      var e := MaybeSendTimeoutNow(Effect(m, []), target);
      if FindProgress(e.node.progress, target).Some? {
        SendAppendOk(e, FindProgress(e.node.progress, target).value, roster, g);
      }
    }
  }

  // ---- ticks -------------------------------------------------------------

  lemma HandleTickOk(n: Node, draw: nat, roster: seq<NodeId>, g: Ledger) returns (h: Ledger)
    requires Inv(g) && NodeOk(n, roster, g)
    ensures Inv(h) && Moved(g, h, n.id)
    ensures EffectOk(HandleTick(n, draw), roster, h) && HandleTick(n, draw).node.id == n.id
  {
    hide Inv, NodeOk, StartPreVote, ReplicateFrom, OnlyNode, KeepsCovered, AcksNow, GrowsNodes, GrowsVotes,
         GrowsLogs;
    h := g;
    StillMoved(g, n.id);
    if n.role == Leader {
      var n1 := n.(heartbeatElapsed := n.heartbeatElapsed + 1);
      VolatileStays(n, n1, roster, g);
      if n1.heartbeatElapsed >= n1.params.heartbeat {
        VolatileStays(n, n1.(heartbeatElapsed := 0), roster, g);
        ReplicateOk(Effect(n1.(heartbeatElapsed := 0), []), 0, true, roster, g);
      }
    } else {
      var n1 := n.(electionElapsed := n.electionElapsed + 1);
      VolatileStays(n, n1, roster, g);
      if n1.electionElapsed >= n1.electionTimeout && IsVoter(n1) {
        h := StartPreVoteOk(Effect(n1, []), draw, roster, g);
      }
    }
  }

  // ---- messages ----------------------------------------------------------

  lemma DispatchOk(e: Effect, m: Message, draw: nat, roster: seq<NodeId>, g: Ledger) returns (h: Ledger)
    requires Inv(g) && EffectOk(e, roster, g) && PacketOk(e.node.id, m, roster, g)
    requires m.term <= e.node.term && !m.PreVote? && !m.PreVoteReply?
    ensures Inv(h) && Moved(g, h, e.node.id) && Dispatch(e, m, draw).Done?
    ensures EffectOk(Dispatch(e, m, draw).effect, roster, h) && Dispatch(e, m, draw).effect.node.id == e.node.id
  {
    hide Inv, EffectOk, Moved, HandleRequestVote, HandleVoteReply, HandleAppendEntries, HandleAppendReply,
         HandleInstallSnapshot, HandleInstallSnapshotReply, HandleTimeoutNow, PacketOk;
    match m
    case RequestVote(_, _, _, _, _) => h := HandleRequestVoteOk(e, m, draw, roster, g);
    case RequestVoteReply(_, _, _) => h := HandleVoteReplyOk(e, m, roster, g);
    case AppendEntries(_, _, _, _, _, _) => h := HandleAppendEntriesOk(e, m, draw, roster, g);
    case AppendEntriesReply(_, _, _, _, _, _) => h := HandleAppendReplyOk(e, m, roster, g);
    case InstallSnapshot(_, _, _) => h := HandleInstallSnapshotOk(e, m, draw, roster, g);
    case InstallSnapshotReply(_, _, _) => h := HandleInstallSnapshotReplyOk(e, m, roster, g);
    case TimeoutNow(_, _) => h := HandleTimeoutNowOk(e, m, draw, roster, g);
  }

  lemma HandleMessageOk(n: Node, m: Message, draw: nat, roster: seq<NodeId>, g: Ledger) returns (h: Ledger)
    requires Inv(g) && NodeOk(n, roster, g) && PacketOk(n.id, m, roster, g)
    ensures Inv(h) && Moved(g, h, n.id) && HandleMessage(n, m, draw).Done?
    ensures EffectOk(HandleMessage(n, m, draw).effect, roster, h) && HandleMessage(n, m, draw).effect.node.id == n.id
  {
    hide Inv, NodeOk, OnlyNode, KeepsCovered, AcksNow, GrowsNodes, GrowsVotes, GrowsLogs, Dispatch, PacketOk,
         HandlePreVoteReply;
    h := g;
    StillMoved(g, n.id);
    if Ignored(n, m) {
    } else if m.PreVote? {
      PreVoteReplyOk(n, m, roster, g);
    } else if m.PreVoteReply? {
      h := HandlePreVoteReplyOk(Effect(n, []), m, draw, roster, g);
    } else if m.term > n.term {
      var h1 := BecomeFollowerOk(n, m.term, roster, g);
      PacketStays(n.id, m, roster, g, h1);
      h := DispatchOk(Effect(BecomeFollower(n, m.term, None), []), m, draw, roster, h1);
      MovedTransitive(g, h1, h, n.id);
    } else {
      h := DispatchOk(Effect(n, []), m, draw, roster, g);
    }
  }

  lemma PreVoteReplyOk(n: Node, m: Message, roster: seq<NodeId>, g: Ledger)
    requires NodeOk(n, roster, g) && m.PreVote?
    ensures EffectOk(HandlePreVote(Effect(n, []), m), roster, g)
  {
  }

  // ---- the step ----------------------------------------------------------

  /** Every event but the two that change the voter set. */
  predicate KeepsVoters(event: Event) {
    !event.AddServer? && !event.RemoveServer?
  }

  /** The snapshot, if any, that an event takes of the node's state machine. */
  function TakenBy(n: Node, event: Event): set<(Index, Term, Bytes)> {
    if event.TakeSnapshot? then Taken(n, event.index, event.data) else {}
  }

  lemma StepOk(n: Node, event: Event, draw: nat, roster: seq<NodeId>, g: Ledger) returns (h: Ledger)
    requires Inv(g) && NodeOk(n, roster, g) && KeepsVoters(event)
    requires event.Receive? ==> PacketOk(n.id, event.message, roster, g)
    ensures Inv(h) && Shifted(g, h, n.id) && h.taken == g.taken + TakenBy(n, event)
    ensures var o := Step(n, event, draw);
            && NodeOk(o.Final(), roster, h) && o.Final().id == n.id
            && ActionsOk(o.Emitted(), roster, h)
            && (o.Failed? ==> event.Propose? && o == Failed(n, NotLeader(n.leaderId)))
  {
    hide Inv, NodeOk, ActionsOk, Shifted, PacketOk, HandleMessage, HandlePropose, HandleTick,
         HandleSnapshotEvent, TransferTo;
    match event
    case Tick => h := HandleTickOk(n, draw, roster, g);
    case Receive(m) => h := HandleMessageOk(n, m, draw, roster, g);
    case Propose(command) => {
      h := HandleProposeOk(n, command, roster, g);
      NothingEmitted(roster, h);
    }
    case TakeSnapshot(index, data) => {
      h := TakeShifts(g, n.id, TakenBy(n, event));
      SameNodeStays(n, roster, g, h);
      HandleSnapshotEventOk(n, index, data, roster, h);
    }
    case TransferLeadership(target) => {
      h := g;
      StillMoved(g, n.id);
      TransferOk(n, target, roster, g);
    }
  }

  lemma NothingEmitted(roster: seq<NodeId>, g: Ledger)
    ensures ActionsOk([], roster, g)
  {
  }
}
