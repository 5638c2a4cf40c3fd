/**
 What replication makes a node do, stated over the whole step: how a follower answers, what a leader's
 rows and packets become, and what a snapshot leaves.
 */
module Replication {
  import opened Types
  import opened LogStore
  import opened Protocol
  import opened NodeInvariant
  import opened Bookkeeping
  import opened NodeSteps
  import opened NodeRuns
  import opened SnapshotOrder
  import opened Elections
  import opened Backtracking

  // ---- a follower answers an append --------------------------------------

  /** The node takes the sender for the leader of its term. */
  ghost predicate Recognises(n: Node, m: Node, leader: NodeId, term: Term, draw: nat) {
    && m.id == n.id && m.term == term && m.role == Follower && m.leaderId == Some(leader) && !m.preVoting
    && m.electionElapsed == 0 && m.electionTimeout == draw
  }

  /** Where a rejection tells the leader to look: past the end of the log, or the first index of the run of
      the conflicting term. */
  ghost predicate Hints(log: Log, prev: Index, index: Index, term: Term) {
    if prev > log.LastIndex() then index == log.LastIndex() + 1 && term == 0
    else
      && log.TermAt(prev) == Some(term) && index <= prev
      && (forall x: Index :: index <= x <= prev ==> log.TermAt(x) == Some(term))
      && (index > 1 ==> log.TermAt(index - 1) != Some(term))
  }

  lemma HintIsRun(log: Log, prev: Index)
    requires log.base <= prev
    ensures Hints(log, prev, Hint(log, prev).0, Hint(log, prev).1)
  {
    hide Log.TermAt, FirstIndexOfTerm;
    if prev <= log.LastIndex() {
      var t := TermOrZero(log, prev);
      assert log.TermAt(prev) == Some(t) by { HeldHere(log, prev); }
      if prev > 0 {
        FirstOfRun(log, t, prev);
        forall x: Index | FirstIndexOfTerm(log, t, prev) <= x <= prev ensures log.TermAt(x) == Some(t) {
          RunOfTerm(log, t, prev, x);
        }
      } else {
        FirstAtZero(log, t);
      }
    }
  }

  lemma HeldHere(log: Log, i: Index)
    requires log.base <= i <= log.LastIndex()
    ensures log.TermAt(i).Some?
  {
  }

  lemma FirstAtZero(log: Log, t: Term)
    ensures FirstIndexOfTerm(log, t, 0) == 0
  {
  }

  /** A stale leader is told the node's term, and nothing changes. */
  lemma StaleAppendAnswered(n: Node, ae: Message, draw: nat)
    requires ae.AppendEntries? && ae.term < n.term
    ensures Step(n, Receive(ae), draw) ==
            Done(Effect(n, [Send(ae.leader, AppendEntriesReply(n.term, false, n.id, 0, 0, 0))]))
  {
  }

  /** An append that does not match is rejected with a hint; the log's entries, the commit index and the
      applied index stay, and nothing else is sent. */
  lemma MismatchAnswered(n: Node, ae: Message, draw: nat) returns (m: Node, reply: Message)
    requires ae.AppendEntries? && ae.term >= n.term && !Accepts(n, ae)
    ensures Step(n, Receive(ae), draw) == Done(Effect(m, [Send(ae.leader, reply)]))
    ensures Recognises(n, m, ae.leader, ae.term, draw) && m.log == n.log.(hard := m.log.hard)
    ensures m.commit == n.commit && m.applied == n.applied
    ensures reply.AppendEntriesReply? && reply.term == ae.term && !reply.success && reply.from == n.id
    ensures Hints(n.log, ae.prevLogIndex, reply.conflictIndex, reply.conflictTerm)
  {
    hide Step, Hints, BecomeFollower, FirstIndexOfTerm, Log.TermAt;
    StepOnAppend(n, ae, draw);
    var f := InTerm(n, ae.term);
    HintIsRun(n.log, ae.prevLogIndex);
    m := Recognise(f, ae.leader, draw);
    reply := Rejection(m, ae.prevLogIndex);
    assert forall x: Index :: f.log.TermAt(x) == n.log.TermAt(x) by { HardAside(n.log, f.log); }
    FirstIgnoresHard(n.log, f.log.hard, TermOrZero(n.log, ae.prevLogIndex), ae.prevLogIndex);
    InTermKeeps(n, ae.term);
  }

  lemma HardAside(log: Log, other: Log)
    requires other == log.(hard := other.hard)
    ensures forall x: Index :: other.TermAt(x) == log.TermAt(x)
  {
  }

  lemma InTermKeeps(n: Node, term: Term)
    ensures var f := InTerm(n, term);
            && f.commit == n.commit && f.applied == n.applied && f.id == n.id && f.params == n.params
            && f.voters == n.voters && f.configIndex == n.configIndex && f.baseConfig == n.baseConfig
  {
  }

  /** An accepted append: the commit index becomes what the leader claims, as far as the append covers it,
      whenever it claims more than is known; everything up to it is applied; and the last thing sent
      acknowledges what is covered. */
  lemma AppendAnswered(n: Node, ae: Message, draw: nat)
    requires ae.AppendEntries? && Accepts(n, ae) && Step(n, Receive(ae), draw).Done?
    ensures var o := Step(n, Receive(ae), draw);
            && var m, covered := o.effect.node, CoveredBy(n, ae);
               && Recognises(n, m, ae.leader, ae.term, draw)
               && (if ae.leaderCommit > n.commit
                   then m.commit == Min(ae.leaderCommit, covered) && m.applied == Max(n.applied, m.commit)
                   else m.commit == n.commit && m.applied == n.applied)
               && o.effect.actions != []
               && o.effect.actions[|o.effect.actions| - 1] ==
                  Send(ae.leader, AppendEntriesReply(ae.term, true, n.id, covered, 0, 0))
  {
    hide Step, BecomeFollower, FollowCommit, MergeBatch, Log.TermAt;
    StepOnAppend(n, ae, draw);
    var f := InTerm(n, ae.term);
    InTermKeeps(n, ae.term);
    HardAside(n.log, f.log);
    AppendMovesIndices(f, ae, draw);
    var e := Effect(Recognise(f, ae.leader, draw), []);
    if ae.prevLogIndex < n.log.base {
      FollowKeeps(e, ae.leaderCommit, n.log.base);
    } else {
      MergeAnswers(e, ae);
    }
  }

  lemma FollowKeeps(e: Effect, leaderCommit: Index, covered: Index)
    ensures var r := FollowCommit(e, leaderCommit, covered).node;
            r == e.node.(commit := r.commit, applied := r.applied, hintedAt := r.hintedAt)
  {
    hide DrainApplies, Deliveries, Delivered;
    DrainDelivers(e.(node := e.node.(commit := Min(leaderCommit, covered))));
  }

  lemma RefreshKeeps(e: Effect)
    ensures var r := RefreshConfig(e).node;
            r == e.node.(voters := r.voters, configIndex := r.configIndex, progress := r.progress)
  {
    hide ProgressFor, EffectiveConfig;
  }

  lemma MergeAnswers(e: Effect, ae: Message)
    requires ae.AppendEntries? && MergeBatch(e, ae).Done? && ae.prevLogIndex >= e.node.log.base
    ensures var r := MergeBatch(e, ae).effect;
            && r.node.id == e.node.id && r.node.term == e.node.term && r.node.role == e.node.role
            && r.node.leaderId == e.node.leaderId && r.node.preVoting == e.node.preVoting
            && r.node.electionElapsed == e.node.electionElapsed && r.node.electionTimeout == e.node.electionTimeout
            && r.actions != []
            && r.actions[|r.actions| - 1] ==
               Send(ae.leader, AppendEntriesReply(e.node.term, true, e.node.id, CoveredBy(e.node, ae), 0, 0))
  {
    hide FollowCommit, RefreshConfig, AppendFromLeader, HasConfigEntry;
    var n := e.node;
    var merged := if ae.entries == [] then Merge(n.log, Ok((ae.prevLogIndex, false)))
                  else AppendFromLeader(n.log, ae.entries);
    if ae.entries != [] { MergeReach(n.log, ae.entries); }
    var e1 := e.(node := n.(log := merged.log));
    RefreshKeeps(e1);
    FollowKeeps(RefreshConfig(e1), ae.leaderCommit, merged.result.value.0);
    FollowKeeps(e1, ae.leaderCommit, merged.result.value.0);
  }

  // ---- a follower answers a snapshot -------------------------------------

  lemma StaleSnapshotAnswered(n: Node, rpc: Message, draw: nat)
    requires rpc.InstallSnapshot? && rpc.term < n.term
    ensures Step(n, Receive(rpc), draw) ==
            Done(Effect(n, [Send(rpc.leader, InstallSnapshotReply(n.term, n.id, 0))]))
  {
  }

  /** A snapshot above both the boundary and the commit index becomes the boundary, and is handed over;
      any other changes neither log nor indices. Either way the answer covers the snapshot's index, and no
      more than the node has committed or compacted. */
  lemma SnapshotAnswered(n: Node, rpc: Message, draw: nat) returns (covered: Index)
    requires rpc.InstallSnapshot? && rpc.term >= n.term
    ensures var o, s := Step(n, Receive(rpc), draw), rpc.snapshot;
            && o.Done?
            && var m, acts := o.effect.node, o.effect.actions;
               && Recognises(n, m, rpc.leader, rpc.term, draw)
               && acts != []
               && acts[|acts| - 1] == Send(rpc.leader, InstallSnapshotReply(rpc.term, n.id, covered))
               && s.index <= covered <= Max(m.log.base, m.commit)
               && (if s.index > n.log.base && s.index > n.commit
                   then m.log.base == s.index && m.log.CurrentSnapshot() == Some(s)
                        && m.commit == s.index && m.applied == s.index
                        && m.baseConfig == (if s.config != [] then s.config else n.baseConfig)
                        && RestoreSnapshot(s.index, s.term, s.data) in acts
                   else m.log == n.log.(hard := m.log.hard) && m.commit == n.commit && m.applied == n.applied
                        && |acts| == 1)
  {
    hide Step, BecomeFollower, Install;
    var f := InTerm(n, rpc.term);
    StepOnSnapshot(n, rpc, draw);
    InTermKeeps(n, rpc.term);
    var e := Effect(Recognise(f, rpc.leader, draw), []);
    InstallLeaves(e, rpc.snapshot);
    var e1 := if rpc.snapshot.index > n.log.base && rpc.snapshot.index > n.commit then Install(e, rpc.snapshot) else e;
    covered := Max(e1.node.log.base, Min(rpc.snapshot.index, e1.node.commit));
    assert HandleInstallSnapshot(Effect(f, []), rpc, draw) ==
           Emit(e1, Send(rpc.leader, InstallSnapshotReply(rpc.term, n.id, covered)));
  }

  lemma StepOnSnapshot(n: Node, rpc: Message, draw: nat)
    requires rpc.InstallSnapshot? && n.term <= rpc.term
    ensures Step(n, Receive(rpc), draw) == Done(HandleInstallSnapshot(Effect(InTerm(n, rpc.term), []), rpc, draw))
    ensures var f := InTerm(n, rpc.term);
            f.term == rpc.term && f.log == n.log.(hard := f.log.hard)
  {
    hide HandleInstallSnapshot;
  }

  lemma InstallLeaves(e: Effect, s: Snapshot)
    ensures var r := Install(e, s);
            && r.node.id == e.node.id && r.node.term == e.node.term && r.node.role == e.node.role
            && r.node.leaderId == e.node.leaderId && r.node.preVoting == e.node.preVoting
            && r.node.electionElapsed == e.node.electionElapsed && r.node.electionTimeout == e.node.electionTimeout
            && r.node.commit == s.index && r.node.applied == s.index
            && r.node.baseConfig == (if s.config != [] then s.config else e.node.baseConfig)
            && (s.index > e.node.log.base ==> r.node.log.base == s.index && r.node.log.CurrentSnapshot() == Some(s))
            && RestoreSnapshot(s.index, s.term, s.data) in r.actions
  {
    hide RefreshConfig;
    RefreshKeeps(e.(node := Installed(e.node, s)));
  }

  // ---- a snapshot taken locally ------------------------------------------

  /** A snapshot at an index that is committed, applied and above the boundary, and whose term the log still
      knows, becomes the boundary with the data given and the membership in force there; the indices stay.
      At any other index it is ignored. */
  lemma SnapshotEventTakes(n: Node, index: Index, data: Bytes, draw: nat)
    requires Kept(n)
    ensures var o := Step(n, TakeSnapshot(index, data), draw);
            && o.Done?
            && if n.log.base < index <= n.commit && n.log.TermAt(index).Some?
               then && var m, term := o.effect.node, n.log.TermAt(index).value;
                       && m.log.base == index
                       && m.log.CurrentSnapshot() == Some(Snapshot(index, term, m.baseConfig, data))
                       && m.commit == n.commit && m.applied == n.applied && m.role == n.role && m.term == n.term
                       && (forall x: Index :: LatestConfigAt(n.log, index, x) ==>
                             n.log.Entry(x).value.Members() == Some(m.baseConfig))
                       && ((forall x: Index :: x <= index ==> !ConfigHeldAt(n.log, x)) ==> m.baseConfig == n.baseConfig)
               else o.effect == Effect(n, [])
  {
    hide Kept, RefreshConfig, ConfigAt, Log.TermAt;
    KeptParts(n);
    if n.log.base < index <= n.commit && n.log.TermAt(index).Some? {
      var s := Snapshot(index, n.log.TermAt(index).value, ConfigAt(n, index), data);
      var m := n.(baseConfig := s.config, log := n.log.ApplySnapshot(s), hintedAt := Max(n.hintedAt, index));
      SnapshotTaken(n, index, data);
      RefreshKeeps(Effect(m, []));
      ConfigAtIsLatest(n, index);
    }
  }

  /** The last configuration at or below `index` is at `x`. */
  ghost predicate LatestConfigAt(log: Log, index: Index, x: Index) {
    ConfigHeldAt(log, x) && x <= index && forall y: Index :: x < y <= index ==> !ConfigHeldAt(log, y)
  }

  lemma ConfigAtIsLatest(n: Node, index: Index)
    requires index <= n.log.LastIndex()
    ensures forall x: Index :: LatestConfigAt(n.log, index, x) ==>
              n.log.Entry(x).value.Members() == Some(ConfigAt(n, index))
    ensures (forall x: Index :: x <= index ==> !ConfigHeldAt(n.log, x)) ==> ConfigAt(n, index) == n.baseConfig
  {
    if ScanConfig(n.log, index).Some? { ScanFindsEntry(n.log, index); }
    forall x: Index | LatestConfigAt(n.log, index, x)
      ensures n.log.Entry(x).Some? && n.log.Entry(x).value.Members() == Some(ConfigAt(n, index))
    {
      HeldAbove(n.log, x);
      ScanFindsLatest(n.log, index, x);
    }
  }

  lemma HeldAbove(log: Log, x: Index)
    requires ConfigHeldAt(log, x)
    ensures log.base < x <= log.LastIndex()
  {
  }

  // ---- batches and packets -----------------------------------------------

  /** A batch is the stretch of the log from `next`, as much as there is of it up to the limit. */
  lemma BatchIsBounded(n: Node, next: Index, k: nat)
    requires n.log.base < next <= n.log.LastIndex() + 1
    ensures |Batch(n, next)| == Min(n.params.maxBatch, n.log.LastIndex() + 1 - next)
    ensures k < |Batch(n, next)| ==> n.log.Entry(next + k) == Some(Batch(n, next)[k])
  {
    hide Batch, Log.Entry;
    BatchIsSlice(n, next);
    if k < |Batch(n, next)| { EntryIsSlot(n.log, next + k); }
  }

  lemma BatchIsSlice(n: Node, next: Index)
    requires n.log.base < next <= n.log.LastIndex() + 1
    ensures var start := next - n.log.base - 1;
            Batch(n, next) == n.log.entries[start..start + Min(n.params.maxBatch, |n.log.entries| - start)]
  {
    hide Log.Indexed;
  }

  lemma EntryIsSlot(log: Log, i: Index)
    requires log.base < i <= log.LastIndex()
    ensures log.Entry(i) == Some(log.entries[i - log.base - 1])
  {
  }

  lemma SendAppendAppends(e: Effect, i: nat)
    requires i < |e.node.progress|
    ensures var alone := SendAppend(Effect(e.node, []), i);
            SendAppend(e, i) == Effect(alone.node, e.actions + alone.actions)
  {
    hide Batch, Log.TermAt, Log.CurrentSnapshot;
  }

  /** Sending to a row: a streaming row counts on what it was sent, a row sent a snapshot goes back to
      probing, and nothing else changes. */
  lemma SendMovesRow(e: Effect, i: nat)
    requires CanSend(e.node) && i < |e.node.progress| && e.node.progress[i].next > 0
    ensures var n, p := e.node, e.node.progress[i];
            SendAppend(e, i).node == n.(progress := n.progress[i :=
              if p.next <= n.log.base then p.(state := Probe)
              else if p.state == Replicate then p.(next := p.next + |Batch(n, p.next)|)
              else p])
  {
    hide Log.TermAt, Log.Indexed, Batch;
    var n, p := e.node, e.node.progress[i];
    assert n.progress[i := p] == n.progress;
  }

  predicate Selected(p: Progress, all: bool) { all || p.state == Replicate }

  /** What sending to rows `i` on leaves: each selected row was sent the packet for its next index, and
      nothing else was done. */
  ghost predicate ReachesRows(n: Node, i: nat, all: bool, before: seq<Action>, after: seq<Action>) {
    && before <= after
    && (forall k :: i <= k < |n.progress| && Selected(n.progress[k], all) ==> ReachesRow(n, k, after))
    && (forall a :: a in after[|before|..] ==>
          a.Send? && exists k :: i <= k < |n.progress| && Selected(n.progress[k], all) && n.progress[k].id == a.to)
  }

  ghost predicate ReachesRow(n: Node, k: nat, actions: seq<Action>)
    requires k < |n.progress|
  {
    exists m :: Send(n.progress[k].id, m) in actions && SentFor(n, n.progress[k].next, m)
  }

  lemma {:induction false} ReplicateReaches(e: Effect, i: nat, all: bool)
    requires CanSend(e.node) && forall k :: 0 <= k < |e.node.progress| ==> e.node.progress[k].next > 0
    ensures ReachesRows(e.node, i, all, e.actions, ReplicateFrom(e, i, all).actions)
    decreases |e.node.progress| - i
  {
    hide CanSend, SentFor, SendAppend, ReachesRow;
    var n := e.node;
    if i < |n.progress| {
      if Selected(n.progress[i], all) {
        var m, p := PacketSent(n, i);
        SendAppendAppends(e, i);
        var e1 := SendAppend(e, i);
        CanStillSend(n, e1.node);
        ReplicateReaches(e1, i + 1, all);
        RowsReached(n, e1.node, i, all, e.actions, m, ReplicateFrom(e, i, all).actions);
      } else {
        ReplicateReaches(e, i + 1, all);
      }
    }
  }

  lemma RowsReached(n: Node, n1: Node, i: nat, all: bool, before: seq<Action>, m: Message, after: seq<Action>)
    requires i < |n.progress| && Selected(n.progress[i], all) && SentFor(n, n.progress[i].next, m)
    requires |n1.progress| == |n.progress| && n1 == n.(progress := n.progress[i := n1.progress[i]])
    requires ReachesRows(n1, i + 1, all, before + [Send(n.progress[i].id, m)], after)
    ensures ReachesRows(n, i, all, before, after)
  {
    hide SentFor;
    var sent := Send(n.progress[i].id, m);
    assert (before + [sent])[|before|] == sent;
    forall k | i <= k < |n.progress| && Selected(n.progress[k], all) ensures ReachesRow(n, k, after) {
      if k == i {
        assert sent in after;
      } else {
        assert ReachesRow(n1, k, after);
        var p :| Send(n1.progress[k].id, p) in after && SentFor(n1, n1.progress[k].next, p);
        SentForStill(n1, n, n.progress[k].next, p);
      }
    }
    forall a | a in after[|before|..]
      ensures a.Send? && exists k :: i <= k < |n.progress| && Selected(n.progress[k], all) && n.progress[k].id == a.to
    {
      var j :| |before| <= j < |after| && after[j] == a;
      if j > |before| {
        assert a in after[|before + [sent]|..];
        var k :| i + 1 <= k < |n1.progress| && Selected(n1.progress[k], all) && n1.progress[k].id == a.to;
        assert n1.progress[k] == n.progress[k];
      }
    }
  }

  /** A leader's heartbeat: when it is due, every row is sent its packet, and nothing else; until then only
      time passes. */
  lemma HeartbeatReaches(n: Node, draw: nat)
    requires n.role == Leader && CanSend(n) && forall k :: 0 <= k < |n.progress| ==> n.progress[k].next > 0
    ensures var o := Step(n, Tick, draw);
            && o.Done?
            && if n.heartbeatElapsed + 1 >= n.params.heartbeat
               then o.effect.node.heartbeatElapsed == 0 && ReachesRows(n, 0, true, [], o.effect.actions)
               else o.effect == Effect(n.(heartbeatElapsed := n.heartbeatElapsed + 1), [])
  {
    hide ReplicateFrom, SentFor, Deliveries, SameMatches;
    var n1 := n.(heartbeatElapsed := 0);
    ReplicateSends(Effect(n1, []), 0, true);
    ReplicateReaches(Effect(n1, []), 0, true);
    BeatsAlike(n1, n, ReplicateFrom(Effect(n1, []), 0, true).actions);
  }

  lemma BeatsAlike(n1: Node, n: Node, actions: seq<Action>)
    requires n1 == n.(heartbeatElapsed := n1.heartbeatElapsed) && ReachesRows(n1, 0, true, [], actions)
    ensures ReachesRows(n, 0, true, [], actions)
  {
    hide SentFor;
    forall k | 0 <= k < |n.progress| ensures ReachesRow(n, k, actions) {
      assert ReachesRow(n1, k, actions);
      var m :| Send(n1.progress[k].id, m) in actions && SentFor(n1, n1.progress[k].next, m);
      SentAlike(n1, n, n.progress[k].next, m);
    }
  }

  lemma SentAlike(n1: Node, n: Node, next: Index, m: Message)
    requires n1 == n.(heartbeatElapsed := n1.heartbeatElapsed) && SentFor(n1, next, m)
    ensures SentFor(n, next, m)
  {
  }

  /** A leader that is not handing over takes a proposal: the command, in its term, is the next entry of its
      log, and every streaming row is sent its packet. Any other node refuses, and is as it was. */
  lemma ProposalReaches(n: Node, command: Bytes, draw: nat)
    requires CanSend(n) && forall k :: 0 <= k < |n.progress| ==> n.progress[k].next > 0
    ensures var o := Step(n, Propose(command), draw);
            if n.role == Leader && n.transferTarget.None?
            then && o.Done?
                 && var last := n.log.LastIndex() + 1;
                    && o.effect.node.log.LastIndex() == last
                    && o.effect.node.log.Entry(last) == Some(NormalEntry(n.term, last, command))
                    && var n1 := n.(log := n.log.(entries := n.log.entries + [NormalEntry(n.term, last, command)]));
                       exists sent :: sent <= o.effect.actions && ReachesRows(n1, 0, false, [], sent)
            else o == Failed(n, NotLeader(n.leaderId))
  {
    hide ReplicateFrom, AdvanceCommit, Log.Append, ReachesRows, Deliveries, SameMatches, Log.Indexed;
    if n.role == Leader && n.transferTarget.None? {
      var last := n.log.LastIndex() + 1;
      var entry := NormalEntry(n.term, last, command);
      AppendNext(n.log, entry);
      var n1 := n.(log := n.log.(entries := n.log.entries + [entry]));
      var e1 := ReplicateFrom(Effect(n1, []), 0, false);
      ReplicateSends(Effect(n1, []), 0, false);
      ReplicateReaches(Effect(n1, []), 0, false);
      AdvanceExtends(e1);
      AdvanceKeepsLog(e1);
      assert Step(n, Propose(command), draw) == Done(AdvanceCommit(e1));
    }
  }

  lemma AdvanceKeepsLog(e: Effect)
    ensures AdvanceCommit(e).node.log == e.node.log
  {
    hide Deliveries, Delivered, CommitScan, AdvanceCommit;
    AdvanceShape(e);
  }
}
