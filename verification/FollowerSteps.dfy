/**
 The follower's side of the protocol keeps a node fitted to the ledger: batches merged, compacted
 prefixes acknowledged, snapshots installed, commits followed; and snapshots taken locally.
 */
module FollowerSteps {
  import opened Types
  import opened LogStore
  import opened Protocol
  import opened FollowerMerge
  import opened Ledger
  import opened LedgerSteps
  import opened NodeInvariant
  import opened LeaderSteps
  import opened ElectionSteps

  // ---- a fixed membership ------------------------------------------------

  lemma {:induction false} NoConfigFound(log: Log, i: Index)
    requires forall k :: 0 <= k < |log.entries| ==> log.entries[k].kind == Normal
    ensures ScanConfig(log, i) == None
  {
    if i > log.base { NoConfigFound(log, i - 1); }
  }

  /** While the voter set is fixed no log holds a configuration entry. */
  lemma LogIsNormal(log: Log, full: seq<LogEntry>, g: Ledger)
    requires LedShape(g) && Consistent(full, g.led) && Window(log, full)
    ensures forall k :: 0 <= k < |log.entries| ==> log.entries[k].kind == Normal
  {
    forall k | 0 <= k < |log.entries| ensures log.entries[k].kind == Normal {
      var i := log.base + k;
      assert log.entries[k] == full[i];
      assert Agree(full, g.led[full[i].term], i + 1);
    }
  }

  lemma NodeLogIsNormal(n: Node, roster: seq<NodeId>, g: Ledger)
    requires Inv(g) && NodeOk(n, roster, g)
    ensures forall k :: 0 <= k < |n.log.entries| ==> n.log.entries[k].kind == Normal
  {
    hide Inv, NodeOk, Window, Consistent, LedShape, Domains, TermsBounded, Elections, LeaderLogs, AckHeld,
         AckKept, VoteKept, Complete, CommitsHeld;
    InvParts(g);
    NodeFacts(n, roster, g);
    LogIsNormal(n.log, g.full[n.id], g);
  }

  lemma RefreshOk(e: Effect, roster: seq<NodeId>, g: Ledger)
    requires Inv(g) && EffectOk(e, roster, g)
    ensures EffectOk(RefreshConfig(e), roster, g)
    ensures SameCore(e.node, RefreshConfig(e).node) && RefreshConfig(e).node.role == e.node.role
    ensures RefreshConfig(e).actions == e.actions
  {
    hide Inv, ActionsOk, CandidateOk, RebuildProgress, Window, Covered, RowOk, Durable, Voted, Holds;
    NodeLogIsNormal(e.node, roster, g);
    NoConfigFound(e.node.log, e.node.log.LastIndex());
    assert RefreshConfig(e).node == if e.node.role == Leader then RebuildProgress(e.node) else e.node;
    RebuildKeepsCore(e.node);
    if e.node.role == Leader { RebuiltOk(e.node, roster, g); }
  }

  lemma RebuildKeepsCore(n: Node)
    ensures SameCore(n, RebuildProgress(n)) && RebuildProgress(n).role == n.role
  {
  }

  // ---- accepting ---------------------------------------------------------

  /** `m` is `n` with another log, and perhaps other indices. */
  ghost predicate Relogged(n: Node, m: Node, roster: seq<NodeId>, g: Ledger) {
    && m.id == n.id && m.voters == n.voters && m.baseConfig == roster && m.configIndex == n.configIndex
    && m.params == n.params && m.term == n.term && m.votedFor == n.votedFor && m.log.hard == n.log.hard
    && (m.log.base > 0 ==> m.log.data.Some?)
    && (m.log.data.Some? ==> m.log.snapshotConfig == roster)
    && (m.log.data.Some? ==> (m.log.base, m.log.baseTerm, m.log.data.value) in g.taken)
  }

  ghost predicate MayAccept(n: Node, full: seq<LogEntry>, k: nat, g: Ledger) {
    && n.id in g.full && n.term in g.led && n.term in g.elected && g.elected[n.term] != n.id
    && Consistent(full, g.led) && TermsAtMost(full, n.term)
    && Agree(g.led[n.term], full, k)
    && KeepsAgreement(g.led[n.term], g.full[n.id], full)
  }

  ghost predicate FitsLog(m: Node, full: seq<LogEntry>, g: Ledger) {
    && Window(m.log, full)
    && m.log.base <= m.commit <= |full| && m.log.base <= m.applied <= |full|
    && Covered(g, m.term, full, m.commit) && Covered(g, m.term, full, m.applied)
  }

  lemma AcceptFits(n: Node, m: Node, full: seq<LogEntry>, k: nat, roster: seq<NodeId>, g: Ledger)
    returns (h: Ledger)
    requires Inv(g) && NodeOk(n, roster, g) && m.role == Follower
    requires Relogged(n, m, roster, g) && MayAccept(n, full, k, g) && FitsLog(m, full, g)
    ensures Inv(h) && Moved(g, h, n.id) && NodeOk(m, roster, h)
    ensures k <= Acked(h, n.id, n.term) && h.led == g.led && h.elected == g.elected && h.term == g.term
    ensures n.id in h.full && h.full[n.id] == full
  {
    hide Inv, Window, Covered, OnlyNode, KeepsCovered, AcksNow, GrowsNodes, GrowsVotes, GrowsLogs, IsRoster,
         CandidateOk, LeaderOk, Consistent, TermsAtMost, KeepsAgreement;
    NodeFacts(n, roster, g);
    var a := if Acked(g, n.id, n.term) < k then k else Acked(g, n.id, n.term);
    h := g.(full := g.full[n.id := full], acked := g.acked[(n.id, n.term) := a]);
    AcceptMoves(g, h, n.id, full, k);
    CoveredStays(g, h, n.term, n.term, full, m.commit);
    CoveredStays(g, h, n.term, n.term, full, m.applied);
  }

  /** What a node has committed or applied survives whatever keeps its agreement with its leader. */
  lemma IndicesSurvive(n: Node, full: seq<LogEntry>, k: nat, roster: seq<NodeId>, g: Ledger)
    requires Inv(g) && NodeOk(n, roster, g) && MayAccept(n, full, k, g)
    ensures n.commit <= |full| && Covered(g, n.term, full, n.commit)
    ensures n.applied <= |full| && Covered(g, n.term, full, n.applied)
  {
    hide Inv, NodeOk, Window, Covered, Consistent, TermsAtMost;
    NodeFacts(n, roster, g);
    CoveredIsLed(g, n.term, g.full[n.id], n.commit);
    CoveredIsLed(g, n.term, g.full[n.id], n.applied);
    var led := g.led[n.term];
    assert Agree(led, g.full[n.id], n.commit) && Agree(led, g.full[n.id], n.applied);
    assert Agree(led, full, n.commit) && Agree(led, full, n.applied);
    CoveredMoves(g, n.term, g.full[n.id], full, n.commit);
    CoveredMoves(g, n.term, g.full[n.id], full, n.applied);
  }

  /** A node's log is consistent and within its term. */
  lemma OwnLog(n: Node, roster: seq<NodeId>, g: Ledger)
    requires Inv(g) && NodeOk(n, roster, g)
    ensures n.id in g.full && Consistent(g.full[n.id], g.led) && TermsAtMost(g.full[n.id], n.term)
  {
    hide Inv, NodeOk, Consistent, TermsAtMost, Domains, LedShape, Elections, LeaderLogs, AckHeld, AckKept,
         VoteKept, Complete, CommitsHeld, Window, Covered;
    InvParts(g);
    NodeFacts(n, roster, g);
  }

  /** A term's log is consistent, indexed from 1, and within its term. */
  lemma LedLog(g: Ledger, t: Term)
    requires Inv(g) && t in g.led
    ensures Consistent(g.led[t], g.led) && TermsAtMost(g.led[t], t)
    ensures forall i :: 0 <= i < |g.led[t]| ==> g.led[t][i].index == i + 1
  {
    hide Inv, Consistent, Domains, TermsBounded, Elections, LeaderLogs, AckHeld, AckKept, VoteKept, Complete,
         CommitsHeld;
    InvParts(g);
  }

  lemma PrefixConsistent(log: seq<LogEntry>, k: nat, t: Term, g: Ledger)
    requires Consistent(log, g.led) && TermsAtMost(log, t) && k <= |log|
    ensures Consistent(log[..k], g.led) && TermsAtMost(log[..k], t)
  {
    forall i | 0 <= i < k
      ensures log[..k][i].term in g.led && Agree(log[..k], g.led[log[..k][i].term], i + 1)
    {
      assert Agree(log, g.led[log[i].term], i + 1);
    }
  }

  // ---- acknowledging a compacted prefix ----------------------------------

  /** A follower may acknowledge what it has committed: its leader has it too. */
  lemma AckCommitted(n: Node, k: nat, roster: seq<NodeId>, g: Ledger) returns (h: Ledger)
    requires Inv(g) && NodeOk(n, roster, g) && n.role == Follower
    requires n.term in g.led && n.term in g.elected && g.elected[n.term] != n.id
    requires k <= n.commit
    ensures Inv(h) && Moved(g, h, n.id) && NodeOk(n, roster, h)
    ensures k <= Acked(h, n.id, n.term) && h.led == g.led && h.elected == g.elected && h.term == g.term
  {
    hide Inv, Window, Covered, OnlyNode, KeepsCovered, AcksNow, GrowsNodes, GrowsVotes, GrowsLogs, IsRoster,
         Consistent, TermsAtMost, Durable, Voted;
    NodeFacts(n, roster, g);
    OwnLog(n, roster, g);
    CoveredShorter(g, n.term, g.full[n.id], n.commit, k);
    CoveredIsLed(g, n.term, g.full[n.id], k);
    h := AcceptFits(n, n, g.full[n.id], k, roster, g);
  }

  // ---- following the leader's commit index -------------------------------

  lemma FollowCommitOk(e: Effect, leaderCommit: Index, covered: Index, roster: seq<NodeId>, g: Ledger)
    requires Inv(g) && EffectOk(e, roster, g) && e.node.id in g.full
    requires e.node.log.base <= covered <= |g.full[e.node.id]|
    requires Covered(g, e.node.term, g.full[e.node.id], Min(leaderCommit, covered))
    ensures EffectOk(FollowCommit(e, leaderCommit, covered), roster, g)
    ensures var m := FollowCommit(e, leaderCommit, covered).node;
            m.id == e.node.id && m.term == e.node.term && m.role == e.node.role
  {
    hide Inv, NodeOk, ActionsOk, Covered, Window, DrainApplies;
    var n := e.node;
    NodeFacts(n, roster, g);
    if leaderCommit > n.commit {
      IndicesMove(n, Min(leaderCommit, covered), n.applied, roster, g);
      DrainOk(e.(node := n.(commit := Min(leaderCommit, covered))), roster, g);
    }
  }

  // ---- merging -----------------------------------------------------------

  /** The uncompacted log after a merge: as it was, or the leader's through the batch's last index. */
  ghost function MergedFull(log: Log, full: seq<LogEntry>, led: seq<LogEntry>, batch: seq<LogEntry>, prev: Index)
    : seq<LogEntry>
    requires prev + |batch| <= |led|
  {
    if FirstUnmatched(log, batch, 0) == |batch| then full else led[..prev + |batch|]
  }

  /** Where `prev` matches, the logs agree through it and through the matched part of the batch. */
  lemma MatchedAgree(log: Log, full: seq<LogEntry>, led: seq<LogEntry>, batch: seq<LogEntry>, prev: Index, g: Ledger)
    requires Consistent(full, g.led) && Consistent(led, g.led) && Window(log, full)
    requires log.base <= prev <= |full| && prev <= |led| && TermOf(full, prev) == TermOf(led, prev)
    requires Stretch(batch, led, prev) && Follows(batch, prev)
    ensures prev + FirstUnmatched(log, batch, 0) <= |full|
    ensures Agree(led, full, prev + FirstUnmatched(log, batch, 0))
  {
    hide Consistent;
    var k := FirstUnmatched(log, batch, 0);
    UnmatchedReach(log, batch, prev);
    WindowReads(log, full, prev + k);
    if k > 0 {
      assert log.TermAt(batch[k - 1].index) == Some(batch[k - 1].term);
      SameTermAgree(g, led, full, prev + k - 1, prev + k - 1);
    } else if prev > 0 {
      SameTermAgree(g, led, full, prev - 1, prev - 1);
    }
  }

  lemma ReplacedWindow(log: Log, full: seq<LogEntry>, led: seq<LogEntry>, batch: seq<LogEntry>, prev: Index, k: nat)
    requires Window(log, full) && log.base <= prev && prev + k <= |full|
    requires Stretch(batch, led, prev) && k <= |batch| && Agree(led, full, prev + k)
    ensures Window(log.(entries := log.entries[..prev + k - log.base] + batch[k..]), led[..prev + |batch|])
  {
  }

  lemma ReplacedKeeps(log: Log, full: seq<LogEntry>, led: seq<LogEntry>, batch: seq<LogEntry>, prev: Index)
    requires Window(log, full) && log.base <= prev <= |full| && Stretch(batch, led, prev) && Follows(batch, prev)
    requires FirstUnmatched(log, batch, 0) < |batch|
    ensures KeepsAgreement(led, full, led[..prev + |batch|])
  {
    hide FirstUnmatched;
    var k := FirstUnmatched(log, batch, 0);
    WindowReads(log, full, prev + k + 1);
    UnmatchedReach(log, batch, prev);
    forall j: nat | Agree(led, full, j) ensures Agree(led, led[..prev + |batch|], j) {
      assert j <= prev + k;
    }
  }

  lemma MergedLedger(log: Log, full: seq<LogEntry>, led: seq<LogEntry>, batch: seq<LogEntry>, prev: Index)
    requires Window(log, full) && log.base <= prev <= |full| && Stretch(batch, led, prev) && Follows(batch, prev)
    requires prev + |batch| <= |led|
    requires prev + FirstUnmatched(log, batch, 0) <= |full|
    requires Agree(led, full, prev + FirstUnmatched(log, batch, 0))
    ensures var after := MergedFull(log, full, led, batch, prev);
            && Window(AppendFromLeader(log, batch).log, after)
            && Agree(led, after, prev + |batch|)
            && KeepsAgreement(led, full, after)
  {
    hide AppendFromLeader, FirstUnmatched, Window, KeepsAgreement, Stretch, Follows;
    WindowReads(log, full, prev);
    MergeShape(log, batch, prev);
    var k := FirstUnmatched(log, batch, 0);
    if k < |batch| {
      ReplacedWindow(log, full, led, batch, prev, k);
      ReplacedKeeps(log, full, led, batch, prev);
    } else {
      KeepsItself(led, full);
    }
  }

  lemma KeepsItself(led: seq<LogEntry>, full: seq<LogEntry>)
    ensures KeepsAgreement(led, full, full)
  {
  }

  lemma StretchFollows(batch: seq<LogEntry>, led: seq<LogEntry>, prev: Index)
    requires Stretch(batch, led, prev) && batch != []
    requires forall i :: 0 <= i < |led| ==> led[i].index == i + 1
    ensures Follows(batch, prev) && prev + |batch| <= |led|
  {
  }

  lemma MergeAccepted(n: Node, ae: Message, roster: seq<NodeId>, g: Ledger) returns (full: seq<LogEntry>)
    requires Inv(g) && NodeOk(n, roster, g)
    requires ae.AppendEntries? && PacketOk(n.id, ae, roster, g) && ae.term == n.term && ae.entries != []
    requires n.log.base <= ae.prevLogIndex && n.log.TermAt(ae.prevLogIndex) == Some(ae.prevLogTerm)
    ensures var m := AppendFromLeader(n.log, ae.entries);
            && m.result.Ok? && m.result.value.0 == ae.prevLogIndex + |ae.entries|
            && Window(m.log, full) && m.log == n.log.(entries := m.log.entries)
    ensures MayAccept(n, full, ae.prevLogIndex + |ae.entries|, g)
  {
    hide Inv, NodeOk, Consistent, TermsAtMost, Covered, KeepsAgreement, FirstUnmatched, AppendFromLeader,
         Stretch, Follows, Window, Agree;
    var led := g.led[n.term];
    NodeFacts(n, roster, g);
    OwnLog(n, roster, g);
    LedLog(g, n.term);
    WindowReads(n.log, g.full[n.id], ae.prevLogIndex);
    StretchFollows(ae.entries, led, ae.prevLogIndex);
    MatchedAgree(n.log, g.full[n.id], led, ae.entries, ae.prevLogIndex, g);
    MergeShape(n.log, ae.entries, ae.prevLogIndex);
    MergedLedger(n.log, g.full[n.id], led, ae.entries, ae.prevLogIndex);
    PrefixConsistent(led, ae.prevLogIndex + |ae.entries|, n.term, g);
    full := MergedFull(n.log, g.full[n.id], led, ae.entries, ae.prevLogIndex);
  }

  lemma MergeFits(n: Node, ae: Message, roster: seq<NodeId>, g: Ledger) returns (h: Ledger)
    requires Inv(g) && NodeOk(n, roster, g) && n.role == Follower
    requires ae.AppendEntries? && PacketOk(n.id, ae, roster, g) && ae.term == n.term && ae.entries != []
    requires n.log.base <= ae.prevLogIndex && n.log.TermAt(ae.prevLogIndex) == Some(ae.prevLogTerm)
    ensures var m := AppendFromLeader(n.log, ae.entries);
            var k := ae.prevLogIndex + |ae.entries|;
            && m.result.Ok? && m.result.value.0 == k && k <= m.log.LastIndex() && m.log.base == n.log.base
            && Inv(h) && Moved(g, h, n.id) && NodeOk(n.(log := m.log), roster, h)
            && k <= Acked(h, n.id, n.term) && h.led == g.led && h.elected == g.elected
            && n.id in h.full && Agree(h.led[n.term], h.full[n.id], k)
  {
    hide Inv, AppendFromLeader, Durable, Voted, CandidateOk, LeaderOk, Window, Covered, IsRoster, OnlyNode,
         KeepsCovered, AcksNow, GrowsNodes, GrowsVotes, GrowsLogs, Consistent, TermsAtMost, KeepsAgreement,
         Stretch;
    var full := MergeAccepted(n, ae, roster, g);
    var k := ae.prevLogIndex + |ae.entries|;
    var m := n.(log := AppendFromLeader(n.log, ae.entries).log);
    WindowReads(m.log, full, k);
    IndicesSurvive(n, full, k, roster, g);
    h := AcceptFits(n, m, full, k, roster, g);
  }

  /** Acknowledging a matching `prev` with nothing to merge. */
  lemma HeartbeatFits(n: Node, ae: Message, roster: seq<NodeId>, g: Ledger) returns (h: Ledger)
    requires Inv(g) && NodeOk(n, roster, g) && n.role == Follower
    requires ae.AppendEntries? && PacketOk(n.id, ae, roster, g) && ae.term == n.term
    requires n.log.base <= ae.prevLogIndex && n.log.TermAt(ae.prevLogIndex) == Some(ae.prevLogTerm)
    ensures Inv(h) && Moved(g, h, n.id) && NodeOk(n, roster, h)
    ensures ae.prevLogIndex <= Acked(h, n.id, n.term) && h.led == g.led && h.elected == g.elected
    ensures n.id in h.full && Agree(h.led[n.term], h.full[n.id], ae.prevLogIndex)
    ensures ae.prevLogIndex <= n.log.LastIndex()
  {
    hide Inv, Durable, Voted, CandidateOk, LeaderOk, Covered, IsRoster, OnlyNode, KeepsCovered, AcksNow,
         GrowsNodes, GrowsVotes, GrowsLogs, Consistent, TermsAtMost, KeepsAgreement, Window;
    var k := ae.prevLogIndex;
    NodeFacts(n, roster, g);
    OwnLog(n, roster, g);
    LedLog(g, n.term);
    WindowReads(n.log, g.full[n.id], k);
    if k > 0 { SameTermAgree(g, g.led[n.term], g.full[n.id], k - 1, k - 1); }
    KeepsItself(g.led[n.term], g.full[n.id]);
    h := AcceptFits(n, n, g.full[n.id], k, roster, g);
  }

  /** The leader's commit index, as far as the append covers it, is covered in the follower's log. */
  lemma LeaderCommitCovered(n: Node, leaderCommit: Index, k: Index, g: Ledger)
    requires n.term in g.led && Covered(g, n.term, g.led[n.term], leaderCommit)
    requires n.id in g.full && Agree(g.led[n.term], g.full[n.id], k)
    ensures Covered(g, n.term, g.full[n.id], Min(leaderCommit, k))
  {
    hide Covered;
    CoveredShorter(g, n.term, g.led[n.term], leaderCommit, Min(leaderCommit, k));
    CoveredMoves(g, n.term, g.led[n.term], g.full[n.id], Min(leaderCommit, k));
  }

  /** After the log is merged: the membership, the commit index and the acknowledgement. */
  lemma MergedTail(e: Effect, ae: Message, k: Index, refresh: bool, roster: seq<NodeId>, g: Ledger)
    requires Inv(g) && EffectOk(e, roster, g) && ae.AppendEntries? && e.node.term in g.led
    requires Covered(g, e.node.term, g.led[e.node.term], ae.leaderCommit) && k <= Acked(g, e.node.id, e.node.term)
    requires e.node.id in g.full && Agree(g.led[e.node.term], g.full[e.node.id], k)
    requires e.node.log.base <= k
    ensures var e1 := if refresh then RefreshConfig(e) else e;
            var r := Emit(FollowCommit(e1, ae.leaderCommit, k),
                          Send(ae.leader, AppendEntriesReply(e.node.term, true, e.node.id, k, 0, 0)));
            EffectOk(r, roster, g) && r.node.id == e.node.id
  {
    hide Inv, NodeOk, ActionsOk, Covered, RefreshConfig, FollowCommit, Window, Acked;
    if refresh { RefreshOk(e, roster, g); }
    var e1 := if refresh then RefreshConfig(e) else e;
    LeaderCommitCovered(e1.node, ae.leaderCommit, k, g);
    FollowCommitOk(e1, ae.leaderCommit, k, roster, g);
    ActionsAppend(FollowCommit(e1, ae.leaderCommit, k).actions,
                  Send(ae.leader, AppendEntriesReply(e.node.term, true, e.node.id, k, 0, 0)), roster, g);
  }

  lemma MergeBatchOk(e: Effect, ae: Message, roster: seq<NodeId>, g: Ledger) returns (h: Ledger)
    requires Inv(g) && EffectOk(e, roster, g) && e.node.role == Follower
    requires ae.AppendEntries? && PacketOk(e.node.id, ae, roster, g) && ae.term == e.node.term
    requires e.node.log.base <= ae.prevLogIndex
    requires e.node.log.TermAt(ae.prevLogIndex) == Some(ae.prevLogTerm)
    ensures Inv(h) && Moved(g, h, e.node.id) && MergeBatch(e, ae).Done?
    ensures EffectOk(MergeBatch(e, ae).effect, roster, h) && MergeBatch(e, ae).effect.node.id == e.node.id
  {
    hide Inv, NodeOk, ActionsOk, Covered, RefreshConfig, FollowCommit, Window, Acked, AppendFromLeader,
         OnlyNode, KeepsCovered, AcksNow, GrowsNodes, GrowsVotes, GrowsLogs, Stretch, HasConfigEntry, Agree;
    var n := e.node;
    if ae.entries == [] {
      h := HeartbeatFits(n, ae, roster, g);
      ActionsStay(e.actions, roster, g, h);
      CoveredStays(g, h, n.term, n.term, g.led[n.term], ae.leaderCommit);
      MergedTail(e, ae, ae.prevLogIndex, HasConfigEntry(ae.entries), roster, h);
    } else {
      var m := AppendFromLeader(n.log, ae.entries);
      h := MergeFits(n, ae, roster, g);
      ActionsStay(e.actions, roster, g, h);
      CoveredStays(g, h, n.term, n.term, g.led[n.term], ae.leaderCommit);
      MergedTail(e.(node := n.(log := m.log)), ae, m.result.value.0,
                 m.result.value.1 || HasConfigEntry(ae.entries), roster, h);
    }
  }

  // ---- the handlers ------------------------------------------------------

  lemma CompactedPrefixOk(e: Effect, ae: Message, roster: seq<NodeId>, g: Ledger) returns (h: Ledger)
    requires Inv(g) && EffectOk(e, roster, g) && e.node.role == Follower
    requires ae.AppendEntries? && PacketOk(e.node.id, ae, roster, g) && ae.term == e.node.term
    ensures var n := e.node;
            var r := Emit(FollowCommit(e, ae.leaderCommit, n.log.base),
                          Send(ae.leader, AppendEntriesReply(n.term, true, n.id, n.log.base, 0, 0)));
            Inv(h) && Moved(g, h, n.id) && EffectOk(r, roster, h) && r.node.id == n.id
  {
    hide Inv, NodeOk, ActionsOk, Covered, FollowCommit, Window, Acked, OnlyNode, KeepsCovered, AcksNow,
         GrowsNodes, GrowsVotes, GrowsLogs, Stretch, Agree;
    var n := e.node;
    NodeFacts(n, roster, g);
    h := AckCommitted(n, n.log.base, roster, g);
    NodeFacts(n, roster, h);
    ActionsStay(e.actions, roster, g, h);
    CoveredShorter(h, n.term, h.full[n.id], n.commit, Min(ae.leaderCommit, n.log.base));
    FollowCommitOk(e, ae.leaderCommit, n.log.base, roster, h);
    ActionsAppend(FollowCommit(e, ae.leaderCommit, n.log.base).actions,
                  Send(ae.leader, AppendEntriesReply(n.term, true, n.id, n.log.base, 0, 0)), roster, h);
  }

  lemma HandleAppendEntriesOk(e: Effect, ae: Message, draw: nat, roster: seq<NodeId>, g: Ledger)
    returns (h: Ledger)
    requires Inv(g) && EffectOk(e, roster, g) && ae.AppendEntries? && ae.term <= e.node.term
    requires PacketOk(e.node.id, ae, roster, g)
    ensures Inv(h) && Moved(g, h, e.node.id) && HandleAppendEntries(e, ae, draw).Done?
    ensures EffectOk(HandleAppendEntries(e, ae, draw).effect, roster, h)
    ensures HandleAppendEntries(e, ae, draw).effect.node.id == e.node.id
  {
    hide Inv, NodeOk, ActionsOk, FollowCommit, OnlyNode, KeepsCovered, AcksNow, GrowsNodes, GrowsVotes,
         GrowsLogs, MergeBatch, FromLeader, Stretch, Rejection;
    if ae.term < e.node.term {
      h := g;
      StillMoved(g, e.node.id);
      ActionsAppend(e.actions, Send(ae.leader, AppendEntriesReply(e.node.term, false, e.node.id, 0, 0, 0)), roster, g);
    } else {
      var n := Recognise(e.node, ae.leader, draw);
      FollowerOk(e.node, n, roster, g);
      var e1 := e.(node := n);
      if ae.prevLogIndex < n.log.base {
        h := CompactedPrefixOk(e1, ae, roster, g);
      } else if n.log.TermAt(ae.prevLogIndex) != Some(ae.prevLogTerm) {
        h := g;
        StillMoved(g, n.id);
        RejectionOk(n, ae.prevLogIndex, ae.leader, roster, g);
        ActionsAppend(e.actions, Send(ae.leader, Rejection(n, ae.prevLogIndex)), roster, g);
      } else {
        h := MergeBatchOk(e1, ae, roster, g);
      }
    }
  }

  lemma RejectionOk(n: Node, prev: Index, to: NodeId, roster: seq<NodeId>, g: Ledger)
    ensures PacketOk(to, Rejection(n, prev), roster, g)
  {
  }

  // ---- installing a snapshot ---------------------------------------------

  /** The uncompacted log after a snapshot of the leader's first `i` entries is installed. */
  ghost function InstalledFull(full: seq<LogEntry>, led: seq<LogEntry>, i: Index): seq<LogEntry>
    requires i <= |led|
  {
    if i <= |full| && TermOf(full, i) == TermOf(led, i) then full else led[..i]
  }

  lemma InstalledWindow(log: Log, full: seq<LogEntry>, led: seq<LogEntry>, s: Snapshot)
    requires Window(log, full) && log.base < s.index <= |led| && s.term == TermOf(led, s.index)
    ensures Window(log.ApplySnapshot(s), InstalledFull(full, led, s.index))
  {
    WindowReads(log, full, s.index);
    if s.index <= |full| && TermOf(full, s.index) == TermOf(led, s.index) {
      assert full[log.base..][s.index - log.base..] == full[s.index..];
    }
  }

  lemma InstalledKeeps(full: seq<LogEntry>, led: seq<LogEntry>, i: Index, g: Ledger)
    requires Consistent(full, g.led) && Consistent(led, g.led) && 1 <= i <= |led|
    ensures Agree(led, InstalledFull(full, led, i), i)
    ensures KeepsAgreement(led, full, InstalledFull(full, led, i))
  {
    hide Consistent;
    if i <= |full| && TermOf(full, i) == TermOf(led, i) {
      SameTermAgree(g, led, full, i - 1, i - 1);
    }
  }

  lemma InstallAccepted(n: Node, s: Snapshot, roster: seq<NodeId>, g: Ledger) returns (full: seq<LogEntry>)
    requires Inv(g) && NodeOk(n, roster, g)
    requires n.term in g.led && n.term in g.elected && g.elected[n.term] != n.id
    requires SnapshotOk(s, n.term, roster, g) && s.index > n.log.base
    ensures Window(n.log.ApplySnapshot(s), full) && MayAccept(n, full, s.index, g)
  {
    hide Inv, NodeOk, Consistent, TermsAtMost, Covered, KeepsAgreement, Window, Agree;
    var led := g.led[n.term];
    NodeFacts(n, roster, g);
    OwnLog(n, roster, g);
    LedLog(g, n.term);
    full := InstalledFull(g.full[n.id], led, s.index);
    InstalledWindow(n.log, g.full[n.id], led, s);
    InstalledKeeps(g.full[n.id], led, s.index, g);
    PrefixConsistent(led, s.index, n.term, g);
  }

  lemma InstalledFits(n: Node, s: Snapshot, roster: seq<NodeId>, g: Ledger) returns (h: Ledger)
    requires Inv(g) && NodeOk(n, roster, g) && n.role == Follower
    requires n.term in g.led && n.term in g.elected && g.elected[n.term] != n.id
    requires SnapshotOk(s, n.term, roster, g) && s.index > n.log.base
    ensures Inv(h) && Moved(g, h, n.id) && NodeOk(Installed(n, s), roster, h)
    ensures s.index <= Acked(h, n.id, n.term) && h.led == g.led && h.elected == g.elected
  {
    hide Inv, Durable, Voted, CandidateOk, LeaderOk, Window, Covered, IsRoster, OnlyNode, KeepsCovered, AcksNow,
         GrowsNodes, GrowsVotes, GrowsLogs, Consistent, TermsAtMost, KeepsAgreement, Agree;
    var full := InstallAccepted(n, s, roster, g);
    CoveredByLeader(n.term, g.led[n.term], full, s.index, g);
    WindowReads(n.log.ApplySnapshot(s), full, s.index);
    h := AcceptFits(n, Installed(n, s), full, s.index, roster, g);
  }

  lemma CoveredByLeader(t: Term, led: seq<LogEntry>, full: seq<LogEntry>, k: Index, g: Ledger)
    requires Covered(g, t, led, k) && Agree(led, full, k)
    ensures Covered(g, t, full, k) && k <= |full|
  {
    hide Covered;
    CoveredMoves(g, t, led, full, k);
  }

  lemma SnapshotRestores(s: Snapshot, t: Term, roster: seq<NodeId>, g: Ledger)
    requires t in g.led && SnapshotOk(s, t, roster, g)
    ensures RestoredOk(g, s.index, s.term) && (s.index, s.term, s.data) in g.taken
  {
    var c :| c in g.commits && CoveredBy(g, t, g.led[t], s.index, c);
    assert RestoredBy(g, s.index, s.term, c);
  }

  lemma InstallOk(e: Effect, s: Snapshot, roster: seq<NodeId>, g: Ledger) returns (h: Ledger)
    requires Inv(g) && EffectOk(e, roster, g) && e.node.role == Follower
    requires e.node.term in g.led && e.node.term in g.elected && g.elected[e.node.term] != e.node.id
    requires SnapshotOk(s, e.node.term, roster, g) && s.index > e.node.log.base
    ensures Inv(h) && Moved(g, h, e.node.id) && EffectOk(Install(e, s), roster, h)
    ensures var m := Install(e, s).node;
            && m.id == e.node.id && m.term == e.node.term && m.role == Follower
            && m.log.base == s.index && m.commit == s.index
    ensures h.led == g.led && h.elected == g.elected
  {
    hide Inv, NodeOk, ActionsOk, OnlyNode, KeepsCovered, AcksNow, GrowsNodes, GrowsVotes, GrowsLogs, SnapshotOk,
         RefreshConfig;
    h := InstalledFits(e.node, s, roster, g);
    ActionsStay(e.actions, roster, g, h);
    SnapshotRestores(s, e.node.term, roster, g);
    ActionStays(RestoreSnapshot(s.index, s.term, s.data), roster, g, h);
    var e1 := e.(node := Installed(e.node, s));
    RefreshOk(e1, roster, h);
    ActionsAppend(RefreshConfig(e1).actions, RestoreSnapshot(s.index, s.term, s.data), roster, h);
  }

  lemma AckSnapshot(e: Effect, leader: NodeId, i: Index, roster: seq<NodeId>, g: Ledger) returns (h: Ledger)
    requires Inv(g) && EffectOk(e, roster, g) && e.node.role == Follower
    requires e.node.term in g.led && e.node.term in g.elected && g.elected[e.node.term] != e.node.id
    ensures var k := Max(e.node.log.base, Min(i, e.node.commit));
            var r := Emit(e, Send(leader, InstallSnapshotReply(e.node.term, e.node.id, k)));
            Inv(h) && Moved(g, h, e.node.id) && EffectOk(r, roster, h) && h.term == g.term
  {
    hide Inv, NodeOk, ActionsOk, OnlyNode, KeepsCovered, AcksNow, GrowsNodes, GrowsVotes, GrowsLogs, Covered,
         Window, Acked;
    var k := Max(e.node.log.base, Min(i, e.node.commit));
    NodeFacts(e.node, roster, g);
    h := AckCommitted(e.node, k, roster, g);
    ActionsStay(e.actions, roster, g, h);
    ActionsAppend(e.actions, Send(leader, InstallSnapshotReply(e.node.term, e.node.id, k)), roster, h);
  }

  lemma HandleInstallSnapshotOk(e: Effect, rpc: Message, draw: nat, roster: seq<NodeId>, g: Ledger)
    returns (h: Ledger)
    requires Inv(g) && EffectOk(e, roster, g) && rpc.InstallSnapshot? && rpc.term <= e.node.term
    requires PacketOk(e.node.id, rpc, roster, g)
    ensures Inv(h) && Moved(g, h, e.node.id)
    ensures EffectOk(HandleInstallSnapshot(e, rpc, draw), roster, h)
    ensures HandleInstallSnapshot(e, rpc, draw).node.id == e.node.id
  {
    hide Inv, NodeOk, ActionsOk, OnlyNode, KeepsCovered, AcksNow, GrowsNodes, GrowsVotes, GrowsLogs, SnapshotOk,
         Install, Moved;
    if rpc.term < e.node.term {
      h := g;
      StillMoved(g, e.node.id);
      ActionsAppend(e.actions, Send(rpc.leader, InstallSnapshotReply(e.node.term, e.node.id, 0)), roster, g);
    } else {
      var e1 := e.(node := Recognise(e.node, rpc.leader, draw));
      FollowerOk(e.node, e1.node, roster, g);
      var s := rpc.snapshot;
      if s.index > e1.node.log.base && s.index > e1.node.commit {
        var h1 := InstallOk(e1, s, roster, g);
        h := AckSnapshot(Install(e1, s), rpc.leader, s.index, roster, h1);
        MovedTransitive(g, h1, h, e.node.id);
      } else {
        h := AckSnapshot(e1, rpc.leader, s.index, roster, g);
      }
    }
  }

  // ---- a snapshot taken locally ------------------------------------------

  lemma CompactedFits(n: Node, s: Snapshot, hintedAt: Index, roster: seq<NodeId>, g: Ledger)
    requires NodeOk(n, roster, g) && n.log.base < s.index <= n.commit && s.index <= n.applied
    requires n.log.TermAt(s.index) == Some(s.term) && s.config == roster && (s.index, s.term, s.data) in g.taken
    ensures NodeOk(n.(baseConfig := roster, log := n.log.ApplySnapshot(s), hintedAt := hintedAt), roster, g)
  {
    hide Covered, RowOk, IsRoster;
    var full := g.full[n.id];
    WindowReads(n.log, full, s.index);
    assert InstalledFull(full, full, s.index) == full;
    InstalledWindow(n.log, full, full, s);
    WindowReads(n.log.ApplySnapshot(s), full, s.index);
  }

  /** The snapshot, if any, that a node takes of its state machine at `index`. */
  function Taken(n: Node, index: Index, data: Bytes): set<(Index, Term, Bytes)> {
    if index <= n.commit && index <= n.applied && index > n.log.base && n.log.TermAt(index).Some?
    then {(index, n.log.TermAt(index).value, data)} else {}
  }

  lemma HandleSnapshotEventOk(n: Node, index: Index, data: Bytes, roster: seq<NodeId>, g: Ledger)
    requires Inv(g) && NodeOk(n, roster, g) && Taken(n, index, data) <= g.taken
    ensures EffectOk(HandleSnapshotEvent(n, index, data), roster, g)
    ensures HandleSnapshotEvent(n, index, data).node.id == n.id
  {
    hide Inv, NodeOk, RefreshConfig, ScanConfig;
    NodeFacts(n, roster, g);
    if index <= n.commit && index <= n.applied && index > n.log.base && n.log.TermAt(index).Some? {
      var term := n.log.TermAt(index).value;
      NodeLogIsNormal(n, roster, g);
      NoConfigFound(n.log, Min(index, n.log.LastIndex()));
      BaseIsRoster(n, roster, g);
      var s := Snapshot(index, term, roster, data);
      CompactedFits(n, s, Max(n.hintedAt, index), roster, g);
      var m := n.(baseConfig := roster, log := n.log.ApplySnapshot(s), hintedAt := Max(n.hintedAt, index));
      RefreshOk(Effect(m, []), roster, g);
    }
  }

  lemma BaseIsRoster(n: Node, roster: seq<NodeId>, g: Ledger)
    requires NodeOk(n, roster, g)
    ensures n.baseConfig == roster
  {
  }
}
