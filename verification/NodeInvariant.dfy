/**
 How one node, and the packets it sends, fit the ledger, while the voter set is fixed.
 */
module NodeInvariant {
  import opened Types
  import opened LogStore
  import opened Protocol
  import opened Ledger
  import opened LedgerSteps

  // ---- windows -----------------------------------------------------------

  ghost function TermOf(full: seq<LogEntry>, i: Index): Term {
    if 0 < i <= |full| then full[i - 1].term else 0
  }

  /** A compacted log is a window onto the uncompacted one: the boundary's term and everything above. */
  ghost predicate Window(log: Log, full: seq<LogEntry>) {
    && log.base <= |full|
    && log.entries == full[log.base..]
    && log.baseTerm == TermOf(full, log.base)
  }

  lemma WindowReads(log: Log, full: seq<LogEntry>, i: Index)
    requires Window(log, full)
    ensures log.LastIndex() == |full|
    ensures log.LastTerm() == LastTermOf(full)
    ensures log.TermAt(i) == if log.base <= i <= |full| then Some(TermOf(full, i)) else None
    ensures log.Entry(i) == if log.base < i <= |full| then Some(full[i - 1]) else None
  {
  }

  // ---- one node ----------------------------------------------------------

  /** The fixed voter set, as each node stores it. */
  ghost predicate IsRoster(roster: seq<NodeId>, servers: set<NodeId>) {
    && Ascending(roster) && |roster| == |servers|
    && forall x :: x in roster <==> x in servers
  }

  ghost predicate Fixed(n: Node, roster: seq<NodeId>, g: Ledger) {
    && n.id in g.servers && IsRoster(roster, g.servers)
    && n.voters == roster && n.baseConfig == roster && n.configIndex == 0
    && n.params.maxBatch >= 1
    && (n.log.base > 0 ==> n.log.data.Some?)
    && (n.log.data.Some? ==> n.log.snapshotConfig == roster)
    && (n.log.data.Some? ==> (n.log.base, n.log.baseTerm, n.log.data.value) in g.taken)
  }

  ghost predicate Durable(n: Node) {
    n.log.hard == HardState(n.term, n.votedFor)
  }

  ghost predicate Voted(n: Node, g: Ledger) {
    && n.id in g.term && g.term[n.id] == n.term
    && (n.votedFor.Some? <==> (n.id, n.term) in g.ballots)
    && (n.votedFor.Some? ==> g.ballots[(n.id, n.term)] == n.votedFor.value)
  }

  ghost predicate Holds(n: Node, g: Ledger) {
    && n.id in g.full && Window(n.log, g.full[n.id])
    && n.log.base <= n.commit <= |g.full[n.id]| && n.log.base <= n.applied <= |g.full[n.id]|
    && Covered(g, n.term, g.full[n.id], n.commit) && Covered(g, n.term, g.full[n.id], n.applied)
  }

  ghost predicate CandidateOk(n: Node, g: Ledger) {
    && (n.id, n.term) in g.cand && n.id in g.full && g.cand[(n.id, n.term)] == g.full[n.id]
    && n.progress == []
    && (n.term in g.elected ==> g.elected[n.term] != n.id)
    && (forall i, j :: 0 <= i < j < |n.votes| ==> n.votes[i] != n.votes[j])
    && (forall v :: v in n.votes ==> (v, n.term) in g.ballots && g.ballots[(v, n.term)] == n.id)
  }

  /** A leader's row for one follower: its match point is real. */
  ghost predicate RowOk(g: Ledger, t: Term, self: NodeId, last: Index, p: Progress) {
    && p.id in g.servers && p.id != self
    && p.matched <= Acked(g, p.id, t)
    && p.matched < p.next <= last + 1
  }

  ghost predicate LeaderOk(n: Node, g: Ledger) {
    && n.term in g.elected && g.elected[n.term] == n.id
    && (forall i, j :: 0 <= i < j < |n.progress| ==> n.progress[i].id != n.progress[j].id)
    && (forall i :: 0 <= i < |n.progress| ==> RowOk(g, n.term, n.id, n.log.LastIndex(), n.progress[i]))
  }

  ghost predicate CoreOk(n: Node, roster: seq<NodeId>, g: Ledger) {
    Fixed(n, roster, g) && Durable(n) && Voted(n, g) && Holds(n, g)
  }

  ghost predicate NodeOk(n: Node, roster: seq<NodeId>, g: Ledger) {
    && CoreOk(n, roster, g)
    && (n.role == Candidate ==> CandidateOk(n, g))
    && (n.role == Leader ==> LeaderOk(n, g))
  }

  /** Everything but the role, timers, votes, progress and other volatile bookkeeping is the same. */
  ghost predicate SameCore(n: Node, m: Node) {
    && n.id == m.id && n.voters == m.voters && n.baseConfig == m.baseConfig
    && n.configIndex == m.configIndex && n.params == m.params && n.log == m.log
    && n.term == m.term && n.votedFor == m.votedFor && n.commit == m.commit && n.applied == m.applied
  }

  lemma CoreStays(n: Node, m: Node, roster: seq<NodeId>, g: Ledger)
    requires CoreOk(n, roster, g) && SameCore(n, m)
    ensures CoreOk(m, roster, g)
  {
  }

  lemma VolatileStays(n: Node, m: Node, roster: seq<NodeId>, g: Ledger)
    requires NodeOk(n, roster, g) && SameCore(n, m)
    requires m.role == n.role && m.votes == n.votes && m.progress == n.progress
    ensures NodeOk(m, roster, g)
  {
    hide CoreOk, RowOk;
    CoreStays(n, m, roster, g);
  }

  /** Moving the commit and applied indices to places that are covered. */
  lemma IndicesMove(n: Node, commit: Index, applied: Index, roster: seq<NodeId>, g: Ledger)
    requires NodeOk(n, roster, g)
    requires n.log.base <= commit <= n.log.LastIndex() && n.log.base <= applied <= n.log.LastIndex()
    requires n.id in g.full && Covered(g, n.term, g.full[n.id], commit) && Covered(g, n.term, g.full[n.id], applied)
    ensures NodeOk(n.(commit := commit, applied := applied), roster, g)
  {
    hide IsRoster, Covered, RowOk;
  }

  /** What a node that fits the ledger can rely on. */
  lemma NodeFacts(n: Node, roster: seq<NodeId>, g: Ledger)
    requires NodeOk(n, roster, g)
    ensures n.id in g.full && n.id in g.term && g.term[n.id] == n.term && n.id in g.servers
    ensures Window(n.log, g.full[n.id]) && n.log.LastIndex() == |g.full[n.id]|
    ensures n.log.base <= n.commit <= n.log.LastIndex() && n.log.base <= n.applied <= n.log.LastIndex()
    ensures Covered(g, n.term, g.full[n.id], n.commit) && Covered(g, n.term, g.full[n.id], n.applied)
    ensures n.params.maxBatch >= 1 && n.voters == roster && n.id in roster
  {
    hide Covered;
  }

  // ---- packets and actions -----------------------------------------------

  /** `batch` is the stretch of `led` just after its first `prev` entries. */
  ghost predicate Stretch(batch: seq<LogEntry>, led: seq<LogEntry>, prev: Index) {
    && prev + |batch| <= |led|
    && forall i :: 0 <= i < |batch| ==> batch[i] == led[prev + i]
  }

  ghost predicate FromLeader(g: Ledger, to: NodeId, t: Term, leader: NodeId) {
    t in g.led && t in g.elected && g.elected[t] == leader && to != leader
  }

  ghost predicate SnapshotOk(s: Snapshot, t: Term, roster: seq<NodeId>, g: Ledger)
    requires t in g.led
  {
    && 1 <= s.index <= |g.led[t]| && s.term == TermOf(g.led[t], s.index)
    && s.config == roster && (s.index, s.term, s.data) in g.taken
    && Covered(g, t, g.led[t], s.index)
  }

  ghost predicate PacketOk(to: NodeId, m: Message, roster: seq<NodeId>, g: Ledger) {
    match m
    case PreVote(_, _, _, _) => true
    case PreVoteReply(_, _, _) => true
    case TimeoutNow(_, _) => true
    case RequestVote(t, c, lastIndex, lastTerm, _) =>
      (c, t) in g.cand && |g.cand[(c, t)]| == lastIndex && LastTermOf(g.cand[(c, t)]) == lastTerm
    case RequestVoteReply(t, granted, from) =>
      granted ==> (from, t) in g.ballots && g.ballots[(from, t)] == to
    case AppendEntries(t, leader, prev, prevTerm, batch, leaderCommit) =>
      && FromLeader(g, to, t, leader)
      && Stretch(batch, g.led[t], prev) && prevTerm == TermOf(g.led[t], prev)
      && leaderCommit <= |g.led[t]| && Covered(g, t, g.led[t], leaderCommit)
    case AppendEntriesReply(t, success, from, matched, _, _) =>
      success ==> matched <= Acked(g, from, t)
    case InstallSnapshot(t, leader, s) =>
      FromLeader(g, to, t, leader) && SnapshotOk(s, t, roster, g)
    case InstallSnapshotReply(t, from, lastIndex) =>
      lastIndex <= Acked(g, from, t)
  }

  ghost predicate AppliedBy(g: Ledger, i: Index, t: Term, command: Bytes, c: (Term, nat)) {
    && c in g.commits && c.0 in g.led && 1 <= i <= c.1 && i <= |g.led[c.0]|
    && g.led[c.0][i - 1] == LogEntry(t, i, Normal, command)
  }

  /** An applied command is the committed entry at its index. */
  ghost predicate AppliedOk(g: Ledger, i: Index, t: Term, command: Bytes) {
    exists c :: AppliedBy(g, i, t, command, c)
  }

  ghost predicate RestoredBy(g: Ledger, i: Index, t: Term, c: (Term, nat)) {
    && c in g.commits && c.0 in g.led && 1 <= i <= c.1 && i <= |g.led[c.0]|
    && g.led[c.0][i - 1].term == t
  }

  /** A restored snapshot ends at a committed entry. */
  ghost predicate RestoredOk(g: Ledger, i: Index, t: Term) {
    exists c :: RestoredBy(g, i, t, c)
  }

  ghost predicate ActionOk(a: Action, roster: seq<NodeId>, g: Ledger) {
    match a
    case Send(to, m) => PacketOk(to, m, roster, g)
    case Apply(i, t, command) => AppliedOk(g, i, t, command)
    case SnapshotHint(_, _) => true
    case RestoreSnapshot(i, t, data) => RestoredOk(g, i, t) && (i, t, data) in g.taken
    case MembershipChanged(_) => true
  }

  ghost predicate ActionsOk(actions: seq<Action>, roster: seq<NodeId>, g: Ledger) {
    forall a :: a in actions ==> ActionOk(a, roster, g)
  }

  ghost predicate EffectOk(e: Effect, roster: seq<NodeId>, g: Ledger) {
    NodeOk(e.node, roster, g) && ActionsOk(e.actions, roster, g)
  }

  // ---- growth preserves all of it ----------------------------------------

  lemma AckedGrows(g: Ledger, h: Ledger, v: NodeId, t: Term)
    requires GrowsLogs(g, h)
    ensures Acked(g, v, t) <= Acked(h, v, t)
  {
  }

  /** What is covered in a term's log stays covered as the log grows. */
  lemma LedCovered(g: Ledger, h: Ledger, t: Term, c: Index)
    requires GrowsVotes(g, h) && GrowsLogs(g, h) && t in g.led && c <= |g.led[t]| && Covered(g, t, g.led[t], c)
    ensures t in h.led && g.led[t] <= h.led[t] && Covered(h, t, h.led[t], c) && g.taken <= h.taken
  {
    hide Covered;
    LedGrows(g, h, t);
    CoveredStays(g, h, t, t, g.led[t], c);
    CoveredMoves(h, t, g.led[t], h.led[t], c);
  }

  lemma PacketStays(to: NodeId, m: Message, roster: seq<NodeId>, g: Ledger, h: Ledger)
    requires GrowsVotes(g, h) && GrowsLogs(g, h) && PacketOk(to, m, roster, g)
    ensures PacketOk(to, m, roster, h)
  {
    hide Covered, GrowsLogs;
    match m
    case RequestVote(_, _, _, _, _) =>
    case AppendEntries(t, _, _, _, _, c) => LedCovered(g, h, t, c);
    case InstallSnapshot(t, _, s) => LedCovered(g, h, t, s.index);
    case AppendEntriesReply(t, _, from, _, _, _) => AckedGrows(g, h, from, t);
    case InstallSnapshotReply(t, from, _) => AckedGrows(g, h, from, t);
    case _ =>
  }

  lemma LedGrows(g: Ledger, h: Ledger, t: Term)
    requires GrowsLogs(g, h) && t in g.led
    ensures t in h.led && g.led[t] <= h.led[t] && Agree(g.led[t], h.led[t], |g.led[t]|)
  {
  }

  lemma ActionStays(a: Action, roster: seq<NodeId>, g: Ledger, h: Ledger)
    requires GrowsVotes(g, h) && GrowsLogs(g, h) && ActionOk(a, roster, g)
    ensures ActionOk(a, roster, h)
  {
    match a
    case Send(to, m) => PacketStays(to, m, roster, g, h);
    case Apply(i, t, command) => {
      var c :| AppliedBy(g, i, t, command, c);
      LedGrows(g, h, c.0);
      assert AppliedBy(h, i, t, command, c);
    }
    case RestoreSnapshot(i, t, _) => {
      var c :| RestoredBy(g, i, t, c);
      LedGrows(g, h, c.0);
      assert RestoredBy(h, i, t, c);
    }
    case _ =>
  }

  lemma ActionsStay(actions: seq<Action>, roster: seq<NodeId>, g: Ledger, h: Ledger)
    requires Grows(g, h) && ActionsOk(actions, roster, g)
    ensures ActionsOk(actions, roster, h)
  {
    hide GrowsNodes, GrowsVotes, GrowsLogs, ActionOk;
    forall a | a in actions ensures ActionOk(a, roster, h) { ActionStays(a, roster, g, h); }
  }

  lemma ActionsAppend(actions: seq<Action>, a: Action, roster: seq<NodeId>, g: Ledger)
    requires ActionsOk(actions, roster, g) && ActionOk(a, roster, g)
    ensures ActionsOk(actions + [a], roster, g)
  {
    hide ActionOk;
  }

  /** A node fits the ledger still after some other node has moved. */
  lemma NodeStays(n: Node, roster: seq<NodeId>, g: Ledger, h: Ledger, mover: NodeId)
    requires NodeOk(n, roster, g) && n.id != mover && Shifted(g, h, mover)
    ensures NodeOk(n, roster, h)
  {
    hide Fixed, Durable, Voted, Holds, CandidateOk, LeaderOk, Grows, OnlyNode, KeepsCovered;
    NodeStaysStill(n, roster, g, h, mover);
    NodeStaysHolding(n, g, h, mover);
    if n.role == Candidate { CandidateStays(n, g, h, mover); }
    if n.role == Leader { LeaderStays(n, g, h); }
  }

  lemma NodeStaysStill(n: Node, roster: seq<NodeId>, g: Ledger, h: Ledger, mover: NodeId)
    requires Fixed(n, roster, g) && Voted(n, g) && n.id != mover && Shifted(g, h, mover)
    ensures Fixed(n, roster, h) && Voted(n, h)
  {
    hide IsRoster;
  }

  lemma NodeStaysHolding(n: Node, g: Ledger, h: Ledger, mover: NodeId)
    requires Holds(n, g) && n.id != mover && Shifted(g, h, mover)
    ensures Holds(n, h)
  {
    hide Window, Covered, GrowsNodes, GrowsVotes, GrowsLogs;
    CoveredStays(g, h, n.term, n.term, g.full[n.id], n.commit);
    CoveredStays(g, h, n.term, n.term, g.full[n.id], n.applied);
  }

  lemma CandidateStays(n: Node, g: Ledger, h: Ledger, mover: NodeId)
    requires CandidateOk(n, g) && n.id != mover && Shifted(g, h, mover)
    ensures CandidateOk(n, h)
  {
    hide GrowsNodes, GrowsLogs;
  }

  lemma LeaderStays(n: Node, g: Ledger, h: Ledger)
    requires LeaderOk(n, g) && Grows(g, h)
    ensures LeaderOk(n, h)
  {
    forall i | 0 <= i < |n.progress|
      ensures RowOk(h, n.term, n.id, n.log.LastIndex(), n.progress[i])
    {
      AckedGrows(g, h, n.progress[i].id, n.term);
      assert RowOk(g, n.term, n.id, n.log.LastIndex(), n.progress[i]);
    }
  }
}
