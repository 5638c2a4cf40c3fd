/**
 What the protocol promises (docs/PROTOCOL.md, section 10), for every run of every cluster with a
 fixed voter set: whatever is lost, reordered, duplicated, compacted, snapshotted or restarted.

 Every statement here is about runs of the nodes themselves; the ledger appears only in proofs.
 States may be compared across time in either order.
 */
module Safety {
  import opened Types
  import opened LogStore
  import opened Protocol
  import opened Ledger
  import opened LedgerSteps
  import opened NodeInvariant
  import opened LeaderSteps
  import opened FollowerSteps
  import opened HandlerSteps
  import opened Cluster

  // ---- what two compacted logs can both answer ---------------------------

  /** Wherever both logs can answer for index `y`, they answer the same. */
  ghost predicate SameReads(a: Log, b: Log, y: Index) {
    && (a.TermAt(y).Some? && b.TermAt(y).Some? ==> a.TermAt(y) == b.TermAt(y))
    && (a.Entry(y).Some? && b.Entry(y).Some? ==> a.Entry(y) == b.Entry(y))
  }

  lemma WindowsAgree(a: Log, fullA: seq<LogEntry>, b: Log, fullB: seq<LogEntry>, x: Index, y: Index)
    requires Window(a, fullA) && Window(b, fullB) && Agree(fullA, fullB, x) && y <= x
    ensures SameReads(a, b, y)
  {
    hide Window;
    WindowReads(a, fullA, y);
    WindowReads(b, fullB, y);
  }

  // ---- reaching the history ----------------------------------------------

  /** The node `id` in state `i` of a run. */
  ghost predicate At(r: Run, i: nat, id: NodeId, n: Node) {
    i < |r.states| && id in r.states[i].nodes && r.states[i].nodes[id] == n
  }

  lemma NodeRecorded(setup: Setup, r: Run, gs: seq<Ledger>, k: nat, i: nat, id: NodeId, n: Node)
    requires IsHistory(setup, r, gs, k) && i <= k && At(r, i, id, n)
    ensures Inv(gs[i]) && NodeOk(n, RosterOf(setup), gs[i]) && n.id == id
  {
    hide Inv, NodeOk, RosterOf, PacketOk, StepRecorded;
    assert StateRecorded(setup, r, gs, i);
  }

  /** A history that covers the whole run, with its last ledger. */
  lemma WholeHistory(setup: Setup, r: Run) returns (gs: seq<Ledger>)
    requires IsRun(setup, r)
    ensures IsHistory(setup, r, gs, |r.moves|) && |gs| == |r.states| == |r.moves| + 1
    ensures Inv(gs[|r.moves|])
  {
    hide StateRecorded, StepRecorded;
    gs := HistoryOf(setup, r, |r.moves|);
    RunLength(setup, r);
    LastInv(setup, r, gs);
  }

  lemma RunLength(setup: Setup, r: Run)
    requires IsRun(setup, r)
    ensures |r.states| == |r.moves| + 1
  {
    hide Next, Init, ValidSetup;
  }

  lemma LastInv(setup: Setup, r: Run, gs: seq<Ledger>)
    requires IsHistory(setup, r, gs, |r.moves|)
    ensures Inv(gs[|r.moves|])
  {
    hide Inv, NodeOk, PacketOk, RosterOf, StepRecorded;
    assert StateRecorded(setup, r, gs, |r.moves|);
  }

  /** What was emitted anywhere in a run is justified by the run's last ledger. */
  lemma EmittedRecorded(setup: Setup, r: Run, gs: seq<Ledger>, i: nat, a: Action)
    requires IsHistory(setup, r, gs, |r.moves|) && Emits(r, i, a)
    ensures ActionOk(a, RosterOf(setup), gs[|r.moves|])
  {
    hide StateRecorded, ActionOk, RosterOf, Emitted, GrowsNodes, GrowsVotes, GrowsLogs, KeepsCovered, OnlyNode;
    assert StepRecorded(setup, r, gs, i);
    HistoryGrows(setup, r, gs, |r.moves|, i + 1, |r.moves|);
    ActionStays(a, RosterOf(setup), gs[i + 1], gs[|r.moves|]);
  }

  // ---- State Machine Safety ----------------------------------------------

  lemma AppliedSame(g: Ledger, x: Index, t: Term, c: Bytes, u: Term, d: Bytes)
    requires Inv(g) && AppliedOk(g, x, t, c) && AppliedOk(g, x, u, d)
    ensures t == u && c == d
  {
    hide Inv;
    var p :| AppliedBy(g, x, t, c, p);
    var q :| AppliedBy(g, x, u, d, q);
    CommitsAgree(g, p, q, x);
  }

  lemma RestoredSame(g: Ledger, x: Index, t: Term, u: Term, d: Bytes)
    requires Inv(g) && RestoredOk(g, x, t) && AppliedOk(g, x, u, d)
    ensures t == u
  {
    hide Inv;
    var p :| RestoredBy(g, x, t, p);
    var q :| AppliedBy(g, x, u, d, q);
    CommitsAgree(g, p, q, x);
  }

  /** Any two commands ever applied at the same index, by any nodes in any incarnations, are the same
      command from the same term. */
  lemma StateMachineSafety(setup: Setup, r: Run, i: nat, j: nat, x: Index, t: Term, c: Bytes, u: Term, d: Bytes)
    requires IsRun(setup, r) && Emits(r, i, Apply(x, t, c)) && Emits(r, j, Apply(x, u, d))
    ensures t == u && c == d
  {
    hide IsRun, Emits, IsHistory, Inv, RosterOf, AppliedOk;
    var gs := WholeHistory(setup, r);
    EmittedRecorded(setup, r, gs, i, Apply(x, t, c));
    EmittedRecorded(setup, r, gs, j, Apply(x, u, d));
    AppliedSame(gs[|r.moves|], x, t, c, u, d);
  }

  /** A snapshot a node restores ends at the entry every node applies at that index, and what it hands
      over was captured by some node that had applied through that entry. */
  lemma RestoresAreApplied(setup: Setup, r: Run, i: nat, j: nat, x: Index, t: Term, data: Bytes, u: Term, d: Bytes)
    returns (k: nat)
    requires IsRun(setup, r) && Emits(r, i, RestoreSnapshot(x, t, data)) && Emits(r, j, Apply(x, u, d))
    ensures t == u && k < i && TakenAt(r, k, x, u, data)
  {
    hide IsRun, Emits, IsHistory, Inv, RosterOf, AppliedOk, RestoredOk, TakenAt;
    var gs := WholeHistory(setup, r);
    EmittedRecorded(setup, r, gs, i, RestoreSnapshot(x, t, data));
    EmittedRecorded(setup, r, gs, j, Apply(x, u, d));
    RestoredSame(gs[|r.moves|], x, t, u, d);
    k := RestoresAreTaken(setup, r, i, x, t, data);
  }

  /** A snapshot that was restored was taken: in an earlier state the move's node had applied through
      the snapshot's index, had its term there, and was given exactly its data. */
  ghost predicate TakenAt(r: Run, j: nat, x: Index, t: Term, data: Bytes) {
    && j < |r.moves| && j < |r.states| && r.moves[j].Handle? && r.moves[j].event == TakeSnapshot(x, data)
    && r.moves[j].id in r.states[j].nodes
    && var n := r.states[j].nodes[r.moves[j].id];
       x <= n.applied && x <= n.commit && n.log.TermAt(x) == Some(t)
  }

  lemma {:induction false} TakenWhen(setup: Setup, r: Run, gs: seq<Ledger>, i: nat, x: Index, t: Term, data: Bytes)
    returns (j: nat)
    requires IsHistory(setup, r, gs, |r.moves|) && i <= |r.moves| && (x, t, data) in gs[i].taken
    ensures j < i && TakenAt(r, j, x, t, data)
    decreases i
  {
    hide StateRecorded, Shifted, ActionsOk, Emitted, RosterOf;
    if i > 0 {
      assert StepRecorded(setup, r, gs, i - 1);
      if (x, t, data) in gs[i - 1].taken {
        j := TakenWhen(setup, r, gs, i - 1, x, t, data);
      } else {
        j := i - 1;
        MovedRecorded(setup, r, gs, j);
      }
    }
  }

  lemma MovedRecorded(setup: Setup, r: Run, gs: seq<Ledger>, j: nat)
    requires IsHistory(setup, r, gs, |r.moves|) && j < |r.moves|
    ensures j < |r.states| && r.moves[j].id in r.states[j].nodes
  {
    hide StateRecorded, Shifted, ActionsOk, Emitted, RosterOf;
    assert StepRecorded(setup, r, gs, j);
  }

  /** Taking a snapshot restores nothing. */
  lemma TakingRestoresNothing(n: Node, index: Index, data: Bytes, a: Action)
    requires a in HandleSnapshotEvent(n, index, data).actions
    ensures a.MembershipChanged?
  {
    hide EffectiveConfig, ConfigAt, RebuildProgress, Log.ApplySnapshot, Log.TermAt;
  }

  /** A restored snapshot hands over exactly what some node captured of its state machine at that index,
      at an earlier move, having applied through it. */
  lemma RestoresAreTaken(setup: Setup, r: Run, i: nat, x: Index, t: Term, data: Bytes) returns (j: nat)
    requires IsRun(setup, r) && Emits(r, i, RestoreSnapshot(x, t, data))
    ensures j < i && TakenAt(r, j, x, t, data)
  {
    hide IsRun, IsHistory, Inv, RosterOf, RestoredOk, HandleSnapshotEvent;
    var gs := WholeHistory(setup, r);
    EmittedAt(setup, r, gs, i, RestoreSnapshot(x, t, data));
    j := TakenWhen(setup, r, gs, i + 1, x, t, data);
    if j == i {
      var n := r.states[i].nodes[r.moves[i].id];
      TakingRestoresNothing(n, x, data, RestoreSnapshot(x, t, data));
    }
  }

  // ---- Election Safety ---------------------------------------------------

  lemma LeaderElected(n: Node, roster: seq<NodeId>, g: Ledger, h: Ledger)
    requires NodeOk(n, roster, g) && n.role == Leader && GrowsVotes(g, h)
    ensures n.term in h.elected && h.elected[n.term] == n.id
  {
    hide CoreOk, RowOk;
  }

  /** No two nodes are ever leader in the same term, at whatever times. */
  lemma ElectionSafety(setup: Setup, r: Run, i: nat, a: NodeId, n: Node, j: nat, b: NodeId, m: Node)
    requires IsRun(setup, r) && At(r, i, a, n) && At(r, j, b, m)
    requires n.role == Leader && m.role == Leader && n.term == m.term
    ensures a == b
  {
    hide IsRun, IsHistory, Inv, NodeOk, RosterOf, GrowsNodes, GrowsVotes, GrowsLogs, KeepsCovered;
    var k := |r.moves|;
    var gs := WholeHistory(setup, r);
    NodeRecorded(setup, r, gs, k, i, a, n);
    NodeRecorded(setup, r, gs, k, j, b, m);
    HistoryGrows(setup, r, gs, k, i, k);
    HistoryGrows(setup, r, gs, k, j, k);
    LeaderElected(n, RosterOf(setup), gs[i], gs[k]);
    LeaderElected(m, RosterOf(setup), gs[j], gs[k]);
  }

  /** A node grants its vote in a term to one candidate only, at whatever times and however often. */
  lemma OneVotePerTerm(setup: Setup, r: Run, i: nat, j: nat, t: Term, voter: NodeId, a: NodeId, b: NodeId)
    requires IsRun(setup, r)
    requires Emits(r, i, Send(a, RequestVoteReply(t, true, voter)))
    requires Emits(r, j, Send(b, RequestVoteReply(t, true, voter)))
    ensures a == b
  {
    hide IsRun, Emits, IsHistory, Inv, RosterOf;
    var gs := WholeHistory(setup, r);
    EmittedRecorded(setup, r, gs, i, Send(a, RequestVoteReply(t, true, voter)));
    EmittedRecorded(setup, r, gs, j, Send(b, RequestVoteReply(t, true, voter)));
  }

  lemma BallotStands(g: Ledger, h: Ledger, n: Node, roster: seq<NodeId>, t: Term, to: NodeId)
    requires Inv(g) && Grows(g, h) && NodeOk(n, roster, h)
    requires (n.id, t) in g.ballots && g.ballots[(n.id, t)] == to
    ensures t <= n.log.hard.term && (n.log.hard.term == t ==> n.log.hard.votedFor == Some(to))
  {
    hide Inv, LedShape, AllConsistent, TermsBounded, Elections, LeaderLogs, AckHeld, AckKept, VoteKept,
         Complete, CommitsHeld, Covered, Window, CandidateOk, LeaderOk, IsRoster;
    InvParts(g);
  }

  /** A granted vote is on disk when the reply is sent and ever after, through any crash: the voter's
      stored hard state either records it or has moved on to a later term. */
  lemma VotesAreDurable(setup: Setup, r: Run, i: nat, j: nat, t: Term, voter: NodeId, to: NodeId, n: Node)
    requires IsRun(setup, r) && Emits(r, i, Send(to, RequestVoteReply(t, true, voter)))
    requires i < j && At(r, j, voter, n)
    ensures t <= n.log.hard.term && (n.log.hard.term == t ==> n.log.hard.votedFor == Some(to))
  {
    hide IsRun, IsHistory, Inv, NodeOk, RosterOf, Grows, KeepsCovered;
    var k := |r.moves|;
    var gs := WholeHistory(setup, r);
    NodeRecorded(setup, r, gs, k, j, voter, n);
    EmittedAt(setup, r, gs, i, Send(to, RequestVoteReply(t, true, voter)));
    HistoryGrows(setup, r, gs, k, i + 1, j);
    BallotStands(gs[i + 1], gs[j], n, RosterOf(setup), t, to);
  }

  lemma EmittedAt(setup: Setup, r: Run, gs: seq<Ledger>, i: nat, a: Action)
    requires IsHistory(setup, r, gs, |r.moves|) && Emits(r, i, a)
    ensures i + 1 < |gs| && ActionOk(a, RosterOf(setup), gs[i + 1]) && Inv(gs[i + 1])
  {
    hide ActionOk, RosterOf, Emitted, GrowsNodes, GrowsVotes, GrowsLogs, KeepsCovered, OnlyNode, Inv, NodeOk,
         PacketOk;
    assert StepRecorded(setup, r, gs, i);
    assert StateRecorded(setup, r, gs, i + 1);
  }

  // ---- Log Matching ------------------------------------------------------

  /** If two logs, of any nodes at any times, have the same term at some index, they agree on every
      index at or below it that both can still answer for. */
  lemma LogMatching(setup: Setup, r: Run, i: nat, a: NodeId, n: Node, j: nat, b: NodeId, m: Node, x: Index, y: Index)
    requires IsRun(setup, r) && At(r, i, a, n) && At(r, j, b, m)
    requires n.log.TermAt(x).Some? && n.log.TermAt(x) == m.log.TermAt(x) && y <= x
    ensures SameReads(n.log, m.log, y)
  {
    hide IsRun, IsHistory, Inv, NodeOk, RosterOf, GrowsNodes, GrowsVotes, GrowsLogs, KeepsCovered, Window,
         Consistent, Covered, SameReads;
    var k := |r.moves|;
    var gs := WholeHistory(setup, r);
    NodeRecorded(setup, r, gs, k, i, a, n);
    NodeRecorded(setup, r, gs, k, j, b, m);
    HistoryGrows(setup, r, gs, k, i, k);
    HistoryGrows(setup, r, gs, k, j, k);
    LogsMatch(n, gs[i], m, gs[j], gs[k], RosterOf(setup), x, y);
  }

  lemma LogsMatch(n: Node, g: Ledger, m: Node, h: Ledger, last: Ledger, roster: seq<NodeId>, x: Index, y: Index)
    requires Inv(g) && Inv(h) && Grows(g, last) && Grows(h, last)
    requires NodeOk(n, roster, g) && NodeOk(m, roster, h)
    requires n.log.TermAt(x).Some? && n.log.TermAt(x) == m.log.TermAt(x) && y <= x
    ensures SameReads(n.log, m.log, y)
  {
    hide Inv, NodeOk, GrowsNodes, GrowsVotes, GrowsLogs, Window, Consistent, TermsAtMost, Covered, SameReads;
    NodeFacts(n, roster, g);
    NodeFacts(m, roster, h);
    OwnLog(n, roster, g);
    OwnLog(m, roster, h);
    var fn, fm := g.full[n.id], h.full[m.id];
    ConsistentGrows(fn, g, last);
    ConsistentGrows(fm, h, last);
    WindowReads(n.log, fn, x);
    WindowReads(m.log, fm, x);
    if x > 0 { SameTermAgree(last, fn, fm, x - 1, x - 1); }
    WindowsAgree(n.log, fn, m.log, fm, x, y);
  }

  /** If one log has a term at some index and another has that term further on, the other has it at
      that index too: a term's entries are one run, in the same place in every log. */
  lemma TermRunsAlign(setup: Setup, r: Run, i: nat, a: NodeId, n: Node, j: nat, b: NodeId, m: Node, x: Index, y: Index)
    requires IsRun(setup, r) && At(r, i, a, n) && At(r, j, b, m)
    requires 0 < x <= y && n.log.TermAt(x).Some? && n.log.TermAt(x) == m.log.TermAt(y)
    ensures m.log.TermAt(x).Some? ==> m.log.TermAt(x) == n.log.TermAt(x)
  {
    hide IsRun, IsHistory, Inv, NodeOk, RosterOf, GrowsNodes, GrowsVotes, GrowsLogs, KeepsCovered, Window,
         Consistent, Covered;
    var k := |r.moves|;
    var gs := WholeHistory(setup, r);
    NodeRecorded(setup, r, gs, k, i, a, n);
    NodeRecorded(setup, r, gs, k, j, b, m);
    HistoryGrows(setup, r, gs, k, i, k);
    HistoryGrows(setup, r, gs, k, j, k);
    RunsAlign(n, gs[i], m, gs[j], gs[k], RosterOf(setup), x, y);
  }

  lemma RunsAlign(n: Node, g: Ledger, m: Node, h: Ledger, last: Ledger, roster: seq<NodeId>, x: Index, y: Index)
    requires Inv(g) && Inv(h) && Grows(g, last) && Grows(h, last)
    requires NodeOk(n, roster, g) && NodeOk(m, roster, h)
    requires 0 < x <= y && n.log.TermAt(x).Some? && n.log.TermAt(x) == m.log.TermAt(y)
    ensures m.log.TermAt(x).Some? ==> m.log.TermAt(x) == n.log.TermAt(x)
  {
    hide Inv, NodeOk, GrowsNodes, GrowsVotes, GrowsLogs, Window, Consistent, TermsAtMost, Covered;
    NodeFacts(n, roster, g);
    NodeFacts(m, roster, h);
    OwnLog(n, roster, g);
    OwnLog(m, roster, h);
    var fn, fm := g.full[n.id], h.full[m.id];
    ConsistentGrows(fn, g, last);
    ConsistentGrows(fm, h, last);
    WindowReads(n.log, fn, x);
    WindowReads(m.log, fm, y);
    WindowReads(m.log, fm, x);
    SameTermAgree(last, fn, fm, x - 1, y - 1);
  }

  // ---- Leader Completeness -----------------------------------------------

  /** Whatever a node knows to be committed or has applied in its term is in the log of every leader
      of that term or a later one: in its live log or under its snapshot. */
  lemma LeaderCompletes(setup: Setup, r: Run, i: nat, a: NodeId, n: Node, j: nat, b: NodeId, m: Node, x: Index)
    requires IsRun(setup, r) && At(r, i, a, n) && At(r, j, b, m)
    requires m.role == Leader && n.term <= m.term && x <= Max(n.commit, n.applied)
    ensures n.term < m.term ==> x <= m.log.LastIndex()
    ensures x <= m.log.LastIndex() ==> SameReads(n.log, m.log, x)
  {
    hide IsRun, IsHistory, Inv, NodeOk, RosterOf, GrowsNodes, GrowsVotes, GrowsLogs, KeepsCovered, SameReads;
    var k := |r.moves|;
    var gs := WholeHistory(setup, r);
    NodeRecorded(setup, r, gs, k, i, a, n);
    NodeRecorded(setup, r, gs, k, j, b, m);
    HistoryGrows(setup, r, gs, k, i, k);
    HistoryGrows(setup, r, gs, k, j, k);
    LeaderHas(n, gs[i], m, gs[j], gs[k], RosterOf(setup), x);
  }

  lemma CoveredAt(n: Node, roster: seq<NodeId>, g: Ledger, h: Ledger, x: Index)
    requires NodeOk(n, roster, g) && Grows(g, h) && x <= Max(n.commit, n.applied)
    ensures n.id in g.full && Window(n.log, g.full[n.id]) && Covered(h, n.term, g.full[n.id], x)
  {
    hide NodeOk, GrowsNodes, GrowsVotes, GrowsLogs, Window, Covered;
    NodeFacts(n, roster, g);
    var top := Max(n.commit, n.applied);
    CoveredShorter(g, n.term, g.full[n.id], top, x);
    CoveredStays(g, h, n.term, n.term, g.full[n.id], x);
  }

  lemma LeaderHas(n: Node, g: Ledger, m: Node, h: Ledger, last: Ledger, roster: seq<NodeId>, x: Index)
    requires Inv(h) && Inv(last) && Grows(g, last) && Grows(h, last)
    requires NodeOk(n, roster, g) && NodeOk(m, roster, h) && m.role == Leader && n.term <= m.term
    requires x <= Max(n.commit, n.applied)
    ensures n.term < m.term ==> x <= m.log.LastIndex()
    ensures x <= m.log.LastIndex() ==> SameReads(n.log, m.log, x)
  {
    hide Inv, NodeOk, GrowsNodes, GrowsVotes, Window, Covered, SameReads;
    CoveredAt(n, roster, g, last, x);
    NodeFacts(m, roster, h);
    LeaderLog(m, roster, h);
    LedGrows(h, last, m.term);
    CoveredStays(last, last, n.term, m.term, g.full[n.id], x);
    CoveredIsLed(last, m.term, g.full[n.id], x);
    if n.term < m.term { CoveredInStart(h, last, n.term, g.full[n.id], x, m.term); }
    if x <= m.log.LastIndex() { WindowsAgree(n.log, g.full[n.id], m.log, h.full[m.id], x, x); }
  }

  /** What earlier terms committed was in the later leader's log from the start. */
  lemma CoveredInStart(h: Ledger, last: Ledger, t: Term, log: seq<LogEntry>, x: nat, u: Term)
    requires Inv(h) && Inv(last) && Grows(h, last) && Covered(last, t, log, x) && t < u && u in h.led
    ensures x <= |h.led[u]|
  {
    hide Inv, GrowsNodes;
    if x > 0 {
      var c :| c in last.commits && CoveredBy(last, t, log, x, c);
      var (ct, ck) := c;
      LeaderCompleteness(last, ct, ck, u);
      StartWithin(h, u);
      SameStart(h, last, u);
    }
  }

  lemma StartWithin(h: Ledger, u: Term)
    requires Inv(h) && u in h.led
    ensures |StartLog(h, u)| <= |h.led[u]| && u in h.elected && (h.elected[u], u) in h.cand
  {
    hide Inv, AllConsistent, TermsBounded, Elections, LeaderLogs, AckHeld, AckKept, VoteKept, Complete,
         CommitsHeld;
    InvParts(h);
  }

  lemma SameStart(h: Ledger, last: Ledger, u: Term)
    requires GrowsVotes(h, last) && u in h.elected && (h.elected[u], u) in h.cand
    ensures StartLog(last, u) == StartLog(h, u)
  {
  }

  // ---- Leader Append-Only ------------------------------------------------

  /** While a node leads a term its log only grows: it never truncates or rewrites an entry. */
  lemma LeaderAppendOnly(setup: Setup, r: Run, i: nat, j: nat, a: NodeId, n: Node, m: Node, y: Index)
    requires IsRun(setup, r) && i <= j && At(r, i, a, n) && At(r, j, a, m)
    requires n.role == Leader && m.role == Leader && n.term == m.term && y <= n.log.LastIndex()
    ensures n.log.LastIndex() <= m.log.LastIndex() && SameReads(n.log, m.log, y)
  {
    hide IsRun, IsHistory, Inv, NodeOk, RosterOf, GrowsNodes, GrowsVotes, GrowsLogs, KeepsCovered, SameReads,
         Window, Covered;
    var k := |r.moves|;
    var gs := WholeHistory(setup, r);
    NodeRecorded(setup, r, gs, k, i, a, n);
    NodeRecorded(setup, r, gs, k, j, a, m);
    HistoryGrows(setup, r, gs, k, i, j);
    NodeFacts(n, RosterOf(setup), gs[i]);
    NodeFacts(m, RosterOf(setup), gs[j]);
    LeaderLog(n, RosterOf(setup), gs[i]);
    LeaderLog(m, RosterOf(setup), gs[j]);
    LedGrows(gs[i], gs[j], n.term);
    WindowsAgree(n.log, gs[i].full[a], m.log, gs[j].full[a], n.log.LastIndex(), y);
  }

  // ---- acknowledged progress ---------------------------------------------

  /** A leader's recorded match point is real: a follower still in the leader's term holds the
      leader's log through it, whether it acknowledged a batch, a compacted prefix or a snapshot. */
  lemma ProgressIsReal(setup: Setup, r: Run, i: nat, a: NodeId, n: Node, row: nat, m: Node, y: Index)
    requires IsRun(setup, r) && At(r, i, a, n) && n.role == Leader && row < |n.progress|
    requires At(r, i, n.progress[row].id, m) && m.term == n.term && y <= n.progress[row].matched
    ensures n.progress[row].matched <= m.log.LastIndex() && n.progress[row].matched <= n.log.LastIndex()
    ensures SameReads(n.log, m.log, y)
  {
    hide IsRun, IsHistory, Inv, NodeOk, RosterOf, SameReads, Window, Covered;
    var gs := WholeHistory(setup, r);
    NodeRecorded(setup, r, gs, |r.moves|, i, a, n);
    NodeRecorded(setup, r, gs, |r.moves|, i, n.progress[row].id, m);
    NodeFacts(n, RosterOf(setup), gs[i]);
    NodeFacts(m, RosterOf(setup), gs[i]);
    LeaderLog(n, RosterOf(setup), gs[i]);
    RowFacts(n, row, RosterOf(setup), gs[i]);
    AckedIsHeld(gs[i], m.id, n.term, n.progress[row].matched);
    WindowsAgree(n.log, gs[i].full[a], m.log, gs[i].full[m.id], n.progress[row].matched, y);
  }

  lemma AckedIsHeld(g: Ledger, v: NodeId, t: Term, k: nat)
    requires Inv(g) && v in g.term && v in g.full && g.term[v] == t && t in g.led && k <= Acked(g, v, t)
    ensures Agree(g.led[t], g.full[v], k)
  {
    hide Inv, LedShape, AllConsistent, TermsBounded, Elections, LeaderLogs, AckKept, VoteKept, Complete,
         CommitsHeld;
    InvParts(g);
  }

  // ---- compaction --------------------------------------------------------

  /** Compaction never runs ahead of what is committed and applied. */
  lemma CompactionBehind(setup: Setup, r: Run, i: nat, a: NodeId, n: Node)
    requires IsRun(setup, r) && At(r, i, a, n)
    ensures n.log.base <= n.commit <= n.log.LastIndex() && n.log.base <= n.applied <= n.log.LastIndex()
    ensures n.log.Indexed()
  {
    hide IsRun, IsHistory, Inv, NodeOk, RosterOf, Covered;
    var gs := WholeHistory(setup, r);
    NodeRecorded(setup, r, gs, |r.moves|, i, a, n);
    NodeFacts(n, RosterOf(setup), gs[i]);
    FullIndexed(n, RosterOf(setup), gs[i]);
  }

  /** A node whose log has been compacted holds the snapshot that ends at its boundary. */
  lemma BoundaryHasSnapshot(setup: Setup, r: Run, i: nat, a: NodeId, n: Node)
    requires IsRun(setup, r) && At(r, i, a, n) && n.log.base > 0
    ensures n.log.CurrentSnapshot().Some?
    ensures var s := n.log.CurrentSnapshot().value; s.index == n.log.base && s.term == n.log.baseTerm
  {
    hide IsRun, IsHistory, Inv, NodeOk, RosterOf;
    var gs := WholeHistory(setup, r);
    NodeRecorded(setup, r, gs, |r.moves|, i, a, n);
    BaseSnapshot(n, RosterOf(setup), gs[i]);
  }

  lemma FullIndexed(n: Node, roster: seq<NodeId>, g: Ledger)
    requires Inv(g) && NodeOk(n, roster, g)
    ensures n.log.Indexed()
  {
    hide Inv, NodeOk, TermsBounded, Elections, LeaderLogs, AckHeld, AckKept, VoteKept, Complete, CommitsHeld,
         Covered, TermsAtMost, AllConsistent;
    InvParts(g);
    NodeFacts(n, roster, g);
    OwnLog(n, roster, g);
    var full := g.full[n.id];
    forall k | 0 <= k < |n.log.entries| ensures n.log.entries[k].index == n.log.base + k + 1 {
      var i := n.log.base + k;
      assert n.log.entries[k] == full[i];
      assert Agree(full, g.led[full[i].term], i + 1);
    }
  }

  /** A node never loses or changes an entry it knows to be committed or has applied: through
      truncations, snapshots and restarts the log still reaches it and still answers the same. */
  lemma CommittedIsKept(setup: Setup, r: Run, i: nat, j: nat, a: NodeId, n: Node, m: Node, x: Index)
    requires IsRun(setup, r) && i <= j && At(r, i, a, n) && At(r, j, a, m) && x <= Max(n.commit, n.applied)
    ensures x <= m.log.LastIndex() && SameReads(n.log, m.log, x)
  {
    hide IsRun, IsHistory, Inv, NodeOk, RosterOf, SameReads, Window, Covered, GrowsNodes, GrowsVotes, GrowsLogs;
    var k := |r.moves|;
    var gs := WholeHistory(setup, r);
    NodeRecorded(setup, r, gs, k, i, a, n);
    NodeRecorded(setup, r, gs, k, j, a, m);
    HistoryGrows(setup, r, gs, k, i, j);
    NodeFacts(n, RosterOf(setup), gs[i]);
    NodeFacts(m, RosterOf(setup), gs[j]);
    CoveredShorter(gs[i], n.term, gs[i].full[a], Max(n.commit, n.applied), x);
    assert KeptAt(gs[i], gs[j], a, x);
    WindowsAgree(n.log, gs[i].full[a], m.log, gs[j].full[a], x, x);
  }

  // ---- no storage failure ------------------------------------------------

  /** No step of a run ever fails in the log store: the only failure is a proposal to a node that
      cannot take it. */
  lemma OnlyProposalsFail(setup: Setup, r: Run, i: nat)
    requires IsRun(setup, r) && i < |r.moves| && r.moves[i].Handle?
    requires r.moves[i].id in r.states[i].nodes
    ensures var n := r.states[i].nodes[r.moves[i].id];
            var o := Step(n, r.moves[i].event, r.moves[i].draw);
            o.Failed? ==> r.moves[i].event.Propose? && o == Failed(n, NotLeader(n.leaderId))
  {
    hide IsHistory, Inv, NodeOk, RosterOf, Step, ValidSetup, Init, ActionsOk, PacketOk, Shifted, StepRecorded;
    var gs := WholeHistory(setup, r);
    var m := r.moves[i];
    assert Next(setup, r.states[i], m, r.states[i + 1]);
    NodeRecorded(setup, r, gs, |r.moves|, i, m.id, r.states[i].nodes[m.id]);
    if m.event.Receive? { PacketRecorded(setup, r, gs, i, m.id, m.event.message); }
    var h := StepOk(r.states[i].nodes[m.id], m.event, m.draw, RosterOf(setup), gs[i]);
  }

  lemma PacketRecorded(setup: Setup, r: Run, gs: seq<Ledger>, i: nat, to: NodeId, m: Message)
    requires IsHistory(setup, r, gs, |r.moves|) && i < |r.states| && i <= |r.moves| && Packet(to, m) in r.states[i].net
    ensures PacketOk(to, m, RosterOf(setup), gs[i])
  {
    hide Inv, NodeOk, RosterOf, PacketOk, StepRecorded;
    assert StateRecorded(setup, r, gs, i);
    var p := Packet(to, m);
    assert p in r.states[i].net;
  }
}
