/**
 A leader's commit index, in every run of a cluster with a fixed voter set: it is always as far as
 counting can take it, and what it counts a majority really holds.
 */
module Commitment {
  import opened Types
  import opened LogStore
  import opened Protocol
  import opened Ledger
  import opened LedgerSteps
  import opened NodeInvariant
  import opened LeaderSteps
  import opened ElectionSteps
  import opened FollowerSteps
  import opened HandlerSteps
  import opened Cluster
  import opened Safety
  import opened Bookkeeping
  import opened NodeSteps

  lemma RosterApart(n: Node, roster: seq<NodeId>, g: Ledger)
    requires NodeOk(n, roster, g)
    ensures Distinct(n.voters)
  {
    hide Durable, Voted, Holds, CandidateOk, LeaderOk;
    RosterDistinct(n, roster, g);
  }

  lemma MoveKept(setup: Setup, r: Run, i: nat, n: Node)
    requires IsRun(setup, r) && i < |r.moves| && At(r, i, r.moves[i].id, n)
    requires Kept(n) && Settled(n)
    ensures r.moves[i].id in r.states[i + 1].nodes
    ensures var m := r.states[i + 1].nodes[r.moves[i].id]; Kept(m) && Settled(m)
  {
    hide Kept, Settled, Step, WithLog, Emitted, Init, ValidSetup, IsHistory, Inv, NodeOk, RosterOf, Distinct,
         Forward, Durable, DeliversOn, Rebased, Restored, Counted;
    var m := r.moves[i];
    assert Next(setup, r.states[i], m, r.states[i + 1]);
    if m.Handle? {
      var gs := WholeHistory(setup, r);
      NodeRecorded(setup, r, gs, |r.moves|, i, m.id, n);
      RosterApart(n, RosterOf(setup), gs[i]);
      OnlyProposalsFail(setup, r, i);
      StepIsKept(n, m.event, m.draw);
      StepSettled(n, m.event, m.draw);
    } else {
      KeptParts(n);
      RestartKept(n, setup[m.id], m.draw);
      RestartFollows(setup[m.id], n.log, m.draw);
    }
  }

  lemma RestartFollows(config: ClusterConfig, log: Log, draw: nat)
    ensures Settled(WithLog(config, log, draw))
  {
  }

  /** In every state of a run every node keeps its books, and a leader has committed all it can. */
  lemma {:induction false} RunKept(setup: Setup, r: Run, i: nat, a: NodeId, n: Node)
    requires IsRun(setup, r) && At(r, i, a, n)
    ensures Kept(n) && Settled(n)
  {
    hide Kept, Settled, Step, WithLog, Emitted, ValidSetup;
    if i == 0 {
      var draw :| Drawn(setup, a, draw) && n == WithLog(setup[a], EMPTY_LOG, draw);
      StartKept(setup[a], EMPTY_LOG, draw);
      RestartFollows(setup[a], EMPTY_LOG, draw);
    } else {
      var m := r.moves[i - 1];
      assert Next(setup, r.states[i - 1], m, r.states[i - 1 + 1]);
      RunKept(setup, r, i - 1, a, r.states[i - 1].nodes[a]);
      if m.id == a { MoveKept(setup, r, i - 1, r.states[i - 1].nodes[a]); }
    }
  }

  // ---- as far as counting can take it ------------------------------------

  /** Terms never fall along the log. */
  ghost predicate TermsRise(log: Log) {
    forall x, y :: log.base <= x <= y <= log.LastIndex() ==>
      log.TermAt(x).Some? && log.TermAt(y).Some? && log.TermAt(x).value <= log.TermAt(y).value
  }

  /** Where terms rise, no index above the one a scan finds is reached by a quorum. */
  lemma {:induction false} ScanMisses(n: Node, i: Index, x: Index)
    requires TermsRise(n.log) && n.log.base <= n.commit < x <= i <= n.log.LastIndex()
    requires CommitScan(n, i) < x && n.log.TermAt(x) == Some(n.term)
    ensures Replicas(n, x) < Quorum(n)
  {
    hide Log.TermAt, CountAcked;
    assert n.log.TermAt(x).value <= n.log.TermAt(i).value;
    CommitScanFound(n, i - 1);
    if x < i { ScanMisses(n, i - 1, x); }
  }

  lemma ReachableTermsRise(n: Node, roster: seq<NodeId>, g: Ledger)
    requires Inv(g) && NodeOk(n, roster, g)
    ensures TermsRise(n.log)
  {
    hide Inv, NodeOk, Window, Consistent, Covered, TermsAtMost, Log.TermAt;
    NodeFacts(n, roster, g);
    OwnLog(n, roster, g);
    var full := g.full[n.id];
    forall x, y | n.log.base <= x <= y <= n.log.LastIndex()
      ensures n.log.TermAt(x).Some? && n.log.TermAt(y).Some? && n.log.TermAt(x).value <= n.log.TermAt(y).value
    {
      WindowReads(n.log, full, x);
      WindowReads(n.log, full, y);
      if x > 0 { TermsAscend(g, full, x - 1, y - 1); }
    }
  }

  /** This server, and the followers whose rows reach `x`. */
  ghost function Reaching(n: Node, x: Index): set<NodeId> {
    {n.id} + set k | 0 <= k < |n.progress| && n.progress[k].matched >= x :: n.progress[k].id
  }

  lemma {:induction false} AckersAre(rows: seq<Progress>, x: Index)
    ensures Ackers(rows, x) == set k | 0 <= k < |rows| && rows[k].matched >= x :: rows[k].id
  {
    if rows != [] {
      AckersAre(rows[..|rows| - 1], x);
      forall k | 0 <= k < |rows| - 1 ensures rows[..|rows| - 1][k] == rows[k] {}
    }
  }

  /** A leader of a fixed voter set counts exactly the servers that reach, and a quorum is a majority. */
  lemma CountIsMajority(n: Node, x: Index, roster: seq<NodeId>, g: Ledger)
    requires Inv(g) && NodeOk(n, roster, g) && n.role == Leader
    ensures Majority(Reaching(n, x), g.servers) <==> Replicas(n, x) >= Quorum(n)
  {
    hide Inv, NodeOk, Window, Covered;
    NodeFacts(n, roster, g);
    RosterSize(n, roster, g);
    RowsDistinct(n, roster, g);
    AckersCounted(n.progress, x);
    AckersAre(n.progress, x);
    forall v | v in Ackers(n.progress, x) ensures v in g.servers && v != n.id {
      AckersIn(n.progress, x, v);
      var k :| 0 <= k < |n.progress| && n.progress[k].id == v && n.progress[k].matched >= x;
      RowFacts(n, k, roster, g);
    }
    assert |Reaching(n, x)| == 1 + |Ackers(n.progress, x)|;
  }

  /** In every state of a run, the servers that reach an entry of a leader's own term above its commit
      index are no majority: the commit index is the greatest that counting allows. */
  lemma NothingMoreToCommit(setup: Setup, r: Run, i: nat, a: NodeId, n: Node, x: Index)
    requires IsRun(setup, r) && At(r, i, a, n) && n.role == Leader
    requires x > n.commit && n.log.TermAt(x) == Some(n.term)
    ensures !Majority(Reaching(n, x), setup.Keys)
    ensures Replicas(n, x) < Quorum(n)
  {
    hide IsRun, IsHistory, Inv, NodeOk, RosterOf, CommitScan, CountAcked, TermsRise, Covered, Durable, Cached,
         Listed;
    RunKept(setup, r, i, a, n);
    var gs := WholeHistory(setup, r);
    NodeRecorded(setup, r, gs, |r.moves|, i, a, n);
    NodeFacts(n, RosterOf(setup), gs[i]);
    ReachableTermsRise(n, RosterOf(setup), gs[i]);
    ScanMisses(n, n.log.LastIndex(), x);
    CountIsMajority(n, x, RosterOf(setup), gs[i]);
    ServersAre(setup, r, gs, i);
  }

  lemma ServersAre(setup: Setup, r: Run, gs: seq<Ledger>, i: nat)
    requires IsHistory(setup, r, gs, |r.moves|) && i <= |r.moves|
    ensures gs[i].servers == setup.Keys
  {
    hide Inv, NodeOk, PacketOk, StepRecorded;
    assert StateRecorded(setup, r, gs, i);
  }

  // ---- what it counts is held --------------------------------------------

  /** In state `j` node `v` was in the leader's term and held the leader's log through `x`. */
  ghost predicate HeldAt(r: Run, j: nat, v: NodeId, leader: Node, x: Index) {
    && j < |r.states| && v in r.states[j].nodes
    && var m := r.states[j].nodes[v];
       && m.term == leader.term && x <= m.log.LastIndex()
       && forall y: Index :: y <= x ==> SameReads(leader.log, m.log, y)
  }

  /** What a node has acknowledged in a term it acknowledged while it was in that term. */
  lemma {:induction false} AckedWhen(setup: Setup, r: Run, gs: seq<Ledger>, i: nat, v: NodeId, t: Term, k: nat)
    returns (j: nat)
    requires IsHistory(setup, r, gs, |r.moves|) && i <= |r.moves| && 0 < k <= Acked(gs[i], v, t)
    ensures j <= i && v in gs[j].term && gs[j].term[v] == t && k <= Acked(gs[j], v, t)
    decreases i
  {
    hide StateRecorded, Grows, OnlyNode, KeepsCovered, ActionsOk, Emitted, Captured, RosterOf;
    if i > 0 {
      assert StepRecorded(setup, r, gs, i - 1);
      if k <= Acked(gs[i - 1], v, t) { j := AckedWhen(setup, r, gs, i - 1, v, t, k); } else { j := i; }
    }
  }

  lemma WasHeld(n: Node, h: Ledger, m: Node, g: Ledger, roster: seq<NodeId>, x: Index)
    requires Inv(h) && NodeOk(n, roster, h) && n.role == Leader && Inv(g) && NodeOk(m, roster, g) && Grows(g, h)
    requires m.term == n.term && 0 < x <= Acked(g, m.id, n.term)
    ensures x <= m.log.LastIndex() && forall y: Index :: y <= x ==> SameReads(n.log, m.log, y)
  {
    hide Inv, NodeOk, Window, Covered, SameReads, GrowsNodes, GrowsVotes, GrowsLogs;
    NodeFacts(n, roster, h);
    NodeFacts(m, roster, g);
    LeaderLog(n, roster, h);
    AckedInLed(g, m.id, n.term);
    LedGrows(g, h, n.term);
    AckedIsHeld(g, m.id, n.term, x);
    forall y: Index | y <= x ensures SameReads(n.log, m.log, y) {
      WindowsAgree(n.log, h.full[n.id], m.log, g.full[m.id], x, y);
    }
  }

  lemma AckedInLed(g: Ledger, v: NodeId, t: Term)
    requires Inv(g) && Acked(g, v, t) > 0
    ensures t in g.led
  {
    hide Inv, LedShape, AllConsistent, TermsBounded, Elections, LeaderLogs, AckHeld, AckKept, VoteKept,
         Complete, CommitsHeld;
    InvParts(g);
  }

  /** Whenever a step raises a leader's commit index, the new index is an entry of the leader's own
      term, and each member of some majority of the voters has held the leader's whole log through it
      while in the leader's term. */
  lemma CommitIsHeldByMajority(setup: Setup, r: Run, i: nat, n: Node, m: Node) returns (q: set<NodeId>)
    requires IsRun(setup, r) && i < |r.moves| && r.moves[i].Handle?
    requires At(r, i, r.moves[i].id, n) && At(r, i + 1, r.moves[i].id, m)
    requires m.role == Leader && n.commit < m.commit
    ensures m.log.TermAt(m.commit) == Some(m.term)
    ensures Majority(q, setup.Keys)
    ensures forall v :: v in q ==> exists j: nat :: j <= i + 1 && HeldAt(r, j, v, m, m.commit)
  {
    hide IsHistory, Inv, NodeOk, RosterOf, Init, ValidSetup, Kept, Settled, CommitScan, CountAcked, Covered,
         Forward, DeliversOn, Rebased, Restored, HeldAt, Emitted, Step;
    RunKept(setup, r, i, r.moves[i].id, n);
    assert Next(setup, r.states[i], r.moves[i], r.states[i + 1]);
    StepIsKept(n, r.moves[i].event, r.moves[i].draw);
    OnlyProposalsFail(setup, r, i);
    var gs := WholeHistory(setup, r);
    NodeRecorded(setup, r, gs, |r.moves|, i + 1, r.moves[i].id, m);
    NodeFacts(m, RosterOf(setup), gs[i + 1]);
    q := QuorumHolds(m, m.commit, RosterOf(setup), gs[i + 1]);
    QuorumHeld(setup, r, gs, i + 1, m, q);
  }

  lemma QuorumHeld(setup: Setup, r: Run, gs: seq<Ledger>, i: nat, m: Node, q: set<NodeId>)
    requires IsHistory(setup, r, gs, |r.moves|) && i <= |r.moves| && At(r, i, m.id, m) && m.role == Leader
    requires Majority(q, gs[i].servers) && m.commit > 0
    requires forall v :: v in q ==> (v, m.term) in gs[i].acked && gs[i].acked[(v, m.term)] >= m.commit
    ensures Majority(q, setup.Keys)
    ensures forall v :: v in q ==> exists j: nat :: j <= i && HeldAt(r, j, v, m, m.commit)
  {
    hide Inv, NodeOk, RosterOf, PacketOk, StepRecorded, SameReads, HeldAt;
    assert StateRecorded(setup, r, gs, i);
    forall v | v in q ensures exists j: nat :: j <= i && HeldAt(r, j, v, m, m.commit) {
      var j := AckedWhen(setup, r, gs, i, v, m.term, m.commit);
      HeldThen(setup, r, gs, i, j, m, v);
    }
  }

  lemma HeldThen(setup: Setup, r: Run, gs: seq<Ledger>, i: nat, j: nat, m: Node, v: NodeId)
    requires IsHistory(setup, r, gs, |r.moves|) && j <= i <= |r.moves| && At(r, i, m.id, m) && m.role == Leader
    requires v in gs[j].term && gs[j].term[v] == m.term && 0 < m.commit <= Acked(gs[j], v, m.term)
    requires v in setup.Keys
    ensures HeldAt(r, j, v, m, m.commit)
  {
    hide Inv, NodeOk, RosterOf, PacketOk, StepRecorded, SameReads, Grows, KeepsCovered, Acked;
    assert StateRecorded(setup, r, gs, i);
    assert StateRecorded(setup, r, gs, j);
    HistoryGrows(setup, r, gs, |r.moves|, j, i);
    NodeFacts(r.states[j].nodes[v], RosterOf(setup), gs[j]);
    WasHeld(m, gs[i], r.states[j].nodes[v], gs[j], RosterOf(setup), m.commit);
  }
}
