/**
 A cluster: nodes, the packets ever sent, and runs.

 Packets are never removed, so any of them may be delivered late, out of order, more than once or
 not at all; each is delivered only to its destination. A node may crash at any point and restart
 from its log store alone. The voter set is fixed: every event but AddServer and RemoveServer.
 */
module Cluster {
  import opened Types
  import opened LogStore
  import opened Protocol
  import opened Ledger
  import opened LedgerSteps
  import opened NodeInvariant
  import opened LeaderSteps
  import opened ElectionSteps
  import opened FollowerSteps
  import opened HandlerSteps

  datatype Packet = Packet(to: NodeId, message: Message)

  datatype State = State(nodes: map<NodeId, Node>, net: set<Packet>)

  datatype Move =
    | Handle(id: NodeId, event: Event, draw: nat)
    | Restart(id: NodeId, draw: nat)

  type Setup = map<NodeId, ClusterConfig>

  /** Every node is configured with all the others as its peers. */
  ghost predicate ValidSetup(setup: Setup) {
    && setup.Keys != {}
    && forall id :: id in setup ==>
         && setup[id].id == id
         && SetOf(setup[id].peers + [id]) == setup.Keys
         && setup[id].params.maxBatch >= 1
         && setup[id].params.electionMin <= setup[id].params.electionMax
  }

  ghost predicate Drawn(setup: Setup, id: NodeId, draw: nat)
    requires id in setup
  {
    setup[id].params.electionMin <= draw <= setup[id].params.electionMax
  }

  /** Empty logs and term 0. */
  ghost predicate Init(setup: Setup, s: State) {
    && s.nodes.Keys == setup.Keys && s.net == {}
    && forall id :: id in setup ==>
         exists draw :: Drawn(setup, id, draw) && s.nodes[id] == WithLog(setup[id], EMPTY_LOG, draw)
  }

  /** What node `m.id` returns from its step; a restart returns nothing. */
  ghost function Emitted(s: State, m: Move): seq<Action>
    requires m.id in s.nodes
  {
    if m.Handle? then Step(s.nodes[m.id], m.event, m.draw).Emitted() else []
  }

  /** The snapshot a move takes of a state machine. */
  ghost function Captured(s: State, m: Move): set<(Index, Term, Bytes)>
    requires m.id in s.nodes
  {
    if m.Handle? then TakenBy(s.nodes[m.id], m.event) else {}
  }

  ghost function Packets(actions: seq<Action>): set<Packet> {
    set a | a in actions && a.Send? :: Packet(a.to, a.message)
  }

  ghost predicate Next(setup: Setup, s: State, m: Move, s': State) {
    && m.id in s.nodes && m.id in setup && Drawn(setup, m.id, m.draw)
    && s'.net == s.net + Packets(Emitted(s, m))
    && match m
       case Handle(id, event, draw) =>
         && KeepsVoters(event)
         && (event.Receive? ==> Packet(id, event.message) in s.net)
         && s'.nodes == s.nodes[id := Step(s.nodes[id], event, draw).Final()]
       case Restart(id, draw) =>
         s'.nodes == s.nodes[id := WithLog(setup[id], s.nodes[id].log, draw)]
  }

  datatype Run = Run(states: seq<State>, moves: seq<Move>)

  ghost predicate IsRun(setup: Setup, r: Run) {
    && ValidSetup(setup)
    && |r.states| == |r.moves| + 1 && Init(setup, r.states[0])
    && forall i :: 0 <= i < |r.moves| ==> Next(setup, r.states[i], r.moves[i], r.states[i + 1])
  }

  ghost predicate Emits(r: Run, i: nat, a: Action) {
    i < |r.moves| && i < |r.states| && r.moves[i].id in r.states[i].nodes && a in Emitted(r.states[i], r.moves[i])
  }

  // ---- one roster --------------------------------------------------------

  /** Two ascending memberships with the same members are the same. */
  lemma {:induction false} AscendingUnique(a: seq<NodeId>, b: seq<NodeId>)
    requires Ascending(a) && Ascending(b) && SetOf(a) == SetOf(b)
    ensures a == b
  {
    EmptyMembers(a);
    EmptyMembers(b);
    if a != [] {
      LastIsGreatest(a, b);
      LastIsGreatest(b, a);
      var n, m := |a| - 1, |b| - 1;
      assert a[n] == b[m];
      FrontMembers(a);
      FrontMembers(b);
      AscendingUnique(a[..n], b[..m]);
    }
  }

  lemma EmptyMembers(a: seq<NodeId>)
    ensures a == [] <==> SetOf(a) == {}
  {
    if a != [] { assert a[0] in SetOf(a); }
  }

  lemma LastIsGreatest(a: seq<NodeId>, b: seq<NodeId>)
    requires Ascending(a) && a != [] && b != [] && SetOf(a) == SetOf(b)
    ensures b[|b| - 1] <= a[|a| - 1]
  {
    assert b[|b| - 1] in SetOf(a);
  }

  lemma FrontMembers(a: seq<NodeId>)
    requires Ascending(a) && a != []
    ensures SetOf(a[..|a| - 1]) == SetOf(a) - {a[|a| - 1]}
  {
    assert a == a[..|a| - 1] + [a[|a| - 1]];
  }

  /** Every node's bootstrap membership. */
  ghost function RosterOf(setup: Setup): seq<NodeId> {
    if setup.Keys == {} then [] else
    var id :| id in setup.Keys;
    SortedMembers(setup[id].peers + [id])
  }

  lemma BootstrapIsRoster(setup: Setup, id: NodeId)
    requires ValidSetup(setup) && id in setup
    ensures SortedMembers(setup[id].peers + [id]) == RosterOf(setup)
    ensures IsRoster(RosterOf(setup), setup.Keys) && RosterOf(setup) != []
  {
    var other :| other in setup && RosterOf(setup) == SortedMembers(setup[other].peers + [other]);
    SortedMembersCorrect(setup[id].peers + [id]);
    SortedMembersCorrect(setup[other].peers + [other]);
    var roster := RosterOf(setup);
    assert SetOf(roster) == setup.Keys;
    AscendingUnique(SortedMembers(setup[id].peers + [id]), roster);
    assert Distinct(roster);
    DistinctSize(roster);
  }

  // ---- the invariant of a state ------------------------------------------

  ghost predicate StateOk(setup: Setup, s: State, g: Ledger) {
    && Inv(g) && g.servers == setup.Keys && s.nodes.Keys == setup.Keys
    && (forall id :: id in s.nodes ==> s.nodes[id].id == id && NodeOk(s.nodes[id], RosterOf(setup), g))
    && (forall p :: p in s.net ==> PacketOk(p.to, p.message, RosterOf(setup), g))
  }

  lemma StartedOk(setup: Setup, id: NodeId, draw: nat, g: Ledger)
    requires ValidSetup(setup) && id in setup && g == Fresh(setup.Keys)
    ensures WithLog(setup[id], EMPTY_LOG, draw).id == id
    ensures NodeOk(WithLog(setup[id], EMPTY_LOG, draw), RosterOf(setup), g)
  {
    hide Fixed, Covered, WithLog, RosterOf, CandidateOk, LeaderOk;
    StartedBlank(setup[id], draw);
    StartedFixed(setup, id, draw, g);
    NothingCovered(g);
  }

  lemma StartedBlank(config: ClusterConfig, draw: nat)
    ensures var n := WithLog(config, EMPTY_LOG, draw);
            && n.id == config.id && n.log == EMPTY_LOG && n.role == Follower && n.term == 0 && n.votedFor == None
            && n.commit == 0 && n.applied == 0
  {
    hide BaseConfigOf, EffectiveConfig;
  }

  lemma StartedFixed(setup: Setup, id: NodeId, draw: nat, g: Ledger)
    requires ValidSetup(setup) && id in setup && g == Fresh(setup.Keys)
    ensures Fixed(WithLog(setup[id], EMPTY_LOG, draw), RosterOf(setup), g)
  {
    hide IsRoster, SortedMembers, RosterOf;
    BootstrapIsRoster(setup, id);
    assert ScanConfig(EMPTY_LOG, 0) == None;
  }

  lemma NothingCovered(g: Ledger)
    ensures Covered(g, 0, [], 0)
  {
  }

  lemma InitOk(setup: Setup, s: State) returns (g: Ledger)
    requires ValidSetup(setup) && Init(setup, s)
    ensures StateOk(setup, s, g) && g == Fresh(setup.Keys)
  {
    hide NodeOk, WithLog, PacketOk, Inv;
    g := Fresh(setup.Keys);
    FreshInv(setup.Keys);
    forall id | id in s.nodes ensures s.nodes[id].id == id && NodeOk(s.nodes[id], RosterOf(setup), g) {
      var draw :| Drawn(setup, id, draw) && s.nodes[id] == WithLog(setup[id], EMPTY_LOG, draw);
      StartedOk(setup, id, draw, g);
    }
  }

  // ---- restarts ----------------------------------------------------------

  /** A node restarted from its log store resumes in its term, with its vote, at its boundary. */
  lemma RestartOk(n: Node, config: ClusterConfig, draw: nat, roster: seq<NodeId>, g: Ledger)
    requires Inv(g) && NodeOk(n, roster, g)
    requires config.id == n.id && config.params.maxBatch >= 1
    requires SortedMembers(config.peers + [config.id]) == roster && roster != []
    ensures NodeOk(WithLog(config, n.log, draw), roster, g) && WithLog(config, n.log, draw).id == n.id
  {
    hide Inv, Window, Covered, Fixed, EffectiveConfig, BaseConfigOf, CandidateOk, LeaderOk;
    NodeLogIsNormal(n, roster, g);
    RestartCovered(n, roster, g);
    RestartFixed(n, config, draw, roster, g);
  }

  lemma RestartFixed(n: Node, config: ClusterConfig, draw: nat, roster: seq<NodeId>, g: Ledger)
    requires Fixed(n, roster, g) && forall k :: 0 <= k < |n.log.entries| ==> n.log.entries[k].kind == Normal
    requires config.id == n.id && config.params.maxBatch >= 1
    requires SortedMembers(config.peers + [config.id]) == roster && roster != []
    ensures Fixed(WithLog(config, n.log, draw), roster, g)
  {
    hide ScanConfig, IsRoster, SortedMembers;
    NoConfigFound(n.log, n.log.LastIndex());
  }

  lemma RestartCovered(n: Node, roster: seq<NodeId>, g: Ledger)
    requires NodeOk(n, roster, g)
    ensures n.id in g.full && Covered(g, n.term, g.full[n.id], n.log.base)
  {
    hide NodeOk, Covered;
    NodeFacts(n, roster, g);
    CoveredShorter(g, n.term, g.full[n.id], n.commit, n.log.base);
  }

  // ---- every step --------------------------------------------------------

  lemma PacketsOk(setup: Setup, net: set<Packet>, actions: seq<Action>, g: Ledger, h: Ledger)
    requires ValidSetup(setup) && Grows(g, h) && ActionsOk(actions, RosterOf(setup), h)
    requires forall p :: p in net ==> PacketOk(p.to, p.message, RosterOf(setup), g)
    ensures forall p :: p in net + Packets(actions) ==> PacketOk(p.to, p.message, RosterOf(setup), h)
  {
    hide PacketOk, GrowsNodes, GrowsVotes, GrowsLogs;
    forall p | p in net + Packets(actions) ensures PacketOk(p.to, p.message, RosterOf(setup), h) {
      if p in net {
        PacketStays(p.to, p.message, RosterOf(setup), g, h);
      } else {
        var a :| a in actions && a.Send? && p == Packet(a.to, a.message);
        assert ActionOk(a, RosterOf(setup), h);
      }
    }
  }

  lemma OthersOk(nodes: map<NodeId, Node>, after: map<NodeId, Node>, id: NodeId, n: Node,
                 roster: seq<NodeId>, g: Ledger, h: Ledger)
    requires Shifted(g, h, id) && n.id == id && NodeOk(n, roster, h) && after == nodes[id := n]
    requires forall m :: m in nodes ==> nodes[m].id == m && NodeOk(nodes[m], roster, g)
    ensures forall m :: m in after ==> after[m].id == m && NodeOk(after[m], roster, h)
  {
    hide NodeOk, Shifted;
    forall m | m in nodes && m != id ensures NodeOk(nodes[m], roster, h) {
      NodeStays(nodes[m], roster, g, h, id);
    }
  }

  lemma HandleOk(setup: Setup, s: State, id: NodeId, event: Event, draw: nat, g: Ledger) returns (h: Ledger)
    requires StateOk(setup, s, g) && id in s.nodes && KeepsVoters(event)
    requires event.Receive? ==> Packet(id, event.message) in s.net
    ensures Inv(h) && Shifted(g, h, id) && h.taken == g.taken + TakenBy(s.nodes[id], event)
    ensures var o := Step(s.nodes[id], event, draw);
            && o.Final().id == id && NodeOk(o.Final(), RosterOf(setup), h)
            && ActionsOk(o.Emitted(), RosterOf(setup), h)
  {
    hide Inv, NodeOk, ActionsOk, PacketOk, Shifted, Step, RosterOf, TakenBy;
    h := StepOk(s.nodes[id], event, draw, RosterOf(setup), g);
  }

  lemma RestartedOk(setup: Setup, s: State, id: NodeId, draw: nat, g: Ledger)
    requires ValidSetup(setup) && StateOk(setup, s, g) && id in setup && id in s.nodes
    ensures NodeOk(WithLog(setup[id], s.nodes[id].log, draw), RosterOf(setup), g)
    ensures WithLog(setup[id], s.nodes[id].log, draw).id == id
  {
    hide Inv, NodeOk, ActionsOk, PacketOk, WithLog, RosterOf, ValidSetup;
    BootstrapIsRoster(setup, id);
    ConfigOf(setup, id);
    RestartOk(s.nodes[id], setup[id], draw, RosterOf(setup), g);
  }

  lemma NextOk(setup: Setup, s: State, m: Move, s': State, g: Ledger) returns (h: Ledger)
    requires ValidSetup(setup) && StateOk(setup, s, g) && Next(setup, s, m, s')
    ensures StateOk(setup, s', h) && Shifted(g, h, m.id) && h.taken == g.taken + Captured(s, m)
    ensures ActionsOk(Emitted(s, m), RosterOf(setup), h)
  {
    hide Inv, NodeOk, ActionsOk, PacketOk, OnlyNode, KeepsCovered, AcksNow, GrowsNodes, GrowsVotes, GrowsLogs,
         Step, WithLog, Packets, RosterOf, ValidSetup, KeepsVoters, Drawn;
    if m.Handle? {
      h := HandleOk(setup, s, m.id, m.event, m.draw, g);
    } else {
      h := g;
      StillMoved(g, m.id);
      RestartedOk(setup, s, m.id, m.draw, g);
      NothingEmitted(RosterOf(setup), h);
    }
    OthersOk(s.nodes, s'.nodes, m.id, s'.nodes[m.id], RosterOf(setup), g, h);
    PacketsOk(setup, s.net, Emitted(s, m), g, h);
    GrowsServers(g, h);
  }

  lemma ConfigOf(setup: Setup, id: NodeId)
    requires ValidSetup(setup) && id in setup
    ensures setup[id].id == id && setup[id].params.maxBatch >= 1
  {
  }

  // ---- every run ---------------------------------------------------------

  /** A ledger for each of the first `k + 1` states of a run: each fits its state and grew from the
      one before. */
  ghost predicate IsHistory(setup: Setup, r: Run, gs: seq<Ledger>, k: nat) {
    && |gs| == k + 1 && gs[0] == Fresh(setup.Keys)
    && (forall i :: 0 <= i <= k ==> StateRecorded(setup, r, gs, i))
    && (forall i :: 0 <= i < k ==> StepRecorded(setup, r, gs, i))
  }

  ghost predicate StateRecorded(setup: Setup, r: Run, gs: seq<Ledger>, i: nat) {
    i < |r.states| && i < |gs| && StateOk(setup, r.states[i], gs[i])
  }

  ghost predicate StepRecorded(setup: Setup, r: Run, gs: seq<Ledger>, i: nat) {
    && i < |r.moves| && i + 1 < |gs| && i < |r.states| && r.moves[i].id in r.states[i].nodes
    && Shifted(gs[i], gs[i + 1], r.moves[i].id)
    && gs[i + 1].taken == gs[i].taken + Captured(r.states[i], r.moves[i])
    && ActionsOk(Emitted(r.states[i], r.moves[i]), RosterOf(setup), gs[i + 1])
  }

  lemma FirstRecorded(setup: Setup, r: Run) returns (g: Ledger)
    requires IsRun(setup, r)
    ensures StateRecorded(setup, r, [g], 0) && g == Fresh(setup.Keys)
  {
    hide StateOk, ValidSetup, Init, Next;
    g := InitOk(setup, r.states[0]);
  }

  lemma NextRecorded(setup: Setup, r: Run, gs: seq<Ledger>, k: nat) returns (h: Ledger)
    requires IsRun(setup, r) && k < |r.moves| && |gs| == k + 1 && StateRecorded(setup, r, gs, k)
    ensures StateRecorded(setup, r, gs + [h], k + 1) && StepRecorded(setup, r, gs + [h], k)
  {
    hide StateOk, ValidSetup, Init, Next, Shifted, ActionsOk, Emitted, Captured, RosterOf;
    assert Next(setup, r.states[k], r.moves[k], r.states[k + 1]);
    h := NextOk(setup, r.states[k], r.moves[k], r.states[k + 1], gs[k]);
    MoverKnown(setup, r.states[k], r.moves[k], r.states[k + 1]);
  }

  lemma MoverKnown(setup: Setup, s: State, m: Move, s': State)
    requires Next(setup, s, m, s')
    ensures m.id in s.nodes
  {
  }

  lemma RecordsStand(setup: Setup, r: Run, gs: seq<Ledger>, h: Ledger, i: nat)
    ensures StateRecorded(setup, r, gs, i) ==> StateRecorded(setup, r, gs + [h], i)
    ensures StepRecorded(setup, r, gs, i) ==> StepRecorded(setup, r, gs + [h], i)
  {
    hide StateOk, Shifted, ActionsOk, Emitted, Captured, RosterOf;
  }

  /** Every run has a history. */
  lemma {:induction false} HistoryOf(setup: Setup, r: Run, k: nat) returns (gs: seq<Ledger>)
    requires IsRun(setup, r) && k <= |r.moves|
    ensures IsHistory(setup, r, gs, k)
  {
    hide IsRun, StateRecorded, StepRecorded;
    if k == 0 {
      var g := FirstRecorded(setup, r);
      gs := [g];
    } else {
      var front := HistoryOf(setup, r, k - 1);
      var h := NextRecorded(setup, r, front, k - 1);
      gs := front + [h];
      forall i | 0 <= i < k ensures StateRecorded(setup, r, gs, i) { RecordsStand(setup, r, front, h, i); }
      forall i | 0 <= i < k - 1 ensures StepRecorded(setup, r, gs, i) { RecordsStand(setup, r, front, h, i); }
    }
  }

  lemma {:induction false} HistoryGrows(setup: Setup, r: Run, gs: seq<Ledger>, k: nat, i: nat, j: nat)
    requires IsHistory(setup, r, gs, k) && i <= j <= k
    ensures Grows(gs[i], gs[j]) && KeepsCovered(gs[i], gs[j])
    decreases j
  {
    hide StateRecorded, ActionsOk, GrowsNodes, GrowsVotes, GrowsLogs, KeepsCovered, OnlyNode;
    if i == j {
      StillMoved(gs[i], 0);
    } else {
      HistoryGrows(setup, r, gs, k, i, j - 1);
      assert StepRecorded(setup, r, gs, j - 1);
      GrowsTransitive(gs[i], gs[j - 1], gs[j]);
      KeepsCoveredTransitive(gs[i], gs[j - 1], gs[j]);
    }
  }
}
