/**
 A run in which something happens: a cluster of one node elects itself, takes a proposal and applies
 it. It shows that the runs the results quantify over include leaders, commits and Apply actions.
 */
module SmallestRun {
  import opened Types
  import opened LogStore
  import opened Protocol
  import opened Bookkeeping
  import ElectionSteps
  import opened Cluster

  const ALONE := ClusterConfig(1, [], Params(1, 1, 1, 1, 0))

  const FRESH := Node(1, [1], [1], 0, ALONE.params, EMPTY_LOG, Follower, 0, None, None, 0, 0, 0, 0, 1, [], false,
                      [], [], 0, None)

  const VOTED := Log([], 0, 0, None, [], HardState(1, Some(1)))

  const LEADS := FRESH.(log := VOTED, role := Leader, term := 1, votedFor := Some(1), leaderId := Some(1), votes := [1])

  const COMMAND := NormalEntry(1, 1, [7])

  lemma StartsFresh()
    ensures WithLog(ALONE, EMPTY_LOG, 1) == FRESH
  {
    assert ALONE.peers + [ALONE.id] == [1];
    assert SortedMembers([1]) == [1];
  }

  /** One tick: the election timeout passes, and its own vote is a quorum. */
  lemma ElectsItself()
    ensures Step(FRESH, Tick, 1) == Done(Effect(LEADS, []))
  {
    hide BecomeLeader;
    var c := Campaigned(Probing(FRESH.(electionElapsed := 1), 1), 1);
    assert Step(FRESH, Tick, 1) == Done(BecomeLeader(Effect(c, [])));
    TakesOffice(c);
  }

  lemma TakesOffice(c: Node)
    requires c == Campaigned(Probing(FRESH.(electionElapsed := 1), 1), 1)
    ensures BecomeLeader(Effect(c, [])) == Effect(LEADS, [])
  {
    assert ProgressFor([1], 1, [], 1) == [];
    assert Elected(c) == LEADS;
  }

  /** One proposal: appended, committed by its own count, and applied. */
  lemma AppliesItsProposal()
    ensures var o := Step(LEADS, Propose([7]), 1); o.Done? && Apply(1, 1, [7]) in o.effect.actions
  {
    hide DrainApplies, Deliveries, ApplyActions, CommitScan, Log.Append;
    var log := VOTED.(entries := [COMMAND]);
    var n := LEADS.(log := log);
    ProposalCounts(log);
    DrainDelivers(Effect(n.(commit := 1), []));
    OneDelivered(log);
    var drained := DrainApplies(Effect(n.(commit := 1), []));
    assert Step(LEADS, Propose([7]), 1) == Done(drained);
    assert Deliveries([]) == [] by { EmptyDeliveries(); }
    InDeliveries(drained.actions, Apply(1, 1, [7]));
  }

  lemma ProposalCounts(log: Log)
    requires log == VOTED.(entries := [COMMAND])
    ensures VOTED.Append([COMMAND]) == Ok(log) && CommitScan(LEADS.(log := log), 1) == 1
  {
    assert [] + [COMMAND] == [COMMAND];
  }

  lemma EmptyDeliveries()
    ensures Deliveries([]) == []
  {
  }

  lemma OneDelivered(log: Log)
    requires log == VOTED.(entries := [COMMAND])
    ensures Delivered(log, 0, 1) == [Apply(1, 1, [7])]
  {
    assert Delivered(log, 0, 0) == [];
  }

  lemma {:induction false} InDeliveries(actions: seq<Action>, a: Action)
    requires a in Deliveries(actions)
    ensures a in actions
  {
    if actions != [] && a in Deliveries(actions[..|actions| - 1]) { InDeliveries(actions[..|actions| - 1], a); }
  }

  /** The run: two moves, and at the second the command is applied. */
  lemma SomethingHappens() returns (setup: Setup, r: Run)
    ensures IsRun(setup, r) && Emits(r, 1, Apply(1, 1, [7]))
    ensures 1 in r.states[1].nodes && r.states[1].nodes[1].role == Leader
  {
    hide Step, WithLog;
    StartsFresh();
    ElectsItself();
    AppliesItsProposal();
    setup := map[1 := ALONE];
    var done := Step(LEADS, Propose([7]), 1);
    var s0 := State(map[1 := FRESH], {});
    var s1 := State(map[1 := LEADS], {});
    var s2 := State(map[1 := done.effect.node], Packets(done.effect.actions));
    r := Run([s0, s1, s2], [Handle(1, Tick, 1), Handle(1, Propose([7]), 1)]);
    SoleServer(setup);
    assert Drawn(setup, 1, 1);
    assert Packets([]) == {};
    assert Init(setup, s0);
    assert Next(setup, s0, r.moves[0], s1);
    assert Next(setup, s1, r.moves[1], s2);
  }

  lemma SoleServer(setup: Setup)
    requires setup == map[1 := ALONE]
    ensures ValidSetup(setup)
  {
    assert ALONE.peers + [1] == [1];
    assert ElectionSteps.SetOf([1]) == {1};
    assert 1 in setup.Keys;
  }
}
