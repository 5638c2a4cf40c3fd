/**
 What every step of one node keeps, whatever events it is given: any packets, forged or stale,
 membership changes included.

 A step changes the entries of its log at most once, at its start. Everything after that is a chain
 of pieces each of which `Advances` the node; the relation composes, so each piece is looked at once.
 */
module Bookkeeping {
  import opened Types
  import opened LogStore
  import opened Protocol
  import opened NodeInvariant
  import opened LeaderSteps

  // ---- what is delivered to the application ------------------------------

  /** The actions that reach the state machine, in order. */
  function Deliveries(actions: seq<Action>): seq<Action> {
    if actions == [] then []
    else
      var a := actions[|actions| - 1];
      Deliveries(actions[..|actions| - 1]) + (if a.Apply? || a.RestoreSnapshot? then [a] else [])
  }

  /** The commands a log holds at `from + 1` through `to`, as they are applied. */
  function Delivered(log: Log, from: Index, upto: Index): seq<Action> {
    if upto <= from then [] else Delivered(log, from, upto - 1) + ApplyActions(log, upto)
  }

  lemma DeliveriesEmit(actions: seq<Action>, a: Action)
    ensures Deliveries(actions + [a]) == Deliveries(actions) + (if a.Apply? || a.RestoreSnapshot? then [a] else [])
  {
    assert (actions + [a])[..|actions|] == actions;
  }

  lemma DeliveriesApply(actions: seq<Action>, log: Log, i: Index)
    ensures Deliveries(actions + ApplyActions(log, i)) == Deliveries(actions) + ApplyActions(log, i)
  {
    if ApplyActions(log, i) == [] {
      assert actions + [] == actions;
    } else {
      DeliveriesEmit(actions, ApplyActions(log, i)[0]);
    }
  }

  lemma {:induction false} DeliveredFirst(log: Log, from: Index, upto: Index)
    requires from < upto
    ensures Delivered(log, from, upto) == ApplyActions(log, from + 1) + Delivered(log, from + 1, upto)
    decreases upto
  {
    if upto > from + 1 { DeliveredFirst(log, from, upto - 1); }
  }

  lemma {:induction false} DeliveredJoin(log: Log, a: Index, b: Index, c: Index)
    requires a <= b <= c
    ensures Delivered(log, a, c) == Delivered(log, a, b) + Delivered(log, b, c)
    decreases c
  {
    if b < c { DeliveredJoin(log, a, b, c - 1); }
  }

  /** Only the entries matter, not the hard state stored beside them. */
  lemma {:induction false} DeliveredFrom(log: Log, hard: HardState, from: Index, upto: Index)
    ensures Delivered(log.(hard := hard), from, upto) == Delivered(log, from, upto)
    decreases upto
  {
    if upto > from { DeliveredFrom(log, hard, from, upto - 1); }
  }

  lemma {:induction false} ScanFrom(log: Log, hard: HardState, i: Index)
    ensures ScanConfig(log.(hard := hard), i) == ScanConfig(log, i)
  {
    if i > log.base { ScanFrom(log, hard, i - 1); }
  }

  // ---- the invariants ----------------------------------------------------

  /** The cached membership is what a scan of the log finds. */
  ghost predicate Cached(n: Node) {
    (n.voters, n.configIndex) == EffectiveConfig(n.log, n.baseConfig)
  }

  ghost function Ids(rows: seq<Progress>): seq<NodeId> {
    seq(|rows|, i requires 0 <= i < |rows| => rows[i].id)
  }

  ghost predicate MatchedBehind(rows: seq<Progress>) {
    forall i :: 0 <= i < |rows| ==> rows[i].matched < rows[i].next
  }

  /** A leader's table has a row for each voter but itself, in order, each behind its next index. */
  ghost predicate Listed(n: Node) {
    MatchedBehind(n.progress) && (n.role == Leader ==> Ids(n.progress) == Without(n.voters, n.id))
  }

  /** A leader has committed all it can by counting. */
  ghost predicate Settled(n: Node) {
    n.role == Leader ==> CommitScan(n, n.log.LastIndex()) == n.commit
  }

  /** A leader's commit index is an entry of its own term that a quorum of rows reaches, and does not
      reach its own removal. */
  ghost predicate Counted(n: Node) {
    n.role == Leader ==>
      && n.log.TermAt(n.commit) == Some(n.term) && Replicas(n, n.commit) >= Quorum(n)
      && !CommittedOwnRemoval(n)
  }

  /** Once the applied log has grown past the threshold, a snapshot has been hinted at. */
  ghost predicate Hinted(n: Node) {
    n.params.snapshotThreshold > 0 && n.applied >= n.log.base + n.params.snapshotThreshold ==> n.hintedAt >= n.applied
  }

  /** Compaction stays behind what is committed, and all of that is applied. */
  ghost predicate Behind(n: Node) {
    n.log.base <= n.commit <= n.applied && Hinted(n)
  }

  ghost predicate Kept(n: Node) {
    Durable(n) && Cached(n) && Listed(n) && Behind(n) && n.log.Indexed()
  }

  /** Terms only rise, and a vote cast in a term stands. */
  ghost predicate Forward(n: Node, m: Node) {
    n.term <= m.term && (n.term == m.term && n.votedFor.Some? ==> m.votedFor == n.votedFor)
  }

  // ---- pieces of a step --------------------------------------------------

  /** What no piece of a step changes once the log's entries are in place. */
  ghost predicate SameSetting(n: Node, m: Node) {
    && m.id == n.id && m.params == n.params && m.voters == n.voters
    && m.baseConfig == n.baseConfig && m.configIndex == n.configIndex
    && m.log == n.log.(hard := m.log.hard) && n.hintedAt <= m.hintedAt
  }

  /** The commands delivered are exactly the log's, from the applied index on. */
  ghost predicate DeliversOn(e: Effect, r: Effect) {
    && e.node.applied <= r.node.applied
    && (e.node.applied < r.node.applied ==> r.node.applied <= r.node.log.LastIndex())
    && Deliveries(r.actions) == Deliveries(e.actions) + Delivered(r.node.log, e.node.applied, r.node.applied)
  }

  ghost predicate Continues(e: Effect, r: Effect) {
    && SameSetting(e.node, r.node) && Forward(e.node, r.node) && DeliversOn(e, r)
    && (Behind(e.node) ==> Behind(r.node))
    && (Durable(e.node) ==> Durable(r.node))
    && (Listed(e.node) ==> Listed(r.node))
  }

  ghost predicate Advances(e: Effect, r: Effect) {
    Continues(e, r) && e.node.commit <= r.node.commit
  }

  lemma ContinuesKeeps(e: Effect, r: Effect)
    requires Continues(e, r) && Kept(e.node)
    ensures Kept(r.node)
  {
    hide Listed, Deliveries, Delivered, ScanConfig;
    ScanFrom(e.node.log, r.node.log.hard, e.node.log.LastIndex());
  }

  lemma DeliversJoin(e: Effect, e1: Effect, r: Effect)
    requires DeliversOn(e, e1) && DeliversOn(e1, r) && SameSetting(e1.node, r.node)
    ensures DeliversOn(e, r)
  {
    hide Deliveries, Delivered;
    DeliveredFrom(e1.node.log, r.node.log.hard, e.node.applied, e1.node.applied);
    DeliveredJoin(r.node.log, e.node.applied, e1.node.applied, r.node.applied);
  }

  lemma Chain(e: Effect, e1: Effect, r: Effect)
    requires Continues(e, e1) && Continues(e1, r)
    ensures Continues(e, r)
  {
    hide Durable, Listed, DeliversOn, Behind;
    DeliversJoin(e, e1, r);
  }

  /** The count of match points against the commit index stands. */
  ghost predicate Tallies(n: Node, m: Node) {
    (Settled(n) ==> Settled(m)) && (Counted(n) ==> Counted(m)) && n.commit == m.commit
  }

  /** The node leads only if it did, with the same followers at the same match points. */
  ghost predicate LeadsAlike(n: Node, m: Node) {
    && m.commit == n.commit && m.applied == n.applied
    && (m.progress == [] || SameMatches(n.progress, m.progress))
    && (m.role == Leader ==> n.role == Leader && m.term == n.term && SameMatches(n.progress, m.progress))
  }

  /** A piece that only changes timers, votes and the like, and sends messages. */
  lemma Volatile(e: Effect, r: Effect)
    requires SameSetting(e.node, r.node) && Forward(e.node, r.node) && LeadsAlike(e.node, r.node)
    requires Deliveries(r.actions) == Deliveries(e.actions)
    requires Durable(e.node) ==> Durable(r.node)
    ensures Advances(e, r) && Tallies(e.node, r.node)
  {
    hide Durable, Deliveries, CommitScan, CountAcked, SameRows, MatchedBehind, Ids, Without;
    NothingDelivered(r.node.log, e.node.applied);
    if SameMatches(e.node.progress, r.node.progress) { SameMatchesIds(e.node.progress, r.node.progress); }
    if r.node.role == Leader {
      ScanSame(e.node, r.node, e.node.log.LastIndex());
      CountSame(e.node.progress, r.node.progress, e.node.commit);
    }
    EmptyBehind();
  }

  lemma EmptyBehind()
    ensures MatchedBehind([])
  {
  }

  // ---- sending -----------------------------------------------------------

  lemma {:induction false} BroadcastDelivers(actions: seq<Action>, peers: seq<NodeId>, self: NodeId, m: Message)
    ensures Deliveries(Broadcast(actions, peers, self, m)) == Deliveries(actions)
  {
    hide Deliveries;
    if peers != [] {
      var front := peers[..|peers| - 1];
      BroadcastDelivers(actions, front, self, m);
      DeliveriesEmit(Broadcast(actions, front, self, m), Send(peers[|peers| - 1], m));
    }
  }

  /** The same followers at the same match points. */
  ghost predicate SameRows(a: seq<Progress>, b: seq<Progress>) {
    |a| == |b| && forall i :: 0 <= i < |a| ==> a[i].id == b[i].id && a[i].matched == b[i].matched
  }

  ghost predicate SameMatches(a: seq<Progress>, b: seq<Progress>) {
    SameRows(a, b) && (MatchedBehind(a) ==> MatchedBehind(b))
  }

  /** Only messages are sent, and only next indices and sending modes change. */
  ghost predicate Sends(e: Effect, r: Effect) {
    && r.node == e.node.(progress := r.node.progress)
    && SameMatches(e.node.progress, r.node.progress)
    && Deliveries(r.actions) == Deliveries(e.actions)
  }

  lemma SendAppendSends(e: Effect, i: nat)
    requires i < |e.node.progress|
    ensures Sends(e, SendAppend(e, i))
  {
    hide Deliveries, Batch, Log.TermAt;
    var r := SendAppend(e, i);
    if r.actions != e.actions { DeliveriesEmit(e.actions, r.actions[|e.actions|]); }
  }

  lemma {:induction false} ReplicateSends(e: Effect, i: nat, all: bool)
    ensures Sends(e, ReplicateFrom(e, i, all))
    decreases |e.node.progress| - i
  {
    hide Deliveries, SendAppend;
    if i < |e.node.progress| {
      if all || e.node.progress[i].state == Replicate {
        SendAppendSends(e, i);
        ReplicateSends(SendAppend(e, i), i + 1, all);
      } else {
        ReplicateSends(e, i + 1, all);
      }
    }
  }

  lemma SameMatchesIds(a: seq<Progress>, b: seq<Progress>)
    requires SameMatches(a, b)
    ensures Ids(a) == Ids(b) && (MatchedBehind(a) ==> MatchedBehind(b))
  {
  }

  lemma SendsAdvances(e: Effect, r: Effect)
    requires Sends(e, r)
    ensures Advances(e, r) && Tallies(e.node, r.node)
  {
    hide Deliveries, SameMatches, Settled, Counted, Advances;
    Volatile(e, r);
  }

  // ---- committing and applying -------------------------------------------

  lemma {:induction false} CountSame(a: seq<Progress>, b: seq<Progress>, x: Index)
    requires SameRows(a, b)
    ensures CountAcked(a, x) == CountAcked(b, x)
  {
    if a != [] { CountSame(a[..|a| - 1], b[..|b| - 1], x); }
  }

  /** Counting looks only at the log, the term, the voters and the match points. */
  ghost predicate SameCount(n: Node, m: Node) {
    && n.id == m.id && n.voters == m.voters && n.term == m.term && SameMatches(n.progress, m.progress)
    && n.commit == m.commit
  }

  lemma {:induction false} ScanSame(n: Node, m: Node, i: Index)
    requires SameCount(n, m) && forall x :: n.commit < x <= i ==> m.log.TermAt(x) == n.log.TermAt(x)
    ensures CommitScan(n, i) == CommitScan(m, i)
  {
    hide SameRows, Log.TermAt, CountAcked;
    if i > n.commit {
      CountSame(n.progress, m.progress, i);
      ScanSame(n, m, i - 1);
    }
  }

  lemma {:induction false} ScanAgain(n: Node, i: Index)
    requires n.commit < CommitScan(n, i) <= i
    ensures CommitScan(n.(commit := CommitScan(n, i)), i) == CommitScan(n, i)
  {
    hide CountAcked, Log.TermAt;
    if i > CommitScan(n, i) { ScanAgain(n, i - 1); }
  }

  lemma HintSends(e: Effect)
    ensures var r := MaybeHintSnapshot(e);
            r.node == e.node.(hintedAt := r.node.hintedAt) && Deliveries(r.actions) == Deliveries(e.actions)
  {
    hide Deliveries, Log.TermAt;
    var r := MaybeHintSnapshot(e);
    if r.actions != e.actions { DeliveriesEmit(e.actions, r.actions[|e.actions|]); }
  }

  /** Draining applies everything up to the commit index, in order, and nothing else. */
  lemma {:induction false} DrainDelivers(e: Effect)
    ensures var r := DrainApplies(e);
            && r.node == e.node.(applied := Max(e.node.applied, e.node.commit), hintedAt := r.node.hintedAt)
            && Deliveries(r.actions) ==
               Deliveries(e.actions) + Delivered(e.node.log, e.node.applied, Max(e.node.applied, e.node.commit))
    decreases e.node.commit - e.node.applied
  {
    hide Deliveries, Delivered, ApplyActions, MaybeHintSnapshot;
    if e.node.applied < e.node.commit {
      var i := e.node.applied + 1;
      DrainDelivers(Effect(e.node.(applied := i), e.actions + ApplyActions(e.node.log, i)));
      DeliveriesApply(e.actions, e.node.log, i);
      DeliveredFirst(e.node.log, e.node.applied, e.node.commit);
    } else {
      HintSends(e);
      NothingDelivered(e.node.log, e.node.applied);
    }
  }

  lemma NothingDelivered(log: Log, i: Index)
    ensures Delivered(log, i, i) == []
  {
  }

  ghost predicate WillHint(n: Node) {
    n.log.base <= n.applied && n.commit <= n.log.LastIndex() && (n.applied < n.commit || Hinted(n))
  }

  /** A drain never forgets a hint, and hints if it has to. */
  lemma {:induction false} DrainHints(e: Effect)
    ensures e.node.hintedAt <= DrainApplies(e).node.hintedAt
    ensures WillHint(e.node) ==> Hinted(DrainApplies(e).node)
    decreases e.node.commit - e.node.applied
  {
    hide ApplyActions;
    if e.node.applied < e.node.commit {
      var i := e.node.applied + 1;
      DrainHints(Effect(e.node.(applied := i), e.actions + ApplyActions(e.node.log, i)));
      HintNow(Effect(e.node.(applied := i), e.actions + ApplyActions(e.node.log, i)));
    }
  }

  lemma HintNow(e: Effect)
    ensures e.node.log.base <= e.node.applied <= e.node.log.LastIndex() ==> Hinted(MaybeHintSnapshot(e).node)
  {
  }

  /** What advancing the commit index does to a node: it steps down if that commits its own removal. */
  ghost predicate CommitsTo(n: Node, m: Node, k: Index) {
    var c := n.(commit := k, applied := Max(n.applied, k), hintedAt := m.hintedAt);
    && m == (if CommittedOwnRemoval(c) then StepDown(c) else c)
    && n.hintedAt <= m.hintedAt
    && (WillHint(n.(commit := k)) ==> Hinted(m))
  }

  lemma AdvanceShape(e: Effect)
    ensures var k := CommitScan(e.node, e.node.log.LastIndex());
            if k > e.node.commit
            then CommitsTo(e.node, AdvanceCommit(e).node, k)
                 && Deliveries(AdvanceCommit(e).actions) ==
                    Deliveries(e.actions) + Delivered(e.node.log, e.node.applied, Max(e.node.applied, k))
            else AdvanceCommit(e) == e
  {
    hide Deliveries, Delivered, CommitScan, DrainApplies;
    var k := CommitScan(e.node, e.node.log.LastIndex());
    DrainDelivers(e.(node := e.node.(commit := k)));
    DrainHints(e.(node := e.node.(commit := k)));
  }

  lemma AdvanceAdvances(e: Effect)
    ensures Advances(e, AdvanceCommit(e))
  {
    hide Deliveries, Delivered, CommitScan, AdvanceCommit, Ids, MatchedBehind, Without;
    AdvanceShape(e);
    CommitScanFound(e.node, e.node.log.LastIndex());
    NothingDelivered(e.node.log, e.node.applied);
    EmptyBehind();
  }

  /** A piece that ends by counting. */
  ghost predicate Counts(n: Node, m: Node) {
    Settled(m) && (n.commit < m.commit ==> Counted(m))
  }

  /** Advancing leaves a leader settled, at a commit index it has counted. */
  lemma AdvanceSettles(e: Effect)
    ensures Counts(e.node, AdvanceCommit(e).node)
  {
    hide Deliveries, Delivered, CommitScan, AdvanceCommit, CountAcked, Log.TermAt;
    AdvanceShape(e);
    var n, last := e.node, e.node.log.LastIndex();
    var k := CommitScan(n, last);
    var r := AdvanceCommit(e).node;
    CommitScanFound(n, last);
    if k > n.commit && r.role == Leader {
      ScanAgain(n, last);
      ScanSame(n.(commit := k), r, last);
    }
  }

  // ---- elections ---------------------------------------------------------

  lemma {:induction false} RowsListed(voters: seq<NodeId>, self: NodeId, known: seq<Progress>, next: Index)
    requires MatchedBehind(known) && next > 0
    ensures Ids(ProgressFor(voters, self, known, next)) == Without(voters, self)
    ensures MatchedBehind(ProgressFor(voters, self, known, next))
  {
    if voters != [] { RowsListed(voters[..|voters| - 1], self, known, next); }
  }

  lemma RebuildLists(n: Node)
    requires MatchedBehind(n.progress)
    ensures Listed(RebuildProgress(n))
  {
    hide ProgressFor, Ids, MatchedBehind, Without;
    RowsListed(n.voters, n.id, n.progress, n.log.LastIndex() + 1);
  }

  lemma BecomeLeaderAdvances(e: Effect)
    ensures Listed(e.node) ==> Advances(e, BecomeLeader(e))
    ensures Counts(e.node, BecomeLeader(e).node)
  {
    hide Deliveries, Settled, Counted, ReplicateFrom, AdvanceCommit, Continues;
    var e1 := e.(node := Elected(e.node));
    var e2 := ReplicateFrom(e1, 0, true);
    AdvanceSettles(e2);
    ReplicateSends(e1, 0, true);
    SendsAdvances(e1, e2);
    if Listed(e.node) {
      ElectedAdvances(e);
      AdvanceAdvances(e2);
      Chain(e, e1, e2);
      Chain(e, e2, AdvanceCommit(e2));
    }
  }

  lemma ElectedAdvances(e: Effect)
    requires Listed(e.node)
    ensures Advances(e, e.(node := Elected(e.node)))
  {
    hide Deliveries, ProgressFor, MatchedBehind, Ids, Without;
    RebuildLists(e.node.(role := Leader, leaderId := Some(e.node.id), heartbeatElapsed := 0,
                         transferTarget := None, preVoting := false, preVotes := []));
    NothingDelivered(e.node.log, e.node.applied);
  }

  lemma StartElectionAdvances(e: Effect, force: bool, draw: nat)
    ensures Advances(e, StartElection(e, force, draw)) && Counts(e.node, StartElection(e, force, draw).node)
  {
    hide Deliveries, Settled, Counted, BecomeLeader, Continues, Broadcast, Log.LastTerm;
    var n := Campaigned(e.node, draw);
    var e1 := e.(node := n);
    CampaignedAdvances(e, draw);
    var r := StartElection(e, force, draw);
    if 1 >= Quorum(n) {
      BecomeLeaderAdvances(e1);
    } else {
      var m := RequestVote(n.term, n.id, n.log.LastIndex(), n.log.LastTerm(), force);
      BroadcastDelivers(e1.actions, n.voters, n.id, m);
      QuietAdvances(e1, r);
    }
    Chain(e, e1, r);
  }

  /** Only messages to peers are added. */
  lemma QuietAdvances(e: Effect, r: Effect)
    requires r.node == e.node && Deliveries(r.actions) == Deliveries(e.actions)
    ensures Advances(e, r) && (e.node.role != Leader ==> Settled(r.node)) && Tallies(e.node, r.node)
  {
    hide Deliveries, Listed, Durable, CommitScan, CountAcked;
    NothingDelivered(e.node.log, e.node.applied);
  }

  lemma CampaignedAdvances(e: Effect, draw: nat)
    ensures var r := e.(node := Campaigned(e.node, draw));
            Advances(e, r) && Listed(r.node) && r.node.role == Candidate && Settled(r.node)
            && r.node.commit == e.node.commit
  {
    hide Deliveries, Ids, Without, CommitScan;
    NothingDelivered(e.node.log, e.node.applied);
  }

  lemma StartPreVoteAdvances(e: Effect, draw: nat)
    ensures Advances(e, StartPreVote(e, draw)) && Counts(e.node, StartPreVote(e, draw).node)
  {
    hide Deliveries, Settled, Counted, StartElection, Continues, Broadcast, Log.LastTerm;
    var n := Probing(e.node, draw);
    var e1 := e.(node := n);
    var r := StartPreVote(e, draw);
    ProbingAdvances(e, draw);
    if 1 >= Quorum(n) {
      StartElectionAdvances(e1, false, draw);
    } else {
      BroadcastDelivers(e1.actions, n.voters, n.id, PreVote(n.term + 1, n.id, n.log.LastIndex(), n.log.LastTerm()));
      QuietAdvances(e1, r);
    }
    Chain(e, e1, r);
  }

  lemma ProbingAdvances(e: Effect, draw: nat)
    ensures var r := e.(node := Probing(e.node, draw));
            Advances(e, r) && r.node.role == Follower && r.node.commit == e.node.commit
  {
    hide Deliveries, Settled, Counted;
    Volatile(e, e.(node := Probing(e.node, draw)));
  }

  lemma BecomeFollowerAdvances(e: Effect, term: Term, leader: Option<NodeId>)
    ensures var r := e.(node := BecomeFollower(e.node, term, leader));
            Advances(e, r) && r.node.role == Follower && Settled(r.node) && r.node.commit == e.node.commit
  {
    hide Deliveries, Advances, CommitScan;
    Volatile(e, e.(node := BecomeFollower(e.node, term, leader)));
  }

  /** A handler's piece: what it keeps of a node with its rows in order. */
  ghost predicate Handles(e: Effect, r: Effect) {
    && (Listed(e.node) ==> Continues(e, r) && (r.node.role == Leader ==> e.node.commit <= r.node.commit))
    && (Settled(e.node) ==> Settled(r.node))
    && (e.node.commit < r.node.commit ==> Counted(r.node))
  }

  lemma SendOne(e: Effect, n: Node, to_: NodeId, m: Message)
    requires SameSetting(e.node, n) && Forward(e.node, n) && LeadsAlike(e.node, n)
    requires Durable(e.node) ==> Durable(n)
    ensures Handles(e, Emit(e.(node := n), Send(to_, m)))
  {
    hide Deliveries, Settled, Counted, Continues, SameSetting, Forward, LeadsAlike, Durable;
    DeliveriesEmit(e.actions, Send(to_, m));
    Volatile(e, Emit(e.(node := n), Send(to_, m)));
  }

  lemma RequestVoteHandles(e: Effect, rv: Message, draw: nat)
    requires rv.RequestVote? && rv.term <= e.node.term
    ensures Handles(e, HandleRequestVote(e, rv, draw))
  {
    hide Deliveries, Handles, CandidateLogUpToDate;
    var r := HandleRequestVote(e, rv, draw);
    SendOne(e, r.node, rv.candidate, r.actions[|e.actions|].message);
  }

  lemma VoteReplyHandles(e: Effect, reply: Message)
    requires reply.RequestVoteReply?
    ensures Handles(e, HandleVoteReply(e, reply))
  {
    hide Deliveries, Settled, Counted, Continues, BecomeLeader;
    var r := HandleVoteReply(e, reply);
    var e1 := e.(node := e.node.(votes := e.node.votes + [reply.from]));
    Volatile(e, e);
    Volatile(e, e1);
    if r != e && r != e1 {
      BecomeLeaderAdvances(e1);
      if Listed(e.node) { Chain(e, e1, r); }
    }
  }

  lemma PreVoteHandles(e: Effect, pv: Message)
    requires pv.PreVote?
    ensures Handles(e, HandlePreVote(e, pv))
  {
    hide Deliveries, Handles, CandidateLogUpToDate;
    SendOne(e, e.node, pv.candidate, HandlePreVote(e, pv).actions[|e.actions|].message);
  }

  lemma PreVoteReplyHandles(e: Effect, reply: Message, draw: nat)
    requires reply.PreVoteReply?
    ensures Handles(e, HandlePreVoteReply(e, reply, draw))
  {
    hide Deliveries, Settled, Counted, Continues, StartElection, BecomeFollower;
    var e1 := e.(node := e.node.(preVotes := e.node.preVotes + [reply.from]));
    BecomeFollowerAdvances(e, reply.term, None);
    Volatile(e, e);
    Volatile(e, e1);
    StartElectionAdvances(e1, false, draw);
    Chain(e, e1, StartElection(e1, false, draw));
  }

  lemma TimeoutNowHandles(e: Effect, rpc: Message, draw: nat)
    requires rpc.TimeoutNow?
    ensures Handles(e, HandleTimeoutNow(e, rpc, draw))
  {
    hide Deliveries, Settled, Counted, Continues, StartElection;
    Volatile(e, e);
    StartElectionAdvances(e, true, draw);
  }

  // ---- acknowledgements --------------------------------------------------

  /** One row moves, staying behind its next index. */
  lemma RowMoves(e: Effect, i: nat, p: Progress)
    requires i < |e.node.progress| && p.id == e.node.progress[i].id && p.matched < p.next
    ensures Advances(e, e.(node := e.node.(progress := e.node.progress[i := p])))
  {
    hide Deliveries, Without;
    assert Ids(e.node.progress[i := p]) == Ids(e.node.progress);
    NothingDelivered(e.node.log, e.node.applied);
  }

  lemma TimeoutNowSent(e: Effect, target: NodeId)
    ensures var r := MaybeSendTimeoutNow(e, target); Advances(e, r) && Tallies(e.node, r.node)
  {
    hide Deliveries, Settled, Counted, Continues;
    var r := MaybeSendTimeoutNow(e, target);
    if r.actions != e.actions { DeliveriesEmit(e.actions, r.actions[|e.actions|]); }
    Volatile(e, r);
  }

  lemma ResumeAdvances(e: Effect, from: NodeId, i: nat)
    ensures var r := Resume(e, from, i); Advances(e, r) && Tallies(e.node, r.node)
  {
    hide Deliveries, Settled, Counted, Continues, MaybeSendTimeoutNow, SendAppend, Sends;
    var e1 := MaybeSendTimeoutNow(e, from);
    var r := Resume(e, from, i);
    TimeoutNowSent(e, from);
    if r != e1 {
      SendAppendSends(e1, i);
      SendsAdvances(e1, r);
      Chain(e, e1, r);
    }
  }

  lemma CountAckAdvances(e: Effect, i: nat, matched: Index, next: Index)
    requires i < |e.node.progress| && matched < next
    ensures var r := CountAck(e, i, matched, next); Advances(e, r) && Counts(e.node, r.node)
  {
    hide Deliveries, Settled, Counted, Continues, AdvanceCommit, Resume;
    var p := e.node.progress[i].(matched := matched, next := next, state := Replicate);
    var e1 := e.(node := e.node.(progress := e.node.progress[i := p]));
    var e2 := AdvanceCommit(e1);
    RowMoves(e, i, p);
    AdvanceAdvances(e1);
    AdvanceSettles(e1);
    ResumeAdvances(e2, p.id, i);
    Chain(e, e1, e2);
    Chain(e, e2, Resume(e2, p.id, i));
  }

  lemma AppendReplyHandles(e: Effect, reply: Message)
    requires reply.AppendEntriesReply?
    ensures Handles(e, HandleAppendReply(e, reply))
  {
    hide Deliveries, Settled, Counted, Continues, CountAck, FindProgress, Sends, SendAppend, RejectedNext, Ids,
         Without;
    var n := e.node;
    Volatile(e, e);
    var found := FindProgress(n.progress, reply.from);
    if n.role == Leader && reply.term == n.term && found.Some? {
      var i := found.value;
      var p := n.progress[i];
      if reply.success {
        var matched := Max(p.matched, reply.matchIndex);
        CountAckAdvances(e, i, matched, Max(p.next, matched + 1));
      } else {
        var next := RejectedNext(n.log, p.next, p.matched, reply.conflictIndex, reply.conflictTerm);
        RejectionHandles(e, i, next);
      }
    }
  }

  lemma RejectionHandles(e: Effect, i: nat, next: Index)
    requires i < |e.node.progress| && e.node.progress[i].matched < next
    ensures var n := e.node.(progress := e.node.progress[i := e.node.progress[i].(next := next, state := Probe)]);
            Handles(e, SendAppend(e.(node := n), i))
  {
    hide Deliveries, Settled, Counted, Continues, Sends, SendAppend;
    var n := e.node.(progress := e.node.progress[i := e.node.progress[i].(next := next, state := Probe)]);
    var e1 := e.(node := n);
    Volatile(e, e1);
    SendAppendSends(e1, i);
    SendsAdvances(e1, SendAppend(e1, i));
    Chain(e, e1, SendAppend(e1, i));
  }

  lemma SnapshotReplyHandles(e: Effect, reply: Message)
    requires reply.InstallSnapshotReply?
    ensures Handles(e, HandleInstallSnapshotReply(e, reply))
  {
    hide Deliveries, Settled, Counted, Continues, CountAck, FindProgress;
    Volatile(e, e);
    var found := FindProgress(e.node.progress, reply.from);
    if e.node.role == Leader && reply.term == e.node.term && found.Some? {
      var matched := Max(e.node.progress[found.value].matched, reply.lastIndex);
      CountAckAdvances(e, found.value, matched, matched + 1);
    }
  }

  lemma TransferHandles(n: Node, target: NodeId)
    ensures Handles(Effect(n, []), TransferTo(n, target))
  {
    hide Deliveries, Settled, Counted, Continues, MaybeSendTimeoutNow, SendAppend, Sends, FindProgress;
    var e := Effect(n, []);
    var e1 := e.(node := n.(transferTarget := Some(target)));
    var e2 := MaybeSendTimeoutNow(e1, target);
    Volatile(e, e);
    Volatile(e, e1);
    TimeoutNowSent(e1, target);
    Chain(e, e1, e2);
    var found := FindProgress(e2.node.progress, target);
    if found.Some? {
      SendAppendSends(e2, found.value);
      SendsAdvances(e2, SendAppend(e2, found.value));
      Chain(e, e2, SendAppend(e2, found.value));
    }
  }

  lemma TickHandles(n: Node, draw: nat)
    ensures Handles(Effect(n, []), HandleTick(n, draw))
  {
    hide Deliveries, Settled, Counted, Continues, ReplicateFrom, StartPreVote, Sends;
    var e := Effect(n, []);
    var r := HandleTick(n, draw);
    if n.role == Leader {
      var beat := n.(heartbeatElapsed := n.heartbeatElapsed + 1);
      var e1 := e.(node := if beat.heartbeatElapsed >= n.params.heartbeat then beat.(heartbeatElapsed := 0) else beat);
      Volatile(e, e1);
      ReplicateSends(e1, 0, true);
      SendsAdvances(e1, ReplicateFrom(e1, 0, true));
      Chain(e, e1, ReplicateFrom(e1, 0, true));
    } else {
      var e1 := e.(node := n.(electionElapsed := n.electionElapsed + 1));
      Volatile(e, e1);
      StartPreVoteAdvances(e1, draw);
      Chain(e, e1, StartPreVote(e1, draw));
    }
  }
}
