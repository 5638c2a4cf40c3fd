/**
 What an election event makes a node do, stated over the whole step: who is asked, what is answered,
 and exactly when the answers are enough. Majorities are counted here as sets of servers.
 */
module Elections {
  import opened Types
  import opened LogStore
  import opened Protocol
  import opened NodeInvariant
  import opened ElectionSteps
  import opened Bookkeeping

  // ---- asking ------------------------------------------------------------

  /** Every other voter is sent `m`, and nothing else is done. */
  ghost predicate AsksOthers(actions: seq<Action>, voters: seq<NodeId>, self: NodeId, m: Message) {
    forall a :: a in actions <==> exists v :: v in voters && v != self && a == Send(v, m)
  }

  lemma {:induction false} BroadcastReaches(actions: seq<Action>, peers: seq<NodeId>, self: NodeId, m: Message,
                                            a: Action)
    ensures a in Broadcast(actions, peers, self, m) <==>
              a in actions || exists v :: v in peers && v != self && a == Send(v, m)
  {
    if peers != [] {
      var front, last := peers[..|peers| - 1], peers[|peers| - 1];
      BroadcastReaches(actions, front, self, m, a);
      assert peers == front + [last];
    }
  }

  lemma BroadcastAsks(voters: seq<NodeId>, self: NodeId, m: Message)
    ensures AsksOthers(Broadcast([], voters, self, m), voters, self, m)
  {
    forall a ensures a in Broadcast([], voters, self, m) <==> exists v :: v in voters && v != self && a == Send(v, m) {
      BroadcastReaches([], voters, self, m, a);
    }
  }

  /** The node stands in its next term: its vote for itself is stored, and every other voter is asked. */
  ghost predicate Stands(n: Node, e: Effect, force: bool) {
    var m := e.node;
    && m.role == Candidate && m.term == n.term + 1 && m.votedFor == Some(n.id) && m.votes == [n.id]
    && m.progress == [] && m.leaderId == None && m.transferTarget == None && !m.preVoting
    && m.electionElapsed == 0 && m.id == n.id && m.voters == n.voters
    && m.log == n.log.(hard := HardState(n.term + 1, Some(n.id)))
    && AsksOthers(e.actions, n.voters, n.id,
                  RequestVote(n.term + 1, n.id, n.log.LastIndex(), n.log.LastTerm(), force))
  }

  lemma ElectionStands(n: Node, force: bool, draw: nat)
    requires |n.voters| > 1
    ensures Stands(n, StartElection(Effect(n, []), force, draw), force)
  {
    hide BecomeLeader, AsksOthers, Broadcast;
    var m := Campaigned(n, draw);
    BroadcastAsks(n.voters, n.id, RequestVote(n.term + 1, n.id, n.log.LastIndex(), n.log.LastTerm(), force));
    assert m.log.LastTerm() == n.log.LastTerm();
  }

  // ---- taking office -----------------------------------------------------

  /** The announcement of a new leader: an append at the end of its log. */
  function Announcement(n: Node): Message {
    AppendEntries(n.term, n.id, n.log.LastIndex(), n.log.LastTerm(), [], n.commit)
  }

  ghost predicate FreshRows(rows: seq<Progress>, next: Index) {
    forall k :: 0 <= k < |rows| ==> rows[k] == Progress(rows[k].id, next, 0, Probe)
  }

  ghost predicate AllFresh(n: Node) {
    FreshRows(n.progress, n.log.LastIndex() + 1)
  }

  lemma {:induction false} FreshTable(voters: seq<NodeId>, self: NodeId, next: Index, v: NodeId)
    ensures FreshRows(ProgressFor(voters, self, [], next), next)
    ensures v in voters && v != self ==> Progress(v, next, 0, Probe) in ProgressFor(voters, self, [], next)
  {
    if voters != [] {
      FreshTable(voters[..|voters| - 1], self, next, v);
      assert voters == voters[..|voters| - 1] + [voters[|voters| - 1]];
    }
  }

  lemma FreshSent(e: Effect, i: nat)
    requires AllFresh(e.node) && i < |e.node.progress|
    ensures SendAppend(e, i) == Effect(e.node, e.actions + [Send(e.node.progress[i].id, Announcement(e.node))])
  {
  }

  lemma {:induction false} AllAnnounced(e: Effect, i: nat)
    requires AllFresh(e.node)
    ensures var r := ReplicateFrom(e, i, true);
            && r.node == e.node && e.actions <= r.actions
            && forall k :: i <= k < |e.node.progress| ==> Send(e.node.progress[k].id, Announcement(e.node)) in r.actions
    decreases |e.node.progress| - i
  {
    hide SendAppend, AllFresh;
    if i < |e.node.progress| {
      FreshSent(e, i);
      AllAnnounced(SendAppend(e, i), i + 1);
      assert SendAppend(e, i).actions[|e.actions|] == Send(e.node.progress[i].id, Announcement(e.node));
    }
  }

  lemma {:induction false} DrainExtends(e: Effect)
    ensures e.actions <= DrainApplies(e).actions
    decreases e.node.commit - e.node.applied
  {
    hide ApplyActions;
    if e.node.applied < e.node.commit {
      var i := e.node.applied + 1;
      DrainExtends(Effect(e.node.(applied := i), e.actions + ApplyActions(e.node.log, i)));
    }
  }

  lemma {:induction false} ReplicateExtends(e: Effect, i: nat, all: bool)
    ensures e.actions <= ReplicateFrom(e, i, all).actions
    decreases |e.node.progress| - i
  {
    hide Batch, Log.TermAt, Log.CurrentSnapshot;
    if i < |e.node.progress| {
      if all || e.node.progress[i].state == Replicate {
        ReplicateExtends(SendAppend(e, i), i + 1, all);
      } else {
        ReplicateExtends(e, i + 1, all);
      }
    }
  }

  lemma AdvanceExtends(e: Effect)
    ensures e.actions <= AdvanceCommit(e).actions
  {
    hide DrainApplies, CommitScan;
    DrainExtends(e.(node := e.node.(commit := CommitScan(e.node, e.node.log.LastIndex()))));
  }

  /** The node leads its term, or has just committed its own removal, and has told every other voter. */
  ghost predicate TakesOffice(n: Node, e: Effect) {
    && e.node.term == n.term && e.node.role != Candidate
    && (n.id in n.voters ==> e.node.role == Leader && e.node.leaderId == Some(n.id))
    && forall v :: v in n.voters && v != n.id ==> Send(v, Announcement(n)) in e.actions
  }

  lemma OfficeTaken(n: Node)
    requires n.progress == []
    ensures TakesOffice(n, BecomeLeader(Effect(n, [])))
  {
    hide AdvanceCommit, ReplicateFrom, Deliveries, Delivered, Log.LastTerm, CommitScan;
    var n1 := Elected(n);
    var e1 := ReplicateFrom(Effect(n1, []), 0, true);
    var e2 := AdvanceCommit(e1);
    FreshTable(n.voters, n.id, n.log.LastIndex() + 1, n.id);
    AllAnnounced(Effect(n1, []), 0);
    AdvanceExtends(e1);
    AdvanceShape(e1);
    forall v | v in n.voters && v != n.id ensures Send(v, Announcement(n)) in e2.actions {
      FreshTable(n.voters, n.id, n.log.LastIndex() + 1, v);
      var k :| 0 <= k < |n1.progress| && n1.progress[k] == Progress(v, n.log.LastIndex() + 1, 0, Probe);
      assert Send(v, Announcement(n)) in e1.actions;
    }
  }

  lemma LoneOffice(c: Node)
    requires TakesOffice(c, BecomeLeader(Effect(c, [])))
    ensures var m := BecomeLeader(Effect(c, [])).node;
            (c.voters == [c.id] ==> m.role == Leader) && m.term == c.term && m.votedFor == c.votedFor
  {
    hide AdvanceCommit, ReplicateFrom, Deliveries, Delivered, Log.LastTerm, CommitScan;
    var e1 := ReplicateFrom(Effect(Elected(c), []), 0, true);
    ReplicateSends(Effect(Elected(c), []), 0, true);
    AdvanceShape(e1);
  }

  /** The node enters its next term and votes for itself: it stands if there is anyone to ask, and leads if
      it is its own majority. */
  ghost predicate Campaigns(n: Node, e: Effect, force: bool) {
    && e.node.term == n.term + 1 && e.node.votedFor == Some(n.id)
    && (|n.voters| > 1 ==> Stands(n, e, force))
    && (n.voters == [n.id] ==> e.node.role == Leader)
  }

  lemma ElectionHeld(n: Node, force: bool, draw: nat)
    ensures Campaigns(n, StartElection(Effect(n, []), force, draw), force)
  {
    hide BecomeLeader, Stands, TakesOffice;
    if |n.voters| > 1 {
      ElectionStands(n, force, draw);
      StandsIn(n, StartElection(Effect(n, []), force, draw), force);
    } else {
      OfficeTaken(Campaigned(n, draw));
      LoneOffice(Campaigned(n, draw));
    }
  }

  lemma StandsIn(n: Node, e: Effect, force: bool)
    requires Stands(n, e, force)
    ensures e.node.term == n.term + 1 && e.node.votedFor == Some(n.id)
  {
    hide AsksOthers;
  }

  /** Standing takes no notice of how the round before it went. */
  lemma SameStand(n: Node, k: Node, e: Effect, force: bool)
    requires Campaigns(k, e, force)
    requires k.id == n.id && k.term == n.term && k.voters == n.voters && k.log == n.log
    ensures Campaigns(n, e, force)
  {
    hide AsksOthers;
  }

  /** A tick of a node that does not lead: until its timeout, and for a non-voter always, only time
      passes; then it asks every other voter for a pre-vote, with its term, its vote and its log as they
      were, or stands at once if there is no other. */
  lemma TimeoutOpensRound(n: Node, draw: nat)
    requires n.role != Leader
    ensures var o := Step(n, Tick, draw);
            && o.Done?
            && if n.electionElapsed + 1 < n.electionTimeout || n.id !in n.voters
               then o.effect == Effect(n.(electionElapsed := n.electionElapsed + 1), [])
               else if |n.voters| > 1
               then o.effect.node == n.(role := Follower, leaderId := None, preVoting := true, preVotes := [n.id],
                                        electionElapsed := 0, electionTimeout := draw)
                    && AsksOthers(o.effect.actions, n.voters, n.id,
                                  PreVote(n.term + 1, n.id, n.log.LastIndex(), n.log.LastTerm()))
               else Campaigns(n, o.effect, false)
  {
    hide StartElection, AsksOthers, Log.LastTerm, Broadcast, Stands, TakesOffice;
    var n1 := Probing(n.(electionElapsed := n.electionElapsed + 1), draw);
    BroadcastAsks(n.voters, n.id, PreVote(n.term + 1, n.id, n.log.LastIndex(), n.log.LastTerm()));
    ElectionHeld(n1, false, draw);
    SameStand(n, n1, StartElection(Effect(n1, []), false, draw), false);
  }

  // ---- answering ---------------------------------------------------------

  /** A log that ends in term `t` at index `i` is at least as recent as this one. */
  ghost predicate AsRecent(log: Log, t: Term, i: Index) {
    t >= log.LastTerm() && (t == log.LastTerm() ==> i >= log.LastIndex())
  }

  /** A pre-vote request changes nothing, and is granted exactly when no leader was heard from within the
      minimum timeout, the term asked for is not behind, and the asker's log is as recent. */
  lemma PreVoteAnswered(n: Node, pv: Message, draw: nat) returns (granted: bool)
    requires pv.PreVote?
    ensures Step(n, Receive(pv), draw) ==
            Done(Effect(n, [Send(pv.candidate, PreVoteReply(n.term, granted, n.id))]))
    ensures granted <==> !(n.leaderId.Some? && n.electionElapsed < n.params.electionMin)
                         && pv.term >= n.term && AsRecent(n.log, pv.lastLogTerm, pv.lastLogIndex)
  {
    hide Log.LastTerm, Log.LastIndex;
    granted := AsRecent(n.log, pv.lastLogTerm, pv.lastLogIndex) && pv.term >= n.term && !HasActiveLeader(n);
  }

  /** Leader stickiness: a node that heard its leader within the minimum timeout takes no notice of an
      unforced vote request, of whatever term. */
  lemma StickyNodeIgnoresRequest(n: Node, rv: Message, draw: nat)
    requires rv.RequestVote? && !rv.force && n.leaderId.Some? && n.electionElapsed < n.params.electionMin
    ensures Step(n, Receive(rv), draw) == Done(Effect(n, []))
  {
  }

  /** Any other vote request, and so every forced one, is answered in the later of the two terms. The vote
      is granted exactly when the request is not of an earlier term, no other candidate has the vote in
      that term, and the candidate's log is as recent; and then it is stored. */
  lemma VoteAnswered(n: Node, rv: Message, draw: nat) returns (granted: bool)
    requires rv.RequestVote? && (rv.force || n.leaderId.None? || n.electionElapsed >= n.params.electionMin)
    requires Durable(n)
    ensures var o := Step(n, Receive(rv), draw);
            && o.Done?
            && var m := o.effect.node;
               && m.term == Max(n.term, rv.term)
               && o.effect.actions == [Send(rv.candidate, RequestVoteReply(m.term, granted, n.id))]
               && m.votedFor == (if granted then Some(rv.candidate) else if rv.term > n.term then None else n.votedFor)
               && m.log == n.log.(hard := HardState(m.term, m.votedFor))
               && (granted ==> m.electionElapsed == 0 && m.electionTimeout == draw)
               && (rv.term > n.term ==> m.role == Follower && m.leaderId == None && m.transferTarget == None
                                        && m.progress == [] && m.votes == [] && !m.preVoting)
    ensures granted <==> rv.term >= n.term
                         && (rv.term > n.term || n.votedFor == None || n.votedFor == Some(rv.candidate))
                         && AsRecent(n.log, rv.lastLogTerm, rv.lastLogIndex)
  {
    hide Log.LastTerm, Log.LastIndex;
    var f := if rv.term > n.term then BecomeFollower(n, rv.term, None) else n;
    SameEnd(n.log, f.log);
    granted := rv.term >= f.term && (f.votedFor == None || f.votedFor == Some(rv.candidate))
               && AsRecent(n.log, rv.lastLogTerm, rv.lastLogIndex);
    assert Step(n, Receive(rv), draw) == Done(HandleRequestVote(Effect(f, []), rv, draw));
  }

  lemma SameEnd(log: Log, other: Log)
    requires other == log.(hard := other.hard)
    ensures other.LastTerm() == log.LastTerm() && other.LastIndex() == log.LastIndex()
  {
  }

  // ---- counting pre-votes ------------------------------------------------

  lemma OneMore(ids: seq<NodeId>, id: NodeId)
    requires Distinct(ids) && id !in ids
    ensures |SetOf(ids) + {id}| == |ids| + 1
  {
    DistinctSize(ids);
  }

  /** A pre-voting node stands for election, in the step in which it counts the reply, exactly when its
      granters are now more than half of the voters. */
  lemma PreVoteCounts(n: Node, from: NodeId, term: Term, draw: nat)
    requires n.preVoting && term <= n.term && Distinct(n.preVotes) && from !in n.preVotes
    ensures var o := Step(n, Receive(PreVoteReply(term, true, from)), draw);
            && o.Done?
            && if 2 * |SetOf(n.preVotes) + {from}| > |n.voters| then Campaigns(n, o.effect, false)
               else o.effect == Effect(n.(preVotes := n.preVotes + [from]), [])
  {
    hide StartElection, Campaigns;
    OneMore(n.preVotes, from);
    var n1 := n.(preVotes := n.preVotes + [from]);
    ElectionHeld(n1, false, draw);
    SameStand(n, n1, StartElection(Effect(n1, []), false, draw), false);
  }

  /** Other pre-vote replies: a later term ends the round and is adopted, with no vote; a refusal, a repeat,
      or a reply outside a round changes nothing. */
  lemma PreVoteReplyOtherwise(n: Node, reply: Message, draw: nat)
    requires reply.PreVoteReply? && Durable(n)
    ensures var o := Step(n, Receive(reply), draw);
            && o.Done?
            && (n.preVoting && reply.term > n.term ==>
                  && o.effect.actions == [] && o.effect.node.term == reply.term && o.effect.node.votedFor == None
                  && o.effect.node.role == Follower && !o.effect.node.preVoting && Durable(o.effect.node))
            && (!n.preVoting || (reply.term <= n.term && (!reply.voteGranted || reply.from in n.preVotes)) ==>
                  o.effect == Effect(n, []))
  {
    hide StartElection;
  }

  // ---- counting votes ----------------------------------------------------

  /** A candidate takes office, in the step in which it counts the vote, exactly when its granters are now
      more than half of the voters. */
  lemma VoteCounts(n: Node, from: NodeId, draw: nat)
    requires n.role == Candidate && n.progress == [] && Distinct(n.votes) && from !in n.votes
    ensures var o := Step(n, Receive(RequestVoteReply(n.term, true, from)), draw);
            && o.Done?
            && if 2 * |SetOf(n.votes) + {from}| > |n.voters| then TakesOffice(n, o.effect)
               else o.effect == Effect(n.(votes := n.votes + [from]), [])
  {
    hide BecomeLeader, TakesOffice;
    OneMore(n.votes, from);
    var n1 := n.(votes := n.votes + [from]);
    OfficeTaken(n1);
    SameOffice(n, n1, BecomeLeader(Effect(n1, [])));
  }

  lemma SameOffice(n: Node, k: Node, e: Effect)
    requires TakesOffice(k, e) && k == n.(votes := k.votes)
    ensures TakesOffice(n, e)
  {
  }

  /** A vote counts for nothing outside a candidacy, in another term, when it is refused or repeated. */
  lemma VoteCountsNot(n: Node, reply: Message, draw: nat)
    requires reply.RequestVoteReply? && reply.term <= n.term
    requires n.role != Candidate || reply.term < n.term || !reply.voteGranted || reply.from in n.votes
    ensures Step(n, Receive(reply), draw) == Done(Effect(n, []))
  {
  }

  // ---- the hand-over signal ----------------------------------------------

  /** A voter that the signal finds in its term, or brings there, stands at once, and its requests are
      forced; any other node does no more than adopt a later term. */
  lemma SignalStartsForcedElection(n: Node, rpc: Message, draw: nat)
    requires rpc.TimeoutNow?
    ensures var o := Step(n, Receive(rpc), draw);
            var f := if rpc.term > n.term then BecomeFollower(n, rpc.term, None) else n;
            && o.Done? && f.term == Max(n.term, rpc.term)
            && if rpc.term >= n.term && n.id in n.voters then Campaigns(f, o.effect, true)
               else o.effect == Effect(f, [])
  {
    hide StartElection, Campaigns;
    var f := if rpc.term > n.term then BecomeFollower(n, rpc.term, None) else n;
    ElectionHeld(f, true, draw);
  }
}
