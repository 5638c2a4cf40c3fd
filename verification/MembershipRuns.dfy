/**
 Changes of the membership over the life of one node: one at a time, adopted when appended, and a
 leader that has committed its own removal leads no longer.
 */
module MembershipRuns {
  import opened Types
  import opened LogStore
  import opened Protocol
  import opened NodeInvariant
  import opened Bookkeeping
  import opened NodeSteps
  import opened NodeRuns
  import Elections
  import opened LeaderSteps
  import opened ElectionSteps
  import opened Commitment
  import opened Backtracking
  import opened Replication

  // ---- one change at a time ----------------------------------------------

  predicate Changes(event: Event) { event.AddServer? || event.RemoveServer? }

  function Adding(event: Event): Option<NodeId> {
    if event.AddServer? then Some(event.id) else None
  }

  function Removing(event: Event): Option<NodeId> {
    if event.RemoveServer? then Some(event.id) else None
  }

  lemma ChangeStep(n: Node, event: Event, draw: nat)
    requires Changes(event)
    ensures Step(n, event, draw) == ChangeMembership(n, Adding(event), Removing(event))
  {
    hide ChangeMembership;
  }

  /** While a leader's log holds a configuration that is not yet committed, every change is refused and
      the node is as it was. */
  lemma OneChangeAtATime(l: Life, i: nat, x: Index)
    requires IsLife(l) && i < |l.turns| && l.turns[i].Handle? && Changes(l.turns[i].event)
    requires var n := l.nodes[i]; n.role == Leader && ConfigHeldAt(n.log, x) && x > n.commit
    ensures var n := l.nodes[i];
            && Step(n, l.turns[i].event, l.turns[i].draw) ==
               Failed(n, if n.transferTarget.Some? then NotLeader(n.leaderId) else ConfigInProgress)
            && l.nodes[i + 1] == n
  {
    hide Starts, Step, AdoptMembers, ChangedMembers, Kept;
    AlwaysKept(l, i);
    TurnAt(l, i);
    MembershipCached(l, i, x);
    ChangeStep(l.nodes[i], l.turns[i].event, l.turns[i].draw);
  }

  /** Otherwise a leader that is not handing over takes the change: the members are the old ones with the
      one server added or removed, in force at once, and recorded by the next entry of its log unless
      nothing changed. */
  lemma ChangeIsTaken(l: Life, i: nat)
    requires IsLife(l) && i < |l.turns| && l.turns[i].Handle? && Changes(l.turns[i].event)
    requires var n := l.nodes[i];
             && n.role == Leader && n.transferTarget.None?
             && forall x: Index :: ConfigHeldAt(n.log, x) ==> x <= n.commit
    ensures var n, m, event := l.nodes[i], l.nodes[i + 1], l.turns[i].event;
            && Step(n, event, l.turns[i].draw).Done?
            && (forall v :: v in m.voters <==>
                            (v in n.voters || Adding(event) == Some(v)) && Removing(event) != Some(v))
            && Ascending(m.voters)
            && if m.voters == n.voters then m == n
               else m.log.LastIndex() == n.log.LastIndex() + 1 && ConfigHeldAt(m.log, m.log.LastIndex())
                    && m.log.Entry(m.log.LastIndex()).value.Members() == Some(m.voters)
  {
    hide Starts, Step, AdoptMembers, ChangedMembers, Kept;
    AlwaysKept(l, i);
    TurnAt(l, i);
    var n, event := l.nodes[i], l.turns[i].event;
    MembershipCached(l, i, n.configIndex);
    ChangeStep(n, event, l.turns[i].draw);
    var members := ChangedMembers(n.voters, Adding(event), Removing(event));
    ChangeVoters(n, Adding(event), Removing(event));
    AdoptAppends(n, members);
    forall v ensures v in members <==> (v in n.voters || Adding(event) == Some(v)) && Removing(event) != Some(v) {
      ChangedMembersAre(n.voters, Adding(event), Removing(event), v);
    }
    ChangedMembersAre(n.voters, Adding(event), Removing(event), 0);
  }

  lemma AdoptAppends(n: Node, members: seq<NodeId>)
    ensures AdoptMembers(n, members).Done?
    ensures var m, next := AdoptMembers(n, members).effect.node, n.log.LastIndex() + 1;
            && m.voters == members && m.log.LastIndex() == next
            && m.log.Entry(next).Some? && m.log.Entry(next).value.Members() == Some(members)
  {
    hide Deliveries, Settled, Counted, DeliversOn, Listed, Durable, Behind, ReplicateFrom, AdvanceCommit, Sends,
         SetConfig, Log.Append, Log.Indexed;
    var index := n.log.LastIndex() + 1;
    var entry := ConfigEntry(n.term, index, members);
    AppendNext(n.log, entry);
    AdoptVoters(n, members);
    var log := n.log.(entries := n.log.entries + [entry]);
    var e := Effect(n.(log := log), []);
    var e1 := SetConfig(e, members, index);
    SetConfigShape(e, members, index);
    ReplicateSends(e1, 0, true);
    SendsAdvances(e1, ReplicateFrom(e1, 0, true));
    AdvanceAdvances(ReplicateFrom(e1, 0, true));
    ConfigEntryMembers(n.term, index, members);
    assert log.Entry(index) == Some(entry);
  }

  /** A node that does not lead, or is handing over, refuses every change and is as it was. */
  lemma ChangeNeedsLeader(n: Node, event: Event, draw: nat)
    requires Changes(event) && (n.role != Leader || n.transferTarget.Some?)
    ensures Step(n, event, draw) == Failed(n, NotLeader(n.leaderId))
  {
    hide AdoptMembers, ChangedMembers;
  }

  // ---- stepping down -----------------------------------------------------

  /** A turn that raises a node's commit index and leaves it leading leaves it a voter, or without any
      live configuration entry, or with one that is not yet committed. */
  lemma RemovedLeaderStepsDown(l: Life, i: nat)
    requires IsLife(l) && i < |l.turns| && l.turns[i].Handle?
    requires l.nodes[i].commit < l.nodes[i + 1].commit && l.nodes[i + 1].role == Leader
    ensures var m := l.nodes[i + 1];
            || m.id in m.voters
            || (forall x: Index :: !ConfigHeldAt(m.log, x))
            || (exists x: Index :: x > m.commit && ConfigHeldAt(m.log, x))
  {
    hide Starts, Step, Kept, Forward, DeliversOn, Restored, Rebased;
    AlwaysKept(l, i);
    TurnAt(l, i);
    var n, m := l.nodes[i], l.nodes[i + 1];
    StepIsKept(n, l.turns[i].event, l.turns[i].draw);
    if Refuses(n, l.turns[i]) { StepRefused(n, l.turns[i].event, l.turns[i].draw); }
    MembershipCached(l, i + 1, m.configIndex);
    if m.id !in m.voters && m.configIndex == 0 {
      forall x: Index ensures !ConfigHeldAt(m.log, x) { MembershipCached(l, i + 1, x); }
    }
  }

  /** The node has just committed a configuration without itself. */
  ghost predicate CommittedItsRemoval(n: Node, m: Node) {
    n.commit < m.commit && m.id !in m.voters && 0 < m.configIndex <= m.commit
  }

  lemma AdvanceKeepsLeading(e: Effect)
    requires e.node.role == Leader
    ensures var m := AdvanceCommit(e).node;
            && m.id == e.node.id && m.term == e.node.term && e.node.commit <= m.commit
            && (m.role == Leader || CommittedItsRemoval(e.node, m))
  {
    hide Deliveries, Delivered, CommitScan, AdvanceCommit;
    AdvanceShape(e);
  }

  lemma ResumeKeepsRole(e: Effect, from: NodeId, i: nat)
    ensures var m := Resume(e, from, i).node;
            && m.role == e.node.role && m.commit == e.node.commit && m.id == e.node.id && m.voters == e.node.voters
            && m.configIndex == e.node.configIndex && m.term == e.node.term
  {
    hide SendAppend, FindProgress, Deliveries, SameMatches;
    var e1 := MaybeSendTimeoutNow(e, from);
    if i < |e1.node.progress| { SendAppendSends(e1, i); }
  }

  lemma CountAckKeepsLeading(e: Effect, i: nat, matched: Index, next: Index)
    requires e.node.role == Leader && i < |e.node.progress|
    ensures var m := CountAck(e, i, matched, next).node; m.role == Leader || CommittedItsRemoval(e.node, m)
  {
    hide AdvanceCommit, Resume;
    var n := e.node;
    var p := n.progress[i].(matched := matched, next := next, state := Replicate);
    var e1 := AdvanceCommit(e.(node := n.(progress := n.progress[i := p])));
    AdvanceKeepsLeading(e.(node := n.(progress := n.progress[i := p])));
    ResumeKeepsRole(e1, p.id, i);
  }

  lemma ReplyKeepsLeading(n: Node, reply: Message)
    requires n.role == Leader && (reply.AppendEntriesReply? || reply.InstallSnapshotReply?)
    ensures var e := Effect(n, []);
            var m := if reply.AppendEntriesReply? then HandleAppendReply(e, reply).node
                     else HandleInstallSnapshotReply(e, reply).node;
            m.role == Leader || CommittedItsRemoval(n, m)
  {
    hide CountAck, FindProgress, RejectedNext, SendAppend, CommittedItsRemoval, Deliveries, SameMatches;
    var found := FindProgress(n.progress, reply.from);
    if found.Some? && reply.term == n.term {
      var i := found.value;
      var p := n.progress[i];
      if reply.InstallSnapshotReply? {
        var matched := Max(p.matched, reply.lastIndex);
        CountAckKeepsLeading(Effect(n, []), i, matched, matched + 1);
      } else if reply.success {
        var matched := Max(p.matched, reply.matchIndex);
        CountAckKeepsLeading(Effect(n, []), i, matched, Max(p.next, matched + 1));
      } else {
        var next := RejectedNext(n.log, p.next, p.matched, reply.conflictIndex, reply.conflictTerm);
        SendAppendSends(Effect(n.(progress := n.progress[i := p.(next := next, state := Probe)]), []), i);
      }
    }
  }

  lemma ProposeKeepsLeading(n: Node, command: Bytes)
    requires n.role == Leader && HandlePropose(n, command).Done?
    ensures var m := HandlePropose(n, command).effect.node; m.role == Leader || CommittedItsRemoval(n, m)
  {
    hide AdvanceCommit, ReplicateFrom, CommittedItsRemoval, Deliveries, SameMatches;
    var log := n.log.Append([NormalEntry(n.term, n.log.LastIndex() + 1, command)]).value;
    var e := Effect(n.(log := log), []);
    ReplicateSends(e, 0, false);
    AdvanceKeepsLeading(ReplicateFrom(e, 0, false));
    SameBefore(n, ReplicateFrom(e, 0, false).node, AdvanceCommit(ReplicateFrom(e, 0, false)).node);
  }

  lemma SameBefore(n: Node, k: Node, m: Node)
    requires n.commit == k.commit
    ensures CommittedItsRemoval(n, m) <==> CommittedItsRemoval(k, m)
  {
  }

  /** A proposal or a reply of its own term makes a leader stop leading only by committing its removal. */
  lemma LeaderStopsOnOwnRemoval(n: Node, event: Event, draw: nat)
    requires n.role == Leader && Step(n, event, draw).Done?
    requires event.Propose? || (event.Receive? && event.message.term == n.term
                                && (event.message.AppendEntriesReply? || event.message.InstallSnapshotReply?))
    ensures var m := Step(n, event, draw).effect.node;
            m.role == Leader || (n.commit < m.commit && m.id !in m.voters && 0 < m.configIndex <= m.commit)
  {
    hide HandlePropose, HandleAppendReply, HandleInstallSnapshotReply;
    if event.Propose? { ProposeKeepsLeading(n, event.command); } else { ReplyKeepsLeading(n, event.message); }
  }

  /** A change that is taken is announced, unless nothing changed. */
  lemma ChangeIsAnnounced(n: Node, event: Event, draw: nat)
    requires Changes(event) && Step(n, event, draw).Done? && Step(n, event, draw).effect.node.voters != n.voters
    ensures var e := Step(n, event, draw).effect; MembershipChanged(e.node.voters) in e.actions
  {
    hide AdoptMembers, ChangedMembers, Step;
    ChangeStep(n, event, draw);
    var members := ChangedMembers(n.voters, Adding(event), Removing(event));
    ChangeVoters(n, Adding(event), Removing(event));
    AdoptAnnounces(n, members);
  }

  lemma AdoptAnnounces(n: Node, members: seq<NodeId>)
    requires members != n.voters && AdoptMembers(n, members).Done?
    ensures MembershipChanged(members) in AdoptMembers(n, members).effect.actions
  {
    hide ReplicateFrom, AdvanceCommit, ProgressFor, Log.Append;
    var index := n.log.LastIndex() + 1;
    var log := n.log.Append([ConfigEntry(n.term, index, members)]).value;
    var e := SetConfig(Effect(n.(log := log), []), members, index);
    assert e.actions == [MembershipChanged(members)];
    Elections.ReplicateExtends(e, 0, true);
    Elections.AdvanceExtends(ReplicateFrom(e, 0, true));
    assert AdvanceCommit(ReplicateFrom(e, 0, true)).actions[0] == MembershipChanged(members);
  }

  /** A change that is taken is sent at once to every other member. */
  lemma ChangeReaches(n: Node, event: Event, draw: nat, v: NodeId)
    requires Changes(event) && Step(n, event, draw).Done? && Step(n, event, draw).effect.node.voters != n.voters
    requires CanSend(n) && MatchedBehind(n.progress)
    ensures var e := Step(n, event, draw).effect;
            v in e.node.voters && v != n.id ==> exists packet :: Send(v, packet) in e.actions
  {
    hide AdoptMembers, ChangedMembers, Step, CanSend;
    ChangeStep(n, event, draw);
    ChangeVoters(n, Adding(event), Removing(event));
    var members := ChangedMembers(n.voters, Adding(event), Removing(event));
    if v in members && v != n.id { AdoptReaches(n, members, v); }
  }

  lemma AdoptReaches(n: Node, members: seq<NodeId>, v: NodeId)
    requires n.role == Leader && CanSend(n) && MatchedBehind(n.progress) && v in members && v != n.id
    ensures AdoptMembers(n, members).Done?
    ensures exists packet :: Send(v, packet) in AdoptMembers(n, members).effect.actions
  {
    hide ReplicateFrom, AdvanceCommit, Log.Append, Log.Indexed, ProgressFor, ReachesRow, Log.CurrentSnapshot;
    var index := n.log.LastIndex() + 1;
    var entry := ConfigEntry(n.term, index, members);
    AppendNext(n.log, entry);
    var log := n.log.(entries := n.log.entries + [entry]);
    var e := SetConfig(Effect(n.(log := log), []), members, index);
    SetConfigShape(Effect(n.(log := log), []), members, index);
    SameStore(n.log, log);
    WithoutIn(members, n.id, v);
    var k :| 0 <= k < |Ids(e.node.progress)| && Ids(e.node.progress)[k] == v;
    ReplicateReaches(e, 0, true);
    assert ReachesRow(e.node, k, ReplicateFrom(e, 0, true).actions);
    RowSent(e.node, k, ReplicateFrom(e, 0, true).actions);
    Elections.AdvanceExtends(ReplicateFrom(e, 0, true));
  }

  lemma SameStore(log: Log, longer: Log)
    requires longer == log.(entries := longer.entries)
    ensures longer.CurrentSnapshot() == log.CurrentSnapshot()
  {
  }

  lemma RowSent(n: Node, k: nat, actions: seq<Action>)
    requires k < |n.progress| && ReachesRow(n, k, actions)
    ensures exists packet :: Send(n.progress[k].id, packet) in actions
  {
    hide SentFor;
  }

  // ---- counting while the voters change ----------------------------------

  /** The voters, this server perhaps among them, known to hold `x`. */
  ghost function VotersReaching(n: Node, x: Index): set<NodeId> {
    set v | v in n.voters && (v == n.id || exists k :: 0 <= k < |n.progress| && n.progress[k].id == v
                                                          && n.progress[k].matched >= x)
  }

  lemma RowIds(n: Node)
    requires Listed(n) && n.role == Leader && Distinct(n.voters)
    ensures forall i, j :: 0 <= i < j < |n.progress| ==> n.progress[i].id != n.progress[j].id
    ensures forall k :: 0 <= k < |n.progress| ==> n.progress[k].id in n.voters && n.progress[k].id != n.id
  {
    hide MatchedBehind, Without;
    DistinctWithout(n.voters, n.id);
    forall k | 0 <= k < |n.progress| ensures n.progress[k].id in n.voters && n.progress[k].id != n.id {
      assert Ids(n.progress)[k] == n.progress[k].id;
      WithoutIn(n.voters, n.id, n.progress[k].id);
    }
    forall i, j | 0 <= i < j < |n.progress| ensures n.progress[i].id != n.progress[j].id {
      assert Ids(n.progress)[i] != Ids(n.progress)[j];
    }
  }

  /** Counting rows, and this server if it is a voter, counts voters. */
  lemma ReachersCounted(n: Node, x: Index)
    requires Listed(n) && n.role == Leader && Distinct(n.voters)
    ensures |VotersReaching(n, x)| == Replicas(n, x)
  {
    hide Listed, Distinct, VotersReaching;
    RowIds(n);
    AckersCounted(n.progress, x);
    ReachersAre(n, x);
    AckersAre(n.progress, x);
    assert n.id !in Ackers(n.progress, x);
  }

  lemma ReachersAre(n: Node, x: Index)
    requires forall k :: 0 <= k < |n.progress| ==> n.progress[k].id in n.voters && n.progress[k].id != n.id
    ensures VotersReaching(n, x) == (if n.id in n.voters then {n.id} else {}) + Ackers(n.progress, x)
  {
    AckersAre(n.progress, x);
  }

  /** Whatever the membership: advancing commits the greatest entry of the leader's own term that more than
      half of the voters hold, or nothing. */
  lemma AdvanceCommitsGreatest(e: Effect, x: Index)
    requires e.node.role == Leader && Listed(e.node) && Distinct(e.node.voters)
    requires TermsRise(e.node.log) && e.node.log.base <= e.node.commit
    ensures var n, c := e.node, AdvanceCommit(e).node.commit;
            && (c > n.commit ==> n.log.TermAt(c) == Some(n.term) && 2 * |VotersReaching(n, c)| > |n.voters|)
            && (x > c && n.log.TermAt(x) == Some(n.term) ==> 2 * |VotersReaching(n, x)| <= |n.voters|)
            && c >= n.commit
  {
    hide AdvanceCommit, CommitScan, VotersReaching, Listed, Distinct, TermsRise, Log.TermAt, CountAcked, Deliveries,
         Delivered;
    var n, last := e.node, e.node.log.LastIndex();
    AdvanceShape(e);
    CommitScanFound(n, last);
    ReachersCounted(n, CommitScan(n, last));
    ReachersCounted(n, x);
    if x > CommitScan(n, last) && n.log.TermAt(x) == Some(n.term) {
      BoundedAbove(n.log, x);
      ScanMisses(n, last, x);
    }
  }

  lemma BoundedAbove(log: Log, x: Index)
    requires log.TermAt(x).Some?
    ensures x <= log.LastIndex()
  {
  }

  /** Over any life: a turn that raises a leader's commit index raises it to an entry of its own term that
      more than half of its voters hold. */
  lemma CommitCountsVoters(l: Life, i: nat)
    requires IsLife(l) && i < |l.turns| && l.turns[i].Handle?
    requires l.nodes[i].commit < l.nodes[i + 1].commit && l.nodes[i + 1].role == Leader
    requires Distinct(l.nodes[i + 1].voters)
    ensures var m := l.nodes[i + 1];
            m.log.TermAt(m.commit) == Some(m.term) && 2 * |VotersReaching(m, m.commit)| > |m.voters|
  {
    hide Starts, Step, Cached, Listed, Behind, Forward, DeliversOn, Restored, Rebased, VotersReaching, Distinct,
         CountAcked;
    AlwaysKept(l, i);
    TurnAt(l, i);
    var n, m := l.nodes[i], l.nodes[i + 1];
    StepIsKept(n, l.turns[i].event, l.turns[i].draw);
    if Refuses(n, l.turns[i]) { StepRefused(n, l.turns[i].event, l.turns[i].draw); }
    AlwaysKept(l, i + 1);
    ReachersCounted(m, m.commit);
  }
}
