/**
 What a follower's indices do when packets come late (src/node.rs, `handle_append_entries` and
 `handle_install_snapshot`). Section 5 of docs/PROTOCOL.md has a snapshot installed only if it
 advances the follower; the code compares with the commit index, which a late append can lower, so
 a snapshot can still move the applied index back. Here is exactly when; `MovedBack` has a run in which
 it does.
 */
module SnapshotOrder {
  import opened Types
  import opened LogStore
  import opened Protocol
  import opened Bookkeeping

  /** The index an accepted append covers, which bounds the commit index it sets. */
  function CoveredBy(n: Node, ae: Message): Index
    requires ae.AppendEntries?
  {
    if ae.prevLogIndex < n.log.base then n.log.base
    else if ae.entries == [] then ae.prevLogIndex
    else ae.entries[|ae.entries| - 1].index
  }

  predicate Accepts(n: Node, ae: Message)
    requires ae.AppendEntries?
  {
    ae.term >= n.term
    && (ae.prevLogIndex < n.log.base || n.log.TermAt(ae.prevLogIndex) == Some(ae.prevLogTerm))
  }

  lemma FollowMoves(e: Effect, leaderCommit: Index, covered: Index)
    ensures var r := FollowCommit(e, leaderCommit, covered).node;
            && r.commit == (if leaderCommit > e.node.commit then Min(leaderCommit, covered) else e.node.commit)
            && r.applied == (if leaderCommit > e.node.commit then Max(e.node.applied, r.commit) else e.node.applied)
            && r.log == e.node.log && r.term == e.node.term
  {
    hide DrainApplies, Deliveries, Delivered;
    DrainDelivers(e.(node := e.node.(commit := Min(leaderCommit, covered))));
  }

  lemma MergeReach(log: Log, batch: seq<LogEntry>)
    requires batch != [] && AppendFromLeader(log, batch).result.Ok?
    ensures AppendFromLeader(log, batch).result.value.0 == batch[|batch| - 1].index
  {
  }

  lemma RefreshKeepsIndices(e: Effect)
    ensures RefreshConfig(e).node.commit == e.node.commit && RefreshConfig(e).node.applied == e.node.applied
  {
    hide ProgressFor, EffectiveConfig;
  }

  /** Where an append leaves a follower's commit and applied indices: if it is accepted and claims more
      than is known to be committed, the commit index is what both the claim and the append cover, and
      everything up to it is applied; otherwise neither moves. */
  lemma AppendMovesIndices(n: Node, ae: Message, draw: nat)
    requires ae.AppendEntries? && HandleAppendEntries(Effect(n, []), ae, draw).Done?
    ensures var m := HandleAppendEntries(Effect(n, []), ae, draw).effect.node;
            if Accepts(n, ae) && ae.leaderCommit > n.commit
            then m.commit == Min(ae.leaderCommit, CoveredBy(n, ae)) && m.applied == Max(n.applied, m.commit)
            else m.commit == n.commit && m.applied == n.applied
  {
    hide FollowCommit, RefreshConfig, AppendFromLeader, HasConfigEntry, Rejection, Log.TermAt;
    var e := Effect(Recognise(n, ae.leader, draw), []);
    FollowMoves(e, ae.leaderCommit, n.log.base);
    if Accepts(n, ae) && ae.prevLogIndex >= n.log.base {
      var merged := if ae.entries == [] then Merge(n.log, Ok((ae.prevLogIndex, false)))
                    else AppendFromLeader(n.log, ae.entries);
      if ae.entries != [] { MergeReach(n.log, ae.entries); }
      var e1 := e.(node := e.node.(log := merged.log));
      RefreshKeepsIndices(e1);
      FollowMoves(RefreshConfig(e1), ae.leaderCommit, CoveredBy(n, ae));
      FollowMoves(e1, ae.leaderCommit, CoveredBy(n, ae));
    }
  }

  /** An append lowers the commit index exactly when it is accepted, claims more than is known to be
      committed, and covers less. It never lowers the applied index. */
  lemma AppendLowersCommit(n: Node, ae: Message, draw: nat)
    requires ae.AppendEntries? && HandleAppendEntries(Effect(n, []), ae, draw).Done?
    ensures var m := HandleAppendEntries(Effect(n, []), ae, draw).effect.node;
            && (m.commit < n.commit <==>
                  Accepts(n, ae) && ae.leaderCommit > n.commit && CoveredBy(n, ae) < n.commit)
            && m.applied >= n.applied
  {
    hide HandleAppendEntries, Accepts, CoveredBy;
    AppendMovesIndices(n, ae, draw);
  }

  /** A snapshot moves the applied index back exactly when it is of a current term, is above the
      boundary and the commit index, and is below what is applied: that is, only if the commit index
      had been lowered. */
  lemma SnapshotMovesBack(n: Node, rpc: Message, draw: nat)
    requires rpc.InstallSnapshot?
    ensures var m := HandleInstallSnapshot(Effect(n, []), rpc, draw).node;
            m.applied < n.applied <==>
              && rpc.term >= n.term && rpc.snapshot.index > n.log.base
              && n.commit < rpc.snapshot.index < n.applied
  {
    hide RefreshConfig, Log.ApplySnapshot;
    var s := rpc.snapshot;
    var e := Effect(Recognise(n, rpc.leader, draw), []);
    RefreshKeepsIndices(e.(node := Installed(e.node, s)));
  }
}
