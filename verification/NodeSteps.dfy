/**
 Every step of one node, whatever event it is given: the durable term and vote, the membership cache,
 the progress table and what is delivered to the application. Here are the pieces that change the
 log's entries, and the step as a whole.
 */
module NodeSteps {
  import opened Types
  import opened LogStore
  import opened Protocol
  import opened NodeInvariant
  import opened ElectionSteps
  import opened Bookkeeping

  // ---- scanning for a configuration as the log changes -------------------

  lemma {:induction false} ScanPrefix(log: Log, more: seq<LogEntry>, i: Index)
    requires i <= log.LastIndex()
    ensures ScanConfig(log.(entries := log.entries + more), i) == ScanConfig(log, i)
  {
    if i > log.base { ScanPrefix(log, more, i - 1); }
  }

  ghost predicate Plain(entries: seq<LogEntry>) {
    forall e :: e in entries ==> e.Members().None?
  }

  lemma {:induction false} ScanOverPlain(log: Log, more: seq<LogEntry>, i: Index)
    requires Plain(more) && log.LastIndex() <= i <= log.LastIndex() + |more|
    ensures ScanConfig(log.(entries := log.entries + more), i) == ScanConfig(log, log.LastIndex())
  {
    if i == log.LastIndex() {
      ScanPrefix(log, more, i);
    } else {
      var longer := log.(entries := log.entries + more);
      assert longer.Entry(i).value == more[i - log.LastIndex() - 1];
      ScanOverPlain(log, more, i - 1);
    }
  }

  /** Appending entries that are not configurations changes no membership. */
  lemma PlainKeepsConfig(log: Log, more: seq<LogEntry>, baseConfig: seq<NodeId>)
    requires Plain(more)
    ensures EffectiveConfig(log.(entries := log.entries + more), baseConfig) == EffectiveConfig(log, baseConfig)
  {
    ScanOverPlain(log, more, log.LastIndex() + |more|);
  }

  // ---- adopting a membership ---------------------------------------------

  lemma SetConfigShape(e: Effect, voters: seq<NodeId>, configIndex: Index)
    ensures var r := SetConfig(e, voters, configIndex);
            && r.node == e.node.(voters := voters, configIndex := configIndex, progress := r.node.progress)
            && Deliveries(r.actions) == Deliveries(e.actions)
            && (MatchedBehind(e.node.progress) ==> Listed(r.node))
  {
    hide Deliveries, ProgressFor, MatchedBehind, Ids, Without;
    DeliveriesEmit(e.actions, MembershipChanged(voters));
    if MatchedBehind(e.node.progress) { RebuildLists(e.node.(voters := voters, configIndex := configIndex)); }
  }

  /** All that must hold for a refresh to restore the rest. */
  ghost predicate Sound(n: Node) {
    Durable(n) && Behind(n) && n.log.Indexed() && MatchedBehind(n.progress)
  }

  lemma RefreshShape(e: Effect)
    requires Sound(e.node)
    ensures var r := RefreshConfig(e);
            && Kept(r.node) && Deliveries(r.actions) == Deliveries(e.actions)
            && r.node == e.node.(voters := r.node.voters, configIndex := r.node.configIndex,
                                 progress := r.node.progress)
  {
    hide Deliveries, ScanConfig, SetConfig, Listed, MatchedBehind;
    var found := EffectiveConfig(e.node.log, e.node.baseConfig);
    SetConfigShape(e, found.0, found.1);
  }

  // ---- what a step keeps -------------------------------------------------

  /** The node was replaced by its snapshot, which is all the application is given. */
  ghost predicate Restored(r: Effect) {
    && r.node.applied == r.node.commit == r.node.log.base
    && r.node.log.CurrentSnapshot().Some?
    && var s := r.node.log.CurrentSnapshot().value;
       Deliveries(r.actions) == [RestoreSnapshot(s.index, s.term, s.data)]
  }

  /** The membership under the log and the stored snapshot stand, or both come from one new snapshot. */
  ghost predicate Rebased(n: Node, m: Node) {
    || (m.baseConfig == n.baseConfig && m.log.data == n.log.data && m.log.snapshotConfig == n.log.snapshotConfig)
    || (m.log.data.Some? && (m.log.snapshotConfig != [] ==> m.baseConfig == m.log.snapshotConfig))
  }

  ghost predicate StepKept(e: Effect, r: Effect) {
    && Kept(r.node) && r.node.id == e.node.id && Forward(e.node, r.node) && Rebased(e.node, r.node)
    && (r.node.role == Leader ==> e.node.commit <= r.node.commit)
    && (e.node.commit < r.node.commit ==> Counted(r.node))
    && ((DeliversOn(e, r) && r.node.log.base <= e.node.applied) || Restored(r))
  }

  lemma HandledKept(e: Effect, r: Effect)
    requires Kept(e.node) && Handles(e, r)
    ensures StepKept(e, r)
  {
    hide Kept, Forward, DeliversOn, Settled, Counted;
    KeptParts(e.node);
    ContinuesKeeps(e, r);
  }

  lemma KeptParts(n: Node)
    requires Kept(n)
    ensures Durable(n) && Cached(n) && Listed(n) && Behind(n) && n.log.Indexed() && Sound(n)
  {
  }

  /** What comes first may change the log and membership, but commits and applies nothing. */
  ghost predicate Relogs(n: Node, m: Node) {
    m.id == n.id && Forward(n, m) && Rebased(n, m) && m.commit == n.commit && m.applied == n.applied
  }

  lemma ReloggedKept(e: Effect, e1: Effect, r: Effect)
    requires Relogs(e.node, e1.node) && Deliveries(e1.actions) == Deliveries(e.actions) && StepKept(e1, r)
    ensures StepKept(e, r)
  {
    hide Kept, Deliveries, Delivered, Counted;
  }

  lemma ContinuedKept(e: Effect, e1: Effect, r: Effect)
    requires Relogs(e.node, e1.node) && Deliveries(e1.actions) == Deliveries(e.actions)
    requires Kept(e1.node) && Continues(e1, r) && (r.node.role == Leader ==> e1.node.commit <= r.node.commit)
    requires e1.node.commit < r.node.commit ==> Counted(r.node)
    ensures StepKept(e, r)
  {
    hide Kept, Deliveries, Delivered, Durable, Listed, Counted;
    KeptParts(e1.node);
    ContinuesKeeps(e1, r);
  }

  // ---- proposals and membership changes ----------------------------------

  lemma AppendNext(log: Log, entry: LogEntry)
    requires entry.index == log.LastIndex() + 1
    ensures log.Append([entry]) == Ok(log.(entries := log.entries + [entry]))
    ensures log.Indexed() ==> log.(entries := log.entries + [entry]).Indexed()
  {
  }

  lemma ProposeKept(n: Node, command: Bytes)
    requires Kept(n)
    ensures var o := HandlePropose(n, command);
            (o.Done? ==> StepKept(Effect(n, []), o.effect) && Settled(o.effect.node)) && (o.Failed? ==> o.node == n)
  {
    hide Kept, StepKept, Deliveries, Settled, Counted, Continues, ReplicateFrom, AdvanceCommit, Sends,
         EffectiveConfig, Log.Append, Log.Indexed;
    var entry := NormalEntry(n.term, n.log.LastIndex() + 1, command);
    AppendNext(n.log, entry);
    var e1 := Effect(n.(log := n.log.(entries := n.log.entries + [entry])), []);
    var e2 := ReplicateFrom(e1, 0, false);
    var r := AdvanceCommit(e2);
    ProposedKept(n, entry);
    ReplicateSends(e1, 0, false);
    SendsAdvances(e1, e2);
    AdvanceAdvances(e2);
    AdvanceSettles(e2);
    Chain(e1, e2, r);
    ContinuedKept(Effect(n, []), e1, r);
  }

  lemma ProposedKept(n: Node, entry: LogEntry)
    requires Kept(n) && entry.index == n.log.LastIndex() + 1 && entry.Members().None?
    ensures Kept(n.(log := n.log.(entries := n.log.entries + [entry])))
  {
    hide EffectiveConfig, MatchedBehind, Ids, Without;
    PlainKeepsConfig(n.log, [entry], n.baseConfig);
  }

  lemma AdoptKept(n: Node, members: seq<NodeId>)
    requires Kept(n)
    ensures var o := AdoptMembers(n, members); o.Done? && StepKept(Effect(n, []), o.effect) && Settled(o.effect.node)
  {
    hide Kept, StepKept, Deliveries, Settled, Counted, Continues, ReplicateFrom, AdvanceCommit, Sends,
         SetConfig, Log.Append;
    var index := n.log.LastIndex() + 1;
    var entry := ConfigEntry(n.term, index, members);
    AppendNext(n.log, entry);
    var e := Effect(n, []);
    var e1 := SetConfig(Effect(n.(log := n.log.(entries := n.log.entries + [entry])), []), members, index);
    var e2 := ReplicateFrom(e1, 0, true);
    var r := AdvanceCommit(e2);
    AdoptedKept(n, members);
    NoDeliveries();
    ReplicateSends(e1, 0, true);
    SendsAdvances(e1, e2);
    AdvanceAdvances(e2);
    AdvanceSettles(e2);
    Chain(e1, e2, r);
    ContinuedKept(e, e1, r);
  }

  /** The new membership is in force at once. */
  lemma AdoptVoters(n: Node, members: seq<NodeId>)
    ensures AdoptMembers(n, members).Done? && AdoptMembers(n, members).effect.node.voters == members
  {
    hide Deliveries, Settled, Counted, DeliversOn, Listed, Durable, Behind, ReplicateFrom, AdvanceCommit, Sends,
         SetConfig, Log.Append, Log.Indexed;
    var index := n.log.LastIndex() + 1;
    var entry := ConfigEntry(n.term, index, members);
    AppendNext(n.log, entry);
    var e := Effect(n.(log := n.log.(entries := n.log.entries + [entry])), []);
    var e1 := SetConfig(e, members, index);
    SetConfigShape(e, members, index);
    ReplicateSends(e1, 0, true);
    SendsAdvances(e1, ReplicateFrom(e1, 0, true));
    AdvanceAdvances(ReplicateFrom(e1, 0, true));
  }

  lemma AdoptedKept(n: Node, members: seq<NodeId>)
    requires Kept(n)
    ensures var index := n.log.LastIndex() + 1;
            var log := n.log.(entries := n.log.entries + [ConfigEntry(n.term, index, members)]);
            var e1 := SetConfig(Effect(n.(log := log), []), members, index);
            Kept(e1.node) && Relogs(n, e1.node) && Deliveries(e1.actions) == [] && e1.node.voters == members
  {
    hide Deliveries, SetConfig, Listed;
    var index := n.log.LastIndex() + 1;
    var entry := ConfigEntry(n.term, index, members);
    var log := n.log.(entries := n.log.entries + [entry]);
    AppendNext(n.log, entry);
    ConfigEntryMembers(n.term, index, members);
    assert log.Entry(index) == Some(entry);
    SetConfigShape(Effect(n.(log := log), []), members, index);
    NoDeliveries();
    assert MatchedBehind(n.progress) by { KeptParts(n); }
  }

  lemma NoDeliveries()
    ensures Deliveries([]) == []
  {
  }

  lemma ChangeKept(n: Node, add: Option<NodeId>, remove: Option<NodeId>)
    requires Kept(n)
    ensures var o := ChangeMembership(n, add, remove);
            (o.Done? ==> StepKept(Effect(n, []), o.effect)) && (o.Failed? ==> o.node == n)
    ensures var o := ChangeMembership(n, add, remove);
            o.Done? && Settled(n) ==> Settled(o.effect.node)
  {
    hide Kept, StepKept, Settled, Counted, AdoptMembers, ChangedMembers;
    AdoptKept(n, ChangedMembers(n.voters, add, remove));
    StillKept(Effect(n, []));
  }

  lemma ChangeVoters(n: Node, add: Option<NodeId>, remove: Option<NodeId>)
    ensures var o := ChangeMembership(n, add, remove);
            o.Done? ==> o.effect.node.voters == ChangedMembers(n.voters, add, remove)
  {
    hide AdoptMembers, ChangedMembers;
    AdoptVoters(n, ChangedMembers(n.voters, add, remove));
  }

  lemma StillKept(e: Effect)
    requires Kept(e.node)
    ensures StepKept(e, e)
  {
    hide Settled, Counted, Deliveries, Continues;
    Volatile(e, e);
    HandledKept(e, e);
  }

  // ---- following a leader ------------------------------------------------

  lemma FollowContinues(e: Effect, leaderCommit: Index, covered: Index)
    requires e.node.log.base <= covered <= e.node.log.LastIndex()
    ensures var r := FollowCommit(e, leaderCommit, covered); Continues(e, r) && r.node.role == e.node.role
  {
    hide Deliveries, Delivered, DrainApplies, Ids, Without;
    DrainDelivers(e.(node := e.node.(commit := Min(leaderCommit, covered))));
    DrainHints(e.(node := e.node.(commit := Min(leaderCommit, covered))));
    NothingDelivered(e.node.log, e.node.applied);
  }

  /** What a merge leaves of a well-indexed log, whatever the batch. */
  lemma MergedLog(log: Log, batch: seq<LogEntry>)
    requires batch != [] && log.Indexed() && AppendFromLeader(log, batch).result.Ok?
    ensures var m := AppendFromLeader(log, batch);
            && m.log == log.(entries := m.log.entries) && m.log.Indexed()
            && log.base <= m.result.value.0 <= m.log.LastIndex()
            && (!m.result.value.1 ==> m.log.entries == log.entries + batch[FirstUnmatched(log, batch, 0)..])
  {
    hide FirstUnmatched, Contiguous;
    var k := FirstUnmatched(log, batch, 0);
    if k == |batch| {
      assert log.TermAt(batch[k - 1].index).Some?;
    } else {
      var cut := if log.TermAt(batch[k].index).Some? then log.Truncate(batch[k].index).value else log;
      AppendRefinesMap(cut, batch[k..], 0);
      assert batch[k..][|batch| - k - 1] == batch[|batch| - 1];
    }
  }

  lemma MergeBatchKept(e: Effect, ae: Message)
    requires ae.AppendEntries? && Kept(e.node) && e.node.role == Follower
    requires e.node.log.base <= ae.prevLogIndex <= e.node.log.LastIndex()
    ensures var o := MergeBatch(e, ae);
            && (o.Done? ==> StepKept(e, o.effect) && o.effect.node.role == Follower)
            && (o.Failed? ==> o.node == e.node.(log := o.node.log) && o.node.log.hard == e.node.log.hard)
  {
    hide Kept, StepKept, Deliveries, CommitScan, CountAcked, Continues, AppendFromLeader, FollowCommit,
         RefreshConfig, HasConfigEntry, Log.Indexed;
    MergeHard(e.node.log, ae.entries);
    if MergeBatch(e, ae).Done? {
      var n := e.node;
      KeptParts(n);
      var m := if ae.entries == [] then Merge(n.log, Ok((ae.prevLogIndex, false)))
               else AppendFromLeader(n.log, ae.entries);
      var refresh := m.result.value.1 || HasConfigEntry(ae.entries);
      var e1 := e.(node := n.(log := m.log));
      var e2 := if refresh then RefreshConfig(e1) else e1;
      if ae.entries != [] { MergedLog(n.log, ae.entries); }
      if refresh { RefreshShape(e1); } else { UnrefreshedKept(n, ae.entries, m); }
      var e3 := FollowCommit(e2, ae.leaderCommit, m.result.value.0);
      FollowContinues(e2, ae.leaderCommit, m.result.value.0);
      var reply := AppendEntriesReply(n.term, true, n.id, m.result.value.0, 0, 0);
      QuietEmit(e3, ae.leader, reply);
      Chain(e2, e3, Emit(e3, Send(ae.leader, reply)));
      ContinuedKept(e, e2, Emit(e3, Send(ae.leader, reply)));
    }
  }

  lemma QuietEmit(e: Effect, to_: NodeId, m: Message)
    ensures Advances(e, Emit(e, Send(to_, m)))
  {
    hide Deliveries, Continues;
    DeliveriesEmit(e.actions, Send(to_, m));
    QuietAdvances(e, Emit(e, Send(to_, m)));
  }

  lemma MergeHard(log: Log, batch: seq<LogEntry>)
    ensures batch != [] ==>
              AppendFromLeader(log, batch).log == log.(entries := AppendFromLeader(log, batch).log.entries)
  {
    hide FirstUnmatched;
  }

  lemma UnrefreshedKept(n: Node, batch: seq<LogEntry>, m: Merge)
    requires Kept(n) && !HasConfigEntry(batch) && m.result.Ok? && !m.result.value.1
    requires if batch == [] then m.log == n.log else m == AppendFromLeader(n.log, batch)
    ensures Kept(n.(log := m.log))
  {
    hide EffectiveConfig, MatchedBehind, Ids, Without, AppendFromLeader;
    if batch != [] {
      MergedLog(n.log, batch);
      PlainKeepsConfig(n.log, batch[FirstUnmatched(n.log, batch, 0)..], n.baseConfig);
    }
  }

  lemma RecogniseKept(e: Effect, leader: NodeId, draw: nat)
    requires Kept(e.node)
    ensures var r := e.(node := Recognise(e.node, leader, draw));
            Kept(r.node) && r.node.role == Follower && Relogs(e.node, r.node) && Continues(e, r)
  {
    hide Settled, Counted, Deliveries, Kept;
    Volatile(e, e.(node := Recognise(e.node, leader, draw)));
    ContinuesKeeps(e, e.(node := Recognise(e.node, leader, draw)));
  }

  lemma AppendEntriesKept(e: Effect, ae: Message, draw: nat)
    requires ae.AppendEntries? && Kept(e.node)
    ensures var o := HandleAppendEntries(e, ae, draw);
            && (o.Done? ==> StepKept(e, o.effect) && (ae.term >= e.node.term ==> o.effect.node.role == Follower)
                            && (ae.term < e.node.term ==> o.effect.node == e.node))
            && Forward(e.node, o.Final()) && Durable(o.Final()) && o.Final().id == e.node.id
  {
    hide Kept, StepKept, Deliveries, CommitScan, CountAcked, Continues, MergeBatch, FollowCommit, Rejection;
    KeptParts(e.node);
    var e1 := e.(node := Recognise(e.node, ae.leader, draw));
    var n := e1.node;
    RecogniseKept(e, ae.leader, draw);
    if ae.term < e.node.term {
      StaleKept(e, ae.leader, AppendEntriesReply(e.node.term, false, e.node.id, 0, 0, 0));
    } else if ae.prevLogIndex < n.log.base {
      var e2 := FollowCommit(e1, ae.leaderCommit, n.log.base);
      var reply := AppendEntriesReply(n.term, true, n.id, n.log.base, 0, 0);
      FollowContinues(e1, ae.leaderCommit, n.log.base);
      QuietEmit(e2, ae.leader, reply);
      Chain(e1, e2, Emit(e2, Send(ae.leader, reply)));
      ContinuedKept(e, e1, Emit(e2, Send(ae.leader, reply)));
      StepDurable(e, Emit(e2, Send(ae.leader, reply)));
    } else if n.log.TermAt(ae.prevLogIndex) != Some(ae.prevLogTerm) {
      QuietEmit(e1, ae.leader, Rejection(n, ae.prevLogIndex));
      ContinuedKept(e, e1, Emit(e1, Send(ae.leader, Rejection(n, ae.prevLogIndex))));
    } else {
      MergeBatchKept(e1, ae);
      if MergeBatch(e1, ae).Done? {
        ReloggedKept(e, e1, MergeBatch(e1, ae).effect);
        StepDurable(e, MergeBatch(e1, ae).effect);
      }
    }
  }

  lemma StaleKept(e: Effect, to_: NodeId, m: Message)
    requires Kept(e.node)
    ensures StepKept(e, Emit(e, Send(to_, m)))
  {
    hide Kept, StepKept, Continues;
    QuietEmit(e, to_, m);
    ContinuedKept(e, e, Emit(e, Send(to_, m)));
  }

  lemma StepDurable(e: Effect, r: Effect)
    requires StepKept(e, r)
    ensures Forward(e.node, r.node) && Durable(r.node) && r.node.id == e.node.id
  {
  }

  // ---- snapshots ---------------------------------------------------------

  lemma InstallKept(e: Effect, s: Snapshot)
    requires Kept(e.node) && e.node.role == Follower && Deliveries(e.actions) == []
    requires s.index > e.node.log.base && s.index > e.node.commit
    ensures var r := Install(e, s);
            && Kept(r.node) && Restored(r) && r.node.role == Follower
            && r.node.id == e.node.id && Forward(e.node, r.node) && Rebased(e.node, r.node)
  {
    hide Deliveries, RefreshConfig, Listed, MatchedBehind, Log.Indexed, Log.AsMap;
    var n := Installed(e.node, s);
    KeptParts(e.node);
    ApplySnapshotRefinesMap(e.node.log, s, 0);
    assert MatchedBehind(n.progress);
    assert Sound(n);
    var e1 := RefreshConfig(e.(node := n));
    RefreshShape(e.(node := n));
    DeliveriesEmit(e1.actions, RestoreSnapshot(s.index, s.term, s.data));
  }

  lemma InstallSnapshotKept(e: Effect, rpc: Message, draw: nat)
    requires rpc.InstallSnapshot? && Kept(e.node) && Deliveries(e.actions) == []
    ensures var r := HandleInstallSnapshot(e, rpc, draw);
            && StepKept(e, r) && (rpc.term >= e.node.term ==> r.node.role == Follower)
            && (rpc.term < e.node.term ==> r.node == e.node)
  {
    hide Kept, Deliveries, Continues, Install, DeliversOn;
    if rpc.term < e.node.term {
      StaleKept(e, rpc.leader, InstallSnapshotReply(e.node.term, e.node.id, 0));
    } else {
      var e1 := e.(node := Recognise(e.node, rpc.leader, draw));
      var s := rpc.snapshot;
      RecogniseKept(e, rpc.leader, draw);
      var e2 := if s.index > e1.node.log.base && s.index > e1.node.commit then Install(e1, s) else e1;
      var reply := InstallSnapshotReply(e2.node.term, e2.node.id, Max(e2.node.log.base, Min(s.index, e2.node.commit)));
      if e2 == e1 {
        QuietEmit(e1, rpc.leader, reply);
        ContinuedKept(e, e1, Emit(e1, Send(rpc.leader, reply)));
      } else {
        InstallKept(e1, s);
        DeliveriesEmit(e2.actions, Send(rpc.leader, reply));
      }
    }
  }

  /** `log` with everything through `index` compacted away. */
  ghost predicate Compacted(log: Log, after: Log, index: Index) {
    && log.base <= index <= log.LastIndex()
    && after.base == index && after.entries == log.entries[index - log.base..]
  }

  lemma {:induction false} ScanCompacted(log: Log, after: Log, index: Index, i: Index)
    requires Compacted(log, after, index) && index <= i <= log.LastIndex()
    ensures ScanConfig(log, i).Some? && ScanConfig(log, i).value.1 > index ==>
              ScanConfig(after, i) == ScanConfig(log, i)
    ensures !(ScanConfig(log, i).Some? && ScanConfig(log, i).value.1 > index) ==>
              ScanConfig(after, i) == None && ScanConfig(log, i) == ScanConfig(log, index)
  {
    if i > index {
      assert after.Entry(i) == log.Entry(i);
      ScanCompacted(log, after, index, i - 1);
    }
  }

  /** A local snapshot keeps the membership: what it cuts off lives on in the snapshot. */
  lemma CompactionKeepsConfig(n: Node, after: Log, index: Index)
    requires Cached(n) && Compacted(n.log, after, index)
    ensures EffectiveConfig(after, ConfigAt(n, index)) ==
            (n.voters, if n.configIndex > index then n.configIndex else 0)
  {
    ScanCompacted(n.log, after, index, n.log.LastIndex());
  }

  lemma SnapshotTaken(n: Node, index: Index, data: Bytes)
    requires Kept(n) && n.log.base < index <= n.commit && index <= n.applied && n.log.TermAt(index).Some?
    ensures var s := Snapshot(index, n.log.TermAt(index).value, ConfigAt(n, index), data);
            var m := n.(baseConfig := s.config, log := n.log.ApplySnapshot(s), hintedAt := Max(n.hintedAt, index));
            && Compacted(n.log, m.log, index) && Sound(m) && Relogs(n, m)
            && HandleSnapshotEvent(n, index, data) == RefreshConfig(Effect(m, []))
  {
    hide Deliveries, RefreshConfig, ConfigAt, Ids, Without, MatchedBehind, EffectiveConfig, Log.AsMap;
    var s := Snapshot(index, n.log.TermAt(index).value, ConfigAt(n, index), data);
    ApplySnapshotRefinesMap(n.log, s, 0);
  }

  lemma TakeSnapshotKept(n: Node, index: Index, data: Bytes)
    requires Kept(n)
    ensures StepKept(Effect(n, []), HandleSnapshotEvent(n, index, data))
    ensures HandleSnapshotEvent(n, index, data).node.voters == n.voters
  {
    hide Kept, StepKept, Deliveries, Log.ApplySnapshot, Log.TermAt, RefreshConfig, ConfigAt, Sound;
    var e := Effect(n, []);
    if index > n.commit || index > n.applied || index <= n.log.base || n.log.TermAt(index).None? {
      StillKept(e);
    } else {
      SnapshotTaken(n, index, data);
      var s := Snapshot(index, n.log.TermAt(index).value, ConfigAt(n, index), data);
      var m := n.(baseConfig := s.config, log := n.log.ApplySnapshot(s), hintedAt := Max(n.hintedAt, index));
      var e1 := Effect(m, []);
      var r := RefreshConfig(e1);
      RefreshShape(e1);
      StillKept(r);
      ReloggedKept(e, r, r);
      SnapshotVoters(n, m, index);
    }
  }

  lemma SnapshotVoters(n: Node, m: Node, index: Index)
    requires Kept(n) && Compacted(n.log, m.log, index) && m.baseConfig == ConfigAt(n, index)
    ensures RefreshConfig(Effect(m, [])).node.voters == n.voters
  {
    hide EffectiveConfig, ConfigAt;
    CompactionKeepsConfig(n, m.log, index);
  }

  // ---- messages ----------------------------------------------------------

  lemma DispatchKept(e: Effect, m: Message, draw: nat)
    requires !m.PreVote? && !m.PreVoteReply? && m.term <= e.node.term && Kept(e.node) && Deliveries(e.actions) == []
    ensures var o := Dispatch(e, m, draw);
            && (o.Done? ==> StepKept(e, o.effect) && (Settled(e.node) ==> Settled(o.effect.node)))
            && Forward(e.node, o.Final()) && Durable(o.Final()) && o.Final().id == e.node.id
  {
    hide Kept, StepKept, Handles, Deliveries, CommitScan, Forward, Durable, HandleRequestVote, HandleVoteReply,
         HandleAppendEntries, HandleAppendReply, HandleInstallSnapshot, HandleInstallSnapshotReply,
         HandleTimeoutNow;
    match m {
      case RequestVote(_, _, _, _, _) => RequestVoteHandles(e, m, draw);
      case RequestVoteReply(_, _, _) => VoteReplyHandles(e, m);
      case AppendEntries(_, _, _, _, _, _) => AppendEntriesKept(e, m, draw);
      case AppendEntriesReply(_, _, _, _, _, _) => AppendReplyHandles(e, m);
      case InstallSnapshot(_, _, _) => InstallSnapshotKept(e, m, draw);
      case InstallSnapshotReply(_, _, _) => SnapshotReplyHandles(e, m);
      case TimeoutNow(_, _) => TimeoutNowHandles(e, m, draw);
    }
    var o := Dispatch(e, m, draw);
    if o.Done? {
      if !m.AppendEntries? && !m.InstallSnapshot? { HandledSettled(e, o.effect); }
      StepDurable(e, o.effect);
    }
  }

  lemma HandledSettled(e: Effect, r: Effect)
    requires Kept(e.node) && Handles(e, r)
    ensures StepKept(e, r) && (Settled(e.node) ==> Settled(r.node))
  {
    hide Kept, StepKept, Settled, Counted, Continues;
    HandledKept(e, r);
  }

  lemma MessageKept(n: Node, m: Message, draw: nat)
    requires Kept(n)
    ensures var o := HandleMessage(n, m, draw);
            && (o.Done? ==> StepKept(Effect(n, []), o.effect) && (Settled(n) ==> Settled(o.effect.node)))
            && Forward(n, o.Final()) && Durable(o.Final()) && o.Final().id == n.id
  {
    hide Kept, StepKept, Handles, Deliveries, CommitScan, Durable, Dispatch, HandlePreVote, HandlePreVoteReply,
         Ignored, Continues;
    var e := Effect(n, []);
    var o := HandleMessage(n, m, draw);
    NoDeliveries();
    if Ignored(n, m) {
      StillKept(e);
    } else if m.PreVote? {
      PreVoteHandles(e, m);
      HandledSettled(e, o.effect);
    } else if m.PreVoteReply? {
      PreVoteReplyHandles(e, m, draw);
      HandledSettled(e, o.effect);
    } else {
      var e1 := if m.term > n.term then e.(node := BecomeFollower(n, m.term, None)) else e;
      CaughtUp(e, m.term);
      DispatchKept(e1, m, draw);
      if o.Done? { ReloggedKept(e, e1, o.effect); }
      ForwardJoin(n, e1.node, o.Final());
    }
    if o.Done? { StepDurable(e, o.effect); }
  }

  lemma ForwardJoin(n: Node, m: Node, r: Node)
    requires Forward(n, m) && Forward(m, r)
    ensures Forward(n, r)
  {
  }

  lemma CaughtUp(e: Effect, term: Term)
    requires Kept(e.node)
    ensures var n := if term > e.node.term then BecomeFollower(e.node, term, None) else e.node;
            && Kept(n) && Relogs(e.node, n) && term <= n.term && (Settled(e.node) ==> Settled(n))
  {
    hide Kept, Deliveries, CommitScan, Durable, Listed, Behind, DeliversOn;
    if term > e.node.term {
      BecomeFollowerAdvances(e, term, None);
      ContinuesKeeps(e, e.(node := BecomeFollower(e.node, term, None)));
    }
  }

  // ---- the step ----------------------------------------------------------

  /** What every step keeps; only a packet whose batch the log store refuses may leave a node it does not. */
  lemma StepIsKept(n: Node, event: Event, draw: nat)
    requires Kept(n)
    ensures var o := Step(n, event, draw);
            && (o.Done? ==> StepKept(Effect(n, []), o.effect))
            && (o.Failed? && !event.Receive? ==> o.node == n)
            && Forward(n, o.Final()) && Durable(o.Final()) && o.Final().id == n.id
  {
    hide Kept, StepKept, Handles, HandleTick, HandleMessage, HandlePropose, HandleSnapshotEvent,
         ChangeMembership, TransferTo, Durable;
    match event {
      case Tick =>
        TickHandles(n, draw);
        HandledKept(Effect(n, []), HandleTick(n, draw));
      case Receive(m) => MessageKept(n, m, draw);
      case Propose(command) => ProposeKept(n, command);
      case TakeSnapshot(index, data) => TakeSnapshotKept(n, index, data);
      case AddServer(id) => ChangeKept(n, Some(id), None);
      case RemoveServer(id) => ChangeKept(n, None, Some(id));
      case TransferLeadership(target) =>
        TransferHandles(n, target);
        HandledKept(Effect(n, []), TransferTo(n, target));
    }
    var o := Step(n, event, draw);
    if o.Done? { StepDurable(Effect(n, []), o.effect); } else { KeptParts(n); }
  }

  /** What is left of a node when the log store refuses a batch in mid-step: the log may have been cut,
      and nothing has looked at the membership since. */
  ghost predicate CutTo(n: Node, m: Node) {
    && m.id == n.id && m.params == n.params && m.voters == n.voters && m.baseConfig == n.baseConfig
    && m.configIndex == n.configIndex && m.hintedAt == n.hintedAt
    && m.commit == n.commit && m.applied == n.applied && m.role == Follower && MatchedBehind(m.progress)
    && m.log == n.log.(entries := m.log.entries, hard := m.log.hard) && m.log.entries <= n.log.entries
  }

  lemma RefusedLog(log: Log, batch: seq<LogEntry>)
    requires batch != [] && AppendFromLeader(log, batch).result.Err?
    ensures var cut := AppendFromLeader(log, batch).log;
            cut == log.(entries := cut.entries) && cut.entries <= log.entries
  {
    hide FirstUnmatched, Log.Append, Log.TermAt;
  }

  lemma RefusedMerge(e: Effect, ae: Message)
    requires ae.AppendEntries? && MergeBatch(e, ae).Failed?
    ensures var m := MergeBatch(e, ae).node;
            m == e.node.(log := m.log) && m.log == e.node.log.(entries := m.log.entries)
            && m.log.entries <= e.node.log.entries
  {
    hide AppendFromLeader, FollowCommit, RefreshConfig, HasConfigEntry;
    if ae.entries != [] { RefusedLog(e.node.log, ae.entries); }
  }

  /** Only a received batch can be refused, and refusing it only cuts the log. */
  lemma StepRefused(n: Node, event: Event, draw: nat)
    requires Kept(n) && event.Receive? && Step(n, event, draw).Failed?
    ensures CutTo(n, Step(n, event, draw).node)
  {
    hide Kept, MergeBatch, HandlePreVoteReply, HandleRequestVote, HandleVoteReply, HandleAppendReply,
         FollowCommit, HandleInstallSnapshot, HandleInstallSnapshotReply, HandleTimeoutNow, Rejection,
         Log.TermAt, MatchedBehind;
    KeptParts(n);
    EmptyBehind();
    var m := event.message;
    var f := if m.term > n.term then BecomeFollower(n, m.term, None) else n;
    var e := Effect(Recognise(f, m.leader, draw), []);
    assert Step(n, event, draw) == MergeBatch(e, m);
    RefusedMerge(e, m);
  }

  /** A node restarted from its log store. */
  lemma RestartKept(n: Node, config: ClusterConfig, draw: nat)
    requires Durable(n) && n.log.Indexed()
    ensures Kept(WithLog(config, n.log, draw)) && Forward(n, WithLog(config, n.log, draw))
  {
    StartKept(config, n.log, draw);
  }

  lemma StartKept(config: ClusterConfig, log: Log, draw: nat)
    requires log.Indexed()
    ensures Kept(WithLog(config, log, draw))
  {
    hide EffectiveConfig, BaseConfigOf;
  }

  // ---- a settled leader stays settled ------------------------------------

  lemma {:induction false} WithoutApart(members: seq<NodeId>, id: NodeId, v: NodeId)
    requires v !in members
    ensures v !in Without(members, id)
  {
    if members != [] { WithoutApart(members[..|members| - 1], id, v); }
  }

  /** A table that already has a row for each other voter is rebuilt as it is. */
  lemma {:induction false} RebuiltAlike(voters: seq<NodeId>, self: NodeId, rows: seq<Progress>,
                                        known: seq<Progress>, next: Index)
    requires Distinct(voters) && Distinct(Ids(known)) && rows <= known && Ids(rows) == Without(voters, self)
    ensures ProgressFor(voters, self, known, next) == rows
  {
    if voters != [] {
      var front, v := voters[..|voters| - 1], voters[|voters| - 1];
      if v == self {
        RebuiltAlike(front, self, rows, known, next);
      } else {
        var last := |rows| - 1;
        assert |Ids(rows)| == |rows| && Ids(rows)[last] == v;
        assert Ids(rows[..last]) == Ids(rows)[..last] == Without(front, self);
        RebuiltAlike(front, self, rows[..last], known, next);
        FoundRow(known, last, next);
      }
    }
  }

  lemma FoundRow(known: seq<Progress>, k: nat, next: Index)
    requires Distinct(Ids(known)) && k < |known|
    ensures ProgressOf(known, known[k].id, next) == known[k]
  {
    var i := FindProgress(known, known[k].id).value;
    assert Ids(known)[i] == Ids(known)[k];
  }

  lemma {:induction false} DistinctWithout(members: seq<NodeId>, id: NodeId)
    requires Distinct(members)
    ensures Distinct(Without(members, id))
  {
    if members != [] {
      var front := members[..|members| - 1];
      DistinctWithout(front, id);
      WithoutApart(front, id, members[|members| - 1]);
    }
  }

  lemma RebuildChangesNothing(n: Node)
    requires Listed(n) && n.role == Leader && Distinct(n.voters)
    ensures RebuildProgress(n) == n
  {
    hide Ids, Without, MatchedBehind;
    DistinctWithout(n.voters, n.id);
    RebuiltAlike(n.voters, n.id, n.progress, n.progress, n.log.LastIndex() + 1);
  }

  lemma SnapshotRows(n: Node, m: Node, index: Index)
    requires Kept(n) && Distinct(n.voters) && n.role == Leader
    requires Compacted(n.log, m.log, index) && m.baseConfig == ConfigAt(n, index)
    requires m == n.(baseConfig := m.baseConfig, log := m.log, hintedAt := m.hintedAt)
    ensures var r := RefreshConfig(Effect(m, [])).node; r == m.(configIndex := r.configIndex)
  {
    hide EffectiveConfig, ConfigAt, Ids, Without, MatchedBehind;
    CompactionKeepsConfig(n, m.log, index);
    RebuildChangesNothing(m);
  }

  /** A snapshot of what is committed takes away no entry the count looks at. */
  lemma SnapshotSettled(n: Node, index: Index, data: Bytes)
    requires Kept(n) && Distinct(n.voters) && Settled(n)
    ensures Settled(HandleSnapshotEvent(n, index, data).node)
  {
    hide Kept, Deliveries, Log.ApplySnapshot, RefreshConfig, ConfigAt, Sound, CommitScan, Distinct;
    if !(index > n.commit || index > n.applied || index <= n.log.base || n.log.TermAt(index).None?) {
      SnapshotTaken(n, index, data);
      var s := Snapshot(index, n.log.TermAt(index).value, ConfigAt(n, index), data);
      var m := n.(baseConfig := s.config, log := n.log.ApplySnapshot(s), hintedAt := Max(n.hintedAt, index));
      if n.role == Leader {
        SnapshotRows(n, m, index);
        ScanSame(n, RefreshConfig(Effect(m, [])).node, n.log.LastIndex());
      } else {
        RefreshRole(Effect(m, []));
      }
    }
  }

  lemma RefreshRole(e: Effect)
    ensures RefreshConfig(e).node.role == e.node.role
  {
    hide ProgressFor, EffectiveConfig;
  }

  /** Whatever the event, a leader that had committed all it could count has done so again. */
  lemma StepSettled(n: Node, event: Event, draw: nat)
    requires Kept(n) && Distinct(n.voters) && Settled(n)
    ensures Step(n, event, draw).Done? ==> Settled(Step(n, event, draw).effect.node)
  {
    hide Kept, StepKept, Settled, Counted, Continues, HandleTick, HandleMessage, HandlePropose,
         HandleSnapshotEvent, ChangeMembership, TransferTo, Durable, Forward, Distinct;
    match event {
      case Tick => TickHandles(n, draw);
      case Receive(m) => MessageKept(n, m, draw);
      case Propose(command) => ProposeKept(n, command);
      case TakeSnapshot(index, data) => SnapshotSettled(n, index, data);
      case AddServer(id) => ChangeKept(n, Some(id), None);
      case RemoveServer(id) => ChangeKept(n, None, Some(id));
      case TransferLeadership(target) => TransferHandles(n, target);
    }
  }
}
