/**
 The life of one node over any sequence of events and restarts: no assumption is made about the
 packets it receives or about the other nodes, and memberships may change. A batch that the log store
 refuses is an error of the step; such an error is fatal to the node (src/node.rs:587), so what comes
 next, if anything, is a restart.
 */
module NodeRuns {
  import opened Types
  import opened LogStore
  import opened Protocol
  import opened NodeInvariant
  import Ledger
  import opened ElectionSteps
  import opened Bookkeeping
  import opened NodeSteps

  datatype Turn =
    | Handle(event: Event, draw: nat)
    | Restart(config: ClusterConfig, draw: nat)

  datatype Life = Life(nodes: seq<Node>, turns: seq<Turn>)

  ghost predicate Turns(n: Node, t: Turn, m: Node) {
    match t
    case Handle(event, draw) => m == Step(n, event, draw).Final()
    case Restart(config, draw) => config.id == n.id && m == WithLog(config, n.log, draw)
  }

  /** A packet whose batch the log store refuses. */
  ghost predicate Refuses(n: Node, t: Turn) {
    t.Handle? && t.event.Receive? && Step(n, t.event, t.draw).Failed?
  }

  /** The last turn was refused, and the node has not been restarted yet. */
  ghost predicate Broken(l: Life, i: nat) {
    0 < i <= |l.turns| && i <= |l.nodes| && Refuses(l.nodes[i - 1], l.turns[i - 1])
  }

  ghost predicate Starts(n: Node) {
    exists config, log: Log, draw :: log.Indexed() && n == WithLog(config, log, draw)
  }

  ghost predicate IsLife(l: Life) {
    && |l.nodes| == |l.turns| + 1 && Starts(l.nodes[0])
    && (forall i :: 0 <= i < |l.turns| ==> Turns(l.nodes[i], l.turns[i], l.nodes[i + 1]))
    && (forall i :: 0 <= i < |l.turns| && Broken(l, i) ==> l.turns[i].Restart?)
  }

  /** What the node returns from turn `i`; a restart returns nothing. */
  ghost function Out(l: Life, i: nat): seq<Action>
    requires i < |l.turns| && i < |l.nodes|
  {
    match l.turns[i]
    case Handle(event, draw) => Step(l.nodes[i], event, draw).Emitted()
    case Restart(_, _) => []
  }

  /** What holds of a node even after a refused turn. */
  ghost predicate Standing(n: Node) {
    Durable(n) && Behind(n) && n.log.Indexed()
  }

  lemma RestartTurn(n: Node, t: Turn, m: Node)
    requires Standing(n) && t.Restart? && Turns(n, t, m)
    ensures Kept(m) && Forward(n, m) && m.id == n.id
  {
    hide Kept, WithLog;
    RestartKept(n, t.config, t.draw);
    StartedId(t.config, n.log, t.draw);
  }

  lemma HandleTurn(n: Node, t: Turn, m: Node)
    requires Kept(n) && t.Handle? && Turns(n, t, m)
    ensures Standing(m) && Forward(n, m) && m.id == n.id && (!Refuses(n, t) ==> Kept(m))
  {
    hide Kept, Step, DeliversOn, Restored, Rebased, Counted;
    StepIsKept(n, t.event, t.draw);
    KeptParts(n);
    if Refuses(n, t) { StepRefused(n, t.event, t.draw); } else { KeptParts(m); }
  }

  lemma StartedId(config: ClusterConfig, log: Log, draw: nat)
    ensures WithLog(config, log, draw).id == config.id
  {
  }

  /** Every node of a life keeps its books, unless its last turn was refused. */
  lemma {:induction false} AlwaysKept(l: Life, i: nat)
    requires IsLife(l) && i < |l.nodes|
    ensures Standing(l.nodes[i]) && (!Broken(l, i) ==> Kept(l.nodes[i]))
  {
    hide Kept, Turns, Refuses;
    if i == 0 {
      var config, log: Log, draw :| log.Indexed() && l.nodes[0] == WithLog(config, log, draw);
      StartKept(config, log, draw);
      KeptParts(l.nodes[0]);
    } else {
      AlwaysKept(l, i - 1);
      TurnForward(l, i - 1);
    }
  }

  lemma TurnForward(l: Life, i: nat)
    requires IsLife(l) && i < |l.turns| && Standing(l.nodes[i]) && (!Broken(l, i) ==> Kept(l.nodes[i]))
    ensures var n, m := l.nodes[i], l.nodes[i + 1];
            Standing(m) && (!Broken(l, i + 1) ==> Kept(m)) && Forward(n, m) && m.id == n.id
  {
    hide Kept, Turns, Starts, Step, Standing;
    TurnAt(l, i);
    var n, t, m := l.nodes[i], l.turns[i], l.nodes[i + 1];
    if t.Restart? {
      RestartTurn(n, t, m);
      KeptStands(m);
    } else {
      HandleTurn(n, t, m);
    }
  }

  lemma KeptStands(n: Node)
    requires Kept(n)
    ensures Standing(n)
  {
    hide Cached, Listed;
  }

  // ---- durable term and vote ---------------------------------------------

  /** At all times the stored hard state is the node's term and vote. Through every step and restart
      the term never falls, and a vote cast in a term is never withdrawn or changed within it. */
  lemma {:induction false} TermAndVoteStand(l: Life, i: nat, j: nat)
    requires IsLife(l) && i <= j < |l.nodes|
    ensures var n, m := l.nodes[i], l.nodes[j];
            && m.log.hard == HardState(m.term, m.votedFor)
            && n.term <= m.term
            && (n.term == m.term && n.votedFor.Some? ==> m.votedFor == n.votedFor)
    decreases j
  {
    hide Starts, Turns, Kept, Behind, Broken;
    AlwaysKept(l, j);
    if i < j {
      TermAndVoteStand(l, i, j - 1);
      AlwaysKept(l, j - 1);
      TurnForward(l, j - 1);
    }
  }

  lemma TurnAt(l: Life, i: nat)
    requires IsLife(l) && i < |l.turns|
    ensures |l.nodes| == |l.turns| + 1 && Turns(l.nodes[i], l.turns[i], l.nodes[i + 1])
  {
  }

  // ---- the membership cache ----------------------------------------------

  ghost predicate ConfigHeldAt(log: Log, x: Index) {
    log.Entry(x).Some? && log.Entry(x).value.Members().Some?
  }

  lemma {:induction false} ScanFindsLatest(log: Log, i: Index, x: Index)
    requires log.base < x <= i && ConfigHeldAt(log, x)
    ensures ScanConfig(log, i).Some? && x <= ScanConfig(log, i).value.1
  {
    if x < i { ScanFindsLatest(log, i - 1, x); }
  }

  lemma {:induction false} ScanFindsEntry(log: Log, i: Index)
    requires ScanConfig(log, i).Some?
    ensures var found := ScanConfig(log, i).value;
            && log.base < found.1 <= i && ConfigHeldAt(log, found.1)
            && log.Entry(found.1).value.Members() == Some(found.0)
  {
    if !ConfigHeldAt(log, i) { ScanFindsEntry(log, i - 1); }
  }

  /** The cached voters and their index are always those of the latest configuration entry in the
      live log; without one they are the membership under the log, with index 0. */
  lemma MembershipCached(l: Life, i: nat, x: Index)
    requires IsLife(l) && i < |l.nodes| && !Broken(l, i)
    ensures var n := l.nodes[i];
            && (ConfigHeldAt(n.log, x) ==> x <= n.configIndex)
            && if n.configIndex > 0
               then ConfigHeldAt(n.log, n.configIndex)
                    && n.log.Entry(n.configIndex).value.Members() == Some(n.voters)
               else n.voters == n.baseConfig
  {
    hide Starts, Turns, ScanConfig, Listed;
    AlwaysKept(l, i);
    var log := l.nodes[i].log;
    if ConfigHeldAt(log, x) { ScanFindsLatest(log, log.LastIndex(), x); }
    if ScanConfig(log, log.LastIndex()).Some? { ScanFindsEntry(log, log.LastIndex()); }
  }

  lemma {:induction false} ScanDown(log: Log, j: Index, i: Index)
    requires j <= i && (ScanConfig(log, i).Some? ==> ScanConfig(log, i).value.1 <= j)
    ensures ScanConfig(log, j) == ScanConfig(log, i)
  {
    if j < i {
      assert !ConfigHeldAt(log, i);
      ScanDown(log, j, i - 1);
    }
  }

  lemma ScanCut(log: Log, cut: Log, i: Index)
    requires cut == log.(entries := cut.entries, hard := cut.hard) && cut.entries <= log.entries && i <= cut.LastIndex()
    ensures ScanConfig(cut, i) == ScanConfig(log, i)
  {
    var rest := log.entries[|cut.entries|..];
    assert log.entries == cut.entries + rest;
    ScanFrom(cut, log.hard, i);
    ScanPrefix(cut.(hard := log.hard), rest, i);
    assert cut.(hard := log.hard).(entries := cut.entries + rest) == log;
  }

  /** After a refused turn, and until the restart, the cache is stale exactly when the cut took away the
      entry it was read from. */
  lemma RefusalStale(l: Life, i: nat)
    requires IsLife(l) && i < |l.turns| && Refuses(l.nodes[i], l.turns[i])
    ensures var m := l.nodes[i + 1];
            (m.voters, m.configIndex) == EffectiveConfig(m.log, m.baseConfig) <==> m.configIndex <= m.log.LastIndex()
  {
    hide Starts, Step, Listed, ScanConfig;
    AlwaysKept(l, i);
    TurnAt(l, i);
    var n, m := l.nodes[i], l.nodes[i + 1];
    StepRefused(n, l.turns[i].event, l.turns[i].draw);
    var last, end := n.log.LastIndex(), m.log.LastIndex();
    ScanCut(n.log, m.log, end);
    if m.configIndex <= end { ScanDown(n.log, end, last); }
  }

  /** Taking a snapshot locally never changes who the voters are. */
  lemma CompactionKeepsVoters(l: Life, i: nat, index: Index, data: Bytes, draw: nat)
    requires IsLife(l) && i < |l.turns| && l.turns[i] == Handle(TakeSnapshot(index, data), draw)
    ensures l.nodes[i + 1].voters == l.nodes[i].voters
  {
    hide Starts, HandleSnapshotEvent;
    AlwaysKept(l, i);
    TurnAt(l, i);
    TakeSnapshotKept(l.nodes[i], index, data);
  }

  /** A local snapshot takes away only what lies below its boundary: every entry above it is still
      there, and the boundary still has its term. */
  lemma CompactionKeepsReads(l: Life, i: nat, index: Index, data: Bytes, draw: nat, x: Index)
    requires IsLife(l) && i < |l.turns| && l.turns[i] == Handle(TakeSnapshot(index, data), draw)
    ensures var n, m := l.nodes[i], l.nodes[i + 1];
            && m.log.LastIndex() == n.log.LastIndex()
            && (x >= m.log.base ==> m.log.TermAt(x) == n.log.TermAt(x))
            && (x > m.log.base ==> m.log.Entry(x) == n.log.Entry(x))
  {
    hide Starts, RefreshConfig, ConfigAt, Listed, Sound, Relogs, Cached, Log.ApplySnapshot, Log.Indexed,
         Log.TermAt, Log.Entry;
    AlwaysKept(l, i);
    TurnAt(l, i);
    var n := l.nodes[i];
    if n.log.base < index <= n.commit && index <= n.applied && n.log.TermAt(index).Some? {
      var s := Snapshot(index, n.log.TermAt(index).value, ConfigAt(n, index), data);
      CompactedReads(n.log, s, x);
      var m := n.(baseConfig := s.config, log := n.log.ApplySnapshot(s), hintedAt := Max(n.hintedAt, index));
      RefreshKeepsLog(Effect(m, []));
    }
  }

  lemma CompactedReads(log: Log, s: Snapshot, x: Index)
    requires log.base < s.index && log.TermAt(s.index) == Some(s.term)
    ensures var after := log.ApplySnapshot(s);
            && after.LastIndex() == log.LastIndex() && after.base == s.index
            && (x >= s.index ==> after.TermAt(x) == log.TermAt(x))
            && (x > s.index ==> after.Entry(x) == log.Entry(x))
  {
  }

  lemma RefreshKeepsLog(e: Effect)
    ensures RefreshConfig(e).node.log == e.node.log
  {
    hide ProgressFor, EffectiveConfig;
  }

  // ---- restarting into the same membership -------------------------------

  ghost predicate Rooted(n: Node, config: ClusterConfig) {
    (n.log.data.Some? && n.log.snapshotConfig == []) || n.baseConfig == BaseConfigOf(config, n.log)
  }

  ghost predicate SameConfig(l: Life, config: ClusterConfig) {
    && (exists log: Log, draw :: log.Indexed() && l.nodes != [] && l.nodes[0] == WithLog(config, log, draw))
    && forall i :: 0 <= i < |l.turns| && l.turns[i].Restart? ==> l.turns[i].config == config
  }

  lemma TurnRooted(n: Node, t: Turn, m: Node, config: ClusterConfig)
    requires (t.Handle? ==> Kept(n)) && Turns(n, t, m) && Rooted(n, config) && (t.Restart? ==> t.config == config)
    ensures Rooted(m, config)
  {
    hide Kept, Step, Forward, DeliversOn, Restored, Counted, SortedMembers, EffectiveConfig;
    if t.Handle? {
      StepIsKept(n, t.event, t.draw);
      if Refuses(n, t) { StepRefused(n, t.event, t.draw); }
    }
  }

  lemma {:induction false} AlwaysRooted(l: Life, config: ClusterConfig, i: nat)
    requires IsLife(l) && SameConfig(l, config) && i < |l.nodes|
    ensures Rooted(l.nodes[i], config)
  {
    hide Starts, Turns, Kept, EffectiveConfig, SortedMembers;
    if i > 0 {
      AlwaysKept(l, i - 1);
      AlwaysRooted(l, config, i - 1);
      TurnAt(l, i - 1);
      TurnRooted(l.nodes[i - 1], l.turns[i - 1], l.nodes[i], config);
    }
  }

  /** A restart recovers the voters exactly when the membership does not rest on a snapshot that
      carries none; if it does, the restart falls back on the configured peers. */
  lemma RestartRecoversVoters(l: Life, config: ClusterConfig, i: nat, draw: nat)
    requires IsLife(l) && SameConfig(l, config) && i < |l.nodes| && !Broken(l, i)
    ensures var n := l.nodes[i];
            var bare := n.configIndex == 0 && n.log.data.Some? && n.log.snapshotConfig == [];
            && (!bare ==> WithLog(config, n.log, draw).voters == n.voters)
            && (bare ==> WithLog(config, n.log, draw).voters == SortedMembers(config.peers + [config.id]))
  {
    hide Starts, SameConfig, SortedMembers, Listed, ScanConfig;
    AlwaysKept(l, i);
    AlwaysRooted(l, config, i);
    if l.nodes[i].configIndex == 0 { IndexFound(l.nodes[i].log); }
  }

  lemma IndexFound(log: Log)
    ensures ScanConfig(log, log.LastIndex()).Some? ==> ScanConfig(log, log.LastIndex()).value.1 > 0
  {
  }

  // ---- the progress table ------------------------------------------------

  lemma {:induction false} WithoutIn(members: seq<NodeId>, id: NodeId, v: NodeId)
    ensures v in Without(members, id) <==> v in members && v != id
  {
    if members != [] {
      WithoutIn(members[..|members| - 1], id, v);
      assert members == members[..|members| - 1] + [members[|members| - 1]];
    }
  }

  /** A node whose last turn was refused is a follower. */
  lemma BrokenFollows(l: Life, i: nat)
    requires IsLife(l) && i < |l.nodes| && Broken(l, i)
    ensures l.nodes[i].role == Follower
  {
    hide Starts, Step, Kept;
    AlwaysKept(l, i - 1);
    TurnAt(l, i - 1);
    StepRefused(l.nodes[i - 1], l.turns[i - 1].event, l.turns[i - 1].draw);
  }

  /** While a node leads, its progress table has a row for exactly the other voters, and each row's
      match point is below its next index. */
  lemma ProgressTable(l: Life, i: nat, v: NodeId)
    requires IsLife(l) && i < |l.nodes| && l.nodes[i].role == Leader
    ensures var n := l.nodes[i];
            && ((exists k :: 0 <= k < |n.progress| && n.progress[k].id == v) <==> v in n.voters && v != n.id)
            && (forall k :: 0 <= k < |n.progress| ==> n.progress[k].matched < n.progress[k].next)
  {
    hide Starts, Cached, Without, Turns, Broken;
    AlwaysKept(l, i);
    if Broken(l, i) { BrokenFollows(l, i); }
    var n := l.nodes[i];
    WithoutIn(n.voters, n.id, v);
    if v in Ids(n.progress) {
      var k :| 0 <= k < |Ids(n.progress)| && Ids(n.progress)[k] == v;
      assert n.progress[k].id == v;
    }
    forall k | 0 <= k < |n.progress| ensures n.progress[k].id in Ids(n.progress) {
      assert Ids(n.progress)[k] == n.progress[k].id;
    }
  }

  // ---- a leader's commit index -------------------------------------------

  /** A step that leaves a node leading never lowers its commit index. */
  lemma LeaderCommitRises(l: Life, i: nat)
    requires IsLife(l) && i < |l.turns| && l.turns[i].Handle? && l.nodes[i + 1].role == Leader
    ensures l.nodes[i].commit <= l.nodes[i + 1].commit
  {
    hide Starts, Step, Kept;
    AlwaysKept(l, i);
    TurnAt(l, i);
    StepIsKept(l.nodes[i], l.turns[i].event, l.turns[i].draw);
    if Refuses(l.nodes[i], l.turns[i]) { StepRefused(l.nodes[i], l.turns[i].event, l.turns[i].draw); }
  }

  /** When a turn ends, everything known to be committed has been applied, and compaction is behind both. */
  lemma CommittedIsApplied(l: Life, i: nat)
    requires IsLife(l) && i < |l.nodes|
    ensures l.nodes[i].log.base <= l.nodes[i].commit <= l.nodes[i].applied
  {
    hide Starts, Turns, Kept, Broken, Hinted;
    AlwaysKept(l, i);
  }

  /** When a turn ends and the applied log has grown past the threshold above the boundary, a snapshot has
      been hinted at, at the applied index or beyond. */
  lemma HintsKeepUp(l: Life, i: nat)
    requires IsLife(l) && i < |l.nodes|
    ensures var n := l.nodes[i];
            n.params.snapshotThreshold > 0 && n.applied - n.log.base >= n.params.snapshotThreshold ==>
              n.hintedAt >= n.applied
  {
    hide Starts, Turns, Kept, Broken;
    AlwaysKept(l, i);
  }

  /** A hint is sent, at the applied index, exactly when that has grown past the threshold above the boundary
      and beyond the last hint and still has a term; it is then the last hint. Otherwise nothing happens. */
  lemma HintIsSent(e: Effect)
    ensures var n, r := e.node, MaybeHintSnapshot(e);
            if 0 < n.params.snapshotThreshold <= n.applied - n.log.base && n.applied > n.hintedAt
               && n.log.TermAt(n.applied).Some?
            then r == Effect(n.(hintedAt := n.applied),
                             e.actions + [SnapshotHint(n.applied, n.log.TermAt(n.applied).value)])
            else r == e
  {
    hide Log.TermAt;
  }

  /** A restart resumes as a follower, in the term and with the vote that were stored, at the boundary. */
  lemma RestartResumes(l: Life, i: nat)
    requires IsLife(l) && i < |l.turns| && l.turns[i].Restart?
    ensures var n, m := l.nodes[i], l.nodes[i + 1];
            && m.role == Follower && m.term == n.term && m.votedFor == n.votedFor && m.log == n.log
            && m.commit == n.log.base && m.applied == n.log.base && m.leaderId == None && m.progress == []
            && !m.preVoting && m.transferTarget == None
  {
    hide Starts, EffectiveConfig, BaseConfigOf, Broken, Kept, Behind;
    AlwaysKept(l, i);
    TurnAt(l, i);
  }

  // ---- what is applied, and in what order --------------------------------

  /** The command, if any, that a log delivers at index `x`. */
  ghost predicate CommandAt(log: Log, x: Index, a: Action) {
    && log.Entry(x).Some? && log.Entry(x).value.Members().None?
    && a == Apply(x, log.Entry(x).value.term, log.Entry(x).value.command)
  }

  lemma {:induction false} DeliveredIs(log: Log, from: Index, upto: Index, a: Action)
    requires log.Indexed() && log.base <= from
    ensures a in Delivered(log, from, upto) <==> exists x: Index :: from < x <= upto && CommandAt(log, x, a)
    decreases upto
  {
    if upto > from {
      DeliveredIs(log, from, upto - 1, a);
      assert a in ApplyActions(log, upto) <==> CommandAt(log, upto, a);
    }
  }

  lemma {:induction false} DeliveredAscends(log: Log, from: Index, upto: Index, p: nat, q: nat)
    requires log.Indexed() && log.base <= from && p < q < |Delivered(log, from, upto)|
    ensures var d := Delivered(log, from, upto); d[p].Apply? && d[q].Apply? && d[p].index < d[q].index
    decreases upto
  {
    hide Log.Indexed, ApplyActions;
    var front := Delivered(log, from, upto - 1);
    AppliesAt(log, upto);
    if q < |front| {
      DeliveredAscends(log, from, upto - 1, p, q);
    } else {
      assert front[p] in front;
      DeliveredIs(log, from, upto - 1, front[p]);
    }
  }

  lemma AppliesAt(log: Log, x: Index)
    requires log.Indexed()
    ensures |ApplyActions(log, x)| <= 1
    ensures forall a :: a in ApplyActions(log, x) ==> a.Apply? && a.index == x
  {
  }

  lemma {:induction false} DeliveriesIn(actions: seq<Action>, a: Action)
    requires a.Apply? || a.RestoreSnapshot?
    ensures a in Deliveries(actions) <==> a in actions
  {
    if actions != [] {
      DeliveriesIn(actions[..|actions| - 1], a);
      assert actions == actions[..|actions| - 1] + [actions[|actions| - 1]];
    }
  }

  ghost predicate Restores(actions: seq<Action>) {
    exists a :: a in actions && a.RestoreSnapshot?
  }

  /** The outcome of a turn that handled an event: either exactly one restore, or the log's commands
      from the applied index on. */
  lemma TurnDelivers(l: Life, i: nat)
    requires IsLife(l) && i < |l.turns| && l.turns[i].Handle?
    ensures var n, m, d := l.nodes[i], l.nodes[i + 1], Deliveries(Out(l, i));
            && m.log.Indexed() && m.log.base <= m.applied
            && if Restores(Out(l, i))
               then exists t, data :: d == [RestoreSnapshot(m.applied, t, data)]
               else m.log.base <= n.applied <= m.applied && d == Delivered(m.log, n.applied, m.applied)
                    && (n.applied < m.applied ==> m.applied <= m.log.LastIndex())
  {
    hide Starts, Step, Cached, Listed, Forward, Rebased, Deliveries, Delivered;
    AlwaysKept(l, i);
    AlwaysKept(l, i + 1);
    TurnAt(l, i);
    StepIsKept(l.nodes[i], l.turns[i].event, l.turns[i].draw);
    if Refuses(l.nodes[i], l.turns[i]) { StepRefused(l.nodes[i], l.turns[i].event, l.turns[i].draw); }
    var n, m, out := l.nodes[i], l.nodes[i + 1], Out(l, i);
    var o := Step(n, l.turns[i].event, l.turns[i].draw);
    NothingDelivered(m.log, n.applied);
    NoDeliveries();
    OutIs(l, i);
    if Restores(out) {
      var a :| a in out && a.RestoreSnapshot?;
      DeliveriesIn(out, a);
      NoRestoreDelivered(m.log, n.applied, m.applied, a);
    } else if o.Done? && Restored(o.effect) {
      var s := m.log.CurrentSnapshot().value;
      DeliveriesIn(out, RestoreSnapshot(s.index, s.term, s.data));
    }
  }

  lemma OutIs(l: Life, i: nat)
    requires i < |l.turns| && i < |l.nodes| && l.turns[i].Handle?
    ensures var o := Step(l.nodes[i], l.turns[i].event, l.turns[i].draw);
            Out(l, i) == if o.Done? then o.effect.actions else []
  {
  }

  lemma {:induction false} NoRestoreDelivered(log: Log, from: Index, upto: Index, a: Action)
    requires a.RestoreSnapshot?
    ensures a !in Delivered(log, from, upto)
    decreases upto
  {
    if upto > from { NoRestoreDelivered(log, from, upto - 1, a); }
  }

  /** Outside a restore, a turn applies exactly the commands between the old and the new applied
      index: each is the log's entry at its index, and the indices passed over hold configurations. */
  lemma AppliesExactly(l: Life, i: nat, x: Index)
    requires IsLife(l) && i < |l.turns| && l.turns[i].Handle? && !Restores(Out(l, i))
    ensures var n, m := l.nodes[i], l.nodes[i + 1];
            && n.applied <= m.applied
            && (forall t, c :: Apply(x, t, c) in Out(l, i) <==>
                               n.applied < x <= m.applied && CommandAt(m.log, x, Apply(x, t, c)))
            && (n.applied < x <= m.applied ==> m.log.Entry(x).Some?)
  {
    hide Starts, Turns, Out, Restores, Deliveries, Delivered;
    TurnDelivers(l, i);
    var n, m := l.nodes[i], l.nodes[i + 1];
    forall t, c ensures Apply(x, t, c) in Out(l, i) <==>
                        n.applied < x <= m.applied && CommandAt(m.log, x, Apply(x, t, c)) {
      var a := Apply(x, t, c);
      DeliveriesIn(Out(l, i), a);
      DeliveredIs(m.log, n.applied, m.applied, a);
    }
  }

  /** Deliveries come in the order in which the actions are returned. */
  lemma {:induction false} DeliveriesInOrder(actions: seq<Action>, p: nat, q: nat) returns (p': nat, q': nat)
    requires p < q < |actions| && actions[p].Apply? && actions[q].Apply?
    ensures p' < q' < |Deliveries(actions)|
    ensures Deliveries(actions)[p'] == actions[p] && Deliveries(actions)[q'] == actions[q]
  {
    var front := actions[..|actions| - 1];
    if q < |front| {
      p', q' := DeliveriesInOrder(front, p, q);
    } else {
      DeliveriesIn(front, front[p]);
      p' :| 0 <= p' < |Deliveries(front)| && Deliveries(front)[p'] == front[p];
      q' := |Deliveries(front)|;
    }
  }

  /** Within one turn commands are applied in strictly increasing order. */
  lemma AppliesInOrder(l: Life, i: nat, p: nat, q: nat)
    requires IsLife(l) && i < |l.turns| && p < q < |Out(l, i)|
    requires Out(l, i)[p].Apply? && Out(l, i)[q].Apply?
    ensures Out(l, i)[p].index < Out(l, i)[q].index
  {
    hide Starts, Turns, Out, Deliveries, Delivered;
    RestartSilent(l, i);
    TurnDelivers(l, i);
    var p', q' := DeliveriesInOrder(Out(l, i), p, q);
    DeliveredAscends(l.nodes[i + 1].log, l.nodes[i].applied, l.nodes[i + 1].applied, p', q');
  }

  lemma RestartSilent(l: Life, i: nat)
    requires i < |l.turns| && i < |l.nodes|
    ensures l.turns[i].Restart? ==> Out(l, i) == []
  {
  }

  /** Turns `i` to `j`, neither a restart nor a restore. */
  ghost predicate Steady(l: Life, i: nat, j: nat)
    requires i <= j <= |l.turns| && j < |l.nodes|
  {
    forall k :: i <= k < j ==> l.turns[k].Handle? && !Restores(Out(l, k))
  }

  lemma {:induction false} AppliedRises(l: Life, i: nat, j: nat)
    requires IsLife(l) && i <= j <= |l.turns| && Steady(l, i, j)
    ensures l.nodes[i].applied <= l.nodes[j].applied
    decreases j
  {
    hide Starts, Turns, Out, Restores, Deliveries, Delivered;
    if i < j {
      AppliedRises(l, i, j - 1);
      TurnDelivers(l, j - 1);
    }
  }

  /** What a turn delivers lies at or below the applied index it ends with. */
  lemma DeliveredBelow(l: Life, i: nat, a: Action)
    requires IsLife(l) && i < |l.turns| && a in Out(l, i) && (a.Apply? || a.RestoreSnapshot?)
    ensures a.index <= l.nodes[i + 1].applied
  {
    hide Starts, Turns, Out, Restores, Deliveries, Delivered;
    RestartSilent(l, i);
    TurnDelivers(l, i);
    DeliveriesIn(Out(l, i), a);
    if !Restores(Out(l, i)) { DeliveredIs(l.nodes[i + 1].log, l.nodes[i].applied, l.nodes[i + 1].applied, a); }
  }

  /** Across turns, with no restart or restore after turn `i`, applied indices strictly increase;
      after a restore, applying resumes above the snapshot. */
  lemma AppliesAscend(l: Life, i: nat, j: nat, a: Action, b: Action)
    requires IsLife(l) && i < j < |l.turns| && Steady(l, i + 1, j + 1)
    requires a in Out(l, i) && (a.Apply? || a.RestoreSnapshot?) && b in Out(l, j) && b.Apply?
    ensures a.index < b.index
  {
    hide Starts, Turns, Out, Restores, Deliveries, Delivered, Broken;
    DeliveredBelow(l, i, a);
    assert Steady(l, i + 1, j);
    AppliedRises(l, i + 1, j);
    DeliveredAbove(l, j, b);
  }

  lemma DeliveredAbove(l: Life, j: nat, b: Action)
    requires IsLife(l) && j < |l.turns| && l.turns[j].Handle? && !Restores(Out(l, j)) && b in Out(l, j) && b.Apply?
    ensures b.index > l.nodes[j].applied
  {
    hide Starts, Turns, Out, Restores, Deliveries, Delivered, Broken;
    AppliesExactly(l, j, b.index);
    assert Apply(b.index, b.term, b.command) in Out(l, j);
  }

  // ---- pre-vote leaves the term alone ------------------------------------

  /** Ticks, pre-vote requests, and pre-vote replies of no higher term whose grants come from `s`. */
  ghost predicate Unpersuasive(event: Event, term: Term, s: set<NodeId>) {
    || event.Tick?
    || (event.Receive? && event.message.PreVote?)
    || (event.Receive? && event.message.PreVoteReply? && event.message.term <= term
        && (event.message.voteGranted ==> event.message.from in s))
  }

  /** The pre-votes a node has counted come from `s`, each once. */
  ghost predicate CountedIn(n: Node, s: set<NodeId>) {
    n.preVoting ==> Distinct(n.preVotes) && SetOf(n.preVotes) <= s
  }

  function Fed(n: Node, events: seq<Event>, draws: seq<nat>): Node
    requires |draws| == |events|
    decreases |events|
  {
    if events == [] then n else Fed(Step(n, events[0], draws[0]).Final(), events[1..], draws[1..])
  }

  lemma FewCounted(ids: seq<NodeId>, s: set<NodeId>)
    requires Distinct(ids) && SetOf(ids) <= s
    ensures |ids| <= |s|
  {
    DistinctSize(ids);
    Ledger.SubsetSize(SetOf(ids), s);
  }

  /** Only volatile state changes: the log, the term and the vote are as they were. */
  ghost predicate Undisturbed(n: Node, m: Node) {
    m.id == n.id && m.voters == n.voters && m.log == n.log && m.term == n.term && m.votedFor == n.votedFor
  }

  lemma TickUndisturbed(n: Node, draw: nat, s: set<NodeId>)
    requires CountedIn(n, s) && n.id in s && 2 * |s| <= |n.voters|
    ensures Undisturbed(n, HandleTick(n, draw).node) && CountedIn(HandleTick(n, draw).node, s)
  {
    hide ReplicateFrom, StartElection, Deliveries, Broadcast, Sends, Log.LastTerm;
    if n.role == Leader {
      var beat := n.(heartbeatElapsed := 0);
      ReplicateUndisturbed(Effect(beat, []));
    } else {
      assert |s| >= 1 by { Ledger.SubsetSize({n.id}, s); }
      assert SetOf([n.id]) == {n.id};
    }
  }

  lemma ReplicateUndisturbed(e: Effect)
    ensures var r := ReplicateFrom(e, 0, true).node;
            Undisturbed(e.node, r) && r.preVoting == e.node.preVoting && r.preVotes == e.node.preVotes
  {
    hide ReplicateFrom, SameMatches, Deliveries;
    ReplicateSends(e, 0, true);
  }

  lemma StepUndisturbed(n: Node, event: Event, draw: nat, s: set<NodeId>)
    requires CountedIn(n, s) && n.id in s && 2 * |s| <= |n.voters| && Unpersuasive(event, n.term, s)
    ensures var m := Step(n, event, draw).Final(); Undisturbed(n, m) && CountedIn(m, s)
  {
    hide HandleTick, StartElection, CandidateLogUpToDate;
    if event.Tick? {
      TickUndisturbed(n, draw, s);
    } else if event.message.PreVoteReply? {
      var from := event.message.from;
      if n.preVoting && event.message.voteGranted && from !in n.preVotes {
        assert SetOf(n.preVotes + [from]) == SetOf(n.preVotes) + {from};
        FewCounted(n.preVotes + [from], s);
      }
    }
  }

  /** Section 9.6 of the dissertation: a node that cannot gather a majority of pre-votes never disturbs
      a term. However many ticks, pre-vote requests and such replies it handles, its term, its vote
      and its log are untouched. */
  lemma {:induction false} PreVoteDisturbsNothing(n: Node, events: seq<Event>, draws: seq<nat>, s: set<NodeId>)
    requires |draws| == |events|
    requires CountedIn(n, s) && n.id in s && 2 * |s| <= |n.voters|
    requires forall e :: e in events ==> Unpersuasive(e, n.term, s)
    ensures Undisturbed(n, Fed(n, events, draws))
    decreases |events|
  {
    hide CountedIn, Unpersuasive, Step;
    if events != [] {
      assert events[0] in events;
      StepUndisturbed(n, events[0], draws[0], s);
      forall e | e in events[1..] ensures e in events {}
      PreVoteDisturbsNothing(Step(n, events[0], draws[0]).Final(), events[1..], draws[1..], s);
    }
  }

  // ---- single-server changes ---------------------------------------------

  /** The members after a change are the old ones with the one server added or removed, in order. */
  lemma ChangedMembersAre(voters: seq<NodeId>, add: Option<NodeId>, remove: Option<NodeId>, v: NodeId)
    ensures v in ChangedMembers(voters, add, remove) <==>
              (v in voters || add == Some(v)) && remove != Some(v)
    ensures Ascending(ChangedMembers(voters, add, remove))
  {
    var added := if add.Some? && add.value !in voters then voters + [add.value] else voters;
    if remove.Some? { WithoutIn(added, remove.value, v); }
    SortedMembersCorrect(if remove.Some? then Without(added, remove.value) else added);
  }

  lemma AscendingSize(ids: seq<NodeId>)
    requires Ascending(ids)
    ensures |SetOf(ids)| == |ids|
  {
    assert Distinct(ids);
    DistinctSize(ids);
  }

  /** Two sets too large to be disjoint within a third. */
  lemma TooLarge(a: set<NodeId>, b: set<NodeId>, all: set<NodeId>)
    requires a <= all && b <= all && |a| + |b| > |all|
    ensures a * b != {}
  {
    if a * b == {} { Ledger.SubsetSize(a + b, all); }
  }

  lemma SizesAround(before: seq<NodeId>, after: seq<NodeId>, x: NodeId)
    requires Ascending(before) && Ascending(after)
    requires SetOf(after) <= SetOf(before) + {x} && SetOf(before) <= SetOf(after) + {x}
    ensures SetOf(after) <= SetOf(before) || SetOf(before) <= SetOf(after)
    ensures |after| <= |before| + 1 && |before| <= |after| + 1
  {
    AscendingSize(before);
    AscendingSize(after);
    Ledger.SubsetSize(SetOf(after), SetOf(before) + {x});
    Ledger.SubsetSize(SetOf(before), SetOf(after) + {x});
  }

  /** Section 4.1 of the dissertation: whenever a change of one server is accepted, every majority of
      the voters before meets every majority of the voters after, so no two can decide apart. */
  lemma SingleServerChangesOverlap(n: Node, event: Event, draw: nat, p: set<NodeId>, q: set<NodeId>)
    requires Ascending(n.voters) && (event.AddServer? || event.RemoveServer?)
    requires Step(n, event, draw).Done?
    requires p <= SetOf(n.voters) && 2 * |p| > |n.voters|
    requires var m := Step(n, event, draw).Final(); q <= SetOf(m.voters) && 2 * |q| > |m.voters|
    ensures p * q != {}
  {
    hide ChangeMembership, ChangedMembers;
    var add := if event.AddServer? then Some(event.id) else None;
    var remove := if event.RemoveServer? then Some(event.id) else None;
    ChangeVoters(n, add, remove);
    var after := ChangedMembers(n.voters, add, remove);
    assert Step(n, event, draw).Final().voters == after;
    forall v ensures v in SetOf(after) <==> (v in SetOf(n.voters) || add == Some(v)) && remove != Some(v) {
      ChangedMembersAre(n.voters, add, remove, v);
    }
    ChangedMembersAre(n.voters, add, remove, 0);
    SizesAround(n.voters, after, event.id);
    AscendingSize(n.voters);
    AscendingSize(after);
    TooLarge(p, q, if SetOf(after) <= SetOf(n.voters) then SetOf(n.voters) else SetOf(after));
  }
}
