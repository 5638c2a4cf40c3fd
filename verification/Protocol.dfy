/**
 The effect of every operation of a Raft node (src/node.rs) as a function on values.

 A handler takes an `Effect`, the node and the actions emitted so far in this step, and returns the
 `Effect` after it. The class `RaftNode` performs the same operations in place and is proved to do
 exactly what these functions say; what the protocol promises is proved about these functions.

 The random generator is not modelled: `draw` is the election timeout a step draws.
 */
module Protocol {
  import opened Types
  import opened LogStore

  datatype Params = Params(electionMin: nat, electionMax: nat, heartbeat: nat, maxBatch: nat,
                           snapshotThreshold: nat)

  datatype ClusterConfig = ClusterConfig(id: NodeId, peers: seq<NodeId>, params: Params)

  datatype ProgressState = Probe | Replicate

  datatype Progress = Progress(id: NodeId, next: Index, matched: Index, state: ProgressState)

  datatype Node = Node(
    id: NodeId,
    voters: seq<NodeId>,
    baseConfig: seq<NodeId>,
    configIndex: Index,
    params: Params,
    log: Log,
    role: Role,
    term: Term,
    votedFor: Option<NodeId>,
    leaderId: Option<NodeId>,
    commit: Index,
    applied: Index,
    electionElapsed: nat,
    heartbeatElapsed: nat,
    electionTimeout: nat,
    votes: seq<NodeId>,
    preVoting: bool,
    preVotes: seq<NodeId>,
    progress: seq<Progress>,
    hintedAt: Index,
    transferTarget: Option<NodeId>)

  /** A node part-way through a step, with the actions emitted so far. */
  datatype Effect = Effect(node: Node, actions: seq<Action>)

  /** How a step ends. A failed step returns no actions, but the node keeps what it already did. */
  datatype Outcome = Done(effect: Effect) | Failed(node: Node, error: Error) {
    function Final(): Node { if Done? then effect.node else node }
    function Emitted(): seq<Action> { if Done? then effect.actions else [] }
  }

  function Emit(e: Effect, a: Action): Effect {
    e.(actions := e.actions + [a])
  }

  function Min(a: nat, b: nat): nat { if a < b then a else b }
  function Max(a: nat, b: nat): nat { if a < b then b else a }

  // ---- construction and configuration ------------------------------------

  /** The latest live configuration entry at or below `i`, scanning down to the boundary. */
  function ScanConfig(log: Log, i: Index): (found: Option<(seq<NodeId>, Index)>)
    ensures found.Some? ==> log.base < found.value.1 <= i
  {
    if i <= log.base then None
    else
      var e := log.Entry(i);
      if e.Some? && e.value.Members().Some? then Some((e.value.Members().value, i))
      else ScanConfig(log, i - 1)
  }

  /** The configuration in effect: the latest entry's, or else `baseConfig` with index 0. */
  function EffectiveConfig(log: Log, baseConfig: seq<NodeId>): (seq<NodeId>, Index) {
    match ScanConfig(log, log.LastIndex())
    case Some(found) => found
    case None => (baseConfig, 0)
  }

  function BaseConfigOf(config: ClusterConfig, log: Log): seq<NodeId> {
    match log.CurrentSnapshot()
    case Some(s) => if s.config != [] then s.config else SortedMembers(config.peers + [config.id])
    case None => SortedMembers(config.peers + [config.id])
  }

  /** `RaftNode::with_log`: a node started, or restarted, over a log store. */
  function WithLog(config: ClusterConfig, log: Log, draw: nat): Node {
    var baseConfig := BaseConfigOf(config, log);
    var effective := EffectiveConfig(log, baseConfig);
    Node(config.id, effective.0, baseConfig, effective.1, config.params, log, Follower,
         log.hard.term, log.hard.votedFor, None, log.base, log.base, 0, 0, draw, [], false, [], [],
         log.base, None)
  }

  function Quorum(n: Node): nat { |n.voters| / 2 + 1 }

  predicate IsVoter(n: Node) { n.id in n.voters }

  function FindProgress(progress: seq<Progress>, id: NodeId): (i: Option<nat>)
    ensures i.Some? ==> i.value < |progress| && progress[i.value].id == id
    ensures i.None? ==> forall p :: p in progress ==> p.id != id
  {
    if progress == [] then None
    else if progress[0].id == id then Some(0)
    else match FindProgress(progress[1..], id)
         case Some(i) => Some(i + 1)
         case None => None
  }

  function ProgressOf(known: seq<Progress>, id: NodeId, next: Index): Progress {
    match FindProgress(known, id)
    case Some(i) => known[i]
    case None => Progress(id, next, 0, Probe)
  }

  /** One row per voter other than `self`, keeping what is known of those that remain. */
  function ProgressFor(voters: seq<NodeId>, self: NodeId, known: seq<Progress>, next: Index): seq<Progress> {
    if voters == [] then []
    else
      var rest := voters[..|voters| - 1];
      var v := voters[|voters| - 1];
      ProgressFor(rest, self, known, next) + (if v == self then [] else [ProgressOf(known, v, next)])
  }

  function RebuildProgress(n: Node): Node {
    n.(progress := ProgressFor(n.voters, n.id, n.progress, n.log.LastIndex() + 1))
  }

  function SetConfig(e: Effect, voters: seq<NodeId>, configIndex: Index): Effect {
    var n := e.node.(voters := voters, configIndex := configIndex);
    var e1 := e.(node := if n.role == Leader then RebuildProgress(n) else n);
    if voters != e.node.voters then Emit(e1, MembershipChanged(voters)) else e1
  }

  function RefreshConfig(e: Effect): Effect {
    var found := EffectiveConfig(e.node.log, e.node.baseConfig);
    SetConfig(e, found.0, found.1)
  }

  /** The membership in effect at `index`. */
  function ConfigAt(n: Node, index: Index): seq<NodeId> {
    match ScanConfig(n.log, Min(index, n.log.LastIndex()))
    case Some(found) => found.0
    case None => n.baseConfig
  }

  // ---- elections ---------------------------------------------------------

  function ResetElectionTimer(n: Node, draw: nat): Node {
    n.(electionElapsed := 0, electionTimeout := draw)
  }

  function PersistHardState(n: Node): Node {
    n.(log := n.log.SetHardState(HardState(n.term, n.votedFor)))
  }

  /** `message` to every peer but `self`. */
  function Broadcast(actions: seq<Action>, peers: seq<NodeId>, self: NodeId, message: Message): seq<Action> {
    if peers == [] then actions
    else
      var rest := Broadcast(actions, peers[..|peers| - 1], self, message);
      var peer := peers[|peers| - 1];
      if peer == self then rest else rest + [Send(peer, message)]
  }

  /** The node just after it has opened a pre-vote round: no new term, and no vote cast. */
  function Probing(n: Node, draw: nat): Node {
    ResetElectionTimer(n.(role := Follower, leaderId := None, preVoting := true, preVotes := [n.id]), draw)
  }

  function StartPreVote(e: Effect, draw: nat): Effect {
    var n := Probing(e.node, draw);
    if 1 >= Quorum(n) then StartElection(e.(node := n), false, draw)
    else Effect(n, Broadcast(e.actions, n.voters, n.id,
                             PreVote(n.term + 1, n.id, n.log.LastIndex(), n.log.LastTerm())))
  }

  /** The node just after it has voted for itself in a new term. */
  function Campaigned(n: Node, draw: nat): Node {
    PersistHardState(ResetElectionTimer(
      n.(role := Candidate, term := n.term + 1, votedFor := Some(n.id), leaderId := None,
         transferTarget := None, preVoting := false, preVotes := [], progress := [],
         votes := [n.id]), draw))
  }

  function StartElection(e: Effect, force: bool, draw: nat): Effect {
    var n := Campaigned(e.node, draw);
    if 1 >= Quorum(n) then BecomeLeader(e.(node := n))
    else Effect(n, Broadcast(e.actions, n.voters, n.id,
                             RequestVote(n.term, n.id, n.log.LastIndex(), n.log.LastTerm(), force)))
  }

  /** The node just after it has taken the leader's role. */
  function Elected(n: Node): Node {
    RebuildProgress(n.(role := Leader, leaderId := Some(n.id), heartbeatElapsed := 0,
                       transferTarget := None, preVoting := false, preVotes := []))
  }

  function BecomeLeader(e: Effect): Effect {
    AdvanceCommit(ReplicateFrom(e.(node := Elected(e.node)), 0, true))
  }

  function BecomeFollower(n: Node, term: Term, leader: Option<NodeId>): Node {
    var n1 := n.(role := Follower, leaderId := leader, transferTarget := None, preVoting := false,
                 preVotes := [], votes := [], progress := []);
    if term > n.term then PersistHardState(n1.(term := term, votedFor := None)) else n1
  }

  predicate CandidateLogUpToDate(log: Log, lastTerm: Term, lastIndex: Index) {
    lastTerm > log.LastTerm() || (lastTerm == log.LastTerm() && lastIndex >= log.LastIndex())
  }

  function HandleRequestVote(e: Effect, rv: Message, draw: nat): Effect
    requires rv.RequestVote?
  {
    var n := e.node;
    var granted := rv.term >= n.term
                   && (n.votedFor == None || n.votedFor == Some(rv.candidate))
                   && CandidateLogUpToDate(n.log, rv.lastLogTerm, rv.lastLogIndex);
    var n1 := if granted
              then ResetElectionTimer(PersistHardState(n.(votedFor := Some(rv.candidate))), draw)
              else n;
    Emit(e.(node := n1), Send(rv.candidate, RequestVoteReply(n.term, granted, n.id)))
  }

  function HandleVoteReply(e: Effect, reply: Message): Effect
    requires reply.RequestVoteReply?
  {
    var n := e.node;
    if n.role != Candidate || reply.term != n.term then e
    else if reply.voteGranted && reply.from !in n.votes then
      var n1 := n.(votes := n.votes + [reply.from]);
      if |n1.votes| >= Quorum(n1) then BecomeLeader(e.(node := n1)) else e.(node := n1)
    else e
  }

  predicate HasActiveLeader(n: Node) {
    n.leaderId.Some? && n.electionElapsed < n.params.electionMin
  }

  function HandlePreVote(e: Effect, pv: Message): Effect
    requires pv.PreVote?
  {
    var n := e.node;
    var granted := pv.term >= n.term && !HasActiveLeader(n)
                   && CandidateLogUpToDate(n.log, pv.lastLogTerm, pv.lastLogIndex);
    Emit(e, Send(pv.candidate, PreVoteReply(n.term, granted, n.id)))
  }

  function HandlePreVoteReply(e: Effect, reply: Message, draw: nat): Effect
    requires reply.PreVoteReply?
  {
    var n := e.node;
    if !n.preVoting then e
    else if reply.term > n.term then e.(node := BecomeFollower(n, reply.term, None))
    else if reply.voteGranted && reply.from !in n.preVotes then
      var n1 := n.(preVotes := n.preVotes + [reply.from]);
      if |n1.preVotes| >= Quorum(n1) then StartElection(e.(node := n1), false, draw)
      else e.(node := n1)
    else e
  }

  // ---- replication: the leader's side ------------------------------------

  function SendSnapshot(e: Effect, i: nat): Effect
    requires i < |e.node.progress|
  {
    match e.node.log.CurrentSnapshot()
    case None => e
    case Some(s) =>
      var p := e.node.progress[i];
      Emit(e.(node := e.node.(progress := e.node.progress[i := p.(state := Probe)])),
           Send(p.id, InstallSnapshot(e.node.term, e.node.id, s)))
  }

  /** The batch for a follower whose next entry is `next`. */
  function Batch(n: Node, next: Index): seq<LogEntry>
    requires next >= 1
  {
    var last := n.log.LastIndex();
    if last >= next then n.log.Entries(next, Min(last, next + n.params.maxBatch - 1)) else []
  }

  function TermOrZero(log: Log, i: Index): Term {
    match log.TermAt(i) case Some(t) => t case None => 0
  }

  function SendAppend(e: Effect, i: nat): (r: Effect)
    requires i < |e.node.progress|
  {
    var n := e.node;
    var p := n.progress[i];
    if p.next <= n.log.base then SendSnapshot(e, i)
    else
      var batch := Batch(n, p.next);
      var e1 := Emit(e, Send(p.id, AppendEntries(n.term, n.id, p.next - 1, TermOrZero(n.log, p.next - 1), batch,
                                                 n.commit)));
      if |batch| > 0 && p.state == Replicate
      then e1.(node := n.(progress := n.progress[i := p.(next := p.next + |batch|)]))
      else e1
  }

  /** `replicate_to_all` from row `i` on, or `replicate_to_streaming` when `all` is false. */
  function ReplicateFrom(e: Effect, i: nat, all: bool): Effect
    decreases |e.node.progress| - i
  {
    if i >= |e.node.progress| then e
    else if all || e.node.progress[i].state == Replicate
    then ReplicateFrom(SendAppend(e, i), i + 1, all)
    else ReplicateFrom(e, i + 1, all)
  }

  function HandlePropose(n: Node, command: Bytes): Outcome {
    if n.role != Leader || n.transferTarget.Some? then Failed(n, NotLeader(n.leaderId))
    else
      var entry := NormalEntry(n.term, n.log.LastIndex() + 1, command);
      match n.log.Append([entry])
      case Err(error) => Failed(n, error)
      case Ok(log) => Done(AdvanceCommit(ReplicateFrom(Effect(n.(log := log), []), 0, false)))
  }

  function CountAcked(progress: seq<Progress>, index: Index): nat {
    if progress == [] then 0
    else CountAcked(progress[..|progress| - 1], index)
         + (if progress[|progress| - 1].matched >= index then 1 else 0)
  }

  /** How many voters are known to hold `index`: this node, if it is one, and the followers. */
  function Replicas(n: Node, index: Index): nat {
    (if IsVoter(n) then 1 else 0) + CountAcked(n.progress, index)
  }

  /** The commit index found scanning down from `i`. */
  function CommitScan(n: Node, i: Index): Index {
    if i <= n.commit then n.commit
    else
      match n.log.TermAt(i)
      case Some(t) =>
        if t == n.term then if Replicas(n, i) >= Quorum(n) then i else CommitScan(n, i - 1)
        else if t < n.term then n.commit
        else CommitScan(n, i - 1)
      case None => CommitScan(n, i - 1)
  }

  function StepDown(n: Node): Node {
    n.(role := Follower, leaderId := None, transferTarget := None, preVoting := false,
       preVotes := [], progress := [], votes := [])
  }

  predicate CommittedOwnRemoval(n: Node) {
    n.role == Leader && !IsVoter(n) && n.configIndex != 0 && n.commit >= n.configIndex
  }

  function AdvanceCommit(e: Effect): Effect {
    var found := CommitScan(e.node, e.node.log.LastIndex());
    if found > e.node.commit then
      var e1 := DrainApplies(e.(node := e.node.(commit := found)));
      if CommittedOwnRemoval(e1.node) then e1.(node := StepDown(e1.node)) else e1
    else e
  }

  /** The action, if any, for applying `index`: configuration entries are never delivered. */
  function ApplyActions(log: Log, index: Index): seq<Action> {
    match log.Entry(index)
    case Some(entry) =>
      if entry.Members().None? then [Apply(entry.index, entry.term, entry.command)] else []
    case None => []
  }

  function DrainApplies(e: Effect): Effect
    decreases e.node.commit - e.node.applied
  {
    if e.node.applied < e.node.commit then
      var i := e.node.applied + 1;
      DrainApplies(Effect(e.node.(applied := i), e.actions + ApplyActions(e.node.log, i)))
    else MaybeHintSnapshot(e)
  }

  function MaybeHintSnapshot(e: Effect): Effect {
    var n := e.node;
    if n.params.snapshotThreshold == 0 then e
    else
      var grown := if n.applied > n.log.base then n.applied - n.log.base else 0;
      if grown >= n.params.snapshotThreshold && n.applied > n.hintedAt then
        match n.log.TermAt(n.applied)
        case Some(t) => Emit(e.(node := n.(hintedAt := n.applied)), SnapshotHint(n.applied, t))
        case None => e
      else e
  }

  function HandleAppendReply(e: Effect, reply: Message): Effect
    requires reply.AppendEntriesReply?
  {
    var n := e.node;
    if n.role != Leader || reply.term != n.term then e
    else
      match FindProgress(n.progress, reply.from)
      case None => e
      case Some(i) =>
        var p := n.progress[i];
        if reply.success then
          var matched := Max(p.matched, reply.matchIndex);
          CountAck(e, i, matched, Max(p.next, matched + 1))
        else
          var next := RejectedNext(n.log, p.next, p.matched, reply.conflictIndex, reply.conflictTerm);
          var p1 := p.(next := next, state := Probe);
          SendAppend(e.(node := n.(progress := n.progress[i := p1])), i)
  }

  /** A follower's row takes an acknowledgement, which may commit, hand over or send more. */
  function CountAck(e: Effect, i: nat, matched: Index, next: Index): Effect
    requires i < |e.node.progress|
  {
    var n := e.node;
    var p := n.progress[i].(matched := matched, next := next, state := Replicate);
    Resume(AdvanceCommit(e.(node := n.(progress := n.progress[i := p]))), p.id, i)
  }

  /** What follows an acknowledgement: a pending hand-over, then the rest of the log. */
  function Resume(e: Effect, from: NodeId, i: nat): Effect {
    var e1 := MaybeSendTimeoutNow(e, from);
    if e1.node.role == Leader && i < |e1.node.progress|
       && e1.node.progress[i].next <= e1.node.log.LastIndex()
    then SendAppend(e1, i)
    else e1
  }

  function HandleInstallSnapshotReply(e: Effect, reply: Message): Effect
    requires reply.InstallSnapshotReply?
  {
    var n := e.node;
    if n.role != Leader || reply.term != n.term then e
    else
      match FindProgress(n.progress, reply.from)
      case None => e
      case Some(i) =>
        var p := n.progress[i];
        var matched := Max(p.matched, reply.lastIndex);
        CountAck(e, i, matched, matched + 1)
  }

  function LastIndexOfTerm(log: Log, term: Term, i: Index): (found: Option<Index>)
    ensures found.Some? ==> 1 <= found.value <= i && log.TermAt(found.value) == Some(term)
  {
    if i < 1 then None
    else
      match log.TermAt(i)
      case Some(t) =>
        if t == term then Some(i) else if t < term then None else LastIndexOfTerm(log, term, i - 1)
      case None => LastIndexOfTerm(log, term, i - 1)
  }

  /** First index of the contiguous run of `term` ending at `upto`. */
  function FirstIndexOfTerm(log: Log, term: Term, upto: Index): Index {
    if upto > 1 && log.TermAt(upto - 1) == Some(term) then FirstIndexOfTerm(log, term, upto - 1) else upto
  }

  /** The `next_index` to retry after a rejection. Clamping needs its bounds in order. */
  function RejectedNext(log: Log, next: Index, matched: Index, conflictIndex: Index, conflictTerm: Term): (r: Index)
    ensures matched + 1 <= r <= Max(next, matched + 1)
    ensures next > matched + 1 ==> r < next
  {
    var floor := matched + 1;
    var found := if conflictTerm > 0 then LastIndexOfTerm(log, conflictTerm, log.LastIndex()) else None;
    var target := if found.Some? then found.value + 1 else Max(conflictIndex, 1);
    var ceil := Max(if next > 0 then next - 1 else 0, floor);
    assert floor <= ceil;
    if target < floor then floor else if target > ceil then ceil else target
  }

  // ---- replication: the follower's side ----------------------------------

  /** The first entry of the batch, from `i` on, that the log does not already hold. */
  function FirstUnmatched(log: Log, batch: seq<LogEntry>, i: nat): (k: nat)
    requires i <= |batch|
    ensures i <= k <= |batch|
    ensures forall j :: i <= j < k ==> log.TermAt(batch[j].index) == Some(batch[j].term)
    ensures k < |batch| ==> log.TermAt(batch[k].index) != Some(batch[k].term)
    decreases |batch| - i
  {
    if i < |batch| && log.TermAt(batch[i].index) == Some(batch[i].term)
    then FirstUnmatched(log, batch, i + 1) else i
  }

  /** The log after merging a leader's batch: the index it now reaches and whether it truncated. */
  datatype Merge = Merge(log: Log, result: Result<(Index, bool), Error>)

  function AppendFromLeader(log: Log, batch: seq<LogEntry>): Merge
    requires batch != []
  {
    var k := FirstUnmatched(log, batch, 0);
    if k == |batch| then Merge(log, Ok((batch[|batch| - 1].index, false)))
    else
      var diverged := log.TermAt(batch[k].index).Some?;
      var cut := if diverged then log.Truncate(batch[k].index) else Ok(log);
      match cut
      case Err(error) => Merge(log, Err(error))
      case Ok(log1) =>
        match log1.Append(batch[k..])
        case Err(error) => Merge(log1, Err(error))
        case Ok(log2) => Merge(log2, Ok((batch[|batch| - 1].index, diverged)))
  }

  /** The node after it recognises `leader` in its own term. */
  function Recognise(n: Node, leader: NodeId, draw: nat): Node {
    ResetElectionTimer(n.(role := Follower, leaderId := Some(leader), preVoting := false), draw)
  }

  /** A follower's commit index moves to what the leader has committed, as far as it is covered. */
  function FollowCommit(e: Effect, leaderCommit: Index, covered: Index): Effect {
    if leaderCommit > e.node.commit
    then DrainApplies(e.(node := e.node.(commit := Min(leaderCommit, covered))))
    else e
  }

  /** The reply to an append whose `prev` does not match, with the hint to back up by a term. */
  function Rejection(n: Node, prev: Index): Message {
    if prev > n.log.LastIndex()
    then AppendEntriesReply(n.term, false, n.id, 0, n.log.LastIndex() + 1, 0)
    else
      var conflictTerm := TermOrZero(n.log, prev);
      AppendEntriesReply(n.term, false, n.id, 0, FirstIndexOfTerm(n.log, conflictTerm, prev), conflictTerm)
  }

  predicate HasConfigEntry(batch: seq<LogEntry>) {
    exists k :: 0 <= k < |batch| && batch[k].Members().Some?
  }

  function HandleAppendEntries(e: Effect, ae: Message, draw: nat): Outcome
    requires ae.AppendEntries?
  {
    if ae.term < e.node.term then
      Done(Emit(e, Send(ae.leader, AppendEntriesReply(e.node.term, false, e.node.id, 0, 0, 0))))
    else
      var e1 := e.(node := Recognise(e.node, ae.leader, draw));
      var n := e1.node;
      if ae.prevLogIndex < n.log.base then
        Done(Emit(FollowCommit(e1, ae.leaderCommit, n.log.base),
                  Send(ae.leader, AppendEntriesReply(n.term, true, n.id, n.log.base, 0, 0))))
      else if n.log.TermAt(ae.prevLogIndex) != Some(ae.prevLogTerm) then
        Done(Emit(e1, Send(ae.leader, Rejection(n, ae.prevLogIndex))))
      else MergeBatch(e1, ae)
  }

  /** The rest of an append whose `prev` matches. */
  function MergeBatch(e: Effect, ae: Message): Outcome
    requires ae.AppendEntries?
  {
    var n := e.node;
    var merged := if ae.entries == [] then Merge(n.log, Ok((ae.prevLogIndex, false)))
                  else AppendFromLeader(n.log, ae.entries);
    match merged.result
    case Err(error) => Failed(n.(log := merged.log), error)
    case Ok(pair) =>
      var e1 := e.(node := n.(log := merged.log));
      var e2 := if pair.1 || HasConfigEntry(ae.entries) then RefreshConfig(e1) else e1;
      Done(Emit(FollowCommit(e2, ae.leaderCommit, pair.0),
                Send(ae.leader, AppendEntriesReply(n.term, true, n.id, pair.0, 0, 0))))
  }

  /** The node with a snapshot in place, before its membership is recomputed. */
  function Installed(n: Node, s: Snapshot): Node {
    n.(baseConfig := if s.config != [] then s.config else n.baseConfig,
       log := n.log.ApplySnapshot(s), commit := s.index, applied := s.index,
       hintedAt := Max(n.hintedAt, s.index))
  }

  /** Installing a snapshot that advances the node beyond what it holds. */
  function Install(e: Effect, s: Snapshot): Effect {
    Emit(RefreshConfig(e.(node := Installed(e.node, s))), RestoreSnapshot(s.index, s.term, s.data))
  }

  function HandleInstallSnapshot(e: Effect, rpc: Message, draw: nat): Effect
    requires rpc.InstallSnapshot?
  {
    if rpc.term < e.node.term then
      Emit(e, Send(rpc.leader, InstallSnapshotReply(e.node.term, e.node.id, 0)))
    else
      var e1 := e.(node := Recognise(e.node, rpc.leader, draw));
      var s := rpc.snapshot;
      var e2 := if s.index > e1.node.log.base && s.index > e1.node.commit then Install(e1, s) else e1;
      Emit(e2, Send(rpc.leader, InstallSnapshotReply(
                      e2.node.term, e2.node.id, Max(e2.node.log.base, Min(s.index, e2.node.commit)))))
  }

  // ---- snapshots taken locally -------------------------------------------

  function HandleSnapshotEvent(n: Node, index: Index, data: Bytes): Effect {
    if index > n.commit || index > n.applied || index <= n.log.base then Effect(n, [])
    else
      match n.log.TermAt(index)
      case None => Effect(n, [])
      case Some(term) =>
        var config := ConfigAt(n, index);
        RefreshConfig(Effect(n.(baseConfig := config,
                                log := n.log.ApplySnapshot(Snapshot(index, term, config, data)),
                                hintedAt := Max(n.hintedAt, index)), []))
  }

  // ---- membership and leadership transfer --------------------------------

  function Without(members: seq<NodeId>, id: NodeId): seq<NodeId> {
    if members == [] then []
    else Without(members[..|members| - 1], id)
         + (if members[|members| - 1] == id then [] else [members[|members| - 1]])
  }

  function ChangedMembers(voters: seq<NodeId>, add: Option<NodeId>, remove: Option<NodeId>): seq<NodeId> {
    var added := if add.Some? && add.value !in voters then voters + [add.value] else voters;
    SortedMembers(if remove.Some? then Without(added, remove.value) else added)
  }

  function ChangeMembership(n: Node, add: Option<NodeId>, remove: Option<NodeId>): Outcome {
    if n.role != Leader || n.transferTarget.Some? then Failed(n, NotLeader(n.leaderId))
    else if n.configIndex > n.commit then Failed(n, ConfigInProgress)
    else
      var members := ChangedMembers(n.voters, add, remove);
      if members == n.voters then Done(Effect(n, [])) else AdoptMembers(n, members)
  }

  /** Append a configuration entry and adopt it at once, before it commits. */
  function AdoptMembers(n: Node, members: seq<NodeId>): Outcome {
    var index := n.log.LastIndex() + 1;
    match n.log.Append([ConfigEntry(n.term, index, members)])
    case Err(error) => Failed(n, error)
    case Ok(log) =>
      Done(AdvanceCommit(ReplicateFrom(SetConfig(Effect(n.(log := log), []), members, index), 0, true)))
  }

  function TransferTo(n: Node, target: NodeId): Effect {
    if n.role != Leader || target == n.id || target !in n.voters then Effect(n, [])
    else
      var e := MaybeSendTimeoutNow(Effect(n.(transferTarget := Some(target)), []), target);
      if e.node.transferTarget.Some? then
        match FindProgress(e.node.progress, target)
        case Some(i) => SendAppend(e, i)
        case None => e
      else e
  }

  function MaybeSendTimeoutNow(e: Effect, target: NodeId): Effect {
    var n := e.node;
    if n.transferTarget != Some(target) then e
    else
      match FindProgress(n.progress, target)
      case Some(i) =>
        if n.progress[i].matched >= n.log.LastIndex()
        then Emit(e.(node := n.(transferTarget := None)), Send(target, TimeoutNow(n.term, n.id)))
        else e
      case None => e
  }

  function HandleTimeoutNow(e: Effect, rpc: Message, draw: nat): Effect
    requires rpc.TimeoutNow?
  {
    if rpc.term < e.node.term || !IsVoter(e.node) then e else StartElection(e, true, draw)
  }

  // ---- the step function -------------------------------------------------

  function HandleTick(n: Node, draw: nat): Effect {
    if n.role == Leader then
      var n1 := n.(heartbeatElapsed := n.heartbeatElapsed + 1);
      if n1.heartbeatElapsed >= n1.params.heartbeat
      then ReplicateFrom(Effect(n1.(heartbeatElapsed := 0), []), 0, true)
      else Effect(n1, [])
    else
      var n1 := n.(electionElapsed := n.electionElapsed + 1);
      if n1.electionElapsed >= n1.electionTimeout && IsVoter(n1)
      then StartPreVote(Effect(n1, []), draw)
      else Effect(n1, [])
  }

  /** A vote request is ignored while a recognised leader is still active, unless it is forced. */
  predicate Ignored(n: Node, m: Message) {
    m.RequestVote? && !m.force && HasActiveLeader(n)
  }

  function HandleMessage(n: Node, m: Message, draw: nat): Outcome {
    if Ignored(n, m) then Done(Effect(n, []))
    else if m.PreVote? then Done(HandlePreVote(Effect(n, []), m))
    else if m.PreVoteReply? then Done(HandlePreVoteReply(Effect(n, []), m, draw))
    else Dispatch(Effect(if m.term > n.term then BecomeFollower(n, m.term, None) else n, []), m, draw)
  }

  /** Routing, once the node has caught up with the message's term. */
  function Dispatch(e: Effect, m: Message, draw: nat): Outcome
    requires !m.PreVote? && !m.PreVoteReply?
  {
    match m
    case RequestVote(_, _, _, _, _) => Done(HandleRequestVote(e, m, draw))
    case RequestVoteReply(_, _, _) => Done(HandleVoteReply(e, m))
    case AppendEntries(_, _, _, _, _, _) => HandleAppendEntries(e, m, draw)
    case AppendEntriesReply(_, _, _, _, _, _) => Done(HandleAppendReply(e, m))
    case InstallSnapshot(_, _, _) => Done(HandleInstallSnapshot(e, m, draw))
    case InstallSnapshotReply(_, _, _) => Done(HandleInstallSnapshotReply(e, m))
    case TimeoutNow(_, _) => Done(HandleTimeoutNow(e, m, draw))
  }

  /** `RaftNode::step`. */
  function Step(n: Node, event: Event, draw: nat): Outcome {
    match event
    case Tick => Done(HandleTick(n, draw))
    case Receive(m) => HandleMessage(n, m, draw)
    case Propose(command) => HandlePropose(n, command)
    case TakeSnapshot(index, data) => Done(HandleSnapshotEvent(n, index, data))
    case AddServer(id) => ChangeMembership(n, Some(id), None)
    case RemoveServer(id) => ChangeMembership(n, None, Some(id))
    case TransferLeadership(target) => Done(TransferTo(n, target))
  }
}
