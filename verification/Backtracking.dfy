/**
 Backing up to where a follower's log matches (src/node.rs, `rejected_next` and the rejections of
 `handle_append_entries`): the exchange between a leader and a follower whose logs are held still.
 */
module Backtracking {
  import opened Types
  import opened LogStore
  import opened Protocol
  import opened Ledger
  import opened NodeInvariant
  import opened LeaderSteps
  import FollowerMerge
  import opened FollowerSteps
  import opened Cluster
  import opened Safety
  import opened Commitment

  // ---- one exchange ------------------------------------------------------

  /** An append whose `next` is this is answered for good: the leader sends its snapshot instead, or
      the follower accepts, because it has compacted past `prev` or has the same term there. */
  predicate Answered(leader: Log, follower: Log, next: Index) {
    || next <= leader.base
    || next - 1 < follower.base
    || follower.TermAt(next - 1) == Some(TermOrZero(leader, next - 1))
  }

  /** Otherwise the follower's hint gives the next index to try. */
  function Retry(leader: Log, follower: Log, next: Index, matched: Index): Index
    requires next > 0
  {
    var hint := Hint(follower, next - 1);
    RejectedNext(leader, next, matched, hint.0, hint.1)
  }

  /** The conflict index and term that a rejection carries. */
  function Hint(follower: Log, prev: Index): (Index, Term) {
    if prev > follower.LastIndex() then (follower.LastIndex() + 1, 0)
    else (FirstIndexOfTerm(follower, TermOrZero(follower, prev), prev), TermOrZero(follower, prev))
  }

  // ---- convergence -------------------------------------------------------

  /** Where both logs can answer at `x`, they have the same term. */
  ghost predicate SameTerm(a: Log, b: Log, x: Index) {
    a.TermAt(x).Some? && b.TermAt(x).Some? ==> a.TermAt(x) == b.TermAt(x)
  }

  /** If `b` has, further on, the term `a` has at `x`, then `b` has it at `x` too. */
  ghost predicate RunsMeet(a: Log, b: Log) {
    forall x: Index, y: Index {:trigger a.TermAt(x), b.TermAt(y)} ::
      0 < x <= y && a.TermAt(x).Some? && a.TermAt(x) == b.TermAt(y) ==> SameTerm(a, b, x)
  }

  /** What the logs of a reachable state have in common. */
  ghost predicate Compatible(leader: Log, follower: Log, matched: Index) {
    && TermsRise(leader) && TermsRise(follower)
    && RunsMeet(leader, follower) && RunsMeet(follower, leader)
    && SameTerm(leader, follower, follower.base)
    && matched <= leader.LastIndex() && matched <= follower.LastIndex() && SameTerm(leader, follower, matched)
  }

  /** The distinct terms of the entries a log holds up to `p`. */
  ghost function TermsUpTo(log: Log, p: Index): set<Term> {
    set k | 0 <= k < |log.entries| && log.base + k + 1 <= p :: log.entries[k].term
  }

  /** A matched `next` is always answered. */
  lemma MatchedAnswers(leader: Log, follower: Log, matched: Index)
    requires Compatible(leader, follower, matched)
    ensures Answered(leader, follower, matched + 1)
  {
    hide TermsRise, RunsMeet;
  }

  /** A rejection happens only above the follower's boundary. */
  lemma RejectedAbove(leader: Log, follower: Log, next: Index, matched: Index)
    requires Compatible(leader, follower, matched)
    requires 0 < next <= leader.LastIndex() + 1 && next <= follower.LastIndex() + 1
    requires !Answered(leader, follower, next)
    ensures leader.base <= next - 1 <= leader.LastIndex() && follower.base < next - 1
    ensures follower.TermAt(next - 1).Some? && leader.TermAt(next - 1).Some?
    ensures follower.TermAt(next - 1) != leader.TermAt(next - 1)
  {
    hide TermsRise, RunsMeet;
  }

  lemma {:induction false} FirstOfRun(log: Log, t: Term, upto: Index)
    requires upto >= 1
    ensures 1 <= FirstIndexOfTerm(log, t, upto) <= upto
    ensures FirstIndexOfTerm(log, t, upto) > 1 ==> log.TermAt(FirstIndexOfTerm(log, t, upto) - 1) != Some(t)
  {
    hide Log.TermAt;
    if upto > 1 && log.TermAt(upto - 1) == Some(t) { FirstOfRun(log, t, upto - 1); }
  }

  /** When the leader has the follower's term too, the retry lands where they agree. */
  lemma SharedTermAnswers(leader: Log, follower: Log, next: Index, matched: Index, y: Index)
    requires Compatible(leader, follower, matched)
    requires 0 < next <= leader.LastIndex() + 1 && next <= follower.LastIndex() + 1
    requires !Answered(leader, follower, next)
    requires y > 0 && leader.TermAt(y).Some? && leader.TermAt(y) == follower.TermAt(next - 1)
    ensures y < next - 1 && Answered(leader, follower, y + 1)
  {
    hide TermsRise;
    RejectedAbove(leader, follower, next, matched);
    if y < next - 1 { assert SameTerm(leader, follower, y); }
  }

  /** What a retry does: it is answered, or it has left the follower's conflicting term behind. */
  lemma RetryBacksOff(leader: Log, follower: Log, next: Index, matched: Index)
    requires Compatible(leader, follower, matched) && matched < next
    requires next <= leader.LastIndex() + 1 && next <= follower.LastIndex() + 1
    requires !Answered(leader, follower, next)
    ensures var r := Retry(leader, follower, next, matched);
            && matched < r < next
            && (Answered(leader, follower, r)
                || (r > 1 && follower.TermAt(r - 1).Some? && follower.TermAt(r - 1) != follower.TermAt(next - 1)))
  {
    hide TermsRise, RunsMeet, FirstIndexOfTerm, LastIndexOfTerm, Compatible, Log.TermAt;
    MatchedAnswers(leader, follower, matched);
    RejectedAbove(leader, follower, next, matched);
    var t := TermOrZero(follower, next - 1);
    var found := if t > 0 then LastIndexOfTerm(leader, t, leader.LastIndex()) else None;
    FirstOfRun(follower, t, next - 1);
    if found.Some? {
      SharedTermAnswers(leader, follower, next, matched, found.value);
    } else {
      FirstAnswers(leader, follower, FirstIndexOfTerm(follower, t, next - 1), next - 1);
    }
  }

  lemma FirstAnswers(leader: Log, follower: Log, first: Index, prev: Index)
    requires 1 <= first <= prev <= follower.LastIndex()
    ensures Answered(leader, follower, first) || follower.TermAt(first - 1).Some?
  {
  }

  lemma FewerTerms(log: Log, p: Index, q: Index)
    requires TermsRise(log) && log.base <= q < p <= log.LastIndex() && log.base < p
    requires log.TermAt(p) != log.TermAt(q)
    ensures log.TermAt(p).Some? && log.TermAt(p).value in TermsUpTo(log, p)
    ensures TermsUpTo(log, q) <= TermsUpTo(log, p) - {log.TermAt(p).value}
  {
    var k := p - log.base - 1;
    assert log.entries[k].term in TermsUpTo(log, p);
    forall j | 0 <= j < |log.entries| && log.base + j + 1 <= q
      ensures log.entries[j].term in TermsUpTo(log, p) && log.entries[j].term != log.TermAt(p).value
    {
      assert log.TermAt(log.base + j + 1) == Some(log.entries[j].term);
    }
  }

  lemma TermHere(log: Log, p: Index) returns (t: Term)
    requires log.base < p && log.TermAt(p).Some?
    ensures log.TermAt(p) == Some(t) && t in TermsUpTo(log, p)
  {
    t := log.entries[p - log.base - 1].term;
  }

  lemma BoundedBelow(log: Log, p: Index)
    requires log.TermAt(p).Some?
    ensures log.base <= p <= log.LastIndex()
  {
  }

  /** Past the end of the follower's log one rejection brings the leader back to it. */
  lemma RetryFromPast(leader: Log, follower: Log, next: Index, matched: Index)
    requires matched <= follower.LastIndex() < next - 1
    ensures Retry(leader, follower, next, matched) == follower.LastIndex() + 1
  {
  }

  // ---- a retry goes back no further than it must -------------------------

  lemma {:induction false} LastOfTermFound(log: Log, t: Term, i: Index, y: Index)
    requires TermsRise(log) && 1 <= y <= i <= log.LastIndex() && log.TermAt(y) == Some(t)
    ensures LastIndexOfTerm(log, t, i).Some? && LastIndexOfTerm(log, t, i).value >= y
  {
    hide Log.TermAt;
    TermStays(log, t, y, i);
    if i > y { LastOfTermFound(log, t, i - 1, y); }
  }

  lemma TermStays(log: Log, t: Term, y: Index, i: Index)
    requires TermsRise(log) && y <= i <= log.LastIndex() && log.TermAt(y) == Some(t)
    ensures log.TermAt(i).Some? && log.TermAt(i).value >= t
  {
    BoundedBelow(log, y);
  }

  /** A hint with a term takes the leader just past its own entries of that term: none of those between
      the match point and the last try is passed over. */
  lemma RetryKeepsHintedTerm(leader: Log, next: Index, matched: Index, conflictIndex: Index, t: Term, y: Index)
    requires TermsRise(leader) && t > 0 && matched < y < next - 1 && leader.TermAt(y) == Some(t)
    ensures y < RejectedNext(leader, next, matched, conflictIndex, t)
  {
    hide Log.TermAt, TermsRise;
    BoundedBelow(leader, y);
    LastOfTermFound(leader, t, leader.LastIndex(), y);
  }

  /** And no further: unless it stops at the match point or the last try, the entry before the retry is of
      the hinted term. */
  lemma RetryFollowsHintedTerm(leader: Log, next: Index, matched: Index, conflictIndex: Index, t: Term, y: Index)
    requires TermsRise(leader) && t > 0 && y > 0 && leader.TermAt(y) == Some(t)
    ensures var r := RejectedNext(leader, next, matched, conflictIndex, t);
            matched + 1 < r < next - 1 ==> leader.TermAt(r - 1) == Some(t) && leader.TermAt(r) != Some(t)
  {
    hide Log.TermAt, TermsRise;
    BoundedBelow(leader, y);
    LastOfTermFound(leader, t, leader.LastIndex(), y);
    var r := RejectedNext(leader, next, matched, conflictIndex, t);
    var last := LastIndexOfTerm(leader, t, leader.LastIndex()).value;
    if matched + 1 < r < next - 1 && leader.TermAt(r) == Some(t) {
      BoundedBelow(leader, r);
      LastOfTermFound(leader, t, leader.LastIndex(), r);
    }
  }

  /** A hint whose term the leader never had, or that has none, takes the leader to the hinted index, as
      far as the match point and the last try let it. */
  lemma RetryTakesHintedIndex(leader: Log, next: Index, matched: Index, conflictIndex: Index, t: Term)
    requires matched + 1 < next && conflictIndex > 0
    requires t > 0 ==> forall y: Index :: y > 0 ==> leader.TermAt(y) != Some(t)
    ensures var r := RejectedNext(leader, next, matched, conflictIndex, t);
            && (matched + 1 <= conflictIndex <= next - 1 ==> r == conflictIndex)
            && (conflictIndex <= matched ==> r == matched + 1)
            && (conflictIndex >= next ==> r == next - 1)
  {
    hide Log.TermAt;
  }

  lemma {:induction false} RunOfTerm(log: Log, t: Term, upto: Index, x: Index)
    requires upto >= 1 && log.TermAt(upto) == Some(t) && FirstIndexOfTerm(log, t, upto) <= x <= upto
    ensures log.TermAt(x) == Some(t)
  {
    hide Log.TermAt;
    if x < upto { RunOfTerm(log, t, upto - 1, x); }
  }

  /** Between compatible logs a retry never backs past an index where they already agree. */
  lemma RetryKeepsAgreement(leader: Log, follower: Log, next: Index, matched: Index, x: Index)
    requires Compatible(leader, follower, matched) && matched < next <= leader.LastIndex() + 1
    requires !Answered(leader, follower, next)
    requires follower.TermAt(next - 1) != Some(0)
    requires matched < x < next && leader.TermAt(x).Some? && leader.TermAt(x) == follower.TermAt(x)
    ensures x < Retry(leader, follower, next, matched)
  {
    hide RunsMeet, TermsRise, Log.TermAt, FirstIndexOfTerm, LastIndexOfTerm, Compatible;
    BoundedBelow(follower, x);
    if next - 1 <= follower.LastIndex() {
      RejectedAbove(leader, follower, next, matched);
      var t := TermOrZero(follower, next - 1);
      FirstOfRun(follower, t, next - 1);
      var found := if t > 0 then LastIndexOfTerm(leader, t, leader.LastIndex()) else None;
      if found.Some? {
        AgreementBelow(leader, follower, next, matched, t, x);
      } else if FirstIndexOfTerm(follower, t, next - 1) <= x {
        RunOfTerm(follower, t, next - 1, x);
        BothRise(leader, follower, matched);
        BoundedBelow(leader, x);
        LastOfTermFound(leader, t, leader.LastIndex(), x);
      }
    }
  }

  lemma BothRise(leader: Log, follower: Log, matched: Index)
    requires Compatible(leader, follower, matched)
    ensures TermsRise(leader) && TermsRise(follower)
  {
  }

  lemma AgreementBelow(leader: Log, follower: Log, next: Index, matched: Index, t: Term, x: Index)
    requires Compatible(leader, follower, matched) && matched < x < next <= leader.LastIndex() + 1
    requires follower.TermAt(next - 1) == Some(t) && leader.TermAt(x).Some? && leader.TermAt(x) == follower.TermAt(x)
    requires LastIndexOfTerm(leader, t, leader.LastIndex()).Some?
    ensures x <= LastIndexOfTerm(leader, t, leader.LastIndex()).value
  {
    hide RunsMeet, TermsRise, Log.TermAt, LastIndexOfTerm;
    var y := LastIndexOfTerm(leader, t, leader.LastIndex()).value;
    BoundedBelow(follower, next - 1);
    BoundedBelow(leader, x);
    TermStays(follower, follower.TermAt(x).value, x, next - 1);
    if x > y {
      TermStays(leader, t, y, x);
      LastOfTermFound(leader, t, leader.LastIndex(), x);
    }
  }

  /** How many rejections there can still be: one for each of the follower's terms below `next`, and one
      to come back from beyond its end. */
  ghost function Bound(follower: Log, next: Index): nat
    requires next > 0
  {
    if next <= follower.LastIndex() + 1 then |TermsUpTo(follower, next - 1)|
    else 1 + |TermsUpTo(follower, follower.LastIndex())|
  }

  lemma BoundDrops(leader: Log, follower: Log, next: Index, matched: Index)
    requires Compatible(leader, follower, matched) && matched < next <= leader.LastIndex() + 1
    requires !Answered(leader, follower, next)
    ensures var r := Retry(leader, follower, next, matched);
            && matched < r < next && 1 <= Bound(follower, next)
            && (Answered(leader, follower, r) || Bound(follower, r) < Bound(follower, next))
  {
    hide Compatible, Answered, Retry, TermsUpTo, Log.TermAt;
    MatchedWithin(leader, follower, matched);
    if next <= follower.LastIndex() + 1 {
      RetryBacksOff(leader, follower, next, matched);
      RejectedAbove(leader, follower, next, matched);
      var t := TermHere(follower, next - 1);
      SubsetSize({t}, TermsUpTo(follower, next - 1));
      var r := Retry(leader, follower, next, matched);
      if !Answered(leader, follower, r) {
        BoundedBelow(follower, r - 1);
        CompatibleRises(leader, follower, matched);
        FewerTerms(follower, next - 1, r - 1);
        SubsetSize(TermsUpTo(follower, r - 1) + {t}, TermsUpTo(follower, next - 1));
      }
    } else {
      RetryFromPast(leader, follower, next, matched);
    }
  }

  lemma CompatibleRises(leader: Log, follower: Log, matched: Index)
    requires Compatible(leader, follower, matched)
    ensures TermsRise(follower)
  {
  }

  lemma MatchedWithin(leader: Log, follower: Log, matched: Index)
    requires Compatible(leader, follower, matched)
    ensures matched <= follower.LastIndex()
  {
  }

  lemma TermsGrow(log: Log, p: Index)
    ensures |TermsUpTo(log, p)| <= |TermsUpTo(log, log.LastIndex())|
  {
    SubsetSize(TermsUpTo(log, p), TermsUpTo(log, log.LastIndex()));
  }

  // ---- the exchange, as the two nodes handle it --------------------------

  /** A leader, a follower, and the leader's packet on its way to the follower. */
  datatype Talk = Talk(leader: Node, follower: Node, packet: Message)

  /** One round: the follower steps on the packet and rejects it, and the leader steps on the rejection
      and sends the next packet. Neither emits anything else. */
  ghost predicate Rejected(t: Talk, u: Talk, draw: nat) {
    exists reply: Message ::
      && reply.AppendEntriesReply? && !reply.success
      && Step(t.follower, Receive(t.packet), draw) == Done(Effect(u.follower, [Send(t.leader.id, reply)]))
      && Step(t.leader, Receive(reply), draw) == Done(Effect(u.leader, [Send(t.follower.id, u.packet)]))
  }

  ghost predicate EndsWithSuccess(actions: seq<Action>, leader: NodeId) {
    && actions != []
    && var a := actions[|actions| - 1];
       a.Send? && a.to == leader && a.message.AppendEntriesReply? && a.message.success
  }

  /** The packet is a snapshot, or the follower steps on it and accepts. */
  ghost predicate Concluded(t: Talk, draw: nat) {
    || t.packet.InstallSnapshot?
    || (t.packet.AppendEntries?
        && var o := Step(t.follower, Receive(t.packet), draw);
           o.Done? && EndsWithSuccess(o.effect.actions, t.leader.id))
  }

  ghost predicate RowsApart(rows: seq<Progress>) {
    forall i, j :: 0 <= i < j < |rows| ==> rows[i].id != rows[j].id
  }

  /** What a leader must have in place to send to its rows. */
  ghost predicate CanSend(n: Node) {
    n.log.Indexed() && n.params.maxBatch >= 1 && (n.log.base > 0 ==> n.log.CurrentSnapshot().Some?)
  }

  /** The packet that `next` asks for. */
  ghost predicate SentFor(n: Node, next: Index, m: Message) {
    if next <= n.log.base
    then n.log.CurrentSnapshot().Some? && m == InstallSnapshot(n.term, n.id, n.log.CurrentSnapshot().value)
    else m == AppendEntries(n.term, n.id, next - 1, TermOrZero(n.log, next - 1), Batch(n, next), n.commit)
  }

  ghost predicate InTalk(t: Talk, row: nat, next: Index) {
    var n := t.leader;
    && n.role == Leader && CanSend(n) && RowsApart(n.progress) && row < |n.progress|
    && n.progress[row].id == t.follower.id && t.follower.term <= n.term
    && Compatible(n.log, t.follower.log, n.progress[row].matched)
    && n.progress[row].matched < next <= n.log.LastIndex() + 1 && next <= n.progress[row].next
    && SentFor(n, next, t.packet)
  }

  lemma RowFound(rows: seq<Progress>, row: nat)
    requires RowsApart(rows) && row < |rows|
    ensures FindProgress(rows, rows[row].id) == Some(row)
  {
    assert rows[row] in rows;
  }

  /** Sending to a row: one packet, and nothing but the row's next index and mode changes. */
  lemma PacketSent(n: Node, row: nat) returns (m: Message, p: Progress)
    requires CanSend(n) && row < |n.progress| && n.progress[row].next > 0
    ensures SendAppend(Effect(n, []), row) ==
            Effect(n.(progress := n.progress[row := p]), [Send(n.progress[row].id, m)])
    ensures SentFor(n, n.progress[row].next, m) && p == n.progress[row].(next := p.next, state := p.state)
    ensures n.progress[row].next <= p.next
  {
    hide Log.TermAt, Log.Indexed;
    var q := n.progress[row];
    assert n.progress[row := q] == n.progress;
    if q.next <= n.log.base {
      m, p := InstallSnapshot(n.term, n.id, n.log.CurrentSnapshot().value), q.(state := Probe);
    } else {
      m := AppendEntries(n.term, n.id, q.next - 1, TermOrZero(n.log, q.next - 1), Batch(n, q.next), n.commit);
      p := if |Batch(n, q.next)| > 0 && q.state == Replicate then q.(next := q.next + |Batch(n, q.next)|) else q;
    }
  }

  /** The follower once it is in the packet's term. */
  function InTerm(f: Node, term: Term): Node {
    if term > f.term then BecomeFollower(f, term, None) else f
  }

  lemma StepOnAppend(f: Node, ae: Message, draw: nat)
    requires ae.AppendEntries? && f.term <= ae.term
    ensures Step(f, Receive(ae), draw) == HandleAppendEntries(Effect(InTerm(f, ae.term), []), ae, draw)
    ensures InTerm(f, ae.term).term == ae.term && InTerm(f, ae.term).id == f.id
    ensures InTerm(f, ae.term).log == f.log.(hard := InTerm(f, ae.term).log.hard)
  {
    hide HandleAppendEntries;
  }

  lemma AppendRejected(f: Node, ae: Message, draw: nat) returns (g: Node, reply: Message)
    requires ae.AppendEntries? && f.term <= ae.term && ae.prevLogIndex >= f.log.base
    requires f.log.TermAt(ae.prevLogIndex) != Some(ae.prevLogTerm)
    ensures Step(f, Receive(ae), draw) == Done(Effect(g, [Send(ae.leader, reply)]))
    ensures g.id == f.id && g.term == ae.term && g.log == f.log.(hard := g.log.hard)
    ensures reply.AppendEntriesReply? && reply.term == ae.term && !reply.success && reply.from == f.id
    ensures (reply.conflictIndex, reply.conflictTerm) == Hint(f.log, ae.prevLogIndex)
  {
    hide FirstIndexOfTerm, Step, BecomeFollower;
    StepOnAppend(f, ae, draw);
    var h := InTerm(f, ae.term);
    g := Recognise(h, ae.leader, draw);
    reply := Rejection(g, ae.prevLogIndex);
    FirstIgnoresHard(f.log, h.log.hard, TermOrZero(f.log, ae.prevLogIndex), ae.prevLogIndex);
  }

  lemma {:induction false} FirstIgnoresHard(log: Log, hard: HardState, t: Term, upto: Index)
    ensures FirstIndexOfTerm(log.(hard := hard), t, upto) == FirstIndexOfTerm(log, t, upto)
  {
    if upto > 1 && log.TermAt(upto - 1) == Some(t) { FirstIgnoresHard(log, hard, t, upto - 1); }
  }

  lemma RejectionTaken(n: Node, row: nat, reply: Message, draw: nat)
    requires reply.AppendEntriesReply? && reply.term == n.term && !reply.success
    requires n.role == Leader && row < |n.progress| && FindProgress(n.progress, reply.from) == Some(row)
    ensures var p := n.progress[row];
            var next := RejectedNext(n.log, p.next, p.matched, reply.conflictIndex, reply.conflictTerm);
            Step(n, Receive(reply), draw) ==
            Done(SendAppend(Effect(n.(progress := n.progress[row := p.(next := next, state := Probe)]), []), row))
  {
    hide FindProgress, LastIndexOfTerm, SendAppend;
  }

  /** A leader that has already counted on more being taken retries at the same place. */
  lemma WiderCeiling(leader: Log, follower: Log, next: Index, matched: Index, ahead: Index)
    requires Compatible(leader, follower, matched) && matched < next <= leader.LastIndex() + 1 && next <= ahead
    requires !Answered(leader, follower, next)
    ensures var hint := Hint(follower, next - 1);
            RejectedNext(leader, ahead, matched, hint.0, hint.1) == Retry(leader, follower, next, matched)
  {
    hide TermsRise, RunsMeet, FirstIndexOfTerm, LastIndexOfTerm, Log.TermAt, SameTerm;
    if next - 1 <= follower.LastIndex() {
      var t := TermOrZero(follower, next - 1);
      RejectedAbove(leader, follower, next, matched);
      FirstOfRun(follower, t, next - 1);
      var found := if t > 0 then LastIndexOfTerm(leader, t, leader.LastIndex()) else None;
      if found.Some? { SharedTermAnswers(leader, follower, next, matched, found.value); }
    }
  }

  lemma CompatibleIgnoresHard(leader: Log, follower: Log, hard: HardState, matched: Index)
    requires Compatible(leader, follower, matched)
    ensures Compatible(leader, follower.(hard := hard), matched)
  {
    var f := follower.(hard := hard);
    forall x: Index ensures f.TermAt(x) == follower.TermAt(x) {}
    assert RunsMeet(leader, f);
    assert RunsMeet(f, leader);
    assert TermsRise(f);
  }

  /** When the packet in a talk is not answered for good, the follower really rejects it, its log
      untouched, and the leader really sends the packet for the retried index. */
  lemma ExchangeIsRetry(t: Talk, row: nat, next: Index, draw: nat) returns (u: Talk)
    requires InTalk(t, row, next) && !Answered(t.leader.log, t.follower.log, next)
    ensures InTalk(u, row, Retry(t.leader.log, t.follower.log, next, t.leader.progress[row].matched))
    ensures u.leader.log == t.leader.log && u.follower.log == t.follower.log.(hard := u.follower.log.hard)
    ensures u.leader.progress[row].matched == t.leader.progress[row].matched
    ensures Rejected(t, u, draw)
  {
    hide Compatible, RejectedNext, Step, SendAppend, Hint, Log.TermAt, Log.Indexed, Batch, Log.CurrentSnapshot,
         RowsApart, FindProgress, TermOrZero;
    var n, f := t.leader, t.follower;
    var p := n.progress[row];
    RowFound(n.progress, row);
    var g, reply := AppendRejected(f, t.packet, draw);
    RejectionTaken(n, row, reply, draw);
    WiderCeiling(n.log, f.log, next, p.matched, p.next);
    var r := Retry(n.log, f.log, next, p.matched);
    BoundDrops(n.log, f.log, next, p.matched);
    var n1 := n.(progress := n.progress[row := p.(next := r, state := Probe)]);
    var m, q := PacketSent(n1, row);
    var n2 := n1.(progress := n1.progress[row := q]);
    u := Talk(n2, g, m);
    assert Step(n, Receive(reply), draw) == Done(Effect(n2, [Send(f.id, m)]));
    CompatibleIgnoresHard(n.log, f.log, g.log.hard, p.matched);
    SameRowsApart(n.progress, n2.progress);
    SentForStill(n1, n2, r, m);
  }

  lemma SameRowsApart(a: seq<Progress>, b: seq<Progress>)
    requires RowsApart(a) && |a| == |b| && forall i :: 0 <= i < |a| ==> a[i].id == b[i].id
    ensures RowsApart(b)
  {
  }

  lemma SentForStill(n: Node, m: Node, next: Index, packet: Message)
    requires SentFor(n, next, packet) && m == n.(progress := m.progress)
    ensures SentFor(m, next, packet)
  {
  }

  lemma BatchFollows(n: Node, next: Index)
    requires n.log.Indexed() && n.log.base < next
    ensures Batch(n, next) == [] || FollowerMerge.Follows(Batch(n, next), next - 1)
  {
  }

  lemma BatchMerges(e: Effect, ae: Message)
    requires ae.AppendEntries? && (ae.entries == [] || FollowerMerge.Follows(ae.entries, ae.prevLogIndex))
    requires e.node.log.base <= ae.prevLogIndex <= e.node.log.LastIndex() && e.node.term == ae.term
    ensures MergeBatch(e, ae).Done? && EndsWithSuccess(MergeBatch(e, ae).effect.actions, ae.leader)
  {
    hide AppendFromLeader, FollowCommit, RefreshConfig, HasConfigEntry, FollowerMerge.Follows;
    if ae.entries != [] { FollowerMerge.MergeShape(e.node.log, ae.entries, ae.prevLogIndex); }
  }

  lemma AppendAccepted(f: Node, ae: Message, draw: nat)
    requires ae.AppendEntries? && f.term <= ae.term
    requires ae.entries == [] || FollowerMerge.Follows(ae.entries, ae.prevLogIndex)
    requires ae.prevLogIndex < f.log.base || f.log.TermAt(ae.prevLogIndex) == Some(ae.prevLogTerm)
    ensures var o := Step(f, Receive(ae), draw); o.Done? && EndsWithSuccess(o.effect.actions, ae.leader)
  {
    hide Step, BecomeFollower, FollowCommit, MergeBatch, FollowerMerge.Follows;
    StepOnAppend(f, ae, draw);
    var e := Effect(Recognise(InTerm(f, ae.term), ae.leader, draw), []);
    if ae.prevLogIndex >= f.log.base { BatchMerges(e, ae); }
  }

  /** When it is answered for good, the leader's packet is its snapshot, or the follower really accepts. */
  lemma ExchangeIsFinal(t: Talk, row: nat, next: Index, draw: nat)
    requires InTalk(t, row, next) && Answered(t.leader.log, t.follower.log, next)
    ensures Concluded(t, draw)
  {
    hide Compatible, Step, Batch, Log.Indexed, FollowerMerge.Follows, EndsWithSuccess, RowsApart;
    if next > t.leader.log.base {
      BatchFollows(t.leader, next);
      AppendAccepted(t.follower, t.packet, draw);
    }
  }

  /** Talks that follow one from another by rejections. */
  ghost predicate Conversation(talks: seq<Talk>, draws: nat -> nat, from: nat) {
    forall j :: 0 <= j < |talks| - 1 ==> Rejected(talks[j], talks[j + 1], draws(from + j))
  }

  /** With the two logs held still but for what the exchange itself does, it concludes after at most one
      rejection more than there are distinct terms in the follower's log. */
  lemma {:induction false} BacktrackingBound(t: Talk, row: nat, next: Index, draws: nat -> nat, from: nat)
    returns (talks: seq<Talk>)
    requires InTalk(t, row, next)
    ensures talks != [] && talks[0] == t && Conversation(talks, draws, from)
    ensures |talks| - 1 <= Bound(t.follower.log, next) && Concluded(talks[|talks| - 1], draws(from + |talks| - 1))
    decreases next
  {
    hide Answered, Rejected, Concluded, Compatible, CanSend, SentFor, Bound, RowsApart, Retry;
    if Answered(t.leader.log, t.follower.log, next) {
      ExchangeIsFinal(t, row, next, draws(from));
      talks := [t];
    } else {
      var matched := t.leader.progress[row].matched;
      var r := Retry(t.leader.log, t.follower.log, next, matched);
      var u := ExchangeIsRetry(t, row, next, draws(from));
      BoundDrops(t.leader.log, t.follower.log, next, matched);
      HardIgnored(t.leader.log, t.follower.log, u.follower.log.hard, r);
      if Answered(t.leader.log, t.follower.log, r) {
        ExchangeIsFinal(u, row, r, draws(from + 1));
        talks := [t, u];
      } else {
        var rest := BacktrackingBound(u, row, r, draws, from + 1);
        talks := [t] + rest;
        Prepended(t, rest, draws, from);
      }
    }
  }

  lemma Prepended(t: Talk, rest: seq<Talk>, draws: nat -> nat, from: nat)
    requires rest != [] && Rejected(t, rest[0], draws(from)) && Conversation(rest, draws, from + 1)
    ensures Conversation([t] + rest, draws, from)
  {
    hide Rejected;
    var talks := [t] + rest;
    forall j | 0 <= j < |talks| - 1 ensures Rejected(talks[j], talks[j + 1], draws(from + j)) {
      if j > 0 { assert Rejected(rest[j - 1], rest[j - 1 + 1], draws(from + 1 + (j - 1))); }
    }
  }

  lemma HardIgnored(leader: Log, follower: Log, hard: HardState, next: Index)
    requires next > 0
    ensures Answered(leader, follower.(hard := hard), next) <==> Answered(leader, follower, next)
    ensures Bound(follower.(hard := hard), next) == Bound(follower, next)
  {
    assert forall p: Index :: TermsUpTo(follower.(hard := hard), p) == TermsUpTo(follower, p);
  }

  // ---- logs of a reachable state -----------------------------------------

  lemma RunsMeetInRun(setup: Setup, r: Run, i: nat, a: NodeId, n: Node, b: NodeId, m: Node)
    requires IsRun(setup, r) && At(r, i, a, n) && At(r, i, b, m)
    ensures RunsMeet(n.log, m.log)
  {
    hide IsRun, At, Log.TermAt;
    forall x: Index, y: Index | 0 < x <= y && n.log.TermAt(x).Some? && n.log.TermAt(x) == m.log.TermAt(y)
      ensures SameTerm(n.log, m.log, x)
    {
      TermRunsAlign(setup, r, i, a, n, i, b, m, x, y);
    }
  }

  /** A match point is zero until the follower has reached the leader's term. */
  lemma MatchedZero(n: Node, row: nat, m: Node, roster: seq<NodeId>, g: Ledger)
    requires Inv(g) && NodeOk(n, roster, g) && NodeOk(m, roster, g) && n.role == Leader && row < |n.progress|
    requires n.progress[row].id == m.id && m.term < n.term
    ensures n.progress[row].matched == 0 && SameTerm(n.log, m.log, 0)
  {
    hide Inv, NodeOk, Covered, LedShape, AllConsistent, TermsBounded, Elections, LeaderLogs, AckHeld, AckKept,
         VoteKept, Complete, CommitsHeld;
    InvParts(g);
    RowFacts(n, row, roster, g);
    NodeFacts(n, roster, g);
    NodeFacts(m, roster, g);
  }

  lemma MatchedAgrees(setup: Setup, r: Run, i: nat, a: NodeId, n: Node, row: nat, m: Node)
    requires IsRun(setup, r) && At(r, i, a, n) && n.role == Leader && row < |n.progress|
    requires At(r, i, n.progress[row].id, m) && m.term <= n.term
    ensures var k := n.progress[row].matched;
            k <= n.log.LastIndex() && k <= m.log.LastIndex() && SameTerm(n.log, m.log, k)
  {
    hide IsRun, IsHistory, Inv, NodeOk, RosterOf, SameTerm;
    if m.term == n.term {
      ProgressIsReal(setup, r, i, a, n, row, m, n.progress[row].matched);
      assert SameTerm(n.log, m.log, n.progress[row].matched) by {
        SameReadsTerm(n.log, m.log, n.progress[row].matched);
      }
    } else {
      var gs := WholeHistory(setup, r);
      NodeRecorded(setup, r, gs, |r.moves|, i, a, n);
      NodeRecorded(setup, r, gs, |r.moves|, i, n.progress[row].id, m);
      MatchedZero(n, row, m, RosterOf(setup), gs[i]);
    }
  }

  lemma SameReadsTerm(a: Log, b: Log, x: Index)
    requires SameReads(a, b, x)
    ensures SameTerm(a, b, x)
  {
  }

  /** In every state of a run, a leader's log and the log of a follower that has not passed its term
      are such that backing up converges. */
  lemma ReachableCompatible(setup: Setup, r: Run, i: nat, a: NodeId, n: Node, row: nat, m: Node)
    requires IsRun(setup, r) && At(r, i, a, n) && n.role == Leader && row < |n.progress|
    requires At(r, i, n.progress[row].id, m) && m.term <= n.term
    ensures Compatible(n.log, m.log, n.progress[row].matched)
    ensures n.progress[row].matched < n.progress[row].next <= n.log.LastIndex() + 1
  {
    hide IsRun, IsHistory, Inv, NodeOk, RosterOf, SameTerm, TermsRise, RunsMeet, SameReads, Covered;
    var gs := WholeHistory(setup, r);
    NodeRecorded(setup, r, gs, |r.moves|, i, a, n);
    NodeRecorded(setup, r, gs, |r.moves|, i, n.progress[row].id, m);
    RowFacts(n, row, RosterOf(setup), gs[i]);
    NodeFacts(m, RosterOf(setup), gs[i]);
    ReachableTermsRise(n, RosterOf(setup), gs[i]);
    ReachableTermsRise(m, RosterOf(setup), gs[i]);
    RunsMeetInRun(setup, r, i, a, n, n.progress[row].id, m);
    RunsMeetInRun(setup, r, i, n.progress[row].id, m, a, n);
    MatchedAgrees(setup, r, i, a, n, row, m);
    BaseAgrees(setup, r, i, a, n, n.progress[row].id, m);
  }

  lemma BaseAgrees(setup: Setup, r: Run, i: nat, a: NodeId, n: Node, b: NodeId, m: Node)
    requires IsRun(setup, r) && At(r, i, a, n) && n.role == Leader && At(r, i, b, m) && m.term <= n.term
    ensures SameTerm(n.log, m.log, m.log.base)
  {
    hide IsRun, At;
    CompactionBehind(setup, r, i, b, m);
    LeaderCompletes(setup, r, i, b, m, i, a, n, m.log.base);
  }

  lemma ReadyToSend(setup: Setup, r: Run, i: nat, a: NodeId, n: Node)
    requires IsRun(setup, r) && At(r, i, a, n) && n.role == Leader
    ensures CanSend(n) && RowsApart(n.progress)
  {
    hide IsRun, IsHistory, Inv, NodeOk, RosterOf, Covered, Log.Indexed, Log.CurrentSnapshot;
    CompactionBehind(setup, r, i, a, n);
    if n.log.base > 0 { BoundaryHasSnapshot(setup, r, i, a, n); }
    var gs := WholeHistory(setup, r);
    NodeRecorded(setup, r, gs, |r.moves|, i, a, n);
    NodeFacts(n, RosterOf(setup), gs[i]);
    RowsDistinct(n, RosterOf(setup), gs[i]);
  }

  /** The bound, for every leader and every follower's row in every state of a run: from the leader's
      next packet on, the two nodes' own steps come to an accepted append or a snapshot after at most
      one rejection more than there are distinct terms in the follower's log. */
  lemma BackingUpConverges(setup: Setup, r: Run, i: nat, a: NodeId, n: Node, row: nat, m: Node, draws: nat -> nat)
    returns (talks: seq<Talk>)
    requires IsRun(setup, r) && At(r, i, a, n) && n.role == Leader && row < |n.progress|
    requires At(r, i, n.progress[row].id, m) && m.term <= n.term
    ensures 1 <= |talks| <= 2 + |set e | e in m.log.entries :: e.term|
    ensures talks[0].follower == m
    ensures SendAppend(Effect(n, []), row) == Effect(talks[0].leader, [Send(m.id, talks[0].packet)])
    ensures Conversation(talks, draws, 0) && Concluded(talks[|talks| - 1], draws(|talks| - 1))
  {
    hide IsRun, Compatible, Answered, TermsUpTo, Rejected, Concluded, CanSend, RowsApart, SendAppend,
         Conversation;
    ReachableCompatible(setup, r, i, a, n, row, m);
    ReadyToSend(setup, r, i, a, n);
    FollowerNamed(setup, r, i, n.progress[row].id, m);
    var next := n.progress[row].next;
    var packet, p := PacketSent(n, row);
    var n1 := n.(progress := n.progress[row := p]);
    var t := Talk(n1, m, packet);
    SameRowsApart(n.progress, n1.progress);
    SentForStill(n, n1, next, packet);
    CanStillSend(n, n1);
    talks := BacktrackingBound(t, row, next, draws, 0);
    TermsGrow(m.log, next - 1);
    AllTerms(m.log);
  }

  /** No entry has term 0. */
  lemma TermsStart(setup: Setup, r: Run, i: nat, a: NodeId, n: Node, x: Index)
    requires IsRun(setup, r) && At(r, i, a, n) && x > 0
    ensures n.log.TermAt(x) != Some(0)
  {
    hide IsRun, IsHistory, Inv, NodeOk, RosterOf, Window, Consistent, Covered, Log.TermAt;
    var gs := WholeHistory(setup, r);
    NodeRecorded(setup, r, gs, |r.moves|, i, a, n);
    NodeFacts(n, RosterOf(setup), gs[i]);
    OwnLog(n, RosterOf(setup), gs[i]);
    WindowReads(n.log, gs[i].full[n.id], x);
    if x <= |gs[i].full[n.id]| { TermLed(gs[i], gs[i].full[n.id], x - 1); }
  }

  lemma TermLed(g: Ledger, log: seq<LogEntry>, k: nat)
    requires Inv(g) && Consistent(log, g.led) && k < |log|
    ensures log[k].term > 0
  {
    hide Inv, LedShape, AllConsistent, TermsBounded, Elections, LeaderLogs, AckHeld, AckKept, VoteKept, Complete,
         CommitsHeld;
    InvParts(g);
  }

  /** In every state of a run: whatever the leader next tries and the follower rejects, the retry keeps
      above every index at which the two already agree. */
  lemma BackingUpKeepsAgreement(setup: Setup, r: Run, i: nat, a: NodeId, n: Node, row: nat, m: Node, next: Index,
                                x: Index)
    requires IsRun(setup, r) && At(r, i, a, n) && n.role == Leader && row < |n.progress|
    requires At(r, i, n.progress[row].id, m) && m.term <= n.term
    requires n.progress[row].matched < next <= n.log.LastIndex() + 1 && !Answered(n.log, m.log, next)
    requires n.progress[row].matched < x < next && n.log.TermAt(x).Some? && n.log.TermAt(x) == m.log.TermAt(x)
    ensures x < Retry(n.log, m.log, next, n.progress[row].matched)
  {
    hide IsRun, Compatible, Answered, Retry, Log.TermAt;
    ReachableCompatible(setup, r, i, a, n, row, m);
    TermsStart(setup, r, i, n.progress[row].id, m, next - 1);
    RetryKeepsAgreement(n.log, m.log, next, n.progress[row].matched, x);
  }

  lemma CanStillSend(n: Node, m: Node)
    requires CanSend(n) && m == n.(progress := m.progress)
    ensures CanSend(m)
  {
  }

  lemma FollowerNamed(setup: Setup, r: Run, i: nat, b: NodeId, m: Node)
    requires IsRun(setup, r) && At(r, i, b, m)
    ensures m.id == b
  {
    hide IsRun, IsHistory, Inv, NodeOk, RosterOf;
    var gs := WholeHistory(setup, r);
    NodeRecorded(setup, r, gs, |r.moves|, i, b, m);
  }

  lemma AllTerms(log: Log)
    ensures TermsUpTo(log, log.LastIndex()) == set e | e in log.entries :: e.term
  {
  }
}
