/**
 The history of a cluster, as the safety argument sees it.

 The ledger remembers what no single node keeps: each node's uncompacted log, every vote ever cast,
 the log each candidate campaigned with, the log of each term's leader, how much of it each node
 ever acknowledged in that term, and every commit. Each way the cluster can move is one small step
 on the ledger, and each step keeps `Inv`.
 */
module Ledger {
  import opened Types

  datatype Ledger = Ledger(
    servers: set<NodeId>,
    term: map<NodeId, Term>,                        // each node's current term
    full: map<NodeId, seq<LogEntry>>,               // its log, had it never been compacted
    ballots: map<(NodeId, Term), NodeId>,           // whom a node voted for in a term
    cand: map<(NodeId, Term), seq<LogEntry>>,       // the log a node campaigned with in a term
    elected: map<Term, NodeId>,                     // the leader of a term
    electors: map<Term, set<NodeId>>,               // the majority that elected it
    led: map<Term, seq<LogEntry>>,                  // its log, as far as it grew in that term
    acked: map<(NodeId, Term), nat>,                // how much of it a node acknowledged in that term
    commits: map<(Term, nat), set<NodeId>>,         // commits by count: term, length, who held it
    taken: set<(Index, Term, Bytes)>)               // every snapshot taken of some state machine

  // ---- logs --------------------------------------------------------------

  /** The first `k` entries exist in both logs and are the same. */
  ghost predicate Agree(a: seq<LogEntry>, b: seq<LogEntry>, k: nat) {
    k <= |a| && k <= |b| && forall i :: 0 <= i < k ==> a[i] == b[i]
  }

  /** Log matching against the ledger: up to each of its entries, a log is the log of that entry's
      term. */
  ghost predicate Consistent(log: seq<LogEntry>, led: map<Term, seq<LogEntry>>) {
    forall i :: 0 <= i < |log| ==> log[i].term in led && Agree(log, led[log[i].term], i + 1)
  }

  ghost predicate TermsAtMost(log: seq<LogEntry>, t: Term) {
    forall i :: 0 <= i < |log| ==> log[i].term <= t
  }

  ghost function LastTermOf(log: seq<LogEntry>): Term {
    if log == [] then 0 else log[|log| - 1].term
  }

  // ---- majorities --------------------------------------------------------

  ghost predicate Majority(q: set<NodeId>, servers: set<NodeId>) {
    q <= servers && 2 * |q| > |servers|
  }

  lemma MajoritiesMeet(q1: set<NodeId>, q2: set<NodeId>, servers: set<NodeId>) returns (v: NodeId)
    requires Majority(q1, servers) && Majority(q2, servers)
    ensures v in q1 && v in q2
  {
    if q1 * q2 == {} {
      assert |q1 + q2| == |q1| + |q2|;
      SubsetSize(q1 + q2, servers);
      assert false;
    }
    v :| v in q1 * q2;
  }

  lemma {:induction false} SubsetSize<T>(a: set<T>, b: set<T>)
    requires a <= b
    ensures |a| <= |b|
  {
    if a != {} {
      var x :| x in a;
      SubsetSize(a - {x}, b - {x});
    }
  }

  // ---- the invariant -----------------------------------------------------

  ghost function Acked(g: Ledger, v: NodeId, t: Term): nat {
    if (v, t) in g.acked then g.acked[(v, t)] else 0
  }

  /** The log the leader of term `t` was elected with. */
  ghost function StartLog(g: Ledger, t: Term): seq<LogEntry> {
    if t in g.elected && (g.elected[t], t) in g.cand then g.cand[(g.elected[t], t)] else []
  }

  /** A majority has left term `t` without acknowledging `k` entries of it: that prefix can never be
      committed by counting in term `t`. */
  ghost predicate Blocked(g: Ledger, t: Term, k: nat) {
    exists q :: Majority(q, g.servers) && AllPast(g, t, k, q)
  }

  ghost predicate AllPast(g: Ledger, t: Term, k: nat, q: set<NodeId>) {
    forall v :: v in q ==> v in g.term && g.term[v] > t && Acked(g, v, t) < k
  }

  /** The first `k` entries of term `t`'s log are in `log`, unless they cannot be committed. */
  ghost predicate Safe(g: Ledger, t: Term, k: nat, log: seq<LogEntry>) {
    Blocked(g, t, k) || (t in g.led && Agree(g.led[t], log, k))
  }

  ghost predicate Domains(g: Ledger) {
    && g.term.Keys == g.servers && g.full.Keys == g.servers
    && g.elected.Keys == g.led.Keys && g.electors.Keys == g.led.Keys
    && (forall t :: t in g.led ==> (g.elected[t], t) in g.cand)
    && (forall c, t :: (c, t) in g.cand ==> c in g.servers && 1 <= t <= g.term[c])
    && (forall v, t :: (v, t) in g.ballots ==>
          v in g.servers && t <= g.term[v] && (g.ballots[(v, t)], t) in g.cand)
    && (forall v, t :: (v, t) in g.acked ==>
          v in g.servers && t in g.led && t <= g.term[v] && g.acked[(v, t)] <= |g.led[t]|)
  }

  ghost predicate LedShape(g: Ledger) {
    forall t :: t in g.led ==>
      && Agree(StartLog(g, t), g.led[t], |StartLog(g, t)|)
      && forall i :: 0 <= i < |g.led[t]| ==>
           && g.led[t][i].index == i + 1 && g.led[t][i].kind == Normal
           && g.led[t][i].term <= t
           && (g.led[t][i].term == t <==> i >= |StartLog(g, t)|)
  }

  ghost predicate AllConsistent(g: Ledger) {
    && (forall t :: t in g.led ==> Consistent(g.led[t], g.led))
    && (forall n :: n in g.full ==> Consistent(g.full[n], g.led))
    && (forall c, t :: (c, t) in g.cand ==> Consistent(g.cand[(c, t)], g.led))
  }

  ghost predicate TermsBounded(g: Ledger) {
    && (forall n :: n in g.full ==> n in g.term && TermsAtMost(g.full[n], g.term[n]))
    && (forall c, t :: (c, t) in g.cand ==> t >= 1 && TermsAtMost(g.cand[(c, t)], t - 1))
  }

  ghost predicate Elections(g: Ledger) {
    forall t :: t in g.led ==>
      && t in g.elected && t in g.electors
      && Majority(g.electors[t], g.servers)
      && forall v :: v in g.electors[t] ==> (v, t) in g.ballots && g.ballots[(v, t)] == g.elected[t]
  }

  ghost predicate LeaderLogs(g: Ledger) {
    forall t :: t in g.led ==>
      && t in g.elected && g.elected[t] in g.term && g.elected[t] in g.full
      && (g.elected[t], t) in g.acked && g.acked[(g.elected[t], t)] == |g.led[t]|
      && (g.term[g.elected[t]] == t ==> g.full[g.elected[t]] == g.led[t])
  }

  /** What a node acknowledged in its current term is what it holds. */
  ghost predicate AckHeld(g: Ledger) {
    forall v, t :: (v, t) in g.acked ==>
      && v in g.term && v in g.full && t in g.led
      && (g.term[v] == t ==> Agree(g.led[t], g.full[v], g.acked[(v, t)]))
  }

  /** What a node acknowledged in some term it still has, or it is blocked. */
  ghost predicate AckKept(g: Ledger) {
    forall v, t, k: nat {:trigger Safe(g, t, k, g.full[v])} ::
      (v, t) in g.acked && v in g.full && |StartLog(g, t)| < k <= g.acked[(v, t)] ==> Safe(g, t, k, g.full[v])
  }

  /** What a voter acknowledged before it voted is in the log of the candidate it voted for. */
  ghost predicate VoteKept(g: Ledger) {
    forall v, t, u, k: nat {:trigger VoteSafe(g, v, t, u, k)} ::
      (v, u) in g.ballots && (v, t) in g.acked && t < u && |StartLog(g, t)| < k <= g.acked[(v, t)] ==>
        VoteSafe(g, v, t, u, k)
  }

  ghost predicate VoteSafe(g: Ledger, v: NodeId, t: Term, u: Term, k: nat)
    requires (v, u) in g.ballots
  {
    (g.ballots[(v, u)], u) in g.cand && Safe(g, t, k, g.cand[(g.ballots[(v, u)], u)])
  }

  /** Leader Completeness, for everything a term could still commit. */
  ghost predicate Complete(g: Ledger) {
    forall t, u, k: nat {:trigger Safe(g, t, k, StartLog(g, u))} ::
      t in g.led && u in g.led && t < u && |StartLog(g, t)| < k <= |g.led[t]| ==>
        Safe(g, t, k, StartLog(g, u))
  }

  ghost predicate CommitsHeld(g: Ledger) {
    forall t, k :: (t, k) in g.commits ==>
      && t in g.led && |StartLog(g, t)| < k <= |g.led[t]|
      && Majority(g.commits[(t, k)], g.servers)
      && forall v :: v in g.commits[(t, k)] ==> (v, t) in g.acked && g.acked[(v, t)] >= k
  }

  ghost predicate Inv(g: Ledger) {
    && Domains(g)
    && LedShape(g) && AllConsistent(g) && TermsBounded(g)
    && Elections(g) && LeaderLogs(g) && AckHeld(g)
    && AckKept(g) && VoteKept(g) && Complete(g) && CommitsHeld(g)
  }

  lemma InvParts(g: Ledger)
    requires Inv(g)
    ensures && Domains(g)
            && LedShape(g) && AllConsistent(g) && TermsBounded(g)
            && Elections(g) && LeaderLogs(g) && AckHeld(g)
            && AckKept(g) && VoteKept(g) && Complete(g) && CommitsHeld(g)
  {
    hide Domains, LedShape, AllConsistent, TermsBounded, Elections, LeaderLogs, AckHeld, AckKept, VoteKept,
         Complete, CommitsHeld;
  }

  /** The ledger before anything has happened. */
  ghost function Fresh(servers: set<NodeId>): Ledger {
    Ledger(servers, map n | n in servers :: 0, map n | n in servers :: [],
           map[], map[], map[], map[], map[], map[], map[], {})
  }

  lemma FreshInv(servers: set<NodeId>)
    ensures Inv(Fresh(servers))
  {
  }

  // ---- growth ------------------------------------------------------------

  /** Nothing recorded is ever revised. */
  ghost predicate Grows(g: Ledger, h: Ledger) {
    GrowsNodes(g, h) && GrowsVotes(g, h) && GrowsLogs(g, h)
  }

  /** Terms rise, and what was acknowledged in a term a node has left is final. */
  ghost predicate GrowsNodes(g: Ledger, h: Ledger) {
    && g.servers == h.servers
    && (forall n :: n in g.term ==> n in h.term && g.term[n] <= h.term[n])
    && (forall v, t :: v in g.term && g.term[v] > t ==> Acked(h, v, t) == Acked(g, v, t))
  }

  ghost predicate GrowsVotes(g: Ledger, h: Ledger) {
    && (forall b :: b in g.ballots ==> b in h.ballots && h.ballots[b] == g.ballots[b])
    && (forall c :: c in g.cand ==> c in h.cand && h.cand[c] == g.cand[c])
    && (forall t :: t in g.elected ==> t in h.elected && h.elected[t] == g.elected[t])
  }

  ghost predicate GrowsLogs(g: Ledger, h: Ledger) {
    && (forall t :: t in g.led ==> t in h.led && g.led[t] <= h.led[t])
    && (forall a :: a in g.acked ==> a in h.acked && g.acked[a] <= h.acked[a])
    && (forall c :: c in g.commits ==> c in h.commits)
    && g.taken <= h.taken
  }

  lemma VotesStay(g: Ledger, h: Ledger)
    requires h.ballots == g.ballots && h.cand == g.cand && h.elected == g.elected
    ensures GrowsVotes(g, h)
  {
  }

  lemma LogsStay(g: Ledger, h: Ledger)
    requires h.led == g.led && h.acked == g.acked && h.commits == g.commits && g.taken <= h.taken
    ensures GrowsLogs(g, h)
  {
  }

  lemma GrowsTransitive(g: Ledger, h: Ledger, k: Ledger)
    requires Grows(g, h) && Grows(h, k)
    ensures Grows(g, k)
  {
    hide GrowsNodes, GrowsVotes, GrowsLogs;
    GrowsNodesTransitive(g, h, k);
    GrowsVotesTransitive(g, h, k);
    GrowsLogsTransitive(g, h, k);
  }

  lemma GrowsNodesTransitive(g: Ledger, h: Ledger, k: Ledger)
    requires GrowsNodes(g, h) && GrowsNodes(h, k)
    ensures GrowsNodes(g, k)
  {
  }

  lemma GrowsVotesTransitive(g: Ledger, h: Ledger, k: Ledger)
    requires GrowsVotes(g, h) && GrowsVotes(h, k)
    ensures GrowsVotes(g, k)
  {
  }

  lemma GrowsLogsTransitive(g: Ledger, h: Ledger, k: Ledger)
    requires GrowsLogs(g, h) && GrowsLogs(h, k)
    ensures GrowsLogs(g, k)
  {
    forall t | t in g.led ensures t in k.led && g.led[t] <= k.led[t] {
      assert g.led[t] <= h.led[t] <= k.led[t];
    }
  }

  lemma BlockedStays(g: Ledger, h: Ledger, t: Term, k: nat)
    requires GrowsNodes(g, h) && Blocked(g, t, k)
    ensures Blocked(h, t, k)
  {
    var q :| Majority(q, g.servers) && AllPast(g, t, k, q);
    assert AllPast(h, t, k, q);
  }

  lemma SafeStays(g: Ledger, h: Ledger, t: Term, k: nat, log: seq<LogEntry>)
    requires Grows(g, h) && t in g.led && Safe(g, t, k, log)
    ensures Safe(h, t, k, log)
  {
    hide GrowsNodes, GrowsVotes;
    if Blocked(g, t, k) { BlockedStays(g, h, t, k); }
  }

  // ---- consequences ------------------------------------------------------

  lemma ConsistentGrows(log: seq<LogEntry>, g: Ledger, h: Ledger)
    requires GrowsLogs(g, h) && Consistent(log, g.led)
    ensures Consistent(log, h.led)
  {
    forall i | 0 <= i < |log| ensures log[i].term in h.led && Agree(log, h.led[log[i].term], i + 1) {
      assert g.led[log[i].term] <= h.led[log[i].term];
    }
  }

  /** Terms never decrease down a log of the ledger. */
  lemma TermsAscend(g: Ledger, log: seq<LogEntry>, i: nat, j: nat)
    requires Inv(g) && Consistent(log, g.led) && i <= j < |log|
    ensures log[i].term <= log[j].term
  {
    assert Agree(log, g.led[log[j].term], j + 1);
  }

  /** Two logs with the same term somewhere agree through the lower of the two places. */
  lemma SameTermAgree(g: Ledger, a: seq<LogEntry>, b: seq<LogEntry>, i: nat, j: nat)
    requires Consistent(a, g.led) && Consistent(b, g.led)
    requires i < |a| && j < |b| && a[i].term == b[j].term
    ensures Agree(a, b, if i < j then i + 1 else j + 1)
  {
    assert Agree(a, g.led[a[i].term], i + 1);
    assert Agree(b, g.led[b[j].term], j + 1);
  }

  lemma CommittedNotBlocked(g: Ledger, t: Term, k: nat)
    requires Inv(g) && (t, k) in g.commits
    ensures !Blocked(g, t, k)
  {
    if Blocked(g, t, k) {
      var q :| Majority(q, g.servers) && AllPast(g, t, k, q);
      var v := MajoritiesMeet(q, g.commits[(t, k)], g.servers);
      assert false;
    }
  }

  lemma CommitShape(g: Ledger, t: Term, k: nat)
    requires Inv(g) && (t, k) in g.commits
    ensures t in g.led && k <= |g.led[t]|
  {
  }

  /** Leader Completeness: what term `t` committed is in the log every later leader started with. */
  lemma LeaderCompleteness(g: Ledger, t: Term, k: nat, u: Term)
    requires Inv(g) && (t, k) in g.commits && u in g.led && t < u
    ensures Agree(g.led[t], StartLog(g, u), k) && Agree(g.led[t], g.led[u], k)
  {
    CommittedNotBlocked(g, t, k);
    assert Safe(g, t, k, StartLog(g, u));
  }

  /** The first `a` entries of `log` were committed in some term up to `t`. */
  ghost predicate Covered(g: Ledger, t: Term, log: seq<LogEntry>, a: nat) {
    a == 0 || exists c :: c in g.commits && CoveredBy(g, t, log, a, c)
  }

  ghost predicate CoveredBy(g: Ledger, t: Term, log: seq<LogEntry>, a: nat, c: (Term, nat)) {
    c.0 <= t && a <= c.1 && c.0 in g.led && Agree(g.led[c.0], log, a)
  }

  lemma CoveredStays(g: Ledger, h: Ledger, t: Term, u: Term, log: seq<LogEntry>, a: nat)
    requires GrowsLogs(g, h) && Covered(g, t, log, a) && t <= u
    ensures Covered(h, u, log, a)
  {
    if a > 0 {
      var c :| c in g.commits && CoveredBy(g, t, log, a, c);
      assert g.led[c.0] <= h.led[c.0];
      assert CoveredBy(h, u, log, a, c);
    }
  }

  lemma CoveredShorter(g: Ledger, t: Term, log: seq<LogEntry>, a: nat, b: nat)
    requires Covered(g, t, log, a) && b <= a
    ensures Covered(g, t, log, b)
  {
    if b > 0 {
      var c :| c in g.commits && CoveredBy(g, t, log, a, c);
      assert CoveredBy(g, t, log, b, c);
    }
  }

  lemma CoveredMoves(g: Ledger, t: Term, log: seq<LogEntry>, other: seq<LogEntry>, a: nat)
    requires Covered(g, t, log, a) && Agree(log, other, a)
    ensures Covered(g, t, other, a)
  {
    if a > 0 {
      var c :| c in g.commits && CoveredBy(g, t, log, a, c);
      assert CoveredBy(g, t, other, a, c);
    }
  }

  /** What was committed up to term `t` is in the log of term `t`'s leader. */
  lemma CoveredIsLed(g: Ledger, t: Term, log: seq<LogEntry>, a: nat)
    requires Inv(g) && Covered(g, t, log, a) && t in g.led
    ensures Agree(log, g.led[t], a)
  {
    hide Inv;
    if a > 0 {
      var c :| c in g.commits && CoveredBy(g, t, log, a, c);
      var (u, k) := c;
      CommitIsLed(g, u, k, t);
      AgreeChain(log, g.led[u], g.led[u], g.led[t], a);
    }
  }

  lemma CommitIsLed(g: Ledger, t: Term, k: nat, u: Term)
    requires Inv(g) && (t, k) in g.commits && t <= u && u in g.led
    ensures t in g.led && Agree(g.led[t], g.led[u], k)
  {
    hide Inv;
    CommitShape(g, t, k);
    if t < u { LeaderCompleteness(g, t, k, u); }
  }

  lemma AgreeChain(a: seq<LogEntry>, x: seq<LogEntry>, y: seq<LogEntry>, b: seq<LogEntry>, k: nat)
    requires Agree(x, a, k) && Agree(x, y, k) && Agree(y, b, k)
    ensures Agree(a, b, k)
  {
  }

  lemma CommitsAgree(g: Ledger, c: (Term, nat), d: (Term, nat), k: nat)
    requires Inv(g) && c in g.commits && d in g.commits && k <= c.1 && k <= d.1
    ensures c.0 in g.led && d.0 in g.led && Agree(g.led[c.0], g.led[d.0], k)
  {
    hide Inv;
    CommitShape(g, c.0, c.1);
    CommitShape(g, d.0, d.1);
    if c.0 <= d.0 {
      CommitIsLed(g, c.0, c.1, d.0);
    } else {
      CommitIsLed(g, d.0, d.1, c.0);
    }
  }
}
