/**
 The eight ways the ledger moves, one node at a time, and the proof that each keeps the invariant
 and only adds to the record.
 */
module LedgerSteps {
  import opened Types
  import opened Ledger

  /** Only node `n` moved: the other nodes' logs, terms and votes are as they were. */
  ghost predicate OnlyNode(g: Ledger, h: Ledger, n: NodeId) {
    && (forall m :: m in g.term && m != n ==> m in h.term && h.term[m] == g.term[m])
    && (forall m :: m in g.full && m != n ==> m in h.full && h.full[m] == g.full[m])
    && (forall m, t :: (m, t) in h.ballots && m != n ==> (m, t) in g.ballots)
    && (forall t :: t in h.elected && t !in g.elected ==> h.elected[t] == n)
  }

  /** No node loses or changes an entry that is committed where it stands. */
  ghost predicate KeepsCovered(g: Ledger, h: Ledger) {
    forall m, a: nat {:trigger KeptAt(g, h, m, a)} ::
      m in g.full && m in g.term && Covered(g, g.term[m], g.full[m], a) ==> KeptAt(g, h, m, a)
  }

  ghost predicate KeptAt(g: Ledger, h: Ledger, m: NodeId, a: nat) {
    m in g.full && m in h.full && m in h.term && Agree(g.full[m], h.full[m], a)
  }

  /** What is newly acknowledged is acknowledged in the term the node is in. */
  ghost predicate AcksNow(g: Ledger, h: Ledger) {
    forall v, t :: Acked(h, v, t) > Acked(g, v, t) ==> v in h.term && h.term[v] == t
  }

  /** A step of node `n`: the record only grew. */
  ghost predicate Shifted(g: Ledger, h: Ledger, n: NodeId) {
    Grows(g, h) && OnlyNode(g, h, n) && KeepsCovered(g, h) && AcksNow(g, h)
  }

  /** A step that takes no snapshot of the state machine. */
  ghost predicate Moved(g: Ledger, h: Ledger, n: NodeId) {
    Shifted(g, h, n) && h.taken == g.taken
  }

  lemma AcksStay(g: Ledger, h: Ledger)
    requires h.acked == g.acked
    ensures AcksNow(g, h)
  {
  }

  lemma AcksNowTransitive(g: Ledger, h: Ledger, k: Ledger)
    requires AcksNow(g, h) && AcksNow(h, k) && (h.acked == g.acked || k.term == h.term)
    ensures AcksNow(g, k)
  {
    forall v, t | Acked(k, v, t) > Acked(g, v, t) ensures v in k.term && k.term[v] == t {
      assert Acked(k, v, t) > Acked(h, v, t) || Acked(h, v, t) > Acked(g, v, t);
    }
  }

  lemma KeepsCoveredTransitive(g: Ledger, h: Ledger, k: Ledger)
    requires KeepsCovered(g, h) && KeepsCovered(h, k) && GrowsNodes(g, h) && GrowsLogs(g, h)
    ensures KeepsCovered(g, k)
  {
    hide Covered, GrowsLogs;
    forall m, a: nat | m in g.full && m in g.term && Covered(g, g.term[m], g.full[m], a)
      ensures KeptAt(g, k, m, a)
    {
      assert KeptAt(g, h, m, a);
      CoveredStays(g, h, g.term[m], h.term[m], g.full[m], a);
      CoveredMoves(h, h.term[m], g.full[m], h.full[m], a);
      assert KeptAt(h, k, m, a);
    }
  }

  lemma CoveredReach(g: Ledger, t: Term, log: seq<LogEntry>, a: nat)
    requires Covered(g, t, log, a)
    ensures a <= |log|
  {
  }

  /** Logs that only got longer lose nothing. */
  lemma LongerKeeps(g: Ledger, h: Ledger)
    requires forall m :: m in g.full && m in g.term ==> m in h.full && m in h.term && g.full[m] <= h.full[m]
    ensures KeepsCovered(g, h)
  {
    hide Covered;
    forall m, a: nat | m in g.full && m in g.term && Covered(g, g.term[m], g.full[m], a)
      ensures KeptAt(g, h, m, a)
    {
      CoveredReach(g, g.term[m], g.full[m], a);
    }
  }

  lemma OnlyNodeTransitive(g: Ledger, h: Ledger, k: Ledger, n: NodeId)
    requires OnlyNode(g, h, n) && OnlyNode(h, k, n) && GrowsVotes(g, h) && GrowsVotes(h, k)
    ensures OnlyNode(g, k, n)
  {
  }

  lemma MovedTransitive(g: Ledger, h: Ledger, k: Ledger, n: NodeId)
    requires Moved(g, h, n) && Moved(h, k, n) && (h.acked == g.acked || k.term == h.term)
    ensures Moved(g, k, n)
  {
    hide OnlyNode, KeepsCovered, GrowsNodes, GrowsVotes, GrowsLogs, AcksNow;
    AcksNowTransitive(g, h, k);
    GrowsTransitive(g, h, k);
    KeepsCoveredTransitive(g, h, k);
    OnlyNodeTransitive(g, h, k, n);
  }

  // ---- clauses that carry over --------------------------------------------

  lemma AckKeptStays(g: Ledger, h: Ledger)
    requires Domains(g) && AckKept(g) && Grows(g, h)
    requires h.full == g.full && h.acked == g.acked
    ensures AckKept(h)
  {
    forall v, t, k: nat | (v, t) in h.acked && v in h.full && |StartLog(h, t)| < k <= h.acked[(v, t)]
      ensures Safe(h, t, k, h.full[v])
    {
      assert Safe(g, t, k, g.full[v]);
      SafeStays(g, h, t, k, g.full[v]);
    }
  }

  lemma VoteKeptStays(g: Ledger, h: Ledger)
    requires Domains(g) && VoteKept(g) && Grows(g, h)
    requires h.ballots == g.ballots && h.acked == g.acked
    ensures VoteKept(h)
  {
    forall v, t, u, k: nat |
      (v, u) in h.ballots && (v, t) in h.acked && t < u && |StartLog(h, t)| < k <= h.acked[(v, t)]
      ensures VoteSafe(h, v, t, u, k)
    {
      assert VoteSafe(g, v, t, u, k);
      SafeStays(g, h, t, k, g.cand[(g.ballots[(v, u)], u)]);
    }
  }

  lemma CompleteStays(g: Ledger, h: Ledger)
    requires Domains(g) && Complete(g) && Grows(g, h)
    requires h.led == g.led && h.elected == g.elected
    ensures Complete(h)
  {
    forall t, u, k: nat | t in h.led && u in h.led && t < u && |StartLog(h, t)| < k <= |h.led[t]|
      ensures Safe(h, t, k, StartLog(h, u))
    {
      assert Safe(g, t, k, StartLog(g, u));
      SafeStays(g, h, t, k, StartLog(g, u));
    }
  }

  /** Entries keep their place when no log or election changes. */
  lemma RecordStays(g: Ledger, h: Ledger)
    requires Domains(g) && Grows(g, h) && h.led == g.led && h.elected == g.elected
    ensures LedShape(g) ==> LedShape(h)
    ensures forall t :: t in g.led ==> StartLog(h, t) == StartLog(g, t)
  {
  }

  lemma ElectionsStay(g: Ledger, h: Ledger)
    requires Elections(g) && Grows(g, h)
    requires h.led == g.led && h.elected == g.elected && h.electors == g.electors
    ensures Elections(h)
  {
  }

  lemma CommitsStay(g: Ledger, h: Ledger)
    requires Domains(g) && CommitsHeld(g) && Grows(g, h) && h.commits == g.commits
    ensures CommitsHeld(h)
  {
    forall t, k | (t, k) in h.commits
      ensures && t in h.led && |StartLog(h, t)| < k <= |h.led[t]|
              && Majority(h.commits[(t, k)], h.servers)
              && forall v :: v in h.commits[(t, k)] ==> (v, t) in h.acked && h.acked[(v, t)] >= k
    {
      assert g.led[t] <= h.led[t];
    }
  }

  // ---- adopting a later term ---------------------------------------------

  ghost predicate Bumps(g: Ledger, h: Ledger, n: NodeId, t: Term) {
    n in g.term && t > g.term[n] && h == g.(term := g.term[n := t])
  }

  lemma BumpMoves(g: Ledger, h: Ledger, n: NodeId, t: Term)
    requires Inv(g) && Bumps(g, h, n, t)
    ensures Inv(h) && Moved(g, h, n)
  {
    hide Domains, LedShape, AllConsistent, TermsBounded, Elections, LeaderLogs, AckHeld, AckKept, VoteKept,
         Complete, CommitsHeld;
    hide GrowsNodes, GrowsVotes, GrowsLogs, OnlyNode, KeepsCovered, AcksNow;
    BumpOnly(g, h, n, t);
    AcksStay(g, h);
    BumpGrows(g, h, n, t);
    VotesStay(g, h);
    LogsStay(g, h);
    BumpDomains(g, h, n, t);
    BumpKeepsTerms(g, h, n, t);
    BumpKeepsLogs(g, h, n, t);
    BumpKeepsHeld(g, h, n, t);
    RecordStays(g, h);
    ElectionsStay(g, h);
    AckKeptStays(g, h);
    VoteKeptStays(g, h);
    CompleteStays(g, h);
    CommitsStay(g, h);
  }

  lemma BumpOnly(g: Ledger, h: Ledger, n: NodeId, t: Term)
    requires Bumps(g, h, n, t)
    ensures OnlyNode(g, h, n)
    ensures KeepsCovered(g, h)
  {
    LongerKeeps(g, h);
  }

  lemma BumpGrows(g: Ledger, h: Ledger, n: NodeId, t: Term)
    requires Domains(g) && Bumps(g, h, n, t)
    ensures GrowsNodes(g, h)
  {
  }

  lemma BumpDomains(g: Ledger, h: Ledger, n: NodeId, t: Term)
    requires Domains(g) && Bumps(g, h, n, t)
    ensures Domains(h)
  {
  }

  lemma BumpKeepsTerms(g: Ledger, h: Ledger, n: NodeId, t: Term)
    requires Bumps(g, h, n, t) && TermsBounded(g) && AllConsistent(g)
    ensures TermsBounded(h) && AllConsistent(h)
  {
  }

  lemma BumpKeepsLogs(g: Ledger, h: Ledger, n: NodeId, t: Term)
    requires Domains(g) && Bumps(g, h, n, t) && LeaderLogs(g)
    ensures LeaderLogs(h)
  {
  }

  lemma BumpKeepsHeld(g: Ledger, h: Ledger, n: NodeId, t: Term)
    requires Domains(g) && Bumps(g, h, n, t) && AckHeld(g)
    ensures AckHeld(h)
  {
  }

  // ---- campaigning -------------------------------------------------------

  /** `n` enters the next term, votes for itself and campaigns with its log. */
  ghost predicate Campaigns(g: Ledger, h: Ledger, n: NodeId) {
    && n in g.term && n in g.full
    && var t := g.term[n] + 1;
       h == g.(term := g.term[n := t], ballots := g.ballots[(n, t) := n], cand := g.cand[(n, t) := g.full[n]])
  }

  lemma CampaignMoves(g: Ledger, h: Ledger, n: NodeId)
    requires Inv(g) && Campaigns(g, h, n)
    ensures Inv(h) && Moved(g, h, n)
  {
    hide Domains, LedShape, AllConsistent, TermsBounded, Elections, LeaderLogs, AckHeld, AckKept, VoteKept,
         Complete, CommitsHeld;
    hide GrowsNodes, GrowsVotes, GrowsLogs, OnlyNode, KeepsCovered, AcksNow;
    CampaignOnly(g, h, n);
    AcksStay(g, h);
    CampaignGrows(g, h, n);
    CampaignGrowsVotes(g, h, n);
    LogsStay(g, h);
    CampaignDomains(g, h, n);
    CampaignKeepsTerms(g, h, n);
    CampaignKeepsLogs(g, h, n);
    CampaignKeepsVotes(g, h, n);
    RecordStays(g, h);
    ElectionsStay(g, h);
    AckKeptStays(g, h);
    CompleteStays(g, h);
    CommitsStay(g, h);
  }

  lemma CampaignOnly(g: Ledger, h: Ledger, n: NodeId)
    requires Campaigns(g, h, n)
    ensures OnlyNode(g, h, n)
    ensures KeepsCovered(g, h)
  {
    LongerKeeps(g, h);
  }

  lemma CampaignGrows(g: Ledger, h: Ledger, n: NodeId)
    requires Domains(g) && Campaigns(g, h, n)
    ensures GrowsNodes(g, h)
  {
  }

  lemma CampaignGrowsVotes(g: Ledger, h: Ledger, n: NodeId)
    requires Domains(g) && Campaigns(g, h, n)
    ensures GrowsVotes(g, h)
  {
  }

  lemma CampaignDomains(g: Ledger, h: Ledger, n: NodeId)
    requires Domains(g) && Campaigns(g, h, n)
    ensures Domains(h)
  {
  }

  lemma CampaignKeepsTerms(g: Ledger, h: Ledger, n: NodeId)
    requires Campaigns(g, h, n) && TermsBounded(g) && AllConsistent(g)
    ensures TermsBounded(h) && AllConsistent(h)
  {
  }

  lemma CampaignKeepsLogs(g: Ledger, h: Ledger, n: NodeId)
    requires Domains(g) && Campaigns(g, h, n) && LeaderLogs(g) && AckHeld(g)
    ensures LeaderLogs(h) && AckHeld(h)
  {
  }

  lemma CampaignKeepsVotes(g: Ledger, h: Ledger, n: NodeId)
    requires Domains(g) && Campaigns(g, h, n) && Grows(g, h) && AckKept(g) && VoteKept(g)
    ensures VoteKept(h)
  {
    forall v, t, u, k: nat |
      (v, u) in h.ballots && (v, t) in h.acked && t < u && |StartLog(h, t)| < k <= h.acked[(v, t)]
      ensures VoteSafe(h, v, t, u, k)
    {
      if (v, u) in g.ballots {
        assert VoteSafe(g, v, t, u, k);
        SafeStays(g, h, t, k, g.cand[(g.ballots[(v, u)], u)]);
      } else {
        assert Safe(g, t, k, g.full[v]);
        SafeStays(g, h, t, k, g.full[v]);
      }
    }
  }

  // ---- voting ------------------------------------------------------------

  /** The election restriction, on whole logs. */
  ghost predicate UpToDate(cand: seq<LogEntry>, mine: seq<LogEntry>) {
    LastTermOf(cand) > LastTermOf(mine) || (LastTermOf(cand) == LastTermOf(mine) && |cand| >= |mine|)
  }

  ghost predicate Votes(g: Ledger, h: Ledger, n: NodeId, c: NodeId) {
    && n in g.term && n in g.full
    && var t := g.term[n];
       && (c, t) in g.cand && UpToDate(g.cand[(c, t)], g.full[n])
       && ((n, t) in g.ballots ==> g.ballots[(n, t)] == c)
       && h == g.(ballots := g.ballots[(n, t) := c])
  }

  lemma VoteMoves(g: Ledger, h: Ledger, n: NodeId, c: NodeId)
    requires Inv(g) && Votes(g, h, n, c)
    ensures Inv(h) && Moved(g, h, n)
  {
    hide Domains, LedShape, AllConsistent, TermsBounded, Elections, LeaderLogs, AckHeld, AckKept, VoteKept,
         Complete, CommitsHeld;
    hide GrowsNodes, GrowsVotes, GrowsLogs, OnlyNode, KeepsCovered, AcksNow;
    VoteOnly(g, h, n, c);
    AcksStay(g, h);
    VoteGrows(g, h, n, c);
    LogsStay(g, h);
    VoteDomains(g, h, n, c);
    VoteKeepsLogs(g, h, n, c);
    VoteKeepsVotes(g, h, n, c);
    RecordStays(g, h);
    ElectionsStay(g, h);
    AckKeptStays(g, h);
    CompleteStays(g, h);
    CommitsStay(g, h);
  }

  lemma VoteOnly(g: Ledger, h: Ledger, n: NodeId, c: NodeId)
    requires Votes(g, h, n, c)
    ensures OnlyNode(g, h, n)
    ensures KeepsCovered(g, h)
  {
    LongerKeeps(g, h);
  }

  lemma VoteGrows(g: Ledger, h: Ledger, n: NodeId, c: NodeId)
    requires Domains(g) && Votes(g, h, n, c)
    ensures GrowsNodes(g, h) && GrowsVotes(g, h)
  {
  }

  lemma VoteDomains(g: Ledger, h: Ledger, n: NodeId, c: NodeId)
    requires Domains(g) && Votes(g, h, n, c)
    ensures Domains(h)
  {
  }

  lemma VoteKeepsLogs(g: Ledger, h: Ledger, n: NodeId, c: NodeId)
    requires Votes(g, h, n, c) && LeaderLogs(g) && AckHeld(g) && TermsBounded(g) && AllConsistent(g)
    ensures LeaderLogs(h) && AckHeld(h) && TermsBounded(h) && AllConsistent(h)
  {
  }

  /** The heart of the election restriction: whatever the voter acknowledged earlier and could still
      be committed is in the log of a candidate that is up to date with it. */
  lemma UpToDateKeeps(g: Ledger, mine: seq<LogEntry>, cand: seq<LogEntry>, t: Term, k: nat)
    requires LedShape(g) && Complete(g) && t in g.led && |StartLog(g, t)| < k <= |g.led[t]|
    requires Consistent(mine, g.led) && Consistent(cand, g.led)
    requires UpToDate(cand, mine) && Agree(g.led[t], mine, k)
    ensures Safe(g, t, k, cand)
  {
    var m := mine[|mine| - 1].term;
    assert mine[k - 1].term == t;
    assert Agree(mine, g.led[m], |mine|);
    assert t <= m;
    var c := cand[|cand| - 1].term;
    assert Agree(cand, g.led[c], |cand|);
    if c > m {
      assert g.led[c][|cand| - 1].term == c;
      assert Safe(g, t, k, StartLog(g, c));
    }
  }

  lemma VoteKeepsVotes(g: Ledger, h: Ledger, n: NodeId, c: NodeId)
    requires Domains(g) && Votes(g, h, n, c) && Grows(g, h)
    requires LedShape(g) && AllConsistent(g) && AckKept(g) && VoteKept(g) && Complete(g)
    ensures VoteKept(h)
  {
    hide LedShape, Complete;
    forall v, t, u, k: nat |
      (v, u) in h.ballots && (v, t) in h.acked && t < u && |StartLog(h, t)| < k <= h.acked[(v, t)]
      ensures VoteSafe(h, v, t, u, k)
    {
      if (v, u) in g.ballots {
        assert VoteSafe(g, v, t, u, k);
        SafeStays(g, h, t, k, g.cand[(g.ballots[(v, u)], u)]);
      } else {
        var cand := g.cand[(c, u)];
        assert Safe(g, t, k, g.full[v]);
        if Agree(g.led[t], g.full[v], k) { UpToDateKeeps(g, g.full[v], cand, t, k); }
        SafeStays(g, h, t, k, cand);
      }
    }
  }

  // ---- winning -----------------------------------------------------------

  ghost predicate Wins(g: Ledger, h: Ledger, n: NodeId, q: set<NodeId>) {
    && n in g.term && n in g.full
    && var t := g.term[n];
       && (n, t) in g.cand && g.cand[(n, t)] == g.full[n]
       && t !in g.led
       && Majority(q, g.servers)
       && (forall v :: v in q ==> (v, t) in g.ballots && g.ballots[(v, t)] == n)
       && h == g.(elected := g.elected[t := n], electors := g.electors[t := q],
                  led := g.led[t := g.full[n]], acked := g.acked[(n, t) := |g.full[n]|])
  }

  lemma WinMoves(g: Ledger, h: Ledger, n: NodeId, q: set<NodeId>)
    requires Inv(g) && Wins(g, h, n, q)
    ensures Inv(h) && Moved(g, h, n)
  {
    hide Domains, LedShape, AllConsistent, TermsBounded, Elections, LeaderLogs, AckHeld, AckKept, VoteKept,
         Complete, CommitsHeld;
    hide GrowsNodes, GrowsVotes, GrowsLogs, OnlyNode, KeepsCovered, AcksNow;
    WinOnly(g, h, n, q);
    WinAcksNow(g, h, n, q);
    WinGrows(g, h, n, q);
    WinGrowsRecord(g, h, n, q);
    WinDomains(g, h, n, q);
    WinKeepsShape(g, h, n, q);
    WinKeepsConsistency(g, h, n, q);
    WinKeepsElections(g, h, n, q);
    WinKeepsLogs(g, h, n, q);
    WinKeepsHeld(g, h, n, q);
    WinKeepsAcks(g, h, n, q);
    WinKeepsVotes(g, h, n, q);
    WinIsComplete(g, h, n, q);
    CommitsStay(g, h);
  }

  lemma WinAcksNow(g: Ledger, h: Ledger, n: NodeId, q: set<NodeId>)
    requires Wins(g, h, n, q)
    ensures AcksNow(g, h)
  {
  }

  lemma WinOnly(g: Ledger, h: Ledger, n: NodeId, q: set<NodeId>)
    requires Wins(g, h, n, q)
    ensures OnlyNode(g, h, n)
    ensures KeepsCovered(g, h)
  {
    LongerKeeps(g, h);
  }

  lemma WinGrows(g: Ledger, h: Ledger, n: NodeId, q: set<NodeId>)
    requires Domains(g) && Wins(g, h, n, q)
    ensures GrowsNodes(g, h)
  {
  }

  lemma WinGrowsRecord(g: Ledger, h: Ledger, n: NodeId, q: set<NodeId>)
    requires Domains(g) && Wins(g, h, n, q)
    ensures GrowsVotes(g, h) && GrowsLogs(g, h)
  {
  }

  lemma WinDomains(g: Ledger, h: Ledger, n: NodeId, q: set<NodeId>)
    requires Domains(g) && Wins(g, h, n, q)
    ensures Domains(h)
  {
  }

  /** Terms that had a leader started as they did, and the new leader starts with its own log. */
  lemma WinStarts(g: Ledger, h: Ledger, n: NodeId, q: set<NodeId>)
    requires Domains(g) && Wins(g, h, n, q)
    ensures forall t :: t in g.led ==> StartLog(h, t) == StartLog(g, t) && h.led[t] == g.led[t]
    ensures StartLog(h, g.term[n]) == g.full[n] == h.led[g.term[n]]
  {
  }

  lemma NewLogShape(g: Ledger, log: seq<LogEntry>, t: Term, i: nat)
    requires LedShape(g) && Consistent(log, g.led) && t >= 1 && TermsAtMost(log, t - 1) && i < |log|
    ensures log[i].index == i + 1 && log[i].kind == Normal && log[i].term < t
  {
    assert Agree(log, g.led[log[i].term], i + 1);
  }

  lemma WinKeepsShape(g: Ledger, h: Ledger, n: NodeId, q: set<NodeId>)
    requires Domains(g) && Wins(g, h, n, q) && LedShape(g) && AllConsistent(g) && TermsBounded(g)
    ensures LedShape(h)
  {
    hide Domains, Consistent, TermsAtMost;
    WinStarts(g, h, n, q);
    var u := g.term[n];
    forall t | t in h.led
      ensures Agree(StartLog(h, t), h.led[t], |StartLog(h, t)|)
      ensures forall i :: 0 <= i < |h.led[t]| ==>
                && h.led[t][i].index == i + 1 && h.led[t][i].kind == Normal
                && h.led[t][i].term <= t
                && (h.led[t][i].term == t <==> i >= |StartLog(h, t)|)
    {
      if t == u {
        assert TermsAtMost(g.cand[(n, u)], u - 1);
        forall i | 0 <= i < |h.led[t]|
          ensures h.led[t][i].index == i + 1 && h.led[t][i].kind == Normal && h.led[t][i].term < u
        {
          NewLogShape(g, g.full[n], u, i);
        }
      }
    }
  }

  lemma WinKeepsConsistency(g: Ledger, h: Ledger, n: NodeId, q: set<NodeId>)
    requires Wins(g, h, n, q) && AllConsistent(g) && TermsBounded(g)
    ensures AllConsistent(h) && TermsBounded(h)
  {
  }

  lemma WinKeepsElections(g: Ledger, h: Ledger, n: NodeId, q: set<NodeId>)
    requires Wins(g, h, n, q) && Elections(g)
    ensures Elections(h)
  {
  }

  lemma WinKeepsLogs(g: Ledger, h: Ledger, n: NodeId, q: set<NodeId>)
    requires Domains(g) && Wins(g, h, n, q) && LeaderLogs(g)
    ensures LeaderLogs(h)
  {
  }

  lemma WinKeepsHeld(g: Ledger, h: Ledger, n: NodeId, q: set<NodeId>)
    requires Domains(g) && Wins(g, h, n, q) && AckHeld(g)
    ensures AckHeld(h)
  {
  }

  lemma WinKeepsAcks(g: Ledger, h: Ledger, n: NodeId, q: set<NodeId>)
    requires Domains(g) && Wins(g, h, n, q) && Grows(g, h) && AckKept(g)
    ensures AckKept(h)
  {
    WinStarts(g, h, n, q);
    forall v, t, k: nat | (v, t) in h.acked && v in h.full && |StartLog(h, t)| < k <= h.acked[(v, t)]
      ensures Safe(h, t, k, h.full[v])
    {
      assert t != g.term[n];
      assert Safe(g, t, k, g.full[v]);
      SafeStays(g, h, t, k, g.full[v]);
    }
  }

  lemma WinKeepsVotes(g: Ledger, h: Ledger, n: NodeId, q: set<NodeId>)
    requires Domains(g) && Wins(g, h, n, q) && Grows(g, h) && VoteKept(g)
    ensures VoteKept(h)
  {
    WinStarts(g, h, n, q);
    forall v, t, u, k: nat |
      (v, u) in h.ballots && (v, t) in h.acked && t < u && |StartLog(h, t)| < k <= h.acked[(v, t)]
      ensures VoteSafe(h, v, t, u, k)
    {
      assert t != g.term[n];
      assert VoteSafe(g, v, t, u, k);
      SafeStays(g, h, t, k, g.cand[(g.ballots[(v, u)], u)]);
    }
  }

  /** A newly elected leader's log holds whatever earlier terms could still commit: some elector
      acknowledged it, or the electors themselves block it. */
  lemma ElectorsDecide(g: Ledger, n: NodeId, q: set<NodeId>, u: Term, t: Term, k: nat)
    requires Domains(g) && VoteKept(g) && Majority(q, g.servers) && t < u && t in g.led
    requires forall v :: v in q ==> (v, u) in g.ballots && g.ballots[(v, u)] == n
    requires |StartLog(g, t)| < k && (n, u) in g.cand
    ensures Safe(g, t, k, g.cand[(n, u)])
  {
    if v :| v in q && Acked(g, v, t) >= k {
      assert VoteSafe(g, v, t, u, k);
    } else {
      assert AllPast(g, t, k, q);
    }
  }

  lemma WinIsComplete(g: Ledger, h: Ledger, n: NodeId, q: set<NodeId>)
    requires Domains(g) && Wins(g, h, n, q) && Grows(g, h) && VoteKept(g) && Complete(g)
    ensures Complete(h)
  {
    WinStarts(g, h, n, q);
    forall t, u, k: nat | t in h.led && u in h.led && t < u && |StartLog(h, t)| < k <= |h.led[t]|
      ensures Safe(h, t, k, StartLog(h, u))
    {
      assert t != g.term[n];
      if u == g.term[n] {
        ElectorsDecide(g, n, q, u, t, k);
      } else {
        assert Safe(g, t, k, StartLog(g, u));
      }
      SafeStays(g, h, t, k, StartLog(h, u));
    }
  }

  // ---- appending ---------------------------------------------------------

  ghost predicate Extends(g: Ledger, h: Ledger, n: NodeId, e: LogEntry) {
    && n in g.term && n in g.full
    && var t := g.term[n];
       && t in g.led && t in g.elected && g.elected[t] == n && g.full[n] == g.led[t]
       && e.term == t && e.index == |g.full[n]| + 1 && e.kind == Normal
       && var log := g.full[n] + [e];
          h == g.(full := g.full[n := log], led := g.led[t := log], acked := g.acked[(n, t) := |log|])
  }

  lemma ExtendMoves(g: Ledger, h: Ledger, n: NodeId, e: LogEntry)
    requires Inv(g) && Extends(g, h, n, e)
    ensures Inv(h) && Moved(g, h, n)
  {
    hide Domains, LedShape, AllConsistent, TermsBounded, Elections, LeaderLogs, AckHeld, AckKept, VoteKept,
         Complete, CommitsHeld;
    hide GrowsNodes, GrowsVotes, GrowsLogs, OnlyNode, KeepsCovered, AcksNow;
    ExtendOnly(g, h, n, e);
    ExtendAcksNow(g, h, n, e);
    ExtendGrows(g, h, n, e);
    VotesStay(g, h);
    ExtendGrowsLogs(g, h, n, e);
    ExtendDomains(g, h, n, e);
    ExtendKeepsShape(g, h, n, e);
    ExtendKeepsElections(g, h, n, e);
    ExtendKeepsConsistency(g, h, n, e);
    ExtendKeepsTerms(g, h, n, e);
    ExtendKeepsLogs(g, h, n, e);
    ExtendKeepsHeld(g, h, n, e);
    ExtendKeepsAcks(g, h, n, e);
    ExtendKeepsVotes(g, h, n, e);
    ExtendIsComplete(g, h, n, e);
    CommitsStay(g, h);
  }

  lemma ExtendAcksNow(g: Ledger, h: Ledger, n: NodeId, e: LogEntry)
    requires Extends(g, h, n, e)
    ensures AcksNow(g, h)
  {
  }

  lemma ExtendOnly(g: Ledger, h: Ledger, n: NodeId, e: LogEntry)
    requires Extends(g, h, n, e)
    ensures OnlyNode(g, h, n)
    ensures KeepsCovered(g, h)
  {
    LongerKeeps(g, h);
  }

  lemma ExtendGrows(g: Ledger, h: Ledger, n: NodeId, e: LogEntry)
    requires Extends(g, h, n, e)
    ensures GrowsNodes(g, h)
  {
  }

  lemma ExtendGrowsLogs(g: Ledger, h: Ledger, n: NodeId, e: LogEntry)
    requires LeaderLogs(g) && Extends(g, h, n, e)
    ensures GrowsLogs(g, h)
  {
  }

  lemma ExtendDomains(g: Ledger, h: Ledger, n: NodeId, e: LogEntry)
    requires Domains(g) && LeaderLogs(g) && Extends(g, h, n, e)
    ensures Domains(h)
  {
  }

  lemma ExtendStarts(g: Ledger, h: Ledger, n: NodeId, e: LogEntry)
    requires Extends(g, h, n, e)
    ensures forall t :: StartLog(h, t) == StartLog(g, t)
    ensures forall t :: t in g.led && t != g.term[n] ==> h.led[t] == g.led[t]
    ensures h.led[g.term[n]] == g.led[g.term[n]] + [e]
  {
  }

  lemma ExtendKeepsShape(g: Ledger, h: Ledger, n: NodeId, e: LogEntry)
    requires Extends(g, h, n, e) && LedShape(g)
    ensures LedShape(h)
  {
    ExtendStarts(g, h, n, e);
    forall t | t in h.led
      ensures Agree(StartLog(h, t), h.led[t], |StartLog(h, t)|)
      ensures forall i :: 0 <= i < |h.led[t]| ==>
                && h.led[t][i].index == i + 1 && h.led[t][i].kind == Normal
                && h.led[t][i].term <= t
                && (h.led[t][i].term == t <==> i >= |StartLog(h, t)|)
    {
      assert t in g.led;
    }
  }

  lemma ExtendKeepsElections(g: Ledger, h: Ledger, n: NodeId, e: LogEntry)
    requires Extends(g, h, n, e) && Elections(g)
    ensures Elections(h)
  {
  }

  lemma ExtendKeepsConsistency(g: Ledger, h: Ledger, n: NodeId, e: LogEntry)
    requires Extends(g, h, n, e) && AllConsistent(g) && GrowsLogs(g, h)
    ensures AllConsistent(h)
  {
    var log := h.led[g.term[n]];
    forall i | 0 <= i < |log| ensures log[i].term in h.led && Agree(log, h.led[log[i].term], i + 1) {
      if i < |log| - 1 {
        ConsistentGrows(g.full[n], g, h);
        assert log[i] == g.full[n][i];
        assert Agree(g.full[n], h.led[log[i].term], i + 1);
      }
    }
    forall t | t in h.led ensures Consistent(h.led[t], h.led) {
      if t != g.term[n] { ConsistentGrows(g.led[t], g, h); }
    }
    forall m | m in h.full ensures Consistent(h.full[m], h.led) {
      if m != n { ConsistentGrows(g.full[m], g, h); }
    }
    forall c, t | (c, t) in h.cand ensures Consistent(h.cand[(c, t)], h.led) {
      ConsistentGrows(g.cand[(c, t)], g, h);
    }
  }

  lemma ExtendKeepsTerms(g: Ledger, h: Ledger, n: NodeId, e: LogEntry)
    requires Extends(g, h, n, e) && TermsBounded(g)
    ensures TermsBounded(h)
  {
  }

  lemma ExtendKeepsLogs(g: Ledger, h: Ledger, n: NodeId, e: LogEntry)
    requires Extends(g, h, n, e) && LeaderLogs(g)
    ensures LeaderLogs(h)
  {
  }

  lemma ExtendKeepsHeld(g: Ledger, h: Ledger, n: NodeId, e: LogEntry)
    requires Extends(g, h, n, e) && AckHeld(g)
    ensures AckHeld(h)
  {
  }

  lemma ExtendKeepsAcks(g: Ledger, h: Ledger, n: NodeId, e: LogEntry)
    requires Domains(g) && Extends(g, h, n, e) && Grows(g, h) && AckKept(g)
    ensures AckKept(h)
  {
    ExtendStarts(g, h, n, e);
    forall v, t, k: nat | (v, t) in h.acked && v in h.full && |StartLog(h, t)| < k <= h.acked[(v, t)]
      ensures Safe(h, t, k, h.full[v])
    {
      if v != n || t != g.term[n] {
        assert Safe(g, t, k, g.full[v]);
        SafeStays(g, h, t, k, g.full[v]);
      }
    }
  }

  lemma ExtendKeepsVotes(g: Ledger, h: Ledger, n: NodeId, e: LogEntry)
    requires Domains(g) && Extends(g, h, n, e) && Grows(g, h) && VoteKept(g)
    ensures VoteKept(h)
  {
    ExtendStarts(g, h, n, e);
    forall v, t, u, k: nat |
      (v, u) in h.ballots && (v, t) in h.acked && t < u && |StartLog(h, t)| < k <= h.acked[(v, t)]
      ensures VoteSafe(h, v, t, u, k)
    {
      assert v != n || t != g.term[n];
      assert VoteSafe(g, v, t, u, k);
      SafeStays(g, h, t, k, g.cand[(g.ballots[(v, u)], u)]);
    }
  }

  /** A leader that has been superseded can still append, but not commit what it appends: the
      electors of the later term block it. */
  lemma SupersededBlocked(g: Ledger, h: Ledger, n: NodeId, e: LogEntry, u: Term)
    requires Domains(g) && Elections(g) && Extends(g, h, n, e) && u in g.led && u > g.term[n]
    ensures Blocked(h, g.term[n], |g.full[n]| + 1)
  {
    assert AllPast(h, g.term[n], |g.full[n]| + 1, g.electors[u]);
  }

  lemma ExtendIsComplete(g: Ledger, h: Ledger, n: NodeId, e: LogEntry)
    requires Domains(g) && Elections(g) && Extends(g, h, n, e) && Grows(g, h) && Complete(g)
    ensures Complete(h)
  {
    ExtendStarts(g, h, n, e);
    forall t, u, k: nat | t in h.led && u in h.led && t < u && |StartLog(h, t)| < k <= |h.led[t]|
      ensures Safe(h, t, k, StartLog(h, u))
    {
      if t == g.term[n] && k == |h.led[t]| {
        SupersededBlocked(g, h, n, e, u);
      } else {
        assert Safe(g, t, k, StartLog(g, u));
        SafeStays(g, h, t, k, StartLog(g, u));
      }
    }
  }

  // ---- accepting from the leader -----------------------------------------

  /** `n`, a follower in a term that has a leader, replaces its log by one that keeps all of its
      agreement with the leader's, and acknowledges `m` entries of it. */
  ghost predicate Accepts(g: Ledger, h: Ledger, n: NodeId, log: seq<LogEntry>, m: nat) {
    && n in g.term && n in g.full
    && var t := g.term[n];
       && t in g.led && t in g.elected && g.elected[t] != n
       && Consistent(log, g.led) && TermsAtMost(log, t)
       && Agree(g.led[t], log, m)
       && KeepsAgreement(g.led[t], g.full[n], log)
       && var k := if Acked(g, n, t) < m then m else Acked(g, n, t);
          h == g.(full := g.full[n := log], acked := g.acked[(n, t) := k])
  }

  ghost predicate KeepsAgreement(led: seq<LogEntry>, before: seq<LogEntry>, after: seq<LogEntry>) {
    forall k: nat :: Agree(led, before, k) ==> Agree(led, after, k)
  }

  lemma AcceptMoves(g: Ledger, h: Ledger, n: NodeId, log: seq<LogEntry>, m: nat)
    requires Inv(g) && Accepts(g, h, n, log, m)
    ensures Inv(h) && Moved(g, h, n)
  {
    hide Domains, LedShape, AllConsistent, TermsBounded, Elections, LeaderLogs, AckHeld, AckKept, VoteKept,
         Complete, CommitsHeld;
    hide GrowsNodes, GrowsVotes, GrowsLogs, OnlyNode, KeepsCovered, AcksNow;
    AcceptOnly(g, h, n, log, m);
    AcceptAcksNow(g, h, n, log, m);
    AcceptKeepsCovered(g, h, n, log, m);
    AcceptGrows(g, h, n, log, m);
    VotesStay(g, h);
    AcceptGrowsLogs(g, h, n, log, m);
    AcceptDomains(g, h, n, log, m);
    RecordStays(g, h);
    ElectionsStay(g, h);
    AcceptKeepsConsistency(g, h, n, log, m);
    AcceptKeepsLogs(g, h, n, log, m);
    AcceptKeepsHeld(g, h, n, log, m);
    AcceptKeepsAcks(g, h, n, log, m);
    AcceptKeepsVotes(g, h, n, log, m);
    CompleteStays(g, h);
    CommitsStay(g, h);
  }

  lemma AcceptAcksNow(g: Ledger, h: Ledger, n: NodeId, log: seq<LogEntry>, m: nat)
    requires Accepts(g, h, n, log, m)
    ensures AcksNow(g, h)
  {
  }

  lemma AcceptOnly(g: Ledger, h: Ledger, n: NodeId, log: seq<LogEntry>, m: nat)
    requires Accepts(g, h, n, log, m)
    ensures OnlyNode(g, h, n)
  {
  }

  /** What is committed where the follower stands its leader has too, so the follower keeps it. */
  lemma AcceptKeepsCovered(g: Ledger, h: Ledger, n: NodeId, log: seq<LogEntry>, m: nat)
    requires Inv(g) && Accepts(g, h, n, log, m)
    ensures KeepsCovered(g, h)
  {
    hide Inv, Covered, Consistent, TermsAtMost;
    forall v, a: nat | v in g.full && v in g.term && Covered(g, g.term[v], g.full[v], a)
      ensures KeptAt(g, h, v, a)
    {
      CoveredReach(g, g.term[v], g.full[v], a);
      if v == n {
        CoveredIsLed(g, g.term[n], g.full[n], a);
        assert Agree(g.led[g.term[n]], g.full[n], a);
        assert Agree(g.led[g.term[n]], log, a);
      }
    }
  }

  lemma AcceptGrows(g: Ledger, h: Ledger, n: NodeId, log: seq<LogEntry>, m: nat)
    requires Accepts(g, h, n, log, m)
    ensures GrowsNodes(g, h)
  {
  }

  lemma AcceptGrowsLogs(g: Ledger, h: Ledger, n: NodeId, log: seq<LogEntry>, m: nat)
    requires Accepts(g, h, n, log, m)
    ensures GrowsLogs(g, h)
  {
  }

  lemma AcceptDomains(g: Ledger, h: Ledger, n: NodeId, log: seq<LogEntry>, m: nat)
    requires Domains(g) && Accepts(g, h, n, log, m)
    ensures Domains(h)
  {
  }

  lemma AcceptKeepsConsistency(g: Ledger, h: Ledger, n: NodeId, log: seq<LogEntry>, m: nat)
    requires Accepts(g, h, n, log, m) && AllConsistent(g) && TermsBounded(g)
    ensures AllConsistent(h) && TermsBounded(h)
  {
  }

  lemma AcceptKeepsLogs(g: Ledger, h: Ledger, n: NodeId, log: seq<LogEntry>, m: nat)
    requires Accepts(g, h, n, log, m) && LeaderLogs(g)
    ensures LeaderLogs(h)
  {
    forall t | t in h.led
      ensures && t in h.elected && h.elected[t] in h.term && h.elected[t] in h.full
              && (h.elected[t], t) in h.acked && h.acked[(h.elected[t], t)] == |h.led[t]|
              && (h.term[h.elected[t]] == t ==> h.full[h.elected[t]] == h.led[t])
    {
      assert h.elected[t] != n || t != g.term[n];
    }
  }

  lemma AcceptKeepsHeld(g: Ledger, h: Ledger, n: NodeId, log: seq<LogEntry>, m: nat)
    requires Accepts(g, h, n, log, m) && AckHeld(g)
    ensures AckHeld(h)
  {
    var t := g.term[n];
    if (n, t) in g.acked {
      assert Agree(g.led[t], g.full[n], g.acked[(n, t)]);
      assert Agree(g.led[t], log, g.acked[(n, t)]);
    }
  }

  /** What the follower held of an earlier term's log and could still be committed, the leader has,
      so it survives in whatever keeps the agreement with the leader. */
  lemma EarlierKept(g: Ledger, n: NodeId, log: seq<LogEntry>, t: Term, k: nat)
    requires Domains(g) && LedShape(g) && Complete(g) && n in g.term && n in g.full && g.term[n] in g.led
    requires t in g.led && t < g.term[n] && |StartLog(g, t)| < k <= |g.led[t]|
    requires Agree(g.led[t], g.full[n], k) && KeepsAgreement(g.led[g.term[n]], g.full[n], log)
    ensures Safe(g, t, k, log)
  {
    var u := g.term[n];
    assert Safe(g, t, k, StartLog(g, u));
    if !Blocked(g, t, k) {
      assert Agree(StartLog(g, u), g.led[u], |StartLog(g, u)|);
      assert Agree(g.led[u], g.full[n], k);
      assert Agree(g.led[u], log, k);
    }
  }

  lemma AcceptKeepsAcks(g: Ledger, h: Ledger, n: NodeId, log: seq<LogEntry>, m: nat)
    requires Domains(g) && Accepts(g, h, n, log, m) && Grows(g, h)
    requires LedShape(g) && AckHeld(h) && AckKept(g) && Complete(g)
    ensures AckKept(h)
  {
    hide LedShape, Complete;
    forall v, t, k: nat | (v, t) in h.acked && v in h.full && |StartLog(h, t)| < k <= h.acked[(v, t)]
      ensures Safe(h, t, k, h.full[v])
    {
      if v != n || t != g.term[n] {
        assert Safe(g, t, k, g.full[v]);
        if v == n && Agree(g.led[t], g.full[n], k) { EarlierKept(g, n, log, t, k); }
        SafeStays(g, h, t, k, h.full[v]);
      }
    }
  }

  lemma AcceptKeepsVotes(g: Ledger, h: Ledger, n: NodeId, log: seq<LogEntry>, m: nat)
    requires Domains(g) && Accepts(g, h, n, log, m) && Grows(g, h) && VoteKept(g)
    ensures VoteKept(h)
  {
    forall v, t, u, k: nat |
      (v, u) in h.ballots && (v, t) in h.acked && t < u && |StartLog(h, t)| < k <= h.acked[(v, t)]
      ensures VoteSafe(h, v, t, u, k)
    {
      assert v != n || t != g.term[n];
      assert VoteSafe(g, v, t, u, k);
      SafeStays(g, h, t, k, g.cand[(g.ballots[(v, u)], u)]);
    }
  }

  // ---- committing --------------------------------------------------------

  /** A majority holds `k` entries of term `t`'s log, the last of them from that term. */
  ghost predicate CommitsBy(g: Ledger, h: Ledger, t: Term, k: nat, q: set<NodeId>) {
    && t in g.led && |StartLog(g, t)| < k <= |g.led[t]|
    && Majority(q, g.servers)
    && (forall v :: v in q ==> (v, t) in g.acked && g.acked[(v, t)] >= k)
    && h == g.(commits := g.commits[(t, k) := q])
  }

  lemma CommitMoves(g: Ledger, h: Ledger, n: NodeId, t: Term, k: nat, q: set<NodeId>)
    requires Inv(g) && CommitsBy(g, h, t, k, q)
    ensures Inv(h) && Moved(g, h, n)
  {
    hide Domains, LedShape, AllConsistent, TermsBounded, Elections, LeaderLogs, AckHeld, AckKept, VoteKept,
         Complete, CommitsHeld;
    hide GrowsNodes, GrowsVotes, GrowsLogs, OnlyNode, KeepsCovered, AcksNow;
    CommitOnly(g, h, n, t, k, q);
    AcksStay(g, h);
    CommitGrows(g, h, t, k, q);
    VotesStay(g, h);
    CommitDomains(g, h, t, k, q);
    CommitKeepsLogs(g, h, t, k, q);
    RecordStays(g, h);
    ElectionsStay(g, h);
    AckKeptStays(g, h);
    VoteKeptStays(g, h);
    CompleteStays(g, h);
    CommitKeepsCommits(g, h, t, k, q);
  }

  lemma CommitOnly(g: Ledger, h: Ledger, n: NodeId, t: Term, k: nat, q: set<NodeId>)
    requires CommitsBy(g, h, t, k, q)
    ensures OnlyNode(g, h, n)
    ensures KeepsCovered(g, h)
  {
    LongerKeeps(g, h);
  }

  lemma CommitGrows(g: Ledger, h: Ledger, t: Term, k: nat, q: set<NodeId>)
    requires CommitsBy(g, h, t, k, q)
    ensures GrowsNodes(g, h) && GrowsLogs(g, h)
  {
  }

  lemma CommitDomains(g: Ledger, h: Ledger, t: Term, k: nat, q: set<NodeId>)
    requires CommitsBy(g, h, t, k, q) && Domains(g)
    ensures Domains(h)
  {
  }

  lemma CommitKeepsLogs(g: Ledger, h: Ledger, t: Term, k: nat, q: set<NodeId>)
    requires CommitsBy(g, h, t, k, q)
    requires AllConsistent(g) && TermsBounded(g) && LeaderLogs(g) && AckHeld(g)
    ensures AllConsistent(h) && TermsBounded(h) && LeaderLogs(h) && AckHeld(h)
  {
    hide Consistent, Agree, TermsAtMost;
  }

  lemma CommitKeepsCommits(g: Ledger, h: Ledger, t: Term, k: nat, q: set<NodeId>)
    requires CommitsBy(g, h, t, k, q) && CommitsHeld(g)
    ensures CommitsHeld(h)
  {
  }

  // ---- taking a snapshot -------------------------------------------------

  /** Some state machines were captured. */
  lemma TakeShifts(g: Ledger, n: NodeId, taken: set<(Index, Term, Bytes)>) returns (h: Ledger)
    requires Inv(g)
    ensures h == g.(taken := g.taken + taken) && Inv(h) && Shifted(g, h, n)
  {
    hide Domains, LedShape, AllConsistent, TermsBounded, Elections, LeaderLogs, AckHeld, AckKept, VoteKept,
         Complete, CommitsHeld, OnlyNode, KeepsCovered, AcksNow;
    h := g.(taken := g.taken + taken);
    InvParts(g);
    TakeOnly(g, h, n);
    AcksStay(g, h);
    VotesStay(g, h);
    LogsStay(g, h);
    TakeGrows(g, h);
    TakeKeeps(g, h);
    RecordStays(g, h);
    ElectionsStay(g, h);
    AckKeptStays(g, h);
    VoteKeptStays(g, h);
    CompleteStays(g, h);
    CommitsStay(g, h);
  }

  lemma TakeOnly(g: Ledger, h: Ledger, n: NodeId)
    requires h == g.(taken := h.taken)
    ensures OnlyNode(g, h, n) && KeepsCovered(g, h)
  {
    LongerKeeps(g, h);
  }

  lemma TakeGrows(g: Ledger, h: Ledger)
    requires h == g.(taken := h.taken)
    ensures GrowsNodes(g, h)
  {
  }

  lemma TakeKeeps(g: Ledger, h: Ledger)
    requires h == g.(taken := h.taken)
    requires Domains(g) && AllConsistent(g) && TermsBounded(g) && LeaderLogs(g) && AckHeld(g)
    ensures Domains(h) && AllConsistent(h) && TermsBounded(h) && LeaderLogs(h) && AckHeld(h)
  {
  }
}
