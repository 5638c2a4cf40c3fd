/**
 Merging a leader's batch into a follower's log (src/node.rs, `append_from_leader`), on logs alone:
 what the merge does to any well-indexed log, whatever the two logs' histories.
 */
module FollowerMerge {
  import opened Types
  import opened LogStore
  import opened Protocol

  /** The batch holds the indices just after `prev`, in order. */
  ghost predicate Follows(batch: seq<LogEntry>, prev: Index) {
    batch != [] && forall j :: 0 <= j < |batch| ==> batch[j].index == prev + 1 + j
  }

  lemma UnmatchedReach(log: Log, batch: seq<LogEntry>, prev: Index)
    requires Follows(batch, prev) && log.base <= prev <= log.LastIndex()
    ensures prev + FirstUnmatched(log, batch, 0) <= log.LastIndex()
  {
    var k := FirstUnmatched(log, batch, 0);
    if k > 0 { assert log.TermAt(batch[k - 1].index).Some?; }
  }

  lemma CutAt(log: Log, i: Index)
    requires log.base <= i <= log.LastIndex()
    ensures log.Truncate(i + 1) == Ok(log.(entries := log.entries[..i - log.base]))
    ensures log.TermAt(i + 1).Some? <==> i < log.LastIndex()
  {
    if i == log.LastIndex() { assert log.entries[..i - log.base] == log.entries; }
  }

  lemma AppendRest(log: Log, batch: seq<LogEntry>, prev: Index, k: nat)
    requires Follows(batch, prev) && k < |batch| && log.LastIndex() == prev + k
    ensures log.Append(batch[k..]) == Ok(log.(entries := log.entries + batch[k..]))
  {
    assert batch[k..][0] == batch[k];
  }

  lemma MergeFrom(log: Log, batch: seq<LogEntry>, k: nat, i: Index, cut: Log, merged: Log)
    requires k < |batch| && k == FirstUnmatched(log, batch, 0) && batch[k].index == i
    requires log.Truncate(i) == Ok(cut) && (log.TermAt(i).None? ==> cut == log)
    requires cut.Append(batch[k..]) == Ok(merged)
    ensures AppendFromLeader(log, batch) == Merge(merged, Ok((batch[|batch| - 1].index, log.TermAt(i).Some?)))
  {
    hide FirstUnmatched, Contiguous, Log.Append, Log.Truncate, Log.TermAt;
  }

  lemma MergeNothing(log: Log, batch: seq<LogEntry>)
    requires batch != [] && FirstUnmatched(log, batch, 0) == |batch|
    ensures AppendFromLeader(log, batch) == Merge(log, Ok((batch[|batch| - 1].index, false)))
  {
    hide FirstUnmatched;
  }

  /** The exact effect of a merge: entries already held are skipped; from the first one not held,
      the rest of the log is replaced by the rest of the batch. It never fails. */
  lemma MergeShape(log: Log, batch: seq<LogEntry>, prev: Index)
    requires Follows(batch, prev) && log.base <= prev <= log.LastIndex()
    ensures var k := FirstUnmatched(log, batch, 0);
            var m := AppendFromLeader(log, batch);
            && prev + k <= log.LastIndex()
            && m.result == Ok((prev + |batch|, k < |batch| && prev + k < log.LastIndex()))
            && m.log == (if k == |batch| then log
                         else log.(entries := log.entries[..prev + k - log.base] + batch[k..]))
  {
    hide FirstUnmatched, AppendFromLeader, Contiguous, Log.Append, Log.Truncate, Log.TermAt;
    var k := FirstUnmatched(log, batch, 0);
    UnmatchedReach(log, batch, prev);
    if k == |batch| { MergeNothing(log, batch); } else { MergeReplaces(log, batch, prev, k); }
  }

  lemma FollowsAt(batch: seq<LogEntry>, prev: Index, k: nat)
    requires Follows(batch, prev) && k < |batch|
    ensures batch[k].index == prev + 1 + k
  {
  }

  lemma MergeReplaces(log: Log, batch: seq<LogEntry>, prev: Index, k: nat)
    requires Follows(batch, prev) && log.base <= prev <= log.LastIndex()
    requires k == FirstUnmatched(log, batch, 0) && k < |batch| && prev + k <= log.LastIndex()
    ensures AppendFromLeader(log, batch) ==
            Merge(log.(entries := log.entries[..prev + k - log.base] + batch[k..]),
                  Ok((prev + |batch|, prev + k < log.LastIndex())))
  {
    hide FirstUnmatched, AppendFromLeader, Contiguous, Log.Append, Log.Truncate, Log.TermAt, Follows;
    FollowsAt(batch, prev, k);
    FollowsAt(batch, prev, |batch| - 1);
    var cut := log.(entries := log.entries[..prev + k - log.base]);
    CutAt(log, prev + k);
    AppendRest(cut, batch, prev, k);
    if prev + k == log.LastIndex() { assert log.entries[..prev + k - log.base] == log.entries; }
    MergeFrom(log, batch, k, prev + k + 1, cut, cut.(entries := cut.entries + batch[k..]));
  }

  /** The first entry in conflict with the log, if any: every entry before it the log keeps. */
  ghost predicate Conflicts(log: Log, batch: seq<LogEntry>, j: nat) {
    j < |batch| && log.TermAt(batch[j].index).Some? && log.TermAt(batch[j].index) != Some(batch[j].term)
  }

  /** A merge never hits a storage error; the log then has the batch's terms through the batch's
      last index, and the entries in the batch that were not matched by term. */
  lemma MergeSound(log: Log, batch: seq<LogEntry>, prev: Index, j: nat)
    requires Follows(batch, prev) && log.base <= prev <= log.LastIndex() && j < |batch|
    ensures var m := AppendFromLeader(log, batch);
            && m.result.Ok? && m.result.value.0 == prev + |batch| <= m.log.LastIndex()
            && m.log.base == log.base
            && m.log.TermAt(batch[j].index) == Some(batch[j].term)
            && (m.log.Entry(batch[j].index) == log.Entry(batch[j].index)
                || m.log.Entry(batch[j].index) == Some(batch[j]))
  {
    hide FirstUnmatched, AppendFromLeader;
    MergeShape(log, batch, prev);
    var k := FirstUnmatched(log, batch, 0);
    if k < |batch| && j < k { assert log.TermAt(batch[j].index) == Some(batch[j].term); }
  }

  /** A merge keeps every entry the log held before the first conflict, and all of it if there is none. */
  lemma MergeKeeps(log: Log, batch: seq<LogEntry>, prev: Index, i: Index)
    requires Follows(batch, prev) && log.base <= prev <= log.LastIndex() && log.Entry(i).Some?
    requires forall c: nat :: Conflicts(log, batch, c) ==> i < batch[c].index
    ensures AppendFromLeader(log, batch).log.Entry(i) == log.Entry(i)
  {
    MergeShape(log, batch, prev);
    var k := FirstUnmatched(log, batch, 0);
    if k < |batch| && prev + k < log.LastIndex() { assert Conflicts(log, batch, k); }
  }

  /** A merge truncates exactly when the batch conflicts with the log; a log that merely extends
      past an older batch is left as it is. */
  lemma MergeTruncates(log: Log, batch: seq<LogEntry>, prev: Index)
    requires Follows(batch, prev) && log.base <= prev <= log.LastIndex()
    ensures AppendFromLeader(log, batch).result.Ok?
    ensures AppendFromLeader(log, batch).result.value.1 <==> exists j :: Conflicts(log, batch, j)
    ensures (forall j :: 0 <= j < |batch| ==> log.TermAt(batch[j].index) == Some(batch[j].term)) ==>
              AppendFromLeader(log, batch).log == log
    ensures (forall j :: !Conflicts(log, batch, j)) ==>
              log.entries <= AppendFromLeader(log, batch).log.entries
  {
    MergeShape(log, batch, prev);
    var k := FirstUnmatched(log, batch, 0);
    if k < |batch| {
      if prev + k < log.LastIndex() {
        assert Conflicts(log, batch, k);
      } else {
        forall j ensures !Conflicts(log, batch, j) {}
      }
    }
  }
}
