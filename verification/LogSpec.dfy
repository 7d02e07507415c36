/** What a log is to its users: an index range with one entry per index, plus term and vote. */
module LogSpec {
  import opened RaftTypes

  /** The log holds the indices `first .. first + |entries| - 1`. */
  datatype LogState = LogState(first: nat, entries: seq<Entry>, term: nat, vote: nat) {
    function Next(): nat {
      first + |entries|
    }
  }

  /** The entry at position `k` carries the index `first + k`. */
  predicate Indexed(first: nat, entries: seq<Entry>) {
    forall k | 0 <= k < |entries| :: entries[k].index == first + k
  }

  predicate WellFormed(s: LogState) {
    s.first > 0 && Indexed(s.first, s.entries)
  }

  /** Entries are taken one by one as long as each continues the log. */
  function AppendAll(s: LogState, es: seq<Entry>): (LogState, bool)
    decreases |es|
  {
    if es == [] then (s, true)
    else if es[0].index != s.Next() then (s, false)
    else AppendAll(s.(entries := s.entries + [es[0]]), es[1..])
  }

  function TruncatePrefix(s: LogState, firstKept: nat): LogState {
    if s.first >= firstKept then s
    else if firstKept >= s.Next() then s.(first := firstKept, entries := [])
    else s.(first := firstKept, entries := s.entries[firstKept - s.first..])
  }

  function TruncateSuffix(s: LogState, lastKept: nat): LogState {
    if s.Next() <= lastKept + 1 then s
    else if lastKept < s.first then s.(first := lastKept + 1, entries := [])
    else s.(entries := s.entries[..lastKept + 1 - s.first])
  }

  predicate Has(s: LogState, index: nat) {
    s.first <= index < s.Next()
  }

  function EntryAt(s: LogState, index: nat): Entry
    requires Has(s, index)
  {
    s.entries[index - s.first]
  }

  /** Serialized sizes of the entries. */
  function Sizes(size: Entry -> nat, es: seq<Entry>): (r: seq<nat>)
    ensures |r| == |es| && forall k {:trigger r[k]} | 0 <= k < |es| :: r[k] == size(es[k])
  {
    seq(|es|, k requires 0 <= k < |es| => size(es[k]))
  }

  /** Where a batch that starts at position `k` ends: entries are taken while both bounds allow one more. */
  function BatchEnd(sizes: seq<nat>, k: nat, maxLen: nat, maxBatch: nat): (end: nat)
    requires k <= |sizes|
    ensures k <= end <= |sizes| && end <= k + maxBatch
    decreases |sizes| - k
  {
    if k == |sizes| || maxBatch == 0 || sizes[k] > maxLen then k
    else BatchEnd(sizes, k + 1, maxLen - sizes[k], maxBatch - 1)
  }

  /** The entries of a batch that starts at position `k`. */
  function Batch(size: Entry -> nat, es: seq<Entry>, k: nat, maxLen: nat, maxBatch: nat): seq<Entry>
    requires k <= |es|
  {
    es[k..BatchEnd(Sizes(size, es), k, maxLen, maxBatch)]
  }

  function UpTo<T>(s: seq<T>, n: nat): seq<T> {
    if |s| <= n then s else s[..n]
  }

  /** The batch from `part` is the batch from `all`, cut to `left` entries. */
  predicate BatchCut(size: Entry -> nat, part: seq<Entry>, kp: nat, all: seq<Entry>, ka: nat, left: nat,
                     maxLen: nat, maxBatch: nat)
    requires kp <= |part| && ka <= |all|
  {
    Batch(size, part, kp, maxLen, maxBatch) == UpTo(Batch(size, all, ka, maxLen, maxBatch), left)
  }

  /** Bytes taken by the first `k` entries. */
  function Total(sizes: seq<nat>, k: nat): nat
    requires k <= |sizes|
  {
    if k == 0 then 0 else Total(sizes, k - 1) + sizes[k - 1]
  }

  // ---------------------------------------------------------------- facts

  lemma {:induction false} AppendAllInOrder(s: LogState, es: seq<Entry>)
    requires Indexed(s.Next(), es)
    ensures AppendAll(s, es) == (s.(entries := s.entries + es), true)
    decreases |es|
  {
    if es == [] {
      assert s.entries + es == s.entries;
    } else {
      var s' := s.(entries := s.entries + [es[0]]);
      assert Indexed(s'.Next(), es[1..]) by {
        forall k | 0 <= k < |es[1..]| ensures es[1..][k].index == s'.Next() + k { assert es[1..][k] == es[k + 1]; }
      }
      AppendAllInOrder(s', es[1..]);
      assert s.entries + [es[0]] + es[1..] == s.entries + es;
    }
  }

  lemma BatchStep(sizes: seq<nat>, k: nat, maxLen: nat, maxBatch: nat)
    requires k < |sizes| && maxBatch > 0
    ensures BatchEnd(sizes, k, maxLen, maxBatch)
            == if sizes[k] > maxLen then k else BatchEnd(sizes, k + 1, maxLen - sizes[k], maxBatch - 1)
  {
  }

  /** Where a batch ends that cannot take one more entry. */
  lemma BatchDone(sizes: seq<nat>, k: nat, maxLen: nat, maxBatch: nat)
    requires k <= |sizes| && (k < |sizes| && maxBatch > 0 ==> sizes[k] > maxLen)
    ensures BatchEnd(sizes, k, maxLen, maxBatch) == k
  {
  }

  lemma SliceStep<T>(s: seq<T>, from: nat, to: nat)
    requires from <= to < |s|
    ensures s[from..to] + [s[to]] == s[from..to + 1]
  {
  }

  /** A batch from a stretch of the log is the part of the batch from the log that lies in the stretch. */
  lemma {:induction false} BatchWithin(part: seq<nat>, sizes: seq<nat>, from: nat, k: nat, maxLen: nat, maxBatch: nat)
    requires k <= |part| && from + |part| <= |sizes| && part == sizes[from..from + |part|]
    ensures BatchEnd(part, k, maxLen, maxBatch) == Min(|part|, BatchEnd(sizes, from + k, maxLen, maxBatch) - from)
    decreases |part| - k
  {
    if k < |part| && maxBatch > 0 && part[k] <= maxLen {
      BatchWithin(part, sizes, from, k + 1, maxLen - part[k], maxBatch - 1);
    }
  }

  /**
   * What a reader is promised: consecutive entries from position `k` on, within both bounds, and as many as the
   * bounds allow.
   */
  ghost predicate IsGreedy(size: Entry -> nat, es: seq<Entry>, k: nat, maxLen: nat, maxBatch: nat, got: seq<Entry>) {
    var end, sizes := k + |got|, Sizes(size, es);
    && end <= |es| && got == es[k..end] && |got| <= maxBatch
    && Total(sizes, end) - Total(sizes, k) <= maxLen
    && (end < |es| && |got| < maxBatch ==> Total(sizes, end + 1) - Total(sizes, k) > maxLen)
  }

  lemma BatchIsGreedy(size: Entry -> nat, es: seq<Entry>, k: nat, maxLen: nat, maxBatch: nat)
    requires k <= |es|
    ensures IsGreedy(size, es, k, maxLen, maxBatch, Batch(size, es, k, maxLen, maxBatch))
  {
    BatchEndIsGreedy(Sizes(size, es), k, maxLen, maxBatch);
  }

  lemma {:induction false} BatchEndIsGreedy(sizes: seq<nat>, k: nat, maxLen: nat, maxBatch: nat)
    requires k <= |sizes|
    ensures var end := BatchEnd(sizes, k, maxLen, maxBatch);
            && Total(sizes, end) - Total(sizes, k) <= maxLen
            && (end < |sizes| && end < k + maxBatch ==> Total(sizes, end + 1) - Total(sizes, k) > maxLen)
    decreases |sizes| - k
  {
    if k < |sizes| && maxBatch > 0 && sizes[k] <= maxLen {
      BatchEndIsGreedy(sizes, k + 1, maxLen - sizes[k], maxBatch - 1);
    }
  }
}
