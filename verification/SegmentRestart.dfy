/** What a process finds that opens a log after a truncation: exactly when it is the truncated log. */
module SegmentRestart {
  import opened RaftTypes
  import opened LogSpec
  import opened SegmentRow
  import opened SegmentDisk
  import opened SegmentLog
  import SegmentFiles

  /** After a prefix truncation the log can be opened, and is the truncated one, exactly under this condition. */
  method TruncatePrefixAndReopen(log: Log, firstKept: nat) returns (ok: bool)
    requires log.Valid() && log.Saved()
    modifies log
    ensures ok <==> || firstKept <= old(log.firstIndex) || firstKept <= old(log.lastIndex)
                    || firstKept == old(log.active.value.first)
    ensures ok ==> log.Valid() && log.Saved() && log.View() == LogSpec.TruncatePrefix(old(log.View()), firstKept)
    ensures !ok ==> TwoActive(log.disk.files)
  {
    log.TruncatePrefix(firstKept);
    ok := log.Reopen(log.closed, log.active.value);
  }

  /** After a suffix truncation the next process finds the truncated log exactly if `lastKept` is at least first - 1. */
  method TruncateSuffixAndReopen(log: Log, lastKept: nat) returns (ok: bool)
    requires log.Valid() && log.Saved()
    modifies log
    ensures ok && log.Valid() && log.View() == LogSpec.TruncateSuffix(old(log.View()), lastKept) <==>
            lastKept + 1 >= old(log.firstIndex)
  {
    log.Range();
    if lastKept + 1 < log.firstIndex {
      SuffixGone(log.closed + [log.active.value], log.firstIndex, lastKept, log.term, log.voteFor);
    }
    log.TruncateSuffix(lastKept);
    ok := log.Reopen(log.closed, if log.active.Some? then log.active.value else Seg(0, []));
  }

  function Plain(index: nat): Entry {
    Entry(index, 1, false, "")
  }

  /** One entry and a prefix truncation past it: the log cannot be opened again. */
  method StrandedByPrefix() returns (log: Log, ok: bool)
    ensures fresh(log) && !ok && TwoActive(log.disk.files)
  {
    log := new Log(_ => 1, 4, 4 * SegmentFiles.META_LEN);
    log.Range();
    var appended := log.AppendEntries([Plain(1)]);
    log.Range();
    ok := TruncatePrefixAndReopen(log, 3);
  }

  /** Three entries, the first two cut off, and a suffix truncation below: the next process does not find that log. */
  method ForgottenBySuffix() returns (log: Log, ok: bool)
    ensures fresh(log) && !(ok && log.Valid() && log.View() == LogState(2, [], 0, 0))
  {
    log := new Log(_ => 1, 4, 4 * SegmentFiles.META_LEN);
    log.Range();
    ThreeFit(log.size);
    var appended := log.AppendEntries([Plain(1), Plain(2), Plain(3)]);
    log.Range();
    log.TruncatePrefix(3);
    ok := TruncateSuffixAndReopen(log, 1);
  }

  lemma ThreeFit(size: Entry -> nat)
    requires forall e :: size(e) == 1
    ensures var es := [Plain(1), Plain(2), Plain(3)];
            Indexed(1, es) && Room(size, 4, 4 * SegmentFiles.META_LEN, [], es)
  {
    var es := [Plain(1), Plain(2), Plain(3)];
    var sizes := Sizes(size, es);
    assert [] + es == es;
    assert Total(sizes, 1) == sizes[0] == 1;
    assert Total(sizes, 2) == Total(sizes, 1) + sizes[1] == 2;
  }
}
