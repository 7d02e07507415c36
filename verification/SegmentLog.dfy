/** The file log: closed segments, one active segment, and three small files with term, vote and first index. */
module SegmentLog {
  import opened RaftTypes
  import opened LogSpec
  import opened SegmentRow
  import opened SegmentDisk
  import Segment

  /** The segments are in order, and the log they hold from `first` on is `want`. */
  ghost predicate Shows(segs: seq<Seg>, first: nat, term: nat, voteFor: nat, want: LogState) {
    Held(segs, first) && LogState(first, Window(segs, first), term, voteFor) == want
  }

  /** `end` is where the segment that holds index `i` ends. */
  ghost predicate EndsSegment(segs: seq<Seg>, i: nat, end: nat) {
    exists j | 0 <= j < |segs| :: segs[j].first <= i < segs[j].Next() == end
  }

  class Log {
    const size: Entry -> nat
    const dataLimit: nat
    const metaLimit: nat
    var disk: Disk
    var closed: seq<Seg>
    var active: Option<Seg>
    var firstIndex: nat
    var lastIndex: nat
    var term: nat
    var voteFor: nat

    ghost predicate Valid()
      reads this
    {
      && active.Some?
      && Held(closed + [active.value], firstIndex)
      && lastIndex + 1 == active.value.Next()
    }

    ghost function View(): LogState
      requires Valid()
      reads this
    {
      LogState(firstIndex, Window(closed + [active.value], firstIndex), term, voteFor)
    }

    lemma Range()
      requires Valid()
      ensures WellFormed(View()) && lastIndex + 1 == View().Next()
    {
      WindowIsIndexed(closed + [active.value], firstIndex);
    }

    /** The disk alone determines the log: the process could end here. */
    ghost predicate Saved()
      reads this
    {
      && active.Some?
      && (disk.term, disk.vote, disk.first) == (term, voteFor, firstIndex)
      && OnDisk(disk.files, closed, active.value)
    }

    predicate Fits(before: seq<Entry>, es: seq<Entry>) {
      Room(size, dataLimit, metaLimit, before, es)
    }

    /** A log in an empty directory. */
    constructor (sizeOf: Entry -> nat, dataSizeLimit: nat, metaSizeLimit: nat)
      ensures Valid() && Saved() && View() == LogState(1, [], 0, 0)
      ensures size == sizeOf && dataLimit == dataSizeLimit && metaLimit == metaSizeLimit
    {
      size, dataLimit, metaLimit := sizeOf, dataSizeLimit, metaSizeLimit;
      disk := Disk(0, 0, 1, map[InProgress(1) := []]);
      closed, active := [], Some(Seg(1, []));
      firstIndex, lastIndex, term, voteFor := 1, 0, 0, 0;
      new;
      assert disk.files - {InProgress(1)} == map[];
      assert closed + [active.value] == [Seg(1, [])];
      FlatOne(Seg(1, []));
    }

    method CreateActive(f: nat)
      requires active.None?
      modifies this`active, this`disk
      ensures active == Some(Seg(f, [])) && disk == old(disk).(files := old(disk).files[InProgress(f) := []])
    {
      active := Some(Seg(f, []));
      disk := disk.(files := disk.files[InProgress(f) := []]);
    }

    /** The active segment is renamed to a closed one, and a new one is started. */
    method RollActiveSegment()
      requires Valid() && active.value.entries != []
      modifies this`disk, this`closed, this`active
      ensures Valid() && View() == old(View()) && active.value.entries == []
      ensures old(Saved()) ==> Saved()
    {
      var a := active.value;
      HeldRoll(closed, a, firstIndex);
      ghost var files := disk.files;
      disk := disk.(files := if InProgress(a.first) in disk.files
                             then Renamed(disk.files, InProgress(a.first), NameOf(a)) else disk.files);
      closed, active := closed + [a], None;
      CreateActive(lastIndex + 1);
      if old(Saved()) {
        SavedRoll(files, old(closed), a);
      }
    }

    method AppendEntries(es: seq<Entry>) returns (ok: bool)
      requires Valid()
      requires es != [] && es[0].index == lastIndex + 1 ==> Indexed(lastIndex + 1, es) && Fits([], es)
      modifies this
      ensures Valid()
      ensures (View(), ok) == AppendAll(old(View()), es)
      ensures old(Saved()) ==> Saved()
    {
      WindowIsIndexed(closed + [active.value], firstIndex);
      if es == [] {
        return true;
      }
      if es[0].index != lastIndex + 1 {
        return false;
      }
      AppendAllInOrder(View(), es);
      if !Fits(active.value.entries, es) {
        RollActiveSegment();
      }
      var a := active.value;
      HeldAppend(closed, a, firstIndex, es);
      ghost var files := disk.files;
      active := Some(a.Append(es));
      disk := disk.(files := disk.files[InProgress(a.first) := a.Append(es).entries]);
      lastIndex := lastIndex + |es|;
      if old(Saved()) {
        SavedAppend(files, closed, a, es);
      }
      ok := true;
    }

    /** The segment that holds `index` (segment `j` of the row), or None outside the log. */
    method GetSegment(index: nat) returns (r: Option<Seg>, ghost j: nat)
      requires Valid()
      ensures r.Some? <==> Has(View(), index)
      ensures r.Some? ==> j < |closed| + 1 && r.value == (closed + [active.value])[j]
                          && r.value.first <= index < r.value.Next()
    {
      ghost var segs := closed + [active.value];
      WindowIsIndexed(segs, firstIndex);
      j := |closed|;
      if lastIndex + 1 == firstIndex || index < firstIndex || index > lastIndex {
        return None, j;
      }
      if index >= active.value.first {
        return Some(active.value), j;
      }
      assert segs[|closed|] == active.value;
      var i: nat := |closed|;
      while i > 0
        invariant i <= |closed| && index < segs[i].first
      {
        i := i - 1;
        assert segs[i] == closed[i] && Joined(segs, i);
        if closed[i].first <= index {
          return Some(closed[i]), i;
        }
      }
      assert false;
    }

    method GetEntry(index: nat) returns (r: Option<Entry>)
      requires Valid()
      ensures r == if Has(View(), index) then Some(EntryAt(View(), index)) else None
    {
      var s, j := GetSegment(index);
      if s.None? {
        return None;
      }
      WindowAt(closed + [active.value], firstIndex, j, index);
      r := s.value.Get(index);
    }

    /** Like the entry, except that the index in front of the log has term 0. */
    method GetTerm(index: nat) returns (r: Option<nat>)
      requires Valid()
      ensures r == if Has(View(), index) then Some(EntryAt(View(), index).term)
                   else if index + 1 == firstIndex then Some(0) else None
    {
      if index + 1 == firstIndex {
        return Some(0);
      }
      var e := GetEntry(index);
      r := if e.Some? then Some(e.value.term) else None;
    }

    /** The batch the log would give, cut at the end `upTo` of the segment it starts in. */
    method GetEntries(start: nat, maxLen: nat, maxBatch: nat) returns (es: seq<Entry>, ghost upTo: nat)
      requires Valid() && start <= lastIndex + 1
      ensures start < firstIndex ==> es == []
      ensures start >= firstIndex ==>
                && start - firstIndex <= |View().entries|
                && start <= upTo && (start <= lastIndex ==> EndsSegment(closed + [active.value], start, upTo))
                && es == UpTo(Batch(size, View().entries, start - firstIndex, maxLen, maxBatch), upTo - start)
    {
      ghost var segs := closed + [active.value];
      WindowIsIndexed(segs, firstIndex);
      upTo := start;
      if start > lastIndex {
        return [], upTo;
      }
      var s, j := GetSegment(start);
      if s.None? {
        return [], upTo;
      }
      upTo := s.value.Next();
      es := BatchIn(s.value, j, start, maxLen, maxBatch);
    }

    /** The part of a batch that is in the segment of its first entry. */
    method BatchIn(s: Seg, ghost j: nat, start: nat, maxLen: nat, maxBatch: nat) returns (es: seq<Entry>)
      requires Valid() && j < |closed| + 1 && s == (closed + [active.value])[j]
      requires firstIndex <= start && s.first <= start < s.Next()
      ensures start - firstIndex < |View().entries|
      ensures es == UpTo(Batch(size, View().entries, start - firstIndex, maxLen, maxBatch), s.Next() - start)
    {
      var k := start - s.first;
      SegmentBatch(size, closed + [active.value], firstIndex, j, start, View().entries, s.entries,
                   start - firstIndex, k, s.Next() - start, maxLen, maxBatch);
      es := Batch(size, s.entries, k, maxLen, maxBatch);
    }

    /**
     * Segments that end before `firstKept` are forgotten; their files stay. If that is all of them, a new active
     * segment is started; unless it takes the file of the old one, there are now two segments in progress.
     */
    method TruncatePrefix(firstKept: nat)
      requires Valid()
      modifies this
      ensures Valid() && View() == LogSpec.TruncatePrefix(old(View()), firstKept)
      ensures old(Saved()) ==>
                if firstKept <= old(firstIndex) || firstKept <= old(lastIndex) || firstKept == old(active.value.first)
                then Saved()
                else !Saved() && TwoActive(disk.files)
      ensures old(Saved()) ==> disk.first == firstIndex
    {
      if firstIndex >= firstKept {
        return;
      }
      disk := disk.(first := firstKept);
      ForgetBelow(firstKept);
      firstIndex := firstKept;
      if closed == [] && active.value.Next() <= firstKept {
        ResetEmpty(old(Saved()));
      }
    }

    /** What is left after forgetting is the log from `kept` on, unless nothing is left of it. */
    method ForgetBelow(kept: nat)
      requires Valid() && firstIndex < kept
      modifies this`closed
      ensures OnDisk(disk.files, old(closed), active.value) ==> OnDisk(disk.files, closed, active.value)
      ensures (closed == [] && active.value.Next() <= kept) <==> lastIndex < kept
      ensures kept <= lastIndex ==>
                && Held(closed + [active.value], kept)
                && LogState(kept, Window(closed + [active.value], kept), term, voteFor)
                   == LogSpec.TruncatePrefix(old(View()), kept)
      ensures lastIndex < kept ==> LogSpec.TruncatePrefix(old(View()), kept) == LogState(kept, [], term, voteFor)
    {
      ghost var segs := closed + [active.value];
      WholeTail(closed, active.value, firstIndex);
      EraseClosed(kept, Flat(segs), segs[0].first);
      if closed == [] && active.value.Next() <= kept {
        PrefixGone(segs, firstIndex, kept, term, voteFor);
      } else {
        PrefixKept(segs, firstIndex, closed, active.value, kept, term, voteFor);
      }
    }

    /** Everything is gone: the log starts over at the first index. */
    method ResetEmpty(ghost saved: bool)
      requires closed == [] && active.Some? && 0 < firstIndex && active.value.Next() <= firstIndex
      requires saved ==> OnDisk(disk.files, closed, active.value)
      modifies this`active, this`disk, this`lastIndex
      ensures Valid() && View() == LogState(firstIndex, [], term, voteFor)
      ensures disk == old(disk).(files := disk.files)
      ensures saved ==> if old(active.value.first) == firstIndex then OnDisk(disk.files, closed, active.value)
                        else !OnDisk(disk.files, closed, active.value) && TwoActive(disk.files)
    {
      var a := active.value;
      lastIndex := firstIndex - 1;
      active := None;
      CreateActive(lastIndex + 1);
      EmptyHeld(firstIndex);
      if saved {
        if a.first == firstIndex {
          SavedReplace(old(disk.files), closed, a, Seg(firstIndex, []));
        } else {
          TwoAfterReset(disk.files, a.first, firstIndex);
        }
      }
    }

    method EraseClosed(kept: nat, ghost flat: seq<Entry>, ghost base: nat)
      requires active.Some? && kept > 0 && Tail(closed, active.value, kept, flat, base)
      modifies this`closed
      ensures Tail(closed, active.value, kept, flat, base)
      ensures closed != [] ==> kept < closed[0].Next()
      ensures OnDisk(disk.files, old(closed), active.value) ==> OnDisk(disk.files, closed, active.value)
    {
      while closed != [] && closed[0].Next() <= kept
        invariant Tail(closed, active.value, kept, flat, base)
        invariant OnDisk(disk.files, old(closed), active.value) ==> OnDisk(disk.files, closed, active.value)
        decreases |closed|
      {
        TailStep(closed, active.value, kept, flat, base);
        if OnDisk(disk.files, closed, active.value) {
          SavedForget(disk.files, closed, active.value);
        }
        closed := closed[1..];
      }
    }

    /**
     * Segments behind `lastKept` are dropped, the one that holds it is cut, and there is an active segment again.
     * The first index is adjusted in memory only, and only if all segments were dropped.
     */
    method TruncateSuffix(lastKept: nat)
      requires Valid()
      modifies this
      ensures lastKept + 1 >= old(firstIndex) || lastKept < old(Base()) ==>
                Valid() && View() == LogSpec.TruncateSuffix(old(View()), lastKept)
      ensures lastKept + 1 >= old(firstIndex) && old(Saved()) ==> Saved()
      ensures lastKept + 1 < old(firstIndex) ==> if lastKept < old(Base()) then old(Saved()) ==> !Saved() else !Valid()
      ensures disk.first == old(disk.first)
    {
      if lastIndex <= lastKept {
        Range();
        return;
      }
      if firstIndex <= lastKept {
        KeepSome(lastKept);
      } else {
        KeepNone(lastKept);
      }
    }

    method KeepSome(lastKept: nat)
      requires Valid() && firstIndex <= lastKept < lastIndex
      modifies this
      ensures firstIndex == old(firstIndex) && Valid() && View() == LogSpec.TruncateSuffix(old(View()), lastKept)
      ensures (old(Saved()) ==> Saved()) && disk.first == old(disk.first)
    {
      lastIndex := lastKept;
      CutInside(lastKept, OnDisk(disk.files, closed, active.value), LogSpec.TruncateSuffix(old(View()), lastKept));
    }

    method KeepNone(lastKept: nat)
      requires Valid() && lastKept < firstIndex && lastKept < lastIndex
      modifies this
      ensures lastKept + 1 == old(firstIndex) || lastKept < old(Base()) ==>
                Valid() && View() == LogSpec.TruncateSuffix(old(View()), lastKept)
      ensures lastKept + 1 == old(firstIndex) && old(Saved()) ==> Saved()
      ensures lastKept + 1 < old(firstIndex) ==> if lastKept < old(Base()) then old(Saved()) ==> !Saved() else !Valid()
      ensures disk.first == old(disk.first)
    {
      SuffixGone(closed + [active.value], firstIndex, lastKept, term, voteFor);
      lastIndex := lastKept;
      CutBelow(lastKept, OnDisk(disk.files, closed, active.value), old(Base()));
      EmptyHeld(lastKept + 1);
    }

    /** The log keeps entries. */
    method CutInside(lastKept: nat, ghost saved: bool, ghost want: LogState)
      requires active.Some? && Held(closed + [active.value], firstIndex)
      requires want == LogSpec.TruncateSuffix(
                 LogState(firstIndex, Window(closed + [active.value], firstIndex), term, voteFor), lastKept)
      requires firstIndex <= lastKept && lastKept + 1 < active.value.Next()
      requires saved ==> OnDisk(disk.files, closed, active.value)
      modifies this`firstIndex, this`closed, this`active, this`disk
      ensures active.Some? && active.value.Next() == lastKept + 1
      ensures disk == old(disk).(files := disk.files) && firstIndex == old(firstIndex)
      ensures Shows(closed + [active.value], firstIndex, term, voteFor, want)
      ensures saved ==> OnDisk(disk.files, closed, active.value)
    {
      if active.value.first > lastKept {
        CutBehind(lastKept, saved, (closed + [active.value])[0].first, want);
      } else {
        CutActive(lastKept, want);
      }
    }

    /** Nothing is left of the log. */
    method CutBelow(lastKept: nat, ghost saved: bool, ghost base: nat)
      requires active.Some? && Held(closed + [active.value], firstIndex) && base == (closed + [active.value])[0].first
      requires lastKept < firstIndex && lastKept + 1 < active.value.Next()
      requires saved ==> OnDisk(disk.files, closed, active.value)
      modifies this`firstIndex, this`closed, this`active, this`disk
      ensures active == Some(Seg(lastKept + 1, [])) && closed == [] && disk == old(disk).(files := disk.files)
      ensures firstIndex == if lastKept < base then lastKept + 1 else old(firstIndex)
      ensures saved && base <= lastKept + 1 ==> OnDisk(disk.files, closed, active.value)
    {
      if active.value.first > lastKept {
        CutBehind(lastKept, saved, base, LogSpec.TruncateSuffix(
          LogState(firstIndex, Window(closed + [active.value], firstIndex), term, voteFor), lastKept));
      } else {
        if closed != [] {
          RowOrdered(closed + [active.value], 0, |closed|);
        }
        ReplaceActive(lastKept, saved);
      }
    }

    method ReplaceActive(lastKept: nat, ghost saved: bool)
      requires active.Some? && closed == [] && active.value.first <= lastKept
      requires saved ==> OnDisk(disk.files, closed, active.value)
      modifies this`active, this`disk
      ensures active == Some(Seg(lastKept + 1, [])) && disk == old(disk).(files := disk.files)
      ensures saved ==> OnDisk(disk.files, closed, active.value)
    {
      ghost var base := active.value.first;
      disk := disk.(files := disk.files - {InProgress(active.value.first)});
      active := None;
      if saved {
        AddActive(disk.files, closed, lastKept + 1, base);
      }
      CreateActive(lastKept + 1);
    }

    /** The case that the active segment starts behind `lastKept`. */
    method CutBehind(lastKept: nat, ghost saved: bool, ghost base: nat, ghost want: LogState)
      requires active.Some? && Held(closed + [active.value], firstIndex) && base == (closed + [active.value])[0].first
      requires want == LogSpec.TruncateSuffix(
                 LogState(firstIndex, Window(closed + [active.value], firstIndex), term, voteFor), lastKept)
      requires lastKept < active.value.first && lastKept + 1 < active.value.Next()
      requires saved ==> OnDisk(disk.files, closed, active.value)
      modifies this`firstIndex, this`closed, this`active, this`disk
      ensures active == Some(Seg(lastKept + 1, [])) && disk == old(disk).(files := disk.files)
      ensures lastKept < base ==> closed == [] && firstIndex == lastKept + 1
      ensures lastKept >= base ==> firstIndex == old(firstIndex) && (lastKept < firstIndex ==> closed == [])
      ensures old(firstIndex) <= lastKept ==> Shows(closed + [active.value], firstIndex, term, voteFor, want)
      ensures saved && base <= lastKept + 1 ==> OnDisk(disk.files, closed, active.value)
    {
      DropAndCut(lastKept, saved, base, want);
      if saved && base <= lastKept + 1 {
        AddActive(disk.files, closed, lastKept + 1, base);
      }
      CreateActive(lastKept + 1);
    }

    /** The same, up to the new active segment. */
    method DropAndCut(lastKept: nat, ghost saved: bool, ghost base: nat, ghost want: LogState)
      requires active.Some? && Held(closed + [active.value], firstIndex) && base == (closed + [active.value])[0].first
      requires want == LogSpec.TruncateSuffix(
                 LogState(firstIndex, Window(closed + [active.value], firstIndex), term, voteFor), lastKept)
      requires lastKept < active.value.first && lastKept + 1 < active.value.Next()
      requires saved ==> OnDisk(disk.files, closed, active.value)
      modifies this`firstIndex, this`closed, this`active, this`disk
      ensures active.None? && disk == old(disk).(files := disk.files)
      ensures lastKept < base ==> closed == [] && firstIndex == lastKept + 1
      ensures lastKept >= base ==> firstIndex == old(firstIndex) && (lastKept < firstIndex ==> closed == [])
      ensures closed != [] ==> closed[0].first == base
      ensures old(firstIndex) <= lastKept ==> Shows(closed + [Seg(lastKept + 1, [])], firstIndex, term, voteFor, want)
      ensures saved ==> ClosedOnDisk(disk.files, closed, base)
    {
      ghost var segs := closed + [active.value];
      DropBehind(lastKept, saved);
      if closed == [] {
        firstIndex := lastKept + 1;
      } else {
        CutLastClosed(lastKept, saved, segs, want);
      }
    }

    method CutLastClosed(lastKept: nat, ghost saved: bool, ghost segs: seq<Seg>, ghost want: LogState)
      requires active.None? && closed != [] && closed < segs && Held(segs, firstIndex)
      requires want == LogSpec.TruncateSuffix(LogState(firstIndex, Window(segs, firstIndex), term, voteFor), lastKept)
      requires Last(closed).first <= lastKept < Last(closed).Next() && lastKept + 1 < Last(segs).Next()
      requires saved ==> ClosedOnDisk(disk.files, closed, segs[0].first)
      modifies this`closed, this`disk
      ensures disk == old(disk).(files := disk.files)
      ensures segs[0].first <= lastKept
      ensures closed != [] ==> closed[0].first == segs[0].first
      ensures if firstIndex <= lastKept then Shows(closed + [Seg(lastKept + 1, [])], firstIndex, term, voteFor, want)
              else closed == []
      ensures saved ==> ClosedOnDisk(disk.files, closed, segs[0].first)
    {
      ghost var was := closed;
      CutClosed(lastKept, saved, segs);
      LastClosedCut(segs, was, closed, firstIndex, lastKept, term, voteFor);
    }

    /** The last closed segment is cut, or dropped if the log ends before its first index. */
    method CutClosed(lastKept: nat, ghost saved: bool, ghost segs: seq<Seg>)
      requires active.None? && closed != [] && closed <= segs && Row(segs)
      requires Last(closed).first <= lastKept < Last(closed).Next()
      requires saved ==> ClosedOnDisk(disk.files, closed, segs[0].first)
      modifies this`closed, this`disk
      ensures closed == old(closed)[..|old(closed)| - 1]
                        + if firstIndex <= lastKept
                          then [Seg(Last(old(closed)).first,
                                    Last(old(closed)).entries[..lastKept + 1 - Last(old(closed)).first])]
                          else []
      ensures disk == old(disk).(files := disk.files)
      ensures saved ==> ClosedOnDisk(disk.files, closed, segs[0].first)
    {
      var n := |closed| - 1;
      var s, rest := closed[n], closed[..n];
      var cut := Seg(s.first, s.entries[..lastKept + 1 - s.first]);
      assert closed == rest + [s];
      if saved {
        forall i | 0 <= i < n ensures rest[i].first != s.first {
          assert segs[i] == rest[i] && segs[n] == s && Joined(segs, i);
          RowOrdered(segs, i, n);
        }
        DropLast(disk.files, rest, s, segs[0].first);
        if n > 0 {
          RowOrdered(segs, 0, n);
        }
        AddLast(disk.files - {NameOf(s)}, rest, cut, segs[0].first);
      }
      disk := disk.(files := disk.files - {NameOf(s)});
      closed := rest;
      if firstIndex <= lastKept {
        disk := disk.(files := disk.files[NameOf(cut) := cut.entries]);
        closed := rest + [cut];
      } else {
        assert closed == rest + [];
      }
    }

    ghost function Base(): nat
      requires Valid()
      reads this
    {
      (closed + [active.value])[0].first
    }

    method CutActive(lastKept: nat, ghost want: LogState)
      requires active.Some? && Held(closed + [active.value], firstIndex) && firstIndex <= lastKept
      requires active.value.first <= lastKept && lastKept + 1 < active.value.Next()
      requires want == LogSpec.TruncateSuffix(
                 LogState(firstIndex, Window(closed + [active.value], firstIndex), term, voteFor), lastKept)
      modifies this`active, this`disk
      ensures active == Some(old(active.value).Cut(lastKept)) && Held(closed + [active.value], firstIndex)
      ensures LogState(firstIndex, Window(closed + [active.value], firstIndex), term, voteFor) == want
      ensures disk == old(disk).(files := disk.files)
      ensures OnDisk(old(disk.files), closed, old(active.value)) ==> OnDisk(disk.files, closed, active.value)
    {
      var a := active.value;
      SuffixInLast(closed, a, firstIndex, lastKept, term, voteFor);
      if OnDisk(disk.files, closed, a) {
        SavedReplace(disk.files, closed, a, a.Cut(lastKept));
      }
      active := Some(a.Cut(lastKept));
      disk := disk.(files := disk.files[InProgress(a.first) := a.Cut(lastKept).entries]);
    }

    method DropBehind(lastKept: nat, ghost saved: bool)
      requires active.Some? && Row(closed + [active.value]) && lastKept < active.value.first
      requires saved ==> OnDisk(disk.files, closed, active.value)
      modifies this`closed, this`active, this`disk
      ensures active.None? && closed <= old(closed) && disk == old(disk).(files := disk.files)
      ensures closed != [] ==> Last(closed).first <= lastKept < Last(closed).Next()
      ensures closed == [] ==> lastKept < (old(closed) + [old(active.value)])[0].first
      ensures saved ==> ClosedOnDisk(disk.files, closed, (old(closed) + [old(active.value)])[0].first)
    {
      ghost var segs := closed + [active.value];
      disk := disk.(files := disk.files - {InProgress(active.value.first)});
      active := None;
      while closed != [] && closed[|closed| - 1].first > lastKept
        invariant active.None? && closed <= old(closed) && lastKept < segs[|closed|].first
        invariant disk == old(disk).(files := disk.files)
        invariant saved ==> ClosedOnDisk(disk.files, closed, segs[0].first)
        decreases |closed|
      {
        var n := |closed| - 1;
        ghost var rest := closed[..n];
        if saved {
          assert closed == rest + [closed[n]];
          forall i | 0 <= i < n ensures rest[i].first != closed[n].first {
            assert segs[i] == rest[i] && segs[n] == closed[n] && Joined(segs, i);
            RowOrdered(segs, i, n);
          }
          DropLast(disk.files, rest, closed[n], segs[0].first);
        }
        disk := disk.(files := disk.files - {NameOf(closed[n])});
        assert segs[n] == closed[n];
        closed := closed[..n];
      }
      if closed != [] {
        assert segs[|closed| - 1] == Last(closed) && Joined(segs, |closed| - 1);
      }
    }

    method SetCurrentTerm(t: nat)
      requires Valid()
      modifies this`term, this`disk
      ensures Valid() && View() == old(View()).(term := t)
      ensures old(Saved()) ==> Saved()
    {
      disk := disk.(term := t);
      term := t;
    }

    method SetVoteFor(v: nat)
      requires Valid()
      modifies this`voteFor, this`disk
      ensures Valid() && View() == old(View()).(vote := v)
      ensures old(Saved()) ==> Saved()
    {
      disk := disk.(vote := v);
      voteFor := v;
    }

    /** Finding the segment files. Fails if two closed segments start alike or two are in progress. */
    method ListSegments() returns (ok: bool, names: seq<Name>, inProgress: Option<Name>)
      ensures ok <==> Listable(disk.files)
      ensures ok ==> Sorted(names) && forall n :: n in names <==> n in disk.files && n.Closed?
      ensures ok && inProgress.Some? ==> inProgress.value in disk.files && inProgress.value.InProgress?
      ensures ok && inProgress.None? ==> forall n | n in disk.files :: n.Closed?
    {
      names, inProgress := [], None;
      var rest := disk.files.Keys;
      ghost var seen: set<Name> := {};
      while rest != {}
        invariant rest !! seen && rest + seen == disk.files.Keys
        invariant Sorted(names) && forall n :: n in names <==> n in seen && n.Closed?
        invariant inProgress.Some? ==> inProgress.value in seen && inProgress.value.InProgress?
        invariant inProgress.None? ==> forall n | n in seen :: n.Closed?
        invariant forall n, m | n in seen && m in seen && n != m :: !Clash(n, m)
        decreases rest
      {
        var n :| n in rest;
        if n.Closed? {
          if exists m | m in names :: m.first == n.first {
            return false, names, inProgress;
          }
          names := Insert(names, n);
        } else {
          if inProgress.Some? {
            return false, names, inProgress;
          }
          inProgress := Some(n);
        }
        rest, seen := rest - {n}, seen + {n};
      }
      ok := true;
    }

    /** Loading the closed segments in the order of their first indices. */
    method LoadClosed(names: seq<Name>) returns (r: Option<seq<Seg>>)
      requires Sorted(names)
      ensures r == LoadRow(disk.files, names, firstIndex, None)
    {
      var loaded: seq<Seg> := [];
      var prev: Option<nat> := None;
      var i: nat := 0;
      assert names[i..] == names;
      PrependNil(LoadRow(disk.files, names, firstIndex, None));
      while i < |names|
        invariant i <= |names|
        invariant LoadRow(disk.files, names, firstIndex, None)
                  == Prepend(loaded, LoadRow(disk.files, names[i..], firstIndex, prev))
      {
        var n := names[i];
        assert names[i..][0] == n && names[i..][1..] == names[i + 1..];
        if n.first > n.last || (prev.Some? && n.first != prev.value) || (prev.None? && firstIndex < n.first) {
          return None;
        }
        if prev.Some? || firstIndex <= n.last {
          if n !in disk.files || |disk.files[n]| != n.last + 1 - n.first {
            return None;
          }
          PrependStep(loaded, Seg(n.first, disk.files[n]),
                      LoadRow(disk.files, names[i + 1..], firstIndex, Some(n.last + 1)));
          loaded := loaded + [Seg(n.first, disk.files[n])];
          prev := Some(n.last + 1);
        }
        i := i + 1;
      }
      assert loaded + [] == loaded;
      r := Some(loaded);
    }

    /**
     * A new process opens the directory; nothing of the old one's memory is left. If the directory is what a log
     * with these segments leaves behind, it gets just these; with two segments in progress it fails.
     */
    method Reopen(ghost segs: seq<Seg>, ghost act: Seg) returns (ok: bool)
      requires disk.first > 0
      modifies this
      ensures TwoActive(old(disk.files)) ==> !ok && disk == old(disk)
      ensures ok ==> firstIndex == old(disk.first)
      ensures Restorable(old(disk), segs, act) ==>
                && ok && disk == old(disk)
                && closed == segs && active == Some(act) && lastIndex + 1 == act.Next()
                && term == disk.term && voteFor == disk.vote && firstIndex == disk.first
    {
      term, voteFor, firstIndex := disk.term, disk.vote, disk.first;
      closed, active, lastIndex := [], None, 0;
      if Restorable(disk, segs, act) {
        RestorableIsListable(disk, segs, act);
      }
      var names, inProgress, loaded;
      ok, names, inProgress := ListSegments();
      if !ok {
        return;
      }
      if Restorable(disk, segs, act) {
        LoadsSegments(disk, names, segs, act);
      }
      loaded := LoadClosed(names);
      if loaded.None? {
        return false;
      }
      closed := loaded.value;
      ok := OpenActive(inProgress, act);
    }

    /** The active segment is recovered; one that is empty or lies below the first index is started anew. */
    method OpenActive(inProgress: Option<Name>, ghost act: Seg) returns (ok: bool)
      requires active.None? && lastIndex == 0 && firstIndex > 0
      requires inProgress.Some? ==> inProgress.value in disk.files
      modifies this`active, this`lastIndex, this`disk
      ensures && Held(closed + [act], firstIndex)
              && inProgress == Some(InProgress(act.first))
              && old(disk).files[InProgress(act.first)] == act.entries
              ==> ok && active == Some(act) && lastIndex + 1 == act.Next() && disk == old(disk)
    {
      ghost var segs := closed + [act];
      if closed != [] {
        lastIndex := Max(Last(closed).Next(), 1) - 1;
      }
      if Held(segs, firstIndex) && closed != [] {
        assert segs[0] == closed[0] && segs[|closed| - 1] == Last(closed) && Joined(segs, |closed| - 1);
        RowOrdered(segs, 0, |closed|);
      }
      if inProgress.Some? {
        var s := Seg(inProgress.value.first, disk.files[inProgress.value]);
        if if closed == [] then firstIndex < s.first else s.first != Last(closed).Next() {
          return false;
        }
        if firstIndex < s.Next() {
          active := Some(s);
          lastIndex := s.Next() - 1;
        }
      }
      if lastIndex == 0 {
        lastIndex := firstIndex - 1;
      }
      if active.None? {
        ghost var files := disk.files;
        CreateActive(lastIndex + 1);
        assert InProgress(lastIndex + 1) in files && files[InProgress(lastIndex + 1)] == [] ==> disk.files == files;
      }
      ok := true;
    }

    /** Closing the log and opening it again changes nothing. */
    method CloseAndReopen() returns (ok: bool)
      requires Valid() && Saved()
      modifies this
      ensures ok && Valid() && Saved() && View() == old(View())
    {
      ok := Reopen(closed, active.value);
    }

    /**
     * Losing power during an append and opening the log again. `seg` is the active segment with its files; `durable`
     * bytes of the new data and `n` of the new meta records have reached them. What the next process finds in the
     * files is what the log is restored from: the old entries and the first `n` new ones.
     */
    method CrashInAppend(seg: Segment.Segment, es: seq<Entry>, durable: nat, n: nat) returns (ok: bool)
      requires Valid() && Saved() && Indexed(lastIndex + 1, es) && Fits([], es) && n <= |es|
      requires durable <= Total(Sizes(size, es), |es|) && (n > 0 ==> durable == Total(Sizes(size, es), |es|))
      requires Backs(seg, active.value)
      requires forall k {:trigger seg.codec.Signable(es[k])} | 0 <= k < |es| :: seg.codec.Signable(es[k])
      modifies this, seg.files.data, seg.files.meta
      ensures ok && Valid() && Saved()
      ensures View() == old(View()).(entries := old(View()).entries + es[..n])
    {
      if Fits(active.value.entries, es) {
        ok := CrashOnFile(seg, es, durable, n);
      } else {
        RollActiveSegment();
        var file := new Segment.Segment(seg.codec, lastIndex + 1, dataLimit, metaLimit);
        ok := CrashOnFile(file, es, durable, n);
      }
    }

    method CrashOnFile(seg: Segment.Segment, es: seq<Entry>, durable: nat, n: nat) returns (ok: bool)
      requires Valid() && Saved() && Backs(seg, active.value) && seg.Fits(es) && n <= |es|
      requires durable <= Total(Sizes(size, es), |es|) && (n > 0 ==> durable == Total(Sizes(size, es), |es|))
      modifies this, seg.files.data, seg.files.meta
      ensures ok && Valid() && Saved()
      ensures View() == old(View()).(entries := old(View()).entries + es[..n])
    {
      var a := active.value;
      var left := Segment.CrashAndReopen(seg, es, durable, n);
      var found := left.ReadAll();
      ok := RestartWith(a, es[..n], found);
    }

    /** The active file was found to hold `more` entries than the log knew of. */
    method RestartWith(a: Seg, more: seq<Entry>, found: seq<Entry>) returns (ok: bool)
      requires Valid() && Saved() && active == Some(a) && Indexed(a.Next(), more) && found == a.Append(more).entries
      modifies this
      ensures ok && Valid() && Saved()
      ensures View() == old(View()).(entries := old(View()).entries + more)
    {
      HeldAppend(closed, a, firstIndex, more);
      SavedAppend(disk.files, closed, a, more);
      disk := disk.(files := disk.files[InProgress(a.first) := found]);
      ok := Reopen(closed, a.Append(more));
    }

    /** The segment object and its files stand behind the value `a`. */
    ghost predicate Backs(seg: Segment.Segment, a: Seg)
      reads seg, seg.files, seg.files.data, seg.files.meta
    {
      && seg.Valid() && seg.isActive && seg.Abs() == a && seg.codec.size == size
      && seg.files.data.Length == dataLimit && seg.files.metaSizeLimit == metaLimit
    }
  }

  /** Two files that cannot both belong to a log. */
  predicate Clash(n: Name, m: Name) {
    (n.Closed? && m.Closed? && n.first == m.first) || (n.InProgress? && m.InProgress?)
  }

  predicate Listable(files: Files) {
    forall n, m | n in files && m in files && n != m :: !Clash(n, m)
  }

  /** The directory is what a log with these segments leaves behind. */
  predicate Restorable(disk: Disk, closed: seq<Seg>, active: Seg) {
    Held(closed + [active], disk.first) && OnDisk(disk.files, closed, active)
  }

  lemma RestorableIsListable(disk: Disk, closed: seq<Seg>, active: Seg)
    requires Restorable(disk, closed, active)
    ensures Listable(disk.files)
    ensures forall n | n in disk.files && n.InProgress? :: n == InProgress(active.first)
  {
    var rest, base := disk.files - {InProgress(active.first)}, (closed + [active])[0].first;
    forall n | n in rest ensures n.Closed? {
      assert Explained(n, rest[n], closed, base);
    }
    forall n, m | n in disk.files && m in disk.files && n != m ensures !Clash(n, m) {
      assert n == InProgress(active.first) || n in rest;
      assert m == InProgress(active.first) || m in rest;
    }
  }

  lemma LoadsSegments(disk: Disk, names: seq<Name>, closed: seq<Seg>, active: Seg)
    requires Restorable(disk, closed, active) && Sorted(names)
    requires forall n :: n in names <==> n in disk.files && n.Closed?
    ensures LoadRow(disk.files, names, disk.first, None) == Some(closed)
  {
    var rest, base := disk.files - {InProgress(active.first)}, (closed + [active])[0].first;
    forall i | 0 <= i < |closed| ensures Present(disk.files, closed[i]) {
      assert Present(rest, closed[i]);
    }
    forall n | n in names ensures n in disk.files && Explained(n, disk.files[n], closed, base) {
      assert Explained(n, rest[n], closed, base);
    }
    forall s | s in closed ensures NameOf(s) in names {
      var i :| 0 <= i < |closed| && closed[i] == s;
      assert Present(rest, closed[i]);
    }
    LoadsBehindRetained(disk.files, names, closed, active, disk.first);
  }

  function Prepend(a: seq<Seg>, rest: Option<seq<Seg>>): Option<seq<Seg>> {
    if rest.Some? then Some(a + rest.value) else None
  }

  lemma PrependNil(rest: Option<seq<Seg>>)
    ensures Prepend([], rest) == rest
  {
    if rest.Some? {
      assert [] + rest.value == rest.value;
    }
  }

  lemma PrependStep(a: seq<Seg>, s: Seg, rest: Option<seq<Seg>>)
    ensures Prepend(a, Consed(s, rest)) == Prepend(a + [s], rest)
  {
    if rest.Some? {
      assert a + ([s] + rest.value) == a + [s] + rest.value;
    }
  }

  /** The segments are what is left of a row with entries `flat` from `base` on, and reach down to `kept`. */
  ghost predicate Tail(closed: seq<Seg>, a: Seg, kept: nat, flat: seq<Entry>, base: nat) {
    var segs := closed + [a];
    && Row(segs)
    && base <= segs[0].first <= kept
    && segs[0].first - base <= |flat|
    && Flat(segs) == flat[segs[0].first - base..]
  }

  lemma TailStep(closed: seq<Seg>, a: Seg, kept: nat, flat: seq<Entry>, base: nat)
    requires Tail(closed, a, kept, flat, base) && closed != [] && closed[0].Next() <= kept
    ensures Tail(closed[1..], a, kept, flat, base)
  {
    var segs := closed + [a];
    assert segs[1..] == closed[1..] + [a];
    RowTail(segs);
    assert Flat(segs) == segs[0].entries + Flat(segs[1..]);
    DropTwice(flat, segs[0].first - base, segs[1].first - base);
  }

  lemma SavedForget(files: Files, closed: seq<Seg>, a: Seg)
    requires OnDisk(files, closed, a) && Row(closed + [a]) && closed != []
    ensures OnDisk(files, closed[1..], a)
  {
    var segs := closed + [a];
    assert segs[1..] == closed[1..] + [a] && closed == [closed[0]] + closed[1..];
    RowTail(segs);
    RaiseBase(files - {InProgress(a.first)}, closed[1..], segs[0].first, segs[1].first, [closed[0]]);
  }

  lemma WholeTail(closed: seq<Seg>, a: Seg, first: nat)
    requires Held(closed + [a], first)
    ensures forall kept: nat | first <= kept :: Tail(closed, a, kept, Flat(closed + [a]), (closed + [a])[0].first)
  {
    assert Flat(closed + [a])[0..] == Flat(closed + [a]);
  }

  lemma PrefixGone(segs: seq<Seg>, first: nat, kept: nat, term: nat, vote: nat)
    requires Held(segs, first) && first < kept && Last(segs).Next() <= kept
    ensures LogSpec.TruncatePrefix(LogState(first, Window(segs, first), term, vote), kept)
            == LogState(kept, [], term, vote)
  {
    WindowIsIndexed(segs, first);
  }

  lemma PrefixKept(segs: seq<Seg>, first: nat, closed: seq<Seg>, a: Seg, kept: nat, term: nat, vote: nat)
    requires Held(segs, first) && first < kept && Tail(closed, a, kept, Flat(segs), segs[0].first)
    requires if closed == [] then kept < a.Next() else kept < closed[0].Next()
    requires a.Next() == Last(segs).Next()
    ensures Held(closed + [a], kept) && kept < a.Next()
    ensures LogState(kept, Window(closed + [a], kept), term, vote)
            == LogSpec.TruncatePrefix(LogState(first, Window(segs, first), term, vote), kept)
  {
    if closed != [] {
      RowOrdered(closed + [a], 0, |closed|);
    }
    WindowIsIndexed(segs, first);
    RowIsIndexed(segs);
    TailWindow(closed, a, first, kept, Flat(segs), segs[0].first);
  }

  /** What a tail holds from `kept` on is what the log held from there. */
  lemma TailWindow(closed: seq<Seg>, a: Seg, first: nat, kept: nat, flat: seq<Entry>, base: nat)
    requires Tail(closed, a, kept, flat, base) && 0 < kept < a.Next() && base <= first <= kept && first - base <= |flat|
    requires closed != [] ==> kept < closed[0].Next()
    ensures Held(closed + [a], kept)
    ensures kept - first <= |flat[first - base..]|
    ensures Window(closed + [a], kept) == flat[first - base..][kept - first..]
  {
    var segs := closed + [a];
    RowIsIndexed(segs);
    DropTwice(flat, segs[0].first - base, kept - base);
    DropTwice(flat, first - base, kept - base);
  }

  lemma SavedRoll(files: Files, closed: seq<Seg>, a: Seg)
    requires OnDisk(files, closed, a) && Row(closed + [a]) && a.entries != []
    ensures OnDisk(Renamed(files, InProgress(a.first), NameOf(a))[InProgress(a.Next()) := []],
                   closed + [a], Seg(a.Next(), []))
  {
    var rest := files - {InProgress(a.first)};
    var segs := closed + [a];
    forall i | 0 <= i < |closed| ensures closed[i].first != a.first {
      assert segs[i] == closed[i] && segs[|closed|] == a && Joined(segs, i);
      RowOrdered(segs, i, |closed|);
    }
    assert segs[0].first <= a.first by {
      if closed != [] {
        RowOrdered(segs, 0, |closed|);
      }
    }
    AddLast(rest, closed, a, segs[0].first);
    AddActive(rest[NameOf(a) := a.entries], segs, a.Next(), segs[0].first);
  }

  /** No process starts from a directory with two segments in progress. */
  predicate TwoActive(files: Files) {
    exists n, m | n in files && m in files :: n.InProgress? && m.InProgress? && n != m
  }

  lemma DropTwice<T>(s: seq<T>, a: nat, b: nat)
    requires a <= |s| && a <= b
    ensures b <= |s| ==> s[a..][b - a..] == s[b..]
  {
  }

  lemma EmptyHeld(first: nat)
    requires first > 0
    ensures Held([] + [Seg(first, [])], first) && Window([] + [Seg(first, [])], first) == []
  {
    assert [] + [Seg(first, [])] == [Seg(first, [])];
    FlatOne(Seg(first, []));
  }

  lemma TwoAfterReset(files: Files, f: nat, g: nat)
    requires InProgress(f) in files && InProgress(g) in files && f != g
    ensures TwoActive(files) && !OnDisk(files, [], Seg(g, []))
  {
    var rest := files - {InProgress(g)};
    assert InProgress(f) in rest && !Explained(InProgress(f), rest[InProgress(f)], [], g);
    assert ([] + [Seg(g, [])])[0].first == g;
  }

  lemma SavedReplace(files: Files, closed: seq<Seg>, a: Seg, b: Seg)
    requires OnDisk(files, closed, a) && a.first == b.first
    ensures OnDisk(files[InProgress(a.first) := b.entries], closed, b)
  {
    var n := InProgress(a.first);
    assert files[n := b.entries] - {n} == files - {n};
  }

  /** A row that holds the same entries up to `kept` holds the truncated log. */
  lemma WindowCut(segs: seq<Seg>, cut: seq<Seg>, first: nat, kept: nat, term: nat, vote: nat)
    requires Held(segs, first) && Held(cut, first) && first <= kept && kept + 1 < Last(segs).Next()
    requires cut[0].first == segs[0].first && kept + 1 - segs[0].first <= |Flat(segs)|
    requires Flat(cut) == Flat(segs)[..kept + 1 - segs[0].first]
    ensures LogState(first, Window(cut, first), term, vote)
            == LogSpec.TruncateSuffix(LogState(first, Window(segs, first), term, vote), kept)
  {
    WindowIsIndexed(segs, first);
    WindowIsIndexed(cut, first);
    TakeDrop(Flat(segs), first - segs[0].first, kept + 1 - segs[0].first, kept + 1 - first);
  }

  lemma TakeDrop<T>(s: seq<T>, d: nat, n: nat, m: nat)
    requires d <= n <= |s| && m == n - d
    ensures s[..n][d..] == s[d..][..m]
  {
  }

  lemma SuffixInLast(closed: seq<Seg>, a: Seg, first: nat, kept: nat, term: nat, vote: nat)
    requires Held(closed + [a], first) && first <= kept && a.first <= kept && kept + 1 < a.Next()
    ensures Held(closed + [a.Cut(kept)], first)
    ensures LogState(first, Window(closed + [a.Cut(kept)], first), term, vote)
            == LogSpec.TruncateSuffix(LogState(first, Window(closed + [a], first), term, vote), kept)
  {
    var segs, cut := closed + [a], a.Cut(kept);
    assert segs[..|closed|] == closed && segs[|closed|] == a;
    RowCut(segs, |closed|, kept + 1 - a.first);
    WindowCut(segs, closed + [cut], first, kept, term, vote);
  }

  lemma SuffixInClosed(segs: seq<Seg>, first: nat, j: nat, kept: nat, term: nat, vote: nat)
    requires Held(segs, first) && 0 < j < |segs| && first <= kept && kept + 1 < Last(segs).Next()
    requires segs[j - 1].first <= kept < segs[j - 1].Next()
    ensures var s := segs[j - 1];
            var row := segs[..j - 1] + [Seg(s.first, s.entries[..kept + 1 - s.first])] + [Seg(kept + 1, [])];
            && Held(row, first)
            && LogState(first, Window(row, first), term, vote)
               == LogSpec.TruncateSuffix(LogState(first, Window(segs, first), term, vote), kept)
  {
    var s := segs[j - 1];
    var cut := segs[..j - 1] + [Seg(s.first, s.entries[..kept + 1 - s.first])];
    RowCut(segs, j - 1, kept + 1 - s.first);
    RowExtend(cut, Seg(kept + 1, []));
    FlatAppend(cut, [Seg(kept + 1, [])]);
    FlatOne(Seg(kept + 1, []));
    WindowCut(segs, cut + [Seg(kept + 1, [])], first, kept, term, vote);
  }

  /** Cutting the last closed segment cuts the log, unless the cut lies below its first index: then nothing is left. */
  lemma LastClosedCut(segs: seq<Seg>, was: seq<Seg>, closed: seq<Seg>, first: nat, kept: nat, term: nat, vote: nat)
    requires was != [] && was < segs && Held(segs, first)
    requires Last(was).first <= kept < Last(was).Next() && kept + 1 < Last(segs).Next()
    requires closed == was[..|was| - 1]
                       + if first <= kept then [Seg(Last(was).first, Last(was).entries[..kept + 1 - Last(was).first])]
                         else []
    ensures segs[0].first <= kept && (closed != [] ==> closed[0].first == segs[0].first)
    ensures if first <= kept then
              Shows(closed + [Seg(kept + 1, [])], first, term, vote,
                    LogSpec.TruncateSuffix(LogState(first, Window(segs, first), term, vote), kept))
            else closed == []
  {
    var j := |was|;
    assert segs[0] == was[0] && segs[j - 1] == Last(was) && segs[..j - 1] == was[..j - 1];
    if j > 1 {
      RowOrdered(segs, 0, j - 1);
    }
    if first <= kept {
      SuffixInClosed(segs, first, j, kept, term, vote);
    }
  }

  lemma SuffixGone(segs: seq<Seg>, first: nat, kept: nat, term: nat, vote: nat)
    requires Held(segs, first) && kept < first && kept + 1 < Last(segs).Next()
    ensures LogSpec.TruncateSuffix(LogState(first, Window(segs, first), term, vote), kept)
            == LogState(kept + 1, [], term, vote)
  {
    WindowIsIndexed(segs, first);
  }

  lemma SavedAppend(files: Files, closed: seq<Seg>, a: Seg, es: seq<Entry>)
    requires OnDisk(files, closed, a)
    ensures OnDisk(files[InProgress(a.first) := a.entries + es], closed, a.(entries := a.entries + es))
  {
    var n := InProgress(a.first);
    assert files[n := a.entries + es] - {n} == files - {n};
  }
}
