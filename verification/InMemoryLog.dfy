/** The plain log: a list of entries and two counters. It serves as the reference for the file log. */
module InMemoryLog {
  import opened RaftTypes
  import opened LogSpec

  class Log {
    var log: seq<Entry>
    var firstIndex: nat
    var lastIndex: nat
    var term: nat
    var voteFor: nat

    ghost predicate Valid()
      reads this
    {
      lastIndex + 1 == firstIndex + |log| && WellFormed(View())
    }

    ghost function View(): LogState
      reads this
    {
      LogState(firstIndex, log, term, voteFor)
    }

    constructor ()
      ensures Valid() && View() == LogState(1, [], 0, 0)
    {
      log, firstIndex, lastIndex, term, voteFor := [], 1, 0, 0, 0;
    }

    method AppendEntry(entry: Entry) returns (ok: bool)
      requires Valid()
      modifies this
      ensures Valid()
      ensures ok == (entry.index == old(View()).Next())
      ensures View() == if ok then old(View()).(entries := old(log) + [entry]) else old(View())
    {
      if lastIndex + 1 != entry.index {
        return false;
      }
      lastIndex := lastIndex + 1;
      log := log + [entry];
      ok := true;
    }

    method AppendEntries(es: seq<Entry>) returns (ok: bool)
      requires Valid()
      modifies this
      ensures Valid() && (View(), ok) == AppendAll(old(View()), es)
    {
      var i := 0;
      while i < |es|
        invariant 0 <= i <= |es| && Valid()
        invariant AppendAll(View(), es[i..]) == AppendAll(old(View()), es)
      {
        assert es[i..][0] == es[i] && es[i..][1..] == es[i + 1..];
        var one := AppendEntry(es[i]);
        if !one {
          return false;
        }
        i := i + 1;
      }
      ok := true;
    }

    method GetEntry(index: nat) returns (r: Option<Entry>)
      requires Valid()
      ensures index > 0 ==> r == if Has(View(), index) then Some(EntryAt(View(), index)) else None
      ensures index == 0 ==> r == Some(Entry(0, 0, false, ""))
    {
      if index == 0 {
        return Some(Entry(0, 0, false, ""));
      }
      if index < firstIndex || index > lastIndex {
        return None;
      }
      r := Some(log[index - firstIndex]);
    }

    method GetTerm(index: nat) returns (r: Option<nat>)
      requires Valid()
      ensures index > 0 ==> r == if Has(View(), index) then Some(EntryAt(View(), index).term) else None
      ensures index == 0 ==> r == Some(0)
    {
      if index == 0 {
        return Some(0);
      }
      if index < firstIndex || index > lastIndex {
        return None;
      }
      r := Some(log[index - firstIndex].term);
    }

    method GetEntries(size: Entry -> nat, start: nat, maxLen: nat, maxBatch: nat) returns (es: seq<Entry>)
      requires Valid() && firstIndex <= start <= lastIndex + 1
      ensures es == Batch(size, View().entries, start - firstIndex, maxLen, maxBatch)
      ensures IsGreedy(size, View().entries, start - firstIndex, maxLen, maxBatch, es)
    {
      BatchIsGreedy(size, log, start - firstIndex, maxLen, maxBatch);
      if start > lastIndex {
        return [];
      }
      es := ReadBatch(size, start, maxLen, maxBatch);
    }

    method ReadBatch(size: Entry -> nat, start: nat, maxLen: nat, maxBatch: nat) returns (es: seq<Entry>)
      requires Valid() && firstIndex <= start <= lastIndex
      ensures es == Batch(size, View().entries, start - firstIndex, maxLen, maxBatch)
    {
      var limit := Min(maxBatch, lastIndex + 1 - start);
      var batch: nat := 0;
      var len: nat := 0;
      es := [];
      ghost var k, sizes := start - firstIndex, Sizes(size, log);
      ghost var pos, room, left := k, maxLen, maxBatch;
      while batch < limit
        invariant batch <= limit && len <= maxLen
        invariant pos == k + batch && room == maxLen - len && left == maxBatch - batch
        invariant es == log[k..pos]
        invariant BatchEnd(sizes, k, maxLen, maxBatch) == BatchEnd(sizes, pos, room, left)
      {
        var entry := log[start + batch - firstIndex];
        BatchStep(sizes, pos, room, left);
        SliceStep(log, k, pos);
        if len + size(entry) > maxLen {
          break;
        }
        es := es + [entry];
        len := len + size(entry);
        batch := batch + 1;
        pos, room, left := pos + 1, room - sizes[pos], left - 1;
      }
      BatchDone(sizes, pos, room, left);
    }

    method TruncatePrefix(firstKept: nat)
      requires Valid()
      modifies this
      ensures Valid() && View() == LogSpec.TruncatePrefix(old(View()), firstKept)
    {
      if firstIndex >= firstKept {
        return;
      }
      var prev := firstIndex;
      firstIndex := firstKept;
      if firstIndex > lastIndex {
        lastIndex := firstIndex - 1;
        log := [];
      } else {
        log := log[firstIndex - prev..];
      }
    }

    method TruncateSuffix(lastKept: nat)
      requires Valid()
      modifies this
      ensures Valid() && View() == LogSpec.TruncateSuffix(old(View()), lastKept)
    {
      if lastIndex <= lastKept {
        return;
      }
      lastIndex := lastKept;
      if lastIndex < firstIndex {
        firstIndex := lastIndex + 1;
        log := [];
      } else {
        log := log[..lastIndex - firstIndex + 1];
      }
    }

    method SetCurrentTerm(t: nat)
      requires Valid()
      modifies this`term
      ensures Valid() && View() == old(View()).(term := t)
    {
      term := t;
    }

    method SetVoteFor(v: nat)
      requires Valid()
      modifies this`voteFor
      ensures Valid() && View() == old(View()).(vote := v)
    {
      voteFor := v;
    }
  }
}
