/**
 * Losing power during an append when the disk has written the new meta records in any order. The data is synced first,
 * but among the records of one append any may be missing.
 */
module SegmentTear {
  import opened SegmentFiles

  /** The meta file when, of the records `added` at position `at`, those at the places `kept` have reached it. */
  ghost function Torn(metas: seq<Meta>, at: nat, added: seq<Meta>, kept: set<nat>): (r: seq<Meta>)
    requires at + |added| <= |metas|
    ensures |r| == |metas|
    ensures forall i {:trigger r[i]} | 0 <= i < |metas| ::
              r[i] == if at <= i < at + |added| && i - at in kept then added[i - at] else metas[i]
  {
    seq(|metas|, i requires 0 <= i < |metas| =>
      if at <= i < at + |added| && i - at in kept then added[i - at] else metas[i])
  }

  /** The end of the unbroken stretch of kept places from `k` on. */
  function Streak(kept: set<nat>, k: nat, n: nat): (end: nat)
    requires k <= n
    ensures k <= end <= n
    ensures forall i {:trigger i in kept} | k <= i < end :: i in kept
    ensures end < n ==> end !in kept
    decreases n - k
  {
    if k < n && k in kept then Streak(kept, k + 1, n) else k
  }

  predicate Places(kept: set<nat>, n: nat) {
    forall k | k in kept :: k < n
  }

  method WriteSome(f: Files, metas: seq<Meta>, kept: set<nat>)
    requires f.metaOffset / META_LEN + |metas| <= f.meta.Length
    modifies f.meta
    ensures f.meta[..] == Torn(old(f.meta[..]), f.metaOffset / META_LEN, metas, kept)
  {
    var at := f.metaOffset / META_LEN;
    var k := 0;
    while k < |metas|
      invariant 0 <= k <= |metas|
      invariant forall i {:trigger f.meta[i]} | 0 <= i < f.meta.Length ::
                  f.meta[i] == if at <= i < at + k && i - at in kept then metas[i - at] else old(f.meta[i])
    {
      if k in kept {
        f.meta[at + k] := metas[k];
      }
      k := k + 1;
    }
  }

  /** The records that survived in an unbroken stretch are found with their items, and no others. */
  lemma TornIsFound(data: seq<byte>, metas0: seq<Meta>, metas1: seq<Meta>, first: nat,
                    was: seq<Item>, xs: seq<Item>, metas: seq<Meta>, kept: set<nat>, n: nat)
    requires first > 0 && |was| + |xs| <= |metas0| && Places(kept, |xs|) && n == Streak(kept, 0, |xs|)
    requires Numbered(first, was) && Numbered(first + |was|, xs) && Unused(metas0[|was|..])
    requires AllLaid(data, metas0[..|was|] + metas, was + xs)
    requires metas1 == Torn(metas0, |was|, metas, kept)
    ensures Found(data, metas1, first, was + xs[..n])
  {
    assert metas1[..|was| + n] == metas0[..|was|] + metas[..n];
    StoredAfterAppend(data, metas0, metas1, first, was, xs, metas, n);
    FoundIff(data, metas1, first, was + xs[..n]);
    if |was| + n < |metas0| {
      assert metas1[|was| + n] == metas0[|was| + n] == metas0[|was|..][n];
    }
  }

  /** A record that survived carries its index; all others are blank. */
  predicate Remains(m: Meta, first: nat, at: nat, kept: set<nat>, i: nat) {
    at <= i ==> m.index == if i - at in kept then first + i else 0
  }

  ghost predicate AllRemain(metas: seq<Meta>, first: nat, at: nat, kept: set<nat>) {
    forall i: nat {:trigger Remains(metas[i], first, at, kept, i)} | i < |metas| ::
      Remains(metas[i], first, at, kept, i)
  }

  lemma TornRemains(data: seq<byte>, metas0: seq<Meta>, metas1: seq<Meta>, first: nat, was: seq<Item>, xs: seq<Item>,
                    metas: seq<Meta>, kept: set<nat>)
    requires |was| + |xs| <= |metas0| && Places(kept, |xs|)
    requires Numbered(first + |was|, xs) && Unused(metas0[|was|..])
    requires AllLaid(data, metas0[..|was|] + metas, was + xs) && metas1 == Torn(metas0, |was|, metas, kept)
    ensures AllRemain(metas1, first, |was|, kept)
  {
    forall i: nat | i < |metas1| ensures Remains(metas1[i], first, |was|, kept, i) {
      if |was| <= i {
        TornRecord(data, metas0, metas1, first, was, xs, metas, kept, i);
      }
    }
  }

  lemma TornRecord(data: seq<byte>, metas0: seq<Meta>, metas1: seq<Meta>, first: nat, was: seq<Item>, xs: seq<Item>,
                   metas: seq<Meta>, kept: set<nat>, i: nat)
    requires |was| + |xs| <= |metas0| && Places(kept, |xs|) && |was| <= i < |metas0|
    requires Numbered(first + |was|, xs) && Unused(metas0[|was|..])
    requires AllLaid(data, metas0[..|was|] + metas, was + xs) && metas1 == Torn(metas0, |was|, metas, kept)
    ensures metas1[i].index == if i - |was| in kept then first + i else 0
  {
    if i - |was| in kept {
      assert Laid(data, (metas0[..|was|] + metas)[i], was + xs, i);
      assert (metas0[..|was|] + metas)[i] == metas[i - |was|] && (was + xs)[i] == xs[i - |was|];
    } else {
      assert metas0[i] == metas0[|was|..][i - |was|];
    }
  }

  lemma BlankRemains(metas: seq<Meta>, first: nat, at: nat)
    requires at <= |metas| && Unused(metas[at..])
    ensures AllRemain(metas, first, at, {})
  {
    forall i: nat | i < |metas| ensures Remains(metas[i], first, at, {}, i) {
      if at <= i {
        assert metas[i] == metas[at..][i - at];
      }
    }
  }

  /**
   * An append that is cut short at any moment. `durable` bytes of the data and the meta records at the places `kept`
   * are on disk. Whatever these are, a scan finds the old items and the first unbroken stretch of new ones.
   */
  method AppendTorn(f: Files, xs: seq<Item>, durable: nat, kept: set<nat>)
    requires f.Valid() && f.Fits(xs) && Places(kept, |xs|)
    requires durable <= Offset(xs, |xs|) && (kept != {} ==> durable == Offset(xs, |xs|))
    modifies f.data, f.meta
    ensures Found(f.data[..], f.meta[..], f.first, f.items + xs[..Streak(kept, 0, |xs|)])
    ensures AllRemain(f.meta[..], f.first, |f.items|, kept)
  {
    if durable < Offset(xs, |xs|) {
      WriteSomeData(f, xs, durable);
      assert f.items + xs[..0] == f.items;
    } else {
      WriteSomeMetas(f, xs, kept);
    }
  }

  method WriteSomeData(f: Files, xs: seq<Item>, durable: nat)
    requires f.Valid() && f.Fits(xs) && durable <= Offset(xs, |xs|)
    modifies f.data
    ensures Found(f.data[..], f.meta[..], f.first, f.items) && AllRemain(f.meta[..], f.first, |f.items|, {})
  {
    ghost var bytes := f.data[..];
    f.WriteBytes(f.dataOffset, Bytes(xs, |xs|)[..durable]);
    FilesIgnoreTail(bytes, f.data[..], f.meta[..], f.first, f.items);
    HeldIsFound(f.data[..], f.meta[..], f.first, f.items);
    BlankRemains(f.meta[..], f.first, |f.items|);
  }

  method WriteSomeMetas(f: Files, xs: seq<Item>, kept: set<nat>)
    requires f.Valid() && f.Fits(xs) && Places(kept, |xs|)
    modifies f.data, f.meta
    ensures Found(f.data[..], f.meta[..], f.first, f.items + xs[..Streak(kept, 0, |xs|)])
    ensures AllRemain(f.meta[..], f.first, |f.items|, kept)
  {
    ghost var metas0, was := f.meta[..], f.items;
    var metas, end := f.WriteData(xs);
    assert f.meta[..|was|] == metas0[..|was|];
    WriteSome(f, metas, kept);
    TornIsFound(f.data[..], metas0, f.meta[..], f.first, was, xs, metas, kept, Streak(kept, 0, |xs|));
    TornRemains(f.data[..], metas0, f.meta[..], f.first, was, xs, metas, kept);
  }

  /** The meta file is clean after such an append if and only if the records that survived were the first ones. */
  lemma CleanIff(data: seq<byte>, metas: seq<Meta>, first: nat, was: seq<Item>, xs: seq<Item>, kept: set<nat>, n: nat)
    requires Places(kept, |xs|) && n == Streak(kept, 0, |xs|) && |was| + |xs| <= |metas|
    requires Found(data, metas, first, was + xs[..n]) && AllRemain(metas, first, |was|, kept) && first > 0
    ensures FilesHold(data, metas, first, was + xs[..n]) <==> Places(kept, n)
  {
    UnusedIff(metas, first, |was|, kept, n);
  }

  lemma UnusedIff(metas: seq<Meta>, first: nat, at: nat, kept: set<nat>, n: nat)
    requires at + n <= |metas| && AllRemain(metas, first, at, kept) && Places(kept, |metas| - at) && first > 0
    ensures Unused(metas[at + n..]) <==> Places(kept, n)
  {
    var behind := metas[at + n..];
    if Places(kept, n) {
      forall i | 0 <= i < |behind| ensures behind[i].index == 0 {
        assert Remains(metas[at + n + i], first, at, kept, at + n + i);
      }
    } else {
      var k :| k in kept && k >= n;
      assert Remains(metas[at + k], first, at, kept, at + k);
      assert behind[k - n] == metas[at + k];
    }
  }

  /** There is room for `ys` behind `items`. */
  ghost predicate FitsBehind(f: Files, items: seq<Item>, ys: seq<Item>) {
    && (|items| + |ys|) * META_LEN <= f.metaSizeLimit
    && Offset(items, |items|) + Offset(ys, |ys|) <= f.data.Length
    && Numbered(f.first + |items|, ys)
  }

  /**
   * Power is lost in an append, the next process opens the files and appends in turn. What it opens is right for
   * every set of surviving records. What the process after that would find is right if and only if no record of the
   * lost append survived in the place behind the new ones.
   */
  method TearAndGoOn(f: Files, xs: seq<Item>, durable: nat, kept: set<nat>, ys: seq<Item>) returns (g: Files)
    requires f.Valid() && f.Fits(xs) && Places(kept, |xs|)
    requires durable <= Offset(xs, |xs|) && (kept != {} ==> durable == Offset(xs, |xs|))
    requires FitsBehind(f, f.items + xs[..Streak(kept, 0, |xs|)], ys)
    modifies f.data, f.meta
    ensures fresh(g) && g.Written() && g.first == f.first && g.data == f.data && g.meta == f.meta
    ensures g.items == f.items + xs[..Streak(kept, 0, |xs|)] + ys
    ensures Found(g.data[..], g.meta[..], g.first, g.items) <==> Streak(kept, 0, |xs|) + |ys| !in kept
  {
    ghost var found := f.items + xs[..Streak(kept, 0, |xs|)];
    AppendTorn(f, xs, durable, kept);
    g := new Files.Recover(f.first, f.data, f.meta, f.metaSizeLimit, found);
    ghost var metas := g.meta[..];
    g.Append(ys);
    NextRecord(metas, f.first, |f.items|, kept, |xs|, Streak(kept, 0, |xs|) + |ys|);
  }

  lemma NextRecord(metas: seq<Meta>, first: nat, at: nat, kept: set<nat>, n: nat, k: nat)
    requires AllRemain(metas, first, at, kept) && first > 0 && Places(kept, n) && at + n <= |metas|
    ensures k !in kept <==> (at + k < |metas| ==> metas[at + k].index != first + (at + k))
  {
    if at + k < |metas| {
      assert Remains(metas[at + k], first, at, kept, at + k);
    }
  }

  /** Two records are lost but for the second; after one more entry, a scan takes the second for the next entry. */
  method LostRecordReturns() returns (g: Files)
    ensures fresh(g) && g.Written() && |g.items| == 1 && Scan(g.meta[..], g.first, 0) == 2
  {
    var f := new Files(1, 2, 2 * META_LEN);
    var xs := [Item(1, 1, [7], NoDigest()), Item(2, 1, [8], NoDigest())];
    var ys := [Item(1, 2, [9], NoDigest())];
    assert Offset(xs, 2) == 2 && Offset(ys, 1) == 1;
    assert Streak({1}, 0, 2) == 0 && f.items + xs[..0] == [];
    g := TearAndGoOn(f, xs, 2, {1}, ys);
    FoundIff(g.data[..], g.meta[..], g.first, g.items);
  }
}
