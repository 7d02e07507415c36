/**
 * The two files of a segment: a data file with the serialized entries back to back, and a meta file with one
 * fixed-size record per entry. Both files are mapped into memory and stand here as arrays.
 */
module SegmentFiles {
  newtype byte = b: int | 0 <= b < 256

  const META_LEN := 64
  const DIGEST_LEN := 32

  datatype Meta = Meta(offset: nat, length: nat, term: nat, index: nat, digest: seq<byte>)

  /** What one entry contributes to the files. */
  datatype Item = Item(index: nat, term: nat, bytes: seq<byte>, digest: seq<byte>)

  function NoDigest(): seq<byte> {
    seq(DIGEST_LEN, _ => 0)
  }

  function Blank(): Meta {
    Meta(0, 0, 0, 0, NoDigest())
  }

  function Blanks(n: nat): (bs: seq<Meta>)
    ensures |bs| == n && forall k | 0 <= k < n :: bs[k] == Blank()
  {
    seq(n, _ => Blank())
  }

  /** Where item `k` starts in the data file. */
  function Offset(items: seq<Item>, k: nat): nat
    requires k <= |items|
  {
    if k == 0 then 0 else Offset(items, k - 1) + |items[k - 1].bytes|
  }

  /** The bytes of the first `k` items, back to back. */
  function Bytes(items: seq<Item>, k: nat): (bs: seq<byte>)
    requires k <= |items|
    ensures |bs| == Offset(items, k)
  {
    if k == 0 then [] else Bytes(items, k - 1) + items[k - 1].bytes
  }

  function MetaOf(offset: nat, x: Item): Meta {
    Meta(offset, |x.bytes|, x.term, x.index, x.digest)
  }

  /** Item `k` is where it belongs in the data file, and `m` describes it. */
  predicate Laid(data: seq<byte>, m: Meta, items: seq<Item>, k: nat)
    requires k < |items|
  {
    var from := Offset(items, k);
    && m == MetaOf(from, items[k])
    && from + |items[k].bytes| <= |data|
    && data[from..from + |items[k].bytes|] == items[k].bytes
  }

  ghost predicate AllLaid(data: seq<byte>, metas: seq<Meta>, items: seq<Item>) {
    && |metas| == |items|
    && (forall k: nat {:trigger Laid(data, metas[k], items, k)} | k < |items| :: Laid(data, metas[k], items, k))
  }

  predicate Unused(metas: seq<Meta>) {
    forall k | 0 <= k < |metas| :: metas[k].index == 0
  }

  predicate Numbered(first: nat, items: seq<Item>) {
    forall k | 0 <= k < |items| :: items[k].index == first + k
  }

  /** The two files start with `items`. */
  ghost predicate Stored(data: seq<byte>, metas: seq<Meta>, first: nat, items: seq<Item>) {
    && |items| <= |metas|
    && Numbered(first, items)
    && AllLaid(data, metas[..|items|], items)
  }

  /** The two files hold exactly `items`; the unused meta records have index 0. */
  ghost predicate FilesHold(data: seq<byte>, metas: seq<Meta>, first: nat, items: seq<Item>) {
    Stored(data, metas, first, items) && Unused(metas[|items|..])
  }

  /** Where a scan that starts at `pos` ends: the indices count up from the first one until there. */
  function Scan(metas: seq<Meta>, first: nat, pos: nat): (end: nat)
    requires pos <= |metas|
    ensures pos <= end <= |metas|
    ensures forall k {:trigger metas[k]} | pos <= k < end :: metas[k].index == first + k
    ensures end < |metas| ==> metas[end].index != first + end
    decreases |metas| - pos
  {
    if pos < |metas| && metas[pos].index == first + pos then Scan(metas, first, pos + 1) else pos
  }

  /** A scan finds exactly `items`, whatever lies behind the record at which it stops. */
  ghost predicate Found(data: seq<byte>, metas: seq<Meta>, first: nat, items: seq<Item>) {
    Stored(data, metas, first, items) && Scan(metas, first, 0) == |items|
  }

  lemma StoredIndices(data: seq<byte>, metas: seq<Meta>, first: nat, items: seq<Item>, k: nat)
    requires Stored(data, metas, first, items) && k < |items|
    ensures metas[k].index == first + k
  {
    assert Laid(data, metas[..|items|][k], items, k);
  }

  /** What is stored is found if and only if the record behind it does not carry the next index. */
  lemma FoundIff(data: seq<byte>, metas: seq<Meta>, first: nat, items: seq<Item>)
    requires Stored(data, metas, first, items)
    ensures Found(data, metas, first, items) <==>
            (|items| < |metas| ==> metas[|items|].index != first + |items|)
    ensures |items| <= Scan(metas, first, 0)
  {
    var end := Scan(metas, first, 0);
    if end < |items| {
      StoredIndices(data, metas, first, items, end);
    }
  }

  lemma HeldIsFound(data: seq<byte>, metas: seq<Meta>, first: nat, items: seq<Item>)
    requires FilesHold(data, metas, first, items) && first > 0
    ensures Found(data, metas, first, items)
  {
    if |items| < |metas| {
      assert metas[|items|..][0].index == 0;
    }
    FoundIff(data, metas, first, items);
  }

  method ScanMetas(meta: array<Meta>, first: nat, maxPos: nat) returns (pos: nat, lastIndex: nat)
    requires first > 0 && meta.Length == maxPos
    ensures pos == Scan(meta[..], first, 0) && lastIndex + 1 == first + pos
  {
    pos, lastIndex := 0, first - 1;
    while pos < maxPos && meta[pos].index == lastIndex + 1
      invariant pos <= maxPos && lastIndex + 1 == first + pos
      invariant Scan(meta[..], first, 0) == Scan(meta[..], first, pos)
    {
      pos := pos + 1;
      lastIndex := lastIndex + 1;
    }
  }

  /** `s` with `part` written over it at position `at`. */
  ghost function Patched<T>(s: seq<T>, at: nat, part: seq<T>): seq<T>
    requires at + |part| <= |s|
  {
    s[..at] + part + s[at + |part|..]
  }

  class Files {
    const first: nat
    const data: array<byte>
    const meta: array<Meta>
    const metaSizeLimit: nat
    var dataOffset: nat
    var metaOffset: nat
    var lastIndex: nat
    ghost var items: seq<Item>

    /** What the process knows is what it has written; what lies behind in the meta file is left open. */
    ghost predicate Written()
      reads this, data, meta
    {
      && first > 0
      && meta.Length == metaSizeLimit / META_LEN
      && Stored(data[..], meta[..], first, items)
      && lastIndex + 1 == first + |items|
      && metaOffset == |items| * META_LEN
      && dataOffset == Offset(items, |items|) <= data.Length
    }

    /** And the rest of the meta file is blank. */
    ghost predicate Valid()
      reads this, data, meta
    {
      Written() && FilesHold(data[..], meta[..], first, items)
    }

    /** A new segment gets two zero-filled files. */
    constructor (firstIndex: nat, maxDataSize: nat, maxMetaSize: nat)
      requires firstIndex > 0
      ensures Valid() && fresh(data) && fresh(meta) && items == []
      ensures first == firstIndex && data.Length == maxDataSize && metaSizeLimit == maxMetaSize
    {
      first := firstIndex;
      metaSizeLimit := maxMetaSize;
      data := new byte[maxDataSize](_ => 0);
      meta := new Meta[maxMetaSize / META_LEN](_ => Blank());
      dataOffset, metaOffset, lastIndex := 0, 0, firstIndex - 1;
      items := [];
    }

    /**
     * Opening existing files: the meta records are scanned as long as their indices count up from the first
     * index. Nothing but the files and the first index is used; what lies behind the scan is not touched.
     */
    constructor Recover(firstIndex: nat, d: array<byte>, m: array<Meta>, maxMetaSize: nat, ghost held: seq<Item>)
      requires firstIndex > 0 && m.Length == maxMetaSize / META_LEN
      requires Found(d[..], m[..], firstIndex, held)
      ensures Written() && items == held && (FilesHold(d[..], m[..], firstIndex, held) ==> Valid())
      ensures first == firstIndex && data == d && meta == m && metaSizeLimit == maxMetaSize
    {
      first, data, meta := firstIndex, d, m;
      metaSizeLimit := maxMetaSize;
      items := held;
      var pos, last := ScanMetas(m, firstIndex, maxMetaSize / META_LEN);
      lastIndex := last;
      metaOffset := pos * META_LEN;
      dataOffset := if pos == 0 then 0 else m[pos - 1].offset + m[pos - 1].length;
      if pos > 0 {
        assert Laid(d[..], m[..][..pos][pos - 1], held, pos - 1);
      }
    }

    /** Serializing into the mapped data file. */
    method WriteBytes(from: nat, bytes: seq<byte>)
      requires from + |bytes| <= data.Length
      modifies data
      ensures data[..] == Patched(old(data[..]), from, bytes)
    {
      var i := 0;
      while i < |bytes|
        invariant 0 <= i <= |bytes|
        invariant data[..] == Patched(old(data[..]), from, bytes[..i])
      {
        PatchStep(old(data[..]), from, bytes, i);
        data[from + i] := bytes[i];
        i := i + 1;
      }
      assert bytes[..i] == bytes;
    }

    method WriteItem(end: nat, x: Item, ghost metas: seq<Meta>, ghost before: seq<Item>)
      requires end == Offset(before, |before|) && end + |x.bytes| <= data.Length
      requires AllLaid(data[..], metas, before)
      modifies data
      ensures AllLaid(data[..], metas + [MetaOf(end, x)], before + [x])
      ensures Offset(before + [x], |before| + 1) == end + |x.bytes|
    {
      ghost var bytes := data[..];
      WriteBytes(end, x.bytes);
      LaidOneMore(bytes, data[..], metas, before, x);
    }

    /** What the caller must have made sure of, by rolling in time and by choosing the indices. */
    ghost predicate Fits(xs: seq<Item>)
      reads this
    {
      && (|items| + |xs|) * META_LEN <= metaSizeLimit
      && Offset(items, |items|) + Offset(xs, |xs|) <= data.Length
      && Numbered(first + |items|, xs)
    }

    /** First half of an append: the items go to the data file; no meta record refers to them yet. */
    method WriteData(xs: seq<Item>) returns (metas: seq<Meta>, end: nat)
      requires Written() && Fits(xs)
      modifies data
      ensures end == Offset(items + xs, |items + xs|) <= data.Length
      ensures AllLaid(data[..], meta[..|items|] + metas, items + xs)
    {
      ghost var mine := meta[..|items|];
      metas, end := [], dataOffset;
      var i := 0;
      assert mine + metas == mine && items + xs[..i] == items && meta[..][..|items|] == mine;
      while i < |xs|
        invariant 0 <= i <= |xs|
        invariant end == Offset(items + xs[..i], |items| + i) <= data.Length
        invariant AllLaid(data[..], mine + metas, items + xs[..i])
        invariant mine == meta[..|items|]
      {
        FitsUpTo(items, xs, i);
        WriteItem(end, xs[i], mine + metas, items + xs[..i]);
        assert items + xs[..i] + [xs[i]] == items + xs[..i + 1];
        assert mine + metas + [MetaOf(end, xs[i])] == mine + (metas + [MetaOf(end, xs[i])]);
        metas := metas + [MetaOf(end, xs[i])];
        end := end + |xs[i].bytes|;
        i := i + 1;
      }
      assert xs[..i] == xs;
    }

    /** Second half of an append: the first `n` of the new meta records reach the meta file. */
    method WriteMetas(metas: seq<Meta>, n: nat)
      requires metaOffset / META_LEN + n <= meta.Length && n <= |metas|
      modifies meta
      ensures meta[..] == Patched(old(meta[..]), metaOffset / META_LEN, metas[..n])
    {
      var at := metaOffset / META_LEN;
      var i := 0;
      while i < n
        invariant 0 <= i <= n
        invariant meta[..] == Patched(old(meta[..]), at, metas[..n][..i])
      {
        PatchStep(old(meta[..]), at, metas[..n], i);
        meta[at + i] := metas[i];
        i := i + 1;
      }
      assert metas[..n][..i] == metas[..n];
    }

    /**
     * An append that is cut short: `durable` bytes of the new data and `n` of the new meta records are on disk. The
     * data is synced before the first meta record is written, so no record is there unless all the data is. The
     * files then hold exactly the old items and the first `n` new ones.
     */
    method AppendCutShort(xs: seq<Item>, durable: nat, n: nat)
      requires Valid() && Fits(xs) && n <= |xs|
      requires durable <= Offset(xs, |xs|) && (n > 0 ==> durable == Offset(xs, |xs|))
      modifies data, meta
      ensures FilesHold(data[..], meta[..], first, items + xs[..n])
    {
      ghost var bytes, metas0 := data[..], meta[..];
      if durable < Offset(xs, |xs|) {
        WriteBytes(dataOffset, Bytes(xs, |xs|)[..durable]);
        FilesIgnoreTail(bytes, data[..], meta[..], first, items);
        assert items + xs[..n] == items;
      } else {
        var metas, end := WriteData(xs);
        WriteMetas(metas, n);
        FilesAfterAppend(data[..], metas0, meta[..], first, items, xs, metas, n);
      }
    }

    method WriteBoth(xs: seq<Item>) returns (end: nat)
      requires Written() && Fits(xs)
      modifies data, meta
      ensures end == Offset(items + xs, |items + xs|) <= data.Length
      ensures Stored(data[..], meta[..], first, items + xs)
      ensures meta[..][|items + xs|..] == old(meta[..])[|items + xs|..]
    {
      ghost var metas0 := meta[..];
      var metas, ending := WriteData(xs);
      end := ending;
      WriteMetas(metas, |xs|);
      assert metas[..|xs|] == metas && xs[..|xs|] == xs;
      StoredAfterAppend(data[..], metas0, meta[..], first, items, xs, metas, |xs|);
    }

    /**
     * The new items are behind the old ones. A scan finds just these if and only if the record behind them, which an
     * append does not touch, does not carry the next index; in particular, if all was blank there.
     */
    method Append(xs: seq<Item>)
      requires Written() && Fits(xs)
      modifies this, data, meta
      ensures Written() && items == old(items) + xs && (old(Valid()) ==> Valid())
      ensures Found(data[..], meta[..], first, items) <==>
              (|items| < meta.Length ==> old(meta[..])[|items|].index != first + |items|)
    {
      var end := WriteBoth(xs);
      FoundIff(data[..], meta[..], first, items + xs);
      UnusedTail(old(meta[..]), meta[..], |items|, |items + xs|);
      dataOffset := end;
      metaOffset := metaOffset + |xs| * META_LEN;
      lastIndex := lastIndex + |xs|;
      items := items + xs;
    }

    /** What is read back at position `k` is what was stored there. */
    method Read(k: nat) returns (m: Meta, bytes: seq<byte>)
      requires Valid() && k < |items|
      ensures bytes == items[k].bytes && m == MetaOf(Offset(items, k), items[k])
    {
      assert Laid(data[..], meta[..][..|items|][k], items, k);
      m := meta[k];
      bytes := data[m.offset..m.offset + m.length];
      assert bytes == data[..][m.offset..m.offset + m.length];
    }

    method BlankOut(from: nat, to: nat)
      requires from <= to <= meta.Length
      modifies meta
      ensures meta[..] == Patched(old(meta[..]), from, Blanks(to - from))
    {
      ghost var was, blanks := meta[..], Blanks(to - from);
      var k := 0;
      while k < to - from
        invariant 0 <= k <= |blanks| == to - from
        invariant meta[..] == Patched(was, from, blanks[..k])
      {
        PatchStep(was, from, blanks, k);
        assert blanks[k] == Blank();
        meta[from + k] := Blank();
        k := k + 1;
      }
      assert blanks[..k] == blanks;
    }

    /** Cutting the segment back: the records behind `lastKept` are zeroed so that a scan stops there. */
    method TruncateSuffix(lastKept: nat)
      requires Valid() && first <= lastKept
      modifies this, meta
      ensures Valid()
      ensures items == if lastKept >= old(lastIndex) then old(items) else old(items)[..lastKept + 1 - first]
    {
      if lastKept >= lastIndex {
        return;
      }
      var kept := lastKept + 1 - first;
      var prev := lastIndex + 1 - first;
      ghost var metas := meta[..];
      assert Laid(data[..], meta[..][..|items|][kept - 1], items, kept - 1);
      var end := meta[kept - 1].offset + meta[kept - 1].length;
      BlankOut(kept, prev);
      FilesAfterTruncation(data[..], metas, meta[..], first, items, kept);
      OffsetOfPrefix(items[..kept], items, kept);
      OffsetMonotone(items, kept, |items|);
      lastIndex := lastKept;
      metaOffset := kept * META_LEN;
      dataOffset := end;
      items := items[..kept];
    }
  }

  /** Losing power during an append and reopening: what is read back is a prefix of what was being written. */
  method CrashAndRecover(f: Files, xs: seq<Item>, durable: nat, n: nat) returns (g: Files)
    requires f.Valid() && f.Fits(xs) && n <= |xs|
    requires durable <= Offset(xs, |xs|) && (n > 0 ==> durable == Offset(xs, |xs|))
    modifies f.data, f.meta
    ensures fresh(g) && g.Valid() && g.first == f.first && g.data == f.data && g.meta == f.meta
    ensures g.items == old(f.items) + xs[..n]
  {
    f.AppendCutShort(xs, durable, n);
    HeldIsFound(f.data[..], f.meta[..], f.first, f.items + xs[..n]);
    g := new Files.Recover(f.first, f.data, f.meta, f.metaSizeLimit, f.items + xs[..n]);
  }

  // ---------------------------------------------------------------- facts

  lemma {:induction false} OffsetMonotone(items: seq<Item>, i: nat, j: nat)
    requires i <= j <= |items|
    ensures Offset(items, i) <= Offset(items, j)
    decreases j
  {
    if i < j {
      OffsetMonotone(items, i, j - 1);
    }
  }

  lemma {:induction false} OffsetOfPrefix(items: seq<Item>, more: seq<Item>, k: nat)
    requires k <= |items| && items <= more
    ensures Offset(items, k) == Offset(more, k)
    decreases k
  {
    if k > 0 {
      OffsetOfPrefix(items, more, k - 1);
    }
  }

  lemma {:induction false} OffsetAppend(a: seq<Item>, b: seq<Item>, k: nat)
    requires k <= |b|
    ensures Offset(a + b, |a| + k) == Offset(a, |a|) + Offset(b, k)
    decreases k
  {
    if k == 0 {
      OffsetOfPrefix(a, a + b, |a|);
    } else {
      OffsetAppend(a, b, k - 1);
    }
  }

  lemma FitsUpTo(before: seq<Item>, xs: seq<Item>, i: nat)
    requires i < |xs|
    ensures Offset(before + xs[..i], |before| + i) + |xs[i].bytes| <= Offset(before, |before|) + Offset(xs, |xs|)
  {
    OffsetAppend(before, xs[..i], i);
    OffsetOfPrefix(xs[..i], xs, i);
    OffsetMonotone(xs, i + 1, |xs|);
  }

  lemma PatchStep<T>(s: seq<T>, at: nat, part: seq<T>, i: nat)
    requires at + |part| <= |s| && i < |part|
    ensures Patched(s, at, part[..i])[at + i := part[i]] == Patched(s, at, part[..i + 1])
  {
  }

  /** Writing one more item behind the others leaves the others in place. */
  lemma LaidOneMore(before: seq<byte>, after: seq<byte>, metas: seq<Meta>, items: seq<Item>, x: Item)
    requires AllLaid(before, metas, items)
    requires var end := Offset(items, |items|);
             && end + |x.bytes| <= |before|
             && after == Patched(before, end, x.bytes)
    ensures AllLaid(after, metas + [MetaOf(Offset(items, |items|), x)], items + [x])
    ensures Offset(items + [x], |items| + 1) == Offset(items, |items|) + |x.bytes|
  {
    var all, ms := items + [x], metas + [MetaOf(Offset(items, |items|), x)];
    OffsetOfPrefix(items, all, |items|);
    forall k: nat | k < |all| ensures Laid(after, ms[k], all, k) {
      if k < |items| {
        assert Laid(before, metas[k], items, k);
        LaidStays(before, after, ms[k], items, all, k);
      } else {
        assert Laid(after, ms[k], all, k);
      }
    }
  }

  lemma LaidStays(before: seq<byte>, after: seq<byte>, m: Meta, items: seq<Item>, more: seq<Item>, k: nat)
    requires k < |items| && items <= more && Offset(items, |items|) <= |before| && |before| == |after|
    requires Laid(before, m, items, k)
    requires after[..Offset(items, |items|)] == before[..Offset(items, |items|)]
    ensures Laid(after, m, more, k)
  {
    OffsetMonotone(items, k + 1, |items|);
    OffsetOfPrefix(items, more, k);
    SameSlice(before, after, Offset(items, k), Offset(items, k + 1), Offset(items, |items|));
  }

  lemma SameSlice<T>(s: seq<T>, t: seq<T>, from: nat, to: nat, n: nat)
    requires from <= to <= n <= |s| && n <= |t| && s[..n] == t[..n]
    ensures s[from..to] == t[from..to]
  {
    forall k | 0 <= k < to - from ensures s[from..to][k] == t[from..to][k] {
      assert s[..n][from + k] == t[..n][from + k];
    }
  }

  /** The files describe a prefix of the items just as well, if only that prefix has meta records. */
  lemma LaidPrefix(data: seq<byte>, metas: seq<Meta>, items: seq<Item>, n: nat)
    requires AllLaid(data, metas, items) && n <= |items|
    ensures AllLaid(data, metas[..n], items[..n])
  {
    forall k: nat | k < n ensures Laid(data, metas[..n][k], items[..n], k) {
      assert Laid(data, metas[k], items, k);
      OffsetOfPrefix(items[..n], items, k);
    }
  }

  /** Bytes behind the last item that has a meta record do not matter. */
  lemma FilesIgnoreTail(before: seq<byte>, after: seq<byte>, metas: seq<Meta>, first: nat, items: seq<Item>)
    requires FilesHold(before, metas, first, items) && Offset(items, |items|) <= |before| && |after| == |before|
    requires after[..Offset(items, |items|)] == before[..Offset(items, |items|)]
    ensures FilesHold(after, metas, first, items)
  {
    var ms := metas[..|items|];
    forall k: nat | k < |items| ensures Laid(after, ms[k], items, k) {
      assert Laid(before, ms[k], items, k);
      LaidStays(before, after, ms[k], items, items, k);
    }
  }

  lemma FilesAfterTruncation(data: seq<byte>, metas0: seq<Meta>, metas1: seq<Meta>, first: nat,
                             items: seq<Item>, n: nat)
    requires FilesHold(data, metas0, first, items) && n <= |items|
    requires metas1 == Patched(metas0, n, Blanks(|items| - n))
    ensures FilesHold(data, metas1, first, items[..n])
  {
    LaidPrefix(data, metas0[..|items|], items, n);
    assert metas0[..|items|][..n] == metas1[..n];
    assert metas1[n..] == Blanks(|items| - n) + metas0[|items|..];
  }

  lemma UnusedTail(metas0: seq<Meta>, metas1: seq<Meta>, n: nat, m: nat)
    requires n <= m <= |metas0| == |metas1| && metas1[m..] == metas0[m..]
    ensures Unused(metas0[n..]) ==> Unused(metas1[m..])
    ensures m < |metas1| ==> metas1[m] == metas0[m]
  {
    if m < |metas1| {
      assert metas1[m..][0] == metas0[m..][0];
    }
    forall k | 0 <= k < |metas1[m..]| ensures metas1[m..][k] == metas0[n..][m - n + k] {
    }
  }

  lemma StoredAfterAppend(data: seq<byte>, metas0: seq<Meta>, metas1: seq<Meta>, first: nat,
                          was: seq<Item>, xs: seq<Item>, metas: seq<Meta>, n: nat)
    requires |was| + |xs| <= |metas0| && n <= |xs|
    requires Numbered(first, was) && Numbered(first + |was|, xs)
    requires AllLaid(data, metas0[..|was|] + metas, was + xs)
    requires |metas1| == |metas0| && metas1[..|was| + n] == metas0[..|was|] + metas[..n]
    ensures Stored(data, metas1, first, was + xs[..n])
  {
    LaidPrefix(data, metas0[..|was|] + metas, was + xs, |was| + n);
    assert (was + xs)[..|was| + n] == was + xs[..n];
    assert (metas0[..|was|] + metas)[..|was| + n] == metas1[..|was| + n];
  }

  lemma FilesAfterAppend(data: seq<byte>, metas0: seq<Meta>, metas1: seq<Meta>, first: nat,
                         was: seq<Item>, xs: seq<Item>, metas: seq<Meta>, n: nat)
    requires |was| + |xs| <= |metas0| && n <= |xs|
    requires Numbered(first, was) && Numbered(first + |was|, xs) && Unused(metas0[|was|..])
    requires AllLaid(data, metas0[..|was|] + metas, was + xs)
    requires metas1 == Patched(metas0, |was|, metas[..n])
    ensures FilesHold(data, metas1, first, was + xs[..n])
  {
    StoredAfterAppend(data, metas0, metas1, first, was, xs, metas, n);
    assert metas1[|was| + n..] == metas0[|was|..][n..];
  }
}
