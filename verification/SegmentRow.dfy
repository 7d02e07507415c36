/** Rows of segments: what they hold together, and how appending and cutting act on them. */
module SegmentRow {
  import opened RaftTypes
  import opened LogSpec
  import SegmentFiles

  /** A segment as a value: its first index and what it holds. */
  datatype Seg = Seg(first: nat, entries: seq<Entry>) {
    function Next(): nat {
      first + |entries|
    }

    function Append(es: seq<Entry>): Seg {
      Seg(first, entries + es)
    }

    function Cut(lastKept: nat): Seg
      requires first <= lastKept + 1
    {
      if Next() <= lastKept + 1 then this else Seg(first, entries[..lastKept + 1 - first])
    }

    function Get(index: nat): Option<Entry> {
      if first <= index < Next() then Some(entries[index - first]) else None
    }
  }

  /** The entries fit into one segment of this size, behind the entries `before`. */
  predicate Room(size: Entry -> nat, dataLimit: nat, metaLimit: nat, before: seq<Entry>, es: seq<Entry>) {
    && (|before| + |es|) * SegmentFiles.META_LEN <= metaLimit
    && Total(Sizes(size, before + es), |before + es|) <= dataLimit
  }

  predicate Sound(s: Seg) {
    Indexed(s.first, s.entries)
  }

  /** Segment `i` is not empty, and the next one continues it. */
  predicate Joined(segs: seq<Seg>, i: nat)
    requires i + 1 < |segs|
  {
    segs[i].entries != [] && segs[i].Next() == segs[i + 1].first
  }

  /** Each segment continues the one before it; only the last one may be empty. */
  predicate Row(segs: seq<Seg>) {
    && segs != []
    && (forall i: nat {:trigger Sound(segs[i])} | i < |segs| :: Sound(segs[i]))
    && (forall i: nat {:trigger Joined(segs, i)} | i + 1 < |segs| :: Joined(segs, i))
  }

  function Flat(segs: seq<Seg>): seq<Entry> {
    if segs == [] then [] else segs[0].entries + Flat(segs[1..])
  }

  lemma RowTail(segs: seq<Seg>)
    requires Row(segs) && |segs| > 1
    ensures Row(segs[1..]) && segs[1..][0].first == segs[0].Next()
  {
    RowSlice(segs, 1, |segs|);
    assert segs[1..|segs|] == segs[1..];
    assert Joined(segs, 0);
  }

  /** A row holds one entry per index, from its first to its last. */
  lemma {:induction false} RowIsIndexed(segs: seq<Seg>)
    requires Row(segs)
    ensures segs[0].first + |Flat(segs)| == segs[|segs| - 1].Next()
    ensures Indexed(segs[0].first, Flat(segs))
    decreases |segs|
  {
    assert Sound(segs[0]);
    if |segs| == 1 {
      assert Flat(segs[1..]) == [];
    } else {
      RowTail(segs);
      RowIsIndexed(segs[1..]);
    }
  }

  lemma {:induction false} FlatAppend(a: seq<Seg>, b: seq<Seg>)
    ensures Flat(a + b) == Flat(a) + Flat(b)
    decreases |a|
  {
    if a == [] {
      assert a + b == b;
    } else {
      FlatAppend(a[1..], b);
      assert (a + b)[1..] == a[1..] + b;
    }
  }

  lemma RowSlice(segs: seq<Seg>, from: nat, to: nat)
    requires Row(segs) && from < to <= |segs|
    ensures Row(segs[from..to])
  {
    var t := segs[from..to];
    forall i: nat | i < |t| ensures Sound(t[i]) {
      assert Sound(segs[from + i]);
    }
    forall i: nat | i + 1 < |t| ensures Joined(t, i) {
      assert Joined(segs, from + i);
    }
  }

  /** Entries of the row in front of segment `j`, in it, and behind it. */
  lemma SplitAt(segs: seq<Seg>, j: nat)
    requires Row(segs) && j < |segs|
    ensures Flat(segs) == Flat(segs[..j]) + segs[j].entries + Flat(segs[j + 1..])
    ensures segs[0].first + |Flat(segs[..j])| == segs[j].first
    ensures segs[0].first <= segs[j].first && segs[j].Next() <= segs[|segs| - 1].Next()
  {
    assert segs == segs[..j] + segs[j..];
    FlatAppend(segs[..j], segs[j..]);
    assert segs[j..][1..] == segs[j + 1..];
    if j > 0 {
      RowSlice(segs, 0, j);
      RowIsIndexed(segs[..j]);
      assert Joined(segs, j - 1);
    }
    RowIsIndexed(segs);
  }

  lemma {:induction false} RowOrdered(segs: seq<Seg>, i: nat, j: nat)
    requires Row(segs) && i < j < |segs|
    ensures segs[i].Next() <= segs[j].first
    decreases j
  {
    assert Joined(segs, j - 1);
    if i < j - 1 {
      RowOrdered(segs, i, j - 1);
    }
  }

  // ---------------------------------------------------------------- the log held by a row

  /** The row is just long enough in front: its first segment holds index `first`, unless the log is empty. */
  predicate Held(segs: seq<Seg>, first: nat) {
    && Row(segs)
    && first > 0
    && segs[0].first <= first
    && (first < segs[0].Next() || segs == [Seg(first, [])])
  }

  function Window(segs: seq<Seg>, first: nat): seq<Entry>
    requires Held(segs, first)
  {
    RowIsIndexed(segs);
    SplitAt(segs, 0);
    Flat(segs)[first - segs[0].first..]
  }

  lemma WindowIsIndexed(segs: seq<Seg>, first: nat)
    requires Held(segs, first)
    ensures Indexed(first, Window(segs, first))
    ensures first + |Window(segs, first)| == segs[|segs| - 1].Next()
  {
    RowIsIndexed(segs);
    SplitAt(segs, 0);
  }

  function Last(segs: seq<Seg>): Seg
    requires segs != []
  {
    segs[|segs| - 1]
  }

  /** A row may end anywhere, with a sound segment in place of the one that starts there. */
  lemma RowEnding(segs: seq<Seg>, j: nat, x: Seg)
    requires Row(segs) && j < |segs| && x.first == segs[j].first && Sound(x)
    ensures Row(segs[..j] + [x])
  {
    var t := segs[..j] + [x];
    forall i: nat | i < |t| ensures Sound(t[i]) {
      assert Sound(segs[i]);
    }
    forall i: nat | i + 1 < |t| ensures Joined(t, i) {
      assert Joined(segs, i);
    }
  }

  lemma RowExtend(segs: seq<Seg>, x: Seg)
    requires Row(segs) && Last(segs).entries != [] && x.first == Last(segs).Next() && Sound(x)
    ensures Row(segs + [x])
  {
    var t := segs + [x];
    forall i: nat | i < |t| ensures Sound(t[i]) {
      assert i < |segs| ==> Sound(segs[i]);
    }
    forall i: nat | i + 1 < |t| ensures Joined(t, i) {
      assert i + 1 < |segs| ==> Joined(segs, i);
    }
  }

  lemma RowAppend(closed: seq<Seg>, active: Seg, es: seq<Entry>)
    requires Row(closed + [active]) && Indexed(active.Next(), es)
    ensures Row(closed + [active.(entries := active.entries + es)])
  {
    var segs := closed + [active];
    assert segs[..|closed|] == closed && segs[|closed|] == active;
    assert Sound(segs[|closed|]);
    RowEnding(segs, |closed|, active.(entries := active.entries + es));
  }

  /** Appending to the last segment appends to the log. */
  lemma HeldAppend(closed: seq<Seg>, active: Seg, first: nat, es: seq<Entry>)
    requires Held(closed + [active], first) && Indexed(active.Next(), es)
    ensures var more := closed + [active.(entries := active.entries + es)];
            Held(more, first) && Window(more, first) == Window(closed + [active], first) + es
  {
    var segs, more := closed + [active], closed + [active.(entries := active.entries + es)];
    RowAppend(closed, active, es);
    FlatMore(closed, active, es);
    WindowIsIndexed(segs, first);
    assert more[0].first == segs[0].first;
    DropAppend(Flat(segs), es, first - segs[0].first);
  }

  lemma FlatMore(closed: seq<Seg>, active: Seg, es: seq<Entry>)
    ensures Flat(closed + [active.(entries := active.entries + es)]) == Flat(closed + [active]) + es
  {
    var x := active.(entries := active.entries + es);
    FlatAppend(closed, [active]);
    FlatAppend(closed, [x]);
    FlatOne(active);
    FlatOne(x);
  }

  lemma DropAppend<T>(a: seq<T>, b: seq<T>, d: nat)
    requires d <= |a|
    ensures (a + b)[d..] == a[d..] + b
  {
  }

  lemma TakeTwo<T>(a: seq<T>, b: seq<T>, c: seq<T>, n: nat)
    requires n <= |b|
    ensures (a + b + c)[..|a| + n] == a + b[..n]
  {
  }

  lemma FlatOne(s: Seg)
    ensures Flat([s]) == s.entries
  {
    assert Flat([s][1..]) == [];
  }

  /** Closing a filled segment and starting an empty one behind it leaves the log as it is. */
  lemma HeldRoll(closed: seq<Seg>, active: Seg, first: nat)
    requires Held(closed + [active], first) && active.entries != []
    ensures var more := closed + [active] + [Seg(active.Next(), [])];
            Held(more, first) && Window(more, first) == Window(closed + [active], first)
  {
    var segs := closed + [active];
    var more := segs + [Seg(active.Next(), [])];
    FlatAppend(segs, [Seg(active.Next(), [])]);
    RowExtend(segs, Seg(active.Next(), []));
  }

  /** Cutting segment `j` to its first `n` entries and dropping all behind it cuts the row. */
  lemma RowCut(segs: seq<Seg>, j: nat, n: nat)
    requires Row(segs) && j < |segs| && n <= |segs[j].entries|
    ensures var cut := segs[..j] + [Seg(segs[j].first, segs[j].entries[..n])];
            && Row(cut)
            && segs[0].first <= segs[j].first
            && segs[j].first - segs[0].first + n <= |Flat(segs)|
            && Flat(cut) == Flat(segs)[..segs[j].first - segs[0].first + n]
  {
    var x := Seg(segs[j].first, segs[j].entries[..n]);
    var cut := segs[..j] + [x];
    SplitAt(segs, j);
    FlatAppend(segs[..j], [x]);
    assert Sound(segs[j]);
    RowEnding(segs, j, x);
    TakeTwo(Flat(segs[..j]), segs[j].entries, Flat(segs[j + 1..]), n);
    FlatOne(x);
  }

  /** Looking an index up in its segment finds the entry of the log. */
  lemma WindowAt(segs: seq<Seg>, first: nat, j: nat, index: nat)
    requires Held(segs, first) && j < |segs|
    requires first <= index && segs[j].first <= index < segs[j].Next()
    ensures index - first < |Window(segs, first)|
    ensures Window(segs, first)[index - first] == segs[j].entries[index - segs[j].first]
  {
    SplitAt(segs, j);
    RowIsIndexed(segs);
  }

  lemma SizesOfSlice(size: Entry -> nat, es: seq<Entry>, from: nat, to: nat)
    requires from <= to <= |es|
    ensures Sizes(size, es[from..to]) == Sizes(size, es)[from..to]
  {
  }

  /** Where the entries of a segment lie in the row. */
  lemma SegmentSlice(segs: seq<Seg>, j: nat)
    requires Row(segs) && j < |segs|
    ensures segs[0].first <= segs[j].first && segs[j].Next() - segs[0].first <= |Flat(segs)|
    ensures segs[j].entries == Flat(segs)[segs[j].first - segs[0].first..segs[j].Next() - segs[0].first]
  {
    SplitAt(segs, j);
    RowIsIndexed(segs);
    SplitSlice(Flat(segs[..j]), segs[j].entries, Flat(segs[j + 1..]));
  }

  /** A batch read from one segment is the batch of the whole log, cut at the end of the segment. */
  lemma SegmentBatch(size: Entry -> nat, segs: seq<Seg>, first: nat, j: nat, start: nat,
                     all: seq<Entry>, part: seq<Entry>, ka: nat, kp: nat, left: nat, maxLen: nat, maxBatch: nat)
    requires Held(segs, first) && j < |segs|
    requires first <= start && segs[j].first <= start < segs[j].Next()
    requires all == Window(segs, first) && part == segs[j].entries
    requires ka == start - first && kp == start - segs[j].first && left == segs[j].Next() - start
    ensures ka < |all| && BatchCut(size, part, kp, all, ka, left, maxLen, maxBatch)
  {
    var base := segs[0].first;
    SegmentSlice(segs, j);
    BatchOfSlices(size, Flat(segs), all, part, first - base, segs[j].first - base, start - base,
                  ka, kp, left, maxLen, maxBatch);
  }

  lemma SplitSlice<T>(a: seq<T>, b: seq<T>, c: seq<T>)
    ensures (a + b + c)[|a|..|a| + |b|] == b
  {
  }

  lemma BatchOfSlices(size: Entry -> nat, flat: seq<Entry>, all: seq<Entry>, part: seq<Entry>, d: nat, o: nat, p: nat,
                      ka: nat, kp: nat, left: nat, maxLen: nat, maxBatch: nat)
    requires d <= p && o <= p < o + |part| <= |flat| && all == flat[d..] && part == flat[o..o + |part|]
    requires ka == p - d && kp == p - o && left == o + |part| - p
    ensures BatchCut(size, part, kp, all, ka, left, maxLen, maxBatch)
  {
    var e := BatchEnd(Sizes(size, flat), p, maxLen, maxBatch);
    BatchOfSlice(size, flat, d, |flat|, p, maxLen, maxBatch);
    BatchOfSlice(size, flat, o, o + |part|, p, maxLen, maxBatch);
    assert flat[d..|flat|] == all;
    var m := Min(o + |part|, e);
    SliceOfSlice(flat, o, o + |part|, kp, m - o, p, m);
    SliceOfSlice(flat, d, |flat|, ka, e - d, p, e);
    assert Batch(size, part, kp, maxLen, maxBatch) == flat[p..m];
    assert Batch(size, all, ka, maxLen, maxBatch) == flat[p..e];
    SliceOfSlice(flat, p, e, 0, m - p, p, m);
  }

  lemma BatchOfSlice(size: Entry -> nat, flat: seq<Entry>, from: nat, to: nat, p: nat, maxLen: nat, maxBatch: nat)
    requires from <= p <= to <= |flat|
    ensures BatchEnd(Sizes(size, flat[from..to]), p - from, maxLen, maxBatch)
            == Min(to - from, BatchEnd(Sizes(size, flat), p, maxLen, maxBatch) - from)
  {
    SizesOfSlice(size, flat, from, to);
    BatchWithin(Sizes(size, flat[from..to]), Sizes(size, flat), from, p - from, maxLen, maxBatch);
  }

  lemma SliceOfSlice<T>(s: seq<T>, from: nat, to: nat, a: nat, b: nat, x: nat, y: nat)
    requires from <= to <= |s| && a <= b <= to - from && x == from + a && y == from + b
    ensures s[from..to][a..b] == s[x..y]
  {
    var t := s[from..to];
    forall i | 0 <= i < b - a ensures t[a..b][i] == s[x..y][i] {
      assert t[a + i] == s[x + i];
    }
  }
}
