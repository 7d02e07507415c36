/** A segment of the log: entries are serialized, signed and kept in a pair of files. */
module Segment {
  import opened RaftTypes
  import opened LogSpec
  import opened SegmentFiles
  import opened SegmentRow

  /** Protocol-buffer serialization and keyed hashing are parameters. */
  datatype Codec = Codec(size: Entry -> nat, serialize: Entry -> seq<byte>, parse: seq<byte> -> Option<Entry>,
                         keyVersion: Entry -> nat,
                         enabled: bool, latest: nat, hmac: (nat, seq<byte>, nat) -> seq<byte>) {
    ghost predicate Faithful() {
      && (forall e :: |serialize(e)| == size(e))
      && (forall e :: parse(serialize(e)) == Some(e))
    }

    /** The key an entry is signed with: the oldest one if the entry names none. */
    function SigningKey(e: Entry): nat {
      if keyVersion(e) == 0 then 1 else keyVersion(e)
    }

    predicate Signable(e: Entry) {
      enabled ==> SigningKey(e) <= latest
    }

    function Digest(e: Entry): seq<byte> {
      if enabled then hmac(e.index, serialize(e), SigningKey(e)) else NoDigest()
    }

    function ItemOf(e: Entry): Item {
      Item(e.index, e.term, serialize(e), Digest(e))
    }

    function Items(es: seq<Entry>): (xs: seq<Item>)
      ensures |xs| == |es| && forall k {:trigger xs[k]} | 0 <= k < |es| :: xs[k] == ItemOf(es[k])
    {
      seq(|es|, k requires 0 <= k < |es| => ItemOf(es[k]))
    }

    /** Some key known to the node produces this digest; entries without a digest are let through. */
    ghost predicate Authentic(index: nat, bytes: seq<byte>, digest: seq<byte>) {
      || !enabled
      || digest == NoDigest()
      || exists v: nat | 1 <= v <= latest :: hmac(index, bytes, v) == digest
    }
  }

  /** The `i`-th key tried when key `recent` was the last one that worked. */
  function TryVersion(recent: nat, i: nat, latest: nat): nat
    requires latest > 0 && recent > 0
  {
    (recent - 1 + i) % latest + 1
  }

  /** Rotating through the keys reaches each one exactly once. */
  lemma RotationReaches(recent: nat, latest: nat, v: nat) returns (i: nat)
    requires 1 <= recent <= latest && 1 <= v <= latest
    ensures i < latest && TryVersion(recent, i, latest) == v
    ensures forall j: nat | j < latest && TryVersion(recent, j, latest) == v :: j == i
  {
    i := if v >= recent then v - recent else v - recent + latest;
    forall j: nat | j < latest
      ensures TryVersion(recent, j, latest) == if recent + j <= latest then recent + j else recent + j - latest
    {
      WrapOnce(recent - 1 + j, latest);
    }
  }

  lemma WrapOnce(x: nat, m: nat)
    requires 0 < m && x < 2 * m
    ensures x % m == if x < m then x else x - m
  {
    if x >= m {
      assert x == m * 1 + (x - m);
    }
  }

  lemma {:induction false} OffsetIsTotal(c: Codec, es: seq<Entry>, k: nat)
    requires c.Faithful() && k <= |es|
    ensures Offset(c.Items(es), k) == Total(Sizes(c.size, es), k)
    decreases k
  {
    if k > 0 {
      OffsetIsTotal(c, es, k - 1);
    }
  }

  lemma ItemsAppend(c: Codec, a: seq<Entry>, b: seq<Entry>)
    ensures c.Items(a + b) == c.Items(a) + c.Items(b)
  {
  }

  lemma ItemsPrefix(c: Codec, a: seq<Entry>, b: seq<Entry>, n: nat)
    requires n <= |b|
    ensures c.Items(a + b[..n]) == c.Items(a) + c.Items(b)[..n]
  {
    ItemsAppend(c, a, b[..n]);
  }

  lemma TotalsAgree(c: Codec, a: seq<Entry>, b: seq<Entry>)
    requires c.Faithful()
    ensures Offset(c.Items(a), |a|) + Offset(c.Items(b), |b|) == Total(Sizes(c.size, a + b), |a + b|)
  {
    ItemsAppend(c, a, b);
    OffsetAppend(c.Items(a), c.Items(b), |b|);
    OffsetIsTotal(c, a + b, |a + b|);
  }

  class Segment {
    const codec: Codec
    const files: Files
    var isActive: bool
    var recentVersion: nat
    ghost var entries: seq<Entry>

    ghost predicate Valid()
      reads this`entries, files, files.data, files.meta
    {
      && codec.Faithful()
      && files.Valid()
      && files.items == codec.Items(entries)
      && (forall k {:trigger codec.Signable(entries[k])} | 0 <= k < |entries| :: codec.Signable(entries[k]))
    }

    /** What the segment is to the log. */
    ghost function Abs(): Seg
      reads this`entries
    {
      Seg(files.first, entries)
    }

    ghost predicate HasRoom(es: seq<Entry>)
      reads this`entries, files
    {
      Room(codec.size, files.data.Length, files.metaSizeLimit, entries, es)
    }

    /** The key tried first is one of the node's keys. */
    ghost predicate KeyOk()
      reads this`recentVersion
    {
      codec.enabled && codec.latest > 0 ==> 1 <= recentVersion <= codec.latest
    }

    constructor (c: Codec, firstIndex: nat, maxDataSize: nat, maxMetaSize: nat)
      requires c.Faithful() && firstIndex > 0
      ensures Valid() && KeyOk() && fresh(files) && fresh(files.data) && fresh(files.meta)
      ensures Abs() == Seg(firstIndex, []) && isActive && codec == c
      ensures files.data.Length == maxDataSize && files.metaSizeLimit == maxMetaSize
    {
      codec := c;
      files := new Files(firstIndex, maxDataSize, maxMetaSize);
      isActive, recentVersion := true, c.latest;
      entries := [];
    }

    /** Adopting files that hold `es`, whatever happened to the process that wrote them. */
    constructor Recover(c: Codec, active: bool, f: Files, ghost es: seq<Entry>)
      requires c.Faithful() && f.first > 0 && f.meta.Length == f.metaSizeLimit / META_LEN
      requires FilesHold(f.data[..], f.meta[..], f.first, c.Items(es))
      requires forall k {:trigger c.Signable(es[k])} | 0 <= k < |es| :: c.Signable(es[k])
      ensures Valid() && KeyOk() && Abs() == Seg(f.first, es) && isActive == active && fresh(files)
      ensures codec == c && files.data == f.data && files.meta == f.meta
    {
      codec := c;
      HeldIsFound(f.data[..], f.meta[..], f.first, c.Items(es));
      files := new Files.Recover(f.first, f.data, f.meta, f.metaSizeLimit, c.Items(es));
      isActive, recentVersion := active, c.latest;
      entries := es;
    }

    method ShouldRoll(es: seq<Entry>) returns (roll: bool)
      requires Valid() && isActive
      ensures roll <==> !HasRoom(es)
    {
      if files.metaOffset + |es| * META_LEN > files.metaSizeLimit {
        return true;
      }
      ghost var sizes := Sizes(codec.size, entries + es);
      var dataLen: nat := 0;
      var i: nat := 0;
      OffsetIsTotal(codec, entries + es, |entries|);
      OffsetOfPrefix(files.items, codec.Items(entries + es), |entries|);
      while i < |es|
        invariant i <= |es| && files.dataOffset + dataLen == Total(sizes, |entries| + i)
      {
        assert (entries + es)[|entries| + i] == es[i];
        dataLen := dataLen + codec.size(es[i]);
        i := i + 1;
      }
      roll := files.dataOffset + dataLen > files.data.Length;
    }

    /** What the caller must have made sure of, with `ShouldRoll` and by choosing the indices. */
    ghost predicate Fits(es: seq<Entry>)
      reads this, files
    {
      && HasRoom(es)
      && Indexed(Abs().Next(), es)
      && (forall k {:trigger codec.Signable(es[k])} | 0 <= k < |es| :: codec.Signable(es[k]))
    }

    lemma ItemsFit(es: seq<Entry>)
      requires Valid() && Fits(es)
      ensures files.Fits(codec.Items(es))
      ensures codec.Items(entries + es) == files.items + codec.Items(es)
    {
      ItemsAppend(codec, entries, es);
      TotalsAgree(codec, entries, es);
    }

    method AppendEntries(es: seq<Entry>)
      requires Valid() && isActive && Fits(es)
      modifies this`entries, files, files.data, files.meta
      ensures Valid() && Abs() == old(Abs()).Append(es)
    {
      ItemsFit(es);
      files.Append(codec.Items(es));
      entries := entries + es;
    }

    /** True iff no digest has to match or one of the node's keys produces it; starts at the key used last. */
    method VerifyHmac(index: nat, message: seq<byte>, digest: seq<byte>) returns (ok: bool)
      requires KeyOk()
      modifies this`recentVersion
      ensures KeyOk()
      ensures ok <==> codec.Authentic(index, message, digest)
    {
      if !codec.enabled || digest == NoDigest() {
        return true;
      }
      var recent := recentVersion;
      var i: nat := 0;
      while i < codec.latest
        invariant i <= codec.latest && recentVersion == recent
        invariant forall j: nat | j < i :: codec.hmac(index, message, TryVersion(recent, j, codec.latest)) != digest
      {
        var version := TryVersion(recent, i, codec.latest);
        WrapOnce(recent - 1 + i, codec.latest);
        if codec.hmac(index, message, version) == digest {
          recentVersion := version;
          return true;
        }
        i := i + 1;
      }
      forall v: nat | 1 <= v <= codec.latest ensures codec.hmac(index, message, v) != digest {
        var j := RotationReaches(recent, codec.latest, v);
      }
      ok := false;
    }

    /** Reading never trips over the digest: what was appended is found authentic and parses to itself. */
    method GetEntry(index: nat) returns (r: Option<Entry>)
      requires Valid() && KeyOk()
      modifies this`recentVersion
      ensures KeyOk()
      ensures r == Abs().Get(index)
    {
      if index < files.first || index > files.lastIndex {
        return None;
      }
      var m, bytes := files.Read(index - files.first);
      var ok := VerifyHmac(m.index, bytes, m.digest);
      assert ok by {
        assert codec.Signable(entries[index - files.first]);
        assert codec.SigningKey(entries[index - files.first]) >= 1;
      }
      r := codec.parse(bytes);
    }

    method GetTerm(index: nat) returns (r: Option<nat>)
      requires Valid()
      ensures r == if Abs().Get(index).Some? then Some(Abs().Get(index).value.term) else None
    {
      if index < files.first || index > files.lastIndex {
        return None;
      }
      var m, bytes := files.Read(index - files.first);
      r := Some(m.term);
    }

    /** The entry at `index`, if it is no longer than `budget`. */
    method ReadWithin(index: nat, budget: nat) returns (r: Option<Entry>)
      requires Valid() && KeyOk() && files.first <= index <= files.lastIndex
      modifies this`recentVersion
      ensures KeyOk()
      ensures var e := entries[index - files.first];
              r == if codec.size(e) <= budget then Some(e) else None
    {
      var m, bytes := files.Read(index - files.first);
      if m.length > budget {
        return None;
      }
      r := GetEntry(index);
    }

    method GetEntries(start: nat, maxLen: nat, maxBatch: nat) returns (es: seq<Entry>)
      requires Valid() && KeyOk() && files.first <= start <= files.lastIndex
      modifies this`recentVersion
      ensures KeyOk()
      ensures es == Batch(codec.size, Abs().entries, start - Abs().first, maxLen, maxBatch)
    {
      var limit := Min(maxBatch, files.lastIndex + 1 - start);
      es := ReadBatch(start, maxLen, maxBatch, limit, start - files.first, Sizes(codec.size, entries));
    }

    /** Entries are read one by one, for as long as there is one and it fits. */
    method ReadBatch(start: nat, maxLen: nat, maxBatch: nat, limit: nat, ghost k: nat, ghost sizes: seq<nat>)
      returns (es: seq<Entry>)
      requires Valid() && KeyOk() && sizes == Sizes(codec.size, entries)
      requires files.first <= start && k == start - files.first
      requires k < |entries| && limit == Min(maxBatch, |entries| - k)
      modifies this`recentVersion
      ensures KeyOk()
      ensures es == entries[k..BatchEnd(sizes, k, maxLen, maxBatch)]
    {
      ghost var pos, room, left := k, maxLen, maxBatch;
      var batch: nat := 0;
      var len: nat := 0;
      es := [];
      while batch < limit
        modifies this`recentVersion
        invariant batch <= limit && len <= maxLen && KeyOk()
        invariant pos == k + batch && room == maxLen - len && left == maxBatch - batch
        invariant es == entries[k..pos]
        invariant BatchEnd(sizes, k, maxLen, maxBatch) == BatchEnd(sizes, pos, room, left)
      {
        assert sizes[pos] == codec.size(entries[pos]);
        BatchStep(sizes, pos, room, left);
        SliceStep(entries, k, pos);
        var r := ReadWithin(start + batch, maxLen - len);
        if r.None? {
          break;
        }
        es := es + [r.value];
        len := len + codec.size(r.value);
        batch := batch + 1;
        pos, room, left := pos + 1, room - sizes[pos], left - 1;
      }
      BatchDone(sizes, pos, room, left);
    }

    method TruncateSuffix(lastKept: nat)
      requires Valid() && files.first <= lastKept
      modifies this`entries, files, files.meta
      ensures Valid() && Abs() == old(Abs()).Cut(lastKept)
    {
      if lastKept < files.lastIndex {
        var kept := lastKept + 1 - files.first;
        assert codec.Items(entries[..kept]) == files.items[..kept];
        files.TruncateSuffix(lastKept);
        entries := entries[..kept];
      }
    }

    /** Everything in the segment, read back entry by entry. */
    method ReadAll() returns (es: seq<Entry>)
      requires Valid() && KeyOk()
      modifies this`recentVersion
      ensures KeyOk() && es == Abs().entries
    {
      es := [];
      var index := files.first;
      while index <= files.lastIndex
        modifies this`recentVersion
        invariant KeyOk() && files.first <= index <= files.lastIndex + 1
        invariant es == entries[..index - files.first]
      {
        var r := GetEntry(index);
        es := es + [r.value];
        index := index + 1;
      }
    }
  }

  /** What is left on disk after an append was cut short, seen by the process that opens it next. */
  method CrashAndReopen(s: Segment, es: seq<Entry>, durable: nat, n: nat) returns (t: Segment)
    requires s.Valid() && s.isActive && s.Fits(es) && n <= |es|
    requires var all := Total(Sizes(s.codec.size, es), |es|); durable <= all && (n > 0 ==> durable == all)
    modifies s.files.data, s.files.meta
    ensures fresh(t) && fresh(t.files) && t.Valid() && t.KeyOk() && t.isActive
    ensures t.files.data == s.files.data && t.files.meta == s.files.meta && t.files.first == s.files.first
    ensures t.Abs() == old(s.Abs()).Append(es[..n])
  {
    s.ItemsFit(es);
    OffsetIsTotal(s.codec, es, |es|);
    ghost var all := s.entries + es[..n];
    ItemsPrefix(s.codec, s.entries, es, n);
    s.files.AppendCutShort(s.codec.Items(es), durable, n);
    t := new Segment.Recover(s.codec, true, s.files, all);
  }
}
