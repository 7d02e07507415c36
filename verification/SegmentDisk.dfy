/** What is on disk, and what a restarted process makes of it. */
module SegmentDisk {
  import opened RaftTypes
  import opened LogSpec
  import opened SegmentRow

  /** Segment files are found by their names, which carry their index range. */
  datatype Name = Closed(first: nat, last: int) | InProgress(first: nat)

  type Files = map<Name, seq<Entry>>

  datatype Disk = Disk(term: nat, vote: nat, first: nat, files: Files)

  function NameOf(s: Seg): Name {
    Closed(s.first, s.Next() - 1)
  }

  function Renamed(files: Files, from: Name, to: Name): Files
    requires from in files
  {
    (files - {from})[to := files[from]]
  }

  // ---------------------------------------------------------------- files that a log leaves behind

  /** A file is a closed segment of the log, or one below `base` that is only retained. */
  predicate Explained(n: Name, es: seq<Entry>, closed: seq<Seg>, base: nat) {
    && n.Closed?
    && n.first <= n.last
    && |es| == n.last + 1 - n.first
    && (Seg(n.first, es) in closed || n.last < base)
  }

  predicate Distinct(files: Files) {
    forall n, m | n in files && m in files && n.first == m.first :: n == m
  }

  predicate Present(files: Files, s: Seg) {
    s.entries != [] && NameOf(s) in files && files[NameOf(s)] == s.entries
  }

  /** The files are the closed segments of a log whose segments start at `base`, and retained ones. */
  predicate ClosedOnDisk(files: Files, closed: seq<Seg>, base: nat) {
    && (forall i {:trigger Present(files, closed[i])} | 0 <= i < |closed| :: Present(files, closed[i]))
    && (forall n {:trigger Explained(n, files[n], closed, base)} | n in files :: Explained(n, files[n], closed, base))
    && Distinct(files)
  }

  /** The files are those of a log with these closed segments and this active one. */
  predicate OnDisk(files: Files, closed: seq<Seg>, active: Seg) {
    && InProgress(active.first) in files
    && files[InProgress(active.first)] == active.entries
    && ClosedOnDisk(files - {InProgress(active.first)}, closed, (closed + [active])[0].first)
  }

  lemma DropLast(files: Files, closed: seq<Seg>, s: Seg, base: nat)
    requires ClosedOnDisk(files, closed + [s], base)
    requires forall i | 0 <= i < |closed| :: closed[i].first != s.first
    ensures NameOf(s) in files && ClosedOnDisk(files - {NameOf(s)}, closed, base)
  {
    var all, rest := closed + [s], files - {NameOf(s)};
    assert Present(files, all[|closed|]);
    forall i | 0 <= i < |closed| ensures Present(rest, closed[i]) {
      assert Present(files, all[i]);
    }
    forall n | n in rest ensures Explained(n, rest[n], closed, base) {
      assert Explained(n, files[n], all, base);
    }
  }

  lemma AddLast(files: Files, closed: seq<Seg>, s: Seg, base: nat)
    requires ClosedOnDisk(files, closed, base)
    requires s.entries != [] && base <= s.first && forall i | 0 <= i < |closed| :: closed[i].first != s.first
    ensures ClosedOnDisk(files[NameOf(s) := s.entries], closed + [s], base)
  {
    var all, files' := closed + [s], files[NameOf(s) := s.entries];
    assert all[|closed|] == s;
    forall n | n in files ensures n.first != s.first {
      assert Explained(n, files[n], closed, base);
    }
    forall i | 0 <= i < |all| ensures Present(files', all[i]) {
      if i < |closed| {
        assert Present(files, closed[i]);
      }
    }
    forall n | n in files' ensures Explained(n, files'[n], all, base) {
      if n in files {
        assert Explained(n, files[n], closed, base);
      }
    }
  }

  /** Retained files stay explained when the log starts higher up. */
  lemma RaiseBase(files: Files, closed: seq<Seg>, base: nat, higher: nat, gone: seq<Seg>)
    requires ClosedOnDisk(files, gone + closed, base) && base <= higher
    requires forall i | 0 <= i < |gone| :: gone[i].Next() <= higher
    ensures ClosedOnDisk(files, closed, higher)
  {
    var all := gone + closed;
    forall i | 0 <= i < |closed| ensures Present(files, closed[i]) {
      assert Present(files, all[|gone| + i]);
    }
    forall n | n in files ensures Explained(n, files[n], closed, higher) {
      assert Explained(n, files[n], all, base);
      if n.last >= base {
        var i :| 0 <= i < |all| && all[i] == Seg(n.first, files[n]);
        assert i >= |gone| ==> closed[i - |gone|] == all[i];
      }
    }
  }

  lemma AddActive(files: Files, closed: seq<Seg>, f: nat, base: nat)
    requires ClosedOnDisk(files, closed, base)
    requires if closed == [] then base <= f else base == closed[0].first
    ensures OnDisk(files[InProgress(f) := []], closed, Seg(f, []))
  {
    var files' := files[InProgress(f) := []];
    forall n | n in files ensures n.Closed? {
      assert Explained(n, files[n], closed, base);
    }
    assert files' - {InProgress(f)} == files;
    assert [] + closed == closed;
    RaiseBase(files, closed, base, (closed + [Seg(f, [])])[0].first, []);
  }

  // ---------------------------------------------------------------- recovery

  predicate Sorted(names: seq<Name>) {
    && (forall i | 0 <= i < |names| :: names[i].Closed?)
    && (forall i, j | 0 <= i < j < |names| :: names[i].first < names[j].first)
  }

  /** An ordered map from first index to segment takes in one more segment. */
  function Insert(names: seq<Name>, n: Name): (r: seq<Name>)
    requires Sorted(names) && n.Closed? && forall m | m in names :: m.first != n.first
    ensures Sorted(r) && forall m :: m in r <==> m == n || m in names
  {
    if names == [] then [n]
    else if n.first < names[0].first then [n] + names
    else
      var t := Insert(names[1..], n);
      assert names == [names[0]] + names[1..];
      assert n.first != names[0].first by { assert names[0] in names; }
      assert forall i | 0 <= i < |t| :: names[0].first < t[i].first by {
        assert forall i | 0 <= i < |t| :: t[i] in t;
        assert forall m | m in names[1..] :: names[0].first < m.first;
      }
      [names[0]] + t
  }

  /**
   * Loading the closed segments in order. Segments below the first index are skipped as long as none is loaded;
   * `prev` is the index behind the last one loaded. None stands for a failed assertion.
   */
  function LoadRow(files: Files, names: seq<Name>, first: nat, prev: Option<nat>): Option<seq<Seg>>
    requires Sorted(names)
    decreases |names|
  {
    if names == [] then Some([])
    else
      var n := names[0];
      if n.first > n.last
         || (prev.Some? && n.first != prev.value)
         || (prev.None? && first < n.first) then None
      else if prev.None? && first > n.last then LoadRow(files, names[1..], first, None)
      else if n !in files || |files[n]| != n.last + 1 - n.first then None
      else Consed(Seg(n.first, files[n]), LoadRow(files, names[1..], first, Some(n.last + 1)))
  }

  function Consed(s: Seg, rest: Option<seq<Seg>>): Option<seq<Seg>> {
    if rest.Some? then Some([s] + rest.value) else None
  }

  /** Two ordered listings of the same names are equal. */
  lemma {:induction false} SortedUnique(a: seq<Name>, b: seq<Name>)
    requires Sorted(a) && Sorted(b)
    requires forall n :: n in a <==> n in b
    ensures a == b
    decreases |a|
  {
    assert b != [] ==> b[0] in b;
    if a != [] {
      assert a[0] in b;
      assert b[0] in a;
      assert a[0] == b[0];
      forall n ensures n in a[1..] <==> n in b[1..] {
        TailHas(a, n);
        TailHas(b, n);
      }
      SortedUnique(a[1..], b[1..]);
    }
  }

  lemma TailHas(a: seq<Name>, n: Name)
    requires Sorted(a) && a != []
    ensures n in a[1..] <==> n in a && n != a[0]
  {
    if n in a && n != a[0] {
      var i :| 0 <= i < |a| && a[i] == n;
      assert a[1..][i - 1] == n;
    }
  }

  lemma NamesSorted(closed: seq<Seg>, active: Seg)
    requires Row(closed + [active])
    ensures Sorted(Names(closed))
  {
    var segs, ns := closed + [active], Names(closed);
    forall i, j | 0 <= i < j < |ns| ensures ns[i].first < ns[j].first {
      assert segs[i] == closed[i] && segs[j] == closed[j];
      assert Joined(segs, i);
      RowOrdered(segs, i, j);
    }
  }

  function Names(closed: seq<Seg>): (ns: seq<Name>)
    ensures |ns| == |closed| && forall i | 0 <= i < |closed| :: ns[i] == NameOf(closed[i])
  {
    seq(|closed|, i requires 0 <= i < |closed| => NameOf(closed[i]))
  }

  /** Loading finds a complete row of files. */
  lemma {:induction false} LoadsRow(files: Files, closed: seq<Seg>, active: Seg, first: nat, prev: Option<nat>)
    requires Row(closed + [active]) && forall i | 0 <= i < |closed| :: Present(files, closed[i])
    requires closed != [] ==> if prev.Some? then prev.value == closed[0].first
                              else closed[0].first <= first < closed[0].Next()
    ensures Sorted(Names(closed)) && LoadRow(files, Names(closed), first, prev) == Some(closed)
    decreases |closed|
  {
    NamesSorted(closed, active);
    if closed != [] {
      var segs := closed + [active];
      assert segs[0] == closed[0] && segs[1..] == closed[1..] + [active];
      RowTail(segs);
      assert Present(files, closed[0]);
      assert Names(closed)[1..] == Names(closed[1..]);
      LoadsRow(files, closed[1..], active, first, Some(closed[0].Next()));
      assert closed == [closed[0]] + closed[1..];
    }
  }

  /** Retained files are skipped, whatever they are, and the row behind them is loaded. */
  lemma {:induction false} LoadsBehindRetained(files: Files, names: seq<Name>, closed: seq<Seg>, active: Seg,
                                               first: nat)
    requires Held(closed + [active], first) && forall i | 0 <= i < |closed| :: Present(files, closed[i])
    requires Sorted(names)
    requires forall n | n in names :: n in files && Explained(n, files[n], closed, (closed + [active])[0].first)
    requires forall s | s in closed :: NameOf(s) in names
    ensures LoadRow(files, names, first, None) == Some(closed)
    decreases |names|
  {
    var base := (closed + [active])[0].first;
    assert closed != [] ==> closed[0] in closed;
    if names == [] {
    } else if names[0].last < base {
      assert names[0] in names && forall n | n in names[1..] :: n in names;
      forall s | s in closed ensures NameOf(s) in names[1..] {
        SegmentAboveBase(closed, active, s);
        TailHas(names, NameOf(s));
      }
      LoadsBehindRetained(files, names[1..], closed, active, first);
      assert LoadRow(files, names, first, None) == LoadRow(files, names[1..], first, None);
    } else {
      NamesMatch(files, names, closed, active);
      assert closed != [];
      LoadsRow(files, closed, active, first, None);
    }
  }

  lemma SegmentAboveBase(closed: seq<Seg>, active: Seg, s: Seg)
    requires Row(closed + [active]) && s in closed
    ensures (closed + [active])[0].first <= s.first < s.Next()
  {
    var i :| 0 <= i < |closed| && closed[i] == s;
    assert (closed + [active])[i] == s;
    assert Joined(closed + [active], i);
    if i > 0 {
      RowOrdered(closed + [active], 0, i);
    }
  }

  lemma NamesMatch(files: Files, names: seq<Name>, closed: seq<Seg>, active: Seg)
    requires Row(closed + [active]) && forall i | 0 <= i < |closed| :: Present(files, closed[i])
    requires Sorted(names) && names != [] && names[0].last >= (closed + [active])[0].first
    requires forall n | n in names :: n in files && Explained(n, files[n], closed, (closed + [active])[0].first)
    requires forall s | s in closed :: NameOf(s) in names
    ensures names == Names(closed) && closed != []
  {
    var segs := closed + [active];
    var ns := Names(closed);
    NamesSorted(closed, active);
    forall n ensures n in names <==> n in ns {
      if n in names {
        assert n.last >= segs[0].first by {
          assert names[0] in names;
          var i :| 0 <= i < |names| && names[i] == n;
          if i > 0 {
            SegmentAboveBase(closed, active, Seg(names[0].first, files[names[0]]));
          }
        }
        var s := Seg(n.first, files[n]);
        assert s in closed;
        var i :| 0 <= i < |closed| && closed[i] == s;
        assert ns[i] == n;
      }
      if n in ns {
        var i :| 0 <= i < |ns| && ns[i] == n;
        assert closed[i] in closed;
      }
    }
    SortedUnique(names, ns);
    assert names[0] in names;
  }
}
