/** Driving the file log and the plain log side by side. */
module StorageAB {
  import opened RaftTypes
  import opened LogSpec
  import opened SegmentRow
  import InMemoryLog
  import SegmentLog

  datatype Op = Append(es: seq<Entry>) | Prefix(firstKept: nat) | Suffix(lastKept: nat)
              | SetTerm(t: nat) | SetVote(v: nat) | Restart

  /** What an operation does to a log. */
  function Effect(s: LogState, op: Op): LogState {
    match op
    case Append(es) => AppendAll(s, es).0
    case Prefix(k) => LogSpec.TruncatePrefix(s, k)
    case Suffix(k) => LogSpec.TruncateSuffix(s, k)
    case SetTerm(t) => s.(term := t)
    case SetVote(v) => s.(vote := v)
    case Restart => s
  }

  function Outcome(s: LogState, ops: seq<Op>): LogState {
    if ops == [] then s else Effect(Outcome(s, ops[..|ops| - 1]), ops[|ops| - 1])
  }

  lemma OutcomeStep(s: LogState, ops: seq<Op>, i: nat)
    requires i < |ops|
    ensures Outcome(s, ops[..i + 1]) == Effect(Outcome(s, ops[..i]), ops[i])
  {
    assert ops[..i + 1][..i] == ops[..i];
  }

  /** Batches fit into a segment and count on; truncation leaves the bounds of the log alone. */
  predicate Legal(size: Entry -> nat, dataLimit: nat, metaLimit: nat, s: LogState, op: Op) {
    match op
    case Append(es) =>
      es != [] && es[0].index == s.Next() ==>
        Indexed(s.Next(), es) && Room(size, dataLimit, metaLimit, [], es)
    case Prefix(k) => k <= s.first || k < s.Next()
    case Suffix(k) => s.first <= k + 1
    case _ => true
  }

  predicate AllLegal(size: Entry -> nat, dataLimit: nat, metaLimit: nat, s: LogState, ops: seq<Op>) {
    forall i | 0 <= i < |ops| :: Legal(size, dataLimit, metaLimit, Outcome(s, ops[..i]), ops[i])
  }

  method Apply(a: InMemoryLog.Log, b: SegmentLog.Log, op: Op)
    requires a.Valid() && b.Valid() && b.Saved() && a.View() == b.View()
    requires Legal(b.size, b.dataLimit, b.metaLimit, b.View(), op)
    modifies a, b
    ensures a.Valid() && b.Valid() && b.Saved()
    ensures a.View() == b.View() == Effect(old(b.View()), op)
  {
    b.Range();
    match op {
      case Append(es) =>
        assert [] + es == es;
        var okA := a.AppendEntries(es);
        var okB := b.AppendEntries(es);
      case Prefix(k) =>
        a.TruncatePrefix(k);
        b.TruncatePrefix(k);
      case Suffix(k) =>
        a.TruncateSuffix(k);
        b.TruncateSuffix(k);
      case SetTerm(t) =>
        a.SetCurrentTerm(t);
        b.SetCurrentTerm(t);
      case SetVote(v) =>
        a.SetVoteFor(v);
        b.SetVoteFor(v);
      case Restart =>
        var ok := b.CloseAndReopen();
    }
  }

  /** After any legal operations, with restarts anywhere, the two logs agree in every respect. */
  method Drive(size: Entry -> nat, dataLimit: nat, metaLimit: nat, ops: seq<Op>)
    returns (a: InMemoryLog.Log, b: SegmentLog.Log)
    requires AllLegal(size, dataLimit, metaLimit, LogState(1, [], 0, 0), ops)
    ensures fresh(a) && fresh(b) && a.Valid() && b.Valid() && b.Saved()
    ensures a.View() == b.View() == Outcome(LogState(1, [], 0, 0), ops)
  {
    a := new InMemoryLog.Log();
    b := new SegmentLog.Log(size, dataLimit, metaLimit);
    ghost var start := LogState(1, [], 0, 0);
    var i: nat := 0;
    assert ops[..i] == [];
    while i < |ops|
      invariant i <= |ops| && fresh(a) && fresh(b)
      invariant a.Valid() && b.Valid() && b.Saved()
      invariant a.View() == Outcome(start, ops[..i])
      invariant b.View() == Outcome(start, ops[..i])
      invariant b.size == size && b.dataLimit == dataLimit && b.metaLimit == metaLimit
    {
      ApplyNext(a, b, start, ops, i);
      i := i + 1;
    }
    assert ops[..i] == ops;
  }

  method ApplyNext(a: InMemoryLog.Log, b: SegmentLog.Log, ghost start: LogState, ops: seq<Op>, i: nat)
    requires a.Valid() && b.Valid() && b.Saved() && i < |ops|
    requires a.View() == Outcome(start, ops[..i])
    requires b.View() == Outcome(start, ops[..i])
    requires AllLegal(b.size, b.dataLimit, b.metaLimit, start, ops)
    modifies a, b
    ensures a.Valid() && b.Valid() && b.Saved()
    ensures a.View() == Outcome(start, ops[..i + 1])
    ensures b.View() == Outcome(start, ops[..i + 1])
  {
    OutcomeStep(start, ops, i);
    Apply(a, b, ops[i]);
  }

  /** Reading any index gives the same answer from both logs. */
  method Compare(a: InMemoryLog.Log, b: SegmentLog.Log, index: nat) returns (x: Option<Entry>, y: Option<Entry>)
    requires a.Valid() && b.Valid() && a.View() == b.View() && index > 0
    ensures x == y && (x.Some? <==> Has(a.View(), index))
  {
    x := a.GetEntry(index);
    y := b.GetEntry(index);
  }
}
