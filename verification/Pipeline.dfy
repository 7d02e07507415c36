/**
 * Loading committed entries for the apply thread. A loader reads batches, any number of workers decrypt them
 * out of order, and the apply thread takes finished batches from the front. Each step is one lock region or one
 * atomic access.
 */
module Pipeline {
  import opened RaftTypes
  import opened EventLog

  const MAX_QUEUE := 30

  datatype Flag = Initial | Doing | Done

  datatype Task = Task(entries: seq<Record>, flag: Flag, bundles: seq<Bundle>)

  /**
   * `hand` is a batch that is counted in `loaded` but not yet queued; `taken` are the bundles handed to the apply
   * thread since loading started at `offset`, and `pos` is the index up to which they cover the log.
   */
  datatype Pipe = Pipe(loaded: nat, applied: nat, applying: nat, cached: seq<Bundle>, queue: seq<Task>,
                       hand: Option<Task>, offset: nat, pos: nat, taken: seq<Bundle>)

  datatype Step = Load(upTo: nat, size: nat)
                | Push
                | Claim(i: nat)
                | Finish(i: nat)
                | MarkApplied
                | PopFront
                | SyncLoad(upTo: nat, size: nat)
                | Take

  function Start(offset: nat): Pipe {
    Pipe(offset, offset, 0, [], [], None, offset, offset, [])
  }

  /** The bundles of a batch of records. */
  function Decrypt(es: seq<Record>): seq<Bundle> {
    Bundles(es, 0, |es|)
  }

  /** `commit` is the commit index; a reader may have seen any smaller value of it. */
  predicate Enabled(p: Pipe, log: seq<Record>, commit: nat, step: Step) {
    match step
    case Load(upTo, size) =>
      p.hand.None? && |p.queue| < MAX_QUEUE && p.loaded < upTo <= commit && p.loaded + size <= upTo
    case Push => p.hand.Some?
    case Claim(i) => i < |p.queue| && p.queue[i].flag == Initial
    case Finish(i) => i < |p.queue| && p.queue[i].flag == Doing
    case MarkApplied => true
    case PopFront => p.cached == [] && p.queue != [] && p.queue[0].flag == Done
    case SyncLoad(upTo, size) =>
      && p.cached == [] && p.queue == [] && p.hand.None?
      && p.loaded < upTo <= commit && p.loaded + size <= upTo
    case Take => p.cached != []
  }

  function Act(p: Pipe, log: seq<Record>, commit: nat, step: Step): Pipe
    requires commit <= |log| && Enabled(p, log, commit, step)
  {
    match step
    case Load(_, size) =>
      p.(hand := Some(Task(log[p.loaded..p.loaded + size], Initial, [])), loaded := p.loaded + size)
    case Push => p.(queue := p.queue + [p.hand.value], hand := None)
    case Claim(i) => p.(queue := p.queue[i := p.queue[i].(flag := Doing)])
    case Finish(i) => p.(queue := p.queue[i := p.queue[i].(flag := Done, bundles := Decrypt(p.queue[i].entries))])
    case MarkApplied => p.(applied := Max(p.applied, p.applying))
    case PopFront => p.(cached := p.queue[0].bundles, queue := p.queue[1..])
    case SyncLoad(_, size) =>
      p.(cached := Decrypt(log[p.loaded..p.loaded + size]), loaded := p.loaded + size)
    case Take =>
      p.(cached := p.cached[1..], applying := p.cached[0].id, pos := p.cached[0].id, taken := p.taken + [p.cached[0]])
  }

  // ---------------------------------------------------------------- what every step keeps

  /** What a task will have contributed once it is decrypted. */
  function Yield(t: Task): seq<Bundle> {
    if t.flag == Done then t.bundles else Decrypt(t.entries)
  }

  function Yields(ts: seq<Task>): seq<Bundle> {
    if ts == [] then [] else Yield(ts[0]) + Yields(ts[1..])
  }

  function InHand(p: Pipe): seq<Bundle> {
    if p.hand.Some? then Yield(p.hand.value) else []
  }

  /** Everything loaded and not yet taken, in order. */
  function Pending(p: Pipe): seq<Bundle> {
    p.cached + Yields(p.queue) + InHand(p)
  }

  /** `stable` entries of the log never change; loading stays below them. */
  ghost predicate Inv(p: Pipe, log: seq<Record>, stable: nat) {
    && stable <= |log|
    && p.offset <= p.pos <= p.loaded <= stable
    && p.offset <= p.applied <= p.pos
    && p.applying <= p.pos
    && IdsMatch(log, stable)
    && Pending(p) == Bundles(log, p.pos, p.loaded)
    && p.taken == Bundles(log, p.offset, p.pos)
  }

  lemma {:induction false} YieldsAppend(a: seq<Task>, b: seq<Task>)
    ensures Yields(a + b) == Yields(a) + Yields(b)
    decreases |a|
  {
    if a == [] {
      assert a + b == b;
    } else {
      YieldsAppend(a[1..], b);
      assert (a + b)[1..] == a[1..] + b;
    }
  }

  lemma {:induction false} SameYields(ts: seq<Task>, i: nat, t: Task)
    requires i < |ts| && Yield(t) == Yield(ts[i])
    ensures Yields(ts[i := t]) == Yields(ts)
    decreases |ts|
  {
    if i > 0 {
      SameYields(ts[1..], i - 1, t);
      assert ts[i := t][1..] == ts[1..][i - 1 := t];
    } else {
      assert ts[i := t][1..] == ts[1..];
    }
  }

  lemma StartInv(log: seq<Record>, stable: nat, offset: nat)
    requires offset <= stable <= |log| && IdsMatch(log, stable)
    ensures Inv(Start(offset), log, stable)
  {
  }

  lemma OneYield(t: Task)
    ensures Yields([t]) == Yield(t)
  {
    assert Yields([t][1..]) == [];
  }

  lemma LoadPending(p: Pipe, es: seq<Record>, n: nat)
    requires p.hand.None?
    ensures Pending(p.(hand := Some(Task(es, Initial, [])), loaded := n)) == Pending(p) + Decrypt(es)
  {
  }

  lemma SyncPending(p: Pipe, es: seq<Record>, n: nat)
    requires p.hand.None? && p.queue == [] && p.cached == []
    ensures Pending(p.(cached := Decrypt(es), loaded := n)) == Pending(p) + Decrypt(es)
  {
  }

  lemma DecryptCopy(log: seq<Record>, a: nat, b: nat)
    requires a <= b <= |log|
    ensures Decrypt(log[a..b]) == Bundles(log, a, b)
  {
    BundlesOfCopy(log, a, b, b - a);
  }

  /** Reading on from `loaded` extends what is pending. */
  lemma Extended(p: Pipe, p': Pipe, log: seq<Record>, stable: nat)
    requires Inv(p, log, stable) && p.loaded <= p'.loaded <= stable
    requires Pending(p') == Pending(p) + Bundles(log, p.loaded, p'.loaded)
    requires p'.offset == p.offset && p'.pos == p.pos && p'.applied == p.applied && p'.applying == p.applying
    requires p'.taken == p.taken
    ensures Inv(p', log, stable)
  {
    BundlesSplit(log, p.pos, p.loaded, p'.loaded);
  }

  lemma LoadKeeps(p: Pipe, log: seq<Record>, commit: nat, stable: nat, step: Step)
    requires Inv(p, log, stable) && commit <= stable && Enabled(p, log, commit, step) && (step.Load? || step.SyncLoad?)
    ensures Inv(Act(p, log, commit, step), log, stable)
  {
    var n := p.loaded + step.size;
    DecryptCopy(log, p.loaded, n);
    if step.Load? {
      LoadPending(p, log[p.loaded..n], n);
    } else {
      SyncPending(p, log[p.loaded..n], n);
    }
    Extended(p, Act(p, log, commit, step), log, stable);
  }

  lemma PushKeeps(p: Pipe, log: seq<Record>, stable: nat)
    requires Inv(p, log, stable) && p.hand.Some?
    ensures Inv(Act(p, log, 0, Push), log, stable)
  {
    var p' := Act(p, log, 0, Push);
    YieldsAppend(p.queue, [p.hand.value]);
    OneYield(p.hand.value);
    assert Pending(p') == Pending(p);
  }

  lemma PopKeeps(p: Pipe, log: seq<Record>, stable: nat)
    requires Inv(p, log, stable) && Enabled(p, log, 0, PopFront)
    ensures Inv(Act(p, log, 0, PopFront), log, stable)
  {
    var p' := Act(p, log, 0, PopFront);
    assert Pending(p') == Pending(p);
  }

  lemma TakeKeeps(p: Pipe, log: seq<Record>, stable: nat)
    requires Inv(p, log, stable) && p.cached != []
    ensures Inv(Act(p, log, 0, Take), log, stable)
    ensures p.pos < Act(p, log, 0, Take).pos
  {
    var k := FirstBundle(log, p.pos, p.loaded);
    var p' := Act(p, log, 0, Take);
    assert Pending(p) == [p.cached[0]] + Pending(p');
    assert Pending(p)[1..] == Pending(p');
    BundlesSplit(log, p.offset, p.pos, k);
  }

  /** A taken bundle holds the events of the stretch of the log that its position moves over. */
  lemma TakeEvents(p: Pipe, log: seq<Record>, stable: nat)
    requires Inv(p, log, stable) && p.cached != []
    ensures var k := p.cached[0].id;
            && p.pos < k <= stable && Carries(log[k - 1])
            && EventsOf(log, k) == EventsOf(log, p.pos) + p.cached[0].events
  {
    assert Pending(p)[0] == p.cached[0];
    var k := FirstBundle(log, p.pos, p.loaded);
    QuietStretch(log, p.pos, k - 1);
  }

  /** Every step of every thread keeps the invariant. */
  lemma StepKeeps(p: Pipe, log: seq<Record>, commit: nat, stable: nat, step: Step)
    requires Inv(p, log, stable) && commit <= stable && Enabled(p, log, commit, step)
    ensures Inv(Act(p, log, commit, step), log, stable)
    ensures p.applied <= Act(p, log, commit, step).applied && p.pos <= Act(p, log, commit, step).pos
  {
    match step {
      case Load(_, _) => LoadKeeps(p, log, commit, stable, step);
      case Push => PushKeeps(p, log, stable);
      case Claim(i) => SameYields(p.queue, i, p.queue[i].(flag := Doing));
      case Finish(i) => SameYields(p.queue, i, p.queue[i].(flag := Done, bundles := Decrypt(p.queue[i].entries)));
      case MarkApplied =>
      case PopFront => PopKeeps(p, log, stable);
      case SyncLoad(_, _) => LoadKeeps(p, log, commit, stable, step);
      case Take => TakeKeeps(p, log, stable);
    }
  }

  /** The log may grow or be rewritten above what is stable. */
  lemma LogMoves(p: Pipe, log: seq<Record>, stable: nat, log': seq<Record>, stable': nat)
    requires Inv(p, log, stable) && stable <= stable' <= |log'| && Agree(log, log', stable) && IdsMatch(log', stable')
    ensures Inv(p, log', stable')
  {
    BundlesAgree(log, log', p.pos, p.loaded);
    BundlesAgree(log, log', p.offset, p.pos);
  }

  // ---------------------------------------------------------------- whole runs

  /** The pipeline and the log it reads. Raft moves the log and the commit index at any time. */
  datatype World = World(pipe: Pipe, log: seq<Record>, commit: nat, stable: nat)

  datatype Move = Thread(step: Step) | Raft(log: seq<Record>, commit: nat, stable: nat)

  ghost predicate Next(w: World, m: Move, w': World) {
    match m
    case Thread(step) =>
      && w.commit <= w.stable <= |w.log|
      && Enabled(w.pipe, w.log, w.commit, step)
      && w' == w.(pipe := Act(w.pipe, w.log, w.commit, step))
    case Raft(log, commit, stable) =>
      && w.stable <= stable <= |log| && w.stable <= |w.log| && w.commit <= commit <= stable
      && Agree(w.log, log, w.stable) && IdsMatch(log, stable)
      && w' == w.(log := log, commit := commit, stable := stable)
  }

  ghost predicate Run(ws: seq<World>, ms: seq<Move>, offset: nat) {
    && |ws| == |ms| + 1
    && ws[0].pipe == Start(offset)
    && ws[0].commit <= ws[0].stable <= |ws[0].log| && offset <= ws[0].stable && IdsMatch(ws[0].log, ws[0].stable)
    && (forall i | 0 <= i < |ms| :: Next(ws[i], ms[i], ws[i + 1]))
  }

  ghost predicate WorldInv(w: World, offset: nat) {
    w.commit <= w.stable && w.pipe.offset == offset && Inv(w.pipe, w.log, w.stable)
  }

  lemma NextKeeps(w: World, m: Move, w': World, offset: nat)
    requires WorldInv(w, offset) && Next(w, m, w')
    ensures WorldInv(w', offset) && w.pipe.taken <= w'.pipe.taken && w.pipe.applied <= w'.pipe.applied
  {
    match m
    case Thread(step) => StepKeeps(w.pipe, w.log, w.commit, w.stable, step);
    case Raft(log, commit, stable) => LogMoves(w.pipe, w.log, w.stable, log, stable);
  }

  lemma {:induction false} RunKeeps(ws: seq<World>, ms: seq<Move>, offset: nat, i: nat)
    requires Run(ws, ms, offset) && i < |ws|
    ensures WorldInv(ws[i], offset)
    decreases i
  {
    if i == 0 {
      StartInv(ws[0].log, ws[0].stable, offset);
    } else {
      RunKeeps(ws, ms, offset, i - 1);
      assert Next(ws[i - 1], ms[i - 1], ws[i]);
      NextKeeps(ws[i - 1], ms[i - 1], ws[i], offset);
    }
  }

  /**
   * At any time of any run, the apply thread has been given exactly the bundles of the committed records behind the
   * offset up to some index: each is that of the record at its index, they come in index order, and none is missing.
   * It has been given all that was loaded when nothing is in flight.
   */
  lemma DeliversInOrder(ws: seq<World>, ms: seq<Move>, offset: nat, i: nat)
    requires Run(ws, ms, offset) && i < |ws|
    ensures var p, log, stable := ws[i].pipe, ws[i].log, ws[i].stable;
            && offset <= p.pos <= p.loaded <= stable <= |log|
            && p.taken == Bundles(log, offset, p.pos)
            && InOrder(log, offset, p.pos, p.taken)
            && (forall k: nat | offset <= k < p.pos && Carries(log[k]) :: Bundle(k + 1, log[k].events) in p.taken)
            && (p.cached == [] && p.queue == [] && p.hand.None? ==> p.taken == Bundles(log, offset, p.loaded))
  {
    RunKeeps(ws, ms, offset, i);
    var p, log := ws[i].pipe, ws[i].log;
    BundlesOrdered(log, offset, p.pos);
    forall k: nat | offset <= k < p.pos && Carries(log[k]) ensures Bundle(k + 1, log[k].events) in p.taken {
      BundlesComplete(log, offset, p.pos, k);
    }
    BundlesSplit(log, offset, p.pos, p.loaded);
  }

  /** What was delivered stays delivered, and the applied index never falls. */
  lemma {:induction false} DeliveredGrows(ws: seq<World>, ms: seq<Move>, offset: nat, i: nat, j: nat)
    requires Run(ws, ms, offset) && i <= j < |ws|
    ensures ws[i].pipe.taken <= ws[j].pipe.taken && ws[i].pipe.applied <= ws[j].pipe.applied
    decreases j
  {
    if i < j {
      DeliveredGrows(ws, ms, offset, i, j - 1);
      RunKeeps(ws, ms, offset, j - 1);
      assert Next(ws[j - 1], ms[j - 1], ws[j]);
      NextKeeps(ws[j - 1], ms[j - 1], ws[j], offset);
    }
  }

  /** Steps of the apply thread when it loads by itself. */
  predicate SyncMove(m: Move) {
    m.Thread? ==> m.step.SyncLoad? || m.step.Take? || m.step.MarkApplied?
  }

  /** Without the other threads nothing is ever in their hands. */
  lemma {:induction false} SyncOnly(ws: seq<World>, ms: seq<Move>, offset: nat, i: nat)
    requires Run(ws, ms, offset) && i < |ws| && forall j | 0 <= j < |ms| :: SyncMove(ms[j])
    ensures ws[i].pipe.queue == [] && ws[i].pipe.hand.None?
    decreases i
  {
    if i > 0 {
      SyncOnly(ws, ms, offset, i - 1);
      assert Next(ws[i - 1], ms[i - 1], ws[i]) && SyncMove(ms[i - 1]);
    }
  }

  /**
   * A run of all threads against a run in which the apply thread loads by itself: whenever both have read the same
   * log up to the same index and the apply thread has taken what was there for it, they have delivered the same.
   */
  lemma AsyncIsSync(ws: seq<World>, ms: seq<Move>, i: nat, vs: seq<World>, ns: seq<Move>, j: nat, offset: nat)
    requires Run(ws, ms, offset) && i < |ws| && Run(vs, ns, offset) && j < |vs|
    requires forall k | 0 <= k < |ns| :: SyncMove(ns[k])
    requires ws[i].pipe.loaded == vs[j].pipe.loaded
    requires ws[i].pipe.loaded <= |ws[i].log| && ws[i].pipe.loaded <= |vs[j].log|
    requires Agree(ws[i].log, vs[j].log, ws[i].pipe.loaded)
    requires ws[i].pipe.cached == [] && ws[i].pipe.queue == [] && ws[i].pipe.hand.None? && vs[j].pipe.cached == []
    ensures ws[i].pipe.taken == vs[j].pipe.taken
  {
    DeliversInOrder(ws, ms, offset, i);
    DeliversInOrder(vs, ns, offset, j);
    SyncOnly(vs, ns, offset, j);
    BundlesAgree(ws[i].log, vs[j].log, offset, ws[i].pipe.loaded);
  }
}
