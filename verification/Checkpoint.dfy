/** The state machine of the apply loop, whose state is written to a database every few commands. */
module Checkpoint {
  import opened RaftTypes
  import opened EventLog

  const MAX_BATCH := 5
  const TWO_64 := 0x1_0000_0000_0000_0000

  datatype Put = PutValue(value: nat) | PutIndex(index: nat)

  /** What the database holds under its two keys. */
  datatype Db = Db(value: Option<nat>, index: Option<nat>) {
    function Value(): nat {
      if value.Some? then value.value else 0
    }

    function Index(): nat {
      if index.Some? then index.value else 0
    }
  }

  function Write(db: Db, batch: seq<Put>): Db {
    if batch == [] then db
    else
      var front := Write(db, batch[..|batch| - 1]);
      match batch[|batch| - 1]
      case PutValue(v) => front.(value := Some(v))
      case PutIndex(i) => front.(index := Some(i))
  }

  /** Unsigned subtraction of 64-bit numbers. */
  function Minus(a: nat, b: nat): int {
    if b <= a then a - b else a - b + TWO_64
  }

  /** The value after the first `n` records: every event counts up by one. */
  function ValueAt(log: seq<Record>, n: nat): nat
    requires n <= |log|
  {
    |EventsOf(log, n)|
  }

  /** Each event carries the value it sets. */
  ghost predicate Sequenced(log: seq<Record>) {
    forall j {:trigger EventsOf(log, |log|)[j]} | 0 <= j < |EventsOf(log, |log|)| :: EventsOf(log, |log|)[j] == j + 1
  }

  /** What is on disk is the state after exactly the records up to the index on disk. */
  ghost predicate Durable(db: Db, log: seq<Record>) {
    db.Index() <= |log| && db.Value() == ValueAt(log, db.Index())
  }

  /** The bundle at index `k` is the one to apply after index `n`. */
  ghost predicate Follows(log: seq<Record>, n: nat, k: nat) {
    Sequenced(log) && n < k <= |log| < TWO_64 && Quiet(log, n, k - 1) && Carries(log[k - 1])
  }

  function NextBundle(log: seq<Record>, n: nat): (k: Option<nat>)
    requires n <= |log|
    ensures k.None? ==> Quiet(log, n, |log|)
    ensures k.Some? ==> n < k.value <= |log| && Quiet(log, n, k.value - 1) && Carries(log[k.value - 1])
    decreases |log| - n
  {
    if n == |log| then None else if Carries(log[n]) then Some(n + 1) else NextBundle(log, n + 1)
  }

  class StateMachine {
    var value: nat
    var batch: seq<Put>
    var lastFlushed: nat
    var db: Db

    /** The state after the first `n` records, with fewer than a batch of indices not on disk yet. */
    ghost predicate Tracks(log: seq<Record>, n: nat)
      reads this
    {
      && n <= |log|
      && value == ValueAt(log, n)
      && Durable(db, log)
      && lastFlushed == db.Index() <= n
      && n - lastFlushed < MAX_BATCH
      && Write(db, batch).Index() == n
      && Write(db, batch).Value() == ValueAt(log, n)
    }

    /** An empty database. */
    constructor ()
      ensures value == 0 && batch == [] && lastFlushed == 0 && db == Db(None, None)
    {
      value, batch, lastFlushed, db := 0, [], 0, Db(None, None);
    }

    method SetValue(v: nat)
      requires v == value + 1
      modifies this`value, this`batch
      ensures value == v && batch == old(batch) + [PutValue(v)]
    {
      value := v;
      batch := batch + [PutValue(v)];
    }

    method Flush()
      modifies this`db, this`batch
      ensures db == Write(old(db), old(batch)) && batch == []
    {
      db := Write(db, batch);
      batch := [];
    }

    method Commit(applied: nat)
      modifies this`batch, this`db, this`lastFlushed
      ensures var all := old(batch) + [PutIndex(applied)];
              if Minus(applied, old(lastFlushed)) < MAX_BATCH
              then batch == all && db == old(db) && lastFlushed == old(lastFlushed)
              else batch == [] && db == Write(old(db), all) && lastFlushed == applied
    {
      batch := batch + [PutIndex(applied)];
      if Minus(applied, lastFlushed) < MAX_BATCH {
        return;
      }
      Flush();
      lastFlushed := applied;
    }

    /** The apply loop takes one bundle: its events, then a commit at its index. */
    method ApplyBundle(log: seq<Record>, n: nat, k: nat)
      requires Tracks(log, n) && Follows(log, n, k)
      modifies this
      ensures Tracks(log, k) && db.Index() == if k - old(db.Index()) < MAX_BATCH then old(db.Index()) else k
    {
      ApplyEvents(log, n, k, |log[k - 1].events|);
      LastPut(db, batch, PutIndex(k));
      Commit(k);
      WriteNothing(db);
    }

    /** The first `j` events of the bundle at index `k`. */
    method ApplyEvents(log: seq<Record>, n: nat, k: nat, j: nat)
      requires Tracks(log, n) && Follows(log, n, k) && j <= |log[k - 1].events|
      modifies this`value, this`batch
      ensures value == ValueAt(log, n) + j && ValueAt(log, n) == ValueAt(log, k - 1)
      ensures Write(db, batch).Index() == n && Write(db, batch).Value() == value
    {
      var events := log[k - 1].events;
      QuietStretch(log, n, k - 1);
      var i: nat := 0;
      while i < j
        modifies this`value, this`batch
        invariant i <= j && value == ValueAt(log, n) + i
        invariant Write(db, batch).Index() == n && Write(db, batch).Value() == value
      {
        EventIsNext(log, k, i);
        LastPut(db, batch, PutValue(events[i]));
        SetValue(events[i]);
        i := i + 1;
      }
    }

    /** The periodic commit, when nothing new was applied. */
    method CommitAgain(log: seq<Record>, n: nat)
      requires Tracks(log, n)
      modifies this
      ensures Tracks(log, n) && db == old(db)
    {
      LastPut(db, batch, PutIndex(n));
      Commit(n);
    }

    /** Handing the state over: the value is copied out and everything is flushed. */
    method SwapOut(log: seq<Record>, n: nat) returns (v: nat)
      requires Tracks(log, n)
      modifies this
      ensures v == ValueAt(log, n)
      ensures batch == [] && Durable(db, log) && db.Index() == n
    {
      v := value;
      Flush();
    }

    /** Reloading from the database; the pending batch must be empty. */
    method RecoverSelf(log: seq<Record>) returns (n: nat)
      requires batch == [] && Durable(db, log)
      modifies this
      ensures Tracks(log, n) && n == db.Index() && db == old(db)
    {
      lastFlushed := db.Index();
      value := db.Value();
      n := lastFlushed;
    }

    /** The process dies with whatever it had not flushed, at any moment, and a new one starts. */
    method Crash(log: seq<Record>) returns (m: nat)
      requires Durable(db, log)
      modifies this
      ensures Tracks(log, m) && m == db.Index() && db == old(db)
    {
      value, batch, lastFlushed := 0, [], 0;
      m := RecoverSelf(log);
    }

    /** Applying what follows record `m`, up to record `n`. */
    method Replay(log: seq<Record>, m: nat, n: nat)
      requires Tracks(log, m) && Sequenced(log) && m <= n <= |log| < TWO_64
      modifies this
      ensures value == ValueAt(log, n)
      ensures exists k: nat :: m <= k <= n && Tracks(log, k) && Quiet(log, k, n)
    {
      var at: nat := m;
      var i: nat := m;
      while i < n
        invariant m <= at <= i <= n && Tracks(log, at) && Quiet(log, at, i)
      {
        if Carries(log[i]) {
          ApplyBundle(log, at, i + 1);
          at := i + 1;
        }
        i := i + 1;
      }
      QuietStretch(log, at, n);
    }
  }

  /** Crashing anywhere on the way and replaying leads to the state of never having crashed. */
  method CrashAndReplay(s: StateMachine, log: seq<Record>, n: nat)
    requires Durable(s.db, log) && s.db.Index() <= n <= |log| < TWO_64 && Sequenced(log)
    modifies s
    ensures s.value == ValueAt(log, n)
  {
    var m := s.Crash(log);
    s.Replay(log, m, n);
  }

  // ---------------------------------------------------------------- any sequence of operations

  /** `DieInside(j)` is a crash after `j` events of the next bundle. */
  datatype Op = Apply | Periodic | HandOver | Recover | Crash | DieInside(j: nat)

  /** How far the state is, how far the database is, and whether the loop has its state or has handed it over. */
  datatype Marks = Marks(applied: nat, flushed: nat, up: bool)

  function Effect(log: seq<Record>, m: Marks, op: Op): Marks
    requires m.applied <= |log|
  {
    match op
    case Apply =>
      if !m.up || NextBundle(log, m.applied).None? then m
      else
        var k := NextBundle(log, m.applied).value;
        m.(applied := k, flushed := if k - m.flushed < MAX_BATCH then m.flushed else k)
    case Periodic => m
    case HandOver => Marks(m.applied, m.applied, false)
    case Recover => m.(up := true)
    case Crash => Marks(m.flushed, m.flushed, true)
    case DieInside(_) => Marks(m.flushed, m.flushed, true)
  }

  function Outcome(log: seq<Record>, ops: seq<Op>): (m: Marks)
    ensures m.flushed <= m.applied <= |log|
  {
    if ops == [] then Marks(0, 0, true) else Effect(log, Outcome(log, ops[..|ops| - 1]), ops[|ops| - 1])
  }

  ghost predicate Stands(s: StateMachine, log: seq<Record>, m: Marks)
    reads s
  {
    && s.db.Index() == m.flushed && m.applied <= |log|
    && if m.up then s.Tracks(log, m.applied) else s.batch == [] && Durable(s.db, log) && m.flushed == m.applied
  }

  method Do(s: StateMachine, log: seq<Record>, m: Marks, op: Op) returns (m': Marks)
    requires Stands(s, log, m) && Sequenced(log) && |log| < TWO_64
    modifies s
    ensures m' == Effect(log, m, op) && Stands(s, log, m')
  {
    m' := Effect(log, m, op);
    match op {
      case Apply =>
        var k := NextBundle(log, m.applied);
        if m.up && k.Some? {
          s.ApplyBundle(log, m.applied, k.value);
        }
      case Periodic =>
        if m.up {
          s.CommitAgain(log, m.applied);
        }
      case HandOver =>
        if m.up {
          var v := s.SwapOut(log, m.applied);
        }
      case Recover =>
        if !m.up {
          var n := s.RecoverSelf(log);
        }
      case Crash =>
        var n := s.Crash(log);
      case DieInside(j) =>
        var k := NextBundle(log, m.applied);
        if m.up && k.Some? && j <= |log[k.value - 1].events| {
          s.ApplyEvents(log, m.applied, k.value, j);
        }
        var n := s.Crash(log);
    }
  }

  /** The marks are never further apart than a batch. */
  lemma {:induction false} FlushedSoon(log: seq<Record>, ops: seq<Op>)
    ensures var m := Outcome(log, ops); m.applied < m.flushed + MAX_BATCH
    decreases |ops|
  {
    if ops != [] {
      FlushedSoon(log, ops[..|ops| - 1]);
    }
  }

  /**
   * However often the loop applied, committed, handed its state over, recovered or died: if it has its state, that is
   * the state of the log up to the last index it got to; the database has the state of the log up to its own index,
   * which is less than a batch behind.
   */
  method Drive(log: seq<Record>, ops: seq<Op>) returns (s: StateMachine)
    requires Sequenced(log) && |log| < TWO_64
    ensures fresh(s) && Stands(s, log, Outcome(log, ops))
    ensures Durable(s.db, log) && s.db.Index() <= Outcome(log, ops).applied < s.db.Index() + MAX_BATCH
  {
    s := new StateMachine();
    var at := Marks(0, 0, true);
    var i: nat := 0;
    assert ops[..0] == [];
    while i < |ops|
      invariant i <= |ops| && fresh(s) && at == Outcome(log, ops[..i]) && Stands(s, log, at)
    {
      assert ops[..i + 1][..i] == ops[..i];
      at := Do(s, log, at, ops[i]);
      i := i + 1;
    }
    assert ops[..i] == ops;
    FlushedSoon(log, ops);
  }

  /** Wherever such a sequence ended, applying the rest of the log leads to the state of never having stopped. */
  method CatchUp(s: StateMachine, log: seq<Record>, m: Marks, n: nat)
    requires Stands(s, log, m) && Sequenced(log) && m.applied <= n <= |log| < TWO_64
    modifies s
    ensures s.value == ValueAt(log, n)
  {
    var at := Do(s, log, m, Recover);
    s.Replay(log, at.applied, n);
  }

  // ---------------------------------------------------------------- facts

  lemma LastPut(db: Db, batch: seq<Put>, p: Put)
    ensures Write(db, batch + [p]) == match p
                                      case PutValue(v) => Write(db, batch).(value := Some(v))
                                      case PutIndex(i) => Write(db, batch).(index := Some(i))
  {
    assert (batch + [p])[..|batch|] == batch;
  }

  lemma WriteNothing(db: Db)
    ensures Write(db, []) == db
  {
  }

  /** The `i`-th event of record `k` sets the value that follows from the events before it. */
  lemma EventIsNext(log: seq<Record>, k: nat, i: nat)
    requires Sequenced(log) && 0 < k <= |log| && Carries(log[k - 1]) && i < |log[k - 1].events|
    ensures log[k - 1].events[i] == ValueAt(log, k - 1) + i + 1
  {
    EventsPrefix(log, k, |log|);
    var j := ValueAt(log, k - 1) + i;
    assert EventsOf(log, k)[j] == log[k - 1].events[i];
    assert EventsOf(log, |log|)[j] == EventsOf(log, k)[j];
  }
}
