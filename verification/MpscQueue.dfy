/** A queue with one list for many producers and one for the only consumer, swapped when the latter runs empty. */
module MpscQueue {
  datatype Outcome<T> = Item(value: T) | Stopped | Blocked

  /**
   * Each method is one critical section or one step of the consumer, so any interleaving of threads is a sequence of
   * calls. `accepted` is what producers have put in, in the order of their critical sections.
   */
  class Queue<T> {
    var producer: seq<T>
    var consumer: seq<T>
    var size: nat
    var shouldExit: bool
    ghost var accepted: seq<T>
    ghost var delivered: seq<T>

    ghost predicate Valid()
      reads this
    {
      && delivered + consumer + producer == accepted
      && size == |consumer| + |producer|
    }

    constructor ()
      ensures Valid() && accepted == [] && delivered == [] && !shouldExit
    {
      producer, consumer, size, shouldExit := [], [], 0, false;
      accepted, delivered := [], [];
    }

    /** The check in front of the lock. A producer that passes it may enter the lock after shutdown. */
    method MayEnqueue() returns (ok: bool)
      ensures ok <==> !shouldExit
    {
      ok := !shouldExit;
    }

    /** The locked part of enqueue. */
    method Enqueue(t: T) returns (wake: bool)
      requires Valid()
      modifies this
      ensures Valid() && accepted == old(accepted) + [t] && delivered == old(delivered)
      ensures shouldExit == old(shouldExit)
      ensures wake <==> old(producer) == []
    {
      wake := producer == [];
      producer := producer + [t];
      size := size + 1;
      accepted := accepted + [t];
    }

    method Shutdown()
      requires Valid()
      modifies this`shouldExit
      ensures Valid() && shouldExit
    {
      shouldExit := true;
    }

    /**
     * One attempt of dequeue; a blocked attempt is repeated when the consumer is woken. What comes out is the oldest
     * item that has not come out; the queue reports that it is stopped only when nothing is left in either list.
     */
    method Dequeue() returns (r: Outcome<T>)
      requires Valid()
      modifies this
      ensures Valid() && accepted == old(accepted) && shouldExit == old(shouldExit)
      ensures r.Item? <==> old(|delivered| < |accepted|)
      ensures r.Item? ==> delivered == old(delivered) + [old(accepted)[old(|delivered|)]] && r.value == Last(delivered)
      ensures !r.Item? ==> delivered == old(delivered) == accepted && r == if shouldExit then Stopped else Blocked
    {
      if consumer == [] {
        if producer == [] {
          assert delivered + consumer + producer == delivered;
          if shouldExit {
            return Stopped;
          }
          return Blocked;
        }
        assert delivered + consumer + producer == delivered + producer + consumer;
        producer, consumer := consumer, producer;
      }
      size := size - 1;
      r := Item(consumer[0]);
      assert accepted[|delivered|] == consumer[0];
      assert delivered + consumer + producer == (delivered + [consumer[0]]) + consumer[1..] + producer;
      delivered := delivered + [consumer[0]];
      consumer := consumer[1..];
    }
  }

  function Last<T>(s: seq<T>): T
    requires s != []
  {
    s[|s| - 1]
  }

  /** What threads may do: `Knock` is the check of producer `p`, `Enter` its critical section. */
  datatype Call<T> = Knock(p: nat) | Enter(p: nat, value: T) | Get | Stop

  predicate Stops<T>(calls: seq<Call<T>>) {
    exists i | 0 <= i < |calls| :: calls[i].Stop?
  }

  /** The producers that passed the check and have not been inside the lock since. */
  function Admitted<T>(calls: seq<Call<T>>): set<nat> {
    if calls == [] then {}
    else
      var before, c := calls[..|calls| - 1], calls[|calls| - 1];
      match c
      case Knock(p) => if Stops(before) then Admitted(before) else Admitted(before) + {p}
      case Enter(p, _) => Admitted(before) - {p}
      case _ => Admitted(before)
  }

  /** What was put in, in the order of the lock. */
  function Puts<T>(calls: seq<Call<T>>): seq<T> {
    if calls == [] then []
    else
      var before, c := calls[..|calls| - 1], calls[|calls| - 1];
      if c.Enter? && c.p in Admitted(before) then Puts(before) + [c.value] else Puts(before)
  }

  /** How many items have come out: one per `Get` that found one. */
  function Served<T>(calls: seq<Call<T>>): (n: nat)
    ensures n <= |Puts(calls)|
  {
    if calls == [] then 0
    else
      var before, c := calls[..|calls| - 1], calls[|calls| - 1];
      if c.Get? && Served(before) < |Puts(before)| then Served(before) + 1 else Served(before)
  }

  /** What a `Get` after `calls` answers. */
  function Answer<T>(calls: seq<Call<T>>): Outcome<T> {
    if Served(calls) < |Puts(calls)| then Item(Puts(calls)[Served(calls)])
    else if Stops(calls) then Stopped
    else Blocked
  }

  /** The answers of all attempts to dequeue, in order. */
  function Answers<T>(calls: seq<Call<T>>): seq<Outcome<T>> {
    if calls == [] then []
    else
      var before := calls[..|calls| - 1];
      if calls[|calls| - 1].Get? then Answers(before) + [Answer(before)] else Answers(before)
  }

  function Items<T>(answers: seq<Outcome<T>>): seq<T> {
    if answers == [] then []
    else
      var front, a := Items(answers[..|answers| - 1]), answers[|answers| - 1];
      if a.Item? then front + [a.value] else front
  }

  /** The queue, the producers at the lock and the answers are those of `calls`. */
  ghost predicate After<T>(q: Queue<T>, calls: seq<Call<T>>, admitted: set<nat>, got: seq<Outcome<T>>)
    reads q
  {
    && q.Valid() && q.shouldExit == Stops(calls) && admitted == Admitted(calls) && got == Answers(calls)
    && q.accepted == Puts(calls) && q.delivered == Puts(calls)[..Served(calls)]
  }

  method Perform<T>(q: Queue<T>, ghost calls: seq<Call<T>>, c: Call<T>, admitted: set<nat>, got: seq<Outcome<T>>)
    returns (admitted': set<nat>, got': seq<Outcome<T>>)
    requires After(q, calls, admitted, got)
    modifies q
    ensures After(q, calls + [c], admitted', got')
  {
    OneMore(calls, c);
    admitted', got' := admitted, got;
    match c {
      case Knock(p) =>
        var ok := q.MayEnqueue();
        if ok {
          admitted' := admitted + {p};
        }
      case Enter(p, value) =>
        if p in admitted {
          var wake := q.Enqueue(value);
          admitted' := admitted - {p};
        }
      case Get =>
        var r := q.Dequeue();
        got' := got + [r];
      case Stop =>
        q.Shutdown();
    }
  }

  /** Any interleaving of producers, the consumer and shutdown gives each attempt to dequeue its answer. */
  method Interleave<T>(calls: seq<Call<T>>) returns (q: Queue<T>, got: seq<Outcome<T>>)
    ensures fresh(q) && q.Valid() && got == Answers(calls)
    ensures q.accepted == Puts(calls) && q.delivered == Puts(calls)[..Served(calls)]
  {
    q := new Queue<T>();
    got := [];
    var admitted: set<nat> := {};
    var i: nat := 0;
    while i < |calls|
      invariant i <= |calls| && fresh(q) && After(q, calls[..i], admitted, got)
    {
      admitted, got := Perform(q, calls[..i], calls[i], admitted, got);
      assert calls[..i + 1] == calls[..i] + [calls[i]];
      i := i + 1;
    }
    assert calls[..i] == calls;
  }

  lemma OneMore<T>(calls: seq<Call<T>>, c: Call<T>)
    ensures (calls + [c])[..|calls|] == calls
    ensures Stops(calls + [c]) <==> Stops(calls) || c.Stop?
  {
    if c.Stop? {
      assert (calls + [c])[|calls|].Stop?;
    }
    if Stops(calls) {
      var k :| 0 <= k < |calls| && calls[k].Stop?;
      assert (calls + [c])[k].Stop?;
    }
  }

  /** The items among the answers are what was put in, in the order of the lock: none lost, none twice. */
  lemma {:induction false} ItemsInOrder<T>(calls: seq<Call<T>>)
    ensures Items(Answers(calls)) == Puts(calls)[..Served(calls)]
    decreases |calls|
  {
    if calls != [] {
      var before := calls[..|calls| - 1];
      ItemsInOrder(before);
      var old' := Answers(before);
      assert (old' + [Answer(before)])[..|old'|] == old';
    }
  }
}
