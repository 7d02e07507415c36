/** The log as the application sees it: no-ops, and commands with the events they caused. */
module EventLog {
  /** What an event does is up to the application; a state is given by the events applied to it, in order. */
  type Event = int

  datatype Record = Record(term: nat, noop: bool, id: nat, events: seq<Event>)

  datatype Bundle = Bundle(id: nat, events: seq<Event>)

  predicate Carries(e: Record) {
    !e.noop && e.events != []
  }

  /** The bundles decoded from the records behind position `from`, up to position `upTo`. */
  function Bundles(log: seq<Record>, from: nat, upTo: nat): seq<Bundle>
    requires from <= upTo <= |log|
    decreases upTo
  {
    if from == upTo then []
    else
      var e := log[upTo - 1];
      if Carries(e) then Bundles(log, from, upTo - 1) + [Bundle(e.id, e.events)] else Bundles(log, from, upTo - 1)
  }

  /** The events of the first `n` records. */
  function EventsOf(log: seq<Record>, n: nat): seq<Event>
    requires n <= |log|
  {
    if n == 0 then []
    else if Carries(log[n - 1]) then EventsOf(log, n - 1) + log[n - 1].events
    else EventsOf(log, n - 1)
  }

  /** Commands carry their log index as id. */
  predicate IdsMatch(log: seq<Record>, n: nat)
    requires n <= |log|
  {
    forall i {:trigger Carries(log[i])} | 0 <= i < n && Carries(log[i]) :: log[i].id == i + 1
  }

  predicate Quiet(log: seq<Record>, from: nat, upTo: nat)
    requires upTo <= |log|
  {
    forall i {:trigger Carries(log[i])} | from <= i < upTo :: !Carries(log[i])
  }

  /** The two logs agree on the first `n` records. */
  predicate Agree(log: seq<Record>, log': seq<Record>, n: nat)
    requires n <= |log| && n <= |log'|
  {
    forall i {:trigger log[i]} {:trigger log'[i]} | 0 <= i < n :: log[i] == log'[i]
  }

  lemma {:induction false} BundlesSplit(log: seq<Record>, a: nat, b: nat, c: nat)
    requires a <= b <= c <= |log|
    ensures Bundles(log, a, c) == Bundles(log, a, b) + Bundles(log, b, c)
    decreases c
  {
    if b < c {
      BundlesSplit(log, a, b, c - 1);
    }
  }

  /** A stretch that was copied out of the log decodes alike. */
  lemma {:induction false} BundlesOfCopy(log: seq<Record>, a: nat, b: nat, n: nat)
    requires a <= b <= |log| && n <= b - a
    ensures Bundles(log[a..b], 0, n) == Bundles(log, a, a + n)
    decreases n
  {
    if n > 0 {
      BundlesOfCopy(log, a, b, n - 1);
    }
  }

  lemma {:induction false} BundlesAgree(log: seq<Record>, log': seq<Record>, a: nat, b: nat)
    requires a <= b <= |log| && b <= |log'| && Agree(log, log', b)
    ensures Bundles(log, a, b) == Bundles(log', a, b)
    decreases b
  {
    if a < b {
      BundlesAgree(log, log', a, b - 1);
    }
  }

  lemma {:induction false} EventsAgree(log: seq<Record>, log': seq<Record>, n: nat)
    requires n <= |log| && n <= |log'| && Agree(log, log', n)
    ensures EventsOf(log, n) == EventsOf(log', n)
    decreases n
  {
    if n > 0 {
      EventsAgree(log, log', n - 1);
    }
  }

  lemma {:induction false} EventsPrefix(log: seq<Record>, n: nat, m: nat)
    requires n <= m <= |log|
    ensures EventsOf(log, n) <= EventsOf(log, m)
    decreases m
  {
    if n < m {
      EventsPrefix(log, n, m - 1);
    }
  }

  /** Nothing comes out of a stretch that carries nothing. */
  lemma {:induction false} QuietStretch(log: seq<Record>, a: nat, b: nat)
    requires a <= b <= |log| && Quiet(log, a, b)
    ensures EventsOf(log, b) == EventsOf(log, a) && Bundles(log, a, b) == []
    decreases b
  {
    if a < b {
      QuietStretch(log, a, b - 1);
    }
  }

  /** The first bundle behind `from` is that of the first record that carries events; its id is its index. */
  lemma {:induction false} FirstBundle(log: seq<Record>, from: nat, upTo: nat) returns (k: nat)
    requires from <= upTo <= |log| && IdsMatch(log, upTo) && Bundles(log, from, upTo) != []
    ensures from < k <= upTo && Carries(log[k - 1]) && Quiet(log, from, k - 1)
    ensures Bundles(log, from, upTo)[0] == Bundle(k, log[k - 1].events)
    ensures Bundles(log, from, k) == [Bundles(log, from, upTo)[0]]
    ensures Bundles(log, from, upTo) == [Bundles(log, from, upTo)[0]] + Bundles(log, k, upTo)
    decreases upTo
  {
    if Bundles(log, from, upTo - 1) == [] {
      assert Carries(log[upTo - 1]);
      k := upTo;
      EmptyIsQuiet(log, from, upTo - 1);
    } else {
      k := FirstBundle(log, from, upTo - 1);
      BundlesSplit(log, from, k, upTo);
    }
  }

  lemma {:induction false} EmptyIsQuiet(log: seq<Record>, from: nat, upTo: nat)
    requires from <= upTo <= |log| && Bundles(log, from, upTo) == []
    ensures Quiet(log, from, upTo)
    decreases upTo
  {
    if from < upTo {
      EmptyIsQuiet(log, from, upTo - 1);
    }
  }

  /** The bundle is that of the record at the index which is its id. */
  predicate Comes(log: seq<Record>, from: nat, upTo: nat, b: Bundle)
    requires upTo <= |log|
  {
    from < b.id <= upTo && Carries(log[b.id - 1]) && b.events == log[b.id - 1].events
  }

  predicate InOrder(log: seq<Record>, from: nat, upTo: nat, bs: seq<Bundle>)
    requires upTo <= |log|
  {
    && (forall i | 0 <= i < |bs| :: Comes(log, from, upTo, bs[i]))
    && (forall i, j | 0 <= i < j < |bs| :: bs[i].id < bs[j].id)
  }

  /** Bundles come out in index order, each at most once. */
  lemma {:induction false} BundlesOrdered(log: seq<Record>, from: nat, upTo: nat)
    requires from <= upTo <= |log| && IdsMatch(log, upTo)
    ensures InOrder(log, from, upTo, Bundles(log, from, upTo))
    decreases upTo
  {
    if from < upTo {
      BundlesOrdered(log, from, upTo - 1);
      OrderGrows(log, from, upTo, Bundles(log, from, upTo - 1));
    }
  }

  lemma OrderGrows(log: seq<Record>, from: nat, upTo: nat, bs: seq<Bundle>)
    requires from < upTo <= |log| && InOrder(log, from, upTo - 1, bs)
    ensures InOrder(log, from, upTo, bs)
    ensures Carries(log[upTo - 1]) ==> InOrder(log, from, upTo, bs + [Bundle(upTo, log[upTo - 1].events)])
  {
    assert forall i | 0 <= i < |bs| :: Comes(log, from, upTo - 1, bs[i]);
  }

  /** Every record that carries events comes out. */
  lemma {:induction false} BundlesComplete(log: seq<Record>, from: nat, upTo: nat, i: nat)
    requires from <= i < upTo <= |log| && IdsMatch(log, upTo) && Carries(log[i])
    ensures Bundle(i + 1, log[i].events) in Bundles(log, from, upTo)
    decreases upTo
  {
    if i < upTo - 1 {
      BundlesComplete(log, from, upTo - 1, i);
    }
  }
}
