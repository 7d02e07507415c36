/** What holds at every moment of every run of a node's threads. */
module LeaderPathSafety {
  import opened EventLog
  import opened LeaderPath
  import opened LeaderPathSteps

  /** A state in which every step is defined: no read of the log has left it. */
  predicate Defined(s: Node) {
    && s.raft.commit <= s.raft.stable <= |s.raft.log|
    && ReadsInside(s)
    && (s.cpl.pc.Ready? ==> s.cpl.pc.last <= |s.raft.log|)
  }

  /** Any interleaving of the threads, for as long as every step is defined. */
  ghost predicate Run(ss: seq<Node>, steps: seq<Step>) {
    && |ss| == |steps| + 1
    && Init(ss[0])
    && forall i: nat {:trigger Moves(ss, steps, i)} | i < |steps| :: Moves(ss, steps, i)
  }

  ghost predicate Moves(ss: seq<Node>, steps: seq<Step>, i: nat)
    requires i < |steps| && |ss| == |steps| + 1
  {
    Enabled(ss[i], steps[i]) && Defined(ss[i]) && ss[i + 1] == Act(ss[i], steps[i])
  }

  lemma {:induction false} RunInv(ss: seq<Node>, steps: seq<Step>, i: nat)
    requires Run(ss, steps) && i < |ss|
    ensures Inv(ss[i]) && Defined(ss[i])
    decreases i
  {
    if i == 0 {
      InitInv(ss[0]);
    } else {
      RunInv(ss, steps, i - 1);
      assert Moves(ss, steps, i - 1);
      StepKeeps(ss[i - 1], steps[i - 1]);
    }
  }

  /**
   * When the waiting loop returns `n` for term `t`, record `n` is a committed no-op of `t`, and the apply loop has
   * applied all events of the log up to some index at or behind `n`, and no others.
   */
  lemma ReadyMeansApplied(ss: seq<Node>, steps: seq<Step>, i: nat)
    requires Run(ss, steps) && i < |ss| && ss[i].cpl.pc.Ready?
    ensures var r, e, n := ss[i].raft, ss[i].eal, ss[i].cpl.pc.last;
            && 0 < n <= r.commit <= |r.log|
            && r.log[n - 1].noop && r.log[n - 1].term == ss[i].cpl.pc.t
            && exists k: nat :: n <= k <= |r.log| && e.state == EventsOf(r.log, k)
  {
    RunInv(ss, steps, i);
    var r, e, n := ss[i].raft, ss[i].eal, ss[i].cpl.pc.last;
    if e.pipe.pos < n {
      QuietStretch(r.log, e.pipe.pos, n);
      assert e.state == EventsOf(r.log, n);
    } else {
      assert e.state == EventsOf(r.log, e.pipe.pos);
    }
  }

  /** A command is processed only in a term for which the loop has waited and taken over the state. */
  lemma ProcessedOnlyWhenPrepared(ss: seq<Node>, steps: seq<Step>, i: nat) returns (j: nat)
    requires Run(ss, steps) && i < |ss| && ss[i].cpl.pc.Process?
    ensures j < i && steps[j].Swap? && ss[j].cpl.pc.Ready? && ss[j].cpl.pc.t == ss[i].cpl.seen.term
    ensures ss[i].cpl.seen.term in ss[i].raft.reigned
  {
    RunInv(ss, steps, i);
    j := WasSwapped(ss, steps, i, ss[i].cpl.seen.term);
  }

  lemma {:induction false} WasSwapped(ss: seq<Node>, steps: seq<Step>, i: nat, t: nat) returns (j: nat)
    requires Run(ss, steps) && i < |ss| && t in ss[i].cpl.ready
    ensures j < i && steps[j].Swap? && ss[j].cpl.pc.Ready? && ss[j].cpl.pc.t == t
    decreases i
  {
    assert i > 0;
    assert Moves(ss, steps, i - 1);
    if t in ss[i - 1].cpl.ready {
      j := WasSwapped(ss, steps, i - 1, t);
    } else {
      j := i - 1;
    }
  }

  lemma {:induction false} WasCrowned(ss: seq<Node>, steps: seq<Step>, i: nat, t: nat) returns (j: nat)
    requires Run(ss, steps) && i < |ss| && t in ss[i].raft.reigned
    ensures j < i && steps[j].Crown? && ss[j].raft.term == t
    decreases i
  {
    assert i > 0;
    assert Moves(ss, steps, i - 1);
    if t in ss[i - 1].raft.reigned {
      j := WasCrowned(ss, steps, i - 1, t);
    } else {
      j := i - 1;
    }
  }

  /**
   * A command of the leader's own term that reaches it is the next record of its log: its id is the index it gets,
   * and it was processed on exactly the state of the log in front of it.
   */
  lemma CommandsMeetTheirIndex(ss: seq<Node>, steps: seq<Step>, i: nat)
    requires Run(ss, steps) && i < |steps| && steps[i].HandleRequest?
    requires ss[i].raft.inbox != [] && ss[i].raft.leader && ss[i].raft.inbox[0].term == ss[i].raft.term
    ensures var r, q := ss[i].raft, ss[i].raft.inbox[0];
            && q.id == |r.log| + 1
            && q.base == EventsOf(r.log, |r.log|)
            && ss[i + 1].raft.log == r.log + [Record(q.term, false, q.id, q.events)]
  {
    RunInv(ss, steps, i);
    assert Moves(ss, steps, i);
    var r, c := ss[i].raft, ss[i].cpl;
    NextInPlan(ss[i]);
    EventsAgree(r.log, c.plan, |r.log|);
  }

  /** While a term lasts, the leader's log is the no-op and an in-order prefix of the commands planned in that term. */
  lemma LogFollowsPlan(ss: seq<Node>, steps: seq<Step>, i: nat)
    requires Run(ss, steps) && i < |ss| && ss[i].raft.leader && ss[i].raft.pc.Free?
    ensures var r, c := ss[i].raft, ss[i].cpl;
            if r.term in c.ready
            then r.noop <= |r.log| && r.log <= c.plan && c.lastId == |c.plan| && c.state == EventsOf(c.plan, |c.plan|)
            else |r.log| == r.noop
  {
    RunInv(ss, steps, i);
  }

  /** Records with events have their index as id: those this node appended, and those of the logs it followed. */
  lemma IdsMatchIndices(ss: seq<Node>, steps: seq<Step>, i: nat)
    requires Run(ss, steps) && i < |ss|
    ensures IdsMatch(ss[i].raft.log, |ss[i].raft.log|)
  {
    RunInv(ss, steps, i);
  }

  /** A leadership is recorded only for a term that this node led, and only as long as it has not seen a later one. */
  lemma RecordedLeadershipIsReal(ss: seq<Node>, steps: seq<Step>, i: nat) returns (j: nat)
    requires Run(ss, steps) && i < |ss| && ss[i].cpl.seen.leader
    ensures j < i && steps[j].Crown? && ss[j].raft.term == ss[i].cpl.seen.term
  {
    RunInv(ss, steps, i);
    j := WasCrowned(ss, steps, i, ss[i].cpl.seen.term);
  }

  lemma {:induction false} RecordedTermGrows(ss: seq<Node>, steps: seq<Step>, i: nat, j: nat)
    requires Run(ss, steps) && i <= j < |ss|
    ensures ss[i].cpl.seen.term <= ss[j].cpl.seen.term
    ensures ss[i].cpl.seen.leader && ss[i].cpl.seen.term == ss[j].cpl.seen.term ==> ss[j].cpl.seen.leader
    decreases j
  {
    if i < j {
      RecordedTermGrows(ss, steps, i, j - 1);
      RunInv(ss, steps, j - 1);
      assert Moves(ss, steps, j - 1);
    }
  }

  /** The transition table never meets a case it declares impossible. */
  lemma TransitionsPossible(ss: seq<Node>, steps: seq<Step>, i: nat)
    requires Run(ss, steps) && i < |steps| && steps[i].ReadTermAgain?
    requires ss[i].cpl.pc.SawRole? && ss[i].raft.term == ss[i].cpl.pc.t
    ensures Detect(ss[i].cpl.checked, Refresh(ss[i].cpl.seen, ss[i].cpl.pc.t, ss[i].cpl.pc.leader)) != Impossible
  {
    RunInv(ss, steps, i);
    assert Moves(ss, steps, i);
    DetectSafe(ss[i]);
  }
}
