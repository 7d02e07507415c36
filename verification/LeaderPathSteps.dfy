/** Every step of every thread keeps the invariant of the path from election to log. */
module LeaderPathSteps {
  import opened RaftTypes
  import opened EventLog
  import opened LeaderPath
  import Pipeline

  // ---------------------------------------------------------------- when the log moves under the other threads

  lemma EalMoves(s: Node, r: Raft)
    requires EalInv(s) && s.raft.stable <= |s.raft.log| && s.raft.stable <= r.stable <= |r.log|
    requires Agree(s.raft.log, r.log, s.raft.stable) && IdsMatch(r.log, |r.log|)
    ensures EalInv(s.(raft := r))
  {
    match s.eal.mode
    case Stopped =>
    case Half(k) => EventsAgree(s.raft.log, r.log, k);
    case Running =>
      Pipeline.LogMoves(s.eal.pipe, s.raft.log, s.raft.stable, r.log, r.stable);
      EventsAgree(s.raft.log, r.log, s.eal.pipe.pos);
  }

  lemma WaitMoves(s: Node, r: Raft)
    requires WaitInv(s) && s.raft.commit <= r.commit <= |r.log| && s.raft.commit <= |s.raft.log|
    requires Agree(s.raft.log, r.log, s.raft.commit)
    ensures WaitInv(s.(raft := r))
  {
  }

  // ---------------------------------------------------------------- the raft thread

  lemma CrownKeeps(s: Node)
    requires Inv(s) && Enabled(s, Crown)
    ensures Inv(Act(s, Crown))
  {
    var s' := Act(s, Crown);
    assert s.raft.term !in s.raft.reigned;
    EalMoves(s, s'.raft);
    WaitMoves(s, s'.raft);
  }

  lemma NoopKeeps(s: Node)
    requires Inv(s) && Enabled(s, AppendNoop)
    ensures Inv(Act(s, AppendNoop))
  {
    var s' := Act(s, AppendNoop);
    EalMoves(s, s'.raft);
    WaitMoves(s, s'.raft);
  }

  lemma DemoteKeeps(s: Node, next: nat)
    requires Inv(s) && Enabled(s, Demote(next))
    ensures Inv(Act(s, Demote(next)))
  {
    var s' := Act(s, Demote(next));
    EalMoves(s, s'.raft);
    WaitMoves(s, s'.raft);
  }

  lemma RaiseKeeps(s: Node, next: nat)
    requires Inv(s) && Enabled(s, RaiseTerm(next))
    ensures Inv(Act(s, RaiseTerm(next)))
  {
    var s' := Act(s, RaiseTerm(next));
    EalMoves(s, s'.raft);
    WaitMoves(s, s'.raft);
  }

  lemma FollowKeeps(s: Node, log: seq<Record>)
    requires Inv(s) && Enabled(s, Follow(log))
    ensures Inv(Act(s, Follow(log)))
  {
    var s' := Act(s, Follow(log));
    EalMoves(s, s'.raft);
    WaitMoves(s, s'.raft);
  }

  lemma CommitKeeps(s: Node, commit: nat, stable: nat)
    requires Inv(s) && Enabled(s, Commit(commit, stable))
    ensures Inv(Act(s, Commit(commit, stable)))
  {
    var s' := Act(s, Commit(commit, stable));
    EalMoves(s, s'.raft);
    WaitMoves(s, s'.raft);
  }

  lemma {:induction false} OfTermAppend(t: nat, a: seq<Request>, b: seq<Request>)
    ensures OfTerm(t, a + b) == OfTerm(t, a) + OfTerm(t, b)
    decreases |a|
  {
    if a == [] {
      assert a + b == b;
    } else {
      OfTermAppend(t, a[1..], b);
      assert (a + b)[1..] == a[1..] + b;
    }
  }

  lemma MatchesTail(qs: seq<Request>, plan: seq<Record>, from: nat)
    requires Matches(qs, plan, from) && qs != []
    ensures Matches(qs[1..], plan, from + 1)
  {
    forall j: nat | j < |qs[1..]|
      ensures && plan[from + 1 + j] == Record(qs[1..][j].term, false, qs[1..][j].id, qs[1..][j].events)
              && qs[1..][j].id == from + 1 + j + 1
              && qs[1..][j].base == EventsOf(plan, from + 1 + j)
    {
      assert qs[1..][j] == qs[j + 1];
    }
  }

  /** The first request of the current term at a leader is the next record of the plan. */
  lemma NextInPlan(s: Node)
    requires Inv(s) && s.raft.leader && s.raft.pc.Free? && s.raft.inbox != [] && s.raft.inbox[0].term == s.raft.term
    ensures var r, c, q := s.raft, s.cpl, s.raft.inbox[0];
            && r.term in c.ready && r.log < c.plan
            && q.id == |r.log| + 1
            && c.plan[|r.log|] == Record(q.term, false, q.id, q.events)
            && q.base == EventsOf(c.plan, |r.log|)
            && Matches(OfTerm(r.term, r.inbox[1..] + c.queue), c.plan, |r.log| + 1)
  {
    var r, c, q := s.raft, s.cpl, s.raft.inbox[0];
    var all := r.inbox + c.queue;
    assert PlanOk(s);
    assert all[0] == q && all[1..] == r.inbox[1..] + c.queue;
    var mine := OfTerm(r.term, all);
    assert mine == [q] + OfTerm(r.term, all[1..]);
    assert mine[0] == q && mine[1..] == OfTerm(r.term, all[1..]);
    MatchesTail(mine, c.plan, |r.log|);
  }

  lemma HandleKeeps(s: Node)
    requires Inv(s) && Enabled(s, HandleRequest)
    ensures Inv(Act(s, HandleRequest))
  {
    var s' := Act(s, HandleRequest);
    HandleKeepsRaft(s);
    HandleKeepsPlan(s);
    EalMoves(s, s'.raft);
    WaitMoves(s, s'.raft);
  }

  lemma HandleKeepsRaft(s: Node)
    requires RaftInv(s.raft) && Enabled(s, HandleRequest)
    ensures RaftInv(Handled(s.raft))
  {
  }

  lemma HandleKeepsPlan(s: Node)
    requires Inv(s) && Enabled(s, HandleRequest)
    ensures PlanInv(Act(s, HandleRequest))
  {
    var s' := Act(s, HandleRequest);
    var r, q := s.raft, s.raft.inbox[0];
    assert forall i | 0 <= i < |s'.raft.inbox| :: s'.raft.inbox[i] == r.inbox[i + 1];
    if r.leader && q.term == r.term {
      NextInPlan(s);
    } else {
      OtherTerm(r.term, r.inbox, s.cpl.queue);
    }
  }

  lemma OtherTerm(t: nat, a: seq<Request>, b: seq<Request>)
    requires a != []
    ensures a[0].term != t ==> OfTerm(t, a[1..] + b) == OfTerm(t, a + b)
  {
    assert (a + b)[1..] == a[1..] + b;
  }

  lemma SendKeeps(s: Node)
    requires Inv(s) && Enabled(s, SendBatch)
    ensures Inv(Act(s, SendBatch))
  {
    var s' := Act(s, SendBatch);
    assert s'.raft.inbox + s'.cpl.queue == s.raft.inbox + s.cpl.queue;
    EalMoves(s, s'.raft);
  }

  // ---------------------------------------------------------------- the command loop

  lemma ReadKeeps(s: Node, step: Step)
    requires Inv(s) && Enabled(s, step) && (step.ReadTerm? || step.ReadRole? || step.ReadTermAgain?)
    ensures Inv(Act(s, step))
  {
  }

  /** Neither assertion of the transition table fails, and a term recorded as led was led. */
  lemma DetectSafe(s: Node)
    requires Inv(s) && s.cpl.pc.SawRole? && s.raft.term == s.cpl.pc.t
    ensures var now := Refresh(s.cpl.seen, s.cpl.pc.t, s.cpl.pc.leader);
            && Detect(s.cpl.checked, now) != Impossible
            && s.cpl.seen.term <= now.term
            && (now.leader ==> now.term in s.raft.reigned)
            && (Detect(s.cpl.checked, now) == SameLeader ==> now.term in s.cpl.ready)
  {
  }

  lemma WaitKeeps(s: Node)
    requires Inv(s) && Enabled(s, WaitStep)
    ensures ReadsInside(s)
    ensures Inv(Act(s, WaitStep))
  {
    var s' := Act(s, WaitStep);
  }

  lemma SwapKeeps(s: Node)
    requires Inv(s) && Enabled(s, Swap)
    ensures Inv(Act(s, Swap))
  {
    var s' := Act(s, Swap);
    var r, c, e, n := s.raft, s.cpl, s.eal, s.cpl.pc.last;
    if r.leader && r.pc.Free? && r.term == c.pc.t {
      SwapIsExact(s);
      NoneOfTerm(r.term, r.inbox + c.queue, c.ready);
      assert r.log[..n] == r.log;
    }
  }

  /** The state handed over to a node that still leads the term is that of its whole log. */
  lemma SwapIsExact(s: Node)
    requires Inv(s) && s.cpl.pc.Ready? && s.raft.leader && s.raft.pc.Free? && s.raft.term == s.cpl.pc.t
    ensures s.cpl.pc.last == s.raft.noop == |s.raft.log|
    ensures s.eal.state == EventsOf(s.raft.log, |s.raft.log|)
  {
    var r, e, n := s.raft, s.eal, s.cpl.pc.last;
    assert r.log[n - 1].term == r.term && |r.log| == r.noop;
    if e.pipe.pos < n {
      QuietStretch(r.log, e.pipe.pos, n);
    }
  }

  lemma {:induction false} NoneOfTerm(t: nat, qs: seq<Request>, ready: set<nat>)
    requires t !in ready && forall i | 0 <= i < |qs| :: qs[i].term in ready
    ensures OfTerm(t, qs) == []
    decreases |qs|
  {
    if qs != [] {
      NoneOfTerm(t, qs[1..], ready);
    }
  }

  lemma ProcessKeeps(s: Node, events: seq<Event>)
    requires Inv(s) && Enabled(s, ProcessCommand(events))
    ensures Inv(Act(s, ProcessCommand(events)))
  {
    var s' := Act(s, ProcessCommand(events));
    var r, c := s.raft, s.cpl;
    if events != [] && r.leader && r.pc.Free? && r.term == c.seen.term {
      var q := Request(c.seen.term, c.lastId + 1, events, c.state);
      QueueGrows(r.term, r.inbox, c.queue, q);
      PlanGrows(OfTerm(r.term, r.inbox + c.queue), c.plan, |r.log|, q);
    }
  }

  lemma QueueGrows(t: nat, inbox: seq<Request>, queue: seq<Request>, q: Request)
    requires q.term == t
    ensures OfTerm(t, inbox + (queue + [q])) == OfTerm(t, inbox + queue) + [q]
  {
    assert inbox + (queue + [q]) == (inbox + queue) + [q];
    OfTermAppend(t, inbox + queue, [q]);
    assert OfTerm(t, [q][1..]) == [];
  }

  lemma PlanGrows(qs: seq<Request>, plan: seq<Record>, from: nat, q: Request)
    requires Matches(qs, plan, from) && q.id == |plan| + 1 && q.base == EventsOf(plan, |plan|) && q.events != []
    ensures var more := plan + [Record(q.term, false, q.id, q.events)];
            && Matches(qs + [q], more, from)
            && EventsOf(more, |more|) == EventsOf(plan, |plan|) + q.events
  {
    var more := plan + [Record(q.term, false, q.id, q.events)];
    forall n: nat | n <= |plan| ensures EventsOf(more, n) == EventsOf(plan, n) {
      EventsAgree(plan, more, n);
    }
    assert forall j: nat | j < |qs| :: (qs + [q])[j] == qs[j];
  }

  // ---------------------------------------------------------------- the apply loop

  lemma RecoverKeeps(s: Node, offset: nat)
    requires Inv(s) && Enabled(s, Recover(offset))
    ensures Inv(Act(s, Recover(offset)))
  {
  }

  lemma StartKeeps(s: Node)
    requires Inv(s) && Enabled(s, StartLoading)
    ensures Inv(Act(s, StartLoading))
  {
    Pipeline.StartInv(s.raft.log, s.raft.stable, s.eal.mode.offset);
  }

  lemma PipeKeeps(s: Node, step: Pipeline.Step)
    requires Inv(s) && Enabled(s, Pipe(step))
    ensures Inv(Act(s, Pipe(step)))
  {
    PipeKeepsEal(s, step);
    PipeKeepsWait(s, step);
  }

  lemma PipeKeepsEal(s: Node, step: Pipeline.Step)
    requires Inv(s) && Enabled(s, Pipe(step))
    ensures EalInv(Act(s, Pipe(step)))
  {
    Pipeline.StepKeeps(s.eal.pipe, s.raft.log, s.raft.commit, s.raft.stable, step);
    if step.Take? {
      Pipeline.TakeEvents(s.eal.pipe, s.raft.log, s.raft.stable);
    }
  }

  lemma PipeKeepsWait(s: Node, step: Pipeline.Step)
    requires Inv(s) && Enabled(s, Pipe(step))
    ensures WaitInv(Act(s, Pipe(step)))
  {
    if step.Take? {
      Pipeline.TakeEvents(s.eal.pipe, s.raft.log, s.raft.stable);
    }
  }

  // ---------------------------------------------------------------- all together

  lemma StepKeeps(s: Node, step: Step)
    requires Inv(s) && Enabled(s, step)
    ensures Inv(Act(s, step))
  {
    match step
    case Crown => CrownKeeps(s);
    case AppendNoop => NoopKeeps(s);
    case Demote(next) => DemoteKeeps(s, next);
    case RaiseTerm(next) => RaiseKeeps(s, next);
    case Follow(log) => FollowKeeps(s, log);
    case Commit(commit, stable) => CommitKeeps(s, commit, stable);
    case HandleRequest => HandleKeeps(s);
    case SendBatch => SendKeeps(s);
    case ReadTerm => ReadKeeps(s, step);
    case ReadRole => ReadKeeps(s, step);
    case ReadTermAgain => ReadKeeps(s, step);
    case WaitStep => WaitKeeps(s);
    case Swap => SwapKeeps(s);
    case ProcessCommand(events) => ProcessKeeps(s, events);
    case Recover(offset) => RecoverKeeps(s, offset);
    case StartLoading => StartKeeps(s);
    case Pipe(step) => PipeKeeps(s, step);
  }
}
