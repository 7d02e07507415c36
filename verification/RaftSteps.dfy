/** Every step of a cluster keeps its invariant, extends its history and trips no assertion but one. */
module RaftSteps {
  import opened RaftTypes
  import opened Quorum
  import opened RaftNode
  import opened RaftLedger
  import opened RaftCluster

  // ---------------------------------------------------------------- facts about one node

  lemma CommitOkLess(c: Config, h: History, log: seq<Entry>, n: nat, m: nat, bound: nat)
    requires CommitOk(c, h, log, n, bound) && m <= n
    ensures CommitOk(c, h, log, m, bound)
  {
    if m > 0 {
      var t: nat, i: nat :| t <= bound && n <= i && Committed(c, h, t, i) && log[..n] == Take(LogOf(h, t), n);
      TakeShorter(log, LogOf(h, t), n, m);
    }
  }

  lemma StepDownOk(c: Config, h: History, v: nat, n: Node, newTerm: nat)
    requires HistoryOk(c, h) && NodeOk(c, h, v, n) && RoleOk(c, h, v, n) && n.term < newTerm
    ensures NodeOk(c, h, v, StepDown(n, newTerm)) && RoleOk(c, h, v, StepDown(n, newTerm))
  {
    AdoptTerm(c, h, v, n, StepDown(n, newTerm));
  }

  /** Standing for the next term: the node votes for itself and has no other vote yet. */
  lemma StandOk(c: Config, s: Cluster, v: nat)
    requires Inv(c, s) && v in s.nodes
    requires s.nodes[v].role.Follower? || s.nodes[v].role.Candidate? || s.nodes[v].role.PreCandidate?
    ensures var n' := StandForElection(v, s.nodes[v]);
            var h' := Cast(s.history, v, n', v);
            && HistoryOk(c, h') && NodeOk(c, h', v, n') && RoleOk(c, h', v, n')
            && Own(s.history, h', v) && FairVote(s, h', v)
  {
    var h, n := s.history, s.nodes[v];
    assert NodeOk(c, h, v, n) && RoleOk(c, h, v, n);
    var n' := StandForElection(v, n);
    var h' := Cast(h, v, n', v);
    AdoptTerm(c, h, v, n, n'.(vote := 0));
    CastKeeps(c, h, v, n'.(vote := 0), n', v);
    StandRole(c, h, v, n);
    QuietFair(c, s, v);
    forall u: nat, t: nat | u in s.nodes && u != v && VotedFor(h', t, v, u) ensures VotedFor(h, t, v, u) {}
  }

  lemma StandRole(c: Config, h: History, v: nat, n: Node)
    requires RoleOk(c, h, v, n) && (n.role.Follower? || n.role.Candidate? || n.role.PreCandidate?)
    ensures RoleOk(c, Cast(h, v, StandForElection(v, n), v), v, StandForElection(v, n))
  {
    var n' := StandForElection(v, n);
    var h' := Cast(h, v, n', v);
    forall u: nat, t: nat | VotedFor(h', t, u, v) ensures t <= n'.term && (t == n'.term ==> u == v) {
      if (t, u) != (n'.term, v) {
        assert VotedFor(h, t, u, v);
      }
    }
  }

  /** The first request of a leader turns a node into its follower. */
  lemma FollowOk(c: Config, h: History, v: nat, n: Node, src: nat, req: AppendRequest)
    requires HistoryOk(c, h) && NodeOk(c, h, v, n) && RoleOk(c, h, v, n)
    requires AppendCallOk(c, h, src, req) && src != v && n.term <= req.term && src != 0
    ensures !(n.term == req.term && (n.role.Candidate? || n.role.PreCandidate?) && n.leaderId != 0)
    ensures var n1 := FollowLeader(n, req);
            && NodeOk(c, h, v, n1) && RoleOk(c, h, v, n1) && CallerKeeps(n, n1, false)
            && n1.term == req.term && n1.leaderId == req.leaderId && n1.log == n.log
            && !n1.role.Leader? && !n1.role.Candidate?
  {
    if n.term < req.term {
      StepDownOk(c, h, v, n, req.term);
    }
  }

  lemma TakeInOrderContinues(log: seq<Entry>, term: nat, es: seq<Entry>)
    ensures Continues(log, log + TakeInOrder(term, |log| + 1, es), term)
  {
    TakeInOrderIndices(term, |log| + 1, es);
  }

  lemma {:induction false} TakeInOrderIndices(term: nat, next: nat, es: seq<Entry>)
    ensures forall k | 0 <= k < |TakeInOrder(term, next, es)| ::
              TakeInOrder(term, next, es)[k].term == term && TakeInOrder(term, next, es)[k].index == next + k
    decreases |es|
  {
    if es != [] {
      TakeInOrderIndices(term, next + 1, es[1..]);
      TakeInOrderIndices(term, next, es[1..]);
    }
  }

  // ---------------------------------------------------------------- elections

  lemma TimeOutKeeps(c: Config, s: Cluster, step: Step)
    requires Inv(c, s) && step.TimeOut? && Enabled(c, s, step)
    ensures Inv(c, After(c, s, step)) && Grows(s.history, After(c, s, step).history)
  {
    var v := step.v;
    var n, s' := s.nodes[v], After(c, s, step);
    assert NodeOk(c, s.history, v, n) && RoleOk(c, s.history, v, n);
    if s'.nodes[v].term > n.term {
      StandOk(c, s, v);
      LocalStep(c, s, s', v, false);
    } else {
      QuietStep(c, s, s', v);
    }
  }

  lemma WinPrevoteKeeps(c: Config, s: Cluster, step: Step)
    requires Inv(c, s) && step.WinPrevote? && Enabled(c, s, step)
    ensures Inv(c, After(c, s, step)) && Grows(s.history, After(c, s, step).history)
  {
    var v := step.v;
    var n, s' := s.nodes[v], After(c, s, step);
    assert NodeOk(c, s.history, v, n) && RoleOk(c, s.history, v, n);
    if s'.nodes[v].term > n.term {
      StandOk(c, s, v);
      LocalStep(c, s, s', v, false);
    } else {
      QuietStep(c, s, s', v);
    }
  }

  /** Election safety, the step: a candidate that wins is the first leader of its term. */
  lemma FirstLeader(c: Config, h: History, v: nat, n: Node)
    requires HistoryOk(c, h) && NodeOk(c, h, v, n) && RoleOk(c, h, v, n) && v != 0
    requires WinsElection(c, v, n)
    ensures n.term !in h.reigns
    ensures forall u | u in VotesHeld(v, n.peers) ::
              && IsVoter(c, u) && VotedFor(h, n.term, u, v)
              && UpToDate(|n.log|, LastTerm(n.log), h.ballots[(n.term, u)].log)
  {
    var votes := VotesHeld(v, n.peers);
    forall u | u in votes ensures IsVoter(c, u) && VotedFor(h, n.term, u, v) {}
    if n.term in h.reigns {
      assert ReignOk(c, h, n.term);
      var x := VoteMeetsVote(c, h.reigns[n.term].quorum, votes);
      assert false;
    }
  }

  lemma CrownedRole(c: Config, h: History, v: nat, n: Node)
    requires RoleOk(c, h, v, n) && v != 0 && WinsElection(c, v, n) && n.term !in h.reigns
    ensures var n' := BecomeLeader(c, v, n);
            var h' := Crown(h, v, n.term, VotesHeld(v, n.peers), n.log, n'.log);
            RoleOk(c, h', v, n')
  {
    var n' := BecomeLeader(c, v, n);
    var h' := Crown(h, v, n.term, VotesHeld(v, n.peers), n.log, n'.log);
    forall t: nat, u: nat | VotedFor(h', t, u, v) ensures t <= n'.term { assert VotedFor(h, t, u, v); }
    forall p | p in n'.peers ensures PeerOk(h', n', p) {}
  }

  lemma SameBallotsFair(c: Config, s: Cluster, h': History, v: nat)
    requires NodesOk(c, s) && h'.ballots == s.history.ballots
    ensures FairVote(s, h', v)
  {
    QuietFair(c, s, v);
    forall u: nat, t: nat | VotedFor(h', t, v, u) ensures VotedFor(s.history, t, v, u) {}
  }

  lemma CrownStep(c: Config, s: Cluster, s': Cluster, v: nat)
    requires Inv(c, s) && v in s.nodes && WinsElection(c, v, s.nodes[v])
    requires var n := s.nodes[v];
             var n' := BecomeLeader(c, v, n);
             s' == s.(nodes := s.nodes[v := n'],
                      history := Crown(s.history, v, n.term, VotesHeld(v, n.peers), n.log, n'.log))
    ensures Inv(c, s') && Grows(s.history, s'.history)
  {
    var h, n, h', n' := s.history, s.nodes[v], s'.history, s'.nodes[v];
    assert NodeOk(c, h, v, n) && RoleOk(c, h, v, n);
    FirstLeader(c, h, v, n);
    CrownKeeps(c, h, v, n, n', VotesHeld(v, n.peers));
    CrownedRole(c, h, v, n);
    SameBallotsFair(c, s, h', v);
    OwnAck(h, h', v, n.term);
    LocalStep(c, s, s', v, false);
  }

  /** Changes to the reign and the ack of one term of `v` concern only `v`. */
  lemma OwnAck(h: History, h': History, v: nat, term: nat)
    requires Grows(h, h') && h'.ballots == h.ballots
    requires forall t: nat | t in h'.reigns && t != term :: t in h.reigns && h'.reigns[t] == h.reigns[t]
    requires term in h'.reigns && (h'.reigns[term].id == v || h'.reigns == h.reigns)
    requires forall t: nat, u: nat | (t, u) in h'.acked && (t, u) != (term, v) ::
               (t, u) in h.acked && h'.acked[(t, u)] == h.acked[(t, u)]
    ensures Own(h, h', v)
  {
  }

  lemma WinElectionKeeps(c: Config, s: Cluster, step: Step)
    requires Inv(c, s) && step.WinElection? && Enabled(c, s, step)
    ensures Inv(c, After(c, s, step)) && Grows(s.history, After(c, s, step).history)
  {
    var v := step.v;
    var s' := After(c, s, step);
    if WinsElection(c, v, s.nodes[v]) {
      CrownStep(c, s, s', v);
    } else {
      assert NodeOk(c, s.history, v, s.nodes[v]) && RoleOk(c, s.history, v, s.nodes[v]);
      QuietStep(c, s, s', v);
    }
  }

  lemma LoseAuthorityKeeps(c: Config, s: Cluster, step: Step)
    requires Inv(c, s) && step.LoseAuthority? && Enabled(c, s, step)
    ensures Inv(c, After(c, s, step)) && Grows(s.history, After(c, s, step).history)
  {
    var v := step.v;
    var n, s' := s.nodes[v], After(c, s, step);
    assert NodeOk(c, s.history, v, n) && RoleOk(c, s.history, v, n);
    if n.role.Leader? {
      StepDownOk(c, s.history, v, n, n.term + 1);
    }
    QuietStep(c, s, s', v);
  }

  // ---------------------------------------------------------------- sending

  lemma BuildAppendOk(c: Config, h: History, v: nat, n: Node, p: nat, batch: nat)
    requires NodeOk(c, h, v, n) && n.role.Leader? && LeaderOk(h, v, n) && IsVoter(c, v)
    requires p in n.peers && n.peers[p].nextIndex > 0
    ensures AppendCallOk(c, h, v, BuildAppend(v, n, p, batch))
  {
    var r := BuildAppend(v, n, p, batch);
    assert PeerOk(h, n, p);
    CommitOkLess(c, h, n.log, n.commitIndex, r.commitIndex, n.term);
  }

  lemma SendAppendKeeps(c: Config, s: Cluster, step: Step)
    requires Inv(c, s) && step.SendAppend? && Enabled(c, s, step)
    ensures Inv(c, After(c, s, step)) && Grows(s.history, After(c, s, step).history)
  {
    var v, p := step.v, step.peer;
    var n, s' := s.nodes[v], After(c, s, step);
    assert NodeOk(c, s.history, v, n) && RoleOk(c, s.history, v, n);
    BuildAppendOk(c, s.history, v, n, p, step.batch);
    var mid := s.(nodes := s'.nodes);
    var n' := s'.nodes[v];
    forall q | q in n'.peers ensures PeerOk(s.history, n', q) { assert PeerOk(s.history, n, q); }
    QuietStep(c, s, mid, v);
    AddCall(c, mid, s', step.id, Call(v, p, AppendCall(BuildAppend(v, n, p, step.batch))));
  }

  lemma SendVoteKeeps(c: Config, s: Cluster, step: Step)
    requires Inv(c, s) && step.SendVote? && Enabled(c, s, step)
    ensures Inv(c, After(c, s, step)) && Grows(s.history, After(c, s, step).history)
  {
    var v := step.v;
    var n, s' := s.nodes[v], After(c, s, step);
    assert RoleOk(c, s.history, v, n);
    assert s'.nodes == s.nodes;
    AddCall(c, s, s', step.id, Call(v, step.peer, VoteCall(BuildVote(v, n))));
  }

  // ---------------------------------------------------------------- serving

  lemma CommitChange(c: Config, h: History, v: nat, n: Node, x: nat)
    requires NodeOk(c, h, v, n) && CommitOk(c, h, n.log, x, n.term)
    ensures NodeOk(c, h, v, n.(commitIndex := x))
  {
  }

  lemma CommitOkMoves(c: Config, h: History, h': History, lead: seq<Entry>, log: seq<Entry>, m: nat, n: nat, bound: nat)
    requires Grows(h, h') && m <= |lead| && lead[..m] <= log && n <= m && CommitOk(c, h, lead, n, bound)
    ensures CommitOk(c, h', log, n, bound)
  {
    assert lead[..n] == lead[..m][..n] == log[..n];
    CommitOkGrows(c, h, h', lead, log, n, bound, bound);
  }

  /** `n'` is `n` after it took the first `m` entries of its leader's log and maybe `x` as commit index. */
  predicate Took(h: History, n: Node, n': Node, m: nat, x: nat) {
    && m <= |LogOf(h, n.term)|
    && (n'.commitIndex == n.commitIndex || n'.commitIndex == x)
    && n' == n.(log := Adopt(n.log, LogOf(h, n.term)[..m]), commitIndex := n'.commitIndex)
  }

  lemma TookStored(c: Config, h: History, v: nat, n: Node, n': Node, m: nat, x: nat)
    requires HistoryOk(c, h) && NodeOk(c, h, v, n) && n.term in h.reigns && Took(h, n, n', m, x)
    requires x <= m && CommitOk(c, h, LogOf(h, n.term), x, n.term)
    ensures var h' := Acknowledge(h, n.term, v, m);
            Grows(h, h') && HistoryOk(c, h') && NodeOk(c, h', v, n')
  {
    var n2 := n.(log := n'.log);
    AdoptKeeps(c, h, v, n, n2, m);
    var h' := Acknowledge(h, n.term, v, m);
    CommitOkMoves(c, h, h', LogOf(h, n.term), n2.log, m, x, n.term);
    CommitChange(c, h', v, n2, x);
  }

  lemma AckedRole(c: Config, h: History, v: nat, n: Node, n': Node, m: nat)
    requires RoleOk(c, h, v, n) && !n.role.Leader? && !n.role.Candidate?
    requires n' == n.(log := n'.log, commitIndex := n'.commitIndex)
    ensures RoleOk(c, Acknowledge(h, n.term, v, m), v, n')
  {
    var h' := Acknowledge(h, n.term, v, m);
    forall t: nat, u: nat | VotedFor(h', t, u, v) ensures t <= n'.term { assert VotedFor(h, t, u, v); }
  }

  lemma TookStep(c: Config, s: Cluster, s': Cluster, v: nat, n: Node, m: nat, x: nat)
    requires Inv(c, s) && v in s.nodes && v in s'.nodes && CallerKeeps(s.nodes[v], n, false)
    requires NodeOk(c, s.history, v, n) && RoleOk(c, s.history, v, n) && !n.role.Leader? && !n.role.Candidate?
    requires n.term in s.history.reigns && Took(s.history, n, s'.nodes[v], m, x)
    requires x <= m && CommitOk(c, s.history, LogOf(s.history, n.term), x, n.term)
    requires s' == s.(nodes := s.nodes[v := s'.nodes[v]], history := Acknowledge(s.history, n.term, v, m))
    ensures Inv(c, s') && Grows(s.history, s'.history)
  {
    TookStored(c, s.history, v, n, s'.nodes[v], m, x);
    AckedRole(c, s.history, v, n, s'.nodes[v], m);
    SameBallotsFair(c, s, s'.history, v);
    OwnAck(s.history, s'.history, v, n.term);
    LocalStep(c, s, s', v, false);
  }

  /** What serving a leader's request amounts to: a refusal that changes nothing stored, or an acceptance. */
  ghost predicate Served(c: Config, h: History, v: nat, n: Node, req: AppendRequest, out: AppendOutcome) {
    && out.fault.NoFault? && out.reply.Some?
    && var a := out.reply.value;
       && a.id == v && a.savedTerm == req.term && a.savedPrevIndex == req.prevIndex && a.term >= req.term
       && (if a.success then
             var n1 := FollowLeader'(n, req);
             && NodeOk(c, h, v, n1) && RoleOk(c, h, v, n1) && CallerKeeps(n, n1, false)
             && n1.term == req.term && !n1.role.Leader? && !n1.role.Candidate?
             && a.matchIndex == req.prevIndex + |req.entries|
             && Took(h, n1, out.node, a.matchIndex, req.commitIndex)
           else NodeOk(c, h, v, out.node) && RoleOk(c, h, v, out.node) && CallerKeeps(n, out.node, false))
  }

  function FollowLeader'(n: Node, req: AppendRequest): Node {
    if n.term <= req.term then FollowLeader(n, req) else n
  }

  lemma AcceptOutcome(v: nat, n: Node, req: AppendRequest)
    requires req.prevIndex <= |n.log| && GapFree(req.prevIndex, req.entries)
    requires !CutsBelow(n.log, req.prevIndex, req.entries, n.commitIndex)
    requires req.commitIndex <= |Merge(n.log, req.prevIndex, req.entries)|
    ensures var out := AcceptAppend(v, n, req);
            var log := Merge(n.log, req.prevIndex, req.entries);
            && out.fault.NoFault?
            && out.reply == Some(AppendResponse(req.term, true, v, req.term, req.prevIndex, |log|,
                                                req.prevIndex + |req.entries|))
            && out.node == n.(log := log, commitIndex := Max(n.commitIndex, req.commitIndex))
  {
  }

  lemma AppendCases(c: Config, h: History, v: nat, n: Node, src: nat, req: AppendRequest)
    requires HistoryOk(c, h) && NodeOk(c, h, v, n) && RoleOk(c, h, v, n)
    requires AppendCallOk(c, h, src, req) && src != v && src != 0
    ensures Served(c, h, v, n, req, HandleAppendRequest(c, v, n, req))
  {
    if req.term >= n.term {
      FollowOk(c, h, v, n, src, req);
      var n1 := FollowLeader(n, req);
      if LogIsOk(n1.log, req.prevIndex, req.prevTerm) {
        AcceptTakes(c, h, v, n1, src, req);
      }
    }
  }

  /** Accepting: no assertion fails, and the follower takes exactly what was sent. */
  lemma AcceptTakes(c: Config, h: History, v: nat, n: Node, src: nat, req: AppendRequest)
    requires HistoryOk(c, h) && NodeOk(c, h, v, n) && n.term == req.term && AppendCallOk(c, h, src, req)
    requires LogIsOk(n.log, req.prevIndex, req.prevTerm)
    ensures req.prevIndex <= |n.log|
    ensures var out := AcceptAppend(v, n, req);
            && out.fault.NoFault? && out.reply.Some?
            && var a := out.reply.value;
               && a.success && a.term == req.term && a.id == v && a.savedTerm == req.term
               && a.savedPrevIndex == req.prevIndex && a.matchIndex == req.prevIndex + |req.entries|
               && Took(h, n, out.node, a.matchIndex, req.commitIndex)
  {
    MergeAdopts(c, h, v, n, req.prevIndex, req.entries, req.prevTerm);
    AcceptTook(h, v, n, req);
  }

  lemma AcceptTook(h: History, v: nat, n: Node, req: AppendRequest)
    requires req.prevIndex <= |n.log| && GapFree(req.prevIndex, req.entries) && n.term == req.term
    requires !CutsBelow(n.log, req.prevIndex, req.entries, n.commitIndex)
    requires req.commitIndex <= req.prevIndex + |req.entries| <= |LogOf(h, n.term)|
    requires Merge(n.log, req.prevIndex, req.entries)
             == Adopt(n.log, LogOf(h, n.term)[..req.prevIndex + |req.entries|])
    ensures var out := AcceptAppend(v, n, req);
            && out.fault.NoFault? && out.reply.Some?
            && var a := out.reply.value;
               && a.success && a.term == req.term && a.id == v && a.savedTerm == req.term
               && a.savedPrevIndex == req.prevIndex && a.matchIndex == req.prevIndex + |req.entries|
               && Took(h, n, out.node, a.matchIndex, req.commitIndex)
  {
    AcceptOutcome(v, n, req);
  }

  lemma ServeAppendKeeps(c: Config, s: Cluster, step: Step)
    requires Inv(c, s) && step.ServeAppend? && Enabled(c, s, step)
    ensures Act(c, s, step).fault.NoFault?
    ensures Inv(c, After(c, s, step)) && Grows(s.history, After(c, s, step).history)
  {
    var call := s.calls[step.id];
    assert call.src in s.nodes;
    var v, req := call.dst, call.request.append;
    var n, s' := s.nodes[v], After(c, s, step);
    assert NodeOk(c, s.history, v, n) && RoleOk(c, s.history, v, n) && CallOk(c, s.history, call);
    var out := HandleAppendRequest(c, v, n, req);
    AppendCases(c, s.history, v, n, call.src, req);
    ServedStep(c, s, s', step.id, out);
  }

  lemma ServedStep(c: Config, s: Cluster, s': Cluster, id: nat, out: AppendOutcome)
    requires Inv(c, s) && id in s.calls && s.calls[id].request.AppendCall? && s.calls[id].dst in s.nodes
    requires CallOk(c, s.history, s.calls[id])
    requires var v := s.calls[id].dst;
             var req := s.calls[id].request.append;
             && Served(c, s.history, v, s.nodes[v], req, out)
             && s' == Cluster(s.nodes[v := out.node], s.calls, s.open, s.replies + {(id, AppendReply(out.reply.value))},
                              if out.reply.value.success
                              then Acknowledge(s.history, out.node.term, v, out.reply.value.matchIndex) else s.history)
    ensures Inv(c, s') && Grows(s.history, s'.history)
  {
    var v, req := s.calls[id].dst, s.calls[id].request.append;
    var mid := s.(nodes := s'.nodes, history := s'.history);
    if out.reply.value.success {
      TookStep(c, s, mid, v, FollowLeader'(s.nodes[v], req), out.reply.value.matchIndex, req.commitIndex);
    } else {
      QuietStep(c, s, mid, v);
    }
    AddReply(c, mid, s', id, AppendReply(out.reply.value));
  }

  /** A node that serves an append keeps its state, or ends up as no leader; a leader does so only in a later term. */
  predicate Told(n: Node, n': Node) {
    n' == n || (n.term <= n'.term && !n'.role.Leader? && (n.role.Leader? ==> n.term < n'.term))
  }

  lemma AcceptKeepsRole(v: nat, n: Node, req: AppendRequest)
    requires req.prevIndex <= |n.log|
    ensures var n' := AcceptAppend(v, n, req).node; n'.term == n.term && n'.role == n.role
  {
  }

  lemma HandleTold(c: Config, v: nat, n: Node, req: AppendRequest)
    requires n.role.Leader? ==> n.term != req.term
    ensures Told(n, HandleAppendRequest(c, v, n, req).node)
  {
    if n.term <= req.term {
      var n1 := FollowLeader(n, req);
      assert Told(n, n1) && n1.term == req.term;
      if req.prevIndex <= |n1.log| {
        AcceptKeepsRole(v, n1, req);
      }
    }
  }

  /** A leader never gets an append of its own term from someone else. */
  lemma OneSender(c: Config, h: History, call: Call, n: Node)
    requires CallOk(c, h, call) && RoleOk(c, h, call.dst, n) && call.request.AppendCall?
    ensures n.role.Leader? ==> n.term != call.request.append.term
  {
  }

  lemma ServeTold(c: Config, s: Cluster, step: Step)
    requires Inv(c, s) && Enabled(c, s, step) && step.ServeAppend?
    ensures Told(s.nodes[Actor(s, step)], After(c, s, step).nodes[Actor(s, step)])
  {
    var call := s.calls[step.id];
    OneSender(c, s.history, call, s.nodes[call.dst]);
    HandleTold(c, call.dst, s.nodes[call.dst], call.request.append);
  }

  /** Granting the first vote of a term to a standing candidate. */
  lemma GrantOk(c: Config, s: Cluster, v: nat, n1: Node, call: Call)
    requires Inv(c, s) && v in s.nodes && v == call.dst && call.src in s.nodes && call.src != v
    requires NodeOk(c, s.history, v, n1) && RoleOk(c, s.history, v, n1) && n1.vote == 0 && call.src != 0
    requires call.request.VoteCall? && !call.request.vote.prevote && call.request.vote.term == n1.term
    requires call.request.vote.candidateId == call.src
    requires CallerOk(s.nodes[call.src], call.request, false)
    requires UpToDate(call.request.vote.lastIndex, call.request.vote.lastTerm, n1.log)
    ensures var n' := n1.(vote := call.src);
            var h' := Cast(s.history, v, n', call.src);
            && HistoryOk(c, h') && NodeOk(c, h', v, n') && RoleOk(c, h', v, n')
            && Own(s.history, h', v) && FairVote(s, h', v)
  {
    var h, n' := s.history, n1.(vote := call.src);
    var h' := Cast(h, v, n', call.src);
    CastKeeps(c, h, v, n1, n', call.src);
    QuietFair(c, s, v);
    forall u: nat, t: nat | VotedFor(h', t, u, v) ensures VotedFor(h, t, u, v) {}
    forall u: nat, t: nat | u in s.nodes && u != v && VotedFor(h', t, v, u)
      ensures VotedFor(h, t, v, u) || (u == call.src && t == n1.term) {}
  }

  /** The voter and the history after a vote was served, before the reply is out. */
  ghost function Voted(c: Config, s: Cluster, step: Step): Cluster
    requires step.ServeVote? && Enabled(c, s, step)
  {
    After(c, s, step).(replies := s.replies)
  }

  /** The voter as it looks at the vote: in the term of the request, if that is a later one. */
  function AtVote(n: Node, req: VoteRequest): Node {
    if !req.prevote && req.term > n.term then StepDown(n, req.term) else n
  }

  lemma AtVoteOk(c: Config, h: History, v: nat, n: Node, req: VoteRequest)
    requires HistoryOk(c, h) && NodeOk(c, h, v, n) && RoleOk(c, h, v, n)
    ensures NodeOk(c, h, v, AtVote(n, req)) && RoleOk(c, h, v, AtVote(n, req)) && CallerKeeps(n, AtVote(n, req), false)
  {
    if !req.prevote && req.term > n.term {
      StepDownOk(c, h, v, n, req.term);
    }
  }

  lemma GrantKeeps(c: Config, s: Cluster, step: Step)
    requires Inv(c, s) && step.ServeVote? && Enabled(c, s, step)
    requires var v := Actor(s, step); var n' := After(c, s, step).nodes[v];
             n'.vote != 0 && (n'.term, v) !in s.history.ballots
    ensures Inv(c, Voted(c, s, step)) && Grows(s.history, After(c, s, step).history)
  {
    var call := s.calls[step.id];
    var v, n := call.dst, s.nodes[call.dst];
    assert NodeOk(c, s.history, v, n) && RoleOk(c, s.history, v, n);
    assert CallOk(c, s.history, call) && call.src in s.nodes;
    AtVoteOk(c, s.history, v, n, call.request.vote);
    GrantOk(c, s, v, AtVote(n, call.request.vote), call);
    LocalStep(c, s, Voted(c, s, step), v, false);
  }

  lemma NoGrantOk(c: Config, h: History, v: nat, n: Node, req: VoteRequest, expired: bool)
    requires HistoryOk(c, h) && NodeOk(c, h, v, n) && RoleOk(c, h, v, n)
    requires var n' := HandleVoteRequest(v, n, req, c, expired).node; n'.vote == 0 || (n'.term, v) in h.ballots
    ensures var n' := HandleVoteRequest(v, n, req, c, expired).node;
            NodeOk(c, h, v, n') && RoleOk(c, h, v, n') && CallerKeeps(n, n', false)
  {
    AtVoteOk(c, h, v, n, req);
    var n', n1 := HandleVoteRequest(v, n, req, c, expired).node, AtVote(n, req);
    assert n' == n1 || n' == n || n1.vote == 0;
  }

  lemma NoGrantKeeps(c: Config, s: Cluster, step: Step)
    requires Inv(c, s) && step.ServeVote? && Enabled(c, s, step)
    requires var v := Actor(s, step); var n' := After(c, s, step).nodes[v];
             n'.vote == 0 || (n'.term, v) in s.history.ballots
    ensures Inv(c, Voted(c, s, step)) && Grows(s.history, After(c, s, step).history)
  {
    var call := s.calls[step.id];
    var v, n := call.dst, s.nodes[call.dst];
    assert NodeOk(c, s.history, v, n) && RoleOk(c, s.history, v, n);
    NoGrantOk(c, s.history, v, n, call.request.vote, step.timerExpired);
    QuietStep(c, s, Voted(c, s, step), v);
  }

  lemma ServeVoteKeeps(c: Config, s: Cluster, step: Step)
    requires Inv(c, s) && step.ServeVote? && Enabled(c, s, step)
    ensures Inv(c, After(c, s, step)) && Grows(s.history, After(c, s, step).history)
  {
    var call := s.calls[step.id];
    var n, s' := s.nodes[call.dst], After(c, s, step);
    if s'.nodes[call.dst].vote != 0 && (s'.nodes[call.dst].term, call.dst) !in s.history.ballots {
      GrantKeeps(c, s, step);
    } else {
      NoGrantKeeps(c, s, step);
    }
    var out := HandleVoteRequest(call.dst, n, call.request.vote, c, step.timerExpired);
    if out.reply.Some? {
      VoteReplyOk(c, s, step);
      AddReply(c, Voted(c, s, step), s', step.id, VoteReply(out.reply.value));
    }
  }

  /** A vote that is granted is on record. */
  lemma VoteReplyOk(c: Config, s: Cluster, step: Step)
    requires Inv(c, s) && step.ServeVote? && Enabled(c, s, step)
    requires Inv(c, Voted(c, s, step))
    ensures var call := s.calls[step.id];
            var out := HandleVoteRequest(call.dst, s.nodes[call.dst], call.request.vote, c, step.timerExpired);
            out.reply.Some? ==> ReplyOk(After(c, s, step).history, call, VoteReply(out.reply.value))
  {
    var call := s.calls[step.id];
    var s' := Voted(c, s, step);
    assert CallOk(c, s.history, call);
    assert NodeOk(c, s'.history, call.dst, s'.nodes[call.dst]);
  }

  // ---------------------------------------------------------------- completions

  /** A peer record after an answer: still matched below what is sent next, inside the leader's log. */
  lemma PeerAfterAnswer(h: History, n: Node, p: nat, resp: AppendResponse, maxDecrStep: nat)
    requires n.role.Leader? && p in n.peers && PeerOk(h, n, p) && resp.id == p && maxDecrStep > 0
    requires resp.savedTerm == n.term && resp.term <= n.term
    requires resp.success ==>
               && resp.savedPrevIndex <= resp.matchIndex <= |n.log|
               && (n.term, p) in h.acked && h.acked[(n.term, p)] >= resp.matchIndex
    ensures var out := HandleAppendResponse(n, resp, maxDecrStep);
            && (out.fault.NoFault? || out.fault.NoProbeGap?)
            && p in out.node.peers && out.node == n.(peers := n.peers[p := out.node.peers[p]])
            && PeerOk(h, out.node, p) && out.node.peers[p].haveVote == n.peers[p].haveVote
  {
    var out := HandleAppendResponse(n, resp, maxDecrStep);
    assert out.node.peers == n.peers[p := out.node.peers[p]];
  }

  lemma LeaderPeerChange(c: Config, h: History, v: nat, n: Node, n': Node, p: nat)
    requires NodeOk(c, h, v, n) && RoleOk(c, h, v, n) && p in n.peers && p in n'.peers
    requires n' == n.(peers := n.peers[p := n'.peers[p]]) && n'.peers[p].haveVote == n.peers[p].haveVote
    requires n.role.Leader? ==> PeerOk(h, n', p)
    ensures NodeOk(c, h, v, n') && RoleOk(c, h, v, n') && CallerKeeps(n, n', false)
  {
    if n.role.Leader? {
      forall q | q in n'.peers ensures PeerOk(h, n', q) { assert PeerOk(h, n, q); }
    }
  }

  /** A completed call keeps `matchIndex < nextIndex <= lastIndex + 1`; only the probing assertion may fail. */
  lemma CompleteAppendOk(c: Config, h: History, v: nat, n: Node, call: Call, resp: Option<AppendResponse>,
                         maxDecrStep: nat)
    requires HistoryOk(c, h) && NodeOk(c, h, v, n) && RoleOk(c, h, v, n) && maxDecrStep > 0
    requires call.src == v && call.request.AppendCall? && CallOk(c, h, call) && CallerOk(n, call.request, true)
    requires resp.Some? ==> ReplyOk(h, call, AppendReply(resp.value))
    ensures var out := CompleteAppend(n, call.dst, resp, maxDecrStep);
            && (out.fault.NoFault? || out.fault.NoProbeGap?)
            && NodeOk(c, h, v, out.node) && RoleOk(c, h, v, out.node) && CallerKeeps(n, out.node, false)
  {
    var p := call.dst;
    var off := if resp.None? then true else n.peers[p].suppressBulk;
    var n0 := n.(peers := n.peers[p := n.peers[p].(aeReady := true, suppressBulk := off)]);
    assert n.role.Leader? ==> PeerOk(h, n, p);
    LeaderPeerChange(c, h, v, n, n0, p);
    if resp.Some? && n.term == resp.value.savedTerm {
      AnswerOk(c, h, v, n0, call, resp.value, maxDecrStep);
    }
  }

  lemma AnswerOk(c: Config, h: History, v: nat, n: Node, call: Call, resp: AppendResponse, maxDecrStep: nat)
    requires HistoryOk(c, h) && NodeOk(c, h, v, n) && RoleOk(c, h, v, n) && maxDecrStep > 0
    requires call.src == v && call.request.AppendCall? && CallOk(c, h, call) && n.role.Leader?
    requires ReplyOk(h, call, AppendReply(resp)) && n.term == resp.savedTerm
    ensures var out := HandleAppendResponse(n, resp, maxDecrStep);
            && (out.fault.NoFault? || out.fault.NoProbeGap?)
            && NodeOk(c, h, v, out.node) && RoleOk(c, h, v, out.node) && CallerKeeps(n, out.node, false)
  {
    if resp.term > n.term {
      StepDownOk(c, h, v, n, resp.term);
    } else {
      PeerAfterAnswer(h, n, call.dst, resp, maxDecrStep);
      LeaderPeerChange(c, h, v, n, HandleAppendResponse(n, resp, maxDecrStep).node, call.dst);
    }
  }

  lemma FinishAppendKeeps(c: Config, s: Cluster, step: Step)
    requires Inv(c, s) && step.FinishAppend? && Enabled(c, s, step)
    ensures Act(c, s, step).fault.NoFault? || Act(c, s, step).fault.NoProbeGap?
    ensures Inv(c, After(c, s, step)) && Grows(s.history, After(c, s, step).history)
  {
    var call := s.calls[step.id];
    var v := call.src;
    assert NodeOk(c, s.history, v, s.nodes[v]) && RoleOk(c, s.history, v, s.nodes[v]) && CallOk(c, s.history, call);
    assert step.appendResp.Some? ==> ReplyOk(s.history, s.calls[step.id], AppendReply(step.appendResp.value));
    CompleteAppendOk(c, s.history, v, s.nodes[v], call, step.appendResp, step.maxDecrStep);
    QuietStep(c, s, After(c, s, step), v);
  }

  lemma FinishVoteKeeps(c: Config, s: Cluster, step: Step)
    requires Inv(c, s) && step.FinishVote? && Enabled(c, s, step)
    ensures Inv(c, After(c, s, step)) && Grows(s.history, After(c, s, step).history)
  {
    var call := s.calls[step.id];
    var v := call.src;
    var h, n, s' := s.history, s.nodes[v], After(c, s, step);
    assert NodeOk(c, h, v, n) && RoleOk(c, h, v, n) && CallOk(c, h, call);
    if step.voteResp.Some? {
      var resp := step.voteResp.value;
      assert ReplyOk(h, s.calls[step.id], VoteReply(resp));
      if !StaleVote(n, resp) && resp.term > n.term {
        StepDownOk(c, h, v, n, resp.term);
      }
    }
    QuietStep(c, s, s', v);
  }

  // ---------------------------------------------------------------- clients, commit, restart

  lemma ExtendedRole(c: Config, h: History, v: nat, n: Node, log: seq<Entry>)
    requires RoleOk(c, h, v, n) && n.role.Leader? && n.log <= log
    ensures n.term in h.reigns && RoleOk(c, Extend(h, v, n.term, log), v, n.(log := log))
  {
    var h', n' := Extend(h, v, n.term, log), n.(log := log);
    forall t: nat, u: nat | VotedFor(h', t, u, v) ensures t <= n'.term { assert VotedFor(h, t, u, v); }
    forall q | q in n'.peers ensures PeerOk(h', n', q) { assert PeerOk(h, n, q); }
  }

  lemma ExtendStep(c: Config, s: Cluster, s': Cluster, v: nat, log: seq<Entry>)
    requires Inv(c, s) && v in s.nodes && s.nodes[v].role.Leader? && s.nodes[v].term in s.history.reigns
    requires Continues(s.nodes[v].log, log, s.nodes[v].term)
    requires s' == s.(nodes := s.nodes[v := s.nodes[v].(log := log)],
                      history := Extend(s.history, v, s.nodes[v].term, log))
    ensures Inv(c, s') && Grows(s.history, s'.history)
  {
    var h, n, h', n' := s.history, s.nodes[v], s'.history, s'.nodes[v];
    assert NodeOk(c, h, v, n) && RoleOk(c, h, v, n);
    LeaderAppends(c, h, v, n, n');
    ExtendedRole(c, h, v, n, log);
    SameBallotsFair(c, s, h', v);
    OwnAck(h, h', v, n.term);
    LocalStep(c, s, s', v, false);
  }

  lemma TakeClientBatchKeeps(c: Config, s: Cluster, step: Step)
    requires Inv(c, s) && step.TakeClientBatch? && Enabled(c, s, step)
    ensures Inv(c, After(c, s, step)) && Grows(s.history, After(c, s, step).history)
  {
    var v := step.v;
    var n, s' := s.nodes[v], After(c, s, step);
    assert NodeOk(c, s.history, v, n) && RoleOk(c, s.history, v, n);
    if n.role.Leader? {
      TakeInOrderContinues(n.log, n.term, step.entries);
      ExtendStep(c, s, s', v, s'.nodes[v].log);
    } else {
      QuietStep(c, s, s', v);
    }
  }

  /** A leader commits only entries of its term that a quorum stores, and only inside its log. */
  lemma AdvanceCommitOk(c: Config, h: History, v: nat, n: Node, m: nat)
    requires HistoryOk(c, h) && NodeOk(c, h, v, n) && n.role.Leader? && LeaderOk(h, v, n)
    requires AllKnown(c, v, n.peers) && IsCommitIndex(c, v, |n.log|, n.peers, m)
    ensures AdvanceCommit(n, m).fault.NoFault?
    ensures NodeOk(c, h, v, AdvanceCommit(n, m).node)
  {
    forall p | p in n.peers ensures n.peers[p].matchIndex <= |n.log| { assert PeerOk(h, n, p); }
    CommitIndexBound(c, v, |n.log|, n.peers, m);
    if n.commitIndex < m && TermAt(n.log, m) == n.term {
      var holders := Ackers(c, h, n.term, m);
      forall id | IsVoter(c, id) && Stored(v, |n.log|, n.peers, id) >= m ensures id in holders {
        assert id != v ==> PeerOk(h, n, id);
      }
      CommitIndexHeld(c, v, |n.log|, n.peers, m, holders);
      assert Committed(c, h, n.term, m);
      assert n.log[..m] == Take(LogOf(h, n.term), m);
    }
  }

  lemma CommitRole(c: Config, h: History, v: nat, n: Node, x: nat)
    requires RoleOk(c, h, v, n) && n.role.Leader?
    ensures RoleOk(c, h, v, n.(commitIndex := x))
  {
    var n' := n.(commitIndex := x);
    forall q | q in n'.peers ensures PeerOk(h, n', q) { assert PeerOk(h, n, q); }
  }

  lemma MoveCommitKeeps(c: Config, s: Cluster, step: Step)
    requires Inv(c, s) && step.MoveCommit? && Enabled(c, s, step)
    ensures Act(c, s, step).fault.NoFault?
    ensures Inv(c, After(c, s, step)) && Grows(s.history, After(c, s, step).history)
  {
    var v := step.v;
    var h, n, s' := s.history, s.nodes[v], After(c, s, step);
    assert NodeOk(c, h, v, n) && RoleOk(c, h, v, n);
    AdvanceCommitOk(c, h, v, n, step.m);
    CommitRole(c, h, v, n, s'.nodes[v].commitIndex);
    QuietStep(c, s, s', v);
  }

  lemma RestartOk(c: Config, h: History, v: nat, n: Node)
    requires NodeOk(c, h, v, n) && RoleOk(c, h, v, n)
    ensures NodeOk(c, h, v, Restart(n, StartRole(c, v))) && RoleOk(c, h, v, Restart(n, StartRole(c, v)))
    ensures CallerKeeps(n, Restart(n, StartRole(c, v)), true)
  {
  }

  lemma RebootKeeps(c: Config, s: Cluster, step: Step)
    requires Inv(c, s) && step.Reboot? && Enabled(c, s, step)
    ensures Inv(c, After(c, s, step)) && Grows(s.history, After(c, s, step).history)
  {
    var v := step.v;
    var n, s' := s.nodes[v], After(c, s, step);
    assert NodeOk(c, s.history, v, n) && RoleOk(c, s.history, v, n);
    RestartOk(c, s.history, v, n);
    QuietFair(c, s, v);
    LocalStep(c, s, s', v, true);
  }

  /** Every step keeps the invariant; a tripped assertion can only be the probing one. */
  lemma StepKeeps(c: Config, s: Cluster, step: Step)
    requires Inv(c, s) && Enabled(c, s, step)
    ensures Act(c, s, step).fault.NoFault? || (step.FinishAppend? && Act(c, s, step).fault.NoProbeGap?)
    ensures Inv(c, After(c, s, step)) && Grows(s.history, After(c, s, step).history)
  {
    match step
    case TimeOut(_, _) => TimeOutKeeps(c, s, step);
    case WinPrevote(_) => WinPrevoteKeeps(c, s, step);
    case WinElection(_) => WinElectionKeeps(c, s, step);
    case LoseAuthority(_) => LoseAuthorityKeeps(c, s, step);
    case SendAppend(_, _, _, _) => SendAppendKeeps(c, s, step);
    case SendVote(_, _, _) => SendVoteKeeps(c, s, step);
    case ServeAppend(_) => ServeAppendKeeps(c, s, step);
    case ServeVote(_, _) => ServeVoteKeeps(c, s, step);
    case FinishAppend(_, _, _) => FinishAppendKeeps(c, s, step);
    case FinishVote(_, _) => FinishVoteKeeps(c, s, step);
    case TakeClientBatch(_, _) => TakeClientBatchKeeps(c, s, step);
    case MoveCommit(_, _) => MoveCommitKeeps(c, s, step);
    case Reboot(_) => RebootKeeps(c, s, step);
  }
}
