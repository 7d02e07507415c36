/**
 How a leader finds where a follower's log diverges. The assertion that a rejected probe lies
 strictly above the match index relies on timing: an AppendEntries call ends before its caller
 can win another election. In runs where that holds, no assertion fails at all.
 */
module RaftProbing {
  import opened RaftTypes
  import opened Quorum
  import opened RaftNode
  import opened RaftLedger
  import opened RaftCluster
  import opened RaftSteps
  import opened RaftSafety

  /** Call `id` is an AppendEntries call from `v` to `p` whose caller still waits. */
  predicate Waits(s: Cluster, id: nat, v: nat, p: nat) {
    id in s.open && id in s.calls && s.calls[id].request.AppendCall? && s.calls[id].src == v && s.calls[id].dst == p
  }

  /** No AppendEntries call of a node is still open when it wins an election. */
  ghost predicate TimelyStep(s: Cluster, step: Step) {
    step.WinElection? ==> forall id, p :: !Waits(s, id, step.v, p)
  }

  ghost predicate Timely(run: seq<Cluster>, steps: seq<Step>) {
    |run| == |steps| + 1 && forall i | 0 <= i < |steps| :: TimelyStep(run[i], steps[i])
  }

  /** An open call of a leader is its only one to that peer, of its term, and asks about its next index. */
  predicate CallCurrent(n: Node, p: nat, r: AppendRequest) {
    n.role.Leader? && p in n.peers ==>
      !n.peers[p].aeReady && r.term == n.term && r.prevIndex + 1 == n.peers[p].nextIndex
  }

  /** A refusal on its way to the leader is about an index above the match, from a log that still has the match. */
  predicate RefusalCurrent(n: Node, p: nat, a: AppendResponse) {
    n.role.Leader? && p in n.peers && !a.success && a.term <= n.term ==>
      n.peers[p].matchIndex < a.savedPrevIndex && n.peers[p].matchIndex <= a.lastIndex
  }

  ghost predicate ProbeInv(s: Cluster) {
    && (forall id, id', v, p | Waits(s, id, v, p) && Waits(s, id', v, p) :: id == id')
    && (forall id, v, p | Waits(s, id, v, p) && v in s.nodes :: CallCurrent(s.nodes[v], p, s.calls[id].request.append))
    && (forall id: nat, v, p, a | Waits(s, id, v, p) && v in s.nodes && (id, AppendReply(a)) in s.replies ::
          RefusalCurrent(s.nodes[v], p, a))
  }

  /** A follower of the leader's own term refuses only indices above everything it acknowledged. */
  lemma RefusalAboveMatch(c: Config, h: History, d: nat, n: Node, req: AppendRequest, lead: Node)
    requires HistoryOk(c, h) && NodeOk(c, h, d, n) && n.term == req.term == lead.term
    requires lead.log == LogOf(h, lead.term) && d in lead.peers && PeerOk(h, lead, d)
    requires req.prevIndex <= |lead.log| && req.prevTerm == TermAt(lead.log, req.prevIndex)
    requires !LogIsOk(n.log, req.prevIndex, req.prevTerm)
    ensures lead.peers[d].matchIndex < req.prevIndex && lead.peers[d].matchIndex <= |n.log|
  {
    var m := lead.peers[d].matchIndex;
    if m > 0 {
      assert HoldsAcks(h, d, n.term, n.log, n.term + 1);
      assert Holds(h, n.log, n.term, m, n.term + 1);
      assert lead.log[..m] <= n.log;
      assert forall k | 0 <= k < m :: n.log[k] == lead.log[..m][k] == lead.log[k];
    }
  }

  /** The leader's record of `p`, as far as probing is concerned, is untouched. */
  predicate SameProbe(n: Node, n': Node, p: nat) {
    n'.role.Leader? && p in n'.peers ==>
      && n.role.Leader? && n.term == n'.term && p in n.peers
      && n'.peers[p].matchIndex == n.peers[p].matchIndex
      && n'.peers[p].nextIndex == n.peers[p].nextIndex
      && n'.peers[p].aeReady == n.peers[p].aeReady
  }

  lemma StillWaits(c: Config, s: Cluster, step: Step, id: nat, u: nat, p: nat)
    requires Inv(c, s) && Enabled(c, s, step) && TimelyStep(s, step) && Waits(After(c, s, step), id, u, p)
    requires !step.SendAppend? && !step.ServeAppend? && !step.FinishAppend?
    ensures Waits(s, id, u, p) && (u in s.nodes ==> SameProbe(s.nodes[u], After(c, s, step).nodes[u], p))
  {
    var v := Actor(s, step);
    assert RoleOk(c, s.history, v, s.nodes[v]);
    assert Waits(s, id, u, p);
  }

  /** Steps that neither send, serve nor finish AppendEntries calls. */
  lemma OtherStepsKeep(c: Config, s: Cluster, step: Step)
    requires Inv(c, s) && Enabled(c, s, step) && ProbeInv(s) && TimelyStep(s, step)
    requires !step.SendAppend? && !step.ServeAppend? && !step.FinishAppend?
    ensures ProbeInv(After(c, s, step))
  {
    var s' := After(c, s, step);
    forall id, u, p | Waits(s', id, u, p)
      ensures Waits(s, id, u, p) && (u in s.nodes ==> SameProbe(s.nodes[u], s'.nodes[u], p)) {
      StillWaits(c, s, step, id, u, p);
    }
    forall id: nat, u, p, a | Waits(s', id, u, p) && u in s'.nodes && (id, AppendReply(a)) in s'.replies
      ensures RefusalCurrent(s'.nodes[u], p, a) {
      assert (id, AppendReply(a)) in s.replies;
      assert RefusalCurrent(s.nodes[u], p, a);
    }
  }

  /** A call that is open after a send is the one just sent, or was open before and concerns another pair of nodes. */
  lemma SentOrWaited(c: Config, s: Cluster, step: Step, id: nat, u: nat, p: nat)
    requires Inv(c, s) && Enabled(c, s, step) && ProbeInv(s) && step.SendAppend?
    requires Waits(After(c, s, step), id, u, p)
    ensures if id == step.id then u == step.v && p == step.peer
            else && Waits(s, id, u, p) && (u, p) != (step.v, step.peer)
                 && (u in s.nodes ==> SameProbe(s.nodes[u], After(c, s, step).nodes[u], p))
  {
    if id != step.id {
      assert Waits(s, id, u, p);
      assert u in s.nodes ==> CallCurrent(s.nodes[u], p, s.calls[id].request.append);
    }
  }

  lemma SentIsCurrent(c: Config, s: Cluster, step: Step)
    requires Enabled(c, s, step) && step.SendAppend?
    ensures var s' := After(c, s, step);
            CallCurrent(s'.nodes[step.v], step.peer, s'.calls[step.id].request.append)
  {
  }

  lemma SendAppendProbes(c: Config, s: Cluster, step: Step)
    requires Inv(c, s) && Enabled(c, s, step) && ProbeInv(s) && step.SendAppend?
    ensures ProbeInv(After(c, s, step))
  {
    var s' := After(c, s, step);
    SentIsCurrent(c, s, step);
    forall id, id', u, p | Waits(s', id, u, p) && Waits(s', id', u, p) ensures id == id' {
      SentOrWaited(c, s, step, id, u, p);
      SentOrWaited(c, s, step, id', u, p);
    }
    forall id, u, p | Waits(s', id, u, p) && u in s'.nodes
      ensures CallCurrent(s'.nodes[u], p, s'.calls[id].request.append) {
      SentOrWaited(c, s, step, id, u, p);
      assert id != step.id ==> CallCurrent(s.nodes[u], p, s.calls[id].request.append);
    }
    forall id: nat, u, p, a | Waits(s', id, u, p) && u in s'.nodes && (id, AppendReply(a)) in s'.replies
      ensures RefusalCurrent(s'.nodes[u], p, a) {
      SentOrWaited(c, s, step, id, u, p);
      assert id in s.calls;
      assert RefusalCurrent(s.nodes[u], p, a);
    }
  }

  lemma ServeAppendProbes(c: Config, s: Cluster, step: Step)
    requires Inv(c, s) && Enabled(c, s, step) && ProbeInv(s) && step.ServeAppend?
    ensures ProbeInv(After(c, s, step))
  {
    var s', v := After(c, s, step), s.calls[step.id].dst;
    ServeAppendKeeps(c, s, step);
    ServeTold(c, s, step);
    forall id, u, p | Waits(s', id, u, p)
      ensures Waits(s, id, u, p) && (u in s.nodes ==> SameProbe(s.nodes[u], s'.nodes[u], p)) {
      assert Waits(s, id, u, p);
    }
    forall id: nat, u, p, a | Waits(s', id, u, p) && u in s'.nodes && (id, AppendReply(a)) in s'.replies
      ensures RefusalCurrent(s'.nodes[u], p, a) {
      if (id, AppendReply(a)) in s.replies {
        assert RefusalCurrent(s.nodes[u], p, a);
      } else if s.nodes[u].role.Leader? && p in s.nodes[u].peers && !a.success && a.term <= s.nodes[u].term {
        assert CallOk(c, s.history, s.calls[id]);
        assert CallCurrent(s.nodes[u], p, s.calls[id].request.append);
        FreshRefusal(c, s, step, a);
      }
    }
  }

  lemma FreshRefusal(c: Config, s: Cluster, step: Step, a: AppendResponse)
    requires Inv(c, s) && Enabled(c, s, step) && step.ServeAppend?
    requires var call := s.calls[step.id];
             && call.src in s.nodes && s.nodes[call.src].role.Leader?
             && call.request.append.term == s.nodes[call.src].term
             && HandleAppendRequest(c, call.dst, s.nodes[call.dst], call.request.append).reply == Some(a)
             && !a.success && a.term <= s.nodes[call.src].term
    ensures RefusalCurrent(s.nodes[s.calls[step.id].src], s.calls[step.id].dst, a)
  {
    var call := s.calls[step.id];
    var d, lead, req, n := call.dst, s.nodes[call.src], call.request.append, s.nodes[call.dst];
    assert NodeOk(c, s.history, d, n) && RoleOk(c, s.history, d, n) && CallOk(c, s.history, call);
    assert RoleOk(c, s.history, call.src, lead);
    if n.term <= req.term {
      FollowOk(c, s.history, d, n, call.src, req);
      var n1 := FollowLeader(n, req);
      if LogIsOk(n1.log, req.prevIndex, req.prevTerm) {
        AcceptTakes(c, s.history, d, n1, call.src, req);
      } else if d in lead.peers {
        assert PeerOk(s.history, lead, d);
        RefusalAboveMatch(c, s.history, d, n1, req, lead);
      }
    }
  }

  lemma FinishAppendProbes(c: Config, s: Cluster, step: Step)
    requires Inv(c, s) && Enabled(c, s, step) && ProbeInv(s) && step.FinishAppend?
    ensures ProbeInv(After(c, s, step))
  {
    var s', v, q := After(c, s, step), s.calls[step.id].src, s.calls[step.id].dst;
    assert Waits(s, step.id, v, q);
    assert step.appendResp.Some? ==> ReplyOk(s.history, s.calls[step.id], AppendReply(step.appendResp.value));
    forall id, u, p | Waits(s', id, u, p)
      ensures Waits(s, id, u, p) && (u, p) != (v, q) && (u in s.nodes ==> SameProbe(s.nodes[u], s'.nodes[u], p)) {
      assert Waits(s, id, u, p);
      if u == v && p != q {
        FinishTouchesOne(s.nodes[v], q, step.appendResp, step.maxDecrStep, p);
      }
    }
    forall id: nat, u, p, a | Waits(s', id, u, p) && u in s'.nodes && (id, AppendReply(a)) in s'.replies
      ensures RefusalCurrent(s'.nodes[u], p, a) {
      assert RefusalCurrent(s.nodes[u], p, a);
    }
  }

  lemma FinishTouchesOne(n: Node, q: nat, resp: Option<AppendResponse>, maxDecrStep: nat, p: nat)
    requires p != q && (resp.Some? ==> resp.value.id == q)
    ensures SameProbe(n, CompleteAppend(n, q, resp, maxDecrStep).node, p)
  {
  }

  lemma ProbeStep(c: Config, s: Cluster, step: Step)
    requires Inv(c, s) && Enabled(c, s, step) && ProbeInv(s) && TimelyStep(s, step)
    ensures ProbeInv(After(c, s, step))
  {
    if step.SendAppend? {
      SendAppendProbes(c, s, step);
    } else if step.ServeAppend? {
      ServeAppendProbes(c, s, step);
    } else if step.FinishAppend? {
      FinishAppendProbes(c, s, step);
    } else {
      OtherStepsKeep(c, s, step);
    }
  }

  lemma {:induction false} RunProbes(c: Config, run: seq<Cluster>, steps: seq<Step>, i: nat)
    requires Run(c, run, steps) && Timely(run, steps) && i < |run|
    ensures ProbeInv(run[i])
  {
    if i > 0 {
      RunProbes(c, run, steps, i - 1);
      RunInv(c, run, steps, i - 1);
      assert NextAt(c, run, steps, i - 1);
      assert TimelyStep(run[i - 1], steps[i - 1]);
      ProbeStep(c, run[i - 1], steps[i - 1]);
    }
  }

  /** In every timely run, no assertion of any handler fails. */
  lemma NoAssertionFails(c: Config, run: seq<Cluster>, steps: seq<Step>, i: nat, step: Step)
    requires Run(c, run, steps) && Timely(run, steps) && i < |run| && Enabled(c, run[i], step)
    ensures Act(c, run[i], step).fault.NoFault?
  {
    OnlyProbingMayFail(c, run, steps, i, step);
    RunProbes(c, run, steps, i);
    if step.FinishAppend? && step.appendResp.Some? {
      var s := run[i];
      RunInv(c, run, steps, i);
      FinishIsCurrent(c, s, step);
    }
  }

  lemma FinishIsCurrent(c: Config, s: Cluster, step: Step)
    requires Inv(c, s) && ProbeInv(s) && Enabled(c, s, step) && step.FinishAppend? && step.appendResp.Some?
    ensures var call := s.calls[step.id];
            !CompleteAppend(s.nodes[call.src], call.dst, step.appendResp, step.maxDecrStep).fault.NoProbeGap?
    ensures RefusalCurrent(s.nodes[s.calls[step.id].src], s.calls[step.id].dst, step.appendResp.value)
  {
    var call := s.calls[step.id];
    assert Waits(s, step.id, call.src, call.dst);
    assert RefusalCurrent(s.nodes[call.src], call.dst, step.appendResp.value);
    assert ReplyOk(s.history, s.calls[step.id], AppendReply(step.appendResp.value));
  }

  /** Each refusal a leader acts on strictly narrows the gap to the match index and never closes it. */
  lemma RefusalNarrows(c: Config, run: seq<Cluster>, steps: seq<Step>, i: nat)
    requires Run(c, run, steps) && Timely(run, steps) && i < |steps|
    requires steps[i].FinishAppend? && steps[i].appendResp.Some? && !steps[i].appendResp.value.success
    requires steps[i].id in run[i].calls && run[i].calls[steps[i].id].src in run[i].nodes
    requires var call := run[i].calls[steps[i].id];
             && run[i].nodes[call.src].role.Leader? && call.dst in run[i].nodes[call.src].peers
             && steps[i].appendResp.value.term <= run[i].nodes[call.src].term
    ensures var call := run[i].calls[steps[i].id];
            && call.src in run[i + 1].nodes && call.dst in run[i + 1].nodes[call.src].peers
            && var p, p' := run[i].nodes[call.src].peers[call.dst], run[i + 1].nodes[call.src].peers[call.dst];
               && p'.matchIndex == p.matchIndex
               && p'.matchIndex < p'.nextIndex < p.nextIndex
  {
    var s, step := run[i], steps[i];
    var call := s.calls[step.id];
    RunInv(c, run, steps, i);
    RunProbes(c, run, steps, i);
    assert NextAt(c, run, steps, i);
    FinishIsCurrent(c, s, step);
    assert Waits(s, step.id, call.src, call.dst);
    assert CallCurrent(s.nodes[call.src], call.dst, call.request.append);
    assert ReplyOk(s.history, s.calls[step.id], AppendReply(step.appendResp.value));
  }

  /**
   Exactly when the probing assertion fails, in any reachable state: the caller still leads the term of the call, the
   answer is a refusal of the index it currently asks about, that index is its match, and the follower's log reaches it.
   */
  lemma ProbingFailsIff(c: Config, run: seq<Cluster>, steps: seq<Step>, i: nat, step: Step)
    requires Run(c, run, steps) && i < |run| && Enabled(c, run[i], step) && step.FinishAppend?
    ensures var call := run[i].calls[step.id];
            var n := run[i].nodes[call.src];
            && call.dst in n.peers
            && (Act(c, run[i], step).fault.NoProbeGap? <==>
                step.appendResp.Some? && n.role.Leader? && StaleRefusal(n, n.peers[call.dst], step.appendResp.value))
  {
    var s := run[i];
    var call := s.calls[step.id];
    RunInv(c, run, steps, i);
    assert RoleOk(c, s.history, call.src, s.nodes[call.src]) && CallOk(c, s.history, call);
    assert step.appendResp.Some? ==> ReplyOk(s.history, s.calls[step.id], AppendReply(step.appendResp.value));
    if s.nodes[call.src].role.Leader? {
      PeerBounds(c, run, steps, i, call.src, call.dst);
    }
  }

  predicate StaleRefusal(n: Node, p: Peer, a: AppendResponse) {
    && !a.success && a.savedTerm == n.term && a.term <= n.term
    && a.savedPrevIndex == p.matchIndex == p.nextIndex - 1
    && 0 < p.matchIndex <= a.lastIndex
  }

  /** Node `f` can be asked by the leader `n` of a term it has not left. */
  predicate MayFollow(c: Config, self: nat, n: Node, f: Node) {
    && IsVoter(c, self) && self != 0 && f.term <= n.term
    && (f.term == n.term ==> f.leaderId == self || (f.leaderId == 0 && !f.role.Leader?))
    && (f.term == n.term && (f.role.Candidate? || f.role.PreCandidate?) ==> f.leaderId == 0)
  }

  lemma ProbeAnswer(c: Config, self: nat, n: Node, id: nat, f: Node)
    requires MayFollow(c, self, n, f) && id in n.peers && 0 < n.peers[id].nextIndex <= |n.log| + 1
    ensures var prev := n.peers[id].nextIndex - 1;
            var out := HandleAppendRequest(c, id, f, BuildAppend(self, n, id, 0));
            && out.fault.NoFault? && out.node.log == f.log && MayFollow(c, self, n, out.node)
            && out.reply == Some(if LogIsOk(f.log, prev, TermAt(n.log, prev))
                                 then AppendResponse(n.term, true, id, n.term, prev, |f.log|, prev)
                                 else AppendResponse(n.term, false, id, n.term, prev, |f.log|, 0))
  {
    var req := BuildAppend(self, n, id, 0);
    assert req.entries == [];
    var f1 := FollowLeader(f, req);
    assert f1.log == f.log && f1.term == n.term && f1.leaderId == self;
    if LogIsOk(f.log, req.prevIndex, req.prevTerm) {
      assert Merge(f1.log, req.prevIndex, []) == f1.log;
    }
  }

  /** A leader, a node it asks, and how the last request ended. */
  datatype Talk = Talk(lead: Node, follower: Node, accepted: bool, fault: Fault)

  /** One round: a request is built and sent, the follower serves it, and the leader completes the call. */
  function Exchange(c: Config, self: nat, id: nat, batch: nat, maxDecrStep: nat, t: Talk): Talk {
    if id !in t.lead.peers || t.lead.peers[id].nextIndex == 0 then t
    else
      var out := HandleAppendRequest(c, id, t.follower, BuildAppend(self, t.lead, id, batch));
      if !out.fault.NoFault? then Talk(AfterSend(t.lead, id), out.node, false, out.fault)
      else
        var done := CompleteAppend(AfterSend(t.lead, id), id, out.reply, maxDecrStep);
        Talk(done.node, out.node, out.reply.Some? && out.reply.value.success, done.fault)
  }

  /** At most `k` rounds, until the follower accepts or an assertion fails. */
  function Exchanges(c: Config, self: nat, id: nat, batch: nat, maxDecrStep: nat, t: Talk, k: nat): Talk
    decreases k
  {
    if k == 0 || t.accepted || !t.fault.NoFault? then t
    else Exchanges(c, self, id, batch, maxDecrStep, Exchange(c, self, id, batch, maxDecrStep, t), k - 1)
  }

  /** The leader may probe: the follower has the match, and requests carry no entries. */
  predicate Probes(c: Config, self: nat, id: nat, batch: nat, t: Talk) {
    && t.lead.role.Leader? && id in t.lead.peers && MayFollow(c, self, t.lead, t.follower) && t.fault.NoFault?
    && var p := t.lead.peers[id];
       && p.matchIndex < p.nextIndex <= |t.lead.log| + 1 && p.matchIndex <= |t.follower.log|
       && LogIsOk(t.follower.log, p.matchIndex, TermAt(t.lead.log, p.matchIndex))
       && (p.suppressBulk || batch == 0)
  }

  /** Only the leader's record of the follower has changed, and neither log has. */
  predicate SameLogs(t: Talk, t': Talk, id: nat) {
    && t'.follower.log == t.follower.log && id in t'.lead.peers
    && t'.lead == t.lead.(peers := t.lead.peers[id := t'.lead.peers[id]])
  }

  lemma ExchangeCases(c: Config, self: nat, id: nat, batch: nat, maxDecrStep: nat, t: Talk)
    requires Probes(c, self, id, batch, t) && maxDecrStep > 0
    ensures var t' := Exchange(c, self, id, batch, maxDecrStep, t);
            && SameLogs(t, t', id) && t'.fault.NoFault?
            && var p, p', prev := t.lead.peers[id], t'.lead.peers[id], t.lead.peers[id].nextIndex - 1;
               if t'.accepted then
                 && p'.matchIndex == prev && p'.nextIndex == prev + 1 && prev <= |t.follower.log|
                 && LogIsOk(t.follower.log, prev, TermAt(t.lead.log, prev))
               else Probes(c, self, id, batch, t') && p'.matchIndex == p.matchIndex && p'.nextIndex < p.nextIndex
  {
    ProbeAnswer(c, self, t.lead, id, t.follower);
    assert BuildAppend(self, t.lead, id, batch) == BuildAppend(self, t.lead, id, 0);
    var t' := Exchange(c, self, id, batch, maxDecrStep, t);
    assert t'.lead.peers == t.lead.peers[id := t'.lead.peers[id]];
  }

  /**
   Probing ends: after no more rounds than there are indices above the match, the follower accepts. The new match is
   at an index where the two logs agree, no assertion fails on the way, and neither log changes.
   */
  lemma {:induction false} ProbeUntilAccepted(c: Config, self: nat, id: nat, batch: nat, maxDecrStep: nat, t: Talk)
    returns (k: nat)
    requires Probes(c, self, id, batch, t) && !t.accepted && maxDecrStep > 0
    ensures k <= t.lead.peers[id].nextIndex - t.lead.peers[id].matchIndex
    ensures Agreed(t, Exchanges(c, self, id, batch, maxDecrStep, t, k), id)
    decreases t.lead.peers[id].nextIndex
  {
    ExchangeCases(c, self, id, batch, maxDecrStep, t);
    var t1 := Exchange(c, self, id, batch, maxDecrStep, t);
    if t1.accepted {
      k := 1;
      assert Exchanges(c, self, id, batch, maxDecrStep, t1, 0) == t1;
    } else {
      var rest := ProbeUntilAccepted(c, self, id, batch, maxDecrStep, t1);
      k := rest + 1;
      AgreedLater(t, t1, Exchanges(c, self, id, batch, maxDecrStep, t1, rest), id);
    }
  }

  /** The follower has accepted at an index between the old match and the old next index, where the logs agree. */
  predicate Agreed(t: Talk, t': Talk, id: nat) {
    && t'.accepted && t'.fault.NoFault? && SameLogs(t, t', id) && id in t.lead.peers
    && var m := t'.lead.peers[id].matchIndex;
       && t.lead.peers[id].matchIndex <= m < t.lead.peers[id].nextIndex
       && m <= |t.follower.log| && m <= |t.lead.log|
       && t'.lead.peers[id].nextIndex == m + 1 && LogIsOk(t.follower.log, m, TermAt(t.lead.log, m))
  }

  lemma AgreedLater(t: Talk, t1: Talk, t': Talk, id: nat)
    requires SameLogs(t, t1, id) && Agreed(t1, t', id) && id in t.lead.peers
    requires t1.lead.peers[id].matchIndex == t.lead.peers[id].matchIndex
    requires t1.lead.peers[id].nextIndex <= t.lead.peers[id].nextIndex
    ensures Agreed(t, t', id)
  {
    assert t.lead.peers[id := t1.lead.peers[id]][id := t'.lead.peers[id]] == t.lead.peers[id := t'.lead.peers[id]];
  }

  /** In every reachable state a leader that holds back bulk data may probe each node that is not ahead of its term. */
  lemma LeaderProbes(c: Config, s: Cluster, v: nat, id: nat, batch: nat)
    requires Inv(c, s) && v in s.nodes && id in s.nodes && id != v && s.nodes[v].role.Leader?
    requires s.nodes[id].term <= s.nodes[v].term
    requires id in s.nodes[v].peers && (s.nodes[v].peers[id].suppressBulk || batch == 0)
    ensures Probes(c, v, id, batch, Talk(s.nodes[v], s.nodes[id], false, NoFault))
  {
    var h, n, f := s.history, s.nodes[v], s.nodes[id];
    assert RoleOk(c, h, v, n) && RoleOk(c, h, id, f) && NodeOk(c, h, id, f);
    assert PeerOk(h, n, id);
    MatchHeld(c, h, id, f, n);
  }

  /** A follower that is not ahead of the leader's term has the entries up to its match. */
  lemma MatchHeld(c: Config, h: History, id: nat, f: Node, lead: Node)
    requires HistoryOk(c, h) && NodeOk(c, h, id, f) && f.term <= lead.term
    requires lead.log == LogOf(h, lead.term) && id in lead.peers && PeerOk(h, lead, id)
    ensures var m := lead.peers[id].matchIndex;
            m <= |f.log| && m <= |lead.log| && LogIsOk(f.log, m, TermAt(lead.log, m))
  {
    var m := lead.peers[id].matchIndex;
    if m > 0 {
      assert f.term == lead.term;
      assert HoldsAcks(h, id, f.term, f.log, f.term + 1);
      assert Holds(h, f.log, f.term, m, f.term + 1);
      assert lead.log[..m] <= f.log;
      assert f.log[m - 1] == lead.log[..m][m - 1];
    }
  }

  /**
   In any reachable state of any run, a leader and a node that is not ahead of its term need at most as many rounds as
   there are indices above the match; then the match is an index up to which their logs are equal.
   */
  lemma ProbingEnds(c: Config, run: seq<Cluster>, steps: seq<Step>, i: nat, v: nat, id: nat, batch: nat,
                    maxDecrStep: nat)
    returns (k: nat)
    requires Run(c, run, steps) && i < |run| && v in run[i].nodes && id in run[i].nodes && id != v && maxDecrStep > 0
    requires run[i].nodes[v].role.Leader? && run[i].nodes[id].term <= run[i].nodes[v].term
    requires id in run[i].nodes[v].peers && (run[i].nodes[v].peers[id].suppressBulk || batch == 0)
    ensures var n, f := run[i].nodes[v], run[i].nodes[id];
            var t := Exchanges(c, v, id, batch, maxDecrStep, Talk(n, f, false, NoFault), k);
            && k <= n.peers[id].nextIndex - n.peers[id].matchIndex
            && t.accepted && t.fault.NoFault? && t.lead.log == n.log && t.follower.log == f.log && id in t.lead.peers
            && var m := t.lead.peers[id].matchIndex;
               m <= |n.log| && m <= |f.log| && n.log[..m] == f.log[..m]
  {
    var n, f := run[i].nodes[v], run[i].nodes[id];
    var t := Talk(n, f, false, NoFault);
    ProbesInRun(c, run, steps, i, v, id, batch);
    k := ProbeUntilAccepted(c, v, id, batch, maxDecrStep, t);
    EqualAtMatch(c, run, steps, i, v, id, Exchanges(c, v, id, batch, maxDecrStep, t, k).lead.peers[id].matchIndex);
  }

  lemma ProbesInRun(c: Config, run: seq<Cluster>, steps: seq<Step>, i: nat, v: nat, id: nat, batch: nat)
    requires Run(c, run, steps) && i < |run| && v in run[i].nodes && id in run[i].nodes && id != v
    requires run[i].nodes[v].role.Leader? && run[i].nodes[id].term <= run[i].nodes[v].term
    requires id in run[i].nodes[v].peers && (run[i].nodes[v].peers[id].suppressBulk || batch == 0)
    ensures Probes(c, v, id, batch, Talk(run[i].nodes[v], run[i].nodes[id], false, NoFault))
  {
    RunInv(c, run, steps, i);
    LeaderProbes(c, run[i], v, id, batch);
  }

  lemma EqualAtMatch(c: Config, run: seq<Cluster>, steps: seq<Step>, i: nat, v: nat, id: nat, m: nat)
    requires Run(c, run, steps) && i < |run| && v in run[i].nodes && id in run[i].nodes
    requires m <= |run[i].nodes[v].log| && m <= |run[i].nodes[id].log|
    requires LogIsOk(run[i].nodes[id].log, m, TermAt(run[i].nodes[v].log, m))
    ensures run[i].nodes[v].log[..m] == run[i].nodes[id].log[..m]
  {
    if m > 0 {
      LogsMatch(c, run, steps, i, i, v, id, m);
    }
  }
}
