/**
 A cluster of nodes with one fixed membership. Calls may be lost, delayed, reordered and served
 more than once; a caller sees at most one completion per call, and none after a restart.
 Clocks are choices: any enabled step may happen next.
 */
module RaftCluster {
  import opened RaftTypes
  import opened Quorum
  import opened RaftNode
  import opened RaftLedger

  datatype Request = AppendCall(append: AppendRequest) | VoteCall(vote: VoteRequest)
  datatype Reply = AppendReply(append: AppendResponse) | VoteReply(vote: VoteResponse)
  datatype Call = Call(src: nat, dst: nat, request: Request)

  /** `calls` and `replies` only grow; `open` holds the calls whose caller still waits. */
  datatype Cluster = Cluster(
    nodes: map<nat, Node>,
    calls: map<nat, Call>,
    open: set<nat>,
    replies: set<(nat, Reply)>,
    history: History)

  datatype Step =
    | TimeOut(v: nat, prevote: bool)
    | WinPrevote(v: nat)
    | WinElection(v: nat)
    | LoseAuthority(v: nat)
    | SendAppend(v: nat, peer: nat, id: nat, batch: nat)
    | SendVote(v: nat, peer: nat, id: nat)
    | ServeAppend(id: nat)
    | ServeVote(id: nat, timerExpired: bool)
    | FinishAppend(id: nat, appendResp: Option<AppendResponse>, maxDecrStep: nat)
    | FinishVote(id: nat, voteResp: Option<VoteResponse>)
    | TakeClientBatch(v: nat, entries: seq<Entry>)
    | MoveCommit(v: nat, m: nat)
    | Reboot(v: nat)

  function StartRole(c: Config, v: nat): Role {
    if IsVoter(c, v) then Follower else if IsLearner(c, v) then Learner else PreFollower
  }

  function InitialPeers(c: Config, v: nat): map<nat, Peer> {
    map id | id in c.roles && id != v :: Peer(false, false, 0, 1, true, true)
  }

  ghost predicate Init(c: Config, s: Cluster) {
    && ValidConfig(c)
    && s.nodes.Keys == c.roles.Keys
    && (forall v | v in s.nodes :: s.nodes[v] == Node(0, 0, [], StartRole(c, v), 0, 0, InitialPeers(c, v)))
    && s.calls == map[] && s.open == {} && s.replies == {}
    && s.history == History(map[], map[], map[])
  }

  /** The node that moves in a step. */
  function Actor(s: Cluster, step: Step): nat {
    match step
    case ServeAppend(id) => if id in s.calls then s.calls[id].dst else 0
    case ServeVote(id, _) => if id in s.calls then s.calls[id].dst else 0
    case FinishAppend(id, _, _) => if id in s.calls then s.calls[id].src else 0
    case FinishVote(id, _) => if id in s.calls then s.calls[id].src else 0
    case _ => step.v
  }

  ghost predicate Enabled(c: Config, s: Cluster, step: Step) {
    && Actor(s, step) in s.nodes
    && var n := s.nodes[Actor(s, step)];
       match step
       case SendAppend(v, peer, id, _) =>
         id !in s.calls && n.role.Leader? && peer in n.peers && n.peers[peer].aeReady && n.peers[peer].nextIndex > 0
       case SendVote(v, peer, id) =>
         && id !in s.calls && (n.role.Candidate? || n.role.PreCandidate?)
         && peer in n.peers && IsVoter(c, peer) && !n.peers[peer].voteDone
       case ServeAppend(id) => id in s.calls && s.calls[id].request.AppendCall?
       case ServeVote(id, _) => id in s.calls && s.calls[id].request.VoteCall?
       case FinishAppend(id, resp, maxDecrStep) =>
         && id in s.open && id in s.calls && s.calls[id].request.AppendCall? && maxDecrStep > 0
         && (resp.Some? ==> (id, AppendReply(resp.value)) in s.replies)
       case FinishVote(id, resp) =>
         && id in s.open && id in s.calls && s.calls[id].request.VoteCall?
         && (resp.Some? ==> (id, VoteReply(resp.value)) in s.replies)
       case MoveCommit(v, m) =>
         n.role.Leader? && AllKnown(c, v, n.peers) && IsCommitIndex(c, v, |n.log|, n.peers, m)
       case _ => true
  }

  /** What the acting node does: its next state and the assertion it would trip, if any. */
  function Act(c: Config, s: Cluster, step: Step): StepOutcome
    requires Actor(s, step) in s.nodes
    requires step.ServeAppend? ==> step.id in s.calls && s.calls[step.id].request.AppendCall?
    requires step.ServeVote? ==> step.id in s.calls && s.calls[step.id].request.VoteCall?
    requires step.FinishAppend? || step.FinishVote? ==> step.id in s.calls
    requires step.SendAppend? ==>
               step.peer in s.nodes[step.v].peers && s.nodes[step.v].peers[step.peer].nextIndex > 0
  {
    var n := s.nodes[Actor(s, step)];
    match step
    case TimeOut(v, prevote) => StepOutcome(ElectionTimeout(v, n, prevote), NoFault)
    case WinPrevote(v) => StepOutcome(BecomeCandidate(c, v, n), NoFault)
    case WinElection(v) => StepOutcome(BecomeLeader(c, v, n), NoFault)
    case LoseAuthority(v) => StepOutcome(LeadershipTimeout(n), NoFault)
    case SendAppend(v, peer, _, _) => StepOutcome(AfterSend(n, peer), NoFault)
    case SendVote(_, _, _) => StepOutcome(n, NoFault)
    case ServeAppend(id) =>
      var out := HandleAppendRequest(c, s.calls[id].dst, n, s.calls[id].request.append);
      StepOutcome(out.node, out.fault)
    case ServeVote(id, expired) =>
      StepOutcome(HandleVoteRequest(s.calls[id].dst, n, s.calls[id].request.vote, c, expired).node, NoFault)
    case FinishAppend(id, resp, maxDecrStep) => CompleteAppend(n, s.calls[id].dst, resp, maxDecrStep)
    case FinishVote(id, resp) =>
      StepOutcome(if resp.Some? then HandleVoteResponse(n, resp.value) else n, NoFault)
    case TakeClientBatch(_, es) => StepOutcome(HandleClientRequests(n, es), NoFault)
    case MoveCommit(_, m) => AdvanceCommit(n, m)
    case Reboot(v) => StepOutcome(Restart(n, StartRole(c, v)), NoFault)
  }

  /** What the history records of a step that took `v` from `n` to `n'`. */
  function Record(c: Config, s: Cluster, step: Step, v: nat, n: Node, n': Node): History
    requires step.ServeAppend? ==> step.id in s.calls && s.calls[step.id].request.AppendCall?
    requires step.ServeVote? ==> step.id in s.calls && s.calls[step.id].request.VoteCall?
  {
    var h := s.history;
    match step
    case TimeOut(_, _) => if n'.term > n.term then Cast(h, v, n', v) else h
    case WinPrevote(_) => if n'.term > n.term then Cast(h, v, n', v) else h
    case WinElection(_) =>
      if WinsElection(c, v, n) then Crown(h, v, n.term, VotesHeld(v, n.peers), n.log, n'.log) else h
    case ServeAppend(id) =>
      var out := HandleAppendRequest(c, v, n, s.calls[id].request.append);
      if out.reply.Some? && out.reply.value.success then
        Acknowledge(h, n'.term, v, out.reply.value.matchIndex)
      else h
    case ServeVote(id, expired) =>
      if n'.vote != 0 && (n'.term, v) !in h.ballots then Cast(h, v, n', n'.vote) else h
    case TakeClientBatch(_, _) =>
      if n.role.Leader? && n.term in h.reigns then Extend(h, v, n.term, n'.log) else h
    case _ => h
  }

  function CallsAfter(s: Cluster, step: Step, n: Node): map<nat, Call>
    requires step.SendAppend? ==> step.peer in n.peers && n.peers[step.peer].nextIndex > 0
  {
    match step
    case SendAppend(v, peer, id, batch) => s.calls[id := Call(v, peer, AppendCall(BuildAppend(v, n, peer, batch)))]
    case SendVote(v, peer, id) => s.calls[id := Call(v, peer, VoteCall(BuildVote(v, n)))]
    case _ => s.calls
  }

  function OpenAfter(s: Cluster, step: Step): set<nat> {
    match step
    case SendAppend(_, _, id, _) => s.open + {id}
    case SendVote(_, _, id) => s.open + {id}
    case FinishAppend(id, _, _) => s.open - {id}
    case FinishVote(id, _) => s.open - {id}
    case Reboot(v) => set id | id in s.open && id in s.calls && s.calls[id].src != v
    case _ => s.open
  }

  function RepliesAfter(c: Config, s: Cluster, step: Step, n: Node): set<(nat, Reply)>
    requires step.ServeAppend? ==> step.id in s.calls && s.calls[step.id].request.AppendCall?
    requires step.ServeVote? ==> step.id in s.calls && s.calls[step.id].request.VoteCall?
  {
    match step
    case ServeAppend(id) =>
      var out := HandleAppendRequest(c, s.calls[id].dst, n, s.calls[id].request.append);
      if out.reply.Some? then s.replies + {(id, AppendReply(out.reply.value))} else s.replies
    case ServeVote(id, expired) =>
      var out := HandleVoteRequest(s.calls[id].dst, n, s.calls[id].request.vote, c, expired);
      if out.reply.Some? then s.replies + {(id, VoteReply(out.reply.value))} else s.replies
    case _ => s.replies
  }

  ghost function After(c: Config, s: Cluster, step: Step): Cluster
    requires Enabled(c, s, step)
  {
    var v := Actor(s, step);
    var n := s.nodes[v];
    var n' := Act(c, s, step).node;
    Cluster(s.nodes[v := n'], CallsAfter(s, step, n), OpenAfter(s, step), RepliesAfter(c, s, step, n),
            Record(c, s, step, v, n, n'))
  }

  /** One step of the cluster. A node that trips an assertion aborts, so it makes no step but `Reboot`. */
  ghost predicate Next(c: Config, s: Cluster, step: Step, s': Cluster) {
    Enabled(c, s, step) && Act(c, s, step).fault.NoFault? && s' == After(c, s, step)
  }

  // ---------------------------------------------------------------- invariant

  /** `matchIndex < nextIndex <= lastIndex + 1`, and the match is acknowledged. */
  predicate PeerOk(h: History, n: Node, p: nat)
    requires p in n.peers
  {
    && n.peers[p].matchIndex < n.peers[p].nextIndex <= |n.log| + 1
    && (n.peers[p].matchIndex > 0 ==>
          (n.term, p) in h.acked && h.acked[(n.term, p)] >= n.peers[p].matchIndex)
  }

  ghost predicate CandidateOk(c: Config, h: History, v: nat, n: Node) {
    && n.vote == v
    && !(n.term in h.reigns && h.reigns[n.term].id == v)
    && (forall p | p in n.peers && n.peers[p].haveVote :: IsVoter(c, p) && VotedFor(h, n.term, p, v))
    && (forall u: nat | VotedFor(h, n.term, u, v) :: UpToDate(|n.log|, LastTerm(n.log), h.ballots[(n.term, u)].log))
  }

  ghost predicate LeaderOk(h: History, v: nat, n: Node) {
    && n.term in h.reigns && h.reigns[n.term].id == v
    && n.log == LogOf(h, n.term)
    && n.leaderId == v
    && (n.term, v) in h.acked && h.acked[(n.term, v)] == |n.log|
    && (forall p | p in n.peers :: PeerOk(h, n, p))
  }

  ghost predicate RoleOk(c: Config, h: History, v: nat, n: Node) {
    && n.peers.Keys == c.roles.Keys - {v}
    && (if n.role.Learner? || n.role.PreFollower? then n.role == StartRole(c, v) else IsVoter(c, v))
    && (n.leaderId != 0 ==> n.term in h.reigns && h.reigns[n.term].id == n.leaderId)
    && (n.role.Candidate? || n.role.PreCandidate? ==> n.leaderId == 0)
    && (forall t: nat | t in h.reigns && h.reigns[t].id == v :: t <= n.term)
    && (forall t: nat, u: nat | VotedFor(h, t, u, v) :: t <= n.term)
    && (n.role.Candidate? ==> CandidateOk(c, h, v, n))
    && (n.role.Leader? ==> LeaderOk(h, v, n))
  }

  ghost predicate AppendCallOk(c: Config, h: History, src: nat, r: AppendRequest) {
    && r.leaderId == src && IsVoter(c, src)
    && r.term in h.reigns && h.reigns[r.term].id == src
    && r.prevIndex + |r.entries| <= |LogOf(h, r.term)|
    && r.entries == LogOf(h, r.term)[r.prevIndex..r.prevIndex + |r.entries|]
    && r.prevTerm == TermAt(LogOf(h, r.term), r.prevIndex)
    && r.commitIndex <= r.prevIndex + |r.entries|
    && CommitOk(c, h, LogOf(h, r.term), r.commitIndex, r.term)
  }

  ghost predicate CallOk(c: Config, h: History, call: Call) {
    && call.src != call.dst && call.src in c.roles && call.dst in c.roles
    && match call.request
       case AppendCall(r) => AppendCallOk(c, h, call.src, r)
       case VoteCall(r) => r.candidateId == call.src && IsVoter(c, call.src) && IsVoter(c, call.dst)
  }

  predicate ReplyOk(h: History, call: Call, reply: Reply) {
    match call.request
    case AppendCall(r) =>
      && reply.AppendReply?
      && var a := reply.append;
         && a.id == call.dst && a.savedTerm == r.term && a.savedPrevIndex == r.prevIndex && a.term >= r.term
         && (a.success ==>
               && a.matchIndex == r.prevIndex + |r.entries|
               && (r.term, call.dst) in h.acked && h.acked[(r.term, call.dst)] >= a.matchIndex)
    case VoteCall(r) =>
      && reply.VoteReply?
      && var a := reply.vote;
         && a.id == call.dst && a.savedTerm == r.term && a.prevote == r.prevote
         && (a.granted && !a.prevote ==> VotedFor(h, r.term, call.dst, call.src))
  }

  function TermOf(r: Request): nat {
    if r.AppendCall? then r.append.term else r.vote.term
  }

  /** What a call says about the node that made it. */
  predicate CallerOk(n: Node, r: Request, open: bool) {
    && TermOf(r) <= n.term
    && (r.AppendCall? && open && r.append.term == n.term ==> n.role.Leader?)
    && (r.VoteCall? && !r.vote.prevote && r.vote.term == n.term && n.role.Candidate? ==>
          r.vote.lastIndex == |n.log| && r.vote.lastTerm == LastTerm(n.log))
  }

  ghost predicate NodesOk(c: Config, s: Cluster) {
    && (forall v {:trigger NodeOk(c, s.history, v, s.nodes[v])} | v in s.nodes :: NodeOk(c, s.history, v, s.nodes[v]))
    && (forall v {:trigger RoleOk(c, s.history, v, s.nodes[v])} | v in s.nodes :: RoleOk(c, s.history, v, s.nodes[v]))
  }

  ghost predicate CallsOk(c: Config, s: Cluster) {
    && (forall id {:trigger CallOk(c, s.history, s.calls[id])} | id in s.calls :: CallOk(c, s.history, s.calls[id]))
    && (forall id {:trigger s.calls[id].src} | id in s.calls ::
          && s.calls[id].src in s.nodes
          && CallerOk(s.nodes[s.calls[id].src], s.calls[id].request, id in s.open))
    && (forall id: nat, r: Reply | (id, r) in s.replies :: id in s.calls)
    && (forall id: nat, r: Reply {:trigger ReplyOk(s.history, s.calls[id], r)} | (id, r) in s.replies ::
          ReplyOk(s.history, s.calls[id], r))
  }

  ghost predicate Inv(c: Config, s: Cluster) {
    && ValidConfig(c) && s.nodes.Keys == c.roles.Keys
    && HistoryOk(c, s.history)
    && NodesOk(c, s)
    && CallsOk(c, s)
  }

  // ---------------------------------------------------------------- frames

  lemma CallGrows(c: Config, h: History, h': History, call: Call)
    requires Grows(h, h') && CallOk(c, h, call)
    ensures CallOk(c, h', call)
  {
    if call.request.AppendCall? {
      var r := call.request.append;
      var lead, lead' := LogOf(h, r.term), LogOf(h', r.term);
      assert lead <= lead';
      assert lead[r.prevIndex..r.prevIndex + |r.entries|] == lead'[r.prevIndex..r.prevIndex + |r.entries|];
      CommitOkGrows(c, h, h', lead, lead', r.commitIndex, r.term, r.term);
    }
  }

  /** The history changed only in ways that concern `v`. */
  ghost predicate Own(h: History, h': History, v: nat) {
    && Grows(h, h')
    && (forall u: nat | u != v :: Untouched(h, h', u))
    && (forall t: nat | t in h'.reigns && !(t in h.reigns && h'.reigns[t] == h.reigns[t]) :: h'.reigns[t].id == v)
  }

  /** The votes of `v` for others are for terms they reached, and respect the log of a standing candidate. */
  ghost predicate FairVote(s: Cluster, h': History, v: nat) {
    && (forall u: nat, t: nat | u in s.nodes && u != v && VotedFor(h', t, v, u) :: t <= s.nodes[u].term)
    && (forall u: nat | u in s.nodes && u != v && s.nodes[u].role.Candidate? && VotedFor(h', s.nodes[u].term, v, u) ::
          UpToDate(|s.nodes[u].log|, LastTerm(s.nodes[u].log), h'.ballots[(s.nodes[u].term, v)].log))
  }

  lemma RoleGrows(c: Config, s: Cluster, h': History, v: nat, u: nat)
    requires u in s.nodes && u != v && RoleOk(c, s.history, u, s.nodes[u])
    requires Own(s.history, h', v) && FairVote(s, h', v)
    ensures RoleOk(c, h', u, s.nodes[u])
  {
    var h, n := s.history, s.nodes[u];
    assert Untouched(h, h', u);
    forall t: nat, w: nat | VotedFor(h', t, w, u) ensures t <= n.term {
      if w != v {
        assert Untouched(h, h', w);
        assert VotedFor(h, t, w, u);
      }
    }
    if n.role.Candidate? {
      forall w: nat | VotedFor(h', n.term, w, u)
        ensures UpToDate(|n.log|, LastTerm(n.log), h'.ballots[(n.term, w)].log) {
        if w != v {
          assert Untouched(h, h', w);
          assert VotedFor(h, n.term, w, u);
        }
      }
    }
  }

  /** The acting node keeps what its calls say about it. */
  predicate CallerKeeps(n: Node, n': Node, silenced: bool) {
    || n'.term > n.term
    || (&& n'.term == n.term
        && (n'.role.Candidate? ==> n.role.Candidate? && n'.log == n.log)
        && (n.role.Leader? ==> n'.role.Leader? || silenced))
  }

  /** Only the acting node, its history and the set of open calls change. */
  lemma LocalStep(c: Config, s: Cluster, s': Cluster, v: nat, silenced: bool)
    requires Inv(c, s) && v in s.nodes
    requires v in s'.nodes && s'.nodes == s.nodes[v := s'.nodes[v]] && s'.calls == s.calls && s'.replies == s.replies
    requires s'.open <= s.open && (silenced ==> forall id | id in s'.open && id in s.calls :: s.calls[id].src != v)
    requires Own(s.history, s'.history, v) && FairVote(s, s'.history, v)
    requires HistoryOk(c, s'.history)
    requires NodeOk(c, s'.history, v, s'.nodes[v]) && RoleOk(c, s'.history, v, s'.nodes[v])
    requires CallerKeeps(s.nodes[v], s'.nodes[v], silenced)
    ensures Inv(c, s')
  {
    var h, h' := s.history, s'.history;
    forall u | u in s'.nodes ensures NodeOk(c, h', u, s'.nodes[u]) && RoleOk(c, h', u, s'.nodes[u]) {
      if u != v {
        assert NodeOk(c, h, u, s.nodes[u]) && RoleOk(c, h, u, s.nodes[u]);
        NodeGrows(c, h, h', u, s.nodes[u]);
        RoleGrows(c, s, h', v, u);
      }
    }
    LocalCalls(c, s, s', v, silenced);
  }

  lemma LocalCalls(c: Config, s: Cluster, s': Cluster, v: nat, silenced: bool)
    requires CallsOk(c, s) && v in s.nodes
    requires v in s'.nodes && s'.nodes == s.nodes[v := s'.nodes[v]] && s'.calls == s.calls && s'.replies == s.replies
    requires s'.open <= s.open && (silenced ==> forall id | id in s'.open && id in s.calls :: s.calls[id].src != v)
    requires Grows(s.history, s'.history) && CallerKeeps(s.nodes[v], s'.nodes[v], silenced)
    ensures CallsOk(c, s')
  {
    var h, h' := s.history, s'.history;
    forall id | id in s'.calls ensures CallOk(c, h', s'.calls[id]) {
      assert CallOk(c, h, s.calls[id]);
      CallGrows(c, h, h', s.calls[id]);
    }
    forall id | id in s'.calls
      ensures s'.calls[id].src in s'.nodes
              && CallerOk(s'.nodes[s'.calls[id].src], s'.calls[id].request, id in s'.open) {
      assert s.calls[id].src in s.nodes;
    }
    forall id: nat, r: Reply | (id, r) in s'.replies ensures id in s'.calls && ReplyOk(h', s'.calls[id], r) {
      assert ReplyOk(h, s.calls[id], r);
    }
  }

  /** The history is unchanged and the acting node moves. */
  lemma QuietStep(c: Config, s: Cluster, s': Cluster, v: nat)
    requires Inv(c, s) && v in s.nodes
    requires v in s'.nodes && s'.nodes == s.nodes[v := s'.nodes[v]] && s'.calls == s.calls && s'.replies == s.replies
    requires s'.open <= s.open && s'.history == s.history
    requires NodeOk(c, s.history, v, s'.nodes[v]) && RoleOk(c, s.history, v, s'.nodes[v])
    requires CallerKeeps(s.nodes[v], s'.nodes[v], false)
    ensures Inv(c, s')
  {
    QuietFair(c, s, v);
    LocalStep(c, s, s', v, false);
  }

  lemma QuietFair(c: Config, s: Cluster, v: nat)
    requires NodesOk(c, s)
    ensures FairVote(s, s.history, v)
  {
    forall u: nat, t: nat | u in s.nodes && VotedFor(s.history, t, v, u) ensures t <= s.nodes[u].term {
      assert RoleOk(c, s.history, u, s.nodes[u]);
    }
    forall u: nat | u in s.nodes && s.nodes[u].role.Candidate? && VotedFor(s.history, s.nodes[u].term, v, u)
      ensures UpToDate(|s.nodes[u].log|, LastTerm(s.nodes[u].log), s.history.ballots[(s.nodes[u].term, v)].log) {
      assert RoleOk(c, s.history, u, s.nodes[u]);
    }
  }

  lemma AddCall(c: Config, s: Cluster, s': Cluster, id: nat, call: Call)
    requires Inv(c, s) && id !in s.calls
    requires CallOk(c, s.history, call) && call.src in s.nodes && CallerOk(s.nodes[call.src], call.request, true)
    requires s' == s.(calls := s.calls[id := call], open := s.open + {id})
    ensures Inv(c, s')
  {
    forall i | i in s'.calls ensures CallOk(c, s'.history, s'.calls[i]) {
      assert i != id ==> CallOk(c, s.history, s.calls[i]);
    }
    forall i | i in s'.calls
      ensures s'.calls[i].src in s'.nodes && CallerOk(s'.nodes[s'.calls[i].src], s'.calls[i].request, i in s'.open) {
      if i != id { assert s.calls[i].src in s.nodes; }
    }
    forall i: nat, r: Reply | (i, r) in s'.replies ensures i in s'.calls && ReplyOk(s'.history, s'.calls[i], r) {
      assert ReplyOk(s.history, s.calls[i], r);
    }
    NodesSame(c, s, s');
  }

  lemma NodesSame(c: Config, s: Cluster, s': Cluster)
    requires NodesOk(c, s) && s'.nodes == s.nodes && s'.history == s.history
    ensures NodesOk(c, s')
  {
    forall v | v in s'.nodes ensures NodeOk(c, s'.history, v, s'.nodes[v]) && RoleOk(c, s'.history, v, s'.nodes[v]) {
      assert NodeOk(c, s.history, v, s.nodes[v]) && RoleOk(c, s.history, v, s.nodes[v]);
    }
  }

  lemma AddReply(c: Config, s: Cluster, s': Cluster, id: nat, reply: Reply)
    requires Inv(c, s) && id in s.calls && ReplyOk(s.history, s.calls[id], reply)
    requires s' == s.(replies := s.replies + {(id, reply)})
    ensures Inv(c, s')
  {
    forall i | i in s'.calls ensures CallOk(c, s'.history, s'.calls[i]) { assert CallOk(c, s.history, s.calls[i]); }
    forall i | i in s'.calls
      ensures s'.calls[i].src in s'.nodes && CallerOk(s'.nodes[s'.calls[i].src], s'.calls[i].request, i in s'.open) {
      assert s.calls[i].src in s.nodes;
    }
    forall i: nat, r: Reply | (i, r) in s'.replies ensures i in s'.calls && ReplyOk(s'.history, s'.calls[i], r) {
      if (i, r) != (id, reply) { assert ReplyOk(s.history, s.calls[i], r); }
    }
    NodesSame(c, s, s');
  }
}
