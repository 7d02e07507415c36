/**
 A run in which the probing assertion fails: a call that was open when its caller won another election lets two
 calls to the same peer be in flight, and the refusal of the first arrives after the second has found the match.
 */
module RaftProbeTrace {
  import opened RaftTypes
  import opened Quorum
  import opened RaftNode
  import opened RaftCluster
  import opened RaftSafety

  function Trio(): Config {
    Config(map[1 := Voter, 2 := Voter, 3 := Voter], {}, {}, {})
  }

  ghost predicate Reachable(s: Cluster) {
    exists run, steps :: Run(Trio(), run, steps) && run[|run| - 1] == s
  }

  lemma Extended(c: Config, run: seq<Cluster>, steps: seq<Step>, step: Step, s': Cluster)
    requires Run(c, run, steps) && Next(c, run[|run| - 1], step, s')
    ensures Run(c, run + [s'], steps + [step])
  {
    var run', steps' := run + [s'], steps + [step];
    forall i: nat | i < |steps'| ensures NextAt(c, run', steps', i) {
      if i < |steps| {
        assert NextAt(c, run', steps', i) == NextAt(c, run, steps, i);
      } else {
        assert NextAt(c, run', steps', i) == Next(c, run[|run| - 1], step, s');
      }
    }
  }

  /** Any enabled step that trips no assertion leads on; the history is of no interest here. */
  lemma Do(s: Cluster, step: Step) returns (s': Cluster)
    requires Reachable(s) && Enabled(Trio(), s, step) && Act(Trio(), s, step).fault.NoFault?
    ensures Reachable(s')
    ensures var v := Actor(s, step);
            && s'.nodes == s.nodes[v := Act(Trio(), s, step).node]
            && s'.calls == CallsAfter(s, step, s.nodes[v])
            && s'.open == OpenAfter(s, step)
            && s'.replies == RepliesAfter(Trio(), s, step, s.nodes[v])
  {
    s' := After(Trio(), s, step);
    assert Next(Trio(), s, step, s') == true;
    Lifted(s, step, s');
  }

  lemma Lifted(s: Cluster, step: Step, s': Cluster)
    requires Reachable(s) && Next(Trio(), s, step, s')
    ensures Reachable(s')
  {
    var run, steps :| Run(Trio(), run, steps) && run[|run| - 1] == s;
    Extended(Trio(), run, steps, step, s');
    assert (run + [s'])[|run|] == s';
  }

  function Start(): Cluster {
    var c := Trio();
    Cluster(map v | v in c.roles :: Node(0, 0, [], StartRole(c, v), 0, 0, InitialPeers(c, v)),
            map[], {}, {}, RaftLedger.History(map[], map[], map[]))
  }

  lemma StartIsRun()
    ensures Reachable(Start())
  {
    assert Init(Trio(), Start());
    assert Run(Trio(), [Start()], []);
  }

  lemma StartShape()
    ensures Shape(Start()) && forall v | v in Start().nodes :: Newborn(Start().nodes[v])
  {
    var nodes := Start().nodes;
    assert nodes.Keys == {1, 2, 3};
    assert InitialPeers(Trio(), 1).Keys == {2, 3};
    assert InitialPeers(Trio(), 2).Keys == {1, 3};
    assert InitialPeers(Trio(), 3).Keys == {1, 2};
  }

  predicate Newborn(n: Node) {
    n.term == 0 && n.log == [] && n.commitIndex == 0 && n.role.Follower?
  }

  /** Everybody knows everybody else, and node 2 is a follower with an empty log that helps others to win. */
  predicate Shape(s: Cluster) {
    && s.nodes.Keys == {1, 2, 3}
    && s.nodes[1].peers.Keys == {2, 3} && s.nodes[2].peers.Keys == {1, 3} && s.nodes[3].peers.Keys == {1, 2}
    && s.nodes[2].role.Follower? && s.nodes[2].log == []
  }

  lemma TwoOfThree(v: nat, votes: set<nat>)
    requires (v == 1 || v == 3) && v in votes && 2 in votes
    ensures VoteQuorum(Trio(), votes)
  {
    assert NonLearners(Trio(), Trio().roles.Keys) == {1, 2, 3};
    SubsetSize({v, 2}, {1, 2, 3} * votes);
  }

  /** The two states differ in node `v` only. */
  predicate OnlyNode(s: Cluster, s': Cluster, v: nat) {
    && v in s'.nodes && s'.nodes == s.nodes[v := s'.nodes[v]]
    && s'.calls == s.calls && s'.replies == s.replies
  }

  lemma DoTimeOut(s: Cluster, v: nat) returns (s': Cluster)
    requires Reachable(s) && v in s.nodes && (s.nodes[v].role.Follower? || s.nodes[v].role.Candidate?)
    ensures Reachable(s') && OnlyNode(s, s', v) && s'.open == s.open
    ensures s'.nodes[v] == StandForElection(v, s.nodes[v])
  {
    s' := Do(s, TimeOut(v, false));
  }

  function Ask(v: nat, n: Node): VoteRequest {
    VoteRequest(n.term, v, |n.log|, LastTerm(n.log), false)
  }

  lemma DoAsk(s: Cluster, v: nat, id: nat) returns (s': Cluster)
    requires Reachable(s) && v in s.nodes && id !in s.calls
    requires s.nodes[v].role.Candidate? && 2 in s.nodes[v].peers && !s.nodes[v].peers[2].voteDone
    ensures Reachable(s') && s'.nodes == s.nodes && s'.replies == s.replies && s'.open == s.open + {id}
    ensures s'.calls == s.calls[id := Call(v, 2, VoteCall(Ask(v, s.nodes[v])))]
  {
    s' := Do(s, SendVote(v, 2, id));
    assert s.nodes[v := s.nodes[v]] == s.nodes;
  }

  /** Node 2 grants the vote. */
  lemma Grant(s: Cluster, v: nat, id: nat) returns (s': Cluster)
    requires Reachable(s) && Shape(s) && (v == 1 || v == 3) && id in s.calls
    requires s.calls[id].src == v && s.calls[id].dst == 2 && s.calls[id].request.VoteCall?
    requires var req := s.calls[id].request.vote;
             !req.prevote && req.candidateId == v && req.term > s.nodes[2].term
    ensures Reachable(s') && s'.calls == s.calls && s'.open == s.open
    ensures s'.nodes == s.nodes[2 := StepDown(s.nodes[2], s.calls[id].request.vote.term).(vote := v)]
    ensures s'.replies == s.replies + {(id, VoteReply(Granted(s.calls[id].request.vote.term)))}
  {
    s' := Do(s, ServeVote(id, false));
  }

  function Granted(term: nat): VoteResponse {
    VoteResponse(term, true, 2, term, false)
  }

  lemma Campaign(s: Cluster, v: nat, id: nat) returns (s': Cluster)
    requires Reachable(s) && Shape(s) && (v == 1 || v == 3) && id !in s.calls
    requires s.nodes[v].role.Follower? || s.nodes[v].role.Candidate?
    requires s.nodes[2].term <= s.nodes[v].term
    ensures Reachable(s') && Shape(s')
    ensures s'.nodes == s.nodes[v := StandForElection(v, s.nodes[v])][2 := s'.nodes[2]]
    ensures s'.nodes[2].term == s.nodes[v].term + 1
    ensures id in s'.calls && s'.calls == s.calls[id := s'.calls[id]]
    ensures s'.calls[id].src == v && s'.calls[id].request.VoteCall?
    ensures s'.open == s.open + {id} && s.replies <= s'.replies
    ensures (id, VoteReply(Granted(s.nodes[v].term + 1))) in s'.replies
  {
    var s1 := DoTimeOut(s, v);
    var s2 := DoAsk(s1, v, id);
    s' := Grant(s2, v, id);
  }

  lemma DoCollect(s: Cluster, v: nat, id: nat) returns (s': Cluster)
    requires Reachable(s) && v in s.nodes && id in s.calls && id in s.open
    requires s.calls[id].src == v && s.calls[id].request.VoteCall?
    requires s.nodes[v].role.Candidate? && 2 in s.nodes[v].peers
    requires (id, VoteReply(Granted(s.nodes[v].term))) in s.replies
    ensures Reachable(s') && OnlyNode(s, s', v) && s'.open == s.open - {id}
    ensures s'.nodes[v] == s.nodes[v].(peers := s'.nodes[v].peers) && s'.nodes[v].peers.Keys == s.nodes[v].peers.Keys
    ensures 2 in s'.nodes[v].peers && s'.nodes[v].peers[2].haveVote
  {
    s' := Do(s, FinishVote(id, Some(Granted(s.nodes[v].term))));
  }

  lemma DoWin(s: Cluster, v: nat) returns (s': Cluster)
    requires Reachable(s) && v in s.nodes && (v == 1 || v == 3)
    requires s.nodes[v].role.Candidate? && 2 in s.nodes[v].peers && s.nodes[v].peers[2].haveVote
    ensures Reachable(s') && OnlyNode(s, s', v) && s'.open == s.open && Crowned(s.nodes[v], s'.nodes[v])
  {
    TwoOfThree(v, VotesHeld(v, s.nodes[v].peers));
    s' := Do(s, WinElection(v));
  }

  /** Node `v` stands, node 2 grants its vote, and `v` wins. */
  lemma Elect(s: Cluster, v: nat, id: nat) returns (s': Cluster)
    requires Reachable(s) && Shape(s) && (v == 1 || v == 3) && id !in s.calls && id !in s.open
    requires s.nodes[v].role.Follower? || s.nodes[v].role.Candidate?
    requires s.nodes[2].term <= s.nodes[v].term
    ensures Reachable(s') && Shape(s') && s'.nodes == s.nodes[v := s'.nodes[v]][2 := s'.nodes[2]]
    ensures Crowned(StandForElection(v, s.nodes[v]), s'.nodes[v]) && s'.nodes[2].term == s'.nodes[v].term
    ensures id in s'.calls && s'.calls == s.calls[id := s'.calls[id]] && s'.open == s.open && s.replies <= s'.replies
  {
    var s1 := Campaign(s, v, id);
    s' := Prevail(s1, v, id);
    assert s1.open - {id} == s.open;
  }

  lemma Prevail(s: Cluster, v: nat, id: nat) returns (s': Cluster)
    requires Reachable(s) && Shape(s) && (v == 1 || v == 3) && id in s.calls && id in s.open
    requires s.calls[id].src == v && s.calls[id].request.VoteCall? && s.nodes[v].role.Candidate?
    requires (id, VoteReply(Granted(s.nodes[v].term))) in s.replies
    ensures Reachable(s') && Shape(s') && OnlyNode(s, s', v) && s'.open == s.open - {id}
    ensures Crowned(s.nodes[v], s'.nodes[v])
  {
    var s1 := DoCollect(s, v, id);
    s' := DoWin(s1, v);
  }

  /** `n'` is the candidate `n` after it won. */
  predicate Crowned(n: Node, n': Node) {
    && n'.role.Leader? && n'.term == n.term
    && n'.log == n.log + [Entry(|n.log| + 1, n.term, true, "")]
    && n'.commitIndex == n.commitIndex && n'.peers.Keys == n.peers.Keys
    && forall p | p in n'.peers :: Fresh(n'.peers[p], |n.log| + 1)
  }

  predicate Fresh(p: Peer, next: nat) {
    p.nextIndex == next && p.matchIndex == 0 && p.suppressBulk && p.aeReady
  }

  // ---------------------------------------------------------------- node 1 probes node 3

  function Lead(): seq<Entry> {
    [Entry(1, 2, true, ""), Entry(2, 4, true, "")]
  }

  function Stale(): seq<Entry> {
    [Entry(1, 1, true, "")]
  }

  predicate Probed(p: Peer, next: nat, match_: nat, quiet: bool, ready: bool) {
    p.nextIndex == next && p.matchIndex == match_ && p.suppressBulk == quiet && p.aeReady == ready
  }

  /** Node 1 leads term 4 and is about to convince node 3, whose log is `log`. */
  predicate Stage(s: Cluster, log: seq<Entry>) {
    && 1 in s.nodes && 3 in s.nodes
    && s.nodes[1].role.Leader? && s.nodes[1].term == 4 && s.nodes[1].log == Lead() && s.nodes[1].commitIndex == 0
    && 3 in s.nodes[1].peers
    && Convincible(s.nodes[3], log)
  }

  predicate Convincible(n: Node, log: seq<Entry>) {
    && n.log == log && n.commitIndex == 0
    && (if n.term < 4 then !n.role.Learner? && !n.role.PreFollower?
        else n.term == 4 && n.role.Follower? && n.leaderId == 1)
  }

  function Probe(next: nat, es: seq<Entry>): AppendRequest
    requires 0 < next <= 3
  {
    AppendRequest(4, 1, next - 1, TermAt(Lead(), next - 1), es, 0)
  }

  /** The call is open, goes from node 1 to node 3 and carries the request. */
  predicate Asks(s: Cluster, id: nat, req: AppendRequest) {
    id in s.open && id in s.calls && s.calls[id] == Call(1, 3, AppendCall(req))
  }

  lemma DoProbe(s: Cluster, log: seq<Entry>, id: nat, next: nat, match_: nat, quiet: bool) returns (s': Cluster)
    requires Reachable(s) && Stage(s, log) && id !in s.calls && (next == 1 || next == 2)
    requires Probed(s.nodes[1].peers[3], next, match_, quiet, true)
    ensures Reachable(s') && Stage(s', log) && Probed(s'.nodes[1].peers[3], next, match_, quiet, false)
    ensures id in s'.calls && s'.calls == s.calls[id := s'.calls[id]]
    ensures s'.open == s.open + {id} && s'.replies == s.replies
    ensures Asks(s', id, Probe(next, if quiet then [] else Lead()[next - 1..next]))
  {
    s' := Do(s, SendAppend(1, 3, id, 1));
    assert Lead()[next - 1..next - 1] == [];
  }

  function Refused(): AppendResponse {
    AppendResponse(4, false, 3, 4, 1, 1, 0)
  }

  lemma Refuses(n: Node)
    requires Convincible(n, Stale())
    ensures var out := HandleAppendRequest(Trio(), 3, n, Probe(2, []));
            out.fault.NoFault? && out.reply == Some(Refused()) && Convincible(out.node, Stale())
  {
  }

  lemma Accepts(n: Node, es: seq<Entry>)
    requires Convincible(n, Stale()) && (es == [] || es == Lead()[0..1])
    ensures var out := HandleAppendRequest(Trio(), 3, n, Probe(1, es));
            && out.fault.NoFault? && out.reply == Some(Accepted(|es|))
            && Convincible(out.node, if es == [] then Stale() else Lead()[..1])
  {
    var n1 := FollowLeader(n, Probe(1, es));
    assert n1.term == 4 && n1.leaderId == 1 && n1.role.Follower? && n1.log == Stale();
    if es != [] {
      assert es[0] == Lead()[0] && MatchLen(Stale(), 0, es) == 0;
      assert Merge(Stale(), 0, es) == Stale()[..0] + es[0..] == es == Lead()[..1];
    } else {
      assert Merge(Stale(), 0, es) == Stale();
    }
  }

  /** Node 3 refuses index 1, where it has an entry of another term. */
  lemma DoRefuse(s: Cluster, id: nat) returns (s': Cluster)
    requires Reachable(s) && Stage(s, Stale()) && Asks(s, id, Probe(2, []))
    ensures Reachable(s') && Stage(s', Stale()) && s'.nodes[1] == s.nodes[1]
    ensures s'.calls == s.calls && s'.open == s.open
    ensures s'.replies == s.replies + {(id, AppendReply(Refused()))}
  {
    Refuses(s.nodes[3]);
    s' := Do(s, ServeAppend(id));
  }

  function Accepted(m: nat): AppendResponse {
    AppendResponse(4, true, 3, 4, 0, 1, m)
  }

  /** Node 3 accepts what follows index 0: nothing, or an entry that replaces its own. */
  lemma DoAccept(s: Cluster, id: nat, es: seq<Entry>) returns (s': Cluster)
    requires Reachable(s) && Stage(s, Stale()) && Asks(s, id, Probe(1, es)) && (es == [] || es == Lead()[0..1])
    ensures Reachable(s') && Stage(s', if es == [] then Stale() else Lead()[..1]) && s'.nodes[1] == s.nodes[1]
    ensures s'.calls == s.calls && s'.open == s.open
    ensures s'.replies == s.replies + {(id, AppendReply(Accepted(|es|)))}
  {
    Accepts(s.nodes[3], es);
    s' := Do(s, ServeAppend(id));
  }

  lemma DoFail(s: Cluster, log: seq<Entry>, id: nat, next: nat, match_: nat) returns (s': Cluster)
    requires Reachable(s) && Stage(s, log) && Probed(s.nodes[1].peers[3], next, match_, true, false)
    requires id in s.open && id in s.calls && s.calls[id].src == 1 && s.calls[id].dst == 3
    requires s.calls[id].request.AppendCall?
    ensures Reachable(s') && Stage(s', log) && Probed(s'.nodes[1].peers[3], next, match_, true, true)
    ensures s'.calls == s.calls && s'.open == s.open - {id} && s'.replies == s.replies
  {
    s' := Do(s, FinishAppend(id, None, 1));
  }

  lemma DoStepBack(s: Cluster, id: nat) returns (s': Cluster)
    requires Reachable(s) && Stage(s, Stale()) && Probed(s.nodes[1].peers[3], 2, 0, true, false)
    requires Asks(s, id, Probe(2, [])) && (id, AppendReply(Refused())) in s.replies
    ensures Reachable(s') && Stage(s', Stale()) && Probed(s'.nodes[1].peers[3], 1, 0, true, true)
    ensures s'.calls == s.calls && s'.open == s.open - {id} && s'.replies == s.replies
  {
    s' := Do(s, FinishAppend(id, Some(Refused()), 1));
  }

  lemma DoAdvance(s: Cluster, log: seq<Entry>, id: nat, es: seq<Entry>, quiet: bool) returns (s': Cluster)
    requires Reachable(s) && Stage(s, log) && Probed(s.nodes[1].peers[3], 1, 0, quiet, false)
    requires Asks(s, id, Probe(1, es)) && (id, AppendReply(Accepted(|es|))) in s.replies
    ensures Reachable(s') && Stage(s', log) && Probed(s'.nodes[1].peers[3], |es| + 1, |es|, false, true)
    ensures s'.calls == s.calls && s'.open == s.open - {id} && s'.replies == s.replies
  {
    s' := Do(s, FinishAppend(id, Some(Accepted(|es|)), 1));
  }

  // ---------------------------------------------------------------- the whole run

  /** Node 3 leads term 1. */
  lemma FirstReign() returns (s: Cluster)
    ensures Reachable(s) && Shape(s) && s.calls.Keys == {0} && s.open == {}
    ensures Newborn(s.nodes[1]) && s.nodes[2].term == 1 && Convincible(s.nodes[3], Stale())
  {
    StartIsRun();
    StartShape();
    s := Elect(Start(), 3, 0);
  }

  /** Node 1 leads term 2. */
  lemma SecondReign() returns (s: Cluster)
    ensures Reachable(s) && Shape(s) && s.calls.Keys == {0, 1} && s.open == {}
    ensures s.nodes[1].role.Leader? && s.nodes[1].term == 2 && s.nodes[1].log == Lead()[..1]
    ensures s.nodes[1].commitIndex == 0 && Fresh(s.nodes[1].peers[3], 1)
    ensures s.nodes[2].term == 2 && Convincible(s.nodes[3], Stale())
  {
    var s0 := FirstReign();
    var s1 := DoTimeOut(s0, 1);
    s := Elect(s1, 1, 1);
  }

  lemma DoHeartbeat(s: Cluster, id: nat) returns (s': Cluster)
    requires Reachable(s) && 1 in s.nodes && s.nodes[1].role.Leader? && 3 in s.nodes[1].peers && id !in s.calls
    requires s.nodes[1].peers[3].aeReady && s.nodes[1].peers[3].nextIndex > 0
    ensures Reachable(s') && 1 in s'.nodes && s'.nodes == s.nodes[1 := s'.nodes[1]]
    ensures s'.nodes[1] == s.nodes[1].(peers := s'.nodes[1].peers) && s'.nodes[1].peers.Keys == s.nodes[1].peers.Keys
    ensures id in s'.calls && s'.calls == s.calls[id := s'.calls[id]] && s'.open == s.open + {id}
    ensures s'.calls[id].src == 1 && s'.calls[id].dst == 3 && s'.calls[id].request.AppendCall?
  {
    s' := Do(s, SendAppend(1, 3, id, 1));
  }

  lemma DoLose(s: Cluster) returns (s': Cluster)
    requires Reachable(s) && 1 in s.nodes && s.nodes[1].role.Leader?
    ensures Reachable(s') && OnlyNode(s, s', 1) && s'.open == s.open
    ensures s'.nodes[1] == StepDown(s.nodes[1], s.nodes[1].term + 1)
  {
    s' := Do(s, LoseAuthority(1));
  }

  /** Node 1 sends a call in term 2, which stays open while it loses authority and wins term 4. */
  lemma LeftOpen() returns (s: Cluster)
    ensures Reachable(s) && Stage(s, Stale()) && Probed(s.nodes[1].peers[3], 2, 0, true, true)
    ensures s.calls.Keys == {0, 1, 2, 3} && s.open == {2}
    ensures s.calls[2].src == 1 && s.calls[2].dst == 3 && s.calls[2].request.AppendCall?
  {
    var s0 := SecondReign();
    var s1 := DoHeartbeat(s0, 2);
    var s2 := DoLose(s1);
    s := Elect(s2, 1, 3);
    assert s.nodes[1].log == Lead()[..1] + [Entry(2, 4, true, "")] == Lead();
  }

  /** The refusal of call 4 waits while call 2 fails, call 5 steps back, and calls 6 and 7 find the match. */
  lemma Overtaken() returns (s: Cluster)
    ensures Reachable(s) && Stage(s, Lead()[..1]) && Probed(s.nodes[1].peers[3], 2, 1, false, true)
    ensures Asks(s, 4, Probe(2, [])) && (4, AppendReply(Refused())) in s.replies
  {
    var s0 := LeftOpen();
    var s1 := DoProbe(s0, Stale(), 4, 2, 0, true);
    var s2 := DoRefuse(s1, 4);
    var s3 := DoFail(s2, Stale(), 2, 2, 0);
    s := MatchFound(s3);
  }

  lemma MatchFound(s: Cluster) returns (s': Cluster)
    requires Reachable(s) && Stage(s, Stale()) && Probed(s.nodes[1].peers[3], 2, 0, true, true)
    requires Asks(s, 4, Probe(2, [])) && (4, AppendReply(Refused())) in s.replies
    requires 5 !in s.calls && 6 !in s.calls && 7 !in s.calls
    ensures Reachable(s') && Stage(s', Lead()[..1]) && Probed(s'.nodes[1].peers[3], 2, 1, false, true)
    ensures Asks(s', 4, Probe(2, [])) && (4, AppendReply(Refused())) in s'.replies
  {
    var s1 := DoProbe(s, Stale(), 5, 2, 0, true);
    var s2 := DoRefuse(s1, 5);
    var s3 := DoStepBack(s2, 5);
    s' := BulkFound(s3);
  }

  lemma BulkFound(s: Cluster) returns (s': Cluster)
    requires Reachable(s) && Stage(s, Stale()) && Probed(s.nodes[1].peers[3], 1, 0, true, true)
    requires Asks(s, 4, Probe(2, [])) && (4, AppendReply(Refused())) in s.replies
    requires 6 !in s.calls && 7 !in s.calls
    ensures Reachable(s') && Stage(s', Lead()[..1]) && Probed(s'.nodes[1].peers[3], 2, 1, false, true)
    ensures Asks(s', 4, Probe(2, [])) && (4, AppendReply(Refused())) in s'.replies
  {
    var s4 := DoProbe(s, Stale(), 6, 1, 0, true);
    var s5 := DoAccept(s4, 6, []);
    var s6 := DoAdvance(s5, Stale(), 6, [], true);
    var s7 := DoProbe(s6, Stale(), 7, 1, 0, false);
    var s8 := DoAccept(s7, 7, Lead()[0..1]);
    s' := DoAdvance(s8, Lead()[..1], 7, Lead()[0..1], false);
  }

  /** After the run, the step trips the probing assertion. */
  ghost predicate Trips(run: seq<Cluster>, steps: seq<Step>, step: Step) {
    && Run(Trio(), run, steps)
    && Enabled(Trio(), run[|run| - 1], step)
    && Act(Trio(), run[|run| - 1], step).fault.NoProbeGap?
  }

  /** The probing assertion fails in some run. */
  lemma ProbingAssertionCanFail()
    ensures exists run, steps, step :: Trips(run, steps, step)
  {
    var s := Overtaken();
    var run, steps :| Run(Trio(), run, steps) && run[|run| - 1] == s;
    assert Trips(run, steps, FinishAppend(4, Some(Refused()), 1));
  }
}
