/**
 A cluster of `RaftCore.Core` objects and a network. Whatever steps a run of the cluster model takes, the objects
 take them too: each handler leaves its object in the state of the model and produces the model's messages, so that
 everything proved about runs holds of the objects.
 */
module RaftDriver {
  import opened RaftTypes
  import opened Quorum
  import opened RaftCluster
  import opened RaftSafety
  import RaftNode
  import RaftCore

  type Core = RaftCore.Core

  /** The object is node `v` in the state `n`. */
  ghost predicate Is(core: Core, c: Config, v: nat, n: RaftNode.Node)
    reads core
  {
    core.self == v && core.config == c && core.Valid() && core.View() == n
  }

  /** The objects are in the state `s`. */
  ghost predicate Follows(cores: map<nat, Core>, c: Config, s: Cluster)
    reads cores.Values
  {
    && cores.Keys == s.nodes.Keys
    && forall v {:trigger Is(cores[v], c, v, s.nodes[v])} | v in cores :: Is(cores[v], c, v, s.nodes[v])
  }

  /** A step of a node that neither sends nor answers a message. */
  method Turn(core: Core, c: Config, ghost s: Cluster, step: Step) returns (fault: RaftNode.Fault)
    requires core.Valid() && core.config == c && core.self == Actor(s, step)
    requires Enabled(c, s, step) && core.View() == s.nodes[core.self]
    requires step.TimeOut? || step.WinPrevote? || step.WinElection? || step.LoseAuthority? || step.TakeClientBatch?
             || step.MoveCommit? || step.Reboot?
    modifies core
    ensures core.Valid()
    ensures fault == Act(c, s, step).fault && (fault.NoFault? ==> core.View() == Act(c, s, step).node)
  {
    fault := RaftNode.NoFault;
    match step {
      case TimeOut(_, prevote) => core.ElectionTimeout(prevote);
      case WinPrevote(_) => core.BecomeCandidate();
      case WinElection(_) => core.BecomeLeader();
      case LoseAuthority(_) => core.LeadershipTimeout(true);
      case TakeClientBatch(_, entries) => core.HandleClientRequests(entries);
      case MoveCommit(_, index) =>
        ghost var n := core.View();
        fault := core.AdvanceCommitIndex();
        ghost var m :| && IsCommitIndex(c, core.self, |n.log|, n.peers, m)
                       && RaftNode.StepOutcome(core.View(), fault) == RaftNode.AdvanceCommit(n, m);
        CommitIndexUnique(c, core.self, |n.log|, n.peers, m, index);
      case Reboot(_) => core.Restart(StartRole(c, core.self));
    }
  }

  /** A step that sends a request. */
  method Send(core: Core, c: Config, ghost s: Cluster, step: Step) returns (request: Request)
    requires core.Valid() && core.config == c && core.self == Actor(s, step)
    requires Enabled(c, s, step) && core.View() == s.nodes[core.self] && (step.SendAppend? || step.SendVote?)
    modifies core
    ensures core.Valid() && core.View() == Act(c, s, step).node
    ensures CallsAfter(s, step, s.nodes[core.self]) == s.calls[step.id := Call(core.self, step.peer, request)]
  {
    if step.SendAppend? {
      var r := core.AppendEntriesTo(step.peer, step.batch);
      request := AppendCall(r);
    } else {
      var r := core.RequestVote();
      request := VoteCall(r);
    }
  }

  /** A step that serves the request of call `id`. */
  method Serve(core: Core, c: Config, ghost s: Cluster, step: Step, request: Request)
    returns (reply: Option<Reply>, fault: RaftNode.Fault)
    requires core.Valid() && core.config == c && core.self == Actor(s, step)
    requires Enabled(c, s, step) && core.View() == s.nodes[core.self] && (step.ServeAppend? || step.ServeVote?)
    requires request == s.calls[step.id].request
    modifies core
    ensures core.Valid()
    ensures fault.NoFault? <==> Act(c, s, step).fault.NoFault?
    ensures fault.NoFault? ==>
              && core.View() == Act(c, s, step).node
              && RepliesAfter(c, s, step, s.nodes[core.self])
                 == if reply.Some? then s.replies + {(step.id, reply.value)} else s.replies
  {
    if step.ServeAppend? {
      var r;
      r, fault := core.HandleAppendEntriesRequest(request.append);
      reply := if r.Some? then Some(AppendReply(r.value)) else None;
    } else {
      var r := core.HandleRequestVoteRequest(request.vote, step.timerExpired);
      reply, fault := if r.Some? then Some(VoteReply(r.value)) else None, RaftNode.NoFault;
    }
  }

  /** A step in which a caller learns the outcome of its call. */
  method Finish(core: Core, c: Config, ghost s: Cluster, step: Step, peer: nat) returns (fault: RaftNode.Fault)
    requires core.Valid() && core.config == c && core.self == Actor(s, step)
    requires Enabled(c, s, step) && core.View() == s.nodes[core.self] && (step.FinishAppend? || step.FinishVote?)
    requires peer == s.calls[step.id].dst
    modifies core
    ensures core.Valid()
    ensures fault == Act(c, s, step).fault && (fault.NoFault? ==> core.View() == Act(c, s, step).node)
  {
    fault := RaftNode.NoFault;
    if step.FinishAppend? {
      fault := core.CompleteAppendEntries(peer, step.appendResp, step.maxDecrStep);
    } else if step.voteResp.Some? {
      core.HandleRequestVoteResponse(step.voteResp.value);
    }
  }

  /** What is on the network, apart from who waits. */
  datatype Net = Net(calls: map<nat, Call>, replies: set<(nat, Reply)>)

  /** One step, taken by the object it concerns; what it sends goes to the network. */
  method Dispatch(core: Core, net: Net, c: Config, ghost s: Cluster, step: Step)
    returns (net': Net, fault: RaftNode.Fault)
    requires core.Valid() && core.config == c && core.self == Actor(s, step)
    requires Enabled(c, s, step) && core.View() == s.nodes[core.self] && net == Net(s.calls, s.replies)
    modifies core
    ensures core.Valid()
    ensures fault.NoFault? <==> Act(c, s, step).fault.NoFault?
    ensures fault.NoFault? ==>
              && core.View() == Act(c, s, step).node
              && net'.calls == CallsAfter(s, step, s.nodes[core.self])
              && net'.replies == RepliesAfter(c, s, step, s.nodes[core.self])
  {
    net', fault := net, RaftNode.NoFault;
    if step.SendAppend? || step.SendVote? {
      var request := Send(core, c, s, step);
      net' := net.(calls := net.calls[step.id := Call(core.self, step.peer, request)]);
    } else if step.ServeAppend? || step.ServeVote? {
      var reply;
      reply, fault := Serve(core, c, s, step, net.calls[step.id].request);
      if reply.Some? {
        net' := net.(replies := net.replies + {(step.id, reply.value)});
      }
    } else if step.FinishAppend? || step.FinishVote? {
      fault := Finish(core, c, s, step, net.calls[step.id].dst);
    } else {
      fault := Turn(core, c, s, step);
    }
  }

  /** The node that a step concerns, as the network knows it. */
  function Target(net: Net, step: Step): nat
    requires step.ServeAppend? || step.ServeVote? || step.FinishAppend? || step.FinishVote? ==> step.id in net.calls
  {
    match step
    case ServeAppend(id) => net.calls[id].dst
    case ServeVote(id, _) => net.calls[id].dst
    case FinishAppend(id, _, _) => net.calls[id].src
    case FinishVote(id, _) => net.calls[id].src
    case _ => step.v
  }

  /** The same, with what it leads to given. */
  method DispatchTo(core: Core, net: Net, c: Config, ghost s: Cluster, step: Step,
                    ghost out: RaftNode.StepOutcome, ghost after: Net)
    returns (net': Net, fault: RaftNode.Fault)
    requires Enabled(c, s, step) && Is(core, c, Actor(s, step), s.nodes[Actor(s, step)])
    requires net == Net(s.calls, s.replies) && out == Act(c, s, step)
    requires after == Net(CallsAfter(s, step, s.nodes[Actor(s, step)]),
                          RepliesAfter(c, s, step, s.nodes[Actor(s, step)]))
    modifies core
    ensures fault.NoFault? <==> out.fault.NoFault?
    ensures fault.NoFault? ==> Is(core, c, core.self, out.node) && net' == after
  {
    net', fault := Dispatch(core, net, c, s, step);
  }

  function Rest(cores: map<nat, Core>, v: nat): set<Core> {
    set u | u in cores && u != v :: cores[u]
  }

  /** All objects but that of `v` are what they should be. */
  ghost predicate Others(cores: map<nat, Core>, c: Config, v: nat, nodes: map<nat, RaftNode.Node>)
    reads Rest(cores, v)
  {
    forall u {:trigger cores[u]} | u in cores && u != v :: u in nodes && Is(cores[u], c, u, nodes[u])
  }

  lemma TakeApart(cores: map<nat, Core>, c: Config, s: Cluster, v: nat)
    requires Follows(cores, c, s) && v in s.nodes
    ensures v in cores && Is(cores[v], c, v, s.nodes[v])
    ensures Others(cores, c, v, s.nodes) && cores[v] !in Rest(cores, v)
  {
    forall u | u in cores ensures u in s.nodes && Is(cores[u], c, u, s.nodes[u]) {}
  }

  lemma PutTogether(cores: map<nat, Core>, c: Config, v: nat, nodes: map<nat, RaftNode.Node>, n: RaftNode.Node)
    requires v in cores && Others(cores, c, v, nodes) && Is(cores[v], c, v, n)
    ensures var nodes' := nodes[v := n];
            forall u {:trigger Is(cores[u], c, u, nodes'[u])} | u in cores ::
              u in nodes' && Is(cores[u], c, u, nodes'[u])
  {
  }

  /** The object that a step concerns moves, all others stay. */
  method MoveOne(cores: map<nat, Core>, net: Net, c: Config, ghost s: Cluster, step: Step,
                 ghost nodes: map<nat, RaftNode.Node>, ghost after: Net)
    returns (net': Net, fault: RaftNode.Fault)
    requires Follows(cores, c, s) && net == Net(s.calls, s.replies) && Enabled(c, s, step)
    requires nodes == s.nodes[Actor(s, step) := Act(c, s, step).node]
    requires after == Net(CallsAfter(s, step, s.nodes[Actor(s, step)]),
                          RepliesAfter(c, s, step, s.nodes[Actor(s, step)]))
    modifies cores.Values
    ensures fault.NoFault? <==> Act(c, s, step).fault.NoFault?
    ensures fault.NoFault? ==>
              && (forall u {:trigger Is(cores[u], c, u, nodes[u])} | u in cores :: Is(cores[u], c, u, nodes[u]))
              && net' == after
  {
    var v := Target(net, step);
    TakeApart(cores, c, s, v);
    net', fault := DispatchTo(cores[v], net, c, s, step, Act(c, s, step), after);
    if fault.NoFault? {
      PutTogether(cores, c, v, s.nodes, Act(c, s, step).node);
    }
  }

  /** One step of the cluster. */
  method Perform(cores: map<nat, Core>, net: Net, c: Config, ghost s: Cluster, step: Step)
    returns (net': Net, fault: RaftNode.Fault)
    requires Follows(cores, c, s) && net == Net(s.calls, s.replies) && Enabled(c, s, step)
    modifies cores.Values
    ensures fault.NoFault? <==> Act(c, s, step).fault.NoFault?
    ensures fault.NoFault? ==>
              && Follows(cores, c, After(c, s, step))
              && net' == Net(After(c, s, step).calls, After(c, s, step).replies)
  {
    ghost var s' := After(c, s, step);
    net', fault := MoveOne(cores, net, c, s, step, s'.nodes, Net(s'.calls, s'.replies));
  }

  function Newborn(c: Config, v: nat): RaftNode.Node {
    RaftNode.Node(0, 0, [], StartRole(c, v), 0, 0, InitialPeers(c, v))
  }

  method Boot(c: Config) returns (cores: map<nat, Core>)
    requires ValidConfig(c) && Countable(c)
    ensures cores.Keys == c.roles.Keys && fresh(cores.Values)
    ensures forall v {:trigger Is(cores[v], c, v, Newborn(c, v))} | v in cores :: Is(cores[v], c, v, Newborn(c, v))
  {
    cores := map[];
    var rest := c.roles.Keys;
    while rest != {}
      invariant cores.Keys + rest == c.roles.Keys && cores.Keys !! rest
      invariant forall v {:trigger cores[v]} | v in cores :: fresh(cores[v])
      invariant forall v {:trigger Is(cores[v], c, v, Newborn(c, v))} | v in cores :: Is(cores[v], c, v, Newborn(c, v))
    {
      var v :| v in rest;
      assert forall u | u in cores :: Is(cores[u], c, u, Newborn(c, u));
      var core := new RaftCore.Core(v, c, StartRole(c, v));
      assert Is(core, c, v, Newborn(c, v));
      ghost var before := cores;
      cores := cores[v := core];
      rest := rest - {v};
      assert forall u | u in before :: cores[u] == before[u];
    }
    assert forall o | o in cores.Values :: exists v :: v in cores && cores[v] == o;
  }

  lemma Started(cores: map<nat, Core>, c: Config, s: Cluster)
    requires Init(c, s) && cores.Keys == c.roles.Keys
    requires forall v {:trigger Is(cores[v], c, v, Newborn(c, v))} | v in cores :: Is(cores[v], c, v, Newborn(c, v))
    ensures Follows(cores, c, s)
  {
    forall v | v in cores ensures Is(cores[v], c, v, s.nodes[v]) {
      assert Is(cores[v], c, v, Newborn(c, v));
    }
  }

  /** For every run there are objects that take all its steps without a fault and end in its last state. */
  method Execute(c: Config, ghost run: seq<Cluster>, steps: seq<Step>) returns (cores: map<nat, Core>, net: Net)
    requires Countable(c) && Run(c, run, steps)
    ensures Follows(cores, c, run[|steps|])
    ensures net == Net(run[|steps|].calls, run[|steps|].replies)
  {
    cores := Boot(c);
    net := Net(map[], {});
    Started(cores, c, run[0]);
    var i: nat := 0;
    while i < |steps|
      invariant i <= |steps| && fresh(cores.Values)
      invariant Follows(cores, c, run[i]) && net == Net(run[i].calls, run[i].replies)
    {
      net := PerformNext(cores, net, c, run, steps, i);
      i := i + 1;
    }
  }

  method PerformNext(cores: map<nat, Core>, net: Net, c: Config, ghost run: seq<Cluster>, steps: seq<Step>, i: nat)
    returns (net': Net)
    requires Run(c, run, steps) && i < |steps|
    requires Follows(cores, c, run[i]) && net == Net(run[i].calls, run[i].replies)
    modifies cores.Values
    ensures Follows(cores, c, run[i + 1]) && net' == Net(run[i + 1].calls, run[i + 1].replies)
  {
    assert NextAt(c, run, steps, i);
    var fault;
    net', fault := Perform(cores, net, c, run[i], steps[i]);
  }
}
