/**
 The models of the other threads let consensus change the node under them in certain ways. Here it is shown that
 every step of every cluster run is one of these ways, or a sequence of them.
 */
module RaftEnvironment {
  import opened RaftTypes
  import opened Quorum
  import opened RaftNode
  import opened RaftLedger
  import opened RaftCluster
  import opened RaftSteps
  import opened RaftSafety
  import opened RaftProjection
  import EventLog
  import LeaderPath
  import Pipeline
  import ReplyLoop

  type Raft = LeaderPath.Raft

  /** Node `n` as the other threads see it; the first `m` records are known to be committed. */
  predicate Mirrors(d: Decoder, r: Raft, n: Node, m: nat) {
    && r.term == n.term && r.leader == n.role.Leader? && r.pc.Free?
    && r.log == Project(d, n.log) && r.commit == n.commitIndex && r.stable == m
  }

  /** A sequence of steps of the raft thread. */
  ghost predicate Path(r: Raft, path: seq<LeaderPath.Step>, r': Raft)
    decreases |path|
  {
    if path == [] then r == r'
    else
      && LeaderPath.RaftStep(path[0]) && LeaderPath.RaftEnabled(r, path[0])
      && Path(LeaderPath.RaftAct(r, path[0]), path[1..], r')
  }

  lemma One(r: Raft, a: LeaderPath.Step)
    requires LeaderPath.RaftStep(a) && LeaderPath.RaftEnabled(r, a)
    ensures Path(r, [a], LeaderPath.RaftAct(r, a))
  {
    assert [a][1..] == [];
  }

  lemma {:induction false} Chain(r: Raft, p: seq<LeaderPath.Step>, mid: Raft, q: seq<LeaderPath.Step>, r': Raft)
    requires Path(r, p, mid) && Path(mid, q, r')
    ensures Path(r, p + q, r')
    decreases |p|
  {
    if p == [] {
      assert p + q == q;
    } else {
      Chain(LeaderPath.RaftAct(r, p[0]), p[1..], mid, q, r');
      assert (p + q)[1..] == p[1..] + q;
    }
  }

  // ---------------------------------------------------------------- single changes

  /** The node gives up what it is and moves to a later term. */
  lemma TermRises(r: Raft, next: nat) returns (path: seq<LeaderPath.Step>, r': Raft)
    requires r.pc.Free? && r.term < next
    ensures Path(r, path, r') && r' == r.(term := next, leader := false)
  {
    if r.leader {
      var mid := LeaderPath.RaftAct(r, LeaderPath.Demote(next));
      r' := LeaderPath.RaftAct(mid, LeaderPath.RaiseTerm(next));
      One(r, LeaderPath.Demote(next));
      One(mid, LeaderPath.RaiseTerm(next));
      path := [LeaderPath.Demote(next)] + [LeaderPath.RaiseTerm(next)];
      Chain(r, [LeaderPath.Demote(next)], mid, [LeaderPath.RaiseTerm(next)], r');
    } else {
      path := [LeaderPath.RaiseTerm(next)];
      r' := LeaderPath.RaftAct(r, LeaderPath.RaiseTerm(next));
      One(r, LeaderPath.RaiseTerm(next));
    }
  }

  lemma Wins(r: Raft) returns (path: seq<LeaderPath.Step>, r': Raft)
    requires r.pc.Free? && !r.leader && forall i | 0 <= i < |r.log| :: r.log[i].term < r.term
    ensures Path(r, path, r')
    ensures r' == r.(leader := true, log := r.log + [EventLog.Record(r.term, true, 0, [])],
                     reigned := r.reigned + {r.term}, noop := |r.log| + 1)
  {
    var mid := LeaderPath.RaftAct(r, LeaderPath.Crown);
    r' := LeaderPath.RaftAct(mid, LeaderPath.AppendNoop);
    One(r, LeaderPath.Crown);
    One(mid, LeaderPath.AppendNoop);
    path := [LeaderPath.Crown] + [LeaderPath.AppendNoop];
    Chain(r, [LeaderPath.Crown], mid, [LeaderPath.AppendNoop], r');
  }

  /** The log changes above what is committed, and the commit index may rise. */
  lemma LogTaken(r: Raft, log: seq<EventLog.Record>, commit: nat, stable: nat)
    returns (path: seq<LeaderPath.Step>, r': Raft)
    requires LeaderPath.RaftEnabled(r, LeaderPath.Follow(log)) && r.commit <= commit <= stable
    requires r.stable <= stable <= |log|
    ensures Path(r, path, r') && r' == r.(log := log, commit := commit, stable := stable)
  {
    var mid := LeaderPath.RaftAct(r, LeaderPath.Follow(log));
    r' := LeaderPath.RaftAct(mid, LeaderPath.Commit(commit, stable));
    One(r, LeaderPath.Follow(log));
    One(mid, LeaderPath.Commit(commit, stable));
    path := [LeaderPath.Follow(log)] + [LeaderPath.Commit(commit, stable)];
    Chain(r, [LeaderPath.Follow(log)], mid, [LeaderPath.Commit(commit, stable)], r');
  }

  // ---------------------------------------------------------------- client batches

  /** The request that an entry of a client batch came from. */
  predicate Came(d: Decoder, q: LeaderPath.Request, e: Entry) {
    !e.noop && q.term == e.term && q.id == e.index == d.id(e.payload) && q.events == d.events(e.payload)
  }

  predicate Batch(d: Decoder, inbox: seq<LeaderPath.Request>, es: seq<Entry>) {
    |es| <= |inbox| && forall k {:trigger inbox[k]} | 0 <= k < |es| :: Came(d, inbox[k], es[k])
  }

  /** The log after one request: it is kept by the leader whose term and next index it carries. */
  function Kept(leader: bool, term: nat, log: seq<Entry>, e: Entry): seq<Entry> {
    if leader && e.term == term && e.index == |log| + 1 then log + [e] else log
  }

  function KeptAll(leader: bool, term: nat, log: seq<Entry>, es: seq<Entry>): seq<Entry> {
    if leader then log + TakeInOrder(term, |log| + 1, es) else log
  }

  lemma KeptFirst(leader: bool, term: nat, log: seq<Entry>, es: seq<Entry>)
    requires es != []
    ensures KeptAll(leader, term, log, es) == KeptAll(leader, term, Kept(leader, term, log, es[0]), es[1..])
  {
    if leader && es[0].term == term && es[0].index == |log| + 1 {
      var rest := TakeInOrder(term, |log| + 2, es[1..]);
      assert log + ([es[0]] + rest) == (log + [es[0]]) + rest;
    }
  }

  lemma ProjectMore(d: Decoder, log: seq<Entry>, e: Entry)
    ensures Project(d, log + [e]) == Project(d, log) + [Decoded(d, e)]
  {
  }

  lemma HandleOne(d: Decoder, r: Raft, log: seq<Entry>, e: Entry)
    requires r.pc.Free? && r.log == Project(d, log) && r.inbox != [] && Came(d, r.inbox[0], e)
    ensures Path(r, [LeaderPath.HandleRequest], LeaderPath.Handled(r))
    ensures LeaderPath.Handled(r) == r.(log := Project(d, Kept(r.leader, r.term, log, e)), inbox := r.inbox[1..])
  {
    One(r, LeaderPath.HandleRequest);
    ProjectMore(d, log, e);
  }

  /** A node that handles requests one by one keeps those it would keep of the batch. */
  lemma {:induction false} BatchTaken(d: Decoder, r: Raft, log: seq<Entry>, es: seq<Entry>)
    returns (path: seq<LeaderPath.Step>, r': Raft)
    requires r.pc.Free? && r.log == Project(d, log) && Batch(d, r.inbox, es)
    ensures Path(r, path, r')
    ensures r' == r.(log := Project(d, KeptAll(r.leader, r.term, log, es)), inbox := r.inbox[|es|..])
    decreases |es|
  {
    if es == [] {
      path, r' := [], r;
      assert KeptAll(r.leader, r.term, log, es) == log;
    } else {
      assert Came(d, r.inbox[0], es[0]);
      HandleOne(d, r, log, es[0]);
      var mid := LeaderPath.Handled(r);
      assert forall k {:trigger mid.inbox[k]} | 0 <= k < |es[1..]| :: mid.inbox[k] == r.inbox[k + 1];
      var rest;
      rest, r' := BatchTaken(d, mid, Kept(r.leader, r.term, log, es[0]), es[1..]);
      path := [LeaderPath.HandleRequest] + rest;
      Chain(r, [LeaderPath.HandleRequest], mid, rest, r');
      KeptFirst(r.leader, r.term, log, es);
    }
  }

  // ---------------------------------------------------------------- one step of the cluster

  /** Nothing but the term may change, and no leader comes out of it. */
  predicate Quiet(n: Node, n': Node) {
    && n'.log == n.log && n'.commitIndex == n.commitIndex
    && (if n'.term == n.term then n'.role.Leader? == n.role.Leader? else n.term < n'.term && !n'.role.Leader?)
  }

  lemma QuietStep(c: Config, s: Cluster, step: Step)
    requires Enabled(c, s, step)
    requires !step.WinElection? && !step.ServeAppend? && !step.TakeClientBatch? && !step.MoveCommit? && !step.Reboot?
    ensures Quiet(s.nodes[Actor(s, step)], After(c, s, step).nodes[Actor(s, step)])
  {
  }

  lemma CommitRises(c: Config, s: Cluster, step: Step, v: nat)
    requires Enabled(c, s, step) && v in s.nodes && step != Reboot(v)
    ensures s.nodes[v].commitIndex <= After(c, s, step).nodes[v].commitIndex
  {
  }

  /** The first `m` entries of node `v` are committed, whether or not the node knows. */
  ghost predicate Sure(c: Config, s: Cluster, v: nat, m: nat) {
    v in s.nodes && s.nodes[v].commitIndex <= m && CommitOk(c, s.history, s.nodes[v].log, m, s.nodes[v].term)
  }

  ghost predicate Known(d: Decoder, c: Config, s: Cluster, v: nat, m: nat) {
    Inv(c, s) && ReignsStamped(d, s.history) && Sure(c, s, v, m)
  }

  /** How the log of a node changed in a step, in the terms of the other threads. */
  predicate LogMoved(d: Decoder, n: Node, m: nat, n': Node, m': nat) {
    && m <= m' <= |n'.log| && m <= |n.log|
    && n.commitIndex <= n'.commitIndex <= m' && n.term <= n'.term
    && EventLog.Agree(Project(d, n.log), Project(d, n'.log), m)
    && EventLog.IdsMatch(Project(d, n'.log), |n'.log|)
    && forall k {:trigger n'.log[k]} | 0 <= k < |n'.log| :: n'.log[k].term <= n'.term
  }

  lemma PrefixProjects(d: Decoder, a: seq<Entry>, b: seq<Entry>, m: nat)
    requires m <= |a| && a[..m] <= b
    ensures m <= |b| && EventLog.Agree(Project(d, a), Project(d, b), m)
  {
    forall k | 0 <= k < m ensures Project(d, a)[k] == Project(d, b)[k] {
      assert a[..m][k] == b[k];
    }
  }

  /** What is known to be committed stays known; what the node commits becomes known. */
  lemma StepMoves(d: Decoder, c: Config, s: Cluster, step: Step, v: nat, m: nat) returns (m': nat)
    requires Known(d, c, s, v, m) && Enabled(c, s, step) && step != Reboot(v)
    requires step.TakeClientBatch? ==> AllStamped(d, step.entries)
    ensures m' == Max(m, After(c, s, step).nodes[v].commitIndex)
    ensures Known(d, c, After(c, s, step), v, m') && LogMoved(d, s.nodes[v], m, After(c, s, step).nodes[v], m')
  {
    var s' := After(c, s, step);
    m' := Max(m, s'.nodes[v].commitIndex);
    StepKeeps(c, s, step);
    StampStep(d, c, s, step);
    StepKeepsPrefix(c, s, step, v, m);
    StepRaisesTerm(c, s, step, v);
    CommitRises(c, s, step, v);
    assert NodeOk(c, s'.history, v, s'.nodes[v]);
    PrefixProjects(d, s.nodes[v].log, s'.nodes[v].log, m);
    IdsOk(d, c, s', v);
  }

  lemma WinnerLog(c: Config, s: Cluster, v: nat)
    requires Inv(c, s) && v in s.nodes && WinsElection(c, v, s.nodes[v])
    ensures var n := s.nodes[v]; forall k {:trigger n.log[k]} | 0 <= k < |n.log| :: n.log[k].term < n.term
  {
    var h, n := s.history, s.nodes[v];
    assert NodeOk(c, h, v, n) && RoleOk(c, h, v, n);
    FirstLeader(c, h, v, n);
    forall k | 0 <= k < |n.log| ensures n.log[k].term < n.term {
      assert RootedAt(h, n.log, k + 1);
    }
  }

  /** The inbox after a step: a batch is taken from its front. */
  function Unread(step: Step, v: nat, inbox: seq<LeaderPath.Request>): seq<LeaderPath.Request>
    requires step.TakeClientBatch? && step.v == v ==> |step.entries| <= |inbox|
  {
    if step.TakeClientBatch? && step.v == v then inbox[|step.entries|..] else inbox
  }

  /** The threads that see node `v` as `r` see it as `r'` after raft steps only. */
  ghost predicate Reaches(d: Decoder, r: Raft, inbox: seq<LeaderPath.Request>, n': Node, m': nat) {
    exists path, r' :: Path(r, path, r') && Mirrors(d, r', n', m') && r'.inbox == inbox
  }

  lemma TakeTerm(d: Decoder, r: Raft, n: Node, m: nat, n1: Node) returns (path: seq<LeaderPath.Step>, r1: Raft)
    requires Mirrors(d, r, n, m) && Quiet(n, n1)
    ensures Path(r, path, r1) && Mirrors(d, r1, n1, m) && r1.inbox == r.inbox
  {
    if n1.term == n.term {
      path, r1 := [], r;
    } else {
      path, r1 := TermRises(r, n1.term);
    }
  }

  lemma TakeTold(d: Decoder, r: Raft, n: Node, m: nat, n': Node, m': nat)
    requires Mirrors(d, r, n, m) && LogMoved(d, n, m, n', m') && Told(n, n') && m' == Max(m, n'.commitIndex)
    requires n.commitIndex <= m
    ensures Reaches(d, r, r.inbox, n', m')
  {
    if n' == n {
      assert Path(r, [], r);
    } else {
      var n1 := n.(term := n'.term, role := n'.role);
      var p, r1 := TakeTerm(d, r, n, m, n1);
      var q, r' := LogTaken(r1, Project(d, n'.log), n'.commitIndex, m');
      Chain(r, p, r1, q, r');
    }
  }

  lemma TakeWin(d: Decoder, c: Config, v: nat, r: Raft, n: Node, m: nat)
    requires Mirrors(d, r, n, m) && WinsElection(c, v, n)
    requires forall k {:trigger n.log[k]} | 0 <= k < |n.log| :: n.log[k].term < n.term
    ensures Reaches(d, r, r.inbox, BecomeLeader(c, v, n), m)
  {
    forall i | 0 <= i < |r.log| ensures r.log[i].term < r.term {
      assert r.log[i] == Decoded(d, n.log[i]);
    }
    var p, r' := Wins(r);
    ProjectMore(d, n.log, Noop(n));
  }

  lemma TakeCommit(d: Decoder, r: Raft, n: Node, m: nat, n': Node, m': nat)
    requires Mirrors(d, r, n, m) && n' == n.(commitIndex := n'.commitIndex)
    requires n.commitIndex <= n'.commitIndex <= m' && m <= m' <= |n.log|
    ensures Reaches(d, r, r.inbox, n', m')
  {
    One(r, LeaderPath.Commit(n'.commitIndex, m'));
  }

  lemma TakeBatch(d: Decoder, r: Raft, n: Node, m: nat, es: seq<Entry>)
    requires Mirrors(d, r, n, m) && Batch(d, r.inbox, es)
    ensures Reaches(d, r, r.inbox[|es|..], HandleClientRequests(n, es), m)
  {
    var p, r' := BatchTaken(d, r, n.log, es);
  }

  /** Every step of a cluster that does not restart node `v` is a sequence of steps of its raft thread. */
  lemma StepIsPath(d: Decoder, c: Config, s: Cluster, step: Step, v: nat, r: Raft, m: nat) returns (m': nat)
    requires Known(d, c, s, v, m) && Mirrors(d, r, s.nodes[v], m)
    requires Enabled(c, s, step) && step != Reboot(v)
    requires step.TakeClientBatch? ==> AllStamped(d, step.entries)
    requires step.TakeClientBatch? && step.v == v ==> Batch(d, r.inbox, step.entries)
    ensures m' == Max(m, After(c, s, step).nodes[v].commitIndex) && Known(d, c, After(c, s, step), v, m')
    ensures Reaches(d, r, Unread(step, v, r.inbox), After(c, s, step).nodes[v], m')
  {
    m' := StepMoves(d, c, s, step, v, m);
    if Actor(s, step) != v {
      assert Path(r, [], r);
    } else {
      OwnStepIsPath(d, c, s, step, v, r, m, m');
    }
  }

  lemma OwnStepIsPath(d: Decoder, c: Config, s: Cluster, step: Step, v: nat, r: Raft, m: nat, m': nat)
    requires Known(d, c, s, v, m) && Mirrors(d, r, s.nodes[v], m)
    requires Enabled(c, s, step) && step != Reboot(v) && Actor(s, step) == v
    requires step.TakeClientBatch? ==> Batch(d, r.inbox, step.entries)
    requires m' == Max(m, After(c, s, step).nodes[v].commitIndex)
    requires LogMoved(d, s.nodes[v], m, After(c, s, step).nodes[v], m')
    ensures Reaches(d, r, Unread(step, v, r.inbox), After(c, s, step).nodes[v], m')
  {
    var n, n' := s.nodes[v], After(c, s, step).nodes[v];
    if step.ServeAppend? {
      ServeTold(c, s, step);
      TakeTold(d, r, n, m, n', m');
    } else if step.WinElection? {
      WinIsPath(d, c, s, v, r, m);
    } else if step.MoveCommit? {
      TakeCommit(d, r, n, m, n', m');
    } else if step.TakeClientBatch? {
      TakeBatch(d, r, n, m, step.entries);
    } else {
      QuietStep(c, s, step);
      var p, r1 := TakeTerm(d, r, n, m, n');
    }
  }

  lemma WinIsPath(d: Decoder, c: Config, s: Cluster, v: nat, r: Raft, m: nat)
    requires Known(d, c, s, v, m) && Mirrors(d, r, s.nodes[v], m)
    ensures Reaches(d, r, r.inbox, BecomeLeader(c, v, s.nodes[v]), m)
  {
    if WinsElection(c, v, s.nodes[v]) {
      WinnerLog(c, s, v);
      TakeWin(d, c, v, r, s.nodes[v], m);
    } else {
      assert Path(r, [], r);
    }
  }

  // ---------------------------------------------------------------- whole runs

  /** The entries that node `v` is handed by its clients between two moments. */
  function Incoming(steps: seq<Step>, v: nat, i: nat, j: nat): seq<Entry>
    requires i <= j <= |steps|
    decreases j - i
  {
    if i == j then []
    else if steps[i].TakeClientBatch? && steps[i].v == v then steps[i].entries + Incoming(steps, v, i + 1, j)
    else Incoming(steps, v, i + 1, j)
  }

  predicate StaysUp(steps: seq<Step>, v: nat, i: nat, j: nat)
    requires i <= j <= |steps|
  {
    forall k {:trigger steps[k]} | i <= k < j :: steps[k] != Reboot(v)
  }

  lemma BatchSplit(d: Decoder, inbox: seq<LeaderPath.Request>, a: seq<Entry>, b: seq<Entry>)
    requires Batch(d, inbox, a + b)
    ensures Batch(d, inbox, a) && Batch(d, inbox[|a|..], b)
    ensures inbox[|a|..][|b|..] == inbox[|a + b|..]
  {
    forall k | 0 <= k < |a| ensures Came(d, inbox[k], a[k]) {
      assert (a + b)[k] == a[k];
    }
    forall k | 0 <= k < |b| ensures Came(d, inbox[|a|..][k], b[k]) {
      assert (a + b)[|a| + k] == b[k] && inbox[|a|..][k] == inbox[|a| + k];
    }
  }

  lemma InboxSplit(d: Decoder, steps: seq<Step>, v: nat, i: nat, j: nat, inbox: seq<LeaderPath.Request>)
    requires i < j <= |steps| && Batch(d, inbox, Incoming(steps, v, i, j))
    ensures steps[i].TakeClientBatch? && steps[i].v == v ==> Batch(d, inbox, steps[i].entries)
    ensures var rest := Incoming(steps, v, i + 1, j);
            && Batch(d, Unread(steps[i], v, inbox), rest)
            && Unread(steps[i], v, inbox)[|rest|..] == inbox[|Incoming(steps, v, i, j)|..]
  {
    if steps[i].TakeClientBatch? && steps[i].v == v {
      BatchSplit(d, inbox, steps[i].entries, Incoming(steps, v, i + 1, j));
    }
  }

  lemma ReachesOn(d: Decoder, r: Raft, path: seq<LeaderPath.Step>, r1: Raft, inbox: seq<LeaderPath.Request>,
                  n: Node, m: nat)
    requires Path(r, path, r1) && Reaches(d, r1, inbox, n, m)
    ensures Reaches(d, r, inbox, n, m)
  {
    var q, r' :| Path(r1, q, r') && Mirrors(d, r', n, m) && r'.inbox == inbox;
    Chain(r, path, r1, q, r');
  }

  lemma KnownAt(d: Decoder, c: Config, run: seq<Cluster>, steps: seq<Step>, i: nat, v: nat)
    requires Run(c, run, steps) && StampedRun(d, steps) && i < |run| && v in run[i].nodes
    ensures Known(d, c, run[i], v, run[i].nodes[v].commitIndex)
  {
    RunInv(c, run, steps, i);
    RunStamped(d, c, run, steps, i);
    assert NodeOk(c, run[i].history, v, run[i].nodes[v]);
  }

  lemma RunStep(d: Decoder, c: Config, run: seq<Cluster>, steps: seq<Step>, i: nat, v: nat, r: Raft, m: nat)
    returns (path: seq<LeaderPath.Step>, r1: Raft, m1: nat)
    requires Run(c, run, steps) && StampedRun(d, steps) && i < |steps| && steps[i] != Reboot(v)
    requires Sure(c, run[i], v, m) && Mirrors(d, r, run[i].nodes[v], m)
    requires steps[i].TakeClientBatch? && steps[i].v == v ==> Batch(d, r.inbox, steps[i].entries)
    ensures m <= m1 && Sure(c, run[i + 1], v, m1)
    ensures Path(r, path, r1) && Mirrors(d, r1, run[i + 1].nodes[v], m1) && r1.inbox == Unread(steps[i], v, r.inbox)
  {
    KnownAt(d, c, run, steps, i, v);
    assert NextAt(c, run, steps, i);
    m1 := StepIsPath(d, c, run[i], steps[i], v, r, m);
    path, r1 :| && Path(r, path, r1) && Mirrors(d, r1, run[i + 1].nodes[v], m1)
                && r1.inbox == Unread(steps[i], v, r.inbox);
  }

  lemma {:induction false} RunReaches(d: Decoder, c: Config, run: seq<Cluster>, steps: seq<Step>, i: nat, j: nat,
                                      v: nat, r: Raft, m: nat)
    returns (m': nat)
    requires Run(c, run, steps) && StampedRun(d, steps) && i <= j < |run| && StaysUp(steps, v, i, j)
    requires Sure(c, run[i], v, m) && Mirrors(d, r, run[i].nodes[v], m)
    requires Batch(d, r.inbox, Incoming(steps, v, i, j))
    ensures m <= m' && Sure(c, run[j], v, m')
    ensures Reaches(d, r, r.inbox[|Incoming(steps, v, i, j)|..], run[j].nodes[v], m')
    decreases j - i
  {
    if i == j {
      m' := m;
      assert Path(r, [], r) && r.inbox[0..] == r.inbox;
    } else {
      InboxSplit(d, steps, v, i, j, r.inbox);
      var path, r1, m1 := RunStep(d, c, run, steps, i, v, r, m);
      m' := RunReaches(d, c, run, steps, i + 1, j, v, r1, m1);
      ReachesOn(d, r, path, r1, r.inbox[|Incoming(steps, v, i, j)|..], run[j].nodes[v], m');
    }
  }

  /**
   As long as a node is up, whatever the cluster does is to the node's other threads a sequence of legal steps of the
   raft thread. Its inbox holds the requests it will be handed; those that arrive later only lengthen it.
   */
  lemma RunIsPath(d: Decoder, c: Config, run: seq<Cluster>, steps: seq<Step>, i: nat, j: nat, v: nat, r: Raft, m: nat)
    requires Run(c, run, steps) && StampedRun(d, steps) && i <= j < |run| && StaysUp(steps, v, i, j)
    requires Sure(c, run[i], v, m) && Mirrors(d, r, run[i].nodes[v], m)
    requires Batch(d, r.inbox, Incoming(steps, v, i, j))
    ensures v in run[j].nodes
    ensures exists m' :: && m <= m' && Sure(c, run[j], v, m')
                         && Reaches(d, r, r.inbox[|Incoming(steps, v, i, j)|..], run[j].nodes[v], m')
  {
    var m' := RunReaches(d, c, run, steps, i, j, v, r, m);
  }

  /** What a node has ever committed is still known to be committed, however far it knows now. */
  lemma EverCommitted(c: Config, run: seq<Cluster>, steps: seq<Step>, i: nat, j: nat, v: nat)
    requires Run(c, run, steps) && i <= j < |run| && v in run[i].nodes
    ensures v in run[j].nodes
    ensures Sure(c, run[j], v, Max(run[i].nodes[v].commitIndex, run[j].nodes[v].commitIndex))
  {
    CommittedStaysInv(c, run, steps, i, j, v);
    CommittedStaysInv(c, run, steps, j, j, v);
  }

  /** A node whose threads have just started, on the disk of `n`, when `m` entries are known to be committed. */
  function Started(d: Decoder, n: Node, m: nat): LeaderPath.Node {
    var seen := LeaderPath.Seen(0, false);
    LeaderPath.Node(LeaderPath.Raft(n.term, false, LeaderPath.Free, Project(d, n.log), 0, m, [], {}, 0),
                    LeaderPath.Cpl(seen, seen, LeaderPath.Idle, 0, [], [], {}, []),
                    LeaderPath.Eal(LeaderPath.Stopped, LeaderPath.Empty(), []))
  }

  /** The state in which a node boots is one in which its threads may start, whatever is known to be committed. */
  lemma BootIsStart(d: Decoder, c: Config, run: seq<Cluster>, steps: seq<Step>, i: nat, v: nat, m: nat)
    requires Run(c, run, steps) && StampedRun(d, steps) && i < |run| && Sure(c, run[i], v, m)
    requires i == 0 || steps[i - 1] == Reboot(v)
    ensures LeaderPath.Init(Started(d, run[i].nodes[v], m))
    ensures Mirrors(d, Started(d, run[i].nodes[v], m).raft, run[i].nodes[v], m)
  {
    IdsMatchEverywhere(d, c, run, steps, i, v);
    if i > 0 {
      assert NextAt(c, run, steps, i - 1);
    }
  }

  /**
   A restarted node has forgotten how far it had committed. It may start, and its apply loop may recover, at the index
   of any checkpoint it wrote before, since that was committed then.
   */
  lemma RestartsFromCheckpoint(d: Decoder, c: Config, run: seq<Cluster>, steps: seq<Step>, i: nat, j: nat, v: nat,
                               offset: nat)
    requires Run(c, run, steps) && StampedRun(d, steps) && i <= j < |steps| && steps[j] == Reboot(v)
    requires v in run[i].nodes && offset <= run[i].nodes[v].commitIndex
    ensures v in run[j + 1].nodes && run[j + 1].nodes[v].commitIndex == 0
    ensures var m, n := run[i].nodes[v].commitIndex, run[j + 1].nodes[v];
            && Sure(c, run[j + 1], v, m) && LeaderPath.Init(Started(d, n, m)) && Mirrors(d, Started(d, n, m).raft, n, m)
            && LeaderPath.Enabled(Started(d, n, m), LeaderPath.Recover(offset))
  {
    assert NextAt(c, run, steps, j);
    EverCommitted(c, run, steps, i, j, v);
    EverCommitted(c, run, steps, i, j + 1, v);
    BootIsStart(d, c, run, steps, j + 1, v, run[i].nodes[v].commitIndex);
  }

  /** Each step of a run is also one that the event pipeline and the reply loop of every node allow. */
  lemma StepIsLegal(d: Decoder, c: Config, run: seq<Cluster>, steps: seq<Step>, i: nat, v: nat,
                    w: Pipeline.World, loop: ReplyLoop.Loop)
    returns (m: nat)
    requires Run(c, run, steps) && StampedRun(d, steps) && i < |steps| && v in run[i].nodes && steps[i] != Reboot(v)
    requires var n := run[i].nodes[v];
             && w.log == loop.log == Project(d, n.log)
             && w.commit == loop.commit == n.commitIndex && loop.term == n.term
    requires Sure(c, run[i], v, w.stable)
    ensures v in run[i + 1].nodes
    ensures var n' := run[i + 1].nodes[v]; var log' := Project(d, n'.log);
            && Pipeline.Next(w, Pipeline.Raft(log', n'.commitIndex, m),
                             w.(log := log', commit := n'.commitIndex, stable := m))
            && ReplyLoop.Enabled(loop, ReplyLoop.Raft(n'.term, log', n'.commitIndex))
            && Sure(c, run[i + 1], v, m)
  {
    KnownAt(d, c, run, steps, i, v);
    assert NextAt(c, run, steps, i);
    m := StepMoves(d, c, run[i], steps[i], v, w.stable);
  }

  // ---------------------------------------------------------------- end to end

  /** What is known to be committed on two nodes, at any two moments, is the same as far as both reach. */
  lemma SureAgree(d: Decoder, c: Config, run: seq<Cluster>, steps: seq<Step>, i: nat, a: nat, m: nat,
                  j: nat, b: nat, m': nat)
    requires Run(c, run, steps) && i < |run| && j < |run| && Sure(c, run[i], a, m) && Sure(c, run[j], b, m')
    ensures m <= |run[i].nodes[a].log| && m' <= |run[j].nodes[b].log|
    ensures EventLog.Agree(Project(d, run[i].nodes[a].log), Project(d, run[j].nodes[b].log), Min(m, m'))
  {
    var x, y, l := run[i].nodes[a], run[j].nodes[b], Min(m, m');
    var k := Meet(c, run, steps, i, j);
    CommitOkGrows(c, run[i].history, run[k].history, x.log, x.log, m, x.term, x.term);
    CommitOkGrows(c, run[j].history, run[k].history, y.log, y.log, m', y.term, y.term);
    CommittedAgree(c, run[k].history, x.log, m, x.term, y.log, m', y.term);
    assert x.log[..l] <= y.log;
    PrefixProjects(d, x.log, y.log, l);
  }

  /** The events a node has committed are a prefix of those of any node that has committed as much, at any moment. */
  lemma SameEvents(d: Decoder, c: Config, run: seq<Cluster>, steps: seq<Step>, i: nat, a: nat, m: nat,
                   j: nat, b: nat, m': nat)
    requires Run(c, run, steps) && i < |run| && j < |run| && Sure(c, run[i], a, m) && Sure(c, run[j], b, m') && m <= m'
    ensures m <= |run[i].nodes[a].log| && m' <= |run[j].nodes[b].log|
    ensures var log, log' := Project(d, run[i].nodes[a].log), Project(d, run[j].nodes[b].log);
            EventLog.EventsOf(log, m) <= EventLog.EventsOf(log', m')
  {
    SureAgree(d, c, run, steps, i, a, m, j, b, m');
    EventLog.EventsAgree(Project(d, run[i].nodes[a].log), Project(d, run[j].nodes[b].log), m);
    EventLog.EventsPrefix(Project(d, run[j].nodes[b].log), m, m');
  }

  /** A pipeline that reads the log of node `v` in the state `s`. */
  ghost predicate Reads(d: Decoder, c: Config, s: Cluster, v: nat, w: Pipeline.World) {
    Sure(c, s, v, w.stable) && w.log == Project(d, s.nodes[v].log) && w.commit == s.nodes[v].commitIndex
  }

  lemma DeliveredPrefix(w: Pipeline.World, u: Pipeline.World, offset: nat)
    requires offset <= w.pipe.pos <= u.pipe.pos <= |u.log| && w.pipe.pos <= |w.log|
    requires w.pipe.taken == EventLog.Bundles(w.log, offset, w.pipe.pos)
    requires u.pipe.taken == EventLog.Bundles(u.log, offset, u.pipe.pos)
    requires EventLog.Agree(w.log, u.log, w.pipe.pos)
    ensures w.pipe.taken <= u.pipe.taken
  {
    EventLog.BundlesAgree(w.log, u.log, offset, w.pipe.pos);
    EventLog.BundlesSplit(u.log, offset, w.pipe.pos, u.pipe.pos);
  }

  /**
   From consensus to state: the pipelines of any two nodes, at any two moments of a run of the cluster and in any
   interleaving of their threads, have handed out the same bundles in the same order, as far as both have come.
   */
  lemma DeliveriesAgree(d: Decoder, c: Config, run: seq<Cluster>, steps: seq<Step>, offset: nat,
                        i: nat, a: nat, ws: seq<Pipeline.World>, ms: seq<Pipeline.Move>, x: nat,
                        j: nat, b: nat, us: seq<Pipeline.World>, ns: seq<Pipeline.Move>, y: nat)
    requires Run(c, run, steps) && i < |run| && j < |run|
    requires Pipeline.Run(ws, ms, offset) && x < |ws| && Reads(d, c, run[i], a, ws[x])
    requires Pipeline.Run(us, ns, offset) && y < |us| && Reads(d, c, run[j], b, us[y])
    ensures ws[x].pipe.taken <= us[y].pipe.taken || us[y].pipe.taken <= ws[x].pipe.taken
  {
    Pipeline.DeliversInOrder(ws, ms, offset, x);
    Pipeline.DeliversInOrder(us, ns, offset, y);
    SureAgree(d, c, run, steps, i, a, ws[x].stable, j, b, us[y].stable);
    if ws[x].pipe.pos <= us[y].pipe.pos {
      DeliveredPrefix(ws[x], us[y], offset);
    } else {
      DeliveredPrefix(us[y], ws[x], offset);
    }
  }
}
