/** Safety of every run of a cluster with fixed membership. States may be compared across time. */
module RaftSafety {
  import opened RaftTypes
  import opened Quorum
  import opened RaftNode
  import opened RaftLedger
  import opened RaftCluster
  import opened RaftSteps

  /** A run: its states, and the steps between them. */
  ghost predicate Run(c: Config, run: seq<Cluster>, steps: seq<Step>) {
    && |run| == |steps| + 1
    && Init(c, run[0])
    && (forall i: nat {:trigger NextAt(c, run, steps, i)} | i < |steps| :: NextAt(c, run, steps, i))
  }

  ghost predicate NextAt(c: Config, run: seq<Cluster>, steps: seq<Step>, i: nat)
    requires i < |steps| && |run| == |steps| + 1
  {
    Next(c, run[i], steps[i], run[i + 1])
  }

  lemma InitInv(c: Config, s: Cluster)
    requires Init(c, s)
    ensures Inv(c, s)
  {
    forall v | v in s.nodes ensures NodeOk(c, s.history, v, s.nodes[v]) && RoleOk(c, s.history, v, s.nodes[v]) {
      assert s.nodes[v].peers.Keys == c.roles.Keys - {v};
    }
  }

  lemma {:induction false} RunInv(c: Config, run: seq<Cluster>, steps: seq<Step>, i: nat)
    requires Run(c, run, steps) && i < |run|
    ensures Inv(c, run[i])
  {
    if i == 0 {
      InitInv(c, run[0]);
    } else {
      RunInv(c, run, steps, i - 1);
      assert NextAt(c, run, steps, i - 1);
      StepKeeps(c, run[i - 1], steps[i - 1]);
    }
  }

  lemma GrowsInRun(c: Config, run: seq<Cluster>, steps: seq<Step>, i: nat)
    requires Run(c, run, steps) && i < |steps|
    ensures Grows(run[i].history, run[i + 1].history)
  {
    RunInv(c, run, steps, i);
    assert NextAt(c, run, steps, i);
    StepKeeps(c, run[i], steps[i]);
  }

  lemma {:induction false} RunGrows(c: Config, run: seq<Cluster>, steps: seq<Step>, i: nat, j: nat)
    requires Run(c, run, steps) && i <= j < |run|
    ensures Grows(run[i].history, run[j].history)
    decreases j
  {
    if i < j {
      RunGrows(c, run, steps, i, j - 1);
      GrowsInRun(c, run, steps, j - 1);
      GrowsTransitive(run[i].history, run[j - 1].history, run[j].history);
    }
  }

  /** At the later of two moments, both histories are included. */
  lemma Meet(c: Config, run: seq<Cluster>, steps: seq<Step>, i: nat, j: nat) returns (k: nat)
    requires Run(c, run, steps) && i < |run| && j < |run|
    ensures k < |run| && Inv(c, run[k]) && Inv(c, run[i]) && Inv(c, run[j])
    ensures Grows(run[i].history, run[k].history) && Grows(run[j].history, run[k].history)
  {
    k := Max(i, j);
    RunInv(c, run, steps, i);
    RunInv(c, run, steps, j);
    RunGrows(c, run, steps, i, k);
    RunGrows(c, run, steps, j, k);
  }

  predicate LeadsAt(s: Cluster, v: nat, term: nat) {
    v in s.nodes && s.nodes[v].role.Leader? && s.nodes[v].term == term
  }

  lemma LeaderFacts(c: Config, s: Cluster, v: nat, term: nat)
    requires Inv(c, s) && LeadsAt(s, v, term)
    ensures term in s.history.reigns && s.history.reigns[term].id == v && s.nodes[v].log == LogOf(s.history, term)
  {
    assert RoleOk(c, s.history, v, s.nodes[v]);
  }

  /** Election safety: at most one node is ever leader in a term. */
  lemma ElectionSafety(c: Config, run: seq<Cluster>, steps: seq<Step>, i: nat, j: nat, a: nat, b: nat, term: nat)
    requires Run(c, run, steps) && i < |run| && j < |run|
    requires LeadsAt(run[i], a, term) && LeadsAt(run[j], b, term)
    ensures a == b
  {
    var k := Meet(c, run, steps, i, j);
    LeaderFacts(c, run[i], a, term);
    LeaderFacts(c, run[j], b, term);
  }

  /** Log matching: logs of any two nodes at any two moments that agree on a term agree up to there. */
  lemma LogsMatch(c: Config, run: seq<Cluster>, steps: seq<Step>, i: nat, j: nat, a: nat, b: nat, k: nat)
    requires Run(c, run, steps) && i < |run| && j < |run| && a in run[i].nodes && b in run[j].nodes
    requires 0 < k <= |run[i].nodes[a].log| && k <= |run[j].nodes[b].log|
    requires run[i].nodes[a].log[k - 1].term == run[j].nodes[b].log[k - 1].term
    ensures run[i].nodes[a].log[..k] == run[j].nodes[b].log[..k]
  {
    var m := Meet(c, run, steps, i, j);
    assert NodeOk(c, run[i].history, a, run[i].nodes[a]) && NodeOk(c, run[j].history, b, run[j].nodes[b]);
    RootedGrows(run[i].history, run[m].history, run[i].nodes[a].log);
    RootedGrows(run[j].history, run[m].history, run[j].nodes[b].log);
    LogMatching(run[m].history, run[i].nodes[a].log, run[j].nodes[b].log, k);
  }

  /** What a node has committed is also committed in every later history. */
  lemma CommitLater(c: Config, run: seq<Cluster>, steps: seq<Step>, i: nat, k: nat, a: nat)
    requires Run(c, run, steps) && i <= k < |run| && a in run[i].nodes
    ensures HistoryOk(c, run[k].history)
    ensures var n := run[i].nodes[a]; CommitOk(c, run[k].history, n.log, n.commitIndex, n.term)
  {
    RunInv(c, run, steps, i);
    RunInv(c, run, steps, k);
    RunGrows(c, run, steps, i, k);
    var n := run[i].nodes[a];
    assert NodeOk(c, run[i].history, a, n);
    CommitOkGrows(c, run[i].history, run[k].history, n.log, n.log, n.commitIndex, n.term, n.term);
  }

  /** The log a leader started with is part of its log, and is the one on record ever after. */
  lemma StartLater(c: Config, run: seq<Cluster>, steps: seq<Step>, j: nat, k: nat, b: nat, term: nat)
    requires Run(c, run, steps) && j <= k < |run| && LeadsAt(run[j], b, term)
    ensures term in run[k].history.reigns && StartOf(run[k].history, term) <= run[j].nodes[b].log
  {
    RunInv(c, run, steps, j);
    RunGrows(c, run, steps, j, k);
    LeaderFacts(c, run[j], b, term);
    assert ReignOk(c, run[j].history, term);
  }

  lemma CommitInStart(c: Config, h: History, log: seq<Entry>, n: nat, bound: nat, term: nat)
    requires HistoryOk(c, h) && CommitOk(c, h, log, n, bound) && bound < term && term in h.reigns
    ensures n <= |log| && log[..n] <= StartOf(h, term)
  {
    if n > 0 {
      var t: nat, x: nat :| t <= bound && n <= x && Committed(c, h, t, x) && log[..n] == Take(LogOf(h, t), n);
      LeaderCompleteness(c, h, t, x, term);
    }
  }

  /** Leader completeness: whatever a node has committed is in the log of every leader of a later term. */
  lemma LeadersAreComplete(c: Config, run: seq<Cluster>, steps: seq<Step>, i: nat, j: nat, a: nat, b: nat, term: nat)
    requires Run(c, run, steps) && i < |run| && j < |run| && a in run[i].nodes
    requires LeadsAt(run[j], b, term) && run[i].nodes[a].term < term
    ensures var n := run[i].nodes[a];
            n.commitIndex <= |n.log| && n.log[..n.commitIndex] <= run[j].nodes[b].log
  {
    var k, n := Max(i, j), run[i].nodes[a];
    CommitLater(c, run, steps, i, k, a);
    StartLater(c, run, steps, j, k, b, term);
    CommitInStart(c, run[k].history, n.log, n.commitIndex, n.term, term);
  }

  /** A follower's commit index stays inside the part of its log it shares with the current leader. */
  lemma CommitWithinLeader(c: Config, run: seq<Cluster>, steps: seq<Step>, i: nat, a: nat, b: nat)
    requires Run(c, run, steps) && i < |run| && a in run[i].nodes
    requires LeadsAt(run[i], b, run[i].nodes[a].term)
    ensures var n := run[i].nodes[a];
            n.commitIndex <= |n.log| && n.log[..n.commitIndex] <= run[i].nodes[b].log
  {
    RunInv(c, run, steps, i);
    var n := run[i].nodes[a];
    assert NodeOk(c, run[i].history, a, n);
    LeaderFacts(c, run[i], b, n.term);
    CommitInReign(c, run[i].history, n.log, n.commitIndex, n.term);
  }

  /** State-machine safety: two nodes, at any two moments, hold the same entry at every index both have committed. */
  lemma StateMachineSafety(c: Config, run: seq<Cluster>, steps: seq<Step>, i: nat, j: nat, a: nat, b: nat, k: nat)
    requires Run(c, run, steps) && i < |run| && j < |run| && a in run[i].nodes && b in run[j].nodes
    requires 0 < k <= run[i].nodes[a].commitIndex && k <= run[j].nodes[b].commitIndex
    ensures k <= |run[i].nodes[a].log| && k <= |run[j].nodes[b].log|
    ensures run[i].nodes[a].log[k - 1] == run[j].nodes[b].log[k - 1]
  {
    var m, x, y := Max(i, j), run[i].nodes[a], run[j].nodes[b];
    CommitLater(c, run, steps, i, m, a);
    CommitLater(c, run, steps, j, m, b);
    CommittedAgree(c, run[m].history, x.log, x.commitIndex, x.term, y.log, y.commitIndex, y.term);
    var l := Min(x.commitIndex, y.commitIndex);
    assert x.log[..l][k - 1] == y.log[..l][k - 1];
  }

  /** A leader leaves that role only together with its term, unless its process restarts. */
  lemma LeaderUntilTermEnds(c: Config, run: seq<Cluster>, steps: seq<Step>, i: nat, v: nat, term: nat)
    requires Run(c, run, steps) && i < |steps| && LeadsAt(run[i], v, term)
    requires !(steps[i].Reboot? && steps[i].v == v)
    requires v in run[i + 1].nodes && run[i + 1].nodes[v].term == term
    ensures LeadsAt(run[i + 1], v, term)
  {
    RunInv(c, run, steps, i);
    assert NextAt(c, run, steps, i);
    LeaderKeepsRole(c, run[i], steps[i], v);
  }

  lemma LeaderKeepsRole(c: Config, s: Cluster, step: Step, v: nat)
    requires Inv(c, s) && Enabled(c, s, step) && v in s.nodes && s.nodes[v].role.Leader?
    requires !(step.Reboot? && step.v == v)
    ensures var n' := After(c, s, step).nodes[v]; n'.term == s.nodes[v].term ==> n'.role.Leader?
  {
    if step.ServeAppend? {
      ServeTold(c, s, step);
    }
  }

  /** In every run no assertion fails, with the possible exception of the probing one. */
  lemma OnlyProbingMayFail(c: Config, run: seq<Cluster>, steps: seq<Step>, i: nat, step: Step)
    requires Run(c, run, steps) && i < |run| && Enabled(c, run[i], step)
    ensures Act(c, run[i], step).fault.NoFault? || (step.FinishAppend? && Act(c, run[i], step).fault.NoProbeGap?)
  {
    RunInv(c, run, steps, i);
    StepKeeps(c, run[i], step);
  }

  /** A leader always keeps `matchIndex < nextIndex <= lastIndex + 1` for every peer. */
  lemma PeerBounds(c: Config, run: seq<Cluster>, steps: seq<Step>, i: nat, v: nat, p: nat)
    requires Run(c, run, steps) && i < |run| && v in run[i].nodes
    requires run[i].nodes[v].role.Leader? && p in run[i].nodes[v].peers
    ensures var n := run[i].nodes[v];
            n.peers[p].matchIndex < n.peers[p].nextIndex <= |n.log| + 1
  {
    RunInv(c, run, steps, i);
    assert RoleOk(c, run[i].history, v, run[i].nodes[v]);
    assert PeerOk(run[i].history, run[i].nodes[v], p);
  }
}
