/**
 What the rest of a node may rely on. The threads around consensus see one node: its term, role, log and commit
 index. Whatever the cluster does, those change as the models of these threads assume.
 */
module RaftProjection {
  import opened RaftTypes
  import opened Quorum
  import opened RaftNode
  import opened RaftLedger
  import opened RaftCluster
  import opened RaftSteps
  import opened RaftSafety
  import EventLog

  // ---------------------------------------------------------------- what is committed stays

  lemma StepRaisesTerm(c: Config, s: Cluster, step: Step, v: nat)
    requires Enabled(c, s, step) && v in s.nodes
    ensures s.nodes[v].term <= After(c, s, step).nodes[v].term
  {
  }

  /** A prefix of a follower's log that is committed survives whatever a leader sends. */
  lemma ServeKeepsPrefix(c: Config, s: Cluster, step: Step, m: nat)
    requires Inv(c, s) && Enabled(c, s, step) && step.ServeAppend?
    requires var n := s.nodes[s.calls[step.id].dst]; CommitOk(c, s.history, n.log, m, n.term)
    ensures var v := s.calls[step.id].dst; s.nodes[v].log[..m] <= After(c, s, step).nodes[v].log
  {
    var call := s.calls[step.id];
    var h, v, req := s.history, call.dst, call.request.append;
    var n := s.nodes[v];
    assert call.src in s.nodes;
    assert NodeOk(c, h, v, n) && RoleOk(c, h, v, n) && CallOk(c, h, call);
    AppendCases(c, h, v, n, call.src, req);
    var out := HandleAppendRequest(c, v, n, req);
    if out.reply.value.success {
      var n1 := FollowLeader'(n, req);
      assert n1.log == n.log;
      CommitOkGrows(c, h, h, n.log, n1.log, m, n.term, n1.term);
      CommitChange(c, h, v, n1, m);
      AdoptKeepsCommit(c, h, v, n1.(commitIndex := m), out.reply.value.matchIndex);
    } else {
      RefusalKeepsLog(c, v, n, req);
    }
  }

  lemma RefusalKeepsLog(c: Config, v: nat, n: Node, req: AppendRequest)
    requires var out := HandleAppendRequest(c, v, n, req); out.reply.Some? && !out.reply.value.success
    ensures HandleAppendRequest(c, v, n, req).node.log == n.log
  {
  }

  lemma StepKeepsPrefix(c: Config, s: Cluster, step: Step, v: nat, m: nat)
    requires Inv(c, s) && Enabled(c, s, step) && v in s.nodes
    requires CommitOk(c, s.history, s.nodes[v].log, m, s.nodes[v].term)
    ensures var s' := After(c, s, step);
            && s.nodes[v].log[..m] <= s'.nodes[v].log
            && CommitOk(c, s'.history, s'.nodes[v].log, m, s'.nodes[v].term)
  {
    var s' := After(c, s, step);
    StepKeeps(c, s, step);
    StepRaisesTerm(c, s, step, v);
    if step.ServeAppend? && v == s.calls[step.id].dst {
      ServeKeepsPrefix(c, s, step, m);
    } else {
      OthersKeepLog(c, s, step, v);
    }
    CommitOkGrows(c, s.history, s'.history, s.nodes[v].log, s'.nodes[v].log, m, s.nodes[v].term, s'.nodes[v].term);
  }

  lemma OthersKeepLog(c: Config, s: Cluster, step: Step, v: nat)
    requires Enabled(c, s, step) && v in s.nodes && !(step.ServeAppend? && v == s.calls[step.id].dst)
    ensures s.nodes[v].log <= After(c, s, step).nodes[v].log
  {
  }

  /** Node `v` has the first `m` entries of `log`, and they are committed. */
  ghost predicate Keeps(c: Config, s: Cluster, v: nat, log: seq<Entry>, m: nat) {
    && v in s.nodes && m <= |log| && log[..m] <= s.nodes[v].log
    && CommitOk(c, s.history, s.nodes[v].log, m, s.nodes[v].term)
  }

  lemma KeepsOn(c: Config, s: Cluster, step: Step, s': Cluster, v: nat, log: seq<Entry>, m: nat)
    requires Inv(c, s) && Next(c, s, step, s') && Keeps(c, s, v, log, m)
    ensures Keeps(c, s', v, log, m) && s.nodes[v].term <= s'.nodes[v].term
  {
    StepKeepsPrefix(c, s, step, v, m);
    StepRaisesTerm(c, s, step, v);
    TakenTwice(log, s.nodes[v].log, s'.nodes[v].log, m);
  }

  lemma {:induction false} CommittedStaysInv(c: Config, run: seq<Cluster>, steps: seq<Step>, i: nat, j: nat, v: nat)
    requires Run(c, run, steps) && i <= j < |run| && v in run[i].nodes
    ensures Keeps(c, run[j], v, run[i].nodes[v].log, run[i].nodes[v].commitIndex)
    ensures run[i].nodes[v].term <= run[j].nodes[v].term
    decreases j
  {
    if i == j {
      KeepsAtFirst(c, run, steps, i, v);
    } else {
      CommittedStaysInv(c, run, steps, i, j - 1, v);
      KeepsInRun(c, run, steps, j - 1, v, run[i].nodes[v].log, run[i].nodes[v].commitIndex);
    }
  }

  lemma KeepsAtFirst(c: Config, run: seq<Cluster>, steps: seq<Step>, i: nat, v: nat)
    requires Run(c, run, steps) && i < |run| && v in run[i].nodes
    ensures Keeps(c, run[i], v, run[i].nodes[v].log, run[i].nodes[v].commitIndex)
  {
    RunInv(c, run, steps, i);
    assert NodeOk(c, run[i].history, v, run[i].nodes[v]);
  }

  lemma KeepsInRun(c: Config, run: seq<Cluster>, steps: seq<Step>, j: nat, v: nat, log: seq<Entry>, m: nat)
    requires Run(c, run, steps) && j < |steps| && Keeps(c, run[j], v, log, m)
    ensures Keeps(c, run[j + 1], v, log, m) && run[j].nodes[v].term <= run[j + 1].nodes[v].term
  {
    RunInv(c, run, steps, j);
    assert NextAt(c, run, steps, j);
    KeepsOn(c, run[j], steps[j], run[j + 1], v, log, m);
  }

  lemma TakenTwice(a: seq<Entry>, b: seq<Entry>, d: seq<Entry>, m: nat)
    requires m <= |a| && a[..m] <= b && m <= |b| && b[..m] <= d
    ensures a[..m] <= d
  {
    assert a[..m] == b[..m];
  }

  /** What a node has committed is never cut or overwritten again, even after it restarts and forgets how far it was. */
  lemma CommittedStays(c: Config, run: seq<Cluster>, steps: seq<Step>, i: nat, j: nat, v: nat, k: nat)
    requires Run(c, run, steps) && i <= j < |run| && v in run[i].nodes && 0 < k <= run[i].nodes[v].commitIndex
    ensures v in run[j].nodes && k <= |run[i].nodes[v].log| && k <= |run[j].nodes[v].log|
    ensures run[i].nodes[v].log[k - 1] == run[j].nodes[v].log[k - 1]
    ensures run[i].nodes[v].term <= run[j].nodes[v].term
  {
    CommittedStaysInv(c, run, steps, i, j, v);
    var m := run[i].nodes[v].commitIndex;
    assert run[i].nodes[v].log[..m][k - 1] == run[j].nodes[v].log[k - 1];
  }

  // ---------------------------------------------------------------- command ids

  /** How the application reads a payload: the id of its command, and the events. */
  datatype Decoder = Decoder(id: string -> nat, events: string -> seq<EventLog.Event>)

  function Decoded(d: Decoder, e: Entry): EventLog.Record {
    if e.noop then EventLog.Record(e.term, true, 0, [])
    else EventLog.Record(e.term, false, d.id(e.payload), d.events(e.payload))
  }

  function Project(d: Decoder, log: seq<Entry>): (r: seq<EventLog.Record>)
    ensures |r| == |log| && forall k {:trigger r[k]} | 0 <= k < |log| :: r[k] == Decoded(d, log[k])
  {
    seq(|log|, k requires 0 <= k < |log| => Decoded(d, log[k]))
  }

  /** The entry is a no-op, or was built with the id of its command as index. */
  predicate Stamped(d: Decoder, e: Entry) {
    e.noop || d.id(e.payload) == e.index
  }

  predicate AllStamped(d: Decoder, es: seq<Entry>) {
    forall k {:trigger es[k]} | 0 <= k < |es| :: Stamped(d, es[k])
  }

  /** Every batch that a client part hands to its node consists of entries built that way. */
  ghost predicate StampedRun(d: Decoder, steps: seq<Step>) {
    forall i | 0 <= i < |steps| && steps[i].TakeClientBatch? ::
      AllStamped(d, steps[i].entries) && forall k | 0 <= k < |steps[i].entries| :: !steps[i].entries[k].noop
  }

  ghost predicate ReignsStamped(d: Decoder, h: History) {
    forall t: nat {:trigger LogOf(h, t)} | t in h.reigns :: AllStamped(d, LogOf(h, t))
  }

  lemma LogStamped(d: Decoder, h: History, log: seq<Entry>)
    requires ReignsStamped(d, h) && Rooted(h, log)
    ensures AllStamped(d, log)
  {
    forall k | 0 <= k < |log| ensures Stamped(d, log[k]) {
      assert RootedAt(h, log, k + 1);
      var lead := LogOf(h, log[k].term);
      assert log[k] == log[..k + 1][k] == lead[..k + 1][k] == lead[k];
    }
  }

  lemma {:induction false} TakenStamped(d: Decoder, term: nat, next: nat, es: seq<Entry>)
    requires AllStamped(d, es)
    ensures AllStamped(d, TakeInOrder(term, next, es))
    decreases |es|
  {
    if es != [] {
      TakenStamped(d, term, next + 1, es[1..]);
      TakenStamped(d, term, next, es[1..]);
    }
  }

  lemma StampStep(d: Decoder, c: Config, s: Cluster, step: Step)
    requires Inv(c, s) && Enabled(c, s, step) && ReignsStamped(d, s.history)
    requires step.TakeClientBatch? ==> AllStamped(d, step.entries)
    ensures ReignsStamped(d, After(c, s, step).history)
  {
    var h, h' := s.history, After(c, s, step).history;
    if step.WinElection? || step.TakeClientBatch? {
      LeaderStamps(d, c, s, step);
    } else {
      forall t: nat | t in h'.reigns ensures AllStamped(d, LogOf(h', t)) {
        assert AllStamped(d, LogOf(h, t));
      }
    }
  }

  lemma LeaderStamps(d: Decoder, c: Config, s: Cluster, step: Step)
    requires Inv(c, s) && Enabled(c, s, step) && ReignsStamped(d, s.history)
    requires step.WinElection? || (step.TakeClientBatch? && AllStamped(d, step.entries))
    ensures ReignsStamped(d, After(c, s, step).history)
  {
    var v, h, h' := step.v, s.history, After(c, s, step).history;
    var n := s.nodes[v];
    assert NodeOk(c, h, v, n) && RoleOk(c, h, v, n);
    if step.WinElection? {
      LogStamped(d, h, n.log);
    } else if n.role.Leader? {
      assert AllStamped(d, LogOf(h, n.term));
      TakenStamped(d, n.term, |n.log| + 1, step.entries);
    }
    forall t: nat | t in h'.reigns ensures AllStamped(d, LogOf(h', t)) {
      if t in h.reigns {
        assert AllStamped(d, LogOf(h, t));
      }
    }
  }

  lemma {:induction false} RunStamped(d: Decoder, c: Config, run: seq<Cluster>, steps: seq<Step>, i: nat)
    requires Run(c, run, steps) && StampedRun(d, steps) && i < |run|
    ensures ReignsStamped(d, run[i].history)
    decreases i
  {
    if i > 0 {
      RunStamped(d, c, run, steps, i - 1);
      RunInv(c, run, steps, i - 1);
      assert NextAt(c, run, steps, i - 1);
      StampStep(d, c, run[i - 1], steps[i - 1]);
    }
  }

  lemma IdsOk(d: Decoder, c: Config, s: Cluster, v: nat)
    requires Inv(c, s) && ReignsStamped(d, s.history) && v in s.nodes
    ensures EventLog.IdsMatch(Project(d, s.nodes[v].log), |s.nodes[v].log|)
    ensures var n := s.nodes[v]; forall k {:trigger n.log[k]} | 0 <= k < |n.log| :: n.log[k].term <= n.term
  {
    var h, log := s.history, s.nodes[v].log;
    assert NodeOk(c, h, v, s.nodes[v]);
    LogStamped(d, h, log);
    forall k | 0 <= k < |log|
      ensures log[k].term <= s.nodes[v].term
      ensures EventLog.Carries(Project(d, log)[k]) ==> Project(d, log)[k].id == k + 1 {
      assert RootedAt(h, log, k + 1) && Stamped(d, log[k]);
    }
  }

  /** On every node, whoever led when an entry was made, a command that carries events has its log index as id. */
  lemma IdsMatchEverywhere(d: Decoder, c: Config, run: seq<Cluster>, steps: seq<Step>, i: nat, v: nat)
    requires Run(c, run, steps) && StampedRun(d, steps) && i < |run| && v in run[i].nodes
    ensures EventLog.IdsMatch(Project(d, run[i].nodes[v].log), |run[i].nodes[v].log|)
  {
    RunInv(c, run, steps, i);
    RunStamped(d, c, run, steps, i);
    IdsOk(d, c, run[i], v);
  }
}
