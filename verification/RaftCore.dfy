/**
 The consensus node as the program runs it: fields updated in place by handlers with loops over
 entries and peers. Each method is proved to do what the value-level handler of `RaftNode` says;
 an assertion that fails is reported as a fault, after which nothing is promised.
 */
module RaftCore {
  import opened RaftTypes
  import opened Quorum
  import RaftNode

  type Node = RaftNode.Node
  type Fault = RaftNode.Fault

  lemma WholeTail<T>(s: seq<T>, k: nat)
    requires k <= |s|
    ensures s[k..|s|] == s[k..]
  {
  }

  class Core {
    const self: nat
    const config: Config

    var term: nat
    var vote: nat
    var log: seq<Entry>
    var role: Role
    var leaderId: nat
    var commitIndex: nat
    var peers: map<nat, Peer>

    ghost function View(): Node
      reads this
    {
      RaftNode.Node(term, vote, log, role, leaderId, commitIndex, peers)
    }

    ghost predicate Valid()
      reads this
    {
      ValidConfig(config) && Countable(config) && peers.Keys == config.roles.Keys - {self}
    }

    constructor (self: nat, config: Config, role: Role)
      requires ValidConfig(config) && Countable(config) && self in config.roles
      ensures Valid() && this.self == self && this.config == config
      ensures View() == RaftNode.Node(0, 0, [], role, 0, 0,
                                      map id | id in config.roles && id != self :: Peer(false, false, 0, 1, true, true))
    {
      this.self, this.config, this.role := self, config, role;
      term, vote, log, leaderId, commitIndex := 0, 0, [], 0, 0;
      peers := map id | id in config.roles && id != self :: Peer(false, false, 0, 1, true, true);
    }

    /** A new process on the stored term, vote and log. */
    method Restart(startRole: Role)
      requires Valid()
      modifies this
      ensures Valid() && View() == RaftNode.Restart(old(View()), startRole)
    {
      role, leaderId, commitIndex := startRole, 0, 0;
      peers := map id | id in config.roles && id != self :: Peer(false, false, 0, 1, true, true);
      assert peers == RaftNode.Restart(old(View()), startRole).peers;
    }

    /** Completion of an AppendEntries call: the switch is turned on again, then the response is handled. */
    method CompleteAppendEntries(id: nat, resp: Option<AppendResponse>, maxDecrStep: nat) returns (fault: Fault)
      requires Valid()
      modifies this
      ensures Valid()
      ensures var out := RaftNode.CompleteAppend(old(View()), id, resp, maxDecrStep);
              fault == out.fault && (fault.NoFault? ==> View() == out.node)
    {
      fault := RaftNode.NoFault;
      if id in peers {
        peers := peers[id := peers[id].(aeReady := true)];
        if resp.Some? {
          fault := HandleAppendEntriesResponse(resp.value, maxDecrStep);
        } else {
          peers := peers[id := peers[id].(suppressBulk := true)];
        }
      }
    }

    method RequestVote() returns (req: VoteRequest)
      ensures req == RaftNode.BuildVote(self, View())
    {
      req := VoteRequest(term, self, |log|, TermAt(log, |log|), role == PreCandidate);
    }

    method StepDown(newTerm: nat)
      requires Valid() && term <= newTerm
      modifies this
      ensures Valid() && View() == RaftNode.StepDown(old(View()), newTerm)
    {
      if role != Learner && role != PreFollower {
        role := Follower;
      }
      if term < newTerm {
        leaderId := 0;
        term := newTerm;
        vote := 0;
      }
    }

    /** Take over the entries of a request: skip, cut at the first conflict, collect the rest, append. */
    method TakeEntries(prev: nat, es: seq<Entry>) returns (fault: Fault)
      requires Valid() && prev <= |log|
      modifies this`log
      ensures fault.NoFault? <==>
              RaftNode.GapFree(prev, es) && !RaftNode.CutsBelow(old(log), prev, es, commitIndex)
      ensures fault.NoFault? ==> log == RaftNode.Merge(old(log), prev, es)
    {
      ghost var log0 := log;
      ghost var k := RaftNode.MatchLen(log0, prev, es);
      var batch: seq<Entry> := [];
      var index := prev;
      var i := 0;
      while i < |es|
        invariant 0 <= i <= |es| && index == prev + i
        invariant forall j | 0 <= j < i :: es[j].index == prev + 1 + j
        invariant if i <= k then log == log0 && batch == []
                  else log == log0[..prev + k] && batch == es[k..i]
        invariant i > k ==> !RaftNode.CutsBelow(log0, prev, es, commitIndex)
      {
        index := index + 1;
        if es[i].index != index {
          assert !RaftNode.GapFree(prev, es);
          return RaftNode.GapInBatch;
        }
        if index <= |log| {
          if es[i].term == log[index - 1].term {
            assert i < k;
            i := i + 1;
            continue;
          }
          assert i == k;
          if index <= commitIndex {
            return RaftNode.CutsCommitted;
          }
          log := log[..index - 1];
        }
        assert i >= k;
        batch := batch + [es[i]];
        i := i + 1;
      }
      assert i == |es|;
      WholeTail(es, k);
      // the batch continues the log without a gap
      assert batch != [] ==> batch[0].index == |log| + 1;
      log := log + batch;
      fault := RaftNode.NoFault;
    }

    /** The sender is the leader of its term; the node joins that term and remembers it. */
    method RecognizeLeader(req: AppendRequest) returns (fault: Fault)
      requires Valid() && term <= req.term
      modifies this
      ensures Valid()
      ensures fault == if old(term) == req.term && old(leaderId) != 0
                          && (old(role).Candidate? || old(role).PreCandidate?)
                       then RaftNode.LeaderKnownOnStepDown
                       else if RaftNode.FollowLeader(old(View()), req).leaderId != req.leaderId
                       then RaftNode.LeaderIdMismatch
                       else RaftNode.NoFault
      ensures fault.NoFault? ==> View() == RaftNode.FollowLeader(old(View()), req)
    {
      if req.term > term || role == Candidate || role == PreCandidate {
        if term == req.term && leaderId != 0 {
          return RaftNode.LeaderKnownOnStepDown;
        }
        StepDown(req.term);
      }
      if leaderId == 0 {
        leaderId := req.leaderId;
      } else if leaderId != req.leaderId {
        return RaftNode.LeaderIdMismatch;
      }
      return RaftNode.NoFault;
    }

    method HandleAppendEntriesRequest(req: AppendRequest) returns (reply: Option<AppendResponse>, fault: Fault)
      requires Valid()
      modifies this
      ensures Valid()
      ensures var out := RaftNode.HandleAppendRequest(config, self, old(View()), req);
              && (fault.NoFault? <==> out.fault.NoFault?)
              && (fault.NoFault? ==> View() == out.node && reply == out.reply)
    {
      reply, fault := None, RaftNode.NoFault;
      if !IsVoter(config, req.leaderId) {
        return;
      }
      var resp := AppendResponse(term, false, self, req.term, req.prevIndex, |log|, 0);
      if req.term < term {
        return Some(resp), RaftNode.NoFault;
      }
      resp := resp.(term := req.term);
      fault := RecognizeLeader(req);
      if !fault.NoFault? {
        return None, fault;
      }
      var logIsOk := req.prevIndex < 1
                     || (req.prevIndex <= |log| && TermAt(log, req.prevIndex) == req.prevTerm);
      if !logIsOk {
        return Some(resp), RaftNode.NoFault;
      }
      fault := TakeEntries(req.prevIndex, req.entries);
      if !fault.NoFault? {
        return None, fault;
      }
      resp := resp.(success := true, lastIndex := |log|, matchIndex := req.prevIndex + |req.entries|);
      if commitIndex < req.commitIndex {
        if req.commitIndex > |log| {
          return None, RaftNode.CommitBeyondLog;
        }
        commitIndex := req.commitIndex;
      }
      reply := Some(resp);
    }

    method HandleAppendEntriesResponse(resp: AppendResponse, maxDecrStep: nat) returns (fault: Fault)
      requires Valid()
      modifies this
      ensures Valid()
      ensures var out := RaftNode.HandleAppendResponse(old(View()), resp, maxDecrStep);
              fault == out.fault && (fault.NoFault? ==> View() == out.node)
    {
      fault := RaftNode.NoFault;
      if term != resp.savedTerm {
        return;
      }
      if role != Leader {
        return RaftNode.LostLeadershipInTerm;
      }
      if resp.term > term {
        StepDown(resp.term);
        return;
      }
      if resp.id !in peers {
        return;
      }
      var peer := peers[resp.id];
      if resp.savedPrevIndex + 1 != peer.nextIndex {
        return;
      }
      if resp.success {
        if peer.matchIndex > resp.matchIndex {
          return RaftNode.MatchDecreases;
        }
        peers := peers[resp.id := peer.(matchIndex := resp.matchIndex, nextIndex := resp.matchIndex + 1,
                                        suppressBulk := false)];
        return;
      }
      if resp.lastIndex < peer.matchIndex {
        var next := if resp.lastIndex == 0 then 1 else Min(resp.lastIndex, |log|) + 1;
        peers := peers[resp.id := peer.(nextIndex := next, matchIndex := 0, suppressBulk := true)];
        return;
      }
      if peer.nextIndex <= 1 {
        var next := if resp.lastIndex < 1 then |log| + 1 else Min(resp.lastIndex, |log|) + 1;
        peers := peers[resp.id := peer.(nextIndex := next, matchIndex := 0, suppressBulk := true)];
        return;
      }
      if peer.matchIndex + 1 >= peer.nextIndex {
        return RaftNode.NoProbeGap;
      }
      if peer.nextIndex > resp.lastIndex + 1 {
        peers := peers[resp.id := peer.(nextIndex := resp.lastIndex + 1)];
      } else {
        var binaryDecrStep := (peer.nextIndex - peer.matchIndex) / 2;
        peers := peers[resp.id := peer.(nextIndex := peer.nextIndex - Min(binaryDecrStep, maxDecrStep))];
      }
    }

    method HandleRequestVoteRequest(req: VoteRequest, timerExpired: bool) returns (reply: Option<VoteResponse>)
      requires Valid()
      modifies this
      ensures Valid()
      ensures RaftNode.VoteOutcome(View(), reply)
              == RaftNode.HandleVoteRequest(self, old(View()), req, config, timerExpired)
    {
      var resp := VoteResponse(term, false, self, req.term, req.prevote);
      if role == Learner || IsLearner(config, req.candidateId) {
        return None;
      }
      if !req.prevote && req.term < term {
        return Some(resp);
      }
      if !req.prevote && req.term > term {
        resp := resp.(term := req.term);
        StepDown(req.term);
      }
      var lastTerm := TermAt(log, |log|);
      var logIsOk := req.lastTerm > lastTerm || (req.lastTerm == lastTerm && req.lastIndex >= |log|);
      if !logIsOk {
        return Some(resp);
      }
      if !req.prevote && (vote == 0 || vote == req.candidateId) {
        vote := req.candidateId;
        return Some(resp.(granted := true));
      }
      var noLeader := role == Candidate || role == PreCandidate
                      || ((role == Follower || role == PreFollower) && timerExpired);
      reply := Some(resp.(granted := req.prevote && noLeader));
    }

    method HandleRequestVoteResponse(resp: VoteResponse)
      requires Valid()
      modifies this
      ensures Valid() && View() == RaftNode.HandleVoteResponse(old(View()), resp)
    {
      if term != resp.savedTerm || (!resp.prevote && role != Candidate) || (resp.prevote && role != PreCandidate) {
        return;
      }
      if resp.term > term {
        StepDown(resp.term);
        return;
      }
      if resp.id !in peers {
        return;
      }
      peers := peers[resp.id := peers[resp.id].(voteDone := true)];
      if resp.granted {
        peers := peers[resp.id := peers[resp.id].(haveVote := true)];
      }
    }

    method HandleClientRequests(requests: seq<Entry>)
      requires Valid()
      modifies this
      ensures Valid() && View() == RaftNode.HandleClientRequests(old(View()), requests)
    {
      if role != Leader {
        return;
      }
      var lastLogIndex := |log|;
      var entries: seq<Entry> := [];
      var i := 0;
      while i < |requests|
        invariant 0 <= i <= |requests| && lastLogIndex == |log| + |entries|
        invariant entries + RaftNode.TakeInOrder(term, lastLogIndex + 1, requests[i..])
                  == RaftNode.TakeInOrder(term, |log| + 1, requests)
      {
        assert requests[i..][1..] == requests[i + 1..];
        if requests[i].term == term && requests[i].index == lastLogIndex + 1 {
          assert entries + ([requests[i]] + RaftNode.TakeInOrder(term, lastLogIndex + 2, requests[i + 1..]))
              == entries + [requests[i]] + RaftNode.TakeInOrder(term, lastLogIndex + 2, requests[i + 1..]);
          entries := entries + [requests[i]];
          lastLogIndex := lastLogIndex + 1;
        }
        i := i + 1;
      }
      log := log + entries;
    }

    method ResetVotes()
      modifies this`peers
      ensures peers == RaftNode.ResetVotes(old(peers))
    {
      var rest := peers.Keys;
      while rest != {}
        invariant peers.Keys == old(peers.Keys) && rest <= peers.Keys
        invariant forall id | id in peers ::
                    peers[id] == if id in rest then old(peers)[id]
                                 else old(peers)[id].(voteDone := false, haveVote := false)
      {
        var id :| id in rest;
        peers := peers[id := peers[id].(voteDone := false, haveVote := false)];
        rest := rest - {id};
      }
    }

    method StandForElection()
      requires Valid()
      modifies this
      ensures Valid() && View() == RaftNode.StandForElection(self, old(View()))
    {
      role := Candidate;
      leaderId := 0;
      term := term + 1;
      vote := self;
      ResetVotes();
    }

    method ElectionTimeout(prevoteEnabled: bool)
      requires Valid()
      modifies this
      ensures Valid() && View() == RaftNode.ElectionTimeout(self, old(View()), prevoteEnabled)
    {
      if role == Leader || role == Learner || role == PreFollower {
        return;
      }
      if !prevoteEnabled {
        StandForElection();
      } else {
        role := PreCandidate;
        leaderId := 0;
        ResetVotes();
      }
    }

    method BecomeCandidate()
      requires Valid()
      modifies this
      ensures Valid() && View() == RaftNode.BecomeCandidate(config, self, old(View()))
    {
      if role != PreCandidate {
        return;
      }
      var passed := CheckVotePass(config, self, peers);
      if passed {
        StandForElection();
      }
    }

    method FreshPeers(next: nat)
      modifies this`peers
      ensures peers == RaftNode.FreshPeers(old(peers), next)
    {
      var rest := peers.Keys;
      while rest != {}
        invariant peers.Keys == old(peers.Keys) && rest <= peers.Keys
        invariant forall id | id in peers ::
                    peers[id] == if id in rest then old(peers)[id]
                                 else old(peers)[id].(nextIndex := next, matchIndex := 0, suppressBulk := true,
                                                      aeReady := true)
      {
        var id :| id in rest;
        peers := peers[id := peers[id].(nextIndex := next, matchIndex := 0, suppressBulk := true, aeReady := true)];
        rest := rest - {id};
      }
    }

    method BecomeLeader()
      requires Valid()
      modifies this
      ensures Valid() && View() == RaftNode.BecomeLeader(config, self, old(View()))
    {
      if role != Candidate {
        return;
      }
      var passed := CheckVotePass(config, self, peers);
      if !passed {
        return;
      }
      role := Leader;
      leaderId := self;
      FreshPeers(|log| + 1);
      log := log + [Entry(|log| + 1, term, true, "")];
    }

    method LeadershipTimeout(majorityElapsed: bool)
      requires Valid()
      modifies this
      ensures Valid()
      ensures View() == if majorityElapsed then RaftNode.LeadershipTimeout(old(View())) else old(View())
    {
      if role != Leader || !majorityElapsed {
        return;
      }
      StepDown(term + 1);
    }

    /** Commits up to the majority index of the membership, when that entry is of the current term. */
    method AdvanceCommitIndex() returns (fault: Fault)
      requires Valid()
      modifies this
      ensures Valid()
      ensures old(role) != Leader ==> fault.NoFault? && View() == old(View())
      ensures old(role) == Leader ==>
                exists m :: && IsCommitIndex(config, self, |old(log)|, old(peers), m)
                            && RaftNode.StepOutcome(View(), fault) == RaftNode.AdvanceCommit(old(View()), m)
    {
      fault := RaftNode.NoFault;
      if role != Leader {
        return;
      }
      var m := GetMajorityIndex(config, self, |log|, peers);
      assert IsCommitIndex(config, self, |old(log)|, old(peers), m);
      if commitIndex >= m {
        return;
      }
      if m > |log| {
        return RaftNode.CommitBeyondLog;
      }
      if TermAt(log, m) != term {
        return;
      }
      commitIndex := m;
    }

    /** Builds the request for one peer and turns its switch off. */
    method AppendEntriesTo(id: nat, maxBatchSize: nat) returns (req: AppendRequest)
      requires Valid() && role == Leader && id in peers && peers[id].nextIndex > 0
      modifies this`peers
      ensures Valid() && View() == RaftNode.AfterSend(old(View()), id)
      ensures req == RaftNode.BuildAppend(self, old(View()), id, maxBatchSize)
    {
      var prev := peers[id].nextIndex - 1;
      var prevTerm := 0;
      if prev > |log| {
        peers := peers[id := peers[id].(suppressBulk := true)];
      } else {
        prevTerm := TermAt(log, prev);
      }
      var entries: seq<Entry> := [];
      if !peers[id].suppressBulk {
        entries := log[prev..prev + Min(maxBatchSize, |log| - prev)];
      }
      req := AppendRequest(term, self, prev, prevTerm, entries, Min(commitIndex, prev + |entries|));
      peers := peers[id := peers[id].(aeReady := false)];
    }
  }
}
