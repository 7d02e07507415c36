/**
 One consensus node as a value, and what each handler and each step of the main loop does
 to it. The log is untruncated: its first index is 1, so the entry with index `i` sits at
 position `i - 1`. A handler that reaches a failing assertion reports it as a `Fault`.
 */
module RaftNode {
  import opened RaftTypes
  import opened Quorum

  datatype Node = Node(
    term: nat,
    vote: nat,
    log: seq<Entry>,
    role: Role,
    leaderId: nat,
    commitIndex: nat,
    peers: map<nat, Peer>)

  /** The assertions of Gringofts, one constructor each. */
  datatype Fault =
    | NoFault
    | LeaderKnownOnStepDown
    | LeaderIdMismatch
    | GapInBatch
    | CutsCommitted
    | CommitBeyondLog
    | LostLeadershipInTerm
    | MatchDecreases
    | NoProbeGap

  datatype AppendOutcome = AppendOutcome(node: Node, reply: Option<AppendResponse>, fault: Fault)
  datatype VoteOutcome = VoteOutcome(node: Node, reply: Option<VoteResponse>)
  datatype StepOutcome = StepOutcome(node: Node, fault: Fault)

  // ---------------------------------------------------------------- role changes

  /** Adopt `newTerm` (or drop a candidacy of the same term); learners and pre-followers keep their role. */
  function StepDown(n: Node, newTerm: nat): Node
    requires n.term <= newTerm
  {
    var role := if n.role.Learner? || n.role.PreFollower? then n.role else Follower;
    if n.term < newTerm then n.(role := role, leaderId := 0, term := newTerm, vote := 0)
    else n.(role := role)
  }

  function ResetVotes(peers: map<nat, Peer>): map<nat, Peer> {
    map id | id in peers :: peers[id].(voteDone := false, haveVote := false)
  }

  function StandForElection(self: nat, n: Node): Node {
    n.(role := Candidate, leaderId := 0, term := n.term + 1, vote := self, peers := ResetVotes(n.peers))
  }

  /** An expired election timer; leaders, learners and pre-followers have none. */
  function ElectionTimeout(self: nat, n: Node, prevoteEnabled: bool): Node {
    if n.role.Leader? || n.role.Learner? || n.role.PreFollower? then n
    else if prevoteEnabled then n.(role := PreCandidate, leaderId := 0, peers := ResetVotes(n.peers))
    else StandForElection(self, n)
  }

  function BecomeCandidate(c: Config, self: nat, n: Node): Node {
    if n.role.PreCandidate? && VoteQuorum(c, VotesHeld(self, n.peers)) then StandForElection(self, n) else n
  }

  function Noop(n: Node): Entry {
    Entry(|n.log| + 1, n.term, true, "")
  }

  function FreshPeers(peers: map<nat, Peer>, nextIndex: nat): map<nat, Peer> {
    map id | id in peers ::
      peers[id].(nextIndex := nextIndex, matchIndex := 0, suppressBulk := true, aeReady := true)
  }

  predicate WinsElection(c: Config, self: nat, n: Node) {
    n.role.Candidate? && VoteQuorum(c, VotesHeld(self, n.peers))
  }

  function BecomeLeader(c: Config, self: nat, n: Node): Node {
    if !WinsElection(c, self, n) then n
    else
      n.(role := Leader, leaderId := self, peers := FreshPeers(n.peers, |n.log| + 1), log := n.log + [Noop(n)])
  }

  /** A leader that lost touch with the majority gives up its term. */
  function LeadershipTimeout(n: Node): Node {
    if n.role.Leader? then StepDown(n, n.term + 1) else n
  }

  /** A restarted process keeps term, vote and log only. */
  function Restart(n: Node, role: Role): Node {
    n.(role := role, leaderId := 0, commitIndex := 0,
       peers := map id | id in n.peers :: Peer(false, false, 0, 1, true, true))
  }

  // ---------------------------------------------------------------- AppendEntries, sending

  /** The request for one peer, carrying at most `batch` entries from the peer's next index. */
  function BuildAppend(self: nat, n: Node, id: nat, batch: nat): AppendRequest
    requires id in n.peers && n.peers[id].nextIndex > 0
  {
    var prev := n.peers[id].nextIndex - 1;
    if prev > |n.log| then AppendRequest(n.term, self, prev, 0, [], Min(n.commitIndex, prev))
    else
      var size := if n.peers[id].suppressBulk then 0 else Min(batch, |n.log| - prev);
      AppendRequest(n.term, self, prev, TermAt(n.log, prev), n.log[prev..prev + size], Min(n.commitIndex, prev + size))
  }

  /** Sending turns the switch off, and an index out of range also turns bulk data off. */
  function AfterSend(n: Node, id: nat): Node
    requires id in n.peers && n.peers[id].nextIndex > 0
  {
    var p := n.peers[id];
    n.(peers := n.peers[id := p.(aeReady := false, suppressBulk := p.suppressBulk || p.nextIndex - 1 > |n.log|)])
  }

  // ---------------------------------------------------------------- AppendEntries, receiving

  /** How many leading entries the log already has with the same term, after position `prev`. */
  function MatchLen(log: seq<Entry>, prev: nat, es: seq<Entry>): (k: nat)
    requires prev <= |log|
    ensures k <= |es| && prev + k <= |log|
    ensures forall i | 0 <= i < k :: log[prev + i].term == es[i].term
    ensures k < |es| && prev + k < |log| ==> log[prev + k].term != es[k].term
    decreases |es|
  {
    if es == [] || prev == |log| || log[prev].term != es[0].term then 0
    else 1 + MatchLen(log, prev + 1, es[1..])
  }

  /** The log after skipping what matches, cutting at the first conflict and appending the rest. */
  function Merge(log: seq<Entry>, prev: nat, es: seq<Entry>): seq<Entry>
    requires prev <= |log|
  {
    var k := MatchLen(log, prev, es);
    if k == |es| then log else log[..prev + k] + es[k..]
  }

  predicate GapFree(prev: nat, es: seq<Entry>) {
    forall i | 0 <= i < |es| :: es[i].index == prev + 1 + i
  }

  predicate CutsBelow(log: seq<Entry>, prev: nat, es: seq<Entry>, commitIndex: nat)
    requires prev <= |log|
  {
    var k := MatchLen(log, prev, es);
    k < |es| && prev + k < |log| && prev + k < commitIndex
  }

  predicate LogIsOk(log: seq<Entry>, prev: nat, prevTerm: nat) {
    prev == 0 || (prev <= |log| && TermAt(log, prev) == prevTerm)
  }

  /** The node after it recognised the sender as leader of `req.term`. */
  function FollowLeader(n: Node, req: AppendRequest): Node
    requires n.term <= req.term
  {
    var n1 := if n.term < req.term || n.role.Candidate? || n.role.PreCandidate? then StepDown(n, req.term) else n;
    if n1.leaderId == 0 then n1.(leaderId := req.leaderId) else n1
  }

  function RejectAppend(self: nat, n: Node, term: nat, req: AppendRequest): AppendResponse {
    AppendResponse(term, false, self, req.term, req.prevIndex, |n.log|, 0)
  }

  function AcceptAppend(self: nat, n: Node, req: AppendRequest): AppendOutcome
    requires req.prevIndex <= |n.log|
  {
    if !GapFree(req.prevIndex, req.entries) then AppendOutcome(n, None, GapInBatch)
    else if CutsBelow(n.log, req.prevIndex, req.entries, n.commitIndex) then AppendOutcome(n, None, CutsCommitted)
    else
      var log := Merge(n.log, req.prevIndex, req.entries);
      var reply := AppendResponse(req.term, true, self, req.term, req.prevIndex, |log|,
                                  req.prevIndex + |req.entries|);
      if n.commitIndex >= req.commitIndex then AppendOutcome(n.(log := log), Some(reply), NoFault)
      else if req.commitIndex > |log| then AppendOutcome(n, None, CommitBeyondLog)
      else AppendOutcome(n.(log := log, commitIndex := req.commitIndex), Some(reply), NoFault)
  }

  function HandleAppendRequest(c: Config, self: nat, n: Node, req: AppendRequest): AppendOutcome {
    if !IsVoter(c, req.leaderId) then AppendOutcome(n, None, NoFault)
    else if req.term < n.term then AppendOutcome(n, Some(RejectAppend(self, n, n.term, req)), NoFault)
    else if n.term == req.term && (n.role.Candidate? || n.role.PreCandidate?) && n.leaderId != 0 then
      AppendOutcome(n, None, LeaderKnownOnStepDown)
    else
      var n1 := FollowLeader(n, req);
      if n1.leaderId != req.leaderId then AppendOutcome(n1, None, LeaderIdMismatch)
      else if !LogIsOk(n1.log, req.prevIndex, req.prevTerm) then
        AppendOutcome(n1, Some(RejectAppend(self, n1, req.term, req)), NoFault)
      else AcceptAppend(self, n1, req)
  }

  // ---------------------------------------------------------------- AppendEntries, completion

  /** How far a rejected peer is probed back; `first index = 1` picks the branch for a rolled back peer. */
  function ProbeBack(p: Peer, lastIndex: nat, leaderLast: nat, maxDecrStep: nat): Peer
    requires p.matchIndex + 1 < p.nextIndex || lastIndex < p.matchIndex || p.nextIndex <= 1
  {
    if lastIndex < p.matchIndex then
      p.(nextIndex := Min(lastIndex, leaderLast) + 1, matchIndex := 0, suppressBulk := true)
    else if p.nextIndex <= 1 then
      p.(nextIndex := (if lastIndex < 1 then leaderLast else Min(lastIndex, leaderLast)) + 1,
         matchIndex := 0, suppressBulk := true)
    else if p.nextIndex > lastIndex + 1 then p.(nextIndex := lastIndex + 1)
    else p.(nextIndex := p.nextIndex - Min((p.nextIndex - p.matchIndex) / 2, maxDecrStep))
  }

  function HandleAppendResponse(n: Node, resp: AppendResponse, maxDecrStep: nat): StepOutcome {
    if n.term != resp.savedTerm then StepOutcome(n, NoFault)
    else if !n.role.Leader? then StepOutcome(n, LostLeadershipInTerm)
    else if resp.term > n.term then StepOutcome(StepDown(n, resp.term), NoFault)
    else if resp.id !in n.peers || resp.savedPrevIndex + 1 != n.peers[resp.id].nextIndex then StepOutcome(n, NoFault)
    else
      var p := n.peers[resp.id];
      if resp.success then
        if p.matchIndex > resp.matchIndex then StepOutcome(n, MatchDecreases)
        else
          var p' := p.(matchIndex := resp.matchIndex, nextIndex := resp.matchIndex + 1, suppressBulk := false);
          StepOutcome(n.(peers := n.peers[resp.id := p']), NoFault)
      else if p.matchIndex + 1 >= p.nextIndex && resp.lastIndex >= p.matchIndex && p.nextIndex > 1 then
        StepOutcome(n, NoProbeGap)
      else
        StepOutcome(n.(peers := n.peers[resp.id := ProbeBack(p, resp.lastIndex, |n.log|, maxDecrStep)]), NoFault)
  }

  /** Completion of an AppendEntries call, with a response or with a failed status. */
  function CompleteAppend(n: Node, id: nat, resp: Option<AppendResponse>, maxDecrStep: nat): StepOutcome {
    if id !in n.peers then StepOutcome(n, NoFault)
    else
      var p := n.peers[id].(aeReady := true);
      if resp.None? then StepOutcome(n.(peers := n.peers[id := p.(suppressBulk := true)]), NoFault)
      else HandleAppendResponse(n.(peers := n.peers[id := p]), resp.value, maxDecrStep)
  }

  // ---------------------------------------------------------------- RequestVote

  function BuildVote(self: nat, n: Node): VoteRequest {
    VoteRequest(n.term, self, |n.log|, LastTerm(n.log), n.role.PreCandidate?)
  }

  predicate UpToDate(lastIndex: nat, lastTerm: nat, log: seq<Entry>) {
    lastTerm > LastTerm(log) || (lastTerm == LastTerm(log) && lastIndex >= |log|)
  }

  function HandleVoteRequest(self: nat, n: Node, req: VoteRequest, c: Config, timerExpired: bool): VoteOutcome {
    if n.role.Learner? || IsLearner(c, req.candidateId) then VoteOutcome(n, None)
    else if !req.prevote && req.term < n.term then
      VoteOutcome(n, Some(VoteResponse(n.term, false, self, req.term, req.prevote)))
    else
      var n1 := if !req.prevote && req.term > n.term then StepDown(n, req.term) else n;
      var reply := VoteResponse(n1.term, false, self, req.term, req.prevote);
      if !UpToDate(req.lastIndex, req.lastTerm, n1.log) then VoteOutcome(n1, Some(reply))
      else if !req.prevote && (n1.vote == 0 || n1.vote == req.candidateId) then
        VoteOutcome(n1.(vote := req.candidateId), Some(reply.(granted := true)))
      else
        var noLeader := n1.role.Candidate? || n1.role.PreCandidate?
                        || ((n1.role.Follower? || n1.role.PreFollower?) && timerExpired);
        VoteOutcome(n1, Some(reply.(granted := req.prevote && noLeader)))
  }

  predicate StaleVote(n: Node, resp: VoteResponse) {
    || n.term != resp.savedTerm
    || (!resp.prevote && !n.role.Candidate?)
    || (resp.prevote && !n.role.PreCandidate?)
  }

  function HandleVoteResponse(n: Node, resp: VoteResponse): Node {
    if StaleVote(n, resp) then n
    else if resp.term > n.term then StepDown(n, resp.term)
    else if resp.id !in n.peers then n
    else
      var p := n.peers[resp.id];
      n.(peers := n.peers[resp.id := p.(voteDone := true, haveVote := p.haveVote || resp.granted)])
  }

  // ---------------------------------------------------------------- clients and commit

  /** The requests a leader keeps: those of its term that continue its log, in arrival order. */
  function TakeInOrder(term: nat, next: nat, es: seq<Entry>): seq<Entry>
    decreases |es|
  {
    if es == [] then []
    else if es[0].term == term && es[0].index == next then [es[0]] + TakeInOrder(term, next + 1, es[1..])
    else TakeInOrder(term, next, es[1..])
  }

  function HandleClientRequests(n: Node, es: seq<Entry>): Node {
    if !n.role.Leader? then n else n.(log := n.log + TakeInOrder(n.term, |n.log| + 1, es))
  }

  /** Move the commit index to the majority index `m`, if `m` is an entry of the current term. */
  function AdvanceCommit(n: Node, m: nat): StepOutcome {
    if !n.role.Leader? || n.commitIndex >= m then StepOutcome(n, NoFault)
    else if m > |n.log| then StepOutcome(n, CommitBeyondLog)
    else if TermAt(n.log, m) != n.term then StepOutcome(n, NoFault)
    else StepOutcome(n.(commitIndex := m), NoFault)
  }
}
