/** Values shared by every module about consensus: log entries, roles, messages. */
module RaftTypes {

  /** One entry of the replicated log. Indices start at 1. */
  datatype Entry = Entry(index: nat, term: nat, noop: bool, payload: string)

  datatype Role = Follower | PreCandidate | Candidate | Leader | Learner | PreFollower

  /** What a node remembers about another member. `aeReady` is the AppendEntries switch. */
  datatype Peer = Peer(
    voteDone: bool,
    haveVote: bool,
    matchIndex: nat,
    nextIndex: nat,
    suppressBulk: bool,
    aeReady: bool)

  datatype AppendRequest = AppendRequest(
    term: nat,
    leaderId: nat,
    prevIndex: nat,
    prevTerm: nat,
    entries: seq<Entry>,
    commitIndex: nat)

  datatype AppendResponse = AppendResponse(
    term: nat,
    success: bool,
    id: nat,
    savedTerm: nat,
    savedPrevIndex: nat,
    lastIndex: nat,
    matchIndex: nat)

  datatype VoteRequest = VoteRequest(
    term: nat,
    candidateId: nat,
    lastIndex: nat,
    lastTerm: nat,
    prevote: bool)

  datatype VoteResponse = VoteResponse(
    term: nat,
    granted: bool,
    id: nat,
    savedTerm: nat,
    prevote: bool)

  datatype Option<+T> = None | Some(value: T)

  /** The term at position `i` of a log whose first index is 1; 0 in front of the log. */
  function TermAt(log: seq<Entry>, i: nat): nat
    requires i <= |log|
  {
    if i == 0 then 0 else log[i - 1].term
  }

  function LastTerm(log: seq<Entry>): nat {
    TermAt(log, |log|)
  }

  function Min(a: nat, b: nat): nat {
    if a <= b then a else b
  }

  function Max(a: nat, b: nat): nat {
    if a <= b then b else a
  }
}
