/**
 Quorum arithmetic of a cluster membership: which index is stored by a majority, which
 set of votes wins, and why the two always share a voter. A membership is either simple
 (one set of nodes) or joint (an old and a new set, both non-empty).
 */
module Quorum {
  import opened RaftTypes

  datatype InitialRole = Voter | NonVotingPreFollower | NonVotingLearner

  datatype Config = Config(
    roles: map<nat, InitialRole>,
    oldMembers: set<nat>,
    newMembers: set<nat>,
    insyncLearners: set<nat>)

  /** Every listed id is configured, and 0 is not an id. */
  predicate ValidConfig(c: Config) {
    && 0 !in c.roles
    && c.oldMembers <= c.roles.Keys
    && c.newMembers <= c.roles.Keys
    && c.insyncLearners <= c.roles.Keys
  }

  predicate IsVoter(c: Config, id: nat) {
    id in c.roles && c.roles[id].Voter?
  }

  predicate IsLearner(c: Config, id: nat) {
    id in c.roles && c.roles[id].NonVotingLearner?
  }

  predicate Joint(c: Config) {
    c.oldMembers != {} && c.newMembers != {}
  }

  function Voters(c: Config, ids: set<nat>): set<nat> {
    set id | id in ids && IsVoter(c, id)
  }

  function Learners(c: Config, ids: set<nat>): set<nat> {
    set id | id in ids && IsLearner(c, id)
  }

  function NonLearners(c: Config, ids: set<nat>): set<nat> {
    set id | id in ids && !IsLearner(c, id)
  }

  /** More than half of the voters among `ids` are in `holders`. */
  predicate MajorityHolds(c: Config, ids: set<nat>, holders: set<nat>) {
    2 * |Voters(c, ids) * holders| > |Voters(c, ids)|
  }

  /** `holders` is enough to commit an entry. */
  predicate CommitQuorum(c: Config, holders: set<nat>) {
    if Joint(c) then
      MajorityHolds(c, c.oldMembers, holders) && MajorityHolds(c, c.newMembers, holders)
    else
      MajorityHolds(c, c.roles.Keys, holders)
  }

  function MajorityNumber(total: nat): nat {
    total / 2 + 1
  }

  /** `votes` reaches the majority number of `ids`, where only learners leave the denominator. */
  predicate VotesPass(c: Config, ids: set<nat>, votes: set<nat>) {
    |NonLearners(c, ids) * votes| >= MajorityNumber(|NonLearners(c, ids)|)
  }

  /** `votes` is enough to win an election round. */
  predicate VoteQuorum(c: Config, votes: set<nat>) {
    if Joint(c) then VotesPass(c, c.oldMembers, votes) && VotesPass(c, c.newMembers, votes)
    else VotesPass(c, c.roles.Keys, votes)
  }

  // ---------------------------------------------------------------- intersection

  lemma SubsetSize(a: set<nat>, b: set<nat>)
    requires a <= b
    ensures |a| <= |b|
  {
    assert b == a + (b - a);
  }

  /** Two sets that together outnumber the set they live in have a common element. */
  lemma Pigeonhole(whole: set<nat>, a: set<nat>, b: set<nat>) returns (x: nat)
    requires a <= whole && b <= whole
    requires |a| + |b| > |whole|
    ensures x in a && x in b
  {
    if a * b == {} {
      assert |a + b| == |a| + |b|;
      SubsetSize(a + b, whole);
      assert false;
    }
    x :| x in a * b;
  }

  lemma VotersAmongNonLearners(c: Config, ids: set<nat>)
    ensures Voters(c, ids) <= NonLearners(c, ids)
    ensures |Voters(c, ids)| <= |NonLearners(c, ids)|
  {
    SubsetSize(Voters(c, ids), NonLearners(c, ids));
  }

  /** Within one set of members, votes that pass meet any majority of its voters. */
  lemma VotesMeetMajority(c: Config, ids: set<nat>, votes: set<nat>, holders: set<nat>) returns (x: nat)
    requires forall v | v in votes :: IsVoter(c, v)
    requires VotesPass(c, ids, votes) && MajorityHolds(c, ids, holders)
    ensures x in votes && x in holders && IsVoter(c, x)
  {
    VotersAmongNonLearners(c, ids);
    assert NonLearners(c, ids) * votes == Voters(c, ids) * votes;
    x := Pigeonhole(Voters(c, ids), Voters(c, ids) * votes, Voters(c, ids) * holders);
  }

  /** Every winning vote set made of voters shares a voter with every commit quorum. */
  lemma VoteMeetsCommit(c: Config, votes: set<nat>, holders: set<nat>) returns (x: nat)
    requires forall v | v in votes :: IsVoter(c, v)
    requires VoteQuorum(c, votes) && CommitQuorum(c, holders)
    ensures x in votes && x in holders && IsVoter(c, x)
  {
    var ids := if Joint(c) then c.oldMembers else c.roles.Keys;
    x := VotesMeetMajority(c, ids, votes, holders);
  }

  /** Two winning vote sets share a member. */
  lemma VoteMeetsVote(c: Config, votes: set<nat>, votes': set<nat>) returns (x: nat)
    requires VoteQuorum(c, votes) && VoteQuorum(c, votes')
    ensures x in votes && x in votes'
  {
    var ids := if Joint(c) then c.oldMembers else c.roles.Keys;
    var all := NonLearners(c, ids);
    x := Pigeonhole(all, all * votes, all * votes');
  }

  /** The restriction to voters is needed: pre-followers may win a vote that misses a commit quorum. */
  lemma PreFollowerVotesCanMissCommit()
    ensures exists c, votes, holders ::
              && ValidConfig(c) && VoteQuorum(c, votes) && CommitQuorum(c, holders)
              && votes <= c.roles.Keys && votes !! holders
  {
    var c := SplitConfig();
    var votes, holders := {1, 4, 5}, {2, 3};
    SplitConfigQuorums();
    assert votes <= c.roles.Keys && votes !! holders;
  }

  function SplitConfig(): Config {
    Config(map[1 := Voter, 2 := Voter, 3 := Voter, 4 := NonVotingPreFollower, 5 := NonVotingPreFollower], {}, {}, {})
  }

  lemma SplitConfigQuorums()
    ensures VoteQuorum(SplitConfig(), {1, 4, 5}) && CommitQuorum(SplitConfig(), {2, 3})
  {
    var c := SplitConfig();
    var all: set<nat> := {1, 2, 3, 4, 5};
    assert c.roles.Keys == all;
    assert Voters(c, all) == {1, 2, 3} && {1, 2, 3} * {2, 3} == {2, 3 as nat};
    assert NonLearners(c, all) == all && all * {1, 4, 5} == {1, 4, 5 as nat};
  }

  lemma MajorityHoldsMonotone(c: Config, ids: set<nat>, small: set<nat>, large: set<nat>)
    requires small <= large && MajorityHolds(c, ids, small)
    ensures MajorityHolds(c, ids, large)
  {
    SubsetSize(Voters(c, ids) * small, Voters(c, ids) * large);
  }

  lemma CommitQuorumMonotone(c: Config, small: set<nat>, large: set<nat>)
    requires small <= large && CommitQuorum(c, small)
    ensures CommitQuorum(c, large)
  {
    if Joint(c) {
      MajorityHoldsMonotone(c, c.oldMembers, small, large);
      MajorityHoldsMonotone(c, c.newMembers, small, large);
    } else {
      MajorityHoldsMonotone(c, c.roles.Keys, small, large);
    }
  }

  // ---------------------------------------------------------------- majority index

  /** The index a member is known to store: its own last index, or what a peer acknowledged. */
  function Stored(self: nat, lastIndex: nat, peers: map<nat, Peer>, id: nat): nat
    requires id == self || id in peers
  {
    if id == self then lastIndex else peers[id].matchIndex
  }

  predicate Known(self: nat, peers: map<nat, Peer>, ids: set<nat>) {
    forall id | id in ids :: id == self || id in peers
  }

  function Holders(self: nat, lastIndex: nat, peers: map<nat, Peer>, ids: set<nat>, x: nat): set<nat>
    requires Known(self, peers, ids)
  {
    set id | id in ids && Stored(self, lastIndex, peers, id) >= x
  }

  /** `r` is the largest index that more than half of `ids` store. */
  ghost predicate IsMajorityIndex(self: nat, lastIndex: nat, peers: map<nat, Peer>, ids: set<nat>, r: nat)
    requires Known(self, peers, ids)
  {
    && 2 * |Holders(self, lastIndex, peers, ids, r)| > |ids|
    && forall x: nat :: x > r ==> 2 * |Holders(self, lastIndex, peers, ids, x)| <= |ids|
  }

  function CountAtLeast(s: seq<nat>, x: nat): nat {
    if s == [] then 0 else (if s[0] >= x then 1 else 0) + CountAtLeast(s[1..], x)
  }

  function InsertDescending(s: seq<nat>, y: nat): seq<nat> {
    if s == [] || y >= s[0] then [y] + s else [s[0]] + InsertDescending(s[1..], y)
  }

  function SortDescending(s: seq<nat>): seq<nat> {
    if s == [] then [] else InsertDescending(SortDescending(s[1..]), s[0])
  }

  predicate Descending(s: seq<nat>) {
    forall i, j | 0 <= i < j < |s| :: s[i] >= s[j]
  }

  lemma {:induction false} InsertDescendingKeeps(s: seq<nat>, y: nat, x: nat)
    requires Descending(s)
    ensures var r := InsertDescending(s, y);
            && |r| == |s| + 1
            && Descending(r)
            && (forall v | v in r :: v == y || v in s)
            && CountAtLeast(r, x) == CountAtLeast(s, x) + (if y >= x then 1 else 0)
  {
    var r := InsertDescending(s, y);
    if s == [] || y >= s[0] {
      assert r[1..] == s;
    } else {
      InsertDescendingKeeps(s[1..], y, x);
      assert r[1..] == InsertDescending(s[1..], y);
      forall v | v in r ensures v == y || v in s {
        if v != s[0] { assert v in r[1..]; }
      }
      forall j | 0 < j < |r| ensures r[0] >= r[j] {
        assert r[j] == r[1..][j - 1];
        assert r[j] in r[1..];
      }
    }
  }

  /** Sorting keeps, for every threshold, how many values reach it. */
  lemma {:induction false} SortDescendingKeeps(s: seq<nat>, x: nat)
    ensures var r := SortDescending(s);
            |r| == |s| && Descending(r) && CountAtLeast(r, x) == CountAtLeast(s, x)
  {
    if s != [] {
      SortDescendingKeeps(s[1..], x);
      InsertDescendingKeeps(SortDescending(s[1..]), s[0], x);
    }
  }

  lemma {:induction false} CountAppend(s: seq<nat>, y: nat, x: nat)
    ensures CountAtLeast(s + [y], x) == CountAtLeast(s, x) + (if y >= x then 1 else 0)
  {
    if s != [] {
      CountAppend(s[1..], y, x);
      assert (s + [y])[1..] == s[1..] + [y];
    }
  }

  /** In a descending sequence the value at `k` is reached by at least `k + 1` values, anything above by at most `k`. */
  lemma {:induction false} DescendingCounts(s: seq<nat>, k: nat, x: nat)
    requires Descending(s) && k < |s|
    ensures x <= s[k] ==> CountAtLeast(s, x) >= k + 1
    ensures x > s[k] ==> CountAtLeast(s, x) <= k
  {
    if k > 0 {
      DescendingCounts(s[1..], k - 1, x);
    } else if x > s[0] {
      CountNone(s, x);
    }
  }

  lemma {:induction false} CountNone(s: seq<nat>, x: nat)
    requires forall i | 0 <= i < |s| :: s[i] < x
    ensures CountAtLeast(s, x) == 0
  {
    if s != [] {
      CountNone(s[1..], x);
    }
  }

  lemma HoldersAdd(self: nat, lastIndex: nat, peers: map<nat, Peer>, seen: set<nat>, id: nat, x: nat)
    requires id !in seen && Known(self, peers, seen + {id})
    ensures |Holders(self, lastIndex, peers, seen + {id}, x)|
            == |Holders(self, lastIndex, peers, seen, x)|
               + (if Stored(self, lastIndex, peers, id) >= x then 1 else 0)
  {
    var before := Holders(self, lastIndex, peers, seen, x);
    var after := Holders(self, lastIndex, peers, seen + {id}, x);
    assert after == if Stored(self, lastIndex, peers, id) >= x then before + {id} else before;
  }

  /** `indices` lists what the members of `seen` store. */
  ghost predicate Lists(self: nat, lastIndex: nat, peers: map<nat, Peer>, seen: set<nat>, indices: seq<nat>)
    requires Known(self, peers, seen)
  {
    && |indices| == |seen|
    && forall x: nat :: CountAtLeast(indices, x) == |Holders(self, lastIndex, peers, seen, x)|
  }

  lemma ListsAdd(self: nat, lastIndex: nat, peers: map<nat, Peer>, seen: set<nat>, indices: seq<nat>, id: nat)
    requires id !in seen && Known(self, peers, seen + {id}) && Lists(self, lastIndex, peers, seen, indices)
    ensures Lists(self, lastIndex, peers, seen + {id}, indices + [Stored(self, lastIndex, peers, id)])
  {
    var stored := Stored(self, lastIndex, peers, id);
    forall x: nat ensures CountAtLeast(indices + [stored], x) == |Holders(self, lastIndex, peers, seen + {id}, x)| {
      CountAppend(indices, stored, x);
      HoldersAdd(self, lastIndex, peers, seen, id, x);
    }
  }

  /** The middle of the sorted list is the majority index. */
  lemma MiddleIsMajority(self: nat, lastIndex: nat, peers: map<nat, Peer>, ids: set<nat>, indices: seq<nat>)
    requires Known(self, peers, ids) && Lists(self, lastIndex, peers, ids, indices) && indices != []
    ensures |SortDescending(indices)| == |indices|
    ensures IsMajorityIndex(self, lastIndex, peers, ids, SortDescending(indices)[|indices| / 2])
  {
    var sorted := SortDescending(indices);
    SortDescendingKeeps(indices, 0);
    var r := sorted[|indices| / 2];
    forall x: nat ensures x <= r ==> 2 * |Holders(self, lastIndex, peers, ids, x)| > |ids|
                  ensures x > r ==> 2 * |Holders(self, lastIndex, peers, ids, x)| <= |ids| {
      SortDescendingKeeps(indices, x);
      DescendingCounts(sorted, |indices| / 2, x);
    }
  }

  /** Largest index stored by a strict majority of the members of `ids` in `selected`. */
  method MajorityIndexOf(self: nat, lastIndex: nat, peers: map<nat, Peer>, ids: set<nat>, selected: set<nat>)
    returns (r: nat)
    requires Known(self, peers, ids) && selected <= ids && selected != {}
    ensures IsMajorityIndex(self, lastIndex, peers, selected, r)
  {
    var indices: seq<nat> := [];
    var rest := ids;
    ghost var seen: set<nat> := {};
    while rest != {}
      invariant rest <= ids && seen <= selected <= seen + rest && seen !! rest
      invariant Lists(self, lastIndex, peers, seen, indices)
    {
      var id :| id in rest;
      rest := rest - {id};
      if id in selected {
        ListsAdd(self, lastIndex, peers, seen, indices, id);
        indices := indices + [if id == self then lastIndex else peers[id].matchIndex];
        seen := seen + {id};
      }
    }
    assert seen == selected;
    MiddleIsMajority(self, lastIndex, peers, selected, indices);
    var sorted := SortDescending(indices);
    r := sorted[|sorted| / 2];
  }

  /** The ids consulted for the commit index. */
  predicate AllKnown(c: Config, self: nat, peers: map<nat, Peer>) {
    && Known(self, peers, c.roles.Keys)
    && ValidConfig(c)
  }

  /** What the commit rule computes for a membership, without mention of how. */
  ghost predicate IsCommitIndex(c: Config, self: nat, lastIndex: nat, peers: map<nat, Peer>, r: nat)
    requires AllKnown(c, self, peers)
  {
    if Joint(c) then
      exists a, b ::
        && IsMajorityIndex(self, lastIndex, peers, Voters(c, c.oldMembers), a)
        && IsMajorityIndex(self, lastIndex, peers, Voters(c, c.newMembers), b)
        && r == Min(a, b)
    else if c.insyncLearners == {} then
      IsMajorityIndex(self, lastIndex, peers, Voters(c, c.roles.Keys), r)
    else
      exists a, b ::
        && IsMajorityIndex(self, lastIndex, peers, Voters(c, c.roles.Keys), a)
        && IsMajorityIndex(self, lastIndex, peers, Learners(c, c.insyncLearners), b)
        && r == Min(a, b)
  }

  /** Every set of members the commit rule consults has a voter (or learner) in it. */
  predicate Countable(c: Config) {
    if Joint(c) then Voters(c, c.oldMembers) != {} && Voters(c, c.newMembers) != {}
    else
      && Voters(c, c.roles.Keys) != {}
      && (c.insyncLearners != {} ==> Learners(c, c.insyncLearners) != {})
  }

  method GetMajorityIndex(c: Config, self: nat, lastIndex: nat, peers: map<nat, Peer>) returns (r: nat)
    requires AllKnown(c, self, peers) && Countable(c)
    ensures IsCommitIndex(c, self, lastIndex, peers, r)
  {
    if c.oldMembers == {} || c.newMembers == {} {
      var a := MajorityIndexOf(self, lastIndex, peers, c.roles.Keys, Voters(c, c.roles.Keys));
      if c.insyncLearners == {} {
        return a;
      }
      var b := MajorityIndexOf(self, lastIndex, peers, c.insyncLearners, Learners(c, c.insyncLearners));
      r := Min(a, b);
    } else {
      var a := MajorityIndexOf(self, lastIndex, peers, c.oldMembers, Voters(c, c.oldMembers));
      var b := MajorityIndexOf(self, lastIndex, peers, c.newMembers, Voters(c, c.newMembers));
      r := Min(a, b);
    }
  }

  lemma MajorityIndexHeld(c: Config, self: nat, lastIndex: nat, peers: map<nat, Peer>, ids: set<nat>,
                          top: nat, r: nat, holders: set<nat>)
    requires ids <= c.roles.Keys && AllKnown(c, self, peers)
    requires IsMajorityIndex(self, lastIndex, peers, Voters(c, ids), top) && r <= top
    requires forall id | IsVoter(c, id) && Stored(self, lastIndex, peers, id) >= r :: id in holders
    ensures MajorityHolds(c, ids, holders)
  {
    SubsetSize(Holders(self, lastIndex, peers, Voters(c, ids), top), Voters(c, ids) * holders);
  }

  /** The voters that store the commit index form a commit quorum. */
  lemma CommitIndexHeld(c: Config, self: nat, lastIndex: nat, peers: map<nat, Peer>, r: nat, holders: set<nat>)
    requires AllKnown(c, self, peers)
    requires IsCommitIndex(c, self, lastIndex, peers, r)
    requires forall id | IsVoter(c, id) && Stored(self, lastIndex, peers, id) >= r :: id in holders
    ensures CommitQuorum(c, holders)
  {
    if Joint(c) {
      var a, b :| && IsMajorityIndex(self, lastIndex, peers, Voters(c, c.oldMembers), a)
                  && IsMajorityIndex(self, lastIndex, peers, Voters(c, c.newMembers), b)
                  && r == Min(a, b);
      MajorityIndexHeld(c, self, lastIndex, peers, c.oldMembers, a, r, holders);
      MajorityIndexHeld(c, self, lastIndex, peers, c.newMembers, b, r, holders);
    } else if c.insyncLearners == {} {
      MajorityIndexHeld(c, self, lastIndex, peers, c.roles.Keys, r, r, holders);
    } else {
      var a, b :| && IsMajorityIndex(self, lastIndex, peers, Voters(c, c.roles.Keys), a)
                  && IsMajorityIndex(self, lastIndex, peers, Learners(c, c.insyncLearners), b)
                  && r == Min(a, b);
      MajorityIndexHeld(c, self, lastIndex, peers, c.roles.Keys, a, r, holders);
    }
  }

  lemma MajorityIndexBound(self: nat, lastIndex: nat, peers: map<nat, Peer>, ids: set<nat>, r: nat)
    requires Known(self, peers, ids) && IsMajorityIndex(self, lastIndex, peers, ids, r)
    requires forall id | id in peers :: peers[id].matchIndex <= lastIndex
    ensures r <= lastIndex
  {
    var h := Holders(self, lastIndex, peers, ids, r);
    assert |h| > 0;
    var id :| id in h;
  }

  /** Nothing beyond the leader's own log is ever taken for committed. */
  lemma CommitIndexBound(c: Config, self: nat, lastIndex: nat, peers: map<nat, Peer>, r: nat)
    requires AllKnown(c, self, peers) && IsCommitIndex(c, self, lastIndex, peers, r)
    requires forall id | id in peers :: peers[id].matchIndex <= lastIndex
    ensures r <= lastIndex
  {
    if Joint(c) {
      var a, b :| && IsMajorityIndex(self, lastIndex, peers, Voters(c, c.oldMembers), a)
                  && IsMajorityIndex(self, lastIndex, peers, Voters(c, c.newMembers), b)
                  && r == Min(a, b);
      MajorityIndexBound(self, lastIndex, peers, Voters(c, c.oldMembers), a);
    } else if c.insyncLearners == {} {
      MajorityIndexBound(self, lastIndex, peers, Voters(c, c.roles.Keys), r);
    } else {
      var a, b :| && IsMajorityIndex(self, lastIndex, peers, Voters(c, c.roles.Keys), a)
                  && IsMajorityIndex(self, lastIndex, peers, Learners(c, c.insyncLearners), b)
                  && r == Min(a, b);
      MajorityIndexBound(self, lastIndex, peers, Voters(c, c.roles.Keys), a);
    }
  }

  /** There is only one commit index. */
  lemma CommitIndexUnique(c: Config, self: nat, lastIndex: nat, peers: map<nat, Peer>, r: nat, r': nat)
    requires AllKnown(c, self, peers)
    requires IsCommitIndex(c, self, lastIndex, peers, r) && IsCommitIndex(c, self, lastIndex, peers, r')
    ensures r == r'
  {
  }

  // ---------------------------------------------------------------- votes

  /** The members whose vote counts for `self`: itself and every peer whose vote it holds. */
  function VotesHeld(self: nat, peers: map<nat, Peer>): set<nat> {
    {self} + set id | id in peers && peers[id].haveVote
  }

  /** Among `seen` there are `voteNum` counted votes and `nonVoterNum` learners. */
  ghost predicate Tally(c: Config, seen: set<nat>, votes: set<nat>, voteNum: nat, nonVoterNum: nat) {
    && voteNum == |NonLearners(c, seen) * votes|
    && nonVoterNum + |NonLearners(c, seen)| == |seen|
  }

  lemma TallyAdd(c: Config, seen: set<nat>, votes: set<nat>, voteNum: nat, nonVoterNum: nat, id: nat)
    requires id !in seen && Tally(c, seen, votes, voteNum, nonVoterNum)
    ensures Tally(c, seen + {id}, votes,
                  voteNum + (if !IsLearner(c, id) && id in votes then 1 else 0),
                  nonVoterNum + (if IsLearner(c, id) then 1 else 0))
  {
    var before, after := NonLearners(c, seen), NonLearners(c, seen + {id});
    assert after == if IsLearner(c, id) then before else before + {id};
    assert after * votes == if !IsLearner(c, id) && id in votes then before * votes + {id} else before * votes;
  }

  lemma TallyNext(c: Config, ids: set<nat>, rest: set<nat>, votes: set<nat>, voteNum: nat, nonVoterNum: nat, id: nat)
    requires id in rest && rest <= ids && Tally(c, ids - rest, votes, voteNum, nonVoterNum)
    ensures Tally(c, ids - (rest - {id}), votes,
                  voteNum + (if !IsLearner(c, id) && id in votes then 1 else 0),
                  nonVoterNum + (if IsLearner(c, id) then 1 else 0))
  {
    TallyAdd(c, ids - rest, votes, voteNum, nonVoterNum, id);
    assert ids - (rest - {id}) == (ids - rest) + {id};
  }

  lemma TallyDone(c: Config, ids: set<nat>, votes: set<nat>, voteNum: nat, nonVoterNum: nat)
    requires Tally(c, ids - {}, votes, voteNum, nonVoterNum)
    ensures nonVoterNum <= |ids| && (voteNum >= MajorityNumber(|ids| - nonVoterNum) <==> VotesPass(c, ids, votes))
  {
    assert ids - {} == ids;
  }

  method CheckQuorumVote(c: Config, self: nat, peers: map<nat, Peer>, ids: set<nat>) returns (r: bool)
    requires Known(self, peers, ids) && ids <= c.roles.Keys
    ensures r == VotesPass(c, ids, VotesHeld(self, peers))
  {
    ghost var votes := VotesHeld(self, peers);
    var voteNum: nat, nonVoterNum: nat := 0, 0;
    var rest := ids;
    assert ids - rest == {};
    while rest != {}
      invariant rest <= ids && Tally(c, ids - rest, votes, voteNum, nonVoterNum)
    {
      var id :| id in rest;
      TallyNext(c, ids, rest, votes, voteNum, nonVoterNum, id);
      rest := rest - {id};
      if IsLearner(c, id) {
        nonVoterNum := nonVoterNum + 1;
      } else if id == self {
        voteNum := voteNum + 1;
      } else if peers[id].haveVote {
        voteNum := voteNum + 1;
      }
    }
    TallyDone(c, ids, votes, voteNum, nonVoterNum);
    r := voteNum >= MajorityNumber(|ids| - nonVoterNum);
  }

  method CheckVotePass(c: Config, self: nat, peers: map<nat, Peer>) returns (r: bool)
    requires AllKnown(c, self, peers)
    ensures r == VoteQuorum(c, VotesHeld(self, peers))
  {
    if c.oldMembers == {} || c.newMembers == {} {
      r := CheckQuorumVote(c, self, peers, c.roles.Keys);
    } else {
      r := CheckQuorumVote(c, self, peers, c.oldMembers);
      if r {
        r := CheckQuorumVote(c, self, peers, c.newMembers);
      }
    }
  }
}
