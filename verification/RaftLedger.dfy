/**
 The history of a cluster and what it implies. A *reign* is the leadership of one term, with
 the votes that made it, the log it started from and every entry it added; a *ballot* is a
 vote together with the voter's log at that moment; an *ack* says up to where a node has
 stored the log of a reign. The main result is leader completeness.
 */
module RaftLedger {
  import opened RaftTypes
  import opened Quorum
  import opened RaftNode

  datatype Reign = Reign(id: nat, quorum: set<nat>, start: seq<Entry>, log: seq<Entry>)

  /** `early` marks a vote cast while its term had no leader yet. */
  datatype Ballot = Ballot(cand: nat, log: seq<Entry>, early: bool)

  /** Ballots and acks are keyed by term and node. */
  datatype History = History(
    reigns: map<nat, Reign>,
    ballots: map<(nat, nat), Ballot>,
    acked: map<(nat, nat), nat>)

  function LogOf(h: History, term: nat): seq<Entry> {
    if term in h.reigns then h.reigns[term].log else []
  }

  function StartOf(h: History, term: nat): seq<Entry> {
    if term in h.reigns then h.reigns[term].start else []
  }

  /** The first `i` elements, or all of them if there are fewer. */
  function Take(s: seq<Entry>, i: nat): seq<Entry> {
    if i <= |s| then s[..i] else s
  }

  // ---------------------------------------------------------------- prefixes

  lemma ShorterPrefix(a: seq<Entry>, b: seq<Entry>, whole: seq<Entry>)
    requires a <= whole && b <= whole && |a| <= |b|
    ensures a <= b
  {
  }

  lemma TakeTake(s: seq<Entry>, t: seq<Entry>, n: nat, l: nat)
    requires l <= n <= |s| && Take(s, n) <= t
    ensures Take(s, l) == Take(t, l)
  {
    assert s[..l] == s[..n][..l] == t[..n][..l] == t[..l];
  }

  lemma TakeShorter(a: seq<Entry>, s: seq<Entry>, n: nat, l: nat)
    requires l <= n <= |a| && n <= |s| && a[..n] == Take(s, n)
    ensures a[..l] == Take(s, l)
  {
    assert a[..l] == a[..n][..l] == s[..n][..l] == s[..l];
  }

  /** A log that ends in an entry of the leader's own term reaches past the leader's start. */
  lemma PastStart(start: seq<Entry>, log: seq<Entry>, lead: seq<Entry>, term: nat)
    requires start <= lead && 0 < |log| <= |lead| && log[..|log|] == lead[..|log|]
    requires log[|log| - 1].term == term && forall k | 0 <= k < |start| :: start[k].term < term
    ensures start <= log <= lead
  {
    assert log == log[..|log|] == lead[..|log|];
    assert forall k | 0 <= k < |start| :: start[k] == lead[k];
    assert log[|log| - 1] == lead[|log| - 1];
    ShorterPrefix(start, log, lead);
  }

  /** The log of a follower after it took over the prefix `m` of a leader's log. */
  function Adopt(log: seq<Entry>, m: seq<Entry>): seq<Entry> {
    if m <= log then log else m
  }

  /** A common prefix of the follower and the leader survives. */
  lemma AdoptKeepsCommon(log: seq<Entry>, lead: seq<Entry>, m: nat, kept: seq<Entry>)
    requires kept <= log && kept <= lead && m <= |lead|
    ensures kept <= Adopt(log, lead[..m])
  {
    if |kept| <= m {
      ShorterPrefix(kept, lead[..m], lead);
    } else {
      ShorterPrefix(lead[..m], kept, lead);
      assert lead[..m] <= log;
    }
  }

  // ---------------------------------------------------------------- invariant

  /** The log up to its entry `k` is what the leader of that entry's term had there. */
  predicate RootedAt(h: History, log: seq<Entry>, k: nat)
    requires 0 < k <= |log|
  {
    var t := log[k - 1].term;
    t in h.reigns && log[k - 1].index == k && k <= |LogOf(h, t)| && log[..k] == LogOf(h, t)[..k]
  }

  ghost predicate Rooted(h: History, log: seq<Entry>) {
    forall k: nat | 0 < k <= |log| :: RootedAt(h, log, k)
  }

  /** The leader of `later` did not start with the first `i` entries of the reign of `term`. */
  predicate Loses(h: History, term: nat, i: nat, later: nat) {
    later in h.reigns && !(Take(LogOf(h, term), i) <= StartOf(h, later))
  }

  /** `log` has the first `i` entries of a reign, unless a leader between then and `bound` lacked them. */
  ghost predicate Holds(h: History, log: seq<Entry>, term: nat, i: nat, bound: nat) {
    || Take(LogOf(h, term), i) <= log
    || exists u: nat :: term < u < bound && Loses(h, term, i, u)
  }

  ghost predicate HoldsAcks(h: History, v: nat, term: nat, log: seq<Entry>, bound: nat)
    requires (term, v) in h.acked
  {
    forall i: nat | i <= h.acked[(term, v)] :: Holds(h, log, term, i, bound)
  }

  ghost predicate KeepsAcks(h: History, v: nat, log: seq<Entry>, bound: nat) {
    forall t: nat {:trigger HoldsAcks(h, v, t, log, bound)} | t < bound && (t, v) in h.acked ::
      HoldsAcks(h, v, t, log, bound)
  }

  predicate VotedFor(h: History, term: nat, v: nat, cand: nat) {
    (term, v) in h.ballots && h.ballots[(term, v)].cand == cand
  }

  ghost predicate ReignOk(c: Config, h: History, term: nat)
    requires term in h.reigns
  {
    var r := h.reigns[term];
    && r.start <= r.log && |r.start| < |r.log|
    && Rooted(h, r.log)
    && (forall k | 0 <= k < |r.start| :: r.start[k].term < term)
    && (forall k | |r.start| <= k < |r.log| :: r.log[k].term == term)
    && VoteQuorum(c, r.quorum)
    && (forall v | v in r.quorum ::
          && IsVoter(c, v)
          && VotedFor(h, term, v, r.id)
          && h.ballots[(term, v)].early
          && UpToDate(|r.start|, LastTerm(r.start), h.ballots[(term, v)].log))
  }

  ghost predicate BallotOk(h: History, term: nat, v: nat)
    requires (term, v) in h.ballots
  {
    var b := h.ballots[(term, v)];
    && b.cand != 0
    && (!b.early ==> term in h.reigns)
    && (b.early ==>
          && Rooted(h, b.log)
          && KeepsAcks(h, v, b.log, term))
  }

  predicate AckOk(h: History, term: nat, v: nat)
    requires (term, v) in h.acked
  {
    term in h.reigns && h.acked[(term, v)] <= |LogOf(h, term)|
  }

  ghost predicate HistoryOk(c: Config, h: History) {
    && (forall t: nat {:trigger ReignOk(c, h, t)} | t in h.reigns :: ReignOk(c, h, t))
    && (forall t: nat, v: nat {:trigger BallotOk(h, t, v)} | (t, v) in h.ballots :: BallotOk(h, t, v))
    && (forall t: nat, v: nat {:trigger AckOk(h, t, v)} | (t, v) in h.acked :: AckOk(h, t, v))
  }

  function Ackers(c: Config, h: History, term: nat, i: nat): set<nat> {
    set v | v in c.roles && IsVoter(c, v) && (term, v) in h.acked && h.acked[(term, v)] >= i
  }

  /** Entry `i` of the reign of `term` was created in that reign and is stored by a commit quorum. */
  predicate Committed(c: Config, h: History, term: nat, i: nat) {
    && 0 < i <= |LogOf(h, term)|
    && LogOf(h, term)[i - 1].term == term
    && CommitQuorum(c, Ackers(c, h, term, i))
  }

  /** The first `n` entries of `log` lie below a committed entry of a reign up to `bound`. */
  ghost predicate CommitOk(c: Config, h: History, log: seq<Entry>, n: nat, bound: nat) {
    && n <= |log|
    && (n == 0 || exists t: nat, i: nat ::
                    && t <= bound && n <= i && Committed(c, h, t, i)
                    && log[..n] == Take(LogOf(h, t), n))
  }

  /** What must be true of the stored state and commit index of node `v`. */
  ghost predicate StoredOk(c: Config, h: History, v: nat, term: nat, vote: nat, log: seq<Entry>, commitIndex: nat) {
    && Rooted(h, log)
    && (forall k | 0 <= k < |log| :: log[k].term <= term)
    && (vote != 0 <==> (term, v) in h.ballots)
    && (vote != 0 ==> h.ballots[(term, v)].cand == vote)
    && (forall t: nat | (t, v) in h.ballots :: t <= term)
    && (forall t: nat | (t, v) in h.acked :: t <= term)
    && KeepsAcks(h, v, log, term + 1)
    && CommitOk(c, h, log, commitIndex, term)
  }

  ghost predicate NodeOk(c: Config, h: History, v: nat, n: Node) {
    StoredOk(c, h, v, n.term, n.vote, n.log, n.commitIndex)
  }

  // ---------------------------------------------------------------- consequences

  /** Log matching: two rooted logs with the same term at a position agree up to it. */
  lemma LogMatching(h: History, a: seq<Entry>, b: seq<Entry>, k: nat)
    requires Rooted(h, a) && Rooted(h, b)
    requires 0 < k <= |a| && k <= |b| && a[k - 1].term == b[k - 1].term
    ensures a[..k] == b[..k]
  {
    assert RootedAt(h, a, k) && RootedAt(h, b, k);
  }

  lemma ReignTerms(c: Config, h: History, term: nat, k: nat)
    requires HistoryOk(c, h) && k < |LogOf(h, term)|
    ensures LogOf(h, term)[k].term <= term
  {
    assert ReignOk(c, h, term);
    if k < |StartOf(h, term)| {
      assert LogOf(h, term)[k] == StartOf(h, term)[k];
    }
  }

  /** A rooted log contains the whole start of the reign of its last entry. */
  lemma ContainsStart(c: Config, h: History, log: seq<Entry>)
    requires HistoryOk(c, h) && Rooted(h, log) && log != []
    ensures LastTerm(log) in h.reigns && StartOf(h, LastTerm(log)) <= log <= LogOf(h, LastTerm(log))
  {
    var t := LastTerm(log);
    assert RootedAt(h, log, |log|);
    assert ReignOk(c, h, t);
    PastStart(StartOf(h, t), log, LogOf(h, t), t);
  }

  /** A candidate log that is up to date with a log holding an entry of `term` holds it too. */
  lemma UpToDateContains(c: Config, h: History, term: nat, i: nat, cand: seq<Entry>, voter: seq<Entry>)
    requires HistoryOk(c, h) && Rooted(h, cand) && Rooted(h, voter)
    requires 0 < i <= |LogOf(h, term)| && LogOf(h, term)[i - 1].term == term
    requires Take(LogOf(h, term), i) <= voter
    requires UpToDate(|cand|, LastTerm(cand), voter)
    requires LastTerm(cand) > term ==> Take(LogOf(h, term), i) <= StartOf(h, LastTerm(cand))
    ensures Take(LogOf(h, term), i) <= cand
  {
    ContainsStart(c, h, voter);
    assert voter[i - 1].term == term;
    ReignTerms(c, h, LastTerm(voter), i - 1);
    assert term <= LastTerm(voter);
    assert cand != [];
    ContainsStart(c, h, cand);
    if LastTerm(cand) == LastTerm(voter) {
      assert voter <= cand;
    }
  }

  /** Leader completeness: a committed entry is in the log of every leader of a later term. */
  lemma {:induction false} LeaderCompleteness(c: Config, h: History, term: nat, i: nat, later: nat)
    requires HistoryOk(c, h) && Committed(c, h, term, i) && term < later && later in h.reigns
    ensures Take(LogOf(h, term), i) <= StartOf(h, later)
    decreases later
  {
    var r := h.reigns[later];
    assert ReignOk(c, h, later);
    var v := VoteMeetsCommit(c, r.quorum, Ackers(c, h, term, i));
    var b := h.ballots[(later, v)];
    assert BallotOk(h, later, v);
    assert HoldsAcks(h, v, term, b.log, later);
    assert Holds(h, b.log, term, i, later);
    if !(Take(LogOf(h, term), i) <= b.log) {
      var u :| term < u < later && Loses(h, term, i, u);
      LeaderCompleteness(c, h, term, i, u);
      assert false;
    }
    RootedPrefix(h, r.log, r.start);
    if LastTerm(r.start) > term {
      assert r.start[|r.start| - 1].term < later;
      ContainsStart(c, h, r.start);
      LeaderCompleteness(c, h, term, i, LastTerm(r.start));
    }
    UpToDateContains(c, h, term, i, r.start, b.log);
  }

  lemma RootedPrefix(h: History, log: seq<Entry>, prefix: seq<Entry>)
    requires Rooted(h, log) && prefix <= log
    ensures Rooted(h, prefix)
  {
    forall k: nat | 0 < k <= |prefix| ensures RootedAt(h, prefix, k) {
      assert RootedAt(h, log, k);
      assert prefix[..k] == log[..k];
    }
  }

  /** A committed prefix is in the log of its own reign and of every later one. */
  lemma CommittedInLater(c: Config, h: History, term: nat, i: nat, later: nat)
    requires HistoryOk(c, h) && Committed(c, h, term, i) && term <= later && later in h.reigns
    ensures Take(LogOf(h, term), i) <= LogOf(h, later)
  {
    if term < later {
      LeaderCompleteness(c, h, term, i, later);
      assert ReignOk(c, h, later);
    }
  }

  /** Two committed entries: the shorter prefix of one is the same prefix of the other. */
  lemma ReignsAgree(c: Config, h: History, t: nat, i: nat, u: nat, j: nat, l: nat)
    requires HistoryOk(c, h) && Committed(c, h, t, i) && Committed(c, h, u, j)
    requires l <= i && l <= j
    ensures Take(LogOf(h, t), l) == Take(LogOf(h, u), l)
  {
    if t <= u {
      CommittedInLater(c, h, t, i, u);
      TakeTake(LogOf(h, t), LogOf(h, u), i, l);
    } else {
      CommittedInLater(c, h, u, j, t);
      TakeTake(LogOf(h, u), LogOf(h, t), j, l);
    }
  }

  /** State-machine safety: two committed prefixes agree wherever both reach. */
  lemma CommittedAgree(c: Config, h: History, a: seq<Entry>, n: nat, x: nat, b: seq<Entry>, m: nat, y: nat)
    requires HistoryOk(c, h) && CommitOk(c, h, a, n, x) && CommitOk(c, h, b, m, y)
    ensures a[..Min(n, m)] == b[..Min(n, m)]
  {
    var l := Min(n, m);
    if l > 0 {
      var t: nat, i: nat :| t <= x && n <= i && Committed(c, h, t, i) && a[..n] == Take(LogOf(h, t), n);
      var u: nat, j: nat :| u <= y && m <= j && Committed(c, h, u, j) && b[..m] == Take(LogOf(h, u), m);
      ReignsAgree(c, h, t, i, u, j, l);
      TakeShorter(a, LogOf(h, t), n, l);
      TakeShorter(b, LogOf(h, u), m, l);
    }
  }

  /** What a node committed is a prefix of the log of the reign it lives in. */
  lemma CommitInReign(c: Config, h: History, log: seq<Entry>, n: nat, term: nat)
    requires HistoryOk(c, h) && CommitOk(c, h, log, n, term) && term in h.reigns
    ensures log[..n] <= LogOf(h, term)
  {
    if n > 0 {
      var t: nat, i: nat :| t <= term && n <= i && Committed(c, h, t, i) && log[..n] == Take(LogOf(h, t), n);
      CommittedInLater(c, h, t, i, term);
      TakeTake(LogOf(h, t), LogOf(h, term), i, n);
    }
  }

  // ---------------------------------------------------------------- growth

  /** Reigns keep leader, votes and start and only gain entries; ballots stay; acks only rise. */
  ghost predicate Grows(h: History, h': History) {
    && (forall t: nat | t in h.reigns ::
          && t in h'.reigns
          && h'.reigns[t].id == h.reigns[t].id
          && h'.reigns[t].quorum == h.reigns[t].quorum
          && h'.reigns[t].start == h.reigns[t].start
          && h.reigns[t].log <= h'.reigns[t].log)
    && (forall t: nat, v: nat | (t, v) in h.ballots ::
          (t, v) in h'.ballots && h'.ballots[(t, v)] == h.ballots[(t, v)])
    && (forall t: nat, v: nat | (t, v) in h.acked ::
          (t, v) in h'.acked && h'.acked[(t, v)] >= h.acked[(t, v)])
  }

  lemma GrowsTransitive(a: History, b: History, d: History)
    requires Grows(a, b) && Grows(b, d)
    ensures Grows(a, d)
  {
  }

  lemma RootedGrows(h: History, h': History, log: seq<Entry>)
    requires Grows(h, h') && Rooted(h, log)
    ensures Rooted(h', log)
  {
    forall k: nat | 0 < k <= |log| ensures RootedAt(h', log, k) {
      assert RootedAt(h, log, k);
      var t := log[k - 1].term;
      assert LogOf(h', t)[..k] == LogOf(h, t)[..k];
    }
  }

  lemma HoldsGrows(h: History, h': History, log: seq<Entry>, log': seq<Entry>, term: nat, i: nat, b: nat, b': nat)
    requires Grows(h, h') && i <= |LogOf(h, term)| && term in h.reigns
    requires log <= log' && b <= b' && Holds(h, log, term, i, b)
    ensures Holds(h', log', term, i, b')
  {
    assert Take(LogOf(h', term), i) == Take(LogOf(h, term), i);
    if !(Take(LogOf(h, term), i) <= log) {
      var u: nat :| term < u < b && Loses(h, term, i, u);
      assert Loses(h', term, i, u);
    }
  }

  lemma HoldsAcksGrows(h: History, h': History, v: nat, term: nat, log: seq<Entry>, log': seq<Entry>, b: nat, b': nat)
    requires Grows(h, h') && (term, v) in h.acked && AckOk(h, term, v)
    requires (term, v) in h'.acked && h'.acked[(term, v)] == h.acked[(term, v)]
    requires log <= log' && b <= b' && HoldsAcks(h, v, term, log, b)
    ensures HoldsAcks(h', v, term, log', b')
  {
    forall i: nat | i <= h'.acked[(term, v)] ensures Holds(h', log', term, i, b') {
      HoldsGrows(h, h', log, log', term, i, b, b');
    }
  }

  lemma CommittedGrows(c: Config, h: History, h': History, term: nat, i: nat)
    requires Grows(h, h') && Committed(c, h, term, i)
    ensures Committed(c, h', term, i)
    ensures Take(LogOf(h', term), i) == Take(LogOf(h, term), i)
  {
    CommitQuorumMonotone(c, Ackers(c, h, term, i), Ackers(c, h', term, i));
  }

  lemma CommitOkGrows(c: Config, h: History, h': History, log: seq<Entry>, log': seq<Entry>, n: nat, b: nat, b': nat)
    requires Grows(h, h') && log[..Min(n, |log|)] <= log' && b <= b' && CommitOk(c, h, log, n, b)
    ensures CommitOk(c, h', log', n, b')
  {
    if n > 0 {
      var t: nat, i: nat :| t <= b && n <= i && Committed(c, h, t, i) && log[..n] == Take(LogOf(h, t), n);
      CommittedGrows(c, h, h', t, i);
      TakeTake(LogOf(h, t), LogOf(h', t), i, n);
      assert log'[..n] == log[..n];
      CommittedBelow(c, h', log', n, b', t, i);
    }
  }

  lemma CommittedBelow(c: Config, h: History, log: seq<Entry>, n: nat, bound: nat, t: nat, i: nat)
    requires n <= |log| && t <= bound && n <= i && Committed(c, h, t, i) && log[..n] == Take(LogOf(h, t), n)
    ensures CommitOk(c, h, log, n, bound)
  {
  }

  lemma BallotGrows(h: History, h': History, term: nat, v: nat)
    requires Grows(h, h') && (term, v) in h.ballots && BallotOk(h, term, v)
    requires forall t: nat {:trigger AckOk(h, t, v)} | (t, v) in h.acked :: AckOk(h, t, v)
    requires forall t: nat | t < term && (t, v) in h'.acked ::
               (t, v) in h.acked && h'.acked[(t, v)] == h.acked[(t, v)]
    ensures BallotOk(h', term, v)
  {
    var b := h.ballots[(term, v)];
    if b.early {
      RootedGrows(h, h', b.log);
      forall t: nat | t < term && (t, v) in h'.acked ensures HoldsAcks(h', v, t, b.log, term) {
        HoldsAcksGrows(h, h', v, t, b.log, b.log, term, term);
      }
    }
  }

  lemma ReignGrows(c: Config, h: History, h': History, term: nat)
    requires Grows(h, h') && term in h.reigns && ReignOk(c, h, term) && h'.reigns[term] == h.reigns[term]
    ensures ReignOk(c, h', term)
  {
    RootedGrows(h, h', h.reigns[term].log);
  }

  /** Nothing about node `v` itself changed between the two histories. */
  ghost predicate Untouched(h: History, h': History, v: nat) {
    && (forall t: nat | (t, v) in h'.ballots :: (t, v) in h.ballots)
    && (forall t: nat | (t, v) in h'.acked :: (t, v) in h.acked && h'.acked[(t, v)] == h.acked[(t, v)])
  }

  lemma NodeGrows(c: Config, h: History, h': History, v: nat, n: Node)
    requires HistoryOk(c, h) && Grows(h, h') && Untouched(h, h', v) && NodeOk(c, h, v, n)
    ensures NodeOk(c, h', v, n)
  {
    RootedGrows(h, h', n.log);
    forall t: nat | (t, v) in h'.acked ensures t <= n.term && HoldsAcks(h', v, t, n.log, n.term + 1) {
      assert AckOk(h, t, v);
      HoldsAcksGrows(h, h', v, t, n.log, n.log, n.term + 1, n.term + 1);
    }
    CommitOkGrows(c, h, h', n.log, n.log, n.commitIndex, n.term, n.term);
  }

  // ---------------------------------------------------------------- transitions

  /** Moving to a later term forgets the vote and nothing else. */
  lemma AdoptTerm(c: Config, h: History, v: nat, n: Node, n': Node)
    requires HistoryOk(c, h) && NodeOk(c, h, v, n)
    requires n'.term > n.term && n'.vote == 0 && n'.log == n.log && n'.commitIndex == n.commitIndex
    ensures NodeOk(c, h, v, n')
  {
    forall t: nat | (t, v) in h.acked ensures HoldsAcks(h, v, t, n'.log, n'.term + 1) {
      assert AckOk(h, t, v);
      HoldsAcksGrows(h, h, v, t, n.log, n.log, n.term + 1, n'.term + 1);
    }
    CommitOkGrows(c, h, h, n.log, n.log, n.commitIndex, n.term, n'.term);
  }

  function Cast(h: History, v: nat, n: Node, cand: nat): History {
    h.(ballots := h.ballots[(n.term, v) := Ballot(cand, n.log, n.term !in h.reigns)])
  }

  lemma CastBallots(c: Config, h: History, v: nat, n: Node, cand: nat, t: nat, u: nat)
    requires HistoryOk(c, h) && NodeOk(c, h, v, n) && n.vote == 0 && cand != 0
    requires Grows(h, Cast(h, v, n, cand)) && (t, u) in Cast(h, v, n, cand).ballots
    ensures BallotOk(Cast(h, v, n, cand), t, u)
  {
    var h' := Cast(h, v, n, cand);
    if t == n.term && u == v {
      RootedGrows(h, h', n.log);
      if n.term !in h.reigns {
        forall s: nat | s < n.term && (s, v) in h'.acked ensures HoldsAcks(h', v, s, n.log, n.term) {
          HoldsBefore(h, h', v, s, n);
        }
      }
    } else {
      assert BallotOk(h, t, u);
      BallotGrows(h, h', t, u);
    }
  }

  /** Casting the first vote of a term. */
  lemma CastKeeps(c: Config, h: History, v: nat, n: Node, n': Node, cand: nat)
    requires HistoryOk(c, h) && NodeOk(c, h, v, n) && n.vote == 0 && cand != 0
    requires n'.vote == cand && n'.term == n.term && n'.log == n.log && n'.commitIndex == n.commitIndex
    ensures var h' := Cast(h, v, n, cand);
            Grows(h, h') && HistoryOk(c, h') && NodeOk(c, h', v, n')
  {
    var h' := Cast(h, v, n, cand);
    assert Grows(h, h');
    forall t: nat, u: nat | (t, u) in h'.ballots ensures BallotOk(h', t, u) {
      CastBallots(c, h, v, n, cand, t, u);
    }
    forall t: nat, u: nat | (t, u) in h'.acked ensures AckOk(h', t, u) { assert AckOk(h, t, u); }
    forall t: nat | t in h'.reigns ensures ReignOk(c, h', t) { ReignGrows(c, h, h', t); }
    CastNode(c, h, v, n, n', cand);
  }

  lemma CastNode(c: Config, h: History, v: nat, n: Node, n': Node, cand: nat)
    requires HistoryOk(c, h) && NodeOk(c, h, v, n) && n.vote == 0 && cand != 0 && Grows(h, Cast(h, v, n, cand))
    requires n'.vote == cand && n'.term == n.term && n'.log == n.log && n'.commitIndex == n.commitIndex
    ensures NodeOk(c, Cast(h, v, n, cand), v, n')
  {
    var h' := Cast(h, v, n, cand);
    RootedGrows(h, h', n.log);
    forall t: nat | (t, v) in h'.acked ensures HoldsAcks(h', v, t, n'.log, n'.term + 1) {
      assert AckOk(h, t, v) && HoldsAcks(h, v, t, n.log, n.term + 1);
      HoldsAcksGrows(h, h', v, t, n.log, n.log, n.term + 1, n.term + 1);
    }
    CommitOkGrows(c, h, h', n.log, n.log, n.commitIndex, n.term, n.term);
  }

  /** While a term has no leader, what a node of that term lost, it lost to an earlier leader. */
  lemma HoldsBefore(h: History, h': History, v: nat, t: nat, n: Node)
    requires (t, v) in h.acked && HoldsAcks(h, v, t, n.log, n.term + 1)
    requires n.term !in h.reigns && h'.reigns == h.reigns && h'.acked == h.acked
    ensures HoldsAcks(h', v, t, n.log, n.term)
  {
    forall i: nat | i <= h'.acked[(t, v)] ensures Holds(h', n.log, t, i, n.term) {
      assert Holds(h, n.log, t, i, n.term + 1);
      if !(Take(LogOf(h, t), i) <= n.log) {
        var u: nat :| t < u < n.term + 1 && Loses(h, t, i, u);
        assert Loses(h', t, i, u);
      }
    }
  }

  /** The history once `v` leads its term with the votes of `quorum` and the log `log`. */
  function Crown(h: History, v: nat, term: nat, quorum: set<nat>, start: seq<Entry>, log: seq<Entry>): History {
    h.(reigns := h.reigns[term := Reign(v, quorum, start, log)], acked := h.acked[(term, v) := |log|])
  }

  /** Entries that continue a log within one term. */
  predicate Continues(log: seq<Entry>, log': seq<Entry>, term: nat) {
    && log <= log'
    && (forall k | |log| <= k < |log'| :: log'[k].term == term && log'[k].index == k + 1)
  }

  lemma RootedExtends(h: History, h': History, term: nat, log: seq<Entry>, log': seq<Entry>)
    requires Grows(h, h') && Rooted(h, log) && Continues(log, log', term)
    requires term in h'.reigns && LogOf(h', term) == log'
    ensures Rooted(h', log')
  {
    RootedGrows(h, h', log);
    forall k: nat | 0 < k <= |log'| ensures RootedAt(h', log', k) {
      if k <= |log| {
        assert RootedAt(h', log, k);
        assert log'[..k] == log[..k];
      }
    }
  }

  /** The leader's node, and everybody's ballots and acks, after its log grew within its term. */
  lemma LeaderNodeOk(c: Config, h: History, h': History, v: nat, n: Node, n': Node)
    requires HistoryOk(c, h) && NodeOk(c, h, v, n) && Grows(h, h')
    requires n'.term == n.term && n'.vote == n.vote && n'.commitIndex == n.commitIndex
    requires Continues(n.log, n'.log, n.term)
    requires h'.ballots == h.ballots && h'.acked == h.acked[(n.term, v) := |n'.log|]
    requires n.term in h'.reigns && LogOf(h', n.term) == n'.log
    ensures NodeOk(c, h', v, n')
  {
    RootedExtends(h, h', n.term, n.log, n'.log);
    forall t: nat | (t, v) in h'.acked ensures HoldsAcks(h', v, t, n'.log, n'.term + 1) {
      if t == n.term {
        HoldsOwn(h', v, n'.term, n'.log);
      } else {
        assert AckOk(h, t, v) && HoldsAcks(h, v, t, n.log, n.term + 1);
        HoldsAcksGrows(h, h', v, t, n.log, n'.log, n.term + 1, n.term + 1);
      }
    }
    assert n.log[..n.commitIndex] <= n'.log;
    CommitOkGrows(c, h, h', n.log, n'.log, n.commitIndex, n.term, n.term);
  }

  lemma HoldsOwn(h: History, v: nat, term: nat, log: seq<Entry>)
    requires (term, v) in h.acked && LogOf(h, term) == log
    ensures HoldsAcks(h, v, term, log, term + 1)
  {
  }

  /** Ballots and other acks are unaffected when the ack of `v` in its current term changes. */
  lemma BallotsAndAcksKept(c: Config, h: History, h': History, v: nat, n: Node)
    requires HistoryOk(c, h) && NodeOk(c, h, v, n) && Grows(h, h')
    requires h'.ballots == h.ballots && (n.term, v) in h'.acked
    requires h'.acked == h.acked[(n.term, v) := h'.acked[(n.term, v)]]
    requires AckOk(h', n.term, v)
    ensures forall t: nat, u: nat {:trigger BallotOk(h', t, u)} | (t, u) in h'.ballots :: BallotOk(h', t, u)
    ensures forall t: nat, u: nat {:trigger AckOk(h', t, u)} | (t, u) in h'.acked :: AckOk(h', t, u)
  {
    forall t: nat, u: nat | (t, u) in h'.ballots ensures BallotOk(h', t, u) {
      assert BallotOk(h, t, u);
      forall s: nat | (s, u) in h.acked ensures AckOk(h, s, u) {}
      BallotGrows(h, h', t, u);
    }
    forall t: nat, u: nat | (t, u) in h'.acked ensures AckOk(h', t, u) {
      if (t, u) != (n.term, v) {
        assert AckOk(h, t, u);
      }
    }
  }

  lemma OlderTerms(c: Config, h: History, v: nat, n: Node, k: nat)
    requires NodeOk(c, h, v, n) && n.term !in h.reigns && k < |n.log|
    ensures n.log[k].term < n.term
  {
    assert RootedAt(h, n.log, k + 1);
  }

  /** A vote cast before its term has a leader is early. */
  lemma EarlyVote(c: Config, h: History, term: nat, u: nat)
    requires HistoryOk(c, h) && term !in h.reigns && (term, u) in h.ballots
    ensures h.ballots[(term, u)].early
  {
    assert BallotOk(h, term, u);
  }

  /** `u` is a voter whose early vote for `v` respected the log `start`. */
  ghost predicate Backs(c: Config, h: History, term: nat, u: nat, v: nat, start: seq<Entry>) {
    && IsVoter(c, u) && VotedFor(h, term, u, v) && h.ballots[(term, u)].early
    && UpToDate(|start|, LastTerm(start), h.ballots[(term, u)].log)
  }

  lemma NewReign(c: Config, h: History, term: nat)
    requires term in h.reigns && Rooted(h, LogOf(h, term))
    requires var r := h.reigns[term];
             && Continues(r.start, r.log, term) && |r.start| < |r.log| && VoteQuorum(c, r.quorum)
             && (forall k | 0 <= k < |r.start| :: r.start[k].term < term)
             && (forall u {:trigger Backs(c, h, term, u, r.id, r.start)} | u in r.quorum ::
                   Backs(c, h, term, u, r.id, r.start))
    ensures ReignOk(c, h, term)
  {
    var r := h.reigns[term];
    forall u | u in r.quorum
      ensures IsVoter(c, u) && VotedFor(h, term, u, r.id) && h.ballots[(term, u)].early
      ensures UpToDate(|r.start|, LastTerm(r.start), h.ballots[(term, u)].log) {
      assert Backs(c, h, term, u, r.id, r.start);
    }
  }

  lemma CrownReign(c: Config, h: History, h': History, v: nat, n: Node, quorum: set<nat>, log: seq<Entry>)
    requires HistoryOk(c, h) && NodeOk(c, h, v, n)
    requires n.term !in h.reigns && VoteQuorum(c, quorum)
    requires forall u | u in quorum ::
               && IsVoter(c, u) && VotedFor(h, n.term, u, v)
               && UpToDate(|n.log|, LastTerm(n.log), h.ballots[(n.term, u)].log)
    requires Continues(n.log, log, n.term) && |n.log| < |log|
    requires h' == Crown(h, v, n.term, quorum, n.log, log) && Grows(h, h')
    ensures ReignOk(c, h', n.term)
  {
    RootedExtends(h, h', n.term, n.log, log);
    forall k | 0 <= k < |n.log| ensures n.log[k].term < n.term { OlderTerms(c, h, v, n, k); }
    forall u | u in quorum ensures Backs(c, h', n.term, u, v, n.log) { EarlyVote(c, h, n.term, u); }
    NewReign(c, h', n.term);
  }

  /** A candidate with a winning set of votes starts the first reign of its term. */
  lemma CrownKeeps(c: Config, h: History, v: nat, n: Node, n': Node, quorum: set<nat>)
    requires HistoryOk(c, h) && NodeOk(c, h, v, n)
    requires n.term !in h.reigns && VoteQuorum(c, quorum)
    requires forall u | u in quorum ::
               && IsVoter(c, u) && VotedFor(h, n.term, u, v)
               && UpToDate(|n.log|, LastTerm(n.log), h.ballots[(n.term, u)].log)
    requires n'.term == n.term && n'.vote == n.vote && n'.commitIndex == n.commitIndex
    requires Continues(n.log, n'.log, n.term) && |n.log| < |n'.log|
    ensures var h' := Crown(h, v, n.term, quorum, n.log, n'.log);
            Grows(h, h') && HistoryOk(c, h') && NodeOk(c, h', v, n')
  {
    var h' := Crown(h, v, n.term, quorum, n.log, n'.log);
    CrownGrows(c, h, v, n, n'.log, quorum);
    LeaderNodeOk(c, h, h', v, n, n');
    BallotsAndAcksKept(c, h, h', v, n);
    forall t: nat | t in h'.reigns ensures ReignOk(c, h', t) {
      if t == n.term {
        CrownReign(c, h, h', v, n, quorum, n'.log);
      } else {
        ReignGrows(c, h, h', t);
      }
    }
  }

  lemma CrownGrows(c: Config, h: History, v: nat, n: Node, log: seq<Entry>, quorum: set<nat>)
    requires HistoryOk(c, h) && n.term !in h.reigns
    ensures Grows(h, Crown(h, v, n.term, quorum, n.log, log))
  {
    assert (n.term, v) in h.acked ==> AckOk(h, n.term, v);
  }

  function Extend(h: History, v: nat, term: nat, log: seq<Entry>): History
    requires term in h.reigns
  {
    h.(reigns := h.reigns[term := h.reigns[term].(log := log)], acked := h.acked[(term, v) := |log|])
  }

  lemma ExtendReign(c: Config, h: History, h': History, v: nat, term: nat, log: seq<Entry>)
    requires term in h.reigns && ReignOk(c, h, term) && Continues(LogOf(h, term), log, term)
    requires h' == Extend(h, v, term, log) && Grows(h, h')
    ensures ReignOk(c, h', term)
  {
    RootedExtends(h, h', term, LogOf(h, term), log);
  }

  /** A leader adds entries of its own term. */
  lemma LeaderAppends(c: Config, h: History, v: nat, n: Node, n': Node)
    requires HistoryOk(c, h) && NodeOk(c, h, v, n)
    requires n.term in h.reigns && LogOf(h, n.term) == n.log
    requires n'.term == n.term && n'.vote == n.vote && n'.commitIndex == n.commitIndex
    requires Continues(n.log, n'.log, n.term)
    ensures var h' := Extend(h, v, n.term, n'.log);
            Grows(h, h') && HistoryOk(c, h') && NodeOk(c, h', v, n')
  {
    var h' := Extend(h, v, n.term, n'.log);
    assert (n.term, v) in h.acked ==> AckOk(h, n.term, v);
    assert Grows(h, h');
    LeaderNodeOk(c, h, h', v, n, n');
    BallotsAndAcksKept(c, h, h', v, n);
    forall t: nat | t in h'.reigns ensures ReignOk(c, h', t) {
      assert ReignOk(c, h, t);
      if t == n.term {
        ExtendReign(c, h, h', v, n.term, n'.log);
      } else {
        ReignGrows(c, h, h', t);
      }
    }
  }

  function Acknowledge(h: History, term: nat, v: nat, m: nat): History {
    var old' := if (term, v) in h.acked then h.acked[(term, v)] else 0;
    h.(acked := h.acked[(term, v) := Max(old', m)])
  }

  /** Adopting a prefix of the reign of its term never touches what the follower has committed. */
  lemma AdoptKeepsCommit(c: Config, h: History, v: nat, n: Node, m: nat)
    requires HistoryOk(c, h) && NodeOk(c, h, v, n) && n.term in h.reigns && m <= |LogOf(h, n.term)|
    ensures n.log[..n.commitIndex] <= Adopt(n.log, LogOf(h, n.term)[..m])
  {
    CommitInReign(c, h, n.log, n.commitIndex, n.term);
    AdoptKeepsCommon(n.log, LogOf(h, n.term), m, n.log[..n.commitIndex]);
  }

  /** What a follower acknowledged stays, unless the leader it now follows never had it. */
  lemma AdoptKeepsAck(h: History, log: seq<Entry>, term: nat, m: nat, t: nat, i: nat)
    requires term in h.reigns && StartOf(h, term) <= LogOf(h, term) && m <= |LogOf(h, term)|
    requires t <= term && Holds(h, log, t, i, term + 1)
    ensures Holds(h, Adopt(log, LogOf(h, term)[..m]), t, i, term + 1)
  {
    var kept := Take(LogOf(h, t), i);
    if kept <= log {
      if t < term && !(kept <= StartOf(h, term)) {
        assert Loses(h, t, i, term);
      } else {
        assert kept <= LogOf(h, term);
        AdoptKeepsCommon(log, LogOf(h, term), m, kept);
      }
    }
  }

  lemma AdoptKeepsAcks(c: Config, h: History, h': History, v: nat, n: Node, m: nat, t: nat)
    requires HistoryOk(c, h) && NodeOk(c, h, v, n) && n.term in h.reigns && m <= |LogOf(h, n.term)|
    requires h' == Acknowledge(h, n.term, v, m) && Grows(h, h') && (t, v) in h'.acked
    ensures HoldsAcks(h', v, t, Adopt(n.log, LogOf(h, n.term)[..m]), n.term + 1)
  {
    var log, bound := Adopt(n.log, LogOf(h, n.term)[..m]), n.term + 1;
    forall i: nat | i <= h'.acked[(t, v)] ensures Holds(h', log, t, i, bound) {
      if (t, v) in h.acked && i <= h.acked[(t, v)] {
        OldAckHeld(c, h, h', v, n, m, t, i);
      } else {
        NewAckHeld(h', n.log, n.term, m, i);
      }
    }
  }

  lemma OldAckHeld(c: Config, h: History, h': History, v: nat, n: Node, m: nat, t: nat, i: nat)
    requires HistoryOk(c, h) && NodeOk(c, h, v, n) && n.term in h.reigns && m <= |LogOf(h, n.term)|
    requires Grows(h, h') && (t, v) in h.acked && i <= h.acked[(t, v)]
    ensures Holds(h', Adopt(n.log, LogOf(h, n.term)[..m]), t, i, n.term + 1)
  {
    var log, bound := Adopt(n.log, LogOf(h, n.term)[..m]), n.term + 1;
    assert AckOk(h, t, v) && HoldsAcks(h, v, t, n.log, bound);
    assert ReignOk(c, h, n.term);
    assert Holds(h, n.log, t, i, bound);
    AdoptKeepsAck(h, n.log, n.term, m, t, i);
    HoldsGrows(h, h', log, log, t, i, bound, bound);
  }

  lemma NewAckHeld(h: History, log: seq<Entry>, term: nat, m: nat, i: nat)
    requires i <= m <= |LogOf(h, term)|
    ensures Holds(h, Adopt(log, LogOf(h, term)[..m]), term, i, term + 1)
  {
    assert Take(LogOf(h, term), i) <= LogOf(h, term)[..m];
  }

  lemma AdoptLog(c: Config, h: History, log: seq<Entry>, term: nat, m: nat)
    requires HistoryOk(c, h) && Rooted(h, log) && term in h.reigns && m <= |LogOf(h, term)|
    requires forall k | 0 <= k < |log| :: log[k].term <= term
    ensures var log' := Adopt(log, LogOf(h, term)[..m]);
            Rooted(h, log') && forall k | 0 <= k < |log'| :: log'[k].term <= term
  {
    assert ReignOk(c, h, term);
    RootedPrefix(h, LogOf(h, term), LogOf(h, term)[..m]);
    forall k | 0 <= k < m ensures LogOf(h, term)[k].term <= term { ReignTerms(c, h, term, k); }
  }

  lemma AdoptNode(c: Config, h: History, h': History, v: nat, n: Node, n': Node, m: nat)
    requires HistoryOk(c, h) && NodeOk(c, h, v, n) && n.term in h.reigns && m <= |LogOf(h, n.term)|
    requires h' == Acknowledge(h, n.term, v, m) && Grows(h, h')
    requires n'.term == n.term && n'.vote == n.vote && n'.commitIndex == n.commitIndex
    requires n'.log == Adopt(n.log, LogOf(h, n.term)[..m])
    ensures NodeOk(c, h', v, n')
  {
    AdoptLog(c, h, n.log, n.term, m);
    RootedGrows(h, h', n'.log);
    forall t: nat | (t, v) in h'.acked ensures HoldsAcks(h', v, t, n'.log, n'.term + 1) {
      AdoptKeepsAcks(c, h, h', v, n, m, t);
    }
    AdoptKeepsCommit(c, h, v, n, m);
    CommitOkGrows(c, h, h', n.log, n'.log, n.commitIndex, n.term, n.term);
  }

  /** A follower stores a prefix of the log of its leader and acknowledges it. */
  lemma AdoptKeeps(c: Config, h: History, v: nat, n: Node, n': Node, m: nat)
    requires HistoryOk(c, h) && NodeOk(c, h, v, n) && n.term in h.reigns && m <= |LogOf(h, n.term)|
    requires n'.term == n.term && n'.vote == n.vote && n'.commitIndex == n.commitIndex
    requires n'.log == Adopt(n.log, LogOf(h, n.term)[..m])
    ensures var h' := Acknowledge(h, n.term, v, m);
            Grows(h, h') && HistoryOk(c, h') && NodeOk(c, h', v, n')
  {
    var h' := Acknowledge(h, n.term, v, m);
    assert (n.term, v) in h.acked ==> AckOk(h, n.term, v);
    assert Grows(h, h');
    BallotsAndAcksKept(c, h, h', v, n);
    forall t: nat | t in h'.reigns ensures ReignOk(c, h', t) { ReignGrows(c, h, h', t); }
    AdoptNode(c, h, h', v, n, n', m);
  }

  /** The positions that the skip loop passes over agree with the leader's log. */
  lemma MatchedAgree(h: History, log: seq<Entry>, lead: seq<Entry>, prev: nat, es: seq<Entry>)
    requires Rooted(h, log) && Rooted(h, lead)
    requires prev + |es| <= |lead| && es == lead[prev..prev + |es|] && LogIsOk(log, prev, TermAt(lead, prev))
    ensures prev <= |log|
    ensures var k := prev + MatchLen(log, prev, es); log[..k] == lead[..k]
  {
    var k := MatchLen(log, prev, es);
    var p := prev + k;
    if p > 0 {
      if k > 0 {
        assert lead[p - 1] == es[k - 1] && log[prev + (k - 1)].term == es[k - 1].term;
      }
      assert log[p - 1].term == lead[p - 1].term;
      LogMatching(h, log, lead, p);
    }
  }

  lemma MergeIsAdopt(log: seq<Entry>, prefix: seq<Entry>, prev: nat, es: seq<Entry>)
    requires prev <= |log| && |prefix| == prev + |es|
    requires forall i | 0 <= i < |es| :: prefix[prev + i] == es[i]
    requires var k := prev + MatchLen(log, prev, es); log[..k] == prefix[..k]
    ensures Merge(log, prev, es) == Adopt(log, prefix)
  {
    AdoptByTerms(log, prefix, prev, es, MatchLen(log, prev, es));
  }

  /** Keeping a common prefix up to the first differing term and appending the rest is adoption. */
  lemma AdoptByTerms(log: seq<Entry>, prefix: seq<Entry>, prev: nat, es: seq<Entry>, k: nat)
    requires |prefix| == prev + |es| && k <= |es| && prev + k <= |log|
    requires forall i | 0 <= i < |es| :: prefix[prev + i] == es[i]
    requires log[..prev + k] == prefix[..prev + k]
    requires k < |es| && prev + k < |log| ==> log[prev + k].term != es[k].term
    ensures Adopt(log, prefix) == if k == |es| then log else log[..prev + k] + es[k..]
  {
    if k == |es| {
      assert prefix == prefix[..prev + k] <= log;
    } else {
      assert prefix[prev + k] == es[k];
      assert !(prefix <= log);
      assert forall j | prev + k <= j < |prefix| :: prefix[j] == es[k..][j - (prev + k)] by {
        forall j | prev + k <= j < |prefix| ensures prefix[j] == es[k..][j - (prev + k)] {
          assert prefix[prev + (j - prev)] == es[j - prev];
        }
      }
      assert prefix == log[..prev + k] + es[k..];
    }
  }

  lemma NoCommittedCut(log: seq<Entry>, lead: seq<Entry>, prev: nat, es: seq<Entry>, commitIndex: nat)
    requires prev <= |log| && prev + |es| <= |lead| && es == lead[prev..prev + |es|]
    requires commitIndex <= |log| && log[..commitIndex] <= lead
    ensures !CutsBelow(log, prev, es, commitIndex)
  {
    forall j | 0 <= j < |es| && prev + j < commitIndex ensures log[prev + j] == es[j] {
      assert log[..commitIndex][prev + j] == lead[prev + j];
    }
  }

  lemma SliceGapFree(h: History, lead: seq<Entry>, prev: nat, es: seq<Entry>)
    requires Rooted(h, lead) && prev + |es| <= |lead| && es == lead[prev..prev + |es|]
    ensures GapFree(prev, es)
  {
    forall i | 0 <= i < |es| ensures es[i].index == prev + 1 + i {
      assert RootedAt(h, lead, prev + 1 + i);
    }
  }

  lemma MergeOnto(h: History, log: seq<Entry>, lead: seq<Entry>, prev: nat, es: seq<Entry>, commitIndex: nat)
    requires Rooted(h, log) && Rooted(h, lead) && commitIndex <= |log| && log[..commitIndex] <= lead
    requires prev + |es| <= |lead| && es == lead[prev..prev + |es|] && LogIsOk(log, prev, TermAt(lead, prev))
    ensures prev <= |log|
    ensures Merge(log, prev, es) == Adopt(log, lead[..prev + |es|])
    ensures !CutsBelow(log, prev, es, commitIndex) && GapFree(prev, es)
  {
    MatchedAgree(h, log, lead, prev, es);
    var prefix, k := lead[..prev + |es|], prev + MatchLen(log, prev, es);
    assert prefix[..k] == lead[..k];
    MergeIsAdopt(log, prefix, prev, es);
    NoCommittedCut(log, lead, prev, es, commitIndex);
    SliceGapFree(h, lead, prev, es);
  }

  /** The skip, cut and append loop takes over exactly the leader's prefix, and cuts nothing committed. */
  lemma MergeAdopts(c: Config, h: History, v: nat, n: Node, prev: nat, es: seq<Entry>, prevTerm: nat)
    requires HistoryOk(c, h) && NodeOk(c, h, v, n) && n.term in h.reigns
    requires prev + |es| <= |LogOf(h, n.term)| && es == LogOf(h, n.term)[prev..prev + |es|]
    requires prevTerm == TermAt(LogOf(h, n.term), prev) && LogIsOk(n.log, prev, prevTerm)
    ensures prev <= |n.log|
    ensures Merge(n.log, prev, es) == Adopt(n.log, LogOf(h, n.term)[..prev + |es|])
    ensures !CutsBelow(n.log, prev, es, n.commitIndex) && GapFree(prev, es)
  {
    assert ReignOk(c, h, n.term);
    CommitInReign(c, h, n.log, n.commitIndex, n.term);
    MergeOnto(h, n.log, LogOf(h, n.term), prev, es, n.commitIndex);
  }
}
