/**
 * One node from election to log: the raft thread, the command loop that observes it, and the apply loop that
 * hands its state over. Every step is one atomic access or one lock region of one thread.
 */
module LeaderPath {
  import opened RaftTypes
  import opened EventLog
  import Pipeline

  /** Raft changes the role before the term; a new leader is visible as such before its no-op is. */
  datatype RaftPc = Free | Crowning | Demoting(next: nat)

  /** A command on its way to the log, and the state it was processed on. */
  datatype Request = Request(term: nat, id: nat, events: seq<Event>, base: seq<Event>)

  /** `stable` records are committed in the cluster, known to this node or not; `noop` is the no-op of its reign. */
  datatype Raft = Raft(term: nat, leader: bool, pc: RaftPc, log: seq<Record>, commit: nat, stable: nat,
                       inbox: seq<Request>, reigned: set<nat>, noop: nat)

  datatype Seen = Seen(term: nat, leader: bool)

  datatype Transition = OldLeaderToNewLeader | LeaderToFollower | FollowerToLeader | OldFollowerToNewFollower
                      | SameLeader | SameFollower | Impossible

  datatype CplPc = Idle
                 | SawTerm(t: nat)
                 | SawRole(t: nat, leader: bool)
                 | Wait(t: nat)
                 | WaitLast(t: nat)
                 | WaitCommit(t: nat, last: nat)
                 | WaitLoaded(t: nat, last: nat, commit: nat)
                 | WaitApplied(t: nat, last: nat, commit: nat, loaded: nat)
                 | Scan(t: nat, last: nat, applied: nat, index: nat)
                 | Ready(t: nat, last: nat)
                 | Process

  /** `ready` are the terms for which state was handed over; `plan` is the log once the queue is drained. */
  datatype Cpl = Cpl(seen: Seen, checked: Seen, pc: CplPc, lastId: nat, state: seq<Event>, queue: seq<Request>,
                     ready: set<nat>, plan: seq<Record>)

  datatype EalMode = Stopped | Half(offset: nat) | Running

  datatype Eal = Eal(mode: EalMode, pipe: Pipeline.Pipe, state: seq<Event>)

  datatype Node = Node(raft: Raft, cpl: Cpl, eal: Eal)

  datatype Step = Crown
                | AppendNoop
                | Demote(next: nat)
                | RaiseTerm(next: nat)
                | Follow(log: seq<Record>)
                | Commit(commit: nat, stable: nat)
                | HandleRequest
                | SendBatch
                | ReadTerm
                | ReadRole
                | ReadTermAgain
                | WaitStep
                | Swap
                | ProcessCommand(events: seq<Event>)
                | Recover(offset: nat)
                | StartLoading
                | Pipe(step: Pipeline.Step)

  // ---------------------------------------------------------------- the code of the observer

  /** What a double read of the term around the role leads to, given what was recorded before. */
  function Refresh(seen: Seen, term: nat, leader: bool): Seen {
    if seen.term == term && seen.leader && !leader then seen else Seen(term, leader)
  }

  function Detect(last: Seen, now: Seen): Transition {
    if last.term != now.term then
      if last.term > now.term then Impossible
      else if last.leader then (if now.leader then OldLeaderToNewLeader else LeaderToFollower)
      else if now.leader then FollowerToLeader else OldFollowerToNewFollower
    else if last.leader then (if now.leader then SameLeader else Impossible)
    else if now.leader then FollowerToLeader else SameFollower
  }

  function AfterDetect(tr: Transition, term: nat): CplPc {
    match tr
    case SameLeader => Process
    case OldLeaderToNewLeader => Wait(term)
    case FollowerToLeader => Wait(term)
    case _ => Idle
  }

  /** One read of the waiting loop. */
  function Waited(pc: CplPc, raft: Raft, pipe: Pipeline.Pipe): CplPc
    requires pc.Scan? && pc.index <= pc.last ==> 0 < pc.index <= |raft.log|
  {
    match pc
    case Wait(t) => if raft.term != t then Idle else WaitLast(t)
    case WaitLast(t) => WaitCommit(t, |raft.log|)
    case WaitCommit(t, last) => WaitLoaded(t, last, raft.commit)
    case WaitLoaded(t, last, commit) => WaitApplied(t, last, commit, pipe.loaded)
    case WaitApplied(t, last, commit, loaded) =>
      if loaded != commit || commit != last then Wait(t) else Scan(t, last, pipe.applied, pipe.applied + 1)
    case Scan(t, last, applied, index) =>
      if index > last then Wait(t)
      else if !raft.log[index - 1].noop then Wait(t)
      else if index == last && raft.log[index - 1].term == t then Ready(t, last)
      else Scan(t, last, applied, index + 1)
    case _ => pc
  }

  predicate Waiting(pc: CplPc) {
    pc.Wait? || pc.WaitLast? || pc.WaitCommit? || pc.WaitLoaded? || pc.WaitApplied? || pc.Scan?
  }

  // ---------------------------------------------------------------- steps

  /** The steps of the raft thread. */
  predicate RaftStep(step: Step) {
    || step.Crown? || step.AppendNoop? || step.Demote? || step.RaiseTerm?
    || step.Follow? || step.Commit? || step.HandleRequest?
  }

  predicate RaftEnabled(r: Raft, step: Step) {
    match step
    case Crown => !r.leader && r.pc.Free? && forall i | 0 <= i < |r.log| :: r.log[i].term < r.term
    case AppendNoop => r.pc.Crowning?
    case Demote(next) => r.leader && r.pc.Free? && r.term < next
    case RaiseTerm(next) => if r.pc.Demoting? then next == r.pc.next else !r.leader && r.pc.Free? && r.term < next
    case Follow(log) =>
      && !r.leader && r.pc.Free?
      && r.stable <= |log| && Agree(r.log, log, Min(r.stable, |r.log|)) && IdsMatch(log, |log|)
      && (forall i | 0 <= i < |log| :: log[i].term <= r.term)
    case Commit(commit, stable) => r.commit <= commit <= stable && r.stable <= stable <= |r.log|
    case HandleRequest => r.pc.Free? && r.inbox != []
    case _ => false
  }

  predicate Enabled(s: Node, step: Step) {
    if RaftStep(step) then RaftEnabled(s.raft, step)
    else
      match step
      case SendBatch => s.cpl.queue != []
      case ReadTerm => s.cpl.pc.Idle?
      case ReadRole => s.cpl.pc.SawTerm?
      case ReadTermAgain => s.cpl.pc.SawRole?
      case WaitStep => Waiting(s.cpl.pc)
      case Swap => s.cpl.pc.Ready?
      case ProcessCommand(_) => s.cpl.pc.Process?
      case Recover(offset) => s.eal.mode.Stopped? && offset <= s.raft.stable
      case StartLoading => s.eal.mode.Half?
      case Pipe(step) => s.eal.mode.Running? && Pipeline.Enabled(s.eal.pipe, s.raft.log, s.raft.commit, step)
      case _ => false
  }

  /** The log index a request asks for is checked, and so is its term. */
  function Handled(r: Raft): Raft
    requires r.inbox != []
  {
    var q := r.inbox[0];
    if r.leader && q.term == r.term && q.id == |r.log| + 1
    then r.(inbox := r.inbox[1..], log := r.log + [Record(q.term, false, q.id, q.events)])
    else r.(inbox := r.inbox[1..])
  }

  function RaftAct(r: Raft, step: Step): Raft
    requires RaftStep(step) && RaftEnabled(r, step)
  {
    match step
    case Crown => r.(leader := true, pc := Crowning, reigned := r.reigned + {r.term})
    case AppendNoop => r.(pc := Free, log := r.log + [Record(r.term, true, 0, [])], noop := |r.log| + 1)
    case Demote(next) => r.(leader := false, pc := Demoting(next))
    case RaiseTerm(next) => r.(term := next, pc := Free)
    case Follow(log) => r.(log := log)
    case Commit(commit, stable) => r.(commit := commit, stable := stable)
    case HandleRequest => Handled(r)
  }

  function Empty(): Pipeline.Pipe {
    Pipeline.Pipe(0, 0, 0, [], [], None, 0, 0, [])
  }

  /** Reads of the log stay inside it; the assertion at the read would fail otherwise. */
  predicate ReadsInside(s: Node) {
    var pc := s.cpl.pc;
    pc.Scan? && pc.index <= pc.last ==> 0 < pc.index <= |s.raft.log|
  }

  function Act(s: Node, step: Step): Node
    requires Enabled(s, step) && s.raft.commit <= s.raft.stable <= |s.raft.log| && ReadsInside(s)
    requires s.cpl.pc.Ready? ==> s.cpl.pc.last <= |s.raft.log|
  {
    var r, c, e := s.raft, s.cpl, s.eal;
    if RaftStep(step) then s.(raft := RaftAct(r, step)) else
    match step
    case SendBatch => s.(raft := r.(inbox := r.inbox + [c.queue[0]]), cpl := c.(queue := c.queue[1..]))
    case ReadTerm => s.(cpl := c.(pc := SawTerm(r.term)))
    case ReadRole => s.(cpl := c.(pc := SawRole(c.pc.t, r.leader)))
    case ReadTermAgain =>
      if r.term != c.pc.t then s.(cpl := c.(pc := Idle))
      else
        var now := Refresh(c.seen, c.pc.t, c.pc.leader);
        s.(cpl := c.(seen := now, checked := now, pc := AfterDetect(Detect(c.checked, now), now.term)))
    case WaitStep => s.(cpl := c.(pc := Waited(c.pc, r, e.pipe)))
    case Swap =>
      s.(cpl := c.(pc := Process, lastId := c.pc.last, state := e.state, ready := c.ready + {c.pc.t},
                   plan := r.log[..c.pc.last]),
         eal := Eal(Stopped, Empty(), []))
    case ProcessCommand(events) =>
      if events == [] then s.(cpl := c.(pc := Idle))
      else
        var q := Request(c.seen.term, c.lastId + 1, events, c.state);
        s.(cpl := c.(pc := Idle, lastId := c.lastId + 1, state := c.state + events, queue := c.queue + [q],
                     plan := c.plan + [Record(q.term, false, q.id, events)]))
    case Recover(offset) => s.(eal := Eal(Half(offset), e.pipe.(applied := offset), EventsOf(r.log, offset)))
    case StartLoading => s.(eal := e.(mode := Running, pipe := Pipeline.Start(e.mode.offset)))
    case Pipe(step) =>
      s.(eal := e.(pipe := Pipeline.Act(e.pipe, r.log, r.commit, step),
                   state := if step.Take? then e.state + e.pipe.cached[0].events else e.state))
  }

  // ---------------------------------------------------------------- the invariant

  ghost predicate RaftInv(r: Raft) {
    && r.commit <= r.stable <= |r.log|
    && IdsMatch(r.log, |r.log|)
    && (forall t | t in r.reigned :: t <= r.term)
    && (r.leader ==> r.term in r.reigned && !r.pc.Demoting?)
    && (!r.leader ==> !r.pc.Crowning?)
    && (r.term in r.reigned && !r.leader ==> r.pc.Demoting?)
    && (r.pc.Demoting? ==> r.term < r.pc.next)
    && (r.pc.Crowning? ==> forall i {:trigger r.log[i]} | 0 <= i < |r.log| :: r.log[i].term < r.term)
    && (r.leader && r.pc.Free? ==> ReignOk(r))
  }

  /** A leader's log: older records, its no-op, and the commands of its term. */
  ghost predicate ReignOk(r: Raft) {
    && 0 < r.noop <= |r.log|
    && r.log[r.noop - 1].noop
    && (forall i {:trigger r.log[i]} | 0 <= i < r.noop - 1 :: r.log[i].term < r.term)
    && (forall i {:trigger r.log[i]} | r.noop <= i < |r.log| :: !r.log[i].noop)
  }

  ghost predicate ObserverInv(s: Node) {
    var r, c := s.raft, s.cpl;
    && c.checked == c.seen
    && c.seen.term <= r.term
    && (c.seen.leader ==> c.seen.term in r.reigned)
    && c.ready <= r.reigned
    && (forall t | t in c.ready :: t <= c.seen.term)
    && (c.seen.term in c.ready ==> c.seen.leader)
    && match c.pc
       case Idle => Settled(s)
       case SawTerm(t) => Settled(s) && c.seen.term <= t <= r.term
       case SawRole(t, leader) =>
         Settled(s) && c.seen.term <= t <= r.term && (leader && t == r.term ==> t in r.reigned)
       case Process => c.seen.leader && c.seen.term in c.ready
       case _ => c.seen == Seen(c.pc.t, true) && c.pc.t !in c.ready
  }

  /** A leadership that was recorded has been prepared, or is over. */
  ghost predicate Settled(s: Node) {
    s.cpl.seen.leader ==> s.cpl.seen.term in s.cpl.ready || s.cpl.seen.term < s.raft.term
  }

  ghost predicate EalInv(s: Node) {
    match s.eal.mode
    case Stopped => s.eal.pipe.loaded == 0
    case Half(k) =>
      s.eal.pipe.loaded == 0 && k <= s.raft.stable <= |s.raft.log| && s.eal.state == EventsOf(s.raft.log, k)
    case Running =>
      && Pipeline.Inv(s.eal.pipe, s.raft.log, s.raft.stable)
      && s.eal.state == EventsOf(s.raft.log, s.eal.pipe.pos)
  }

  /** Everything up to `n` that carries events has been applied. */
  ghost predicate Covered(s: Node, n: nat)
    requires n <= |s.raft.log|
  {
    s.eal.mode.Running? && (n <= s.eal.pipe.pos || Quiet(s.raft.log, s.eal.pipe.pos, n))
  }

  ghost predicate WaitInv(s: Node) {
    var r := s.raft;
    match s.cpl.pc
    case WaitLoaded(t, last, commit) => commit <= r.commit
    case WaitApplied(t, last, commit, loaded) => commit <= r.commit && (loaded > 0 ==> s.eal.mode.Running?)
    case Scan(t, last, applied, index) =>
      && last <= r.commit <= |r.log|
      && applied < index
      && (last > 0 ==> s.eal.mode.Running? && applied <= s.eal.pipe.applied)
      && (index <= last + 1 ==> Quiet(r.log, applied, index - 1))
    case Ready(t, last) =>
      && 0 < last <= r.commit <= |r.log|
      && r.log[last - 1].noop && r.log[last - 1].term == t
      && Covered(s, last)
    case _ => true
  }

  function OfTerm(t: nat, qs: seq<Request>): seq<Request> {
    if qs == [] then []
    else if qs[0].term == t then [qs[0]] + OfTerm(t, qs[1..])
    else OfTerm(t, qs[1..])
  }

  /** The requests are those records of the plan that are not in the log yet, each processed on the state before it. */
  ghost predicate Matches(qs: seq<Request>, plan: seq<Record>, from: nat) {
    && from + |qs| == |plan|
    && forall j: nat {:trigger qs[j]} | j < |qs| ::
         && plan[from + j] == Record(qs[j].term, false, qs[j].id, qs[j].events)
         && qs[j].id == from + j + 1
         && qs[j].base == EventsOf(plan, from + j)
  }

  ghost predicate PlanInv(s: Node) {
    var r, c := s.raft, s.cpl;
    && (forall i {:trigger r.inbox[i]} | 0 <= i < |r.inbox| :: r.inbox[i].term in c.ready)
    && (forall i {:trigger c.queue[i]} | 0 <= i < |c.queue| :: c.queue[i].term in c.ready)
    && (r.leader && r.pc.Free? ==> if r.term in c.ready then PlanOk(s) else |r.log| == r.noop)
    && (r.pc.Crowning? ==> r.term !in c.ready)
  }

  ghost predicate PlanOk(s: Node) {
    var r, c := s.raft, s.cpl;
    && r.log <= c.plan
    && c.lastId == |c.plan|
    && c.state == EventsOf(c.plan, |c.plan|)
    && Matches(OfTerm(r.term, r.inbox + c.queue), c.plan, |r.log|)
  }

  ghost predicate Inv(s: Node) {
    RaftInv(s.raft) && ObserverInv(s) && EalInv(s) && WaitInv(s) && PlanInv(s)
  }

  /** A node that has just started, with what is on its disk. */
  ghost predicate Init(s: Node) {
    && s.raft.commit == 0 && s.raft.stable <= |s.raft.log| && IdsMatch(s.raft.log, |s.raft.log|)
    && !s.raft.leader && s.raft.pc == Free && s.raft.inbox == [] && s.raft.reigned == {}
    && s.cpl == Cpl(Seen(0, false), Seen(0, false), Idle, 0, [], [], {}, [])
    && s.eal == Eal(Stopped, Empty(), [])
  }

  lemma InitInv(s: Node)
    requires Init(s)
    ensures Inv(s)
  {
  }
}
