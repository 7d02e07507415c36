/**
 * Answering clients once their command is committed. Pushers, any number of reply threads and one popper share a
 * queue of tasks; each step is one lock region or one atomic access.
 */
module ReplyLoop {
  import opened EventLog

  const NOT_LEADER := 301

  /** How far the reply thread that claimed a task has come; `Unclaimed` and `Released` are flags 0 and 2. */
  datatype Progress = Unclaimed
                    | Start
                    | Reading
                    | SawTerm(term1: nat)
                    | SawLast(term1: nat, last: nat)
                    | Checked
                    | CommitSeen
                    | Decided(committed: bool)
                    | Replied
                    | Released

  datatype Task = Task(index: nat, term: nat, code: nat, progress: Progress, answers: seq<nat>)

  /** `tasks` are all tasks ever pushed; those from `head` on are in the queue. */
  datatype Loop = Loop(tasks: seq<Task>, head: nat, popping: bool, running: bool,
                       term: nat, log: seq<Record>, commit: nat)

  datatype Step = Push(index: nat, term: nat, code: nat)
                | Claim(i: nat)
                | Work(i: nat)
                | PeekFront
                | PopFront
                | Stop
                | Raft(newTerm: nat, log: seq<Record>, commit: nat)

  /** One access of the reply thread that works on `t`. */
  function Worked(t: Task, s: Loop): Task
    requires t.progress.CommitSeen? ==> 0 < t.index <= |s.log|
  {
    match t.progress
    case Start => if s.running then t.(progress := Reading) else t.(progress := Decided(false))
    case Reading => t.(progress := SawTerm(s.term))
    case SawTerm(term1) => t.(progress := SawLast(term1, |s.log|))
    case SawLast(term1, last) =>
      if s.term != term1 then t.(progress := Reading)
      else if last < t.index && term1 > t.term then t.(progress := Decided(false))
      else t.(progress := Checked)
    case Checked => if s.commit < t.index then t.(progress := Start) else t.(progress := CommitSeen)
    case CommitSeen => t.(progress := Decided(s.log[t.index - 1].term == t.term))
    case Decided(committed) =>
      t.(progress := Replied, answers := t.answers + [if committed then t.code else NOT_LEADER])
    case Replied => t.(progress := Released)
    case _ => t
  }

  predicate Busy(p: Progress) {
    !p.Unclaimed? && !p.Released?
  }

  /** The reads that carry assertions stay within what is there. */
  predicate Defined(s: Loop) {
    forall i | 0 <= i < |s.tasks| && s.tasks[i].progress.CommitSeen? :: 0 < s.tasks[i].index <= |s.log|
  }

  predicate Enabled(s: Loop, step: Step) {
    match step
    case Push(index, term, _) => 0 < index && term <= s.term
    case Claim(i) => s.head <= i < |s.tasks| && s.tasks[i].progress.Unclaimed?
    case Work(i) => i < |s.tasks| && Busy(s.tasks[i].progress)
    case PeekFront => !s.popping
    case PopFront => s.popping && s.head < |s.tasks|
    case Stop => true
    case Raft(newTerm, log, commit) =>
      && s.term <= newTerm && s.commit <= commit <= |log| && s.commit <= |s.log|
      && Agree(s.log, log, s.commit)
  }

  function Act(s: Loop, step: Step): Loop
    requires Enabled(s, step) && Defined(s)
  {
    match step
    case Push(index, term, code) => s.(tasks := s.tasks + [Task(index, term, code, Unclaimed, [])])
    case Claim(i) => s.(tasks := s.tasks[i := s.tasks[i].(progress := Start)])
    case Work(i) => s.(tasks := s.tasks[i := Worked(s.tasks[i], s)])
    case PeekFront => s.(popping := s.head < |s.tasks| && s.tasks[s.head].progress.Released?)
    case PopFront => s.(head := s.head + 1, popping := false)
    case Stop => s.(running := false)
    case Raft(newTerm, log, commit) => s.(term := newTerm, log := log, commit := commit)
  }

  // ---------------------------------------------------------------- what every step keeps

  /** The entry with exactly a task's index and term is committed on this node. */
  predicate Committed(t: Task, log: seq<Record>, commit: nat) {
    0 < t.index <= commit <= |log| && log[t.index - 1].term == t.term
  }

  /** At most one answer, and the right one, given only at the end. */
  ghost predicate TaskOk(t: Task, term: nat, log: seq<Record>, commit: nat) {
    && 0 < t.index && t.term <= term
    && (t.progress.SawTerm? || t.progress.SawLast? ==> t.term <= t.progress.term1)
    && (t.progress.CommitSeen? ==> t.index <= commit <= |log|)
    && (t.progress.Decided? && t.progress.committed ==> Committed(t, log, commit))
    && (if t.progress.Replied? || t.progress.Released? then
          |t.answers| == 1 && (t.answers[0] == NOT_LEADER || (t.answers[0] == t.code && Committed(t, log, commit)))
        else t.answers == [])
  }

  ghost predicate Inv(s: Loop) {
    && s.commit <= |s.log|
    && s.head <= |s.tasks|
    && (forall i {:trigger s.tasks[i]} | 0 <= i < |s.tasks| :: TaskOk(s.tasks[i], s.term, s.log, s.commit))
    && (forall i {:trigger s.tasks[i]} | 0 <= i < s.head :: s.tasks[i].progress.Released?)
    && (s.popping ==> s.head < |s.tasks| && s.tasks[s.head].progress.Released?)
  }

  lemma WorkedOk(t: Task, s: Loop)
    requires TaskOk(t, s.term, s.log, s.commit) && s.commit <= |s.log|
    ensures TaskOk(Worked(t, s), s.term, s.log, s.commit)
  {
  }

  lemma StepKeeps(s: Loop, step: Step)
    requires Inv(s) && Enabled(s, step)
    ensures Defined(s) && Inv(Act(s, step))
  {
    var s' := Act(s, step);
    if step.Work? {
      WorkedOk(s.tasks[step.i], s);
    }
    forall i | 0 <= i < |s'.tasks| ensures TaskOk(s'.tasks[i], s'.term, s'.log, s'.commit) {
      if i < |s.tasks| {
        assert TaskOk(s.tasks[i], s.term, s.log, s.commit);
      }
    }
  }

  // ---------------------------------------------------------------- whole runs

  ghost predicate Run(ss: seq<Loop>, steps: seq<Step>) {
    && |ss| == |steps| + 1
    && ss[0].tasks == [] && ss[0].head == 0 && !ss[0].popping && ss[0].commit <= |ss[0].log|
    && forall i: nat {:trigger Moves(ss, steps, i)} | i < |steps| :: Moves(ss, steps, i)
  }

  ghost predicate Moves(ss: seq<Loop>, steps: seq<Step>, i: nat)
    requires i < |steps| && |ss| == |steps| + 1
  {
    Defined(ss[i]) && Enabled(ss[i], steps[i]) && ss[i + 1] == Act(ss[i], steps[i])
  }

  lemma {:induction false} RunInv(ss: seq<Loop>, steps: seq<Step>, i: nat)
    requires Run(ss, steps) && i < |ss|
    ensures Inv(ss[i]) && Defined(ss[i])
    decreases i
  {
    if i > 0 {
      RunInv(ss, steps, i - 1);
      assert Moves(ss, steps, i - 1);
      StepKeeps(ss[i - 1], steps[i - 1]);
    }
  }

  /**
   * At any time of any run: a task has been answered at most once; it keeps its own code only if the entry with its
   * index and term is committed here; and it has left the queue only after it was answered.
   */
  lemma RepliesAreSound(ss: seq<Loop>, steps: seq<Step>, i: nat, k: nat)
    requires Run(ss, steps) && i < |ss| && k < |ss[i].tasks|
    ensures var s, t := ss[i], ss[i].tasks[k];
            && |t.answers| <= 1
            && (t.answers != [] && t.answers[0] != NOT_LEADER ==>
                  t.answers == [t.code] && Committed(t, s.log, s.commit))
            && (k < s.head ==> |t.answers| == 1)
  {
    RunInv(ss, steps, i);
    assert TaskOk(ss[i].tasks[k], ss[i].term, ss[i].log, ss[i].commit);
  }

  /** A task keeps what it was pushed with, and an answer once given is never taken back or repeated. */
  lemma {:induction false} AnswersStay(ss: seq<Loop>, steps: seq<Step>, i: nat, j: nat, k: nat)
    requires Run(ss, steps) && i <= j < |ss| && k < |ss[i].tasks|
    ensures k < |ss[j].tasks|
    ensures var t, u := ss[i].tasks[k], ss[j].tasks[k];
            && (t.index, t.term, t.code) == (u.index, u.term, u.code)
            && t.answers <= u.answers
            && (t.answers != [] ==> u.answers == t.answers)
    decreases j
  {
    if i < j {
      AnswersStay(ss, steps, i, j - 1, k);
      RunInv(ss, steps, j - 1);
      RunInv(ss, steps, j);
      assert Moves(ss, steps, j - 1);
      assert TaskOk(ss[j].tasks[k], ss[j].term, ss[j].log, ss[j].commit);
      assert TaskOk(ss[j - 1].tasks[k], ss[j - 1].term, ss[j - 1].log, ss[j - 1].commit);
    }
  }

  /** The assertion that the term has not fallen behind its own holds at every read. */
  lemma TermNeverBehind(ss: seq<Loop>, steps: seq<Step>, i: nat, k: nat)
    requires Run(ss, steps) && i < |ss| && k < |ss[i].tasks| && ss[i].tasks[k].progress.SawLast?
    ensures ss[i].tasks[k].term <= ss[i].tasks[k].progress.term1
  {
    RunInv(ss, steps, i);
    assert TaskOk(ss[i].tasks[k], ss[i].term, ss[i].log, ss[i].commit);
  }
}
