/** What every run of the board keeps, and the one way in which it can exceed its slots. */
module BoardProofs {
  import opened BoardModel
  import opened Common

  // ---- One row ----

  /** The agent a row keeps, state by state. */
  predicate AgentOk(t: Task, maxCycles: nat) {
    var a := t.agent;
    match t.state
    case Queued => a == NoAgent
    case Preparing => a == NoAgent
    case Planning => a.NoAgent? || a.phase == PlanPhase
    case WaitingForAnswer => a.Finished? && a.phase == PlanPhase && Asks(a.result) && !a.unread
    case ReadyToResume => a.Finished? && a.phase == PlanPhase && Asks(a.result) && !a.unread
    case Implementing =>
      || (a.Finished? && a.phase == PlanPhase && !NoPlan(a.result) && !a.unread)
      || (!a.NoAgent? && a.phase == ImplementPhase)
    case Testing => false
    case Reworking => ReviewedBadly(a) || (!a.NoAgent? && a.phase == ImplementPhase)
    case Reviewing =>
      || (a.Finished? && a.phase == ImplementPhase && !NoWork(a.result) && !a.unread)
      || (!a.NoAgent? && a.phase == ReviewPhase)
    case Completed => a.Finished? && a.phase == ReviewPhase && Approves(a.result) && !a.unread
    case Blocked => ReviewedBadly(a)
    case Failed =>
      || a == NoAgent
      || (a.Finished? && !a.unread && a.phase == PlanPhase && NoPlan(a.result))
      || (a.Finished? && !a.unread && a.phase == ImplementPhase && NoWork(a.result))
      || (ReviewedBadly(a) && NoWork(a.result))
  }

  predicate ReviewedBadly(a: Agent) {
    a.Finished? && a.phase == ReviewPhase && !Approves(a.result) && !a.unread
  }

  predicate BeforeWork(s: State) {
    s in {Queued, Preparing, Planning, WaitingForAnswer, ReadyToResume, Implementing}
  }

  /** Reading its old log would bring this failed row back to work. */
  predicate Revivable(t: Task, maxCycles: nat) {
    t.state == Failed && ReviewedBadly(t.agent) && t.cycle + 1 < maxCycles
  }

  /** How many results can still be read for the first time. */
  function Measure(t: Task, maxCycles: nat): int {
    match t.state
    case Queued => 2 * maxCycles + 1
    case Preparing => 2 * maxCycles + 1
    case Planning => 2 * maxCycles + 1
    case WaitingForAnswer => 2 * maxCycles
    case ReadyToResume => 2 * maxCycles
    case Implementing => 2 * maxCycles
    case Testing => 0
    case Reworking => 2 * (maxCycles - t.cycle)
    case Reviewing => 2 * (maxCycles - t.cycle) - 1
    case Completed => 0
    case Blocked => 0
    case Failed => if Revivable(t, maxCycles) then 2 * (maxCycles - t.cycle) - 1 else 0
  }

  predicate TaskOk(t: Task, maxCycles: nat) {
    && AgentOk(t, maxCycles)
    && (t.agent.Finished? ==> WellFormed(t.agent.result))
    && (BeforeWork(t.state) ==> t.cycle == 0)
    && (t.state !in TERMINAL ==> t.cycle < maxCycles)
    && (t.state == Blocked ==> t.cycle >= maxCycles && t.lastReview == Some(false))
    && (t.state == Completed ==> t.lastReview == Some(true))
    && (t.state !in {Queued, Preparing, Failed} ==> t.worktree)
    && (t.state !in {Queued, Preparing, Planning, Failed} ==> t.plan)
    && (t.state == Failed && ReviewedBadly(t.agent) ==> t.worktree && t.plan && t.cycle < maxCycles)
    && (t.state in {WaitingForAnswer, ReadyToResume} ==> t.agent.Finished? && t.questions == t.agent.result.questions)
    && (t.state == ReadyToResume ==> t.answers >= t.questions)
    && t.handled + Measure(t, maxCycles) <= 2 * maxCycles + 1
  }

  lemma HandleKeepsTask(t: Task, maxCycles: nat)
    requires TaskOk(t, maxCycles) && t.agent.Finished?
    ensures TaskOk(Handled(t, maxCycles), maxCycles)
  {
  }

  lemma StepKeepsTask(t: Task, s: Step, maxCycles: nat)
    requires TaskOk(t, maxCycles) && Able(t, s)
    ensures TaskOk(Next(t, s, maxCycles), maxCycles)
  {
    if s.Handle? {
      HandleKeepsTask(t, maxCycles);
    }
  }

  // ---- The board ----

  predicate RowsOk(w: Board) {
    forall i :: 0 <= i < |w.tasks| ==> TaskOk(w.tasks[i], w.maxCycles)
  }

  predicate QueueIsSuffix(tasks: seq<Task>) {
    forall i, j :: 0 <= i < j < |tasks| && tasks[i].state == Queued ==> tasks[j].state == Queued
  }

  lemma StepKeepsRows(w: Board, e: Event)
    requires RowsOk(w) && Enabled(w, e)
    ensures RowsOk(Apply(w, e))
  {
    StepKeepsTask(w.tasks[e.row], e.step, w.maxCycles);
  }

  /** Only taking a row makes it leave the queue, and nothing puts one back. */
  lemma QueueMoves(t: Task, s: Step, maxCycles: nat)
    requires TaskOk(t, maxCycles) && Able(t, s)
    ensures t.state == Queued ==> s.Take?
    ensures Next(t, s, maxCycles).state != Queued
  {
  }

  lemma StepKeepsQueue(w: Board, e: Event)
    requires RowsOk(w) && QueueIsSuffix(w.tasks) && Enabled(w, e)
    ensures QueueIsSuffix(Apply(w, e).tasks)
  {
    QueueMoves(w.tasks[e.row], e.step, w.maxCycles);
  }

  lemma {:induction false} RunKeepsRows(boards: seq<Board>, events: seq<Event>, i: nat)
    requires IsRun(boards, events) && i <= |events|
    ensures RowsOk(boards[i]) && QueueIsSuffix(boards[i].tasks)
    ensures boards[i].concurrency == boards[0].concurrency && boards[i].maxCycles == boards[0].maxCycles
    ensures |boards[i].tasks| == |boards[0].tasks|
  {
    if i > 0 {
      RunKeepsRows(boards, events, i - 1);
      StepKeepsRows(boards[i - 1], events[i - 1]);
      StepKeepsQueue(boards[i - 1], events[i - 1]);
    }
  }

  /** Rows that were not taken yet are always a suffix of the snapshot. */
  lemma RowsAreTakenInOrder(boards: seq<Board>, events: seq<Event>, n: nat, i: nat, j: nat)
    requires IsRun(boards, events) && n <= |events| && i < j < |boards[n].tasks|
    requires boards[n].tasks[i].state == Queued
    ensures boards[n].tasks[j].state == Queued
  {
    RunKeepsRows(boards, events, n);
  }

  /** A row that is not finished has review cycles left; from implementing on it has a plan and
      a worktree; and it is completed only if its last review approved it. */
  lemma RowsAreSound(boards: seq<Board>, events: seq<Event>, n: nat, i: nat)
    requires IsRun(boards, events) && n <= |events| && i < |boards[n].tasks|
    ensures var t, maxCycles := boards[n].tasks[i], boards[0].maxCycles;
      && (t.state !in TERMINAL ==> t.cycle < maxCycles)
      && (t.state == Blocked ==> t.cycle >= maxCycles)
      && (t.state in {Implementing, Reviewing, Reworking, Completed, Blocked} ==> t.plan && t.worktree)
      && (t.state == Completed ==> t.lastReview == Some(true))
      && t.state != Testing
  {
    RunKeepsRows(boards, events, n);
    assert TaskOk(boards[n].tasks[i], boards[n].maxCycles);
  }

  // ---- Slots ----

  lemma {:induction false} ActiveUpdate(tasks: seq<Task>, i: nat, t: Task)
    requires i < |tasks|
    ensures ActiveSlots(tasks[i := t])
      == ActiveSlots(tasks) - (if Active(tasks[i]) then 1 else 0) + if Active(t) then 1 else 0
  {
    var n := |tasks| - 1;
    if i < n {
      ActiveUpdate(tasks[..n], i, t);
      assert tasks[i := t][..n] == tasks[..n][i := t];
    } else {
      assert tasks[i := t][..n] == tasks[..n];
    }
  }

  /** Apart from taking and resuming a row, only the revival of a failed one occupies a slot. */
  lemma WhoTakesASlot(t: Task, s: Step, maxCycles: nat)
    requires TaskOk(t, maxCycles) && Able(t, s) && !Active(t)
    ensures Active(Next(t, s, maxCycles)) <==> s.Take? || s.Resume? || (s.Handle? && Revivable(t, maxCycles))
  {
  }

  /** A failed row is brought back to work while all slots are taken. */
  predicate Overflows(w: Board, e: Event) {
    e.row < |w.tasks| && e.step.Handle? && Revivable(w.tasks[e.row], w.maxCycles)
      && ActiveSlots(w.tasks) >= w.concurrency
  }

  lemma StepSlots(w: Board, e: Event)
    requires RowsOk(w) && Enabled(w, e) && ActiveSlots(w.tasks) <= w.concurrency
    ensures ActiveSlots(Apply(w, e).tasks) <= w.concurrency <==> !Overflows(w, e)
  {
    var t, u := w.tasks[e.row], Next(w.tasks[e.row], e.step, w.maxCycles);
    ActiveUpdate(w.tasks, e.row, u);
    if !Active(t) {
      WhoTakesASlot(t, e.step, w.maxCycles);
    }
  }

  predicate SlotsHeld(boards: seq<Board>, n: nat) {
    forall i :: 0 <= i < |boards| && i <= n ==> ActiveSlots(boards[i].tasks) <= boards[i].concurrency
  }

  predicate NoOverflow(boards: seq<Board>, events: seq<Event>, n: nat) {
    forall i {:trigger events[i]} :: 0 <= i < |boards| && i < |events| && i < n ==> !Overflows(boards[i], events[i])
  }

  lemma {:induction false} NothingActiveAtFirst(tasks: seq<Task>)
    requires forall i :: 0 <= i < |tasks| ==> tasks[i] == NEW_TASK
    ensures ActiveSlots(tasks) == 0
  {
    if tasks != [] {
      NothingActiveAtFirst(tasks[..|tasks| - 1]);
    }
  }

  lemma LastStepSlots(boards: seq<Board>, events: seq<Event>, n: nat)
    requires IsRun(boards, events) && n < |events| && ActiveSlots(boards[n].tasks) <= boards[n].concurrency
    ensures ActiveSlots(boards[n + 1].tasks) <= boards[n + 1].concurrency <==> !Overflows(boards[n], events[n])
  {
    RunKeepsRows(boards, events, n);
    RunKeepsRows(boards, events, n + 1);
    StepSlots(boards[n], events[n]);
  }

  lemma HeldNext(boards: seq<Board>, n: nat)
    requires 0 < n < |boards|
    ensures SlotsHeld(boards, n) <==> SlotsHeld(boards, n - 1) && ActiveSlots(boards[n].tasks) <= boards[n].concurrency
  {
  }

  lemma OverflowNext(boards: seq<Board>, events: seq<Event>, n: nat)
    requires 0 < n <= |events| && |boards| == |events| + 1
    ensures NoOverflow(boards, events, n)
      <==> NoOverflow(boards, events, n - 1) && !Overflows(boards[n - 1], events[n - 1])
  {
  }

  /** The rows in active states never exceed the run's concurrency if and only if no failed row
      is revived while all slots are taken. */
  lemma {:induction false} SlotsHoldUnlessRevived(boards: seq<Board>, events: seq<Event>, n: nat)
    requires IsRun(boards, events) && n <= |events|
    ensures SlotsHeld(boards, n) <==> NoOverflow(boards, events, n)
  {
    if n == 0 {
      NothingActiveAtFirst(boards[0].tasks);
    } else {
      SlotsHoldUnlessRevived(boards, events, n - 1);
      HeldNext(boards, n);
      OverflowNext(boards, events, n);
      if SlotsHeld(boards, n - 1) {
        LastStepSlots(boards, events, n - 1);
      }
    }
  }

  // ---- How a failed row comes back ----

  /** The log of a review agent that crashed, read again before the rework was started. */
  predicate Misread(t: Task) {
    t.state == Reworking && ReviewedBadly(t.agent) && NoWork(t.agent.result)
  }

  predicate NoMisread(boards: seq<Board>, events: seq<Event>, n: nat) {
    forall i {:trigger events[i]} :: 0 <= i < |boards| && i < |events| && i < n && events[i].row < |boards[i].tasks| ==>
      !(events[i].step.Handle? && Misread(boards[i].tasks[events[i].row]))
  }

  predicate FailedForGood(t: Task) {
    t.state == Failed ==> !ReviewedBadly(t.agent)
  }

  lemma StepFailsForGood(t: Task, s: Step, maxCycles: nat)
    requires TaskOk(t, maxCycles) && Able(t, s) && FailedForGood(t) && !(s.Handle? && Misread(t))
    ensures FailedForGood(Next(t, s, maxCycles))
  {
  }

  lemma {:induction false} NobodyIsRevived(boards: seq<Board>, events: seq<Event>, n: nat)
    requires IsRun(boards, events) && n <= |events| && NoMisread(boards, events, n)
    ensures forall r :: 0 <= r < |boards[n].tasks| ==> FailedForGood(boards[n].tasks[r])
  {
    if n > 0 {
      NobodyIsRevived(boards, events, n - 1);
      RunKeepsRows(boards, events, n - 1);
      var w, e := boards[n - 1], events[n - 1];
      StepFailsForGood(w.tasks[e.row], e.step, w.maxCycles);
    }
  }

  /** So the slots hold in every run in which the rework after a crashed review is started
      before that review's log is read again. */
  lemma {:induction false} PromptReworkKeepsSlots(boards: seq<Board>, events: seq<Event>, n: nat)
    requires IsRun(boards, events) && n <= |events| && NoMisread(boards, events, n)
    ensures SlotsHeld(boards, n)
  {
    forall i | 0 <= i < n
      ensures !Overflows(boards[i], events[i])
    {
      NobodyIsRevived(boards, events, i);
    }
    SlotsHoldUnlessRevived(boards, events, n);
  }

  ghost predicate Reachable(w: Board) {
    exists boards, events :: IsRun(boards, events) && w == boards[|events|]
  }

  lemma RunExtends(boards: seq<Board>, events: seq<Event>, e: Event)
    requires IsRun(boards, events) && Enabled(boards[|events|], e)
    ensures IsRun(boards + [Apply(boards[|events|], e)], events + [e])
  {
    var v := Apply(boards[|events|], e);
    forall i | 0 <= i < |events| + 1
      ensures Enabled((boards + [v])[i], (events + [e])[i])
      ensures (boards + [v])[i + 1] == Apply((boards + [v])[i], (events + [e])[i])
    {
      if i < |events| {
        assert (events + [e])[i] == events[i];
        assert boards[i + 1] == Apply(boards[i], events[i]);
      }
    }
  }

  lemma Reach(w: Board, e: Event)
    requires Reachable(w) && Enabled(w, e)
    ensures Reachable(Apply(w, e))
  {
    var boards, events :| IsRun(boards, events) && w == boards[|events|];
    RunExtends(boards, events, e);
    assert (boards + [Apply(w, e)])[|events + [e]|] == Apply(w, e);
  }

  // ---- A run that exceeds its only slot ----

  function Pair(t: Task, u: Task): Board {
    Board(1, 3, [t, u])
  }

  lemma StepFirst(t: Task, u: Task, s: Step)
    requires Reachable(Pair(t, u)) && Able(t, s)
    requires s.Take? || s.Resume? ==> !Active(t) && !Active(u) && t.state != ReadyToResume && u.state != ReadyToResume
    ensures Reachable(Pair(Next(t, s, 3), u))
  {
    var w := Pair(t, u);
    ActiveOfPair(t, u);
    assert w.tasks[0] == t && w.tasks[1] == u;
    Reach(w, Event(0, s));
    assert Apply(w, Event(0, s)) == Pair(Next(t, s, 3), u);
  }

  lemma TakeSecond(t: Task, u: Task)
    requires Reachable(Pair(t, u)) && Able(u, Take) && !Active(t) && t.state !in {Queued, ReadyToResume}
    ensures Reachable(Pair(t, Next(u, Take, 3)))
  {
    var w := Pair(t, u);
    ActiveOfPair(t, u);
    assert w.tasks[0] == t && w.tasks[1] == u;
    Reach(w, Event(1, Take));
    assert Apply(w, Event(1, Take)) == Pair(t, Next(u, Take, 3));
  }

  lemma ActiveOfPair(t: Task, u: Task)
    ensures ActiveSlots([t, u]) == (if Active(t) then 1 else 0) + if Active(u) then 1 else 0
  {
    assert [t, u][..1] == [t];
    assert ActiveSlots([t, u]) == ActiveSlots([t]) + if Active(u) then 1 else 0;
    assert [t][..0] == [];
    assert ActiveSlots([t]) == ActiveSlots([]) + if Active(t) then 1 else 0;
  }

  const PLANNED := Result(true, true, SaysOther, 0)
  const WORKED := Result(true, true, SaysDone, 0)
  const CRASHED := Result(false, false, SaysOther, 0)

  const PREPARED := Task(Planning, true, false, 0, 0, 0, NoAgent, None, 0)
  const TO_IMPLEMENT := Task(Implementing, true, true, 0, 0, 0, Finished(PlanPhase, PLANNED, false), None, 1)
  const TO_REVIEW := Task(Reviewing, true, true, 0, 0, 0, Finished(ImplementPhase, WORKED, false), None, 2)
  const TO_REWORK := Task(Reworking, true, true, 0, 0, 1, Finished(ReviewPhase, CRASHED, false), Some(false), 3)

  lemma PreparedIsReachable()
    ensures Reachable(Pair(PREPARED, NEW_TASK))
  {
    var w, none: seq<Event> := Pair(NEW_TASK, NEW_TASK), [];
    assert IsRun([w], none) && [w][|none|] == w;
    StepFirst(NEW_TASK, NEW_TASK, Take);
    StepFirst(Next(NEW_TASK, Take, 3), NEW_TASK, Prepare(true));
  }

  /** An agent is spawned for the first row, ends and is read. */
  lemma FirstWorks(t: Task, r: Result, u: Task)
    requires Reachable(Pair(t, u)) && Able(t, Spawn) && Spawned(t).agent.Live? && WellFormed(r)
    ensures Reachable(Pair(Next(Next(Spawned(t), AgentEnds(r), 3), Handle, 3), u))
  {
    StepFirst(t, u, Spawn);
    StepFirst(Spawned(t), u, AgentEnds(r));
    StepFirst(Next(Spawned(t), AgentEnds(r), 3), u, Handle);
  }

  /** Up to the moment where the first row's review agent has crashed and was read. */
  lemma CrashedReviewIsReachable()
    ensures Reachable(Pair(TO_REWORK, NEW_TASK))
  {
    PreparedIsReachable();
    FirstWorks(PREPARED, PLANNED, NEW_TASK);
    assert Next(Next(Spawned(PREPARED), AgentEnds(PLANNED), 3), Handle, 3) == TO_IMPLEMENT;
    FirstWorks(TO_IMPLEMENT, WORKED, NEW_TASK);
    assert Next(Next(Spawned(TO_IMPLEMENT), AgentEnds(WORKED), 3), Handle, 3) == TO_REVIEW;
    FirstWorks(TO_REVIEW, CRASHED, NEW_TASK);
    assert Next(Next(Spawned(TO_REVIEW), AgentEnds(CRASHED), 3), Handle, 3) == TO_REWORK;
  }

  /** The slot limit can be exceeded: the review agent of the only working row crashes, the
      dispatcher stops before the rework starts, reads the log again and fails the row, takes
      the next row into the slot, and reads the log once more. */
  lemma SlotsCanOverflow()
    ensures exists w :: Reachable(w) && ActiveSlots(w.tasks) > w.concurrency
  {
    CrashedReviewIsReachable();
    StepFirst(TO_REWORK, NEW_TASK, Handle);
    var failed := Next(TO_REWORK, Handle, 3);
    TakeSecond(failed, NEW_TASK);
    var taken := Next(NEW_TASK, Take, 3);
    StepFirst(failed, taken, Handle);
    var revived := Next(failed, Handle, 3);
    ActiveOfPair(revived, taken);
    assert Reachable(Pair(revived, taken)) && ActiveSlots(Pair(revived, taken).tasks) == 2;
  }

  // ---- What a first reading leads to ----

  /** A plan is waited for when the agent asks, fails without any answer, and is otherwise
      implemented. */
  predicate PlanRead(t: Task, u: Task, r: Result) {
    && (u.state == Failed <==> !r.exitOk && !r.parsed)
    && (u.state == WaitingForAnswer <==> (r.exitOk || r.parsed) && (r.questions > 0 || r.verdict == SaysBlocked))
    && (u.state == Implementing <==> (r.exitOk || r.parsed) && r.questions == 0 && r.verdict != SaysBlocked)
    && (u.state != Failed ==> u.plan && u.questions == r.questions)
    && u.cycle == t.cycle && u.lastReview == t.lastReview
  }

  /** Work is reviewed unless the agent failed without saying that it is done. */
  predicate WorkRead(t: Task, u: Task, r: Result) {
    && (u.state == Failed <==> !r.exitOk && r.verdict != SaysDone)
    && (u.state == Reviewing <==> r.exitOk || r.verdict == SaysDone)
    && u.questions == t.questions && u.plan == t.plan && u.cycle == t.cycle && u.lastReview == t.lastReview
  }

  /** Approved work is completed; other work is reworked, or blocked after the last cycle. */
  predicate ReviewRead(t: Task, u: Task, r: Result, maxCycles: nat) {
    && (u.state == Completed <==> r.verdict == SaysApproved)
    && (u.state == Reworking <==> r.verdict != SaysApproved && t.cycle + 1 < maxCycles)
    && (u.state == Blocked <==> r.verdict != SaysApproved && t.cycle + 1 >= maxCycles)
    && u.cycle == t.cycle + (if r.verdict == SaysApproved then 0 else 1)
    && u.lastReview == Some(r.verdict == SaysApproved)
    && u.questions == t.questions && u.plan == t.plan
  }

  predicate Read(t: Task, u: Task, maxCycles: nat)
    requires t.agent.Finished?
  {
    var r := t.agent.result;
    && u.agent == t.agent.(unread := false) && u.handled == t.handled + 1
    && u.worktree == t.worktree && u.answers == t.answers
    && (t.state == Planning ==> t.agent.phase == PlanPhase && PlanRead(t, u, r))
    && (t.state in {Implementing, Reworking} ==> t.agent.phase == ImplementPhase && WorkRead(t, u, r))
    && (t.state == Reviewing ==> t.agent.phase == ReviewPhase && ReviewRead(t, u, r, maxCycles))
    && t.state in {Planning, Implementing, Reworking, Reviewing}
  }

  lemma FirstReading(t: Task, maxCycles: nat)
    requires TaskOk(t, maxCycles) && t.agent.Finished? && t.agent.unread
    ensures Read(t, Next(t, Handle, maxCycles), maxCycles)
  {
    assert t.state !in {Queued, Preparing, WaitingForAnswer, ReadyToResume, Testing, Completed, Blocked, Failed};
  }

  /** Through every run, a result that is read for the first time belongs to the stage that its
      row is in, and decides about the next one. */
  lemma FirstReadingsDecide(boards: seq<Board>, events: seq<Event>, n: nat)
    requires IsRun(boards, events) && n < |events| && events[n].step.Handle?
    ensures events[n].row < |boards[n].tasks| && |boards[n + 1].tasks| == |boards[n].tasks|
    ensures var t, u := boards[n].tasks[events[n].row], boards[n + 1].tasks[events[n].row];
      t.agent.Finished? && (t.agent.unread ==> Read(t, u, boards[0].maxCycles))
  {
    RunKeepsRows(boards, events, n);
    var w, e := boards[n], events[n];
    assert Enabled(w, e) && boards[n + 1] == Apply(w, e);
    assert TaskOk(w.tasks[e.row], w.maxCycles);
    if w.tasks[e.row].agent.unread {
      FirstReading(w.tasks[e.row], w.maxCycles);
    }
  }

  // ---- Nothing is implemented before it is answered ----

  /** Since it waited with this result and these answers, the row still waits or has at least one
      more answer and one for each question. */
  predicate WaitedWith(t: Task, r: Result, answers: nat) {
    && t.questions == r.questions && t.answers >= answers && t.state !in {Queued, Preparing, Planning}
    && (t.agent.Finished? && t.agent.phase == PlanPhase ==> t.agent.result == r)
    && !t.agent.NoAgent? && t.agent != Live(PlanPhase)
    && (t.state != WaitingForAnswer ==> t.answers > answers && t.answers >= r.questions)
  }

  lemma StepKeepsWaited(t: Task, s: Step, maxCycles: nat, r: Result, answers: nat)
    requires TaskOk(t, maxCycles) && Able(t, s) && Asks(r) && WaitedWith(t, r, answers)
    ensures WaitedWith(Next(t, s, maxCycles), r, answers)
  {
  }

  lemma {:induction false} WaitedSince(boards: seq<Board>, events: seq<Event>, m: nat, n: nat, i: nat)
    requires IsRun(boards, events) && m <= n <= |events| && i < |boards[m].tasks| == |boards[n].tasks|
    requires boards[m].tasks[i].state == WaitingForAnswer
    ensures boards[m].tasks[i].agent.Finished? && Asks(boards[m].tasks[i].agent.result)
    ensures var was := boards[m].tasks[i]; WaitedWith(boards[n].tasks[i], was.agent.result, was.answers)
    decreases n
  {
    RunKeepsRows(boards, events, m);
    assert TaskOk(boards[m].tasks[i], boards[m].maxCycles);
    if m < n {
      RunKeepsRows(boards, events, n - 1);
      var w, e := boards[n - 1], events[n - 1];
      WaitedSince(boards, events, m, n - 1, i);
      assert Enabled(w, e) && boards[n] == Apply(w, e);
      if e.row == i {
        assert TaskOk(w.tasks[i], w.maxCycles);
        StepKeepsWaited(w.tasks[i], e.step, w.maxCycles, boards[m].tasks[i].agent.result, boards[m].tasks[i].answers);
      }
    }
  }

  /** A row that ever waited gets an agent for its implementation or review only after at least
      one more answer, and after as many as its plan asked questions. */
  lemma ImplementedOnlyAnswered(boards: seq<Board>, events: seq<Event>, m: nat, n: nat, i: nat)
    requires IsRun(boards, events) && m <= n <= |events| && i < |boards[m].tasks| && i < |boards[n].tasks|
    requires boards[m].tasks[i].state == WaitingForAnswer
    requires boards[n].tasks[i].agent.NoAgent? || boards[n].tasks[i].agent.phase != PlanPhase
    ensures var was, now := boards[m].tasks[i], boards[n].tasks[i];
      now.answers > was.answers && now.answers >= was.questions
  {
    RunKeepsRows(boards, events, m);
    RunKeepsRows(boards, events, n);
    WaitedSince(boards, events, m, n, i);
    assert TaskOk(boards[m].tasks[i], boards[m].maxCycles) && TaskOk(boards[n].tasks[i], boards[n].maxCycles);
  }

  // ---- Who gets a free slot ----

  /** Through every run a row leaves the queue, or resumes, only into a free slot; ready rows go
      before queued ones and earlier rows before later ones. */
  lemma SlotsGoInOrder(boards: seq<Board>, events: seq<Event>, n: nat, i: nat, j: nat)
    requires IsRun(boards, events) && n < |events|
    requires i < |boards[n].tasks| == |boards[n + 1].tasks| && j < |boards[n].tasks|
    requires boards[n].tasks[i].state in {Queued, ReadyToResume} && Active(boards[n + 1].tasks[i])
    ensures ActiveSlots(boards[n].tasks) < boards[0].concurrency
    ensures boards[n].tasks[j].state == ReadyToResume ==> boards[n].tasks[i].state == ReadyToResume && i <= j
    ensures boards[n].tasks[j].state == boards[n].tasks[i].state ==> i <= j
  {
    RunKeepsRows(boards, events, n);
    var w, e := boards[n], events[n];
    assert Enabled(w, e) && boards[n + 1] == Apply(w, e);
    assert TaskOk(w.tasks[i], w.maxCycles);
  }

  // ---- Progress ----

  /** No step raises what is left to be read, and reading a result for the first time lowers it. */
  lemma MeasureFalls(t: Task, s: Step, maxCycles: nat)
    requires TaskOk(t, maxCycles) && Able(t, s)
    ensures Measure(Next(t, s, maxCycles), maxCycles)
      <= Measure(t, maxCycles) - if s.Handle? && t.agent.unread then 1 else 0
  {
  }

  predicate Final(t: Task, maxCycles: nat) {
    t.state in TERMINAL && !Revivable(t, maxCycles)
  }

  /** A row has at most two results read for each review cycle, and one for its plan; by then
      it has come to a final state. */
  lemma ResultsAreBounded(boards: seq<Board>, events: seq<Event>, n: nat, i: nat)
    requires IsRun(boards, events) && n <= |events| && i < |boards[n].tasks|
    ensures var t, maxCycles := boards[n].tasks[i], boards[0].maxCycles;
      && t.handled <= 2 * maxCycles + 1
      && (t.handled == 2 * maxCycles + 1 ==> Final(t, maxCycles))
  {
    RunKeepsRows(boards, events, n);
    assert TaskOk(boards[n].tasks[i], boards[n].maxCycles);
  }

  lemma StepKeepsFinal(t: Task, s: Step, maxCycles: nat)
    requires TaskOk(t, maxCycles) && Able(t, s) && Final(t, maxCycles)
    ensures var u := Next(t, s, maxCycles);
      Final(u, maxCycles) && u.handled == t.handled && (t.state != Failed ==> u.state == t.state)
  {
  }

  lemma {:induction false} FinalStaysFinal(boards: seq<Board>, events: seq<Event>, m: nat, n: nat, i: nat)
    requires IsRun(boards, events) && m <= n <= |events|
    requires i < |boards[m].tasks| && Final(boards[m].tasks[i], boards[0].maxCycles)
    ensures i < |boards[n].tasks| && Final(boards[n].tasks[i], boards[0].maxCycles)
    ensures boards[m].tasks[i].state != Failed ==> boards[n].tasks[i].state == boards[m].tasks[i].state
    decreases n
  {
    if m < n {
      FinalStaysFinal(boards, events, m, n - 1, i);
      RunKeepsRows(boards, events, n - 1);
      var w, e := boards[n - 1], events[n - 1];
      if e.row == i {
        StepKeepsFinal(w.tasks[i], e.step, w.maxCycles);
      }
    }
  }

  /** A row that waits to resume always falls back to waiting for an answer when the
      dispatcher reads its old log again.  Its answers are kept, but nothing except a further
      answer makes it ready again, and any one does. */
  lemma ReadyFallsBack(boards: seq<Board>, events: seq<Event>, n: nat, i: nat)
    requires IsRun(boards, events) && n <= |events|
      && i < |boards[n].tasks| && boards[n].tasks[i].state == ReadyToResume
    ensures var t, maxCycles := boards[n].tasks[i], boards[n].maxCycles;
      && Able(t, Handle)
      && var u := Next(t, Handle, maxCycles);
      && u.state == WaitingForAnswer && u.answers == t.answers && u.handled == t.handled
      && (forall s :: Able(u, s) ==> (Next(u, s, maxCycles).state == ReadyToResume <==> s.Answer?))
  {
    RunKeepsRows(boards, events, n);
    assert TaskOk(boards[n].tasks[i], boards[n].maxCycles);
  }

  /** Reading this row's log again spends a review cycle. */
  predicate WastesCycle(t: Task) {
    ReviewedBadly(t.agent) && t.state in {Reviewing, Failed, Blocked}
  }

  lemma CycleSpentIff(t: Task, s: Step, maxCycles: nat)
    requires TaskOk(t, maxCycles) && Able(t, s)
    ensures var u := Next(t, s, maxCycles);
      && t.cycle <= u.cycle <= t.cycle + 1
      && (u.cycle > t.cycle && u.handled == t.handled <==> s.Handle? && WastesCycle(t))
  {
    assert s.Handle? && t.agent.phase == ReviewPhase ==> t.state !in {Planning, Implementing};
  }

  /** Through every run a step spends at most one review cycle, and it does so without a result
      that is read for the first time exactly when it reads a bad review's log again in a row
      that is under review, failed or blocked. */
  lemma CyclesAreWastedIff(boards: seq<Board>, events: seq<Event>, n: nat)
    requires IsRun(boards, events) && n < |events|
    ensures events[n].row < |boards[n].tasks| && |boards[n + 1].tasks| == |boards[n].tasks|
    ensures var t, u := boards[n].tasks[events[n].row], boards[n + 1].tasks[events[n].row];
      && t.cycle <= u.cycle <= t.cycle + 1
      && (u.cycle > t.cycle && u.handled == t.handled <==> events[n].step.Handle? && WastesCycle(t))
  {
    RunKeepsRows(boards, events, n);
    var w, e := boards[n], events[n];
    assert Enabled(w, e) && boards[n + 1] == Apply(w, e);
    assert TaskOk(w.tasks[e.row], w.maxCycles);
    CycleSpentIff(w.tasks[e.row], e.step, w.maxCycles);
  }

  /** Reading a bad review's log twice before the rework starts spends another review cycle
      without any agent having worked. */
  lemma StaleReviewSpendsACycle(t: Task, maxCycles: nat)
    requires TaskOk(t, maxCycles) && t.state == Reworking && ReviewedBadly(t.agent)
    ensures var u := Next(Next(t, Handle, maxCycles), Handle, maxCycles);
      u.cycle == t.cycle + 1 && u.handled == t.handled && u.agent == t.agent
  {
  }
}
