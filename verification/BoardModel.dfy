/** The board dispatcher: the rows of one run in snapshot order, and every step that changes
    a row.

    A row keeps the path of its last agent's log, so a finished agent is read again in every
    round of the dispatcher until another one is spawned.  The log does not change once it is
    written, and neither does the result read from it. */
module BoardModel {
  import opened Common

  datatype State =
    | Queued
    | Preparing
    | Planning
    | WaitingForAnswer
    | ReadyToResume
    | Implementing
    | Testing
    | Reviewing
    | Reworking
    | Completed
    | Blocked
    | Failed

  const TERMINAL := {Completed, Blocked, Failed}
  const SLOT_FREE := {Queued, WaitingForAnswer, ReadyToResume, Completed, Blocked, Failed}
  const ACTIVE_SLOT := {Preparing, Planning, Implementing, Testing, Reviewing, Reworking}

  /** Every state either takes a slot or leaves it free, and a terminal one leaves it free. */
  lemma SlotStatesPartition(s: State)
    ensures s in SLOT_FREE <==> s !in ACTIVE_SLOT
    ensures s in TERMINAL ==> s in SLOT_FREE
  {
  }

  datatype Phase = PlanPhase | ImplementPhase | ReviewPhase

  datatype Verdict = SaysDone | SaysApproved | SaysBlocked | SaysOther

  /** What a log says: the exit code, whether an answer was found in it, the answer's status and
      the number of its blocking questions. */
  datatype Result = Result(exitOk: bool, parsed: bool, verdict: Verdict, questions: nat)

  datatype Agent =
    | NoAgent
    | Live(phase: Phase)
    | Finished(phase: Phase, result: Result, unread: bool)

  /** `handled` only counts the results that were read for the first time. */
  datatype Task = Task(
    state: State,
    worktree: bool,
    plan: bool,
    questions: nat,
    answers: nat,
    cycle: nat,
    agent: Agent,
    lastReview: Option<bool>,
    handled: nat)

  datatype Board = Board(concurrency: nat, maxCycles: nat, tasks: seq<Task>)

  predicate WellFormed(r: Result) {
    !r.parsed ==> r.verdict == SaysOther && r.questions == 0
  }

  predicate Approves(r: Result) {
    r.verdict == SaysApproved
  }

  predicate Asks(r: Result) {
    (r.exitOk || r.parsed) && (r.questions > 0 || r.verdict == SaysBlocked)
  }

  predicate NoPlan(r: Result) {
    !r.exitOk && !r.parsed
  }

  predicate NoWork(r: Result) {
    !r.exitOk && r.verdict != SaysDone
  }

  predicate Active(t: Task) {
    t.state in ACTIVE_SLOT
  }

  function ActiveSlots(tasks: seq<Task>): nat {
    if tasks == [] then 0
    else ActiveSlots(tasks[..|tasks| - 1]) + if Active(tasks[|tasks| - 1]) then 1 else 0
  }

  // ---- Reading a result ----

  function PlanningResult(t: Task, r: Result): Task {
    if NoPlan(r) then t.(state := Failed)
    else if r.questions > 0 || r.verdict == SaysBlocked then
      t.(state := WaitingForAnswer, plan := true, questions := r.questions)
    else t.(state := Implementing, plan := true, questions := 0)
  }

  function ImplementationResult(t: Task, r: Result): Task {
    t.(state := if NoWork(r) then Failed else Reviewing)
  }

  function ReviewResult(t: Task, r: Result, maxCycles: nat): Task {
    if Approves(r) then t.(state := Completed, lastReview := Some(true))
    else
      t.(state := if t.cycle + 1 >= maxCycles then Blocked else Reworking,
         cycle := t.cycle + 1,
         lastReview := Some(false))
  }

  /** The row's state is looked at before the phase of its agent. */
  function Handled(t: Task, maxCycles: nat): Task
    requires t.agent.Finished?
  {
    var a := t.agent;
    var read := t.(agent := a.(unread := false), handled := t.handled + if a.unread then 1 else 0);
    if t.state == Planning || a.phase == PlanPhase then PlanningResult(read, a.result)
    else if t.state == Implementing || t.state == Reworking || a.phase == ImplementPhase then
      ImplementationResult(read, a.result)
    else ReviewResult(read, a.result, maxCycles)
  }

  // ---- Steps of one row ----

  datatype Step =
    | Take
    | Prepare(ok: bool)
    | Spawn
    | Resume
    | AgentEnds(result: Result)
    | Handle
    | Answer(count: nat)

  function Spawned(t: Task): Task {
    match t.state
    case Planning => if t.worktree then t.(agent := Live(PlanPhase)) else t.(state := Preparing)
    case Implementing => if t.worktree && t.plan then t.(agent := Live(ImplementPhase)) else t.(state := Failed)
    case Reworking => if t.worktree && t.plan then t.(agent := Live(ImplementPhase)) else t.(state := Failed)
    case Testing =>
      if t.worktree && t.plan then t.(state := Reviewing, agent := Live(ReviewPhase)) else t.(state := Failed)
    case Reviewing => if t.worktree && t.plan then t.(agent := Live(ReviewPhase)) else t.(state := Failed)
    case _ => t
  }

  predicate Able(t: Task, s: Step) {
    match s
    case Take => t.state == Queued && !t.agent.Live?
    case Prepare(_) => t.state == Preparing && !t.agent.Live?
    case Spawn => t.state in {Planning, Implementing, Reworking, Testing, Reviewing} && !t.agent.Live?
    case Resume => t.state == ReadyToResume && !t.agent.Live?
    case AgentEnds(r) => t.agent.Live? && WellFormed(r)
    case Handle => t.agent.Finished?
    case Answer(count) => t.state == WaitingForAnswer && count > 0
  }

  function Next(t: Task, s: Step, maxCycles: nat): Task
    requires Able(t, s)
  {
    match s
    case Take => t.(state := Preparing)
    case Prepare(ok) => if ok then t.(state := Planning, worktree := true) else t.(state := Failed)
    case Spawn => Spawned(t)
    case Resume => t.(state := Implementing)
    case AgentEnds(r) => t.(agent := Finished(t.agent.phase, r, true))
    case Handle => Handled(t, maxCycles)
    case Answer(count) =>
      t.(answers := t.answers + count,
         state := if t.questions > 0 && t.answers + count < t.questions then WaitingForAnswer else ReadyToResume)
  }

  // ---- Steps of the board ----

  datatype Event = Event(row: nat, step: Step)

  predicate NoneBefore(tasks: seq<Task>, state: State, n: nat)
    requires n <= |tasks|
  {
    forall j :: 0 <= j < n ==> tasks[j].state != state
  }

  /** A free slot goes to the first row that is ready to resume, and otherwise to the first
      queued one. */
  predicate Enabled(w: Board, e: Event) {
    && e.row < |w.tasks|
    && Able(w.tasks[e.row], e.step)
    && (e.step.Take? || e.step.Resume? ==> ActiveSlots(w.tasks) < w.concurrency)
    && (e.step.Take? ==> NoneBefore(w.tasks, ReadyToResume, |w.tasks|) && NoneBefore(w.tasks, Queued, e.row))
    && (e.step.Resume? ==> NoneBefore(w.tasks, ReadyToResume, e.row))
  }

  function Apply(w: Board, e: Event): Board
    requires Enabled(w, e)
  {
    w.(tasks := w.tasks[e.row := Next(w.tasks[e.row], e.step, w.maxCycles)])
  }

  const NEW_TASK := Task(Queued, false, false, 0, 0, 0, NoAgent, None, 0)

  /** Both limits are at least one: the dispatcher raises lower ones. */
  predicate Initial(w: Board) {
    w.concurrency >= 1 && w.maxCycles >= 1 && forall i :: 0 <= i < |w.tasks| ==> w.tasks[i] == NEW_TASK
  }

  predicate IsRun(boards: seq<Board>, events: seq<Event>) {
    && |boards| == |events| + 1
    && Initial(boards[0])
    && forall i {:trigger events[i]} ::
      0 <= i < |events| ==> Enabled(boards[i], events[i]) && boards[i + 1] == Apply(boards[i], events[i])
  }
}
