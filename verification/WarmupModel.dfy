/** The sender warmup of one connection: the stored program, its recipients and its letters,
    and every step that changes them.

    A step is one database transaction, together with the task-queue calls that follow it.
    A letter carries its queue task, and while a worker holds it between its two transactions
    also the flight: the status it had before and the recipient it is being sent to.  The
    field `past` only records what happened; no step looks at it. */
module WarmupModel {
  import opened Common
  import opened DayPlanner

  type LetterId = string

  datatype ProgramStatus = Draft | Running | Paused | Completed | Cancelled

  datatype LetterStatus =
    | Queued
    | Held            // paused
    | Sending
    | RetryPending
    | Accepted
    | Delivered
    | HardBounced
    | SoftBounced
    | Complained
    | Errored
    | Dropped         // cancelled
    | Unknown         // a pause or a stop came while it was being sent

  datatype RecipientStatus = Active | Disabled | Removed

  /** `plan` is the growth plan, one target per day; `duration` is the length of a fixed one. */
  datatype Program = Program(status: ProgramStatus, run: nat, day: nat, fixed: bool, plan: seq<int>, duration: int)

  datatype Recipient = Recipient(status: RecipientStatus, perDay: int, sentCount: nat, errorCount: nat)

  /** The queue's side of a letter: it is tried at most MAX_TRIES times. */
  datatype Task =
    | NoTask
    | Ready(tries: nat)
    | Working(tries: nat, cancelled: bool)

  datatype Flight = Flight(before: LetterStatus, recipient: RecipientId)

  /** How often cancelling the task failed, how often the letter became accepted, how often
      sending failed, how often a worker crashed mid-send, how often the letter was put back to
      paused, and whether a pause or stop came mid-send. */
  datatype Past = Past(lost: nat, accepted: nat, failures: nat, crashes: nat, holds: nat, interrupted: bool)

  const NOTHING := Past(0, 0, 0, 0, 0, false)

  datatype Letter = Letter(
    recipient: RecipientId,
    run: nat,
    day: nat,
    number: nat,
    status: LetterStatus,
    recorded: bool,              // the row names its task
    providerId: Option<string>,
    task: Task,
    flight: Option<Flight>,
    past: Past)

  /** `restarted`: the program was started or resumed from paused within its current run. */
  datatype World = World(
    program: Program,
    recipients: map<RecipientId, Recipient>,
    letters: map<LetterId, Letter>,
    restarted: bool)

  const MAX_TRIES: nat := 2
  const MAX_DAYS: int := 365
  const SENT := {Accepted, Delivered, HardBounced, SoftBounced, Complained}

  predicate Sent(s: LetterStatus) {
    s in SENT
  }

  /** The statuses a worker leaves alone. */
  predicate Finished(s: LetterStatus) {
    Sent(s) || s == Errored || s == Dropped
  }

  /** The statuses that keep a day open. */
  predicate Pending(s: LetterStatus) {
    s == Queued || s == Held || s == Sending || s == RetryPending
  }

  function PlanLength(p: Program): nat {
    if p.fixed then
      if p.duration < 1 then 1 else if p.duration > MAX_DAYS then MAX_DAYS else p.duration
    else |p.plan|
  }

  predicate IsActive(recipients: map<RecipientId, Recipient>, r: RecipientId) {
    r in recipients && recipients[r].status == Active
  }

  function ActiveOnes(recipients: map<RecipientId, Recipient>): set<RecipientId> {
    set r | r in recipients && recipients[r].status == Active
  }

  // ---- Counting ----

  function With(letters: map<LetterId, Letter>, run: nat, statuses: set<LetterStatus>): set<LetterId> {
    set id | id in letters && letters[id].run == run && letters[id].status in statuses
  }

  function SentTo(letters: map<LetterId, Letter>, r: RecipientId): set<LetterId> {
    set id | id in letters && letters[id].recipient == r && Sent(letters[id].status)
  }

  // ---- The queue ----

  function CancelTask(t: Task): Task {
    match t
    case NoTask => NoTask
    case Ready(_) => NoTask
    case Working(tries, _) => Working(tries, true)
  }

  /** A failed or lost execution is tried again unless cancelled or out of tries. */
  function AfterFailure(t: Task): Task {
    match t
    case Working(tries, cancelled) => if cancelled || tries >= MAX_TRIES then NoTask else Ready(tries)
    case _ => t
  }

  // ---- Pausing and stopping ----

  /** The row forgets its task; `kept` says that the request to cancel the task fails, and the
      service goes on regardless. */
  function Detach(l: Letter, status: LetterStatus, kept: bool): Letter {
    var lost := l.recorded && kept && l.task != NoTask;
    l.(status := status, recorded := false, task := if l.recorded && !kept then CancelTask(l.task) else l.task,
       past := l.past.(lost := l.past.lost + if lost then 1 else 0))
  }

  function Interrupt(l: Letter): Letter {
    l.(past := l.past.(interrupted := true))
  }

  function PauseLetter(l: Letter, run: nat, kept: bool): Letter {
    if l.run != run then l
    else if l.status == Sending then Interrupt(Detach(l, Unknown, kept))
    else if l.status == Queued then
      var held := Detach(l, Held, kept);
      held.(past := held.past.(holds := held.past.holds + 1))
    else l
  }

  function StopLetter(l: Letter, run: nat, kept: bool): Letter {
    if l.run != run then l
    else if l.status == Sending then Interrupt(Detach(l, Unknown, kept))
    else if Pending(l.status) then Detach(l, Dropped, kept)
    else l
  }

  function PauseProgram(w: World, kept: set<LetterId>): World {
    w.(program := w.program.(status := Paused),
       letters := map id | id in w.letters :: PauseLetter(w.letters[id], w.program.run, id in kept))
  }

  // ---- Day planning ----

  function LettersOf(w: World, run: nat, day: nat): set<LetterId> {
    set id | id in w.letters && w.letters[id].run == run && w.letters[id].day == day
  }

  function OfDay(w: World): set<LetterId> {
    set id | id in w.letters && w.letters[id].run == w.program.run && w.letters[id].day == w.program.day
  }

  function TakenNumbers(w: World): set<nat> {
    set id | id in OfDay(w) :: w.letters[id].number
  }

  function PlannedFor(w: World, r: RecipientId): nat {
    |set id | id in OfDay(w) && w.letters[id].recipient == r|
  }

  function PlannedByRecipient(w: World): map<RecipientId, nat> {
    map r | r in w.recipients :: PlannedFor(w, r)
  }

  function Quotas(w: World): map<RecipientId, int> {
    map r | r in w.recipients :: w.recipients[r].perDay
  }

  /** The active recipients, least served first. */
  ghost predicate IsOrder(w: World, order: seq<RecipientId>) {
    && Distinct(order)
    && (forall r :: r in order <==> IsActive(w.recipients, r))
    && (forall i, j :: 0 <= i < j < |order| && order[i] in w.recipients && order[j] in w.recipients ==>
          w.recipients[order[i]].sentCount <= w.recipients[order[j]].sentCount)
  }

  ghost function Slots(w: World, order: seq<RecipientId>): seq<Slot>
    requires order != [] && 1 <= w.program.day <= PlanLength(w.program)
  {
    if w.program.fixed then Fixed(order, Quotas(w), PlannedByRecipient(w), TakenNumbers(w))
    else Growth(order, Quota(w.program.plan[w.program.day - 1]), TakenNumbers(w))
  }

  function NewLetter(slot: Slot, p: Program): Letter {
    Letter(slot.recipient, p.run, p.day, slot.number, Queued, false, None, NoTask, None, NOTHING)
  }

  predicate ToEnqueue(l: Letter, p: Program) {
    l.run == p.run && l.day == p.day && (l.status == Held || (l.status == Queued && !l.recorded))
  }

  /** A letter gets a task unless it still has one. */
  function EnqueueLetter(l: Letter, p: Program): Letter {
    if ToEnqueue(l, p) then
      l.(status := Queued, recorded := true, task := if l.task == NoTask then Ready(0) else l.task)
    else l
  }

  predicate NewIds(letters: map<LetterId, Letter>, ids: seq<LetterId>) {
    && (forall i, j :: 0 <= i < j < |ids| ==> ids[i] != ids[j])
    && (forall i :: 0 <= i < |ids| ==> ids[i] !in letters)
  }

  ghost function WithNewLetters(
      letters: map<LetterId, Letter>, slots: seq<Slot>, ids: seq<LetterId>, p: Program): map<LetterId, Letter>
    requires |ids| == |slots|
  {
    if slots == [] then letters
    else
      var n := |slots| - 1;
      WithNewLetters(letters, slots[..n], ids[..n], p)[ids[n] := NewLetter(slots[n], p)]
  }

  // ---- Steps ----

  /** `left`: the message went out although the send failed, because the answer got lost or
      carried no message id.  The service cannot tell, and no step depends on it. */
  datatype NetworkResult = Taken(messageId: string) | Failed(left: bool) | Suspended

  /** `kept` are the letters whose tasks could not be cancelled.  A worker asks for the next day
      after the letter or the planning of a day and run. */
  datatype Event =
    | Start(allowed: bool)
    | Pause(kept: set<LetterId>)
    | Resume(allowed: bool)
    | Stop(kept: set<LetterId>)
    | Plan(order: seq<RecipientId>, ids: seq<LetterId>, kept: set<LetterId>)
    | Advance(run: nat, day: nat)
    | Begin(id: LetterId, blocked: bool, replacement: RecipientId, kept: set<LetterId>)
    | Stumble(id: LetterId)
    | Finish(id: LetterId, result: NetworkResult)
    | Crash(id: LetterId, left: bool)
    | Report(id: LetterId, status: LetterStatus, kept: set<LetterId>)
    | AddRecipient(recipient: RecipientId, perDay: int)
    | SetRecipient(recipient: RecipientId, active: Option<RecipientStatus>, quota: Option<int>)
    | EditProgram(fixed: bool, plan: seq<int>, duration: int)

  /** The least served active recipient, whom a growth program sends to instead. */
  predicate IsReplacement(recipients: map<RecipientId, Recipient>, r: RecipientId) {
    && IsActive(recipients, r)
    && (forall other :: other in recipients && recipients[other].status == Active ==>
          recipients[r].sentCount <= recipients[other].sentCount)
  }

  predicate PlansLetters(w: World) {
    w.program.status == Running && 1 <= w.program.day <= PlanLength(w.program) && ActiveOnes(w.recipients) != {}
  }

  ghost predicate Enabled(w: World, e: Event) {
    match e
    case Plan(order, ids, _) =>
      PlansLetters(w) ==> IsOrder(w, order) && order != [] && NewIds(w.letters, ids) && |ids| == |Slots(w, order)|
    case Begin(id, _, replacement, _) =>
      && id in w.letters && w.letters[id].task.Ready?
      && (ActiveOnes(w.recipients) != {} ==> IsReplacement(w.recipients, replacement))
    case Advance(run, day) => LettersOf(w, run, day) != {}
    case Stumble(id) => id in w.letters && w.letters[id].task.Ready?
    case Finish(id, result) =>
      id in w.letters && w.letters[id].flight.Some? && (result.Taken? ==> result.messageId != "")
    case Crash(id, _) => id in w.letters && w.letters[id].flight.Some?
    case Report(id, status, _) =>
      id in w.letters && w.letters[id].providerId.Some? && status in {Delivered, HardBounced, SoftBounced, Complained}
    case _ => true
  }

  function StartStep(w: World, allowed: bool): World {
    var p := w.program;
    if p.status == Running || !allowed || ActiveOnes(w.recipients) == {} then w
    else if p.status == Completed || p.status == Cancelled then
      w.(program := p.(status := Running, run := p.run + 1, day := 1), restarted := false)
    else w.(program := p.(status := Running), restarted := w.restarted || p.status == Paused)
  }

  function ResumeStep(w: World, allowed: bool): World {
    if w.program.status != Paused || !allowed then w
    else w.(program := w.program.(status := Running), restarted := true)
  }

  function StopStep(w: World, kept: set<LetterId>): World {
    w.(program := w.program.(status := Cancelled),
       letters := map id | id in w.letters :: StopLetter(w.letters[id], w.program.run, id in kept))
  }

  ghost function PlanStep(w: World, order: seq<RecipientId>, ids: seq<LetterId>, kept: set<LetterId>): World
    requires Enabled(w, Plan(order, ids, kept))
  {
    var p := w.program;
    if p.status != Running then w
    else if p.day > PlanLength(p) then w.(program := p.(status := Completed))
    else if ActiveOnes(w.recipients) == {} then PauseProgram(w, kept)
    else if p.day < 1 then w
    else
      var letters := WithNewLetters(w.letters, Slots(w, order), ids, p);
      w.(letters := map id | id in letters :: EnqueueLetter(letters[id], p))
  }

  function AdvanceStep(w: World, day: nat): World {
    var p := w.program;
    if p.status != Running || p.day != day || (exists id :: id in OfDay(w) && Pending(w.letters[id].status)) then w
    else if day + 1 > PlanLength(p) then w.(program := p.(day := day + 1, status := Completed))
    else w.(program := p.(day := day + 1))
  }

  function Miss(r: Recipient): Recipient {
    r.(errorCount := r.errorCount + 1)
  }

  function Update<K, V>(m: map<K, V>, k: K, f: V -> V): map<K, V> {
    if k in m then m[k := f(m[k])] else m
  }

  /** A letter that a worker puts back, or gives up, in its first transaction. */
  function PutBack(l: Letter): Letter {
    l.(status := Held, recorded := false, task := NoTask, past := l.past.(holds := l.past.holds + 1))
  }

  function GiveUp(l: Letter, status: LetterStatus): Letter {
    l.(status := status, recorded := false, task := NoTask)
  }

  function TakeOff(l: Letter, recipient: RecipientId): Letter
    requires l.task.Ready?
  {
    l.(status := Sending, recipient := recipient, task := Working(l.task.tries + 1, false),
       flight := Some(Flight(l.status, recipient)))
  }

  function BeginStep(w: World, id: LetterId, blocked: bool, replacement: RecipientId, kept: set<LetterId>): World
    requires id in w.letters && w.letters[id].task.Ready?
  {
    var l, p := w.letters[id], w.program;
    if Finished(l.status) then w.(letters := w.letters[id := l.(task := NoTask)])
    else if l.status == Sending then
      w.(letters := w.letters[id := GiveUp(l, Errored)], recipients := Update(w.recipients, l.recipient, Miss))
    else if p.status != Running || blocked then w.(letters := w.letters[id := PutBack(l)])
    else if IsActive(w.recipients, l.recipient) then w.(letters := w.letters[id := TakeOff(l, l.recipient)])
    else if ActiveOnes(w.recipients) == {} then PauseProgram(w.(letters := w.letters[id := GiveUp(l, Dropped)]), kept)
    else if p.fixed then w.(letters := w.letters[id := GiveUp(l, Dropped)])
    else w.(letters := w.letters[id := TakeOff(l, replacement)])
  }

  function Land(l: Letter, result: NetworkResult): Letter
    requires l.flight.Some?
  {
    match result
    case Taken(m) =>
      l.(status := Accepted, providerId := Some(m), recorded := false, task := NoTask, flight := None,
         past := l.past.(accepted := l.past.accepted + 1))
    case Failed(_) =>
      l.(status := if l.flight.value.before == RetryPending then Errored else RetryPending, providerId := None,
         recorded := false, task := AfterFailure(l.task), flight := None,
         past := l.past.(failures := l.past.failures + 1))
    case Suspended => PutBack(l).(flight := None)
  }

  function Hit(r: Recipient): Recipient {
    r.(sentCount := r.sentCount + 1)
  }

  function FinishStep(w: World, id: LetterId, result: NetworkResult): World
    requires id in w.letters && w.letters[id].flight.Some?
  {
    var l := w.letters[id];
    var landed := w.(letters := w.letters[id := Land(l, result)]);
    match result
    case Taken(_) => landed.(recipients := Update(w.recipients, l.flight.value.recipient, Hit))
    case Failed(_) => landed.(recipients := Update(w.recipients, l.flight.value.recipient, Miss))
    case Suspended => landed
  }

  function Crashed(l: Letter): Letter {
    l.(flight := None, task := AfterFailure(l.task), past := l.past.(crashes := l.past.crashes + 1))
  }

  function CrashStep(w: World, id: LetterId): World
    requires id in w.letters && w.letters[id].flight.Some?
  {
    w.(letters := w.letters[id := Crashed(w.letters[id])])
  }

  function Stumbled(l: Letter): Letter
    requires l.task.Ready?
  {
    l.(task := AfterFailure(Working(l.task.tries + 1, false)))
  }

  function StumbleStep(w: World, id: LetterId): World
    requires id in w.letters && w.letters[id].task.Ready?
  {
    w.(letters := w.letters[id := Stumbled(w.letters[id])])
  }

  function Bounce(r: Recipient, before: LetterStatus, status: LetterStatus): Recipient {
    if status == Delivered then r
    else
      r.(errorCount := r.errorCount + if before in {HardBounced, SoftBounced, Complained} then 0 else 1,
         status := if status == HardBounced || status == Complained then Disabled else r.status)
  }

  /** A provider report pauses a running program on any complaint, on five hard bounces in a
      hundred sent letters of the run, and on the third soft bounce. */
  predicate Alarming(letters: map<LetterId, Letter>, run: nat, status: LetterStatus) {
    var total, hard, soft := |With(letters, run, SENT)|,
      |With(letters, run, {HardBounced})|, |With(letters, run, {SoftBounced})|;
    || status == Complained
    || (status == HardBounced && total > 0 && 20 * hard >= total)
    || (status == SoftBounced && soft >= 3)
  }

  function Reported(w: World, id: LetterId, status: LetterStatus): World
    requires id in w.letters
  {
    var l := w.letters[id];
    w.(letters := w.letters[id := l.(status := status)],
       recipients := Update(w.recipients, l.recipient, r => Bounce(r, l.status, status)))
  }

  function ReportStep(w: World, id: LetterId, status: LetterStatus, kept: set<LetterId>): World
    requires id in w.letters
  {
    if w.letters[id].status == status then w
    else
      var next := Reported(w, id, status);
      if w.program.status == Running && Alarming(next.letters, w.program.run, status) then PauseProgram(next, kept)
        else next
  }

  /** Refused while running. */
  function AddRecipientStep(w: World, r: RecipientId, perDay: int): World {
    if w.program.status == Running then w
    else
      w.(recipients := w.recipients[r :=
        if r in w.recipients then w.recipients[r].(status := Active, perDay := perDay)
          else Recipient(Active, perDay, 0, 0)])
  }

  function Changed(row: Recipient, status: Option<RecipientStatus>, perDay: Option<int>): Recipient {
    var row := if perDay.Some? then row.(perDay := perDay.value) else row;
    if status.Some? then row.(status := status.value) else row
  }

  /** Refused as a whole while running when it carries a number per day. */
  function SetRecipientStep(w: World, r: RecipientId, status: Option<RecipientStatus>, perDay: Option<int>): World {
    if r !in w.recipients || (perDay.Some? && w.program.status == Running) then w
    else w.(recipients := w.recipients[r := Changed(w.recipients[r], status, perDay)])
  }

  function EditProgramStep(w: World, fixed: bool, plan: seq<int>, duration: int): World {
    if w.program.status == Running then w
    else w.(program := w.program.(fixed := fixed, plan := plan, duration := duration))
  }

  ghost function Apply(w: World, e: Event): World
    requires Enabled(w, e)
  {
    match e
    case Start(allowed) => StartStep(w, allowed)
    case Pause(kept) => if w.program.status == Running then PauseProgram(w, kept) else w
    case Resume(allowed) => ResumeStep(w, allowed)
    case Stop(kept) => StopStep(w, kept)
    case Plan(order, ids, kept) => PlanStep(w, order, ids, kept)
    case Advance(_, day) => AdvanceStep(w, day)
    case Begin(id, blocked, replacement, kept) => BeginStep(w, id, blocked, replacement, kept)
    case Stumble(id) => StumbleStep(w, id)
    case Finish(id, result) => FinishStep(w, id, result)
    case Crash(id, _) => CrashStep(w, id)
    case Report(id, status, kept) => ReportStep(w, id, status, kept)
    case AddRecipient(r, perDay) => AddRecipientStep(w, r, perDay)
    case SetRecipient(r, status, perDay) => SetRecipientStep(w, r, status, perDay)
    case EditProgram(fixed, plan, duration) => EditProgramStep(w, fixed, plan, duration)
  }

  /** A new program without recipients. */
  function Initial(fixed: bool, plan: seq<int>, duration: int): World {
    World(Program(Draft, 1, 1, fixed, plan, duration), map[], map[], false)
  }

  ghost predicate IsRun(worlds: seq<World>, events: seq<Event>) {
    && |worlds| == |events| + 1
    && worlds[0] == Initial(worlds[0].program.fixed, worlds[0].program.plan, worlds[0].program.duration)
    && forall i {:trigger events[i]} ::
      0 <= i < |events| ==> Enabled(worlds[i], events[i]) && worlds[i + 1] == Apply(worlds[i], events[i])
  }
}
