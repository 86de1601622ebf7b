/** What every step of the warmup brings about: each status of the program, of a letter and of a
    recipient, and each state of a letter's queue entry, is entered by exactly the named events
    and in no other way. */
module WarmupEffects {
  import opened Common
  import opened DayPlanner
  import opened WarmupModel
  import opened WarmupProofs
  import opened WarmupPromises

  // ---- The day ----

  /** A fixed plan has between 1 and 365 days. */
  predicate BeyondPlan(p: Program, day: nat) {
    if p.fixed then day > 365 || (day > 1 && day > p.duration) else day > |p.plan|
  }

  ghost predicate SomePending(w: World) {
    exists id :: id in w.letters && w.letters[id].run == w.program.run && w.letters[id].day == w.program.day
                 && w.letters[id].status in {Queued, Held, Sending, RetryPending}
  }

  lemma PendingToday(w: World)
    ensures SomePending(w) <==> exists id :: id in OfDay(w) && Pending(w.letters[id].status)
  {
    if SomePending(w) {
      var id :| id in w.letters && w.letters[id].run == w.program.run && w.letters[id].day == w.program.day
                && w.letters[id].status in {Queued, Held, Sending, RetryPending};
      assert id in OfDay(w) && Pending(w.letters[id].status);
    }
  }

  lemma AdvanceLeavesIff(w: World, e: Event)
    requires Enabled(w, e) && e.Advance?
    ensures var p, q := w.program, Apply(w, e).program;
      if p.status == Running && e.day == p.day && !SomePending(w) then
        q == p.(day := p.day + 1, status := if BeyondPlan(p, p.day + 1) then Completed else Running)
      else q == p
  {
    PendingToday(w);
  }

  /** Through every run, when a worker asks for the day after the running program's day, that day
      is left if and only if none of its letters is pending; the program is then completed if
      the plan has no further day, and otherwise runs on. */
  lemma DayIsLeftIffDone(worlds: seq<World>, events: seq<Event>, i: nat)
    requires IsRun(worlds, events) && i < |events| && events[i].Advance?
    requires worlds[i].program.status == Running && events[i].day == worlds[i].program.day
    ensures var p, q := worlds[i].program, worlds[i + 1].program;
      && (q.day == p.day + 1 <==> !SomePending(worlds[i]))
      && (SomePending(worlds[i]) ==> q == p)
      && (!SomePending(worlds[i]) ==> (q.status == Completed <==> BeyondPlan(p, p.day + 1)))
      && (!SomePending(worlds[i]) ==> (q.status == Running <==> !BeyondPlan(p, p.day + 1)))
  {
    assert Enabled(worlds[i], events[i]);
    AdvanceLeavesIff(worlds[i], events[i]);
  }

  // ---- The program ----

  ghost predicate SomeActive(w: World) {
    exists r :: r in w.recipients && w.recipients[r].status == Active
  }

  lemma ActiveIsSome(w: World)
    ensures SomeActive(w) <==> ActiveOnes(w.recipients) != {}
  {
    if SomeActive(w) {
      var r :| r in w.recipients && w.recipients[r].status == Active;
      assert r in ActiveOnes(w.recipients);
    }
  }

  /** With the letters as they are after the report. */
  ghost predicate CallsForPause(v: World, status: LetterStatus) {
    || status == Complained
    || (status == HardBounced
        && 100 * |With(v.letters, v.program.run, {HardBounced})|
           >= 5 * |With(v.letters, v.program.run, {Accepted, Delivered, HardBounced, SoftBounced, Complained})| > 0)
    || (status == SoftBounced && |With(v.letters, v.program.run, {SoftBounced})| >= 3)
  }

  /** Planning, or a worker with a letter to send, finds no active recipient. */
  ghost predicate FindsNobody(w: World, e: Event) {
    && !SomeActive(w)
    && (|| (e.Plan? && !BeyondPlan(w.program, w.program.day))
        || (&& e.Begin? && !e.blocked && e.id in w.letters
            && w.letters[e.id].status in {Queued, Held, RetryPending, Unknown}))
  }

  ghost predicate ProgramCause(w: World, v: World, e: Event, status: ProgramStatus) {
    var was := w.program.status;
    match status
    case Draft => false
    case Running => (e.Start? && e.allowed && SomeActive(w)) || (e.Resume? && e.allowed && was == Paused)
    case Paused =>
      && was == Running
      && (|| e.Pause? || FindsNobody(w, e)
          || (e.Report? && e.id in w.letters && w.letters[e.id].status != e.status && CallsForPause(v, e.status)))
    case Completed =>
      && was == Running
      && (|| (e.Advance? && e.day == w.program.day && !SomePending(w) && BeyondPlan(w.program, w.program.day + 1))
          || (e.Plan? && BeyondPlan(w.program, w.program.day)))
    case Cancelled => e.Stop?
  }

  ghost predicate NewRun(w: World, e: Event) {
    e.Start? && e.allowed && SomeActive(w) && w.program.status in {Completed, Cancelled}
  }

  ghost predicate ProgramMoved(w: World, v: World, e: Event) {
    && (forall s :: s != w.program.status ==> (v.program.status == s <==> ProgramCause(w, v, e, s)))
    && v.program.run == w.program.run + (if NewRun(w, e) then 1 else 0)
    && v.program.day ==
       (if NewRun(w, e) then 1
        else w.program.day + if e.Advance? && e.day == w.program.day && w.program.status == Running && !SomePending(w)
                             then 1 else 0)
    && (if e.EditProgram? && w.program.status != Running then
          v.program.fixed == e.fixed && v.program.plan == e.plan && v.program.duration == e.duration
        else
          v.program.fixed == w.program.fixed && v.program.plan == w.program.plan
          && v.program.duration == w.program.duration)
  }

  lemma ReportedBounces(w: World, e: Event)
    requires Enabled(w, e) && e.Report? && w.letters[e.id].status != e.status && w.program.status == Running
    ensures Apply(w, e).program
      == w.program.(status := if CallsForPause(Apply(w, e), e.status) then ProgramStatus.Paused else Running)
  {
    var next, v := Reported(w, e.id, e.status), Apply(w, e);
    PauseIsQuiet(next, e.kept);
    QuietKeepsSets(next.letters, v.letters, w.program.run, SENT);
    QuietKeepsSets(next.letters, v.letters, w.program.run, {HardBounced});
    QuietKeepsSets(next.letters, v.letters, w.program.run, {SoftBounced});
  }

  lemma PlansProgram(w: World, e: Event)
    requires Inv(w) && Enabled(w, e) && e.Plan?
    ensures var p := w.program;
      Apply(w, e).program ==
        if p.status != Running then p
        else if BeyondPlan(p, p.day) then p.(status := Completed)
        else if !SomeActive(w) then p.(status := ProgramStatus.Paused) else p
  {
    ActiveIsSome(w);
    if PlansLetters(w) {
      PlanInserts(w, e.order, e.ids, e.kept);
    }
  }

  lemma BeginStepsProgram(w: World, id: LetterId, blocked: bool, replacement: RecipientId, kept: set<LetterId>)
    requires id in w.letters && w.letters[id].task.Ready?
    ensures BeginStep(w, id, blocked, replacement, kept).program
      == if w.program.status == Running && !blocked && !SomeActive(w)
            && w.letters[id].status in {Queued, Held, RetryPending, Unknown}
         then w.program.(status := ProgramStatus.Paused) else w.program
  {
    ActiveIsSome(w);
    var l := w.letters[id];
    assert l.status in {Queued, Held, RetryPending, Unknown} <==> !Finished(l.status) && l.status != Sending;
  }

  lemma BeginsProgram(w: World, e: Event)
    requires Enabled(w, e) && e.Begin?
    ensures Apply(w, e).program
      == if w.program.status == Running && FindsNobody(w, e) then w.program.(status := ProgramStatus.Paused)
         else w.program
  {
    BeginStepsProgram(w, e.id, e.blocked, e.replacement, e.kept);
  }

  lemma StartsProgram(w: World, e: Event)
    requires Enabled(w, e) && e.Start?
    ensures var p := w.program;
      Apply(w, e).program ==
        if p.status == Running || !e.allowed || !SomeActive(w) then p
        else if NewRun(w, e) then p.(status := Running, run := p.run + 1, day := 1) else p.(status := Running)
  {
    ActiveIsSome(w);
  }

  /** From the new program alone. */
  lemma StartMoved(w: World, v: World, e: Event)
    requires e.Start? && var p := w.program;
      v.program ==
        if p.status == Running || !e.allowed || !SomeActive(w) then p
        else if NewRun(w, e) then p.(status := Running, run := p.run + 1, day := 1) else p.(status := Running)
    ensures ProgramMoved(w, v, e)
  {
  }

  lemma AdvanceMoved(w: World, v: World, e: Event)
    requires e.Advance? && var p, q := w.program, v.program;
      if p.status == Running && e.day == p.day && !SomePending(w) then
        q == p.(day := p.day + 1, status := if BeyondPlan(p, p.day + 1) then Completed else Running)
      else q == p
    ensures ProgramMoved(w, v, e)
  {
  }

  lemma PlanMoved(w: World, v: World, e: Event)
    requires e.Plan? && var p := w.program;
      v.program ==
        if p.status != Running then p
        else if BeyondPlan(p, p.day) then p.(status := Completed)
        else if !SomeActive(w) then p.(status := ProgramStatus.Paused) else p
    ensures ProgramMoved(w, v, e)
  {
  }

  lemma BeginMoved(w: World, v: World, e: Event)
    requires e.Begin? && v.program
      == if w.program.status == Running && FindsNobody(w, e) then w.program.(status := ProgramStatus.Paused)
         else w.program
    ensures ProgramMoved(w, v, e)
  {
  }

  lemma ReportMoved(w: World, v: World, e: Event)
    requires e.Report? && e.id in w.letters
    requires if w.letters[e.id].status != e.status && w.program.status == Running then
               v.program == w.program.(status := if CallsForPause(v, e.status) then ProgramStatus.Paused else Running)
             else v.program == w.program
    ensures ProgramMoved(w, v, e)
  {
  }

  lemma PlainMoved(w: World, e: Event)
    requires Enabled(w, e) && (e.Pause? || e.Resume? || e.Stop? || e.EditProgram?)
    ensures ProgramMoved(w, Apply(w, e), e)
  {
  }

  lemma NotMoved(w: World, v: World, e: Event)
    requires v.program == w.program
    requires e.Stumble? || e.Finish? || e.Crash? || e.AddRecipient? || e.SetRecipient?
    ensures ProgramMoved(w, v, e)
  {
  }

  lemma StepMovesProgram(w: World, e: Event)
    requires Inv(w) && Enabled(w, e)
    ensures ProgramMoved(w, Apply(w, e), e)
  {
    var v := Apply(w, e);
    if e.Report? {
      if w.letters[e.id].status != e.status && w.program.status == Running {
        ReportedBounces(w, e);
      }
      ReportMoved(w, v, e);
    } else if e.Plan? {
      PlansProgram(w, e);
      PlanMoved(w, v, e);
    } else if e.Begin? {
      BeginsProgram(w, e);
      BeginMoved(w, v, e);
    } else if e.Start? {
      StartsProgram(w, e);
      StartMoved(w, v, e);
    } else if e.Advance? {
      AdvanceLeavesIff(w, e);
      AdvanceMoved(w, v, e);
    } else if e.Pause? || e.Resume? || e.Stop? || e.EditProgram? {
      PlainMoved(w, e);
    } else {
      NotMoved(w, v, e);
    }
  }

  /** Through every run the program enters a status, a new run or another day exactly by the
      events named for it. */
  lemma ProgramMovesIff(worlds: seq<World>, events: seq<Event>, i: nat)
    requires IsRun(worlds, events) && i < |events|
    ensures ProgramMoved(worlds[i], worlds[i + 1], events[i])
  {
    RunKeepsInv(worlds, events, i);
    assert Enabled(worlds[i], events[i]);
    StepMovesProgram(worlds[i], events[i]);
  }

  // ---- Letters ----

  /** A worker takes up a letter that it may still send, in a running program and with no campaign
      in the way. */
  predicate MaySend(w: World, l: Letter, e: Event, id: LetterId) {
    && e.Begin? && e.id == id && w.program.status == Running && !e.blocked
    && l.status in {Queued, Held, RetryPending, Unknown}
  }

  ghost predicate HasRecipient(w: World, l: Letter) {
    || (l.recipient in w.recipients && w.recipients[l.recipient].status == Active)
    || (!w.program.fixed && SomeActive(w))
  }

  /** A letter that is not in the status enters it by this event and only so; `paused` says that
      the event pauses the running program. */
  ghost predicate LetterCause(w: World, paused: bool, e: Event, id: LetterId, status: LetterStatus)
    requires id in w.letters
  {
    var l := w.letters[id];
    match status
    case Queued =>
      && e.Plan? && w.program.status == Running && SomeActive(w) && !BeyondPlan(w.program, w.program.day)
      && l.run == w.program.run && l.day == w.program.day && l.status == Held
    case Held =>
      || (paused && l.run == w.program.run && l.status == Queued && !(e.Begin? && e.id == id))
      || (e.Finish? && e.id == id && e.result.Suspended?)
      || (&& e.Begin? && e.id == id && (w.program.status != Running || e.blocked)
          && l.status in {Queued, RetryPending, Unknown})
    case Sending => MaySend(w, l, e, id) && HasRecipient(w, l)
    case RetryPending =>
      e.Finish? && e.id == id && e.result.Failed? && l.flight.Some? && l.flight.value.before != RetryPending
    case Accepted => e.Finish? && e.id == id && e.result.Taken?
    case Errored =>
      || (e.Finish? && e.id == id && e.result.Failed? && l.flight.Some? && l.flight.value.before == RetryPending)
      || (e.Begin? && e.id == id && l.status == Sending)
    case Dropped =>
      || (e.Stop? && l.run == w.program.run && l.status in {Queued, Held, RetryPending})
      || (MaySend(w, l, e, id) && !HasRecipient(w, l))
    case Unknown => l.run == w.program.run && l.status == Sending && (e.Stop? || paused) && !(e.Begin? && e.id == id)
    case _ => e.Report? && e.id == id && e.status == status
  }

  ghost predicate LetterMoved(w: World, paused: bool, e: Event, id: LetterId, m: Letter)
    requires id in w.letters
  {
    var l := w.letters[id];
    && (forall s :: s != l.status ==> (m.status == s <==> LetterCause(w, paused, e, id, s)))
    && m.run == l.run && m.day == l.day && m.number == l.number
    && m.recipient == (if MaySend(w, l, e, id) && HasRecipient(w, l) && !IsActive(w.recipients, l.recipient)
                       then e.replacement else l.recipient)
    && (e.Finish? && e.id == id && e.result.Taken? ==> m.providerId == Some(e.result.messageId))
  }

  lemma PlanMovesLetter(w: World, e: Event, id: LetterId, paused: bool)
    requires e.Plan? && Fits(w, e, id) && w.program.day >= 1
    requires paused ==> !PlansLetters(w)
    ensures LetterMoved(w, paused, e, id, After(w, e, id, paused))
  {
    ActiveIsSome(w);
  }

  lemma BeginMovesLetter(w: World, e: Event, paused: bool)
    requires e.Begin? && Fits(w, e, e.id)
    requires paused ==> FindsNobody(w, e) && w.program.status == Running
    ensures LetterMoved(w, paused, e, e.id, After(w, e, e.id, paused))
  {
    ActiveIsSome(w);
  }

  lemma BeginOfOther(w: World, e: Event, id: LetterId, paused: bool)
    requires (e.Begin? || e.Report?) && e.id != id && Fits(w, e, id)
    ensures LetterMoved(w, paused, e, id, After(w, e, id, paused))
  {
  }

  lemma ReportMovesLetter(w: World, e: Event, paused: bool)
    requires e.Report? && Fits(w, e, e.id) && LetterOk(w.letters[e.id])
    ensures LetterMoved(w, paused, e, e.id, After(w, e, e.id, paused))
  {
  }

  lemma FinishMovesLetter(w: World, e: Event, id: LetterId)
    requires e.Finish? && Fits(w, e, id) && LetterOk(w.letters[id])
    ensures LetterMoved(w, false, e, id, After(w, e, id, false))
  {
  }

  lemma PauseMovesLetter(w: World, e: Event, id: LetterId, paused: bool)
    requires (e.Pause? || e.Stop?) && Fits(w, e, id) && (e.Stop? ==> !paused)
    ensures LetterMoved(w, paused, e, id, After(w, e, id, paused))
  {
  }

  lemma OthersMoveNoLetter(w: World, e: Event, id: LetterId)
    requires Fits(w, e, id)
    requires !e.Plan? && !e.Begin? && !e.Report? && !e.Finish? && !e.Pause? && !e.Stop?
    ensures LetterMoved(w, false, e, id, After(w, e, id, false))
  {
  }

  lemma WhenPaused(w: World, e: Event)
    requires Enabled(w, e) && Pauses(w, e)
    ensures e.Pause? || e.Plan? || e.Begin? || e.Report?
    ensures e.Plan? ==> !PlansLetters(w)
    ensures e.Begin? ==> FindsNobody(w, e)
  {
    if e.Begin? {
      BeginsProgram(w, e);
    }
  }

  lemma StepMovesLetter(w: World, e: Event, id: LetterId)
    requires Inv(w) && Enabled(w, e) && id in w.letters
    ensures id in Apply(w, e).letters && LetterMoved(w, Pauses(w, e), e, id, Apply(w, e).letters[id])
  {
    LetterAfter(w, e, id);
    assert LetterOk(w.letters[id]);
    var paused := Pauses(w, e);
    if paused {
      WhenPaused(w, e);
    }
    if e.Plan? {
      PlanMovesLetter(w, e, id, paused);
    } else if (e.Begin? || e.Report?) && e.id != id {
      BeginOfOther(w, e, id, paused);
    } else if e.Begin? {
      BeginMovesLetter(w, e, paused);
    } else if e.Report? {
      ReportMovesLetter(w, e, paused);
    } else if e.Finish? {
      FinishMovesLetter(w, e, id);
    } else if e.Pause? || e.Stop? {
      PauseMovesLetter(w, e, id, paused);
    } else {
      OthersMoveNoLetter(w, e, id);
    }
  }

  /** Through every run a letter enters a status exactly by the events named for it. */
  lemma LettersMoveIff(worlds: seq<World>, events: seq<Event>, i: nat, id: LetterId)
    requires IsRun(worlds, events) && i < |events| && id in worlds[i].letters
    ensures id in worlds[i + 1].letters
    ensures var paused := worlds[i].program.status == Running && worlds[i + 1].program.status == ProgramStatus.Paused;
      LetterMoved(worlds[i], paused, events[i], id, worlds[i + 1].letters[id])
  {
    RunKeepsInv(worlds, events, i);
    assert Enabled(worlds[i], events[i]);
    StepMovesLetter(worlds[i], events[i], id);
  }

  // ---- New letters ----

  /** The active recipients, those with fewer messages sent before those with more. */
  ghost predicate ServesInTurn(w: World, order: seq<RecipientId>) {
    && (forall r :: r in w.recipients && w.recipients[r].status == Active <==> r in order)
    && (forall i, j :: 0 <= i < j < |order| ==> order[i] != order[j])
    && (forall i, j :: 0 <= i < j < |order| && order[i] in w.recipients && order[j] in w.recipients ==>
          w.recipients[order[i]].sentCount <= w.recipients[order[j]].sentCount)
  }

  /** A letter for today, waiting in the queue, under a number that is free: for a growth plan one
      up to today's target, dealt in turn, and for a fixed one above all used numbers. */
  ghost predicate PlannedToday(w: World, order: seq<RecipientId>, l: Letter) {
    var p := w.program;
    && l.run == p.run && l.day == p.day && l.status == Queued && l.recorded && l.task == Ready(0)
    && l.providerId == None && l.flight == None && l.recipient in order
    && (p.fixed ==> forall id :: id in OfDay(w) ==> w.letters[id].number < l.number)
    && (!p.fixed ==>
          && 1 <= p.day <= |p.plan| && 1 <= l.number && (l.number == 1 || l.number <= p.plan[p.day - 1])
          && (forall id :: id in OfDay(w) ==> w.letters[id].number != l.number)
          && l.recipient == order[(l.number - 1) % |order|])
  }

  lemma GrowthSlotIsPlanned(w: World, order: seq<RecipientId>, slot: Slot)
    requires order != [] && !w.program.fixed && 1 <= w.program.day <= |w.program.plan|
    requires RightSlot(slot, order, Target(w.program), TakenNumbers(w)) && slot.recipient in order
    ensures PlannedToday(w, order, EnqueueLetter(NewLetter(slot, w.program), w.program))
  {
    forall id | id in OfDay(w)
      ensures w.letters[id].number != slot.number
    {
      assert w.letters[id].number in TakenNumbers(w);
    }
  }

  lemma GrowthSlotIsRight(w: World, order: seq<RecipientId>, i: nat)
    requires order != [] && !w.program.fixed && 1 <= w.program.day <= |w.program.plan| && i < |Slots(w, order)|
    ensures RightSlot(Slots(w, order)[i], order, Target(w.program), TakenNumbers(w))
    ensures Slots(w, order)[i].recipient in order
  {
    GrowthSlots(w, order);
    GrowthInRange(order, Target(w.program), TakenNumbers(w), i);
    SlotsFacts(w, order);
  }

  lemma FixedSlotIsPlanned(w: World, order: seq<RecipientId>, i: nat)
    requires order != [] && w.program.fixed && 1 <= w.program.day <= PlanLength(w.program) && i < |Slots(w, order)|
    ensures PlannedToday(w, order, EnqueueLetter(NewLetter(Slots(w, order)[i], w.program), w.program))
  {
    SlotsFacts(w, order);
    FixedNumbersAreFresh(order, Quotas(w), PlannedByRecipient(w), TakenNumbers(w));
    forall id | id in OfDay(w)
      ensures w.letters[id].number < Slots(w, order)[i].number
    {
      assert w.letters[id].number in TakenNumbers(w);
    }
  }

  lemma PlanningAddsToday(w: World, e: Event, id: LetterId)
    requires Enabled(w, e) && e.Plan? && PlansLetters(w) && id in Apply(w, e).letters && id !in w.letters
    ensures e.order != [] && PlannedToday(w, e.order, Apply(w, e).letters[id])
  {
    PlanEnqueues(w, e.order, e.ids, e.kept);
    var i := InsertedAt(w.letters, Slots(w, e.order), e.ids, w.program, id);
    if w.program.fixed {
      FixedSlotIsPlanned(w, e.order, i);
    } else {
      GrowthSlotIsRight(w, e.order, i);
      GrowthSlotIsPlanned(w, e.order, Slots(w, e.order)[i]);
    }
  }

  /** Through every run a letter appears only by planning: for today, under a free number and
      for an active recipient, those with the fewest messages sent being served first. */
  lemma NewLettersArePlanned(worlds: seq<World>, events: seq<Event>, i: nat, id: LetterId)
    requires IsRun(worlds, events) && i < |events| && id in worlds[i + 1].letters && id !in worlds[i].letters
    ensures var w, e := worlds[i], events[i];
      && e.Plan? && w.program.status == Running && SomeActive(w) && !BeyondPlan(w.program, w.program.day)
      && e.order != [] && ServesInTurn(w, e.order) && PlannedToday(w, e.order, worlds[i + 1].letters[id])
  {
    var w, e := worlds[i], events[i];
    assert Enabled(w, e);
    NewLetterIsQueued(w, e, id);
    ActiveIsSome(w);
    PlanningAddsToday(w, e, id);
  }

  /** Through every run a letter that goes out to somebody else goes to an active recipient to whom
      the fewest messages were sent. */
  lemma ReplacementIsLeastServed(worlds: seq<World>, events: seq<Event>, i: nat, id: LetterId)
    requires IsRun(worlds, events) && i < |events| && id in worlds[i].letters && id in worlds[i + 1].letters
    requires worlds[i + 1].letters[id].recipient != worlds[i].letters[id].recipient
    ensures var w, r := worlds[i], worlds[i + 1].letters[id].recipient;
      && r in w.recipients && w.recipients[r].status == Active
      && forall other :: other in w.recipients && w.recipients[other].status == Active ==>
           w.recipients[r].sentCount <= w.recipients[other].sentCount
  {
    var w, e := worlds[i], events[i];
    LettersMoveIff(worlds, events, i, id);
    assert Enabled(w, e);
    ActiveIsSome(w);
  }

  // ---- The queue ----

  /** Planning gives the letter a queue entry. */
  ghost predicate Enqueues(w: World, e: Event, l: Letter) {
    && e.Plan? && w.program.status == Running && SomeActive(w) && !BeyondPlan(w.program, w.program.day)
    && l.run == w.program.run && l.day == w.program.day && (l.status == Held || (l.status == Queued && !l.recorded))
  }

  /** A pause or stop asks for the letter's entry to be cancelled, and the request is heard. */
  predicate Cancels(w: World, paused: bool, e: Event, id: LetterId, l: Letter) {
    && l.run == w.program.run && l.recorded && !(e.Begin? && e.id == id)
    && (|| (e.Stop? && l.status in {Queued, Held, Sending, RetryPending} && id !in e.kept)
        || (&& paused && (e.Pause? || e.Plan? || e.Begin? || e.Report?)
            && l.status in {Queued, Sending} && id !in e.kept))
  }

  /** The row forgets its entry. */
  ghost predicate Forgets(w: World, paused: bool, e: Event, id: LetterId, l: Letter) {
    || (e.Finish? && e.id == id)
    || (&& e.Begin? && e.id == id && l.status in {Queued, Held, Sending, RetryPending, Unknown}
        && !(MaySend(w, l, e, id) && HasRecipient(w, l)))
    || (&& l.run == w.program.run && !(e.Begin? && e.id == id)
        && (|| (e.Stop? && l.status in {Queued, Held, Sending, RetryPending})
            || (paused && l.status in {Queued, Sending})))
  }

  /** An execution fails, and the queue tries the letter at most twice. */
  predicate FailsAt(e: Event, id: LetterId) {
    (e.Finish? && e.id == id && e.result.Failed?) || (e.Crash? && e.id == id)
  }

  ghost predicate TaskMoved(w: World, paused: bool, e: Event, id: LetterId, m: Letter)
    requires id in w.letters
  {
    var l := w.letters[id];
    && m.recorded == (Enqueues(w, e, l) || (l.recorded && !Forgets(w, paused, e, id, l)))
    && match l.task
       case NoTask => m.task == if Enqueues(w, e, l) then Ready(0) else NoTask
       case Ready(tries) =>
         && (m.task == Working(tries + 1, false) <==> MaySend(w, l, e, id) && HasRecipient(w, l))
         && (m.task == Ready(tries + 1) <==> e.Stumble? && e.id == id && tries == 0)
         && (m.task == NoTask <==>
               || Cancels(w, paused, e, id, l)
               || (e.Begin? && e.id == id && !(MaySend(w, l, e, id) && HasRecipient(w, l)))
               || (e.Stumble? && e.id == id && tries > 0))
         && m.task in {l.task, Working(tries + 1, false), Ready(tries + 1), NoTask}
       case Working(tries, cancelled) =>
         && (m.task == Ready(tries) <==> FailsAt(e, id) && !cancelled && tries < 2)
         && (m.task == NoTask <==>
               || (FailsAt(e, id) && (cancelled || tries >= 2))
               || (e.Finish? && e.id == id && !e.result.Failed?))
         && m.task in {Working(tries, cancelled || Cancels(w, paused, e, id, l)), Ready(tries), NoTask}
  }

  lemma PlanMovesTask(w: World, e: Event, id: LetterId, paused: bool)
    requires e.Plan? && Fits(w, e, id) && w.program.day >= 1
    requires paused ==> !PlansLetters(w)
    ensures TaskMoved(w, paused, e, id, After(w, e, id, paused))
  {
    ActiveIsSome(w);
  }

  lemma BeginMovesTask(w: World, e: Event, paused: bool)
    requires e.Begin? && Fits(w, e, e.id) && LetterOk(w.letters[e.id])
    requires paused ==> FindsNobody(w, e) && w.program.status == Running
    ensures TaskMoved(w, paused, e, e.id, After(w, e, e.id, paused))
  {
    ActiveIsSome(w);
  }

  lemma StopMovesTask(w: World, e: Event, id: LetterId)
    requires e.Stop? && Fits(w, e, id) && LetterOk(w.letters[id])
    ensures TaskMoved(w, false, e, id, After(w, e, id, false))
  {
  }

  lemma PauseMovesTask(w: World, e: Event, id: LetterId, paused: bool)
    requires (e.Pause? || e.Report? || (e.Begin? && e.id != id)) && Fits(w, e, id) && LetterOk(w.letters[id])
    ensures TaskMoved(w, paused, e, id, After(w, e, id, paused))
  {
  }

  lemma WorkerMovesTask(w: World, e: Event, id: LetterId)
    requires Fits(w, e, id) && LetterOk(w.letters[id])
    requires !e.Plan? && !e.Begin? && !e.Report? && !e.Pause? && !e.Stop?
    ensures TaskMoved(w, false, e, id, After(w, e, id, false))
  {
  }

  lemma StepMovesTask(w: World, e: Event, id: LetterId)
    requires Inv(w) && Enabled(w, e) && id in w.letters
    ensures id in Apply(w, e).letters && TaskMoved(w, Pauses(w, e), e, id, Apply(w, e).letters[id])
  {
    LetterAfter(w, e, id);
    assert LetterOk(w.letters[id]);
    var paused := Pauses(w, e);
    if paused {
      WhenPaused(w, e);
    }
    if e.Plan? {
      PlanMovesTask(w, e, id, paused);
    } else if e.Begin? && e.id == id {
      BeginMovesTask(w, e, paused);
    } else if e.Stop? {
      StopMovesTask(w, e, id);
    } else if e.Pause? || e.Report? || e.Begin? {
      PauseMovesTask(w, e, id, paused);
    } else {
      WorkerMovesTask(w, e, id);
    }
  }

  /** Through every run a letter gets, keeps, uses and loses its queue entry exactly by the events
      named for it. */
  lemma TasksMoveIff(worlds: seq<World>, events: seq<Event>, i: nat, id: LetterId)
    requires IsRun(worlds, events) && i < |events| && id in worlds[i].letters
    ensures id in worlds[i + 1].letters
    ensures var paused := worlds[i].program.status == Running && worlds[i + 1].program.status == ProgramStatus.Paused;
      TaskMoved(worlds[i], paused, events[i], id, worlds[i + 1].letters[id])
  {
    RunKeepsInv(worlds, events, i);
    assert Enabled(worlds[i], events[i]);
    StepMovesTask(worlds[i], events[i], id);
  }

  // ---- Recipients ----

  /** A new report of this kind comes in for a letter to the recipient. */
  predicate ReportedOf(w: World, e: Event, r: RecipientId) {
    e.Report? && e.id in w.letters && w.letters[e.id].recipient == r && w.letters[e.id].status != e.status
  }

  /** A send to the recipient fails, or is found to have been given up. */
  predicate FailsFor(w: World, e: Event, r: RecipientId) {
    || (&& e.Finish? && e.id in w.letters && e.result.Failed?
        && w.letters[e.id].flight.Some? && w.letters[e.id].flight.value.recipient == r)
    || (e.Begin? && e.id in w.letters && w.letters[e.id].status == Sending && w.letters[e.id].recipient == r)
  }

  predicate SucceedsFor(w: World, e: Event, r: RecipientId) {
    && e.Finish? && e.id in w.letters && e.result.Taken?
    && w.letters[e.id].flight.Some? && w.letters[e.id].flight.value.recipient == r
  }

  predicate Added(w: World, e: Event, r: RecipientId) {
    e.AddRecipient? && e.recipient == r && w.program.status != Running
  }

  /** The whole request is refused when it carries a number per day for a running program. */
  predicate Edited(w: World, e: Event, r: RecipientId) {
    e.SetRecipient? && e.recipient == r && (e.quota.None? || w.program.status != Running)
  }

  predicate RecipientMoved(w: World, e: Event, r: RecipientId, b: Recipient)
    requires r in w.recipients
  {
    var a := w.recipients[r];
    && b.status == (if ReportedOf(w, e, r) && (e.status == HardBounced || e.status == Complained) then Disabled
                    else if Edited(w, e, r) && e.active.Some? then e.active.value
                    else if Added(w, e, r) then Active else a.status)
    && b.perDay == (if Added(w, e, r) then e.perDay
                    else if Edited(w, e, r) && e.quota.Some? then e.quota.value else a.perDay)
    && b.sentCount == a.sentCount + (if SucceedsFor(w, e, r) then 1 else 0)
    && b.errorCount == a.errorCount +
         if FailsFor(w, e, r)
            || (&& ReportedOf(w, e, r) && e.status != Delivered
                && (w.letters[e.id].status == Accepted || w.letters[e.id].status == Delivered))
         then 1 else 0
  }

  lemma NotMovedRecipient(w: World, e: Event, r: RecipientId)
    requires r in w.recipients
    requires !ReportedOf(w, e, r) && !FailsFor(w, e, r) && !SucceedsFor(w, e, r) && !Added(w, e, r) && !Edited(w, e, r)
    ensures RecipientMoved(w, e, r, w.recipients[r])
  {
  }

  lemma ReportMovesRecipient(w: World, e: Event, r: RecipientId)
    requires AllOk(w) && Enabled(w, e) && e.Report? && r in w.recipients
    requires ReportedOf(w, e, r)
    ensures RecipientMoved(w, e, r, Bounce(w.recipients[r], w.letters[e.id].status, e.status))
  {
    assert LetterOk(w.letters[e.id]);
    assert Sent(w.letters[e.id].status);
  }

  lemma ReportedRecipients(w: World, e: Event)
    requires Enabled(w, e) && e.Report?
    ensures var l := w.letters[e.id];
      Apply(w, e).recipients == if l.status == e.status then w.recipients
        else Update(w.recipients, l.recipient, r => Bounce(r, l.status, e.status))
  {
  }

  lemma PlanMovesNoRecipient(w: World, e: Event)
    requires Enabled(w, e) && e.Plan?
    ensures Apply(w, e).recipients == w.recipients
  {
    if PlansLetters(w) {
      PlanInserts(w, e.order, e.ids, e.kept);
    }
  }

  lemma BeginsRecipients(w: World, e: Event)
    requires Enabled(w, e) && e.Begin?
    ensures var l := w.letters[e.id];
      Apply(w, e).recipients == if l.status == Sending then Update(w.recipients, l.recipient, Miss) else w.recipients
  {
  }

  lemma BegunMovesRecipient(w: World, e: Event, r: RecipientId)
    requires e.Begin? && e.id in w.letters && r in w.recipients && FailsFor(w, e, r)
    ensures RecipientMoved(w, e, r, Miss(w.recipients[r]))
  {
  }

  lemma FinishMovesRecipient(w: World, e: Event, r: RecipientId)
    requires Enabled(w, e) && e.Finish? && r in w.recipients
    ensures r in Apply(w, e).recipients && RecipientMoved(w, e, r, Apply(w, e).recipients[r])
  {
    assert Apply(w, e) == FinishStep(w, e.id, e.result);
    assert !e.Begin? && !e.Report? && !e.AddRecipient? && !e.SetRecipient?;
  }

  lemma EditMovesRecipient(w: World, e: Event, r: RecipientId)
    requires Enabled(w, e) && (e.AddRecipient? || e.SetRecipient?) && r in w.recipients
    ensures r in Apply(w, e).recipients && RecipientMoved(w, e, r, Apply(w, e).recipients[r])
  {
    assert !e.Begin? && !e.Finish? && !e.Report?;
  }

  lemma OthersMoveNoRecipient(w: World, e: Event)
    requires Enabled(w, e) && !e.Begin? && !e.Finish? && !e.Report? && !e.Plan? && !e.AddRecipient? && !e.SetRecipient?
    ensures Apply(w, e).recipients == w.recipients
  {
  }

  lemma StepMovesRecipient(w: World, e: Event, r: RecipientId)
    requires Inv(w) && Enabled(w, e) && r in w.recipients
    ensures r in Apply(w, e).recipients && RecipientMoved(w, e, r, Apply(w, e).recipients[r])
  {
    if e.Finish? {
      FinishMovesRecipient(w, e, r);
    } else if e.AddRecipient? || e.SetRecipient? {
      EditMovesRecipient(w, e, r);
    } else if e.Report? {
      ReportedRecipients(w, e);
      if ReportedOf(w, e, r) {
        ReportMovesRecipient(w, e, r);
      } else {
        NotMovedRecipient(w, e, r);
      }
    } else if e.Begin? {
      BeginsRecipients(w, e);
      if FailsFor(w, e, r) {
        BegunMovesRecipient(w, e, r);
      } else {
        NotMovedRecipient(w, e, r);
      }
    } else {
      if e.Plan? {
        PlanMovesNoRecipient(w, e);
      } else {
        OthersMoveNoRecipient(w, e);
      }
      NotMovedRecipient(w, e, r);
    }
  }

  lemma NewRecipient(w: World, e: Event, r: RecipientId)
    requires Enabled(w, e) && r !in w.recipients
    ensures r in Apply(w, e).recipients <==> Added(w, e, r)
    ensures Added(w, e, r) ==> Apply(w, e).recipients[r] == Recipient(Active, e.perDay, 0, 0)
  {
    if e.Plan? {
      PlanMovesNoRecipient(w, e);
    } else if e.Report? {
      ReportedRecipients(w, e);
    } else if e.Begin? {
      BeginsRecipients(w, e);
    } else if !e.Finish? && !e.AddRecipient? && !e.SetRecipient? {
      OthersMoveNoRecipient(w, e);
    }
  }

  /** Through every run a recipient is credited, blamed, disabled and edited exactly by the events
      named for it; it appears only by being added. */
  lemma RecipientsMoveIff(worlds: seq<World>, events: seq<Event>, i: nat, r: RecipientId)
    requires IsRun(worlds, events) && i < |events|
    ensures r in worlds[i + 1].recipients <==> r in worlds[i].recipients || Added(worlds[i], events[i], r)
    ensures r in worlds[i].recipients ==> RecipientMoved(worlds[i], events[i], r, worlds[i + 1].recipients[r])
    ensures r !in worlds[i].recipients && r in worlds[i + 1].recipients
      ==> worlds[i + 1].recipients[r] == Recipient(Active, events[i].perDay, 0, 0)
  {
    RunKeepsInv(worlds, events, i);
    assert Enabled(worlds[i], events[i]);
    if r in worlds[i].recipients {
      StepMovesRecipient(worlds[i], events[i], r);
    } else {
      NewRecipient(worlds[i], events[i], r);
    }
  }
}
