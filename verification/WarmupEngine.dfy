/** The warmup service as the program that changes its tables in place: every method is one
    step of WarmupModel, and so keeps the invariant of WarmupProofs. */
module WarmupEngine {
  import opened Common
  import opened DayPlanner
  import opened WarmupModel
  import opened WarmupPromises
  import opened WarmupProofs

  class Engine {
    var program: Program
    var recipients: map<RecipientId, Recipient>
    var letters: map<LetterId, Letter>
    ghost var restarted: bool
    ghost var worlds: seq<World>
    ghost var events: seq<Event>

    ghost function View(): World
      reads this
    {
      World(program, recipients, letters, restarted)
    }

    ghost function Ghosts(): (bool, seq<World>, seq<Event>)
      reads this
    {
      (restarted, worlds, events)
    }

    /** What happened so far is a run that ends in the tables as they are. */
    ghost predicate Valid()
      reads this
    {
      IsRun(worlds, events) && worlds[|events|] == View()
    }

    ghost method Record(was: World, e: Event)
      requires IsRun(worlds, events) && worlds[|events|] == was && Enabled(was, e) && View() == Apply(was, e)
      modifies this`worlds, this`events
      ensures Valid() && View() == old(View())
    {
      RunExtends(worlds, events, e);
      worlds, events := worlds + [View()], events + [e];
    }

    constructor (fixed: bool, plan: seq<int>, duration: int)
      ensures View() == Initial(fixed, plan, duration) && Valid()
    {
      program := Program(Draft, 1, 1, fixed, plan, duration);
      recipients, letters, restarted := map[], map[], false;
      worlds, events := [Initial(fixed, plan, duration)], [];
    }

    // ---- Pausing and stopping ----

    method PauseOne(l: Letter, run: nat) returns (m: Letter, cancels: bool)
      ensures m == Marked(l, PauseLetter(l, run, false))
      ensures cancels == Recorded(l, run, {Queued, Sending})
    {
      m, cancels := l, false;
      if l.run == run && (l.status == Queued || l.status == Sending) {
        cancels := l.recorded;
        m := m.(recorded := false);
        if l.status == Sending {
          m := m.(status := Unknown, past := l.past.(interrupted := true));
        } else {
          m := m.(status := Held, past := l.past.(holds := l.past.holds + 1));
        }
      }
    }

    /** The locked part of a pause; it returns the letters whose tasks are to be cancelled. */
    method PauseLocked() returns (tasks: seq<LetterId>)
      modifies this
      ensures program == old(program).(status := Paused) && recipients == old(recipients) && Ghosts() == old(Ghosts())
      ensures letters.Keys == old(letters.Keys)
      ensures forall id ::
        id in letters ==> letters[id] == Marked(old(letters)[id], PauseLetter(old(letters)[id], program.run, false))
      ensures Distinct(tasks)
      ensures forall id ::
        id in tasks <==> id in old(letters) && Recorded(old(letters)[id], program.run, {Queued, Sending})
    {
      tasks := [];
      var rows, run, rest := letters, program.run, letters.Keys;
      while rest != {}
        invariant rest <= rows.Keys == letters.Keys
        invariant forall id :: id in rest ==> rows[id] == letters[id]
        invariant forall id ::
          id in rows && id !in rest ==> rows[id] == Marked(letters[id], PauseLetter(letters[id], run, false))
        invariant Distinct(tasks)
        invariant forall id ::
          id in tasks <==> id in rows && id !in rest && Recorded(letters[id], run, {Queued, Sending})
        modifies {}
        decreases rest
      {
        var id :| id in rest;
        rest := rest - {id};
        var l, cancels := PauseOne(rows[id], run);
        if cancels {
          tasks := tasks + [id];
        }
        rows := rows[id := l];
      }
      letters := rows;
      program := program.(status := Paused);
    }

    /** The queue drops a waiting task and only marks one that is being worked on.  A request
        that raises is passed over: those of `kept` do. */
    method CancelTasks(tasks: seq<LetterId>, kept: set<LetterId>)
      requires Distinct(tasks)
      modifies this`letters
      ensures letters.Keys == old(letters.Keys)
      ensures forall id ::
        id in letters
        ==> letters[id] == if id in tasks then Requested(old(letters)[id], id in kept) else old(letters)[id]
    {
      for i := 0 to |tasks|
        invariant letters.Keys == old(letters.Keys)
        invariant forall id :: id in letters ==>
            letters[id] == if id in tasks[..i] then Requested(old(letters)[id], id in kept) else old(letters)[id]
      {
        assert tasks[..i + 1] == tasks[..i] + [tasks[i]];
        if tasks[i] in letters {
          var l := letters[tasks[i]];
          if l.task == NoTask {
            continue;
          } else if tasks[i] in kept {
            l := l.(past := l.past.(lost := l.past.lost + 1));
          } else if l.task.Ready? {
            l := l.(task := NoTask);
          } else {
            l := l.(task := Working(l.task.tries, true));
          }
          letters := letters[tasks[i] := l];
        }
      }
      assert tasks[..|tasks|] == tasks;
    }

    method PauseNow(kept: set<LetterId>)
      modifies this
      ensures View() == PauseProgram(old(View()), kept) && Ghosts() == old(Ghosts())
    {
      var tasks := PauseLocked();
      CancelTasks(tasks, kept);
      forall id | id in letters
        ensures letters[id] == PauseLetter(old(letters)[id], program.run, id in kept)
      {
        PauseInTwo(old(letters)[id], program.run, id in kept);
      }
      assert letters == PauseProgram(old(View()), kept).letters;
    }

    method Pause(kept: set<LetterId>) returns (ok: bool)
      requires Valid()
      modifies this
      ensures Valid() && View() == Apply(old(View()), Event.Pause(kept))
      ensures ok == (old(program.status) == Running)
    {
      ok := program.status == Running;
      if ok {
        PauseNow(kept);
      }
      Record(old(View()), Event.Pause(kept));
    }

    method StopOne(l: Letter, run: nat) returns (m: Letter, cancels: bool)
      ensures m == Marked(l, StopLetter(l, run, false))
      ensures cancels == Recorded(l, run, {Queued, Held, Sending, RetryPending})
    {
      m, cancels := l, false;
      if l.run == run && Pending(l.status) {
        cancels := l.recorded;
        m := m.(recorded := false);
        if l.status == Sending {
          m := m.(status := Unknown, past := l.past.(interrupted := true));
        } else {
          m := m.(status := Dropped);
        }
      }
    }

    method StopLocked() returns (tasks: seq<LetterId>)
      modifies this
      ensures program == old(program).(status := Cancelled)
        && recipients == old(recipients) && Ghosts() == old(Ghosts())
      ensures letters.Keys == old(letters.Keys)
      ensures forall id ::
        id in letters ==> letters[id] == Marked(old(letters)[id], StopLetter(old(letters)[id], program.run, false))
      ensures Distinct(tasks)
      ensures forall id :: id in tasks <==>
          id in old(letters) && Recorded(old(letters)[id], program.run, {Queued, Held, Sending, RetryPending})
    {
      tasks := [];
      var rows, run, rest := letters, program.run, letters.Keys;
      while rest != {}
        invariant rest <= rows.Keys == letters.Keys
        invariant forall id :: id in rest ==> rows[id] == letters[id]
        invariant forall id ::
          id in rows && id !in rest ==> rows[id] == Marked(letters[id], StopLetter(letters[id], run, false))
        invariant Distinct(tasks)
        invariant forall id ::
          id in tasks
          <==> id in rows && id !in rest && Recorded(letters[id], run, {Queued, Held, Sending, RetryPending})
        modifies {}
        decreases rest
      {
        var id :| id in rest;
        rest := rest - {id};
        var l, cancels := StopOne(rows[id], run);
        if cancels {
          tasks := tasks + [id];
        }
        rows := rows[id := l];
      }
      letters := rows;
      program := program.(status := Cancelled);
    }

    method StopNow(kept: set<LetterId>)
      modifies this
      ensures View() == StopStep(old(View()), kept) && Ghosts() == old(Ghosts())
    {
      var tasks := StopLocked();
      CancelTasks(tasks, kept);
      forall id | id in letters
        ensures letters[id] == StopLetter(old(letters)[id], program.run, id in kept)
      {
        StopInTwo(old(letters)[id], program.run, id in kept);
      }
      assert letters == StopStep(old(View()), kept).letters;
    }

    method Stop(kept: set<LetterId>)
      requires Valid()
      modifies this
      ensures Valid() && View() == Apply(old(View()), Event.Stop(kept))
    {
      StopNow(kept);
      Record(old(View()), Event.Stop(kept));
    }

    // ---- Starting and resuming ----

    method CountActive() returns (n: nat)
      ensures n == 0 <==> ActiveOnes(recipients) == {}
    {
      var active := set r | r in recipients && recipients[r].status == Active;
      n := |active|;
      assert active == ActiveOnes(recipients);
    }

    /** `allowed` stands for the checks of the connection, its diagnostics and the consent. */
    method Start(allowed: bool) returns (ok: bool)
      requires Valid()
      modifies this
      ensures Valid() && View() == Apply(old(View()), Event.Start(allowed))
      ensures ok <==> program.status == Running
    {
      ok := true;
      if program.status != Running {
        var active := CountActive();
        if !allowed || active == 0 {
          ok := false;
        } else if program.status == Completed || program.status == Cancelled {
          program := program.(run := program.run + 1, day := 1);
          program := program.(status := Running);
          restarted := false;
        } else {
          restarted := restarted || program.status == Paused;
          program := program.(status := Running);
        }
      }
      Record(old(View()), Event.Start(allowed));
    }

    method Resume(allowed: bool) returns (ok: bool)
      requires Valid()
      modifies this
      ensures Valid() && View() == Apply(old(View()), Event.Resume(allowed))
      ensures ok == (old(program.status) == Paused && allowed)
    {
      ok := program.status == Paused && allowed;
      if ok {
        program := program.(status := Running);
        restarted := true;
      }
      Record(old(View()), Event.Resume(allowed));
    }

    // ---- Planning a day ----

    method Insert(slots: seq<Slot>, ids: seq<LetterId>)
      requires |ids| == |slots|
      modifies this`letters
      ensures letters == WithNewLetters(old(letters), slots, ids, program)
    {
      for i := 0 to |slots|
        invariant letters == WithNewLetters(old(letters), slots[..i], ids[..i], program)
      {
        assert slots[..i + 1][..i] == slots[..i] && ids[..i + 1][..i] == ids[..i];
        letters := letters[ids[i] :=
          Letter(slots[i].recipient, program.run, program.day,
            slots[i].number, Queued, false, None, NoTask, None, NOTHING)];
      }
      assert slots[..|slots|] == slots && ids[..|ids|] == ids;
    }

    /** The queue returns the task a letter still has instead of making another. */
    method EnqueueDay() returns (scheduled: nat)
      modifies this`letters
      ensures letters == map id | id in old(letters) :: EnqueueLetter(old(letters)[id], program)
      ensures scheduled == |set id | id in old(letters) && ToEnqueue(old(letters)[id], program)|
    {
      var pending := set id | id in letters && letters[id].run == program.run && letters[id].day == program.day
          && (letters[id].status == Held || (letters[id].status == Queued && !letters[id].recorded));
      assert pending == set id | id in old(letters) && ToEnqueue(old(letters)[id], program);
      scheduled := |pending|;
      while pending != {}
        invariant letters.Keys == old(letters.Keys)
        invariant forall id ::
          id in pending ==> id in letters && letters[id] == old(letters)[id] && ToEnqueue(letters[id], program)
        invariant forall id ::
          id in letters && id !in pending ==> letters[id] == EnqueueLetter(old(letters)[id], program)
        decreases pending
      {
        var id :| id in pending;
        pending := pending - {id};
        var l := letters[id];
        if l.task == NoTask {
          l := l.(task := Ready(0));
        }
        letters := letters[id := l.(recorded := true, status := Queued)];
      }
    }

    /** Which recipient gets which number today. */
    method ChooseSlots(order: seq<RecipientId>) returns (slots: seq<Slot>)
      requires order != [] && 1 <= program.day <= PlanLength(program)
      ensures slots == Slots(View(), order)
    {
      var existing := set id | id in letters && letters[id].run == program.run && letters[id].day == program.day;
      assert existing == OfDay(View());
      var taken := set id | id in existing :: letters[id].number;
      assert taken == TakenNumbers(View());
      if program.fixed {
        var planned := map r | r in recipients :: |set id | id in existing && letters[id].recipient == r|;
        assert planned == PlannedByRecipient(View());
        var quotas := map r | r in recipients :: recipients[r].perDay;
        slots := PlanFixed(order, quotas, planned, taken);
      } else {
        slots := PlanGrowth(order, Quota(program.plan[program.day - 1]), taken);
      }
    }

    method PlanLetters(order: seq<RecipientId>, ids: seq<LetterId>, ghost kept: set<LetterId>) returns (scheduled: nat)
      requires PlansLetters(View()) && Enabled(View(), Event.Plan(order, ids, kept))
      modifies this`letters
      ensures View() == PlanStep(old(View()), order, ids, kept)
    {
      var slots := ChooseSlots(order);
      Insert(slots, ids);
      ghost var all := letters;
      scheduled := EnqueueDay();
      PlanEnqueues(old(View()), order, ids, kept);
      assert letters == map id | id in all :: EnqueueLetter(all[id], program);
    }

    /** `order` are the active recipients as the query sorts them, `ids` the new letters' ids. */
    method PlanDay(order: seq<RecipientId>, ids: seq<LetterId>, kept: set<LetterId>) returns (scheduled: nat)
      requires Valid() && Enabled(View(), Event.Plan(order, ids, kept))
      modifies this
      ensures Valid() && View() == Apply(old(View()), Event.Plan(order, ids, kept))
    {
      RunKeepsInv(worlds, events, |events|);
      assert program.day >= 1;
      scheduled := 0;
      if program.status == Running {
        var active := CountActive();
        if program.day > PlanLength(program) {
          program := program.(status := Completed);
        } else if active == 0 {
          PauseNow(kept);
        } else {
          scheduled := PlanLetters(order, ids, kept);
        }
      }
      Record(old(View()), Event.Plan(order, ids, kept));
    }

    /** The whole day task: nothing for a stale run or while a campaign occupies the channel;
        otherwise planning, and on to the next day when there was nothing to schedule. */
    method RunDay(
        expectedRun: nat, blocked: bool, order: seq<RecipientId>, ids: seq<LetterId>, kept: set<LetterId>)
      returns (scheduled: nat)
      requires Valid() && Enabled(View(), Event.Plan(order, ids, kept))
      modifies this
      ensures Valid()
      ensures var was, stale := old(View()), expectedRun != 0 && expectedRun != old(program.run);
        if was.program.status != Running || stale || blocked then View() == was
        else
          var planned := Apply(was, Event.Plan(order, ids, kept));
          if scheduled == 0 && PlansLetters(was) then View() == AdvanceStep(planned, was.program.day)
          else View() == planned
    {
      scheduled := 0;
      if program.status != Running || (expectedRun != 0 && expectedRun != program.run) || blocked {
        return;
      }
      RunKeepsInv(worlds, events, |events|);
      var day := program.day;
      var active := CountActive();
      var plans := day <= PlanLength(program) && active > 0;
      scheduled := PlanDay(order, ids, kept);
      if plans && scheduled == 0 {
        PlannedDayHasLetters(old(View()), order, ids, kept);
        assert OfDay(View()) == LettersOf(View(), program.run, day);
        AdvanceAfterDay(program.run, day);
      }
    }

    method AnyPending() returns (some: bool)
      ensures some <==> exists id :: id in OfDay(View()) && Pending(letters[id].status)
    {
      var pending := set id | id in letters && letters[id].run == program.run
        && letters[id].day == program.day && Pending(letters[id].status);
      assert forall id :: id in pending <==> id in OfDay(View()) && Pending(letters[id].status);
      some := |pending| > 0;
      if some {
        var id :| id in pending;
      }
    }

    /** Moves on to the next day once nothing of the given day is outstanding. */
    method AdvanceAfterDay(ghost run: nat, day: nat)
      requires Valid() && Enabled(View(), Event.Advance(run, day))
      modifies this
      ensures Valid() && View() == Apply(old(View()), Event.Advance(run, day))
    {
      if program.status == Running && program.day == day {
        var pending := AnyPending();
        if !pending {
          program := program.(day := day + 1);
          if program.day > PlanLength(program) {
            program := program.(status := Completed);
          }
        }
      }
      Record(old(View()), Event.Advance(run, day));
    }

    // ---- Sending one letter ----

    method Blame(r: RecipientId)
      modifies this`recipients
      ensures recipients == Update(old(recipients), r, Miss)
    {
      if r in recipients {
        recipients := recipients[r := recipients[r].(errorCount := recipients[r].errorCount + 1)];
      }
    }

    /** The worker's first transaction; `sending` tells whether it goes on to the network.
        `blocked`: a campaign occupies the channel. */
    method BeginMessage(
        id: LetterId, blocked: bool, replacement: RecipientId, kept: set<LetterId>)
      returns (sending: bool)
      requires Valid() && Enabled(View(), Event.Begin(id, blocked, replacement, kept))
      modifies this
      ensures Valid() && View() == Apply(old(View()), Event.Begin(id, blocked, replacement, kept))
      ensures sending <==> letters[id].flight.Some? && old(letters[id]).flight.None?
    {
      RunKeepsInv(worlds, events, |events|);
      assert LetterOk(letters[id]);
      sending := BeginLocked(id, blocked, replacement, kept);
      Record(old(View()), Event.Begin(id, blocked, replacement, kept));
    }

    method BeginLocked(
        id: LetterId, blocked: bool, replacement: RecipientId, kept: set<LetterId>)
      returns (sending: bool)
      requires Enabled(View(), Event.Begin(id, blocked, replacement, kept)) && letters[id].flight.None?
      modifies this
      ensures View() == BeginStep(old(View()), id, blocked, replacement, kept) && Ghosts() == old(Ghosts())
      ensures id in letters && (sending <==> letters[id].flight.Some?)
    {
      var l := letters[id];
      sending := false;
      if Finished(l.status) {
        letters := letters[id := l.(task := NoTask)];
      } else if l.status == Sending {
        letters := letters[id := l.(status := Errored, recorded := false, task := NoTask)];
        Blame(l.recipient);
      } else if program.status != Running || blocked {
        letters := letters[id :=
          l.(status := Held, recorded := false, task := NoTask, past := l.past.(holds := l.past.holds + 1))];
      } else if l.recipient in recipients && recipients[l.recipient].status == Active {
        sending := true;
        letters := letters[id := l.(status := Sending, task := Working(l.task.tries + 1, false),
                                    flight := Some(Flight(l.status, l.recipient)))];
      } else {
        var active := CountActive();
        if active == 0 {
          letters := letters[id := l.(status := Dropped, recorded := false, task := NoTask)];
          PauseNow(kept);
        } else if program.fixed {
          letters := letters[id := l.(status := Dropped, recorded := false, task := NoTask)];
        } else {
          sending := true;
          letters :=
            letters[id := l.(status := Sending, recipient := replacement, task := Working(l.task.tries + 1, false),
                                      flight := Some(Flight(l.status, replacement)))];
        }
      }
    }

    /** The worker's second transaction, after the network call. */
    method FinishMessage(id: LetterId, result: NetworkResult)
      requires Valid() && Enabled(View(), Event.Finish(id, result))
      modifies this
      ensures Valid() && View() == Apply(old(View()), Event.Finish(id, result))
    {
      var l := letters[id];
      var flight := l.flight.value;
      l := l.(flight := None, recorded := false);
      match result {
        case Taken(messageId) =>
          l := l.(status := Accepted, providerId := Some(messageId),
            task := NoTask, past := l.past.(accepted := l.past.accepted + 1));
          if flight.recipient in recipients {
            var r := recipients[flight.recipient];
            recipients := recipients[flight.recipient := r.(sentCount := r.sentCount + 1)];
          }
        case Failed(_) =>
          var retry := flight.before != RetryPending;
          l := l.(status := if retry then RetryPending else Errored, providerId := None,
                  task := AfterFailure(l.task), past := l.past.(failures := l.past.failures + 1));
          Blame(flight.recipient);
        case Suspended =>
          l := l.(status := Held, task := NoTask, past := l.past.(holds := l.past.holds + 1));
      }
      letters := letters[id := l];
      Record(old(View()), Event.Finish(id, result));
    }

    /** The worker died between its transactions, before or after the message left. */
    method Crash(id: LetterId, ghost left: bool)
      requires Valid() && Enabled(View(), Event.Crash(id, left))
      modifies this
      ensures Valid() && View() == Apply(old(View()), Event.Crash(id, left))
    {
      var l := letters[id];
      l := l.(past := l.past.(crashes := l.past.crashes + 1));
      letters := letters[id := l.(flight := None, task := AfterFailure(l.task))];
      Record(old(View()), Event.Crash(id, left));
    }

    /** The worker died before its first transaction ended. */
    method Stumble(id: LetterId)
      requires Valid() && Enabled(View(), Event.Stumble(id))
      modifies this
      ensures Valid() && View() == Apply(old(View()), Event.Stumble(id))
    {
      var l := letters[id];
      var tries := l.task.tries + 1;
      letters := letters[id := l.(task := if tries >= MAX_TRIES then NoTask else Ready(tries))];
      Record(old(View()), Event.Stumble(id));
    }

    // ---- Provider reports ----

    /** Whether the report that was just stored pauses the program. */
    method RaisesAlarm(status: LetterStatus) returns (alarm: bool)
      ensures alarm == Alarming(letters, program.run, status)
    {
      var sent := set id | id in letters && letters[id].run == program.run && letters[id].status in SENT;
      var hard := set id | id in letters && letters[id].run == program.run && letters[id].status in {HardBounced};
      var soft := set id | id in letters && letters[id].run == program.run && letters[id].status in {SoftBounced};
      assert sent == With(letters, program.run, SENT);
      assert hard == With(letters, program.run, {HardBounced});
      assert soft == With(letters, program.run, {SoftBounced});
      if status == Complained {
        alarm := true;
      } else if status == HardBounced && |sent| > 0 && 20 * |hard| >= |sent| {
        alarm := true;
      } else {
        alarm := status == SoftBounced && |soft| >= 3;
      }
    }

    method StoreReport(id: LetterId, status: LetterStatus)
      requires id in letters
      modifies this`letters, this`recipients
      ensures View() == Reported(old(View()), id, status)
    {
      var before := letters[id].status;
      letters := letters[id := letters[id].(status := status)];
      var r := letters[id].recipient;
      if r in recipients && status != Delivered {
        var row := recipients[r];
        if before !in {HardBounced, SoftBounced, Complained} {
          row := row.(errorCount := row.errorCount + 1);
        }
        if status == HardBounced || status == Complained {
          row := row.(status := Disabled);
        }
        recipients := recipients[r := row];
      }
    }

    method RecordOutcome(id: LetterId, status: LetterStatus, kept: set<LetterId>) returns (paused: bool)
      requires Valid() && Enabled(View(), Event.Report(id, status, kept))
      modifies this
      ensures Valid() && View() == Apply(old(View()), Event.Report(id, status, kept))
      ensures paused <==> old(program.status) == Running && program.status == Paused
    {
      paused := false;
      if letters[id].status != status {
        StoreReport(id, status);
        if program.status == Running {
          paused := RaisesAlarm(status);
          if paused {
            PauseNow(kept);
          }
        }
      }
      Record(old(View()), Event.Report(id, status, kept));
    }

    // ---- Editing ----

    method AddRecipient(r: RecipientId, perDay: int) returns (ok: bool)
      requires Valid()
      modifies this
      ensures Valid() && View() == Apply(old(View()), Event.AddRecipient(r, perDay))
      ensures ok <==> program.status != Running
    {
      ok := program.status != Running;
      if ok {
        if r in recipients {
          recipients := recipients[r := recipients[r].(status := Active, perDay := perDay)];
        } else {
          recipients := recipients[r := Recipient(Active, perDay, 0, 0)];
        }
      }
      Record(old(View()), Event.AddRecipient(r, perDay));
    }

    method SetRecipient(r: RecipientId, status: Option<RecipientStatus>, perDay: Option<int>) returns (ok: bool)
      requires Valid()
      modifies this
      ensures Valid() && View() == Apply(old(View()), Event.SetRecipient(r, status, perDay))
      ensures ok <==> (status.Some? || perDay.Some?) && r in recipients && (perDay.Some? ==> program.status != Running)
    {
      ok := (status.Some? || perDay.Some?) && r in recipients && !(perDay.Some? && program.status == Running);
      if ok {
        if perDay.Some? {
          recipients := recipients[r := recipients[r].(perDay := perDay.value)];
        }
        if status.Some? {
          recipients := recipients[r := recipients[r].(status := status.value)];
        }
      }
      Record(old(View()), Event.SetRecipient(r, status, perDay));
    }

    method EditProgram(fixed: bool, plan: seq<int>, duration: int) returns (ok: bool)
      requires Valid()
      modifies this
      ensures Valid() && View() == Apply(old(View()), Event.EditProgram(fixed, plan, duration))
      ensures ok <==> program.status != Running
    {
      ok := program.status != Running;
      if ok {
        program := program.(fixed := fixed, plan := plan, duration := duration);
      }
      Record(old(View()), Event.EditProgram(fixed, plan, duration));
    }
  }

  /** Whatever sequence of calls made it, an engine credits every recipient with exactly the
      letters sent to it, has accepted no letter twice, has paid for every message but one, and
      keeps its other promises exactly under the conditions proved for runs. */
  lemma EngineIsSafe(e: Engine, r: RecipientId, id: LetterId)
    requires e.Valid()
    ensures r in e.recipients ==> e.recipients[r].sentCount == |SentTo(e.letters, r)|
    ensures id in e.letters ==> var l := e.letters[id];
      && l.past.accepted <= 1
      && Departures(e.events, |e.events|, id) <= 1 + SlipCount(e.events, |e.events|, id) + l.past.lost
    ensures e.program.status == Running && !e.restarted ==> Healthy(e.letters, e.program.run)
    ensures OnceForSure(e.worlds, e.events, |e.events|) <==> NeverTriedAgain(e.worlds, e.events, |e.events|)
    ensures MovingThrough(e.worlds, |e.events|) <==> NoStall(e.worlds, e.events, |e.events|)
  {
    RunKeepsInv(e.worlds, e.events, |e.events|);
    LeavesOnceUnlessTriedAgain(e.worlds, e.events, |e.events|);
    LettersMoveUnlessStalled(e.worlds, e.events, |e.events|);
    if id in e.letters {
      MessagesAreBounded(e.worlds, e.events, |e.events|, id);
      assert LetterOk(e.letters[id]);
    }
  }

  lemma PauseInTwo(l: Letter, run: nat, kept: bool)
    ensures var marked := Marked(l, PauseLetter(l, run, false));
      PauseLetter(l, run, kept) == if Recorded(l, run, {Queued, Sending}) then Requested(marked, kept) else marked
  {
  }

  lemma StopInTwo(l: Letter, run: nat, kept: bool)
    ensures var marked := Marked(l, StopLetter(l, run, false));
      StopLetter(l, run, kept)
        == if Recorded(l, run, {Queued, Held, Sending, RetryPending}) then Requested(marked, kept) else marked
  {
  }

  /** The new letter, but with its task as it was. */
  function Marked(was: Letter, now: Letter): Letter {
    now.(task := was.task)
  }

  function Requested(l: Letter, kept: bool): Letter {
    if kept then l.(past := l.past.(lost := l.past.lost + if l.task != NoTask then 1 else 0))
    else l.(task := CancelTask(l.task))
  }

  predicate Recorded(l: Letter, run: nat, statuses: set<LetterStatus>) {
    l.run == run && l.status in statuses && l.recorded
  }
}
