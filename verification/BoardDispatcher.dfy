/** The board dispatcher as the program that updates the rows of one run in place.  Everything
    it does is a run of BoardModel. */
module BoardDispatcher {
  import opened BoardModel
  import opened Common
  import opened BoardProofs

  function WaitingRows(tasks: seq<Task>): nat {
    if tasks == [] then 0
    else WaitingRows(tasks[..|tasks| - 1]) + if tasks[|tasks| - 1].state in {Queued, ReadyToResume} then 1 else 0
  }

  lemma {:induction false} WaitingUpdate(tasks: seq<Task>, i: nat, t: Task)
    requires i < |tasks|
    ensures WaitingRows(tasks[i := t]) ==
      WaitingRows(tasks) - (if tasks[i].state in {Queued, ReadyToResume} then 1 else 0)
        + if t.state in {Queued, ReadyToResume} then 1 else 0
  {
    var n := |tasks| - 1;
    if i < n {
      WaitingUpdate(tasks[..n], i, t);
      assert tasks[i := t][..n] == tasks[..n][i := t];
    } else {
      assert tasks[i := t][..n] == tasks[..n];
    }
  }

  /** The row is in a stage that an agent does. */
  predicate AtWork(t: Task) {
    t.state in {Planning, Implementing, Reviewing, Reworking}
  }

  class Dispatcher {
    const concurrency: nat
    const maxCycles: nat
    var tasks: seq<Task>
    var stopRequested: bool
    ghost var boards: seq<Board>
    ghost var events: seq<Event>

    ghost function View(): Board
      reads this
    {
      Board(concurrency, maxCycles, tasks)
    }

    ghost predicate Valid()
      reads this
    {
      IsRun(boards, events) && boards[|events|] == View()
    }

    /** A run over the rows of the snapshot, all of them queued. */
    constructor (snapshot: nat, concurrency: int, maxCycles: int)
      ensures Valid() && !stopRequested
      ensures this.concurrency == (if concurrency < 1 then 1 else concurrency)
      ensures this.maxCycles == (if maxCycles < 1 then 1 else maxCycles)
      ensures |tasks| == snapshot && ActiveSlots(tasks) == 0 && forall i :: 0 <= i < snapshot ==> tasks[i] == NEW_TASK
    {
      var slots := if concurrency < 1 then 1 else concurrency;
      var cycles := if maxCycles < 1 then 1 else maxCycles;
      var rows: seq<Task> := [];
      for position := 0 to snapshot
        invariant |rows| == position && forall i :: 0 <= i < position ==> rows[i] == NEW_TASK
      {
        rows := rows + [Task(Queued, false, false, 0, 0, 0, NoAgent, None, 0)];
      }
      this.concurrency, this.maxCycles := slots, cycles;
      tasks, stopRequested := rows, false;
      boards, events := [Board(slots, cycles, rows)], [];
      NothingActiveAtFirst(rows);
    }

    /** Every change of a row is a step of the model. */
    method Update(i: nat, s: Step, t: Task)
      requires Valid() && Enabled(View(), Event(i, s)) && t == Next(tasks[i], s, maxCycles)
      modifies this
      ensures Valid() && tasks == old(tasks)[i := t] && stopRequested == old(stopRequested)
    {
      RunExtends(boards, events, Event(i, s));
      tasks := tasks[i := t];
      boards, events := boards + [View()], events + [Event(i, s)];
    }

    method CountActiveSlots() returns (n: nat)
      ensures n == ActiveSlots(tasks)
    {
      n := 0;
      for i := 0 to |tasks|
        invariant n == ActiveSlots(tasks[..i])
      {
        assert tasks[..i + 1][..i] == tasks[..i];
        if tasks[i].state in ACTIVE_SLOT {
          n := n + 1;
        }
      }
      assert tasks[..|tasks|] == tasks;
    }

    /** The first row in the given state, or the number of rows. */
    method FirstIn(state: State) returns (i: nat)
      ensures i <= |tasks| && NoneBefore(tasks, state, i)
      ensures i < |tasks| ==> tasks[i].state == state
    {
      i := 0;
      while i < |tasks| && tasks[i].state != state
        invariant i <= |tasks| && NoneBefore(tasks, state, i)
      {
        i := i + 1;
      }
    }

    // ---- Filling the slots ----

    method PrepareRow(i: nat, works: bool)
      requires Valid() && i < |tasks| && tasks[i].state == Preparing && tasks[i].agent == NoAgent
      modifies this
      ensures Valid() && stopRequested == old(stopRequested)
      ensures tasks == old(tasks)[i :=
        old(tasks)[i].(state := if works then Planning else Failed, worktree := works || old(tasks)[i].worktree)]
    {
      if works {
        Update(i, Prepare(true), tasks[i].(state := Planning, worktree := true));
      } else {
        Update(i, Prepare(false), tasks[i].(state := Failed));
      }
    }

    /** Starts the agent of the row's phase; a call to the board's server can raise before. */
    method SpawnRow(i: nat, raises: bool) returns (raised: bool)
      requires Valid() && i < |tasks|
        && tasks[i].state in {Planning, Implementing, Reworking, Reviewing} && !tasks[i].agent.Live?
      modifies this
      ensures Valid() && stopRequested == old(stopRequested) && raised == raises
      ensures var was := old(tasks)[i];
        tasks == if raised then old(tasks) else
          old(tasks)[i := was.(agent := Live(if was.state == Planning then PlanPhase
            else if was.state == Reviewing then ReviewPhase else ImplementPhase))]
    {
      RowIsOk(this, i);
      var t := tasks[i];
      raised := raises;
      if !raised {
        var phase :=
          if t.state == Planning then PlanPhase else if t.state == Reviewing then ReviewPhase else ImplementPhase;
        Update(i, Spawn, t.(agent := Live(phase)));
      }
    }

    ghost predicate MayTake(i: nat)
      requires i < |tasks|
      reads this
    {
      && ActiveSlots(tasks) < concurrency
      && (tasks[i].state == Queued ==> NoneBefore(tasks, ReadyToResume, |tasks|) && NoneBefore(tasks, Queued, i))
      && (tasks[i].state == ReadyToResume ==> NoneBefore(tasks, ReadyToResume, i))
    }

    /** Brings one row a stage further, unless its agent is at work. */
    method Advance(i: nat, works: bool, raises: bool) returns (raised: bool)
      requires Valid() && i < |tasks|
      requires tasks[i].state in {Queued, ReadyToResume} ==> MayTake(i)
      modifies this
      ensures Valid() && stopRequested == old(stopRequested) && |tasks| == |old(tasks)|
      ensures old(tasks)[i].agent.Live? ==> tasks == old(tasks) && !raised
      ensures forall j :: 0 <= j < |tasks| && j != i ==> tasks[j] == old(tasks)[j]
      ensures old(tasks)[i].state in {Queued, Preparing} ==> tasks[i].state == (if works then Planning else Failed)
      ensures old(tasks)[i].state == ReadyToResume ==>
          && tasks[i].state == Implementing
          && tasks[i].agent == if raised then old(tasks)[i].agent else Live(ImplementPhase)
      ensures old(tasks)[i].state !in {Queued, Preparing, ReadyToResume} ==> tasks[i].state == old(tasks)[i].state
      ensures Active(old(tasks)[i]) && !old(tasks)[i].agent.Live? && !raised && old(tasks)[i].state != Preparing
        ==> tasks[i].agent.Live?
      ensures raised
        <==> raises && !old(tasks)[i].agent.Live? && (AtWork(old(tasks)[i]) || old(tasks)[i].state == ReadyToResume)
    {
      RowIsOk(this, i);
      raised := false;
      if tasks[i].agent.Live? {
        return;
      }
      if tasks[i].state == Queued {
        Update(i, Take, tasks[i].(state := Preparing));
      }
      if tasks[i].state == Preparing {
        PrepareRow(i, works);
      } else if tasks[i].state == ReadyToResume {
        Update(i, Resume, tasks[i].(state := Implementing));
        raised := SpawnRow(i, raises);
      } else if tasks[i].state in {Planning, Implementing, Reworking, Reviewing} {
        raised := SpawnRow(i, raises);
      }
    }

    method AdvanceActive(works: set<nat>, raises: set<nat>) returns (raised: bool)
      requires Valid()
      modifies this
      ensures Valid() && stopRequested == old(stopRequested) && |tasks| == |old(tasks)|
      ensures raised ==> raises != {}
      ensures !raised ==> forall i :: 0 <= i < |tasks| && AtWork(old(tasks)[i]) ==> tasks[i].agent.Live?
    {
      raised := false;
      for i := 0 to |tasks|
        invariant Valid() && stopRequested == old(stopRequested) && |tasks| == |old(tasks)| && !raised
        invariant forall j :: 0 <= j < i && AtWork(old(tasks)[j]) ==> tasks[j].agent.Live?
        invariant forall j :: i <= j < |tasks| ==> tasks[j] == old(tasks)[j]
      {
        RunKeepsRows(boards, events, |events|);
        assert TaskOk(tasks[i], maxCycles);
        if tasks[i].state in ACTIVE_SLOT {
          raised := Advance(i, i in works, i in raises);
          if raised {
            return;
          }
        }
      }
    }

    method TakeWaiting(works: set<nat>, raises: set<nat>) returns (raised: bool)
      requires Valid()
      modifies this
      ensures Valid() && stopRequested == old(stopRequested) && |tasks| == |old(tasks)|
      ensures raised ==> raises != {}
      ensures !raised ==> ActiveSlots(tasks) >= concurrency || WaitingRows(tasks) == 0
      ensures forall i ::
        0 <= i < |tasks| && old(tasks)[i].state !in {Queued, ReadyToResume} ==> tasks[i] == old(tasks)[i]
    {
      raised := false;
      while !raised
        invariant Valid() && stopRequested == old(stopRequested) && |tasks| == |old(tasks)|
        invariant forall i ::
          0 <= i < |tasks| && tasks[i].state in {Queued, ReadyToResume}
          ==> old(tasks)[i].state in {Queued, ReadyToResume}
        invariant forall i ::
          0 <= i < |tasks| && old(tasks)[i].state !in {Queued, ReadyToResume} ==> tasks[i] == old(tasks)[i]
        invariant raised ==> raises != {}
        decreases WaitingRows(tasks)
      {
        var active := CountActiveSlots();
        if active >= concurrency {
          return;
        }
        var i := FirstIn(ReadyToResume);
        if i == |tasks| {
          i := FirstIn(Queued);
          if i == |tasks| {
            NobodyWaits(tasks);
            return;
          }
        }
        ghost var was := tasks;
        raised := Advance(i, i in works, i in raises);
        assert tasks == was[i := tasks[i]];
        WaitingUpdate(was, i, tasks[i]);
      }
    }

    /** Unless a stop is requested or a call to the board's server raises, it ends with all
        slots taken or with nothing left that waits for one. */
    method FillSlots(works: set<nat>, raises: set<nat>) returns (raised: bool)
      requires Valid()
      modifies this
      ensures Valid() && |tasks| == |old(tasks)|
      ensures stopRequested == old(stopRequested) && (stopRequested ==> tasks == old(tasks))
      ensures raised ==> raises != {}
      ensures !stopRequested && !raised ==> ActiveSlots(tasks) >= concurrency || WaitingRows(tasks) == 0
      ensures !stopRequested && !raised
        ==> forall i :: 0 <= i < |tasks| && AtWork(old(tasks)[i]) ==> tasks[i].agent.Live?
    {
      raised := false;
      if stopRequested {
        return;
      }
      raised := AdvanceActive(works, raises);
      if !raised {
        RunKeepsRows(boards, events, |events|);
        assert forall i :: 0 <= i < |tasks| ==> TaskOk(tasks[i], maxCycles);
        raised := TakeWaiting(works, raises);
      }
    }

    // ---- Reading results and answers ----

    /** Reads the log of the row's finished agent, by the row's state first. */
    method HandleRow(i: nat)
      requires Valid() && i < |tasks| && tasks[i].agent.Finished?
      modifies this
      ensures Valid() && stopRequested == old(stopRequested)
      ensures tasks == old(tasks)[i := Handled(old(tasks)[i], maxCycles)]
    {
      var t := tasks[i];
      var r, phase := t.agent.result, t.agent.phase;
      if t.agent.unread {
        t := t.(handled := t.handled + 1);
      }
      t := t.(agent := Finished(phase, r, false));
      if t.state == Planning || phase == PlanPhase {
        if !r.exitOk && !r.parsed {
          t := t.(state := Failed);
        } else if r.questions > 0 || r.verdict == SaysBlocked {
          t := t.(state := WaitingForAnswer, plan := true, questions := r.questions);
        } else {
          t := t.(state := Implementing, plan := true, questions := 0);
        }
      } else if t.state == Implementing || t.state == Reworking || phase == ImplementPhase {
        if !r.exitOk && r.verdict != SaysDone {
          t := t.(state := Failed);
        } else {
          t := t.(state := Reviewing);
        }
      } else if r.verdict == SaysApproved {
        t := t.(state := Completed, lastReview := Some(true));
      } else {
        var cycle := t.cycle + 1;
        t := t.(cycle := cycle, lastReview := Some(false), state := if cycle >= maxCycles then Blocked else Reworking);
      }
      Update(i, Handle, t);
    }

    /** Every finished agent's log is read, also those that were read before. */
    method ReconcileFinishedAgents()
      requires Valid()
      modifies this
      ensures Valid() && stopRequested == old(stopRequested) && |tasks| == |old(tasks)|
      ensures forall i :: 0 <= i < |tasks| ==>
          tasks[i] == if old(tasks)[i].agent.Finished? then Handled(old(tasks)[i], maxCycles) else old(tasks)[i]
    {
      for i := 0 to |tasks|
        invariant Valid() && stopRequested == old(stopRequested) && |tasks| == |old(tasks)|
        invariant forall j :: 0 <= j < i ==>
            tasks[j] == if old(tasks)[j].agent.Finished? then Handled(old(tasks)[j], maxCycles) else old(tasks)[j]
        invariant forall j :: i <= j < |tasks| ==> tasks[j] == old(tasks)[j]
      {
        if tasks[i].agent.Finished? {
          HandleRow(i);
        }
      }
    }

    /** New answers from the board, or one from the main chat: the row becomes ready once there
        are as many as questions. */
    method AddAnswers(i: nat, count: nat) returns (ok: bool)
      requires Valid()
      modifies this
      ensures Valid() && stopRequested == old(stopRequested) && |tasks| == |old(tasks)|
      ensures ok <==> i < |tasks| && old(tasks)[i].state == WaitingForAnswer && count > 0
      ensures !ok ==> tasks == old(tasks)
      ensures ok ==> forall j :: 0 <= j < |tasks| && j != i ==> tasks[j] == old(tasks)[j]
      ensures ok ==> tasks[i].answers == old(tasks)[i].answers + count
      ensures ok ==> (tasks[i].state == ReadyToResume <==> tasks[i].answers >= tasks[i].questions)
    {
      ok := i < |tasks| && tasks[i].state == WaitingForAnswer && count > 0;
      if ok {
        var t := tasks[i].(answers := tasks[i].answers + count);
        if t.questions == 0 || t.answers >= t.questions {
          t := t.(state := ReadyToResume);
        }
        Update(i, Answer(count), t);
      }
    }

    method RequestStop()
      modifies this`stopRequested
      ensures stopRequested
    {
      stopRequested := true;
    }

    /** One round of the loop, up to the point where the dispatcher sleeps. */
    method Round(works: set<nat>, raises: set<nat>) returns (raised: bool, done: bool)
      requires Valid()
      modifies this
      ensures Valid() && |tasks| == |old(tasks)|
      ensures done <==> !raised && forall i :: 0 <= i < |tasks| ==> tasks[i].state in TERMINAL
      ensures !stopRequested && !raised ==> ActiveSlots(tasks) >= concurrency || WaitingRows(tasks) == 0
    {
      ReconcileFinishedAgents();
      raised := FillSlots(works, raises);
      done := !raised;
      for i := 0 to |tasks|
        invariant done <==> !raised && forall j :: 0 <= j < i ==> tasks[j].state in TERMINAL
      {
        if tasks[i].state !in TERMINAL {
          done := false;
        }
      }
    }
  }

  lemma RowIsOk(d: Dispatcher, i: nat)
    requires d.Valid() && i < |d.tasks|
    ensures TaskOk(d.tasks[i], d.maxCycles)
  {
    RunKeepsRows(d.boards, d.events, |d.events|);
  }

  /** Whatever sequence of calls made it, a dispatcher's rows are sound, its queue is a suffix,
      and its slots were held if and only if it never revived a row while all were taken. */
  lemma DispatcherIsSound(d: Dispatcher, i: nat)
    requires d.Valid() && i < |d.tasks|
    ensures TaskOk(d.tasks[i], d.maxCycles) && QueueIsSuffix(d.tasks)
    ensures SlotsHeld(d.boards, |d.events|) <==> NoOverflow(d.boards, d.events, |d.events|)
  {
    RunKeepsRows(d.boards, d.events, |d.events|);
    SlotsHoldUnlessRevived(d.boards, d.events, |d.events|);
  }

  lemma {:induction false} NobodyWaits(tasks: seq<Task>)
    requires NoneBefore(tasks, Queued, |tasks|) && NoneBefore(tasks, ReadyToResume, |tasks|)
    ensures WaitingRows(tasks) == 0
  {
    if tasks != [] {
      assert NoneBefore(tasks[..|tasks| - 1], Queued, |tasks| - 1);
      assert NoneBefore(tasks[..|tasks| - 1], ReadyToResume, |tasks| - 1);
      NobodyWaits(tasks[..|tasks| - 1]);
    }
  }
}
