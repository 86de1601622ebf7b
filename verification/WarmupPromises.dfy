/** What follows for single letters, for days and for whole runs of the warmup. */
module WarmupPromises {
  import opened Common
  import opened DayPlanner
  import opened WarmupModel
  import opened WarmupProofs

  // ---- What a step does to one letter ----

  ghost predicate Pauses(w: World, e: Event)
    requires Enabled(w, e)
  {
    w.program.status == Running && Apply(w, e).program.status == Paused
  }

  /** Whether a worker goes on to the network with the letter. */
  predicate GoesOut(w: World, l: Letter, blocked: bool) {
    && !Finished(l.status) && l.status != Sending && w.program.status == Running && !blocked
    && (IsActive(w.recipients, l.recipient) || (ActiveOnes(w.recipients) != {} && !w.program.fixed))
  }

  function Begun(w: World, l: Letter, blocked: bool, replacement: RecipientId): Letter
    requires l.task.Ready?
  {
    if GoesOut(w, l, blocked) then TakeOff(l, if IsActive(w.recipients, l.recipient) then l.recipient else replacement)
    else if Finished(l.status) then l.(task := NoTask)
    else if l.status == Sending then GiveUp(l, Errored)
    else if w.program.status != Running || blocked then PutBack(l)
    else GiveUp(l, Dropped)
  }

  /** The event is possible for this letter. */
  predicate Fits(w: World, e: Event, id: LetterId) {
    && id in w.letters
    && ((e.Begin? || e.Stumble?) && e.id == id ==> w.letters[id].task.Ready?)
    && ((e.Finish? || e.Crash?) && e.id == id ==> w.letters[id].flight.Some?)
    && (e.Report? && e.id == id
      ==> w.letters[id].providerId.Some? && e.status in {Delivered, HardBounced, SoftBounced, Complained})
  }

  /** `pauses` says whether the step also pauses the program. */
  function After(w: World, e: Event, id: LetterId, pauses: bool): Letter
    requires Fits(w, e, id)
  {
    var l, run := w.letters[id], w.program.run;
    match e
    case Pause(kept) => if pauses then PauseLetter(l, run, id in kept) else l
    case Stop(kept) => StopLetter(l, run, id in kept)
    case Plan(_, _, kept) =>
      if PlansLetters(w) then EnqueueLetter(l, w.program)
      else if pauses then PauseLetter(l, run, id in kept) else l
    case Begin(begun, blocked, replacement, kept) =>
      var m := if id == begun then Begun(w, l, blocked, replacement) else l;
      if pauses then PauseLetter(m, run, id in kept) else m
    case Stumble(begun) => if id == begun then Stumbled(l) else l
    case Finish(sent, result) => if id == sent then Land(l, result) else l
    case Crash(sent, _) => if id == sent then Crashed(l) else l
    case Report(reported, status, kept) =>
      var m := if id == reported then l.(status := status) else l;
      if pauses then PauseLetter(m, run, id in kept) else m
    case _ => l
  }

  lemma PlanLetter(w: World, e: Event, id: LetterId)
    requires Enabled(w, e) && e.Plan? && id in w.letters
    ensures id in Apply(w, e).letters && Apply(w, e).letters[id] == After(w, e, id, Pauses(w, e))
  {
    if PlansLetters(w) {
      PlanInserts(w, e.order, e.ids, e.kept);
      PlanEnqueues(w, e.order, e.ids, e.kept);
    }
  }

  lemma BeginLetter(w: World, e: Event, id: LetterId)
    requires Enabled(w, e) && e.Begin? && id in w.letters
    ensures id in Apply(w, e).letters && Apply(w, e).letters[id] == After(w, e, id, Pauses(w, e))
  {
  }

  lemma ReportLetter(w: World, e: Event, id: LetterId)
    requires Enabled(w, e) && e.Report? && id in w.letters
    ensures id in Apply(w, e).letters && Apply(w, e).letters[id] == After(w, e, id, Pauses(w, e))
  {
  }

  lemma OtherLetter(w: World, e: Event, id: LetterId)
    requires Enabled(w, e) && !e.Plan? && !e.Begin? && !e.Report? && id in w.letters
    ensures id in Apply(w, e).letters && Apply(w, e).letters[id] == After(w, e, id, Pauses(w, e))
  {
  }

  lemma LetterAfter(w: World, e: Event, id: LetterId)
    requires Enabled(w, e) && id in w.letters
    ensures id in Apply(w, e).letters && Apply(w, e).letters[id] == After(w, e, id, Pauses(w, e))
  {
    if e.Plan? {
      PlanLetter(w, e, id);
    } else if e.Begin? {
      BeginLetter(w, e, id);
    } else if e.Report? {
      ReportLetter(w, e, id);
    } else {
      OtherLetter(w, e, id);
    }
  }

  /** Only planning adds letters, each queued with a task. */
  lemma NewLetterIsQueued(w: World, e: Event, id: LetterId)
    requires Enabled(w, e) && id in Apply(w, e).letters && id !in w.letters
    ensures e.Plan?
    ensures var l := Apply(w, e).letters[id]; l.status == Queued && l.task == Ready(0) && l.past == NOTHING
  {
    if e.Plan? && PlansLetters(w) {
      PlanInserts(w, e.order, e.ids, e.kept);
      PlanEnqueues(w, e.order, e.ids, e.kept);
    }
  }

  // ---- Accepted once ----

  /** A letter becomes accepted at most once, whatever crashes, pauses, stops, retries and lost
      answers come in between; it carries a provider id exactly in the accepted statuses; and
      its failed sends number at most two, plus one for every time it was put back to paused. */
  lemma AcceptedAtMostOnce(worlds: seq<World>, events: seq<Event>, i: nat, id: LetterId)
    requires IsRun(worlds, events) && i <= |events| && id in worlds[i].letters
    ensures var l := worlds[i].letters[id];
      && l.past.accepted == (if Sent(l.status) then 1 else 0)
      && (Sent(l.status) <==> l.providerId.Some?)
      && l.past.failures <= l.past.holds + 2
  {
    RunKeepsInv(worlds, events, i);
    assert LetterOk(worlds[i].letters[id]);
  }

  predicate SameSending(l: Letter, m: Letter) {
    Sent(m.status) && m.providerId == l.providerId && m.recipient == l.recipient
  }

  lemma SentAfter(w: World, e: Event, id: LetterId, pauses: bool)
    requires Fits(w, e, id) && LetterOk(w.letters[id]) && Sent(w.letters[id].status)
    ensures SameSending(w.letters[id], After(w, e, id, pauses))
  {
  }

  lemma StaysSent(w: World, e: Event, id: LetterId)
    requires AllOk(w) && Enabled(w, e) && id in w.letters && Sent(w.letters[id].status)
    ensures id in Apply(w, e).letters && SameSending(w.letters[id], Apply(w, e).letters[id])
  {
    LetterAfter(w, e, id);
    SentAfter(w, e, id, Pauses(w, e));
  }

  /** Once accepted, a letter keeps its recipient and provider id and never leaves the accepted
      statuses again. */
  lemma {:induction false} SentForEver(worlds: seq<World>, events: seq<Event>, i: nat, j: nat, id: LetterId)
    requires IsRun(worlds, events) && i <= j <= |events|
    requires id in worlds[i].letters && Sent(worlds[i].letters[id].status)
    ensures id in worlds[j].letters && SameSending(worlds[i].letters[id], worlds[j].letters[id])
    decreases j
  {
    if i < j {
      SentForEver(worlds, events, i, j - 1, id);
      RunKeepsInv(worlds, events, j - 1);
      StaysSent(worlds[j - 1], events[j - 1], id);
    }
  }

  // ---- Leaving the house ----

  /** With this event the message of the letter leaves the house. */
  predicate Departs(e: Event, id: LetterId) {
    match e
    case Finish(sent, Taken(_)) => sent == id
    case Finish(sent, Failed(left)) => sent == id && left
    case Crash(sent, left) => sent == id && left
    case _ => false
  }

  /** The send failed although the message left. */
  predicate Slips(e: Event, id: LetterId) {
    e.Finish? && e.result.Failed? && Departs(e, id)
  }

  /** How often the letter left in the first n events. */
  function Departures(events: seq<Event>, n: nat, id: LetterId): nat
    requires n <= |events|
  {
    if n == 0 then 0 else Departures(events, n - 1, id) + if Departs(events[n - 1], id) then 1 else 0
  }

  function SlipCount(events: seq<Event>, n: nat, id: LetterId): nat
    requires n <= |events|
  {
    if n == 0 then 0 else SlipCount(events, n - 1, id) + if Slips(events[n - 1], id) then 1 else 0
  }

  lemma {:induction false} StrangersDoNotLeave(worlds: seq<World>, events: seq<Event>, n: nat, id: LetterId)
    requires IsRun(worlds, events) && n <= |events| && id !in worlds[n].letters
    ensures Departures(events, n, id) == 0 && SlipCount(events, n, id) == 0
  {
    if n > 0 {
      assert Enabled(worlds[n - 1], events[n - 1]);
      if id in worlds[n - 1].letters {
        LetterAfter(worlds[n - 1], events[n - 1], id);
      } else {
        StrangersDoNotLeave(worlds, events, n - 1, id);
      }
    }
  }

  // ---- How often a letter can leave ----

  /** A task with tries left that the row does not name, so that no pause cancels it. */
  predicate Loose(l: Letter) {
    && !l.recorded
    && (l.task.Ready? || (l.task.Working? && !l.task.cancelled && l.task.tries < MAX_TRIES))
  }

  /** What departures must have been paid for, by sends that failed after the message had left
      and by cancellations that failed: all of them for a letter that may still be sent, one
      more for a loose task; any other letter owes at most one. */
  function Owed(l: Letter): int {
    match l.status
    case Queued => 0
    case Held => if l.task.Ready? then 1 else 0
    case RetryPending => 0
    case Sending => (if l.flight.Some? then 0 else -1) + if Loose(l) then 1 else 0
    case Unknown => (if l.flight.Some? then 0 else -1) + if Loose(l) then 1 else 0
    case _ => -1
  }

  function Balance(l: Letter, departures: nat, slips: nat): int {
    slips + l.past.lost - departures
  }

  lemma OwedInPause(l: Letter, run: nat, kept: bool, d: nat, s: nat)
    requires TaskOk(l) && Balance(l, d, s) >= Owed(l)
    ensures var m := PauseLetter(l, run, kept); Balance(m, d, s) >= Owed(m)
    ensures var m := StopLetter(l, run, kept); Balance(m, d, s) >= Owed(m)
  {
  }

  lemma OwedInBegin(w: World, l: Letter, blocked: bool, replacement: RecipientId, d: nat, s: nat)
    requires TaskOk(l) && l.task.Ready? && Balance(l, d, s) >= Owed(l)
    ensures var m := Begun(w, l, blocked, replacement); TaskOk(m) && Balance(m, d, s) >= Owed(m)
  {
  }

  lemma OwedInLanding(l: Letter, e: Event, id: LetterId, d: nat, s: nat)
    requires TaskOk(l) && InFlightOk(l) && l.flight.Some? && Balance(l, d, s) >= Owed(l)
    requires (e.Finish? || e.Crash?) && e.id == id
    ensures var m := if e.Finish? then Land(l, e.result) else Crashed(l);
      Balance(m, d + if Departs(e, id) then 1 else 0, s + if Slips(e, id) then 1 else 0) >= Owed(m)
  {
  }

  lemma OwedElsewhere(w: World, l: Letter, d: nat, s: nat)
    requires TaskOk(l) && Balance(l, d, s) >= Owed(l)
    ensures var m := EnqueueLetter(l, w.program); Balance(m, d, s) >= Owed(m)
    ensures l.task.Ready? ==> var m := Stumbled(l); Balance(m, d, s) >= Owed(m)
  {
  }

  lemma OwedAfterPause(w: World, e: Event, id: LetterId, pauses: bool, d: nat, s: nat)
    requires Fits(w, e, id) && LetterOk(w.letters[id]) && Balance(w.letters[id], d, s) >= Owed(w.letters[id])
    requires e.Pause? || e.Stop?
    ensures var m := After(w, e, id, pauses); Balance(m, d, s) >= Owed(m)
  {
    OwedInPause(w.letters[id], w.program.run, id in e.kept, d, s);
  }

  lemma OwedAfterPlan(w: World, e: Event, id: LetterId, pauses: bool, d: nat, s: nat)
    requires Fits(w, e, id) && LetterOk(w.letters[id]) && Balance(w.letters[id], d, s) >= Owed(w.letters[id])
    requires e.Plan?
    ensures var m := After(w, e, id, pauses); Balance(m, d, s) >= Owed(m)
  {
    OwedElsewhere(w, w.letters[id], d, s);
    OwedInPause(w.letters[id], w.program.run, id in e.kept, d, s);
  }

  lemma OwedAfterBegin(w: World, e: Event, id: LetterId, pauses: bool, d: nat, s: nat)
    requires Fits(w, e, id) && LetterOk(w.letters[id]) && Balance(w.letters[id], d, s) >= Owed(w.letters[id])
    requires e.Begin?
    ensures var m := After(w, e, id, pauses); Balance(m, d, s) >= Owed(m)
  {
    var l := w.letters[id];
    if id == e.id {
      OwedInBegin(w, l, e.blocked, e.replacement, d, s);
      l := Begun(w, l, e.blocked, e.replacement);
    }
    OwedInPause(l, w.program.run, id in e.kept, d, s);
  }

  lemma OwedAfterReport(w: World, e: Event, id: LetterId, pauses: bool, d: nat, s: nat)
    requires Fits(w, e, id) && LetterOk(w.letters[id]) && Balance(w.letters[id], d, s) >= Owed(w.letters[id])
    requires e.Report?
    ensures var m := After(w, e, id, pauses); Balance(m, d, s) >= Owed(m)
  {
    if id != e.id {
      OwedInPause(w.letters[id], w.program.run, id in e.kept, d, s);
    }
  }

  lemma OwedAfterRest(w: World, e: Event, id: LetterId, pauses: bool, d: nat, s: nat)
    requires Fits(w, e, id) && LetterOk(w.letters[id]) && Balance(w.letters[id], d, s) >= Owed(w.letters[id])
    requires !e.Pause? && !e.Stop? && !e.Plan? && !e.Begin? && !e.Report?
    requires !((e.Finish? || e.Crash?) && e.id == id)
    ensures var m := After(w, e, id, pauses); Balance(m, d, s) >= Owed(m)
  {
    OwedElsewhere(w, w.letters[id], d, s);
  }

  lemma OwedAfter(w: World, e: Event, id: LetterId, pauses: bool, d: nat, s: nat)
    requires Fits(w, e, id) && LetterOk(w.letters[id]) && Balance(w.letters[id], d, s) >= Owed(w.letters[id])
    ensures var m := After(w, e, id, pauses);
      Balance(m, d + if Departs(e, id) then 1 else 0, s + if Slips(e, id) then 1 else 0) >= Owed(m)
  {
    if (e.Finish? || e.Crash?) && e.id == id {
      OwedInLanding(w.letters[id], e, id, d, s);
    } else if e.Pause? || e.Stop? {
      OwedAfterPause(w, e, id, pauses, d, s);
    } else if e.Plan? {
      OwedAfterPlan(w, e, id, pauses, d, s);
    } else if e.Begin? {
      OwedAfterBegin(w, e, id, pauses, d, s);
    } else if e.Report? {
      OwedAfterReport(w, e, id, pauses, d, s);
    } else {
      OwedAfterRest(w, e, id, pauses, d, s);
    }
  }

  lemma {:induction false} OwedInRun(worlds: seq<World>, events: seq<Event>, n: nat, id: LetterId)
    requires IsRun(worlds, events) && n <= |events| && id in worlds[n].letters
    ensures Balance(worlds[n].letters[id], Departures(events, n, id), SlipCount(events, n, id))
      >= Owed(worlds[n].letters[id])
  {
    if n > 0 {
      var w, e := worlds[n - 1], events[n - 1];
      assert Enabled(w, e);
      if id in w.letters {
        OwedInRun(worlds, events, n - 1, id);
        RunKeepsInv(worlds, events, n - 1);
        LetterAfter(w, e, id);
        assert LetterOk(w.letters[id]);
        OwedAfter(w, e, id, Pauses(w, e), Departures(events, n - 1, id), SlipCount(events, n - 1, id));
      } else {
        StrangersDoNotLeave(worlds, events, n - 1, id);
        NewLetterIsQueued(w, e, id);
      }
    }
  }

  /** The messages of a letter that left number at most one, plus one for each send that failed
      after its message had left, plus one for each cancellation that failed. */
  lemma MessagesAreBounded(worlds: seq<World>, events: seq<Event>, n: nat, id: LetterId)
    requires IsRun(worlds, events) && n <= |events| && id in worlds[n].letters
    ensures Departures(events, n, id) <= 1 + SlipCount(events, n, id) + worlds[n].letters[id].past.lost
  {
    OwedInRun(worlds, events, n, id);
  }

  lemma PaidFor(l: Letter, departures: nat, slips: nat)
    requires LetterOk(l) && Balance(l, departures, slips) >= Owed(l)
    requires l.flight.Some? || (l.task.Ready? && !Finished(l.status) && l.status != Sending)
    ensures departures <= slips + l.past.lost
  {
  }

  /** Only a letter whose send failed after its message had left, or whose cancellation failed,
      is ever about to be sent again. */
  lemma RepeatNeedsACause(worlds: seq<World>, events: seq<Event>, n: nat, id: LetterId)
    requires IsRun(worlds, events) && n <= |events| && id in worlds[n].letters
    requires var l := worlds[n].letters[id];
      l.flight.Some? || (l.task.Ready? && !Finished(l.status) && l.status != Sending)
    ensures Departures(events, n, id) <= SlipCount(events, n, id) + worlds[n].letters[id].past.lost
  {
    OwedInRun(worlds, events, n, id);
    RunKeepsInv(worlds, events, n);
    PaidFor(worlds[n].letters[id], Departures(events, n, id), SlipCount(events, n, id));
  }

  // ---- Exactly when a letter leaves at most once ----

  /** The event as the service sees it: it cannot tell whether a message left when a send fails
      or a worker crashes. */
  function Seen(e: Event): Event {
    match e
    case Finish(id, Failed(_)) => Finish(id, Failed(false))
    case Crash(id, _) => Crash(id, false)
    case _ => e
  }

  predicate SeenAlike(events: seq<Event>, others: seq<Event>) {
    |others| == |events| && forall k :: 0 <= k < |events| ==> Seen(others[k]) == Seen(events[k])
  }

  lemma SeenStep(w: World, e: Event, f: Event)
    requires Seen(e) == Seen(f) && Enabled(w, e)
    ensures Enabled(w, f) && Apply(w, f) == Apply(w, e)
  {
  }

  /** What the service sees decides what it does. */
  lemma SeenRun(worlds: seq<World>, events: seq<Event>, others: seq<Event>)
    requires IsRun(worlds, events) && SeenAlike(events, others)
    ensures IsRun(worlds, others)
  {
    forall i | 0 <= i < |others|
      ensures Enabled(worlds[i], others[i]) && worlds[i + 1] == Apply(worlds[i], others[i])
    {
      assert Seen(others[i]) == Seen(events[i]);
      assert Enabled(worlds[i], events[i]) && worlds[i + 1] == Apply(worlds[i], events[i]);
      SeenStep(worlds[i], events[i], others[i]);
    }
  }

  /** An earlier attempt may have left: it failed, or its worker crashed mid-send and a pause or
      stop came mid-send too. */
  predicate MayHaveLeft(l: Letter) {
    l.past.failures >= 1 || (l.past.crashes >= 1 && l.past.interrupted)
  }

  /** A worker goes on to the network with such a letter. */
  predicate TriesAgain(w: World, e: Event) {
    e.Begin? && e.id in w.letters && GoesOut(w, w.letters[e.id], e.blocked) && MayHaveLeft(w.letters[e.id])
  }

  predicate NeverTriedAgain(worlds: seq<World>, events: seq<Event>, n: nat)
    requires n <= |events| < |worlds|
  {
    n > 0 ==> !TriesAgain(worlds[n - 1], events[n - 1]) && NeverTriedAgain(worlds, events, n - 1)
  }

  /** No letter has left twice by the n-th state, and none can with the next step. */
  ghost predicate OnceAt(w: World, events: seq<Event>, n: nat)
    requires n <= |events|
  {
    forall id :: id in w.letters ==>
      && Departures(events, n, id) <= 1
      && forall e :: Enabled(w, e) && Departs(e, id) ==> Departures(events, n, id) == 0
  }

  /** In every state up to the n-th. */
  ghost predicate OnceThrough(worlds: seq<World>, events: seq<Event>, n: nat)
    requires n <= |events| < |worlds|
  {
    OnceAt(worlds[n], events, n) && (n > 0 ==> OnceThrough(worlds, events, n - 1))
  }

  /** Whatever happened to the messages behind what the service saw. */
  ghost predicate OnceForSure(worlds: seq<World>, events: seq<Event>, n: nat)
    requires n <= |events| < |worlds|
  {
    forall others :: SeenAlike(events, others) ==> OnceThrough(worlds, others, n)
  }

  /** The attempts that may have left. */
  function Attempts(l: Letter): nat {
    l.past.failures + l.past.crashes + l.past.accepted
  }

  predicate Ends(e: Event, id: LetterId) {
    (e.Finish? && e.id == id && !e.result.Suspended?) || (e.Crash? && e.id == id)
  }

  lemma SamePast(w: World, l: Letter, run: nat, flag: bool)
    ensures Attempts(PauseLetter(l, run, flag)) == Attempts(StopLetter(l, run, flag)) == Attempts(l)
    ensures Attempts(EnqueueLetter(l, w.program)) == Attempts(l)
    ensures l.task.Ready? ==> Attempts(Stumbled(l)) == Attempts(l)
  {
  }

  lemma SamePastBegun(w: World, l: Letter, blocked: bool, replacement: RecipientId)
    requires l.task.Ready?
    ensures Attempts(Begun(w, l, blocked, replacement)) == Attempts(l)
  {
  }

  lemma AttemptsAfterBegin(w: World, e: Event, id: LetterId, pauses: bool)
    requires Fits(w, e, id)
    requires e.Begin?
    ensures Attempts(After(w, e, id, pauses)) == Attempts(w.letters[id])
  {
    var l := w.letters[id];
    if id == e.id {
      SamePastBegun(w, l, e.blocked, e.replacement);
      l := Begun(w, l, e.blocked, e.replacement);
    }
    SamePast(w, l, w.program.run, id in e.kept);
  }

  lemma AttemptsAfterReport(w: World, e: Event, id: LetterId, pauses: bool)
    requires Fits(w, e, id)
    requires e.Report?
    ensures Attempts(After(w, e, id, pauses)) == Attempts(w.letters[id])
  {
    var l := w.letters[id];
    SamePast(w, if id == e.id then l.(status := e.status) else l, w.program.run, id in e.kept);
  }

  lemma AttemptsAfterPause(w: World, e: Event, id: LetterId, pauses: bool)
    requires Fits(w, e, id)
    requires e.Pause? || e.Stop? || e.Plan?
    ensures Attempts(After(w, e, id, pauses)) == Attempts(w.letters[id])
  {
    SamePast(w, w.letters[id], w.program.run, id in e.kept);
  }

  lemma AttemptsAfterRest(w: World, e: Event, id: LetterId, pauses: bool)
    requires Fits(w, e, id)
    requires !e.Pause? && !e.Stop? && !e.Plan? && !e.Begin? && !e.Report?
    ensures Attempts(After(w, e, id, pauses)) == Attempts(w.letters[id]) + if Ends(e, id) then 1 else 0
  {
    SamePast(w, w.letters[id], w.program.run, true);
  }

  lemma AttemptsAfter(w: World, e: Event, id: LetterId, pauses: bool)
    requires Fits(w, e, id)
    ensures Attempts(After(w, e, id, pauses)) == Attempts(w.letters[id]) + if Ends(e, id) then 1 else 0
  {
    if e.Begin? {
      AttemptsAfterBegin(w, e, id, pauses);
    } else if e.Report? {
      AttemptsAfterReport(w, e, id, pauses);
    } else if e.Pause? || e.Stop? || e.Plan? {
      AttemptsAfterPause(w, e, id, pauses);
    } else {
      AttemptsAfterRest(w, e, id, pauses);
    }
  }

  lemma AttemptsNext(w: World, e: Event, id: LetterId)
    requires Enabled(w, e) && id in w.letters && id in Apply(w, e).letters
    ensures Attempts(Apply(w, e).letters[id]) == Attempts(w.letters[id]) + if Ends(e, id) then 1 else 0
  {
    LetterAfter(w, e, id);
    AttemptsAfter(w, e, id, Pauses(w, e));
  }

  /** Each departure is such an attempt. */
  lemma {:induction false} DeparturesAreAttempts(worlds: seq<World>, events: seq<Event>, n: nat, id: LetterId)
    requires IsRun(worlds, events) && n <= |events| && id in worlds[n].letters
    ensures Departures(events, n, id) <= Attempts(worlds[n].letters[id])
  {
    if n > 0 {
      var w, e := worlds[n - 1], events[n - 1];
      assert Enabled(w, e);
      if id in w.letters {
        DeparturesAreAttempts(worlds, events, n - 1, id);
        AttemptsNext(w, e, id);
      } else {
        StrangersDoNotLeave(worlds, events, n - 1, id);
      }
    }
  }

  // ---- Never tried again: at most once ----

  /** At most one attempt that may have left, and none while one is being made. */
  predicate OneAttempt(l: Letter) {
    Attempts(l) <= 1 && (l.flight.Some? ==> Attempts(l) == 0)
  }

  lemma OneAttemptAfter(w: World, e: Event, id: LetterId, pauses: bool)
    requires Fits(w, e, id) && LetterOk(w.letters[id]) && OneAttempt(w.letters[id]) && !TriesAgain(w, e)
    ensures OneAttempt(After(w, e, id, pauses))
  {
    AttemptsAfter(w, e, id, pauses);
  }

  lemma {:induction false} OneAttemptInRun(worlds: seq<World>, events: seq<Event>, n: nat, id: LetterId)
    requires IsRun(worlds, events) && n <= |events| && NeverTriedAgain(worlds, events, n) && id in worlds[n].letters
    ensures OneAttempt(worlds[n].letters[id])
  {
    if n > 0 {
      var w, e := worlds[n - 1], events[n - 1];
      assert Enabled(w, e);
      if id in w.letters {
        OneAttemptInRun(worlds, events, n - 1, id);
        RunKeepsInv(worlds, events, n - 1);
        assert LetterOk(w.letters[id]);
        LetterAfter(w, e, id);
        OneAttemptAfter(w, e, id, Pauses(w, e));
      } else {
        NewLetterIsQueued(w, e, id);
      }
    }
  }

  lemma {:induction false} NeverTriedMeansOnce(worlds: seq<World>, events: seq<Event>, n: nat)
    requires IsRun(worlds, events) && n <= |events| && NeverTriedAgain(worlds, events, n)
    ensures OnceThrough(worlds, events, n)
  {
    forall id | id in worlds[n].letters
      ensures Departures(events, n, id) <= 1
      ensures forall e :: Enabled(worlds[n], e) && Departs(e, id) ==> Departures(events, n, id) == 0
    {
      OneAttemptInRun(worlds, events, n, id);
      DeparturesAreAttempts(worlds, events, n, id);
    }
    if n > 0 {
      NeverTriedMeansOnce(worlds, events, n - 1);
    }
  }

  lemma {:induction false} SeenNeverTried(worlds: seq<World>, events: seq<Event>, others: seq<Event>, n: nat)
    requires n <= |events| < |worlds| && SeenAlike(events, others) && NeverTriedAgain(worlds, events, n)
    ensures NeverTriedAgain(worlds, others, n)
  {
    if n > 0 {
      SeenNeverTried(worlds, events, others, n - 1);
      assert Seen(others[n - 1]) == Seen(events[n - 1]);
    }
  }

  // ---- Tried again: perhaps twice ----

  /** The same, as far as the service sees, but every message left that may have. */
  function Loudest(e: Event): Event {
    match e
    case Finish(id, Failed(_)) => Finish(id, Failed(true))
    case Crash(id, _) => Crash(id, true)
    case _ => e
  }

  function AllLoud(events: seq<Event>): seq<Event> {
    seq(|events|, k requires 0 <= k < |events| => Loudest(events[k]))
  }

  lemma LoudLooksAlike(events: seq<Event>)
    ensures SeenAlike(events, AllLoud(events))
  {
  }

  lemma LoudDeparts(e: Event, id: LetterId)
    ensures Departs(Loudest(e), id) == Ends(e, id)
  {
  }

  lemma LoudStranger(worlds: seq<World>, events: seq<Event>, n: nat, id: LetterId)
    requires IsRun(worlds, events) && n < |events| && id !in worlds[n].letters && id in worlds[n + 1].letters
    ensures Departures(AllLoud(events), n, id) == 0 && !Ends(events[n], id)
  {
    LoudLooksAlike(events);
    SeenRun(worlds, events, AllLoud(events));
    StrangersDoNotLeave(worlds, AllLoud(events), n, id);
    assert Enabled(worlds[n], events[n]);
  }

  lemma {:induction false} LoudDepartures(worlds: seq<World>, events: seq<Event>, n: nat, id: LetterId)
    requires IsRun(worlds, events) && n <= |events| && id in worlds[n].letters
    ensures Departures(AllLoud(events), n, id) == Attempts(worlds[n].letters[id])
  {
    if n > 0 {
      var w, e := worlds[n - 1], events[n - 1];
      assert Enabled(w, e);
      if id in w.letters {
        LoudDepartures(worlds, events, n - 1, id);
        AttemptsNext(w, e, id);
      } else {
        LoudStranger(worlds, events, n - 1, id);
        NewLetterIsQueued(w, e, id);
      }
      LoudDeparts(e, id);
    }
  }

  lemma TriedAgainIsInFlight(w: World, e: Event)
    requires Enabled(w, e) && AllOk(w) && TriesAgain(w, e)
    ensures e.id in Apply(w, e).letters
    ensures var m := Apply(w, e).letters[e.id]; m.flight.Some? && Attempts(m) >= 1
  {
    LetterAfter(w, e, e.id);
    assert LetterOk(w.letters[e.id]);
  }

  lemma TriedAgainMayLeaveTwice(worlds: seq<World>, events: seq<Event>, n: nat)
    requires IsRun(worlds, events) && n < |events| && TriesAgain(worlds[n], events[n])
    ensures !OnceAt(worlds[n + 1], AllLoud(events), n + 1)
  {
    RunKeepsInv(worlds, events, n);
    assert Enabled(worlds[n], events[n]);
    var id := events[n].id;
    TriedAgainIsInFlight(worlds[n], events[n]);
    LoudDepartures(worlds, events, n + 1, id);
    assert Enabled(worlds[n + 1], Finish(id, Taken("x"))) && Departs(Finish(id, Taken("x")), id);
  }

  lemma {:induction false} TriedAgainSomewhere(worlds: seq<World>, events: seq<Event>, n: nat)
    requires IsRun(worlds, events) && n <= |events| && !NeverTriedAgain(worlds, events, n)
    ensures !OnceThrough(worlds, AllLoud(events), n)
  {
    if TriesAgain(worlds[n - 1], events[n - 1]) {
      TriedAgainMayLeaveTwice(worlds, events, n - 1);
    } else {
      TriedAgainSomewhere(worlds, events, n - 1);
    }
  }

  /** Through a run, whatever happened to the messages behind what the service saw, no letter
      leaves twice and none could with the next step, if and only if no worker goes on to the
      network with a letter that has a failed send behind it, or a crash mid-send together with
      a pause or stop mid-send.  A crash alone does no harm: a worker leaves such a letter be. */
  lemma LeavesOnceUnlessTriedAgain(worlds: seq<World>, events: seq<Event>, n: nat)
    requires IsRun(worlds, events) && n <= |events|
    ensures OnceForSure(worlds, events, n) <==> NeverTriedAgain(worlds, events, n)
  {
    if NeverTriedAgain(worlds, events, n) {
      forall others | SeenAlike(events, others)
        ensures OnceThrough(worlds, others, n)
      {
        SeenRun(worlds, events, others);
        SeenNeverTried(worlds, events, others, n);
        NeverTriedMeansOnce(worlds, others, n);
      }
    } else {
      LoudLooksAlike(events);
      TriedAgainSomewhere(worlds, events, n);
    }
  }

  /** A send that failed although the message left is tried again exactly when it was not the
      retry, was not cancelled, and the task has a try left. */
  lemma SlipIsRetriedIff(l: Letter)
    requires l.flight.Some? && l.task.Working?
    ensures var m := Land(l, Failed(true));
      && MayHaveLeft(m)
      && (m.status == RetryPending && m.task.Ready?
          <==> l.flight.value.before != RetryPending && !l.task.cancelled && l.task.tries < MAX_TRIES)
  {
  }

  /** Then, while the program runs and the recipient is active, the letter leaves again. */
  lemma SlipIsSentAgain(w: World, id: LetterId, replacement: RecipientId, m: string)
    requires w.program.status == Running && id in w.letters && m != ""
    requires var l := w.letters[id];
      && l.flight.Some? && l.flight.value.before != RetryPending
      && l.task.Working? && !l.task.cancelled && l.task.tries < MAX_TRIES
      && IsActive(w.recipients, l.recipient)
    requires IsReplacement(w.recipients, replacement)
    ensures Enabled(w, Finish(id, Failed(true))) && Departs(Finish(id, Failed(true)), id)
    ensures var failed := FinishStep(w, id, Failed(true));
      && Enabled(failed, Begin(id, false, replacement, {})) && TriesAgain(failed, Begin(id, false, replacement, {}))
      && var again := BeginStep(failed, id, false, replacement, {});
      && Enabled(again, Finish(id, Taken(m))) && Departs(Finish(id, Taken(m)), id)
  {
    var failed := FinishStep(w, id, Failed(true));
    assert failed.letters[id] == Land(w.letters[id], Failed(true));
    SlipIsRetriedIff(w.letters[id]);
    assert IsActive(failed.recipients, w.letters[id].recipient);
    SameReplacement(w, failed, replacement);
  }

  lemma SameReplacement(w: World, v: World, r: RecipientId)
    requires v.recipients.Keys == w.recipients.Keys && IsReplacement(w.recipients, r)
    requires forall s :: s in w.recipients ==>
      v.recipients[s].status == w.recipients[s].status && v.recipients[s].sentCount == w.recipients[s].sentCount
    ensures IsReplacement(v.recipients, r)
  {
  }

  /** A worker crashed mid-send, perhaps after the message had left.  If the program is paused
      before its task is picked up again, and cancelling the task fails, the letter leaves again
      once the program is resumed; a worker would otherwise have found it in a status it does
      not send. */
  lemma LostCancellationIsSentAgain(w: World, id: LetterId, replacement: RecipientId, m: string)
    requires w.program.status == Running && id in w.letters && m != ""
    requires var l := w.letters[id];
      && l.run == w.program.run && l.status == Sending && l.flight.None? && l.past.crashes >= 1
      && l.recorded && l.task.Ready? && IsActive(w.recipients, l.recipient)
    requires IsReplacement(w.recipients, replacement)
    ensures !GoesOut(w, w.letters[id], false)
    ensures var resumed := ResumeStep(PauseProgram(w, {id}), true);
      && Enabled(resumed, Begin(id, false, replacement, {})) && TriesAgain(resumed, Begin(id, false, replacement, {}))
      && var again := BeginStep(resumed, id, false, replacement, {});
      && Enabled(again, Finish(id, Taken(m))) && Departs(Finish(id, Taken(m)), id)
  {
    var resumed := ResumeStep(PauseProgram(w, {id}), true);
    assert resumed.letters[id] == PauseLetter(w.letters[id], w.program.run, true);
  }

  // ---- A run in which a letter leaves twice ----

  const ALONE := World(Program(Draft, 1, 1, false, [1], 1), map[], map[], false)
  const JOINED := ALONE.(recipients := map["r" := Recipient(Active, 1, 0, 0)])
  const STARTED := JOINED.(program := JOINED.program.(status := Running))
  const WAITING := Letter("r", 1, 1, 1, Queued, true, None, Ready(0), None, NOTHING)
  const PLANNED := STARTED.(letters := map["m" := WAITING])
  const SENDING := PLANNED.(letters := map["m" := TakeOff(WAITING, "r")])

  lemma StartedIsReachable()
    ensures Reachable(STARTED)
  {
    var none: seq<Event> := [];
    assert IsRun([ALONE], none) && [ALONE][|none|] == ALONE;
    Reach(ALONE, AddRecipient("r", 1));
    assert AddRecipientStep(ALONE, "r", 1) == JOINED;
    assert "r" in ActiveOnes(JOINED.recipients);
    Reach(JOINED, Event.Start(true));
  }

  lemma SlotOfStarted()
    ensures Slots(STARTED, ["r"]) == [Slot("r", 1)]
  {
    assert OfDay(STARTED) == {} && TakenNumbers(STARTED) == {};
    assert Growth(["r"], 0, {}) == [];
    assert Growth(["r"], 1, {}) == [Slot("r", 1)];
  }

  lemma LetterOfStarted()
    ensures WithNewLetters(map[], [Slot("r", 1)], ["m"], STARTED.program)
      == map["m" := NewLetter(Slot("r", 1), STARTED.program)]
  {
    assert [Slot("r", 1)][..0] == [] && ["m"][..0] == [];
  }

  lemma StartedMayPlan()
    ensures PlansLetters(STARTED) && Enabled(STARTED, Plan(["r"], ["m"], {}))
  {
    assert "r" in ActiveOnes(STARTED.recipients);
    SlotOfStarted();
    assert IsOrder(STARTED, ["r"]);
  }

  lemma EnqueuedOfStarted(all: map<LetterId, Letter>)
    requires all == map["m" := NewLetter(Slot("r", 1), STARTED.program)]
    ensures (map id | id in all :: EnqueueLetter(all[id], STARTED.program)) == PLANNED.letters
  {
  }

  lemma PlanOfStarted()
    requires Enabled(STARTED, Plan(["r"], ["m"], {}))
    ensures PlanStep(STARTED, ["r"], ["m"], {}) == PLANNED
  {
    StartedMayPlan();
    PlanEnqueues(STARTED, ["r"], ["m"], {});
    SlotOfStarted();
    LetterOfStarted();
    EnqueuedOfStarted(WithNewLetters(map[], [Slot("r", 1)], ["m"], STARTED.program));
  }

  lemma PlannedIsReachable()
    ensures Reachable(PLANNED)
  {
    StartedIsReachable();
    StartedMayPlan();
    PlanOfStarted();
    Reach(STARTED, Plan(["r"], ["m"], {}));
  }

  lemma SendingIsReachable()
    ensures Reachable(SENDING)
  {
    PlannedIsReachable();
    assert IsReplacement(PLANNED.recipients, "r");
    Reach(PLANNED, Begin("m", false, "r", {}));
    assert BeginStep(PLANNED, "m", false, "r", {}) == SENDING;
  }

  /** One recipient, one letter, one answer that gets lost: the letter leaves twice. */
  lemma LettersCanLeaveTwice()
    ensures exists worlds, events :: IsRun(worlds, events) && Departures(events, |events|, "m") >= 2
  {
    SendingIsReachable();
    assert IsReplacement(SENDING.recipients, "r");
    SlipIsSentAgain(SENDING, "m", "r", "x");
    var worlds, events :| IsRun(worlds, events) && SENDING == worlds[|events|];
    worlds, events := Longer(worlds, events, Finish("m", Failed(true)), "m");
    worlds, events := Longer(worlds, events, Begin("m", false, "r", {}), "m");
    worlds, events := Longer(worlds, events, Finish("m", Taken("x")), "m");
    assert Departures(events, |events|, "m") >= 2;
  }

  lemma Longer(
      worlds: seq<World>, events: seq<Event>, e: Event, id: LetterId)
    returns (longer: seq<World>, more: seq<Event>)
    requires IsRun(worlds, events) && Enabled(worlds[|events|], e)
    ensures IsRun(longer, more) && |more| == |events| + 1 && longer[|more|] == Apply(worlds[|events|], e)
    ensures Departures(more, |more|, id) == Departures(events, |events|, id) + if Departs(e, id) then 1 else 0
  {
    longer, more := worlds + [Apply(worlds[|events|], e)], events + [e];
    RunExtends(worlds, events, e);
    SameDepartures(events, more, |events|, id);
  }

  lemma {:induction false} SameDepartures(events: seq<Event>, more: seq<Event>, n: nat, id: LetterId)
    requires n <= |events| <= |more| && more[..|events|] == events
    ensures Departures(more, n, id) == Departures(events, n, id)
  {
    if n > 0 {
      SameDepartures(events, more, n - 1, id);
      assert more[n - 1] == more[..|events|][n - 1];
    }
  }

  // ---- Counts, health, days ----

  /** Conservation: in every state each recipient's count is the number of letters, over all
      runs, that point to it and were sent. */
  lemma CountsAreConserved(worlds: seq<World>, events: seq<Event>, i: nat, r: RecipientId)
    requires IsRun(worlds, events) && i <= |events| && r in worlds[i].recipients
    ensures worlds[i].recipients[r].sentCount == |SentTo(worlds[i].letters, r)|
  {
    RunKeepsInv(worlds, events, i);
  }

  /** A running program that was not restarted from pause within its run has no complaint, at
      most two soft bounces, and no hard bounce or fewer than five in a hundred sent letters. */
  lemma RunningMeansHealthy(worlds: seq<World>, events: seq<Event>, i: nat)
    requires IsRun(worlds, events) && i <= |events|
    requires worlds[i].program.status == Running && !worlds[i].restarted
    ensures Healthy(worlds[i].letters, worlds[i].program.run)
  {
    RunKeepsInv(worlds, events, i);
  }

  predicate NotBefore(q: Program, p: Program) {
    p.run < q.run || (p.run == q.run && p.day <= q.day)
  }

  lemma StepKeepsOrder(w: World, e: Event)
    requires Enabled(w, e)
    ensures var p, q := w.program, Apply(w, e).program;
      && NotBefore(q, p)
      && (p.run == q.run && p.day < q.day ==>
            q.day == p.day + 1 && forall id :: id in OfDay(w) ==> !Pending(w.letters[id].status))
  {
  }

  lemma RunStep(worlds: seq<World>, events: seq<Event>, i: nat)
    requires IsRun(worlds, events) && i < |events|
    ensures NotBefore(worlds[i + 1].program, worlds[i].program)
  {
    StepKeepsOrder(worlds[i], events[i]);
  }

  /** The run number and the day never go back. */
  lemma {:induction false} DaysNeverGoBack(worlds: seq<World>, events: seq<Event>, i: nat, j: nat)
    requires IsRun(worlds, events) && i <= j <= |events|
    ensures NotBefore(worlds[j].program, worlds[i].program)
    decreases j
  {
    if i < j {
      DaysNeverGoBack(worlds, events, i, j - 1);
      RunStep(worlds, events, j - 1);
    }
  }

  /** A day is left only when none of its letters is queued, paused, being sent or waiting for
      a retry. */
  lemma DayIsLeftWhenDone(worlds: seq<World>, events: seq<Event>, i: nat, id: LetterId)
    requires IsRun(worlds, events) && i < |events|
    requires var p, q := worlds[i].program, worlds[i + 1].program; q.run == p.run && q.day != p.day
    ensures worlds[i + 1].program.day == worlds[i].program.day + 1
    ensures id in OfDay(worlds[i]) ==> !Pending(worlds[i].letters[id].status)
  {
    assert Enabled(worlds[i], events[i]);
    StepKeepsOrder(worlds[i], events[i]);
  }

  /** Unless a pause or stop came mid-send, no letter of an earlier day of the run is
      outstanding. */
  lemma ClosedDaysStayClosed(worlds: seq<World>, events: seq<Event>, i: nat, id: LetterId)
    requires IsRun(worlds, events) && i <= |events| && id in worlds[i].letters
    requires var p, l := worlds[i].program, worlds[i].letters[id]; l.run == p.run && l.day < p.day
    ensures var l := worlds[i].letters[id]; Pending(l.status) || l.flight.Some? ==> l.past.interrupted
  {
    RunKeepsInv(worlds, events, i);
    assert DayOk(worlds[i].program, worlds[i].letters[id]);
  }

  /** No two letters of one day of one run share a sequence number. */
  lemma NumbersAreUnique(worlds: seq<World>, events: seq<Event>, i: nat, a: LetterId, b: LetterId)
    requires IsRun(worlds, events) && i <= |events| && a in worlds[i].letters && b in worlds[i].letters && a != b
    requires var l, m := worlds[i].letters[a], worlds[i].letters[b]; l.run == m.run && l.day == m.day
    ensures worlds[i].letters[a].number != worlds[i].letters[b].number
  {
    RunKeepsInv(worlds, events, i);
  }

  // ---- What a planned day contains ----

  predicate Copies(letters: map<LetterId, Letter>, id: LetterId, l: Letter) {
    id in letters && letters[id].run == l.run && letters[id].day == l.day && letters[id].number == l.number
  }

  /** After planning, the letters are the old ones and one for each slot. */
  lemma PlannedLetters(w: World, order: seq<RecipientId>, ids: seq<LetterId>, kept: set<LetterId>)
    requires PlansLetters(w) && Enabled(w, Plan(order, ids, kept))
    ensures var letters, slots := PlanStep(w, order, ids, kept).letters, Slots(w, order);
      && (forall id :: id in w.letters ==> Copies(letters, id, w.letters[id]))
      && (forall i :: 0 <= i < |slots| ==> Copies(letters, ids[i], NewLetter(slots[i], w.program)))
      && (forall id :: id in letters && id !in w.letters ==> id in ids)
  {
    NewLettersFacts(w.letters, Slots(w, order), ids, w.program);
  }

  lemma NumbersOfTheDay(w: World, v: World, slots: seq<Slot>, ids: seq<LetterId>)
    requires |ids| == |slots| && v.program == w.program
    requires forall id :: id in w.letters ==> Copies(v.letters, id, w.letters[id])
    requires forall i :: 0 <= i < |slots| ==> Copies(v.letters, ids[i], NewLetter(slots[i], w.program))
    requires forall id :: id in v.letters && id !in w.letters ==> id in ids
    ensures TakenNumbers(v) == TakenNumbers(w) + Numbers(slots)
  {
    forall n | n in TakenNumbers(w)
      ensures n in TakenNumbers(v)
    {
      var id :| id in OfDay(w) && w.letters[id].number == n;
      assert id in OfDay(v) && v.letters[id].number == n;
    }
    forall n | n in Numbers(slots)
      ensures n in TakenNumbers(v)
    {
      var i :| 0 <= i < |slots| && slots[i].number == n;
      assert ids[i] in OfDay(v) && v.letters[ids[i]].number == n;
    }
    forall n | n in TakenNumbers(v)
      ensures n in TakenNumbers(w) + Numbers(slots)
    {
      var id :| id in OfDay(v) && v.letters[id].number == n;
      if id in w.letters {
        assert id in OfDay(w);
      } else {
        var i :| 0 <= i < |ids| && ids[i] == id;
        assert slots[i] in slots && slots[i].number == n;
      }
    }
  }

  lemma PlannedDay(w: World, order: seq<RecipientId>, ids: seq<LetterId>, kept: set<LetterId>)
    requires PlansLetters(w) && Enabled(w, Plan(order, ids, kept))
    ensures TakenNumbers(PlanStep(w, order, ids, kept)) == TakenNumbers(w) + Numbers(Slots(w, order))
  {
    PlannedLetters(w, order, ids, kept);
    NumbersOfTheDay(w, PlanStep(w, order, ids, kept), Slots(w, order), ids);
  }

  lemma PlanKeepsProgram(w: World, order: seq<RecipientId>, ids: seq<LetterId>, kept: set<LetterId>)
    requires PlansLetters(w) && Enabled(w, Plan(order, ids, kept))
    ensures PlanStep(w, order, ids, kept).program == w.program
  {
  }

  function Target(p: Program): nat
    requires !p.fixed && 1 <= p.day <= PlanLength(p)
  {
    Quota(p.plan[p.day - 1])
  }

  lemma GrowthSlots(w: World, order: seq<RecipientId>)
    requires order != [] && !w.program.fixed && 1 <= w.program.day <= PlanLength(w.program)
    ensures Slots(w, order) == Growth(order, Target(w.program), TakenNumbers(w))
  {
  }

  /** After growth planning every number up to the day's target has its letter, and planning
      again would add none. */
  lemma GrowthDayIsFull(
      w: World, order: seq<RecipientId>, ids: seq<LetterId>, kept: set<LetterId>, again: seq<RecipientId>, v: World)
    requires PlansLetters(w) && !w.program.fixed && Enabled(w, Plan(order, ids, kept)) && again != []
    requires v == PlanStep(w, order, ids, kept)
    ensures v.program == w.program
    ensures forall n :: 1 <= n <= Target(w.program) ==> n in TakenNumbers(v)
    ensures Slots(v, again) == []
  {
    PlanKeepsProgram(w, order, ids, kept);
    PlannedDay(w, order, ids, kept);
    GrowthSlots(w, order);
    GrowthSlots(v, again);
    GrowthIsFull(order, again, Target(w.program), TakenNumbers(w));
  }

  lemma GrowthIsFull(order: seq<RecipientId>, again: seq<RecipientId>, target: nat, taken: set<nat>)
    requires order != [] && again != []
    ensures var used := taken + Numbers(Growth(order, target, taken));
      && (forall n :: 1 <= n <= target ==> n in used)
      && Growth(again, target, used) == []
  {
    GrowthFillsGaps(order, target, taken);
    GrowthReplanIsEmpty(order, again, target, taken, target);
  }

  function SlotRecipients(slots: seq<Slot>): seq<RecipientId> {
    if slots == [] then [] else SlotRecipients(slots[..|slots| - 1]) + [slots[|slots| - 1].recipient]
  }

  function DayLettersOf(letters: map<LetterId, Letter>, p: Program, r: RecipientId): set<LetterId> {
    set id | id in letters && letters[id].run == p.run && letters[id].day == p.day && letters[id].recipient == r
  }

  lemma {:induction false} NewLettersPerRecipient(
      letters: map<LetterId, Letter>, slots: seq<Slot>, ids: seq<LetterId>, p: Program, r: RecipientId)
    requires |ids| == |slots| && NewIds(letters, ids)
    ensures |DayLettersOf(WithNewLetters(letters, slots, ids, p), p, r)|
      == |DayLettersOf(letters, p, r)| + Times(SlotRecipients(slots), r)
  {
    if slots != [] {
      var n := |slots| - 1;
      NewLettersPerRecipient(letters, slots[..n], ids[..n], p, r);
      NewLettersFacts(letters, slots[..n], ids[..n], p);
      var before := WithNewLetters(letters, slots[..n], ids[..n], p);
      assert ids[n] !in before;
      OneMoreLetter(before, ids[n], NewLetter(slots[n], p), p, r);
      TimesOfAppend(SlotRecipients(slots[..n]), [slots[n].recipient], r);
      TimesOfOne(slots[n].recipient, r);
    }
  }

  lemma OneMoreLetter(letters: map<LetterId, Letter>, id: LetterId, l: Letter, p: Program, r: RecipientId)
    requires id !in letters && l.run == p.run && l.day == p.day
    ensures |DayLettersOf(letters[id := l], p, r)| == |DayLettersOf(letters, p, r)| + if l.recipient == r then 1 else 0
  {
    assert DayLettersOf(letters[id := l], p, r) == DayLettersOf(letters, p, r) + if l.recipient == r then {id} else {};
  }

  lemma {:induction false} RecipientsOfSlots(slots: seq<Slot>, rs: seq<RecipientId>)
    requires |slots| == |rs| && forall i :: 0 <= i < |rs| ==> slots[i].recipient == rs[i]
    ensures SlotRecipients(slots) == rs
  {
    if slots != [] {
      RecipientsOfSlots(slots[..|slots| - 1], rs[..|rs| - 1]);
    }
  }

  lemma PlannedForIsCount(w: World, r: RecipientId)
    ensures PlannedFor(w, r) == |DayLettersOf(w.letters, w.program, r)|
  {
    assert (set id | id in OfDay(w) && w.letters[id].recipient == r) == DayLettersOf(w.letters, w.program, r);
  }

  lemma PlanAddsPerRecipient(w: World, order: seq<RecipientId>, ids: seq<LetterId>, kept: set<LetterId>, r: RecipientId)
    requires PlansLetters(w) && Enabled(w, Plan(order, ids, kept))
    ensures PlannedFor(PlanStep(w, order, ids, kept), r) == PlannedFor(w, r) + Times(SlotRecipients(Slots(w, order)), r)
  {
    var v, slots := PlanStep(w, order, ids, kept), Slots(w, order);
    NewLettersPerRecipient(w.letters, slots, ids, w.program, r);
    PlannedForIsCount(w, r);
    PlannedForIsCount(v, r);
    var all := WithNewLetters(w.letters, slots, ids, w.program);
    assert DayLettersOf(v.letters, v.program, r) == DayLettersOf(all, w.program, r);
  }

  /** After fixed planning each active recipient has max(quota, what it had) letters of the
      day, nobody else gets one, and planning again would add none. */
  lemma FixedDayMeetsQuotas(w: World, order: seq<RecipientId>, ids: seq<LetterId>, kept: set<LetterId>, r: RecipientId)
    requires PlansLetters(w) && w.program.fixed && Enabled(w, Plan(order, ids, kept))
    ensures var had, has, quota := PlannedFor(w, r), PlannedFor(PlanStep(w, order, ids, kept), r), PerDay(Quotas(w), r);
      has == if IsActive(w.recipients, r) && had < quota then quota else had
  {
    FixedSlotRecipients(w, order);
    PlanAddsPerRecipient(w, order, ids, kept, r);
    FixedMeetsQuota(order, Quotas(w), PlannedByRecipient(w), r);
    assert r in order <==> IsActive(w.recipients, r);
  }

  lemma FixedSlotRecipients(w: World, order: seq<RecipientId>)
    requires order != [] && w.program.fixed && 1 <= w.program.day <= PlanLength(w.program)
    ensures SlotRecipients(Slots(w, order))
      == Demand(order, Quotas(w), PlannedByRecipient(w), MaxQuota(order, Quotas(w)))
  {
    RecipientsOfSlots(Slots(w, order), Demand(order, Quotas(w), PlannedByRecipient(w), MaxQuota(order, Quotas(w))));
  }

  lemma FixedDayIsFull(
      w: World, order: seq<RecipientId>, ids: seq<LetterId>, kept: set<LetterId>, again: seq<RecipientId>)
    requires PlansLetters(w) && w.program.fixed && Enabled(w, Plan(order, ids, kept))
    requires again != [] && IsOrder(PlanStep(w, order, ids, kept), again)
    ensures Slots(PlanStep(w, order, ids, kept), again) == []
  {
    var v := PlanStep(w, order, ids, kept);
    forall r | r in again
      ensures PerDay(Quotas(v), r) <= Planned(PlannedByRecipient(v), r)
    {
      assert IsActive(w.recipients, r);
      FixedDayMeetsQuotas(w, order, ids, kept, r);
    }
    FixedReplanIsEmpty(again, Quotas(v), PlannedByRecipient(v));
  }

  // ---- Days that are skipped ----

  /** A planned day has letters. */
  lemma PlannedDayHasLetters(w: World, order: seq<RecipientId>, ids: seq<LetterId>, kept: set<LetterId>)
    requires PlansLetters(w) && Enabled(w, Plan(order, ids, kept))
    ensures OfDay(PlanStep(w, order, ids, kept)) != {}
  {
    var v := PlanStep(w, order, ids, kept);
    if w.program.fixed {
      FixedDayMeetsQuotas(w, order, ids, kept, order[0]);
      assert PlannedFor(v, order[0]) >= 1;
      var first :| first in set id | id in OfDay(v) && v.letters[id].recipient == order[0];
      assert first in OfDay(v);
    } else {
      GrowthDayIsFull(w, order, ids, kept, order, v);
      assert 1 in TakenNumbers(v);
    }
  }

  /** A worker of an earlier run asks for the day after its own, while today has the same number
      and no letters yet. */
  predicate SkipsDay(w: World, e: Event) {
    && e.Advance? && w.program.status == Running && OfDay(w) == {}
    && e.run < w.program.run && e.day == w.program.day
  }

  lemma SkipsDayIff(w: World, e: Event)
    requires AllOk(w) && Enabled(w, e)
    ensures var p, q := w.program, Apply(w, e).program;
      q.run == p.run && q.day != p.day && OfDay(w) == {} <==> SkipsDay(w, e)
  {
    if e.Advance? && OfDay(w) == {} && e.day == w.program.day {
      var id :| id in LettersOf(w, e.run, e.day);
      assert id !in OfDay(w);
      assert DayOk(w.program, w.letters[id]);
    }
  }

  /** A day is left without ever having been planned exactly when a worker of an earlier run
      asks for the day after its own, which has the same number. */
  lemma DayIsSkippedIff(worlds: seq<World>, events: seq<Event>, i: nat)
    requires IsRun(worlds, events) && i < |events|
    ensures var p, q := worlds[i].program, worlds[i + 1].program;
      q.run == p.run && q.day != p.day && OfDay(worlds[i]) == {} <==> SkipsDay(worlds[i], events[i])
  {
    RunKeepsInv(worlds, events, i);
    assert Enabled(worlds[i], events[i]);
    SkipsDayIff(worlds[i], events[i]);
  }

  /** That happens: the service compares only the number of the day. */
  lemma OldLetterSkipsDay(w: World, run: nat)
    requires w.program.status == Running && OfDay(w) == {} && LettersOf(w, run, w.program.day) != {}
    ensures Enabled(w, Advance(run, w.program.day))
    ensures Apply(w, Advance(run, w.program.day)).program.day == w.program.day + 1
  {
  }

  const LANDED := SENDING.(
    letters := map["m" := Land(SENDING.letters["m"], Taken("x"))],
    recipients := map["r" := Recipient(Active, 1, 1, 0)])
  const AGAIN := LANDED.(program := LANDED.program.(run := 2))

  lemma LandedIsReachable()
    ensures Reachable(LANDED)
  {
    SendingIsReachable();
    Reach(SENDING, Finish("m", Taken("x")));
    assert FinishStep(SENDING, "m", Taken("x")) == LANDED;
  }

  lemma StopOfLanded()
    ensures StopStep(LANDED, {}) == LANDED.(program := LANDED.program.(status := Cancelled))
  {
    assert StopLetter(LANDED.letters["m"], 1, false) == LANDED.letters["m"];
  }

  lemma AgainIsReachable()
    ensures Reachable(AGAIN)
  {
    LandedIsReachable();
    Reach(LANDED, Event.Stop({}));
    StopOfLanded();
    var stopped := StopStep(LANDED, {});
    assert "r" in ActiveOnes(stopped.recipients);
    Reach(stopped, Event.Start(true));
    assert StartStep(stopped, true) == AGAIN;
  }

  /** The program is stopped and started again before the worker of its one letter asks for the
      next day: the second run is completed without a letter. */
  lemma RunCanBeSkipped()
    ensures exists w :: Reachable(w) && w.program.run == 2 && w.program.status == Completed
                        && forall id :: id in w.letters ==> w.letters[id].run == 1
  {
    AgainIsReachable();
    assert "m" in LettersOf(AGAIN, 1, 1);
    Reach(AGAIN, Advance(1, 1));
    assert OfDay(AGAIN) == {};
    assert AdvanceStep(AGAIN, 1).program.status == Completed;
  }

  // ---- Letters that nothing moves on ----

  /** Outstanding, but without a task, and planning passes it over. */
  predicate Stalled(l: Letter) {
    Pending(l.status) && l.task == NoTask && l.status != Held && !(l.status == Queued && !l.recorded)
  }

  predicate OutOfTries(l: Letter)
    requires l.task.Working?
  {
    l.task.cancelled || l.task.tries >= MAX_TRIES
  }

  /** The task is used up or cancelled where only another try could have moved the letter on:
      after a failed first send, by a crash mid-send, or by crashes before the worker could
      look at it. */
  predicate Stalls(w: World, e: Event) {
    (e.Finish? || e.Crash? || e.Stumble?) && e.id in w.letters
    && var l := w.letters[e.id];
       if e.Finish? then e.result.Failed? && l.flight.Some?
         && l.flight.value.before != RetryPending && l.task.Working? && OutOfTries(l)
       else if e.Crash? then l.status == Sending && l.task.Working? && OutOfTries(l)
       else Pending(l.status) && l.status != Held && l.task.Ready? && l.task.tries + 1 >= MAX_TRIES
  }

  lemma StallIff(w: World, e: Event, id: LetterId, pauses: bool)
    requires Fits(w, e, id) && LetterOk(w.letters[id]) && !Stalled(w.letters[id])
    ensures Stalled(After(w, e, id, pauses)) <==> Stalls(w, e) && e.id == id
  {
  }

  ghost predicate NobodyStalled(w: World) {
    forall id :: id in w.letters ==> !Stalled(w.letters[id])
  }

  lemma StepStalls(w: World, e: Event)
    requires AllOk(w) && Enabled(w, e) && NobodyStalled(w)
    ensures NobodyStalled(Apply(w, e)) <==> !Stalls(w, e)
  {
    if Stalls(w, e) {
      LetterAfter(w, e, e.id);
      StallIff(w, e, e.id, Pauses(w, e));
    } else {
      forall id | id in Apply(w, e).letters
        ensures !Stalled(Apply(w, e).letters[id])
      {
        if id in w.letters {
          LetterAfter(w, e, id);
          StallIff(w, e, id, Pauses(w, e));
        } else {
          NewLetterIsQueued(w, e, id);
        }
      }
    }
  }

  /** In every state up to the n-th. */
  ghost predicate MovingThrough(worlds: seq<World>, n: nat)
    requires n < |worlds|
  {
    NobodyStalled(worlds[n]) && (n > 0 ==> MovingThrough(worlds, n - 1))
  }

  predicate NoStall(worlds: seq<World>, events: seq<Event>, n: nat)
    requires n <= |events| < |worlds|
  {
    n > 0 ==> !Stalls(worlds[n - 1], events[n - 1]) && NoStall(worlds, events, n - 1)
  }

  lemma FirstMoves(worlds: seq<World>, events: seq<Event>)
    requires IsRun(worlds, events)
    ensures MovingThrough(worlds, 0)
  {
    assert worlds[0].letters == map[];
  }

  lemma NextMoves(worlds: seq<World>, events: seq<Event>, n: nat)
    requires IsRun(worlds, events) && 0 < n <= |events|
    ensures MovingThrough(worlds, n) <==> MovingThrough(worlds, n - 1) && !Stalls(worlds[n - 1], events[n - 1])
  {
    var w, e := worlds[n - 1], events[n - 1];
    RunKeepsInv(worlds, events, n - 1);
    assert Enabled(w, e) && worlds[n] == Apply(w, e);
    if NobodyStalled(w) {
      StepStalls(w, e);
    }
  }

  /** Every outstanding letter has a task or is picked up by planning, through the whole run, if
      and only if no step uses up or loses a task in one of the three ways. */
  lemma {:induction false} LettersMoveUnlessStalled(worlds: seq<World>, events: seq<Event>, n: nat)
    requires IsRun(worlds, events) && n <= |events|
    ensures MovingThrough(worlds, n) <==> NoStall(worlds, events, n)
  {
    if n == 0 {
      FirstMoves(worlds, events);
    } else {
      LettersMoveUnlessStalled(worlds, events, n - 1);
      NextMoves(worlds, events, n);
    }
  }

  /** A stop frees a stalled letter of the run, and a pause frees it unless it waits for a
      retry. */
  predicate Frees(w: World, e: Event, l: Letter, pauses: bool) {
    l.run == w.program.run && (e.Stop? || (l.status != RetryPending && pauses))
  }

  /** Nothing else does. */
  lemma FreedIff(w: World, e: Event, id: LetterId, pauses: bool)
    requires Fits(w, e, id) && LetterOk(w.letters[id]) && Stalled(w.letters[id])
    requires pauses ==> e.Pause? || e.Plan? || e.Begin? || e.Report?
    requires e.Plan? && pauses ==> !PlansLetters(w)
    requires e.Pause? ==> pauses || w.program.status != Running
    ensures var l, m := w.letters[id], After(w, e, id, pauses);
      if Frees(w, e, l, pauses) then !Stalled(m) else m == l
  {
  }

  lemma WhatPauses(w: World, e: Event)
    requires Enabled(w, e) && Pauses(w, e)
    ensures e.Pause? || (e.Plan? && !PlansLetters(w)) || e.Begin? || e.Report?
  {
  }

  /** A stalled letter stays as it is, whatever step comes, until it is freed. */
  lemma StalledStaysIff(w: World, e: Event, id: LetterId)
    requires AllOk(w) && Enabled(w, e) && id in w.letters && Stalled(w.letters[id])
    ensures id in Apply(w, e).letters
    ensures var l, m := w.letters[id], Apply(w, e).letters[id];
      if Frees(w, e, l, Pauses(w, e)) then !Stalled(m) else m == l
  {
    LetterAfter(w, e, id);
    if Pauses(w, e) {
      WhatPauses(w, e);
    }
    FreedIff(w, e, id, Pauses(w, e));
  }

  ghost predicate HeldUp(worlds: seq<World>, events: seq<Event>, k: nat, id: LetterId) {
    && k < |events| && k + 1 < |worlds| && id in worlds[k].letters && Enabled(worlds[k], events[k])
    && !Frees(worlds[k], events[k], worlds[k].letters[id], Pauses(worlds[k], events[k]))
    && worlds[k + 1].program.run == worlds[k].program.run
  }

  predicate HoldsDay(w: World, id: LetterId) {
    id in w.letters && Stalled(w.letters[id])
      && w.letters[id].run == w.program.run && w.letters[id].day == w.program.day
  }

  lemma HeldUpStep(worlds: seq<World>, events: seq<Event>, k: nat, id: LetterId)
    requires IsRun(worlds, events) && HeldUp(worlds, events, k, id) && HoldsDay(worlds[k], id)
    ensures HoldsDay(worlds[k + 1], id) && worlds[k + 1].program.day == worlds[k].program.day
  {
    RunKeepsInv(worlds, events, k);
    StalledStaysIff(worlds[k], events[k], id);
    assert id in OfDay(worlds[k]);
    StepKeepsOrder(worlds[k], events[k]);
  }

  /** A stalled letter keeps its day from ending, until it is freed or a new run begins. */
  lemma {:induction false} StalledHoldsTheDay(worlds: seq<World>, events: seq<Event>, i: nat, j: nat, id: LetterId)
    requires IsRun(worlds, events) && i <= j <= |events| && HoldsDay(worlds[i], id)
    requires forall k :: i <= k < j ==> HeldUp(worlds, events, k, id)
    ensures HoldsDay(worlds[j], id) && worlds[j].program.day == worlds[i].program.day
    decreases j
  {
    if i < j {
      StalledHoldsTheDay(worlds, events, i, j - 1, id);
      assert HeldUp(worlds, events, j - 1, id);
      HeldUpStep(worlds, events, j - 1, id);
    }
  }

  /** One way to stall: a first send fails after a pause came mid-send and cancelled its task. */
  lemma PauseMidSendLosesRetry(w: World, id: LetterId, kept: set<LetterId>, left: bool)
    requires w.program.status == Running && id in w.letters && id !in kept
    requires var l := w.letters[id];
      && l.run == w.program.run && l.day == w.program.day
      && l.status == Sending && l.flight.Some? && l.flight.value.before != RetryPending && l.recorded && l.task.Working?
    ensures var paused := PauseProgram(w, kept);
      && Enabled(paused, Finish(id, Failed(left))) && Stalls(paused, Finish(id, Failed(left)))
      && HoldsDay(ResumeStep(FinishStep(paused, id, Failed(left)), true), id)
  {
    var paused := PauseProgram(w, kept);
    assert paused.letters[id] == PauseLetter(w.letters[id], w.program.run, false);
  }
}
