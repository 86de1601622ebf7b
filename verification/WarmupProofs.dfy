/** What every run of the warmup keeps, and what follows from it. */
module WarmupProofs {
  import opened Common
  import opened DayPlanner
  import opened WarmupModel

  // ---- One letter ----

  /** The failed sends a letter may have had beyond the times it was put back. */
  function Allowance(l: Letter): nat {
    match l.status
    case Queued => 0
    case Held => 0
    case Errored => 2
    case Sending => if FirstTry(l) then 0 else 1
    case Unknown => if FirstTry(l) then 0 else 1
    case _ => 1
  }

  /** Being sent, or left behind by a worker, without an earlier failure. */
  predicate FirstTry(l: Letter) {
    if l.flight.Some? then l.flight.value.before != RetryPending else l.task.Ready?
  }

  predicate InFlightOk(l: Letter) {
    l.flight.Some? ==>
      && (l.status == Sending || l.status == Unknown)
      && l.flight.value.before in {Queued, Held, RetryPending, Unknown}
      && l.flight.value.recipient == l.recipient
      && l.past.accepted == 0
  }

  predicate TaskOk(l: Letter) {
    && (l.flight.Some? <==> l.task.Working?)
    && (l.task.Working? ==> l.task.tries >= 1)
    && (l.status == Queued && l.task.Ready? ==> l.recorded)
    && (l.status == Unknown ==> !l.recorded)
    && (l.status in {RetryPending, Sending, Unknown} && l.task.Ready? ==> l.task.tries >= 1)
    && (l.flight.Some? && l.flight.value.before == RetryPending ==> l.task.tries >= MAX_TRIES)
  }

  predicate PastOk(l: Letter) {
    && l.past.accepted == (if Sent(l.status) then 1 else 0)
    && l.past.failures <= l.past.holds + Allowance(l)
    && (l.status == Unknown ==> l.past.interrupted)
    && (l.past.crashes >= 1 && !l.past.interrupted ==> (l.status == Sending && l.flight.None?) || l.status == Errored)
  }

  predicate DayOk(p: Program, l: Letter) {
    && l.run <= p.run
    && (l.run == p.run ==> 1 <= l.day <= p.day)
    && (l.run == p.run && l.day < p.day && !l.past.interrupted ==> !Pending(l.status) && l.flight.None?)
  }

  predicate LetterOk(l: Letter) {
    && (Sent(l.status) <==> l.providerId.Some?)
    && InFlightOk(l)
    && TaskOk(l)
    && PastOk(l)
  }

  lemma InterruptOk(p: Program, l: Letter, kept: bool)
    requires LetterOk(l) && DayOk(p, l) && l.status == Sending
    ensures var m := Interrupt(Detach(l, Unknown, kept)); LetterOk(m) && DayOk(p, m)
  {
  }

  lemma PauseLetterOk(p: Program, l: Letter, run: nat, kept: bool)
    requires LetterOk(l) && DayOk(p, l)
    ensures LetterOk(PauseLetter(l, run, kept)) && DayOk(p, PauseLetter(l, run, kept))
  {
    if l.status == Sending {
      InterruptOk(p, l, kept);
    }
  }

  lemma StopLetterOk(p: Program, l: Letter, run: nat, kept: bool)
    requires LetterOk(l) && DayOk(p, l)
    ensures LetterOk(StopLetter(l, run, kept)) && DayOk(p, StopLetter(l, run, kept))
  {
    if l.status == Sending {
      InterruptOk(p, l, kept);
    }
  }

  lemma EnqueueLetterOk(p: Program, l: Letter)
    requires LetterOk(l) && DayOk(p, l)
    ensures LetterOk(EnqueueLetter(l, p)) && DayOk(p, EnqueueLetter(l, p))
  {
  }

  lemma TakeOffOk(p: Program, l: Letter, r: RecipientId)
    requires LetterOk(l) && DayOk(p, l) && l.task.Ready? && !Finished(l.status) && l.status != Sending
    ensures LetterOk(TakeOff(l, r)) && DayOk(p, TakeOff(l, r))
  {
  }

  lemma GiveUpOk(p: Program, l: Letter, s: LetterStatus)
    requires LetterOk(l) && DayOk(p, l) && l.task.Ready? && !Finished(l.status)
    requires if l.status == Sending then s == Errored else s == Dropped
    ensures LetterOk(GiveUp(l, s)) && DayOk(p, GiveUp(l, s))
  {
  }

  lemma PutBackOk(p: Program, l: Letter)
    requires LetterOk(l) && DayOk(p, l) && l.task.Ready? && !Finished(l.status) && l.status != Sending
    ensures LetterOk(PutBack(l)) && DayOk(p, PutBack(l))
  {
  }

  lemma CrashedOk(p: Program, l: Letter)
    requires LetterOk(l) && DayOk(p, l) && l.flight.Some?
    ensures LetterOk(Crashed(l)) && DayOk(p, Crashed(l))
  {
  }

  lemma StumbledOk(p: Program, l: Letter)
    requires LetterOk(l) && DayOk(p, l) && l.task.Ready?
    ensures LetterOk(Stumbled(l)) && DayOk(p, Stumbled(l))
  {
  }

  lemma LandOk(p: Program, l: Letter, result: NetworkResult)
    requires LetterOk(l) && DayOk(p, l) && l.flight.Some?
    ensures LetterOk(Land(l, result)) && DayOk(p, Land(l, result))
  {
  }

  // ---- The whole world ----

  ghost predicate AllOk(w: World) {
    forall id :: id in w.letters ==>
      LetterOk(w.letters[id]) && DayOk(w.program, w.letters[id]) && w.letters[id].recipient in w.recipients
  }

  /** Conservation: what a recipient is credited with are the sent letters that point to it. */
  ghost predicate CountsOk(w: World) {
    forall r :: r in w.recipients ==> w.recipients[r].sentCount == |SentTo(w.letters, r)|
  }

  ghost predicate NumbersOk(w: World) {
    forall a, b :: a in w.letters && b in w.letters && a != b
      && w.letters[a].run == w.letters[b].run && w.letters[a].day == w.letters[b].day
      ==> w.letters[a].number != w.letters[b].number
  }

  /** No complaint, at most two soft bounces, and under five hard bounces in a hundred. */
  ghost predicate Healthy(letters: map<LetterId, Letter>, run: nat) {
    var total, hard := |With(letters, run, SENT)|, |With(letters, run, {HardBounced})|;
    && With(letters, run, {Complained}) == {}
    && |With(letters, run, {SoftBounced})| <= 2
    && (hard == 0 || 20 * hard < total)
  }

  ghost predicate Core(w: World) {
    && AllOk(w) && CountsOk(w) && NumbersOk(w)
    && w.program.run >= 1 && w.program.day >= 1
    && (w.program.status == Draft ==> w.letters == map[])
  }

  ghost predicate HealthOk(w: World) {
    w.program.status == Running && !w.restarted ==> Healthy(w.letters, w.program.run)
  }

  ghost predicate Inv(w: World) {
    Core(w) && HealthOk(w)
  }

  // ---- Changes that do not touch what was sent ----

  ghost predicate Quiet(a: map<LetterId, Letter>, b: map<LetterId, Letter>) {
    && a.Keys <= b.Keys
    && (forall id :: id in a ==> b[id].run == a[id].run && b[id].day == a[id].day && b[id].number == a[id].number)
    && (forall id ::
      id in a && (Sent(a[id].status) || Sent(b[id].status))
      ==> b[id].status == a[id].status && b[id].recipient == a[id].recipient)
    && (forall id :: id in b && id !in a ==> !Sent(b[id].status))
  }

  lemma QuietKeepsSets(a: map<LetterId, Letter>, b: map<LetterId, Letter>, run: nat, statuses: set<LetterStatus>)
    requires Quiet(a, b) && statuses <= SENT
    ensures With(b, run, statuses) == With(a, run, statuses)
  {
  }

  lemma QuietKeepsSentTo(a: map<LetterId, Letter>, b: map<LetterId, Letter>, r: RecipientId)
    requires Quiet(a, b)
    ensures SentTo(b, r) == SentTo(a, r)
  {
  }

  lemma QuietKeepsHealth(a: map<LetterId, Letter>, b: map<LetterId, Letter>, run: nat)
    requires Quiet(a, b) && Healthy(a, run)
    ensures Healthy(b, run)
  {
    QuietKeepsSets(a, b, run, SENT);
    QuietKeepsSets(a, b, run, {HardBounced});
    QuietKeepsSets(a, b, run, {SoftBounced});
    QuietKeepsSets(a, b, run, {Complained});
  }

  ghost predicate SameSent(a: map<RecipientId, Recipient>, b: map<RecipientId, Recipient>) {
    && a.Keys <= b.Keys
    && (forall r :: r in a ==> b[r].sentCount == a[r].sentCount)
    && (forall r :: r in b && r !in a ==> b[r].sentCount == 0)
  }

  lemma NothingSentToStrangers(w: World, r: RecipientId)
    requires AllOk(w) && r !in w.recipients
    ensures SentTo(w.letters, r) == {}
  {
  }

  lemma QuietKeepsCounts(w: World, v: World)
    requires AllOk(w) && CountsOk(w) && Quiet(w.letters, v.letters) && SameSent(w.recipients, v.recipients)
    ensures CountsOk(v)
  {
    forall r | r in v.recipients
      ensures v.recipients[r].sentCount == |SentTo(v.letters, r)|
    {
      QuietKeepsSentTo(w.letters, v.letters, r);
      if r !in w.recipients {
        NothingSentToStrangers(w, r);
      }
    }
  }

  /** A step that changes letters quietly and adds none. */
  lemma QuietKeepsCore(w: World, v: World)
    requires Core(w) && AllOk(v)
    requires Quiet(w.letters, v.letters) && v.letters.Keys == w.letters.Keys && SameSent(w.recipients, v.recipients)
    requires v.program.run >= 1 && v.program.day >= 1
    requires v.program.status == Draft ==> w.program.status == Draft
    ensures Core(v)
  {
    QuietKeepsCounts(w, v);
  }

  lemma QuietStep(w: World, v: World)
    requires Inv(w) && AllOk(v)
    requires Quiet(w.letters, v.letters) && v.letters.Keys == w.letters.Keys && SameSent(w.recipients, v.recipients)
    requires v.program == w.program && v.restarted == w.restarted
    ensures Inv(v)
  {
    QuietKeepsCore(w, v);
    if w.program.status == Running && !w.restarted {
      QuietKeepsHealth(w.letters, v.letters, w.program.run);
    }
  }

  lemma PauseKeepsLetters(w: World, kept: set<LetterId>)
    requires AllOk(w)
    ensures AllOk(PauseProgram(w, kept))
  {
    var v := PauseProgram(w, kept);
    forall id | id in v.letters
      ensures LetterOk(v.letters[id]) && DayOk(v.program, v.letters[id]) && v.letters[id].recipient in v.recipients
    {
      PauseLetterOk(w.program, w.letters[id], w.program.run, id in kept);
    }
  }

  lemma PauseIsQuiet(w: World, kept: set<LetterId>)
    ensures Quiet(w.letters, PauseProgram(w, kept).letters)
  {
  }

  lemma PauseKeepsInv(w: World, kept: set<LetterId>)
    requires Core(w)
    ensures Inv(PauseProgram(w, kept))
  {
    PauseKeepsLetters(w, kept);
    PauseIsQuiet(w, kept);
    QuietKeepsCore(w, PauseProgram(w, kept));
  }

  lemma StopKeepsLetters(w: World, kept: set<LetterId>)
    requires AllOk(w)
    ensures AllOk(StopStep(w, kept))
  {
    var v := StopStep(w, kept);
    forall id | id in v.letters
      ensures LetterOk(v.letters[id]) && DayOk(v.program, v.letters[id]) && v.letters[id].recipient in v.recipients
    {
      StopLetterOk(w.program, w.letters[id], w.program.run, id in kept);
    }
  }

  lemma StopIsQuiet(w: World, kept: set<LetterId>)
    ensures Quiet(w.letters, StopStep(w, kept).letters)
  {
  }

  lemma StopKeepsInv(w: World, kept: set<LetterId>)
    requires Inv(w)
    ensures Inv(StopStep(w, kept))
  {
    StopKeepsLetters(w, kept);
    StopIsQuiet(w, kept);
    QuietKeepsCore(w, StopStep(w, kept));
  }

  lemma NoLettersOfLaterRuns(w: World, run: nat, statuses: set<LetterStatus>)
    requires AllOk(w) && run > w.program.run
    ensures With(w.letters, run, statuses) == {}
  {
  }

  lemma StartKeepsInv(w: World, allowed: bool)
    requires Inv(w)
    ensures Inv(StartStep(w, allowed))
  {
    var v := StartStep(w, allowed);
    if v.program.run > w.program.run {
      NoLettersOfLaterRuns(w, v.program.run, SENT);
      NoLettersOfLaterRuns(w, v.program.run, {HardBounced});
      NoLettersOfLaterRuns(w, v.program.run, {SoftBounced});
      NoLettersOfLaterRuns(w, v.program.run, {Complained});
    }
  }

  lemma ClosedDayIsOver(w: World, l: Letter)
    requires LetterOk(l) && DayOk(w.program, l)
    requires l.run == w.program.run && l.day == w.program.day ==> !Pending(l.status)
    ensures DayOk(w.program.(day := w.program.day + 1), l)
  {
  }

  ghost predicate DayIsClosed(w: World) {
    forall id :: id in OfDay(w) ==> !Pending(w.letters[id].status)
  }

  function NextDay(w: World, status: ProgramStatus): World {
    w.(program := w.program.(day := w.program.day + 1, status := status))
  }

  lemma NextDayKeepsLetters(w: World, status: ProgramStatus)
    requires AllOk(w) && DayIsClosed(w)
    ensures AllOk(NextDay(w, status))
  {
    forall id | id in w.letters
      ensures DayOk(NextDay(w, status).program, w.letters[id])
    {
      assert id in OfDay(w) ==> !Pending(w.letters[id].status);
      ClosedDayIsOver(w, w.letters[id]);
    }
  }

  lemma NextDayKeepsInv(w: World, status: ProgramStatus)
    requires Inv(w) && DayIsClosed(w) && w.program.status == Running && (status == Running || status == Completed)
    ensures Inv(NextDay(w, status))
  {
    NextDayKeepsLetters(w, status);
    assert CountsOk(NextDay(w, status)) && NumbersOk(NextDay(w, status));
  }

  lemma AdvanceIsNextDay(w: World, day: nat)
    ensures var v := AdvanceStep(w, day);
      v == w
        || (DayIsClosed(w) && w.program.status == Running && (v == NextDay(w, Running) || v == NextDay(w, Completed)))
  {
  }

  lemma AdvanceKeepsInv(w: World, day: nat)
    requires Inv(w)
    ensures Inv(AdvanceStep(w, day))
  {
    AdvanceIsNextDay(w, day);
    if AdvanceStep(w, day) != w {
      NextDayKeepsInv(w, AdvanceStep(w, day).program.status);
    }
  }

  /** Replacing one letter quietly, and recipients without touching what they were sent. */
  lemma OneLetter(w: World, id: LetterId, l: Letter, recipients: map<RecipientId, Recipient>)
    requires Inv(w) && id in w.letters && LetterOk(l) && DayOk(w.program, l) && l.recipient in w.recipients
    requires var was := w.letters[id];
      && l.run == was.run && l.day == was.day && l.number == was.number
      && (Sent(was.status) || Sent(l.status) ==> l.status == was.status && l.recipient == was.recipient)
    requires SameSent(w.recipients, recipients)
    ensures Inv(w.(letters := w.letters[id := l], recipients := recipients))
  {
    QuietStep(w, w.(letters := w.letters[id := l], recipients := recipients));
  }

  lemma PutBackKeepsInv(w: World, id: LetterId)
    requires Inv(w) && id in w.letters
    requires var l := w.letters[id]; l.task.Ready? && !Finished(l.status) && l.status != Sending
    ensures Inv(w.(letters := w.letters[id := PutBack(w.letters[id])]))
  {
    PutBackOk(w.program, w.letters[id]);
    OneLetter(w, id, PutBack(w.letters[id]), w.recipients);
  }

  lemma AbandonKeepsInv(w: World, id: LetterId)
    requires Inv(w) && id in w.letters && w.letters[id].task.Ready? && w.letters[id].status == Sending
    ensures Inv(w.(letters := w.letters[id := GiveUp(w.letters[id], Errored)],
      recipients := Update(w.recipients, w.letters[id].recipient, Miss)))
  {
    GiveUpOk(w.program, w.letters[id], Errored);
    OneLetter(w, id, GiveUp(w.letters[id], Errored), Update(w.recipients, w.letters[id].recipient, Miss));
  }

  lemma SkipKeepsInv(w: World, id: LetterId)
    requires Inv(w) && id in w.letters && w.letters[id].task.Ready? && Finished(w.letters[id].status)
    ensures Inv(w.(letters := w.letters[id := w.letters[id].(task := NoTask)]))
  {
    OneLetter(w, id, w.letters[id].(task := NoTask), w.recipients);
  }

  lemma BeginKeepsInv(w: World, id: LetterId, blocked: bool, replacement: RecipientId, kept: set<LetterId>)
    requires Inv(w) && Enabled(w, Begin(id, blocked, replacement, kept))
    ensures Inv(BeginStep(w, id, blocked, replacement, kept))
  {
    var l, p := w.letters[id], w.program;
    if Finished(l.status) {
      SkipKeepsInv(w, id);
    } else if l.status == Sending {
      AbandonKeepsInv(w, id);
    } else if p.status != Running || blocked {
      PutBackKeepsInv(w, id);
    } else if IsActive(w.recipients, l.recipient) {
      TakeOffOk(p, l, l.recipient);
      OneLetter(w, id, TakeOff(l, l.recipient), w.recipients);
    } else if ActiveOnes(w.recipients) == {} || p.fixed {
      GiveUpOk(p, l, Dropped);
      OneLetter(w, id, GiveUp(l, Dropped), w.recipients);
      PauseKeepsInv(w.(letters := w.letters[id := GiveUp(l, Dropped)]), kept);
    } else {
      TakeOffOk(p, l, replacement);
      OneLetter(w, id, TakeOff(l, replacement), w.recipients);
    }
  }

  lemma CrashKeepsInv(w: World, id: LetterId, left: bool)
    requires Inv(w) && Enabled(w, Crash(id, left))
    ensures Inv(CrashStep(w, id))
  {
    CrashedOk(w.program, w.letters[id]);
    OneLetter(w, id, Crashed(w.letters[id]), w.recipients);
  }

  lemma StumbleKeepsInv(w: World, id: LetterId)
    requires Inv(w) && Enabled(w, Stumble(id))
    ensures Inv(StumbleStep(w, id))
  {
    StumbledOk(w.program, w.letters[id]);
    OneLetter(w, id, Stumbled(w.letters[id]), w.recipients);
  }

  // ---- Sending ----

  lemma SentGrows(a: map<LetterId, Letter>, id: LetterId, l: Letter, run: nat)
    requires id in a && !Sent(a[id].status) && l.status == Accepted && l.run == a[id].run
    ensures With(a[id := l], run, SENT) == With(a, run, SENT) + if l.run == run then {id} else {}
    ensures With(a[id := l], run, {HardBounced}) == With(a, run, {HardBounced})
    ensures With(a[id := l], run, {SoftBounced}) == With(a, run, {SoftBounced})
    ensures With(a[id := l], run, {Complained}) == With(a, run, {Complained})
  {
  }

  lemma CreditGrows(a: map<LetterId, Letter>, id: LetterId, l: Letter, r: RecipientId)
    requires id in a && !Sent(a[id].status) && l.status == Accepted
    ensures SentTo(a[id := l], r) == SentTo(a, r) + if l.recipient == r then {id} else {}
  {
  }

  lemma CreditIsCounted(w: World, id: LetterId, l: Letter, r: RecipientId)
    requires CountsOk(w) && id in w.letters && !Sent(w.letters[id].status) && l.status == Accepted && r in w.recipients
    ensures |SentTo(w.letters[id := l], r)| == w.recipients[r].sentCount + if l.recipient == r then 1 else 0
  {
    CreditGrows(w.letters, id, l, r);
    assert id !in SentTo(w.letters, r);
  }

  lemma TakenKeepsCounts(w: World, id: LetterId, m: string)
    requires AllOk(w) && CountsOk(w) && Enabled(w, Finish(id, Taken(m)))
    ensures CountsOk(FinishStep(w, id, Taken(m)))
  {
    var l := Land(w.letters[id], Taken(m));
    assert LetterOk(w.letters[id]);
    forall r | r in w.recipients
      ensures |SentTo(w.letters[id := l], r)| == w.recipients[r].sentCount + if l.recipient == r then 1 else 0
    {
      CreditIsCounted(w, id, l, r);
    }
  }

  lemma HealthGrows(a: map<LetterId, Letter>, id: LetterId, l: Letter, run: nat)
    requires Healthy(a, run) && id in a && !Sent(a[id].status) && l.status == Accepted && l.run == a[id].run
    ensures Healthy(a[id := l], run)
  {
    SentGrows(a, id, l, run);
    assert id !in With(a, run, SENT);
  }

  lemma TakenKeepsHealth(w: World, id: LetterId, m: string)
    requires AllOk(w) && Enabled(w, Finish(id, Taken(m))) && Healthy(w.letters, w.program.run)
    ensures Healthy(FinishStep(w, id, Taken(m)).letters, w.program.run)
  {
    assert LetterOk(w.letters[id]);
    HealthGrows(w.letters, id, Land(w.letters[id], Taken(m)), w.program.run);
  }

  lemma TakenKeepsLetters(w: World, id: LetterId, m: string)
    requires AllOk(w) && Enabled(w, Finish(id, Taken(m)))
    ensures AllOk(FinishStep(w, id, Taken(m)))
  {
    LandOk(w.program, w.letters[id], Taken(m));
  }

  lemma TakenKeepsInv(w: World, id: LetterId, m: string)
    requires Inv(w) && Enabled(w, Finish(id, Taken(m)))
    ensures Inv(FinishStep(w, id, Taken(m)))
  {
    TakenKeepsLetters(w, id, m);
    TakenKeepsCounts(w, id, m);
    if w.program.status == Running && !w.restarted {
      TakenKeepsHealth(w, id, m);
    }
  }

  lemma FinishKeepsInv(w: World, id: LetterId, result: NetworkResult)
    requires Inv(w) && Enabled(w, Finish(id, result))
    ensures Inv(FinishStep(w, id, result))
  {
    var l := w.letters[id];
    LandOk(w.program, l, result);
    match result
    case Taken(m) => TakenKeepsInv(w, id, m);
    case Failed(_) => OneLetter(w, id, Land(l, result), Update(w.recipients, l.flight.value.recipient, Miss));
    case Suspended => OneLetter(w, id, Land(l, result), w.recipients);
  }

  // ---- Provider reports ----

  predicate Reportable(w: World, id: LetterId, status: LetterStatus) {
    id in w.letters && w.letters[id].providerId.Some? && status in {Delivered, HardBounced, SoftBounced, Complained}
  }

  lemma ReportKeepsLetters(w: World, id: LetterId, status: LetterStatus)
    requires AllOk(w) && Reportable(w, id, status)
    ensures AllOk(Reported(w, id, status))
  {
    assert LetterOk(w.letters[id]);
  }

  lemma ReportKeepsSentTo(w: World, id: LetterId, status: LetterStatus, r: RecipientId)
    requires id in w.letters && Sent(w.letters[id].status) && Sent(status)
    ensures SentTo(Reported(w, id, status).letters, r) == SentTo(w.letters, r)
  {
  }

  lemma ReportKeepsCounts(w: World, id: LetterId, status: LetterStatus)
    requires AllOk(w) && CountsOk(w) && Reportable(w, id, status)
    ensures CountsOk(Reported(w, id, status))
  {
    assert LetterOk(w.letters[id]);
    var v := Reported(w, id, status);
    forall r | r in v.recipients
      ensures v.recipients[r].sentCount == |SentTo(v.letters, r)|
    {
      ReportKeepsSentTo(w, id, status, r);
      assert v.recipients[r].sentCount == w.recipients[r].sentCount;
    }
  }

  lemma ReportKeepsNumbers(w: World, id: LetterId, status: LetterStatus)
    requires NumbersOk(w) && id in w.letters
    ensures NumbersOk(Reported(w, id, status))
  {
  }

  lemma ReportKeepsCore(w: World, id: LetterId, status: LetterStatus)
    requires Core(w) && Reportable(w, id, status)
    ensures Core(Reported(w, id, status))
  {
    ReportKeepsLetters(w, id, status);
    ReportKeepsCounts(w, id, status);
    ReportKeepsNumbers(w, id, status);
  }

  /** Only the reported kind can gain a letter; the sent letters stay the same. */
  lemma ReportMoves(a: map<LetterId, Letter>, id: LetterId, status: LetterStatus, run: nat, kind: LetterStatus)
    requires id in a && Sent(a[id].status) && Sent(status)
    ensures var b := a[id := a[id].(status := status)];
      && With(b, run, SENT) == With(a, run, SENT)
      && (kind != status ==> With(b, run, {kind}) <= With(a, run, {kind}))
      && (a[id].run != run ==> With(b, run, {kind}) == With(a, run, {kind}))
  {
  }

  lemma ReportKeepsHealth(a: map<LetterId, Letter>, id: LetterId, status: LetterStatus, run: nat)
    requires id in a && Sent(a[id].status) && status in {Delivered, HardBounced, SoftBounced, Complained}
    requires Healthy(a, run) && !Alarming(a[id := a[id].(status := status)], run, status)
    ensures Healthy(a[id := a[id].(status := status)], run)
  {
    var b := a[id := a[id].(status := status)];
    ReportMoves(a, id, status, run, HardBounced);
    ReportMoves(a, id, status, run, SoftBounced);
    ReportMoves(a, id, status, run, Complained);
    if status != HardBounced {
      SubsetSize(With(b, run, {HardBounced}), With(a, run, {HardBounced}));
    } else {
      SubsetSize(With(b, run, {HardBounced}), With(b, run, SENT));
    }
    if status != SoftBounced {
      SubsetSize(With(b, run, {SoftBounced}), With(a, run, {SoftBounced}));
    }
  }

  lemma ReportKeepsInv(w: World, id: LetterId, status: LetterStatus, kept: set<LetterId>)
    requires Inv(w) && Enabled(w, Report(id, status, kept))
    ensures Inv(ReportStep(w, id, status, kept))
  {
    assert LetterOk(w.letters[id]);
    var next := Reported(w, id, status);
    if w.letters[id].status != status {
      ReportKeepsCore(w, id, status);
      if w.program.status == Running && Alarming(next.letters, w.program.run, status) {
        PauseKeepsInv(next, kept);
      } else if w.program.status == Running && !w.restarted {
        ReportKeepsHealth(w.letters, id, status, w.program.run);
      }
    }
  }

  // ---- Planning ----

  lemma {:induction false} RoundMember(
      recipients: seq<RecipientId>, perDay: map<RecipientId, int>, already: map<RecipientId, nat>, q: nat)
    ensures forall r :: r in Round(recipients, perDay, already, q) ==> r in recipients
  {
    if recipients != [] {
      RoundMember(recipients[..|recipients| - 1], perDay, already, q);
    }
  }

  lemma {:induction false} DemandMember(
      recipients: seq<RecipientId>, perDay: map<RecipientId, int>, already: map<RecipientId, nat>, rounds: nat)
    ensures forall r :: r in Demand(recipients, perDay, already, rounds) ==> r in recipients
  {
    if rounds > 0 {
      DemandMember(recipients, perDay, already, rounds - 1);
      RoundMember(recipients, perDay, already, rounds - 1);
    }
  }

  /** The planned slots name active recipients and numbers that are new and differ. */
  ghost predicate GoodSlots(slots: seq<Slot>, order: seq<RecipientId>, taken: set<nat>) {
    && (forall i :: 0 <= i < |slots| ==> slots[i].recipient in order)
    && (forall i :: 0 <= i < |slots| ==> slots[i].number !in taken)
    && (forall i, j :: 0 <= i < j < |slots| ==> slots[i].number < slots[j].number)
  }

  lemma FixedSlotsFacts(
      order: seq<RecipientId>, quotas: map<RecipientId, int>, planned: map<RecipientId, nat>, taken: set<nat>)
    ensures GoodSlots(Fixed(order, quotas, planned, taken), order, taken)
  {
    var slots := Fixed(order, quotas, planned, taken);
    DemandMember(order, quotas, planned, MaxQuota(order, quotas));
    FixedNumbersAreFresh(order, quotas, planned, taken);
    forall i | 0 <= i < |slots|
      ensures slots[i].number !in taken
    {
      assert slots[i] in slots;
      assert slots[i].number in Numbers(slots);
    }
  }

  lemma GrowthSlotsFacts(order: seq<RecipientId>, target: nat, taken: set<nat>)
    requires order != []
    ensures GoodSlots(Growth(order, target, taken), order, taken)
  {
    GrowthFillsGaps(order, target, taken);
  }

  lemma SlotsFacts(w: World, order: seq<RecipientId>)
    requires order != [] && 1 <= w.program.day <= PlanLength(w.program)
    ensures GoodSlots(Slots(w, order), order, TakenNumbers(w))
  {
    if w.program.fixed {
      FixedSlotsFacts(order, Quotas(w), PlannedByRecipient(w), TakenNumbers(w));
    } else {
      GrowthSlotsFacts(order, Quota(w.program.plan[w.program.day - 1]), TakenNumbers(w));
    }
  }

  lemma {:induction false} OldLettersStay(
      letters: map<LetterId, Letter>, slots: seq<Slot>, ids: seq<LetterId>, p: Program, id: LetterId)
    requires |ids| == |slots| && NewIds(letters, ids)
    ensures var all := WithNewLetters(letters, slots, ids, p);
      && (id in letters ==> id in all && all[id] == letters[id])
      && (id in all && id !in letters ==> id in ids)
  {
    if slots != [] {
      var n := |slots| - 1;
      OldLettersStay(letters, slots[..n], ids[..n], p, id);
    }
  }

  lemma {:induction false} NewLetterAt(
      letters: map<LetterId, Letter>, slots: seq<Slot>, ids: seq<LetterId>, p: Program, i: nat)
    requires |ids| == |slots| && NewIds(letters, ids) && i < |ids|
    ensures var all := WithNewLetters(letters, slots, ids, p); ids[i] in all && all[ids[i]] == NewLetter(slots[i], p)
  {
    var n := |slots| - 1;
    if i < n {
      NewLetterAt(letters, slots[..n], ids[..n], p, i);
      assert ids[i] != ids[n];
    }
  }

  lemma NewLettersFacts(letters: map<LetterId, Letter>, slots: seq<Slot>, ids: seq<LetterId>, p: Program)
    requires |ids| == |slots| && NewIds(letters, ids)
    ensures var all := WithNewLetters(letters, slots, ids, p);
      && (forall id :: id in letters ==> id in all && all[id] == letters[id])
      && (forall i :: 0 <= i < |ids| ==> ids[i] in all && all[ids[i]] == NewLetter(slots[i], p))
      && (forall id :: id in all && id !in letters ==> id in ids)
  {
    var all := WithNewLetters(letters, slots, ids, p);
    forall id
      ensures id in letters ==> id in all && all[id] == letters[id]
      ensures id in all && id !in letters ==> id in ids
    {
      OldLettersStay(letters, slots, ids, p, id);
    }
    forall i | 0 <= i < |ids|
      ensures ids[i] in all && all[ids[i]] == NewLetter(slots[i], p)
    {
      NewLetterAt(letters, slots, ids, p, i);
    }
  }

  predicate IsNew(w: World, l: Letter) {
    && l.status == Queued && l.task == NoTask && !l.recorded && l.flight == None
    && l.providerId == None && l.past == NOTHING
    && l.run == w.program.run && l.day == w.program.day
    && l.recipient in w.recipients && l.number !in TakenNumbers(w)
  }

  /** Everything about the letters that planning adds. */
  ghost predicate Inserted(w: World, all: map<LetterId, Letter>) {
    && (forall id :: id in w.letters ==> id in all && all[id] == w.letters[id])
    && (forall id :: id in all && id !in w.letters ==> IsNew(w, all[id]))
    && (forall a, b ::
      a in all && b in all && a !in w.letters && b !in w.letters && a != b ==> all[a].number != all[b].number)
  }

  lemma InsertedAt(
      letters: map<LetterId, Letter>, slots: seq<Slot>, ids: seq<LetterId>, p: Program, id: LetterId)
    returns (i: nat)
    requires |ids| == |slots| && NewIds(letters, ids)
    requires id in WithNewLetters(letters, slots, ids, p) && id !in letters
    ensures i < |ids| && ids[i] == id && WithNewLetters(letters, slots, ids, p)[id] == NewLetter(slots[i], p)
  {
    OldLettersStay(letters, slots, ids, p, id);
    i :| 0 <= i < |ids| && ids[i] == id;
    NewLetterAt(letters, slots, ids, p, i);
  }

  lemma SlotsInsert(w: World, slots: seq<Slot>, ids: seq<LetterId>)
    requires |ids| == |slots| && NewIds(w.letters, ids)
    requires forall i :: 0 <= i < |slots| ==> slots[i].recipient in w.recipients && slots[i].number !in TakenNumbers(w)
    requires forall i, j :: 0 <= i < j < |slots| ==> slots[i].number < slots[j].number
    ensures Inserted(w, WithNewLetters(w.letters, slots, ids, w.program))
  {
    var all := WithNewLetters(w.letters, slots, ids, w.program);
    forall id | id in w.letters
      ensures id in all && all[id] == w.letters[id]
    {
      OldLettersStay(w.letters, slots, ids, w.program, id);
    }
    forall id | id in all && id !in w.letters
      ensures IsNew(w, all[id])
    {
      var i := InsertedAt(w.letters, slots, ids, w.program, id);
    }
    forall a, b | a in all && b in all && a !in w.letters && b !in w.letters && a != b
      ensures all[a].number != all[b].number
    {
      var i := InsertedAt(w.letters, slots, ids, w.program, a);
      var j := InsertedAt(w.letters, slots, ids, w.program, b);
      assert i < j || j < i;
    }
  }

  lemma PlanInserts(w: World, order: seq<RecipientId>, ids: seq<LetterId>, kept: set<LetterId>)
    requires PlansLetters(w) && Enabled(w, Plan(order, ids, kept))
    ensures Inserted(w, WithNewLetters(w.letters, Slots(w, order), ids, w.program))
  {
    SlotsFacts(w, order);
    assert forall r :: r in order ==> IsActive(w.recipients, r);
    SlotsInsert(w, Slots(w, order), ids);
  }

  lemma InsertedNumbers(w: World, all: map<LetterId, Letter>, a: LetterId, b: LetterId)
    requires NumbersOk(w) && Inserted(w, all) && a in all && b in all && a != b
    requires all[a].run == all[b].run && all[a].day == all[b].day
    ensures all[a].number != all[b].number
  {
    if a in w.letters && b !in w.letters {
      assert a in OfDay(w) && w.letters[a].number in TakenNumbers(w);
    } else if a !in w.letters && b in w.letters {
      assert b in OfDay(w) && w.letters[b].number in TakenNumbers(w);
    }
  }

  lemma InsertedLettersOk(w: World, all: map<LetterId, Letter>, id: LetterId)
    requires AllOk(w) && Inserted(w, all) && id in all && w.program.day >= 1
    ensures var l := EnqueueLetter(all[id], w.program);
      LetterOk(l) && DayOk(w.program, l) && l.recipient in w.recipients
  {
    if id in w.letters {
      EnqueueLetterOk(w.program, all[id]);
    }
  }

  lemma EnqueueIsQuiet(a: map<LetterId, Letter>, p: Program)
    ensures Quiet(a, map id | id in a :: EnqueueLetter(a[id], p))
  {
  }

  lemma InsertedQuiet(w: World, all: map<LetterId, Letter>)
    requires Inserted(w, all)
    ensures Quiet(w.letters, map id | id in all :: EnqueueLetter(all[id], w.program))
  {
    EnqueueIsQuiet(all, w.program);
  }

  lemma EnqueueKeepsLetters(w: World, all: map<LetterId, Letter>, v: World)
    requires AllOk(w) && Inserted(w, all) && w.program.day >= 1
    requires v == w.(letters := map id | id in all :: EnqueueLetter(all[id], w.program))
    ensures AllOk(v)
  {
    forall id | id in v.letters
      ensures LetterOk(v.letters[id]) && DayOk(w.program, v.letters[id]) && v.letters[id].recipient in w.recipients
    {
      InsertedLettersOk(w, all, id);
    }
  }

  lemma EnqueueKeepsNumbers(w: World, all: map<LetterId, Letter>, v: World)
    requires NumbersOk(w) && Inserted(w, all)
    requires v == w.(letters := map id | id in all :: EnqueueLetter(all[id], w.program))
    ensures NumbersOk(v)
  {
    forall a, b | a in v.letters && b in v.letters && a != b
        && v.letters[a].run == v.letters[b].run && v.letters[a].day == v.letters[b].day
      ensures v.letters[a].number != v.letters[b].number
    {
      InsertedNumbers(w, all, a, b);
    }
  }

  lemma EnqueueKeepsInv(w: World, all: map<LetterId, Letter>, v: World)
    requires Inv(w) && w.program.status == Running && Inserted(w, all)
    requires v == w.(letters := map id | id in all :: EnqueueLetter(all[id], w.program))
    ensures Inv(v)
  {
    EnqueueKeepsLetters(w, all, v);
    EnqueueKeepsNumbers(w, all, v);
    InsertedQuiet(w, all);
    QuietKeepsCounts(w, v);
    if !w.restarted {
      QuietKeepsHealth(w.letters, v.letters, w.program.run);
    }
  }

  lemma PlanEnqueues(w: World, order: seq<RecipientId>, ids: seq<LetterId>, kept: set<LetterId>)
    requires PlansLetters(w) && Enabled(w, Plan(order, ids, kept))
    ensures var all := WithNewLetters(w.letters, Slots(w, order), ids, w.program);
      PlanStep(w, order, ids, kept) == w.(letters := map id | id in all :: EnqueueLetter(all[id], w.program))
  {
  }

  lemma PlanningKeepsInv(w: World, order: seq<RecipientId>, ids: seq<LetterId>, kept: set<LetterId>)
    requires Inv(w) && PlansLetters(w) && Enabled(w, Plan(order, ids, kept))
    ensures Inv(PlanStep(w, order, ids, kept))
  {
    PlanInserts(w, order, ids, kept);
    PlanEnqueues(w, order, ids, kept);
    EnqueueKeepsInv(w, WithNewLetters(w.letters, Slots(w, order), ids, w.program), PlanStep(w, order, ids, kept));
  }

  lemma PlanKeepsInv(w: World, order: seq<RecipientId>, ids: seq<LetterId>, kept: set<LetterId>)
    requires Inv(w) && Enabled(w, Plan(order, ids, kept))
    ensures Inv(PlanStep(w, order, ids, kept))
  {
    if PlansLetters(w) {
      PlanningKeepsInv(w, order, ids, kept);
    } else {
      PauseKeepsInv(w, kept);
    }
  }

  // ---- All steps, all runs ----

  lemma RecipientsOnly(w: World, recipients: map<RecipientId, Recipient>)
    requires Inv(w) && SameSent(w.recipients, recipients)
    ensures Inv(w.(recipients := recipients))
  {
    QuietKeepsCounts(w, w.(recipients := recipients));
  }

  lemma EditProgramKeepsInv(w: World, fixed: bool, plan: seq<int>, duration: int)
    requires Inv(w)
    ensures Inv(EditProgramStep(w, fixed, plan, duration))
  {
    var v := EditProgramStep(w, fixed, plan, duration);
    forall id | id in w.letters
      ensures DayOk(v.program, w.letters[id])
    {
    }
    assert AllOk(v) && CountsOk(v) && NumbersOk(v);
  }

  lemma WorkerKeepsInv(w: World, e: Event)
    requires Inv(w) && Enabled(w, e) && (e.Begin? || e.Stumble? || e.Finish? || e.Crash?)
    ensures Inv(Apply(w, e))
  {
    match e
    case Begin(id, blocked, replacement, kept) => BeginKeepsInv(w, id, blocked, replacement, kept);
    case Stumble(id) => StumbleKeepsInv(w, id);
    case Finish(id, result) => FinishKeepsInv(w, id, result);
    case Crash(id, left) => CrashKeepsInv(w, id, left);
  }

  lemma EditKeepsInv(w: World, e: Event)
    requires Inv(w) && Enabled(w, e) && (e.AddRecipient? || e.SetRecipient? || e.EditProgram?)
    ensures Inv(Apply(w, e))
  {
    match e
    case AddRecipient(r, perDay) => RecipientsOnly(w, AddRecipientStep(w, r, perDay).recipients);
    case SetRecipient(r, status, perDay) => RecipientsOnly(w, SetRecipientStep(w, r, status, perDay).recipients);
    case EditProgram(fixed, plan, duration) => EditProgramKeepsInv(w, fixed, plan, duration);
  }

  lemma ResumeKeepsInv(w: World, allowed: bool)
    requires Inv(w)
    ensures Inv(ResumeStep(w, allowed))
  {
  }

  lemma StepKeepsInv(w: World, e: Event)
    requires Inv(w) && Enabled(w, e)
    ensures Inv(Apply(w, e))
  {
    match e
    case Start(allowed) => StartKeepsInv(w, allowed);
    case Pause(kept) => PauseKeepsInv(w, kept);
    case Resume(allowed) => ResumeKeepsInv(w, allowed);
    case Stop(kept) => StopKeepsInv(w, kept);
    case Plan(order, ids, kept) => PlanKeepsInv(w, order, ids, kept);
    case Advance(_, day) => AdvanceKeepsInv(w, day);
    case Report(id, status, kept) => ReportKeepsInv(w, id, status, kept);
    case AddRecipient(_, _) => EditKeepsInv(w, e);
    case SetRecipient(_, _, _) => EditKeepsInv(w, e);
    case EditProgram(_, _, _) => EditKeepsInv(w, e);
    case _ => WorkerKeepsInv(w, e);
  }

  lemma {:induction false} RunKeepsInv(worlds: seq<World>, events: seq<Event>, i: nat)
    requires IsRun(worlds, events) && i <= |events|
    ensures Inv(worlds[i])
  {
    if i > 0 {
      RunKeepsInv(worlds, events, i - 1);
      StepKeepsInv(worlds[i - 1], events[i - 1]);
    }
  }

  lemma RunExtends(worlds: seq<World>, events: seq<Event>, e: Event)
    requires IsRun(worlds, events) && Enabled(worlds[|events|], e)
    ensures IsRun(worlds + [Apply(worlds[|events|], e)], events + [e])
  {
    var v := Apply(worlds[|events|], e);
    forall i | 0 <= i < |events| + 1
      ensures Enabled((worlds + [v])[i], (events + [e])[i])
      ensures (worlds + [v])[i + 1] == Apply((worlds + [v])[i], (events + [e])[i])
    {
      if i < |events| {
        assert (events + [e])[i] == events[i];
        assert worlds[i + 1] == Apply(worlds[i], events[i]);
      }
    }
  }

  ghost predicate Reachable(w: World) {
    exists worlds, events :: IsRun(worlds, events) && w == worlds[|events|]
  }

  lemma Reach(w: World, e: Event)
    requires Reachable(w) && Enabled(w, e)
    ensures Reachable(Apply(w, e))
  {
    var worlds, events :| IsRun(worlds, events) && w == worlds[|events|];
    RunExtends(worlds, events, e);
    assert (worlds + [Apply(w, e)])[|events + [e]|] == Apply(w, e);
  }
}
