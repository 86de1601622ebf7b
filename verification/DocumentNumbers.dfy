/** Company-wide document numbers: a counter row and an allocation row per document,
    written by any number of concurrent callers.

    A call is a small state machine.  Between the counter upsert and the end of its
    transaction it holds the lock of the counter row, and what it wrote is visible to no
    one else; so the uncommitted number lives in the call, not in the tables. */
module DocumentNumbers {
  import opened Common

  type CallId = nat

  /** The key of a counter row. */
  datatype Scope = Scope(company: string, documentType: string)

  /** The primary key of an allocation row. */
  datatype Slot = Slot(scope: Scope, key: string)

  datatype Phase =
    | Starting                 // about to look for a committed number
    | Missed                   // found none; about to bump the counter
    | Counted(number: nat)     // the counter row is bumped and locked
    | Flushed(number: nat)     // the allocation row is inserted; about to commit
    | Conflicted               // the insert hit the primary key; the transaction is undone
    | Returned(number: nat)
    | Raised                   // an exception left the call
    | Exhausted                // every attempt was used up

  datatype Call = Call(slot: Slot, phase: Phase, attempt: nat)

  datatype Ledger = Ledger(
    counters: map<Scope, nat>,
    numbers: map<Slot, nat>,
    calls: map<CallId, Call>)

  datatype Event =
    | Enter(call: CallId, slot: Slot)
    | Lookup(call: CallId)
    | Upsert(call: CallId)
    | Insert(call: CallId)
    | Commit(call: CallId)
    | Retry(call: CallId, sessionRaises: bool)
    | Abort(call: CallId)

  const ATTEMPTS: nat := 5
  const EMPTY := Ledger(map[], map[], map[])

  function Last(l: Ledger, scope: Scope): nat {
    if scope in l.counters then l.counters[scope] else 0
  }

  predicate WellFormed(slot: Slot) {
    slot.scope.company != "" && slot.scope.documentType != "" && slot.key != ""
  }

  predicate Holds(call: Call) {
    call.phase.Counted? || call.phase.Flushed?
  }

  predicate LockFree(l: Ledger, scope: Scope) {
    forall c :: c in l.calls && l.calls[c].slot.scope == scope ==> !Holds(l.calls[c])
  }

  predicate Enabled(l: Ledger, e: Event) {
    if e.Enter? then e.call !in l.calls
    else
      && e.call in l.calls
      && var call := l.calls[e.call];
         match e
         case Lookup(_) => call.phase.Starting?
         case Upsert(_) => call.phase.Missed? && LockFree(l, call.slot.scope)
         case Insert(_) => call.phase.Counted?
         case Commit(_) => call.phase.Flushed?
         case Retry(_, _) => call.phase.Conflicted?
         case Abort(_) => !(call.phase.Returned? || call.phase.Raised? || call.phase.Exhausted?)
         case Enter(_, _) => false
  }

  function Moved(l: Ledger, c: CallId, phase: Phase): Ledger
    requires c in l.calls
  {
    l.(calls := l.calls[c := l.calls[c].(phase := phase)])
  }

  function Apply(l: Ledger, e: Event): Ledger
    requires Enabled(l, e)
  {
    match e
    case Enter(c, slot) =>
      l.(calls := l.calls[c := Call(slot, if WellFormed(slot) then Starting else Raised, 0)])
    case Lookup(c) =>
      var slot := l.calls[c].slot;
      Moved(l, c, if slot in l.numbers then Returned(l.numbers[slot]) else Missed)
    case Upsert(c) =>
      Moved(l, c, Counted(Last(l, l.calls[c].slot.scope) + 1))
    case Insert(c) =>
      Moved(l, c, if l.calls[c].slot in l.numbers then Conflicted else Flushed(l.calls[c].phase.number))
    case Commit(c) =>
      var call := l.calls[c];
      Moved(l, c, Returned(call.phase.number))
        .(counters := l.counters[call.slot.scope := call.phase.number],
          numbers := l.numbers[call.slot := call.phase.number])
    case Retry(c, sessionRaises) =>
      var call := l.calls[c];
      if sessionRaises then Moved(l, c, Raised)
      else if call.attempt + 1 < ATTEMPTS then
        l.(calls := l.calls[c := Call(call.slot, Starting, call.attempt + 1)])
      else Moved(l, c, Exhausted)
    case Abort(c) =>
      Moved(l, c, Raised)
  }

  // ---- What every state of every run satisfies ----

  ghost predicate Issued(l: Ledger, scope: Scope, n: nat) {
    exists slot :: slot in l.numbers && slot.scope == scope && l.numbers[slot] == n
  }

  /** The committed numbers of a scope are 1, 2, ..., Last, each given to exactly one key. */
  ghost predicate Dense(l: Ledger) {
    && (forall s :: s in l.numbers ==> 1 <= l.numbers[s] <= Last(l, s.scope))
    && (forall s, t ::
      s in l.numbers && t in l.numbers && s.scope == t.scope && l.numbers[s] == l.numbers[t] ==> s == t)
    && (forall scope, n :: 1 <= n <= Last(l, scope) ==> Issued(l, scope, n))
  }

  /** At most one call holds a counter row, and it holds the next number of that row. */
  ghost predicate Exclusive(l: Ledger) {
    && (forall c, d ::
          (c in l.calls && d in l.calls && Holds(l.calls[c]) && Holds(l.calls[d])
           && l.calls[c].slot.scope == l.calls[d].slot.scope) ==> c == d)
    && (forall c :: c in l.calls && Holds(l.calls[c]) ==> l.calls[c].phase.number == Last(l, l.calls[c].slot.scope) + 1)
  }

  /** What a call may rely on about the committed allocations. */
  ghost predicate Sound(l: Ledger, call: Call) {
    && (call.phase.Flushed? ==> call.slot !in l.numbers)
    && (call.phase.Returned? ==> call.slot in l.numbers && l.numbers[call.slot] == call.phase.number)
    && (call.phase.Conflicted? || call.attempt > 0 ==> call.slot in l.numbers)
    && (call.phase.Missed? || Holds(call) || call.phase.Conflicted? ==> call.attempt == 0)
    && call.attempt <= 1
    && !call.phase.Exhausted?
  }

  ghost predicate Inv(l: Ledger) {
    && Dense(l)
    && Exclusive(l)
    && (forall c :: c in l.calls ==> Sound(l, l.calls[c]))
  }

  lemma CommitKeepsDense(l: Ledger, c: CallId)
    requires Inv(l) && Enabled(l, Commit(c))
    ensures Dense(Apply(l, Commit(c)))
  {
    var l' := Apply(l, Commit(c));
    var slot, n := l.calls[c].slot, l.calls[c].phase.number;
    forall scope, k | 1 <= k <= Last(l', scope)
      ensures Issued(l', scope, k)
    {
      if scope == slot.scope && k == n {
        assert l'.numbers[slot] == k;
      } else {
        assert Issued(l, scope, k);
        var s :| s in l.numbers && s.scope == scope && l.numbers[s] == k;
        assert s in l'.numbers && l'.numbers[s] == k;
      }
    }
  }

  lemma SameTables(l: Ledger, e: Event)
    requires Enabled(l, e) && !e.Commit?
    ensures Apply(l, e).numbers == l.numbers && Apply(l, e).counters == l.counters
  {
  }

  lemma SameTablesDense(l: Ledger, m: Ledger)
    requires Dense(l) && m.numbers == l.numbers && m.counters == l.counters
    ensures Dense(m)
  {
    forall scope, n | 1 <= n <= Last(m, scope)
      ensures Issued(m, scope, n)
    {
      assert Issued(l, scope, n);
    }
  }

  lemma StepKeepsDense(l: Ledger, e: Event)
    requires Inv(l) && Enabled(l, e)
    ensures Dense(Apply(l, e))
  {
    if e.Commit? {
      CommitKeepsDense(l, e.call);
    } else {
      SameTables(l, e);
      SameTablesDense(l, Apply(l, e));
    }
  }

  /** Only the moving call can become a holder, and only when its row is free. */
  lemma NewHolder(l: Ledger, e: Event, c: CallId)
    requires Enabled(l, e) && c in Apply(l, e).calls && Holds(Apply(l, e).calls[c])
    ensures c in l.calls && Apply(l, e).calls[c].slot == l.calls[c].slot
    ensures !Holds(l.calls[c]) ==> e == Upsert(c)
    ensures Holds(l.calls[c]) ==> Apply(l, e).calls[c].phase.number == l.calls[c].phase.number && e != Commit(c)
  {
  }

  lemma HoldersDiffer(l: Ledger, e: Event, c: CallId, d: CallId)
    requires Inv(l) && Enabled(l, e) && c in Apply(l, e).calls && d in Apply(l, e).calls
    requires Holds(Apply(l, e).calls[c]) && Holds(Apply(l, e).calls[d])
    requires Apply(l, e).calls[c].slot.scope == Apply(l, e).calls[d].slot.scope
    ensures c == d
  {
    NewHolder(l, e, c);
    NewHolder(l, e, d);
  }

  lemma HolderHasNext(l: Ledger, e: Event, c: CallId)
    requires Inv(l) && Enabled(l, e) && c in Apply(l, e).calls && Holds(Apply(l, e).calls[c])
    ensures Apply(l, e).calls[c].phase.number == Last(Apply(l, e), Apply(l, e).calls[c].slot.scope) + 1
  {
    NewHolder(l, e, c);
    if e.Commit? {
      assert Holds(l.calls[e.call]) && e.call != c;
    }
  }

  lemma StepKeepsExclusive(l: Ledger, e: Event)
    requires Inv(l) && Enabled(l, e)
    ensures Exclusive(Apply(l, e))
  {
    var l' := Apply(l, e);
    forall c, d | c in l'.calls && d in l'.calls && Holds(l'.calls[c]) && Holds(l'.calls[d])
        && l'.calls[c].slot.scope == l'.calls[d].slot.scope
      ensures c == d
    {
      HoldersDiffer(l, e, c, d);
    }
    forall c | c in l'.calls && Holds(l'.calls[c])
      ensures l'.calls[c].phase.number == Last(l', l'.calls[c].slot.scope) + 1
    {
      HolderHasNext(l, e, c);
    }
  }

  lemma CommitKeepsSound(l: Ledger, d: CallId, c: CallId)
    requires Inv(l) && Enabled(l, Commit(d)) && c in l.calls
    ensures Sound(Apply(l, Commit(d)), Apply(l, Commit(d)).calls[c])
  {
    assert Sound(l, l.calls[c]) && Sound(l, l.calls[d]);
  }

  /** A step that commits nothing leaves the tables as they are. */
  lemma OtherStepsKeepSound(l: Ledger, e: Event, c: CallId)
    requires Enabled(l, e) && !e.Commit? && c in Apply(l, e).calls
    requires c in l.calls ==> Sound(l, l.calls[c])
    ensures Sound(Apply(l, e), Apply(l, e).calls[c])
  {
  }

  lemma StepKeepsSound(l: Ledger, e: Event, c: CallId)
    requires Inv(l) && Enabled(l, e) && c in Apply(l, e).calls
    ensures Sound(Apply(l, e), Apply(l, e).calls[c])
  {
    if e.Commit? {
      CommitKeepsSound(l, e.call, c);
    } else {
      OtherStepsKeepSound(l, e, c);
    }
  }

  lemma StepKeepsInv(l: Ledger, e: Event)
    requires Inv(l) && Enabled(l, e)
    ensures Inv(Apply(l, e))
  {
    StepKeepsDense(l, e);
    StepKeepsExclusive(l, e);
    forall c | c in Apply(l, e).calls
      ensures Sound(Apply(l, e), Apply(l, e).calls[c])
    {
      StepKeepsSound(l, e, c);
    }
  }

  ghost predicate IsRun(states: seq<Ledger>, events: seq<Event>) {
    && |states| == |events| + 1
    && states[0] == EMPTY
    && forall i :: 0 <= i < |events| ==> Enabled(states[i], events[i]) && states[i + 1] == Apply(states[i], events[i])
  }

  lemma {:induction false} RunKeepsInv(states: seq<Ledger>, events: seq<Event>, i: nat)
    requires IsRun(states, events) && i <= |events|
    ensures Inv(states[i])
  {
    if i > 0 {
      RunKeepsInv(states, events, i - 1);
      StepKeepsInv(states[i - 1], events[i - 1]);
    }
  }

  // ---- The promises ----

  /** Under any interleaving the committed numbers of every company and document type are
      exactly 1..last, without a gap and without a repeat. */
  lemma NumbersAreGapFree(states: seq<Ledger>, events: seq<Event>, i: nat, scope: Scope, n: nat)
    requires IsRun(states, events) && i <= |events|
    ensures Issued(states[i], scope, n) <==> 1 <= n <= Last(states[i], scope)
    ensures forall s, t :: s in states[i].numbers && t in states[i].numbers && s.scope == t.scope && s.key != t.key
              ==> states[i].numbers[s] != states[i].numbers[t]
  {
    RunKeepsInv(states, events, i);
  }

  ghost predicate Extends(later: map<Slot, nat>, earlier: map<Slot, nat>) {
    forall s :: s in earlier ==> s in later && later[s] == earlier[s]
  }

  lemma StepExtends(l: Ledger, e: Event)
    requires Inv(l) && Enabled(l, e)
    ensures Extends(Apply(l, e).numbers, l.numbers)
  {
    if e.Commit? {
      assert Sound(l, l.calls[e.call]);
    }
  }

  /** Once committed, the number of a key never changes. */
  lemma {:induction false} KeyKeepsItsNumber(states: seq<Ledger>, events: seq<Event>, i: nat, j: nat, slot: Slot)
    requires IsRun(states, events) && i <= j <= |events|
    requires slot in states[i].numbers
    ensures slot in states[j].numbers && states[j].numbers[slot] == states[i].numbers[slot]
    decreases j
  {
    if i < j {
      KeyKeepsItsNumber(states, events, i, j - 1, slot);
      RunKeepsInv(states, events, j - 1);
      StepExtends(states[j - 1], events[j - 1]);
    }
  }

  /** Two calls that ever return agree: the same number exactly when they asked for the same
      key, within one company and document type. */
  lemma ReturnedNumbersAgree(states: seq<Ledger>, events: seq<Event>, i: nat, j: nat, c: CallId, d: CallId)
    requires IsRun(states, events) && i <= j <= |events|
    requires c in states[i].calls && states[i].calls[c].phase.Returned?
    requires d in states[j].calls && states[j].calls[d].phase.Returned?
    requires states[i].calls[c].slot.scope == states[j].calls[d].slot.scope
    ensures states[i].calls[c].slot.key == states[j].calls[d].slot.key
      <==> states[i].calls[c].phase.number == states[j].calls[d].phase.number
  {
    RunKeepsInv(states, events, i);
    RunKeepsInv(states, events, j);
    KeyKeepsItsNumber(states, events, i, j, states[i].calls[c].slot);
  }

  /** No call ever runs out of attempts: the second one always finds the number that the
      first one collided with. */
  lemma RetriesNeverRunOut(states: seq<Ledger>, events: seq<Event>, i: nat, c: CallId)
    requires IsRun(states, events) && i <= |events| && c in states[i].calls
    ensures !states[i].calls[c].phase.Exhausted?
    ensures states[i].calls[c].attempt <= 1
  {
    RunKeepsInv(states, events, i);
  }

  lemma OthersStep(l: Ledger, e: Event, c: CallId)
    requires Enabled(l, e) && e.call != c && c in l.calls
    ensures c in Apply(l, e).calls && Apply(l, e).calls[c] == l.calls[c]
  {
  }

  /** While only other calls move, a call stays where it was. */
  lemma {:induction false} OthersLeaveCallAlone(states: seq<Ledger>, events: seq<Event>, i: nat, j: nat, c: CallId)
    requires IsRun(states, events) && i <= j <= |events| && c in states[i].calls
    requires forall k :: i <= k < j ==> events[k].call != c
    ensures c in states[j].calls && states[j].calls[c] == states[i].calls[c]
    decreases j
  {
    if i < j {
      OthersLeaveCallAlone(states, events, i, j - 1, c);
    }
  }

  /** A call that hits the primary key and whose session closes quietly succeeds at its next
      lookup, whatever the other calls do in between. */
  lemma ConflictThenSuccess(states: seq<Ledger>, events: seq<Event>, i: nat, j: nat, c: CallId)
    requires IsRun(states, events) && i < j < |events|
    requires events[i] == Retry(c, false)
    requires forall k :: i < k < j ==> events[k].call != c
    requires events[j].call == c && !events[j].Abort?
    ensures events[j] == Lookup(c)
    ensures var slot := states[i].calls[c].slot;
      slot in states[i].numbers && states[j + 1].calls[c].phase == Returned(states[i].numbers[slot])
  {
    RunKeepsInv(states, events, i);
    assert Enabled(states[i], events[i]) && Enabled(states[j], events[j]);
    OthersLeaveCallAlone(states, events, i + 1, j, c);
    assert states[i + 1].numbers == states[i].numbers;
    KeyKeepsItsNumber(states, events, i + 1, j, states[i].calls[c].slot);
  }

  /** A call that hit the primary key goes on to a second attempt if and only if its session
      closes quietly; otherwise an exception leaves it although its key has a number. */
  lemma ConflictRetriesIff(states: seq<Ledger>, events: seq<Event>, i: nat)
    requires IsRun(states, events) && i < |events| && events[i].Retry?
    ensures var c := events[i].call;
      && c in states[i].calls && c in states[i + 1].calls
      && states[i].calls[c].slot in states[i].numbers
      && (states[i + 1].calls[c] == Call(states[i].calls[c].slot, Starting, 1) <==> !events[i].sessionRaises)
      && (events[i].sessionRaises ==> states[i + 1].calls[c].phase == Raised)
  {
    RunKeepsInv(states, events, i);
    assert Enabled(states[i], events[i]);
    assert Sound(states[i], states[i].calls[events[i].call]);
  }

  /** What `peek` shows is the number the next commit of that scope gives out. */
  lemma PeekIsTheNextNumber(states: seq<Ledger>, events: seq<Event>, i: nat, j: nat)
    requires IsRun(states, events) && i <= j < |events| && events[j].Commit?
    requires Last(states[j], states[j].calls[events[j].call].slot.scope)
      == Last(states[i], states[j].calls[events[j].call].slot.scope)
    ensures var call := states[j].calls[events[j].call];
      states[j + 1].numbers[call.slot] == Last(states[i], call.slot.scope) + 1
  {
    RunKeepsInv(states, events, j);
    assert Enabled(states[j], events[j]);
  }

  // ---- One caller among the others ----

  /** The counter and the committed numbers of a company and document type are the same. */
  ghost predicate SameIn(scope: Scope, l: Ledger, m: Ledger) {
    && Last(l, scope) == Last(m, scope)
    && forall s: Slot :: s.scope == scope ==> (s in l.numbers <==> s in m.numbers)
  }

  /** As long as a call holds its counter row no other one commits there. */
  lemma HolderShields(l: Ledger, e: Event, me: CallId)
    requires Inv(l) && Enabled(l, e) && me in l.calls && e.call != me && Holds(l.calls[me])
    ensures SameIn(l.calls[me].slot.scope, l, Apply(l, e))
  {
    if e.Commit? {
      assert Holds(l.calls[e.call]);
    }
  }

  datatype Outcome = Number(number: nat) | ValueError | RuntimeError | DatabaseError

  /** What one call cannot control: the steps other calls take at each of its pauses, the
      statements the database refuses, and whether a session closes quietly after a failed
      flush. */
  datatype Surroundings = Surroundings(others: nat -> seq<Event>, refused: nat -> bool, sessionRaises: bool)

  ghost predicate Alone(env: Surroundings) {
    forall k :: env.others(k) == []
  }

  /** How the transaction from the counter row on ends for a call that comes to the row in this
      state. */
  ghost function BumpEnds(l: Ledger, slot: Slot, env: Surroundings, tick: nat): Phase {
    if env.refused(tick + 1) || env.refused(tick + 2) || !LockFree(l, slot.scope) then Raised
    else if slot in l.numbers then Conflicted
    else if env.refused(tick + 3) then Raised
    else Returned(Last(l, slot.scope) + 1)
  }

  /** A call that returned left its number in the tables, any other one nothing. */
  ghost predicate Settled(l: Ledger, m: Ledger, call: Call) {
    if call.phase.Returned? && call.slot !in l.numbers then
      && m.numbers == l.numbers[call.slot := call.phase.number]
      && m.counters == l.counters[call.slot.scope := call.phase.number]
    else m.numbers == l.numbers && m.counters == l.counters
  }

  ghost predicate Between(l: Ledger, m: Ledger, n: Ledger) {
    Extends(m.numbers, l.numbers) && Extends(n.numbers, m.numbers)
  }

  /** One pass of the retry loop, from one state to another; it comes to the counter row in the
      state `met`, or not at all. */
  ghost predicate Attempted(l: Ledger, m: Ledger, c: CallId, env: Surroundings, tick: nat, met: Option<Ledger>) {
    && c in l.calls && c in m.calls && m.calls[c].slot == l.calls[c].slot
    && Extends(m.numbers, l.numbers)
    && (met.None? ==> if env.refused(tick) then m.calls[c].phase.Raised? else m.calls[c].phase.Returned?)
    && (met.Some? ==> !env.refused(tick) && l.calls[c].slot !in l.numbers && Between(l, met.value, m))
    && (met.Some? ==> Closes(l.calls[c], m.calls[c], BumpEnds(met.value, l.calls[c].slot, env, tick), env))
    && (Alone(env) && met.None? && m.calls[c].phase.Returned? ==> l.calls[c].slot in l.numbers)
    && (Alone(env) ==> Settled(l, m, m.calls[c]))
    && (Alone(env) && met.Some? ==> met.value == l.(calls := l.calls[c := l.calls[c].(phase := Missed)]))
  }

  /** A conflict is tried again when the session closes quietly. */
  ghost predicate Closes(before: Call, after: Call, end: Phase, env: Surroundings) {
    if !end.Conflicted? then after.phase == end
    else if env.sessionRaises then after.phase == Raised
    else after == Call(before.slot, Starting, before.attempt + 1)
  }

  /** A number is the key's old one or, for a key without one when the counter row was reached,
      the next.  There is a database error exactly when a statement was refused, the counter
      row was locked, or there was a conflict and its session raised. */
  ghost predicate Allocated(l: Ledger, m: Ledger, slot: Slot, env: Surroundings, r: Outcome, met: Option<Ledger>) {
    && (met.Some? ==> Between(l, met.value, m) && slot !in l.numbers)
    && (r.Number? && met.Some? && slot !in met.value.numbers ==> r.number == Last(met.value, slot.scope) + 1)
    && (r.DatabaseError? <==>
          || env.refused(0)
          || (&& met.Some?
              && (|| env.refused(1) || env.refused(2) || !LockFree(met.value, slot.scope)
                  || if slot in met.value.numbers then env.sessionRaises || env.refused(4) else env.refused(3))))
    && (Alone(env) ==> AllocatedAlone(l, m, slot, r, met))
  }

  /** Without other callers the counter row is reached in the first state, and nothing is written
      but a new key's number. */
  ghost predicate AllocatedAlone(l: Ledger, m: Ledger, slot: Slot, r: Outcome, met: Option<Ledger>) {
    && (met.Some? ==>
          && met.value.numbers == l.numbers && met.value.counters == l.counters
          && (LockFree(met.value, slot.scope) <==> LockFree(l, slot.scope)))
    && if r.Number? && slot !in l.numbers then
         && r.number == Last(l, slot.scope) + 1
         && m.numbers == l.numbers[slot := r.number] && m.counters == l.counters[slot.scope := r.number]
       else m.numbers == l.numbers && m.counters == l.counters
  }

  predicate Answers(call: Call, r: Outcome) {
    || (call.phase.Returned? && r == Number(call.phase.number))
    || (call.phase.Raised? && r == DatabaseError)
  }

  lemma MissedLock(l: Ledger, c: CallId, slot: Slot)
    requires c in l.calls && l.calls[c] == Call(slot, Starting, 0)
    ensures LockFree(l.(calls := l.calls[c := l.calls[c].(phase := Missed)]), slot.scope) <==> LockFree(l, slot.scope)
  {
    var m := l.(calls := l.calls[c := l.calls[c].(phase := Missed)]);
    if LockFree(m, slot.scope) {
      forall d | d in l.calls && l.calls[d].slot.scope == slot.scope
        ensures !Holds(l.calls[d])
      {
        assert d in m.calls;
      }
    }
  }

  lemma FirstEnds(l: Ledger, m: Ledger, c: CallId, slot: Slot, env: Surroundings, r: Outcome, met: Option<Ledger>)
    requires c in l.calls && l.calls[c] == Call(slot, Starting, 0)
    requires Attempted(l, m, c, env, 0, met) && Answers(m.calls[c], r)
    ensures Allocated(l, m, slot, env, r, met)
  {
    MissedLock(l, c, slot);
  }

  lemma SecondEnds(
      l: Ledger, k: Ledger, m: Ledger, c: CallId, slot: Slot, env: Surroundings, r: Outcome,
      met: Option<Ledger>, again: Option<Ledger>)
    requires c in l.calls && l.calls[c] == Call(slot, Starting, 0)
    requires Attempted(l, k, c, env, 0, met) && k.calls[c] == Call(slot, Starting, 1)
    requires Attempted(k, m, c, env, 4, again) && slot in k.numbers && Answers(m.calls[c], r)
    ensures Allocated(l, m, slot, env, r, met)
  {
  }

  lemma EnterIsNoStep(l: Ledger, m: Ledger, c: CallId, slot: Slot, env: Surroundings, r: Outcome, met: Option<Ledger>)
    requires c !in l.calls && WellFormed(slot) && Allocated(Apply(l, Enter(c, slot)), m, slot, env, r, met)
    ensures Allocated(l, m, slot, env, r, met)
    ensures LockFree(Apply(l, Enter(c, slot)), slot.scope) <==> LockFree(l, slot.scope)
  {
    var k := Apply(l, Enter(c, slot));
    if LockFree(k, slot.scope) {
      forall d | d in l.calls && l.calls[d].slot.scope == slot.scope
        ensures !Holds(l.calls[d])
      {
        assert d in k.calls && k.calls[d] == l.calls[d];
      }
    }
  }

  lemma NothingInTheWay(l: Ledger, m: Ledger, slot: Slot, env: Surroundings, r: Outcome, met: Option<Ledger>)
    requires Allocated(l, m, slot, env, r, met) && (r.Number? || r.DatabaseError?)
    requires r.Number? && slot in l.numbers ==> r.number == l.numbers[slot]
    ensures Alone(env) && LockFree(l, slot.scope) && (forall k :: !env.refused(k))
      ==> r == Number(if slot in l.numbers then l.numbers[slot] else Last(l, slot.scope) + 1)
  {
  }

  class NumberService {
    var counters: map<Scope, nat>
    var numbers: map<Slot, nat>
    var calls: map<CallId, Call>

    function View(): Ledger
      reads this
    {
      Ledger(counters, numbers, calls)
    }

    constructor ()
      ensures View() == EMPTY
    {
      counters, numbers, calls := map[], map[], map[];
    }

    method Perform(e: Event)
      requires Inv(View()) && Enabled(View(), e)
      modifies this
      ensures View() == Apply(old(View()), e)
      ensures Inv(View()) && Extends(numbers, old(numbers))
    {
      StepKeepsInv(View(), e);
      StepExtends(View(), e);
      var next := Apply(View(), e);
      counters, numbers, calls := next.counters, next.numbers, next.calls;
    }

    /** One step of another caller. */
    method Yield(me: CallId, e: Event)
      requires Inv(View()) && me in calls && e.call != me && Enabled(View(), e)
      modifies this
      ensures Inv(View()) && Extends(numbers, old(numbers))
      ensures me in calls && calls[me] == old(calls[me])
      ensures Holds(calls[me]) ==> SameIn(calls[me].slot.scope, old(View()), View())
    {
      OthersStep(View(), e, me);
      if Holds(calls[me]) {
        HolderShields(View(), e, me);
      }
      Perform(e);
    }

    /** The other callers run; a step that is not open to them, or is not theirs, is passed over. */
    method Interfere(me: CallId, events: seq<Event>)
      requires Inv(View()) && me in calls
      modifies this
      ensures Inv(View()) && Extends(numbers, old(numbers))
      ensures me in calls && calls[me] == old(calls[me])
      ensures Holds(calls[me]) ==> SameIn(calls[me].slot.scope, old(View()), View())
      ensures events == [] ==> View() == old(View())
    {
      for i := 0 to |events|
        invariant Inv(View()) && Extends(numbers, old(numbers))
        invariant me in calls && calls[me] == old(calls[me])
        invariant Holds(calls[me]) ==> SameIn(calls[me].slot.scope, old(View()), View())
        invariant i == 0 ==> View() == old(View())
      {
        var e := events[i];
        if e.call != me && Enabled(View(), e) {
          Yield(me, e);
        }
      }
    }

    method GetAllocatedNumber(c: CallId) returns (number: Option<nat>)
      requires Inv(View()) && Enabled(View(), Lookup(c))
      modifies this
      ensures Inv(View()) && View() == Apply(old(View()), Lookup(c))
      ensures number == if calls[c].slot in numbers then Some(numbers[calls[c].slot]) else None
    {
      number := if calls[c].slot in numbers then Some(numbers[calls[c].slot]) else None;
      Perform(Lookup(c));
    }

    method NextCounterValue(c: CallId) returns (number: nat)
      requires Inv(View()) && Enabled(View(), Upsert(c))
      modifies this
      ensures Inv(View()) && View() == Apply(old(View()), Upsert(c))
      ensures number == calls[c].phase.number == Last(View(), calls[c].slot.scope) + 1
      ensures !Issued(View(), calls[c].slot.scope, number)
    {
      number := Last(View(), calls[c].slot.scope) + 1;
      Perform(Upsert(c));
    }

    method Flush(c: CallId) returns (inserted: bool)
      requires Inv(View()) && Enabled(View(), Insert(c))
      modifies this
      ensures Inv(View()) && View() == Apply(old(View()), Insert(c))
      ensures inserted <==> calls[c].slot !in numbers
    {
      inserted := calls[c].slot !in numbers;
      Perform(Insert(c));
    }

    method Fail(c: CallId)
      requires Inv(View()) && Enabled(View(), Abort(c))
      modifies this
      ensures Inv(View()) && numbers == old(numbers) && counters == old(counters)
      ensures calls == old(calls)[c := old(calls)[c].(phase := Raised)]
    {
      Perform(Abort(c));
    }

    /** The transaction from the counter upsert on.  It is undone when a statement is refused or
        the counter row is locked, it conflicts exactly when the key has got a number by then,
        and otherwise it commits the next number. */
    method BumpAndInsert(c: CallId, env: Surroundings, tick: nat)
      requires Inv(View()) && c in calls && calls[c].phase.Missed?
      modifies this
      ensures Inv(View()) && Extends(numbers, old(numbers))
      ensures c in calls && calls[c] == old(calls[c]).(phase := calls[c].phase)
      ensures calls[c].phase == BumpEnds(old(View()), calls[c].slot, env, tick)
      ensures calls[c].phase.Returned? ==> numbers[calls[c].slot] == Last(View(), calls[c].slot.scope)
      ensures Alone(env) ==> Settled(old(View()), View(), calls[c])
    {
      if env.refused(tick + 1) || !LockFree(View(), calls[c].slot.scope) {
        Fail(c);
        return;
      }
      var next := NextCounterValue(c);
      Interfere(c, env.others(tick + 2));
      if env.refused(tick + 2) {
        Fail(c);
        return;
      }
      var inserted := Flush(c);
      Interfere(c, env.others(tick + 3));
      if inserted {
        if env.refused(tick + 3) {
          Fail(c);
        } else {
          Perform(Commit(c));
        }
      }
    }

    /** The session of a call that hit the primary key closes. */
    method TryAgain(c: CallId, sessionRaises: bool)
      requires Inv(View()) && c in calls && calls[c].phase.Conflicted?
      modifies this
      ensures Inv(View()) && numbers == old(numbers) && counters == old(counters) && c in calls
      ensures calls[c] == if sessionRaises then old(calls[c]).(phase := Raised)
        else Call(old(calls[c]).slot, Starting, old(calls[c]).attempt + 1)
    {
      assert Sound(View(), calls[c]);
      Perform(Retry(c, sessionRaises));
    }

    /** The lookup that begins a pass: it finds the key's number or leaves the call about to bump
        the counter. */
    method LookUp(c: CallId, env: Surroundings, tick: nat)
      requires Inv(View()) && c in calls && calls[c].phase.Starting?
      modifies this
      ensures Inv(View()) && Extends(numbers, old(numbers))
      ensures c in calls && calls[c] == old(calls[c]).(phase := calls[c].phase)
      ensures if env.refused(tick) then calls[c].phase.Raised?
              else calls[c].phase.Returned? || (calls[c].phase.Missed? && calls[c].slot !in old(numbers))
      ensures Alone(env) ==> numbers == old(numbers) && counters == old(counters)
      ensures Alone(env) ==> calls == old(calls)[c := calls[c]]
      ensures Alone(env) && calls[c].slot !in numbers ==> !calls[c].phase.Returned?
    {
      Interfere(c, env.others(tick));
      if env.refused(tick) {
        Fail(c);
        return;
      }
      var existing := GetAllocatedNumber(c);
      if existing.None? {
        Interfere(c, env.others(tick + 1));
      }
    }

    /** The transaction and, after a conflict, the close of its session. */
    method Transact(c: CallId, env: Surroundings, tick: nat)
      requires Inv(View()) && c in calls && calls[c].phase.Missed?
      modifies this
      ensures Inv(View()) && Extends(numbers, old(numbers))
      ensures c in calls && calls[c].slot == old(calls[c]).slot
      ensures Closes(old(calls[c]), calls[c], BumpEnds(old(View()), old(calls[c]).slot, env, tick), env)
      ensures Alone(env) ==> Settled(old(View()), View(), calls[c])
    {
      BumpAndInsert(c, env, tick);
      if calls[c].phase.Conflicted? {
        TryAgain(c, env.sessionRaises);
      }
    }

    /** One pass of the retry loop.  `met` is the state in which the counter row is reached. */
    method Attempt(c: CallId, env: Surroundings, tick: nat) returns (ghost met: Option<Ledger>)
      requires Inv(View()) && c in calls && calls[c].phase.Starting?
      modifies this
      ensures Inv(View()) && Attempted(old(View()), View(), c, env, tick, met)
    {
      met := None;
      LookUp(c, env, tick);
      if calls[c].phase.Missed? {
        met := Some(View());
        Transact(c, env, tick);
      }
    }

    /** The retry loop.  The second pass always finds the number the first one collided with. */
    method RetryLoop(c: CallId, slot: Slot, env: Surroundings) returns (r: Outcome, ghost met: Option<Ledger>)
      requires Inv(View()) && c in calls && calls[c] == Call(slot, Starting, 0)
      modifies this
      ensures Inv(View()) && Extends(numbers, old(numbers))
      ensures r.Number? || r.DatabaseError?
      ensures r.Number? ==> slot in numbers && numbers[slot] == r.number
      ensures Allocated(old(View()), View(), slot, env, r, met)
    {
      met := None;
      for attempt := 0 to ATTEMPTS
        invariant Inv(View()) && Extends(numbers, old(numbers))
        invariant c in calls && calls[c] == Call(slot, Starting, attempt)
        invariant attempt == 0 ==> View() == old(View())
        invariant attempt > 0 ==> Attempted(old(View()), View(), c, env, 0, met)
      {
        ghost var before := View();
        assert Sound(before, calls[c]);
        ghost var here := Attempt(c, env, 4 * attempt);
        assert Sound(View(), calls[c]);
        met := if attempt == 0 then here else met;
        if calls[c].phase.Returned? || calls[c].phase.Raised? {
          r := if calls[c].phase.Returned? then Number(calls[c].phase.number) else DatabaseError;
          if attempt == 0 {
            FirstEnds(old(View()), View(), c, slot, env, r, met);
          } else {
            SecondEnds(old(View()), before, View(), c, slot, env, r, met, here);
          }
          return;
        }
      }
      assert false;
      return RuntimeError, None;
    }

    /** The whole call.  Whatever the others do, a number that is handed out is the committed
        number of the key, no committed number is lost, and the error that reports used-up
        attempts is never raised.  Alone, with a free counter row and nothing refused, it hands
        out the key's number or the next one.  `met` is the state in which it reaches the counter
        row, if it does. */
    method AllocateDocumentNumber(c: CallId, slot: Slot, env: Surroundings)
      returns (r: Outcome, ghost met: Option<Ledger>)
      requires Inv(View()) && c !in calls
      modifies this
      ensures Inv(View()) && Extends(numbers, old(numbers))
      ensures r.ValueError? <==> slot.scope.company == "" || slot.scope.documentType == "" || slot.key == ""
      ensures r.ValueError? ==> numbers == old(numbers) && counters == old(counters)
      ensures r.Number? ==> slot in numbers && numbers[slot] == r.number
      ensures r.Number? && slot in old(numbers) ==> r.number == old(numbers)[slot]
      ensures !r.RuntimeError?
      ensures !r.ValueError? ==> Allocated(old(View()), View(), slot, env, r, met)
      ensures Alone(env) && !r.ValueError? && LockFree(old(View()), slot.scope) && (forall k :: !env.refused(k))
        ==> r == Number(if slot in old(numbers) then old(numbers)[slot] else Last(old(View()), slot.scope) + 1)
    {
      Perform(Enter(c, slot));
      if !WellFormed(slot) {
        return ValueError, None;
      }
      r, met := RetryLoop(c, slot, env);
      EnterIsNoStep(old(View()), View(), c, slot, env, r, met);
      NothingInTheWay(old(View()), View(), slot, env, r, met);
    }

    /** The number shown before anything is allocated: every smaller one is taken, it is not. */
    method PeekDocumentNumber(company: string, documentType: string) returns (number: nat)
      requires Inv(View())
      ensures company == "" <==> number == 0
      ensures forall k :: 1 <= k < number ==> Issued(View(), Scope(company, documentType), k)
      ensures !Issued(View(), Scope(company, documentType), number)
    {
      if company == "" {
        return 0;
      }
      return Last(View(), Scope(company, documentType)) + 1;
    }
  }
}
