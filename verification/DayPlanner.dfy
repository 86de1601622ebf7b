/** Which letters one warmup day still needs: the recipient and the sequence number of each.

    The planner first lists the recipients of the missing letters, then walks the free
    sequence numbers in a second loop.  Each mode has a one-pass specification; the loops
    are proved to produce exactly it, and what a day plan promises is proved about it. */
module DayPlanner {
  import opened Common

  type RecipientId = string

  datatype Slot = Slot(recipient: RecipientId, number: nat)

  /** The stored number of letters per day, read the way the planner reads it. */
  function Quota(perDay: int): (q: nat)
    ensures q >= 1 && q >= perDay && (q == 1 || q == perDay)
  {
    if perDay < 1 then 1 else perDay
  }

  function Numbers(slots: seq<Slot>): (s: set<nat>) {
    set slot | slot in slots :: slot.number
  }

  ghost function MaxOf(s: set<nat>): (m: nat)
    ensures forall x :: x in s ==> x <= m
    ensures if s == {} then m == 0 else m in s
  {
    if s == {} then 0
    else
      var x :| x in s;
      var rest := MaxOf(s - {x});
      assert s == (s - {x}) + {x};
      if x > rest then x else rest
  }

  // ---- Growth mode ----

  /** Slot s of a growth day belongs to recipient s-1, counted round robin. */
  function Growth(recipients: seq<RecipientId>, target: nat, taken: set<nat>): seq<Slot>
    requires recipients != []
  {
    if target == 0 then []
    else
      Growth(recipients, target - 1, taken)
      + if target in taken then [] else [Slot(recipients[(target - 1) % |recipients|], target)]
  }

  /** A plan in increasing order that fills exactly the numbers missing from 1..target. */
  ghost predicate Fills(plan: seq<Slot>, target: nat, taken: set<nat>) {
    && (forall i, j :: 0 <= i < j < |plan| ==> plan[i].number < plan[j].number)
    && (forall i :: 0 <= i < |plan| ==> 1 <= plan[i].number <= target && plan[i].number !in taken)
    && (forall s :: 1 <= s <= target && s !in taken ==> s in Numbers(plan))
  }

  predicate RightSlot(slot: Slot, recipients: seq<RecipientId>, target: nat, taken: set<nat>)
    requires recipients != []
  {
    1 <= slot.number <= target && slot.number !in taken
      && slot.recipient == recipients[(slot.number - 1) % |recipients|]
  }

  lemma {:induction false} GrowthInRange(recipients: seq<RecipientId>, target: nat, taken: set<nat>, i: nat)
    requires recipients != [] && i < |Growth(recipients, target, taken)|
    ensures RightSlot(Growth(recipients, target, taken)[i], recipients, target, taken)
    ensures forall j ::
      0 <= j < i ==> Growth(recipients, target, taken)[j].number < Growth(recipients, target, taken)[i].number
  {
    var before := Growth(recipients, target - 1, taken);
    if i < |before| {
      GrowthInRange(recipients, target - 1, taken, i);
    } else {
      forall j | 0 <= j < i
        ensures before[j].number < target
      {
        GrowthInRange(recipients, target - 1, taken, j);
      }
    }
  }

  lemma {:induction false} GrowthCovers(recipients: seq<RecipientId>, target: nat, taken: set<nat>, s: nat)
    requires recipients != [] && 1 <= s <= target && s !in taken
    ensures s in Numbers(Growth(recipients, target, taken))
  {
    var plan := Growth(recipients, target, taken);
    if s == target {
      assert plan[|plan| - 1].number == s;
    } else {
      GrowthCovers(recipients, target - 1, taken, s);
      var slot :| slot in Growth(recipients, target - 1, taken) && slot.number == s;
      assert slot in plan;
    }
  }

  /** A growth plan fills every missing number of 1..target exactly once, in increasing
      order, and gives each to the recipient its number selects. */
  lemma {:induction false} GrowthFillsGaps(recipients: seq<RecipientId>, target: nat, taken: set<nat>)
    requires recipients != []
    ensures var plan := Growth(recipients, target, taken);
      && Fills(plan, target, taken)
      && (forall i :: 0 <= i < |plan| ==> RightSlot(plan[i], recipients, target, taken))
  {
    forall i | 0 <= i < |Growth(recipients, target, taken)|
      ensures RightSlot(Growth(recipients, target, taken)[i], recipients, target, taken)
      ensures forall j ::
        0 <= j < i ==> Growth(recipients, target, taken)[j].number < Growth(recipients, target, taken)[i].number
    {
      GrowthInRange(recipients, target, taken, i);
    }
    forall s | 1 <= s <= target && s !in taken
      ensures s in Numbers(Growth(recipients, target, taken))
    {
      GrowthCovers(recipients, target, taken, s);
    }
  }

  /** Planning the same day again, for whatever recipients, creates nothing. */
  lemma {:induction false} GrowthReplanIsEmpty(
      first: seq<RecipientId>, again: seq<RecipientId>, target: nat, taken: set<nat>, goal: nat)
    requires first != [] && again != [] && goal <= target
    ensures Growth(again, goal, taken + Numbers(Growth(first, target, taken))) == []
  {
    if goal > 0 {
      GrowthReplanIsEmpty(first, again, target, taken, goal - 1);
      GrowthFillsGaps(first, target, taken);
    }
  }

  function Load(plan: seq<Slot>, r: RecipientId): nat {
    if plan == [] then 0
    else Load(plan[..|plan| - 1], r) + if plan[|plan| - 1].recipient == r then 1 else 0
  }

  lemma {:induction false} LoadOfAppend(plan: seq<Slot>, more: seq<Slot>, r: RecipientId)
    ensures Load(plan + more, r) == Load(plan, r) + Load(more, r)
  {
    if more == [] {
      assert plan + more == plan;
    } else {
      assert (plan + more)[..|plan + more| - 1] == plan + more[..|more| - 1];
      LoadOfAppend(plan, more[..|more| - 1], r);
    }
  }

  /** The share of recipient i: whole rounds, and one more while the last round reaches it. */
  function Share(target: nat, n: nat, i: nat): nat
    requires n > 0
  {
    target / n + if i < target % n then 1 else 0
  }

  lemma ShareStep(target: nat, n: nat, i: nat)
    requires 0 < target && i < n
    ensures Share(target, n, i) == Share(target - 1, n, i) + if (target - 1) % n == i then 1 else 0
  {
    var q, m := (target - 1) / n, (target - 1) % n;
    assert target == q * n + m + 1;
    if m + 1 < n {
      DivModUnique(target, n, q, m + 1);
    } else {
      assert q * n + n == (q + 1) * n;
      DivModUnique(target, n, q + 1, 0);
    }
  }

  lemma MulAtLeast(d: nat, n: nat)
    requires d >= 1
    ensures d * n >= n
  {
    assert d * n == (d - 1) * n + n;
  }

  lemma MinusTimes(x: nat, y: nat, n: nat)
    ensures (x - y) * n == x * n - y * n
  {
  }

  lemma DivModUnique(a: nat, n: nat, q: nat, m: nat)
    requires 0 < n && a == q * n + m && m < n
    ensures a / n == q && a % n == m
  {
    var q' := a / n;
    MinusTimes(q, q', n);
    MinusTimes(q', q, n);
    if q' > q {
      MulAtLeast(q' - q, n);
    } else if q > q' {
      MulAtLeast(q - q', n);
    }
  }

  lemma {:induction false} GrowthLoad(recipients: seq<RecipientId>, target: nat, i: nat)
    requires Distinct(recipients) && i < |recipients|
    ensures Load(Growth(recipients, target, {}), recipients[i]) == Share(target, |recipients|, i)
  {
    var n := |recipients|;
    if target == 0 {
      DivModUnique(0, n, 0, 0);
    } else {
      GrowthLoad(recipients, target - 1, i);
      ShareStep(target, n, i);
      var last := [Slot(recipients[(target - 1) % n], target)];
      LoadOfAppend(Growth(recipients, target - 1, {}), last, recipients[i]);
      assert last[..0] == [];
    }
  }

  /** From an empty day the letters are spread evenly. */
  lemma GrowthIsBalanced(recipients: seq<RecipientId>, target: nat, i: nat, j: nat)
    requires Distinct(recipients) && i < |recipients| && j < |recipients|
    ensures var plan := Growth(recipients, target, {});
      -1 <= Load(plan, recipients[i]) - Load(plan, recipients[j]) <= 1
  {
    GrowthLoad(recipients, target, i);
    GrowthLoad(recipients, target, j);
  }

  ghost predicate Used(s: nat, taken: set<nat>, slots: seq<Slot>) {
    s in taken || s in Numbers(slots)
  }

  /** What the numbering loop does: the i-th recipient gets the i-th free number from `first` on. */
  ghost predicate Numbered(desired: seq<RecipientId>, first: nat, taken: set<nat>, slots: seq<Slot>) {
    && |slots| == |desired|
    && (forall i :: 0 <= i < |slots| ==> slots[i].recipient == desired[i])
    && (forall i :: 0 <= i < |slots| ==> first <= slots[i].number && slots[i].number !in taken)
    && (forall i, j :: 0 <= i < j < |slots| ==> slots[i].number < slots[j].number)
    && (forall i, s :: 0 <= i < |slots| && first <= s < slots[i].number ==> Used(s, taken, slots))
  }

  lemma NumberedStep(desired: seq<RecipientId>, first: nat, taken: set<nat>, slots: seq<Slot>, slot: Slot)
    requires Numbered(desired, first, taken, slots)
    requires first <= slot.number && slot.number !in taken
    requires forall k :: 0 <= k < |slots| ==> slots[k].number < slot.number
    requires forall s :: first <= s < slot.number ==> Used(s, taken, slots)
    ensures Numbered(desired + [slot.recipient], first, taken, slots + [slot])
  {
    var more := slots + [slot];
    NumbersOfAppend(slots, slot);
    forall i, s | 0 <= i < |more| && first <= s < more[i].number
      ensures Used(s, taken, more)
    {
      if i < |slots| {
        assert more[i] == slots[i];
      }
      assert Used(s, taken, slots);
    }
  }

  /** The first number from `from` on that is not used. */
  method NextFree(from: nat, used: set<nat>) returns (next: nat)
    ensures from <= next && next !in used
    ensures forall s :: from <= s < next ==> s in used
  {
    next := from;
    while next in used
      invariant from <= next
      invariant forall s :: from <= s < next ==> s in used
      decreases MaxOf(used) + 1 - next
    {
      next := next + 1;
    }
  }

  /** The numbering loop, shared by both modes. */
  method AssignNumbers(desired: seq<RecipientId>, first: nat, taken: set<nat>) returns (slots: seq<Slot>)
    ensures Numbered(desired, first, taken, slots)
  {
    var next := first;
    var used := taken;
    slots := [];
    for i := 0 to |desired|
      invariant Numbered(desired[..i], first, taken, slots)
      invariant used == taken + Numbers(slots)
      invariant first <= next
      invariant forall k :: 0 <= k < i ==> slots[k].number < next
      invariant forall s :: first <= s < next ==> Used(s, taken, slots)
    {
      var free := NextFree(next, used);
      var slot := Slot(desired[i], free);
      NumbersOfAppend(slots, slot);
      forall s | first <= s < free
        ensures Used(s, taken, slots)
      {
        assert s < next || s in used;
      }
      NumberedStep(desired[..i], first, taken, slots, slot);
      assert desired[..i + 1] == desired[..i] + [desired[i]];
      slots := slots + [slot];
      used := used + {free};
      next := free + 1;
    }
    assert desired[..|desired|] == desired;
  }

  /** The two loops together: they give every missing number to the recipient it selects. */
  lemma {:induction false} NumberedFills(
      plan: seq<Slot>, target: nat, first: nat, taken: set<nat>, desired: seq<RecipientId>, slots: seq<Slot>, i: nat)
    requires Fills(plan, target, taken) && |plan| == |desired|
    requires forall k :: 0 <= k < |plan| ==> plan[k].recipient == desired[k]
    requires 1 <= first && forall s :: 1 <= s < first ==> s in taken
    requires Numbered(desired, first, taken, slots) && i <= |plan|
    ensures slots[..i] == plan[..i]
  {
    if i > 0 {
      NumberedFills(plan, target, first, taken, desired, slots, i - 1);
      assert slots[..i - 1] == plan[..i - 1];
      SameNumber(plan, target, first, taken, desired, slots, i - 1);
      assert slots[..i] == slots[..i - 1] + [slots[i - 1]];
      assert plan[..i] == plan[..i - 1] + [plan[i - 1]];
    }
  }

  lemma SameNumber(
      plan: seq<Slot>, target: nat, first: nat, taken: set<nat>, desired: seq<RecipientId>, slots: seq<Slot>, i: nat)
    requires Fills(plan, target, taken)
    requires forall s :: 1 <= s < first ==> s in taken
    requires 1 <= first && Numbered(desired, first, taken, slots)
    requires i < |plan| && i < |slots| && slots[..i] == plan[..i]
    ensures slots[i].number == plan[i].number
  {
    var x, m := slots[i].number, plan[i].number;
    NotUsedBefore(plan, i);
    NotUsedBefore(slots, i);
    if x < m {
      assert x in Numbers(plan);
      SmallerIsEarlier(plan, i, x);
    } else if m < x {
      assert Used(m, taken, slots);
      SmallerIsEarlier(slots, i, m);
    }
  }

  lemma NotUsedBefore(slots: seq<Slot>, i: nat)
    requires i < |slots|
    requires forall j, k :: 0 <= j < k < |slots| ==> slots[j].number < slots[k].number
    ensures slots[i].number !in Numbers(slots[..i])
  {
  }

  lemma SmallerIsEarlier(plan: seq<Slot>, i: nat, x: nat)
    requires i < |plan| && x in Numbers(plan) && x < plan[i].number
    requires forall j, k :: 0 <= j < k < |plan| ==> plan[j].number < plan[k].number
    ensures x in Numbers(plan[..i])
  {
    var slot :| slot in plan && slot.number == x;
    var k :| 0 <= k < |plan| && plan[k] == slot;
    assert plan[..i][k] == slot;
  }

  /** The first loop of growth planning: the recipients of the missing letters. */
  method ListMissing(recipients: seq<RecipientId>, target: nat, taken: set<nat>) returns (desired: seq<RecipientId>)
    requires recipients != []
    ensures |desired| == |Growth(recipients, target, taken)|
    ensures forall i :: 0 <= i < |desired| ==> desired[i] == Growth(recipients, target, taken)[i].recipient
  {
    desired := [];
    for s := 1 to target + 1
      invariant |desired| == |Growth(recipients, s - 1, taken)|
      invariant forall i :: 0 <= i < |desired| ==> desired[i] == Growth(recipients, s - 1, taken)[i].recipient
    {
      if s !in taken {
        desired := desired + [recipients[(s - 1) % |recipients|]];
      }
    }
  }

  /** Growth planning: list the recipients, find the first free number, number the letters. */
  method PlanGrowth(recipients: seq<RecipientId>, target: nat, taken: set<nat>) returns (slots: seq<Slot>)
    requires recipients != []
    ensures slots == Growth(recipients, target, taken)
  {
    var desired := ListMissing(recipients, target, taken);
    var next := 1;
    while next <= target && next in taken
      invariant 1 <= next <= target + 1
      invariant forall s :: 1 <= s < next ==> s in taken
    {
      next := next + 1;
    }
    slots := AssignNumbers(desired, next, taken);
    ghost var plan := Growth(recipients, target, taken);
    GrowthFillsGaps(recipients, target, taken);
    NumberedFills(plan, target, next, taken, desired, slots, |plan|);
    assert plan[..|plan|] == plan && slots[..|plan|] == slots;
  }

  lemma NumbersOfAppend(slots: seq<Slot>, slot: Slot)
    ensures Numbers(slots + [slot]) == Numbers(slots) + {slot.number}
  {
    forall n | n in Numbers(slots) + {slot.number}
      ensures n in Numbers(slots + [slot])
    {
      if n == slot.number {
        assert slot in slots + [slot];
      } else {
        var s :| s in slots && s.number == n;
        assert s in slots + [slot];
      }
    }
  }

  // ---- Fixed mode ----

  function Planned(already: map<RecipientId, nat>, r: RecipientId): nat {
    if r in already then already[r] else 0
  }

  function PerDay(perDay: map<RecipientId, int>, r: RecipientId): nat {
    Quota(if r in perDay then perDay[r] else 0)
  }

  /** The recipients that get a letter in round q: quota not yet reached, letter q not yet planned. */
  function Round(
      recipients: seq<RecipientId>, perDay: map<RecipientId, int>, already: map<RecipientId, nat>, q: nat)
    : seq<RecipientId>
  {
    if recipients == [] then []
    else
      var r := recipients[|recipients| - 1];
      Round(recipients[..|recipients| - 1], perDay, already, q)
      + if Planned(already, r) <= q < PerDay(perDay, r) then [r] else []
  }

  function Demand(
      recipients: seq<RecipientId>, perDay: map<RecipientId, int>, already: map<RecipientId, nat>, rounds: nat)
    : seq<RecipientId>
  {
    if rounds == 0 then []
    else Demand(recipients, perDay, already, rounds - 1) + Round(recipients, perDay, already, rounds - 1)
  }

  function MaxQuota(recipients: seq<RecipientId>, perDay: map<RecipientId, int>): (m: nat)
    ensures forall r :: r in recipients ==> PerDay(perDay, r) <= m
  {
    if recipients == [] then 0
    else
      var rest := MaxQuota(recipients[..|recipients| - 1], perDay);
      var last := PerDay(perDay, recipients[|recipients| - 1]);
      if last > rest then last else rest
  }

  function Missing(perDay: map<RecipientId, int>, already: map<RecipientId, nat>, r: RecipientId, rounds: nat): nat {
    var reach := if rounds < PerDay(perDay, r) then rounds else PerDay(perDay, r);
    if reach <= Planned(already, r) then 0 else reach - Planned(already, r)
  }

  function Outstanding(
      recipients: seq<RecipientId>, perDay: map<RecipientId, int>, already: map<RecipientId, nat>, rounds: nat): nat
  {
    if recipients == [] then 0
    else
      Outstanding(recipients[..|recipients| - 1], perDay, already, rounds)
      + Missing(perDay, already, recipients[|recipients| - 1], rounds)
  }

  /** The sum of the quotas: what a fixed day promises in total. */
  function DailyTotal(recipients: seq<RecipientId>, perDay: map<RecipientId, int>): nat {
    if recipients == [] then 0
    else DailyTotal(recipients[..|recipients| - 1], perDay) + PerDay(perDay, recipients[|recipients| - 1])
  }

  function Times(rs: seq<RecipientId>, r: RecipientId): nat {
    if rs == [] then 0
    else Times(rs[..|rs| - 1], r) + if rs[|rs| - 1] == r then 1 else 0
  }

  lemma {:induction false} TimesOfAppend(a: seq<RecipientId>, b: seq<RecipientId>, r: RecipientId)
    ensures Times(a + b, r) == Times(a, r) + Times(b, r)
  {
    if b == [] {
      assert a + b == a;
    } else {
      assert (a + b)[..|a + b| - 1] == a + b[..|b| - 1];
      TimesOfAppend(a, b[..|b| - 1], r);
    }
  }

  lemma TimesOfOne(x: RecipientId, r: RecipientId)
    ensures Times([x], r) == if x == r then 1 else 0
  {
    assert [x][..0] == [];
  }

  lemma {:induction false} RoundTimes(
      recipients: seq<RecipientId>, perDay: map<RecipientId, int>, already: map<RecipientId, nat>, q: nat,
      r: RecipientId)
    requires Distinct(recipients)
    ensures Times(Round(recipients, perDay, already, q), r)
      == if r in recipients && Planned(already, r) <= q < PerDay(perDay, r) then 1 else 0
  {
    if recipients != [] {
      var rest, last := recipients[..|recipients| - 1], recipients[|recipients| - 1];
      RoundTimes(rest, perDay, already, q, r);
      assert recipients == rest + [last];
      assert r in recipients <==> r in rest || r == last;
      assert last !in rest;
      if Planned(already, last) <= q < PerDay(perDay, last) {
        TimesOfAppend(Round(rest, perDay, already, q), [last], r);
        TimesOfOne(last, r);
      } else {
        assert Round(rest, perDay, already, q) + [] == Round(rest, perDay, already, q);
      }
    }
  }

  lemma MissingStep(perDay: map<RecipientId, int>, already: map<RecipientId, nat>, r: RecipientId, rounds: nat)
    ensures Missing(perDay, already, r, rounds + 1)
      == Missing(perDay, already, r, rounds) + if Planned(already, r) <= rounds < PerDay(perDay, r) then 1 else 0
  {
  }

  lemma {:induction false} DemandTimes(
      recipients: seq<RecipientId>, perDay: map<RecipientId, int>, already: map<RecipientId, nat>, rounds: nat,
      r: RecipientId)
    requires Distinct(recipients)
    ensures Times(Demand(recipients, perDay, already, rounds), r)
      == if r in recipients then Missing(perDay, already, r, rounds) else 0
  {
    if rounds > 0 {
      DemandTimes(recipients, perDay, already, rounds - 1, r);
      var before, round := Demand(recipients, perDay, already, rounds - 1),
        Round(recipients, perDay, already, rounds - 1);
      assert Demand(recipients, perDay, already, rounds) == before + round;
      RoundTimes(recipients, perDay, already, rounds - 1, r);
      TimesOfAppend(before, round, r);
      MissingStep(perDay, already, r, rounds - 1);
    }
  }

  /** After a fixed plan each active recipient has max(quota, already planned) letters. */
  lemma FixedMeetsQuota(
      recipients: seq<RecipientId>, perDay: map<RecipientId, int>, already: map<RecipientId, nat>, r: RecipientId)
    requires Distinct(recipients)
    ensures var total := Planned(already, r)
      + Times(Demand(recipients, perDay, already, MaxQuota(recipients, perDay)), r);
      if r !in recipients then total == Planned(already, r)
      else if PerDay(perDay, r) < Planned(already, r) then total == Planned(already, r)
      else total == PerDay(perDay, r)
  {
    DemandTimes(recipients, perDay, already, MaxQuota(recipients, perDay), r);
  }

  lemma {:induction false} RoundSize(
      recipients: seq<RecipientId>, perDay: map<RecipientId, int>, already: map<RecipientId, nat>, q: nat)
    ensures Outstanding(recipients, perDay, already, q + 1)
      == Outstanding(recipients, perDay, already, q) + |Round(recipients, perDay, already, q)|
  {
    if recipients != [] {
      RoundSize(recipients[..|recipients| - 1], perDay, already, q);
    }
  }

  lemma {:induction false} NothingOutstanding(
      recipients: seq<RecipientId>, perDay: map<RecipientId, int>, already: map<RecipientId, nat>, rounds: nat)
    requires rounds == 0 || forall r :: r in recipients ==> PerDay(perDay, r) <= Planned(already, r)
    ensures Outstanding(recipients, perDay, already, rounds) == 0
  {
    if recipients != [] {
      NothingOutstanding(recipients[..|recipients| - 1], perDay, already, rounds);
      assert recipients[|recipients| - 1] in recipients;
    }
  }

  lemma {:induction false} DemandSize(
      recipients: seq<RecipientId>, perDay: map<RecipientId, int>, already: map<RecipientId, nat>, rounds: nat)
    ensures |Demand(recipients, perDay, already, rounds)| == Outstanding(recipients, perDay, already, rounds)
  {
    if rounds == 0 {
      NothingOutstanding(recipients, perDay, already, 0);
    } else {
      DemandSize(recipients, perDay, already, rounds - 1);
      RoundSize(recipients, perDay, already, rounds - 1);
    }
  }

  lemma {:induction false} FullRounds(recipients: seq<RecipientId>, perDay: map<RecipientId, int>, rounds: nat)
    requires forall r :: r in recipients ==> PerDay(perDay, r) <= rounds
    ensures Outstanding(recipients, perDay, map[], rounds) == DailyTotal(recipients, perDay)
  {
    if recipients != [] {
      FullRounds(recipients[..|recipients| - 1], perDay, rounds);
      assert recipients[|recipients| - 1] in recipients;
    }
  }

  /** From an empty day a fixed plan creates exactly the promised total. */
  lemma FixedDayCreatesTotal(recipients: seq<RecipientId>, perDay: map<RecipientId, int>)
    ensures |Demand(recipients, perDay, map[], MaxQuota(recipients, perDay))| == DailyTotal(recipients, perDay)
  {
    var rounds := MaxQuota(recipients, perDay);
    DemandSize(recipients, perDay, map[], rounds);
    FullRounds(recipients, perDay, rounds);
  }

  /** Planning again is empty exactly when every recipient already has its quota. */
  lemma FixedReplanIsEmpty(recipients: seq<RecipientId>, perDay: map<RecipientId, int>, already: map<RecipientId, nat>)
    requires Distinct(recipients)
    ensures Demand(recipients, perDay, already, MaxQuota(recipients, perDay)) == []
      <==> forall r :: r in recipients ==> PerDay(perDay, r) <= Planned(already, r)
  {
    var rounds := MaxQuota(recipients, perDay);
    if forall r :: r in recipients ==> PerDay(perDay, r) <= Planned(already, r) {
      NothingOutstanding(recipients, perDay, already, rounds);
      DemandSize(recipients, perDay, already, rounds);
    } else {
      var r :| r in recipients && PerDay(perDay, r) > Planned(already, r);
      DemandTimes(recipients, perDay, already, rounds, r);
    }
  }

  /** Once a fixed plan is carried out, planning again with the same quotas creates nothing. */
  lemma FixedTwiceIsOnce(
      recipients: seq<RecipientId>, perDay: map<RecipientId, int>, already: map<RecipientId, nat>,
      after: map<RecipientId, nat>)
    requires Distinct(recipients)
    requires forall r :: r in recipients ==>
      Planned(after, r)
        == Planned(already, r) + Times(Demand(recipients, perDay, already, MaxQuota(recipients, perDay)), r)
    ensures Demand(recipients, perDay, after, MaxQuota(recipients, perDay)) == []
  {
    forall r | r in recipients
      ensures PerDay(perDay, r) <= Planned(after, r)
    {
      FixedMeetsQuota(recipients, perDay, already, r);
    }
    FixedReplanIsEmpty(recipients, perDay, after);
  }

  // ---- The order of a fixed plan ----

  /** The letter of a round for the recipient at a position. */
  datatype Deal = Deal(round: nat, position: nat)

  predicate Earlier(a: Deal, b: Deal) {
    a.round < b.round || (a.round == b.round && a.position < b.position)
  }

  /** Still due: the letters of a recipient's quota after those already planned. */
  predicate Due(
      recipients: seq<RecipientId>, perDay: map<RecipientId, int>, already: map<RecipientId, nat>, d: Deal)
  {
    && d.position < |recipients|
    && var r := recipients[d.position];
       && (r in already ==> already[r] <= d.round)
       && (d.round == 0 || (r in perDay && d.round < perDay[r]))
  }

  /** The plan is dealt round by round, and in the order of the recipients within a round: exactly
      the letters due in the rounds before `rounds`. */
  ghost predicate DealtBefore(
      recipients: seq<RecipientId>, perDay: map<RecipientId, int>, already: map<RecipientId, nat>,
      plan: seq<RecipientId>, deals: seq<Deal>, rounds: nat)
  {
    && |deals| == |plan|
    && (forall i :: 0 <= i < |plan| ==> deals[i].position < |recipients| && plan[i] == recipients[deals[i].position])
    && (forall i, j :: 0 <= i < j < |deals| ==> Earlier(deals[i], deals[j]))
    && (forall d :: d in deals <==> d.round < rounds && Due(recipients, perDay, already, d))
  }

  /** Within one round. */
  ghost predicate DealtIn(
      recipients: seq<RecipientId>, perDay: map<RecipientId, int>, already: map<RecipientId, nat>,
      plan: seq<RecipientId>, deals: seq<Deal>, q: nat, n: nat)
    requires n <= |recipients|
  {
    && |deals| == |plan|
    && (forall i :: 0 <= i < |plan| ==> deals[i].position < |recipients| && plan[i] == recipients[deals[i].position])
    && (forall i, j :: 0 <= i < j < |deals| ==> Earlier(deals[i], deals[j]))
    && (forall d :: d in deals <==> d.round == q && d.position < n && Due(recipients, perDay, already, d))
  }

  lemma DueIsWanted(
      recipients: seq<RecipientId>, perDay: map<RecipientId, int>, already: map<RecipientId, nat>, d: Deal)
    requires d.position < |recipients|
    ensures Due(recipients, perDay, already, d)
      <==> var r := recipients[d.position]; Planned(already, r) <= d.round < PerDay(perDay, r)
  {
  }

  lemma DealOne(
      recipients: seq<RecipientId>, perDay: map<RecipientId, int>, already: map<RecipientId, nat>,
      plan: seq<RecipientId>, deals: seq<Deal>, q: nat, n: nat)
    requires n < |recipients| && DealtIn(recipients, perDay, already, plan, deals, q, n)
    ensures Due(recipients, perDay, already, Deal(q, n))
      ==> DealtIn(recipients, perDay, already, plan + [recipients[n]], deals + [Deal(q, n)], q, n + 1)
    ensures !Due(recipients, perDay, already, Deal(q, n))
      ==> DealtIn(recipients, perDay, already, plan, deals, q, n + 1)
  {
    forall i | 0 <= i < |deals|
      ensures Earlier(deals[i], Deal(q, n))
    {
      assert deals[i] in deals;
    }
    assert forall d: Deal :: d.position < n + 1 && d.round == q ==> d.position < n || d == Deal(q, n);
  }

  lemma {:induction false} RoundDeals(
      recipients: seq<RecipientId>, perDay: map<RecipientId, int>, already: map<RecipientId, nat>, q: nat, n: nat)
    returns (deals: seq<Deal>)
    requires n <= |recipients|
    ensures DealtIn(recipients, perDay, already, Round(recipients[..n], perDay, already, q), deals, q, n)
  {
    deals := [];
    if n > 0 {
      deals := RoundDeals(recipients, perDay, already, q, n - 1);
      assert recipients[..n][..n - 1] == recipients[..n - 1];
      DealOne(recipients, perDay, already, Round(recipients[..n - 1], perDay, already, q), deals, q, n - 1);
      DueIsWanted(recipients, perDay, already, Deal(q, n - 1));
      if Due(recipients, perDay, already, Deal(q, n - 1)) {
        deals := deals + [Deal(q, n - 1)];
      } else {
        assert Round(recipients[..n], perDay, already, q) == Round(recipients[..n - 1], perDay, already, q);
      }
    }
  }

  lemma DealRound(
      recipients: seq<RecipientId>, perDay: map<RecipientId, int>, already: map<RecipientId, nat>,
      plan: seq<RecipientId>, deals: seq<Deal>, more: seq<RecipientId>, last: seq<Deal>, q: nat)
    requires DealtBefore(recipients, perDay, already, plan, deals, q)
    requires DealtIn(recipients, perDay, already, more, last, q, |recipients|)
    ensures DealtBefore(recipients, perDay, already, plan + more, deals + last, q + 1)
  {
    forall i, j | 0 <= i < |deals| && 0 <= j < |last|
      ensures Earlier(deals[i], last[j])
    {
      assert deals[i] in deals && last[j] in last;
    }
  }

  /** The demand of a fixed day is dealt round by round. */
  lemma {:induction false} DemandIsDealt(
      recipients: seq<RecipientId>, perDay: map<RecipientId, int>, already: map<RecipientId, nat>, rounds: nat)
    returns (deals: seq<Deal>)
    ensures DealtBefore(recipients, perDay, already, Demand(recipients, perDay, already, rounds), deals, rounds)
  {
    deals := [];
    if rounds > 0 {
      var before := DemandIsDealt(recipients, perDay, already, rounds - 1);
      var last := RoundDeals(recipients, perDay, already, rounds - 1, |recipients|);
      assert recipients[..|recipients|] == recipients;
      DealRound(recipients, perDay, already, Demand(recipients, perDay, already, rounds - 1), before,
                Round(recipients, perDay, already, rounds - 1), last, rounds - 1);
      deals := before + last;
    }
  }

  /** The plan is dealt in rounds until nothing is due. */
  ghost predicate Dealt(
      recipients: seq<RecipientId>, perDay: map<RecipientId, int>, already: map<RecipientId, nat>,
      plan: seq<RecipientId>, deals: seq<Deal>)
  {
    && |deals| == |plan|
    && (forall i :: 0 <= i < |plan| ==> deals[i].position < |recipients| && plan[i] == recipients[deals[i].position])
    && (forall i, j :: 0 <= i < j < |deals| ==> Earlier(deals[i], deals[j]))
    && (forall d :: d in deals <==> Due(recipients, perDay, already, d))
  }

  /** A fixed plan deals exactly the letters that are due, round by round and in the order of the
      recipients within a round. */
  lemma FixedIsDealtInRounds(
      recipients: seq<RecipientId>, perDay: map<RecipientId, int>, already: map<RecipientId, nat>)
    returns (deals: seq<Deal>)
    ensures Dealt(recipients, perDay, already, Demand(recipients, perDay, already, MaxQuota(recipients, perDay)), deals)
  {
    deals := DemandIsDealt(recipients, perDay, already, MaxQuota(recipients, perDay));
    forall d | Due(recipients, perDay, already, d)
      ensures d.round < MaxQuota(recipients, perDay)
    {
      DueIsWanted(recipients, perDay, already, d);
      assert recipients[d.position] in recipients;
    }
  }

  /** A fixed plan numbers its letters from the first number above every used one. */
  ghost function Fixed(
      recipients: seq<RecipientId>, perDay: map<RecipientId, int>, already: map<RecipientId, nat>, taken: set<nat>)
    : (slots: seq<Slot>)
    ensures |slots| == |Demand(recipients, perDay, already, MaxQuota(recipients, perDay))|
  {
    var demand := Demand(recipients, perDay, already, MaxQuota(recipients, perDay));
    seq(|demand|, i requires 0 <= i < |demand| => Slot(demand[i], MaxOf(taken) + 1 + i))
  }

  /** Fixed plans never reuse a number of the day, nor repeat one of their own. */
  lemma FixedNumbersAreFresh(
      recipients: seq<RecipientId>, perDay: map<RecipientId, int>, already: map<RecipientId, nat>, taken: set<nat>)
    ensures var plan := Fixed(recipients, perDay, already, taken);
      && Numbers(plan) !! taken
      && (forall i :: 0 <= i < |plan| ==> plan[i].number == MaxOf(taken) + i + 1)
      && (forall i, j :: 0 <= i < j < |plan| ==> plan[i].number < plan[j].number)
  {
    var plan := Fixed(recipients, perDay, already, taken);
    forall n | n in Numbers(plan)
      ensures n !in taken
    {
      var slot :| slot in plan && slot.number == n;
      assert n > MaxOf(taken);
    }
  }

  method Highest(s: set<nat>) returns (m: nat)
    ensures m == MaxOf(s)
  {
    m := 0;
    var rest := s;
    while rest != {}
      invariant rest <= s
      invariant forall x :: x in s && x !in rest ==> x <= m
      invariant m == 0 || m in s
      decreases rest
    {
      var x :| x in rest;
      if x > m {
        m := x;
      }
      rest := rest - {x};
    }
  }

  method HighestQuota(recipients: seq<RecipientId>, perDay: map<RecipientId, int>) returns (rounds: nat)
    ensures rounds == MaxQuota(recipients, perDay)
  {
    rounds := 0;
    for i := 0 to |recipients|
      invariant rounds == MaxQuota(recipients[..i], perDay)
    {
      assert recipients[..i + 1][..i] == recipients[..i];
      if PerDay(perDay, recipients[i]) > rounds {
        rounds := PerDay(perDay, recipients[i]);
      }
    }
    assert recipients[..|recipients|] == recipients;
  }

  method ListRound(recipients: seq<RecipientId>, perDay: map<RecipientId, int>, already: map<RecipientId, nat>, q: nat)
    returns (round: seq<RecipientId>)
    ensures round == Round(recipients, perDay, already, q)
  {
    round := [];
    for i := 0 to |recipients|
      invariant round == Round(recipients[..i], perDay, already, q)
    {
      assert recipients[..i + 1][..i] == recipients[..i];
      var r := recipients[i];
      if q >= PerDay(perDay, r) || q < Planned(already, r) {
        continue;
      }
      round := round + [r];
    }
    assert recipients[..|recipients|] == recipients;
  }

  /** The numbering loop never meets a used number when it starts above all of them. */
  lemma {:induction false} NumberedAbove(desired: seq<RecipientId>, taken: set<nat>, slots: seq<Slot>, i: nat)
    requires Numbered(desired, MaxOf(taken) + 1, taken, slots) && i < |slots|
    ensures slots[i].number == MaxOf(taken) + 1 + i
  {
    if i > 0 {
      NumberedAbove(desired, taken, slots, i - 1);
    }
    var x := MaxOf(taken) + 1 + i;
    BelowPrevious(slots, i);
    assert x !in taken;
    if x < slots[i].number {
      assert Used(x, taken, slots);
      SmallerIsEarlier(slots, i, x);
    }
  }

  lemma BelowPrevious(slots: seq<Slot>, i: nat)
    requires i < |slots|
    requires forall j, k :: 0 <= j < k < |slots| ==> slots[j].number < slots[k].number
    ensures forall n :: n in Numbers(slots[..i]) ==> i > 0 && n <= slots[i - 1].number
  {
    forall n | n in Numbers(slots[..i])
      ensures i > 0 && n <= slots[i - 1].number
    {
      var slot :| slot in slots[..i] && slot.number == n;
      var k :| 0 <= k < i && slots[..i][k] == slot;
    }
  }

  /** Fixed planning: the nested loops over rounds and recipients, then the numbering loop. */
  method PlanFixed(
      recipients: seq<RecipientId>, perDay: map<RecipientId, int>, already: map<RecipientId, nat>, taken: set<nat>)
    returns (slots: seq<Slot>)
    ensures slots == Fixed(recipients, perDay, already, taken)
  {
    var rounds := HighestQuota(recipients, perDay);
    var desired: seq<RecipientId> := [];
    for q := 0 to rounds
      invariant desired == Demand(recipients, perDay, already, q)
    {
      var round := ListRound(recipients, perDay, already, q);
      desired := desired + round;
    }
    var highest := Highest(taken);
    slots := AssignNumbers(desired, highest + 1, taken);
    forall i | 0 <= i < |slots|
      ensures slots[i].number == highest + 1 + i
    {
      NumberedAbove(desired, taken, slots, i);
    }
  }
}
