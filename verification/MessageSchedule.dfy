/** When the letters of one warmup day go out: evenly over the daily window, each moved by a
    bounded random amount.  Times are seconds of local time. */
module MessageSchedule {
  const DAY: real := 86400.0
  const MINUTE: real := 60.0
  const MAX_JITTER: real := 300.0

  datatype Window = Window(start: real, end: real)

  /** The window that is actually used: tomorrow's when today's is over, and what is left of
      today's, a minute from now, when it has begun. */
  function Aim(now: real, today: Window): Window {
    if now >= today.end then Window(today.start + DAY, today.end + DAY)
    else if now > today.start then Window(now + MINUTE, today.end)
    else today
  }

  /** Conversion to a whole number drops the fraction, towards zero. */
  function Truncate(x: real): int {
    if x >= 0.0 then x.Floor else -(-x).Floor
  }

  function Span(w: Window): int {
    var whole := Truncate(w.end - w.start);
    if whole < 60 then 60 else whole
  }

  function Spacing(w: Window, count: nat): real {
    Span(w) as real / (count + 1) as real
  }

  function JitterLimit(spacing: real): real {
    if spacing * 0.15 < MAX_JITTER then spacing * 0.15 else MAX_JITTER
  }

  /** The random draws stay within the limit. */
  ghost predicate Bounded(jitter: nat -> real, limit: real) {
    forall i :: -limit <= jitter(i) <= limit
  }

  function Steps(spacing: real, n: nat): real {
    spacing * n as real
  }

  function Schedule(now: real, today: Window, count: int, jitter: nat -> real): seq<real> {
    if count <= 0 then []
    else
      var w := Aim(now, today);
      seq(count, i requires 0 <= i < count => w.start + Steps(Spacing(w, count), i + 1) + jitter(i))
  }

  lemma SpacingFacts(w: Window, count: nat)
    ensures Spacing(w, count) > 0.0
    ensures Steps(Spacing(w, count), count + 1) == Span(w) as real
    ensures 0.0 < JitterLimit(Spacing(w, count)) <= Spacing(w, count) * 0.15
    ensures JitterLimit(Spacing(w, count)) <= 300.0
    ensures JitterLimit(Spacing(w, count)) == Spacing(w, count) * 0.15 || JitterLimit(Spacing(w, count)) == 300.0
  {
  }

  /** Consecutive letters keep at least 0.7 of the spacing, so the times strictly increase. */
  lemma LettersKeepApart(now: real, today: Window, count: int, jitter: nat -> real, i: nat)
    requires i + 1 < count && Bounded(jitter, JitterLimit(Spacing(Aim(now, today), count)))
    ensures var times, spacing := Schedule(now, today, count, jitter), Spacing(Aim(now, today), count);
      times[i + 1] - times[i] >= 0.7 * spacing > 0.0
  {
    var w := Aim(now, today);
    SpacingFacts(w, count);
    var s := Spacing(w, count);
    assert Steps(s, i + 2) == Steps(s, i + 1) + s by {
      assert (i + 2) as real == (i + 1) as real + 1.0;
    }
  }

  lemma ScaleUp(s: real, a: real, b: real)
    requires s >= 0.0 && a <= b
    ensures s * a <= s * b
  {
    assert s * (b - a) >= 0.0;
    assert s * b == s * a + s * (b - a);
  }

  lemma StepsWithin(s: real, count: nat, i: nat)
    requires s > 0.0 && i < count
    ensures s <= Steps(s, i + 1) <= Steps(s, count)
    ensures Steps(s, count + 1) == Steps(s, count) + s
  {
    var one, here, all := 1.0, (i + 1) as real, count as real;
    assert one <= here <= all;
    ScaleUp(s, one, here);
    ScaleUp(s, here, all);
    assert (count + 1) as real == all + 1.0;
  }

  lemma JitterFits(s: real, offset: real, last: real, j: real, span: real)
    requires s > 0.0 && s <= offset <= last && span == last + s
    requires -JitterLimit(s) <= j <= JitterLimit(s)
    ensures 0.0 < offset + j < span
  {
    assert 0.0 < s * 0.15 < s;
  }

  lemma LetterOffset(s: real, count: nat, i: nat, j: real, span: real)
    requires s > 0.0 && i < count && Steps(s, count + 1) == span
    requires -JitterLimit(s) <= j <= JitterLimit(s)
    ensures 0.0 < Steps(s, i + 1) + j < span
  {
    StepsWithin(s, count, i);
    JitterFits(s, Steps(s, i + 1), Steps(s, count), j, span);
  }

  /** How far from the start of the window a letter can be. */
  lemma LetterIsWithinSpan(now: real, today: Window, count: int, jitter: nat -> real, i: nat)
    requires i < count && Bounded(jitter, JitterLimit(Spacing(Aim(now, today), count)))
    ensures var w := Aim(now, today);
      w.start < Schedule(now, today, count, jitter)[i] < w.start + Span(w) as real
  {
    var w := Aim(now, today);
    SpacingFacts(w, count);
    LetterOffset(Spacing(w, count), count, i, jitter(i), Span(w) as real);
  }

  /** Every letter lies in the future: the window's start is on the day of `now`. */
  lemma LettersLieAhead(now: real, today: Window, count: int, jitter: nat -> real, i: nat)
    requires today.start < today.end
    requires i < count && Bounded(jitter, JitterLimit(Spacing(Aim(now, today), count)))
    requires now <= today.start + DAY
    ensures Schedule(now, today, count, jitter)[i] > now
  {
    LetterIsWithinSpan(now, today, count, jitter, i);
  }

  /** The window is respected when at least a minute of it is left after the start that is
      actually used, and never overrun by two minutes. */
  lemma LettersRespectWindow(now: real, today: Window, count: int, jitter: nat -> real, i: nat)
    requires today.start < today.end
    requires i < count && Bounded(jitter, JitterLimit(Spacing(Aim(now, today), count)))
    ensures var w, t := Aim(now, today), Schedule(now, today, count, jitter)[i];
      && t < w.end + 2.0 * MINUTE
      && (w.end - w.start >= MINUTE ==> t < w.end)
  {
    LetterIsWithinSpan(now, today, count, jitter, i);
  }

  /** The overrun is real: with at most a minute left every letter goes out after the end. */
  lemma LastMinuteStartRunsPastTheEnd(now: real, today: Window, count: int, jitter: nat -> real, i: nat)
    requires today.start < now < today.end <= now + MINUTE
    requires i < count && Bounded(jitter, JitterLimit(Spacing(Aim(now, today), count)))
    ensures Schedule(now, today, count, jitter)[i] > Aim(now, today).end
  {
    LetterIsWithinSpan(now, today, count, jitter, i);
  }

  // ---- Where exactly the letters go ----

  /** Every letter lies in today's window before it and within it, and in tomorrow's after it. */
  lemma LettersGoIntoTheNextWindow(now: real, today: Window, count: int, jitter: nat -> real, i: nat)
    requires today.start < today.end
    requires i < count && Bounded(jitter, JitterLimit(Spacing(Aim(now, today), count)))
    ensures var t := Schedule(now, today, count, jitter)[i];
      if now >= today.end then
        today.start + DAY < t && (today.end - today.start >= MINUTE ==> t < today.end + DAY)
      else if now > today.start then
        now + MINUTE < t && (today.end - now >= 2.0 * MINUTE ==> t < today.end)
      else today.start < t && (today.end - today.start >= MINUTE ==> t < today.end)
  {
    LetterIsWithinSpan(now, today, count, jitter, i);
  }

  lemma WholeSpan(w: Window)
    ensures Span(w) >= 60
    ensures w.end - w.start >= MINUTE ==> w.end - w.start - 1.0 < Span(w) as real <= w.end - w.start
    ensures w.end - w.start < MINUTE ==> Span(w) == 60
  {
  }

  /** The letters divide the span evenly, and each is moved by its own draw: letter i lies i + 1
      of n + 1 equal parts after the start. */
  lemma LettersAreEven(now: real, today: Window, count: int, jitter: nat -> real, i: nat)
    requires i < count
    ensures var w, t := Aim(now, today), Schedule(now, today, count, jitter)[i];
      (count + 1) as real * (t - jitter(i) - w.start) == (i + 1) as real * Span(w) as real
  {
    var w := Aim(now, today);
    SpacingFacts(w, count);
    var s := Spacing(w, count);
    Regroup((count + 1) as real, s, (i + 1) as real, Span(w) as real);
  }

  lemma Regroup(n: real, s: real, k: real, span: real)
    requires s * n == span
    ensures n * (s * k) == k * span
  {
  }

  // ---- Exactly when the window is respected ----

  ghost predicate Within(now: real, today: Window, count: nat, jitter: nat -> real)
    requires count > 0
  {
    forall i :: 0 <= i < count ==> Schedule(now, today, count, jitter)[i] < Aim(now, today).end
  }

  /** For every number of letters and whatever is drawn. */
  ghost predicate AlwaysWithin(now: real, today: Window) {
    forall count: nat, jitter: nat -> real ::
      count > 0 && Bounded(jitter, JitterLimit(Spacing(Aim(now, today), count))) ==> Within(now, today, count, jitter)
  }

  /** Without any random amount the last letter leaves the last spacing of the span free. */
  lemma LastLetter(now: real, today: Window, count: nat)
    requires count > 0
    ensures var w, n := Aim(now, today), count as real;
      (n + 1.0) * (Schedule(now, today, count, _ => 0.0)[count - 1] - w.start) == n * Span(w) as real
  {
    var w, n := Aim(now, today), count as real;
    SpacingFacts(w, count);
    var s := Spacing(w, count);
    assert (count + 1) as real == n + 1.0;
    assert s * (n + 1.0) == Span(w) as real;
    Swap(s, n, Span(w) as real);
    assert Schedule(now, today, count, _ => 0.0)[count - 1] == w.start + Steps(s, count - 1 + 1) + 0.0;
    assert Steps(s, count - 1 + 1) == s * n;
  }

  lemma Swap(s: real, n: real, span: real)
    requires s * (n + 1.0) == span
    ensures (n + 1.0) * (s * n) == n * span
  {
  }

  /** Less than a minute left, and enough letters: the last one passes the end. */
  lemma LastLetterOverruns(now: real, today: Window, count: nat)
    requires var left := Aim(now, today).end - Aim(now, today).start;
      left < MINUTE && count as real * (MINUTE - left) >= left
    requires count > 0
    ensures !Within(now, today, count, _ => 0.0)
  {
    var w := Aim(now, today);
    var left, n := w.end - w.start, count as real;
    assert Span(w) == 60;
    LastLetter(now, today, count);
    var t := Schedule(now, today, count, _ => 0.0)[count - 1] - w.start;
    assert (n + 1.0) * t == n * 60.0;
    assert n * (MINUTE - left) == n * MINUTE - n * left;
    assert (n + 1.0) * left == n * left + left;
    Scale(n + 1.0, t, left);
  }

  lemma Scale(k: real, a: real, b: real)
    requires k > 0.0
    ensures a < b ==> k * a < k * b
  {
    assert k * b - k * a == k * (b - a);
    if a < b {
      assert k * (b - a) > 0.0;
    }
  }

  lemma EnoughLetters(left: real) returns (count: nat)
    requires left < MINUTE
    ensures count > 0 && count as real * (MINUTE - left) >= left
  {
    var each := MINUTE - left;
    var q := left / each;
    assert each * q == left;
    if q <= 1.0 {
      count := 1;
      ScaleUp(each, q, 1.0);
    } else {
      count := q.Floor + 1;
      ScaleUp(each, q, count as real);
    }
  }

  /** Every letter stays inside the window, for every number of letters and whatever is drawn,
      if and only if at least a minute of it is left after the start that is actually used; a
      plan made within the window starts a minute from now. */
  lemma InsideIffMinuteLeft(now: real, today: Window)
    requires today.start < today.end
    ensures AlwaysWithin(now, today) <==> Aim(now, today).end - Aim(now, today).start >= MINUTE
  {
    var left := Aim(now, today).end - Aim(now, today).start;
    if left >= MINUTE {
      forall count: nat, jitter: nat -> real | count > 0
        && Bounded(jitter, JitterLimit(Spacing(Aim(now, today), count)))
        ensures Within(now, today, count, jitter)
      {
        forall i | 0 <= i < count
          ensures Schedule(now, today, count, jitter)[i] < Aim(now, today).end
        {
          LettersRespectWindow(now, today, count, jitter, i);
        }
      }
    } else {
      var count := EnoughLetters(left);
      LastLetterOverruns(now, today, count);
      SpacingFacts(Aim(now, today), count);
      assert Bounded(_ => 0.0, JitterLimit(Spacing(Aim(now, today), count)));
    }
  }

  /** So planning less than two minutes before the end can overrun it. */
  lemma TwoMinutesToPlan(now: real, today: Window)
    requires today.start < now < today.end
    ensures AlwaysWithin(now, today) <==> now + 2.0 * MINUTE <= today.end
  {
    InsideIffMinuteLeft(now, today);
  }
}
