/** The spaced-repetition scheduler of StorageService.updateSrsOnAnswer
    (src/app/core/services/storage.service.ts), stated as functions of the
    entry on entry, the answer and the current time. Times and intervals
    are integer milliseconds; the ease factor is an exact real. */
module Srs {

  import opened Models

  const Second: int := 1000
  const Minute: int := 60 * Second
  const Hour: int := 60 * Minute
  const Day: int := 24 * Hour

  const EfFloor: real := 1.3
  const EfCeiling: real := 3.5

  function RMax(a: real, b: real): real { if a >= b then a else b }
  function RMin(a: real, b: real): real { if a <= b then a else b }
  function IMax(a: int, b: int): int { if a >= b then a else b }
  function IMin(a: int, b: int): int { if a <= b then a else b }

  /** Math.round: the nearest integer, halves rounded up. */
  function Round(x: real): (n: int)
    ensures x - 0.5 < n as real <= x + 0.5
  {
    (x + 0.5).Floor
  }

  /** The SM-2 ease-factor change for an answer of quality q (0..5). */
  function EfDelta(q: int): real {
    0.1 - (5 - q) as real * (0.08 + (5 - q) as real * 0.02)
  }

  /** The entry a key starts from when it has none. */
  function DefaultEntry(now: int): SrsEntry {
    SrsEntry(0, 0, now, 2.5, 0, 0, 0)
  }

  /** The entry updateSrsOnAnswer starts from: the stored one, else the
      default. */
  function Start(srs: map<string, SrsEntry>, key: string, now: int): SrsEntry {
    if key in srs then srs[key] else DefaultEntry(now)
  }

  /** The overdue penalty applied before the answer is scored: when the
      review is more than a quarter of an interval late, the ease factor
      drops by 0.05 + 0.05 * ratio, at most 0.15, floored at 1.3. */
  function LatePenalty(e: SrsEntry, now: int): SrsEntry {
    if now > e.nextDue && e.lastInterval > 0 then
      var ratio := (now - e.nextDue) as real / e.lastInterval as real;
      if ratio > 0.25 then e.(ef := RMax(EfFloor, e.ef - RMin(0.15, 0.05 + 0.05 * ratio))) else e
    else e
  }

  /** The multiplicative growth target: last interval times ease factor,
      with a bonus of 5% per consecutive correct answer. */
  function Growth(lastInterval: int, ef: real, consecutive: int): real {
    lastInterval as real * ef * (1.0 + consecutive as real / 20.0)
  }

  /** The next interval after a correct answer, before the 2 h floor, the
      60-day cap and the growth bump; `e` already has its counters and
      ease factor raised. */
  function RawInterval(e: SrsEntry): int {
    if e.reviewCount == 1 then 5 * Minute
    else if e.reviewCount == 2 then 35 * Minute
    else if e.reviewCount == 3 then IMax(12 * Hour, e.lastInterval + Hour)
    else Round(Growth(e.lastInterval, e.ef, e.consecutive))
  }

  /** The interval after the floor, the cap and the strict-growth bump
      (`if (lastInterval && interval <= lastInterval)`). */
  function ScheduledInterval(e: SrsEntry): int {
    var floored := if e.reviewCount >= 3 then IMax(RawInterval(e), 2 * Hour) else RawInterval(e);
    var capped := IMin(floored, 60 * Day);
    if e.lastInterval != 0 && capped <= e.lastInterval then e.lastInterval + Minute else capped
  }

  function AfterCorrect(e: SrsEntry, now: int): SrsEntry {
    var raised := e.(ef := RMax(EfFloor, e.ef + EfDelta(5)),
                     consecutive := e.consecutive + 1,
                     reviewCount := e.reviewCount + 1);
    var interval := ScheduledInterval(raised);
    raised.(lastInterval := interval, nextDue := now + interval, intervalIndex := e.intervalIndex + 1)
  }

  /** A wrong answer: a lapse when the entry had reached three reviews,
      otherwise an early miss. */
  function AfterMiss(e: SrsEntry, now: int): SrsEntry {
    if e.reviewCount >= 3 then
      var lapses := e.lapses + 1;
      e.(consecutive := 0, lapses := lapses, reviewCount := 1, intervalIndex := 1,
         lastInterval := 5 * Minute,
         ef := RMax(EfFloor, e.ef - (0.2 + 0.05 * IMin(3, lapses - 1) as real)),
         nextDue := now + 5 * Minute)
    else
      var dropped := RMax(EfFloor, e.ef - 0.2);
      e.(consecutive := 0, reviewCount := 0, intervalIndex := 0, lastInterval := 0,
         ef := if dropped == e.ef then RMax(EfFloor, e.ef - 0.01) else dropped,
         nextDue := now + 30 * Second)
  }

  /** The entry updateSrsOnAnswer stores and returns. */
  function NextSrsEntry(e: SrsEntry, now: int, correct: bool): SrsEntry {
    var p := LatePenalty(e, now);
    var q := if correct then AfterCorrect(p, now) else AfterMiss(p, now);
    q.(ef := RMax(EfFloor, RMin(q.ef, EfCeiling)))
  }

  predicate EfInRange(e: SrsEntry) {
    EfFloor <= e.ef <= EfCeiling
  }

  /** What every entry the scheduler writes satisfies: counters and the
      interval are non-negative and the ease factor is within the clamp. */
  predicate WellFormed(e: SrsEntry) {
    && e.consecutive >= 0 && e.intervalIndex >= 0 && e.reviewCount >= 0
    && e.lastInterval >= 0 && e.lapses >= 0 && EfInRange(e)
  }

  // ---------------------------------------------------------------------
  // Properties

  /** The final clamp keeps every stored ease factor within [1.3, 3.5]. */
  lemma NextEfInRange(e: SrsEntry, now: int, correct: bool)
    ensures EfInRange(NextSrsEntry(e, now, correct))
  {
  }

  /** The default entry is well formed, and so is every entry the
      scheduler derives from a well-formed one. */
  lemma NextWellFormed(e: SrsEntry, now: int, correct: bool)
    requires WellFormed(e)
    ensures WellFormed(DefaultEntry(now))
    ensures WellFormed(NextSrsEntry(e, now, correct))
  {
    if correct {
      CorrectAnswerGrows(e, now);
    }
  }

  /** The penalty never raises an ease factor that is at least 1.3, takes
      off at most 0.15, applies only to a review more than a quarter of an
      interval late, and leaves every other field alone. */
  lemma LatePenaltyBounds(e: SrsEntry, now: int)
    ensures var p := LatePenalty(e, now);
      && (e.ef >= EfFloor ==> EfFloor <= p.ef <= e.ef)
      && e.ef - p.ef <= 0.15
      && (p.ef != e.ef ==> now > e.nextDue && e.lastInterval > 0 && 4 * (now - e.nextDue) > e.lastInterval)
      && p == e.(ef := p.ef)
  {
    if now > e.nextDue && e.lastInterval > 0 {
      var ratio := (now - e.nextDue) as real / e.lastInterval as real;
      if ratio > 0.25 {
        assert (now - e.nextDue) as real > 0.25 * e.lastInterval as real;
      }
    }
  }

  /** Very late (twice the interval or more) costs the full 0.15 unless the
      floor is reached first. */
  lemma VeryLateCostsFullPenalty(e: SrsEntry, now: int)
    requires e.lastInterval > 0 && now - e.nextDue >= 2 * e.lastInterval
    ensures LatePenalty(e, now).ef == RMax(EfFloor, e.ef - 0.15)
  {
    var ratio := (now - e.nextDue) as real / e.lastInterval as real;
    assert ratio >= 2.0;
  }

  /** A correct answer raises consecutive, reviewCount and intervalIndex
      by one, raises the ease factor by 0.1 (within the clamp) and
      schedules the next review one interval from now. */
  lemma CorrectAnswerCounters(e: SrsEntry, now: int)
    ensures var n := NextSrsEntry(e, now, true);
      && n.consecutive == e.consecutive + 1
      && n.reviewCount == e.reviewCount + 1
      && n.intervalIndex == e.intervalIndex + 1
      && n.lapses == e.lapses
      && n.ef == RMax(EfFloor, RMin(RMax(EfFloor, LatePenalty(e, now).ef + 0.1), EfCeiling))
      && n.nextDue == now + n.lastInterval
  {
  }

  /** The interval schedule of a correct answer, by review number (after
      the answer): 5 min, 35 min, max(12 h, last + 1 h), then
      round(last * ef * (1 + consecutive / 20)); from the third review on
      at least 2 h; capped at 60 days; then bumped to last + 1 min if it
      did not grow. */
  lemma CorrectAnswerSchedule(e: SrsEntry, now: int)
    ensures var p := LatePenalty(e, now);
      var n := NextSrsEntry(e, now, true);
      var raw :=
        if n.reviewCount == 1 then 5 * Minute
        else if n.reviewCount == 2 then 35 * Minute
        else if n.reviewCount == 3 then IMax(12 * Hour, e.lastInterval + Hour)
        else Round(Growth(e.lastInterval, RMax(EfFloor, p.ef + 0.1), n.consecutive));
      var capped := IMin(if n.reviewCount >= 3 then IMax(raw, 2 * Hour) else raw, 60 * Day);
      n.lastInterval == if e.lastInterval != 0 && capped <= e.lastInterval then e.lastInterval + Minute else capped
  {
    var p := LatePenalty(e, now);
    assert EfDelta(5) == 0.1;
    var raised := p.(ef := RMax(EfFloor, p.ef + EfDelta(5)),
                     consecutive := p.consecutive + 1,
                     reviewCount := p.reviewCount + 1);
    assert p.lastInterval == e.lastInterval && p.reviewCount == e.reviewCount && p.consecutive == e.consecutive by {
      LatePenaltyBounds(e, now);
    }
    assert AfterCorrect(p, now).lastInterval == ScheduledInterval(raised);
  }

  /** Intervals grow strictly: a correct answer on an entry with a
      positive interval yields a longer one, at least 5 minutes, at least
      2 h from the third review on, and beyond 60 days only by the 1-minute
      bump of an interval already at the cap. */
  lemma CorrectAnswerGrows(e: SrsEntry, now: int)
    requires e.lastInterval >= 0 && e.reviewCount >= 0
    ensures var n := NextSrsEntry(e, now, true);
      && (e.lastInterval > 0 ==> n.lastInterval > e.lastInterval)
      && n.lastInterval >= 5 * Minute
      && (n.reviewCount >= 3 ==> n.lastInterval >= 2 * Hour)
      && n.lastInterval <= IMax(60 * Day, e.lastInterval + Minute)
  {
  }

  /** The 60-day cap can be exceeded: an interval already at 60 days is
      bumped by a minute. */
  lemma CapExceededByBump(now: int)
    ensures var e := SrsEntry(4, 4, now, 2.5, 4, 60 * Day, 0);
      NextSrsEntry(e, now, true).lastInterval == 60 * Day + Minute
  {
  }

  /** An early miss (fewer than three reviews) resets the progression,
      retries in 30 s, and lowers an in-range ease factor, strictly
      unless it is already at the floor. */
  lemma EarlyMiss(e: SrsEntry, now: int)
    requires e.reviewCount < 3
    ensures var n := NextSrsEntry(e, now, false);
      && n.consecutive == 0 && n.reviewCount == 0 && n.intervalIndex == 0 && n.lastInterval == 0
      && n.nextDue == now + 30 * Second
      && n.lapses == e.lapses
      && (EfInRange(e) ==> n.ef <= e.ef)
      && (EfInRange(e) && e.ef > EfFloor ==> n.ef < e.ef)
  {
    LatePenaltyBounds(e, now);
  }

  /** A lapse (a miss after three or more reviews) counts the lapse,
      keeps a foothold at review 1, reintroduces the card in 5 minutes and
      takes 0.2 + 0.05 * min(3, lapses - 1) off the ease factor. */
  lemma Lapse(e: SrsEntry, now: int)
    requires e.reviewCount >= 3 && e.lapses >= 0
    ensures var n := NextSrsEntry(e, now, false);
      && n.lapses == e.lapses + 1
      && n.consecutive == 0 && n.reviewCount == 1 && n.intervalIndex == 1
      && n.lastInterval == 5 * Minute && n.nextDue == now + 5 * Minute
      && (EfInRange(e) ==> n.ef == EfFloor || n.ef <= e.ef - 0.2)
      && (EfInRange(e) ==> n.ef <= e.ef - (0.2 + 0.05 * IMin(3, e.lapses) as real) || n.ef == EfFloor)
      && (LatePenalty(e, now).ef <= EfCeiling ==>
            n.ef == RMax(EfFloor, LatePenalty(e, now).ef - (0.2 + 0.05 * IMin(3, e.lapses) as real)))
      && (now <= e.nextDue && e.ef <= EfCeiling ==>
            n.ef == RMax(EfFloor, e.ef - (0.2 + 0.05 * IMin(3, e.lapses) as real)))
  {
    LatePenaltyBounds(e, now);
  }

  /** Three correct answers on a fresh key at one instant: reviews 1, 2,
      3 with intervals 5 min, 35 min and 12 h, the ease factor rising from
      2.5 to 2.8. */
  lemma ThreeCorrectFromFresh(now: int)
    ensures var e1 := NextSrsEntry(DefaultEntry(now), now, true);
      var e2 := NextSrsEntry(e1, now, true);
      var e3 := NextSrsEntry(e2, now, true);
      && e1.reviewCount == 1 && e1.lastInterval == 5 * Minute
      && e2.reviewCount == 2 && e2.lastInterval == 35 * Minute
      && e3.reviewCount == 3 && e3.lastInterval == 12 * Hour
      && e3.lastInterval > e2.lastInterval
      && e3.ef == 2.8
  {
  }
}
