/** The first StorageService (blackjack-trainer/src/app/core/services/
    storage.service.ts): the same history and streaks as the later one, a
    mastery cache and an SRS cache that it hands out by reference, the
    saved rule set, and a simpler SM-2 scheduler without overdue penalty,
    lapses or ease ceiling. localStorage is left out: the constructor
    receives what was stored. */
module LegacyStorage {

  import opened Options
  import opened Models
  import opened Srs
  import opened Storage

  /** The legacy SRS entry: no lapse counter. */
  datatype LegacySrsEntry = LegacySrsEntry(consecutive: int, intervalIndex: int, nextDue: int,
                                           ef: real, reviewCount: int, lastInterval: int)

  /** A record object that the service keeps as its cache and hands out
      by reference: whoever holds it sees and makes the same updates. */
  class MasteryTable {
    var counts: map<string, int>
    constructor (counts0: map<string, int>)
      ensures counts == counts0
    {
      counts := counts0;
    }
  }

  class SrsTable {
    var entries: map<string, LegacySrsEntry>
    constructor (entries0: map<string, LegacySrsEntry>)
      ensures entries == entries0
    {
      entries := entries0;
    }
  }

  // ---------------------------------------------------------------------
  // The legacy scheduler

  const LegacyCap: int := 30 * Day

  function LegacyDefault(now: int): LegacySrsEntry {
    LegacySrsEntry(0, 0, now, 2.5, 0, 0)
  }

  function LegacyStart(m: map<string, LegacySrsEntry>, key: string, now: int): LegacySrsEntry {
    if key in m then m[key] else LegacyDefault(now)
  }

  /** lastInterval * ef, kept behind a name so the product stays opaque to
      arithmetic the proofs do not need. */
  function Scaled(lastInterval: int, ef: real): real {
    lastInterval as real * ef
  }

  /** The interval after a correct answer; `e` has its review count and
      ease factor already raised. */
  function LegacyInterval(e: LegacySrsEntry): int {
    if e.reviewCount == 1 then 5 * Minute
    else if e.reviewCount == 2 then 30 * Minute
    else IMin(Round(Scaled(e.lastInterval, e.ef)), LegacyCap)
  }

  /** updateSrsOnAnswer of the first service: quality 5 or 2 moves the
      ease factor by the SM-2 delta (floored at 1.3); a correct answer
      counts up and schedules the next interval, a miss resets the
      counters and retries in 30 s. */
  function NextLegacyEntry(e: LegacySrsEntry, now: int, correct: bool): LegacySrsEntry {
    var quality := if correct then 5 else 2;
    var scored := e.(ef := RMax(EfFloor, e.ef + EfDelta(quality)));
    if correct then
      var counted := scored.(consecutive := scored.consecutive + 1, reviewCount := scored.reviewCount + 1);
      var interval := LegacyInterval(counted);
      counted.(lastInterval := interval, nextDue := now + interval, intervalIndex := counted.intervalIndex + 1)
    else
      scored.(consecutive := 0, reviewCount := 0, lastInterval := 0, intervalIndex := 0, nextDue := now + 30 * Second)
  }

  /** The ease factor rises by 0.1 on a correct answer and falls by 0.32 on
      a miss, never below 1.3; it has no ceiling. */
  lemma LegacyEaseFactor(e: LegacySrsEntry, now: int, correct: bool)
    ensures NextLegacyEntry(e, now, correct).ef >= EfFloor
    ensures correct ==> NextLegacyEntry(e, now, correct).ef == RMax(EfFloor, e.ef + 0.1)
    ensures !correct ==> NextLegacyEntry(e, now, correct).ef == RMax(EfFloor, e.ef - 0.32)
  {
    assert EfDelta(5) == 0.1;
    assert EfDelta(2) == -0.32;
  }

  /** A miss resets every counter and schedules a retry 30 s later. */
  lemma LegacyMiss(e: LegacySrsEntry, now: int)
    ensures var r := NextLegacyEntry(e, now, false);
      r.consecutive == 0 && r.reviewCount == 0 && r.intervalIndex == 0
      && r.lastInterval == 0 && r.nextDue == now + 30 * Second
  {
  }

  /** A correct answer counts up by one, and the next due time is the new
      interval away; the interval is 5 min at the first review, 30 min at
      the second and at most 30 days. */
  lemma LegacyCorrect(e: LegacySrsEntry, now: int)
    ensures var r := NextLegacyEntry(e, now, true);
      && r.consecutive == e.consecutive + 1
      && r.reviewCount == e.reviewCount + 1
      && r.intervalIndex == e.intervalIndex + 1
      && r.nextDue == now + r.lastInterval
      && r.lastInterval <= LegacyCap
      && (r.reviewCount == 1 ==> r.lastInterval == 5 * Minute)
      && (r.reviewCount == 2 ==> r.lastInterval == 30 * Minute)
  {
  }

  /** From the third review on, the interval never shrinks while it is
      below the cap: the ease factor is at least 1.3, and rounding loses
      less than the 30% gained. */
  lemma {:induction false} LegacyIntervalGrows(e: LegacySrsEntry, now: int)
    requires e.reviewCount >= 2
    requires 0 <= e.lastInterval <= LegacyCap
    ensures NextLegacyEntry(e, now, true).lastInterval >= e.lastInterval
  {
    var ef := RMax(EfFloor, e.ef + EfDelta(5));
    RoundScaledAtLeast(e.lastInterval, ef);
    assert NextLegacyEntry(e, now, true).lastInterval == IMin(Round(Scaled(e.lastInterval, ef)), LegacyCap);
  }

  /** Scaling by an ease factor of at least 1.3 and rounding never gives
      less than the interval scaled. */
  lemma RoundScaledAtLeast(x: int, ef: real)
    requires x >= 0 && ef >= EfFloor
    ensures Round(Scaled(x, ef)) >= x
  {
    var xr := x as real;
    var scaled := Scaled(x, ef);
    ProductAtLeast(xr, ef, EfFloor);
    assert scaled >= xr * 1.3;
    var n := Round(scaled);
    assert n as real > xr * 1.3 - 0.5;
    if x >= 2 {
      assert xr * 1.3 - 0.5 >= xr;
    } else if x == 1 {
      assert n as real > 0.8;
    }
  }

  lemma ProductAtLeast(x: real, a: real, b: real)
    requires x >= 0.0 && a >= b
    ensures x * a >= x * b
  {
    assert x * a - x * b == x * (a - b);
  }

  /** Three correct answers on a new key: 5 min, 30 min, then 84 min
      (30 min times the ease factor 2.8). */
  lemma LegacyThreeCorrect(now: int)
    ensures var r1 := NextLegacyEntry(LegacyDefault(now), now, true);
      var r2 := NextLegacyEntry(r1, now, true);
      var r3 := NextLegacyEntry(r2, now, true);
      r1.lastInterval == 5 * Minute && r2.lastInterval == 30 * Minute
      && r3.lastInterval == 84 * Minute && r3.ef == 2.8
  {
    assert EfDelta(5) == 0.1;
    var r2 := NextLegacyEntry(NextLegacyEntry(LegacyDefault(now), now, true), now, true);
    assert r2.ef == 2.7 && r2.lastInterval == 1800000;
    assert Scaled(1800000, 2.8) == 5040000.0;
  }

  // ---------------------------------------------------------------------
  // The service

  class LegacyStorageService {
    var history: seq<SessionStatEntry>
    var currentStreak: int
    var bestStreak: int
    var ruleSet: Option<RuleSet>
    var masteryCache: MasteryTable
    var srsCache: SrsTable
    ghost var session: seq<SessionStatEntry>
    ghost var stored: seq<SessionStatEntry>

    ghost predicate Valid()
      reads this
    {
      && history == stored + session
      && currentStreak == StreakOf(session)
      && bestStreak == BestOf(session)
    }

    constructor (storedHistory: seq<SessionStatEntry>, storedMastery: map<string, int>,
                 storedSrs: map<string, LegacySrsEntry>)
      ensures Valid()
      ensures history == storedHistory && session == [] && currentStreak == 0 && bestStreak == 0
      ensures fresh(masteryCache) && fresh(srsCache)
      ensures masteryCache.counts == storedMastery && srsCache.entries == storedSrs
      ensures ruleSet == None
    {
      history := storedHistory;
      stored := storedHistory;
      session := [];
      currentStreak := 0;
      bestStreak := 0;
      ruleSet := None;
      masteryCache := new MasteryTable(storedMastery);
      srsCache := new SrsTable(storedSrs);
    }

    /** loadRuleSet: the rule set held in memory, else the stored one
        (which is then held), else null. */
    method LoadRuleSet(storedRules: Option<RuleSet>) returns (r: Option<RuleSet>)
      requires Valid()
      modifies this
      ensures Valid()
      ensures r == if old(ruleSet).Some? then old(ruleSet) else storedRules
      ensures ruleSet == r
      ensures history == old(history) && masteryCache == old(masteryCache) && srsCache == old(srsCache)
      ensures currentStreak == old(currentStreak) && bestStreak == old(bestStreak)
    {
      if ruleSet.Some? {
        return ruleSet;
      }
      if storedRules.None? {
        return None;
      }
      ruleSet := storedRules;
      r := storedRules;
    }

    method SaveRuleSet(rules: RuleSet)
      requires Valid()
      modifies this
      ensures Valid()
      ensures ruleSet == Some(rules)
      ensures history == old(history) && masteryCache == old(masteryCache) && srsCache == old(srsCache)
      ensures currentStreak == old(currentStreak) && bestStreak == old(bestStreak)
    {
      ruleSet := Some(rules);
    }

    /** recordSession: as in the later service. */
    method RecordSession(entry: SessionStatEntry)
      requires Valid()
      modifies this`history, this`session, this`currentStreak, this`bestStreak
      ensures Valid()
      ensures history == old(history) + [entry]
      ensures currentStreak == StreakAfter(old(currentStreak), entry)
      ensures bestStreak == if currentStreak > old(bestStreak) then currentStreak else old(bestStreak)
      ensures 0 <= currentStreak <= bestStreak
      ensures masteryCache == old(masteryCache) && srsCache == old(srsCache) && ruleSet == old(ruleSet)
    {
      StreaksAppend(session, entry);
      history := history + [entry];
      session := session + [entry];
      if entry.attempts == entry.correct && entry.correct > 0 {
        currentStreak := currentStreak + entry.correct;
      } else {
        currentStreak := 0;
      }
      if currentStreak > bestStreak {
        bestStreak := currentStreak;
      }
    }

    function GetStreaks(): (r: (int, int))
      requires Valid()
      reads this
      ensures 0 <= r.0 <= r.1
    {
      (currentStreak, bestStreak)
    }

    /** loadMastery: the cache object itself, not a copy. */
    method LoadMastery() returns (m: MasteryTable)
      ensures m == masteryCache
    {
      m := masteryCache;
    }

    /** loadSrs: the cache object itself, not a copy. */
    method LoadSrs() returns (m: SrsTable)
      ensures m == srsCache
    {
      m := srsCache;
    }

    /** incrementMastery: one more success in the cached table. */
    method IncrementMastery(scenario: string)
      modifies masteryCache
      ensures masteryCache.counts == Incremented(old(masteryCache.counts), scenario)
    {
      masteryCache.counts := masteryCache.counts[scenario := MasteryCount(masteryCache.counts, scenario) + 1];
    }

    /** updateSrsOnAnswer at time `now`: updates the cached entry for `key`
        (creating it from the default) and returns it. */
    method UpdateSrsOnAnswer(key: string, correct: bool, now: int) returns (r: LegacySrsEntry)
      modifies srsCache
      ensures r == NextLegacyEntry(LegacyStart(old(srsCache.entries), key, now), now, correct)
      ensures srsCache.entries == old(srsCache.entries)[key := r]
    {
      var entry := if key in srsCache.entries then srsCache.entries[key] else LegacyDefault(now);
      var quality := if correct then 5 else 2;
      entry := entry.(ef := RMax(EfFloor, entry.ef + EfDelta(quality)));
      if correct {
        entry := entry.(consecutive := entry.consecutive + 1);
        entry := entry.(reviewCount := entry.reviewCount + 1);
        var interval: int;
        if entry.reviewCount == 1 {
          interval := 5 * Minute;
        } else if entry.reviewCount == 2 {
          interval := 30 * Minute;
        } else {
          interval := Round(Scaled(entry.lastInterval, entry.ef));
          interval := IMin(interval, LegacyCap);
        }
        entry := entry.(lastInterval := interval);
        entry := entry.(nextDue := now + interval);
        entry := entry.(intervalIndex := entry.intervalIndex + 1);
      } else {
        entry := entry.(consecutive := 0, reviewCount := 0, lastInterval := 0, intervalIndex := 0);
        entry := entry.(nextDue := now + 30 * Second);
      }
      srsCache.entries := srsCache.entries[key := entry];
      r := entry;
    }
  }
}
