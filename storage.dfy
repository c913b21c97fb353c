/** StorageService (src/app/core/services/storage.service.ts): the answer
    history with its streak counters, the mastery counts, the SRS entries,
    the custom presets and the difficulty level, held in memory. Reading
    and writing localStorage is left out: the constructor receives what
    was stored (an unreadable value stands for empty). */
module Storage {

  import opened Options
  import opened Models
  import opened Srs

  // ---------------------------------------------------------------------
  // Streaks

  /** An entry that keeps the streak going: all its attempts correct, and
      at least one. */
  predicate FullyCorrect(e: SessionStatEntry) {
    e.attempts == e.correct && e.correct > 0
  }

  /** The current streak after recording `e` on top of `current`. */
  function StreakAfter(current: int, e: SessionStatEntry): int {
    if FullyCorrect(e) then current + e.correct else 0
  }

  /** The current streak after recording the entries of a session in
      order, starting from 0. */
  function StreakOf(session: seq<SessionStatEntry>): (r: int)
    ensures r >= 0
  {
    if session == [] then 0 else StreakAfter(StreakOf(session[..|session| - 1]), session[|session| - 1])
  }

  /** The best streak over a session: the largest current streak seen
      after any of its prefixes. */
  function BestOf(session: seq<SessionStatEntry>): (r: int)
    ensures r >= StreakOf(session) >= 0
  {
    if session == [] then 0
    else
      var before := BestOf(session[..|session| - 1]);
      if StreakOf(session) > before then StreakOf(session) else before
  }

  /** Recording one more entry: the streak follows StreakAfter and the
      best streak is raised to it when it is exceeded. */
  lemma StreaksAppend(session: seq<SessionStatEntry>, entry: SessionStatEntry)
    ensures StreakOf(session + [entry]) == StreakAfter(StreakOf(session), entry)
    ensures BestOf(session + [entry]) ==
      if StreakOf(session + [entry]) > BestOf(session) then StreakOf(session + [entry]) else BestOf(session)
  {
    assert (session + [entry])[..|session|] == session;
  }

  function SumCorrect(session: seq<SessionStatEntry>): int {
    if session == [] then 0 else SumCorrect(session[..|session| - 1]) + session[|session| - 1].correct
  }

  /** The best streak dominates the streak after every prefix. */
  lemma {:induction false} BestDominatesPrefixes(session: seq<SessionStatEntry>, i: nat)
    requires i <= |session|
    ensures StreakOf(session[..i]) <= BestOf(session)
    decreases |session|
  {
    if i < |session| {
      var prefix := session[..|session| - 1];
      assert session[..i] == prefix[..i];
      BestDominatesPrefixes(prefix, i);
    } else {
      assert session[..i] == session;
    }
  }

  /** A session of fully correct entries has the sum of their correct
      counts as its streak; one wrong entry at the end resets it. */
  lemma {:induction false} StreakOfCorrectRun(session: seq<SessionStatEntry>)
    requires forall i :: 0 <= i < |session| ==> FullyCorrect(session[i])
    ensures StreakOf(session) == SumCorrect(session)
  {
    if session != [] {
      StreakOfCorrectRun(session[..|session| - 1]);
    }
  }

  // ---------------------------------------------------------------------
  // Mastery counts and custom presets

  /** `m[scenario] || 0`: the count, absent counting as 0. */
  function MasteryCount(m: map<string, int>, scenario: string): int {
    if scenario in m then m[scenario] else 0
  }

  /** The mastery map after one more success on `scenario`. */
  function Incremented(m: map<string, int>, scenario: string): (r: map<string, int>)
    ensures r.Keys == m.Keys + {scenario}
    ensures MasteryCount(r, scenario) == MasteryCount(m, scenario) + 1
    ensures forall k :: k != scenario ==> MasteryCount(r, k) == MasteryCount(m, k)
  {
    m[scenario := MasteryCount(m, scenario) + 1]
  }

  /** `list.filter(r => r.id !== id)`. */
  function WithoutId(list: seq<RuleSet>, id: string): (r: seq<RuleSet>)
    ensures forall x :: x in r <==> x in list && x.id != id
    ensures |r| <= |list|
  {
    if list == [] then []
    else
      var rest := WithoutId(list[..|list| - 1], id);
      if list[|list| - 1].id != id then rest + [list[|list| - 1]] else rest
  }

  /** The filter keeps the order: it distributes over concatenation. */
  lemma {:induction false} WithoutIdAppend(a: seq<RuleSet>, b: seq<RuleSet>, id: string)
    ensures WithoutId(a + b, id) == WithoutId(a, id) + WithoutId(b, id)
    decreases |b|
  {
    if b == [] {
      assert a + b == a;
    } else {
      assert (a + b)[..|a + b| - 1] == a + b[..|b| - 1];
      WithoutIdAppend(a, b[..|b| - 1], id);
    }
  }

  /** A list without the id is left as it is. */
  lemma {:induction false} WithoutAbsentId(list: seq<RuleSet>, id: string)
    requires forall i :: 0 <= i < |list| ==> list[i].id != id
    ensures WithoutId(list, id) == list
  {
    if list != [] {
      var init, last := list[..|list| - 1], list[|list| - 1];
      assert WithoutId(init, id) == init by {
        assert forall i :: 0 <= i < |init| ==> init[i] == list[i];
        WithoutAbsentId(init, id);
      }
      assert init + [last] == list;
    }
  }

  // ---------------------------------------------------------------------
  // Difficulty

  datatype Difficulty = HardTotals | SoftTotals | Pairs | All

  function DifficultyName(d: Difficulty): string {
    match d
    case HardTotals => "HARD_TOTALS"
    case SoftTotals => "SOFT_TOTALS"
    case Pairs => "PAIRS"
    case All => "ALL"
  }

  /** The stored difficulty string, when it is one of the four levels. */
  function ParseDifficulty(raw: Option<string>): Option<Difficulty> {
    if raw == Some("HARD_TOTALS") then Some(HardTotals)
    else if raw == Some("SOFT_TOTALS") then Some(SoftTotals)
    else if raw == Some("PAIRS") then Some(Pairs)
    else if raw == Some("ALL") then Some(All)
    else None
  }

  /** Parsing reads back every level's name, and only those names. */
  lemma ParseDifficultyNames(raw: Option<string>)
    ensures forall d :: ParseDifficulty(Some(DifficultyName(d))) == Some(d)
    ensures ParseDifficulty(raw).Some? ==> raw == Some(DifficultyName(ParseDifficulty(raw).value))
  {
    forall d ensures ParseDifficulty(Some(DifficultyName(d))) == Some(d) {
      match d
      case HardTotals =>
      case SoftTotals => assert "SOFT_TOTALS"[0] != "HARD_TOTALS"[0];
      case Pairs => assert |"PAIRS"| != |"HARD_TOTALS"| && |"PAIRS"| != |"SOFT_TOTALS"|;
      case All => assert |"ALL"| != |"HARD_TOTALS"| && |"ALL"| != |"SOFT_TOTALS"| && |"ALL"| != |"PAIRS"|;
    }
  }

  // ---------------------------------------------------------------------
  // The steps of updateSrsOnAnswer, on the local entry

  /** The overdue penalty step. */
  method PenaliseLate(e: SrsEntry, now: int) returns (entry: SrsEntry)
    ensures entry == LatePenalty(e, now)
  {
    entry := e;
    if now > entry.nextDue && entry.lastInterval > 0 {
      var overdueMs := now - entry.nextDue;
      var ratio := overdueMs as real / entry.lastInterval as real;
      if ratio > 0.25 {
        var penalty := RMin(0.15, 0.05 + 0.05 * ratio);
        entry := entry.(ef := RMax(EfFloor, entry.ef - penalty));
      }
    }
  }

  /** The steps for a correct answer: quality 5, counters up, then the
      interval with its floor, cap and bump. */
  method ScoreCorrect(e: SrsEntry, now: int) returns (entry: SrsEntry)
    ensures entry == AfterCorrect(e, now)
  {
    entry := e;
    var quality := 5;
    entry := entry.(ef := RMax(EfFloor, entry.ef + EfDelta(quality)));
    entry := entry.(consecutive := entry.consecutive + 1);
    entry := entry.(reviewCount := entry.reviewCount + 1);
    var interval: int;
    if entry.reviewCount == 1 {
      interval := 5 * Minute;
    } else if entry.reviewCount == 2 {
      interval := 35 * Minute;
    } else if entry.reviewCount == 3 {
      interval := IMax(12 * Hour, entry.lastInterval + Hour);
    } else {
      interval := Round(Growth(entry.lastInterval, entry.ef, entry.consecutive));
    }
    if entry.reviewCount >= 3 {
      interval := IMax(interval, 2 * Hour);
    }
    interval := IMin(interval, 60 * Day);
    if entry.lastInterval != 0 && interval <= entry.lastInterval {
      interval := entry.lastInterval + Minute;
    }
    entry := entry.(lastInterval := interval);
    entry := entry.(nextDue := now + interval);
    entry := entry.(intervalIndex := entry.intervalIndex + 1);
  }

  /** The steps for a wrong answer: a lapse for a mature entry, an early
      miss otherwise. */
  method ScoreMiss(e: SrsEntry, now: int) returns (entry: SrsEntry)
    ensures entry == AfterMiss(e, now)
  {
    entry := e;
    var wasMature := entry.reviewCount >= 3;
    entry := entry.(consecutive := 0);
    if wasMature {
      entry := entry.(lapses := entry.lapses + 1);
      entry := entry.(reviewCount := 1, intervalIndex := 1, lastInterval := 5 * Minute);
      entry := entry.(ef := RMax(EfFloor, entry.ef - (0.2 + 0.05 * IMin(3, entry.lapses - 1) as real)));
      entry := entry.(nextDue := now + 5 * Minute);
    } else {
      entry := entry.(reviewCount := 0, intervalIndex := 0, lastInterval := 0);
      var before := entry.ef;
      entry := entry.(ef := RMax(EfFloor, entry.ef - 0.2));
      if entry.ef == before {
        entry := entry.(ef := RMax(EfFloor, before - 0.01));
      }
      entry := entry.(nextDue := now + 30 * Second);
    }
  }

  // ---------------------------------------------------------------------
  // The service

  class StorageService {
    var history: seq<SessionStatEntry>
    var currentStreak: int
    var bestStreak: int
    var mastery: map<string, int>
    var srs: map<string, SrsEntry>
    var customRules: seq<RuleSet>
    var difficulty: Option<Difficulty>
    /** The entries recorded since the service was created; the streaks
        start at 0 whatever history was stored. */
    ghost var session: seq<SessionStatEntry>
    ghost var stored: seq<SessionStatEntry>

    ghost predicate Valid()
      reads this
    {
      && history == stored + session
      && currentStreak == StreakOf(session)
      && bestStreak == BestOf(session)
    }

    constructor (storedHistory: seq<SessionStatEntry>, storedMastery: map<string, int>,
                 storedSrs: map<string, SrsEntry>, storedCustom: seq<RuleSet>)
      ensures Valid()
      ensures history == storedHistory && session == []
      ensures currentStreak == 0 && bestStreak == 0
      ensures mastery == storedMastery && srs == storedSrs && customRules == storedCustom
      ensures difficulty == None
    {
      history := storedHistory;
      stored := storedHistory;
      session := [];
      currentStreak := 0;
      bestStreak := 0;
      mastery := storedMastery;
      srs := storedSrs;
      customRules := storedCustom;
      difficulty := None;
    }

    /** recordSession: appends the entry; the current streak grows by the
        entry's correct count when it is fully correct and resets to 0
        otherwise; the best streak follows it up. */
    method RecordSession(entry: SessionStatEntry)
      requires Valid()
      modifies this`history, this`session, this`currentStreak, this`bestStreak
      ensures Valid()
      ensures history == old(history) + [entry]
      ensures session == old(session) + [entry]
      ensures currentStreak == StreakAfter(old(currentStreak), entry)
      ensures bestStreak == if currentStreak > old(bestStreak) then currentStreak else old(bestStreak)
      ensures 0 <= currentStreak <= bestStreak
      ensures mastery == old(mastery) && srs == old(srs) && customRules == old(customRules) && difficulty == old(difficulty)
    {
      StreaksAppend(session, entry);
      history := history + [entry];
      session := session + [entry];
      if entry.attempts == entry.correct && entry.correct > 0 {
        currentStreak := currentStreak + entry.correct;
      } else {
        currentStreak := 0;
      }
      if currentStreak > bestStreak {
        bestStreak := currentStreak;
      }
    }

    /** getStreaks: the current and the best streak; best >= current >= 0. */
    function GetStreaks(): (r: (int, int))
      requires Valid()
      reads this
      ensures 0 <= r.0 <= r.1
    {
      (currentStreak, bestStreak)
    }

    /** incrementMastery: one more success for the scenario. */
    method IncrementMastery(scenario: string)
      requires Valid()
      modifies this
      ensures Valid()
      ensures mastery == Incremented(old(mastery), scenario)
      ensures history == old(history) && srs == old(srs) && customRules == old(customRules)
      ensures currentStreak == old(currentStreak) && bestStreak == old(bestStreak) && difficulty == old(difficulty)
    {
      mastery := mastery[scenario := MasteryCount(mastery, scenario) + 1];
    }

    /** addCustomRuleSet: appends the preset. */
    method AddCustomRuleSet(rules: RuleSet)
      requires Valid()
      modifies this
      ensures Valid()
      ensures customRules == old(customRules) + [rules]
      ensures history == old(history) && srs == old(srs) && mastery == old(mastery)
      ensures currentStreak == old(currentStreak) && bestStreak == old(bestStreak) && difficulty == old(difficulty)
    {
      customRules := customRules + [rules];
    }

    /** deleteCustomRuleSet: keeps the presets with another id, in order. */
    method DeleteCustomRuleSet(id: string)
      requires Valid()
      modifies this
      ensures Valid()
      ensures customRules == WithoutId(old(customRules), id)
      ensures history == old(history) && srs == old(srs) && mastery == old(mastery)
      ensures currentStreak == old(currentStreak) && bestStreak == old(bestStreak) && difficulty == old(difficulty)
    {
      customRules := WithoutId(customRules, id);
    }

    /** loadDifficulty: the cached level if there is one; otherwise the
        stored string `raw` when it names a level, else 'ALL'; the answer
        is cached. */
    method LoadDifficulty(raw: Option<string>) returns (d: Difficulty)
      requires Valid()
      modifies this
      ensures Valid()
      ensures old(difficulty).Some? ==> d == old(difficulty).value
      ensures old(difficulty).None? ==> d == ParseDifficulty(raw).GetOr(All)
      ensures difficulty == Some(d)
      ensures history == old(history) && srs == old(srs) && mastery == old(mastery) && customRules == old(customRules)
      ensures currentStreak == old(currentStreak) && bestStreak == old(bestStreak)
    {
      if difficulty.Some? {
        return difficulty.value;
      }
      var parsed := ParseDifficulty(raw);
      if parsed.Some? {
        difficulty := parsed;
        return parsed.value;
      }
      difficulty := Some(All);
      d := All;
    }

    /** updateSrsOnAnswer at time `now`: starts from the stored entry or the
        default, applies the overdue penalty, scores the answer, clamps the
        ease factor, stores the entry under `key` and returns a copy. */
    method UpdateSrsOnAnswer(key: string, correct: bool, now: int) returns (r: SrsEntry)
      requires Valid()
      modifies this
      ensures Valid()
      ensures r == NextSrsEntry(Start(old(srs), key, now), now, correct)
      ensures srs == old(srs)[key := r]
      ensures history == old(history) && mastery == old(mastery) && customRules == old(customRules)
      ensures currentStreak == old(currentStreak) && bestStreak == old(bestStreak) && difficulty == old(difficulty)
    {
      var entry := if key in srs then srs[key] else DefaultEntry(now);
      entry := PenaliseLate(entry, now);
      if correct {
        entry := ScoreCorrect(entry, now);
      } else {
        entry := ScoreMiss(entry, now);
      }
      entry := entry.(ef := RMax(EfFloor, RMin(entry.ef, EfCeiling)));
      srs := srs[key := entry];
      r := entry;
    }
  }

  /** A key without an entry starts from ease factor 2.5, zero counters
      and nextDue = now. */
  lemma UnknownKeyStartsFresh(srs: map<string, SrsEntry>, key: string, now: int)
    requires key !in srs
    ensures Start(srs, key, now) == SrsEntry(0, 0, now, 2.5, 0, 0, 0)
    ensures WellFormed(Start(srs, key, now))
  {
  }
}
