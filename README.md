# Blackjack basic-strategy trainer, modelled in Dafny

The trainer is an Angular application that teaches blackjack basic
strategy. For each of the eight rule variants it holds a chart. The rules
are whether the dealer hits soft 17 (H17/S17), whether late surrender is
allowed (LS), and whether doubling after a split is allowed (DAS). A chart
maps a hand, plus the dealer's up-card, to HIT, STAND, DOUBLE, SPLIT or
SURRENDER. Around the charts the trainer has several parts:

- A drill deals hands and grades each answer against the chart.
- Flashcards schedule scenarios with a spaced-repetition (SRS) scheduler.
- A storage service keeps the answer history, the streaks, mastery counts,
  SRS entries, custom rule presets and the difficulty level.
- An analytics service summarises the history.
- A chart page shows the hard totals with identical rows merged.
- A settings page creates, applies and deletes rule presets.

The repository holds two generations of the application:

- `blackjack-trainer/` is the older one. It contributes the chart builder,
  the strategy engine, the flashcards, a simpler storage service and the
  analytics metrics.
- `src/` is the newer one. It contributes the drill, the newer storage
  service with its SM-2-style scheduler, the chart page and the settings page.

The project has one Dafny module per source file:

| file | module | source |
|---|---|---|
| option.dfy | Options | `T \| undefined` |
| models.dfy | Models | the model interfaces (decisions, rule sets, cards, history entries, SRS entries) |
| text.dfy | Text | the JavaScript string built-ins the core uses (`String(n)`, `parseInt`, `trim`, `toLowerCase`, `split`, `join`) |
| strategy_data.dfy | StrategyData | blackjack-trainer/src/app/core/services/strategy.data.ts |
| strategy_data_service.dfy | StrategyDataService | both copies of strategy-data.service.ts |
| strategy_engine.dfy | StrategyEngine | blackjack-trainer/src/app/core/services/strategy-engine.service.ts |
| srs.dfy, storage.dfy | Srs, Storage | src/app/core/services/storage.service.ts |
| legacy_storage.dfy | LegacyStorage | blackjack-trainer/src/app/core/services/storage.service.ts |
| flashcards.dfy | Flashcards | blackjack-trainer/src/app/features/flashcards/flashcards.component.ts |
| drill.dfy | Drill | src/app/features/drill/drill.component.ts |
| analytics.dfy | Analytics | blackjack-trainer/src/app/core/services/analytics-metrics.service.ts |
| strategy_chart.dfy | StrategyChart | src/app/features/strategy-chart/strategy-chart.component.ts |
| settings.dfy | Settings | src/app/features/settings/settings.component.ts |

Each part is modelled in the form it has in the source:

- Loops that build tables, walk lists or update an entry field by field are
  methods. Each method is proved against a specification function.
- Services and components whose fields change are classes with `modifies`
  frames.
- Pure lookups and classifications are functions. Lemmas state what they
  promise.
- The wall clock, `Math.random`, `localStorage` and the DOM are parameters:
  - `now` is passed in;
  - a random draw is an index chosen by the caller;
  - stored strings are already-parsed values.

## Model

| member | source | states |
|---|---|---|
| Text.NatToString | src/app/features/drill/drill.component.ts:119 | `String(n)` of a natural number is a non-empty run of decimal digits, one digit exactly when n < 10 |
| Text.SingleDigitString | src/app/features/drill/drill.component.ts:292 | a one-character rendering of an integer is the digit k exactly when the integer is k |
| Text.DigitPrefixLength | src/app/features/drill/drill.component.ts:103 | the digit prefix `parseInt` reads is all digits and is followed by a non-digit or the end |
| Text.DigitsOfNatToString | src/app/features/drill/drill.component.ts:286-292 | the digits `String(n)` writes have the value n |
| Text.DigitPrefixOfDigits | src/app/features/drill/drill.component.ts:286 | `parseInt` reads the whole of a string made only of digits |
| Text.ParseIntOfIntToString | src/app/features/drill/drill.component.ts:286-292 | `parseInt(String(i), 10)` is i for every integer, negative ones included |
| Text.ParseNumeral | src/app/features/drill/drill.component.ts:286-292 | the same round trip, stated for a string known to be `String(i)` |
| Text.LowerAscii | src/app/features/settings/settings.component.ts:100 | `toLowerCase` keeps the length and lowers each character on its own |
| Text.TrimStart | src/app/features/settings/settings.component.ts:98 | leading trim drops exactly a white-space prefix and keeps a suffix that starts with a non-space |
| Text.TrimEnd | src/app/features/settings/settings.component.ts:98 | trailing trim drops exactly a white-space suffix and keeps a prefix that ends with a non-space |
| Text.TrimEmpty | src/app/features/settings/settings.component.ts:98-99 | `trim()` is empty if and only if the string is all white space |
| Text.TrimKeeps | src/app/features/strategy-chart/strategy-chart.component.ts:56 | `trim()` keeps a string that neither starts nor ends with white space |
| Text.Split | src/app/features/drill/drill.component.ts:98 | `split` on a one-character separator gives at least one piece, and gives the whole string when the separator is absent |
| Text.SplitJoin | src/app/features/strategy-chart/strategy-chart.component.ts:107 | a separator-free piece followed by the separator splits off as the first piece |
| Text.SplitOfJoin | src/app/features/strategy-chart/strategy-chart.component.ts:107 | splitting the `join` of separator-free pieces gives the pieces back |
| Text.NoMinusInNumeral | src/app/features/strategy-chart/strategy-chart.component.ts:116 | `String(n)` of a non-negative total holds no '-' |
| StrategyData.Range | blackjack-trainer/src/app/core/services/strategy.data.ts:23 | the `for (d = lo; d <= hi; d++)` range holds exactly lo..hi, in ascending order |
| StrategyData.HardRow | blackjack-trainer/src/app/core/services/strategy.data.ts:32-39 | every hard row has a cell for exactly the dealer values 2..11 |
| StrategyData.SoftRow | blackjack-trainer/src/app/core/services/strategy.data.ts:41-56 | every soft row has a cell for exactly the dealer values 2..11 |
| StrategyData.PairRow | blackjack-trainer/src/app/core/services/strategy.data.ts:58-70 | every pair row has a cell for exactly the dealer values 2..11 |
| StrategyData.BuildRow | blackjack-trainer/src/app/core/services/strategy.data.ts:21-25 | buildRow gives a row for exactly the dealer values 2..11, each holding the initial decision |
| StrategyData.Repaint | blackjack-trainer/src/app/core/services/strategy.data.ts:33-38 | after `row[d] = x` for the listed d, those cells hold x and the others are unchanged |
| StrategyData.PaintRow | blackjack-trainer/src/app/core/services/strategy.data.ts:35 | the inner override loop gives Repaint |
| StrategyData.Painted | blackjack-trainer/src/app/core/services/strategy.data.ts:43-44 | an override block keeps the table's keys, repaints the listed rows and leaves the others alone |
| StrategyData.Paint | blackjack-trainer/src/app/core/services/strategy.data.ts:43-44 | the nested override loops give Painted |
| StrategyData.RepaintTwice | blackjack-trainer/src/app/core/services/strategy.data.ts:59-67 | painting the same cells twice is the same as painting them once; `Paint` uses it when a block lists a key twice, which no block in the source does |
| StrategyData.CellAfterStep | blackjack-trainer/src/app/core/services/strategy.data.ts:32-70 | a cell after m override statements is the last statement's decision when that statement covers the cell, else the cell after m - 1 |
| StrategyData.Baseline | blackjack-trainer/src/app/core/services/strategy.data.ts:32 | the baseline loops give every key a HIT row for dealer 2..11 |
| StrategyData.ApplyBlocks | blackjack-trainer/src/app/core/services/strategy.data.ts:33-39 | running the override statements in order gives the table CellAfter describes |
| StrategyData.HardBlocks | blackjack-trainer/src/app/core/services/strategy.data.ts:33-39 | the eight hard override statements, in source order |
| StrategyData.SoftBlocks | blackjack-trainer/src/app/core/services/strategy.data.ts:43-56 | the ten soft override statements, in source order, with the H17 ones last |
| StrategyData.PairBlocks | blackjack-trainer/src/app/core/services/strategy.data.ts:59-70 | the eleven pair override statements, in source order |
| StrategyData.BuildHard | blackjack-trainer/src/app/core/services/strategy.data.ts:28-39 | the hard loops build exactly the hard chart of the variant |
| StrategyData.BuildSoft | blackjack-trainer/src/app/core/services/strategy.data.ts:41-56 | the soft loops build exactly the soft chart of the variant |
| StrategyData.BuildPairs | blackjack-trainer/src/app/core/services/strategy.data.ts:58-70 | the pair loops build exactly the pair chart of the variant |
| StrategyData.HardBlocksFit | blackjack-trainer/src/app/core/services/strategy.data.ts:33-39 | every hard override writes only rows 5..21 |
| StrategyData.SoftBlocksFit | blackjack-trainer/src/app/core/services/strategy.data.ts:43-55 | every soft override writes only rows A2..A9 |
| StrategyData.PairBlocksFit | blackjack-trainer/src/app/core/services/strategy.data.ts:59-70 | every pair override writes only the charted pair ranks |
| StrategyData.HardExtensional | blackjack-trainer/src/app/core/services/strategy.data.ts:28-39 | a hard table with the built keys and cells is the hard chart |
| StrategyData.SoftExtensional | blackjack-trainer/src/app/core/services/strategy.data.ts:41-56 | a soft table with the built keys and cells is the soft chart |
| StrategyData.PairsExtensional | blackjack-trainer/src/app/core/services/strategy.data.ts:58-70 | a pair table with the built keys and cells is the pair chart |
| StrategyData.HardBlocksAgree | blackjack-trainer/src/app/core/services/strategy.data.ts:32-39 | the hard statements run in order give each hard chart cell |
| StrategyData.SoftBlocksAgree | blackjack-trainer/src/app/core/services/strategy.data.ts:42-56 | the soft statements run in order give each soft chart cell, the H17 overrides included |
| StrategyData.PairBlocksAgree | blackjack-trainer/src/app/core/services/strategy.data.ts:58-70 | the pair statements run in order give each pair chart cell |
| StrategyData.HardStageComplete | blackjack-trainer/src/app/core/services/strategy.data.ts:33-39 | after all eight hard statements the staged cell is the chart cell |
| StrategyData.SoftStageComplete | blackjack-trainer/src/app/core/services/strategy.data.ts:43-56 | after all ten soft statements the staged cell is the chart cell |
| StrategyData.PairStageComplete | blackjack-trainer/src/app/core/services/strategy.data.ts:59-70 | after all eleven pair statements the staged cell is the chart cell |
| StrategyData.BuildStrategy | blackjack-trainer/src/app/core/services/strategy.data.ts:27-73 | buildStrategy(isH17, surrender, das) returns exactly the tables of that variant |
| StrategyData.TablesShape | blackjack-trainer/src/app/core/services/strategy.data.ts:32-58 | hard rows are exactly 5..21, soft rows A2..A9, pair rows 2..10 and A, and every row covers exactly dealer 2..11 |
| StrategyData.HardSeventeenUpStands | blackjack-trainer/src/app/core/services/strategy.data.ts:33 | hard 17..21 stands against every dealer card in every variant |
| StrategyData.SurrenderOnlyUnderLateSurrender | blackjack-trainer/src/app/core/services/strategy.data.ts:39 | SURRENDER occurs only in the LS variants, and there exactly at hard 16 against 9, 10, A and hard 15 against 10; never in the soft or pair tables |
| StrategyData.HardSurrenders | blackjack-trainer/src/app/core/services/strategy.data.ts:39 | a hard cell is SURRENDER if and only if the variant has late surrender and the cell is 16 against 9..11 or 15 against 10 |
| StrategyData.SoftNeverSurrenders | blackjack-trainer/src/app/core/services/strategy.data.ts:41-56 | no soft cell is SURRENDER |
| StrategyData.PairsNeverSurrender | blackjack-trainer/src/app/core/services/strategy.data.ts:58-70 | no pair cell is SURRENDER |
| StrategyData.HitSoft17Overrides | blackjack-trainer/src/app/core/services/strategy.data.ts:50-56 | A6 against 2 and A8 against 6 double exactly under H17, and otherwise stay HIT and STAND |
| StrategyData.SoftEighteenRow | blackjack-trainer/src/app/core/services/strategy.data.ts:46-53 | A7 against 2 doubles exactly under H17 with DAS and otherwise stands; A7 hits against 9, 10 and A |
| StrategyData.FoursSplitOnlyWithDas | blackjack-trainer/src/app/core/services/strategy.data.ts:60-61 | 4,4 against 5 and 6 splits exactly when DAS is allowed, and hits otherwise |
| StrategyData.SplitOnlyInPairs | blackjack-trainer/src/app/core/services/strategy.data.ts:32-56 | SPLIT never occurs in the hard or soft tables |
| StrategyData.HardNeverSplits | blackjack-trainer/src/app/core/services/strategy.data.ts:32-39 | no hard cell is SPLIT |
| StrategyData.SoftNeverSplits | blackjack-trainer/src/app/core/services/strategy.data.ts:41-56 | no soft cell is SPLIT |
| StrategyData.SplitRows | blackjack-trainer/src/app/core/services/strategy.data.ts:65-70 | 8,8 and A,A split against every dealer card |
| StrategyData.TensStand | blackjack-trainer/src/app/core/services/strategy.data.ts:69 | 10,10 stands against every dealer card |
| StrategyData.FivesDouble | blackjack-trainer/src/app/core/services/strategy.data.ts:62 | 5,5 doubles against 2..9, like hard 10 |
| StrategyData.StrategyDataKeys | blackjack-trainer/src/app/core/services/strategy.data.ts:10-19 | STRATEGY_DATA's keys are exactly the S17/H17 names with optional _LS and _DAS |
| StrategyData.VariantKeysCount | blackjack-trainer/src/app/core/services/strategy.data.ts:10-19 | there are eight such names |
| StrategyData.StrategyDataHasEightVariants | blackjack-trainer/src/app/core/services/strategy.data.ts:10-19 | STRATEGY_DATA has exactly eight variants |
| StrategyDataService.RuleKey | blackjack-trainer/src/app/core/services/strategy-data.service.ts:12-17 | the rule key is a key of STRATEGY_DATA, and the entry under it was built from the rule set's three flags |
| StrategyDataService.RuleKeyStored | src/app/core/services/strategy-data.service.ts:7-12 | the key assembled from base + ls + das names the variant of those three flags |
| StrategyDataService.GetTablesFor | blackjack-trainer/src/app/core/services/strategy-data.service.ts:18-20 | getTablesFor is never undefined: it gives the tables built from the rule set's flags |
| StrategyDataService.RuleKeyInjective | src/app/core/services/strategy-data.service.ts:7-12 | two rule sets share a key if and only if their three flags agree |
| StrategyDataService.RuleKeyExamples | src/app/core/services/strategy-data.service.ts:7-12 | no flags give "S17"; all three give "H17_LS_DAS" |
| StrategyEngine.AceCount | blackjack-trainer/src/app/core/services/strategy-engine.service.ts:21 | the ace count is at most the number of cards, and is zero if and only if no card is an ace |
| StrategyEngine.Reduce | blackjack-trainer/src/app/core/services/strategy-engine.service.ts:24 | the loop as written: no change without aces or at 21 or below; with an ace it ends at or below 21, above 11 when it ran, having taken off multiples of 10 |
| StrategyEngine.EvaluateHand | blackjack-trainer/src/app/core/services/strategy-engine.service.ts:19-28 | the evaluateHand method (sum, ace count, reduction loop, flags) returns Evaluate |
| StrategyEngine.TwoCardCounts | blackjack-trainer/src/app/core/services/strategy-engine.service.ts:20-21 | the sum and the ace count of a two-card hand |
| StrategyEngine.EvaluateTotal | blackjack-trainer/src/app/core/services/strategy-engine.service.ts:20-24 | without aces the total is the plain sum; with an ace it is at most 21, and a raw sum above 21 lands in 12..21, a multiple of 10 below the raw sum |
| StrategyEngine.EvaluateSoft | blackjack-trainer/src/app/core/services/strategy-engine.service.ts:25-27 | a hand is soft if and only if it holds an ace and is not a pair of a rank other than A; the source's `total <= 21` test never excludes a hand with an ace |
| StrategyEngine.EvaluatePair | blackjack-trainer/src/app/core/services/strategy-engine.service.ts:26-27 | a pair is exactly two cards of one rank; pairRank is present exactly for pairs and is that rank; the dealer value is carried over |
| StrategyEngine.ReducePerAce | blackjack-trainer/src/app/core/services/strategy-engine.service.ts:24 | corrected reduction: at most one 10 per ace, ending at or below 21 unless every ace is used |
| StrategyEngine.ReduceAgreesWhenOneStep | blackjack-trainer/src/app/core/services/strategy-engine.service.ts:24 | for raw totals up to 31 (every two-card hand) the loop as written and the corrected one agree |
| StrategyEngine.AceDiscountedTwice | blackjack-trainer/src/app/core/services/strategy-engine.service.ts:24 | A,10,10,10 evaluates to a soft 21 rather than a hard 31: one ace is discounted twice |
| StrategyEngine.Cell | blackjack-trainer/src/app/core/services/strategy-engine.service.ts:13-15 | `table[k]?.[d]` is present if and only if both the row and the column exist |
| StrategyEngine.SoftKeysSpelled | blackjack-trainer/src/app/core/services/strategy.data.ts:41 | the soft keys are "A" followed by the digits 2..9 |
| StrategyEngine.SoftKeyOf | blackjack-trainer/src/app/core/services/strategy-engine.service.ts:14 | `A${n}` names a soft row if and only if n is 2..9, and then it is the (n-2)-th key |
| StrategyEngine.PairsCell | blackjack-trainer/src/app/core/services/strategy-engine.service.ts:13 | a pairs cell is present exactly for a charted rank against 2..11, and is the chart's decision |
| StrategyEngine.SoftCellAt | blackjack-trainer/src/app/core/services/strategy-engine.service.ts:14 | the soft cell read at `A${total - 11}` is present exactly for totals 13..20 against 2..11 |
| StrategyEngine.HardCellAt | blackjack-trainer/src/app/core/services/strategy-engine.service.ts:15 | a hard cell is present exactly for totals 5..21 against 2..11 |
| StrategyEngine.GetDecisionFollowsChart | blackjack-trainer/src/app/core/services/strategy-engine.service.ts:8-17 | getDecision is the chart decision of the rule set's variant: the pair cell for a charted pair, else the soft cell for a soft 13..20, else the hard cell for 5..21, else HIT |
| StrategyEngine.GetDecisionIsLookup | blackjack-trainer/src/app/core/services/strategy-engine.service.ts:8-17 | getDecision reads the tables of the rule set's variant (the tables are never missing) |
| StrategyEngine.LookupFollowsChart | blackjack-trainer/src/app/core/services/strategy-engine.service.ts:12-16 | the three-step lookup over a variant's tables is ChartDecision |
| StrategyEngine.ChartCells | blackjack-trainer/src/app/core/services/strategy-engine.service.ts:12-16 | the three cells the lookup reads, and which one wins |
| StrategyEngine.ChartOffDealer | blackjack-trainer/src/app/core/services/strategy-engine.service.ts:16 | a dealer value outside 2..11 finds no cell and gives HIT |
| StrategyEngine.ChartPair | blackjack-trainer/src/app/core/services/strategy-engine.service.ts:13 | a charted pair reads its pair cell |
| StrategyEngine.ChartSoft | blackjack-trainer/src/app/core/services/strategy-engine.service.ts:14 | a soft 13..20 that is not a charted pair reads its soft row |
| StrategyEngine.ChartHard | blackjack-trainer/src/app/core/services/strategy-engine.service.ts:15-16 | every other hand reads the hard cell for 5..21 and gives HIT otherwise |
| StrategyEngine.FirstPresentCellWins | blackjack-trainer/src/app/core/services/strategy-engine.service.ts:12-16 | over any tables, the first cell present in the order pairs, soft, hard is the decision, and HIT when none is |
| StrategyEngine.HardElevenDoubles | blackjack-trainer/src/app/core/services/strategy-engine.service.ts:8-28 | 6+5 against 10 doubles under every rule set |
| StrategyEngine.HardSixteenSurrenders | blackjack-trainer/src/app/core/services/strategy-engine.service.ts:8-28 | 9+7 against 10 surrenders exactly under late surrender (it hits otherwise) |
| StrategyEngine.SoftSeventeenDoublesUnderH17 | blackjack-trainer/src/app/core/services/strategy-engine.service.ts:8-28 | A+6 against 2 doubles under H17 |
| StrategyEngine.SoftSeventeenHand | blackjack-trainer/src/app/core/services/strategy-engine.service.ts:19-28 | A+6 against 2 is a soft 17 and not a pair |
| StrategyEngine.SoftSeventeenCell | blackjack-trainer/src/app/core/services/strategy.data.ts:52 | the H17 chart doubles soft 17 against 2 |
| StrategyEngine.FoursSplitWithDas | blackjack-trainer/src/app/core/services/strategy-engine.service.ts:8-28 | 4,4 against 5 splits under DAS |
| StrategyEngine.FoursHand | blackjack-trainer/src/app/core/services/strategy-engine.service.ts:19-28 | 4,4 against 5 is a hard 8 pair of rank "4" |
| StrategyEngine.FoursCell | blackjack-trainer/src/app/core/services/strategy.data.ts:61 | the DAS chart splits 4,4 against 5 |
| Srs.Round | src/app/core/services/storage.service.ts:256 | `Math.round` gives the integer within half of x, halves rounded up |
| Srs.NextEfInRange | src/app/core/services/storage.service.ts:297 | the final clamp keeps every stored ease factor within [1.3, 3.5] |
| Srs.NextWellFormed | src/app/core/services/storage.service.ts:218-298 | the default entry is well formed, and updateSrsOnAnswer keeps entries well formed (non-negative counters and intervals, ease factor in range) |
| Srs.LatePenaltyBounds | src/app/core/services/storage.service.ts:230-238 | the overdue penalty takes off at most 0.15, never goes below 1.3, applies only when more than a quarter interval late, and touches only ef |
| Srs.VeryLateCostsFullPenalty | src/app/core/services/storage.service.ts:233-236 | two or more intervals late costs the full 0.15, down to the floor |
| Srs.CorrectAnswerCounters | src/app/core/services/storage.service.ts:240-270 | a correct answer raises consecutive, reviewCount and intervalIndex by one, keeps lapses, raises ef by 0.1 within the clamp, and schedules nextDue one interval from now |
| Srs.CorrectAnswerSchedule | src/app/core/services/storage.service.ts:247-267 | the interval is 5 min, 35 min, max(12 h, last + 1 h), then round(last * ef * (1 + consecutive/20)); at least 2 h from review 3; capped at 60 days; bumped to last + 1 min if it did not grow |
| Srs.CorrectAnswerGrows | src/app/core/services/storage.service.ts:247-267 | intervals grow strictly, are at least 5 min, at least 2 h from review 3, and exceed 60 days only by the bump |
| Srs.CapExceededByBump | src/app/core/services/storage.service.ts:263-267 | an interval already at 60 days is bumped to 60 days + 1 min: the cap is not a bound |
| Srs.EarlyMiss | src/app/core/services/storage.service.ts:283-294 | a miss before three reviews resets the counters and interval, retries in 30 s, keeps lapses, and lowers an in-range ef (strictly above the floor) |
| Srs.Lapse | src/app/core/services/storage.service.ts:273-282 | a miss from three reviews on counts a lapse, sets review 1 with a 5-minute interval, and sets ef to the late-penalised ef less 0.2 + 0.05 * min(3, lapses - 1), floored at 1.3; when on time it is exactly the old ef less that amount, floored |
| Srs.ThreeCorrectFromFresh | src/app/core/services/storage.service.ts:218-270 | three correct answers on a new key give intervals 5 min, 35 min and 12 h and raise ef from 2.5 to 2.8 |
| Storage.StreakOf | src/app/core/services/storage.service.ts:144-148 | the current streak is never negative |
| Storage.BestOf | src/app/core/services/storage.service.ts:149 | the best streak is at least the current streak |
| Storage.StreaksAppend | src/app/core/services/storage.service.ts:140-151 | recording an entry moves the streak by StreakAfter and raises the best streak to it when it is exceeded |
| Storage.BestDominatesPrefixes | src/app/core/services/storage.service.ts:149 | the best streak dominates the streak after every prefix of the session |
| Storage.StreakOfCorrectRun | src/app/core/services/storage.service.ts:144-145 | over fully correct entries the streak is the sum of their correct counts |
| Storage.Incremented | src/app/core/services/storage.service.ts:191-195 | incrementing adds the scenario's key, raises its count (absent counting as 0) by one, and leaves every other count alone |
| Storage.WithoutId | src/app/core/services/storage.service.ts:117 | the filter keeps exactly the presets with another id, and never lengthens the list |
| Storage.WithoutIdAppend | src/app/core/services/storage.service.ts:117 | the filter keeps order: it distributes over concatenation |
| Storage.WithoutAbsentId | src/app/core/services/storage.service.ts:117 | filtering out an id that no preset has leaves the list as it is |
| Storage.ParseDifficultyNames | src/app/core/services/storage.service.ts:159-161 | each level's name reads back as that level, and only those four names are accepted |
| Storage.PenaliseLate | src/app/core/services/storage.service.ts:230-238 | the overdue-penalty statements compute LatePenalty |
| Storage.ScoreCorrect | src/app/core/services/storage.service.ts:240-270 | the correct-answer statements compute AfterCorrect |
| Storage.ScoreMiss | src/app/core/services/storage.service.ts:271-295 | the wrong-answer statements compute AfterMiss |
| Storage.StorageService.constructor | src/app/core/services/storage.service.ts:67-75 | a new service holds the stored history, mastery, SRS map and presets, zero streaks and no cached difficulty |
| Storage.StorageService.RecordSession | src/app/core/services/storage.service.ts:140-151 | appends the entry, moves the streak by StreakAfter, raises the best streak, keeps 0 <= current <= best, and changes nothing else |
| Storage.StorageService.GetStreaks | src/app/core/services/storage.service.ts:152-154 | returns the current and best streak, with 0 <= current <= best |
| Storage.StorageService.IncrementMastery | src/app/core/services/storage.service.ts:191-195 | the mastery map becomes Incremented, and nothing else changes |
| Storage.StorageService.AddCustomRuleSet | src/app/core/services/storage.service.ts:111-115 | appends the preset, and nothing else changes |
| Storage.StorageService.DeleteCustomRuleSet | src/app/core/services/storage.service.ts:116-119 | keeps the presets with another id, in order, and nothing else changes |
| Storage.StorageService.LoadDifficulty | src/app/core/services/storage.service.ts:155-167 | gives the cached level if there is one, else the stored level if it is one of the four names, else ALL; the result is cached |
| Storage.StorageService.UpdateSrsOnAnswer | src/app/core/services/storage.service.ts:212-302 | returns NextSrsEntry of the stored entry (or the default one), stores it under the key, and changes nothing else |
| Storage.UnknownKeyStartsFresh | src/app/core/services/storage.service.ts:218-228 | a key without an entry starts from ef 2.5, zero counters and nextDue now, a well-formed entry |
| LegacyStorage.MasteryTable.constructor | blackjack-trainer/src/app/core/services/storage.service.ts:46 | the mastery cache object holds the given counts |
| LegacyStorage.SrsTable.constructor | blackjack-trainer/src/app/core/services/storage.service.ts:47 | the SRS cache object holds the given entries |
| LegacyStorage.LegacyEaseFactor | blackjack-trainer/src/app/core/services/storage.service.ts:137-140 | quality 5 raises the ease factor by 0.1, quality 2 lowers it by 0.32, never below 1.3 |
| LegacyStorage.LegacyMiss | blackjack-trainer/src/app/core/services/storage.service.ts:155-162 | a miss resets every counter and the interval and retries 30 s later |
| LegacyStorage.LegacyCorrect | blackjack-trainer/src/app/core/services/storage.service.ts:141-154 | a correct answer raises the three counters by one and is due one interval from now; the interval is 5 min at review 1, 30 min at review 2, and never above 30 days |
| LegacyStorage.LegacyIntervalGrows | blackjack-trainer/src/app/core/services/storage.service.ts:147-151 | from review 3 on, an interval at or below the 30-day cap never shrinks |
| LegacyStorage.RoundScaledAtLeast | blackjack-trainer/src/app/core/services/storage.service.ts:148 | rounding an interval scaled by an ease factor of at least 1.3 never gives less than the interval |
| LegacyStorage.LegacyThreeCorrect | blackjack-trainer/src/app/core/services/storage.service.ts:128-166 | three correct answers on a new key give 5 min, 30 min, then 84 min, with the ease factor at 2.8 |
| LegacyStorage.LegacyStorageService.constructor | blackjack-trainer/src/app/core/services/storage.service.ts:41-47 | a new service holds the stored history, fresh mastery and SRS caches with the stored contents, zero streaks and no rule set in memory |
| LegacyStorage.LegacyStorageService.LoadRuleSet | blackjack-trainer/src/app/core/services/storage.service.ts:49-60 | gives the rule set held in memory, else the stored one, which is then held; nothing else changes |
| LegacyStorage.LegacyStorageService.SaveRuleSet | blackjack-trainer/src/app/core/services/storage.service.ts:62-65 | the saved rule set is the one held; nothing else changes |
| LegacyStorage.LegacyStorageService.RecordSession | blackjack-trainer/src/app/core/services/storage.service.ts:82-93 | appends the entry, moves the streak by StreakAfter, raises the best streak, and keeps 0 <= current <= best |
| LegacyStorage.LegacyStorageService.GetStreaks | blackjack-trainer/src/app/core/services/storage.service.ts:94 | returns the current and best streak, with 0 <= current <= best |
| LegacyStorage.LegacyStorageService.LoadMastery | blackjack-trainer/src/app/core/services/storage.service.ts:97-104 | returns the cache object itself, not a copy |
| LegacyStorage.LegacyStorageService.LoadSrs | blackjack-trainer/src/app/core/services/storage.service.ts:116-123 | returns the cache object itself, not a copy |
| LegacyStorage.LegacyStorageService.IncrementMastery | blackjack-trainer/src/app/core/services/storage.service.ts:109-113 | the cached counts become Incremented |
| LegacyStorage.LegacyStorageService.UpdateSrsOnAnswer | blackjack-trainer/src/app/core/services/storage.service.ts:128-166 | returns NextLegacyEntry of the cached entry (or the default one) and stores it under the key |
| Flashcards.DigitRank | blackjack-trainer/src/app/features/flashcards/flashcards.component.ts:197-204 | a value 2..9 is drawn as the one-digit rank that spells it, which is worth that value and is no ace |
| Flashcards.TenRankValue | blackjack-trainer/src/app/features/flashcards/flashcards.component.ts:198 | the rank '10' is worth 10 |
| Flashcards.CardFromValueHasValue | blackjack-trainer/src/app/features/flashcards/flashcards.component.ts:201-205 | cardFromValue of 2..11 gives a card worth that value, and an ace exactly for 11 |
| Flashcards.FlashSumTwo | blackjack-trainer/src/app/features/flashcards/flashcards.component.ts:53 | the sum of two cards counts an ace at 11 and any other card at its value |
| Flashcards.PlayerComboTotals | blackjack-trainer/src/app/features/flashcards/flashcards.component.ts:190-196 | every hard total 5..21 gets two cards worth 2..11 each that add up to the total and show it as playerTotal |
| Flashcards.RowItems | blackjack-trainer/src/app/features/flashcards/flashcards.component.ts:134-147 | a row gives ten items, one per dealer value 2..11 in order |
| Flashcards.SectionCells | blackjack-trainer/src/app/features/flashcards/flashcards.component.ts:111-166 | a table gives ten items per row, and exactly the items of its (row, dealer) cells |
| Flashcards.HardSection | blackjack-trainer/src/app/features/flashcards/flashcards.component.ts:111-128 | the hard table gives 170 items, exactly those of hard 5..21 against 2..11 |
| Flashcards.SoftSection | blackjack-trainer/src/app/features/flashcards/flashcards.component.ts:130-148 | the soft table gives 80 items, exactly those of A2..A9 against 2..11 |
| Flashcards.PairSection | blackjack-trainer/src/app/features/flashcards/flashcards.component.ts:150-166 | the pair table gives 100 items, exactly those of the ten pair ranks against 2..11 |
| Flashcards.BuildCoversChart | blackjack-trainer/src/app/features/flashcards/flashcards.component.ts:109-168 | build emits 350 items, and an item is emitted if and only if it is the item of some chart cell |
| Flashcards.ItemExpectsCell | blackjack-trainer/src/app/features/flashcards/flashcards.component.ts:118-160 | an item expects the S17 chart's decision for its cell, and its key names the cell |
| Flashcards.DueItems | blackjack-trainer/src/app/features/flashcards/flashcards.component.ts:87-90 | the due part holds exactly the items whose key has no entry or whose nextDue has come |
| Flashcards.FutureItems | blackjack-trainer/src/app/features/flashcards/flashcards.component.ts:91 | the future part holds exactly the items not in the due part |
| Flashcards.DueSplit | blackjack-trainer/src/app/features/flashcards/flashcards.component.ts:87-91 | the due part and the future part together hold every item exactly as often as the list does |
| Flashcards.DueSplitSnoc | blackjack-trainer/src/app/features/flashcards/flashcards.component.ts:87-91 | one more item goes to exactly one of the two parts |
| Flashcards.InsertByRank | blackjack-trainer/src/app/features/flashcards/flashcards.component.ts:93-102 | inserting into the sorted due list adds exactly that item |
| Flashcards.InsertByRankSorted | blackjack-trainer/src/app/features/flashcards/flashcards.component.ts:93-102 | inserting into a list sorted by (nextDue, consecutive) keeps it sorted |
| Flashcards.InsertedNotAfterLast | blackjack-trainer/src/app/features/flashcards/flashcards.component.ts:93-102 | when the new item ranks before the last one, nothing in front ranks after that last one |
| Flashcards.SortedSnoc | blackjack-trainer/src/app/features/flashcards/flashcards.component.ts:93-102 | appending an item that ranks after nothing already there keeps the list sorted |
| Flashcards.SortDue | blackjack-trainer/src/app/features/flashcards/flashcards.component.ts:93-102 | the due sort is a permutation of the due items, ordered by nextDue, then by consecutive, missing entries first |
| Flashcards.QueueIsPermutation | blackjack-trainer/src/app/features/flashcards/flashcards.component.ts:103 | the sorted due items followed by the future items hold exactly the built items |
| Flashcards.Shuffle | blackjack-trainer/src/app/features/flashcards/flashcards.component.ts:174-179 | the backwards swap loop permutes the array |
| Flashcards.ShuffledCopy | blackjack-trainer/src/app/features/flashcards/flashcards.component.ts:174-179 | the shuffled list holds the same items as before |
| Flashcards.Requeue | blackjack-trainer/src/app/features/flashcards/flashcards.component.ts:84-104 | the due-first ordering followed by the shuffle holds exactly the built items |
| Flashcards.DueCountBounds | blackjack-trainer/src/app/features/flashcards/flashcards.component.ts:37-40 | no more keys are due than are tracked, and a key once due stays due later |
| Flashcards.RelativeTimeUnits | blackjack-trainer/src/app/features/flashcards/flashcards.component.ts:62-71 | "now" exactly when the time has passed; otherwise minutes below 59.5 min, hours below 1409.5 min, and days beyond |
| Flashcards.Circular | blackjack-trainer/src/app/features/flashcards/flashcards.component.ts:185 | the k-th index of the circular scan lies within the list |
| Flashcards.CircularCovers | blackjack-trainer/src/app/features/flashcards/flashcards.component.ts:183-189 | a scan of n steps visits every one of the n items |
| Flashcards.MasteredAfterTwoAnswers | blackjack-trainer/src/app/features/flashcards/flashcards.component.ts:227-230 | as written, two correct answers master a card: the count goes up twice per answer, where masteryTarget = 3 means three answers |
| Flashcards.FlashcardsComponent.constructor | blackjack-trainer/src/app/features/flashcards/flashcards.component.ts:73-78 | loads the mastery and SRS caches of the service (the same objects), then rebuilds, so the items hold exactly the built items |
| Flashcards.FlashcardsComponent.Build | blackjack-trainer/src/app/features/flashcards/flashcards.component.ts:109-168 | appends exactly BuildItems |
| Flashcards.FlashcardsComponent.PushRows | blackjack-trainer/src/app/features/flashcards/flashcards.component.ts:111-128 | one table's forEach appends that table's items |
| Flashcards.FlashcardsComponent.Rebuild | blackjack-trainer/src/app/features/flashcards/flashcards.component.ts:79-107 | the items become a permutation of the freshly built items, the index 0 and the timer restarted; nothing else changes |
| Flashcards.FlashcardsComponent.FillQueue | blackjack-trainer/src/app/features/flashcards/flashcards.component.ts:80-104 | empties the items, builds them and requeues them: a permutation of the built items |
| Flashcards.FlashcardsComponent.NextUnmasteredIndex | blackjack-trainer/src/app/features/flashcards/flashcards.component.ts:183-189 | -1 if and only if every item is mastered; otherwise the first unmastered index on the circular scan from start |
| Flashcards.FlashcardsComponent.PlayerTotal | blackjack-trainer/src/app/features/flashcards/flashcards.component.ts:50-61 | no total without a current item; otherwise the cards' sum with aces at 11, less 10 per ace while above 21 |
| Flashcards.FlashcardsComponent.Answer | blackjack-trainer/src/app/features/flashcards/flashcards.component.ts:209-242 | as written: records the answer (history and streaks), stores the next SRS entry, sets the feedback, and on a correct answer raises the shared mastery count twice; without a current item nothing changes; the queue, position and start time stay |
| Flashcards.FlashcardsComponent.AnswerOnce | blackjack-trainer/src/app/features/flashcards/flashcards.component.ts:209-242 | corrected: the same, but a correct answer raises the mastery count once |
| Flashcards.FlashcardsComponent.Advance | blackjack-trainer/src/app/features/flashcards/flashcards.component.ts:231-241 | reports "All combinations mastered!" if and only if every item is mastered, leaving the position, item and start time; otherwise clears the feedback and moves to the index where the circular scan from the next position stops, shows that item and restarts the clock |
| Drill.ActionsFor | src/app/features/drill/drill.component.ts:69-71 | the four base actions are always offered, and SURRENDER if and only if late surrender is allowed |
| Drill.NumeralCard | src/app/features/drill/drill.component.ts:285-292 | card(String(n)) is worth n, and its rank is never 'A' |
| Drill.NumeralInjective | src/app/features/drill/drill.component.ts:272-276 | two numbers render alike if and only if they are equal |
| Drill.DealerLabelFacts | src/app/features/drill/drill.component.ts:299-301 | the dealer label is "A" exactly for 11; any other label parses back to the value and has no '-' for a non-negative value |
| Drill.Recent | src/app/features/drill/drill.component.ts:80 | `slice(-300)` keeps the last min(n, 300) entries |
| Drill.CountedOf | src/app/features/drill/drill.component.ts:81 | the filter keeps exactly the drill entries with a non-empty scenario |
| Drill.AggOfTotals | src/app/features/drill/drill.component.ts:82-87 | the tally map holds exactly the keys that occur, each with the summed attempts and successes of its entries; the key list names each key once |
| Drill.AggKeysOccur | src/app/features/drill/drill.component.ts:83-87 | a key is tallied if and only if some entry carries it |
| Drill.AggTotals | src/app/features/drill/drill.component.ts:83-87 | each tally is the sum over its key's entries |
| Drill.KeysOfAgg | src/app/features/drill/drill.component.ts:88 | the key list holds each tallied key exactly once |
| Drill.WeakOf | src/app/features/drill/drill.component.ts:88-90 | the weak list holds exactly the listed keys whose tally is weak |
| Drill.WeakInIntegers | src/app/features/drill/drill.component.ts:89-90 | weak means at least two attempts and accuracy below 0.75, that is, 4c < 3a |
| Drill.QuotientBelow | src/app/features/drill/drill.component.ts:89 | c / a < k exactly when c < k * a, for a > 0 |
| Drill.WeakScenariosIff | src/app/features/drill/drill.component.ts:78-90 | a key is weak if and only if its recent drill answers have at least two attempts with fewer than three successes in four |
| Drill.NoTotalsForAbsentKey | src/app/features/drill/drill.component.ts:83-87 | a key no entry carries has zero attempts and successes |
| Drill.DecodePairRanks | src/app/features/drill/drill.component.ts:106-114 | rank-spelled pair keys decode to themselves; the legacy totals 12, 14, 16, 18 and 20 decode to A, 7, 8, 9 and 10 |
| Drill.DecodeLegacyLow | src/app/features/drill/drill.component.ts:109 | the legacy totals 12, 14, 16 decode to A, 7, 8 |
| Drill.DecodeLegacyHigh | src/app/features/drill/drill.component.ts:109 | the legacy totals 18, 20 decode to 9, 10 |
| Drill.DecodeEvenRanks | src/app/features/drill/drill.component.ts:111 | "4", "6", "8", "10" are ranks and are not decoded as legacy totals |
| Drill.Reconstruct | src/app/features/drill/drill.component.ts:97-133 | a weak key is always re-dealt as two player cards |
| Drill.KeyParts | src/app/features/drill/drill.component.ts:98-102 | a key "kind-mid-D<dealer>" splits into its kind, its middle and its dealer part |
| Drill.DealerRoundTrip | src/app/features/drill/drill.component.ts:102-104 | the dealer part of a key comes back as a card of the same value |
| Drill.EvaluateTwo | src/app/features/drill/drill.component.ts:181 | evaluating two cards: the sum reduced while an ace is held, soft when an ace is held and the cards are not a pair of another rank |
| Drill.ReconstructParts | src/app/features/drill/drill.component.ts:97-133 | a key is re-dealt as the player cards of its kind and middle, with a dealer card of its dealer value |
| Drill.PairKeyRoundTrip | src/app/features/drill/drill.component.ts:106-114 | a pair key of a named rank is re-dealt as a hand with the same scenario key |
| Drill.SoftKeyRoundTrip | src/app/features/drill/drill.component.ts:115-119 | a soft key of a total up to 21 is re-dealt as a hand with the same scenario key |
| Drill.SoftPlayerFromKey | src/app/features/drill/drill.component.ts:117-119 | a soft key of total t re-deals an ace and the numeral t - 11 |
| Drill.SoftPlayerEvaluates | src/app/features/drill/drill.component.ts:117-119 | an ace and t - 11 evaluate to a soft t that is not a pair, for t up to 21 |
| Drill.HardKeyCards | src/app/features/drill/drill.component.ts:122-131 | a hard key of total t re-deals 10 and t - 10 from 12 up, and t - 2 and 2 below |
| Drill.HighHardKeyCards | src/app/features/drill/drill.component.ts:124-125 | from 12 up, a hard key re-deals 10 and t - 10 |
| Drill.TenNumeral | src/app/features/drill/drill.component.ts:125 | the rank written for 10 is "10" |
| Drill.LowHardKeyCards | src/app/features/drill/drill.component.ts:126-131 | below 12, a hard key re-deals t - 2 and 2 |
| Drill.HardKeyRoundTrip | src/app/features/drill/drill.component.ts:120-131 | a hard key is re-dealt as a hard hand of the same total, and keeps its scenario key except at 4 and 20, which come back as the pairs 2,2 and 10,10 |
| Drill.RandInt | src/app/features/drill/drill.component.ts:278-280 | randInt(lo, hi) lies within lo..hi |
| Drill.Choice | src/app/features/drill/drill.component.ts:281-283 | randChoice picks an element of the array |
| Drill.HardValues | src/app/features/drill/drill.component.ts:259-273 | buildHardTotal's two values add up to the total clamped to 4..20, the first is 2..10 and the second 2..11, and they are equal only at 4 |
| Drill.BuildHardTotalEvaluates | src/app/features/drill/drill.component.ts:259-273 | a built hard hand evaluates to a hard hand of the clamped total, and is a pair only at 4 |
| Drill.BuildSoftTotalEvaluates | src/app/features/drill/drill.component.ts:274-277 | a built soft hand is soft, not a pair, and totals 11 + clamp(total - 11, 2, 10), which is the total itself for 13..21 |
| Drill.Generate | src/app/features/drill/drill.component.ts:139-177 | the difficulty-driven branch always deals two player cards |
| Drill.Deal | src/app/features/drill/drill.component.ts:135-180 | genHand always deals two player cards and leaves at least one dealer card |
| Drill.StoredDifficultyDealsMedium | src/app/features/drill/drill.component.ts:142-176 | the stored difficulty is never 'EASY' or 'HARD', so every drill deals from the MEDIUM distribution |
| Drill.DeclaredTiersDealApart | src/app/features/drill/drill.component.ts:142-176 | with a tier of the declared type EASY, MEDIUM or HARD, the tier decides the hand: on the same draws the three tiers deal 7,7, 3,3 and 4,4 |
| Drill.ForcedDealsWeakScenario | src/app/features/drill/drill.component.ts:95-137 | on the weak path the hand is the reconstruction of the chosen weak key, with its dealer card alone |
| Drill.DealerKept | src/app/features/drill/drill.component.ts:179 | as written: off the weak path and outside the HARD tier, a dealer card left from the previous hand stays, whatever card was drawn |
| Drill.DealerKeptExample | src/app/features/drill/drill.component.ts:179 | after a dealer 5, the next hand draws an ace but shows the 5 again |
| Drill.FreshDealerDrawn | src/app/features/drill/drill.component.ts:179 | corrected: dealing with no previous dealer card shows the drawn card (or, in the HARD tier, its 9..11 replacement) |
| Drill.ExplanationEmpty | src/app/features/drill/drill.component.ts:214-238 | the explanation is empty if and only if the decision is SPLIT on a hand not keyed as a pair |
| Drill.HintSourceNamesTable | src/app/features/drill/drill.component.ts:323-329 | the hint names "pairs" for a charted pair, else "soft" for a soft 13..20, else "hard" for 5..21, else nothing: the table the chart lookup reads first |
| Drill.Tallies | src/app/features/drill/drill.component.ts:82-87 | the aggregation loop computes KeysOf and AggOf of the counted entries |
| Drill.FindWeak | src/app/features/drill/drill.component.ts:78-90 | the weak scenarios through the aggregation loop are WeakScenarios |
| Drill.DealHand | src/app/features/drill/drill.component.ts:76-180 | the hand dealt for a history is Deal of its weak scenarios |
| Drill.AnswerStreak | src/app/features/drill/drill.component.ts:190-211 | the stored streak after an answer grows by one when it is correct and resets otherwise |
| Drill.DrillComponent.constructor | src/app/features/drill/drill.component.ts:46-60 | default rules and all five actions, zero counters, the stored difficulty's name, and a first hand dealt from no dealer card and shown with its chart decision |
| Drill.DrillComponent.LoadRules | src/app/features/drill/drill.component.ts:65-75 | a saved rule set replaces the rules, the actions follow the rules, and the shown hand's decision is looked up again |
| Drill.DrillComponent.Answer | src/app/features/drill/drill.component.ts:186-213 | ignored without a hand or decision or while waiting; otherwise counts the attempt, moves the streak and best streak here and in storage, sets feedback and explanation, records the entry and waits; stored mastery, SRS, presets and difficulty stay |
| Drill.DrillComponent.Score | src/app/features/drill/drill.component.ts:189-197 | one more attempt; the streak grows on a correct answer and resets on a wrong one; best = max(best, streak) |
| Drill.DrillComponent.Respond | src/app/features/drill/drill.component.ts:198-212 | sets the feedback and explanation and waits for next |
| Drill.DrillComponent.Record | src/app/features/drill/drill.component.ts:200-211 | appends the entry to the stored history and moves the stored streak and best streak; the rest of storage stays |
| Drill.DrillComponent.Next | src/app/features/drill/drill.component.ts:239-246 | as written: clears the feedback, explanation and hint, then deals from the dealer cards as they are |
| Drill.DrillComponent.ResetView | src/app/features/drill/drill.component.ts:240-244 | no feedback, explanation or hint, and not waiting |
| Drill.DrillComponent.NextFresh | src/app/features/drill/drill.component.ts:239-246 | corrected: the same, but deals from no dealer card |
| Drill.DrillComponent.ShowHint | src/app/features/drill/drill.component.ts:313-381 | only with a hand and only once per hand: sets the hint text and marks the hint used |
| Drill.DrillComponent.GenHand | src/app/features/drill/drill.component.ts:76-185 | deals Deal of the weak scenarios and shows the evaluated hand with its chart decision |
| Drill.DrillComponent.DealCards | src/app/features/drill/drill.component.ts:78-180 | the dealing half of genHand |
| Drill.DrillComponent.ShowHand | src/app/features/drill/drill.component.ts:181-184 | the shown hand is the evaluation of the dealt cards, with its chart decision |
| Drill.DrillComponent.SetHand | src/app/features/drill/drill.component.ts:182-184 | stores the hand and its decision, and restarts the clock |
| Analytics.SliceIndex | blackjack-trainer/src/app/core/services/analytics-metrics.service.ts:94 | a slice bound denotes a position within the array |
| Analytics.SliceLast | blackjack-trainer/src/app/core/services/analytics-metrics.service.ts:59 | `slice(-count)` keeps the last min(count, n) entries, and all of them for count 0 |
| Analytics.SliceFirst | blackjack-trainer/src/app/core/services/analytics-metrics.service.ts:94 | `slice(0, limit)` keeps the first min(limit, n) rows |
| Analytics.Reverse | blackjack-trainer/src/app/core/services/analytics-metrics.service.ts:59 | the entries in the opposite order |
| Analytics.SumsSnoc | blackjack-trainer/src/app/core/services/analytics-metrics.service.ts:45-46 | one more entry adds its attempts and successes to the sums |
| Analytics.CorrectAtMostAttempts | blackjack-trainer/src/app/core/services/analytics-metrics.service.ts:45-46 | when no entry has more successes than attempts, neither do the sums |
| Analytics.RatioBounded | blackjack-trainer/src/app/core/services/analytics-metrics.service.ts:47 | a ratio of counts with correct <= attempts lies in [0, 1], and the percentage is 100 times it |
| Analytics.Times | blackjack-trainer/src/app/core/services/analytics-metrics.service.ts:48 | the timed values are at most one per entry |
| Analytics.TotalsAccuracy | blackjack-trainer/src/app/core/services/analytics-metrics.service.ts:44-51 | accuracy is a percentage, 0 for no attempts, and correct <= attempts |
| Analytics.TotalsSnoc | blackjack-trainer/src/app/core/services/analytics-metrics.service.ts:44-51 | one more entry adds its counts to the totals and its time, if any, to the timed values |
| Analytics.SumBetween | blackjack-trainer/src/app/core/services/analytics-metrics.service.ts:49 | values within [lo, hi] sum to within n * [lo, hi] |
| Analytics.MeanBetween | blackjack-trainer/src/app/core/services/analytics-metrics.service.ts:49 | the mean of values within [lo, hi] lies within [lo, hi] |
| Analytics.QuotientBetween | blackjack-trainer/src/app/core/services/analytics-metrics.service.ts:49 | dividing a total within n * [lo, hi] by n gives a value within [lo, hi] |
| Analytics.PositiveProduct | blackjack-trainer/src/app/core/services/analytics-metrics.service.ts:49 | a product of two positive reals is positive |
| Analytics.TotalsAverageTime | blackjack-trainer/src/app/core/services/analytics-metrics.service.ts:48-49 | the average time is 0 when no entry is timed and otherwise lies within the range of the timed entries |
| Analytics.TimesWithin | blackjack-trainer/src/app/core/services/analytics-metrics.service.ts:48 | the timed values keep the bounds of the entries' times |
| Analytics.DrillEntries | blackjack-trainer/src/app/core/services/analytics-metrics.service.ts:53 | only drill answers are kept |
| Analytics.Hinted | blackjack-trainer/src/app/core/services/analytics-metrics.service.ts:54 | only answers that used a hint are kept, at most all of them |
| Analytics.HintUsageBounds | blackjack-trainer/src/app/core/services/analytics-metrics.service.ts:52-57 | hinted answers are among the drill answers; the rate is a percentage, 0 with no drill answer |
| Analytics.HintUsageSnoc | blackjack-trainer/src/app/core/services/analytics-metrics.service.ts:52-57 | one more entry counts only as a drill answer, and as hinted only if it used a hint |
| Analytics.RecentNewestFirst | blackjack-trainer/src/app/core/services/analytics-metrics.service.ts:58-60 | the last min(count, n) entries, newest first, and the whole history for count 0 |
| Analytics.SparkPoints | blackjack-trainer/src/app/core/services/analytics-metrics.service.ts:61-64 | one percentage per entry of the last min(count, n), oldest first |
| Analytics.EntriesFor | blackjack-trainer/src/app/core/services/analytics-metrics.service.ts:67-72 | an action's or scenario's entries are exactly those grouped under it |
| Analytics.AggKeysOccur | blackjack-trainer/src/app/core/services/analytics-metrics.service.ts:67-72 | a key is tallied exactly when some entry carries it; entries without one are skipped |
| Analytics.NoEntriesForAbsentKey | blackjack-trainer/src/app/core/services/analytics-metrics.service.ts:68 | a key no entry carries has no entries |
| Analytics.AggTotals | blackjack-trainer/src/app/core/services/analytics-metrics.service.ts:67-72 | each tally sums the attempts and successes of its key's entries |
| Analytics.AggTotalsStep | blackjack-trainer/src/app/core/services/analytics-metrics.service.ts:69-71 | the last entry updates its key's tally as it extends the key's entries |
| Analytics.KeysOfAgg | blackjack-trainer/src/app/core/services/analytics-metrics.service.ts:73 | the key list names each tallied key exactly once |
| Analytics.AbsentKeyNoEntries | blackjack-trainer/src/app/core/services/analytics-metrics.service.ts:73 | a key missing from the key list has no entries |
| Analytics.Aggregate | blackjack-trainer/src/app/core/services/analytics-metrics.service.ts:66-72 | the aggregation loop builds the per-key tallies and the keys in first-seen order |
| Analytics.StrLessIrreflexive | blackjack-trainer/src/app/core/services/analytics-metrics.service.ts:80 | the order used to sort action names is irreflexive |
| Analytics.StrLessTransitive | blackjack-trainer/src/app/core/services/analytics-metrics.service.ts:80 | the order used to sort action names is transitive |
| Analytics.StrLessTotal | blackjack-trainer/src/app/core/services/analytics-metrics.service.ts:80 | any two distinct action names are ordered |
| Analytics.InsertBy | blackjack-trainer/src/app/core/services/analytics-metrics.service.ts:93 | inserting into the sort adds exactly the new element |
| Analytics.SortBy | blackjack-trainer/src/app/core/services/analytics-metrics.service.ts:93 | sorting by a numeric key is a permutation |
| Analytics.SortedSnocBy | blackjack-trainer/src/app/core/services/analytics-metrics.service.ts:93 | appending an element whose key is the largest keeps the order |
| Analytics.InsertBySorted | blackjack-trainer/src/app/core/services/analytics-metrics.service.ts:93 | inserting into a sorted sequence keeps it sorted |
| Analytics.AmongSnoc | blackjack-trainer/src/app/core/services/analytics-metrics.service.ts:93 | appending extends the elements of its key |
| Analytics.InsertByAmong | blackjack-trainer/src/app/core/services/analytics-metrics.service.ts:93 | insertion keeps elements of equal key in order, the new one after them |
| Analytics.SwapDisjoint | blackjack-trainer/src/app/core/services/analytics-metrics.service.ts:93 | an empty part can move past another |
| Analytics.SortByMembers | blackjack-trainer/src/app/core/services/analytics-metrics.service.ts:93 | the sorted sequence holds only input elements |
| Analytics.SortBySorted | blackjack-trainer/src/app/core/services/analytics-metrics.service.ts:93 | the result is in ascending order of the key |
| Analytics.KeepLowest | blackjack-trainer/src/app/core/services/analytics-metrics.service.ts:93-94 | sorting ascending then slicing keeps exactly min(limit, n) elements of the input, ascending, none above an element left out, and all of them when they fit |
| Analytics.SortByStable | blackjack-trainer/src/app/core/services/analytics-metrics.service.ts:93 | elements with equal keys keep their relative order (the sort is stable) |
| Analytics.StatRows | blackjack-trainer/src/app/core/services/analytics-metrics.service.ts:73-79 | one row per key, each with its tally and accuracy |
| Analytics.InsertByName | blackjack-trainer/src/app/core/services/analytics-metrics.service.ts:80 | inserting a row by name adds exactly that row |
| Analytics.SortByName | blackjack-trainer/src/app/core/services/analytics-metrics.service.ts:80 | sorting rows by action name is a permutation |
| Analytics.InsertByNameAscending | blackjack-trainer/src/app/core/services/analytics-metrics.service.ts:80 | inserting a row with a new action keeps the names ascending |
| Analytics.SortByNameAscending | blackjack-trainer/src/app/core/services/analytics-metrics.service.ts:80 | rows with distinct actions come out in ascending order of action |
| Analytics.ComputeActionStats | blackjack-trainer/src/app/core/services/analytics-metrics.service.ts:65-81 | the aggregation loop and sort compute the action-stats rows |
| Analytics.ActionStatsAscending | blackjack-trainer/src/app/core/services/analytics-metrics.service.ts:65-81 | the rows are in ascending order of action, hence one per action |
| Analytics.SortedStatRows | blackjack-trainer/src/app/core/services/analytics-metrics.service.ts:73-80 | sorting keeps one row per key, each with its key's tally |
| Analytics.ActionStatsRows | blackjack-trainer/src/app/core/services/analytics-metrics.service.ts:65-81 | a row exists exactly for each expected action, and sums that action's entries |
| Analytics.Candidates | blackjack-trainer/src/app/core/services/analytics-metrics.service.ts:91-92 | candidates are scenarios with at least minAttempts attempts, with their tallies |
| Analytics.ComputeWeakest | blackjack-trainer/src/app/core/services/analytics-metrics.service.ts:82-95 | the loop, map, filter, sort and slice compute the weakest scenarios |
| Analytics.KeptCandidates | blackjack-trainer/src/app/core/services/analytics-metrics.service.ts:92-94 | exactly min(limit, #candidates) candidates, in ascending accuracy, none more accurate than a candidate left out, and all of them when they fit |
| Analytics.WeakestRows | blackjack-trainer/src/app/core/services/analytics-metrics.service.ts:82-95 | at most limit rows, weakest first, each a scenario with enough attempts summed over its entries; an eligible scenario left out is at least as accurate as every row, and a short result holds every eligible scenario |
| Analytics.CandidatesComplete | blackjack-trainer/src/app/core/services/analytics-metrics.service.ts:92 | every key with enough attempts is a candidate |
| Analytics.AllCandidatesKept | blackjack-trainer/src/app/core/services/analytics-metrics.service.ts:92-94 | with room for all keys, every candidate is kept |
| Analytics.WeakestComplete | blackjack-trainer/src/app/core/services/analytics-metrics.service.ts:82-95 | with room for all of them, every scenario with enough attempts appears |
| Analytics.KeysAtMostEntries | blackjack-trainer/src/app/core/services/analytics-metrics.service.ts:84-89 | there are at most as many keys as entries |
| Analytics.CandidatesAtMostKeys | blackjack-trainer/src/app/core/services/analytics-metrics.service.ts:91-92 | there are at most as many candidates as keys |
| Analytics.AtLeastAttempts | blackjack-trainer/src/app/core/services/analytics-metrics.service.ts:121 | the rows kept are rows with at least minAttempts attempts |
| Analytics.KeptStats | blackjack-trainer/src/app/core/services/analytics-metrics.service.ts:121-123 | exactly min(limit, #rows with enough attempts) rows, in ascending accuracy, none more accurate than such a row left out, and all of them when they fit |
| Analytics.HardestActionsRows | blackjack-trainer/src/app/core/services/analytics-metrics.service.ts:119-126 | at most limit rows, hardest first, each an action-stats row with enough attempts; an eligible action left out is at least as accurate as every row, and a short result holds every eligible action |
| Analytics.HardestOfRows | blackjack-trainer/src/app/core/services/analytics-metrics.service.ts:120-124 | exactly min(limit, #rows with enough attempts) projected rows, in ascending accuracy, each from the input, none more accurate than an eligible row left out, and all of them when they fit |
| Analytics.HardestActionsComplete | blackjack-trainer/src/app/core/services/analytics-metrics.service.ts:119-126 | with room for every entry, each action with enough attempts appears |
| Analytics.TrendPoints | blackjack-trainer/src/app/core/services/analytics-metrics.service.ts:104-115 | one point per entry of the window, each the running percentage up to it |
| Analytics.Rolling | blackjack-trainer/src/app/core/services/analytics-metrics.service.ts:107-114 | the rolling loop computes the running percentages |
| Analytics.GroupByAction | blackjack-trainer/src/app/core/services/analytics-metrics.service.ts:97-102 | each expected action gets its entries in history order, and only those actions are keys |
| Analytics.ComputeActionTrends | blackjack-trainer/src/app/core/services/analytics-metrics.service.ts:96-118 | one trend per expected action, over that action's entries |
| Analytics.DueRows | blackjack-trainer/src/app/core/services/analytics-metrics.service.ts:133-141 | only keys with a set, passed due time and a stored entry are listed |
| Analytics.ComputeOverdueSrs | blackjack-trainer/src/app/core/services/analytics-metrics.service.ts:128-143 | the loop, sort and slice compute the overdue rows |
| Analytics.OverdueSrsRows | blackjack-trainer/src/app/core/services/analytics-metrics.service.ts:128-143 | exactly min(limit, #overdue keys) rows, most overdue first, each an overdue key with non-negative lateness; an overdue key left out is no later than any row, and a short result holds every overdue key |
| Analytics.DueRowsAtMostKeys | blackjack-trainer/src/app/core/services/analytics-metrics.service.ts:133-141 | at most one row per key |
| Analytics.DueRowsComplete | blackjack-trainer/src/app/core/services/analytics-metrics.service.ts:136-140 | every overdue key with an entry is listed |
| Analytics.OverdueSrsComplete | blackjack-trainer/src/app/core/services/analytics-metrics.service.ts:128-143 | with room for every key, each overdue key is listed |
| Analytics.BucketOf | blackjack-trainer/src/app/core/services/analytics-metrics.service.ts:155-164 | every time falls in one of the six buckets |
| Analytics.BucketBounds | blackjack-trainer/src/app/core/services/analytics-metrics.service.ts:146-164 | a bucket holds exactly the times from its lower bound, inclusive, to its upper bound, exclusive |
| Analytics.ComputeTimeDistribution | blackjack-trainer/src/app/core/services/analytics-metrics.service.ts:145-167 | six named buckets, in declared order, each counting its timed entries |
| Analytics.BucketsCoverTimed | blackjack-trainer/src/app/core/services/analytics-metrics.service.ts:154-165 | the bucket counts add up to the number of timed entries |
| Analytics.BucketEdges | blackjack-trainer/src/app/core/services/analytics-metrics.service.ts:157-163 | each boundary starts the next bucket |
| StrategyChart.SigNames | src/app/features/strategy-chart/strategy-chart.component.ts:107 | one cell name per dealer card of the chart |
| StrategyChart.CellNameInjective | src/app/features/strategy-chart/strategy-chart.component.ts:107 | distinct cells have distinct names, and no name holds the separator of the signature |
| StrategyChart.SigAgrees | src/app/features/strategy-chart/strategy-chart.component.ts:107-109 | two rows have the same signature exactly when they agree against every dealer card |
| StrategyChart.ListsPresentStep | src/app/features/strategy-chart/strategy-chart.component.ts:104-106 | scanning one more total extends the ascending list of totals that have a row |
| StrategyChart.MergeKeepsGrouped | src/app/features/strategy-chart/strategy-chart.component.ts:109-110 | appending a total with the last group's signature keeps the grouping sound |
| StrategyChart.OpenKeepsGrouped | src/app/features/strategy-chart/strategy-chart.component.ts:111-112 | opening a group for a total with a new signature keeps the grouping sound |
| StrategyChart.GroupHardRows | src/app/features/strategy-chart/strategy-chart.component.ts:101-114 | the groups list, in order, exactly the totals 5..21 that have a row; each group's totals share one signature; neighbouring groups differ |
| StrategyChart.LabelEnds | src/app/features/strategy-chart/strategy-chart.component.ts:116 | a label reads back as its row's first and last totals, with a dash exactly when the row has several |
| StrategyChart.Labelled | src/app/features/strategy-chart/strategy-chart.component.ts:115-118 | one displayed row per group |
| StrategyChart.RowTotalsOfLabelled | src/app/features/strategy-chart/strategy-chart.component.ts:115-118 | the displayed rows stand for the groups' totals, in order |
| StrategyChart.DisplayOfGroups | src/app/features/strategy-chart/strategy-chart.component.ts:100-120 | the groups built by the loop display as the chart promises: ascending totals, labelled by their ends, rows that agree, no mergeable neighbours |
| StrategyChart.Kept | src/app/features/strategy-chart/strategy-chart.component.ts:88 | the filter keeps exactly the row's totals that have a table row |
| StrategyChart.DecisionFor | src/app/features/strategy-chart/strategy-chart.component.ts:87-91 | '?' exactly when none of the row's totals has a table row |
| StrategyChart.KeptFirst | src/app/features/strategy-chart/strategy-chart.component.ts:88-90 | the first kept total is the first total that has a table row |
| StrategyChart.DecisionForFirst | src/app/features/strategy-chart/strategy-chart.component.ts:87-91 | the cell shown is that of the first total with a table row |
| StrategyChart.RowShowsEveryTotal | src/app/features/strategy-chart/strategy-chart.component.ts:87-91 | a displayed row shows, against every dealer card, the decision of each total it stands for |
| StrategyChart.ChartShowsStrategy | src/app/features/strategy-chart/strategy-chart.component.ts:87-120 | every hard cell shown is the basic-strategy decision of each total of its row |
| StrategyChart.AbbrOfDecisions | src/app/features/strategy-chart/strategy-chart.component.ts:75-80 | the five actions abbreviate to H, S, D, Sp and R, and '?' to '?' |
| StrategyChart.AbbrDistinguishes | src/app/features/strategy-chart/strategy-chart.component.ts:75-80 | different actions get different abbreviations, and none reads '?' |
| StrategyChart.ChartKey | src/app/features/strategy-chart/strategy-chart.component.ts:51-53 | the key built from the rule set is the rule key, which names the variant's stored tables |
| StrategyChart.StoredTables | src/app/features/strategy-chart/strategy-chart.component.ts:53 | the stored tables under a key are those of the key's variant |
| StrategyChart.Spaced | src/app/features/strategy-chart/strategy-chart.component.ts:55 | writing '_' as ' ' keeps the length |
| StrategyChart.TitleVariant | src/app/features/strategy-chart/strategy-chart.component.ts:55-56 | the title is the rule key with spaces for underscores |
| StrategyChart.SpacedAppend | src/app/features/strategy-chart/strategy-chart.component.ts:55 | the spacing distributes over concatenation |
| StrategyChart.TitleSpaced | src/app/features/strategy-chart/strategy-chart.component.ts:51-56 | the title is H17 or S17, then " LS" and " DAS" for the rules that hold |
| StrategyChart.StrategyChartComponent.constructor | src/app/features/strategy-chart/strategy-chart.component.ts:42-70 | the page starts on the S17 tables, title and note, and charts them |
| StrategyChart.StrategyChartComponent.RebuildHardGroups | src/app/features/strategy-chart/strategy-chart.component.ts:100-120 | the hard chart displays the current tables |
| StrategyChart.StrategyChartComponent.ApplyRuleSet | src/app/features/strategy-chart/strategy-chart.component.ts:48-68 | with no stored rule set nothing changes; otherwise the page shows the rule set's variant and rebuilds the chart |
| StrategyChart.StrategyChartComponent.SelectVariant | src/app/features/strategy-chart/strategy-chart.component.ts:51-65 | the page shows the variant of the rule set: its tables, surrender flag, title and notes |
| Settings.CollapseRuns | src/app/features/settings/settings.component.ts:100 | each run of characters outside a-z0-9 becomes one '-': only slug characters and '-', never two dashes in a row, a trailing dash exactly when the name ends outside a-z0-9 |
| Settings.CollapseKeepsSlugChars | src/app/features/settings/settings.component.ts:100 | every a-z0-9 character is kept, in order |
| Settings.CollapseStart | src/app/features/settings/settings.component.ts:100 | the slug starts with '-' exactly when the name starts outside a-z0-9 |
| Settings.CollapseIdempotent | src/app/features/settings/settings.component.ts:100 | collapsing a slug again changes nothing |
| Settings.PresetId | src/app/features/settings/settings.component.ts:100 | the id starts with "custom-" and has more exactly when the name is not empty |
| Settings.FindById | src/app/features/settings/settings.component.ts:76 | nothing is found exactly when no preset has the id; a found preset is in the list and has the id |
| Settings.FindFirst | src/app/features/settings/settings.component.ts:76 | find returns the first preset with the id |
| Settings.FindPrefersFirst | src/app/features/settings/settings.component.ts:76 | a built-in with the id shadows custom presets with it |
| Settings.NewPreset | src/app/features/settings/settings.component.ts:97-110 | nothing is made exactly when the trimmed name is blank or its id is taken; otherwise the current rules under the new id and trimmed name |
| Settings.NewPresetKeepsRules | src/app/features/settings/settings.component.ts:103 | a created preset has the current deck count and rule flags, a non-blank name and a custom- id |
| Settings.NewPresetApplies | src/app/features/settings/settings.component.ts:102-104 | adding the created preset keeps ids distinct, and applying its id finds it |
| Settings.DeletedNotApplied | src/app/features/settings/settings.component.ts:112 | after a deletion only a built-in with that id can still be applied |
| Settings.PresetIdsDistinct | src/app/features/settings/settings.component.ts:31-64 | the built-in presets have distinct ids |
| Settings.BuiltInApplies | src/app/features/settings/settings.component.ts:31-76 | applying a built-in's id selects that built-in, whatever the custom presets |
| Settings.SettingsComponent.constructor | src/app/features/settings/settings.component.ts:65-70 | the saved rule set or the default rules, the stored difficulty (which storage then holds) and the stored custom presets; stored history, SRS, mastery and streaks stay |
| Settings.SettingsComponent.ApplyPreset | src/app/features/settings/settings.component.ts:74-81 | the first preset with the id becomes the rules; an unknown id changes nothing |
| Settings.SettingsComponent.CreateCustomPreset | src/app/features/settings/settings.component.ts:97-110 | a blank name or a taken id changes nothing; otherwise the preset is appended here and in storage, becomes the rules, and the name field is cleared; the rest of storage stays |
| Settings.SettingsComponent.DeleteCustomPreset | src/app/features/settings/settings.component.ts:111-114 | every custom preset with the id goes, here and in storage; the others stay in order, as does the rest of storage |

## Left out

- `localStorage`, `JSON.parse` and `JSON.stringify`: both storage services receive already-parsed stored values as constructor or method parameters. An unreadable value stands for an empty one. `saveStats`, `saveSrs`, `saveMastery`, `saveCustomRuleSets`, `saveDifficulty` and the signals (`ruleSetSignal`, `statsSignal`) only persist or publish state the model keeps in fields.
- `Date.now()` and `performance.now()` are parameters (`now`, `perfNow`). `Math.random` outcomes are inputs: the drill's `Draws`, the shuffle's `random` function and the flashcards' `face` index.
- Card suits, `cardFace`, `descPlayer`, `dLabel` and `cls` only decorate the page.
- Flashcards.MakePlayerCombo: one `face` index picks the face of every ten-valued card that `cardFromValue` draws for a flashcard item (the hard-total player cards and the dealer card), where `cardFromValue` draws a face for each card separately; so two ten-valued player cards always show the same face. Only the displayed rank differs, never a value.
- Keyboard handlers (`onKey`), `window` events (`rules-changed`, `difficulty-changed`), `ngOnDestroy`, `setTimeout` (the flashcards' 800 ms advance and the settings' 150 ms debounced save) and Angular `effect` wiring are event plumbing. The effect body of the chart page is `ApplyRuleSet`, called with the stored rule set. The flashcards' delayed advance is the separate method `Advance`.
- The drill's explanation and hint texts are modelled word for word (`Explanation`, `Classification`, `Guidance`, `HintText`). No lemma states anything about their wording beyond `ExplanationEmpty` and `HintSourceNamesTable`.
- The drill's `randomCard` fallback (no player cards after the difficulty branch) cannot be reached from the modelled difficulties and is not modelled.
- A value `parseInt` cannot read (NaN) becomes the distinct card `NaNCard`. JavaScript arithmetic on NaN is not modelled.
- Ease factors are exact reals. Floating-point rounding of `ef` and of the analytics ratios is not modelled. `Math.round` is floor(x + 0.5).
- Object key order (`Object.keys`, `Object.entries`) is the order of first insertion, or an explicit key sequence given by the caller. JavaScript lists integer-like keys first in ascending order; that reordering is not modelled.
- Analytics.StrLess: `localeCompare` is modelled as ordinal code-unit order. The action names compared are upper-case ASCII words, on which the two agree.
- Analytics.WeakRow: a scenario with no attempts gets accuracy 0, where `computeWeakest` divides 0 by 0 (NaN). Every recorded entry has one attempt, so such a scenario does not arise from the trainers' histories.
- Analytics.OverdueSrs: the unused `entries` argument of `computeOverdueSrs` is dropped. Keys whose stored value is not an SRS entry are not modelled; the map holds SRS entries only.
- Analytics.Times: `ms != null` is modelled as an optional field, so a stored `null` and a missing value are the same.
- Text.LowerAscii: `toLowerCase` is modelled on ASCII only. Unicode case mapping (for example U+212A, the Kelvin sign, which lowers to 'k') is not modelled, so such a name yields a different slug in the model.
- The chart page's `decisionForPairs`, `decisionForSoft` and its column arrays are fixed-key lookups into the same tables `ChartKey` and `StoredTables` describe. `RuleNotes` is stated only as the texts the page shows.
- The settings page's `changeDecks`, `set` and `changeDifficulty` assign one field each. `ApplyPreset` and `CreateCustomPreset` do not model the debounced save they queue.
- The `src/` copies of `strategy.data.ts`, `strategy-engine.service.ts`, `analytics-metrics.service.ts` and the flashcards component are not part of this model. The `blackjack-trainer/` copies are modelled. The `src/` chart page and drill import the `src/` copies of the strategy tables and engine; the model runs them against the `blackjack-trainer/` tables and engine instead.
- LegacyStorage.LegacyStorageService.UpdateSrsOnAnswer: returns the new entry as a value, where the service returns the cached entry object itself; its only caller writes the value back under the same key of the same cache, so no observable state differs.
- The analytics page component (CSV/JSON export, `computed` wrappers), the older settings component, dialogs, ad, SEO and image services, the service worker and the application bootstrap files are outside the modelled core.

## Findings

| source | as written | input that shows it | evidently intended | confidence | as-written member | corrected member |
|---|---|---|---|---|---|---|
| blackjack-trainer/src/app/core/services/strategy-engine.service.ts:24 | the reduction loop tests `aces > 0` but never decrements `aces`, so one ace takes 10 off the total as often as the total exceeds 21 | A, 10, 10, 10: raw 41 is reduced to 31 and then to 21, and the hand is called soft 21 | each ace is discounted at most once, so this hand is a hard 31 (bust) | not executed | StrategyEngine.Reduce, StrategyEngine.AceDiscountedTwice | StrategyEngine.ReducePerAce, StrategyEngine.ReduceAgreesWhenOneStep |
| blackjack-trainer/src/app/features/flashcards/flashcards.component.ts:227-230 | the component's `mastery` is the storage service's cached map, so `incrementMastery` and the local `+ 1` both raise the same count | a correct answer to a fresh card leaves its count at 2, so two correct answers reach the mastery target of 3 | one correct answer adds 1, and three are needed to master a card | not executed | Flashcards.FlashcardsComponent.Answer, Flashcards.MasteredAfterTwoAnswers | Flashcards.FlashcardsComponent.AnswerOnce |
| src/app/features/drill/drill.component.ts:179 | `next` never clears `dealerCards`, and `genHand` only sets the dealer card when the list is empty, so the first hand's dealer card stays for every later hand dealt on that path | after a hand against a dealer 5, a draw that picks an ace still deals against the 5 | every hand gets the newly drawn dealer card | not executed | Drill.DealerKept, Drill.DealerKeptExample | Drill.DrillComponent.NextFresh, Drill.FreshDealerDrawn |
| src/app/features/drill/drill.component.ts:54 | the drill's tier, declared as 'EASY', 'MEDIUM' or 'HARD' (line 37), is set from `loadDifficulty()`, which only returns HARD_TOTALS, SOFT_TOTALS, PAIRS or ALL, so the EASY and HARD branches of the hand generator (lines 142 and 151) cannot be reached | a stored level HARD_TOTALS deals from the MEDIUM distribution, as every other level does | the drill reads a tier of its declared type, so each tier selects its own distribution; which stored level was meant to give which tier is not stated in the code | not executed; the mismatch is certain, the intended mapping is not | Drill.StoredDifficultyDealsMedium | Drill.DeclaredTiersDealApart |
