/** DrillComponent (src/app/features/drill/drill.component.ts): one hand at
    a time, answered once and then advanced by `next`, with streaks, a
    one-time hint, a scenario key recorded per answer, and hand generation
    that sometimes re-deals a scenario the player keeps missing. The
    outcomes of Math.random are inputs (`Draws`), the clocks are
    parameters; suits, timers, window events and keyboard handling are
    left out. */
module Drill {

  import opened Options
  import opened Models
  import opened Text
  import opened Srs
  import opened StrategyData
  import opened StrategyDataService
  import opened StrategyEngine
  import opened Storage
  import opened Flashcards

  /** The component's rules until a saved rule set is loaded. */
  const DefaultRules: RuleSet := RuleSet("default", "6D S17", 6, false, true, false)

  /** loadRules: the four base actions, SURRENDER only under late surrender. */
  function ActionsFor(rules: RuleSet): (r: seq<Decision>)
    ensures |r| == if rules.lateSurrender then 5 else 4
    ensures HIT in r && STAND in r && DOUBLE in r && SPLIT in r
    ensures SURRENDER in r <==> rules.lateSurrender
  {
    [HIT, STAND, DOUBLE, SPLIT] + (if rules.lateSurrender then [SURRENDER] else [])
  }

  // ---------------------------------------------------------------------
  // Cards spelled by numbers (the drill's card() and makeCardFromValue
  // compute what the flashcards' CardOf and CardFromValue compute)

  /** A number's decimal rendering names no ace and no face, and reads
      back as the number: card(String(n)) is worth n. */
  lemma NumeralCard(n: int)
    ensures CardOf(IntToString(n)) == Card(IntToString(n), n)
    ensures IntToString(n) != "A"
  {
    ParseIntOfIntToString(n);
    var s := IntToString(n);
    if n < 0 {
      assert s[0] == '-';
    } else {
      assert IsDigit(NatToString(n)[0]);
    }
  }

  /** Two numbers render alike only when they are equal. */
  lemma NumeralInjective(a: int, b: int)
    ensures IntToString(a) == IntToString(b) <==> a == b
  {
    ParseIntOfIntToString(a);
    ParseIntOfIntToString(b);
  }

  // ---------------------------------------------------------------------
  // dealerLabel and scenarioKey

  /** dealerLabel: 'A' for an ace's 11, the number otherwise. */
  function DealerLabel(v: int): string {
    if v == 11 then "A" else IntToString(v)
  }

  /** The dealer label reads back: "A" exactly for 11, otherwise the
      numeral of the value, which parses back to it and has no minus sign
      for a non-negative value. */
  lemma DealerLabelFacts(v: int)
    ensures DealerLabel(v) == "A" <==> v == 11
    ensures v != 11 ==> ParseInt(DealerLabel(v)) == Some(v)
    ensures v >= 0 ==> '-' !in DealerLabel(v)
  {
    NumeralCard(v);
    ParseIntOfIntToString(v);
    NoMinusInNumeral(v);
  }

  /** The pair rank a hand is keyed by, when it is keyed as a pair. */
  predicate KeyedAsPair(hand: EvaluatedHand) {
    hand.isPair && Truthy(hand.pairRank)
  }

  /** scenarioKey: "P-<rank>-D<dealer>" for a pair, "S-<total>-D<dealer>"
      for a soft hand and "H-<total>-D<dealer>" otherwise; "" without a
      hand. */
  function ScenarioKey(current: Option<EvaluatedHand>, dealerValue: int): string {
    match current
    case None => ""
    case Some(hand) =>
      if KeyedAsPair(hand) then "P-" + hand.pairRank.value + "-D" + DealerLabel(dealerValue)
      else (if hand.isSoft then "S" else "H") + "-" + IntToString(hand.total) + "-D" + DealerLabel(dealerValue)
  }

  // ---------------------------------------------------------------------
  // Weak-scenario aggregation (genHand)

  /** The attempts and successes summed for one scenario key. */
  datatype Tally = Tally(a: int, c: int)

  /** history.slice(-300): the last 300 entries, or all of them. */
  function Recent(history: seq<SessionStatEntry>): (r: seq<SessionStatEntry>)
    ensures |r| == IMin(|history|, 300)
    ensures r == history[|history| - |r|..]
  {
    if |history| > 300 then history[|history| - 300..] else history
  }

  /** The entries the aggregation looks at: drill answers with a
      non-empty scenario key. */
  predicate Counted(e: SessionStatEntry) {
    e.mode == Drill && Truthy(e.scenario)
  }

  function CountedOf(entries: seq<SessionStatEntry>): (r: seq<SessionStatEntry>)
    ensures forall i :: 0 <= i < |r| ==> Counted(r[i])
    ensures forall e :: e in r <==> e in entries && Counted(e)
  {
    if entries == [] then []
    else
      var prefix := CountedOf(entries[..|entries| - 1]);
      var e := entries[|entries| - 1];
      assert entries == entries[..|entries| - 1] + [e];
      if Counted(e) then prefix + [e] else prefix
  }

  /** The per-key tallies after reading `entries` in order. */
  function AggOf(entries: seq<SessionStatEntry>): map<string, Tally>
    requires forall i :: 0 <= i < |entries| ==> entries[i].scenario.Some?
  {
    if entries == [] then map[]
    else
      var m := AggOf(entries[..|entries| - 1]);
      var e := entries[|entries| - 1];
      var t := if e.scenario.value in m then m[e.scenario.value] else Tally(0, 0);
      m[e.scenario.value := Tally(t.a + e.attempts, t.c + e.correct)]
  }

  /** The keys in the order they first occur (the order Object.entries
      lists keys that are not array indices). */
  function KeysOf(entries: seq<SessionStatEntry>): seq<string>
    requires forall i :: 0 <= i < |entries| ==> entries[i].scenario.Some?
  {
    if entries == [] then []
    else
      var ks := KeysOf(entries[..|entries| - 1]);
      var k := entries[|entries| - 1].scenario.value;
      if k in ks then ks else ks + [k]
  }

  /** Attempts and successes of one key, summed over the entries. */
  function TotalsFor(entries: seq<SessionStatEntry>, key: string): Tally {
    if entries == [] then Tally(0, 0)
    else
      var t := TotalsFor(entries[..|entries| - 1], key);
      var e := entries[|entries| - 1];
      if e.scenario == Some(key) then Tally(t.a + e.attempts, t.c + e.correct) else t
  }

  /** The tally map holds exactly the keys that occur, each with the sums
      of its own entries; the key list names each of them once. */
  lemma AggOfTotals(entries: seq<SessionStatEntry>)
    requires forall i :: 0 <= i < |entries| ==> entries[i].scenario.Some?
    ensures forall k :: k in AggOf(entries) <==> exists i :: 0 <= i < |entries| && entries[i].scenario == Some(k)
    ensures forall k :: k in AggOf(entries) ==> AggOf(entries)[k] == TotalsFor(entries, k)
    ensures forall k :: k in KeysOf(entries) <==> k in AggOf(entries)
    ensures forall i, j :: 0 <= i < j < |KeysOf(entries)| ==> KeysOf(entries)[i] != KeysOf(entries)[j]
  {
    AggKeysOccur(entries);
    AggTotals(entries);
    KeysOfAgg(entries);
  }

  /** A key is tallied exactly when some entry carries it. */
  lemma {:induction false} AggKeysOccur(entries: seq<SessionStatEntry>)
    requires forall i :: 0 <= i < |entries| ==> entries[i].scenario.Some?
    ensures forall k :: k in AggOf(entries) <==> exists i :: 0 <= i < |entries| && entries[i].scenario == Some(k)
  {
    if entries != [] {
      var prefix := entries[..|entries| - 1];
      AggKeysOccur(prefix);
      var n := |entries| - 1;
      forall k
        ensures k in AggOf(entries) <==> exists i :: 0 <= i < |entries| && entries[i].scenario == Some(k)
      {
        if k in AggOf(prefix) {
          var i :| 0 <= i < |prefix| && prefix[i].scenario == Some(k);
          assert entries[i] == prefix[i];
        }
        if exists i :: 0 <= i < |entries| && entries[i].scenario == Some(k) {
          var i :| 0 <= i < |entries| && entries[i].scenario == Some(k);
          if i < n {
            assert prefix[i] == entries[i];
          }
        }
      }
    }
  }

  /** Each tally holds the sums of its key's entries. */
  lemma {:induction false} AggTotals(entries: seq<SessionStatEntry>)
    requires forall i :: 0 <= i < |entries| ==> entries[i].scenario.Some?
    ensures forall k :: k in AggOf(entries) ==> AggOf(entries)[k] == TotalsFor(entries, k)
  {
    if entries != [] {
      var prefix := entries[..|entries| - 1];
      AggTotals(prefix);
      AggKeysOccur(prefix);
      forall k | k in AggOf(entries)
        ensures AggOf(entries)[k] == TotalsFor(entries, k)
      {
        if k !in AggOf(prefix) {
          NoTotalsForAbsentKey(prefix, k);
        }
      }
    }
  }

  /** The key list names each tallied key, and each only once. */
  lemma {:induction false} KeysOfAgg(entries: seq<SessionStatEntry>)
    requires forall i :: 0 <= i < |entries| ==> entries[i].scenario.Some?
    ensures forall k :: k in KeysOf(entries) <==> k in AggOf(entries)
    ensures forall i, j :: 0 <= i < j < |KeysOf(entries)| ==> KeysOf(entries)[i] != KeysOf(entries)[j]
  {
    if entries != [] {
      KeysOfAgg(entries[..|entries| - 1]);
    }
  }

  /** An entry's accuracy as the source computes it (0 without attempts). */
  function Accuracy(t: Tally): real {
    if t.a != 0 then t.c as real / t.a as real else 0.0
  }

  /** A weak scenario: at least two attempts and accuracy below 0.75. */
  predicate IsWeak(t: Tally) {
    t.a >= 2 && Accuracy(t) < 0.75
  }

  /** The weak keys, in key order. */
  function WeakOf(keys: seq<string>, agg: map<string, Tally>): (r: seq<string>)
    requires forall k :: k in keys ==> k in agg
    ensures forall k :: k in r ==> k in keys && IsWeak(agg[k])
    ensures forall k :: k in keys && IsWeak(agg[k]) ==> k in r
  {
    if keys == [] then []
    else
      var prefix := WeakOf(keys[..|keys| - 1], agg);
      var k := keys[|keys| - 1];
      assert keys == keys[..|keys| - 1] + [k];
      if IsWeak(agg[k]) then prefix + [k] else prefix
  }

  /** Weakness in whole numbers: at least two attempts and fewer than
      three successes in every four attempts. */
  lemma WeakInIntegers(t: Tally)
    ensures IsWeak(t) <==> t.a >= 2 && 4 * t.c < 3 * t.a
  {
    if t.a >= 2 {
      QuotientBelow(t.c as real, t.a as real, 0.75);
    }
  }

  /** For a positive divisor, a quotient is below a bound exactly when the
      dividend is below the bound times the divisor. */
  lemma QuotientBelow(c: real, a: real, k: real)
    requires a > 0.0
    ensures c / a < k <==> c < k * a
  {
    var q := c / a;
    assert q * a == c;
    if q < k {
      assert (k - q) * a > 0.0;
    } else {
      assert (q - k) * a >= 0.0;
    }
  }

  /** The weak scenarios of a history: aggregated over the recent drill
      answers that carry a key. */
  function WeakScenarios(history: seq<SessionStatEntry>): seq<string> {
    var counted := CountedOf(Recent(history));
    AggOfTotals(counted);
    WeakOf(KeysOf(counted), AggOf(counted))
  }

  /** A key is weak in a history exactly when its recent drill answers
      number at least two attempts with fewer than three successes in
      four. */
  lemma WeakScenariosIff(history: seq<SessionStatEntry>, key: string)
    ensures var t := TotalsFor(CountedOf(Recent(history)), key);
      key in WeakScenarios(history) <==> t.a >= 2 && 4 * t.c < 3 * t.a
  {
    var counted := CountedOf(Recent(history));
    AggOfTotals(counted);
    var t := TotalsFor(counted, key);
    WeakInIntegers(t);
    if key !in AggOf(counted) {
      NoTotalsForAbsentKey(counted, key);
    }
  }

  lemma {:induction false} NoTotalsForAbsentKey(entries: seq<SessionStatEntry>, key: string)
    requires forall i :: 0 <= i < |entries| ==> entries[i].scenario != Some(key)
    ensures TotalsFor(entries, key) == Tally(0, 0)
  {
    if entries != [] {
      NoTotalsForAbsentKey(entries[..|entries| - 1], key);
    }
  }

  // ---------------------------------------------------------------------
  // Reconstructing a hand from a scenario key (genHand)

  const PairRankNames: seq<string> := ["2", "3", "4", "5", "6", "7", "8", "9", "10", "J", "Q", "K", "A"]

  /** Keys written before pair keys carried the rank used the pair's total. */
  const LegacyPairTotals: map<string, string> := map["12" := "A", "14" := "7", "16" := "8", "18" := "9", "20" := "10"]

  /** A rank passes through; a legacy total is mapped to its rank; any
      other token is kept as it is. */
  function DecodePairRank(token: string): string {
    if token in PairRankNames then token
    else if token in LegacyPairTotals then LegacyPairTotals[token]
    else token
  }

  /** The rank-spelled pair keys decode to themselves; of the total-spelled
      legacy keys, those of A,A, 7,7, 8,8, 9,9 and ten-valued pairs decode
      to a pair of the same total, while those of 2,2 to 6,6 are read as a
      different pair. */
  lemma DecodePairRanks(r: string)
    ensures r in PairRankNames ==> DecodePairRank(r) == r
    ensures DecodePairRank("12") == "A" && DecodePairRank("14") == "7" && DecodePairRank("16") == "8"
    ensures DecodePairRank("18") == "9" && DecodePairRank("20") == "10"
    ensures DecodePairRank("4") == "4" && DecodePairRank("6") == "6" && DecodePairRank("8") == "8"
    ensures DecodePairRank("10") == "10"
  {
    DecodeLegacyLow();
    DecodeLegacyHigh();
    DecodeEvenRanks();
  }

  lemma DecodeLegacyLow()
    ensures DecodePairRank("12") == "A" && DecodePairRank("14") == "7" && DecodePairRank("16") == "8"
  {
    assert "12" !in PairRankNames && "14" !in PairRankNames && "16" !in PairRankNames;
  }

  lemma DecodeLegacyHigh()
    ensures DecodePairRank("18") == "9" && DecodePairRank("20") == "10"
  {
    assert "18" !in PairRankNames && "20" !in PairRankNames;
  }

  lemma DecodeEvenRanks()
    ensures DecodePairRank("4") == "4" && DecodePairRank("6") == "6" && DecodePairRank("8") == "8"
    ensures DecodePairRank("10") == "10"
  {
    assert "4" == PairRankNames[2] && "6" == PairRankNames[4] && "8" == PairRankNames[6] && "10" == PairRankNames[8];
  }

  /** The card standing for a value parseInt could not read (NaN); its
      value is modelled as 0. */
  function NaNCard(): Card {
    CardOf("NaN")
  }

  /** A key's segment; a missing one is read as the empty string. */
  function Segment(parts: seq<string>, i: nat): string {
    if i < |parts| then parts[i] else ""
  }

  /** The hard decomposition of a total: 10 and the rest from 12 up,
      otherwise max(2, total - 2) and what remains, capped at 10. */
  function HardFromTotal(total: int): seq<Card> {
    if total >= 12 then [CardOf("10"), CardOf(IntToString(total - 10))]
    else [CardOf(IntToString(IMax(2, total - 2))), CardOf(IntToString(IMin(10, total - IMax(2, total - 2))))]
  }

  /** The player's two cards for a "P", "S" or other (hard) key segment. */
  function PlayerFromKey(kind: string, totalOrRank: string): seq<Card> {
    if kind == "P" then
      var r := DecodePairRank(totalOrRank);
      [CardOf(r), CardOf(r)]
    else if kind == "S" then
      match ParseInt(totalOrRank)
      case None => [CardOf("A"), NaNCard()]
      case Some(total) => [CardOf("A"), CardOf(IntToString(total - 11))]
    else
      match ParseInt(totalOrRank)
      case None => [NaNCard(), NaNCard()]
      case Some(total) => HardFromTotal(total)
  }

  /** The dealer card for a "D<label>" segment: an ace for "DA", the
      numbered card otherwise (a ten-valued one chosen by `face`). */
  function DealerFromKey(dealerCode: string, face: nat): Card {
    var dealerVal := if |dealerCode| >= 1 then dealerCode[1..] else "";
    if dealerVal == "A" then CardFromValue(11, face)
    else match ParseInt(dealerVal)
      case None => NaNCard()
      case Some(v) => CardFromValue(v, face)
  }

  /** The approximate hand genHand deals for a weak scenario key. */
  function Reconstruct(sel: string, face: nat): (r: (seq<Card>, Card))
    ensures |r.0| == 2
  {
    var parts := Split(sel, '-');
    (PlayerFromKey(parts[0], Segment(parts, 1)), DealerFromKey(Segment(parts, 2), face))
  }

  /** A key splits into its kind, its rank or total and its dealer part. */
  lemma KeyParts(kind: string, mid: string, tail: string)
    requires '-' !in kind && '-' !in mid && '-' !in tail
    ensures Split(kind + "-" + mid + "-D" + tail, '-') == [kind, mid, "D" + tail]
  {
    var last := "D" + tail;
    var rest := mid + ['-'] + last;
    assert kind + "-" + mid + "-D" + tail == kind + ['-'] + rest;
    SplitJoin(kind, '-', rest);
    SplitJoin(mid, '-', last);
    assert '-' !in last;
  }

  /** The dealer part of a key comes back as a card of the same value. */
  lemma DealerRoundTrip(dv: int, face: nat)
    requires 2 <= dv <= 11
    ensures DealerFromKey("D" + DealerLabel(dv), face).value == dv
  {
    DealerLabelFacts(dv);
    CardFromValueHasValue(dv, face);
    assert ("D" + DealerLabel(dv))[1..] == DealerLabel(dv);
  }

  /** Evaluating two cards: the sum, reduced while an ace is held; soft
      when an ace is held and the cards are no pair of another rank. */
  lemma EvaluateTwo(c0: Card, c1: Card, dealer: Card)
    ensures var aces := (if c0.rank == "A" then 1 else 0) + (if c1.rank == "A" then 1 else 0);
      var total := Reduce(c0.value + c1.value, aces);
      Evaluate([c0, c1], dealer) == EvaluatedHand(total,
        aces > 0 && total <= 21 && !(c0.rank == c1.rank && c0.rank != "A"),
        c0.rank == c1.rank,
        if c0.rank == c1.rank then Some(c0.rank) else None,
        dealer.value)
  {
    TwoCardCounts(c0, c1);
  }

  /** The key's pieces, and the hand and dealer card they are re-dealt as. */
  lemma ReconstructParts(kind: string, mid: string, dv: int, face: nat)
    requires '-' !in kind && '-' !in mid && 2 <= dv <= 11
    ensures var r := Reconstruct(kind + "-" + mid + "-D" + DealerLabel(dv), face);
      r.0 == PlayerFromKey(kind, mid) && r.1.value == dv
  {
    DealerLabelFacts(dv);
    KeyParts(kind, mid, DealerLabel(dv));
    DealerRoundTrip(dv, face);
  }

  /** A pair key of a named rank comes back as a pair of that rank. */
  lemma PairKeyRoundTrip(hand: EvaluatedHand, dv: int, face: nat)
    requires 2 <= dv <= 11
    requires KeyedAsPair(hand) && hand.pairRank.value in PairRankNames
    ensures var key := ScenarioKey(Some(hand), dv);
      var r := Reconstruct(key, face);
      r.1.value == dv && ScenarioKey(Some(Evaluate(r.0, r.1)), r.1.value) == key
  {
    var rank := hand.pairRank.value;
    var key := ScenarioKey(Some(hand), dv);
    assert '-' !in rank;
    assert key == "P" + "-" + rank + "-D" + DealerLabel(dv);
    ReconstructParts("P", rank, dv, face);
    DecodePairRanks(rank);
    var r := Reconstruct(key, face);
    assert r.0 == [CardOf(rank), CardOf(rank)];
    EvaluateTwo(CardOf(rank), CardOf(rank), r.1);
    assert KeyedAsPair(Evaluate(r.0, r.1));
  }

  /** A soft key of a total up to 21 comes back as an ace and a card
      making up that soft total. */
  lemma SoftKeyRoundTrip(hand: EvaluatedHand, dv: int, face: nat)
    requires 2 <= dv <= 11
    requires !KeyedAsPair(hand) && hand.isSoft && 0 <= hand.total <= 21
    ensures var key := ScenarioKey(Some(hand), dv);
      var r := Reconstruct(key, face);
      r.1.value == dv && ScenarioKey(Some(Evaluate(r.0, r.1)), r.1.value) == key
  {
    var t := hand.total;
    var key := ScenarioKey(Some(hand), dv);
    NoMinusInNumeral(t);
    assert key == "S" + "-" + IntToString(t) + "-D" + DealerLabel(dv);
    ReconstructParts("S", IntToString(t), dv, face);
    SoftPlayerFromKey(t);
    SoftPlayerEvaluates(t, Reconstruct(key, face).1);
  }

  /** The player part of a soft key of total t is an ace and the numeral
      t - 11. */
  lemma SoftPlayerFromKey(t: int)
    ensures PlayerFromKey("S", IntToString(t)) == [CardOf("A"), CardOf(IntToString(t - 11))]
  {
    ParseIntOfIntToString(t);
  }

  /** An ace and the numeral t - 11 evaluate to a soft t that is no pair,
      for t up to 21. */
  lemma SoftPlayerEvaluates(t: int, dealer: Card)
    requires t <= 21
    ensures var h := Evaluate([CardOf("A"), CardOf(IntToString(t - 11))], dealer);
      h.total == t && h.isSoft && !h.isPair
  {
    NumeralCard(t - 11);
    var c0, c1 := CardOf("A"), CardOf(IntToString(t - 11));
    EvaluateTwo(c0, c1, dealer);
  }

  /** The two cards a hard key of total t is re-dealt as: 10 and t - 10
      from 12 up, t - 2 and 2 from 4 to 11. */
  lemma HardKeyCards(t: int)
    ensures var p := HardFromTotal(t);
      && |p| == 2
      && p[0].rank != "A" && p[1].rank != "A"
      && p[0].value + p[1].value == t
      && (p[0].rank == p[1].rank <==> t == 4 || t == 20)
  {
    if t >= 12 {
      HighHardKeyCards(t);
    } else {
      LowHardKeyCards(t);
    }
  }

  lemma HighHardKeyCards(t: int)
    requires t >= 12
    ensures var p := HardFromTotal(t);
      && |p| == 2
      && p[0].rank != "A" && p[1].rank != "A"
      && p[0].value + p[1].value == t
      && (p[0].rank == p[1].rank <==> t == 20)
  {
    TenRankValue();
    TenNumeral();
    NumeralCard(t - 10);
    NumeralInjective(10, t - 10);
  }

  lemma TenNumeral()
    ensures IntToString(10) == "10"
  {
    assert IntToString(10) == NatToString(1) + [DigitChar(0)];
  }

  lemma LowHardKeyCards(t: int)
    requires t < 12
    ensures var p := HardFromTotal(t);
      && |p| == 2
      && p[0].rank != "A" && p[1].rank != "A"
      && p[0].value + p[1].value == t
      && (p[0].rank == p[1].rank <==> t == 4)
  {
    var first := IMax(2, t - 2);
    var second := IMin(10, t - first);
    NumeralCard(first);
    NumeralCard(second);
    NumeralInjective(first, second);
  }

  /** A hard key comes back as a hard hand of the same total, except that
      4 and 20 come back as the pairs 2,2 and 10,10. */
  lemma HardKeyRoundTrip(hand: EvaluatedHand, dv: int, face: nat)
    requires 2 <= dv <= 11
    requires !KeyedAsPair(hand) && !hand.isSoft && 0 <= hand.total
    ensures var key := ScenarioKey(Some(hand), dv);
      var r := Reconstruct(key, face);
      && r.1.value == dv
      && Evaluate(r.0, r.1).total == hand.total
      && (ScenarioKey(Some(Evaluate(r.0, r.1)), r.1.value) == key <==> hand.total != 4 && hand.total != 20)
  {
    var t := hand.total;
    var key := ScenarioKey(Some(hand), dv);
    NoMinusInNumeral(t);
    assert key == "H" + "-" + IntToString(t) + "-D" + DealerLabel(dv);
    ReconstructParts("H", IntToString(t), dv, face);
    HardKeyCards(t);
    ParseIntOfIntToString(t);
    var p := HardFromTotal(t);
    assert PlayerFromKey("H", IntToString(t)) == p;
    var r := Reconstruct(key, face);
    assert r.0 == [p[0], p[1]];
    EvaluateTwo(p[0], p[1], r.1);
    var h := Evaluate(r.0, r.1);
    assert h.total == t && !h.isSoft;
    if t == 4 || t == 20 {
      assert KeyedAsPair(h);
      assert ScenarioKey(Some(h), dv)[0] == 'P' != key[0];
    } else {
      assert !h.isPair;
    }
  }

  // ---------------------------------------------------------------------
  // buildHardTotal and buildSoftTotal

  /** buildHardTotal's two values for a total and the offset drawn by
      randInt(2, 10): the total is clamped to 4..20, the first value is
      total - offset within 2..10; when the rest is no card value the
      total is halved instead, and equal halves are pulled apart by one. */
  function HardValues(total: int, offset: int): (r: (int, int))
    ensures var t := IMin(20, IMax(4, total));
      && r.0 + r.1 == t
      && 2 <= r.0 <= 10 && 2 <= r.1 <= 11
      && (r.0 == r.1 <==> t == 4)
  {
    var t := if total < 4 then 4 else if total > 20 then 20 else total;
    var first := IMin(10, IMax(2, t - offset));
    var second := t - first;
    var split := if second < 2 || second > 11 then IMin(10, t / 2) else first;
    if split == t - split then
      var lower := if split > 2 then split - 1 else split;
      (lower, t - lower)
    else (split, t - split)
  }

  /** buildHardTotal: the two values as numbered cards. */
  function BuildHardTotal(total: int, offset: int): seq<Card> {
    var v := HardValues(total, offset);
    [CardOf(IntToString(v.0)), CardOf(IntToString(v.1))]
  }

  /** buildSoftTotal: an ace and clamp(total - 11, 2, 10). */
  function BuildSoftTotal(total: int): seq<Card> {
    [CardOf("A"), CardOf(IntToString(IMax(2, IMin(10, total - 11))))]
  }

  /** A built hard hand is a hard hand of the clamped total, and a pair
      only at 4. */
  lemma BuildHardTotalEvaluates(total: int, offset: int, dealer: Card)
    ensures var h := Evaluate(BuildHardTotal(total, offset), dealer);
      && h.total == IMin(20, IMax(4, total))
      && !h.isSoft
      && (h.isPair <==> h.total == 4)
  {
    var v := HardValues(total, offset);
    NumeralCard(v.0);
    NumeralCard(v.1);
    NumeralInjective(v.0, v.1);
    EvaluateTwo(CardOf(IntToString(v.0)), CardOf(IntToString(v.1)), dealer);
  }

  /** A built soft hand is soft, no pair, and totals 11 plus the clamped
      second card: the requested total itself for 13..21. */
  lemma BuildSoftTotalEvaluates(total: int, dealer: Card)
    ensures var h := Evaluate(BuildSoftTotal(total), dealer);
      && h.isSoft && !h.isPair
      && h.total == 11 + IMax(2, IMin(10, total - 11))
      && (13 <= total <= 21 ==> h.total == total)
  {
    var second := IMax(2, IMin(10, total - 11));
    NumeralCard(second);
    EvaluateTwo(CardOf("A"), CardOf(IntToString(second)), dealer);
  }

  // ---------------------------------------------------------------------
  // Dealing a hand (genHand)

  /** The outcomes of the Math.random calls of one genHand: the two rolls
      in [0, 1) as reals, each other draw as a number taken modulo the
      size of its range, and one pick of rank for ten-valued cards. */
  datatype Draws = Draws(
    weakRoll: real,
    weakIndex: nat,
    mode: real,
    total: nat,
    offset: nat,
    choice: nat,
    dealerChoice: nat,
    dealerPick: nat,
    face: nat)

  /** randInt(lo, hi) for the draw k. */
  function RandInt(lo: int, hi: int, k: nat): (r: int)
    requires lo <= hi
    ensures lo <= r <= hi
  {
    lo + k % (hi - lo + 1)
  }

  /** randChoice(arr) for the draw k. */
  function Choice<T>(arr: seq<T>, k: nat): (r: T)
    requires |arr| > 0
    ensures r in arr
  {
    arr[k % |arr|]
  }

  /** randomDealerCard's pool: ten-valued cards four times as likely. */
  const DealerPool: seq<int> := [2, 3, 4, 5, 6, 7, 8, 9, 10, 10, 10, 10, 11]

  /** The dealer card randomDealerCard draws. */
  function DrawnDealer(d: Draws): Card {
    CardFromValue(Choice(DealerPool, d.dealerChoice), d.face)
  }

  /** Whether genHand re-deals a weak scenario: some scenario is weak and
      the roll is below 0.35. */
  predicate Forced(weak: seq<string>, d: Draws) {
    |weak| > 0 && d.weakRoll < 0.35
  }

  /** A pair of the rank chosen from `ranks`. */
  function PairOf(ranks: seq<string>, k: nat): seq<Card>
    requires |ranks| > 0
  {
    var r := Choice(ranks, k);
    [CardOf(r), CardOf(r)]
  }

  /** The difficulty-driven hand for the tier string, and the dealer cards
      after the HARD tier's surrender branch, which replaces a dealer card
      outside 9..11 with one inside. */
  function Generate(difficulty: string, dealer: Card, dealerCards: seq<Card>, d: Draws): (r: (seq<Card>, seq<Card>))
    ensures |r.0| == 2
  {
    var offset := RandInt(2, 10, d.offset);
    if difficulty == "EASY" then
      if d.mode < 0.4 then (BuildHardTotal(RandInt(8, 13, d.total), offset), dealerCards)
      else if d.mode < 0.7 then (BuildSoftTotal(RandInt(13, 18, d.total)), dealerCards)
      else (PairOf(["2", "7", "8", "A"], d.choice), dealerCards)
    else if difficulty == "HARD" then
      if d.mode < 0.45 then (BuildHardTotal(RandInt(12, 16, d.total), offset), dealerCards)
      else if d.mode < 0.7 then (BuildSoftTotal(RandInt(17, 20, d.total)), dealerCards)
      else if d.mode < 0.85 then
        (BuildHardTotal(Choice([15, 16], d.choice), offset),
         if dealer.value in [9, 10, 11] then dealerCards
         else [CardFromValue(Choice([9, 10, 11], d.dealerPick), d.face)])
      else (PairOf(["9", "4", "5", "A"], d.choice), dealerCards)
    else
      if d.mode < 0.33 then (BuildHardTotal(RandInt(8, 17, d.total), offset), dealerCards)
      else if d.mode < 0.66 then (BuildSoftTotal(RandInt(13, 20, d.total)), dealerCards)
      else (PairOf(["2", "3", "4", "6", "7", "8", "9", "A"], d.choice), dealerCards)
  }

  /** The player's cards and the dealer cards genHand leaves, given the
      dealer cards it starts from, the weak scenarios and the tier. The
      dealer card drawn on the generated path is used only when no dealer
      card is left from before. */
  function Deal(prevDealer: seq<Card>, weak: seq<string>, difficulty: string, d: Draws): (r: (seq<Card>, seq<Card>))
    ensures |r.0| == 2 && |r.1| >= 1
  {
    if Forced(weak, d) then
      var hand := Reconstruct(Choice(weak, d.weakIndex), d.face);
      (hand.0, [hand.1])
    else
      var dealer := DrawnDealer(d);
      var g := Generate(difficulty, dealer, prevDealer, d);
      (g.0, if g.1 == [] then [dealer] else g.1)
  }

  /** The tier is compared with 'EASY' and 'HARD', but the stored
      difficulty is one of HARD_TOTALS, SOFT_TOTALS, PAIRS and ALL, so a
      drill reading it always deals from the MEDIUM distribution. */
  lemma StoredDifficultyDealsMedium(level: Difficulty, prevDealer: seq<Card>, weak: seq<string>, d: Draws)
    ensures Deal(prevDealer, weak, DifficultyName(level), d) == Deal(prevDealer, weak, "MEDIUM", d)
  {
    var name := DifficultyName(level);
    assert |name| != 4;
    assert name != "EASY" && name != "HARD" && "MEDIUM" != "EASY" && "MEDIUM" != "HARD";
  }

  /** With a tier of the declared type, the tier decides the hand: on the
      same unforced draws in the pair band, EASY deals 7,7, MEDIUM 3,3 and
      HARD 4,4. */
  lemma DeclaredTiersDealApart(prevDealer: seq<Card>, weak: seq<string>, d: Draws)
    requires !Forced(weak, d) && d.mode >= 0.85 && d.choice % 8 == 1
    ensures Deal(prevDealer, weak, "EASY", d).0 == [CardOf("7"), CardOf("7")]
    ensures Deal(prevDealer, weak, "MEDIUM", d).0 == [CardOf("3"), CardOf("3")]
    ensures Deal(prevDealer, weak, "HARD", d).0 == [CardOf("4"), CardOf("4")]
    ensures Deal(prevDealer, weak, "EASY", d).0 != Deal(prevDealer, weak, "MEDIUM", d).0
    ensures Deal(prevDealer, weak, "HARD", d).0 != Deal(prevDealer, weak, "MEDIUM", d).0
  {
    var k := d.choice;
    assert k % 4 == 1 by {
      assert k == 8 * (k / 8) + 1;
      assert k == 4 * (2 * (k / 8)) + 1;
    }
    var dealer := DrawnDealer(d);
    TierPair(["2", "7", "8", "A"], k, "7");
    TierPair(["2", "3", "4", "6", "7", "8", "9", "A"], k, "3");
    TierPair(["9", "4", "5", "A"], k, "4");
    assert Generate("EASY", dealer, prevDealer, d).0 == PairOf(["2", "7", "8", "A"], k);
    assert "MEDIUM" != "EASY" && "MEDIUM" != "HARD" && "HARD" != "EASY";
    assert Generate("MEDIUM", dealer, prevDealer, d).0 == PairOf(["2", "3", "4", "6", "7", "8", "9", "A"], k);
    assert Generate("HARD", dealer, prevDealer, d).0 == PairOf(["9", "4", "5", "A"], k);
    assert CardOf("7").rank != CardOf("3").rank && CardOf("4").rank != CardOf("3").rank;
  }

  /** The pair drawn with index k is the rank at k mod |ranks|. */
  lemma TierPair(ranks: seq<string>, k: nat, r: string)
    requires |ranks| > 0 && ranks[k % |ranks|] == r
    ensures PairOf(ranks, k) == [CardOf(r), CardOf(r)]
  {
  }

  /** A forced hand is the reconstruction of the chosen weak key, with
      its dealer card alone. */
  lemma ForcedDealsWeakScenario(prevDealer: seq<Card>, weak: seq<string>, difficulty: string, d: Draws)
    requires Forced(weak, d)
    ensures var sel := weak[d.weakIndex % |weak|];
      sel in weak && Deal(prevDealer, weak, difficulty, d) == (Reconstruct(sel, d.face).0, [Reconstruct(sel, d.face).1])
  {
  }

  /** As written: off the forced path and outside the HARD tier, a dealer
      card left from the previous hand stays, whatever dealer card is
      drawn. */
  lemma DealerKept(prevDealer: seq<Card>, weak: seq<string>, difficulty: string, d: Draws)
    requires prevDealer != [] && !Forced(weak, d) && difficulty != "HARD"
    ensures Deal(prevDealer, weak, difficulty, d).1 == prevDealer
  {
  }

  /** A second hand after a dealer 5: the drawn ace is not used and the
      dealer shows 5 again. */
  lemma DealerKeptExample()
    ensures var d := Draws(0.5, 0, 0.5, 0, 0, 0, 12, 0, 0);
      DrawnDealer(d).value == 11 && Deal([CardOf("5")], [], "MEDIUM", d).1 == [CardOf("5")]
  {
    var d := Draws(0.5, 0, 0.5, 0, 0, 0, 12, 0, 0);
    assert Choice(DealerPool, 12) == 11;
  }

  /** Corrected: dealing from no dealer card, the generated path outside
      the HARD tier shows the dealer card it drew; in the HARD tier it
      shows that card or a replacement of value 9..11. */
  lemma FreshDealerDrawn(weak: seq<string>, difficulty: string, d: Draws)
    requires !Forced(weak, d)
    ensures var r := Deal([], weak, difficulty, d);
      && (difficulty != "HARD" ==> r.1 == [DrawnDealer(d)])
      && (r.1 == [DrawnDealer(d)] || (|r.1| == 1 && 9 <= r.1[0].value <= 11))
  {
    var r := Deal([], weak, difficulty, d);
    if r.1 != [DrawnDealer(d)] {
      var v := Choice([9, 10, 11], d.dealerPick);
      CardFromValueHasValue(v, d.face);
    }
  }

  // ---------------------------------------------------------------------
  // Explanation and hint texts

  /** buildExplanation: one sentence per decision; a SPLIT on a hand not
      keyed as a pair falls through every case and gives "". */
  function Explanation(hand: EvaluatedHand, decision: Decision): string {
    var d := DealerLabel(hand.dealerUpValue);
    var t := IntToString(hand.total);
    if decision == SURRENDER then
      "Late surrender: Hard " + t + " vs dealer " + d + " has poor expectation; surrender minimizes loss."
    else if decision == SPLIT && KeyedAsPair(hand) then
      var pr := hand.pairRank.value;
      if pr == "8" || pr == "A" then "Always split " + pr + pr + " to improve outcomes."
      else "Splitting " + pr + pr + " vs dealer " + d + " yields better EV per basic strategy."
    else if decision == DOUBLE then
      if hand.isSoft then
        "Soft " + t + " (A+" + IntToString(hand.total - 11) + ") vs dealer " + d + ": double while dealer is in vulnerable range."
      else "Hard " + t + " vs dealer " + d + ": favorable doubling window for maximizing winnings."
    else if decision == STAND then
      if hand.total >= 17 && !hand.isSoft then "Hard " + t + ": standing avoids bust risk."
      else if hand.isSoft then "Soft " + t + ": sufficient total; hitting risks converting soft advantage."
      else "Stand: dealer " + d + " is weak; forcing dealer to draw is higher EV."
    else if decision == HIT then
      if hand.isSoft then "Soft " + t + ": hitting leverages flexible Ace to improve total."
      else "Hard " + t + " vs dealer " + d + ": too low / unsafe to stand; hit to improve."
    else ""
  }

  /** Every answer gets an explanation, except a SPLIT of a hand that is
      not keyed as a pair. */
  lemma ExplanationEmpty(hand: EvaluatedHand, decision: Decision)
    ensures Explanation(hand, decision) == "" <==> decision == SPLIT && !KeyedAsPair(hand)
  {
    var e := Explanation(hand, decision);
    match decision
    case SURRENDER => assert |e| > 20;
    case SPLIT => assert KeyedAsPair(hand) ==> |e| > 12;
    case DOUBLE => assert |e| > 5;
    case STAND => assert |e| > 5;
    case HIT => assert |e| > 5;
  }

  /** The table the hint names: "pairs" when the pairs table has a row
      for the pair rank, else "soft" when the soft table has the row
      "A<total - 11>", else "hard" when the hard table has the total's
      row, and "" when none has or the rules have no tables. */
  function HintSource(hand: EvaluatedHand, rules: RuleSet): string {
    match GetTablesFor(rules)
    case None => ""
    case Some(tables) =>
      if KeyedAsPair(hand) && hand.pairRank.value in tables.pairs then "pairs"
      else if hand.isSoft && "A" + IntToString(hand.total - 11) in tables.soft then "soft"
      else if hand.total in tables.hard then "hard"
      else ""
  }

  /** How the hint names the hand: "88", "Soft 18" or "Hard 16". */
  function Classification(hand: EvaluatedHand): string {
    if KeyedAsPair(hand) then hand.pairRank.value + hand.pairRank.value
    else if hand.isSoft then "Soft " + IntToString(hand.total)
    else "Hard " + IntToString(hand.total)
  }

  /** Heuristic guidance per kind of hand, with the rule-dependent
      additions for DAS, H17 and late surrender. */
  function Guidance(hand: EvaluatedHand, dLabel: string, rules: RuleSet): string {
    var dealerStrong := dLabel == "9" || dLabel == "10" || dLabel == "A";
    if KeyedAsPair(hand) then
      var pr := hand.pairRank.value;
      var base :=
        if pr == "A" || pr == "8" then "Some pairs (like Aces or 8s) are often separated to avoid weak composite totals."
        else if pr == "5" then "Fives act like a strong hard 10; consider value of treating them as a total versus splitting."
        else if pr == "4" then
          "Fours can be sensitive to whether double-after-split is " + (if rules.doubleAfterSplit then "allowed" else "disallowed") + " and the dealer card."
        else if pr == "9" then "Nines are sometimes split against many dealer cards but not always against strong tens or Aces."
        else "Pairs are split more when dealer is weak and kept intact versus strong up-cards.";
      base + (if rules.doubleAfterSplit then " DAS increases the value of splitting some mid pairs." else "")
    else if hand.isSoft then
      var base :=
        if hand.total <= 17 then "Lower soft totals aim to leverage doubling windows against weak dealer cards (especially 4-6)."
        else if hand.total == 18 then "Soft 18 is a border case: response shifts based on a narrow dealer range; aggression increases vs mid weak cards."
        else "High soft totals usually stand unless a special double opportunity exists under specific rules.";
      base + (if rules.hitSoft17 then " H17 rules slightly favor more aggressive doubles on some soft hands." else "")
    else
      var t := hand.total;
      var base :=
        if t <= 8 then "Very low hard totals always continue drawing; risk is minimal."
        else if t == 9 then "Hard 9 often looks for mid dealer weakness (3-6) to consider an aggressive option."
        else if t == 10 || t == 11 then "Hard 10/11 target broad dealer ranges for maximizing value."
        else if t == 12 then "Hard 12 is a razor-edge total: standing only becomes attractive versus certain weak dealer cards."
        else if 13 <= t <= 16 then
          if dealerStrong then "Mid stiff total versus strong dealer often requires minimizing bust chances while considering surrender if available."
          else "Dealer weakness shifts mid stiff totals toward holding position."
        else "High hard totals (17+) lock in; additional hits carry too much bust risk.";
      base + (if rules.lateSurrender && (t == 15 || t == 16) && dealerStrong
              then " With late surrender available, reducing expected loss can sometimes outweigh playing out a stiff hand here."
              else "")
  }

  /** showHint's text. */
  function HintText(hand: EvaluatedHand, dealerValue: int, rules: RuleSet): string {
    var dLabel := DealerLabel(dealerValue);
    "Chart context (" + HintSource(hand, rules) + "): " + Classification(hand) + " vs " + dLabel + ". "
      + Guidance(hand, dLabel, rules)
  }

  /** The hint names the table the chart lookup reads first: "pairs" for
      a pair of a charted rank, else "soft" for a soft 13..20, else
      "hard" for a total of 5..21, else nothing. */
  lemma HintSourceNamesTable(hand: EvaluatedHand, rules: RuleSet)
    ensures var charted := KeyedAsPair(hand) && hand.pairRank.value in PairKeys;
      && (HintSource(hand, rules) == "pairs" <==> charted)
      && (HintSource(hand, rules) == "soft" <==> !charted && hand.isSoft && 13 <= hand.total <= 20)
      && (HintSource(hand, rules) == "hard" <==> !charted && !(hand.isSoft && 13 <= hand.total <= 20) && 5 <= hand.total <= 21)
      && (HintSource(hand, rules) == "" <==> !charted && !(hand.isSoft && 13 <= hand.total <= 20) && !(5 <= hand.total <= 21))
  {
    TablesShape(VariantOf(rules));
    SoftKeyOf(hand.total - 11);
  }

  // ---------------------------------------------------------------------
  // The weak-scenario loop

  /** genHand's aggregation loop: for each counted entry in order, the
      key's tally grows by the entry's attempts and successes; a key is
      listed when first met. */
  method Tallies(counted: seq<SessionStatEntry>) returns (keys: seq<string>, agg: map<string, Tally>)
    requires forall i :: 0 <= i < |counted| ==> counted[i].scenario.Some?
    ensures keys == KeysOf(counted) && agg == AggOf(counted)
  {
    keys := [];
    agg := map[];
    var i := 0;
    while i < |counted|
      invariant 0 <= i <= |counted|
      invariant keys == KeysOf(counted[..i]) && agg == AggOf(counted[..i])
    {
      var h := counted[i];
      var key := h.scenario.value;
      assert counted[..i + 1][..i] == counted[..i];
      KeysOfAgg(counted[..i]);
      ghost var before := agg;
      ghost var t := if key in agg then agg[key] else Tally(0, 0);
      if key !in agg {
        agg := agg[key := Tally(0, 0)];
        keys := keys + [key];
      }
      agg := agg[key := Tally(agg[key].a + h.attempts, agg[key].c)];
      agg := agg[key := Tally(agg[key].a, agg[key].c + h.correct)];
      assert agg == before[key := Tally(t.a + h.attempts, t.c + h.correct)];
      i := i + 1;
    }
    assert counted[..i] == counted;
  }

  /** The weak scenarios of a history, through the aggregation loop. */
  method FindWeak(history: seq<SessionStatEntry>) returns (weak: seq<string>)
    ensures weak == WeakScenarios(history)
  {
    var counted := CountedOf(Recent(history));
    var keys, agg := Tallies(counted);
    AggOfTotals(counted);
    weak := WeakOf(keys, agg);
  }

  /** Deals a hand for the weak scenarios of a history. */
  method DealHand(prevDealer: seq<Card>, history: seq<SessionStatEntry>, difficulty: string, d: Draws)
    returns (player: seq<Card>, dealer: seq<Card>)
    ensures (player, dealer) == Deal(prevDealer, WeakScenarios(history), difficulty, d)
    ensures |dealer| >= 1
  {
    var weak := FindWeak(history);
    var dealt := Deal(prevDealer, weak, difficulty, d);
    player := dealt.0;
    dealer := dealt.1;
  }

  /** The stored streak after an answer grows by one when it is correct
      and resets otherwise. */
  lemma AnswerStreak(current: int, now: int, chosen: Decision, expected: Decision, key: string, ms: real,
                     usedHint: bool, difficulty: string)
    ensures StreakAfter(current, AnswerRecord(now, chosen, expected, key, ms, usedHint, difficulty))
         == if chosen == expected then current + 1 else 0
  {
  }

  // ---------------------------------------------------------------------
  // The component

  /** Answer feedback: whether the choice was right, and the message. */
  datatype Feedback = Feedback(correct: bool, message: string)

  /** The history entry answer records: one attempt, correct when the
      choice is the expected decision. */
  function AnswerRecord(now: int, chosen: Decision, expected: Decision, key: string, ms: real,
                        usedHint: bool, difficulty: string): SessionStatEntry {
    SessionStatEntry(now, Drill, if chosen == expected then 1 else 0, 1, Some(DecisionName(expected)),
      Some(DecisionName(chosen)), Some(key), Some(ms), Some(usedHint), Some(difficulty))
  }

  class DrillComponent {
    var rules: RuleSet
    var actions: seq<Decision>
    var streak: int
    var bestStreak: int
    var explanation: string
    var startTs: real
    var current: Option<EvaluatedHand>
    var expected: Option<Decision>
    var attempts: int
    var correct: int
    /** Declared as 'EASY' | 'MEDIUM' | 'HARD' but assigned the stored
        difficulty's name. */
    var difficulty: string
    var feedback: Option<Feedback>
    var awaitingNext: bool
    var playerCards: seq<Card>
    var dealerCards: seq<Card>
    const storage: StorageService
    var hint: Option<string>
    var hintUsed: bool

    /** Counters are consistent, a shown hand has a dealer card, a hint
        is present exactly when it was used, and the component waits for
        `next` only after feedback. */
    ghost predicate Valid()
      reads this, storage
    {
      && storage.Valid()
      && 0 <= streak <= bestStreak
      && 0 <= correct <= attempts
      && (current.Some? ==> |dealerCards| > 0)
      && (hint.Some? <==> hintUsed)
      && (awaitingNext ==> feedback.Some?)
    }

    /** The shown hand is the evaluation of the dealt cards, and the
        expected decision is the chart's decision for it. */
    ghost predicate Shows()
      reads this
    {
      && |dealerCards| > 0
      && current == Some(Evaluate(playerCards, dealerCards[0]))
      && expected == Some(GetDecision(current.value, rules))
    }

    /** The constructor: default rules and all five actions, counters at
        zero, the difficulty read from storage, then a first hand. */
    constructor (service: StorageService, rawDifficulty: Option<string>, d: Draws, perfNow: real)
      requires service.Valid()
      modifies service
      ensures Valid() && Shows()
      ensures storage == service
      ensures rules == DefaultRules && actions == [HIT, STAND, DOUBLE, SPLIT, SURRENDER]
      ensures streak == 0 && bestStreak == 0 && attempts == 0 && correct == 0
      ensures storage.difficulty.Some? && difficulty == DifficultyName(storage.difficulty.value)
      ensures (playerCards, dealerCards) == Deal([], WeakScenarios(storage.history), difficulty, d)
      ensures feedback.None? && !awaitingNext && hint.None?
    {
      rules := DefaultRules;
      actions := [HIT, STAND, DOUBLE, SPLIT, SURRENDER];
      streak := 0;
      bestStreak := 0;
      explanation := "";
      startTs := 0.0;
      current := None;
      expected := None;
      attempts := 0;
      correct := 0;
      feedback := None;
      awaitingNext := false;
      playerCards := [];
      dealerCards := [];
      storage := service;
      hint := None;
      hintUsed := false;
      var level := service.LoadDifficulty(rawDifficulty);
      difficulty := DifficultyName(level);
      new;
      Next(d, perfNow);
    }

    /** loadRules and refreshExpected: a saved rule set replaces the rules,
        the actions follow the surrender flag, and the expected decision
        of the shown hand is looked up again. */
    method LoadRules(saved: Option<RuleSet>)
      requires Valid()
      modifies this`rules, this`actions, this`expected
      ensures Valid()
      ensures rules == if saved.Some? then saved.value else old(rules)
      ensures actions == ActionsFor(rules)
      ensures current.Some? ==> expected == Some(GetDecision(current.value, rules))
      ensures current.None? ==> expected == old(expected)
      ensures old(Shows()) ==> Shows()
    {
      if saved.Some? {
        rules := saved.value;
      }
      actions := ActionsFor(rules);
      if current.Some? {
        expected := Some(GetDecision(current.value, rules));
      }
    }

    /** answer: ignored without a hand, without an expected decision or
        while waiting for `next`; otherwise counts the attempt, updates
        the streaks, gives feedback and an explanation, records the answer
        with its scenario key and waits for `next`. */
    method Answer(a: Decision, now: int, perfNow: real)
      requires Valid()
      modifies this`attempts, this`correct, this`streak, this`bestStreak, this`feedback, this`explanation, this`awaitingNext, storage
      ensures Valid()
      ensures old(current).None? || old(expected).None? || old(awaitingNext) ==> unchanged(this) && unchanged(storage)
      ensures unchanged(this`playerCards, this`dealerCards, this`current, this`expected, this`startTs)
      ensures unchanged(this`rules, this`actions, this`difficulty, this`hint, this`hintUsed)
      ensures current.Some? && expected.Some? && !old(awaitingNext) ==>
        && attempts == old(attempts) + 1
        && correct == old(correct) + (if a == expected.value then 1 else 0)
        && streak == (if a == expected.value then old(streak) + 1 else 0)
        && bestStreak == IMax(old(bestStreak), streak)
      ensures current.Some? && expected.Some? && !old(awaitingNext) ==>
        && feedback == Some(Feedback(a == expected.value,
             if a == expected.value then "Correct!" else "Expected " + DecisionName(expected.value)))
        && explanation == Explanation(current.value, expected.value)
        && awaitingNext
      ensures old(current).Some? && old(expected).Some? && !old(awaitingNext) ==>
        storage.history == old(storage.history) + [old(Entry(a, now, perfNow))]
      ensures current.Some? && expected.Some? && !old(awaitingNext) ==>
        && storage.currentStreak == (if a == expected.value then old(storage.currentStreak) + 1 else 0)
        && storage.bestStreak == IMax(old(storage.bestStreak), storage.currentStreak)
      ensures storage.mastery == old(storage.mastery) && storage.srs == old(storage.srs)
      ensures storage.customRules == old(storage.customRules) && storage.difficulty == old(storage.difficulty)
    {
      if current.None? || expected.None? || awaitingNext {
        return;
      }
      var dt := perfNow - startTs;
      var ok := a == expected.value;
      var message := if ok then "Correct!" else "Expected " + DecisionName(expected.value);
      var text := Explanation(current.value, expected.value);
      var entry := Entry(a, now, perfNow);
      var before, streakBefore := storage.history, storage.currentStreak;
      AnswerStreak(streakBefore, now, a, expected.value, ScenarioKey(current, dealerCards[0].value), dt, hintUsed, difficulty);
      Score(ok);
      Respond(Feedback(ok, message), text);
      Record(before, streakBefore, entry);
    }

    /** The history entry answer records for the shown hand: one
        attempt, keyed by the hand's scenario, timed from when it was
        shown. */
    function Entry(a: Decision, now: int, perfNow: real): SessionStatEntry
      requires current.Some? && expected.Some? && |dealerCards| > 0
      reads this`current, this`expected, this`dealerCards, this`startTs, this`hintUsed, this`difficulty
    {
      AnswerRecord(now, a, expected.value, ScenarioKey(current, dealerCards[0].value), perfNow - startTs, hintUsed, difficulty)
    }

    /** The counting part of answer: one more attempt, and the streak
        grows on a correct answer and resets on a wrong one. */
    method Score(ok: bool)
      requires Valid()
      modifies this`attempts, this`correct, this`streak, this`bestStreak
      ensures Valid()
      ensures attempts == old(attempts) + 1 && correct == old(correct) + (if ok then 1 else 0)
      ensures streak == (if ok then old(streak) + 1 else 0) && bestStreak == IMax(old(bestStreak), streak)
      ensures unchanged(this`playerCards, this`dealerCards, this`current, this`expected, this`startTs)
      ensures unchanged(this`rules, this`actions, this`difficulty, this`hint, this`hintUsed)
      ensures unchanged(this`feedback, this`explanation, this`awaitingNext)
      ensures unchanged(storage)
    {
      attempts := attempts + 1;
      if ok {
        correct := correct + 1;
        streak := streak + 1;
        if streak > bestStreak {
          bestStreak := streak;
        }
      } else {
        streak := 0;
      }
    }

    /** Shows the feedback and explanation and waits for `next`. */
    method Respond(fb: Feedback, text: string)
      requires Valid()
      modifies this`feedback, this`explanation, this`awaitingNext
      ensures Valid()
      ensures feedback == Some(fb) && explanation == text && awaitingNext
      ensures unchanged(this`playerCards, this`dealerCards, this`current, this`expected, this`startTs)
      ensures unchanged(this`rules, this`actions, this`difficulty, this`hint, this`hintUsed)
      ensures unchanged(this`attempts, this`correct, this`streak, this`bestStreak)
      ensures unchanged(storage)
    {
      feedback := Some(fb);
      explanation := text;
      awaitingNext := true;
    }

    /** Appends an answer to the stored history. */
    method Record(before: seq<SessionStatEntry>, streakBefore: int, entry: SessionStatEntry)
      requires Valid() && before == storage.history && streakBefore == storage.currentStreak
      modifies storage
      ensures Valid()
      ensures storage.history == before + [entry]
      ensures storage.currentStreak == StreakAfter(streakBefore, entry)
      ensures storage.bestStreak == IMax(old(storage.bestStreak), storage.currentStreak)
      ensures storage.mastery == old(storage.mastery) && storage.srs == old(storage.srs)
      ensures storage.customRules == old(storage.customRules) && storage.difficulty == old(storage.difficulty)
      ensures unchanged(this`playerCards, this`dealerCards, this`current, this`expected, this`startTs)
      ensures unchanged(this`rules, this`actions, this`difficulty, this`hint, this`hintUsed)
      ensures unchanged(this`attempts, this`correct, this`streak, this`bestStreak)
      ensures unchanged(this`feedback, this`explanation, this`awaitingNext)
    {
      storage.RecordSession(entry);
    }

    /** next: clears feedback, explanation and hint, stops waiting, and
        deals a new hand from the dealer cards as they are. */
    method Next(d: Draws, perfNow: real)
      requires Valid()
      modifies this`feedback, this`explanation, this`hint, this`hintUsed, this`awaitingNext
      modifies this`playerCards, this`dealerCards, this`current, this`expected, this`startTs
      ensures Valid() && Shows()
      ensures unchanged(this`rules, this`actions, this`difficulty, this`streak, this`bestStreak, this`attempts, this`correct)
      ensures feedback.None? && explanation == "" && hint.None? && !hintUsed && !awaitingNext
      ensures (playerCards, dealerCards) == Deal(old(dealerCards), WeakScenarios(storage.history), difficulty, d)
      ensures startTs == perfNow
    {
      var prevDealer := dealerCards;
      ResetView();
      GenHand(prevDealer, d, perfNow);
    }

    /** The resets of next: no feedback, explanation or hint, and not
        waiting. */
    method ResetView()
      requires Valid()
      modifies this`feedback, this`explanation, this`hint, this`hintUsed, this`awaitingNext
      ensures Valid()
      ensures feedback.None? && explanation == "" && hint.None? && !hintUsed && !awaitingNext
      ensures unchanged(this`playerCards, this`dealerCards, this`current, this`expected, this`startTs)
      ensures unchanged(this`rules, this`actions, this`difficulty, this`streak, this`bestStreak, this`attempts, this`correct)
    {
      feedback := None;
      explanation := "";
      hint := None;
      hintUsed := false;
      awaitingNext := false;
    }

    /** next with the dealer cards cleared first, so that every generated
        hand shows the dealer card drawn for it. */
    method NextFresh(d: Draws, perfNow: real)
      requires Valid()
      modifies this`feedback, this`explanation, this`hint, this`hintUsed, this`awaitingNext
      modifies this`playerCards, this`dealerCards, this`current, this`expected, this`startTs
      ensures Valid() && Shows()
      ensures feedback.None? && explanation == "" && hint.None? && !hintUsed && !awaitingNext
      ensures (playerCards, dealerCards) == Deal([], WeakScenarios(storage.history), difficulty, d)
      ensures startTs == perfNow
    {
      dealerCards := [];
      current := None;
      Next(d, perfNow);
    }

    /** showHint: only with a hand and only once per hand; sets the hint
        text and marks the hint used. */
    method ShowHint()
      requires Valid()
      modifies this`hint, this`hintUsed
      ensures Valid()
      ensures current.None? || old(hint).Some? ==> hint == old(hint) && hintUsed == old(hintUsed)
      ensures current.Some? && old(hint).None? ==>
        hint == Some(HintText(current.value, dealerCards[0].value, rules)) && hintUsed
    {
      if current.None? || hint.Some? {
        return;
      }
      hint := Some(HintText(current.value, dealerCards[0].value, rules));
      hintUsed := true;
    }

    /** genHand: aggregates the recent drill answers, deals (re-dealing a
        weak scenario or generating one), evaluates the hand and looks up
        the expected decision. */
    method GenHand(prevDealer: seq<Card>, d: Draws, perfNow: real)
      requires prevDealer == dealerCards
      requires Valid()
      modifies this`playerCards, this`dealerCards, this`current, this`expected, this`startTs
      ensures Valid()
      ensures unchanged(this`feedback, this`explanation, this`hint, this`hintUsed, this`awaitingNext)
      ensures unchanged(this`rules, this`actions, this`difficulty, this`streak, this`bestStreak, this`attempts, this`correct)
      ensures (playerCards, dealerCards) == Deal(prevDealer, WeakScenarios(storage.history), difficulty, d)
      ensures Shows()
      ensures startTs == perfNow
    {
      DealCards(prevDealer, d);
      ShowHand(perfNow);
    }

    /** The dealing half of genHand. */
    method DealCards(prevDealer: seq<Card>, d: Draws)
      requires prevDealer == dealerCards
      requires Valid()
      modifies this`playerCards, this`dealerCards
      ensures Valid()
      ensures (playerCards, dealerCards) == Deal(prevDealer, WeakScenarios(storage.history), difficulty, d)
      ensures unchanged(this`current, this`expected, this`startTs)
      ensures unchanged(this`feedback, this`explanation, this`hint, this`hintUsed, this`awaitingNext)
      ensures unchanged(this`rules, this`actions, this`difficulty, this`streak, this`bestStreak, this`attempts, this`correct)
    {
      var player, dealer := DealHand(prevDealer, storage.history, difficulty, d);
      playerCards := player;
      dealerCards := dealer;
    }

    /** The evaluating half of genHand, which also restarts the clock. */
    method ShowHand(perfNow: real)
      requires Valid() && |dealerCards| >= 1
      modifies this`current, this`expected, this`startTs
      ensures Valid() && Shows()
      ensures startTs == perfNow
      ensures unchanged(this`playerCards, this`dealerCards)
      ensures unchanged(this`feedback, this`explanation, this`hint, this`hintUsed, this`awaitingNext)
      ensures unchanged(this`rules, this`actions, this`difficulty, this`streak, this`bestStreak, this`attempts, this`correct)
    {
      var hand := EvaluateHand(playerCards, dealerCards[0]);
      SetHand(hand, GetDecision(hand, rules), perfNow);
    }

    /** Stores an evaluated hand and its decision, and restarts the clock. */
    method SetHand(hand: EvaluatedHand, decision: Decision, perfNow: real)
      requires Valid() && |dealerCards| >= 1
      modifies this`current, this`expected, this`startTs
      ensures Valid()
      ensures current == Some(hand) && expected == Some(decision) && startTs == perfNow
      ensures unchanged(this`playerCards, this`dealerCards)
      ensures unchanged(this`feedback, this`explanation, this`hint, this`hintUsed, this`awaitingNext)
      ensures unchanged(this`rules, this`actions, this`difficulty, this`streak, this`bestStreak, this`attempts, this`correct)
    {
      current := Some(hand);
      expected := Some(decision);
      startTs := perfNow;
    }
  }
}
