/** StrategyEngineService: classifying a hand (evaluateHand) and looking
    its decision up in the tables of the rule set (getDecision). */
module StrategyEngine {

  import opened Options
  import opened Models
  import opened Text
  import opened StrategyData
  import opened StrategyDataService

  // ---------------------------------------------------------------------
  // evaluateHand

  /** Sum of the card values (the source's `reduce`). */
  function CardsTotal(cards: seq<Card>): int {
    if cards == [] then 0 else CardsTotal(cards[..|cards| - 1]) + cards[|cards| - 1].value
  }

  /** Number of cards of rank 'A' (the source's `filter(...).length`). */
  function AceCount(cards: seq<Card>): (n: nat)
    ensures n <= |cards|
    ensures n == 0 <==> forall i :: 0 <= i < |cards| ==> cards[i].rank != "A"
  {
    if cards == [] then 0
    else AceCount(cards[..|cards| - 1]) + (if cards[|cards| - 1].rank == "A" then 1 else 0)
  }

  /** The reduction loop as written: while the total is above 21 and the
      hand holds an ace, take 10 off. The ace count is never decremented,
      so one ace can be discounted more than once. */
  function Reduce(total: int, aces: nat): (r: int)
    ensures aces == 0 || total <= 21 ==> r == total
    ensures aces > 0 ==> r <= 21
    ensures aces > 0 && total > 21 ==> 11 < r
    ensures r <= total && (total - r) % 10 == 0
    decreases total
  {
    if total > 21 && aces > 0 then Reduce(total - 10, aces) else total
  }

  /** The classification evaluateHand returns. */
  function Evaluate(cards: seq<Card>, dealerUp: Card): EvaluatedHand {
    var total := Reduce(CardsTotal(cards), AceCount(cards));
    var soft := AceCount(cards) > 0 && total <= 21;
    var isPair := |cards| == 2 && cards[0].rank == cards[1].rank;
    EvaluatedHand(
      total,
      soft && total <= 21 && !(isPair && cards[0].rank != "A"),
      isPair,
      if isPair then Some(cards[0].rank) else None,
      dealerUp.value)
  }

  /** evaluateHand: sums the values, counts the aces, then runs the
      reduction loop on a local total. */
  method EvaluateHand(playerCards: seq<Card>, dealerUp: Card) returns (hand: EvaluatedHand)
    ensures hand == Evaluate(playerCards, dealerUp)
  {
    var totalRaw := CardsTotal(playerCards);
    var aces := AceCount(playerCards);
    var total := totalRaw;
    var soft := false;
    while total > 21 && aces > 0
      invariant Reduce(total, aces) == Reduce(totalRaw, aces)
      decreases total
    {
      total := total - 10;
    }
    if aces > 0 && total <= 21 {
      soft := true;
    }
    var isPair := |playerCards| == 2 && playerCards[0].rank == playerCards[1].rank;
    var pairRank := if isPair then Some(playerCards[0].rank) else None;
    hand := EvaluatedHand(total, soft && total <= 21 && !(isPair && playerCards[0].rank != "A"),
      isPair, pairRank, dealerUp.value);
  }

  /** The sum and the ace count of a two-card hand. */
  lemma TwoCardCounts(c0: Card, c1: Card)
    ensures CardsTotal([c0, c1]) == c0.value + c1.value
    ensures AceCount([c0, c1]) == (if c0.rank == "A" then 1 else 0) + (if c1.rank == "A" then 1 else 0)
  {
    var cards := [c0, c1];
    assert cards[..1] == [c0] && cards[..1][..0] == [];
    assert CardsTotal(cards[..1]) == c0.value;
    assert AceCount(cards[..1]) == (if c0.rank == "A" then 1 else 0);
  }

  /** Without aces the total is the plain sum; with an ace and a raw sum
      above 21 the total lands in 12..21 and differs from the raw sum by a
      multiple of 10; with an ace the total never exceeds 21. */
  lemma EvaluateTotal(cards: seq<Card>, dealerUp: Card)
    ensures var h := Evaluate(cards, dealerUp);
      && (AceCount(cards) == 0 ==> h.total == CardsTotal(cards))
      && (AceCount(cards) > 0 ==> h.total <= 21)
      && (AceCount(cards) > 0 && CardsTotal(cards) > 21 ==>
            11 < h.total <= 21 && (CardsTotal(cards) - h.total) % 10 == 0)
  {
  }

  /** A hand is soft exactly when it holds an ace and is not a pair of
      some other rank; the total bound of the source never excludes a hand
      that holds an ace. */
  lemma EvaluateSoft(cards: seq<Card>, dealerUp: Card)
    ensures Evaluate(cards, dealerUp).isSoft <==>
      AceCount(cards) > 0 && !(|cards| == 2 && cards[0].rank == cards[1].rank && cards[0].rank != "A")
  {
  }

  /** A pair is exactly two cards of one rank; the pair rank is present
      exactly for pairs, and the dealer value is copied. */
  lemma EvaluatePair(cards: seq<Card>, dealerUp: Card)
    ensures var h := Evaluate(cards, dealerUp);
      && (h.isPair <==> |cards| == 2 && cards[0].rank == cards[1].rank)
      && (h.pairRank.Some? <==> h.isPair)
      && (h.isPair ==> h.pairRank == Some(cards[0].rank))
      && h.dealerUpValue == dealerUp.value
  {
  }

  /** The reduction with one ace used up per subtraction, as a hand total
      is usually counted (and as the flashcards count it). */
  function ReducePerAce(total: int, aces: nat): (r: int)
    ensures r <= total && (total - r) % 10 == 0 && total - r <= 10 * aces
    ensures r <= 21 || total - r == 10 * aces
    ensures total <= 21 ==> r == total
    decreases aces
  {
    if total > 21 && aces > 0 then ReducePerAce(total - 10, aces - 1) else total
  }

  /** Where a single subtraction suffices (every two-card hand: at most
      11 + 11), the loop as written and the per-ace count agree. */
  lemma {:induction false} ReduceAgreesWhenOneStep(total: int, aces: nat)
    requires total <= 31
    ensures Reduce(total, aces) == ReducePerAce(total, aces)
  {
    if total > 21 && aces > 0 {
      assert Reduce(total, aces) == Reduce(total - 10, aces);
      assert ReducePerAce(total, aces) == ReducePerAce(total - 10, aces - 1);
    }
  }

  /** A single ace discounted twice: A,10,10,10 evaluates to a soft 21,
      although with one ace the hand is a hard 31. */
  lemma AceDiscountedTwice()
    ensures var cards := [Card("A", 11), Card("10", 10), Card("10", 10), Card("10", 10)];
      && CardsTotal(cards) == 41 && AceCount(cards) == 1
      && Evaluate(cards, Card("2", 2)).total == 21
      && Evaluate(cards, Card("2", 2)).isSoft
      && ReducePerAce(CardsTotal(cards), AceCount(cards)) == 31
  {
    var cards := [Card("A", 11), Card("10", 10), Card("10", 10), Card("10", 10)];
    assert cards[..3] == [Card("A", 11), Card("10", 10), Card("10", 10)];
    assert cards[..3][..2] == [Card("A", 11), Card("10", 10)];
    assert cards[..3][..2][..1] == [Card("A", 11)] && cards[..3][..2][..1][..0] == [];
    assert CardsTotal(cards[..3][..2][..1]) == 11 && AceCount(cards[..3][..2][..1]) == 1;
    assert CardsTotal(cards[..3][..2]) == 21 && AceCount(cards[..3][..2]) == 1;
    assert CardsTotal(cards[..3]) == 31 && AceCount(cards[..3]) == 1;
    assert Reduce(41, 1) == Reduce(31, 1) == Reduce(21, 1) == 21;
    assert ReducePerAce(41, 1) == ReducePerAce(31, 0) == 31;
  }

  // ---------------------------------------------------------------------
  // getDecision

  /** A cell of a table: absent when the row or the dealer column is. */
  function Cell<K>(table: map<K, Row>, k: K, d: int): (r: Option<Decision>)
    ensures r.Some? <==> k in table && d in table[k]
  {
    if k in table && d in table[k] then Some(table[k][d]) else None
  }

  /** getDecision: no tables gives HIT; otherwise the first cell present
      in the tables of the rule set, and HIT when none is. */
  function GetDecision(hand: EvaluatedHand, rules: RuleSet): Decision {
    match GetTablesFor(rules)
    case None => HIT
    case Some(tables) => Lookup(tables, hand)
  }

  /** The pairs cell (for a pair with a non-empty rank), else the soft cell
      "A<total - 11>" (for a soft hand), else the hard cell; HIT when none
      is present. Every Decision value is truthy, so `!base` means absent. */
  function Lookup(tables: StrategyTables, hand: EvaluatedHand): Decision {
    var d := hand.dealerUpValue;
    var fromPairs := if hand.isPair && Truthy(hand.pairRank) then Cell(tables.pairs, hand.pairRank.value, d) else None;
    var fromSoft := if fromPairs.None? && hand.isSoft then Cell(tables.soft, "A" + IntToString(hand.total - 11), d) else fromPairs;
    var base := if fromSoft.None? then Cell(tables.hard, hand.total, d) else fromSoft;
    base.GetOr(HIT)
  }

  /** The decision read straight off the chart: pair cells for a pair of a
      charted rank, soft cells A2..A9 for soft 13..20, hard cells for
      5..21, and HIT off the chart. */
  function ChartDecision(v: Variant, hand: EvaluatedHand): Decision {
    var d := hand.dealerUpValue;
    if !(2 <= d <= 11) then HIT
    else if hand.isPair && Truthy(hand.pairRank) && hand.pairRank.value in PairKeys then PairCell(v, hand.pairRank.value, d)
    else if hand.isSoft && 13 <= hand.total <= 20 then SoftCell(v, SoftKeys[hand.total - 13], d)
    else if 5 <= hand.total <= 21 then HardCell(v, hand.total, d)
    else HIT
  }

  lemma SoftKeysSpelled()
    ensures forall j :: 0 <= j < |SoftKeys| ==> SoftKeys[j] == "A" + [DigitChar(j + 2)]
  {
  }

  /** "A" + String(n) names a soft row exactly for n in 2..9, and then it
      is the row of soft total n + 11. */
  lemma SoftKeyOf(n: int)
    ensures "A" + IntToString(n) in SoftKeys <==> 2 <= n <= 9
    ensures 2 <= n <= 9 ==> "A" + IntToString(n) == SoftKeys[n - 2]
  {
    SoftKeysSpelled();
    var key := "A" + IntToString(n);
    if 2 <= n <= 9 {
      assert IntToString(n) == [DigitChar(n)];
      assert key == SoftKeys[n - 2];
    } else if key in SoftKeys {
      var j :| 0 <= j < |SoftKeys| && SoftKeys[j] == key;
      assert IntToString(n) == key[1..] == [DigitChar(j + 2)];
      SingleDigitString(n, j + 2);
    }
  }

  /** The pairs table has a cell exactly for the charted ranks against
      2..11. */
  lemma PairsCell(v: Variant, p: string, d: int)
    ensures Cell(Tables(v).pairs, p, d) == if p in PairKeys && 2 <= d <= 11 then Some(PairCell(v, p, d)) else None
  {
  }

  /** The soft table is looked up at "A" + String(total - 11): present
      exactly for soft totals 13..20 against 2..11. */
  lemma SoftCellAt(v: Variant, total: int, d: int)
    ensures Cell(Tables(v).soft, "A" + IntToString(total - 11), d) ==
      if 13 <= total <= 20 && 2 <= d <= 11 then Some(SoftCell(v, SoftKeys[total - 13], d)) else None
  {
    SoftKeyOf(total - 11);
  }

  /** The hard table has a cell exactly for totals 5..21 against 2..11. */
  lemma HardCellAt(v: Variant, t: int, d: int)
    ensures Cell(Tables(v).hard, t, d) == if 5 <= t <= 21 && 2 <= d <= 11 then Some(HardCell(v, t, d)) else None
  {
  }

  /** getDecision reads the chart of the rule set's variant: the lookup
      precedence and the HIT fallback give exactly ChartDecision. */
  lemma GetDecisionFollowsChart(hand: EvaluatedHand, rules: RuleSet)
    ensures GetDecision(hand, rules) == ChartDecision(VariantOf(rules), hand)
  {
    GetDecisionIsLookup(hand, rules);
    LookupFollowsChart(hand, VariantOf(rules));
  }

  /** getDecision reads the tables of the rule set's variant. */
  lemma GetDecisionIsLookup(hand: EvaluatedHand, rules: RuleSet)
    ensures GetDecision(hand, rules) == Lookup(Tables(VariantOf(rules)), hand)
  {
  }

  /** Reading a variant's tables gives exactly ChartDecision. */
  lemma LookupFollowsChart(hand: EvaluatedHand, v: Variant)
    ensures Lookup(Tables(v), hand) == ChartDecision(v, hand)
  {
    var d := hand.dealerUpValue;
    var isPairCase := hand.isPair && Truthy(hand.pairRank) && hand.pairRank.value in PairKeys;
    if !(2 <= d <= 11) {
      ChartOffDealer(hand, v);
    } else if isPairCase {
      ChartPair(hand, v);
    } else if hand.isSoft && 13 <= hand.total <= 20 {
      ChartSoft(hand, v);
    } else {
      ChartHard(hand, v);
    }
  }

  /** The three table cells the lookup reads, and the precedence among
      them. */
  lemma ChartCells(hand: EvaluatedHand, v: Variant) returns (pairCell: Option<Decision>)
    ensures hand.isPair && Truthy(hand.pairRank) ==>
      pairCell == (if hand.pairRank.value in PairKeys && 2 <= hand.dealerUpValue <= 11
                   then Some(PairCell(v, hand.pairRank.value, hand.dealerUpValue)) else None)
    ensures !(hand.isPair && Truthy(hand.pairRank)) ==> pairCell == None
    ensures Lookup(Tables(v), hand) ==
      if pairCell.Some? then pairCell.value
      else if hand.isSoft && 13 <= hand.total <= 20 && 2 <= hand.dealerUpValue <= 11
        then SoftCell(v, SoftKeys[hand.total - 13], hand.dealerUpValue)
      else if 5 <= hand.total <= 21 && 2 <= hand.dealerUpValue <= 11 then HardCell(v, hand.total, hand.dealerUpValue)
      else HIT
  {
    var d := hand.dealerUpValue;
    var t := Tables(v);
    pairCell := if hand.isPair && Truthy(hand.pairRank) then Cell(t.pairs, hand.pairRank.value, d) else None;
    if hand.isPair && Truthy(hand.pairRank) {
      PairsCell(v, hand.pairRank.value, d);
    }
    SoftCellAt(v, hand.total, d);
    HardCellAt(v, hand.total, d);
    FirstPresentCellWins(t, hand, pairCell,
      Cell(t.soft, "A" + IntToString(hand.total - 11), d), Cell(t.hard, hand.total, d));
  }

  lemma ChartOffDealer(hand: EvaluatedHand, v: Variant)
    requires !(2 <= hand.dealerUpValue <= 11)
    ensures Lookup(Tables(v), hand) == HIT
  {
    var _ := ChartCells(hand, v);
  }

  lemma ChartPair(hand: EvaluatedHand, v: Variant)
    requires 2 <= hand.dealerUpValue <= 11
    requires hand.isPair && Truthy(hand.pairRank) && hand.pairRank.value in PairKeys
    ensures Lookup(Tables(v), hand) == PairCell(v, hand.pairRank.value, hand.dealerUpValue)
  {
    var _ := ChartCells(hand, v);
  }

  lemma ChartSoft(hand: EvaluatedHand, v: Variant)
    requires 2 <= hand.dealerUpValue <= 11
    requires !(hand.isPair && Truthy(hand.pairRank) && hand.pairRank.value in PairKeys)
    requires hand.isSoft && 13 <= hand.total <= 20
    ensures Lookup(Tables(v), hand) == SoftCell(v, SoftKeys[hand.total - 13], hand.dealerUpValue)
  {
    var _ := ChartCells(hand, v);
  }

  lemma ChartHard(hand: EvaluatedHand, v: Variant)
    requires 2 <= hand.dealerUpValue <= 11
    requires !(hand.isPair && Truthy(hand.pairRank) && hand.pairRank.value in PairKeys)
    requires !(hand.isSoft && 13 <= hand.total <= 20)
    ensures Lookup(Tables(v), hand) == if 5 <= hand.total <= 21 then HardCell(v, hand.total, hand.dealerUpValue) else HIT
  {
    var _ := ChartCells(hand, v);
  }

  /** Lookup precedence: the pairs cell if the hand is a pair and it is
      present, else the soft cell if the hand is soft and it is present,
      else the hard cell if present, else HIT. */
  lemma FirstPresentCellWins(t: StrategyTables, hand: EvaluatedHand,
                             pairCell: Option<Decision>, softCell: Option<Decision>, hardCell: Option<Decision>)
    requires hand.isPair && Truthy(hand.pairRank) ==> Cell(t.pairs, hand.pairRank.value, hand.dealerUpValue) == pairCell
    requires !(hand.isPair && Truthy(hand.pairRank)) ==> pairCell == None
    requires Cell(t.soft, "A" + IntToString(hand.total - 11), hand.dealerUpValue) == softCell
    requires Cell(t.hard, hand.total, hand.dealerUpValue) == hardCell
    ensures Lookup(t, hand) ==
      if pairCell.Some? then pairCell.value
      else if hand.isSoft && softCell.Some? then softCell.value
      else if hardCell.Some? then hardCell.value
      else HIT
  {
  }

  // ---------------------------------------------------------------------
  // Worked hands

  /** 6+5 against 10 doubles under every rule set. */
  lemma HardElevenDoubles(rules: RuleSet)
    ensures GetDecision(Evaluate([Card("6", 6), Card("5", 5)], Card("10", 10)), rules) == DOUBLE
  {
    var cards := [Card("6", 6), Card("5", 5)];
    TwoCardCounts(cards[0], cards[1]);
    var hand := Evaluate(cards, Card("10", 10));
    assert hand == EvaluatedHand(11, false, false, None, 10);
    GetDecisionFollowsChart(hand, rules);
  }

  /** 9+7 against 10 surrenders exactly under late surrender. */
  lemma HardSixteenSurrenders(rules: RuleSet)
    ensures GetDecision(Evaluate([Card("9", 9), Card("7", 7)], Card("10", 10)), rules) == SURRENDER
      <==> rules.lateSurrender
  {
    var cards := [Card("9", 9), Card("7", 7)];
    TwoCardCounts(cards[0], cards[1]);
    var hand := Evaluate(cards, Card("10", 10));
    assert hand == EvaluatedHand(16, false, false, None, 10);
    GetDecisionFollowsChart(hand, rules);
  }

  /** A+6 against 2 doubles under H17. */
  lemma SoftSeventeenDoublesUnderH17(rules: RuleSet)
    requires rules.hitSoft17
    ensures GetDecision(Evaluate([Card("A", 11), Card("6", 6)], Card("2", 2)), rules) == DOUBLE
  {
    var hand := Evaluate([Card("A", 11), Card("6", 6)], Card("2", 2));
    SoftSeventeenHand();
    SoftSeventeenCell(VariantOf(rules));
    GetDecisionFollowsChart(hand, rules);
  }

  lemma SoftSeventeenHand()
    ensures Evaluate([Card("A", 11), Card("6", 6)], Card("2", 2)) == EvaluatedHand(17, true, false, None, 2)
  {
    TwoCardCounts(Card("A", 11), Card("6", 6));
  }

  lemma SoftSeventeenCell(v: Variant)
    requires v.isH17
    ensures ChartDecision(v, EvaluatedHand(17, true, false, None, 2)) == DOUBLE
  {
    assert SoftKeys[4] == "A6";
  }

  /** 4,4 against 5 splits with double after split. */
  lemma FoursSplitWithDas(rules: RuleSet)
    requires rules.doubleAfterSplit
    ensures GetDecision(Evaluate([Card("4", 4), Card("4", 4)], Card("5", 5)), rules) == SPLIT
  {
    var hand := Evaluate([Card("4", 4), Card("4", 4)], Card("5", 5));
    FoursHand();
    FoursCell(VariantOf(rules));
    GetDecisionFollowsChart(hand, rules);
  }

  lemma FoursHand()
    ensures Evaluate([Card("4", 4), Card("4", 4)], Card("5", 5)) == EvaluatedHand(8, false, true, Some("4"), 5)
  {
    TwoCardCounts(Card("4", 4), Card("4", 4));
  }

  lemma FoursCell(v: Variant)
    requires v.das
    ensures ChartDecision(v, EvaluatedHand(8, false, true, Some("4"), 5)) == SPLIT
  {
    assert "4" == PairKeys[2];
  }
}
