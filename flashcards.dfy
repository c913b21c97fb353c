/** FlashcardsComponent (blackjack-trainer/src/app/features/flashcards/
    flashcards.component.ts): one flash item per cell of the S17 chart,
    queued due-first by the SRS entries and then shuffled, answered one at
    a time with mastery counted per item key. Math.random is a parameter
    (`random` for the shuffle, `face` for the rank of ten-valued cards),
    the clocks are parameters, suits and timers are left out. */
module Flashcards {

  import opened Options
  import opened Models
  import opened Text
  import opened Srs
  import opened StrategyData
  import opened StrategyEngine
  import opened Storage
  import opened LegacyStorage

  /** The component's tables: STRATEGY_DATA['S17']. */
  const S17: Variant := Variant(false, false, false)

  const MasteryTarget: int := 3

  // ---------------------------------------------------------------------
  // Cards

  const TenRanks: seq<string> := ["10", "J", "Q", "K"]

  /** card(rank): ace 11, faces 10, otherwise the number the rank spells
      (parseInt; a rank that spells none does not occur and reads as 0). */
  function RankValue(rank: string): int {
    if rank == "A" then 11
    else if rank == "J" || rank == "Q" || rank == "K" then 10
    else ParseInt(rank).GetOr(0)
  }

  function CardOf(rank: string): Card {
    Card(rank, RankValue(rank))
  }

  /** cardFromValue: 11 is an ace, 10 one of the four ten-valued ranks
      (chosen by `face`), anything else the number's own rank. */
  function CardFromValue(v: int, face: nat): Card {
    if v == 11 then CardOf("A")
    else if v == 10 then CardOf(TenRanks[face % 4])
    else CardOf(IntToString(v))
  }

  /** A value 2..9 is spelled by one digit, which is no ace and no face. */
  lemma DigitRank(v: int)
    requires 2 <= v <= 9
    ensures CardOf(IntToString(v)) == Card(IntToString(v), v)
    ensures IntToString(v) != "A"
  {
    SingleDigitString(v, v);
    ParseIntOfIntToString(v);
    assert IntToString(v)[0] == DigitChar(v);
  }

  /** The rank '10' is worth 10. */
  lemma TenRankValue()
    ensures RankValue("10") == 10
  {
    ParseIntOfIntToString(10);
    assert IntToString(10) == NatToString(1) + [DigitChar(0)] == "10";
  }

  lemma CardFromValueHasValue(v: int, face: nat)
    requires 2 <= v <= 11
    ensures CardFromValue(v, face).value == v
    ensures CardFromValue(v, face).rank == "A" <==> v == 11
  {
    if v <= 9 {
      DigitRank(v);
    } else if v == 10 {
      TenRankValue();
      assert TenRanks[face % 4] in TenRanks;
    }
  }

  /** Two cards sum to their displayed values. */
  lemma FlashSumTwo(c0: Card, c1: Card)
    ensures FlashSum([c0, c1]) == (if c0.rank == "A" then 11 else c0.value) + (if c1.rank == "A" then 11 else c1.value)
  {
    var c := [c0, c1];
    assert c[..1] == [c0] && c[..1][..0] == [];
    assert FlashSum(c[..1]) == (if c0.rank == "A" then 11 else c0.value);
  }

  /** makePlayerCombo: 21 is A+K, 20 is 10+Q, any other total a first card
      of clamp(total - 10, 2, 10) and the rest as the second. */
  function MakePlayerCombo(total: int, face: nat): seq<Card> {
    if total == 21 then [CardOf("A"), CardOf("K")]
    else if total == 20 then [CardOf("10"), CardOf("Q")]
    else
      var firstVal := IMin(10, IMax(2, total - 10));
      [CardFromValue(firstVal, face), CardFromValue(total - firstVal, face)]
  }

  /** makeSoftCombo: an ace and the card named by the key's second
      character ('A4' gives A and 4). */
  function MakeSoftCombo(k: string): seq<Card> {
    [CardOf("A"), CardOf(if |k| >= 2 then [k[1]] else "")]
  }

  /** The sum playerTotal starts from: aces at 11, other cards at value. */
  function FlashSum(cards: seq<Card>): int {
    if cards == [] then 0
    else FlashSum(cards[..|cards| - 1]) + (if cards[|cards| - 1].rank == "A" then 11 else cards[|cards| - 1].value)
  }

  /** The displayed total: the sum with one ace counted as 1 instead of 11
      per 10 taken off, while the sum is above 21. */
  function PlayerTotalOf(cards: seq<Card>): int {
    ReducePerAce(FlashSum(cards), AceCount(cards))
  }

  /** Every hard total 5..21 gets two cards of values 2..11 whose
      displayed total is that total. */
  lemma {:induction false} PlayerComboTotals(total: int, face: nat)
    requires 5 <= total <= 21
    ensures var c := MakePlayerCombo(total, face);
      && |c| == 2
      && 2 <= c[0].value <= 11 && 2 <= c[1].value <= 11
      && c[0].value + c[1].value == total
      && PlayerTotalOf(c) == total
  {
    var c := MakePlayerCombo(total, face);
    assert [c[0], c[1]] == c;
    TwoCardCounts(c[0], c[1]);
    FlashSumTwo(c[0], c[1]);
    if total == 20 {
      TenRankValue();
    } else if total < 20 {
      var firstVal := IMin(10, IMax(2, total - 10));
      CardFromValueHasValue(firstVal, face);
      CardFromValueHasValue(total - firstVal, face);
    }
  }

  // ---------------------------------------------------------------------
  // Items

  datatype Kind = HardKind | SoftKind | PairKind

  datatype FlashItem = FlashItem(
    caption: string,
    expected: Decision,
    kind: Kind,
    playerCards: seq<Card>,
    dealerUp: Card,
    key: string)

  /** The dealer card as labels show it: 11 is 'A'. */
  function DealerName(d: int): string {
    if d == 11 then "A" else IntToString(d)
  }

  function HardKey(t: int, d: int): string {
    "H-" + IntToString(t) + "-D" + IntToString(d)
  }

  function SoftKey(k: string, d: int): string {
    "S-" + k + "-D" + IntToString(d)
  }

  function PairKey(p: string, d: int): string {
    "P-" + p + "-D" + IntToString(d)
  }

  function HardItem(t: int, d: int, face: nat): FlashItem {
    FlashItem("Hard " + IntToString(t) + " vs " + DealerName(d), HardCell(S17, t, d), HardKind,
      MakePlayerCombo(t, face), CardFromValue(d, face), HardKey(t, d))
  }

  /** The soft label shows 11 plus the number after the 'A'. */
  function SoftItem(k: string, d: int, face: nat): FlashItem {
    var softVal := 11 + ParseInt(if |k| >= 1 then k[1..] else "").GetOr(0);
    FlashItem("Soft " + IntToString(softVal) + " (" + k + ") vs " + DealerName(d), SoftCell(S17, k, d), SoftKind,
      MakeSoftCombo(k), CardFromValue(d, face), SoftKey(k, d))
  }

  function PairItem(p: string, d: int, face: nat): FlashItem {
    FlashItem("Pair " + p + "," + p + " vs " + DealerName(d), PairCell(S17, p, d), PairKind,
      [CardOf(p), CardOf(p)], CardFromValue(d, face), PairKey(p, d))
  }

  /** The items of one row: dealer 2..11 in order. */
  function RowItems<K>(k: K, mk: (K, int) -> FlashItem): (r: seq<FlashItem>)
    ensures |r| == 10
    ensures forall j :: 0 <= j < 10 ==> r[j] == mk(k, 2 + j)
  {
    seq(10, j => mk(k, 2 + j))
  }

  /** The items of one table, row after row in key order. */
  function Section<K>(keys: seq<K>, mk: (K, int) -> FlashItem): seq<FlashItem> {
    if keys == [] then [] else Section(keys[..|keys| - 1], mk) + RowItems(keys[|keys| - 1], mk)
  }

  /** One item per (key, dealer) pair: ten per row, and an item belongs to
      the section exactly when it is some key's item for some dealer. */
  lemma {:induction false} SectionCells<K>(keys: seq<K>, mk: (K, int) -> FlashItem)
    ensures |Section(keys, mk)| == 10 * |keys|
    ensures forall x :: x in Section(keys, mk) <==> exists k, d :: k in keys && 2 <= d <= 11 && x == mk(k, d)
  {
    if keys != [] {
      var prefix := keys[..|keys| - 1];
      var last := keys[|keys| - 1];
      SectionCells(prefix, mk);
      assert keys == prefix + [last];
      forall x | x in Section(keys, mk)
        ensures exists k, d :: k in keys && 2 <= d <= 11 && x == mk(k, d)
      {
        if x in RowItems(last, mk) {
          var j :| 0 <= j < 10 && RowItems(last, mk)[j] == x;
          assert last in keys && x == mk(last, 2 + j);
        }
      }
      forall x, k, d | k in keys && 2 <= d <= 11 && x == mk(k, d)
        ensures x in Section(keys, mk)
      {
        if k == last {
          assert RowItems(last, mk)[d - 2] == x;
        } else {
          assert k in prefix;
        }
      }
    }
  }

  function HardMaker(face: nat): (int, int) -> FlashItem {
    (t: int, d: int) => HardItem(t, d, face)
  }

  function SoftMaker(face: nat): (string, int) -> FlashItem {
    (k: string, d: int) => SoftItem(k, d, face)
  }

  function PairMaker(face: nat): (string, int) -> FlashItem {
    (p: string, d: int) => PairItem(p, d, face)
  }

  /** What build appends: the hard rows 5..21, the soft rows A2..A9 and
      the pair rows 2..10, A, each against dealer 2..11. */
  function BuildItems(face: nat): seq<FlashItem> {
    Section(Range(5, 21), HardMaker(face)) + Section(SoftKeys, SoftMaker(face)) + Section(PairKeys, PairMaker(face))
  }

  lemma HardSection(face: nat)
    ensures |Section(Range(5, 21), HardMaker(face))| == 170
    ensures forall x :: x in Section(Range(5, 21), HardMaker(face)) <==>
      exists t, d :: 5 <= t <= 21 && 2 <= d <= 11 && x == HardItem(t, d, face)
  {
    SectionCells(Range(5, 21), HardMaker(face));
    assert forall t, d :: HardMaker(face)(t, d) == HardItem(t, d, face);
  }

  lemma SoftSection(face: nat)
    ensures |Section(SoftKeys, SoftMaker(face))| == 80
    ensures forall x :: x in Section(SoftKeys, SoftMaker(face)) <==>
      exists k, d :: k in SoftKeys && 2 <= d <= 11 && x == SoftItem(k, d, face)
  {
    SectionCells(SoftKeys, SoftMaker(face));
    assert forall k, d :: SoftMaker(face)(k, d) == SoftItem(k, d, face);
  }

  lemma PairSection(face: nat)
    ensures |Section(PairKeys, PairMaker(face))| == 100
    ensures forall x :: x in Section(PairKeys, PairMaker(face)) <==>
      exists p, d :: p in PairKeys && 2 <= d <= 11 && x == PairItem(p, d, face)
  {
    SectionCells(PairKeys, PairMaker(face));
    assert forall p, d :: PairMaker(face)(p, d) == PairItem(p, d, face);
  }

  /** build emits 350 items, exactly the chart's cells: every item is the
      item of one cell (its key names the cell and its expected decision is
      the cell's), and every cell has its item. */
  lemma BuildCoversChart(face: nat)
    ensures |BuildItems(face)| == 350
    ensures forall x :: x in BuildItems(face) <==>
      (exists t, d :: 5 <= t <= 21 && 2 <= d <= 11 && x == HardItem(t, d, face))
      || (exists k, d :: k in SoftKeys && 2 <= d <= 11 && x == SoftItem(k, d, face))
      || (exists p, d :: p in PairKeys && 2 <= d <= 11 && x == PairItem(p, d, face))
  {
    HardSection(face);
    SoftSection(face);
    PairSection(face);
    var h := Section(Range(5, 21), HardMaker(face));
    var so := Section(SoftKeys, SoftMaker(face));
    var pa := Section(PairKeys, PairMaker(face));
    assert BuildItems(face) == h + so + pa;
    assert forall x :: x in h + so + pa <==> x in h || x in so || x in pa;
  }

  /** An item's expected decision is the S17 chart's cell for its row and
      dealer card. */
  lemma ItemExpectsCell(t: int, k: string, p: string, d: int, face: nat)
    requires 5 <= t <= 21 && k in SoftKeys && p in PairKeys && 2 <= d <= 11
    ensures HardItem(t, d, face).expected == Tables(S17).hard[t][d]
    ensures SoftItem(k, d, face).expected == Tables(S17).soft[k][d]
    ensures PairItem(p, d, face).expected == Tables(S17).pairs[p][d]
    ensures HardItem(t, d, face).key == "H-" + IntToString(t) + "-D" + IntToString(d)
  {
  }

  // ---------------------------------------------------------------------
  // The due queue

  /** An item is due when its key has no entry or the entry's nextDue has
      come. */
  predicate IsDue(srs: map<string, LegacySrsEntry>, x: FlashItem, now: int) {
    x.key !in srs || srs[x.key].nextDue <= now
  }

  /** `items.filter(i => due)`. */
  function DueItems(s: seq<FlashItem>, srs: map<string, LegacySrsEntry>, now: int): (r: seq<FlashItem>)
    ensures forall x :: x in r <==> x in s && IsDue(srs, x, now)
  {
    if s == [] then []
    else
      var rest := DueItems(s[..|s| - 1], srs, now);
      assert forall x :: x in s <==> x in s[..|s| - 1] || x == s[|s| - 1];
      if IsDue(srs, s[|s| - 1], now) then rest + [s[|s| - 1]] else rest
  }

  /** `items.filter(i => !due.includes(i))`. */
  function FutureItems(s: seq<FlashItem>, due: seq<FlashItem>): (r: seq<FlashItem>)
    ensures forall x :: x in r <==> x in s && x !in due
  {
    if s == [] then []
    else
      var rest := FutureItems(s[..|s| - 1], due);
      assert forall x :: x in s <==> x in s[..|s| - 1] || x == s[|s| - 1];
      if s[|s| - 1] !in due then rest + [s[|s| - 1]] else rest
  }

  /** The due part and the future part together hold every item exactly
      as often as the list does. */
  lemma {:induction false} DueSplit(s: seq<FlashItem>, due: seq<FlashItem>, srs: map<string, LegacySrsEntry>, now: int)
    requires forall i :: 0 <= i < |s| ==> (s[i] in due <==> IsDue(srs, s[i], now))
    ensures multiset(DueItems(s, srs, now)) + multiset(FutureItems(s, due)) == multiset(s)
  {
    if s != [] {
      var prefix, last := s[..|s| - 1], s[|s| - 1];
      assert forall i :: 0 <= i < |prefix| ==> prefix[i] == s[i];
      DueSplit(prefix, due, srs, now);
      DueSplitSnoc(prefix, last, due, srs, now);
      assert s == prefix + [last];
    }
  }

  /** One more item goes to exactly one of the two parts. */
  lemma DueSplitSnoc(prefix: seq<FlashItem>, last: FlashItem, due: seq<FlashItem>,
                     srs: map<string, LegacySrsEntry>, now: int)
    requires last in due <==> IsDue(srs, last, now)
    ensures multiset(DueItems(prefix + [last], srs, now)) + multiset(FutureItems(prefix + [last], due))
      == multiset(DueItems(prefix, srs, now)) + multiset(FutureItems(prefix, due)) + multiset{last}
  {
    assert (prefix + [last])[..|prefix|] == prefix;
  }

  /** The order key of a due item: nextDue, then consecutive; no entry
      counts as 0, 0. */
  function DueRank(srs: map<string, LegacySrsEntry>, x: FlashItem): (int, int) {
    if x.key in srs then (srs[x.key].nextDue, srs[x.key].consecutive) else (0, 0)
  }

  predicate RankBefore(a: (int, int), b: (int, int)) {
    a.0 < b.0 || (a.0 == b.0 && a.1 < b.1)
  }

  ghost predicate SortedByRank(s: seq<FlashItem>, srs: map<string, LegacySrsEntry>) {
    forall i, j :: 0 <= i < j < |s| ==> !RankBefore(DueRank(srs, s[j]), DueRank(srs, s[i]))
  }

  /** Inserts x after every element that does not rank after it, keeping
      equal elements in their order. */
  function InsertByRank(s: seq<FlashItem>, x: FlashItem, srs: map<string, LegacySrsEntry>): (r: seq<FlashItem>)
    ensures multiset(r) == multiset(s) + multiset{x}
  {
    if s == [] then [x]
    else
      var last := s[|s| - 1];
      assert s == s[..|s| - 1] + [last];
      if RankBefore(DueRank(srs, x), DueRank(srs, last)) then InsertByRank(s[..|s| - 1], x, srs) + [last]
      else s + [x]
  }

  /** Inserting into a sorted list keeps it sorted. */
  lemma {:induction false} InsertByRankSorted(s: seq<FlashItem>, x: FlashItem, srs: map<string, LegacySrsEntry>)
    requires SortedByRank(s, srs)
    ensures SortedByRank(InsertByRank(s, x, srs), srs)
  {
    if s != [] {
      var prefix := s[..|s| - 1];
      var last := s[|s| - 1];
      if RankBefore(DueRank(srs, x), DueRank(srs, last)) {
        InsertByRankSorted(prefix, x, srs);
        InsertedNotAfterLast(s, x, srs);
        SortedSnoc(InsertByRank(prefix, x, srs), last, srs);
      }
    }
  }

  /** When x ranks before the last element, nothing in the front part
      (the rest with x inserted) ranks after that last element. */
  lemma InsertedNotAfterLast(s: seq<FlashItem>, x: FlashItem, srs: map<string, LegacySrsEntry>)
    requires SortedByRank(s, srs) && s != []
    requires RankBefore(DueRank(srs, x), DueRank(srs, s[|s| - 1]))
    ensures forall y :: y in InsertByRank(s[..|s| - 1], x, srs) ==> !RankBefore(DueRank(srs, s[|s| - 1]), DueRank(srs, y))
  {
    var prefix := s[..|s| - 1];
    var front := InsertByRank(prefix, x, srs);
    forall y | y in front
      ensures !RankBefore(DueRank(srs, s[|s| - 1]), DueRank(srs, y))
    {
      assert y in multiset(front);
      if y != x {
        assert y in multiset(prefix);
        var i :| 0 <= i < |prefix| && prefix[i] == y;
        assert s[i] == y;
      }
    }
  }

  /** Appending an element that ranks after nothing already there keeps
      a list sorted. */
  lemma SortedSnoc(front: seq<FlashItem>, last: FlashItem, srs: map<string, LegacySrsEntry>)
    requires SortedByRank(front, srs)
    requires forall y :: y in front ==> !RankBefore(DueRank(srs, last), DueRank(srs, y))
    ensures SortedByRank(front + [last], srs)
  {
    var r := front + [last];
    forall i, j | 0 <= i < j < |r|
      ensures !RankBefore(DueRank(srs, r[j]), DueRank(srs, r[i]))
    {
      if j == |front| {
        assert r[i] in front;
      } else {
        assert r[i] == front[i] && r[j] == front[j];
      }
    }
  }

  /** due.sort by (nextDue, consecutive): a stable sort of the due part. */
  function SortDue(s: seq<FlashItem>, srs: map<string, LegacySrsEntry>): (r: seq<FlashItem>)
    ensures multiset(r) == multiset(s)
    ensures SortedByRank(r, srs)
  {
    if s == [] then []
    else
      assert s == s[..|s| - 1] + [s[|s| - 1]];
      var sorted := SortDue(s[..|s| - 1], srs);
      InsertByRankSorted(sorted, s[|s| - 1], srs);
      InsertByRank(sorted, s[|s| - 1], srs)
  }

  /** The queue rebuild forms, sorted due part first, holds exactly the
      built items. */
  lemma QueueIsPermutation(all: seq<FlashItem>, srs: map<string, LegacySrsEntry>, now: int)
    ensures multiset(SortDue(DueItems(all, srs, now), srs) + FutureItems(all, DueItems(all, srs, now))) == multiset(all)
  {
    var due := DueItems(all, srs, now);
    assert forall i :: 0 <= i < |all| ==> (all[i] in due <==> IsDue(srs, all[i], now));
    DueSplit(all, due, srs, now);
  }

  /** shuffle: the backwards swap loop; swap partner i of step i is
      random(i) mod (i + 1), one of the cells 0..i. */
  method Shuffle(a: array<FlashItem>, random: nat -> nat)
    modifies a
    ensures multiset(a[..]) == multiset(old(a[..]))
  {
    var i := a.Length - 1;
    while i > 0
      invariant i < a.Length
      invariant multiset(a[..]) == multiset(old(a[..]))
      decreases i
    {
      var j := random(i) % (i + 1);
      a[i], a[j] := a[j], a[i];
      i := i - 1;
    }
  }

  /** The list copied into an array, shuffled in place and read back. */
  method ShuffledCopy(queued: seq<FlashItem>, random: nat -> nat) returns (r: seq<FlashItem>)
    ensures multiset(r) == multiset(queued)
  {
    var a := new FlashItem[|queued|](i requires 0 <= i < |queued| => queued[i]);
    assert a[..] == queued;
    Shuffle(a, random);
    r := a[..];
  }

  /** The due-first ordering and the shuffle of rebuild: the due items
      sorted, then the rest, then shuffled. */
  method Requeue(all: seq<FlashItem>, entries: map<string, LegacySrsEntry>, now: int, random: nat -> nat)
    returns (r: seq<FlashItem>)
    ensures multiset(r) == multiset(all)
  {
    var due := DueItems(all, entries, now);
    var future := FutureItems(all, due);
    QueueIsPermutation(all, entries, now);
    due := SortDue(due, entries);
    r := ShuffledCopy(due + future, random);
  }

  // ---------------------------------------------------------------------
  // Small pure parts

  predicate Mastered(counts: map<string, int>, key: string) {
    MasteryCount(counts, key) >= MasteryTarget
  }

  /** dueCount: the tracked keys whose nextDue has come. */
  function DueCount(srs: map<string, LegacySrsEntry>, now: int): nat {
    |set k | k in srs && srs[k].nextDue <= now|
  }

  /** No more keys are due than are tracked, and a key once due stays due
      as time passes. */
  lemma DueCountBounds(srs: map<string, LegacySrsEntry>, now: int, later: int)
    requires now <= later
    ensures DueCount(srs, now) <= |srs.Keys|
    ensures DueCount(srs, now) <= DueCount(srs, later)
  {
    var a := set k | k in srs && srs[k].nextDue <= now;
    var b := set k | k in srs && srs[k].nextDue <= later;
    assert a <= srs.Keys;
    assert a <= b;
    SubsetCard(a, srs.Keys);
    SubsetCard(a, b);
  }

  lemma {:induction false} SubsetCard<T>(a: set<T>, b: set<T>)
    requires a <= b
    ensures |a| <= |b|
    decreases b
  {
    if a != {} {
      var x :| x in a;
      SubsetCard(a - {x}, b - {x});
    }
  }

  /** relativeTime: how far `ts` lies ahead of `now`, rounded to minutes,
      hours or days. */
  function RelativeTime(ts: int, now: int): string {
    var diff := ts - now;
    if diff <= 0 then "now"
    else
      var mins := Round(diff as real / 60000.0);
      if mins < 60 then IntToString(mins) + "m"
      else
        var hrs := Round(mins as real / 60.0);
        if hrs < 24 then IntToString(hrs) + "h"
        else IntToString(Round(hrs as real / 24.0)) + "d"
  }

  /** The unit follows from the distance alone: minutes below 59.5 min,
      hours below 1409.5 min, days beyond; "now" exactly when `ts` has
      passed. */
  lemma RelativeTimeUnits(ts: int, now: int)
    ensures var r := RelativeTime(ts, now);
      && (r == "now" <==> ts <= now)
      && |r| >= 2
      && (r[|r| - 1] == 'm' <==> 0 < ts - now < 3570000)
      && (r[|r| - 1] == 'h' <==> 3570000 <= ts - now < 84570000)
      && (r[|r| - 1] == 'd' <==> 84570000 <= ts - now)
  {
    var r := RelativeTime(ts, now);
    var diff := ts - now;
    if diff > 0 {
      var mins := Round(diff as real / 60000.0);
      assert mins < 60 <==> diff < 3570000;
      if mins >= 60 {
        var hrs := Round(mins as real / 60.0);
        assert hrs < 24 <==> mins < 1410;
        assert mins < 1410 <==> diff < 84570000;
      }
      assert r[|r| - 1] != 'w';
    }
  }

  /** The k-th index of a circular scan of n cells from `start`. */
  function Circular(start: int, k: int, n: int): (r: int)
    requires n > 0
    ensures 0 <= r < n
  {
    (start + k) % n
  }

  lemma MulAtLeast(n: int, a: int)
    requires n > 0 && a >= 1
    ensures n * a >= n
  {
    assert n * a == n * (a - 1) + n;
  }

  lemma {:induction false} ModOfMultiplePlus(n: int, q: int, m: int)
    requires n > 0 && 0 <= m < n
    ensures (n * q + m) % n == m
  {
    var x := n * q + m;
    var q2 := x / n;
    var r2 := x % n;
    assert x == n * q2 + r2;
    assert n * (q - q2) == r2 - m;
    if q - q2 >= 1 {
      MulAtLeast(n, q - q2);
    } else if q2 - q >= 1 {
      MulAtLeast(n, q2 - q);
    }
  }

  /** A scan of n steps visits every one of the n cells. */
  lemma CircularCovers(start: int, n: int, j: int)
    requires start >= 0 && 0 <= j < n
    ensures exists k :: 0 <= k < n && Circular(start, k, n) == j
  {
    var q := start / n;
    var r := start % n;
    assert start == n * q + r;
    if j >= r {
      ModOfMultiplePlus(n, q, j);
      assert start + (j - r) == n * q + j;
      assert Circular(start, j - r, n) == j;
    } else {
      ModOfMultiplePlus(n, q + 1, j);
      assert start + (j - r + n) == n * (q + 1) + j;
      assert Circular(start, j - r + n, n) == j;
    }
  }

  // ---------------------------------------------------------------------
  // The component

  /** The answer record a flash answer writes. */
  function FlashEntry(now: int, item: FlashItem, decision: Decision, elapsed: real): SessionStatEntry {
    SessionStatEntry(now, Flash, if decision == item.expected then 1 else 0, 1,
      Some(DecisionName(item.expected)), Some(DecisionName(decision)), Some(item.key), Some(elapsed), None, None)
  }

  /** What answer leaves in the shared mastery table: one increment by
      the service and one by the component, on the same object. */
  function DoubleIncremented(m: map<string, int>, key: string): map<string, int> {
    Incremented(Incremented(m, key), key)
  }

  /** From no mastery, two correct answers master a card as written,
      where three are meant (masteryTarget = 3, one count per answer). */
  lemma MasteredAfterTwoAnswers(key: string)
    ensures Mastered(DoubleIncremented(DoubleIncremented(map[], key), key), key)
    ensures !Mastered(Incremented(Incremented(map[], key), key), key)
    ensures Mastered(Incremented(Incremented(Incremented(map[], key), key), key), key)
  {
  }

  class FlashcardsComponent {
    var storage: LegacyStorageService
    var items: seq<FlashItem>
    var index: int
    var current: Option<FlashItem>
    var feedback: Option<string>
    var startTs: real
    /** `storage.loadMastery()` and `storage.loadSrs()`: the service's
        cache objects themselves. */
    var mastery: MasteryTable
    var srs: SrsTable
    /** The items as build produced them, before the queue was reordered. */
    ghost var built: seq<FlashItem>

    ghost predicate Valid()
      reads this, storage
    {
      && storage.Valid()
      && mastery == storage.masteryCache
      && srs == storage.srsCache
      && 0 <= index
      && (|items| == 0 ==> current == None)
      && (|items| > 0 ==> index < |items| && current == Some(items[index]))
    }

    /** The component on construction: loads the caches, then rebuilds the
        queue. */
    constructor (service: LegacyStorageService, face: nat, now: int, perfNow: real, random: nat -> nat)
      requires service.Valid()
      ensures Valid()
      ensures storage == service && mastery == service.masteryCache && srs == service.srsCache
      ensures built == BuildItems(face) && multiset(items) == multiset(built)
    {
      storage := service;
      var loadedSrs := service.LoadSrs();
      var loadedMastery := service.LoadMastery();
      srs := loadedSrs;
      mastery := loadedMastery;
      items := [];
      index := 0;
      current := None;
      feedback := None;
      startTs := perfNow;
      new;
      Rebuild(face, now, perfNow, random);
    }

    /** build: appends the item of every chart cell. */
    method Build(face: nat)
      modifies this`items
      ensures items == old(items) + BuildItems(face)
      ensures storage == old(storage) && mastery == old(mastery) && srs == old(srs)
      ensures index == old(index) && current == old(current) && feedback == old(feedback) && startTs == old(startTs)
    {
      PushRows(Range(5, 21), HardMaker(face));
      PushRows(SoftKeys, SoftMaker(face));
      PushRows(PairKeys, PairMaker(face));
    }

    /** One table's forEach over its rows and their dealer cells. */
    method PushRows<K>(keys: seq<K>, mk: (K, int) -> FlashItem)
      modifies this`items
      ensures items == old(items) + Section(keys, mk)
      ensures storage == old(storage) && mastery == old(mastery) && srs == old(srs)
      ensures index == old(index) && current == old(current) && feedback == old(feedback) && startTs == old(startTs)
    {
      var i := 0;
      while i < |keys|
        invariant 0 <= i <= |keys|
        invariant items == old(items) + Section(keys[..i], mk)
        invariant storage == old(storage) && mastery == old(mastery) && srs == old(srs)
        invariant index == old(index) && current == old(current) && feedback == old(feedback) && startTs == old(startTs)
      {
        var d := 2;
        while d <= 11
          invariant 2 <= d <= 12
          invariant items == old(items) + Section(keys[..i], mk) + seq(d - 2, j => mk(keys[i], 2 + j))
          invariant storage == old(storage) && mastery == old(mastery) && srs == old(srs)
          invariant index == old(index) && current == old(current) && feedback == old(feedback) && startTs == old(startTs)
        {
          assert seq(d - 1, j => mk(keys[i], 2 + j)) == seq(d - 2, j => mk(keys[i], 2 + j)) + [mk(keys[i], d)];
          items := items + [mk(keys[i], d)];
          d := d + 1;
        }
        assert keys[..i + 1][..i] == keys[..i];
        assert seq(10, j => mk(keys[i], 2 + j)) == RowItems(keys[i], mk);
        i := i + 1;
      }
      assert keys[..i] == keys;
    }

    /** rebuild at time `now`: builds the items, puts the due ones first
        (sorted by nextDue, then consecutive) and the rest after, shuffles
        the whole list and shows its first item. */
    method Rebuild(face: nat, now: int, perfNow: real, random: nat -> nat)
      requires storage.Valid() && mastery == storage.masteryCache && srs == storage.srsCache
      modifies this`items, this`built, this`index, this`current, this`startTs
      ensures Valid()
      ensures built == BuildItems(face) && multiset(items) == multiset(built)
      ensures index == 0 && startTs == perfNow
      ensures storage == old(storage) && mastery == old(mastery) && srs == old(srs) && feedback == old(feedback)
    {
      index := 0;
      FillQueue(face, now, random);
      current := if |items| > 0 then Some(items[0]) else None;
      startTs := perfNow;
    }

    /** The list part of rebuild: empty the items, build them, then order
        and shuffle them. */
    method FillQueue(face: nat, now: int, random: nat -> nat)
      modifies this`items, this`built
      ensures built == BuildItems(face) && multiset(items) == multiset(built)
      ensures storage == old(storage) && mastery == old(mastery) && srs == old(srs) && feedback == old(feedback)
      ensures index == old(index)
    {
      items := [];
      Build(face);
      built := items;
      var queue := Requeue(items, srs.entries, now, random);
      items := queue;
    }

    /** A circular scan from `start` passes k mastered items and stops at
        index r, which is the k-th one and not mastered. */
    ghost predicate ScanStopsAt(start: int, k: int, r: int)
      reads this`items, this`mastery, mastery
      requires 0 <= k < |items|
    {
      && r == Circular(start, k, |items|)
      && !Mastered(mastery.counts, items[r].key)
      && forall k' :: 0 <= k' < k ==> Mastered(mastery.counts, items[Circular(start, k', |items|)].key)
    }

    /** Index r is where a circular scan from `start` stops. */
    ghost predicate ScanFinds(start: int, r: int)
      reads this`items, this`mastery, mastery
    {
      exists k :: 0 <= k < |items| && ScanStopsAt(start, k, r)
    }

    /** nextUnmasteredIndex: the first index, scanning circularly from
        `start`, whose item is not mastered; -1 when every item is. */
    method NextUnmasteredIndex(start: int) returns (r: int)
      requires start >= 0
      ensures r == -1 <==> forall i :: 0 <= i < |items| ==> Mastered(mastery.counts, items[i].key)
      ensures r != -1 ==> ScanFinds(start, r)
    {
      var i := 0;
      while i < |items|
        invariant 0 <= i <= |items|
        invariant forall k' :: 0 <= k' < i ==> Mastered(mastery.counts, items[Circular(start, k', |items|)].key)
      {
        var idx := (start + i) % |items|;
        if !Mastered(mastery.counts, items[idx].key) {
          assert ScanStopsAt(start, i, idx);
          return idx;
        }
        i := i + 1;
      }
      forall j | 0 <= j < |items|
        ensures Mastered(mastery.counts, items[j].key)
      {
        CircularCovers(start, |items|, j);
      }
      r := -1;
    }

    /** playerTotal of the current item: its cards' sum, less 10 per ace
        while above 21; none without a current item. */
    method PlayerTotal() returns (r: Option<int>)
      ensures current.None? ==> r == None
      ensures current.Some? ==> r == Some(PlayerTotalOf(current.value.playerCards))
    {
      if current.None? {
        return None;
      }
      var sum := FlashSum(current.value.playerCards);
      var adjAces := AceCount(current.value.playerCards);
      while sum > 21 && adjAces > 0
        invariant ReducePerAce(sum, adjAces) == PlayerTotalOf(current.value.playerCards)
        decreases adjAces
      {
        sum := sum - 10;
        adjAces := adjAces - 1;
      }
      r := Some(sum);
    }

    /** answer as written: records the answer, updates the SRS entry and,
        when correct, raises the mastery count through the service and then
        once more through the component's reference to the same table. */
    method Answer(decision: Decision, now: int, perfNow: real)
      requires Valid()
      modifies this, storage, storage.masteryCache, storage.srsCache
      ensures Valid()
      ensures items == old(items) && index == old(index) && current == old(current)
      ensures storage == old(storage) && mastery == old(mastery) && srs == old(srs)
      ensures startTs == old(startTs) && built == old(built) && storage.ruleSet == old(storage.ruleSet)
      ensures old(current).None? ==>
        && mastery.counts == old(mastery.counts) && srs.entries == old(srs.entries)
        && storage.history == old(storage.history) && feedback == old(feedback)
        && storage.currentStreak == old(storage.currentStreak) && storage.bestStreak == old(storage.bestStreak)
      ensures old(current).Some? ==>
        var item := old(current).value;
        var correct := decision == item.expected;
        && storage.history == old(storage.history) + [FlashEntry(now, item, decision, perfNow - old(startTs))]
        && storage.currentStreak == StreakAfter(old(storage.currentStreak), FlashEntry(now, item, decision, perfNow - old(startTs)))
        && storage.bestStreak == (if storage.currentStreak > old(storage.bestStreak) then storage.currentStreak else old(storage.bestStreak))
        && srs.entries == old(srs.entries)[item.key := NextLegacyEntry(LegacyStart(old(srs.entries), item.key, now), now, correct)]
        && mastery.counts == (if correct then DoubleIncremented(old(mastery.counts), item.key) else old(mastery.counts))
        && feedback == Some(if correct then "Correct" else "Expected " + DecisionName(item.expected))
    {
      if current.None? {
        return;
      }
      var item := current.value;
      var dt := perfNow - startTs;
      var correct := decision == item.expected;
      ghost var entries0, counts0 := srs.entries, mastery.counts;
      feedback := Some(if correct then "Correct" else "Expected " + DecisionName(item.expected));
      storage.RecordSession(FlashEntry(now, item, decision, dt));
      var srsEntry := storage.UpdateSrsOnAnswer(item.key, correct, now);
      srs.entries := srs.entries[item.key := srsEntry];
      assert srs.entries == entries0[item.key := NextLegacyEntry(LegacyStart(entries0, item.key, now), now, correct)];
      assert mastery.counts == counts0;
      if correct {
        storage.IncrementMastery(item.key);
        mastery.counts := mastery.counts[item.key := MasteryCount(mastery.counts, item.key) + 1];
      }
    }

    /** answer with the count raised once: the service's increment already
        reaches the component's table. */
    method AnswerOnce(decision: Decision, now: int, perfNow: real)
      requires Valid()
      modifies this, storage, storage.masteryCache, storage.srsCache
      ensures Valid()
      ensures items == old(items) && index == old(index) && current == old(current)
      ensures storage == old(storage) && mastery == old(mastery) && srs == old(srs)
      ensures startTs == old(startTs) && built == old(built) && storage.ruleSet == old(storage.ruleSet)
      ensures old(current).None? ==>
        && mastery.counts == old(mastery.counts) && srs.entries == old(srs.entries)
        && storage.history == old(storage.history) && feedback == old(feedback)
        && storage.currentStreak == old(storage.currentStreak) && storage.bestStreak == old(storage.bestStreak)
      ensures old(current).Some? ==>
        var item := old(current).value;
        var correct := decision == item.expected;
        && storage.history == old(storage.history) + [FlashEntry(now, item, decision, perfNow - old(startTs))]
        && storage.currentStreak == StreakAfter(old(storage.currentStreak), FlashEntry(now, item, decision, perfNow - old(startTs)))
        && storage.bestStreak == (if storage.currentStreak > old(storage.bestStreak) then storage.currentStreak else old(storage.bestStreak))
        && srs.entries == old(srs.entries)[item.key := NextLegacyEntry(LegacyStart(old(srs.entries), item.key, now), now, correct)]
        && mastery.counts == (if correct then Incremented(old(mastery.counts), item.key) else old(mastery.counts))
        && feedback == Some(if correct then "Correct" else "Expected " + DecisionName(item.expected))
    {
      if current.None? {
        return;
      }
      var item := current.value;
      var dt := perfNow - startTs;
      var correct := decision == item.expected;
      ghost var entries0, counts0 := srs.entries, mastery.counts;
      feedback := Some(if correct then "Correct" else "Expected " + DecisionName(item.expected));
      storage.RecordSession(FlashEntry(now, item, decision, dt));
      var srsEntry := storage.UpdateSrsOnAnswer(item.key, correct, now);
      srs.entries := srs.entries[item.key := srsEntry];
      assert srs.entries == entries0[item.key := NextLegacyEntry(LegacyStart(entries0, item.key, now), now, correct)];
      assert mastery.counts == counts0;
      if correct {
        storage.IncrementMastery(item.key);
      }
    }

    /** The step answer schedules 800 ms later: move to the next unmastered
        item after the current index, or report that all are mastered. */
    method Advance(perfNow: real)
      requires Valid()
      modifies this
      ensures Valid()
      ensures items == old(items) && storage == old(storage) && mastery == old(mastery) && srs == old(srs)
      ensures (forall i :: 0 <= i < |items| ==> Mastered(mastery.counts, items[i].key)) <==>
        feedback == Some("All combinations mastered!")
      ensures built == old(built)
      ensures feedback == None ==>
        && ScanFinds(old(index) + 1, index)
        && current == Some(items[index]) && startTs == perfNow
      ensures feedback != None ==> index == old(index) && current == old(current) && startTs == old(startTs)
    {
      feedback := None;
      var nextIdx := NextUnmasteredIndex(index + 1);
      if nextIdx == -1 {
        feedback := Some("All combinations mastered!");
        return;
      }
      index := nextIdx;
      current := Some(items[index]);
      startTs := perfNow;
    }
  }
}
