/** The basic-strategy tables (strategy.data.ts): a baseline is laid with
    loops and then overwritten cell by cell by the rule-specific overrides.
    `Tables` is the chart written out cell by cell; `BuildStrategy` is the
    builder, proved to produce exactly that chart. */
module StrategyData {

  import opened Models
  import opened Text

  /** One row of a table: dealer up-card value (2..11) to decision. */
  type Row = map<int, Decision>

  datatype StrategyTables = StrategyTables(
    hard: map<int, Row>,
    soft: map<string, Row>,
    pairs: map<string, Row>)

  /** The three flags that select a variant: dealer hits soft 17, late
      surrender, double after split. */
  datatype Variant = Variant(isH17: bool, surrender: bool, das: bool)

  /** The integers lo..hi in ascending order (the source's `for` ranges). */
  function Range(lo: int, hi: int): (r: seq<int>)
    ensures forall d :: d in r <==> lo <= d <= hi
    ensures |r| == if lo <= hi then hi - lo + 1 else 0
    decreases hi - lo
  {
    if lo > hi then [] else [lo] + Range(lo + 1, hi)
  }

  const SoftKeys: seq<string> := ["A2", "A3", "A4", "A5", "A6", "A7", "A8", "A9"]
  const PairKeys: seq<string> := ["2", "3", "4", "5", "6", "7", "8", "9", "10", "A"]

  // ---------------------------------------------------------------------
  // The chart, cell by cell

  function HardCell(v: Variant, t: int, d: int): Decision {
    if t >= 17 then STAND
    else if v.surrender && ((t == 16 && d >= 9) || (t == 15 && d == 10)) then SURRENDER
    else if 13 <= t <= 16 && d <= 6 then STAND
    else if t == 12 && 4 <= d <= 6 then STAND
    else if t == 11 then DOUBLE
    else if t == 10 && d <= 9 then DOUBLE
    else if t == 9 && 3 <= d <= 6 then DOUBLE
    else HIT
  }

  function SoftCell(v: Variant, k: string, d: int): Decision {
    if k == "A2" || k == "A3" then (if 5 <= d <= 6 then DOUBLE else HIT)
    else if k == "A4" || k == "A5" then (if 4 <= d <= 6 then DOUBLE else HIT)
    else if k == "A6" then (if 3 <= d <= 6 || (d == 2 && v.isH17) then DOUBLE else HIT)
    else if k == "A7" then
      (if d == 2 then (if v.isH17 && v.das then DOUBLE else STAND)
       else if d <= 6 then DOUBLE
       else if d <= 8 then STAND
       else HIT)
    else if k == "A8" then (if d == 6 && v.isH17 then DOUBLE else STAND)
    else STAND
  }

  function PairCell(v: Variant, p: string, d: int): Decision {
    if p == "2" || p == "3" || p == "7" then (if d <= 7 then SPLIT else HIT)
    else if p == "4" then (if v.das && 5 <= d <= 6 then SPLIT else HIT)
    else if p == "5" then (if d <= 9 then DOUBLE else HIT)
    else if p == "6" then (if d <= 6 then SPLIT else HIT)
    else if p == "8" || p == "A" then SPLIT
    else if p == "9" then (if d == 7 || d >= 10 then STAND else SPLIT)
    else STAND
  }

  function HardRow(v: Variant, t: int): (r: Row)
    ensures forall d :: d in r <==> 2 <= d <= 11
  {
    map d | 2 <= d <= 11 :: HardCell(v, t, d)
  }

  function SoftRow(v: Variant, k: string): (r: Row)
    ensures forall d :: d in r <==> 2 <= d <= 11
  {
    map d | 2 <= d <= 11 :: SoftCell(v, k, d)
  }

  function PairRow(v: Variant, p: string): (r: Row)
    ensures forall d :: d in r <==> 2 <= d <= 11
  {
    map d | 2 <= d <= 11 :: PairCell(v, p, d)
  }

  /** The tables of one variant: hard 5..21, soft A2..A9, pairs 2..10 and A,
      each row against dealer 2..11. */
  function Tables(v: Variant): StrategyTables {
    StrategyTables(
      map t | 5 <= t <= 21 :: HardRow(v, t),
      map k | k in SoftKeys :: SoftRow(v, k),
      map p | p in PairKeys :: PairRow(v, p))
  }

  /** The flags each key of STRATEGY_DATA is built from. */
  function StrategyDataFlags(): map<string, Variant> {
    map[
      "S17" := Variant(false, false, false),
      "S17_LS" := Variant(false, true, false),
      "S17_DAS" := Variant(false, false, true),
      "S17_LS_DAS" := Variant(false, true, true),
      "H17" := Variant(true, false, false),
      "H17_LS" := Variant(true, true, false),
      "H17_DAS" := Variant(true, false, true),
      "H17_LS_DAS" := Variant(true, true, true)]
  }

  /** STRATEGY_DATA: under each key, buildStrategy of its flags. */
  function StrategyDataMap(): map<string, StrategyTables> {
    map k | k in StrategyDataFlags() :: Tables(StrategyDataFlags()[k])
  }

  // ---------------------------------------------------------------------
  // The builder, loop by loop

  /** buildRow: a row holding `initial` for every dealer value 2..11. */
  method BuildRow(initial: Decision) returns (row: Row)
    ensures forall d :: d in row <==> 2 <= d <= 11
    ensures forall d :: d in row ==> row[d] == initial
  {
    row := map[];
    for d := 2 to 12
      invariant forall e :: e in row <==> 2 <= e < d
      invariant forall e :: e in row ==> row[e] == initial
    {
      row := row[d := initial];
    }
  }

  /** A row after `row[d] = x` has run for every d of ds: the cells of ds
      hold x (added when missing), the others keep their decision. */
  function Repaint(row: Row, ds: seq<int>, x: Decision): (r: Row)
    ensures forall d :: d in r <==> d in row || d in ds
    ensures forall d :: d in r ==> r[d] == if d in ds then x else row[d]
  {
    if ds == [] then row else Repaint(row, ds[..|ds| - 1], x)[ds[|ds| - 1] := x]
  }

  /** The inner override loop: `row[d] = x` for every d of ds, in order. */
  method PaintRow(row: Row, ds: seq<int>, x: Decision) returns (r: Row)
    ensures r == Repaint(row, ds, x)
  {
    r := row;
    for j := 0 to |ds|
      invariant r == Repaint(row, ds[..j], x)
    {
      assert ds[..j + 1] == ds[..j] + [ds[j]];
      r := r[ds[j] := x];
    }
    assert ds[..|ds|] == ds;
  }

  /** A table after an override block: the rows of ks repainted. */
  function Painted<K(==, !new)>(table: map<K, Row>, ks: seq<K>, ds: seq<int>, x: Decision): (r: map<K, Row>)
    ensures forall k :: k in r <==> k in table
    ensures forall k :: k in r ==> r[k] == if k in ks then Repaint(table[k], ds, x) else table[k]
  {
    map k | k in table :: if k in ks then Repaint(table[k], ds, x) else table[k]
  }

  /** An override block: `table[k][d] = x` for every k of ks and d of ds.
      Every k must already have a row, as in the source, where a missing
      row would be a TypeError. */
  method Paint<K(==, !new)>(table: map<K, Row>, ks: seq<K>, ds: seq<int>, x: Decision) returns (r: map<K, Row>)
    requires forall k :: k in ks ==> k in table
    ensures r == Painted(table, ks, ds, x)
  {
    r := table;
    for i := 0 to |ks|
      invariant forall k :: k in r <==> k in table
      invariant forall k :: k in r ==> r[k] == if k in ks[..i] then Repaint(table[k], ds, x) else table[k]
    {
      assert ks[..i + 1] == ks[..i] + [ks[i]];
      var row := PaintRow(r[ks[i]], ds, x);
      if ks[i] in ks[..i] {
        RepaintTwice(table[ks[i]], ds, x);
      }
      r := r[ks[i] := row];
    }
    assert ks[..|ks|] == ks;
  }

  /** Painting the same cells twice is painting them once. */
  lemma RepaintTwice(row: Row, ds: seq<int>, x: Decision)
    ensures Repaint(Repaint(row, ds, x), ds, x) == Repaint(row, ds, x)
  {
    var once := Repaint(row, ds, x);
    assert forall d :: d in Repaint(once, ds, x) <==> d in once;
  }

  /** One override statement of the source: when `enabled` (the rule flag
      guarding it, or true), set these keys against these dealer values to
      this decision. */
  datatype Block<K(==)> = Block(enabled: bool, keys: seq<K>, dealers: seq<int>, decision: Decision) {
    predicate Covers(k: K, d: int) {
      enabled && k in keys && d in dealers
    }
  }

  predicate BlockFits<K(==)>(b: Block<K>, keys: set<K>) {
    && (forall k :: k in b.keys ==> k in keys)
    && (forall d :: d in b.dealers ==> 2 <= d <= 11)
  }

  /** The decision at (k, d) once the blocks have run over a HIT baseline:
      the last block that covers the cell wins. */
  function CellAfter<K(==)>(blocks: seq<Block<K>>, k: K, d: int): Decision {
    if blocks == [] then HIT
    else
      var b := blocks[|blocks| - 1];
      if b.Covers(k, d) then b.decision else CellAfter(blocks[..|blocks| - 1], k, d)
  }

  /** Peeling the last of the first m blocks. */
  lemma CellAfterStep<K>(bs: seq<Block<K>>, m: nat, k: K, d: int)
    requires 1 <= m <= |bs|
    ensures CellAfter(bs[..m], k, d) == if bs[m - 1].Covers(k, d) then bs[m - 1].decision else CellAfter(bs[..m - 1], k, d)
  {
    assert bs[..m][..m - 1] == bs[..m - 1];
  }

  /** `table` has exactly the rows `keys`, each against dealer 2..11, and
      holds what the blocks wrote. */
  ghost predicate After<K(!new)>(table: map<K, Row>, keys: set<K>, blocks: seq<Block<K>>) {
    && table.Keys == keys
    && (forall k, d :: k in table ==> (d in table[k] <==> 2 <= d <= 11))
    && (forall k, d :: k in table && d in table[k] ==> table[k][d] == CellAfter(blocks, k, d))
  }

  /** The baseline loops: `table[k] = buildRow('HIT')` for every key. */
  method Baseline<K(==, !new)>(keys: seq<K>) returns (table: map<K, Row>)
    ensures After(table, (set k | k in keys), [])
  {
    table := map[];
    for i := 0 to |keys|
      invariant After(table, (set k | k in keys[..i]), [])
    {
      assert keys[..i + 1] == keys[..i] + [keys[i]];
      var row := BuildRow(HIT);
      table := table[keys[i] := row];
    }
    assert keys[..|keys|] == keys;
  }

  /** The override statements, run in order. */
  method ApplyBlocks<K(==, !new)>(table: map<K, Row>, keys: set<K>, blocks: seq<Block<K>>) returns (r: map<K, Row>)
    requires After(table, keys, [])
    requires forall i :: 0 <= i < |blocks| ==> BlockFits(blocks[i], keys)
    ensures After(r, keys, blocks)
  {
    r := table;
    for i := 0 to |blocks|
      invariant After(r, keys, blocks[..i])
    {
      assert blocks[..i + 1][..i] == blocks[..i];
      assert BlockFits(blocks[i], keys);
      if blocks[i].enabled {
        r := Paint(r, blocks[i].keys, blocks[i].dealers, blocks[i].decision);
      }
    }
    assert blocks[..|blocks|] == blocks;
  }

  /** The hard overrides in source order: 17-21 stand, 13-16 stand against
      2-6, 12 stands against 4-6, 9/10/11 double, then the surrender cells. */
  function HardBlock(v: Variant, i: int): Block<int> {
    if i == 0 then Block(true, Range(17, 21), Range(2, 11), STAND)
    else if i == 1 then Block(true, Range(13, 16), Range(2, 6), STAND)
    else if i == 2 then Block(true, [12], Range(4, 6), STAND)
    else if i == 3 then Block(true, [9], Range(3, 6), DOUBLE)
    else if i == 4 then Block(true, [10], Range(2, 9), DOUBLE)
    else if i == 5 then Block(true, [11], Range(2, 11), DOUBLE)
    else if i == 6 then Block(v.surrender, [16], [9, 10, 11], SURRENDER)
    else Block(v.surrender, [15], [10], SURRENDER)
  }

  function HardBlocks(v: Variant): (r: seq<Block<int>>)
    ensures |r| == 8 && forall i :: 0 <= i < |r| ==> r[i] == HardBlock(v, i)
  {
    seq(8, i => HardBlock(v, i))
  }

  /** The soft overrides in source order, the H17 deviations last. */
  function SoftBlock(v: Variant, i: int): Block<string> {
    if i == 0 then Block(true, ["A2", "A3"], Range(5, 6), DOUBLE)
    else if i == 1 then Block(true, ["A4", "A5"], Range(4, 6), DOUBLE)
    else if i == 2 then Block(true, ["A6"], Range(3, 6), DOUBLE)
    else if i == 3 then Block(true, ["A7"], [2, 7, 8], STAND)
    else if i == 4 then Block(true, ["A7"], Range(3, 6), DOUBLE)
    else if i == 5 then Block(true, ["A7"], [9, 10, 11], HIT)
    else if i == 6 then Block(true, ["A8", "A9"], Range(2, 11), STAND)
    else if i == 7 then Block(v.isH17, ["A6"], [2], DOUBLE)
    else if i == 8 then Block(v.isH17 && v.das, ["A7"], [2], DOUBLE)
    else Block(v.isH17, ["A8"], [6], DOUBLE)
  }

  function SoftBlocks(v: Variant): (r: seq<Block<string>>)
    ensures |r| == 10 && forall i :: 0 <= i < |r| ==> r[i] == SoftBlock(v, i)
  {
    seq(10, i => SoftBlock(v, i))
  }

  /** The pair overrides in source order; 4,4 only with double after split. */
  function PairBlock(v: Variant, i: int): Block<string> {
    if i == 0 then Block(true, ["2", "3"], Range(2, 7), SPLIT)
    else if i == 1 then Block(v.das, ["4"], Range(5, 6), SPLIT)
    else if i == 2 then Block(true, ["5"], Range(2, 9), DOUBLE)
    else if i == 3 then Block(true, ["6"], Range(2, 6), SPLIT)
    else if i == 4 then Block(true, ["7"], Range(2, 7), SPLIT)
    else if i == 5 then Block(true, ["8"], Range(2, 11), SPLIT)
    else if i == 6 then Block(true, ["9"], Range(2, 6), SPLIT)
    else if i == 7 then Block(true, ["9"], [8, 9], SPLIT)
    else if i == 8 then Block(true, ["9"], [7, 10, 11], STAND)
    else if i == 9 then Block(true, ["10"], Range(2, 11), STAND)
    else Block(true, ["A"], Range(2, 11), SPLIT)
  }

  function PairBlocks(v: Variant): (r: seq<Block<string>>)
    ensures |r| == 11 && forall i :: 0 <= i < |r| ==> r[i] == PairBlock(v, i)
  {
    seq(11, i => PairBlock(v, i))
  }

  /** The hard table: baseline HIT for 5..21, then the overrides. */
  method BuildHard(v: Variant) returns (hard: map<int, Row>)
    ensures hard == Tables(v).hard
  {
    hard := Baseline(Range(5, 21));
    HardBlocksFit(v);
    hard := ApplyBlocks(hard, (set k | k in Range(5, 21)), HardBlocks(v));
    HardExtensional(hard, v);
  }

  /** The soft table: baseline HIT for A2..A9, then the overrides. */
  method BuildSoft(v: Variant) returns (soft: map<string, Row>)
    ensures soft == Tables(v).soft
  {
    soft := Baseline(SoftKeys);
    SoftBlocksFit(v);
    soft := ApplyBlocks(soft, (set k | k in SoftKeys), SoftBlocks(v));
    SoftExtensional(soft, v);
  }

  /** The pairs table: baseline HIT for 2..10 and A, then the overrides. */
  method BuildPairs(v: Variant) returns (pairs: map<string, Row>)
    ensures pairs == Tables(v).pairs
  {
    pairs := Baseline(PairKeys);
    PairBlocksFit(v);
    pairs := ApplyBlocks(pairs, (set k | k in PairKeys), PairBlocks(v));
    PairsExtensional(pairs, v);
  }

  lemma HardBlocksFit(v: Variant)
    ensures forall i :: 0 <= i < |HardBlocks(v)| ==> BlockFits(HardBlocks(v)[i], set k | k in Range(5, 21))
  {
  }

  lemma SoftBlocksFit(v: Variant)
    ensures forall i :: 0 <= i < |SoftBlocks(v)| ==> BlockFits(SoftBlocks(v)[i], set k | k in SoftKeys)
  {
  }

  lemma PairBlocksFit(v: Variant)
    ensures forall i :: 0 <= i < |PairBlocks(v)| ==> BlockFits(PairBlocks(v)[i], set k | k in PairKeys)
  {
  }

  lemma HardExtensional(hard: map<int, Row>, v: Variant)
    requires After(hard, (set k | k in Range(5, 21)), HardBlocks(v))
    ensures hard == Tables(v).hard
  {
    forall u | u in hard ensures hard[u] == HardRow(v, u) {
      forall d | 2 <= d <= 11 ensures hard[u][d] == HardCell(v, u, d) {
        HardBlocksAgree(v, u, d);
      }
      assert forall d :: d in hard[u] <==> d in HardRow(v, u);
    }
    assert forall u :: u in hard <==> u in Tables(v).hard;
  }

  lemma SoftExtensional(soft: map<string, Row>, v: Variant)
    requires After(soft, (set k | k in SoftKeys), SoftBlocks(v))
    ensures soft == Tables(v).soft
  {
    forall k | k in soft ensures soft[k] == SoftRow(v, k) {
      forall d | 2 <= d <= 11 ensures soft[k][d] == SoftCell(v, k, d) {
        SoftBlocksAgree(v, k, d);
      }
      assert forall d :: d in soft[k] <==> d in SoftRow(v, k);
    }
    assert forall k :: k in soft <==> k in Tables(v).soft;
  }

  lemma PairsExtensional(pairs: map<string, Row>, v: Variant)
    requires After(pairs, (set k | k in PairKeys), PairBlocks(v))
    ensures pairs == Tables(v).pairs
  {
    forall k | k in pairs ensures pairs[k] == PairRow(v, k) {
      forall d | 2 <= d <= 11 ensures pairs[k][d] == PairCell(v, k, d) {
        PairBlocksAgree(v, k, d);
      }
      assert forall d :: d in pairs[k] <==> d in PairRow(v, k);
    }
    assert forall k :: k in pairs <==> k in Tables(v).pairs;
  }

  /** Running the hard blocks gives the hard chart. */
  lemma HardBlocksAgree(v: Variant, t: int, d: int)
    requires 5 <= t <= 21 && 2 <= d <= 11
    ensures CellAfter(HardBlocks(v), t, d) == HardCell(v, t, d)
  {
    var bs := HardBlocks(v);
    for m := 0 to |bs|
      invariant CellAfter(bs[..m], t, d) == HardStage(v, m, t, d)
    {
      HardStep(v, m + 1, t, d);
    }
    assert bs[..|bs|] == bs;
    HardStageComplete(v, t, d);
  }

  /** Once all 8 blocks have run, the stage is the chart. */
  lemma HardStageComplete(v: Variant, t: int, d: int)
    requires 5 <= t <= 21 && 2 <= d <= 11
    ensures HardStage(v, 8, t, d) == HardCell(v, t, d)
  {
  }

  /** Block m takes stage m - 1 of the hard table to stage m. */
  lemma HardStep(v: Variant, m: nat, t: int, d: int)
    requires 1 <= m <= |HardBlocks(v)| && 5 <= t <= 21 && 2 <= d <= 11
    requires CellAfter(HardBlocks(v)[..m - 1], t, d) == HardStage(v, m - 1, t, d)
    ensures CellAfter(HardBlocks(v)[..m], t, d) == HardStage(v, m, t, d)
  {
    CellAfterStep(HardBlocks(v), m, t, d);
    if m <= 4 {
      HardStepLow(v, m, t, d);
    } else {
      HardStepHigh(v, m, t, d);
    }
  }

  lemma HardStepLow(v: Variant, m: nat, t: int, d: int)
    requires 1 <= m <= 4 && 5 <= t <= 21 && 2 <= d <= 11
    ensures HardStage(v, m, t, d) ==
      if HardBlock(v, m - 1).Covers(t, d) then HardBlock(v, m - 1).decision else HardStage(v, m - 1, t, d)
  {
    if m == 1 {
    } else if m == 2 {
    } else if m == 3 {
    } else if m == 4 {
    }
  }

  lemma HardStepHigh(v: Variant, m: nat, t: int, d: int)
    requires 5 <= m <= 8 && 5 <= t <= 21 && 2 <= d <= 11
    ensures HardStage(v, m, t, d) ==
      if HardBlock(v, m - 1).Covers(t, d) then HardBlock(v, m - 1).decision else HardStage(v, m - 1, t, d)
  {
    if m == 5 {
    } else if m == 6 {
    } else if m == 7 {
    } else if m == 8 {
    }
  }

  /** The hard cells once the first n blocks have run; the hard blocks touch disjoint cells. */
  ghost function HardStage(v: Variant, n: nat, t: int, d: int): Decision {
    if n >= 1 && t >= 17 then STAND
    else if n >= 2 && 13 <= t <= 16 && d <= 6 then STAND
    else if n >= 3 && t == 12 && 4 <= d <= 6 then STAND
    else if n >= 4 && t == 9 && 3 <= d <= 6 then DOUBLE
    else if n >= 5 && t == 10 && d <= 9 then DOUBLE
    else if n >= 6 && t == 11 then DOUBLE
    else if n >= 7 && v.surrender && t == 16 && d >= 9 then SURRENDER
    else if n >= 8 && v.surrender && t == 15 && d == 10 then SURRENDER
    else HIT
  }

  /** Running the soft blocks gives the soft chart. */
  lemma SoftBlocksAgree(v: Variant, k: string, d: int)
    requires k in SoftKeys && 2 <= d <= 11
    ensures CellAfter(SoftBlocks(v), k, d) == SoftCell(v, k, d)
  {
    var bs := SoftBlocks(v);
    for m := 0 to |bs|
      invariant CellAfter(bs[..m], k, d) == SoftStage(v, m, k, d)
    {
      SoftStep(v, m + 1, k, d);
    }
    assert bs[..|bs|] == bs;
    SoftStageComplete(v, k, d);
  }

  /** Once all 10 blocks have run, the stage is the chart. */
  lemma SoftStageComplete(v: Variant, k: string, d: int)
    requires k in SoftKeys && 2 <= d <= 11
    ensures SoftStage(v, 10, k, d) == SoftCell(v, k, d)
  {
  }

  /** Block m takes stage m - 1 of the soft table to stage m. */
  lemma SoftStep(v: Variant, m: nat, k: string, d: int)
    requires 1 <= m <= |SoftBlocks(v)| && 2 <= d <= 11
    requires CellAfter(SoftBlocks(v)[..m - 1], k, d) == SoftStage(v, m - 1, k, d)
    ensures CellAfter(SoftBlocks(v)[..m], k, d) == SoftStage(v, m, k, d)
  {
    CellAfterStep(SoftBlocks(v), m, k, d);
    if m <= 4 {
      SoftStepLow(v, m, k, d);
    } else if m <= 7 {
      SoftStepMiddle(v, m, k, d);
    } else {
      SoftStepHigh(v, m, k, d);
    }
  }

  lemma SoftStepLow(v: Variant, m: nat, k: string, d: int)
    requires 1 <= m <= 4 && 2 <= d <= 11
    ensures SoftStage(v, m, k, d) ==
      if SoftBlock(v, m - 1).Covers(k, d) then SoftBlock(v, m - 1).decision else SoftStage(v, m - 1, k, d)
  {
    if m == 1 {
    } else if m == 2 {
    } else if m == 3 {
    } else if m == 4 {
    }
  }

  lemma SoftStepMiddle(v: Variant, m: nat, k: string, d: int)
    requires 5 <= m <= 7 && 2 <= d <= 11
    ensures SoftStage(v, m, k, d) ==
      if SoftBlock(v, m - 1).Covers(k, d) then SoftBlock(v, m - 1).decision else SoftStage(v, m - 1, k, d)
  {
    if m == 5 {
    } else if m == 6 {
    } else if m == 7 {
    }
  }

  lemma SoftStepHigh(v: Variant, m: nat, k: string, d: int)
    requires 8 <= m <= 10 && 2 <= d <= 11
    ensures SoftStage(v, m, k, d) ==
      if SoftBlock(v, m - 1).Covers(k, d) then SoftBlock(v, m - 1).decision else SoftStage(v, m - 1, k, d)
  {
    if m == 8 {
    } else if m == 9 {
    } else if m == 10 {
    }
  }

  /** The soft cells once the first n blocks have run; only the H17 blocks (8 to 10) overwrite earlier ones. */
  ghost function SoftStage(v: Variant, n: nat, k: string, d: int): Decision {
    if n >= 10 && v.isH17 && k == "A8" && d == 6 then DOUBLE
    else if n >= 9 && v.isH17 && v.das && k == "A7" && d == 2 then DOUBLE
    else if n >= 8 && v.isH17 && k == "A6" && d == 2 then DOUBLE
    else if n >= 1 && (k == "A2" || k == "A3") && 5 <= d <= 6 then DOUBLE
    else if n >= 2 && (k == "A4" || k == "A5") && 4 <= d <= 6 then DOUBLE
    else if n >= 3 && k == "A6" && 3 <= d <= 6 then DOUBLE
    else if n >= 4 && k == "A7" && (d == 2 || d == 7 || d == 8) then STAND
    else if n >= 5 && k == "A7" && 3 <= d <= 6 then DOUBLE
    else if n >= 6 && k == "A7" && 9 <= d then HIT
    else if n >= 7 && (k == "A8" || k == "A9") then STAND
    else HIT
  }

  /** Running the pair blocks gives the pair chart. */
  lemma PairBlocksAgree(v: Variant, p: string, d: int)
    requires p in PairKeys && 2 <= d <= 11
    ensures CellAfter(PairBlocks(v), p, d) == PairCell(v, p, d)
  {
    var bs := PairBlocks(v);
    for m := 0 to |bs|
      invariant CellAfter(bs[..m], p, d) == PairStage(v, m, p, d)
    {
      PairStep(v, m + 1, p, d);
    }
    assert bs[..|bs|] == bs;
    PairStageComplete(v, p, d);
  }

  /** Once all 11 blocks have run, the stage is the chart. */
  lemma PairStageComplete(v: Variant, p: string, d: int)
    requires p in PairKeys && 2 <= d <= 11
    ensures PairStage(v, 11, p, d) == PairCell(v, p, d)
  {
  }

  /** Block m takes stage m - 1 of the pair table to stage m. */
  lemma PairStep(v: Variant, m: nat, p: string, d: int)
    requires 1 <= m <= |PairBlocks(v)| && 2 <= d <= 11
    requires CellAfter(PairBlocks(v)[..m - 1], p, d) == PairStage(v, m - 1, p, d)
    ensures CellAfter(PairBlocks(v)[..m], p, d) == PairStage(v, m, p, d)
  {
    CellAfterStep(PairBlocks(v), m, p, d);
    if m <= 5 {
      PairStepLow(v, m, p, d);
    } else if m <= 8 {
      PairStepMiddle(v, m, p, d);
    } else {
      PairStepHigh(v, m, p, d);
    }
  }

  lemma PairStepLow(v: Variant, m: nat, p: string, d: int)
    requires 1 <= m <= 5 && 2 <= d <= 11
    ensures PairStage(v, m, p, d) ==
      if PairBlock(v, m - 1).Covers(p, d) then PairBlock(v, m - 1).decision else PairStage(v, m - 1, p, d)
  {
    if m == 1 {
    } else if m == 2 {
    } else if m == 3 {
    } else if m == 4 {
    } else if m == 5 {
    }
  }

  lemma PairStepMiddle(v: Variant, m: nat, p: string, d: int)
    requires 6 <= m <= 8 && 2 <= d <= 11
    ensures PairStage(v, m, p, d) ==
      if PairBlock(v, m - 1).Covers(p, d) then PairBlock(v, m - 1).decision else PairStage(v, m - 1, p, d)
  {
    if m == 6 {
    } else if m == 7 {
    } else if m == 8 {
    }
  }

  lemma PairStepHigh(v: Variant, m: nat, p: string, d: int)
    requires 9 <= m <= 11 && 2 <= d <= 11
    ensures PairStage(v, m, p, d) ==
      if PairBlock(v, m - 1).Covers(p, d) then PairBlock(v, m - 1).decision else PairStage(v, m - 1, p, d)
  {
    if m == 9 {
    } else if m == 10 {
    } else if m == 11 {
    }
  }

  /** The pair cells once the first n blocks have run; the pair blocks touch disjoint cells. */
  ghost function PairStage(v: Variant, n: nat, p: string, d: int): Decision {
    if n >= 1 && (p == "2" || p == "3") && d <= 7 then SPLIT
    else if n >= 2 && v.das && p == "4" && 5 <= d <= 6 then SPLIT
    else if n >= 3 && p == "5" && d <= 9 then DOUBLE
    else if n >= 4 && p == "6" && d <= 6 then SPLIT
    else if n >= 5 && p == "7" && d <= 7 then SPLIT
    else if n >= 6 && p == "8" then SPLIT
    else if n >= 7 && p == "9" && d <= 6 then SPLIT
    else if n >= 8 && p == "9" && 8 <= d <= 9 then SPLIT
    else if n >= 9 && p == "9" && (d == 7 || d >= 10) then STAND
    else if n >= 10 && p == "10" then STAND
    else if n >= 11 && p == "A" then SPLIT
    else HIT
  }

  /** buildStrategy(isH17, surrender, das). */
  method BuildStrategy(isH17: bool, surrender: bool, das: bool) returns (tables: StrategyTables)
    ensures tables == Tables(Variant(isH17, surrender, das))
  {
    var v := Variant(isH17, surrender, das);
    var hard := BuildHard(v);
    var soft := BuildSoft(v);
    var pairs := BuildPairs(v);
    tables := StrategyTables(hard, soft, pairs);
  }

  // ---------------------------------------------------------------------
  // Facts about every variant

  /** Every row covers exactly the dealer values 2..11; the hard rows are
      5..21, the soft keys A2..A9 and the pair keys 2..10 and A. */
  lemma TablesShape(v: Variant)
    ensures forall t :: t in Tables(v).hard <==> 5 <= t <= 21
    ensures Tables(v).soft.Keys == set k | k in SoftKeys
    ensures Tables(v).pairs.Keys == set p | p in PairKeys
    ensures forall t, d :: t in Tables(v).hard ==> (d in Tables(v).hard[t] <==> 2 <= d <= 11)
    ensures forall k, d :: k in Tables(v).soft ==> (d in Tables(v).soft[k] <==> 2 <= d <= 11)
    ensures forall p, d :: p in Tables(v).pairs ==> (d in Tables(v).pairs[p] <==> 2 <= d <= 11)
  {
  }

  /** Hard 17 to 21 stands against every dealer card, in every variant. */
  lemma HardSeventeenUpStands(v: Variant, t: int, d: int)
    requires 17 <= t <= 21 && 2 <= d <= 11
    ensures Tables(v).hard[t][d] == STAND
  {
  }

  /** SURRENDER appears only under late surrender, and then exactly at hard
      16 against 9, 10, A and hard 15 against 10; never in the soft or
      pairs tables. */
  lemma SurrenderOnlyUnderLateSurrender(v: Variant)
    ensures forall t, d :: t in Tables(v).hard && d in Tables(v).hard[t] ==>
      (Tables(v).hard[t][d] == SURRENDER <==> v.surrender && ((t == 16 && 9 <= d <= 11) || (t == 15 && d == 10)))
    ensures forall k, d :: k in Tables(v).soft && d in Tables(v).soft[k] ==> Tables(v).soft[k][d] != SURRENDER
    ensures forall p, d :: p in Tables(v).pairs && d in Tables(v).pairs[p] ==> Tables(v).pairs[p][d] != SURRENDER
  {
    HardSurrenders(v);
    SoftNeverSurrenders(v);
    PairsNeverSurrender(v);
  }

  lemma HardSurrenders(v: Variant)
    ensures forall t, d :: t in Tables(v).hard && d in Tables(v).hard[t] ==>
      (Tables(v).hard[t][d] == SURRENDER <==> v.surrender && ((t == 16 && 9 <= d <= 11) || (t == 15 && d == 10)))
  {
  }

  lemma SoftNeverSurrenders(v: Variant)
    ensures forall k, d :: k in Tables(v).soft && d in Tables(v).soft[k] ==> Tables(v).soft[k][d] != SURRENDER
  {
  }

  lemma PairsNeverSurrender(v: Variant)
    ensures forall p, d :: p in Tables(v).pairs && d in Tables(v).pairs[p] ==> Tables(v).pairs[p][d] != SURRENDER
  {
  }

  /** The hit-soft-17 deviations: A6 doubles against 2 and A8 doubles
      against 6 exactly under H17; otherwise they hit and stand. */
  lemma HitSoft17Overrides(v: Variant)
    ensures Tables(v).soft["A6"][2] == if v.isH17 then DOUBLE else HIT
    ensures Tables(v).soft["A8"][6] == if v.isH17 then DOUBLE else STAND
  {
  }

  /** A7 against 2 doubles only when both H17 and double after split hold,
      and stands otherwise; A7 against 9, 10, A always hits. */
  lemma SoftEighteenRow(v: Variant)
    ensures Tables(v).soft["A7"][2] == if v.isH17 && v.das then DOUBLE else STAND
    ensures forall d :: 9 <= d <= 11 ==> Tables(v).soft["A7"][d] == HIT
  {
  }

  /** 4,4 against 5 and 6 splits exactly when doubling after a split is
      allowed, and hits otherwise. */
  lemma FoursSplitOnlyWithDas(v: Variant, d: int)
    requires 5 <= d <= 6
    ensures Tables(v).pairs["4"][d] == if v.das then SPLIT else HIT
  {
  }

  /** SPLIT is found only in the pairs table. */
  lemma SplitOnlyInPairs(v: Variant)
    ensures forall t, d :: t in Tables(v).hard && d in Tables(v).hard[t] ==> Tables(v).hard[t][d] != SPLIT
    ensures forall k, d :: k in Tables(v).soft && d in Tables(v).soft[k] ==> Tables(v).soft[k][d] != SPLIT
  {
    HardNeverSplits(v);
    SoftNeverSplits(v);
  }

  lemma HardNeverSplits(v: Variant)
    ensures forall t, d :: t in Tables(v).hard && d in Tables(v).hard[t] ==> Tables(v).hard[t][d] != SPLIT
  {
  }

  lemma SoftNeverSplits(v: Variant)
    ensures forall k, d :: k in Tables(v).soft && d in Tables(v).soft[k] ==> Tables(v).soft[k][d] != SPLIT
  {
  }

  /** Eights and aces always split. */
  lemma SplitRows(v: Variant, d: int)
    requires 2 <= d <= 11
    ensures Tables(v).pairs["8"][d] == SPLIT && Tables(v).pairs["A"][d] == SPLIT
  {
  }

  /** Tens always stand. */
  lemma TensStand(v: Variant, d: int)
    requires 2 <= d <= 11
    ensures Tables(v).pairs["10"][d] == STAND
  {
  }

  /** 5,5 doubles against 2..9, like hard 10. */
  lemma FivesDouble(v: Variant, d: int)
    requires 2 <= d <= 9
    ensures Tables(v).pairs["5"][d] == DOUBLE
  {
  }

  /** The keys of STRATEGY_DATA: the H17/S17 prefix with optional _LS and
      _DAS suffixes. */
  const VariantKeys: set<string> :=
    {"S17", "S17_LS", "S17_DAS", "S17_LS_DAS", "H17", "H17_LS", "H17_DAS", "H17_LS_DAS"}

  lemma StrategyDataKeys()
    ensures StrategyDataMap().Keys == VariantKeys
  {
  }

  lemma VariantKeysCount()
    ensures |VariantKeys| == 8
  {
  }

  /** STRATEGY_DATA has exactly eight keys. */
  lemma StrategyDataHasEightVariants()
    ensures StrategyDataMap().Keys == VariantKeys
    ensures |StrategyDataMap().Keys| == 8
  {
    StrategyDataKeys();
    VariantKeysCount();
  }
}
