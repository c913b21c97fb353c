/** The strategy chart page (strategy-chart.component.ts): the tables of the
    selected rule variant, with consecutive hard totals whose rows agree
    against every dealer card merged into one displayed row. */
module StrategyChart {

  import opened Options
  import opened Models
  import opened Text
  import opened StrategyData
  import opened StrategyDataService

  /** The dealer up-cards of the chart's columns. */
  const DealerValues: seq<int> := [2, 3, 4, 5, 6, 7, 8, 9, 10, 11]

  // ---------------------------------------------------------------------
  // Row signatures

  /** `row[d]`, absent standing for `undefined`. */
  function CellAt(row: Row, d: int): Option<Decision> {
    if d in row then Some(row[d]) else None
  }

  /** A cell as Array.prototype.join writes it: undefined as "". */
  function CellName(c: Option<Decision>): string {
    match c
    case None => ""
    case Some(x) => DecisionName(x)
  }

  /** Two rows agree against every dealer card of the chart. */
  predicate SameCells(r1: Row, r2: Row) {
    forall d :: 2 <= d <= 11 ==> CellAt(r1, d) == CellAt(r2, d)
  }

  function SigNames(row: Row): (r: seq<string>)
    ensures |r| == |DealerValues|
  {
    seq(|DealerValues|, i requires 0 <= i < |DealerValues| => CellName(CellAt(row, DealerValues[i])))
  }

  /** The signature the source compares rows by: the cells against dealer
      2..11 joined with '|'. */
  function Sig(row: Row): string {
    Join(SigNames(row), '|')
  }

  lemma CellNameInjective(a: Option<Decision>, b: Option<Decision>)
    ensures CellName(a) == CellName(b) ==> a == b
    ensures '|' !in CellName(a)
  {
  }

  /** Signatures are equal exactly when the rows agree on every dealer card:
      no cell name holds the separator, so the join loses nothing. */
  lemma SigAgrees(r1: Row, r2: Row)
    ensures Sig(r1) == Sig(r2) <==> SameCells(r1, r2)
  {
    var n1, n2 := SigNames(r1), SigNames(r2);
    forall i | 0 <= i < |DealerValues|
      ensures DealerValues[i] == i + 2
    {
    }
    if SameCells(r1, r2) {
      assert n1 == n2;
    }
    if Sig(r1) == Sig(r2) {
      forall i | 0 <= i < |DealerValues|
        ensures '|' !in n1[i] && '|' !in n2[i]
      {
        CellNameInjective(CellAt(r1, DealerValues[i]), CellAt(r2, DealerValues[i]));
        CellNameInjective(CellAt(r2, DealerValues[i]), CellAt(r1, DealerValues[i]));
      }
      SplitOfJoin(n1, '|');
      SplitOfJoin(n2, '|');
      forall d | 2 <= d <= 11
        ensures CellAt(r1, d) == CellAt(r2, d)
      {
        assert n1[d - 2] == n2[d - 2];
        CellNameInjective(CellAt(r1, d), CellAt(r2, d));
      }
    }
  }

  // ---------------------------------------------------------------------
  // rebuildHardGroups

  /** ts lists, in ascending order, the hard totals 5..hi that have a row. */
  ghost predicate ListsPresent(hard: map<int, Row>, ts: seq<int>, hi: int) {
    (forall t :: t in ts <==> 5 <= t <= hi && t in hard)
    && forall i, j :: 0 <= i < j < |ts| ==> ts[i] < ts[j]
  }

  lemma ListsPresentStep(hard: map<int, Row>, ts: seq<int>, t: int)
    requires t >= 5 && ListsPresent(hard, ts, t - 1)
    ensures ListsPresent(hard, ts + (if t in hard then [t] else []), t)
  {
    var r := ts + (if t in hard then [t] else []);
    forall x
      ensures x in r <==> 5 <= x <= t && x in hard
    {
      assert x in r <==> x in ts || (t in hard && x == t);
    }
    forall i, j | 0 <= i < j < |r|
      ensures r[i] < r[j]
    {
      assert r[i] == ts[i] && ts[i] in ts;
    }
  }

  /** A group being built: its totals and their common signature. */
  datatype Group = Group(totals: seq<int>, sig: string)

  /** The totals of the groups, in order. */
  function GroupTotals(gs: seq<Group>): seq<int> {
    if gs == [] then [] else GroupTotals(gs[..|gs| - 1]) + gs[|gs| - 1].totals
  }

  /** A non-empty group whose totals all have a row with the group's signature. */
  predicate WellGrouped(hard: map<int, Row>, g: Group) {
    |g.totals| > 0
    && forall j :: 0 <= j < |g.totals| ==> g.totals[j] in hard && Sig(hard[g.totals[j]]) == g.sig
  }

  /** Every group is well formed and neighbouring groups differ. */
  ghost predicate GroupedBy(hard: map<int, Row>, groups: seq<Group>) {
    (forall i :: 0 <= i < |groups| ==> WellGrouped(hard, groups[i]))
    && forall i :: 0 < i < |groups| ==> groups[i - 1].sig != groups[i].sig
  }

  /** Appending a total of the last group's signature to that group. */
  lemma MergeKeepsGrouped(hard: map<int, Row>, groups: seq<Group>, t: int)
    requires GroupedBy(hard, groups) && |groups| > 0
    requires t in hard && Sig(hard[t]) == groups[|groups| - 1].sig
    ensures var last := groups[|groups| - 1];
      GroupedBy(hard, groups[..|groups| - 1] + [Group(last.totals + [t], last.sig)])
  {
    var last := groups[|groups| - 1];
    var g := Group(last.totals + [t], last.sig);
    assert WellGrouped(hard, last);
    assert WellGrouped(hard, g);
  }

  /** Opening a new group for a total whose signature differs from the last. */
  lemma OpenKeepsGrouped(hard: map<int, Row>, groups: seq<Group>, t: int)
    requires GroupedBy(hard, groups) && t in hard
    requires |groups| > 0 ==> groups[|groups| - 1].sig != Sig(hard[t])
    ensures GroupedBy(hard, groups + [Group([t], Sig(hard[t]))])
  {
  }

  /** The loop of rebuildHardGroups: totals 5..21 with a row, in order, each
      appended to the last group when its signature matches, else opening a
      new group. The groups concatenate to the totals present, each holds
      totals of one signature, and neighbours differ. */
  method GroupHardRows(hard: map<int, Row>) returns (groups: seq<Group>)
    ensures ListsPresent(hard, GroupTotals(groups), 21)
    ensures GroupedBy(hard, groups)
  {
    groups := [];
    for t := 5 to 22
      invariant ListsPresent(hard, GroupTotals(groups), t - 1)
      invariant GroupedBy(hard, groups)
    {
      ghost var before := GroupTotals(groups);
      ListsPresentStep(hard, before, t);
      if t !in hard {
        continue;
      }
      var row := hard[t];
      var sig := Sig(row);
      if |groups| > 0 && groups[|groups| - 1].sig == sig {
        var last := groups[|groups| - 1];
        var front := groups[..|groups| - 1];
        MergeKeepsGrouped(hard, groups, t);
        groups := front + [Group(last.totals + [t], sig)];
        assert groups[..|groups| - 1] == front;
        assert GroupTotals(groups) == GroupTotals(front) + last.totals + [t];
      } else {
        var prior := groups;
        OpenKeepsGrouped(hard, groups, t);
        groups := groups + [Group([t], sig)];
        assert groups[..|groups| - 1] == prior;
      }
      assert GroupTotals(groups) == before + [t];
    }
  }

  /** A displayed row: its label (`label` in the source) and the totals it
      stands for. */
  datatype HardRow = HardRow(rowLabel: string, totals: seq<int>)

  /** "first-last" for several totals, the single total otherwise. */
  function Label(totals: seq<int>): string
    requires |totals| > 0
  {
    if |totals| > 1 then IntToString(totals[0]) + "-" + IntToString(totals[|totals| - 1])
    else IntToString(totals[0])
  }

  /** A label names its row's first and last totals: split at '-', the
      first piece reads back as the first total and the last piece as the
      last one, and there are two pieces exactly when the row has several
      totals. */
  lemma LabelEnds(totals: seq<int>)
    requires |totals| > 0 && totals[0] >= 0 && totals[|totals| - 1] >= 0
    ensures var parts := Split(Label(totals), '-');
      (|parts| == 2 <==> |totals| > 1) && (|parts| == 1 <==> |totals| == 1)
      && ParseInt(parts[0]) == Some(totals[0])
      && ParseInt(parts[|parts| - 1]) == Some(totals[|totals| - 1])
  {
    var first, last := IntToString(totals[0]), IntToString(totals[|totals| - 1]);
    NoMinusInNumeral(totals[0]);
    NoMinusInNumeral(totals[|totals| - 1]);
    ParseIntOfIntToString(totals[0]);
    ParseIntOfIntToString(totals[|totals| - 1]);
    if |totals| > 1 {
      SplitJoin(first, '-', last);
    }
  }

  /** The display rows of the groups (the `groups.map` of the source). */
  function Labelled(groups: seq<Group>): (rows: seq<HardRow>)
    requires forall i :: 0 <= i < |groups| ==> |groups[i].totals| > 0
    ensures |rows| == |groups|
  {
    seq(|groups|, i requires 0 <= i < |groups| => HardRow(Label(groups[i].totals), groups[i].totals))
  }

  /** The totals of the display rows, in order. */
  function RowTotals(rows: seq<HardRow>): seq<int> {
    if rows == [] then [] else RowTotals(rows[..|rows| - 1]) + rows[|rows| - 1].totals
  }

  /** What the hard chart shows of a table: rows that together list the
      totals present in 5..21 in ascending order, each labelled by its
      ends, each standing for totals whose table rows agree on every dealer
      card, and no two neighbours that could have been merged. */
  ghost predicate Displays(hard: map<int, Row>, rows: seq<HardRow>) {
    ListsPresent(hard, RowTotals(rows), 21)
    && (forall i :: 0 <= i < |rows| ==> DisplayRowFits(hard, rows[i]))
    && (forall i :: 0 < i < |rows| ==>
          !SameCells(hard[rows[i - 1].totals[0]], hard[rows[i].totals[0]]))
  }

  predicate DisplayRowFits(hard: map<int, Row>, row: HardRow) {
    |row.totals| > 0 && row.rowLabel == Label(row.totals) && row.totals[0] in hard
    && forall j :: 0 <= j < |row.totals| ==>
         row.totals[j] in hard && SameCells(hard[row.totals[j]], hard[row.totals[0]])
  }

  lemma {:induction false} RowTotalsOfLabelled(groups: seq<Group>)
    requires forall i :: 0 <= i < |groups| ==> |groups[i].totals| > 0
    ensures RowTotals(Labelled(groups)) == GroupTotals(groups)
  {
    if groups != [] {
      var front := groups[..|groups| - 1];
      RowTotalsOfLabelled(front);
      assert Labelled(groups)[..|groups| - 1] == Labelled(front);
    }
  }

  /** The groups the loop builds display as the chart promises. */
  lemma DisplayOfGroups(hard: map<int, Row>, groups: seq<Group>)
    requires ListsPresent(hard, GroupTotals(groups), 21)
    requires forall i :: 0 <= i < |groups| ==> |groups[i].totals| > 0
    requires GroupedBy(hard, groups)
    ensures Displays(hard, Labelled(groups))
  {
    var rows := Labelled(groups);
    RowTotalsOfLabelled(groups);
    forall i | 0 <= i < |rows|
      ensures DisplayRowFits(hard, rows[i])
    {
      var g := groups[i];
      forall j | 0 <= j < |g.totals|
        ensures SameCells(hard[g.totals[j]], hard[g.totals[0]])
      {
        SigAgrees(hard[g.totals[j]], hard[g.totals[0]]);
      }
    }
    forall i | 0 < i < |rows|
      ensures !SameCells(hard[rows[i - 1].totals[0]], hard[rows[i].totals[0]])
    {
      SigAgrees(hard[groups[i - 1].totals[0]], hard[groups[i].totals[0]]);
    }
  }

  // ---------------------------------------------------------------------
  // decisionFor and abbr

  /** What a hard cell of the chart shows: '?' when none of the row's
      totals has a table row, else `hard[t][dealer]` for the first total t
      that has one (None standing for `undefined`). */
  datatype Shown = Unknown | Shown(cell: Option<Decision>)

  /** The row's totals that have a table row, in order (the filter). */
  function Kept(hard: map<int, Row>, totals: seq<int>): (r: seq<int>)
    ensures forall t :: t in r <==> t in totals && t in hard
  {
    if totals == [] then []
    else (if totals[0] in hard then [totals[0]] else []) + Kept(hard, totals[1..])
  }

  function DecisionFor(hard: map<int, Row>, totals: seq<int>, dealer: int): (r: Shown)
    ensures r == Unknown <==> forall j :: 0 <= j < |totals| ==> totals[j] !in hard
  {
    var present := Kept(hard, totals);
    if |present| == 0 then Unknown
    else
      assert present[0] in present;
      Shown(CellAt(hard[present[0]], dealer))
  }

  lemma {:induction false} KeptFirst(hard: map<int, Row>, totals: seq<int>, i: int)
    requires 0 <= i < |totals| && totals[i] in hard
    requires forall j :: 0 <= j < i ==> totals[j] !in hard
    ensures |Kept(hard, totals)| > 0 && Kept(hard, totals)[0] == totals[i]
  {
    if i > 0 {
      KeptFirst(hard, totals[1..], i - 1);
    }
  }

  /** decisionFor shows the cell of the first total that has a table row. */
  lemma DecisionForFirst(hard: map<int, Row>, totals: seq<int>, dealer: int, i: int)
    requires 0 <= i < |totals| && totals[i] in hard
    requires forall j :: 0 <= j < i ==> totals[j] !in hard
    ensures DecisionFor(hard, totals, dealer) == Shown(CellAt(hard[totals[i]], dealer))
  {
    KeptFirst(hard, totals, i);
  }

  /** A displayed row shows, against every dealer card, the decision of
      each total it stands for. */
  lemma RowShowsEveryTotal(hard: map<int, Row>, row: HardRow, j: int, dealer: int)
    requires DisplayRowFits(hard, row)
    requires 0 <= j < |row.totals| && 2 <= dealer <= 11
    ensures DecisionFor(hard, row.totals, dealer) == Shown(CellAt(hard[row.totals[j]], dealer))
  {
    DecisionForFirst(hard, row.totals, dealer, 0);
  }

  /** Charting a variant's tables: every cell the hard chart shows is the
      basic-strategy decision of each total of its row. */
  lemma ChartShowsStrategy(v: Variant, rows: seq<HardRow>, i: int, j: int, dealer: int)
    requires Displays(Tables(v).hard, rows)
    requires 0 <= i < |rows| && 0 <= j < |rows[i].totals| && 2 <= dealer <= 11
    ensures DecisionFor(Tables(v).hard, rows[i].totals, dealer)
         == Shown(Some(HardCell(v, rows[i].totals[j], dealer)))
  {
    RowShowsEveryTotal(Tables(v).hard, rows[i], j, dealer);
  }

  /** abbr: Sp for SPLIT, R for SURRENDER, ? for ?, else the first letter;
      None is `undefined` (the empty string has no first letter). */
  function Abbr(d: string): Option<string> {
    if d == "?" then Some("?")
    else if d == "SPLIT" then Some("Sp")
    else if d == "SURRENDER" then Some("R")
    else if |d| == 0 then None
    else Some([d[0]])
  }

  /** The abbreviations of the five actions: H, S, D, Sp and R. */
  lemma AbbrOfDecisions()
    ensures Abbr(DecisionName(HIT)) == Some("H") && Abbr(DecisionName(STAND)) == Some("S")
    ensures Abbr(DecisionName(DOUBLE)) == Some("D") && Abbr(DecisionName(SPLIT)) == Some("Sp")
    ensures Abbr(DecisionName(SURRENDER)) == Some("R") && Abbr("?") == Some("?")
  {
  }

  /** The abbreviations tell the actions apart, and none reads '?'. */
  lemma AbbrDistinguishes(a: Decision, b: Decision)
    ensures Abbr(DecisionName(a)) == Abbr(DecisionName(b)) <==> a == b
    ensures Abbr(DecisionName(a)) != Some("?")
  {
  }

  // ---------------------------------------------------------------------
  // The rule variant

  /** The key the chart reads STRATEGY_DATA under: the rule key, so the
      tables are always found. */
  function ChartKey(rs: RuleSet): (k: string)
    ensures k == RuleKey(rs)
    ensures k in StrategyDataFlags() && StrategyDataFlags()[k] == VariantOf(rs)
  {
    var base := if rs.hitSoft17 then "H17" else "S17";
    base + (if rs.lateSurrender then "_LS" else "") + (if rs.doubleAfterSplit then "_DAS" else "")
  }

  /** STRATEGY_DATA[k] for a stored key: the tables of k's variant. */
  function StoredTables(k: string): (t: StrategyTables)
    requires k in StrategyDataFlags()
    ensures t == Tables(StrategyDataFlags()[k])
  {
    StrategyDataMap()[k]
  }

  /** The key with '_' written as ' '. */
  function Spaced(s: string): (r: string)
    ensures |r| == |s|
  {
    seq(|s|, i requires 0 <= i < |s| => if s[i] == '_' then ' ' else s[i])
  }

  /** The title variant: the rule key with spaces for underscores. */
  function TitleVariant(rs: RuleSet): (t: string)
    ensures t == Spaced(RuleKey(rs))
  {
    var base := if rs.hitSoft17 then "H17" else "S17";
    var variant := base + (if rs.lateSurrender then " LS" else "") + (if rs.doubleAfterSplit then " DAS" else "");
    TrimKeeps(variant);
    TitleSpaced(rs);
    Trim(variant)
  }

  lemma SpacedAppend(a: string, b: string)
    ensures Spaced(a + b) == Spaced(a) + Spaced(b)
  {
  }

  lemma TitleSpaced(rs: RuleSet)
    ensures Spaced(RuleKey(rs))
         == (if rs.hitSoft17 then "H17" else "S17") + (if rs.lateSurrender then " LS" else "")
            + (if rs.doubleAfterSplit then " DAS" else "")
  {
    var base := if rs.hitSoft17 then "H17" else "S17";
    var ls := if rs.lateSurrender then "_LS" else "";
    var das := if rs.doubleAfterSplit then "_DAS" else "";
    SpacedAppend(base + ls, das);
    SpacedAppend(base, ls);
    assert Spaced(base) == base;
    assert Spaced(ls) == if rs.lateSurrender then " LS" else "";
    assert Spaced(das) == if rs.doubleAfterSplit then " DAS" else "";
  }

  /** The three notes under the chart: dealer soft 17, doubling after a
      split, surrender. */
  function RuleNotes(rs: RuleSet): seq<string> {
    [if rs.hitSoft17 then "H17: Dealer hits soft 17 (A-6)" else "S17: Dealer stands on soft 17",
     if rs.doubleAfterSplit then "DAS: Doubling allowed after a split"
     else "No DAS: Doubling after split not allowed",
     if rs.lateSurrender then "LS: Late surrender available (after dealer checks for blackjack)"
     else "No LS: Surrender not available"]
  }

  // ---------------------------------------------------------------------
  // The component

  class StrategyChartComponent {
    var tables: StrategyTables
    var hasSurrender: bool
    var titleVariant: string
    var ruleNotes: seq<string>
    var hardDisplay: seq<HardRow>

    /** The page before any rule set is read: the S17 tables, charted. */
    constructor ()
      ensures tables == Tables(Variant(false, false, false)) && !hasSurrender
      ensures titleVariant == "S17" && ruleNotes == ["S17: Dealer stands on soft 17"]
      ensures Displays(tables.hard, hardDisplay)
    {
      tables := StoredTables("S17");
      hasSurrender := false;
      titleVariant := "S17";
      ruleNotes := ["S17: Dealer stands on soft 17"];
      new;
      RebuildHardGroups();
    }

    /** rebuildHardGroups: the hard chart of the current tables. */
    method RebuildHardGroups()
      modifies this`hardDisplay
      ensures Displays(tables.hard, hardDisplay)
    {
      var groups := GroupHardRows(tables.hard);
      hardDisplay := Labelled(groups);
      DisplayOfGroups(tables.hard, groups);
    }

    /** The effect run when the stored rule set changes: with no stored
        rule set nothing changes; otherwise the chart switches to the
        rule set's variant, title and notes, and the hard chart is rebuilt. */
    method ApplyRuleSet(loaded: Option<RuleSet>)
      modifies this`tables, this`hasSurrender, this`titleVariant, this`ruleNotes, this`hardDisplay
      ensures loaded == None ==> unchanged(this)
      ensures loaded.Some? ==> Selected(loaded.value) && Displays(tables.hard, hardDisplay)
    {
      if loaded.Some? {
        SelectVariant(loaded.value);
        RebuildHardGroups();
      }
    }

    /** The page shows the variant of rs: its tables, title and notes. */
    ghost predicate Selected(rs: RuleSet)
      reads this
    {
      tables == Tables(VariantOf(rs)) && hasSurrender == rs.lateSurrender
      && titleVariant == TitleVariant(rs) && ruleNotes == RuleNotes(rs)
    }

    method SelectVariant(rs: RuleSet)
      modifies this`tables, this`hasSurrender, this`titleVariant, this`ruleNotes
      ensures Selected(rs)
    {
      tables := StoredTables(ChartKey(rs));
      hasSurrender := rs.lateSurrender;
      titleVariant := TitleVariant(rs);
      ruleNotes := RuleNotes(rs);
    }
  }
}
