/** StrategyDataService (both copies in the repository hold the same code):
    the rule key of a rule set and the tables stored under it. */
module StrategyDataService {

  import opened Options
  import opened Models
  import opened StrategyData

  /** The three flags of a rule set that select its variant. */
  function VariantOf(rules: RuleSet): Variant {
    Variant(rules.hitSoft17, rules.lateSurrender, rules.doubleAfterSplit)
  }

  /** ruleKey: "H17" or "S17", then "_LS", then "_DAS", each suffix present
      when its flag is set. Every key it yields names a stored variant. */
  function RuleKey(rules: RuleSet): (k: string)
    ensures k in StrategyDataFlags() && StrategyDataFlags()[k] == VariantOf(rules)
  {
    var base := if rules.hitSoft17 then "H17" else "S17";
    var ls := if rules.lateSurrender then "_LS" else "";
    var das := if rules.doubleAfterSplit then "_DAS" else "";
    RuleKeyStored(rules, base + ls + das);
    base + ls + das
  }

  /** Each of the eight flag triples is stored under its own key. */
  lemma RuleKeyStored(rules: RuleSet, k: string)
    requires k == (if rules.hitSoft17 then "H17" else "S17")
                 + (if rules.lateSurrender then "_LS" else "")
                 + (if rules.doubleAfterSplit then "_DAS" else "")
    ensures k in StrategyDataFlags() && StrategyDataFlags()[k] == VariantOf(rules)
  {
    match (rules.hitSoft17, rules.lateSurrender, rules.doubleAfterSplit)
    case (false, false, false) => assert k == "S17";
    case (false, true, false) => assert k == "S17_LS";
    case (false, false, true) => assert k == "S17_DAS";
    case (false, true, true) => assert k == "S17_LS_DAS";
    case (true, false, false) => assert k == "H17";
    case (true, true, false) => assert k == "H17_LS";
    case (true, false, true) => assert k == "H17_DAS";
    case (true, true, true) => assert k == "H17_LS_DAS";
  }

  /** getTablesFor: the entry of STRATEGY_DATA under the rule key; absent
      stands for `undefined`. */
  function GetTablesFor(rules: RuleSet): (r: Option<StrategyTables>)
    ensures r == Some(Tables(VariantOf(rules)))
  {
    var key := RuleKey(rules);
    if key in StrategyDataMap() then Some(StrategyDataMap()[key]) else None
  }

  /** Two rule sets share a key exactly when their three flags agree: the
      key is injective on the flags and ignores id, name and decks. */
  lemma RuleKeyInjective(a: RuleSet, b: RuleSet)
    ensures RuleKey(a) == RuleKey(b) <==> VariantOf(a) == VariantOf(b)
  {
  }

  /** The two ends of the key space. */
  lemma RuleKeyExamples(rules: RuleSet)
    ensures !rules.hitSoft17 && !rules.lateSurrender && !rules.doubleAfterSplit ==> RuleKey(rules) == "S17"
    ensures rules.hitSoft17 && rules.lateSurrender && rules.doubleAfterSplit ==> RuleKey(rules) == "H17_LS_DAS"
  {
  }
}
