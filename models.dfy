/** The trainer's value types (blackjack.models.ts and storage.models.ts). */
module Models {

  import opened Options

  /** The five basic-strategy actions. */
  datatype Decision = HIT | STAND | DOUBLE | SPLIT | SURRENDER

  /** The action as the source spells it ('HIT', 'STAND', ...). */
  function DecisionName(d: Decision): string {
    match d
    case HIT => "HIT"
    case STAND => "STAND"
    case DOUBLE => "DOUBLE"
    case SPLIT => "SPLIT"
    case SURRENDER => "SURRENDER"
  }

  /** Table rules: the three flags select one of eight strategy variants;
      id, name and decks only identify the preset. */
  datatype RuleSet = RuleSet(
    id: string,
    name: string,
    decks: int,
    hitSoft17: bool,
    doubleAfterSplit: bool,
    lateSurrender: bool)

  /** A card: rank '2'..'10', 'J', 'Q', 'K' or 'A', and its point value
      (2..11, faces 10, ace 11). The suit is cosmetic and left out. */
  datatype Card = Card(rank: string, value: int)

  /** A classified hand. pairRank is present exactly for pairs. */
  datatype EvaluatedHand = EvaluatedHand(
    total: int,
    isSoft: bool,
    isPair: bool,
    pairRank: Option<string>,
    dealerUpValue: int)

  datatype Mode = Drill | Flash

  /** One record of the append-only answer history. Optional fields of the
      source are Options; `correct` and `attempts` are the counts the
      trainer writes (0 or 1 per answer). */
  datatype SessionStatEntry = SessionStatEntry(
    ts: int,
    mode: Mode,
    correct: nat,
    attempts: nat,
    expected: Option<string>,
    chosen: Option<string>,
    scenario: Option<string>,
    ms: Option<real>,
    usedHint: Option<bool>,
    difficulty: Option<string>)

  /** A non-empty optional string: the source's truthiness test `if (x)`. */
  predicate Truthy(s: Option<string>) {
    s.Some? && s.value != ""
  }

  /** Spaced-repetition state of one scenario key. Times are milliseconds;
      an absent `lapses` field reads as 0. */
  datatype SrsEntry = SrsEntry(
    consecutive: int,
    intervalIndex: int,
    nextDue: int,
    ef: real,
    reviewCount: int,
    lastInterval: int,
    lapses: int)
}
