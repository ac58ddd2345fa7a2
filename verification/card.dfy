/**
 * The three card kinds of the game and the entries of the active-effects
 * list.  A Java card object is never changed after construction, so a card
 * is a value here; the subclass becomes the constructor, the getters
 * `getDescription`, `getValueChange` and `getType` the shared destructors.
 */
module Cards {
  import opened Wrappers
  import opened Json

  // ---- card colours (the `type` field of a card record) ----
  const TypeGreen := "green"
  const TypeBlue := "blue"
  const TypeRed := "red"

  // ---- blue-card choice kinds ----
  const ChoicePlayer := "playerChoice"
  const ChoiceOptions := "options"
  const ChoiceGamble := "gamble"

  // ---- blue-card actions ----
  const SwapPlaces := "swapPlaces"
  const MoveToPlayer := "moveToPlayer"
  const SwapMoney := "swapMoney"
  const StealMoney := "stealMoney"
  const SelfMoneyChange := "selfMoneyChange"
  const OtherMoneyChange := "otherMoneyChange"
  const IncomeForMoney := "incomeForMoney"
  const MoveToStart := "moveToStart"
  const ChangeSteps := "changeSteps"
  const ChangeIncome := "changeIncome"
  const MoneyChance := "moneyChance"
  const IncomeChance := "incomeChance"

  // ---- red-card actions (self/other money change and move to start share the blue tags) ----
  const IncomeChange := "incomeChange"
  const DieChange := "dieChange"
  const SkipTurn := "skipTurn"
  const RollAgain := "rollAgain"

  // ---- keys of a card record and of a blue card's option and property maps ----
  const KeyCards := "cards"
  const KeyType := "type"
  const KeyDescription := "description"
  const KeyValueChange := "valueChange"
  const KeyChoiceType := "choiceType"
  const KeyMethodType := "methodType"
  const KeyOptions := "options"
  const KeyDuration := "duration"
  const KeyStealAmount := "stealAmount"
  const KeyIncomeChange := "incomeChange"
  const KeyMoneyChange := "moneyChange"
  const KeyFixedCost := "fixedCost"
  const KeyPenaltyChance := "penaltyChance"
  const KeyPenalty := "penalty"
  const KeySuccessChance := "successChance"
  const KeySuccessEffect := "successEffect"
  const KeyFailureEffect := "failureEffect"

  /**
   * A card.  A blue card is built with value change 0 (it is not used), and
   * keeps its options and its remaining record keys as untyped maps.
   */
  datatype Card =
    | GreenCard(description: string, valueChange: int, cardType: string)
    | RedCard(description: string, valueChange: int, cardType: string, methodType: string, duration: int)
    | BlueCard(description: string, valueChange: int, cardType: string,
               choiceType: string, methodType: string, options: seq<Fields>, properties: Fields)

  /** The map a timed blue option stores with its entry: its action, delta and duration. */
  datatype EffectData = EffectData(methodType: string, valueChange: int, duration: int)

  /**
   * One entry of the active-effects list: the card, the number of turn
   * advances left, and the blue option's data (`None` for a red card).
   */
  datatype ActiveEffect = ActiveEffect(card: Card, count: int, data: Option<EffectData>)

  /**
   * The count a timed effect is registered with: `duration` full rounds of
   * `players` turns, plus the advance that ends the current turn.
   */
  function EffectCount(duration: int, players: int): (c: int)
    ensures duration >= 0 && players >= 1 ==> c >= 1
  {
    assert duration >= 0 && players >= 1 ==> duration * players >= 0;
    1 + duration * players
  }
}
