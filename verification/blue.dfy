/**
 * Blue cards: a dialog choice of another player, of one of the card's
 * options, or of a gamble.  The option maps are untyped, so every Java cast
 * that can fail is a possible exception, which leaves the table as far as
 * the code got.
 */
module BlueCards {
  import opened Wrappers
  import opened Json
  import opened Tiles
  import opened Cards
  import opened Players
  import opened Tables
  import opened TurnRules

  /** A dialog's answer: -1 when closed, otherwise a button index. */
  predicate DialogAnswer(choice: int, buttons: int)
  {
    -1 <= choice < buttons
  }

  /** A closed dialog counts as the first button. */
  function Selected(choice: int): (k: nat)
    requires choice >= -1
    ensures choice >= 0 ==> k == choice
    ensures choice == -1 ==> k == 0
  {
    if choice == -1 then 0 else choice
  }

  /** The number of buttons the card's dialog shows (0 when no dialog is shown). */
  function Buttons(t: Table, c: Card): int
    requires c.BlueCard?
  {
    if c.choiceType == ChoicePlayer then |t.players| - 1
    else if c.choiceType in {ChoiceOptions, ChoiceGamble} then |c.options|
    else 0
  }

  /** A choice the dialog can return, or anything when no dialog is shown. */
  predicate ValidChoice(t: Table, c: Card, choice: int)
    requires c.BlueCard?
  {
    Buttons(t, c) <= 0 || DialogAnswer(choice, Buttons(t, c))
  }

  // ---- choosing another player ----

  /** The seat of the k-th player other than seat `cur`, in seating order. */
  function OtherSeat(cur: int, k: nat): (j: nat)
    requires cur >= 0
    ensures j != cur
    ensures j < cur <==> k < cur
  {
    if k < cur then k else k + 1
  }

  /** The candidates of the player dialog: every seat except the current one, in order. */
  function OtherSeats(n: nat, cur: int): (r: seq<nat>)
    requires 0 <= cur < n
    ensures |r| == n - 1
    ensures forall k :: 0 <= k < n - 1 ==> r[k] == OtherSeat(cur, k)
  {
    seq(n - 1, k requires 0 <= k < n - 1 => OtherSeat(cur, k))
  }

  /** Every seat but the current one is a candidate exactly once, and the current one is not. */
  lemma OtherSeatsAreTheOthers(n: nat, cur: int)
    requires 0 <= cur < n
    ensures forall j :: 0 <= j < n ==> (j in OtherSeats(n, cur) <==> j != cur)
    ensures forall a, b :: 0 <= a < b < n - 1 ==> OtherSeats(n, cur)[a] < OtherSeats(n, cur)[b]
  {
    var r := OtherSeats(n, cur);
    forall j | 0 <= j < n && j != cur
      ensures j in r
    {
      if j < cur {
        assert r[j] == j;
      } else {
        assert r[j - 1] == j;
      }
    }
  }

  /** `stealMoney` then `gainMoney`: the gain re-reads the target's reduced balance. */
  function Steal(ps: seq<PlayerData>, cur: nat, target: nat, amount: int): (r: seq<PlayerData>)
    requires cur < |ps| && target < |ps|
    ensures |r| == |ps|
  {
    var stolen := Min(ps[target].resources, amount);
    var ps1 := ps[target := Adjusted(ps[target], -stolen)];
    var gained := Min(ps1[target].resources, amount);
    ps1[cur := Adjusted(ps1[cur], gained)]
  }

  function Min(a: int, b: int): int
  {
    if a <= b then a else b
  }

  /**
   * For a non-negative balance r and amount a, the target loses exactly
   * min(r, a), the thief gains min(r - min(r, a), a), and the two agree
   * only when r >= 2a or the target had nothing.
   */
  lemma StealArithmetic(ps: seq<PlayerData>, cur: nat, target: nat, amount: int)
    requires cur < |ps| && target < |ps| && cur != target
    requires ps[target].resources >= 0 && ps[cur].resources >= 0 && amount >= 0
    ensures var r := Steal(ps, cur, target, amount);
            var loss := Min(ps[target].resources, amount);
            var gain := Min(ps[target].resources - loss, amount);
            r[target].resources == ps[target].resources - loss &&
            r[cur].resources == ps[cur].resources + gain &&
            (gain == loss <==> ps[target].resources >= 2 * amount || ps[target].resources == 0) &&
            r[cur].resources + r[target].resources <= ps[cur].resources + ps[target].resources
  {
  }

  /** The player-choice actions on seat `target`. */
  function PlayerAction(t: Table, c: Card, target: nat): (o: Outcome)
    requires TurnInRange(t) && c.BlueCard? && target < |t.players| && target != t.turn - 1
    ensures o.table.turn == t.turn && o.table.faces == t.faces && o.table.active == t.active
    ensures |o.table.players| == |t.players|
    ensures o.threw ==> o.table == t
  {
    var cur := t.turn - 1;
    var ps := t.players;
    var m := c.methodType;
    if m == SwapPlaces then
      Outcome(t.(players := ps[cur := ps[cur].(tile := ps[target].tile)][target := ps[target].(tile := ps[cur].tile)]), false)
    else if m == MoveToPlayer then
      Outcome(t.(players := ps[cur := ps[cur].(tile := ps[target].tile)]), false)
    else if m == SwapMoney then
      Outcome(t.(players := ps[cur := ps[cur].(resources := ps[target].resources)][target := ps[target].(resources := ps[cur].resources)]), false)
    else if m == StealMoney then
      match IntCastOr(c.properties, KeyStealAmount, 0)
      case None => Outcome(t, true)
      case Some(amount) => Outcome(t.(players := Steal(ps, cur, target, amount)), false)
    else Outcome(t, false)
  }

  /** Swapping places exchanges the two tiles, and swapping again restores both players. */
  lemma SwapPlacesInvolution(t: Table, c: Card, target: nat)
    requires TurnInRange(t) && c.BlueCard? && c.methodType == SwapPlaces
    requires target < |t.players| && target != t.turn - 1
    ensures var r := PlayerAction(t, c, target).table;
            Current(r) == Current(t).(tile := t.players[target].tile) &&
            r.players[target] == t.players[target].(tile := Current(t).tile) &&
            PlayerAction(r, c, target).table == t
  {
    var r := PlayerAction(t, c, target).table;
    assert PlayerAction(r, c, target).table.players == t.players;
  }

  /** Swapping money exchanges the two totals exactly, without the clamp, so their sum is kept. */
  lemma SwapMoneyExchanges(t: Table, c: Card, target: nat)
    requires TurnInRange(t) && c.BlueCard? && c.methodType == SwapMoney
    requires target < |t.players| && target != t.turn - 1
    ensures var r := PlayerAction(t, c, target).table;
            Current(r).resources == t.players[target].resources &&
            r.players[target].resources == Current(t).resources &&
            Current(r).resources + r.players[target].resources == Current(t).resources + t.players[target].resources &&
            forall j :: 0 <= j < |t.players| && j != target && j != t.turn - 1 ==> r.players[j] == t.players[j]
  {
  }

  /** Moving to another player copies their tile and leaves them where they are. */
  lemma MoveToPlayerCopiesTile(t: Table, c: Card, target: nat)
    requires TurnInRange(t) && c.BlueCard? && c.methodType == MoveToPlayer
    requires target < |t.players| && target != t.turn - 1
    ensures PlayerAction(t, c, target).table == WithCurrent(t, Current(t).(tile := t.players[target].tile))
  {
  }

  /** `handlePlayerChoice`: nothing without other players, otherwise the chosen one (first when closed). */
  function PlayerChoice(t: Table, c: Card, choice: int): (o: Outcome)
    requires TurnInRange(t) && c.BlueCard? && (|t.players| == 1 || DialogAnswer(choice, |t.players| - 1))
    ensures |t.players| == 1 ==> o == Outcome(t, false)
  {
    if |t.players| - 1 == 0 then Outcome(t, false)
    else PlayerAction(t, c, OtherSeat(t.turn - 1, Selected(choice)))
  }

  // ---- options ----

  /** Every option's description casts to a Java `String` (a missing one is `null`, which is fine). */
  predicate DescriptionsAreText(options: seq<Fields>)
  {
    forall i :: 0 <= i < |options| ==> StringCast(options[i], KeyDescription).Some?
  }

  /**
   * What `handleOptions` and `handleGamble` share before acting: the
   * description casts, the default button `optionDescriptions[0]`, and the
   * `(String)` cast of the chosen option's method tag; `None` when one of
   * them throws.
   */
  function ChosenOption(c: Card, choice: int): (r: Option<(Fields, string)>)
    requires c.BlueCard? && (c.options == [] || DialogAnswer(choice, |c.options|))
    ensures r.Some? <==> DescriptionsAreText(c.options) && c.options != [] &&
                         StringCast(c.options[Selected(choice)], KeyMethodType).Some? &&
                         StringCast(c.options[Selected(choice)], KeyMethodType).value.Some?
    ensures r.Some? ==> r.value.0 == c.options[Selected(choice)]
  {
    if !DescriptionsAreText(c.options) || c.options == [] then None
    else
      var option := c.options[Selected(choice)];
      match StringCast(option, KeyMethodType)
      case None => None
      case Some(None) => None
      case Some(Some(m)) => Some((option, m))
  }

  /** The entry a timed blue option registers: count 1 + duration * N and the option's data. */
  function BlueEntry(c: Card, m: string, value: int, duration: int, players: int): (e: ActiveEffect)
    ensures e.card == c && e.count == EffectCount(duration, players)
    ensures e.data == Some(EffectData(m, value, duration))
  {
    ActiveEffect(c, EffectCount(duration, players), Some(EffectData(m, value, duration)))
  }

  /** `executeOptionAction`; `(int)` casts that fail throw before anything changes. */
  function OptionAction(t: Table, c: Card, option: Fields, m: string, tileZero: Tile?): (o: Outcome)
    requires TurnInRange(t) && c.BlueCard?
    ensures o.threw ==> o.table == t
    ensures TurnInRange(o.table) && o.table.turn == t.turn && o.table.faces == t.faces
    ensures |o.table.players| == |t.players|
    ensures m !in {ChangeSteps, ChangeIncome} ==> o.table.active == t.active
  {
    var cur := Current(t);
    if m == SelfMoneyChange then
      match IntCast(option, KeyValueChange)
      case None => Outcome(t, true)
      case Some(v) => Outcome(WithCurrent(t, Adjusted(cur, v)), false)
    else if m == OtherMoneyChange then
      match IntCast(option, KeyValueChange)
      case None => Outcome(t, true)
      case Some(v) => Outcome(t.(players := AdjustOthers(t.players, t.turn - 1, v)), false)
    else if m == IncomeForMoney then
      match (IntCast(option, KeyIncomeChange), IntCast(option, KeyMoneyChange))
      case (Some(i), Some(d)) => Outcome(WithCurrent(t, Adjusted(cur.(income := cur.income + i), d)), false)
      case _ => Outcome(t, true)
    else if m == MoveToStart then
      Outcome(WithCurrent(t, cur.(tile := tileZero)), false)
    else if m == ChangeSteps then
      match (IntCast(option, KeyValueChange), IntCast(option, KeyDuration))
      case (Some(v), Some(d)) =>
        var e := BlueEntry(c, m, v, d, |t.players|);
        Outcome(WithCurrent(t, cur.(stepsBonus := cur.stepsBonus + v)).(active := t.active + [e]), false)
      case _ => Outcome(t, true)
    else if m == ChangeIncome then
      match (IntCast(option, KeyValueChange), IntCast(option, KeyDuration))
      case (Some(v), Some(d)) =>
        var e := BlueEntry(c, m, v, d, |t.players|);
        Outcome(WithCurrent(t, cur.(income := cur.income + v)).(active := t.active + [e]), false)
      case _ => Outcome(t, true)
    else Outcome(t, false)
  }

  /** `handleOptions`. */
  function Options(t: Table, c: Card, choice: int, tileZero: Tile?): (o: Outcome)
    requires TurnInRange(t) && c.BlueCard? && (c.options == [] || DialogAnswer(choice, |c.options|))
    ensures o.threw <==> ChosenOption(c, choice).None? ||
                         OptionAction(t, c, ChosenOption(c, choice).value.0, ChosenOption(c, choice).value.1, tileZero).threw
  {
    match ChosenOption(c, choice)
    case None => Outcome(t, true)
    case Some((option, m)) => OptionAction(t, c, option, m, tileZero)
  }

  /**
   * A timed option (`changeSteps`, `changeIncome`) that went through
   * registers one entry with count 1 + duration * N carrying its data, and
   * reverting that entry on the same current player undoes the change.
   */
  lemma TimedOptionReverts(t: Table, c: Card, option: Fields, m: string, tileZero: Tile?)
    requires TurnInRange(t) && c.BlueCard? && m in {ChangeSteps, ChangeIncome}
    requires !OptionAction(t, c, option, m, tileZero).threw
    ensures var r := OptionAction(t, c, option, m, tileZero).table;
            var e := BlueEntry(c, m, IntCast(option, KeyValueChange).value, IntCast(option, KeyDuration).value, |t.players|);
            r.active == t.active + [e] && RemoveEffect(r, e) == t.(active := r.active)
  {
    var r := OptionAction(t, c, option, m, tileZero).table;
    var e := BlueEntry(c, m, IntCast(option, KeyValueChange).value, IntCast(option, KeyDuration).value, |t.players|);
    assert Current(r).(income := Current(r).income - IncomeDelta(e), stepsBonus := Current(r).stepsBonus - BonusDelta(e)) == Current(t);
    assert t.players[t.turn - 1 := Current(t)] == t.players;
  }

  /** `incomeForMoney` changes income by one value and resources, through the clamp, by the other. */
  lemma IncomeForMoneyOutcome(t: Table, c: Card, option: Fields, tileZero: Tile?)
    requires TurnInRange(t) && c.BlueCard?
    requires IntCast(option, KeyIncomeChange).Some? && IntCast(option, KeyMoneyChange).Some?
    ensures var o := OptionAction(t, c, option, IncomeForMoney, tileZero);
            !o.threw && o.table.active == t.active &&
            Current(o.table) == Current(t).(income := Current(t).income + option[KeyIncomeChange].i,
                                            resources := ClampedSum(Current(t).resources, option[KeyMoneyChange].i))
  {
  }

  // ---- gambles ----

  /**
   * `executeGambleAction`.  `draw` is `Math.random()`, in [0, 1); a missing
   * number counts as 0, a non-number throws.  The money gamble pays the
   * fixed cost before it reads the penalty chance, so that cast can throw
   * after the cost was paid.
   */
  function GambleAction(t: Table, option: Fields, m: string, draw: real): (o: Outcome)
    requires TurnInRange(t)
    ensures TurnInRange(o.table) && o.table.turn == t.turn && o.table.faces == t.faces && o.table.active == t.active
    ensures |o.table.players| == |t.players|
  {
    var cur := Current(t);
    if m == MoneyChance then
      match NumberAsInt(option, KeyFixedCost)
      case None => Outcome(t, true)
      case Some(fixedCost) =>
        var paid := WithCurrent(t, Adjusted(cur, fixedCost));
        match NumberAsReal(option, KeyPenaltyChance)
        case None => Outcome(paid, true)
        case Some(chance) =>
          if draw < chance then
            match NumberAsInt(option, KeyPenalty)
            case None => Outcome(paid, true)
            case Some(penalty) => Outcome(WithCurrent(paid, Adjusted(Current(paid), penalty)), false)
          else Outcome(paid, false)
    else if m == IncomeChance then
      if KeySuccessEffect !in option then Outcome(t, false)
      else
        match NumberAsReal(option, KeySuccessChance)
        case None => Outcome(t, true)
        case Some(chance) =>
          var key := if draw < chance then KeySuccessEffect else KeyFailureEffect;
          match NumberAsInt(option, key)
          case None => Outcome(t, true)
          case Some(delta) => Outcome(WithCurrent(t, cur.(income := cur.income + delta)), false)
    else Outcome(t, false)
  }

  /**
   * The money gamble: the fixed cost always, the penalty on top exactly when
   * the draw falls below the penalty chance; with well-typed numbers it never throws.
   */
  lemma MoneyChanceOutcome(t: Table, option: Fields, draw: real)
    requires TurnInRange(t)
    requires NumberAsInt(option, KeyFixedCost).Some? && NumberAsReal(option, KeyPenaltyChance).Some?
    requires NumberAsInt(option, KeyPenalty).Some?
    ensures var o := GambleAction(t, option, MoneyChance, draw);
            var paid := Adjusted(Current(t), NumberAsInt(option, KeyFixedCost).value);
            !o.threw &&
            Current(o.table) == if draw < NumberAsReal(option, KeyPenaltyChance).value
                                then Adjusted(paid, NumberAsInt(option, KeyPenalty).value) else paid
  {
  }

  /**
   * The income gamble acts only when a success effect is listed, and then
   * adds exactly one of the success and failure deltas to income.
   */
  lemma IncomeChanceOutcome(t: Table, option: Fields, draw: real)
    requires TurnInRange(t)
    ensures var o := GambleAction(t, option, IncomeChance, draw);
            (KeySuccessEffect !in option ==> o == Outcome(t, false)) &&
            (KeySuccessEffect in option && !o.threw ==>
              exists delta :: (NumberAsInt(option, KeySuccessEffect) == Some(delta) || NumberAsInt(option, KeyFailureEffect) == Some(delta)) &&
                              o.table == WithCurrent(t, Current(t).(income := Current(t).income + delta)))
  {
    var o := GambleAction(t, option, IncomeChance, draw);
    if KeySuccessEffect in option && !o.threw {
      var chance := NumberAsReal(option, KeySuccessChance).value;
      var key := if draw < chance then KeySuccessEffect else KeyFailureEffect;
      var delta := NumberAsInt(option, key).value;
      assert o.table == WithCurrent(t, Current(t).(income := Current(t).income + delta));
    }
  }

  /** `handleGamble`: the same dialog as the options, then the gamble. */
  function Gamble(t: Table, c: Card, choice: int, draw: real): (o: Outcome)
    requires TurnInRange(t) && c.BlueCard? && (c.options == [] || DialogAnswer(choice, |c.options|))
    ensures ChosenOption(c, choice).None? ==> o == Outcome(t, true)
  {
    match ChosenOption(c, choice)
    case None => Outcome(t, true)
    case Some((option, m)) => GambleAction(t, option, m, draw)
  }

  // ---- dispatch ----

  /** `BlueCard.executeCard`: by choice type; an unknown one only shows an error. */
  function ExecuteBlue(t: Table, c: Card, choice: int, draw: real, tileZero: Tile?): (o: Outcome)
    requires TurnInRange(t) && c.BlueCard? && ValidChoice(t, c, choice)
    ensures c.choiceType !in {ChoicePlayer, ChoiceOptions, ChoiceGamble} ==> o == Outcome(t, false)
    ensures TurnInRange(o.table) && o.table.turn == t.turn && |o.table.players| == |t.players|
  {
    if c.choiceType == ChoicePlayer then PlayerChoice(t, c, choice)
    else if c.choiceType == ChoiceOptions then Options(t, c, choice, tileZero)
    else if c.choiceType == ChoiceGamble then Gamble(t, c, choice, draw)
    else Outcome(t, false)
  }
}
