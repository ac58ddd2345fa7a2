/**
 * Executing a drawn card on the game window: the green, red and blue
 * `executeCard` methods acting on the live players, die and active-effects
 * list.  Every method is proved to act on the game's table as the
 * functions of `GreenCards`, `RedCards` and `BlueCards` say, and
 * `ExecuteCard` joins them by the card's colour.
 */
module CardPlay {
  import opened Wrappers
  import opened Json
  import opened Tiles
  import opened Cards
  import opened Players
  import opened Tables
  import opened TurnRules
  import opened GreenCards
  import opened RedCards
  import opened BlueCards
  import opened Strife

  /** `executeCard` by the card's class, on the table; only a blue card can throw. */
  function ExecuteCard(t: Table, c: Card, choice: int, draw: real, tileZero: Tile?): (o: Outcome)
    requires TurnInRange(t) && (c.BlueCard? ==> ValidChoice(t, c, choice))
    ensures TurnInRange(o.table) && |o.table.players| == |t.players|
    ensures o.threw ==> c.BlueCard?
  {
    match c
    case GreenCard(_, _, _) => Outcome(ExecuteGreen(t, c), false)
    case RedCard(_, _, _, _, _) => Outcome(ExecuteRed(t, c, tileZero), false)
    case BlueCard(_, _, _, _, _, _, _) => ExecuteBlue(t, c, choice, draw, tileZero)
  }

  /**
   * The only cards that can move the turn are the red skip-turn and
   * roll-again cards; every other card keeps the current seat.
   */
  lemma OnlyRedCardsMoveTheTurn(t: Table, c: Card, choice: int, draw: real, tileZero: Tile?)
    requires TurnInRange(t) && (c.BlueCard? ==> ValidChoice(t, c, choice))
    ensures !(c.RedCard? && c.methodType in {SkipTurn, RollAgain}) ==> ExecuteCard(t, c, choice, draw, tileZero).table.turn == t.turn
  {
  }

  // ---- the loop over the other players ----

  /** The players below seat i, except seat `cur`, adjusted by d; the rest as they were. */
  function AdjustedBelow(ps: seq<PlayerData>, cur: int, d: int, i: nat): (r: seq<PlayerData>)
    ensures |r| == |ps|
    ensures forall j :: 0 <= j < |ps| ==> r[j] == if j < i && j != cur then Adjusted(ps[j], d) else ps[j]
  {
    seq(|ps|, j requires 0 <= j < |ps| => if j < i && j != cur then Adjusted(ps[j], d) else ps[j])
  }

  /** The loop over the players: `adjustResources(d)` on every one that is not `current`. */
  method AdjustOtherSeats(ps: seq<Player>, current: Player, ghost cur: nat, d: int)
    requires cur < |ps| && ps[cur] == current && Distinct(ps)
    modifies ps
    ensures DataOf(ps) == AdjustOthers(old(DataOf(ps)), cur, d)
  {
    ghost var before := DataOf(ps);
    var i := 0;
    while i < |ps|
      invariant 0 <= i <= |ps|
      invariant DataOf(ps) == AdjustedBelow(before, cur, d, i)
    {
      if ps[i] != current {
        AdjustSeat(ps, ps[i], i, d);
      }
      assert DataOf(ps) == AdjustedBelow(before, cur, d, i + 1);
      i := i + 1;
    }
    assert AdjustedBelow(before, cur, d, |ps|) == AdjustOthers(before, cur, d);
  }

  // ---- changes seen on the table ----

  /** `setCurrentTile(findTileByID(0))` on the current player. */
  method MoveCurrentToStart(game: Game)
    requires game.Valid()
    modifies game.currentPlayer
    ensures game.Abs() == WithCurrent(old(game.Abs()), Current(old(game.Abs())).(tile := old(TileWithId(game.board.pathList, 0))))
  {
    var tile := game.FindTileByID(0);
    game.TileCurrent(tile);
  }

  /** Every player but the current one gets `adjustResources(d)`. */
  method AdjustOtherPlayers(game: Game, d: int)
    requires game.Valid()
    modifies game.players
    ensures game.Abs() == old(game.Abs()).(players := AdjustOthers(old(game.Abs()).players, game.currentPlayerTurn - 1, d))
  {
    AdjustOtherSeats(game.players, game.currentPlayer, game.currentPlayerTurn - 1, d);
  }

  /** An entry appended to the active-effects list. */
  method Register(game: Game, e: ActiveEffect)
    modifies game`activeCardsList
    ensures game.Abs() == old(game.Abs()).(active := old(game.Abs()).active + [e])
  {
    game.activeCardsList := game.activeCardsList + [e];
  }

  // ---- green cards ----

  /** `GreenCard.executeCard`. */
  method ExecuteGreenCard(game: Game, c: Card)
    requires game.Valid() && c.GreenCard?
    modifies game.currentPlayer
    ensures game.Abs() == ExecuteGreen(old(game.Abs()), c)
  {
    game.AdjustCurrent(c.valueChange);
  }

  // ---- red cards ----

  /** `RedCard.executeCard` case by case, as the branches below perform it. */
  lemma RedCases(t: Table, c: Card, tileZero: Tile?)
    requires TurnInRange(t) && c.RedCard?
    ensures var m, v, e := c.methodType, c.valueChange, RedEntry(c, |t.players|);
            var r := ExecuteRed(t, c, tileZero);
            (m == SelfMoneyChange ==> r == WithCurrent(t, Adjusted(Current(t), v))) &&
            (m == OtherMoneyChange ==> r == t.(players := AdjustOthers(t.players, t.turn - 1, v))) &&
            (m == IncomeChange ==> r == WithCurrent(t, Current(t).(income := Current(t).income + v)).(active := t.active + [e])) &&
            (m == DieChange ==> r == t.(faces := t.faces + v, active := t.active + [e])) &&
            (m == SkipTurn ==> r == NextTurn(t)) &&
            (m == MoveToStart ==> r == WithCurrent(t, Current(t).(tile := tileZero))) &&
            (m == RollAgain ==> r == PreviousTurn(t)) &&
            (!KnownRedTag(m) ==> r == t)
  {
  }

  /** The red income change: `adjustIncome`, then the entry with count 1 + duration * N. */
  method RedIncomeChange(game: Game, c: Card)
    requires game.Valid() && c.RedCard?
    modifies game.currentPlayer, game`activeCardsList
    ensures TurnInRange(old(game.Abs()))
    ensures game.Abs() == WithCurrent(old(game.Abs()), Current(old(game.Abs())).(income := Current(old(game.Abs())).income + c.valueChange))
                            .(active := old(game.Abs()).active + [RedEntry(c, |old(game.Abs()).players|)])
  {
    game.AbsInRange();
    game.IncomeCurrent(c.valueChange);
    Register(game, RedEntry(c, game.numberOfPlayers));
  }

  /** The red die change: `setNumFaces(getNumFaces() + v)`, then the entry with count 1 + duration * N. */
  method RedDieChange(game: Game, c: Card)
    requires game.Valid() && c.RedCard?
    modifies game.die`numFaces, game`activeCardsList
    ensures game.Abs() == old(game.Abs()).(faces := old(game.Abs()).faces + c.valueChange,
                                           active := old(game.Abs()).active + [RedEntry(c, |old(game.Abs()).players|)])
  {
    game.die.SetNumFaces(game.die.numFaces + c.valueChange);
    Register(game, RedEntry(c, game.numberOfPlayers));
  }

  /** `RedCard.executeCard`: the method tags tried in the source's order. */
  method ExecuteRedCard(game: Game, c: Card)
    requires game.Valid() && c.RedCard?
    modifies game`currentPlayerTurn, game`currentPlayer, game`activeCardsList, game.players, game.die
    ensures game.Valid()
    ensures game.Abs() == ExecuteRed(old(game.Abs()), c, old(TileWithId(game.board.pathList, 0)))
  {
    var m := c.methodType;
    if m == SelfMoneyChange || m == OtherMoneyChange || m == IncomeChange || m == DieChange {
      RedOnPlayers(game, c, TileWithId(game.board.pathList, 0));
    } else {
      RedOnTurn(game, c);
    }
  }

  /** The first four tags: money and timed changes. */
  method RedOnPlayers(game: Game, c: Card, ghost tileZero: Tile?)
    requires game.Valid() && c.RedCard?
    requires c.methodType in {SelfMoneyChange, OtherMoneyChange, IncomeChange, DieChange}
    modifies game`activeCardsList, game.players, game.die`numFaces
    ensures game.Abs() == ExecuteRed(old(game.Abs()), c, tileZero)
  {
    var m := c.methodType;
    if m == SelfMoneyChange || m == OtherMoneyChange {
      RedMoney(game, c, tileZero);
    } else {
      RedTimed(game, c, tileZero);
    }
  }

  /** Self and other money changes. */
  method RedMoney(game: Game, c: Card, ghost tileZero: Tile?)
    requires game.Valid() && c.RedCard? && c.methodType in {SelfMoneyChange, OtherMoneyChange}
    modifies game.players
    ensures game.Abs() == ExecuteRed(old(game.Abs()), c, tileZero)
  {
    game.AbsInRange();
    RedCases(game.Abs(), c, tileZero);
    if c.methodType == SelfMoneyChange {
      game.AdjustCurrent(c.valueChange);
    } else {
      AdjustOtherPlayers(game, c.valueChange);
    }
  }

  /** Income and die changes, each registering an entry. */
  method RedTimed(game: Game, c: Card, ghost tileZero: Tile?)
    requires game.Valid() && c.RedCard? && c.methodType in {IncomeChange, DieChange}
    modifies game`activeCardsList, game.currentPlayer, game.die`numFaces
    ensures game.Abs() == ExecuteRed(old(game.Abs()), c, tileZero)
  {
    game.AbsInRange();
    RedCases(game.Abs(), c, tileZero);
    if c.methodType == IncomeChange {
      RedIncomeChange(game, c);
    } else {
      RedDieChange(game, c);
    }
  }

  /** The remaining tags: skip turn, move to start, roll again, or nothing. */
  method RedOnTurn(game: Game, c: Card)
    requires game.Valid() && c.RedCard?
    requires c.methodType !in {SelfMoneyChange, OtherMoneyChange, IncomeChange, DieChange}
    modifies game`currentPlayerTurn, game`currentPlayer, game`activeCardsList, game.players, game.die
    ensures game.Valid()
    ensures game.Abs() == ExecuteRed(old(game.Abs()), c, old(TileWithId(game.board.pathList, 0)))
  {
    game.AbsInRange();
    RedCases(game.Abs(), c, TileWithId(game.board.pathList, 0));
    var m := c.methodType;
    if m == SkipTurn {
      game.NextTurn();
    } else if m == MoveToStart {
      MoveCurrentToStart(game);
    } else if m == RollAgain {
      game.PreviousTurn();
    }
  }

  // ---- blue cards: choosing another player ----

  /** The loop that collects the dialog's candidates: every player other than `current`, in seating order. */
  method OtherPlayers(ps: seq<Player>, current: Player, ghost cur: nat) returns (others: seq<Player>)
    requires cur < |ps| && ps[cur] == current && Distinct(ps)
    ensures |others| == |ps| - 1
    ensures forall k :: 0 <= k < |others| ==> others[k] == ps[OtherSeat(cur, k)]
    ensures current !in others
  {
    others := [];
    var i := 0;
    while i < |ps|
      invariant 0 <= i <= |ps|
      invariant |others| == if i <= cur then i else i - 1
      invariant forall k :: 0 <= k < |others| ==> others[k] == ps[OtherSeat(cur, k)]
    {
      if ps[i] != current {
        others := others + [ps[i]];
      }
      i := i + 1;
    }
  }

  /** `swapPlaces(current, target)`: the players in seats i and j exchange tiles. */
  method ExchangeTiles(ps: seq<Player>, current: Player, ghost i: nat, target: Player, ghost j: nat)
    requires i < |ps| && j < |ps| && i != j && ps[i] == current && ps[j] == target && Distinct(ps)
    modifies current, target
    ensures var d := old(DataOf(ps));
            DataOf(ps) == d[i := d[i].(tile := d[j].tile)][j := d[j].(tile := d[i].tile)]
  {
    var temp := current.currentTile;
    current.SetCurrentTile(target.currentTile);
    target.SetCurrentTile(temp);
  }

  /** `swapMoney(current, target)`: the players in seats i and j exchange resources, unclamped. */
  method ExchangeResources(ps: seq<Player>, current: Player, ghost i: nat, target: Player, ghost j: nat)
    requires i < |ps| && j < |ps| && i != j && ps[i] == current && ps[j] == target && Distinct(ps)
    modifies current, target
    ensures var d := old(DataOf(ps));
            DataOf(ps) == d[i := d[i].(resources := d[j].resources)][j := d[j].(resources := d[i].resources)]
  {
    var currentMoney := current.resources;
    var targetMoney := target.resources;
    current.SetResources(targetMoney);
    target.SetResources(currentMoney);
  }

  /** `stealMoney(current, target, amount)` then `gainMoney(current, target, amount)`. */
  method StealAndGain(ps: seq<Player>, current: Player, ghost i: nat, target: Player, ghost j: nat, amount: int)
    requires i < |ps| && j < |ps| && i != j && ps[i] == current && ps[j] == target && Distinct(ps)
    modifies current, target
    ensures DataOf(ps) == Steal(old(DataOf(ps)), i, j, amount)
  {
    var stolen := Min(target.resources, amount);
    target.AdjustResources(-stolen);
    var gained := Min(target.resources, amount);
    current.AdjustResources(gained);
  }

  /** The `swapPlaces` action on the table. */
  method SwapPlacesWith(game: Game, c: Card, target: Player, ghost j: nat)
    requires game.Valid() && c.BlueCard? && c.methodType == SwapPlaces
    requires j < |game.players| && j != game.currentPlayerTurn - 1 && game.players[j] == target
    modifies game.currentPlayer, target
    ensures game.Abs() == PlayerAction(old(game.Abs()), c, j).table
  {
    game.AbsInRange();
    ExchangeTiles(game.players, game.currentPlayer, game.currentPlayerTurn - 1, target, j);
  }

  /** `moveToPlayer`: the current player moves onto the target's tile. */
  method MoveToPlayerWith(game: Game, c: Card, target: Player, ghost j: nat)
    requires game.Valid() && c.BlueCard? && c.methodType == MoveToPlayer
    requires j < |game.players| && j != game.currentPlayerTurn - 1 && game.players[j] == target
    modifies game.currentPlayer
    ensures game.Abs() == PlayerAction(old(game.Abs()), c, j).table
  {
    game.AbsInRange();
    game.TileCurrent(target.currentTile);
  }

  /** The `swapMoney` action on the table. */
  method SwapMoneyWith(game: Game, c: Card, target: Player, ghost j: nat)
    requires game.Valid() && c.BlueCard? && c.methodType == SwapMoney
    requires j < |game.players| && j != game.currentPlayerTurn - 1 && game.players[j] == target
    modifies game.currentPlayer, target
    ensures game.Abs() == PlayerAction(old(game.Abs()), c, j).table
  {
    game.AbsInRange();
    ExchangeResources(game.players, game.currentPlayer, game.currentPlayerTurn - 1, target, j);
  }

  /** The `stealMoney` action on the table; reading the amount can throw before anything changes. */
  method StealMoneyFrom(game: Game, c: Card, target: Player, ghost j: nat) returns (threw: bool)
    requires game.Valid() && c.BlueCard? && c.methodType == StealMoney
    requires j < |game.players| && j != game.currentPlayerTurn - 1 && game.players[j] == target
    modifies game.currentPlayer, target
    ensures Outcome(game.Abs(), threw) == PlayerAction(old(game.Abs()), c, j)
  {
    game.AbsInRange();
    var amount := IntCastOr(c.properties, KeyStealAmount, 0);
    if amount.None? {
      return true;
    }
    StealAndGain(game.players, game.currentPlayer, game.currentPlayerTurn - 1, target, j, amount.value);
    threw := false;
  }

  /** `executePlayerChoiceAction`: by the card's method tag; an unknown one only shows an error. */
  method PlayerChoiceAction(game: Game, c: Card, target: Player, ghost j: nat) returns (threw: bool)
    requires game.Valid() && c.BlueCard?
    requires j < |game.players| && j != game.currentPlayerTurn - 1 && game.players[j] == target
    modifies game.currentPlayer, target
    ensures Outcome(game.Abs(), threw) == PlayerAction(old(game.Abs()), c, j)
  {
    game.AbsInRange();
    var m := c.methodType;
    threw := false;
    if m == SwapPlaces {
      SwapPlacesWith(game, c, target, j);
    } else if m == MoveToPlayer {
      MoveToPlayerWith(game, c, target, j);
    } else if m == SwapMoney {
      SwapMoneyWith(game, c, target, j);
    } else if m == StealMoney {
      threw := StealMoneyFrom(game, c, target, j);
    }
  }

  /** `handlePlayerChoice`: nothing without other players, otherwise the chosen one (the first when the dialog is closed). */
  method HandlePlayerChoice(game: Game, c: Card, choice: int) returns (threw: bool)
    requires game.Valid() && c.BlueCard?
    requires |game.players| == 1 || DialogAnswer(choice, |game.players| - 1)
    modifies game.players
    ensures Outcome(game.Abs(), threw) == PlayerChoice(old(game.Abs()), c, choice)
  {
    game.AbsInRange();
    var others := OtherPlayers(game.players, game.currentPlayer, game.currentPlayerTurn - 1);
    if |others| == 0 {
      return false;
    }
    var k := Selected(choice);
    ghost var j := OtherSeat(game.currentPlayerTurn - 1, k);
    threw := PlayerChoiceAction(game, c, others[k], j);
  }

  // ---- blue cards: options ----

  /**
   * What `handleOptions` and `handleGamble` do before acting: the loop that
   * casts every description, the default button `optionDescriptions[0]`, and
   * the cast of the chosen option's method tag (a `null` tag throws in the
   * `switch`).  `None` when one of them throws.
   */
  method ChooseOption(c: Card, choice: int) returns (r: Option<(Fields, string)>)
    requires c.BlueCard? && (c.options == [] || DialogAnswer(choice, |c.options|))
    ensures r == ChosenOption(c, choice)
  {
    var descriptions: seq<Option<string>> := [];
    var i := 0;
    while i < |c.options|
      invariant 0 <= i <= |c.options| && |descriptions| == i
      invariant forall j :: 0 <= j < i ==> StringCast(c.options[j], KeyDescription) == Some(descriptions[j])
    {
      var cast := StringCast(c.options[i], KeyDescription);
      if cast.None? {
        return None;
      }
      descriptions := descriptions + [cast.value];
      i := i + 1;
    }
    if |descriptions| == 0 {
      return None;
    }
    var option := c.options[Selected(choice)];
    var tag := StringCast(option, KeyMethodType);
    if tag.None? || tag.value.None? {
      return None;
    }
    return Some((option, tag.value.value));
  }

  /** `executeOptionAction` tag by tag, as the methods below perform it. */
  lemma OptionCases(t: Table, c: Card, option: Fields, m: string, tileZero: Tile?)
    requires TurnInRange(t) && c.BlueCard?
    ensures var o := OptionAction(t, c, option, m, tileZero);
            var v, d := IntCast(option, KeyValueChange), IntCast(option, KeyDuration);
            var i, g := IntCast(option, KeyIncomeChange), IntCast(option, KeyMoneyChange);
            (m == SelfMoneyChange ==>
               o == if v.None? then Outcome(t, true) else Outcome(WithCurrent(t, Adjusted(Current(t), v.value)), false)) &&
            (m == OtherMoneyChange ==>
               o == if v.None? then Outcome(t, true) else Outcome(t.(players := AdjustOthers(t.players, t.turn - 1, v.value)), false)) &&
            (m == IncomeForMoney ==>
               o == if i.None? || g.None? then Outcome(t, true)
                    else Outcome(WithCurrent(t, Adjusted(Current(t).(income := Current(t).income + i.value), g.value)), false)) &&
            (m == ChangeSteps ==>
               o == if v.None? || d.None? then Outcome(t, true)
                    else Outcome(WithCurrent(t, Current(t).(stepsBonus := Current(t).stepsBonus + v.value))
                                   .(active := t.active + [BlueEntry(c, m, v.value, d.value, |t.players|)]), false)) &&
            (m == ChangeIncome ==>
               o == if v.None? || d.None? then Outcome(t, true)
                    else Outcome(WithCurrent(t, Current(t).(income := Current(t).income + v.value))
                                   .(active := t.active + [BlueEntry(c, m, v.value, d.value, |t.players|)]), false))
  {
  }

  /** `selfMoneyChange`: `adjustResources(valueChange)` on the current player. */
  method OptionSelfMoney(game: Game, c: Card, option: Fields, ghost tileZero: Tile?) returns (threw: bool)
    requires game.Valid() && c.BlueCard?
    modifies game.currentPlayer
    ensures Outcome(game.Abs(), threw) == OptionAction(old(game.Abs()), c, option, SelfMoneyChange, tileZero)
  {
    game.AbsInRange();
    OptionCases(game.Abs(), c, option, SelfMoneyChange, tileZero);
    var v := IntCast(option, KeyValueChange);
    if v.None? {
      return true;
    }
    game.AdjustCurrent(v.value);
    threw := false;
  }

  /** `otherMoneyChange`: `adjustResources(valueChange)` on every other player. */
  method OptionOtherMoney(game: Game, c: Card, option: Fields, ghost tileZero: Tile?) returns (threw: bool)
    requires game.Valid() && c.BlueCard?
    modifies game.players
    ensures Outcome(game.Abs(), threw) == OptionAction(old(game.Abs()), c, option, OtherMoneyChange, tileZero)
  {
    game.AbsInRange();
    OptionCases(game.Abs(), c, option, OtherMoneyChange, tileZero);
    var v := IntCast(option, KeyValueChange);
    if v.None? {
      return true;
    }
    AdjustOtherPlayers(game, v.value);
    threw := false;
  }

  /** `adjustIncome(i)` then `adjustResources(d)` on player p, who sits in seat k. */
  method IncomeForMoneySeat(ps: seq<Player>, p: Player, ghost k: nat, i: int, d: int)
    requires k < |ps| && ps[k] == p && Distinct(ps)
    modifies p
    ensures DataOf(ps) == old(DataOf(ps))[k := Adjusted(old(p.Data()).(income := old(p.income) + i), d)]
  {
    p.AdjustIncome(i);
    p.AdjustResources(d);
  }

  /** `incomeForMoney` as the method below performs it: the income change, then the resources change. */
  lemma IncomeForMoneyCase(t: Table, c: Card, option: Fields, tileZero: Tile?)
    requires TurnInRange(t) && c.BlueCard?
    ensures var i, g := IntCast(option, KeyIncomeChange), IntCast(option, KeyMoneyChange);
            OptionAction(t, c, option, IncomeForMoney, tileZero) ==
              if i.None? || g.None? then Outcome(t, true)
              else
                Outcome(WithCurrent(t, Adjusted(Current(t).(income := Current(t).income + i.value), g.value)), false)
  {
  }

  /** `incomeForMoney`: both casts first, then `adjustIncome` and `adjustResources` on the current player. */
  method OptionIncomeForMoney(game: Game, c: Card, option: Fields, ghost tileZero: Tile?) returns (threw: bool)
    requires game.Valid() && c.BlueCard?
    modifies game.currentPlayer
    ensures Outcome(game.Abs(), threw) == OptionAction(old(game.Abs()), c, option, IncomeForMoney, tileZero)
  {
    game.AbsInRange();
    IncomeForMoneyCase(game.Abs(), c, option, tileZero);
    var incomeChange := IntCast(option, KeyIncomeChange);
    var moneyChange := IntCast(option, KeyMoneyChange);
    if incomeChange.None? || moneyChange.None? {
      return true;
    }
    IncomeForMoneySeat(game.players, game.currentPlayer, game.currentPlayerTurn - 1, incomeChange.value, moneyChange.value);
    threw := false;
  }

  /** `moveToStart`: `setCurrentTile(findTileByID(0))` on the current player. */
  method OptionMoveToStart(game: Game, c: Card, option: Fields) returns (threw: bool)
    requires game.Valid() && c.BlueCard?
    modifies game.currentPlayer
    ensures Outcome(game.Abs(), threw) == OptionAction(old(game.Abs()), c, option, MoveToStart, old(TileWithId(game.board.pathList, 0)))
  {
    game.AbsInRange();
    MoveCurrentToStart(game);
    threw := false;
  }

  /** A timed option as the method below performs it: the new current player, then the entry. */
  lemma TimedOptionCase(t: Table, c: Card, option: Fields, m: string, tileZero: Tile?)
    requires TurnInRange(t) && c.BlueCard? && m in {ChangeSteps, ChangeIncome}
    ensures var v, d := IntCast(option, KeyValueChange), IntCast(option, KeyDuration);
            OptionAction(t, c, option, m, tileZero) ==
              if v.None? || d.None? then Outcome(t, true)
              else
                var p := if m == ChangeSteps then Current(t).(stepsBonus := Current(t).stepsBonus + v.value)
                         else Current(t).(income := Current(t).income + v.value);
                Outcome(WithCurrent(t.(active := t.active + [BlueEntry(c, m, v.value, d.value, |t.players|)]), p), false)
  {
    var v, d := IntCast(option, KeyValueChange), IntCast(option, KeyDuration);
    if v.Some? && d.Some? {
      var p := if m == ChangeSteps then Current(t).(stepsBonus := Current(t).stepsBonus + v.value)
               else Current(t).(income := Current(t).income + v.value);
      WithCurrentActive(t, p, t.active + [BlueEntry(c, m, v.value, d.value, |t.players|)]);
    }
  }

  /** `changeSteps`: the entry with count 1 + duration * N and the option's data, then `addStepsBonus`. */
  method OptionChangeSteps(game: Game, c: Card, option: Fields, ghost tileZero: Tile?) returns (threw: bool)
    requires game.Valid() && c.BlueCard?
    modifies game`activeCardsList, game.currentPlayer
    ensures Outcome(game.Abs(), threw) == OptionAction(old(game.Abs()), c, option, ChangeSteps, tileZero)
  {
    game.AbsInRange();
    ghost var t := game.Abs();
    TimedOptionCase(t, c, option, ChangeSteps, tileZero);
    var v := IntCast(option, KeyValueChange);
    var duration := IntCast(option, KeyDuration);
    if v.None? || duration.None? {
      return true;
    }
    var e := BlueEntry(c, ChangeSteps, v.value, duration.value, game.numberOfPlayers);
    assert e == BlueEntry(c, ChangeSteps, v.value, duration.value, |t.players|);
    Register(game, e);
    game.BonusCurrent(v.value);
    threw := false;
  }

  /** `changeIncome`: the entry with count 1 + duration * N and the option's data, then `adjustIncome`. */
  method OptionChangeIncome(game: Game, c: Card, option: Fields, ghost tileZero: Tile?) returns (threw: bool)
    requires game.Valid() && c.BlueCard?
    modifies game`activeCardsList, game.currentPlayer
    ensures Outcome(game.Abs(), threw) == OptionAction(old(game.Abs()), c, option, ChangeIncome, tileZero)
  {
    game.AbsInRange();
    ghost var t := game.Abs();
    TimedOptionCase(t, c, option, ChangeIncome, tileZero);
    var v := IntCast(option, KeyValueChange);
    var duration := IntCast(option, KeyDuration);
    if v.None? || duration.None? {
      return true;
    }
    var e := BlueEntry(c, ChangeIncome, v.value, duration.value, game.numberOfPlayers);
    assert e == BlueEntry(c, ChangeIncome, v.value, duration.value, |t.players|);
    Register(game, e);
    game.IncomeCurrent(v.value);
    threw := false;
  }

  /** `executeOptionAction`: by the option's method tag; an unknown one only shows an error. */
  method OptionActionOn(game: Game, c: Card, option: Fields, m: string) returns (threw: bool)
    requires game.Valid() && c.BlueCard?
    modifies game`activeCardsList, game.players
    ensures Outcome(game.Abs(), threw) == OptionAction(old(game.Abs()), c, option, m, old(TileWithId(game.board.pathList, 0)))
  {
    game.AbsInRange();
    threw := false;
    if m == SelfMoneyChange {
      threw := OptionSelfMoney(game, c, option, TileWithId(game.board.pathList, 0));
    } else if m == OtherMoneyChange {
      threw := OptionOtherMoney(game, c, option, TileWithId(game.board.pathList, 0));
    } else if m == IncomeForMoney {
      threw := OptionIncomeForMoney(game, c, option, TileWithId(game.board.pathList, 0));
    } else if m == MoveToStart {
      threw := OptionMoveToStart(game, c, option);
    } else if m == ChangeSteps {
      threw := OptionChangeSteps(game, c, option, TileWithId(game.board.pathList, 0));
    } else if m == ChangeIncome {
      threw := OptionChangeIncome(game, c, option, TileWithId(game.board.pathList, 0));
    }
  }

  /** `handleOptions`. */
  method HandleOptions(game: Game, c: Card, choice: int) returns (threw: bool)
    requires game.Valid() && c.BlueCard? && (c.options == [] || DialogAnswer(choice, |c.options|))
    modifies game`activeCardsList, game.players
    ensures Outcome(game.Abs(), threw) == Options(old(game.Abs()), c, choice, old(TileWithId(game.board.pathList, 0)))
  {
    game.AbsInRange();
    var chosen := ChooseOption(c, choice);
    if chosen.None? {
      return true;
    }
    threw := OptionActionOn(game, c, chosen.value.0, chosen.value.1);
  }

  // ---- blue cards: gambles ----

  /** The money gamble: the fixed cost, then the penalty when the draw falls below the penalty chance. */
  method MoneyGamble(game: Game, option: Fields, draw: real) returns (threw: bool)
    requires game.Valid()
    modifies game.currentPlayer
    ensures Outcome(game.Abs(), threw) == GambleAction(old(game.Abs()), option, MoneyChance, draw)
  {
    game.AbsInRange();
    var fixedCost := NumberAsInt(option, KeyFixedCost);
    if fixedCost.None? {
      return true;
    }
    game.AdjustCurrent(fixedCost.value);
    var chance := NumberAsReal(option, KeyPenaltyChance);
    if chance.None? {
      return true;
    }
    if draw < chance.value {
      var penalty := NumberAsInt(option, KeyPenalty);
      if penalty.None? {
        return true;
      }
      game.AdjustCurrent(penalty.value);
    }
    threw := false;
  }

  /** The income gamble: only with a success effect listed; the success or the failure delta by the draw. */
  method IncomeGamble(game: Game, option: Fields, draw: real) returns (threw: bool)
    requires game.Valid()
    modifies game.currentPlayer
    ensures Outcome(game.Abs(), threw) == GambleAction(old(game.Abs()), option, IncomeChance, draw)
  {
    game.AbsInRange();
    if KeySuccessEffect !in option {
      return false;
    }
    var chance := NumberAsReal(option, KeySuccessChance);
    if chance.None? {
      return true;
    }
    var delta := if draw < chance.value then NumberAsInt(option, KeySuccessEffect) else NumberAsInt(option, KeyFailureEffect);
    if delta.None? {
      return true;
    }
    game.IncomeCurrent(delta.value);
    threw := false;
  }

  /** `handleGamble`: the options dialog, then `executeGambleAction` by the option's tag. */
  method HandleGamble(game: Game, c: Card, choice: int, draw: real) returns (threw: bool)
    requires game.Valid() && c.BlueCard? && (c.options == [] || DialogAnswer(choice, |c.options|))
    modifies game.players
    ensures Outcome(game.Abs(), threw) == Gamble(old(game.Abs()), c, choice, draw)
  {
    game.AbsInRange();
    var chosen := ChooseOption(c, choice);
    if chosen.None? {
      return true;
    }
    var (option, m) := chosen.value;
    threw := false;
    if m == MoneyChance {
      threw := MoneyGamble(game, option, draw);
    } else if m == IncomeChance {
      threw := IncomeGamble(game, option, draw);
    }
  }

  /** `BlueCard.executeCard`: by the card's choice type; an unknown one only shows an error. */
  method ExecuteBlueCard(game: Game, c: Card, choice: int, draw: real) returns (threw: bool)
    requires game.Valid() && c.BlueCard? && ValidChoice(game.Abs(), c, choice)
    modifies game`activeCardsList, game.players
    ensures Outcome(game.Abs(), threw) == ExecuteBlue(old(game.Abs()), c, choice, draw, old(TileWithId(game.board.pathList, 0)))
  {
    game.AbsInRange();
    threw := false;
    if c.choiceType == ChoicePlayer {
      threw := HandlePlayerChoice(game, c, choice);
    } else if c.choiceType == ChoiceOptions {
      threw := HandleOptions(game, c, choice);
    } else if c.choiceType == ChoiceGamble {
      threw := HandleGamble(game, c, choice, draw);
    }
  }

  // ---- any card ----

  /** `card.executeCard(game)`, dispatched on the card's class. */
  method PlayCard(game: Game, c: Card, choice: int, draw: real) returns (threw: bool)
    requires game.Valid() && (c.BlueCard? ==> ValidChoice(game.Abs(), c, choice))
    modifies game`currentPlayerTurn, game`currentPlayer, game`activeCardsList, game.players, game.die
    ensures game.Valid() && unchanged(game.cardDecks)
    ensures Outcome(game.Abs(), threw) == ExecuteCard(old(game.Abs()), c, choice, draw, old(TileWithId(game.board.pathList, 0)))
  {
    game.AbsInRange();
    ghost var seats: seq<object> := game.players;
    assert game.cardDecks !in seats;
    threw := false;
    match c {
      case GreenCard(_, _, _) =>
        ExecuteGreenCard(game, c);
      case RedCard(_, _, _, _, _) =>
        ExecuteRedCard(game, c);
      case BlueCard(_, _, _, _, _, _, _) =>
        threw := ExecuteBlueCard(game, c, choice, draw);
    }
  }
}
