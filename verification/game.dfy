/**
 * The turn state machine of the game window: the seat whose turn it is, the
 * players in seating order, the die, and the list of active timed effects;
 * `nextTurn`, `previousTurn` and their backward `countdown`/`countup`
 * passes, the reverting of an expired effect, `findTileByID`, and the state
 * the constructor sets up.  Every method is proved to act on `Abs()` as the
 * functions of `TurnRules` say.
 */
module Strife {
  import opened Wrappers
  import opened Tiles
  import opened Boards
  import opened Dice
  import opened Cards
  import opened Decks
  import opened Players
  import opened Tables
  import opened TurnRules

  /** The players' data in seating order. */
  function DataOf(ps: seq<Player>): (r: seq<PlayerData>)
    reads ps
    ensures |r| == |ps|
    ensures forall i :: 0 <= i < |ps| ==> r[i] == ps[i].Data()
  {
    seq(|ps|, i requires 0 <= i < |ps| reads ps => ps[i].Data())
  }

  /** No player object sits in two seats. */
  ghost predicate Distinct(ps: seq<Player>)
  {
    forall i, j :: 0 <= i < j < |ps| ==> ps[i] != ps[j]
  }

  /** `getPaid` on player p, who sits in seat k. */
  method PaySeat(ps: seq<Player>, p: Player, ghost k: nat)
    requires k < |ps| && ps[k] == p && Distinct(ps)
    modifies p
    ensures DataOf(ps) == old(DataOf(ps))[k := Paid(old(p.Data()))]
  {
    p.GetPaid();
  }

  /** Player p, who sits in seat k, charged their own income (`adjustResources(-income)`). */
  method ChargeSeat(ps: seq<Player>, p: Player, ghost k: nat)
    requires k < |ps| && ps[k] == p && Distinct(ps)
    modifies p
    ensures DataOf(ps) == old(DataOf(ps))[k := Adjusted(old(p.Data()), -old(p.income))]
  {
    p.AdjustResources(-p.income);
  }

  /** `adjustResources(d)` on player p, who sits in seat k. */
  method AdjustSeat(ps: seq<Player>, p: Player, ghost k: nat, d: int)
    requires k < |ps| && ps[k] == p && Distinct(ps)
    modifies p
    ensures DataOf(ps) == old(DataOf(ps))[k := Adjusted(old(p.Data()), d)]
  {
    p.AdjustResources(d);
  }

  /** `setResources(r)` on player p, who sits in seat k. */
  method ResourcesSeat(ps: seq<Player>, p: Player, ghost k: nat, r: int)
    requires k < |ps| && ps[k] == p && Distinct(ps)
    modifies p
    ensures DataOf(ps) == old(DataOf(ps))[k := old(p.Data()).(resources := r)]
  {
    p.SetResources(r);
  }

  /** `adjustIncome(i)` on player p, who sits in seat k. */
  method IncomeSeat(ps: seq<Player>, p: Player, ghost k: nat, i: int)
    requires k < |ps| && ps[k] == p && Distinct(ps)
    modifies p
    ensures DataOf(ps) == old(DataOf(ps))[k := old(p.Data()).(income := old(p.income) + i)]
  {
    p.AdjustIncome(i);
  }

  /** `addStepsBonus(b)` on player p, who sits in seat k. */
  method BonusSeat(ps: seq<Player>, p: Player, ghost k: nat, b: int)
    requires k < |ps| && ps[k] == p && Distinct(ps)
    modifies p
    ensures DataOf(ps) == old(DataOf(ps))[k := old(p.Data()).(stepsBonus := old(p.stepsBonus) + b)]
  {
    p.AddStepsBonus(b);
  }

  /** `setCurrentTile(tile)` on player p, who sits in seat k. */
  method TileSeat(ps: seq<Player>, p: Player, ghost k: nat, tile: Tile?)
    requires k < |ps| && ps[k] == p && Distinct(ps)
    modifies p
    ensures DataOf(ps) == old(DataOf(ps))[k := old(p.Data()).(tile := tile)]
  {
    p.SetCurrentTile(tile);
  }

  /**
   * The first part of the game window's constructor: the die, the starting
   * tile of the loaded board, and the players, of whom the first is paid once.
   */
  method SetUp(dieNumFaces: int, playerInfo: seq<(string, string)>, board: Board)
    returns (die: Die, startTile: Tile?, ps: seq<Player>)
    requires |playerInfo| >= 1
    requires board.pathList == [] || IsStart(board.pathList[0])
    ensures fresh(die) && die.numFaces == dieNumFaces
    ensures startTile == (if board.pathList == [] then null else board.pathList[0])
    ensures forall i :: 0 <= i < |ps| ==> fresh(ps[i])
    ensures Distinct(ps) && DataOf(ps) == InitialPlayers(playerInfo, startTile)
  {
    die := new Die(dieNumFaces);
    var start := board.GetStartingTile();
    startTile := if start.Found? then start.tile else null;
    ps := CreatePlayers(playerInfo, startTile);
    PaySeat(ps, ps[0], 0);
  }

  /** The index of the first tile with the given ID, or -1. */
  function FirstWithId(tiles: seq<Tile>, id: int): (k: int)
    ensures -1 <= k < |tiles|
    ensures k >= 0 ==> tiles[k].id == id && forall j :: 0 <= j < k ==> tiles[j].id != id
    ensures k == -1 <==> forall j :: 0 <= j < |tiles| ==> tiles[j].id != id
  {
    if tiles == [] then -1
    else if tiles[0].id == id then 0
    else
      var k := FirstWithId(tiles[1..], id);
      if k == -1 then -1 else k + 1
  }

  /** The tile `findTileByID` returns: the first loaded tile with that ID, or `null`. */
  function TileWithId(tiles: seq<Tile>, id: int): (t: Tile?)
    ensures t != null ==> t in tiles && t.id == id
    ensures t == null <==> forall j :: 0 <= j < |tiles| ==> tiles[j].id != id
  {
    var k := FirstWithId(tiles, id);
    if k == -1 then null else tiles[k]
  }

  /** The players as created, in input order: the first one active, all on the start tile. */
  function NewPlayers(info: seq<(string, string)>, start: Tile?): (ps: seq<PlayerData>)
    ensures |ps| == |info|
    ensures forall i :: 0 <= i < |info| ==> ps[i] == NewPlayer(info[i].0, info[i].1, i == 0, start)
  {
    seq(|info|, i requires 0 <= i < |info| => NewPlayer(info[i].0, info[i].1, i == 0, start))
  }

  /** The table's players on the first turn: the first player has been paid once. */
  function InitialPlayers(info: seq<(string, string)>, start: Tile?): (ps: seq<PlayerData>)
    requires |info| >= 1
    ensures |ps| == |info|
    ensures ps[0] == Paid(NewPlayer(info[0].0, info[0].1, true, start))
    ensures forall i :: 1 <= i < |info| ==> ps[i] == NewPlayer(info[i].0, info[i].1, false, start)
  {
    var created := NewPlayers(info, start);
    created[0 := Paid(created[0])]
  }

  /** On the first turn the first player holds 550 and every other player 500. */
  lemma InitialResources(info: seq<(string, string)>, start: Tile?)
    requires |info| >= 1
    ensures InitialPlayers(info, start)[0].resources == StartResources + StartIncome
    ensures forall i :: 1 <= i < |info| ==> InitialPlayers(info, start)[i].resources == StartResources
  {
  }

  /** The constructor's player loop: one new player per name and country, in order. */
  method CreatePlayers(info: seq<(string, string)>, start: Tile?) returns (ps: seq<Player>)
    ensures |ps| == |info|
    ensures forall j :: 0 <= j < |ps| ==> fresh(ps[j])
    ensures Distinct(ps)
    ensures DataOf(ps) == NewPlayers(info, start)
  {
    ps := [];
    var i := 0;
    while i < |info|
      invariant 0 <= i <= |info| && |ps| == i
      invariant forall j :: 0 <= j < i ==> fresh(ps[j])
      invariant forall j, k :: 0 <= j < k < i ==> ps[j] != ps[k]
      invariant forall j :: 0 <= j < i ==> ps[j].Data() == NewPlayer(info[j].0, info[j].1, j == 0, start)
    {
      var player := new Player(info[i].0, info[i].1, i == 0, start);
      ps := ps + [player];
      i := i + 1;
    }
  }

  class Game {
    const numberOfPlayers: int
    const die: Die
    const numWinPoints: int
    const board: Board
    const cardDecks: CardDecks
    const players: seq<Player>
    /** The starting tile found on the loaded board (`null` for an empty board). */
    const startTile: Tile?
    var currentPlayerTurn: int
    var currentPlayer: Player
    var activeCardsList: seq<ActiveEffect>

    /** N players, all distinct; the turn index names a seat and the current player sits there. */
    ghost predicate Valid()
      reads this`currentPlayerTurn, this`currentPlayer
    {
      numberOfPlayers == |players| >= 1 &&
      Distinct(players) &&
      1 <= currentPlayerTurn <= numberOfPlayers && currentPlayer == players[currentPlayerTurn - 1]
    }

    function Abs(): Table
      reads this`currentPlayerTurn, this`activeCardsList, players, die`numFaces
    {
      Table(currentPlayerTurn, DataOf(players), die.numFaces, activeCardsList)
    }

    lemma AbsInRange()
      requires Valid()
      ensures TurnInRange(Abs()) && Current(Abs()) == currentPlayer.Data()
    {
    }

    /**
     * The constructor's game state: turn 1, a die with the given faces, the
     * players in input order on the starting tile with player 1 current and
     * paid once.  The board and the card decks come in loaded; the starting
     * tile is the board's (a board whose first tile is not a start tile ends
     * the program while loading).
     */
    constructor (numberOfPlayers: int, dieNumFaces: int, numOfWinPoints: int, playerInfo: seq<(string, string)>,
                 board: Board, cardDecks: CardDecks)
      requires |playerInfo| == numberOfPlayers >= 1
      requires board.pathList == [] || IsStart(board.pathList[0])
      ensures Valid() && this.board == board && this.cardDecks == cardDecks
      ensures fresh(die) && forall i :: 0 <= i < |players| ==> fresh(players[i])
      ensures startTile == (if board.pathList == [] then null else board.pathList[0])
      ensures Abs() == Table(1, InitialPlayers(playerInfo, startTile), dieNumFaces, [])
      ensures numWinPoints == numOfWinPoints
    {
      this.numberOfPlayers := numberOfPlayers;
      this.numWinPoints := numOfWinPoints;
      this.board := board;
      this.cardDecks := cardDecks;
      var d, startTile, ps := SetUp(dieNumFaces, playerInfo, board);
      die := d;
      this.startTile := startTile;
      players := ps;
      currentPlayerTurn := 1;
      currentPlayer := ps[0];
      activeCardsList := [];
      new;
      assert DataOf(players) == InitialPlayers(playerInfo, startTile);
    }

    /** `removeEffect` of the entry's card, applied to the current player and the die. */
    method RevertEffect(e: ActiveEffect)
      requires Valid()
      modifies currentPlayer, die`numFaces
      ensures Abs() == RemoveEffect(old(Abs()), e)
    {
      match e.card {
        case GreenCard(_, _, _) =>
          AbsInRange();
          assert Abs().players[currentPlayerTurn - 1 := Current(Abs())] == Abs().players;
        case RedCard(_, _, _, _, _) =>
          RevertRed(e);
        case BlueCard(_, _, _, _, _, _, _) =>
          RevertBlue(e);
      }
    }

    /** `RedCard.removeEffect`: an income change or a die change taken back. */
    method RevertRed(e: ActiveEffect)
      requires Valid() && e.card.RedCard?
      modifies currentPlayer, die`numFaces
      ensures Abs() == RemoveEffect(old(Abs()), e)
    {
      AbsInRange();
      var v, m := e.card.valueChange, e.card.methodType;
      if m == IncomeChange {
        IncomeCurrent(-v);
      }
      if m == DieChange {
        die.SetNumFaces(die.numFaces - v);
      }
    }

    /** `BlueCard.removeEffect`: the step bonus or income recorded in the entry's data taken back. */
    method RevertBlue(e: ActiveEffect)
      requires Valid() && e.card.BlueCard?
      modifies currentPlayer
      ensures Abs() == RemoveEffect(old(Abs()), e)
    {
      AbsInRange();
      if e.data.Some? {
        var data := e.data.value;
        if data.methodType == ChangeSteps {
          BonusCurrent(-data.valueChange);
        } else if data.methodType == ChangeIncome {
          IncomeCurrent(-data.valueChange);
        }
      }
    }

    /** One entry of the `countdown` pass. */
    method CountdownEntry(i: nat)
      requires Valid() && i < |activeCardsList|
      modifies this`activeCardsList, currentPlayer, die`numFaces
      ensures Abs() == CountdownStep(old(Abs()), i)
    {
      AbsInRange();
      var pair := activeCardsList[i];
      var count := pair.count - 1;
      if count == 0 {
        RevertEffect(pair);
        activeCardsList := activeCardsList[..i] + activeCardsList[i + 1..];
      } else {
        activeCardsList := activeCardsList[i := pair.(count := count)];
      }
    }

    /** `countdown`: from the last entry to the first, lower the count; revert and drop an entry that reaches 0. */
    method Countdown()
      requires Valid()
      modifies this`activeCardsList, currentPlayer, die`numFaces
      ensures Abs() == TurnRules.Countdown(old(Abs()))
    {
      AbsInRange();
      ghost var goal := TurnRules.Countdown(Abs());
      var i := |activeCardsList|;
      while i > 0
        invariant Valid() && 0 <= i <= |activeCardsList|
        invariant CountdownFrom(Abs(), i) == goal
        decreases i
      {
        ghost var k := i;
        i := i - 1;
        AbsInRange();
        ghost var before := Abs();
        CountdownUnfold(before, i, k);
        CountdownEntry(i);
      }
    }

    /** `countup`: from the last entry to the first, raise the count. */
    method Countup()
      modifies this`activeCardsList
      ensures activeCardsList == CountedUp(old(activeCardsList))
      ensures Abs() == TurnRules.Countup(old(Abs()))
    {
      var i := |activeCardsList|;
      while i > 0
        invariant 0 <= i <= |activeCardsList| == |old(activeCardsList)|
        invariant forall j :: 0 <= j < |activeCardsList| ==>
                    activeCardsList[j] == if j >= i then Incremented(old(activeCardsList)[j]) else old(activeCardsList)[j]
        decreases i
      {
        i := i - 1;
        var pair := activeCardsList[i];
        activeCardsList := activeCardsList[i := pair.(count := pair.count + 1)];
      }
    }

    /** `getPaid` on the current player, seen on the table. */
    method PayCurrent()
      requires Valid()
      modifies currentPlayer
      ensures Abs() == WithCurrent(old(Abs()), Paid(Current(old(Abs()))))
    {
      AbsInRange();
      PaySeat(players, currentPlayer, currentPlayerTurn - 1);
    }

    /** `adjustResources(d)` on the current player, seen on the table. */
    method AdjustCurrent(d: int)
      requires Valid()
      modifies currentPlayer
      ensures Abs() == WithCurrent(old(Abs()), Adjusted(Current(old(Abs())), d))
    {
      AbsInRange();
      AdjustSeat(players, currentPlayer, currentPlayerTurn - 1, d);
    }

    /** `adjustIncome(i)` on the current player, seen on the table. */
    method IncomeCurrent(i: int)
      requires Valid()
      modifies currentPlayer
      ensures Abs() == WithCurrent(old(Abs()), Current(old(Abs())).(income := Current(old(Abs())).income + i))
    {
      AbsInRange();
      IncomeSeat(players, currentPlayer, currentPlayerTurn - 1, i);
    }

    /** `addStepsBonus(b)` on the current player, seen on the table. */
    method BonusCurrent(b: int)
      requires Valid()
      modifies currentPlayer
      ensures Abs() == WithCurrent(old(Abs()), Current(old(Abs())).(stepsBonus := Current(old(Abs())).stepsBonus + b))
    {
      AbsInRange();
      BonusSeat(players, currentPlayer, currentPlayerTurn - 1, b);
    }

    /** `setCurrentTile(tile)` on the current player, seen on the table. */
    method TileCurrent(tile: Tile?)
      requires Valid()
      modifies currentPlayer
      ensures Abs() == WithCurrent(old(Abs()), Current(old(Abs())).(tile := tile))
    {
      AbsInRange();
      TileSeat(players, currentPlayer, currentPlayerTurn - 1, tile);
    }

    /** The current player charged their own income, seen on the table. */
    method ChargeCurrent()
      requires Valid()
      modifies currentPlayer
      ensures Abs() == WithCurrent(old(Abs()), Adjusted(Current(old(Abs())), -Current(old(Abs())).income))
    {
      AbsInRange();
      ChargeSeat(players, currentPlayer, currentPlayerTurn - 1);
    }

    /** The turn index moved on one seat, as `nextTurn` computes it, and the current player with it. */
    method AdvanceSeat()
      requires Valid()
      modifies this`currentPlayerTurn, this`currentPlayer
      ensures Valid()
      ensures Abs() == old(Abs()).(turn := NextIndex(old(currentPlayerTurn), numberOfPlayers))
    {
      if currentPlayerTurn < numberOfPlayers {
        ModSmall(currentPlayerTurn, numberOfPlayers);
      } else {
        ModSelf(numberOfPlayers);
      }
      currentPlayerTurn := currentPlayerTurn % numberOfPlayers + 1;
      currentPlayer := players[currentPlayerTurn - 1];
    }

    /** `nextTurn`. */
    method NextTurn()
      requires Valid()
      modifies this`currentPlayerTurn, this`currentPlayer, this`activeCardsList, players, die
      ensures Valid()
      ensures Abs() == TurnRules.NextTurn(old(Abs()))
    {
      Countdown();
      AdvanceSeat();
      PayCurrent();
    }

    /** The turn index moved back one seat, as `previousTurn` computes it, and the current player with it. */
    method RetreatSeat()
      requires Valid()
      modifies this`currentPlayerTurn, this`currentPlayer
      ensures Valid()
      ensures Abs() == old(Abs()).(turn := PreviousIndex(old(currentPlayerTurn), numberOfPlayers))
    {
      currentPlayerTurn := currentPlayerTurn - 1;
      if currentPlayerTurn == 0 {
        currentPlayerTurn := numberOfPlayers;
      }
      currentPlayer := players[currentPlayerTurn - 1];
    }

    /** `previousTurn`. */
    method PreviousTurn()
      requires Valid()
      modifies this`currentPlayerTurn, this`currentPlayer, this`activeCardsList, players
      ensures Valid()
      ensures Abs() == TurnRules.PreviousTurn(old(Abs()))
    {
      Countup();
      ChargeAndRetreat();
    }

    /** The second half of `previousTurn`: the current player charged their income, then the seat moved back. */
    method ChargeAndRetreat()
      requires Valid()
      modifies this`currentPlayerTurn, this`currentPlayer, players
      ensures Valid()
      ensures TurnInRange(old(Abs())) && Abs() == ChargeBack(old(Abs()))
    {
      AbsInRange();
      ChargeCurrent();
      RetreatSeat();
    }

    /** `findTileByID`: the first tile of the board's list with the ID, or `null`. */
    method FindTileByID(id: int) returns (tile: Tile?)
      ensures tile == TileWithId(board.pathList, id)
    {
      var tiles := board.pathList;
      var i := 0;
      while i < |tiles|
        invariant 0 <= i <= |tiles|
        invariant forall j :: 0 <= j < i ==> tiles[j].id != id
      {
        if tiles[i].id == id {
          assert FirstWithId(tiles, id) == i;
          return tiles[i];
        }
        i := i + 1;
      }
      return null;
    }
  }
}
