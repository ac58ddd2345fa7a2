/**
 * One press of the roll button (`handleDieRoll`): the die is rolled, the
 * current player walks, a card of the landed tile's colour is drawn and
 * played, and the turn passes once.  An exception that escapes on the way
 * (a null tile colour, a failed cast in a blue card) skips the rest.
 */
module Rounds {
  import opened Wrappers
  import opened Tiles
  import opened Cards
  import opened Dice
  import opened Players
  import opened Tables
  import opened TurnRules
  import opened RedCards
  import opened BlueCards
  import opened Strife
  import opened CardPlay

  /** The answer the card's dialog gives: a function of the number of buttons it shows. */
  function DialogChoice(t: Table, c: Card, dialog: int -> int): int
  {
    if c.BlueCard? then dialog(Buttons(t, c)) else -1
  }

  /** A dialog that only ever answers with one of its buttons, or -1 for closed. */
  ghost predicate HonestDialog(dialog: int -> int)
  {
    forall n: int :: n > 0 ==> DialogAnswer(dialog(n), n)
  }

  /** `nextTurn()`, unless an exception escaped first. */
  function PassUnlessThrown(o: Outcome): (r: Outcome)
    requires TurnInRange(o.table)
    ensures r.threw == o.threw && TurnInRange(r.table) && |r.table.players| == |o.table.players|
    ensures o.threw ==> r == o
    ensures !o.threw ==> r.table.turn == NextIndex(o.table.turn, |o.table.players|)
  {
    if o.threw then o else Outcome(NextTurn(o.table), false)
  }

  /**
   * The part of `handleDieRoll` after the move, on the table: play the
   * drawn card, if any, then advance the turn once.  A null colour throws
   * before anything is drawn; a card that throws skips the advance.
   */
  function FinishRoll(t: Table, drawn: DrawOutcome, dialog: int -> int, draw: real, tileZero: Tile?): (o: Outcome)
    requires TurnInRange(t) && HonestDialog(dialog)
    ensures TurnInRange(o.table) && |o.table.players| == |t.players|
  {
    match drawn
    case NullColour => Outcome(t, true)
    case NoDeck => PassUnlessThrown(Outcome(t, false))
    case Drew(c) => PassUnlessThrown(ExecuteCard(t, c, DialogChoice(t, c, dialog), draw, tileZero))
  }

  /**
   * The turn passes exactly once unless something throws: with no deck for
   * the colour, or with any card but the red skip-turn and roll-again ones,
   * the next seat plays; a throw leaves the seat where it was.
   */
  lemma RoundPassesTurnOnce(t: Table, drawn: DrawOutcome, dialog: int -> int, draw: real, tileZero: Tile?)
    requires TurnInRange(t) && HonestDialog(dialog)
    ensures var o := FinishRoll(t, drawn, dialog, draw, tileZero);
            (drawn.NullColour? ==> o == Outcome(t, true)) &&
            (drawn.NoDeck? ==> o == Outcome(NextTurn(t), false)) &&
            (drawn.Drew? && !(drawn.card.RedCard? && drawn.card.methodType in {SkipTurn, RollAgain}) ==>
               o.table.turn == if o.threw then t.turn else NextIndex(t.turn, |t.players|))
  {
    if drawn.Drew? {
      var c := drawn.card;
      OnlyRedCardsMoveTheTurn(t, c, DialogChoice(t, c, dialog), draw, tileZero);
    }
  }

  /** A red skip-turn card moves the turn on by two seats in one roll. */
  lemma SkipTurnRound(t: Table, c: Card, dialog: int -> int, draw: real, tileZero: Tile?)
    requires TurnInRange(t) && HonestDialog(dialog)
    requires c.RedCard? && c.methodType == SkipTurn
    ensures var o := FinishRoll(t, Drew(c), dialog, draw, tileZero);
            !o.threw && o.table.turn == AdvancedIndex(t.turn, |t.players|, 2)
  {
    RedSkipTurn(t, c, tileZero);
  }

  /**
   * A red roll-again card gives the same player the next roll with the
   * table exactly as the card found it, when every count is positive and
   * the income charge is not clamped.
   */
  lemma RollAgainRound(t: Table, c: Card, dialog: int -> int, draw: real, tileZero: Tile?)
    requires TurnInRange(t) && HonestDialog(dialog)
    requires c.RedCard? && c.methodType == RollAgain
    requires forall e :: e in t.active ==> e.count >= 1
    requires 0 <= Current(t).income <= Current(t).resources
    ensures FinishRoll(t, Drew(c), dialog, draw, tileZero) == Outcome(t, false)
  {
    RedRollAgain(t, c, tileZero);
  }

  /** The dialog answer handed to a blue card is one its dialog can give. */
  lemma HonestDialogChoice(t: Table, c: Card, dialog: int -> int)
    requires HonestDialog(dialog)
    ensures c.BlueCard? ==> ValidChoice(t, c, DialogChoice(t, c, dialog))
  {
  }

  // ---- the game window ----

  /** `currentPlayer.move(roll, this)` on the player in seat k. */
  method MoveSeat(ps: seq<Player>, p: Player, ghost k: nat, dieValue: int, ghost g: Graph, ctx: MoveContext,
                  dec: MoveDecisions, victoryTile: Tile) returns (newVictoryTile: Tile, gameOver: bool)
    requires k < |ps| && ps[k] == p && Distinct(ps)
    requires ctx.victoryTiles != [] && Mirrors(g) && Closed(g)
    requires OnGraph(p.currentTile, g) && OnGraph(ctx.startTile, g)
    modifies p
    ensures var w := Moved(old(p.Data()), dieValue, victoryTile, g, ctx, dec);
            DataOf(ps) == old(DataOf(ps))[k := w.player] && p.currentTile == w.player.tile &&
            newVictoryTile == w.victoryTile && gameOver == w.gameOver
    ensures ColourOf(p.currentTile) == old(ColourOf(Moved(p.Data(), dieValue, victoryTile, g, ctx, dec).player.tile))
  {
    newVictoryTile, gameOver := p.Move(dieValue, g, ctx, dec, victoryTile);
  }

  /** The walk a roll of `rollDraw` gives the current player, on the board as it stands. */
  ghost function RolledWalk(game: Game, rollDraw: int, victoryTile: Tile, dec: MoveDecisions): (w: Walk)
    requires game.Valid() && game.board.victoryTiles != []
    requires game.die.numFaces >= 1 ==> 0 <= rollDraw < game.die.numFaces
    reads game, game.players, game.die, game.board, game.board.pathList
  {
    game.AbsInRange();
    Moved(Current(game.Abs()), RollValue(game.die.numFaces, rollDraw), victoryTile,
          game.board.Graph(), MoveContext(game.startTile, game.board.victoryTiles, game.numWinPoints), dec)
  }

  /**
   * `die.roll()` then `currentPlayer.move(roll, this)`: roll the die and
   * walk the current player; the victory tile the board panel marks goes in, and the walk
   * hands back the new one and the end-of-game signal.
   */
  method RollAndMove(game: Game, rollDraw: int, victoryTile: Tile, dec: MoveDecisions) returns (newVictoryTile: Tile, gameOver: bool)
    requires game.Valid() && game.board.Valid() && game.board.victoryTiles != []
    requires OnGraph(game.currentPlayer.currentTile, game.board.Graph()) && OnGraph(game.startTile, game.board.Graph())
    requires game.die.numFaces >= 1 ==> 0 <= rollDraw < game.die.numFaces
    modifies game.die`value, game.currentPlayer
    ensures game.Valid()
    ensures var w := old(RolledWalk(game, rollDraw, victoryTile, dec));
            TurnInRange(old(game.Abs())) && game.Abs() == WithCurrent(old(game.Abs()), w.player) &&
            newVictoryTile == w.victoryTile && gameOver == w.gameOver
    ensures ColourOf(game.currentPlayer.currentTile) == old(ColourOf(RolledWalk(game, rollDraw, victoryTile, dec).player.tile))
  {
    game.AbsInRange();
    ghost var t := game.Abs();
    ghost var g := game.board.Graph();
    ghost var seats: seq<object> := game.players;
    assert game.die !in seats;
    game.die.Roll(rollDraw);
    var roll := game.die.value;
    var ctx := MoveContext(game.startTile, game.board.victoryTiles, game.numWinPoints);
    ghost var w := Moved(Current(t), roll, victoryTile, g, ctx, dec);
    assert ColourOf(w.player.tile) == old(ColourOf(w.player.tile));
    newVictoryTile, gameOver := MoveSeat(game.players, game.currentPlayer, game.currentPlayerTurn - 1, roll, g,
                                         ctx, dec, victoryTile);
  }

  /** `nextTurn()` when nothing threw. */
  method PassTurn(game: Game, threw: bool)
    requires game.Valid()
    modifies game`currentPlayerTurn, game`currentPlayer, game`activeCardsList, game.players, game.die
    ensures game.Valid() && unchanged(game.cardDecks)
    ensures TurnInRange(old(game.Abs())) && Outcome(game.Abs(), threw) == PassUnlessThrown(Outcome(old(game.Abs()), threw))
  {
    game.AbsInRange();
    ghost var seats: seq<object> := game.players;
    assert game.cardDecks !in seats;
    if !threw {
      game.NextTurn();
    }
  }

  /**
   * `currentPlayer.drawCard(cardDecks)`: the piles keep their invariant, only
   * a null tile gives a null colour, and the piles change as the draw for the
   * current player's tile says.
   */
  method DrawForCurrent(game: Game, draws: nat -> nat) returns (drawn: DrawOutcome)
    requires game.Valid() && game.cardDecks.Valid()
    modifies game.cardDecks`decks, game.cardDecks`usedDecks
    ensures game.Valid() && game.cardDecks.Valid()
    ensures unchanged(game, game.currentPlayer)
    ensures drawn == NullColour <==> game.currentPlayer.currentTile == null
    ensures DrawnAs(old(ColourOf(game.currentPlayer.currentTile)), old(game.cardDecks.State()), game.cardDecks.State(), drawn, draws)
    ensures game.Abs() == old(game.Abs())
  {
    drawn := game.currentPlayer.DrawCard(game.cardDecks, draws);
  }

  /**
   * What follows the draw in `handleDieRoll`: `card.executeCard(this)` if a
   * card came out, then `nextTurn()`, unless something threw on the way (a
   * null colour throws in the draw itself).
   */
  method PlayDrawn(game: Game, drawn: DrawOutcome, dialog: int -> int, draw: real) returns (threw: bool)
    requires game.Valid() && HonestDialog(dialog)
    modifies game`currentPlayerTurn, game`currentPlayer, game`activeCardsList, game.players, game.die
    ensures game.Valid() && unchanged(game.cardDecks)
    ensures TurnInRange(old(game.Abs())) &&
            Outcome(game.Abs(), threw) == FinishRoll(old(game.Abs()), drawn, dialog, draw, old(TileWithId(game.board.pathList, 0)))
  {
    game.AbsInRange();
    ghost var t := game.Abs();
    ghost var seats: seq<object> := game.players;
    assert game.cardDecks !in seats;
    threw := drawn.NullColour?;
    if drawn.NullColour? {
      return;
    }
    if drawn.Drew? {
      var c := drawn.card;
      HonestDialogChoice(t, c, dialog);
      threw := PlayCard(game, c, DialogChoice(game.Abs(), c, dialog), draw);
    }
    PassTurn(game, threw);
  }

  /** The first half of `handleDieRoll`: roll, move, then `currentPlayer.drawCard(cardDecks)` for the landed tile. */
  method RollMoveDraw(game: Game, rollDraw: int, victoryTile: Tile, dec: MoveDecisions, draws: nat -> nat)
    returns (newVictoryTile: Tile, gameOver: bool, drawn: DrawOutcome)
    requires game.Valid() && game.board.Valid() && game.cardDecks.Valid() && game.board.victoryTiles != []
    requires OnGraph(game.currentPlayer.currentTile, game.board.Graph()) && OnGraph(game.startTile, game.board.Graph())
    requires game.die.numFaces >= 1 ==> 0 <= rollDraw < game.die.numFaces
    modifies game.die`value, game.currentPlayer, game.cardDecks`decks, game.cardDecks`usedDecks
    ensures game.Valid() && game.cardDecks.Valid()
    ensures var w := old(RolledWalk(game, rollDraw, victoryTile, dec));
            TurnInRange(old(game.Abs())) && game.Abs() == WithCurrent(old(game.Abs()), w.player) &&
            newVictoryTile == w.victoryTile && gameOver == w.gameOver
    ensures DrawnAs(old(ColourOf(RolledWalk(game, rollDraw, victoryTile, dec).player.tile)),
                    old(game.cardDecks.State()), game.cardDecks.State(), drawn, draws)
  {
    ghost var seats: seq<object> := game.players;
    assert game.cardDecks !in seats;
    newVictoryTile, gameOver := RollAndMove(game, rollDraw, victoryTile, dec);
    game.AbsInRange();
    drawn := DrawForCurrent(game, draws);
  }

  /**
   * `handleDieRoll`: roll, move, draw a card keyed by the landed tile's
   * colour, play it, then exactly one `nextTurn`.  The die draw, the walk's
   * decisions, the shuffle draws, the dialog and the gamble draw are the
   * player's and the random source's, passed in; the victory tile is the
   * board panel's, passed in and handed back with the end-of-game signal.
   */
  method HandleDieRoll(game: Game, rollDraw: int, victoryTile: Tile, dec: MoveDecisions, draws: nat -> nat,
                       dialog: int -> int, draw: real)
    returns (newVictoryTile: Tile, gameOver: bool, drawn: DrawOutcome, threw: bool)
    requires game.Valid() && game.board.Valid() && game.cardDecks.Valid() && game.board.victoryTiles != []
    requires OnGraph(game.currentPlayer.currentTile, game.board.Graph()) && OnGraph(game.startTile, game.board.Graph())
    requires game.die.numFaces >= 1 ==> 0 <= rollDraw < game.die.numFaces
    requires HonestDialog(dialog)
    modifies game.die, game.cardDecks`decks, game.cardDecks`usedDecks
    modifies game`currentPlayerTurn, game`currentPlayer, game`activeCardsList, game.players
    ensures game.Valid() && game.cardDecks.Valid()
    ensures var w := old(RolledWalk(game, rollDraw, victoryTile, dec));
            TurnInRange(old(game.Abs())) &&
            newVictoryTile == w.victoryTile && gameOver == w.gameOver &&
            (drawn == NullColour <==> w.player.tile == null) &&
            Outcome(game.Abs(), threw) ==
              FinishRoll(WithCurrent(old(game.Abs()), w.player), drawn, dialog, draw, old(TileWithId(game.board.pathList, 0)))
    ensures DrawnAs(old(ColourOf(RolledWalk(game, rollDraw, victoryTile, dec).player.tile)),
                    old(game.cardDecks.State()), game.cardDecks.State(), drawn, draws)
  {
    ghost var seats: seq<object> := game.players;
    assert game.cardDecks !in seats && game.board !in seats && game.die !in seats;
    newVictoryTile, gameOver, drawn := RollMoveDraw(game, rollDraw, victoryTile, dec, draws);
    threw := PlayDrawn(game, drawn, dialog, draw);
  }
}
