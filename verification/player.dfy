/**
 * A player: resources that never drop below zero through `adjustResources`,
 * an income paid at the start of each turn, a step bonus, victory points and
 * the tile the player stands on; the step-by-step move along the board; and
 * drawing a card of the landed tile's colour.
 */
module Players {
  import opened Wrappers
  import opened Text
  import opened Tiles
  import opened Cards
  import opened Decks
  import opened Shuffles

  const StartResources: int := 500
  const StartIncome: int := 50
  /** The price of one victory point. */
  const VictoryPointPrice: int := 1000

  /** `resources + d`, raised to 0 when it would be negative. */
  function ClampedSum(resources: int, d: int): (r: int)
    ensures r >= 0 && r >= resources + d
    ensures resources + d >= 0 ==> r == resources + d
    ensures resources + d < 0 ==> r == 0
  {
    if resources + d < 0 then 0 else resources + d
  }

  /** Everything a player object holds. */
  datatype PlayerData = PlayerData(
    name: string, country: string, state: bool,
    resources: int, remainingSteps: int, tile: Tile?,
    income: int, stepsBonus: int, victoryPoints: int)

  /** A new player: 500 resources, 50 income, nothing else, on the given tile. */
  function NewPlayer(name: string, country: string, state: bool, start: Tile?): (p: PlayerData)
    ensures p.resources == StartResources && p.income == StartIncome
    ensures p.remainingSteps == 0 && p.stepsBonus == 0 && p.victoryPoints == 0
    ensures p.tile == start && p.name == name && p.country == country && p.state == state
  {
    PlayerData(name, country, state, StartResources, 0, start, StartIncome, 0, 0)
  }

  /** `adjustResources(d)`: only the resources change, and they stay non-negative. */
  function Adjusted(p: PlayerData, d: int): (q: PlayerData)
    ensures q.resources >= 0
    ensures q.resources == ClampedSum(p.resources, d)
    ensures q == p.(resources := q.resources)
  {
    p.(resources := ClampedSum(p.resources, d))
  }

  /** `getPaid`: the income is added to the resources through the same clamp, and nothing else changes. */
  function Paid(p: PlayerData): (q: PlayerData)
    ensures q.resources >= 0
    ensures q.resources == ClampedSum(p.resources, p.income)
    ensures q == p.(resources := q.resources)
  {
    Adjusted(p, p.income)
  }

  /** A player who is paid and then charged the same income is back where they were, unless the charge was clamped. */
  lemma PaidThenCharged(p: PlayerData)
    requires p.income >= 0 && p.resources >= 0
    ensures Adjusted(Paid(p), -p.income) == p
  {
  }

  /** Charging the income and paying it back restores resources of at least the income, and leaves exactly the income otherwise. */
  lemma ChargedThenPaid(p: PlayerData)
    requires p.income >= 0
    ensures p.resources >= p.income ==> Paid(Adjusted(p, -p.income)) == p
    ensures 0 <= p.resources < p.income ==> Paid(Adjusted(p, -p.income)).resources == p.income
  {
  }

  // ---- movement, as values ----

  /** What the game supplies while a player moves: where a purchase sends the player, the victory tiles, the target. */
  datatype MoveContext = MoveContext(startTile: Tile?, victoryTiles: seq<Tile>, numWinPoints: int)

  /**
   * The answers of the dialogs and the random draws, by step number: the
   * path dialog (right branch or not; closing it means left), the purchase
   * dialog, and the draw that re-places the victory tile.
   */
  datatype MoveDecisions = MoveDecisions(goRight: nat -> bool, buy: nat -> bool, pick: nat -> nat)

  /** The moving player, the current victory tile, and whether the end of the game was signalled. */
  datatype Walk = Walk(player: PlayerData, victoryTile: Tile, gameOver: bool)

  /** `shouldContinueMoving`: steps left, a tile, and a successor to go to. */
  predicate KeepsMoving(p: PlayerData, g: Graph)
  {
    p.remainingSteps > 0 && p.tile != null && p.tile in g && g[p.tile].next != []
  }

  /** `selectPath`: the only successor, or the dialog's answer among the first two. */
  function PathIndex(next: seq<Tile>, goRight: bool): (i: nat)
    requires next != []
    ensures i < |next|
    ensures |next| == 1 ==> i == 0
    ensures |next| > 1 ==> (i == 1 <==> goRight)
  {
    if |next| > 1 && goRight then 1 else 0
  }

  /** `purchaseVictoryPoint`: pay 1000, score a point, re-place the victory tile, go back to the start. */
  function Purchase(w: Walk, ctx: MoveContext, pick: nat): (r: Walk)
    requires ctx.victoryTiles != []
    ensures r.player.victoryPoints == w.player.victoryPoints + 1
    ensures r.player.resources == ClampedSum(w.player.resources, -VictoryPointPrice)
    ensures r.player.tile == ctx.startTile
    ensures r.victoryTile in ctx.victoryTiles
    ensures r.gameOver <==> w.gameOver || r.player.victoryPoints >= ctx.numWinPoints
    ensures r.player == w.player.(resources := r.player.resources, victoryPoints := r.player.victoryPoints, tile := r.player.tile)
  {
    var p := Adjusted(w.player, -VictoryPointPrice).(victoryPoints := w.player.victoryPoints + 1, tile := ctx.startTile);
    Walk(p, ctx.victoryTiles[pick % |ctx.victoryTiles|], w.gameOver || p.victoryPoints >= ctx.numWinPoints)
  }

  /** `handleVictoryTileOpportunity`: a purchase happens only on the victory tile, when accepted and affordable. */
  function VictoryOffer(w: Walk, ctx: MoveContext, buy: bool, pick: nat): (r: Walk)
    requires ctx.victoryTiles != []
    ensures r != w ==> w.player.tile == w.victoryTile && buy && w.player.resources >= VictoryPointPrice
    ensures r.player.remainingSteps == w.player.remainingSteps
  {
    if w.player.tile == w.victoryTile && buy && w.player.resources >= VictoryPointPrice then Purchase(w, ctx, pick)
    else w
  }

  /** One iteration of the move loop: step to the selected successor, then the victory check. */
  function StepOnce(w: Walk, g: Graph, ctx: MoveContext, dec: MoveDecisions, step: nat): (r: Walk)
    requires KeepsMoving(w.player, g) && ctx.victoryTiles != []
    ensures r.player.remainingSteps == w.player.remainingSteps - 1
  {
    var next := g[w.player.tile].next;
    var p := w.player.(tile := next[PathIndex(next, dec.goRight(step))], remainingSteps := w.player.remainingSteps - 1);
    VictoryOffer(w.(player := p), ctx, dec.buy(step), dec.pick(step))
  }

  /** The rest of the move from step number `step` on: it runs until the player should stop, never adding steps. */
  function Walked(w: Walk, g: Graph, ctx: MoveContext, dec: MoveDecisions, step: nat): (r: Walk)
    requires ctx.victoryTiles != []
    ensures !KeepsMoving(r.player, g)
    ensures r.player.remainingSteps <= w.player.remainingSteps
    ensures !KeepsMoving(w.player, g) ==> r == w
    decreases w.player.remainingSteps
  {
    if KeepsMoving(w.player, g) then Walked(StepOnce(w, g, ctx, dec, step), g, ctx, dec, step + 1)
    else w
  }

  /**
   * `move(dieValue)`: the step count is the die value plus the bonus, then the
   * loop runs until the player should stop.
   */
  function Moved(p: PlayerData, dieValue: int, victoryTile: Tile, g: Graph, ctx: MoveContext, dec: MoveDecisions): (r: Walk)
    requires ctx.victoryTiles != []
    ensures !KeepsMoving(r.player, g)
    ensures r.player.remainingSteps <= dieValue + p.stepsBonus
  {
    Walked(Walk(p.(remainingSteps := dieValue + p.stepsBonus), victoryTile, false), g, ctx, dec, 0)
  }

  /** The player stands on a tile of the snapshot, or on none. */
  predicate OnGraph(t: Tile?, g: Graph)
  {
    t == null || t in g
  }

  /**
   * The move ends on a tile of the board (or none) with no steps left, or
   * with no tile, or at a dead end.
   */
  lemma {:induction false} WalkStops(w: Walk, g: Graph, ctx: MoveContext, dec: MoveDecisions, step: nat)
    requires ctx.victoryTiles != [] && Closed(g)
    requires OnGraph(w.player.tile, g) && OnGraph(ctx.startTile, g)
    ensures var r := Walked(w, g, ctx, dec, step);
            OnGraph(r.player.tile, g) &&
            (r.player.remainingSteps <= 0 || r.player.tile == null || g[r.player.tile].next == [])
    decreases w.player.remainingSteps
  {
    if KeepsMoving(w.player, g) {
      var next := g[w.player.tile].next;
      assert next[PathIndex(next, dec.goRight(step))] in g;
      WalkStops(StepOnce(w, g, ctx, dec, step), g, ctx, dec, step + 1);
    }
  }

  /**
   * Buying points is the only way a move changes resources or points: each
   * point costs exactly 1000, so resources + 1000 * points is unchanged,
   * and income, bonus and identity are untouched.
   */
  lemma {:induction false} WalkAccounting(w: Walk, g: Graph, ctx: MoveContext, dec: MoveDecisions, step: nat)
    requires ctx.victoryTiles != []
    ensures var r := Walked(w, g, ctx, dec, step);
            r.player.resources + VictoryPointPrice * r.player.victoryPoints
              == w.player.resources + VictoryPointPrice * w.player.victoryPoints &&
            r.player.victoryPoints >= w.player.victoryPoints &&
            r.player.income == w.player.income && r.player.stepsBonus == w.player.stepsBonus &&
            r.player.name == w.player.name && r.player.country == w.player.country && r.player.state == w.player.state
    decreases w.player.remainingSteps
  {
    if KeepsMoving(w.player, g) {
      WalkAccounting(StepOnce(w, g, ctx, dec, step), g, ctx, dec, step + 1);
    }
  }

  /**
   * The victory tile is always one of the board's victory tiles, and the end
   * of the game is signalled only when the player reached the target.
   */
  lemma {:induction false} WalkVictory(w: Walk, g: Graph, ctx: MoveContext, dec: MoveDecisions, step: nat)
    requires ctx.victoryTiles != [] && w.victoryTile in ctx.victoryTiles
    requires w.gameOver ==> w.player.victoryPoints >= ctx.numWinPoints
    ensures var r := Walked(w, g, ctx, dec, step);
            r.victoryTile in ctx.victoryTiles && (r.gameOver ==> r.player.victoryPoints >= ctx.numWinPoints)
    decreases w.player.remainingSteps
  {
    if KeepsMoving(w.player, g) {
      WalkVictory(StepOnce(w, g, ctx, dec, step), g, ctx, dec, step + 1);
    }
  }

  /** On a straight path away from the victory tile, a move of one step ends on the successor with no steps left. */
  lemma SingleSuccessorStep(a: Tile, b: Tile, p: PlayerData, vt: Tile, g: Graph, ctx: MoveContext, dec: MoveDecisions)
    requires ctx.victoryTiles != [] && a in g && b in g && g[a].next == [b] && g[b].next == [] && b != vt
    requires p.tile == a && p.stepsBonus == 0
    ensures Moved(p, 1, vt, g, ctx, dec).player == p.(tile := b, remainingSteps := 0)
  {
    var w := Walk(p.(remainingSteps := 1), vt, false);
    assert KeepsMoving(w.player, g);
    var w1 := StepOnce(w, g, ctx, dec, 0);
    assert w1.player == p.(tile := b, remainingSteps := 0);
    assert !KeepsMoving(w1.player, g);
    assert Walked(w1, g, ctx, dec, 1) == w1;
    assert Moved(p, 1, vt, g, ctx, dec) == Walked(w, g, ctx, dec, 0) == Walked(w1, g, ctx, dec, 1);
  }

  // ---- drawing, as values ----

  /** The drawn card and the two piles afterwards. */
  datatype Drawn = Drawn(card: Card, deck: seq<Card>, used: seq<Card>)

  /**
   * `drawFromDeck`: the discard pile is shuffled into the empty draw pile
   * first; the front card is then moved to the end of the discard pile.
   */
  function DrawFrom(deck: seq<Card>, used: seq<Card>, draws: nat -> nat): (r: Drawn)
    requires |deck| + |used| >= 1
    ensures |r.used| >= 1 && r.used[|r.used| - 1] == r.card
    ensures deck != [] ==> r.card == deck[0] && r.deck == deck[1..] && r.used == used + [deck[0]]
    ensures deck == [] ==> r.used == [r.card]
  {
    var full := if deck == [] then Shuffle(used, draws) else deck;
    var rest := if deck == [] then [] else used;
    Drawn(full[0], full[1..], rest + [full[0]])
  }

  /**
   * A draw neither creates nor loses cards: the two piles hold the same
   * cards as before, and a card drawn after a refill came from the discard pile.
   */
  lemma DrawConserves(deck: seq<Card>, used: seq<Card>, draws: nat -> nat)
    requires |deck| + |used| >= 1
    ensures var r := DrawFrom(deck, used, draws);
            multiset(r.deck) + multiset(r.used) == multiset(deck) + multiset(used) &&
            (deck == [] ==> r.card in multiset(used))
  {
    var full := if deck == [] then Shuffle(used, draws) else deck;
    assert full == [full[0]] + full[1..];
    assert multiset(full) == multiset{full[0]} + multiset(full[1..]);
  }

  /** What `drawCard` gives back: it throws on a player without a tile, or there is no deck, or a card. */
  datatype DrawOutcome = NullColour | NoDeck | Drew(card: Card)

  /** The colour of the tile a player stands on: its type, or `None` for Java's `null` when there is no tile. */
  function ColourOf(tile: Tile?): Option<string>
    reads tile
  {
    if tile == null then None else Some(tile.tileType)
  }

  /**
   * What `drawCard` does to the piles `before`, leaving `after`, for a player
   * whose tile has the colour `colour`: without a colour (the call throws) or
   * without a deck of that colour the piles stay; otherwise the piles of the
   * upper-cased colour give up a card as `drawFromDeck` does, and no other
   * pile changes.
   */
  predicate DrawnAs(colour: Option<string>, before: Piles, after: Piles, drawn: DrawOutcome, draws: nat -> nat)
  {
    match colour
    case None => drawn == NullColour && after == before
    case Some(c) =>
      var key := Upper(c);
      if IsColourKey(key) && key in before.decks then
        key in before.used && |before.decks[key]| + |before.used[key]| >= 1 &&
        var d := DrawFrom(before.decks[key], before.used[key], draws);
        drawn == Drew(d.card) && after == Piles(before.decks[key := d.deck], before.used[key := d.used])
      else drawn == NoDeck && after == before
  }

  class Player {
    var name: string
    var country: string
    var state: bool
    var resources: int
    var remainingSteps: int
    var currentTile: Tile?
    var income: int
    var stepsBonus: int
    var victoryPoints: int

    function Data(): PlayerData
      reads this
    {
      PlayerData(name, country, state, resources, remainingSteps, currentTile, income, stepsBonus, victoryPoints)
    }

    constructor (name: string, country: string, initialState: bool, startingTile: Tile?)
      ensures Data() == NewPlayer(name, country, initialState, startingTile)
    {
      this.name := name;
      this.country := country;
      this.state := initialState;
      resources := StartResources;
      remainingSteps := 0;
      currentTile := startingTile;
      income := StartIncome;
      stepsBonus := 0;
      victoryPoints := 0;
    }

    /** `adjustResources`: add, then raise a negative total to 0. */
    method AdjustResources(d: int)
      modifies this`resources
      ensures Data() == Adjusted(old(Data()), d)
    {
      resources := resources + d;
      if resources < 0 {
        resources := 0;
      }
    }

    /** `getPaid`. */
    method GetPaid()
      modifies this`resources
      ensures Data() == Paid(old(Data()))
    {
      AdjustResources(income);
    }

    /** `setResources`: no clamp. */
    method SetResources(r: int)
      modifies this`resources
      ensures Data() == old(Data()).(resources := r)
    {
      resources := r;
    }

    /** `adjustIncome`: no clamp. */
    method AdjustIncome(i: int)
      modifies this`income
      ensures Data() == old(Data()).(income := old(income) + i)
    {
      income := income + i;
    }

    /** `addStepsBonus`: no clamp. */
    method AddStepsBonus(bonus: int)
      modifies this`stepsBonus
      ensures Data() == old(Data()).(stepsBonus := old(stepsBonus) + bonus)
    {
      stepsBonus := stepsBonus + bonus;
    }

    method AddVictoryPoints(points: int)
      modifies this`victoryPoints
      ensures Data() == old(Data()).(victoryPoints := old(victoryPoints) + points)
    {
      victoryPoints := victoryPoints + points;
    }

    method SetCurrentTile(tile: Tile?)
      modifies this`currentTile
      ensures Data() == old(Data()).(tile := tile)
    {
      currentTile := tile;
    }

    /**
     * `move`: walk one successor per step while steps remain, asking at each
     * fork, and offer the victory point after every step.  The victory tile
     * and the end-of-game signal are the game's, passed in and handed back.
     */
    method Move(dieValue: int, ghost g: Graph, ctx: MoveContext, dec: MoveDecisions, victoryTile: Tile)
      returns (newVictoryTile: Tile, gameOver: bool)
      requires ctx.victoryTiles != [] && Mirrors(g) && Closed(g)
      requires OnGraph(currentTile, g) && OnGraph(ctx.startTile, g)
      modifies this`remainingSteps, this`currentTile, this`resources, this`victoryPoints
      ensures Walk(Data(), newVictoryTile, gameOver) == Moved(old(Data()), dieValue, victoryTile, g, ctx, dec)
      ensures OnGraph(currentTile, g)
    {
      remainingSteps := dieValue + stepsBonus;
      newVictoryTile, gameOver := victoryTile, false;
      ghost var start := Walk(Data(), victoryTile, false);
      var step: nat := 0;
      while remainingSteps > 0 && currentTile != null && currentTile.nextTiles != []
        invariant OnGraph(currentTile, g)
        invariant Walked(Walk(Data(), newVictoryTile, gameOver), g, ctx, dec, step) == Walked(start, g, ctx, dec, 0)
        decreases remainingSteps
      {
        newVictoryTile, gameOver := MoveToNextTile(g, ctx, dec, step, newVictoryTile, gameOver);
        step := step + 1;
      }
    }

    /** One step of `move`: `selectPath`, `moveToNextTile`, one step fewer, then the victory check. */
    method MoveToNextTile(ghost g: Graph, ctx: MoveContext, dec: MoveDecisions, step: nat, victoryTile: Tile, gameOver: bool)
      returns (newVictoryTile: Tile, newGameOver: bool)
      requires ctx.victoryTiles != [] && Mirrors(g) && Closed(g) && OnGraph(ctx.startTile, g)
      requires remainingSteps > 0 && currentTile != null && currentTile in g && currentTile.nextTiles != []
      modifies this`remainingSteps, this`currentTile, this`resources, this`victoryPoints
      ensures Walk(Data(), newVictoryTile, newGameOver) == StepOnce(Walk(old(Data()), victoryTile, gameOver), g, ctx, dec, step)
      ensures OnGraph(currentTile, g)
    {
      ghost var before := Walk(Data(), victoryTile, gameOver);
      var nextTiles := currentTile.nextTiles;
      assert nextTiles == g[currentTile].next;
      var pathIndex := PathIndex(nextTiles, dec.goRight(step));
      assert nextTiles[pathIndex] in g;
      currentTile := nextTiles[pathIndex];
      remainingSteps := remainingSteps - 1;
      newVictoryTile, newGameOver := HandleVictoryTileOpportunity(ctx, dec.buy(step), dec.pick(step), victoryTile, gameOver);
    }

    /** `handleVictoryTileOpportunity`. */
    method HandleVictoryTileOpportunity(ctx: MoveContext, buy: bool, pick: nat, victoryTile: Tile, gameOver: bool)
      returns (newVictoryTile: Tile, newGameOver: bool)
      requires ctx.victoryTiles != []
      modifies this`currentTile, this`resources, this`victoryPoints
      ensures Walk(Data(), newVictoryTile, newGameOver) == VictoryOffer(Walk(old(Data()), victoryTile, gameOver), ctx, buy, pick)
    {
      newVictoryTile, newGameOver := victoryTile, gameOver;
      if currentTile == victoryTile && buy {
        if resources >= VictoryPointPrice {
          newVictoryTile, newGameOver := PurchaseVictoryPoint(ctx, pick, gameOver);
        }
      }
    }

    /** `purchaseVictoryPoint`. */
    method PurchaseVictoryPoint(ctx: MoveContext, pick: nat, gameOver: bool) returns (newVictoryTile: Tile, newGameOver: bool)
      requires ctx.victoryTiles != []
      modifies this`currentTile, this`resources, this`victoryPoints
      ensures forall vt :: Walk(Data(), newVictoryTile, newGameOver) == Purchase(Walk(old(Data()), vt, gameOver), ctx, pick)
    {
      AdjustResources(-VictoryPointPrice);
      AddVictoryPoints(1);
      newVictoryTile := ctx.victoryTiles[pick % |ctx.victoryTiles|];
      SetCurrentTile(ctx.startTile);
      newGameOver := gameOver || victoryPoints >= ctx.numWinPoints;
    }

    /** `getColor`: the current tile's type, or `None` for Java's `null`. */
    function GetColor(): (r: Option<string>)
      reads this, currentTile
      ensures r == ColourOf(currentTile)
    {
      if currentTile != null then Some(currentTile.tileType) else None
    }

    /**
     * `drawCard`: the piles of the tile's colour, looked up with the
     * upper-cased type; no draw when there is no such deck.
     */
    method DrawCard(cardDecks: CardDecks, draws: nat -> nat) returns (r: DrawOutcome)
      requires cardDecks.Valid()
      modifies cardDecks`decks, cardDecks`usedDecks
      ensures cardDecks.Valid()
      ensures currentTile == null <==> r == NullColour
      ensures r.NoDeck? <==> currentTile != null && old(cardDecks.GetCardsByType(currentTile.tileType)).None?
      ensures !r.Drew? ==> cardDecks.State() == old(cardDecks.State())
      ensures r.Drew? ==>
                var key := Upper(currentTile.tileType);
                var d := DrawFrom(old(cardDecks.decks[key]), old(cardDecks.usedDecks[key]), draws);
                key in old(cardDecks.decks) && r.card == d.card &&
                cardDecks.decks == old(cardDecks.decks)[key := d.deck] &&
                cardDecks.usedDecks == old(cardDecks.usedDecks)[key := d.used]
      ensures DrawnAs(GetColor(), old(cardDecks.State()), cardDecks.State(), r, draws)
    {
      var colour := GetColor();
      if colour.None? {
        return NullColour;
      }
      var upper := Upper(colour.value);
      UpperIdempotent(colour.value);
      var deck := cardDecks.GetCardsByType(upper);
      if deck.None? {
        return NoDeck;
      }
      var card := DrawFromDeck(cardDecks, upper, draws);
      r := Drew(card);
    }

    /** `drawFromDeck` on the two piles stored under `key`, changed in place. */
    method DrawFromDeck(cardDecks: CardDecks, key: string, draws: nat -> nat) returns (card: Card)
      requires cardDecks.Valid() && key in cardDecks.decks
      modifies cardDecks`decks, cardDecks`usedDecks
      ensures cardDecks.Valid()
      ensures var d := DrawFrom(old(cardDecks.decks[key]), old(cardDecks.usedDecks[key]), draws);
              card == d.card &&
              cardDecks.decks == old(cardDecks.decks)[key := d.deck] &&
              cardDecks.usedDecks == old(cardDecks.usedDecks)[key := d.used]
    {
      var deck := cardDecks.decks[key];
      var used := cardDecks.usedDecks[key];
      if deck == [] {
        deck := Shuffle(used, draws);
        used := [];
      }
      card := deck[0];
      cardDecks.SetPiles(key, deck[1..], used + [card]);
    }
  }
}
