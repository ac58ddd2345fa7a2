/**
 * Red cards: one of seven actions chosen by the card's method tag; the
 * income and die changes are timed and register an active effect, skip-turn
 * and roll-again move the turn, and an unknown tag does nothing.
 */
module RedCards {
  import opened Wrappers
  import opened Tiles
  import opened Cards
  import opened Players
  import opened Tables
  import opened TurnRules

  /** The entry a timed red card registers: count 1 + duration * N and no data. */
  function RedEntry(c: Card, players: int): (e: ActiveEffect)
    requires c.RedCard?
    ensures e.card == c && e.data.None? && e.count == EffectCount(c.duration, players)
  {
    ActiveEffect(c, EffectCount(c.duration, players), None)
  }

  /** The method tags a red card acts on. */
  predicate KnownRedTag(m: string)
  {
    m in {SelfMoneyChange, OtherMoneyChange, IncomeChange, DieChange, SkipTurn, MoveToStart, RollAgain}
  }

  /**
   * `RedCard.executeCard`.  `tileZero` is `findTileByID(0)`: the first tile
   * loaded with ID 0, or none.
   */
  function ExecuteRed(t: Table, c: Card, tileZero: Tile?): (r: Table)
    requires TurnInRange(t) && c.RedCard?
    ensures TurnInRange(r) && |r.players| == |t.players|
    ensures !KnownRedTag(c.methodType) ==> r == t
  {
    var v := c.valueChange;
    var m := c.methodType;
    if m == SelfMoneyChange then WithCurrent(t, Adjusted(Current(t), v))
    else if m == OtherMoneyChange then t.(players := AdjustOthers(t.players, t.turn - 1, v))
    else if m == IncomeChange then
      WithCurrent(t, Current(t).(income := Current(t).income + v)).(active := t.active + [RedEntry(c, |t.players|)])
    else if m == DieChange then
      t.(faces := t.faces + v, active := t.active + [RedEntry(c, |t.players|)])
    else if m == SkipTurn then NextTurn(t)
    else if m == MoveToStart then WithCurrent(t, Current(t).(tile := tileZero))
    else if m == RollAgain then PreviousTurn(t)
    else t
  }

  /** The money actions change resources only, through the clamp, and register nothing. */
  lemma RedMoney(t: Table, c: Card, tileZero: Tile?)
    requires TurnInRange(t) && c.RedCard? && c.methodType in {SelfMoneyChange, OtherMoneyChange}
    ensures var r := ExecuteRed(t, c, tileZero);
            r.turn == t.turn && r.faces == t.faces && r.active == t.active &&
            forall j :: 0 <= j < |t.players| ==>
              r.players[j] == if (j == t.turn - 1) == (c.methodType == SelfMoneyChange)
                              then Adjusted(t.players[j], c.valueChange) else t.players[j]
  {
  }

  /**
   * A timed red card registers exactly one entry with count 1 + duration * N,
   * and reverting that entry on the same current player undoes the change.
   */
  lemma RedTimedReverts(t: Table, c: Card, tileZero: Tile?)
    requires TurnInRange(t) && c.RedCard? && c.methodType in {IncomeChange, DieChange}
    ensures var r := ExecuteRed(t, c, tileZero);
            r.active == t.active + [RedEntry(c, |t.players|)] && r.turn == t.turn &&
            RemoveEffect(r, RedEntry(c, |t.players|)) == t.(active := r.active)
  {
    var r := ExecuteRed(t, c, tileZero);
    var e := RedEntry(c, |t.players|);
    if c.methodType == IncomeChange {
      assert Current(r).(income := Current(r).income - IncomeDelta(e), stepsBonus := Current(r).stepsBonus - BonusDelta(e)) == Current(t);
    } else {
      assert Current(r).(income := Current(r).income - IncomeDelta(e), stepsBonus := Current(r).stepsBonus - BonusDelta(e)) == Current(t);
    }
    assert t.players[t.turn - 1 := Current(t)] == t.players;
  }

  /** Move-to-start puts the current player on tile 0 and changes nothing else. */
  lemma RedMoveToStart(t: Table, c: Card, tileZero: Tile?)
    requires TurnInRange(t) && c.RedCard? && c.methodType == MoveToStart
    ensures ExecuteRed(t, c, tileZero) == WithCurrent(t, Current(t).(tile := tileZero))
  {
  }

  /** Skip-turn plus the advance that ends the roll moves the turn on by two seats. */
  lemma RedSkipTurn(t: Table, c: Card, tileZero: Tile?)
    requires TurnInRange(t) && c.RedCard? && c.methodType == SkipTurn
    ensures NextTurn(ExecuteRed(t, c, tileZero)).turn == AdvancedIndex(t.turn, |t.players|, 2)
  {
    var n := |t.players|;
    assert ExecuteRed(t, c, tileZero) == NextTurn(t);
    assert AdvancedIndex(t.turn, n, 1) == NextIndex(t.turn, n);
  }

  /**
   * Roll-again plus the advance that ends the roll gives the same player
   * another turn with everything as it was, when the income charge is not
   * clamped and every count is positive.
   */
  lemma RedRollAgain(t: Table, c: Card, tileZero: Tile?)
    requires TurnInRange(t) && c.RedCard? && c.methodType == RollAgain
    requires forall e :: e in t.active ==> e.count >= 1
    requires 0 <= Current(t).income <= Current(t).resources
    ensures NextTurn(ExecuteRed(t, c, tileZero)) == t
  {
    RollAgainRestores(t);
  }
}
