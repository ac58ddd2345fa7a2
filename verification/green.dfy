/**
 * Green cards, and the default `Card.executeCard` they share: a flat change
 * of the current player's resources, never a timed effect.
 */
module GreenCards {
  import opened Tiles
  import opened Cards
  import opened Players
  import opened Tables
  import opened TurnRules

  /** `GreenCard.executeCard` (and `Card.executeCard`): `adjustResources(valueChange)` on the current player. */
  function ExecuteGreen(t: Table, c: Card): (r: Table)
    requires TurnInRange(t)
    ensures TurnInRange(r) && r.turn == t.turn && r.faces == t.faces && r.active == t.active
    ensures |r.players| == |t.players|
    ensures Current(r).resources >= 0
    ensures Current(t).resources + c.valueChange >= 0 ==> Current(r).resources == Current(t).resources + c.valueChange
    ensures Current(t).resources + c.valueChange < 0 ==> Current(r).resources == 0
    ensures Current(r) == Current(t).(resources := Current(r).resources)
    ensures forall j :: 0 <= j < |t.players| && j != t.turn - 1 ==> r.players[j] == t.players[j]
  {
    WithCurrent(t, Adjusted(Current(t), c.valueChange))
  }

  /** A green card's entry would revert nothing (no green card ever registers one). */
  lemma GreenRemoveIsNoOp(t: Table, e: ActiveEffect)
    requires TurnInRange(t) && e.card.GreenCard?
    ensures RemoveEffect(t, e) == t
  {
    assert Current(t).(income := Current(t).income - 0, stepsBonus := Current(t).stepsBonus - 0) == Current(t);
    assert t.players[t.turn - 1 := Current(t)] == t.players;
  }

  /**
   * A new player who was paid the first income and then drew a green card
   * worth 100 holds 500 + 50 + 100 = 650.
   */
  lemma FirstTurnGreenCard(name: string, country: string, start: Tile?, c: Card)
    requires c.GreenCard? && c.valueChange == 100
    ensures var t := Table(1, [Paid(NewPlayer(name, country, true, start))], 6, []);
            Current(ExecuteGreen(t, c)).resources == 650
  {
  }
}
