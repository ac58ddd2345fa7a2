/**
 * The turn controller's rules on the table: `removeEffect` of the three card
 * kinds, the backward `countdown` and `countup` passes over the active
 * effects, `nextTurn` and `previousTurn`, and what they promise together:
 * survivors keep their order, expired effects are reverted exactly once,
 * a roll-again followed by the usual advance restores the table, and a
 * timed effect is reverted while the player who drew it is current again.
 */
module TurnRules {
  import opened Wrappers
  import opened Cards
  import opened Players
  import opened Tables

  // ---- removeEffect ----

  /** What expiring `e` takes back from the current player's income. */
  function IncomeDelta(e: ActiveEffect): int
  {
    match e.card
    case GreenCard(_, _, _) => 0
    case RedCard(_, v, _, m, _) => if m == IncomeChange then v else 0
    case BlueCard(_, _, _, _, _, _, _) =>
      if e.data.Some? && e.data.value.methodType == ChangeIncome then e.data.value.valueChange else 0
  }

  /** What expiring `e` takes back from the current player's step bonus. */
  function BonusDelta(e: ActiveEffect): int
  {
    if e.card.BlueCard? && e.data.Some? && e.data.value.methodType == ChangeSteps then e.data.value.valueChange else 0
  }

  /** What expiring `e` takes back from the die's face count. */
  function FacesDelta(e: ActiveEffect): int
  {
    if e.card.RedCard? && e.card.methodType == DieChange then e.card.valueChange else 0
  }

  /**
   * `removeEffect`: green does nothing; red takes back an income or a die
   * change; blue takes back the step bonus or income recorded in the
   * entry's data.  Whatever it takes back, it takes from whoever is current.
   */
  function RemoveEffect(t: Table, e: ActiveEffect): (r: Table)
    requires TurnInRange(t)
    ensures r == WithCurrent(t, Current(t).(income := Current(t).income - IncomeDelta(e),
                                            stepsBonus := Current(t).stepsBonus - BonusDelta(e)))
                 .(faces := t.faces - FacesDelta(e))
  {
    match e.card
    case GreenCard(_, _, _) => t
    case RedCard(_, v, _, m, _) =>
      var t1 := if m == IncomeChange then WithCurrent(t, Current(t).(income := Current(t).income - v)) else t;
      if m == DieChange then t1.(faces := t1.faces - v) else t1
    case BlueCard(_, _, _, _, _, _, _) =>
      if e.data.None? then t
      else if e.data.value.methodType == ChangeSteps then
        WithCurrent(t, Current(t).(stepsBonus := Current(t).stepsBonus - e.data.value.valueChange))
      else if e.data.value.methodType == ChangeIncome then
        WithCurrent(t, Current(t).(income := Current(t).income - e.data.value.valueChange))
      else t
  }

  /** Reverting depends on the card and its data, not on the count left. */
  lemma RemoveEffectIgnoresCount(t: Table, e: ActiveEffect, count: int)
    requires TurnInRange(t)
    ensures RemoveEffect(t, e.(count := count)) == RemoveEffect(t, e)
  {
    var e1 := e.(count := count);
    assert IncomeDelta(e1) == IncomeDelta(e) && BonusDelta(e1) == BonusDelta(e) && FacesDelta(e1) == FacesDelta(e);
  }

  // ---- countdown and countup ----

  function Decremented(e: ActiveEffect): ActiveEffect
  {
    e.(count := e.count - 1)
  }

  /** An entry whose count drops to 0 on this pass. */
  predicate Expires(e: ActiveEffect)
  {
    e.count - 1 == 0
  }

  /** The entries that outlive one pass, each one count lower, in their order. */
  function Survivors(s: seq<ActiveEffect>): (r: seq<ActiveEffect>)
    ensures |r| <= |s|
  {
    if s == [] then []
    else
      var i := |s| - 1;
      Survivors(s[..i]) + if Expires(s[i]) then [] else [Decremented(s[i])]
  }

  /** The sum of `delta` over the entries of `s` that expire on this pass. */
  function ExpiredTotal(s: seq<ActiveEffect>, delta: ActiveEffect -> int): int
  {
    if s == [] then 0
    else
      var i := |s| - 1;
      ExpiredTotal(s[..i], delta) + if Expires(s[i]) then delta(s[i]) else 0
  }

  /**
   * `countdown` from index k - 1 down to 0: each entry loses one; one that
   * reaches 0 is reverted and removed, the others keep the lower count.
   */
  function CountdownFrom(t: Table, k: nat): (r: Table)
    requires TurnInRange(t) && k <= |t.active|
    ensures TurnInRange(r) && r.turn == t.turn && |r.players| == |t.players|
    decreases k
  {
    if k == 0 then t
    else
      var i := k - 1;
      var e := t.active[i];
      if Expires(e) then CountdownFrom(RemoveEffect(t, e).(active := t.active[..i] + t.active[k..]), i)
      else CountdownFrom(t.(active := t.active[i := Decremented(e)]), i)
  }

  /** One step of the pass, at index i: the entry loses one; at 0 it is reverted and removed. */
  function CountdownStep(t: Table, i: nat): (r: Table)
    requires TurnInRange(t) && i < |t.active|
    ensures TurnInRange(r) && r.turn == t.turn && |r.players| == |t.players|
    ensures |r.active| == if Expires(t.active[i]) then |t.active| - 1 else |t.active|
  {
    var e := t.active[i];
    if Expires(e) then RemoveEffect(t, e).(active := t.active[..i] + t.active[i + 1..])
    else t.(active := t.active[i := Decremented(e)])
  }

  /** The pass from index k = i + 1 is the step at i followed by the pass from i. */
  lemma CountdownUnfold(t: Table, i: nat, k: nat)
    requires TurnInRange(t) && i < |t.active| && k == i + 1
    ensures CountdownFrom(t, k) == CountdownFrom(CountdownStep(t, i), i)
  {
  }

  function Countdown(t: Table): (r: Table)
    requires TurnInRange(t)
    ensures TurnInRange(r) && r.turn == t.turn && |r.players| == |t.players|
  {
    CountdownFrom(t, |t.active|)
  }

  /** The active list after the pass is the survivors, in order. */
  lemma {:induction false} CountdownActive(t: Table, k: nat)
    requires TurnInRange(t) && k <= |t.active|
    ensures CountdownFrom(t, k).active == Survivors(t.active[..k]) + t.active[k..]
    decreases k
  {
    if k > 0 {
      var i := k - 1;
      var e := t.active[i];
      assert t.active[..k][..i] == t.active[..i];
      if Expires(e) {
        var t1 := RemoveEffect(t, e).(active := t.active[..i] + t.active[k..]);
        CountdownActive(t1, i);
        assert t1.active[..i] == t.active[..i] && t1.active[i..] == t.active[k..];
      } else {
        var t1 := t.(active := t.active[i := Decremented(e)]);
        CountdownActive(t1, i);
        assert t1.active[..i] == t.active[..i];
        assert t1.active[i..] == [Decremented(e)] + t.active[k..];
      }
    }
  }

  /**
   * Every expiring entry is reverted exactly once, on the current player and
   * the die: income, step bonus and faces drop by the expired entries'
   * totals; nothing else of the current player and no other player changes.
   */
  lemma {:induction false} CountdownReverts(t: Table, k: nat)
    requires TurnInRange(t) && k <= |t.active|
    ensures var r := CountdownFrom(t, k);
            var s := t.active[..k];
            r.faces == t.faces - ExpiredTotal(s, FacesDelta) &&
            r.players == t.players[t.turn - 1 := Current(t).(income := Current(t).income - ExpiredTotal(s, IncomeDelta),
                                                             stepsBonus := Current(t).stepsBonus - ExpiredTotal(s, BonusDelta))]
    decreases k
  {
    if k > 0 {
      var i := k - 1;
      var e := t.active[i];
      assert t.active[..k][..i] == t.active[..i];
      var t1 := if Expires(e) then RemoveEffect(t, e).(active := t.active[..i] + t.active[k..])
                else t.(active := t.active[i := Decremented(e)]);
      assert t1.active[..i] == t.active[..i];
      CountdownReverts(t1, i);
    }
  }

  /** When no entry expires, the pass only lowers the counts. */
  lemma {:induction false} NothingExpires(s: seq<ActiveEffect>, delta: ActiveEffect -> int)
    requires forall e :: e in s ==> !Expires(e)
    ensures ExpiredTotal(s, delta) == 0
  {
    if s != [] {
      assert forall e :: e in s[..|s| - 1] ==> e in s;
      NothingExpires(s[..|s| - 1], delta);
    }
  }

  function Incremented(e: ActiveEffect): ActiveEffect
  {
    e.(count := e.count + 1)
  }

  /** Every count one higher, in the same order. */
  function CountedUp(s: seq<ActiveEffect>): (r: seq<ActiveEffect>)
    ensures |r| == |s|
    ensures forall i :: 0 <= i < |s| ==> r[i] == Incremented(s[i])
  {
    seq(|s|, i requires 0 <= i < |s| => Incremented(s[i]))
  }

  /** `countup`: every entry's count goes up by one; nothing is removed or reverted, and the players and the turn stay. */
  function Countup(t: Table): (r: Table)
    ensures r.turn == t.turn && r.players == t.players && r.faces == t.faces
    ensures |r.active| == |t.active|
    ensures forall i :: 0 <= i < |t.active| ==>
              r.active[i].card == t.active[i].card && r.active[i].data == t.active[i].data &&
              r.active[i].count == t.active[i].count + 1
  {
    t.(active := CountedUp(t.active))
  }

  /** After a countup, an entry of positive count is at least 2, so none expires. */
  lemma CountedUpNeverExpires(s: seq<ActiveEffect>)
    requires forall e :: e in s ==> e.count >= 1
    ensures forall e :: e in CountedUp(s) ==> !Expires(e)
  {
    var up := CountedUp(s);
    forall e | e in up
      ensures !Expires(e)
    {
      var k :| 0 <= k < |up| && up[k] == e;
      assert s[k] in s;
    }
  }

  /** A countup undone by the next countdown: no entry of positive count expires, and all are back. */
  lemma {:induction false} SurvivorsUndoCountup(s: seq<ActiveEffect>)
    requires forall e :: e in s ==> e.count >= 1
    ensures Survivors(CountedUp(s)) == s
    ensures forall e :: e in CountedUp(s) ==> !Expires(e)
  {
    CountedUpNeverExpires(s);
    var up := CountedUp(s);
    if s == [] {
      assert up == [];
    } else {
      var i := |s| - 1;
      assert forall e :: e in s[..i] ==> e in s;
      SurvivorsUndoCountup(s[..i]);
      assert up[..i] == CountedUp(s[..i]);
      assert s[i] in s;
      assert Decremented(up[i]) == s[i];
      assert Survivors(up) == s[..i] + [s[i]];
      assert s[..i] + [s[i]] == s;
    }
  }

  // ---- advancing and reverting the turn ----

  /** `nextTurn`: countdown, move to the next seat, pay that player's income. */
  function NextTurn(t: Table): (r: Table)
    requires TurnInRange(t)
    ensures TurnInRange(r) && r.turn == NextIndex(t.turn, |t.players|) && |r.players| == |t.players|
  {
    var c := Countdown(t);
    var moved := c.(turn := NextIndex(c.turn, |c.players|));
    WithCurrent(moved, Paid(Current(moved)))
  }

  /**
   * `previousTurn`: countup, charge the current player their own income,
   * move back a seat; nobody is paid.
   */
  function PreviousTurn(t: Table): (r: Table)
    requires TurnInRange(t)
    ensures TurnInRange(r) && r.turn == PreviousIndex(t.turn, |t.players|) && |r.players| == |t.players|
  {
    ChargeBack(Countup(t))
  }

  /** The second half of `previousTurn`: the current player pays their own income back, and the turn moves back a seat. */
  function ChargeBack(u: Table): (r: Table)
    requires TurnInRange(u)
    ensures TurnInRange(r) && r.turn == PreviousIndex(u.turn, |u.players|) && |r.players| == |u.players|
    ensures r.active == u.active && r.faces == u.faces
    ensures Current(u).income >= 0 && Current(u).resources >= Current(u).income ==>
              r.players[u.turn - 1].resources == Current(u).resources - Current(u).income
  {
    WithCurrent(u, Adjusted(Current(u), -Current(u).income)).(turn := PreviousIndex(u.turn, |u.players|))
  }

  /** `nextTurn` keeps exactly the surviving entries, in their order. */
  lemma NextTurnActive(t: Table)
    requires TurnInRange(t)
    ensures NextTurn(t).active == Survivors(t.active)
  {
    CountdownActive(t, |t.active|);
    assert t.active[..|t.active|] == t.active;
  }

  /**
   * With no expiring entry, `nextTurn` only lowers the counts and pays the
   * next player once; every other player is unchanged.
   */
  lemma NextTurnPays(t: Table)
    requires TurnInRange(t)
    requires forall e :: e in t.active ==> !Expires(e)
    ensures var next := NextIndex(t.turn, |t.players|);
            NextTurn(t) == t.(turn := next, active := Survivors(t.active),
                              players := t.players[next - 1 := Paid(t.players[next - 1])])
  {
    NextTurnActive(t);
    CountdownReverts(t, |t.active|);
    assert t.active[..|t.active|] == t.active;
    NothingExpires(t.active, IncomeDelta);
    NothingExpires(t.active, BonusDelta);
    NothingExpires(t.active, FacesDelta);
    assert Current(t).(income := Current(t).income - 0, stepsBonus := Current(t).stepsBonus - 0) == Current(t);
  }

  /**
   * A roll-again (`previousTurn`) followed by the advance that ends every
   * die roll puts everything back: the seat, every count, and the current
   * player's resources, provided the charge was not clamped.
   */
  lemma RollAgainRestores(t: Table)
    requires TurnInRange(t)
    requires forall e :: e in t.active ==> e.count >= 1
    requires 0 <= Current(t).income <= Current(t).resources
    ensures NextTurn(PreviousTurn(t)) == t
  {
    var p := PreviousTurn(t);
    var charged := Adjusted(Current(t), -Current(t).income);
    assert p == t.(turn := PreviousIndex(t.turn, |t.players|), active := CountedUp(t.active),
                   players := t.players[t.turn - 1 := charged]);
    SurvivorsUndoCountup(t.active);
    IndexRoundTrip(t.turn, |t.players|);
    NextTurnPays(p);
    ChargedThenPaid(Current(t));
    assert Paid(charged) == Current(t);
    assert t.players[t.turn - 1 := charged][t.turn - 1 := Current(t)] == t.players;
  }

  // ---- lifetime of a timed effect ----

  /** The table after k turn advances. */
  function Advance(t: Table, k: nat): (r: Table)
    requires TurnInRange(t)
    ensures TurnInRange(r) && |r.players| == |t.players| && r.turn == AdvancedIndex(t.turn, |t.players|, k)
  {
    if k == 0 then t else NextTurn(Advance(t, k - 1))
  }

  /** The active list after k passes. */
  function Decayed(s: seq<ActiveEffect>, k: nat): seq<ActiveEffect>
  {
    if k == 0 then s else Survivors(Decayed(s, k - 1))
  }

  lemma {:induction false} AdvanceActive(t: Table, k: nat)
    requires TurnInRange(t)
    ensures Advance(t, k).active == Decayed(t.active, k)
  {
    if k > 0 {
      AdvanceActive(t, k - 1);
      NextTurnActive(Advance(t, k - 1));
    }
  }

  /** An entry appended last stays last, one count lower per pass, as long as its count has not run out. */
  lemma {:induction false} DecayedAppend(s: seq<ActiveEffect>, e: ActiveEffect, k: nat)
    requires k < e.count
    ensures Decayed(s + [e], k) == Decayed(s, k) + [e.(count := e.count - k)]
  {
    if k > 0 {
      DecayedAppend(s, e, k - 1);
      var x := Decayed(s, k - 1) + [e.(count := e.count - (k - 1))];
      assert x[..|x| - 1] == Decayed(s, k - 1);
    }
  }

  /**
   * A timed effect registered with count 1 + D * N on seat t's turn
   * survives the D * N advances that follow: seat t is current again and the
   * entry is still last, now with count 1.
   */
  lemma TimedEffectSurvives(t: Table, e: ActiveEffect, rounds: nat)
    requires TurnInRange(t) && e.count == EffectCount(rounds, |t.players|)
    ensures var a := Advance(t.(active := t.active + [e]), rounds * |t.players|);
            a.turn == t.turn && a.active == Decayed(t.active, rounds * |t.players|) + [e.(count := 1)]
  {
    var n := |t.players|;
    var t1 := t.(active := t.active + [e]);
    FullRounds(t.turn, n, rounds);
    AdvanceActive(t1, rounds * n);
    DecayedAppend(t.active, e, rounds * n);
  }

  /**
   * An entry that is last with count 1 is the first one the countdown
   * handles: it is reverted on the current player before anything else.
   */
  lemma LastExpiresFirst(a: Table, rest: seq<ActiveEffect>, e: ActiveEffect)
    requires TurnInRange(a) && a.active == rest + [e.(count := 1)]
    ensures Countdown(a) == CountdownFrom(RemoveEffect(a, e).(active := rest), |rest|)
  {
    var i := |rest|;
    var last := a.active[i];
    assert last == e.(count := 1) && Expires(last);
    assert a.active[..i] + a.active[i + 1..] == rest;
    assert Countdown(a) == CountdownFrom(RemoveEffect(a, last).(active := rest), i);
    RemoveEffectIgnoresCount(a, e, 1);
  }

  /**
   * Together: the D * N + 1-th advance after a timed effect was registered
   * on seat t starts by reverting that effect while seat t is current.
   */
  lemma TimedEffectLifetime(t: Table, e: ActiveEffect, rounds: nat)
    requires TurnInRange(t) && e.count == EffectCount(rounds, |t.players|)
    ensures var a := Advance(t.(active := t.active + [e]), rounds * |t.players|);
            var rest := Decayed(t.active, rounds * |t.players|);
            a.turn == t.turn && Countdown(a) == CountdownFrom(RemoveEffect(a, e).(active := rest), |rest|)
  {
    TimedEffectSurvives(t, e, rounds);
    var a := Advance(t.(active := t.active + [e]), rounds * |t.players|);
    LastExpiresFirst(a, Decayed(t.active, rounds * |t.players|), e);
  }
}
