/**
 * The part of the game's state that the turn rules and the cards act on:
 * the 1-based turn index, every player's data in seating order, the die's
 * face count and the ordered list of active timed effects.
 */
module Tables {
  import opened Tiles
  import opened Cards
  import opened Players

  datatype Table = Table(turn: int, players: seq<PlayerData>, faces: int, active: seq<ActiveEffect>)

  /** The table after a card's effect, and whether the Java code threw part-way (the table is then as far as it got). */
  datatype Outcome = Outcome(table: Table, threw: bool)

  /** The turn index names a seat: 1 <= turn <= N. */
  predicate TurnInRange(t: Table)
  {
    1 <= t.turn <= |t.players|
  }

  /** The player whose turn it is (`players.get(currentPlayerTurn - 1)`). */
  function Current(t: Table): PlayerData
    requires TurnInRange(t)
  {
    t.players[t.turn - 1]
  }

  /** The table with the current player's data replaced and nothing else changed. */
  function WithCurrent(t: Table, p: PlayerData): (r: Table)
    requires TurnInRange(t)
    ensures TurnInRange(r) && Current(r) == p
    ensures r.turn == t.turn && r.faces == t.faces && r.active == t.active && |r.players| == |t.players|
    ensures forall j :: 0 <= j < |t.players| && j != t.turn - 1 ==> r.players[j] == t.players[j]
  {
    t.(players := t.players[t.turn - 1 := p])
  }

  /** Replacing the current player twice keeps only the second replacement. */
  lemma WithCurrentTwice(t: Table, p: PlayerData, q: PlayerData)
    requires TurnInRange(t)
    ensures WithCurrent(WithCurrent(t, p), q) == WithCurrent(t, q)
  {
  }

  /** Replacing the current player does not interact with a change of the active list. */
  lemma WithCurrentActive(t: Table, p: PlayerData, a: seq<ActiveEffect>)
    requires TurnInRange(t)
    ensures WithCurrent(t.(active := a), p) == WithCurrent(t, p).(active := a)
  {
  }

  /** Every player except the one in seat `cur` gets `adjustResources(d)`. */
  function AdjustOthers(ps: seq<PlayerData>, cur: int, d: int): (r: seq<PlayerData>)
    ensures |r| == |ps|
    ensures forall j :: 0 <= j < |ps| ==> r[j] == if j == cur then ps[j] else Adjusted(ps[j], d)
  {
    seq(|ps|, j requires 0 <= j < |ps| => if j == cur then ps[j] else Adjusted(ps[j], d))
  }

  /** The turn index after `nextTurn`: `turn % N + 1`. */
  function NextIndex(turn: int, n: int): (r: int)
    requires 1 <= turn <= n
    ensures 1 <= r <= n
    ensures r == if turn == n then 1 else turn + 1
  {
    if turn < n then
      ModSmall(turn, n);
      turn % n + 1
    else
      ModSelf(n);
      turn % n + 1
  }

  lemma ModSmall(a: int, n: int)
    requires 0 <= a < n
    ensures a % n == a
  {
  }

  lemma ModSelf(n: int)
    requires 1 <= n
    ensures n % n == 0
  {
  }

  /** The turn index after `previousTurn`: one less, with 0 wrapping to N. */
  function PreviousIndex(turn: int, n: int): (r: int)
    requires 1 <= turn <= n
    ensures 1 <= r <= n
  {
    if turn - 1 == 0 then n else turn - 1
  }

  /** Going back a seat and forward again, or forward and back, returns to the same seat. */
  lemma IndexRoundTrip(turn: int, n: int)
    requires 1 <= turn <= n
    ensures NextIndex(PreviousIndex(turn, n), n) == turn
    ensures PreviousIndex(NextIndex(turn, n), n) == turn
  {
  }

  /** The seat after k advances from seat `turn`. */
  function AdvancedIndex(turn: int, n: int, k: nat): (r: int)
    requires 1 <= turn <= n
    ensures 1 <= r <= n
  {
    if k == 0 then turn else NextIndex(AdvancedIndex(turn, n, k - 1), n)
  }

  /** Advancing j seats and then k seats is advancing j + k seats. */
  lemma {:induction false} AdvancedCompose(turn: int, n: int, j: nat, k: nat)
    requires 1 <= turn <= n
    ensures AdvancedIndex(turn, n, j + k) == AdvancedIndex(AdvancedIndex(turn, n, j), n, k)
  {
    if k > 0 {
      AdvancedCompose(turn, n, j, k - 1);
    }
  }

  /** Below the last seat, advancing moves straight up. */
  lemma {:induction false} AdvancedUpward(s: int, n: int, k: nat)
    requires 1 <= s && s + k <= n
    ensures AdvancedIndex(s, n, k) == s + k
  {
    if k > 0 {
      AdvancedUpward(s, n, k - 1);
    }
  }

  /** N advances from any seat return to it. */
  lemma OneRound(s: int, n: int)
    requires 1 <= s <= n
    ensures AdvancedIndex(s, n, n) == s
  {
    AdvancedUpward(s, n, n - s);
    assert AdvancedIndex(s, n, n - s) == n;
    AdvancedCompose(s, n, n - s, 1);
    assert AdvancedIndex(s, n, n - s + 1) == 1;
    AdvancedUpward(1, n, s - 1);
    AdvancedCompose(s, n, n - s + 1, s - 1);
    assert n == (n - s + 1) + (s - 1);
  }

  /** `rounds` full rounds of N advances bring the turn back to the same seat. */
  lemma {:induction false} FullRounds(turn: int, n: int, rounds: nat)
    requires 1 <= turn <= n
    ensures AdvancedIndex(turn, n, rounds * n) == turn
  {
    if rounds > 0 {
      FullRounds(turn, n, rounds - 1);
      assert rounds * n == (rounds - 1) * n + n;
      AdvancedCompose(turn, n, (rounds - 1) * n, n);
      OneRound(turn, n);
    }
  }
}
