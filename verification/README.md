# Game of Strife rules engine in Dafny

A model of the rules engine of *Game of Strife*, a Java board game for several
players. Players roll a die and walk a board of coloured tiles. They draw a
card of the landed tile's colour and apply it. At the end of every roll the
turn passes to the next seat. The Swing windows are left out. Whatever they
return (a dialog's button, a path choice, a random draw) is a parameter of the
model.

The model keeps the source's form.

- **Classes** stand for the objects the game updates in place:
  - `Dice.Die` and `Tiles.Tile`;
  - `Boards.Board`, with its tile list, ID table and victory list;
  - `Players.Player`;
  - `Decks.CardDecks`, with the draw and discard piles per colour;
  - `Strife.Game`, the turn state: the turn index, the current player, the players, the die and the active-effects list.

  Their loops are `while` loops with invariants.
- **Specification functions.** Every state-changing method is proved against a function on values (`Players.PlayerData`, `Tables.Table`, `Decks.Piles`). Its postcondition is `Abs() == Spec(old(Abs()))`, or the same statement with an outcome flag. The properties the game promises are then proved as lemmas about those functions.

**Modules:**

| module | what it models |
|---|---|
| `Dice` | the die |
| `Tiles`, `Boards` | the tile graph and board loading |
| `Players` | resources, income, step bonus, the move loop, the victory-point purchase, drawing a card |
| `Shuffles` | `Collections.shuffle` on given draws |
| `Decks` | the card decks and their loading |
| `Cards` | the card datatype, the method tags and the active-effect entry |
| `Tables` | the table: turn index, players, die faces, active effects |
| `TurnRules` | `nextTurn`, `previousTurn`, `countdown`, `countup` and the lifetime of timed effects |
| `GreenCards`, `RedCards`, `BlueCards` | what each card kind does to the table |
| `Strife` | the game's turn state machine |
| `CardPlay` | card execution on the game object |
| `Rounds` | `handleDieRoll` |

**Exceptions.** The Java code can throw in a few places:
- a `ClassCastException` or `NullPointerException` on a blue card's malformed option data;
- an index error on a blue card with no options;
- a `NullPointerException` when the current tile is `null` while drawing.

These escape `handleDieRoll` before `nextTurn`. They are modelled as a `threw` flag in `Tables.Outcome`: on that path the state stays as the failing statement left it, and no turn advance happens.

**Steal money.** `stealMoney` takes `min(r, a)` from a target holding `r` when the card's amount is `a`. `gainMoney` then computes `min` again, on the target's already reduced balance (`GameOfStrife/src/game/BlueCard.java:220-227`). The thief therefore gains `min(r - min(r, a), a)`, which is not always what the target lost. `BlueCards.StealArithmetic` proves that gain equals loss only when `r >= 2a` or `r == 0`.

## Model

| member | source | states |
|---|---|---|
| Dice.RollValue | GameOfStrife/src/game/Die.java:32-38 | with at least one face the value is in [1, faces]; with fewer than one face it is exactly 1 |
| Dice.EveryFaceReachable | GameOfStrife/src/game/Die.java:36 | every face from 1 to the face count comes up for some draw |
| Dice.Die.constructor | GameOfStrife/src/game/Die.java:21-25 | the die keeps the given face count and has value 0 before any roll |
| Dice.Die.Roll | GameOfStrife/src/game/Die.java:32-38 | the value is in [1, faces], or 1 with fewer than one face; only the value changes, never the face count |
| Dice.Die.SetNumFaces | GameOfStrife/src/game/Die.java:45-47 | any face count is accepted; only the face count changes and the last value stays |
| Tiles.Tile.constructor | GameOfStrife/src/game/Tile.java:32-40 | the fields are the constructor's arguments and the successor list is empty |
| Tiles.Tile.AddNextTile | GameOfStrife/src/game/Tile.java:56-58 | the tile is appended after the existing successors, in order; duplicates are kept |
| Tiles.Tile.SetType | GameOfStrife/src/game/Tile.java:74-76 | only the type changes |
| Boards.IntItems | GameOfStrife/src/game/Board.java:72-73 | the successor IDs are read as integers, and reading fails exactly when one element is not an integer |
| Boards.ParseTiles | GameOfStrife/src/game/Board.java:42-46 | every tile record is read, in order, or loading fails |
| Boards.ReadPath | GameOfStrife/src/game/Board.java:83-87 | an unreadable file and malformed content are two distinct fatal errors |
| Boards.RegisteredEntries | GameOfStrife/src/game/Board.java:47 | the ID table holds the old IDs plus the new ones; each new ID names a loaded tile with that ID; other entries are unchanged |
| Boards.RegisteredPicksLast | GameOfStrife/src/game/Board.java:47 | an ID maps to the last-loaded tile with that ID |
| Boards.RegisteredCovers | GameOfStrife/src/game/Board.java:47 | every loaded tile's ID is in the table and names a loaded tile |
| Boards.ParseTile | GameOfStrife/src/game/Board.java:43-46 | a tile is read only from an object holding all seven fields; its ID, type and victory flag are the record's, and a record without successors gives a tile with none |
| Boards.Registered | GameOfStrife/src/game/Board.java:47 | the ID table after the loading loop's `put`s; what it holds is stated by `Boards.RegisteredEntries`, `Boards.RegisteredPicksLast` and `Boards.RegisteredCovers` |
| Boards.VictoryTiles | GameOfStrife/src/game/Board.java:50-58 | the victory list holds exactly the victory-flagged tiles, in load order |
| Boards.VictoryTilesAppend | GameOfStrife/src/game/Board.java:50-51 | collecting the victory tiles works tile by tile, so appending tiles appends their victory tiles |
| Boards.Resolve | GameOfStrife/src/game/Board.java:72-79 | the successor IDs resolve to at most as many tiles |
| Boards.ResolveAllKnown | GameOfStrife/src/game/Board.java:72-79 | when every ID is known, the successors are exactly the listed tiles in the listed order |
| Boards.ResolveConcat | GameOfStrife/src/game/Board.java:72-79 | resolving goes ID by ID, so a dangling ID drops only itself |
| Boards.ResolveWithin | GameOfStrife/src/game/Board.java:74-77 | every resolved successor is a loaded tile |
| Boards.LinkedWithin | GameOfStrife/src/game/Board.java:64-81 | every successor the linking loop adds is a loaded tile |
| Boards.LinkedUniqueId | GameOfStrife/src/game/Board.java:64-81 | a tile whose ID only one record uses gets exactly that record's resolved successors |
| Boards.LinkedNone | GameOfStrife/src/game/Board.java:64-81 | no record with an ID means no successors for it |
| Boards.Linked | GameOfStrife/src/game/Board.java:64-81 | the successor list a record's IDs resolve to; its properties are `Boards.LinkedWithin`, `Boards.LinkedUniqueId` and `Boards.LinkedNone` |
| Boards.Built | GameOfStrife/src/game/Board.java:44-46 | a tile built from a record carries that record's fields; what the loader promises about it is stated by `Boards.Board.AddTile` |
| Boards.IsStart | GameOfStrife/src/game/Board.java:143-146 | a tile counts as the start when its type is "start" in any case or its ID is 0; what `getStartingTile` promises about it is stated by `Boards.Board.GetStartingTile` |
| Boards.Board.constructor | GameOfStrife/src/game/Board.java:21-23 | a new board has no tiles, no IDs and no victory tiles |
| Boards.Board.LoadPathFromJson | GameOfStrife/src/game/Board.java:35-88 | on a fatal error, the error's kind is returned and the board is unchanged; otherwise one fresh tile per record is appended, registered, filed and linked |
| Boards.Board.LoadRecords | GameOfStrife/src/game/Board.java:41-81 | the two loading loops together extend the board by the records and keep its invariant |
| Boards.Board.AddTiles | GameOfStrife/src/game/Board.java:42-61 | one fresh tile per record is appended in record order; the table and victory list follow; older tiles keep their successors |
| Boards.Board.AddTile | GameOfStrife/src/game/Board.java:43-58 | the tile is built from the record, appended and registered under its ID, and filed only if flagged; the random fallback cannot run |
| Boards.Board.LinkTiles | GameOfStrife/src/game/Board.java:64-81 | each record's known successor IDs are appended to the tile registered under its ID |
| Boards.Board.LinkedOnBoard | GameOfStrife/src/game/Board.java:64-81 | after linking, every successor of every tile is on the board |
| Boards.Board.AppendSuccessors | GameOfStrife/src/game/Board.java:69-80 | the known IDs of the list are appended as successors, in order, and unknown ones are dropped |
| Boards.Board.GetStartingTile | GameOfStrife/src/game/Board.java:141-156 | the first tile if its type is "start" in any case or its ID is 0; otherwise the no-start error, without looking further; `null` on an empty board |
| Cards.EffectCount | GameOfStrife/src/game/RedCard.java:67 | the count `1 + duration * N` of a timed effect is at least 1 |
| Shuffles.Swap | GameOfStrife/src/game/CardDecks.java:187 | one exchange of two positions; all other positions are unchanged |
| Shuffles.SwapPermutes | GameOfStrife/src/game/CardDecks.java:187 | an exchange keeps the multiset |
| Shuffles.ShuffleDown | GameOfStrife/src/game/CardDecks.java:187 | the shuffle's pass keeps the length and the multiset |
| Shuffles.Shuffle | GameOfStrife/src/game/CardDecks.java:187 | a shuffle is a permutation: same length, same multiset |
| Decks.Properties | GameOfStrife/src/game/CardDecks.java:77-86 | a blue card's properties are every record key except description, type, choiceType, methodType and options, with their values |
| Decks.OptionMaps | GameOfStrife/src/game/CardDecks.java:62-75 | the options are copied in array order, and reading fails exactly when one of them is not an object |
| Decks.ParseCard | GameOfStrife/src/game/CardDecks.java:42-107 | a green, blue or red record gives a card whose upper-cased type is a deck key; any other type is skipped; a blue card gets value 0, its properties, method tag and options |
| Decks.Entries | GameOfStrife/src/game/CardDecks.java:41-111 | the records' entries, in order, unless one of them throws |
| Decks.ParseCards | GameOfStrife/src/game/CardDecks.java:41-43 | every record of the array is parsed, in order |
| Decks.ReadCards | GameOfStrife/src/game/CardDecks.java:33-123 | an unreadable file and malformed content are distinct fatal errors; each card read has a colour key |
| Decks.Insert | GameOfStrife/src/game/CardDecks.java:49-52 | the card goes at the bottom of its colour's deck; both piles exist for that key; all other piles are unchanged |
| Decks.ShuffledAll | GameOfStrife/src/game/CardDecks.java:185-189 | the same keys, and every deck keeps its size and holds the same cards (the same multiset) |
| Decks.LoadRecord | GameOfStrife/src/game/CardDecks.java:45-110 | one record adds at most its card's key and leaves the discard piles alone |
| Decks.LoadRecordCards | GameOfStrife/src/game/CardDecks.java:45-110 | after one record and the shuffle, a deck holds its former cards plus the record's card if it is of that colour |
| Decks.LoadedKeys | GameOfStrife/src/game/CardDecks.java:41-111 | loading adds exactly the keys that received a card |
| Decks.LoadedUsedKeys | GameOfStrife/src/game/CardDecks.java:41-111 | loading adds a discard pile for exactly the keys that received a card |
| Decks.LoadedKeepsDiscards | GameOfStrife/src/game/CardDecks.java:41-111 | loading leaves every discard pile as it was |
| Decks.LoadedCards | GameOfStrife/src/game/CardDecks.java:41-111 | each deck ends as a permutation of its former cards plus the new cards of its colour |
| Decks.CardDecks.constructor | GameOfStrife/src/game/CardDecks.java:24-25 | no decks before loading |
| Decks.CardDecks.LoadCardDeckFromJson | GameOfStrife/src/game/CardDecks.java:33-124 | on a fatal error, the error's kind is returned and nothing changes; otherwise each card is inserted in record order, and all decks are shuffled after each record |
| Decks.CardDecks.LoadEntries | GameOfStrife/src/game/CardDecks.java:41-111 | the loading loop ends in the piles `Decks.LoadedPiles` gives, whose keys and cards `Decks.LoadedKeys`, `Decks.LoadedUsedKeys`, `Decks.LoadedKeepsDiscards` and `Decks.LoadedCards` describe |
| Decks.CardDecks.AddRecord | GameOfStrife/src/game/CardDecks.java:42-110 | one record: insert its card, if any, then shuffle every deck |
| Decks.CardDecks.AddCard | GameOfStrife/src/game/CardDecks.java:49-52 | the card is appended to its colour's deck, creating both piles of a new colour |
| Decks.CardDecks.ShuffleAllDecks | GameOfStrife/src/game/CardDecks.java:185-189 | every draw pile is replaced by a shuffle of itself; discard piles are untouched |
| Decks.CardDecks.SetPiles | GameOfStrife/src/game/Player.java:327-334 | the two piles of one colour are replaced and no other pile changes; the decks stay well formed |
| Decks.CardDecks.DeckTypesFindPiles | GameOfStrife/src/game/CardDecks.java:149-180 | every deck type is a colour key whose draw and discard piles the two lookups return, and every colour the draw-pile lookup finds is a deck type |
| Decks.CardDecks.GetCardsByType | GameOfStrife/src/game/CardDecks.java:159-165 | the draw pile of green, blue or red named in any case; none for any other string |
| Decks.CardDecks.GetUsedCardsByType | GameOfStrife/src/game/CardDecks.java:174-180 | the discard pile, looked up the same way |
| Decks.CardDecks.LookupIgnoresCase | GameOfStrife/src/game/CardDecks.java:159-180 | two spellings of a colour that differ only in case find the same piles |
| Players.ClampedSum | GameOfStrife/src/game/Player.java:145-150 | `max(0, resources + d)` |
| Players.NewPlayer | GameOfStrife/src/game/Player.java:28-37 | 500 resources, 50 income, no steps, no bonus, no points, on the start tile |
| Players.Adjusted | GameOfStrife/src/game/Player.java:145-150 | only the resources change, to `max(0, old + d)`, never negative |
| Players.Paid | GameOfStrife/src/game/Player.java:156-158 | resources become `max(0, resources + income)`, never negative; every other field is unchanged |
| Players.PaidThenCharged | GameOfStrife/src/game/Player.java:145-158 | paying a non-negative income and charging it back restores the player |
| Players.ChargedThenPaid | GameOfStrife/src/game/Player.java:145-158 | charging the income and paying it back restores a player who could afford it; otherwise the player ends with exactly the income |
| Players.PathIndex | GameOfStrife/src/game/Player.java:252-257 | the only successor when there is one; otherwise the dialog's Left or Right |
| Players.Purchase | GameOfStrife/src/game/Player.java:291-304 | buying costs 1000 through the clamp and adds a point; the player goes to the start tile; a new victory tile is picked; the game ends iff the points reach the target |
| Players.VictoryOffer | GameOfStrife/src/game/Player.java:275-283 | anything changes only on the victory tile, when the offer is accepted and 1000 is affordable |
| Players.StepOnce | GameOfStrife/src/game/Player.java:226-231 | one loop iteration uses exactly one step |
| Players.WalkStops | GameOfStrife/src/game/Player.java:222-243 | the move ends on the board with no steps left, or without a tile, or at a dead end |
| Players.KeepsMoving | GameOfStrife/src/game/Player.java:241-243 | a player keeps moving exactly when steps are left, they stand on a tile and that tile has a successor; used by `Players.Walked` and `Players.WalkStops` |
| Players.Walked | GameOfStrife/src/game/Player.java:225-232 | the loop ends with a player who should stop, never adds steps, and leaves a player who should already stop as they were |
| Players.Moved | GameOfStrife/src/game/Player.java:222-233 | the walk ends with a player who should stop, with at most the die value plus the step bonus left |
| Players.WalkAccounting | GameOfStrife/src/game/Player.java:222-304 | a move changes resources only by 1000 per point bought; it leaves income, bonus and identity alone |
| Players.WalkVictory | GameOfStrife/src/game/Player.java:291-304 | the victory tile is always one of the board's; the game ends only when the player reached the target |
| Players.SingleSuccessorStep | GameOfStrife/src/game/Player.java:222-257 | a one-step move on a single path ends on the successor with no steps left |
| Players.DrawFrom | GameOfStrife/src/game/Player.java:325-336 | the front card is drawn and put at the end of the discard pile; the discard pile is shuffled in only when the draw pile is empty |
| Players.DrawConserves | GameOfStrife/src/game/Player.java:325-336 | draw pile plus discard pile is the same multiset before and after a draw |
| Players.Player.constructor | GameOfStrife/src/game/Player.java:28-37 | the new player's data is `NewPlayer` |
| Players.Player.AdjustResources | GameOfStrife/src/game/Player.java:145-150 | only the resources change, clamped at 0 |
| Players.Player.GetPaid | GameOfStrife/src/game/Player.java:156-158 | the income is added through the clamp |
| Players.Player.SetResources | GameOfStrife/src/game/Player.java:134-136 | the resources are set without a clamp |
| Players.Player.AdjustIncome | GameOfStrife/src/game/Player.java:359-361 | the income changes without a clamp |
| Players.Player.AddStepsBonus | GameOfStrife/src/game/Player.java:89-91 | the step bonus changes without a clamp |
| Players.Player.AddVictoryPoints | GameOfStrife/src/game/Player.java:62-64 | only the victory points change |
| Players.Player.SetCurrentTile | GameOfStrife/src/game/Player.java:165-167 | only the tile changes |
| Players.Player.Move | GameOfStrife/src/game/Player.java:222-233 | the move loop ends in the walk `Players.Moved` gives, on the board; `Players.WalkStops`, `Players.WalkAccounting` and `Players.WalkVictory` say what that walk is |
| Players.Player.MoveToNextTile | GameOfStrife/src/game/Player.java:226-231 | one iteration: path choice, step, one step fewer, victory offer |
| Players.Player.HandleVictoryTileOpportunity | GameOfStrife/src/game/Player.java:275-283 | the offer as `VictoryOffer` describes it |
| Players.Player.PurchaseVictoryPoint | GameOfStrife/src/game/Player.java:291-304 | the purchase as `Purchase` describes it |
| Players.Player.GetColor | GameOfStrife/src/game/Player.java:311-316 | the current tile's type, or none without a tile |
| Players.Player.DrawCard | GameOfStrife/src/game/Player.java:345-357 | a null tile fails; no deck for the upper-cased type means no card and no change; otherwise one draw from that colour's piles, with every other pile unchanged (together: `Players.DrawnAs`) |
| Players.Player.DrawFromDeck | GameOfStrife/src/game/Player.java:325-336 | the two piles of the key are replaced as `DrawFrom` describes |
| Players.ColourOf | GameOfStrife/src/game/Player.java:311-316 | the colour is the tile's type, and absent when there is no tile; stated for the object by `Players.Player.GetColor` |
| Players.DrawnAs | GameOfStrife/src/game/Player.java:345-357 | without a colour or a deck of that colour nothing changes; otherwise the upper-cased colour's piles give up one card as `Players.DrawFrom` does and no other pile changes; stated for the object by `Players.Player.DrawCard` |
| Tables.AdjustOthers | GameOfStrife/src/game/RedCard.java:59-64 | every player but the current one gets `adjustResources(d)`; the current one is unchanged |
| Tables.NextIndex | GameOfStrife/src/gui/GameOfStrife.java:235 | `turn % N + 1` stays in [1, N] and wraps N to 1 |
| Tables.PreviousIndex | GameOfStrife/src/gui/GameOfStrife.java:249-252 | one seat back, 0 wrapping to N, within [1, N] |
| Tables.WithCurrent | GameOfStrife/src/gui/GameOfStrife.java:236 | the current player is replaced: the turn, the die, the active list, the number of players and every other seat stay as they were |
| Tables.IndexRoundTrip | GameOfStrife/src/gui/GameOfStrife.java:233-256 | forward then back, or back then forward, returns to the same seat |
| Tables.AdvancedIndex | GameOfStrife/src/gui/GameOfStrife.java:235 | k advances stay within [1, N] |
| Tables.AdvancedCompose | GameOfStrife/src/gui/GameOfStrife.java:235 | j advances then k advances is j + k advances |
| Tables.AdvancedUpward | GameOfStrife/src/gui/GameOfStrife.java:235 | below the last seat, advancing moves straight up |
| Tables.OneRound | GameOfStrife/src/gui/GameOfStrife.java:235 | N advances return to the same seat |
| Tables.FullRounds | GameOfStrife/src/gui/GameOfStrife.java:235 | any number of full rounds returns to the same seat |
| TurnRules.RemoveEffect | GameOfStrife/src/gui/GameOfStrife.java:332-334 | reverting an entry changes only the current player's income and step bonus and the die faces, by the entry's deltas |
| TurnRules.RemoveEffectIgnoresCount | GameOfStrife/src/gui/GameOfStrife.java:332-334 | reverting depends on the card and its data, not on the count |
| TurnRules.Survivors | GameOfStrife/src/gui/GameOfStrife.java:325-340 | the entries that outlive a pass are never more than before |
| TurnRules.CountdownFrom | GameOfStrife/src/gui/GameOfStrife.java:325-340 | the pass keeps the seat and the number of players |
| TurnRules.CountdownStep | GameOfStrife/src/gui/GameOfStrife.java:327-338 | one entry is removed exactly when its count reaches 0 |
| TurnRules.CountdownUnfold | GameOfStrife/src/gui/GameOfStrife.java:326 | the backward loop is one step at index i followed by the rest of the pass |
| TurnRules.Countdown | GameOfStrife/src/gui/GameOfStrife.java:325-340 | a countdown keeps the seat and the number of players |
| TurnRules.CountdownActive | GameOfStrife/src/gui/GameOfStrife.java:325-340 | after the pass, the list is the survivors one count lower, in their relative order |
| TurnRules.CountdownReverts | GameOfStrife/src/gui/GameOfStrife.java:331-335 | every expiring entry is reverted exactly once, on the current player and the die; nothing else changes |
| TurnRules.NothingExpires | GameOfStrife/src/gui/GameOfStrife.java:331 | with no expiring entry, nothing is reverted |
| TurnRules.CountedUp | GameOfStrife/src/gui/GameOfStrife.java:345-350 | every count is one higher, in the same order |
| TurnRules.Countup | GameOfStrife/src/gui/GameOfStrife.java:345-350 | every active entry keeps its card and data, in the same order, with its count one higher; the turn, the players and the die are unchanged |
| TurnRules.CountedUpNeverExpires | GameOfStrife/src/gui/GameOfStrife.java:345-350 | after a countup, no entry of positive count expires |
| TurnRules.SurvivorsUndoCountup | GameOfStrife/src/gui/GameOfStrife.java:325-350 | the countdown after a countup gives back every entry of positive count |
| TurnRules.NextTurn | GameOfStrife/src/gui/GameOfStrife.java:233-239 | `nextTurn` moves to the next seat, in range |
| TurnRules.PreviousTurn | GameOfStrife/src/gui/GameOfStrife.java:245-256 | `previousTurn` moves to the previous seat, in range |
| TurnRules.ChargeBack | GameOfStrife/src/gui/GameOfStrife.java:247-253 | the current player pays their own income back, clamped, and the seat moves back; the list and die are unchanged |
| TurnRules.NextTurnActive | GameOfStrife/src/gui/GameOfStrife.java:233-239 | `nextTurn` keeps exactly the surviving entries in order |
| TurnRules.NextTurnPays | GameOfStrife/src/gui/GameOfStrife.java:233-239 | with nothing expiring, `nextTurn` lowers the counts, moves on a seat and pays that player once; no one else changes |
| TurnRules.RollAgainRestores | GameOfStrife/src/gui/GameOfStrife.java:233-256 | `previousTurn` then `nextTurn` restores seat, counts and resources when the charge is not clamped |
| TurnRules.Advance | GameOfStrife/src/gui/GameOfStrife.java:233-239 | k advances move the turn k seats on |
| TurnRules.AdvanceActive | GameOfStrife/src/gui/GameOfStrife.java:233-239 | the active list after k advances is the list after k passes |
| TurnRules.DecayedAppend | GameOfStrife/src/gui/GameOfStrife.java:325-340 | a last entry stays last and loses one per pass while its count lasts |
| TurnRules.TimedEffectSurvives | GameOfStrife/src/gui/GameOfStrife.java:233-239 | an entry with count `1 + D*N` survives `D*N` advances and ends with count 1 while its seat is current again |
| TurnRules.LastExpiresFirst | GameOfStrife/src/gui/GameOfStrife.java:326-335 | a last entry with count 1 is the first the countdown reverts |
| TurnRules.TimedEffectLifetime | GameOfStrife/src/gui/GameOfStrife.java:233-239 | the next advance after those starts by reverting the effect while the same seat is current |
| GreenCards.ExecuteGreen | GameOfStrife/src/game/GreenCard.java:46-47 | only the current player's resources change, by the value, clamped at 0; no entry is added |
| GreenCards.GreenRemoveIsNoOp | GameOfStrife/src/game/GreenCard.java:65-66 | reverting a green entry changes nothing |
| GreenCards.FirstTurnGreenCard | GameOfStrife/src/test/GreenCardTest.java:35-38 | 500 + 50 + 100 = 650 for a new, paid player drawing a card of value 100 |
| RedCards.RedEntry | GameOfStrife/src/game/RedCard.java:67 | a red entry carries the card, count `1 + duration * N`, no data |
| RedCards.ExecuteRed | GameOfStrife/src/game/RedCard.java:56-78 | an unknown method tag changes nothing; the seat stays in range |
| RedCards.RedMoney | GameOfStrife/src/game/RedCard.java:56-64 | a self change adjusts only the current player; an other change adjusts everyone else; both go through the clamp |
| RedCards.RedTimedReverts | GameOfStrife/src/game/RedCard.java:65-101 | income and die changes append exactly one entry; reverting it on the same current player undoes the change |
| RedCards.RedMoveToStart | GameOfStrife/src/game/RedCard.java:73-75 | only the current player's tile changes, to the tile with ID 0 |
| RedCards.RedSkipTurn | GameOfStrife/src/game/RedCard.java:71-72 | skip-turn followed by the roll's advance moves the turn two seats on |
| RedCards.RedRollAgain | GameOfStrife/src/game/RedCard.java:76-77 | roll-again followed by the roll's advance restores the table, given positive counts and an unclamped charge |
| BlueCards.Selected | GameOfStrife/src/game/BlueCard.java:117 | a closed dialog (-1) counts as the first button |
| BlueCards.OtherSeat | GameOfStrife/src/game/BlueCard.java:89-94 | the k-th candidate is never the current seat and keeps seating order |
| BlueCards.OtherSeats | GameOfStrife/src/game/BlueCard.java:89-94 | N - 1 candidates, in seating order |
| BlueCards.OtherSeatsAreTheOthers | GameOfStrife/src/game/BlueCard.java:89-94 | every seat but the current one is a candidate exactly once, in increasing order |
| BlueCards.Steal | GameOfStrife/src/game/BlueCard.java:220-227 | stealing keeps the number of players |
| BlueCards.StealArithmetic | GameOfStrife/src/game/BlueCard.java:220-227 | the target loses `min(r, a)`; the thief gains `min(r - min(r, a), a)`; gain equals loss iff `r >= 2a` or `r == 0`; money is never created |
| BlueCards.PlayerAction | GameOfStrife/src/game/BlueCard.java:149-165 | player actions keep the seat, die and active list; a throw changes nothing |
| BlueCards.SwapPlacesInvolution | GameOfStrife/src/game/BlueCard.java:183-189 | swapping places exchanges the two tiles, and swapping again restores both |
| BlueCards.SwapMoneyExchanges | GameOfStrife/src/game/BlueCard.java:207-212 | the two totals are exchanged exactly, without clamp, keeping their sum; everyone else is unchanged |
| BlueCards.MoveToPlayerCopiesTile | GameOfStrife/src/game/BlueCard.java:197-200 | the current player takes the target's tile and only that changes |
| BlueCards.PlayerChoice | GameOfStrife/src/game/BlueCard.java:80-129 | with no other players nothing changes |
| BlueCards.ChosenOption | GameOfStrife/src/game/BlueCard.java:244-263 | the selected option (the first when closed) is returned exactly when the casts and the default button do not throw |
| BlueCards.BlueEntry | GameOfStrife/src/game/BlueCard.java:319-323 | a blue entry carries count `1 + duration * N` and the data {method, value, duration} |
| BlueCards.OptionAction | GameOfStrife/src/game/BlueCard.java:295-337 | a throw changes nothing; only the timed options touch the active list |
| BlueCards.Options | GameOfStrife/src/game/BlueCard.java:235-272 | the options card throws exactly when choosing or acting throws |
| BlueCards.TimedOptionReverts | GameOfStrife/src/game/BlueCard.java:316-335 | a timed option appends one entry with its data; reverting it undoes the change |
| BlueCards.IncomeForMoneyOutcome | GameOfStrife/src/game/BlueCard.java:306-311 | the income changes by one value and the resources by the other through the clamp; nothing is registered |
| BlueCards.GambleAction | GameOfStrife/src/game/BlueCard.java:391-433 | gambles keep seat, die and active list |
| BlueCards.MoneyChanceOutcome | GameOfStrife/src/game/BlueCard.java:393-409 | the fixed cost always; the penalty on top exactly when the draw is below the chance |
| BlueCards.IncomeChanceOutcome | GameOfStrife/src/game/BlueCard.java:411-428 | acts only with a success effect, then adds exactly one of the two deltas to income |
| BlueCards.Gamble | GameOfStrife/src/game/BlueCard.java:355-377 | a failed choice throws and changes nothing |
| BlueCards.ExecuteBlue | GameOfStrife/src/game/BlueCard.java:53-64 | an unknown choice type changes nothing; the seat stays |
| Json.TruncateTowardZero | GameOfStrife/src/game/BlueCard.java:394-395 | `intValue()` drops the fraction toward zero |
| Json.GetString | GameOfStrife/src/game/CardDecks.java:43 | a value is read exactly when the key holds text, and it is that text |
| Json.GetInt | GameOfStrife/src/game/CardDecks.java:48 | a value is read exactly when the key holds a number; an integer is returned as is and a real is truncated toward zero |
| Json.GetArray | GameOfStrife/src/game/CardDecks.java:59 | a value is read exactly when the key holds an array, and it is that array |
| Json.GetBoolean | GameOfStrife/src/game/Board.java:46 | a missing key fails; true or false is read from a boolean or from the text "true"/"false" in any case, and a boolean is read as itself |
| Json.OptString | GameOfStrife/src/game/CardDecks.java:58 | the key's text when it holds text, the default otherwise |
| Json.IntCast | GameOfStrife/src/game/BlueCard.java:297 | the cast succeeds exactly when the key holds an integer, giving that integer |
| Json.IntCastOr | GameOfStrife/src/game/BlueCard.java:160 | a missing key gives the default; a present key is cast as `Json.IntCast` does |
| Json.StringCast | GameOfStrife/src/game/BlueCard.java:263 | a missing key gives null; a present key succeeds exactly when it holds text, giving that text |
| Json.NumberAsInt | GameOfStrife/src/game/BlueCard.java:394-395 | a missing key gives 0; a present key succeeds exactly when it holds a number, giving the number truncated toward zero |
| Json.NumberAsReal | GameOfStrife/src/game/BlueCard.java:398-399 | a missing key gives 0.0; a present key succeeds exactly when it holds a number |
| Text.Upper | GameOfStrife/src/game/CardDecks.java:49 | upper-casing keeps the length and maps each character |
| Text.UpperColours | GameOfStrife/src/game/CardDecks.java:160 | the colour names in either case upper-case to the deck keys |
| Text.EqualsIgnoreCase | GameOfStrife/src/game/CardDecks.java:160 | two strings are equal ignoring case exactly when they have the same length and agree character by character once upper-cased; equal strings always are |
| Strife.SetUp | GameOfStrife/src/gui/GameOfStrife.java:90-110 | a die with the given faces; the board's start tile; fresh players in input order, the first one paid |
| Strife.FirstWithId | GameOfStrife/src/gui/GameOfStrife.java:280-287 | the index of the first tile with the ID, or -1 exactly when none has it |
| Strife.TileWithId | GameOfStrife/src/gui/GameOfStrife.java:280-287 | a loaded tile with that ID, or `null` exactly when there is none |
| Strife.NewPlayers | GameOfStrife/src/gui/GameOfStrife.java:101-106 | one new player per entry, in input order; only the first is active |
| Strife.InitialPlayers | GameOfStrife/src/gui/GameOfStrife.java:101-110 | the first player is paid once, the others not |
| Strife.InitialResources | GameOfStrife/src/gui/GameOfStrife.java:101-110 | on the first turn the first player holds 550 and every other player 500 |
| Strife.CreatePlayers | GameOfStrife/src/gui/GameOfStrife.java:101-106 | the loop creates fresh, distinct players as `NewPlayers` lists them |
| Strife.PaySeat | GameOfStrife/src/game/Player.java:156-158 | the player in seat k is paid as `Players.Paid` says and every other seat is unchanged |
| Strife.ChargeSeat | GameOfStrife/src/gui/GameOfStrife.java:247 | the player in seat k is charged their own income through `Players.Adjusted` and every other seat is unchanged |
| Strife.AdjustSeat | GameOfStrife/src/game/Player.java:145-150 | the player in seat k is adjusted as `Players.Adjusted` says and every other seat is unchanged |
| Strife.ResourcesSeat | GameOfStrife/src/game/Player.java:134-136 | only the resources of the player in seat k change, to the given value |
| Strife.IncomeSeat | GameOfStrife/src/game/Player.java:359-361 | only the income of the player in seat k changes, by the given amount |
| Strife.BonusSeat | GameOfStrife/src/game/Player.java:89-91 | only the step bonus of the player in seat k changes, by the given amount |
| Strife.TileSeat | GameOfStrife/src/game/Player.java:165-167 | only the tile of the player in seat k changes, to the given tile |
| Strife.Game.constructor | GameOfStrife/src/gui/GameOfStrife.java:88-113 | turn 1, player 1 current and paid once, no active effects, the given die faces and win points |
| Strife.Game.RevertEffect | GameOfStrife/src/gui/GameOfStrife.java:332-334 | `removeEffect` is `RemoveEffect` on the table |
| Strife.Game.RevertRed | GameOfStrife/src/game/RedCard.java:94-101 | the red income or die change is taken back from the current player or the die |
| Strife.Game.RevertBlue | GameOfStrife/src/game/BlueCard.java:441-453 | the blue step bonus or income is taken back from the current player; any other tag does nothing |
| Strife.Game.CountdownEntry | GameOfStrife/src/gui/GameOfStrife.java:327-338 | one loop iteration is `CountdownStep` |
| Strife.Game.Countdown | GameOfStrife/src/gui/GameOfStrife.java:325-340 | the backward loop is `Countdown` |
| Strife.Game.Countup | GameOfStrife/src/gui/GameOfStrife.java:345-350 | the backward loop is `Countup` |
| Strife.Game.AdvanceSeat | GameOfStrife/src/gui/GameOfStrife.java:235-236 | the seat moves on and the current player follows |
| Strife.Game.NextTurn | GameOfStrife/src/gui/GameOfStrife.java:233-239 | `nextTurn` is `TurnRules.NextTurn` |
| Strife.Game.RetreatSeat | GameOfStrife/src/gui/GameOfStrife.java:249-253 | the seat moves back and the current player follows |
| Strife.Game.PreviousTurn | GameOfStrife/src/gui/GameOfStrife.java:245-256 | `previousTurn` is `TurnRules.PreviousTurn` |
| Strife.Game.ChargeAndRetreat | GameOfStrife/src/gui/GameOfStrife.java:247-253 | the income charge then the move back a seat is `ChargeBack` |
| Strife.Game.PayCurrent | GameOfStrife/src/game/Player.java:156-158 | the table changes only in the current player, who is paid as `Players.Paid` says |
| Strife.Game.AdjustCurrent | GameOfStrife/src/game/Player.java:145-150 | the table changes only in the current player, adjusted as `Players.Adjusted` says |
| Strife.Game.IncomeCurrent | GameOfStrife/src/game/Player.java:359-361 | the table changes only in the current player's income, by the given amount |
| Strife.Game.BonusCurrent | GameOfStrife/src/game/Player.java:89-91 | the table changes only in the current player's step bonus, by the given amount |
| Strife.Game.TileCurrent | GameOfStrife/src/game/Player.java:165-167 | the table changes only in the current player's tile |
| Strife.Game.ChargeCurrent | GameOfStrife/src/gui/GameOfStrife.java:247 | the table changes only in the current player, charged their own income |
| Strife.Game.FindTileByID | GameOfStrife/src/gui/GameOfStrife.java:280-287 | the scan returns the first tile with the ID, or `null` |
| CardPlay.ExecuteCard | GameOfStrife/src/gui/GameOfStrife.java:157-159 | only a blue card can throw; the seat stays in range |
| CardPlay.OnlyRedCardsMoveTheTurn | GameOfStrife/src/game/RedCard.java:56-78 | only red skip-turn and roll-again cards move the seat |
| CardPlay.AdjustOtherSeats | GameOfStrife/src/game/RedCard.java:60-64 | the loop adjusts every player except the current one |
| CardPlay.AdjustedBelow | GameOfStrife/src/game/RedCard.java:60-64 | after the loop has passed seat i, exactly the seats below i other than the current one are adjusted; the invariant of `CardPlay.AdjustOtherSeats` |
| CardPlay.MoveCurrentToStart | GameOfStrife/src/game/RedCard.java:74 | the current player goes to the first tile with ID 0 |
| CardPlay.AdjustOtherPlayers | GameOfStrife/src/game/RedCard.java:59-64 | the game's players are `AdjustOthers` of the old ones |
| CardPlay.ExecuteGreenCard | GameOfStrife/src/game/GreenCard.java:36-55 | the green card on the game is `ExecuteGreen` |
| CardPlay.RedCases | GameOfStrife/src/game/RedCard.java:56-78 | what each red tag does, in the source's order; an unknown tag does nothing |
| CardPlay.RedIncomeChange | GameOfStrife/src/game/RedCard.java:65-67 | income change plus one entry |
| CardPlay.RedDieChange | GameOfStrife/src/game/RedCard.java:68-70 | face-count change plus one entry |
| CardPlay.Register | GameOfStrife/src/game/RedCard.java:67 | the entry is appended to the active list and nothing else on the table changes |
| CardPlay.ExecuteRedCard | GameOfStrife/src/game/RedCard.java:45-86 | the red card on the game is `ExecuteRed` |
| CardPlay.RedOnPlayers | GameOfStrife/src/game/RedCard.java:56-70 | the first four tags on the game |
| CardPlay.RedMoney | GameOfStrife/src/game/RedCard.java:56-64 | the money tags on the game |
| CardPlay.RedTimed | GameOfStrife/src/game/RedCard.java:65-70 | the timed tags on the game |
| CardPlay.RedOnTurn | GameOfStrife/src/game/RedCard.java:71-78 | skip turn, move to start, roll again or nothing, on the game |
| CardPlay.OtherPlayers | GameOfStrife/src/game/BlueCard.java:89-94 | the loop collects every other player, in seating order, never the current one |
| CardPlay.ExchangeTiles | GameOfStrife/src/game/BlueCard.java:183-189 | the two players exchange tiles |
| CardPlay.ExchangeResources | GameOfStrife/src/game/BlueCard.java:207-212 | the two players exchange resources, unclamped |
| CardPlay.StealAndGain | GameOfStrife/src/game/BlueCard.java:220-227 | the steal then the gain is `Steal` |
| CardPlay.SwapPlacesWith | GameOfStrife/src/game/BlueCard.java:150-152 | the swap-places action on the game |
| CardPlay.MoveToPlayerWith | GameOfStrife/src/game/BlueCard.java:153-155 | the move-to-player action on the game |
| CardPlay.SwapMoneyWith | GameOfStrife/src/game/BlueCard.java:156-158 | the swap-money action on the game |
| CardPlay.StealMoneyFrom | GameOfStrife/src/game/BlueCard.java:159-163 | the steal action on the game; the amount's cast can throw first |
| CardPlay.PlayerChoiceAction | GameOfStrife/src/game/BlueCard.java:140-175 | the dispatch on the method tag; an unknown tag does nothing |
| CardPlay.HandlePlayerChoice | GameOfStrife/src/game/BlueCard.java:80-129 | the player-choice card on the game is `PlayerChoice` |
| CardPlay.ChooseOption | GameOfStrife/src/game/BlueCard.java:244-263 | the description loop, default button and tag cast are `ChosenOption` |
| CardPlay.OptionCases | GameOfStrife/src/game/BlueCard.java:295-337 | what each option tag does, and when its casts throw |
| CardPlay.OptionSelfMoney | GameOfStrife/src/game/BlueCard.java:296-299 | the self-money option on the game |
| CardPlay.OptionOtherMoney | GameOfStrife/src/game/BlueCard.java:300-305 | the other-money option on the game |
| CardPlay.IncomeForMoneySeat | GameOfStrife/src/game/BlueCard.java:309-310 | income first, then resources, on one player |
| CardPlay.IncomeForMoneyCase | GameOfStrife/src/game/BlueCard.java:306-311 | income-for-money throws when a cast fails, and otherwise changes income then resources |
| CardPlay.OptionIncomeForMoney | GameOfStrife/src/game/BlueCard.java:306-311 | the income-for-money option on the game |
| CardPlay.OptionMoveToStart | GameOfStrife/src/game/BlueCard.java:312-315 | the move-to-start option on the game |
| CardPlay.TimedOptionCase | GameOfStrife/src/game/BlueCard.java:316-335 | a timed option: entry first, then the bonus or income change |
| CardPlay.OptionChangeSteps | GameOfStrife/src/game/BlueCard.java:316-325 | the change-steps option on the game |
| CardPlay.OptionChangeIncome | GameOfStrife/src/game/BlueCard.java:326-335 | the change-income option on the game |
| CardPlay.OptionActionOn | GameOfStrife/src/game/BlueCard.java:286-347 | the option dispatch on the game is `OptionAction` |
| CardPlay.HandleOptions | GameOfStrife/src/game/BlueCard.java:235-272 | the options card on the game is `Options` |
| CardPlay.MoneyGamble | GameOfStrife/src/game/BlueCard.java:393-409 | the money gamble on the game |
| CardPlay.IncomeGamble | GameOfStrife/src/game/BlueCard.java:411-428 | the income gamble on the game |
| CardPlay.HandleGamble | GameOfStrife/src/game/BlueCard.java:355-377 | the gamble card on the game is `Gamble` |
| CardPlay.ExecuteBlueCard | GameOfStrife/src/game/BlueCard.java:44-74 | the blue card on the game is `ExecuteBlue` |
| CardPlay.PlayCard | GameOfStrife/src/gui/GameOfStrife.java:157-159 | playing a card is `ExecuteCard`, and the decks are untouched |
| Rounds.PassUnlessThrown | GameOfStrife/src/gui/GameOfStrife.java:161 | one `nextTurn` unless a throw escaped first |
| Rounds.FinishRoll | GameOfStrife/src/gui/GameOfStrife.java:156-161 | after the draw, the seat stays in range |
| Rounds.RoundPassesTurnOnce | GameOfStrife/src/gui/GameOfStrife.java:156-161 | a null colour throws with nothing changed; no deck gives exactly one `nextTurn`; other cards move the turn exactly one seat unless they throw |
| Rounds.SkipTurnRound | GameOfStrife/src/game/RedCard.java:71-72 | a skip-turn roll moves the turn two seats on |
| Rounds.RollAgainRound | GameOfStrife/src/game/RedCard.java:76-77 | a roll-again roll leaves the table exactly as the card found it, so the same player rolls again |
| Rounds.HonestDialogChoice | GameOfStrife/src/game/BlueCard.java:106-117 | the dialog's answer is one the card's dialog can give |
| Rounds.DialogChoice | GameOfStrife/src/game/BlueCard.java:106-117 | a blue card's dialog is shown with as many buttons as the card offers, other cards answer -1; what an honest dialog's answer means is stated by `Rounds.HonestDialogChoice` |
| Rounds.MoveSeat | GameOfStrife/src/gui/GameOfStrife.java:153 | `move` on the current seat changes only that seat, and leaves the player on the walk's last tile, whose colour is unchanged |
| Rounds.RollAndMove | GameOfStrife/src/gui/GameOfStrife.java:149-153 | roll then move: the current player ends in the walk of the rolled value, on a tile of that walk's colour |
| Rounds.PassTurn | GameOfStrife/src/gui/GameOfStrife.java:161 | the final `nextTurn` unless something threw |
| Rounds.DrawForCurrent | GameOfStrife/src/gui/GameOfStrife.java:156 | the draw keeps the deck invariant, leaves the table alone, fails only on a null tile, and changes the piles as `drawCard` does for the current player's tile colour (`Players.DrawnAs`) |
| Rounds.PlayDrawn | GameOfStrife/src/gui/GameOfStrife.java:156-161 | what follows the draw is `FinishRoll` |
| Rounds.RollMoveDraw | GameOfStrife/src/gui/GameOfStrife.java:149-156 | roll and move as the walk of the rolled value says, then the draw for the colour of the tile that walk ends on: a null tile throws, a colour without a deck draws nothing, otherwise that colour's piles give up one card and no other pile changes |
| Rounds.HandleDieRoll | GameOfStrife/src/gui/GameOfStrife.java:148-163 | roll, move, draw by the landed tile's colour (the piles change exactly as `drawCard` does for that colour), play the card, then exactly one `nextTurn` unless something threw |

## Left out

- Swing: dialogs, `UIManager` styling, board and player panels, `updatePlayerPosition`, `repaint`, `updatePlayerTables` and the window set-up. These draw or ask; they hold no rules. What a dialog returns is a parameter:
  - `dialog` for the card dialogs, required to answer -1 or a button index (`Rounds.HonestDialog`);
  - `MoveDecisions` for the path, buy and victory-tile choices.
- Randomness is passed in as values:
  - `Random.nextInt` in the die roll;
  - the draws of `Collections.shuffle`;
  - `Math.random()` in the gambles, as a real in [0, 1).
- `BoardPanel.setVictoryTile` is passed in as a pick among the board's victory tiles. The victory tile lives in the board panel, so the game takes it as an argument and hands the new one back. The same goes for the end-of-game signal. The restart popup is not part of this model.
- File reading and org.json parsing are modelled on an already parsed value (`Json.Json`). Coercions are simplified: `getInt` truncates a decimal, and `getBoolean` accepts the texts "true" and "false".
- A fatal load error returns the error before anything changes. Java shows a message and calls `System.exit`.
- Integer overflow: Java's 32-bit `int` arithmetic is modelled with unbounded integers, so wrap-around on huge values is not captured.
- Doubles are reals, with no floating-point rounding in the gamble comparisons.
- Case folding is ASCII only. The game's colour names and tags are plain ASCII.
- `Decks.CardDecks.ShuffleAllDecks` assigns the shuffled map in one step. The Java loop shuffles each list in place, and the result is the same.
- Aliasing between a deck list returned by a getter and the stored list is not modelled. The drawing code writes the changed piles back under their key.
- `Strife.Game.constructor` takes an already loaded `Board` and `CardDecks` and requires:
  - one name and country per player, with at least one player;
  - a board whose first tile is a start tile or that is empty (otherwise Java exits while loading).
- `Rounds.HandleDieRoll` requires:
  - a valid board and decks;
  - a non-empty victory list;
  - the current tile and the start tile on the board;
  - a dialog that answers honestly.

  These are the conditions under which the Java code reaches its own exits and exceptions in the places modelled.
- `Rounds.FinishRoll`, `TurnRules.NextTurn`, `TurnRules.PreviousTurn`, `TurnRules.Countdown` and the other functions on values state only ranges and sizes in their own `ensures`. Their full behaviour is proved in the lemmas next to them, and the methods are proved equal to them.
- `BlueCards.Steal` states only the size in its own `ensures`. The arithmetic is in `BlueCards.StealArithmetic`.
- `Text.UpperIdempotent` is a helper fact that the verifier proves unaided.
- Getters with no logic (`getValue`, `getNumFaces`, `getID`, `getVictory`, `getType`, `getNextTiles`, `getAllTiles`, `getVictoryTiles`, `getPath` and the card getters) are fields of the classes and datatypes. There is no method for them. `getDeckTypes` is `Decks.CardDecks.DeckTypes`; what its keys mean for the lookups is stated by `Decks.CardDecks.DeckTypesFindPiles`.
- `Json.GetInt`: org.json's `getInt` also parses numeric text such as "5"; the model treats a text value as a failed read (a thrown `JSONException`).
- `Json.OptString`: org.json's `optString` returns the `toString()` of a value that is not text; the model returns the default there. This value is a blue card's method type; with a non-text value Java's tag would be that value's text form.
- Cards are immutable values: the `Cards.Card` datatype has no setters, as in the source.
