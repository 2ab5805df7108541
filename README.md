# Qi's Eyes shell game: a verified model of the game logic

This project models the game logic of the Qi's Eyes shell game, a SpriteKit
playground. The player bets on which cup hides a coin. The coin is shown, the
cups are shuffled with eight swaps, the player taps a cup, and the reveal
settles the bet. A win adds the bet and a level, and every third level adds a
cup, up to six. The game ends once the balance is zero or below, and the
new-game button then starts over with 3 coins, level 1, three cups and bet 1.

The model has one module per part of the program:

- `Scene` holds the class `GameScene`. It has the scene's fields, the array of
  cups, the display it owns and one method per entry point. The entry points
  are the scene's tap handler, the display's delegate calls and the delayed
  callbacks.
- `ShuffleEngine` gives the shuffle as a specification over values. `Shuffled`
  is the cups after a list of swaps, and `Track` is the coin position after
  them. Its lemmas prove that the tracked position always names the cup that
  holds the coin, and that the cups are only reordered.
- `Rules` holds the betting and progression rules:
  - the starting values;
  - the clamp `min(amount, balance)`;
  - the payout and difficulty rule `Settle`;
  - the level-to-cup-count rule that any number of rounds preserves.
- `Cups` holds the class `Cup`. It has the open or closed state and the
  coin sprite, which is created at most once.
- `Hud` holds the class `HUD`. It has the display's copy of the bet, the
  visibility of the betting controls and of the new-game button, and the
  gating of taps on them. A call the display makes on its delegate is
  returned as a `Request`. `GameScene.HudTouched` hands that request to the
  scene.
- `Scenarios` holds whole games played through the entry points with fixed
  random draws.

Randomness is a parameter. The coin position is passed to `DidConfirmBet` or
`HudTouched`. Each swap of the shuffle gets a `Draw`: the first position, then
the candidates the rejection loop `while cup2Index == cup1Index` draws until
one differs.

Each `SKAction` delay is a field `scheduled` naming the pending callback. Each
callback is a method that may run only while it is scheduled:

- the coin display (`HideCoinAndStartShuffling`);
- the reveal delay (`HandleGuessResult`);
- the next round (`NextRoundElapsed`).

The scene's invariant `Valid()` is stated over `View()`, a snapshot of all the
scene shows. `Consistent` holds the rules that tie the snapshot together:

- the cup count follows the level;
- each phase has its pending callback;
- the tracked position names the coin's cup from coin placement on;
- the display mirrors the bet and the phase.

The invariant also holds the cup states of each phase. Every entry point
states its new snapshot in terms of the old one. Every entry point except
`DidRequestNewGame` keeps `Valid()`. `DidRequestNewGame` keeps `Core()`, which
is `Valid()` without the tie between the new-game button and the game-over
phase. `HudTouched` calls it once the display has hidden that button, and so
restores `Valid()`.

The code lets the balance fall below zero. The bet is clamped to the balance
only when it is changed, not when it is confirmed or after a loss.
`Scenarios.OverdrawAfterLoss` plays a game that ends at -1. This model
therefore states no `bet <= balance` invariant.

A worked shuffle: four cups, the coin at 2, and the swaps (0,2), (2,3), (1,3).
The first swap moves the coin to 0. The other two do not touch 0, so the coin
ends at 0 (`ShuffleEngine.ForcedSwapsTrace`).

## Model

| member | source | states |
|---|---|---|
| Scene.GameScene.constructor | QisEyes.playground/Sources/GameScene.swift:7-30 | The scene starts valid at the betting phase with balance 3, bet 1, level 1, three closed cups, no pending callback and the display showing bet 1 |
| Scene.GameScene.MakeCups | QisEyes.playground/Sources/GameScene.swift:95-102 | Fresh, distinct, closed cups without coins, the cup at position k with `cupIndex` k |
| Scene.GameScene.SetupCups | QisEyes.playground/Sources/GameScene.swift:78-104 | `numberOfCups` closed cups. The same cup objects in the same order, reset, when their number was right; fresh cups indexed by position otherwise |
| Scene.GameScene.StartNewRound | QisEyes.playground/Sources/GameScene.swift:72-76 | Betting phase, betting controls shown, cups set up as by `SetupCups` |
| Scene.GameScene.DidChangeBet | QisEyes.playground/Sources/GameScene.swift:279-282 | In any phase the bet becomes `min(amount, balance)` and the display shows it; nothing else in the snapshot changes |
| Scene.GameScene.ShowCoinPlacement | QisEyes.playground/Sources/GameScene.swift:106-129 | The tracked position is the drawn one, the coin's cup is the cup there, and the coin display is scheduled |
| Scene.GameScene.DidConfirmBet | QisEyes.playground/Sources/GameScene.swift:284-290 | From betting only: showing the coin at the drawn position with the betting controls hidden. In any other phase the snapshot is unchanged |
| Scene.GameScene.PerformShuffle | QisEyes.playground/Sources/GameScene.swift:144-190 | One swap: the cups become `SwapAt` of the old cups at the drawn pair, and the tracked position follows its cup (`TrackSwap`) |
| Scene.GameScene.PerformShuffles | QisEyes.playground/Sources/GameScene.swift:144-190 | Exactly eight swaps, one per draw. The cups become `Shuffled` of the old cups and the tracked position becomes `Track` of the old one |
| Scene.GameScene.StartShuffling | QisEyes.playground/Sources/GameScene.swift:138-142 | After the eight swaps the phase is guessing and no shuffle runs. The cups are still distinct, closed and owned by the scene. The tracked position is in range and is the only position of the coin's cup |
| Scene.GameScene.FinishShuffling | QisEyes.playground/Sources/GameScene.swift:192-196 | Shuffling is cleared and the phase is guessing |
| Scene.GameScene.ShuffledCupsKeepFrame | QisEyes.playground/Sources/GameScene.swift:189 | Reordering the cups in place keeps them distinct, closed and owned by the scene |
| Scene.GameScene.HideCoinAndStartShuffling | QisEyes.playground/Sources/GameScene.swift:131-136 | The coin display elapses: guessing phase, cups `Shuffled`, position `Track`ed, and the coin's cup at exactly the tracked position. Everything else is unchanged |
| Scene.GameScene.TouchesBegan | QisEyes.playground/Sources/GameScene.swift:199-206 | A tap on cup `index` is a guess only while guessing and not shuffling; every other tap leaves the snapshot unchanged |
| Scene.GameScene.MakeGuess | QisEyes.playground/Sources/GameScene.swift:218-238 | Revealing phase, every cup open with exactly the coin's cup showing the coin, and the reveal delay scheduled with whether the guess hit the coin |
| Scene.GameScene.RevealCups | QisEyes.playground/Sources/GameScene.swift:223-230 | Every cup is opened, the cup at the tracked position with the coin |
| Scene.GameScene.PayOut | QisEyes.playground/Sources/GameScene.swift:241-257 | The scene's balance, bet, level and cup count become `Settle` of the old ones |
| Scene.GameScene.HandleGuessResult | QisEyes.playground/Sources/GameScene.swift:240-274 | The economy becomes `Settle` of the old one. At balance 0 or below the game is over with the new-game button shown; otherwise the next round is scheduled |
| Scene.GameScene.NextRoundElapsed | QisEyes.playground/Sources/GameScene.swift:266-272 | Betting phase with betting controls shown, same economy, no pending callback, cups set up anew |
| Scene.GameScene.DidRequestNewGame | QisEyes.playground/Sources/GameScene.swift:292-304 | Balance 3, level 1, three cups, bet 1 on scene and display, betting phase. The new economy does not depend on the old one |
| Scene.GameScene.HudTouched | QisEyes.playground/Sources/HUD.swift:226-248 | A tap on the display. The stepper and confirm act only in the betting phase, the new-game button only in game over. The bet stays at least 1 once it is, and changes outside betting only through a new game |
| Scene.NewRoundConsistent | QisEyes.playground/Sources/GameScene.swift:72-76 | A betting phase with money left, the level rule and the right number of cups is consistent |
| Scene.ShuffleKeepsConsistent | QisEyes.playground/Sources/GameScene.swift:131-136 | Shuffling keeps the scene consistent when the cups keep their number and the new position names the coin's cup |
| Scene.GuessKeepsConsistent | QisEyes.playground/Sources/GameScene.swift:218-238 | A guess keeps the scene consistent |
| Scene.SettleKeepsConsistent | QisEyes.playground/Sources/GameScene.swift:240-274 | Settling keeps the scene consistent, both towards game over and towards the next round |
| Rules.ClampBet | QisEyes.playground/Sources/GameScene.swift:280 | The bet kept is at most the request and at most the balance, and is one of the two |
| Rules.ClampBetPositive | QisEyes.playground/Sources/GameScene.swift:279-282 | A request of at least 1 against a positive balance gives a bet between 1 and the balance |
| Rules.NextCupCount | QisEyes.playground/Sources/GameScene.swift:249-251 | A cup is added exactly when the level is a multiple of 3 and fewer than 6 cups are in play; the count never exceeds 6 |
| Rules.Settle | QisEyes.playground/Sources/GameScene.swift:241-257 | The bet is unchanged. The balance moves by plus or minus the bet and the level by 1 on a win. The cup count stays in [3, 6] and never falls |
| Rules.SettleDifficulty | QisEyes.playground/Sources/GameScene.swift:248-251 | A cup is added if and only if the round is won, the new level is a multiple of 3 and fewer than 6 cups are in play. A loss keeps level and cups |
| Rules.CupsForLevel | QisEyes.playground/Sources/GameScene.swift:249-251 | The cup count for a level is within [3, 6] |
| Rules.NewGameProgressed | QisEyes.playground/Sources/GameScene.swift:294-296 | A new game's cup count is the one its level calls for |
| Rules.SettleKeepsProgressed | QisEyes.playground/Sources/GameScene.swift:246-251 | Settling a round keeps the cup count the one the level calls for |
| Rules.CupsByLevel | QisEyes.playground/Sources/GameScene.swift:249-251 | Three cups before level 3, four from 3, five from 6, six from 9 on |
| Rules.PlayRoundsProgress | QisEyes.playground/Sources/GameScene.swift:240-257 | Over any rounds, the level rises by the number of wins and the balance moves by the net of the bets. The cup count never falls and follows the level |
| Rules.WorkedRounds | QisEyes.playground/Sources/GameScene.swift:240-257 | A win from 3 gives 4 at level 2. A loss of 1 from 1 leaves 0. Reaching level 3 adds the fourth cup and levels 4 and 5 add none. A request for 10 against 3 gives 3 |
| ShuffleEngine.SwapAt | QisEyes.playground/Sources/GameScene.swift:189 | `swapAt` exchanges the two positions and leaves every other position as it was |
| ShuffleEngine.SwapFollowsCoin | QisEyes.playground/Sources/GameScene.swift:158-162 | A coin at the first position moves to the second and vice versa, any other stays. The tracked position then names the cup that held the coin |
| ShuffleEngine.TrackStaysInRange | QisEyes.playground/Sources/GameScene.swift:151-162 | Swaps of in-range positions keep the tracked position in range |
| ShuffleEngine.ShuffleFollowsCoin | QisEyes.playground/Sources/GameScene.swift:158-189 | After any swaps, the cup at the tracked position is the cup that held the coin before them |
| ShuffleEngine.ShuffleIsPermutation | QisEyes.playground/Sources/GameScene.swift:189 | The shuffled cups are a permutation of the cups before |
| ShuffleEngine.ShuffleKeepsDistinct | QisEyes.playground/Sources/GameScene.swift:189 | Shuffling distinct cups leaves them distinct |
| ShuffleEngine.SameElements | QisEyes.playground/Sources/GameScene.swift:189 | Two orderings of the same cups hold the same cups |
| ShuffleEngine.TrackedCupIsUnique | QisEyes.playground/Sources/GameScene.swift:158-189 | For distinct cups, a position holds the coin's cup after the shuffle if and only if it is the tracked position |
| ShuffleEngine.Rejections | QisEyes.playground/Sources/GameScene.swift:152-155 | The rejection loop discards only candidates equal to the first position and stops at the first one that differs |
| ShuffleEngine.DrawSecond | QisEyes.playground/Sources/GameScene.swift:151-155 | The second position is the first candidate that differs from the first position, so the two always differ |
| ShuffleEngine.SwapOf | QisEyes.playground/Sources/GameScene.swift:151-155 | A swap starts at the drawn first position and ends at a drawn candidate that differs from it |
| ShuffleEngine.SwapsOf | QisEyes.playground/Sources/GameScene.swift:144-155 | One swap per draw, each between two distinct positions in range |
| ShuffleEngine.ValidDrawNeedsTwoCups | QisEyes.playground/Sources/GameScene.swift:151-155 | The rejection loop can stop only with at least two cups |
| ShuffleEngine.TwoCupsAdmitDraws | QisEyes.playground/Sources/GameScene.swift:151-155 | With at least two cups every first position has draws that stop the loop |
| ShuffleEngine.ForcedSwapsTrace | QisEyes.playground/Sources/GameScene.swift:158-162 | Four cups, coin at 2, swaps (0,2), (2,3), (1,3): the coin goes 2, 0, 0, 0 |
| Cups.Cup.constructor | QisEyes.playground/Sources/Cup.swift:6-17 | A new cup is closed without a coin sprite, with the index the scene gives it |
| Cups.Cup.Reveal | QisEyes.playground/Sources/Cup.swift:53-69 | Open with the coin when asked for it, open otherwise. A coin sprite is created only if there was none, and an existing one is kept |
| Cups.Cup.ShowCoin | QisEyes.playground/Sources/Cup.swift:71-98 | Afterwards the cup has a coin sprite. It is new only if there was none before; an existing one is kept |
| Cups.Cup.Reset | QisEyes.playground/Sources/Cup.swift:100-111 | Closed with no coin sprite |
| Cups.Cup.PlayHoverEffect | QisEyes.playground/Sources/Cup.swift:123-131 | The hover animation plays if and only if the cup is closed |
| Hud.HUD.constructor | QisEyes.playground/Sources/HUD.swift:29-37 | Bet 1, betting controls shown, new-game button hidden |
| Hud.HUD.UpdateBet | QisEyes.playground/Sources/HUD.swift:166-169 | The display's bet becomes exactly the given bet |
| Hud.HUD.ShowBettingControls | QisEyes.playground/Sources/HUD.swift:171-175 | The betting controls are shown, however often it is called |
| Hud.HUD.HideBettingControls | QisEyes.playground/Sources/HUD.swift:177-179 | The betting controls are hidden, however often it is called |
| Hud.HUD.ShowGameOver | QisEyes.playground/Sources/HUD.swift:210-223 | The new-game button is shown |
| Hud.HUD.DecreaseBet | QisEyes.playground/Sources/HUD.swift:250-259 | Asks for one less if and only if the bet is above 1; otherwise asks nothing |
| Hud.HUD.IncreaseBet | QisEyes.playground/Sources/HUD.swift:261-268 | Always asks for one more |
| Hud.HUD.TouchesBegan | QisEyes.playground/Sources/HUD.swift:226-248 | Stepper and confirm answer only while the betting controls are shown. The new-game button answers only while shown and hides itself first, so one shown button gives at most one request |
| Scenarios.SwapFirstTwo | QisEyes.playground/Sources/GameScene.swift:151-155 | Eight draws that each swap cups 0 and 1 are valid for three cups |
| Scenarios.LoseRound | QisEyes.playground/Sources/GameScene.swift:218-274 | Confirming, shuffling and tapping a cup next to the coin's cup settles a loss with the bet unchanged |
| Scenarios.OverdrawAfterLoss | QisEyes.playground/Sources/GameScene.swift:252-264 | Bet raised to 2, lost from 3, then lost again from 1: the game ends with balance -1 |
| Scenarios.NewGameIsIdempotent | QisEyes.playground/Sources/GameScene.swift:292-304 | A new game asked for in the state a new game leaves changes nothing, so asking twice is asking once |

## Left out

- Rendering: sprites, colours, positions, sizes, labels, fonts and every `SKAction` animation and duration.
- Hit-testing: `Cup.contains` and `handleCupTap`. A tap on the scene is the index of the cup it hits, and a tap on the display is the control it hits (`Target`); the display's controls are taken not to overlap.
- Sound: every `AudioManager` call has no effect on the game and is left out.
- Display text: `updateBalance`, `updateLevel`, `showGuessingPrompt` and `showResult` only set label text, so they are not modelled. The result message announces twice the bet on a win while the balance grows by the bet; only the balance is modelled.
- The shuffle's swaps run inside one call. In the program each swap waits for its animation before the next `performShuffle`, and taps in between are ignored because the phase is shuffling. The model therefore never shows the shuffling phase between calls.
- Scene.GameScene.DidRequestNewGame: requires that no callback is pending. The program never cancels a pending callback. The display offers the new-game button only at game over, when none is pending.
- Integer width: balance, bet and level are unbounded. The program's 64-bit `Int` would trap on overflow in `playerBalance += currentBet`, `currentLevel += 1` and `currentBet + 1`, which play cannot reach.
- Timer cancellation and the order of overlapping callbacks are not modelled. At most one callback is pending at a time.
- The coin sprite that `showCoinPlacement` adds and `hideCoinAndStartShuffling` removes is presentation only; the coin's cup is tracked as `coinCup`.
