/** Whole games played through the scene's entry points, with the random
    draws fixed. */
module Scenarios {
  import opened Rules
  import opened ShuffleEngine
  import opened Hud
  import opened Scene

  /** Eight swaps of the first two cups: the draws always name cup 0 first
      and cup 1 as the first candidate. */
  function SwapFirstTwo(): (draws: seq<Draw>)
    ensures |draws| == MaxShuffleCount && AllValidDraws(draws, InitialCups)
  {
    assert HasDifferent(0, [1]) by {
      assert 1 in [1];
    }
    seq(MaxShuffleCount, i => Draw(0, [1]))
  }

  /** One round the player loses: the bet is confirmed with the coin under
      cup 0, the cups are shuffled, the player taps the cup next to the
      coin's cup and the reveal delay elapses. The bet stays as it was. */
  method LoseRound(scene: GameScene)
    requires scene.Valid() && scene.gameState == Betting && scene.numberOfCups == InitialCups
    modifies scene.Repr
    ensures scene.Valid() && fresh(scene.Repr - old(scene.Repr))
    ensures scene.Ledger() == Settle(old(scene.Ledger()), false)
    ensures scene.playerBalance > 0 ==> scene.scheduled == NextRound
    ensures scene.playerBalance <= 0 ==> scene.gameState == GameOver
  {
    scene.HudTouched(ConfirmButton, 0);
    scene.HideCoinAndStartShuffling(SwapFirstTwo());
    var wrong := (scene.correctCupIndex + 1) % InitialCups;
    scene.TouchesBegan(wrong);
    scene.HandleGuessResult(false);
  }

  /** A new game where the player raises the bet to 2 and loses twice. The
      bet is clamped to the balance only when it is changed, not after a
      loss, so the second loss takes 2 from a balance of 1: the game ends
      with the balance at -1. */
  method OverdrawAfterLoss() returns (balance: int)
    ensures balance == -1
  {
    var scene := new GameScene();
    scene.HudTouched(BetPlus, 0);
    assert scene.currentBet == 2;
    LoseRound(scene);
    assert scene.playerBalance == 1 && scene.currentBet == 2;
    scene.NextRoundElapsed();
    LoseRound(scene);
    balance := scene.playerBalance;
  }

  /** Asking for a new game in the state a new game leaves changes nothing
      a player can see: the same cups, closed, the same economy, display
      and phase. So asking twice is the same as asking once. */
  method NewGameIsIdempotent(scene: GameScene)
    requires scene.Core() && scene.scheduled == NoTimer
    requires scene.gameState == Betting && scene.Ledger() == InitialEconomy && scene.cups.Length == InitialCups
    modifies scene.Repr
    ensures scene.Core() && scene.View() == old(scene.View()) && scene.AllClosed()
  {
    scene.DidRequestNewGame();
  }
}
