/** The game scene: the round state machine, the economy fields and the
    shuffle of the cups, driven by taps, by the display's requests and by
    the callbacks SpriteKit runs after a delay.

    Randomness is injected: the coin position and, for every swap, the
    numbers `Int.random` would return. Each delayed callback is a method
    that may run only while the scene has scheduled it (`scheduled`). */
module Scene {
  import opened Wrappers
  import opened Rules
  import opened ShuffleEngine
  import opened Cups
  import opened Hud

  datatype GameState = Betting | ShowingCoin | Shuffling | Guessing | Revealing | GameOver

  /** The delayed callback the scene has scheduled, if any. */
  datatype Timer = NoTimer | CoinDisplay | RevealDelay(isCorrect: bool) | NextRound

  /** The number of swaps in one shuffle. */
  const MaxShuffleCount: int := 8

  /** Everything a player or the display can observe of the scene. */
  datatype Snapshot = Snapshot(
    state: GameState,
    ledger: Economy,
    coin: int,
    coinCup: Cup,
    cups: seq<Cup>,
    shuffleCount: int,
    hudBet: int,
    bettingHidden: bool,
    newGameHidden: bool,
    scheduled: Timer)

  /** The rules that tie the observable state together: the cup count
      follows the level, the table holds the current number of cups while a
      round is played, the tracked position names the coin's cup from coin
      placement on, each phase has its own pending callback and balance,
      and the display mirrors the bet and the phase. */
  ghost predicate Consistent(v: Snapshot)
  {
    && Progressed(v.ledger)
    && InitialCups <= |v.cups| <= v.ledger.cupCount
    && 0 <= v.shuffleCount <= MaxShuffleCount
    && v.state != Shuffling
    && (v.state in {Betting, ShowingCoin, Guessing} ==> |v.cups| == v.ledger.cupCount)
    && (v.state != Betting ==> 0 <= v.coin < |v.cups| && v.cups[v.coin] == v.coinCup)
    && (v.scheduled == CoinDisplay <==> v.state == ShowingCoin)
    && (v.scheduled.RevealDelay? || v.scheduled == NextRound <==> v.state == Revealing)
    && (v.scheduled == NextRound ==> v.ledger.balance > 0)
    && (v.state == GameOver ==> v.ledger.balance <= 0)
    && (v.state in {Betting, ShowingCoin, Guessing} || v.scheduled.RevealDelay? ==> v.ledger.balance >= 1)
    && v.hudBet == v.ledger.bet
    && (v.bettingHidden <==> v.state != Betting)
  }

  /** A round starts consistent from any economy that follows the level
      rule and has money left, once the table holds its number of cups. */
  lemma NewRoundConsistent(v: Snapshot, l: Economy, cs: seq<Cup>)
    requires 0 <= v.shuffleCount <= MaxShuffleCount
    requires Progressed(l) && l.balance >= 1 && |cs| == l.cupCount
    ensures Consistent(v.(state := Betting, ledger := l, hudBet := l.bet, cups := cs,
                          bettingHidden := false, scheduled := NoTimer))
  {
  }

  /** Hiding the coin and shuffling takes a consistent scene that shows
      the coin to a consistent guessing scene, as long as the cups keep
      their number and the new position names the coin's cup. */
  lemma ShuffleKeepsConsistent(v: Snapshot, coin: int, cs: seq<Cup>)
    requires Consistent(v) && v.state == ShowingCoin
    requires |cs| == |v.cups| && 0 <= coin < |cs| && cs[coin] == v.coinCup
    ensures Consistent(v.(state := Guessing, coin := coin, cups := cs,
                          shuffleCount := MaxShuffleCount, scheduled := NoTimer))
  {
  }

  /** A guess takes a consistent guessing scene to a consistent scene
      waiting on its reveal delay. */
  lemma GuessKeepsConsistent(v: Snapshot, isCorrect: bool)
    requires Consistent(v) && v.state == Guessing
    ensures Consistent(v.(state := Revealing, scheduled := RevealDelay(isCorrect)))
  {
  }

  /** Settling a round with a consistent scene waiting on its reveal delay
      gives a consistent scene: over when the balance is gone, waiting for
      the next round otherwise. */
  lemma SettleKeepsConsistent(v: Snapshot, isCorrect: bool)
    requires Consistent(v) && v.scheduled == RevealDelay(isCorrect)
    ensures var l := Settle(v.ledger, isCorrect);
      l.balance <= 0 ==> Consistent(v.(ledger := l, state := GameOver, newGameHidden := false, scheduled := NoTimer))
    ensures var l := Settle(v.ledger, isCorrect);
      l.balance > 0 ==> Consistent(v.(ledger := l, scheduled := NextRound))
  {
    SettleKeepsProgressed(v.ledger, isCorrect);
  }

  class GameScene {
    var gameState: GameState
    var playerBalance: int
    var currentBet: int
    var currentLevel: int
    var numberOfCups: int
    /** The position of the cup that holds the coin. */
    var correctCupIndex: int
    var cups: array<Cup>
    const hud: HUD
    var isShuffling: bool
    var shuffleCount: int
    var scheduled: Timer
    /** The cup the coin was placed under this round. */
    ghost var coinCup: Cup
    ghost var Repr: set<object>

    function Ledger(): (r: Economy)
      reads this
    {
      Economy(playerBalance, currentBet, currentLevel, numberOfCups)
    }

    ghost function CupObjects(): (r: set<object>)
      reads this, cups
    {
      set k | 0 <= k < cups.Length :: cups[k]
    }

    ghost function View(): (r: Snapshot)
      reads this, hud, cups
    {
      Snapshot(gameState, Ledger(), correctCupIndex, coinCup, cups[..],
           shuffleCount, hud.currentBet, hud.bettingHidden, hud.newGameHidden, scheduled)
    }

    /** The objects of the scene and their own invariants. */
    ghost predicate Frame()
      reads this, Repr
    {
      && this in Repr && hud in Repr && cups in Repr
      && (forall c :: c in cups[..] ==> c in Repr)
      && (forall c :: c in cups[..] ==> c.Valid())
      && Distinct(cups[..])
    }

    ghost predicate AllClosed()
      reads this, cups, cups[..]
    {
      forall c :: c in cups[..] ==> c.cupState == Closed && c.coinSprite == null
    }

    /** Every cup is open and exactly the coin's cup shows a coin. */
    ghost predicate AllRevealed()
      reads this, cups, cups[..]
    {
      forall k :: 0 <= k < cups.Length ==>
        && cups[k].cupState == (if k == correctCupIndex then OpenWithCoin else Open)
        && (cups[k].coinSprite != null <==> k == correctCupIndex)
    }

    /** The cups are closed while a round is set up and played, and all
        open once the guess is made. */
    ghost predicate CupsMatchPhase()
      reads this, cups, cups[..]
    {
      && (gameState in {Betting, ShowingCoin, Guessing} ==> AllClosed())
      && (gameState in {Revealing, GameOver} ==> AllRevealed())
    }

    /** The scene's invariant, apart from the new-game button. */
    ghost predicate Core()
      reads this, Repr
    {
      && Frame()
      // shuffling runs to completion inside one call
      && !isShuffling
      && Consistent(View())
      && CupsMatchPhase()
    }

    ghost predicate Valid()
      reads this, Repr
    {
      Core() && (hud.newGameHidden <==> gameState != GameOver)
    }

    /** A fresh cup for every position, all closed. */
    static method MakeCups(n: nat) returns (a: array<Cup>)
      ensures fresh(a) && a.Length == n && Distinct(a[..])
      ensures forall k :: 0 <= k < n ==>
        fresh(a[k]) && a[k].Valid() && a[k].cupState == Closed && a[k].coinSprite == null && a[k].cupIndex == k
    {
      var made: seq<Cup> := [];
      while |made| < n
        invariant |made| <= n && Distinct(made)
        invariant forall k :: 0 <= k < |made| ==>
          fresh(made[k]) && made[k].Valid() && made[k].cupState == Closed && made[k].coinSprite == null && made[k].cupIndex == k
      {
        var c := new Cup(|made|);
        made := made + [c];
      }
      a := new Cup[n](k requires 0 <= k < n => made[k]);
    }

    /** The scene as `didMove` leaves it: a new game at the betting phase
        with three closed cups. */
    constructor ()
      ensures Valid() && fresh(Repr)
      ensures Ledger() == InitialEconomy && gameState == Betting && scheduled == NoTimer
      ensures cups.Length == InitialCups && AllClosed()
    {
      gameState := Betting;
      playerBalance := InitialBalance;
      currentBet := InitialBet;
      currentLevel := InitialLevel;
      numberOfCups := InitialCups;
      correctCupIndex := 0;
      isShuffling := false;
      shuffleCount := 0;
      scheduled := NoTimer;
      var h := new HUD();
      hud := h;
      var a := MakeCups(InitialCups);
      cups := a;
      coinCup := a[0];
      Repr := {this, h, a} + set k | 0 <= k < a.Length :: a[k];
      new;
      hud.UpdateBet(currentBet);
      hud.ShowBettingControls();
      assert View() == Snapshot(Betting, InitialEconomy, 0, a[0], a[..], 0, InitialBet, false, true, NoTimer);
      NewGameProgressed();
      NewRoundConsistent(View(), InitialEconomy, a[..]);
    }

    /** Puts `numberOfCups` closed cups on the table: the same cups, reset,
        when their number is right; fresh cups otherwise. */
    method SetupCups()
      requires Frame() && InitialCups <= numberOfCups
      modifies this`cups, this`Repr, CupObjects()
      ensures Frame() && fresh(Repr - old(Repr))
      ensures cups.Length == numberOfCups && AllClosed()
      ensures old(cups.Length) == numberOfCups ==> cups == old(cups) && cups[..] == old(cups[..])
      ensures old(cups.Length) != numberOfCups ==>
        fresh(cups) && forall k :: 0 <= k < cups.Length ==> fresh(cups[k]) && cups[k].cupIndex == k
    {
      if cups.Length == numberOfCups {
        var k := 0;
        while k < cups.Length
          modifies CupObjects()
          invariant 0 <= k <= cups.Length
          invariant forall j :: 0 <= j < k ==> cups[j].cupState == Closed && cups[j].coinSprite == null
          invariant forall j :: 0 <= j < cups.Length ==> cups[j].Valid()
        {
          cups[k].Reset();
          k := k + 1;
        }
      } else {
        var a := MakeCups(numberOfCups);
        cups := a;
        Repr := Repr + {a} + set k | 0 <= k < a.Length :: a[k];
      }
    }

    /** Back to the betting phase with the betting controls shown. */
    method StartNewRound()
      requires Frame() && InitialCups <= numberOfCups
      modifies this`gameState, this`cups, this`Repr, hud`bettingHidden, CupObjects()
      ensures Frame() && fresh(Repr - old(Repr))
      ensures gameState == Betting && !hud.bettingHidden
      ensures cups.Length == numberOfCups && AllClosed()
      ensures old(cups.Length) == numberOfCups ==> cups == old(cups) && cups[..] == old(cups[..])
      ensures old(cups.Length) != numberOfCups ==>
        fresh(cups) && forall k :: 0 <= k < cups.Length ==> fresh(cups[k]) && cups[k].cupIndex == k
    {
      gameState := Betting;
      hud.ShowBettingControls();
      SetupCups();
    }

    /** The display asks for a bet of `amount`: the bet becomes
        `min(amount, playerBalance)`, in any phase, and the display shows it. */
    method DidChangeBet(amount: int)
      requires Valid()
      modifies this`currentBet, hud`currentBet
      ensures Valid()
      ensures currentBet == ClampBet(amount, playerBalance) && currentBet <= playerBalance
      ensures View() == old(View()).(ledger := old(Ledger()).(bet := currentBet), hudBet := currentBet)
    {
      currentBet := ClampBet(amount, playerBalance);
      hud.UpdateBet(currentBet);
    }

    /** Places the coin under the cup at `coin` and schedules its hiding. */
    method ShowCoinPlacement(coin: int)
      requires 0 <= coin < cups.Length
      modifies this`correctCupIndex, this`coinCup, this`scheduled
      ensures correctCupIndex == coin && coinCup == cups[coin] && scheduled == CoinDisplay
    {
      correctCupIndex := coin;
      coinCup := cups[coin];
      scheduled := CoinDisplay;
    }

    /** The display confirms the bet. Only the betting phase moves on, to
        showing the coin at the drawn position `coin`; any other phase is
        left as it is. */
    method DidConfirmBet(coin: int)
      requires Valid() && 0 <= coin < numberOfCups
      modifies this`gameState, this`correctCupIndex, this`coinCup, this`scheduled, hud`bettingHidden
      ensures Valid()
      ensures old(gameState) == Betting ==>
        View() == old(View()).(state := ShowingCoin, coin := coin, coinCup := old(cups[coin]),
                               bettingHidden := true, scheduled := CoinDisplay)
      ensures old(gameState) != Betting ==> View() == old(View())
    {
      if gameState == Betting {
        gameState := ShowingCoin;
        hud.HideBettingControls();
        ShowCoinPlacement(coin);
      }
    }

    /** One swap of the shuffle: the two positions come from the draw `d`,
        the cups at them trade places and the tracked coin position follows
        its cup. */
    method PerformShuffle(d: Draw)
      requires ValidDraw(d, cups.Length)
      modifies this`correctCupIndex, cups
      ensures cups[..] == SwapAt(old(cups[..]), SwapOf(d))
      ensures correctCupIndex == TrackSwap(old(correctCupIndex), SwapOf(d))
    {
      var cup1Index := d.first;
      var cup2Index := DrawSecond(cup1Index, d.candidates);
      assert Swap(cup1Index, cup2Index) == SwapOf(d);
      if correctCupIndex == cup1Index {
        correctCupIndex := cup2Index;
      } else if correctCupIndex == cup2Index {
        correctCupIndex := cup1Index;
      }
      cups[cup1Index], cups[cup2Index] := cups[cup2Index], cups[cup1Index];
    }

    /** The chain of `performShuffle` calls that the swap animations make
        one after the other: a swap per draw until `MaxShuffleCount` swaps
        are done, with `correctCupIndex` kept on the coin's cup. */
    method PerformShuffles(draws: seq<Draw>)
      requires shuffleCount == 0 && 0 <= correctCupIndex < cups.Length
      requires |draws| == MaxShuffleCount && AllValidDraws(draws, cups.Length)
      modifies this`correctCupIndex, this`shuffleCount, cups
      ensures shuffleCount == MaxShuffleCount
      ensures cups[..] == Shuffled(old(cups[..]), SwapsOf(draws, cups.Length))
      ensures correctCupIndex == Track(old(correctCupIndex), SwapsOf(draws, cups.Length))
    {
      ghost var cups0 := cups[..];
      ghost var coin0 := correctCupIndex;
      ghost var swaps := SwapsOf(draws, cups.Length);
      while shuffleCount < MaxShuffleCount
        modifies this`correctCupIndex, this`shuffleCount, cups
        invariant 0 <= shuffleCount <= MaxShuffleCount
        invariant cups[..] == Shuffled(cups0, swaps[..shuffleCount])
        invariant correctCupIndex == Track(coin0, swaps[..shuffleCount])
      {
        assert swaps[shuffleCount] == SwapOf(draws[shuffleCount]);
        PerformShuffle(draws[shuffleCount]);
        assert swaps[..shuffleCount + 1][..shuffleCount] == swaps[..shuffleCount];
        shuffleCount := shuffleCount + 1;
      }
      assert swaps[..shuffleCount] == swaps;
    }

    /** Shuffles the closed cups and opens guessing. The cups are reordered
        and nothing else about them changes; the tracked position is the
        one and only position of the coin's cup. */
    method StartShuffling(draws: seq<Draw>)
      requires Frame() && AllClosed() && gameState == Shuffling
      requires 0 <= correctCupIndex < cups.Length && cups[correctCupIndex] == coinCup
      requires |draws| == MaxShuffleCount && AllValidDraws(draws, cups.Length)
      modifies this`correctCupIndex, this`shuffleCount, this`isShuffling, this`gameState, cups
      ensures Frame() && AllClosed() && gameState == Guessing && !isShuffling && shuffleCount == MaxShuffleCount
      ensures cups[..] == Shuffled(old(cups[..]), SwapsOf(draws, cups.Length))
      ensures correctCupIndex == Track(old(correctCupIndex), SwapsOf(draws, cups.Length))
      ensures 0 <= correctCupIndex < cups.Length
      ensures forall k :: 0 <= k < cups.Length ==> (cups[k] == coinCup <==> k == correctCupIndex)
    {
      ghost var cups0 := cups[..];
      ghost var coin0 := correctCupIndex;
      isShuffling := true;
      shuffleCount := 0;
      PerformShuffles(draws);
      FinishShuffling();
      ghost var swaps := SwapsOf(draws, cups.Length);
      ShuffleFollowsCoin(cups0, coin0, swaps);
      TrackedCupIsUnique(cups0, coin0, swaps);
      ShuffleIsPermutation(cups0, swaps);
      ShuffleKeepsDistinct(cups0, swaps);
      ShuffledCupsKeepFrame(cups0);
    }

    method FinishShuffling()
      modifies this`isShuffling, this`gameState
      ensures !isShuffling && gameState == Guessing
    {
      isShuffling := false;
      gameState := Guessing;
    }

    /** Cups that were in the footprint, well formed, distinct and closed
        are still all that after they have been reordered. */
    lemma ShuffledCupsKeepFrame(cups0: seq<Cup>)
      requires this in Repr && hud in Repr && cups in Repr
      requires forall c :: c in cups0 ==> c in Repr && c.Valid() && c.cupState == Closed && c.coinSprite == null
      requires multiset(cups[..]) == multiset(cups0) && Distinct(cups[..])
      ensures Frame() && AllClosed()
    {
      SameElements(cups0, cups[..]);
    }

    /** The coin-display delay elapses: the coin is hidden and the cups are
        shuffled. Afterwards the tracked position is still the only place of
        the coin's cup; by `ShuffleIsPermutation` the cups are a permutation
        of those before. */
    method HideCoinAndStartShuffling(draws: seq<Draw>)
      requires Valid() && scheduled == CoinDisplay
      requires |draws| == MaxShuffleCount && AllValidDraws(draws, numberOfCups)
      modifies this`gameState, this`scheduled, this`correctCupIndex, this`shuffleCount, this`isShuffling
      modifies hud`bettingHidden, cups
      ensures Valid()
      ensures View() == old(View()).(
        state := Guessing,
        coin := Track(old(correctCupIndex), SwapsOf(draws, numberOfCups)),
        cups := Shuffled(old(cups[..]), SwapsOf(draws, numberOfCups)),
        shuffleCount := MaxShuffleCount,
        scheduled := NoTimer)
      ensures forall k :: 0 <= k < cups.Length ==> (cups[k] == coinCup <==> k == correctCupIndex)
    {
      ghost var v0 := View();
      assert Consistent(v0) && v0.state == ShowingCoin && v0.cups == cups[..];
      gameState := Shuffling;
      scheduled := NoTimer;
      hud.HideBettingControls();
      StartShuffling(draws);
      assert View() == v0.(state := Guessing, coin := correctCupIndex, cups := cups[..],
                           shuffleCount := MaxShuffleCount, scheduled := NoTimer);
      ShuffleKeepsConsistent(v0, correctCupIndex, cups[..]);
    }

    /** A tap on the scene that hits the cup at `index` (any other value:
        a tap that hits no cup). Only a guessing phase with no shuffle
        running takes it as a guess. */
    method TouchesBegan(index: int)
      requires Valid()
      modifies this`gameState, this`scheduled, CupObjects()
      ensures Valid()
      ensures old(gameState) == Guessing && old(!isShuffling) && 0 <= index < cups.Length ==>
        View() == old(View()).(state := Revealing, scheduled := RevealDelay(index == correctCupIndex))
        && AllRevealed()
      ensures !(old(gameState) == Guessing && old(!isShuffling) && 0 <= index < cups.Length) ==>
        View() == old(View())
    {
      if gameState == Guessing && !isShuffling {
        if 0 <= index < cups.Length {
          MakeGuess(index);
        }
      }
    }

    /** The guess `cupIndex`: every cup is opened, the coin's cup with the
        coin, and the outcome is scheduled. */
    method MakeGuess(cupIndex: int)
      requires Valid() && gameState == Guessing
      modifies this`gameState, this`scheduled, CupObjects()
      ensures Valid()
      ensures View() == old(View()).(state := Revealing, scheduled := RevealDelay(cupIndex == correctCupIndex))
      ensures AllRevealed()
    {
      ghost var v0 := View();
      assert Consistent(v0) && v0.state == Guessing;
      gameState := Revealing;
      var isCorrect := cupIndex == correctCupIndex;
      RevealCups();
      scheduled := RevealDelay(isCorrect);
      assert View() == v0.(state := Revealing, scheduled := RevealDelay(isCorrect));
      GuessKeepsConsistent(v0, isCorrect);
    }

    /** Opens every cup, the one at `correctCupIndex` with the coin. */
    method RevealCups()
      requires Frame() && AllClosed() && 0 <= correctCupIndex < cups.Length
      modifies CupObjects()
      ensures Frame() && AllRevealed()
    {
      var k := 0;
      while k < cups.Length
        modifies CupObjects()
        invariant 0 <= k <= cups.Length
        invariant forall j :: 0 <= j < k ==>
          && cups[j].cupState == (if j == correctCupIndex then OpenWithCoin else Open)
          && (cups[j].coinSprite != null <==> j == correctCupIndex)
        invariant forall j :: k <= j < cups.Length ==> cups[j].cupState == Closed && cups[j].coinSprite == null
        invariant forall j :: 0 <= j < cups.Length ==> cups[j].Valid()
      {
        cups[k].Reveal(k == correctCupIndex);
        k := k + 1;
      }
    }

    /** The payout and difficulty rule on the scene's fields: a win adds the
        bet and a level, and a cup when the new level is a multiple of three
        and fewer than six cups are in play; a loss takes the bet. */
    method PayOut(isCorrect: bool)
      modifies this`playerBalance, this`currentLevel, this`numberOfCups
      ensures Ledger() == Settle(old(Ledger()), isCorrect)
    {
      if isCorrect {
        playerBalance := playerBalance + currentBet;
        currentLevel := currentLevel + 1;
        if currentLevel % LevelsPerCup == 0 && numberOfCups < MaxCups {
          numberOfCups := numberOfCups + 1;
        }
      } else {
        playerBalance := playerBalance - currentBet;
      }
    }

    /** The reveal delay elapses: the payout and difficulty rule is applied,
        then either the game is over (balance at or below zero) or the next
        round is scheduled. */
    method HandleGuessResult(isCorrect: bool)
      requires Valid() && scheduled == RevealDelay(isCorrect)
      modifies this`playerBalance, this`currentLevel, this`numberOfCups, this`gameState, this`scheduled
      modifies hud`newGameHidden
      ensures Valid()
      ensures Ledger() == Settle(old(Ledger()), isCorrect)
      ensures playerBalance <= 0 ==>
        View() == old(View()).(ledger := Ledger(), state := GameOver, newGameHidden := false, scheduled := NoTimer)
      ensures playerBalance > 0 ==>
        View() == old(View()).(ledger := Ledger(), scheduled := NextRound)
    {
      ghost var v0 := View();
      assert Consistent(v0) && v0.scheduled == RevealDelay(isCorrect);
      PayOut(isCorrect);
      SettleKeepsConsistent(v0, isCorrect);
      if playerBalance <= 0 {
        gameState := GameOver;
        scheduled := NoTimer;
        hud.ShowGameOver();
        assert View() == v0.(ledger := Ledger(), state := GameOver, newGameHidden := false, scheduled := NoTimer);
      } else {
        scheduled := NextRound;
        assert View() == v0.(ledger := Ledger(), scheduled := NextRound);
      }
    }

    /** The delay after a round elapses: a new round begins at the betting
        phase, with the same cups closed again or, after the count grew,
        fresh ones. */
    method NextRoundElapsed()
      requires Valid() && scheduled == NextRound
      modifies this`scheduled, this`gameState, this`cups, this`Repr, hud`bettingHidden, CupObjects()
      ensures Valid() && fresh(Repr - old(Repr))
      ensures View() == old(View()).(state := Betting, cups := cups[..],
                                     bettingHidden := false, scheduled := NoTimer)
      ensures old(cups.Length) == numberOfCups ==> cups == old(cups) && cups[..] == old(cups[..])
      ensures old(cups.Length) != numberOfCups ==>
        fresh(cups) && forall k :: 0 <= k < cups.Length ==> fresh(cups[k]) && cups[k].cupIndex == k
    {
      ghost var v0 := View();
      assert Consistent(v0) && v0.scheduled == NextRound;
      scheduled := NoTimer;
      StartNewRound();
      assert View() == v0.(state := Betting, ledger := v0.ledger, hudBet := v0.ledger.bet, cups := cups[..],
                           bettingHidden := false, scheduled := NoTimer);
      NewRoundConsistent(v0, v0.ledger, cups[..]);
    }

    /** A new game: balance 3, level 1, three cups, bet 1, betting phase.
        The new state does not depend on the old one, so asking twice is
        the same as asking once. */
    method DidRequestNewGame()
      requires Core() && scheduled == NoTimer
      modifies this`playerBalance, this`currentLevel, this`numberOfCups, this`currentBet
      modifies this`gameState, this`cups, this`Repr, hud`currentBet, hud`bettingHidden, CupObjects()
      ensures Core() && fresh(Repr - old(Repr))
      ensures Ledger() == InitialEconomy && gameState == Betting
      ensures View() == old(View()).(state := Betting, ledger := InitialEconomy, hudBet := InitialBet,
                                     cups := cups[..],
                                     bettingHidden := false)
      ensures old(cups.Length) == InitialCups ==> cups == old(cups) && cups[..] == old(cups[..])
      ensures old(cups.Length) != InitialCups ==>
        fresh(cups) && forall k :: 0 <= k < cups.Length ==> fresh(cups[k]) && cups[k].cupIndex == k
    {
      ghost var v0 := View();
      assert 0 <= v0.shuffleCount <= MaxShuffleCount && v0.scheduled == NoTimer;
      playerBalance := InitialBalance;
      currentLevel := InitialLevel;
      numberOfCups := InitialCups;
      currentBet := InitialBet;
      hud.UpdateBet(currentBet);
      StartNewRound();
      assert View() == v0.(state := Betting, ledger := InitialEconomy, hudBet := InitialBet, cups := cups[..],
                           bettingHidden := false, scheduled := NoTimer);
      NewGameProgressed();
      NewRoundConsistent(v0, InitialEconomy, cups[..]);
    }

    /** A tap on the display, with `coin` the position `Int.random` gives
        should the tap confirm the bet. The display forwards it as a
        request and the scene handles the request. The bet changes only in
        the betting phase and stays at least 1 once it is. */
    method HudTouched(target: Target, coin: int)
      requires Valid() && 0 <= coin < numberOfCups
      modifies Repr
      ensures Valid() && fresh(Repr - old(Repr))
      ensures old(gameState) != Betting ==> currentBet == old(currentBet) || Ledger() == InitialEconomy
      ensures old(currentBet) >= 1 ==> currentBet >= 1
      ensures target == Elsewhere ==> View() == old(View())
      ensures target in {BetMinus, BetPlus, ConfirmButton} && old(gameState) != Betting ==> View() == old(View())
      ensures target == NewGameButton && old(gameState) != GameOver ==> View() == old(View())
      ensures target == BetMinus && old(gameState) == Betting ==>
        && currentBet == (if old(currentBet) > 1 then ClampBet(old(currentBet) - 1, playerBalance) else old(currentBet))
        && View() == old(View()).(ledger := old(Ledger()).(bet := currentBet), hudBet := currentBet)
      ensures target == BetPlus && old(gameState) == Betting ==>
        && currentBet == ClampBet(old(currentBet) + 1, playerBalance)
        && View() == old(View()).(ledger := old(Ledger()).(bet := currentBet), hudBet := currentBet)
      ensures target == ConfirmButton && old(gameState) == Betting ==>
        View() == old(View()).(state := ShowingCoin, coin := coin, coinCup := old(cups[coin]),
                               bettingHidden := true, scheduled := CoinDisplay)
      ensures target == NewGameButton && old(gameState) == GameOver ==>
        && Ledger() == InitialEconomy && gameState == Betting && scheduled == NoTimer
        && cups.Length == InitialCups && AllClosed() && !hud.bettingHidden && hud.newGameHidden
    {
      var request := hud.TouchesBegan(target);
      match request
      case Some(ChangeBet(amount)) =>
        DidChangeBet(amount);
      case Some(ConfirmBet) =>
        DidConfirmBet(coin);
      case Some(NewGame) =>
        DidRequestNewGame();
      case None =>
    }
  }
}
