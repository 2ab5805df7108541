/** The betting and progression rules of the shell game: the starting
    values, how a bet request is clamped, how a round's outcome changes the
    balance, the level and the number of cups, and what that adds up to over
    many rounds. */
module Rules {

  const InitialBalance: int := 3
  const InitialBet: int := 1
  const InitialLevel: int := 1
  const InitialCups: int := 3
  const MaxCups: int := 6
  /** A win that brings the level to a multiple of this adds a cup. */
  const LevelsPerCup: int := 3

  /** The money and progression state the scene keeps in its fields
      `playerBalance`, `currentBet`, `currentLevel` and `numberOfCups`. */
  datatype Economy = Economy(balance: int, bet: int, level: int, cupCount: int)

  const InitialEconomy: Economy := Economy(InitialBalance, InitialBet, InitialLevel, InitialCups)

  /** The bet the scene keeps for a requested amount: `min(amount, balance)`.
      There is no lower clamp. */
  function ClampBet(amount: int, balance: int): (r: int)
    ensures r <= amount && r <= balance
    ensures r == amount || r == balance
  {
    if balance < amount then balance else amount
  }

  /** A request of at least 1 against a positive balance gives a bet of at
      least 1; nothing else keeps the bet positive. */
  lemma ClampBetPositive(amount: int, balance: int)
    requires amount >= 1 && balance >= 1
    ensures 1 <= ClampBet(amount, balance) <= balance
  {
  }

  /** The cup count after a win that brings the level to `level`. */
  function NextCupCount(level: int, cups: int): (r: int)
    ensures r == cups + 1 <==> level % LevelsPerCup == 0 && cups < MaxCups
    ensures r == cups || r == cups + 1
    ensures cups <= MaxCups ==> r <= MaxCups
  {
    if level % LevelsPerCup == 0 && cups < MaxCups then cups + 1 else cups
  }

  /** Payout and difficulty rule of one round with the bet `e.bet`. */
  function Settle(e: Economy, isCorrect: bool): (r: Economy)
    ensures r.bet == e.bet
    ensures r.balance - e.balance == (if isCorrect then e.bet else -e.bet)
    ensures r.level - e.level == (if isCorrect then 1 else 0)
    ensures InitialCups <= e.cupCount <= MaxCups ==> e.cupCount <= r.cupCount <= MaxCups
  {
    if isCorrect then
      var level := e.level + 1;
      Economy(e.balance + e.bet, e.bet, level, NextCupCount(level, e.cupCount))
    else
      Economy(e.balance - e.bet, e.bet, e.level, e.cupCount)
  }

  /** On a win the cup count grows by one exactly when the new level is a
      multiple of three and fewer than six cups are in play. A loss changes
      neither the level nor the cup count. */
  lemma SettleDifficulty(e: Economy, isCorrect: bool)
    ensures var r := Settle(e, isCorrect);
      r.cupCount == e.cupCount + 1 <==> isCorrect && r.level % LevelsPerCup == 0 && e.cupCount < MaxCups
    ensures !isCorrect ==> Settle(e, isCorrect).cupCount == e.cupCount
  {
  }

  /** The number of cups for a level reached from a new game: one more for
      every multiple of three up to the level, at most six. */
  function CupsForLevel(level: int): (r: int)
    requires level >= InitialLevel
    ensures InitialCups <= r <= MaxCups
  {
    var c := InitialCups + level / LevelsPerCup;
    if c < MaxCups then c else MaxCups
  }

  /** The progression invariant: the cup count is a function of the level. */
  predicate Progressed(e: Economy)
  {
    e.level >= InitialLevel && e.cupCount == CupsForLevel(e.level)
  }

  lemma NewGameProgressed()
    ensures Progressed(InitialEconomy)
  {
  }

  /** Settling a round keeps the cup count the function of the level. */
  lemma SettleKeepsProgressed(e: Economy, isCorrect: bool)
    requires Progressed(e)
    ensures Progressed(Settle(e, isCorrect))
  {
    if isCorrect {
      var level := e.level + 1;
      assert level / LevelsPerCup == e.level / LevelsPerCup + (if level % LevelsPerCup == 0 then 1 else 0);
    }
  }

  /** The cup count for each level: three cups before level 3, four from
      level 3, five from level 6, six from level 9 on. */
  lemma CupsByLevel(level: int)
    requires level >= InitialLevel
    ensures CupsForLevel(level) ==
      if level < 3 then 3 else if level < 6 then 4 else if level < 9 then 5 else 6
  {
  }

  /** Worked rounds: a win of 1 from 3 at level 1 gives 4 at level 2 with
      three cups; a loss of 1 from 1 leaves nothing; the win that reaches
      level 3 adds the fourth cup and the next two wins add none; a request
      for 10 against 3 gives a bet of 3. */
  lemma WorkedRounds()
    ensures Settle(Economy(3, 1, 1, 3), true) == Economy(4, 1, 2, 3)
    ensures Settle(Economy(1, 1, 1, 3), false).balance == 0
    ensures Settle(Economy(4, 1, 2, 3), true).cupCount == 4
    ensures Settle(Economy(5, 1, 3, 4), true).cupCount == 4
    ensures Settle(Economy(6, 1, 4, 4), true).cupCount == 4
    ensures ClampBet(10, 3) == 3
  {
  }

  /** One round: the bet the player confirmed and whether the guess was right. */
  datatype Round = Round(bet: int, won: bool)

  /** The economy after settling the rounds in order. */
  function PlayRounds(e: Economy, rounds: seq<Round>): (r: Economy)
    decreases |rounds|
  {
    if rounds == [] then e
    else
      var last := rounds[|rounds| - 1];
      Settle(PlayRounds(e, rounds[..|rounds| - 1]).(bet := last.bet), last.won)
  }

  function Wins(rounds: seq<Round>): (r: nat)
    decreases |rounds|
  {
    if rounds == [] then 0
    else Wins(rounds[..|rounds| - 1]) + (if rounds[|rounds| - 1].won then 1 else 0)
  }

  /** What the rounds add to the balance: each bet won, minus each bet lost. */
  function Net(rounds: seq<Round>): (r: int)
    decreases |rounds|
  {
    if rounds == [] then 0
    else
      var last := rounds[|rounds| - 1];
      Net(rounds[..|rounds| - 1]) + (if last.won then last.bet else -last.bet)
  }

  /** Over any rounds: the level counts the wins, the balance moves by the
      net of the bets, the cup count never falls and stays the function of
      the level. */
  lemma {:induction false} PlayRoundsProgress(e: Economy, rounds: seq<Round>)
    requires Progressed(e)
    ensures var r := PlayRounds(e, rounds);
      && r.level == e.level + Wins(rounds)
      && r.balance == e.balance + Net(rounds)
      && e.cupCount <= r.cupCount
      && Progressed(r)
    decreases |rounds|
  {
    if rounds != [] {
      var init := rounds[..|rounds| - 1];
      var last := rounds[|rounds| - 1];
      PlayRoundsProgress(e, init);
      var before := PlayRounds(e, init).(bet := last.bet);
      SettleKeepsProgressed(before, last.won);
    }
  }
}
