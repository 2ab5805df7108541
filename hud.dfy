/** The heads-up display: the bet stepper, the confirm button and the
    new-game button. The display forwards the player's taps to its delegate,
    the scene; here each forwarded call is returned as a `Request` that the
    scene then handles. */
module Hud {
  import opened Wrappers

  /** A call the display makes on its delegate. */
  datatype Request = ChangeBet(amount: int) | ConfirmBet | NewGame

  /** The control a tap lands on, as resolved by the hit test. */
  datatype Target = BetMinus | BetPlus | ConfirmButton | NewGameButton | Elsewhere

  class HUD {
    /** The display's own copy of the bet, set by `UpdateBet`. */
    var currentBet: int
    /** `bettingContainer.isHidden`: the stepper and confirm button. */
    var bettingHidden: bool
    /** `newGameButton.isHidden`. */
    var newGameHidden: bool

    /** A fresh display: bet 1, betting controls shown, new-game button hidden. */
    constructor ()
      ensures currentBet == 1 && !bettingHidden && newGameHidden
    {
      currentBet := 1;
      bettingHidden := false;
      newGameHidden := true;
    }

    method UpdateBet(bet: int)
      modifies this`currentBet
      ensures currentBet == bet
    {
      currentBet := bet;
    }

    method ShowBettingControls()
      modifies this`bettingHidden
      ensures !bettingHidden
    {
      bettingHidden := false;
    }

    method HideBettingControls()
      modifies this`bettingHidden
      ensures bettingHidden
    {
      bettingHidden := true;
    }

    method ShowGameOver()
      modifies this`newGameHidden
      ensures !newGameHidden
    {
      newGameHidden := false;
    }

    /** The minus button asks for one less only while the bet is above 1. */
    method DecreaseBet() returns (request: Option<Request>)
      ensures currentBet > 1 ==> request == Some(ChangeBet(currentBet - 1))
      ensures currentBet <= 1 ==> request == None
    {
      request := None;
      if currentBet > 1 {
        request := Some(ChangeBet(currentBet - 1));
      }
    }

    /** The plus button always asks for one more. */
    method IncreaseBet() returns (request: Request)
      ensures request == ChangeBet(currentBet + 1)
    {
      request := ChangeBet(currentBet + 1);
    }

    /** A tap on the display. The stepper and confirm button answer only
        while the betting controls are shown; the new-game button only while
        it is shown, and it hides itself before asking for a new game, so one
        shown button gives at most one request. */
    method TouchesBegan(target: Target) returns (request: Option<Request>)
      modifies this`newGameHidden
      ensures newGameHidden == (old(newGameHidden) || target == NewGameButton)
      ensures target == BetMinus ==>
        request == (if !bettingHidden && currentBet > 1 then Some(ChangeBet(currentBet - 1)) else None)
      ensures target == BetPlus ==>
        request == (if !bettingHidden then Some(ChangeBet(currentBet + 1)) else None)
      ensures target == ConfirmButton ==>
        request == (if !bettingHidden then Some(ConfirmBet) else None)
      ensures target == NewGameButton ==>
        request == (if old(newGameHidden) then None else Some(NewGame))
      ensures target == Elsewhere ==> request == None
    {
      request := None;
      if !bettingHidden {
        match target
        case BetMinus =>
          request := DecreaseBet();
        case BetPlus =>
          var r := IncreaseBet();
          request := Some(r);
        case ConfirmButton =>
          request := Some(ConfirmBet);
        case _ =>
      }
      if !newGameHidden && target == NewGameButton {
        newGameHidden := true;
        request := Some(NewGame);
      }
    }
  }
}
