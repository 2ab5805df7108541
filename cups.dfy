/** A cup on the table: its stable index, whether it is closed or open, and
    the coin sprite it shows once it has been revealed with the coin. */
module Cups {

  datatype CupState = Closed | Open | OpenWithCoin

  /** The coin sprite a revealed cup shows; only its identity matters here. */
  class Coin {
    constructor ()
    {
    }
  }

  class Cup {
    /** The position the cup was created at; swaps never change it. */
    var cupIndex: int
    var cupState: CupState
    var coinSprite: Coin?

    /** A closed cup shows no coin; a cup open with the coin shows one. */
    ghost predicate Valid()
      reads this
    {
      && (cupState == Closed ==> coinSprite == null)
      && (cupState == OpenWithCoin ==> coinSprite != null)
    }

    constructor (index: int)
      ensures Valid()
      ensures cupIndex == index && cupState == Closed && coinSprite == null
    {
      cupIndex := index;
      cupState := Closed;
      coinSprite := null;
    }

    /** Opens the cup, showing the coin under it when `withCoin`. */
    method Reveal(withCoin: bool)
      modifies this
      ensures Valid()
      ensures cupState == (if withCoin then OpenWithCoin else Open)
      ensures withCoin && old(coinSprite) == null ==> fresh(coinSprite) && coinSprite != null
      ensures !(withCoin && old(coinSprite) == null) ==> coinSprite == old(coinSprite)
      ensures cupIndex == old(cupIndex)
    {
      cupState := if withCoin then OpenWithCoin else Open;
      if withCoin {
        ShowCoin();
      }
    }

    /** Creates the coin sprite unless the cup already has one, so repeated
        reveals never make a second coin. */
    method ShowCoin()
      modifies this`coinSprite
      ensures coinSprite != null
      ensures old(coinSprite) == null ==> fresh(coinSprite)
      ensures old(coinSprite) != null ==> coinSprite == old(coinSprite)
    {
      if coinSprite == null {
        coinSprite := new Coin();
      }
    }

    /** Closes the cup and removes its coin sprite. */
    method Reset()
      modifies this
      ensures Valid()
      ensures cupState == Closed && coinSprite == null && cupIndex == old(cupIndex)
    {
      cupState := Closed;
      coinSprite := null;
    }

    /** Whether the hover animation plays: only on a closed cup. */
    method PlayHoverEffect() returns (animated: bool)
      ensures animated <==> cupState == Closed
    {
      if cupState != Closed {
        return false;
      }
      animated := true;
    }
  }
}
