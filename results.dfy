/** Failure-compatible wrappers shared by the engine's modules: a JS value that
    may be `undefined` is an Option, and an operation that may throw returns a
    Result whose Err names the exception. */
module Results {

  datatype Option<+T> = None | Some(value: T)

  /** The exceptions the engine throws, plus the model's stand-in for a loop
      that the source would run forever. */
  datatype Error =
    | EmptyShoe          // Shoe.draw: "A shoe üres!"
    | InsufficientFunds  // Player.#deductBankroll: "Player has not enough chips!"
    | OutOfFuel          // Game.playerTurn did not finish within the fuel given
    | NotAFunction       // a call through a method the object does not have (a TypeError)

  datatype Result<+T> = Ok(value: T) | Err(error: Error) {
    predicate IsFailure() {
      Err?
    }

    function PropagateFailure<U>(): Result<U>
      requires Err?
    {
      Err(error)
    }

    function Extract(): T
      requires Ok?
    {
      value
    }
  }
}
