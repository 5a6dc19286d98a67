/** Outcomes of a contract call: optional values, the errors the contract
    returns, and the panics that abort a transaction. A call that ends in
    either kind of failure commits nothing. */
module Outcome {

  datatype Option<T> = None | Some(value: T)

  /** Why a Rust panic aborted the call. */
  datatype Panic =
    | MissingValue     // `unwrap()` on `None`
    | NotANumber       // `parse::<uN>().unwrap()` on text that is not such a number
    | Overflow         // unsigned addition past the width of the type
    | Underflow        // unsigned subtraction below zero
    | IndexOutOfRange  // `Vec::remove` at an index past the end

  /** The error conditions of the contract, one per message it returns. */
  datatype Error =
    | NotPaymentContract        // "Address is not correct snip contract"
    | WrongAmount               // "You've sent the wrong amount"
    | AlreadyBuilding           // "Address is already building"
    | PaymentNotReceived        // "Payment not received"
    | MainTokenNotInList        // "Main Token is not in the list"
    | TransferToTokenNotInList  // "Transfer To Token is not in the list"
    | NotNftContract            // "Not a valid contract address"
    | RankMissing               // "Rank pool doesn't have token"
    | CombineTwoAlphas          // "You can't combine two Alphas"
    | LevelTooLow               // "Wolf's level is not high enough"
    | MainNotAlpha              // "The main token id is not an Alpha"
    | NonAlpha                  // "You can't do this action with a non-alpha"
    | PackNotFound              // "This tokenid doesn't exist"
    | NotPackMember             // "Token is not a pack member"
    | MetadataMissing           // "unable to get metadata from nft contract"
    | ExtensionMissing          // "unable to set metadata with uri"
    | QueryFailed               // the registry does not know the token
    | Unauthorized              // "You don't have the permissions to execute this command"
    | DataMissing               // "data should be given"
    | Panicked(cause: Panic)

  datatype Result<T> = Ok(value: T) | Err(error: Error) {
    predicate IsFailure() { Err? }

    function PropagateFailure<U>(): Result<U>
      requires Err?
    {
      Err(error)
    }

    function Extract(): T
      requires Ok?
    {
      value
    }
  }

  /** `option.unwrap()`: the value, or a panic. */
  function Unwrap<T>(o: Option<T>): Result<T>
  {
    match o
    case Some(v) => Ok(v)
    case None => Err(Panicked(MissingValue))
  }
}
