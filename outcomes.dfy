/** Outcome types shared by every module of the model.
    An uncaught Python exception and each error dictionary or deliberate
    `raise` of the service become an `Err` carrying one `Error`. */
module Outcomes {

  datatype Option<+T> = None | Some(value: T)

  /** The ways an operation of the service ends without a result. */
  datatype Error =
      /** An exception nobody catches: KeyError, IndexError, or ValueError from int(). */
    | Raised
      /** get_transaction_body: a package unit is missing from, or exceeds, the sender balance. */
    | CannotAfford
      /** get_transaction_body: the sender's lovelace is below what the recipients need. */
    | NotEnoughLovelace
      /** get_transaction_body: the last UTXO was taken without closing the plan. */
    | NotEnoughForFees
      /** send_lovelace, send_all_remaining_lovelace: no UTXO was selected. */
    | EmptyAddress
      /** send_all_remaining_lovelace: a UTXO carries a token. */
    | TokenInWallet

  datatype Result<+T> = Ok(value: T) | Err(error: Error) {
    predicate IsFailure() { Err? }
    function PropagateFailure<U>(): Result<U> requires Err? { Err(error) }
    function Extract(): T requires Ok? { value }
  }
}
