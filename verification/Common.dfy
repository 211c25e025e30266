/** Result types and identifiers shared by the modules of the model. */
module Common {

  datatype Option<+T> = None | Some(value: T)

  datatype Result<+T, +E> = Ok(value: T) | Err(error: E)

  type UserId = nat

  /** The two Sui networks the backend runs on. */
  datatype Network = Testnet | Mainnet
}
