/** Values shared by the contract model, the web3 service and the user interface. */
module Common {

  /** The outcome of a call that may throw: `Err` carries the thrown error's `message`. */
  datatype Result<T> = Ok(value: T) | Err(message: string)

  datatype Option<T> = None | Some(value: T)

  /** An Ethereum account address as the wallet reports it (never the empty string). */
  type Address = s: string | s != [] witness "0"

  /** One entry of the contract's `getAllCandidates` reply: a 1-based id, the name, the votes received. */
  datatype Candidate = Candidate(id: nat, name: string, voteCount: nat)
}
