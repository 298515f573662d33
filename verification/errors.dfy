/** The errors a contract call can report (src/error.rs). */
module Errors {

  /**
   * The variant wrapping a storage-library error is not modelled: storage
   * reads and writes of the model are total map operations.
   */
  datatype ContractError =
    | Unauthorized
    | TooManyOptions
    | PollNotFound
    | VoteOptionNotFound
}
