/** Optional values, and the two ways a posting can end. */
module Results {

  datatype Option<+T> = None | Some(value: T)

  /** Why a posting or a request was refused. */
  datatype Error =
    | Unbalanced
    | EntryWithoutAccount
    | AccountMissing
    | AccountInUse
    | StoreRequired
    | NotPositive
    | RowNotFound
    | ExceedsBalance
    | NoTaxOwed
    | ExceedsOwed
    | BadMethod

  /** A refusal carries no new state: the transaction is rolled back. */
  datatype Result<+T> = Ok(value: T) | Err(error: Error)
}
