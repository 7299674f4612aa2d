/** The records of the wallet ledger: wallets, operations, and the typed
    outcomes of the ledger's calls. */
module Records {

  /** A 128-bit identifier; the model only ever compares two of them. */
  newtype Uuid = x: int | 0 <= x < 0x1_0000_0000_0000_0000_0000_0000_0000_0000

  /** A server-assigned creation time, arbitrary as far as the model goes. */
  type Timestamp = nat

  datatype OperationType = Deposit | Withdraw

  /** A row of the `wallets` table; `balance` is in minor units. */
  datatype Wallet = Wallet(id: Uuid, email: string, balance: int)

  /** A row of the `operations` table; `amount` is in minor units. */
  datatype Operation = Operation(
    id: Uuid,
    walletId: Uuid,
    kind: OperationType,
    amount: int,
    createdAt: Timestamp)

  /** NotFound and InsufficientFunds are the 404 and 422 of the balance update,
      Conflict the rejected insert of a wallet, StorageFailure any other
      error the store raises, after which the transaction is rolled back. */
  datatype Error = NotFound | InsufficientFunds | Conflict | StorageFailure

  datatype Result<+T> = Ok(value: T) | Err(error: Error)

  datatype Option<+T> = None | Some(value: T)
}
