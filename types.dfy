/**
 * The records the SDK exchanges with the platform API (dist/types/index.d.ts),
 * and the shapes in which an operation returns a value or throws.
 */
module Types {
  import opened JsValues

  datatype Option<+T> = None | Some(value: T)

  /** `NetworkPassphrase`: the two ledger networks a payment can live on. */
  datatype NetworkPassphrase = PiNetwork | PiTestnet
  {
    function Passphrase(): string
    {
      match this
      case PiNetwork => "Pi Network"
      case PiTestnet => "Pi Testnet"
    }
  }

  datatype Direction = UserToApp | AppToUser

  datatype PaymentStatus = PaymentStatus(
    developerApproved: bool,
    transactionVerified: bool,
    developerCompleted: bool,
    cancelled: bool,
    userCancelled: bool)

  /** The ledger transaction linked to a payment, once there is one. */
  datatype LinkedTransaction = LinkedTransaction(txid: string, verified: bool, link: string)

  /** `PaymentDTO`: a payment as the platform API reports it. */
  datatype PaymentDTO = PaymentDTO(
    identifier: string,
    userUid: string,
    amount: real,
    memo: string,
    metadata: Value,
    fromAddress: string,
    toAddress: string,
    direction: Direction,
    status: PaymentStatus,
    transaction: Option<LinkedTransaction>,
    createdAt: string,
    network: NetworkPassphrase)

  /** `TransactionData`: what the transaction builder needs of a payment. */
  datatype TransactionData = TransactionData(
    amount: real,
    paymentIdentifier: string,
    fromAddress: string,
    toAddress: string)

  /** What an external collaborator (HTTP client, ledger SDK) threw; kept opaque. */
  datatype Failure = Failure(detail: string)

  /**
   * What an operation of the SDK throws: an `Error` the SDK builds itself
   * (message, plus the `paymentId` and `txid` it attaches to the linked-txid
   * error), or a collaborator's failure passed on unchanged.
   */
  datatype Thrown =
    | Error(message: string, paymentId: Option<string>, txid: Option<string>)
    | Rejected(failure: Failure)

  /** The settled outcome of an awaited call: a value, or what it threw. */
  datatype Result<+T> = Ok(value: T) | Err(error: Thrown)

  /** A plain `new Error(message)` with no extra properties. */
  function PlainError(message: string): Thrown
  {
    Error(message, None, None)
  }
}
