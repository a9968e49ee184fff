/**
 * The SDK's error object (src/PiPaymentError.ts): the closed set of error
 * codes, the table of canonical messages for the SDK's own codes, and the
 * constructor, which picks the message and copies the payload.
 */
module PiPaymentErrors {
  import opened Types

  /** The 18 codes of failures the SDK detects locally. */
  datatype LocalCode =
    | AmountNotNumber
    | ApiKeyNotString
    | InvalidWalletPrivateSeed
    | MemoNotString
    | MetadataNotObject
    | MissingAmount
    | MissingApiKey
    | MissingMemo
    | MissingMetadata
    | MissingUid
    | MissingWalletPrivateSeed
    | PaymentAlreadyHasLinkedTxid
    | PaymentDataNotObject
    | PrivateSeedMismatch
    | UidNotString
    | WalletPrivateSeedNot56CharsLong
    | WalletPrivateSeedNotStartsWithS
    | WalletPrivateSeedNotString

  /** `TransactionResultCode`: the ledger's 11 transaction-level rejection codes. */
  datatype TransactionResultCode =
    | TxFailed
    | TxTooEarly
    | TxTooLate
    | TxMissingOperation
    | TxBadSeq
    | TxBadAuth
    | TxInsufficientBalance
    | TxNoSourceAccout
    | TxInsufficientFee
    | TxBadAuthExtra
    | TxInternalError

  /** `OperationResultCode`: the ledger's 5 operation-level rejection codes. */
  datatype OperationResultCode =
    | OpBadAuth
    | OpNoSourceAccount
    | OpNotSupported
    | OpTooManySubentries
    | OpExceededWorkLimit

  /**
   * The platform API's business-error codes: the union of the not-found,
   * validation, create, complete and cancel code sets of dist/types/errors.d.ts.
   */
  datatype ApiErrorCode =
    | PaymentNotFound
    | InvalidAmount
    | InvalidArguments
    | InvalidMetadata
    | UnknownError
    | AlteredAmount
    | InvalidAddress
    | MissingScope
    | MissingWallet
    | OngoingPaymentFound
    | FeatureNotAvailable
    | TooManyCancelledPayments
    | TooManyPayments
    | UserNotFound
    | AlreadyCompleted
    | CancelledPayment
    | MissingParam
    | MissingTxid
    | NotVerified
    | TxidMismatch
    | VerificationFailed
    | Forbidden
    | PaymentTxPresent

  /** `PiPaymentErrorCode`: an SDK code (local, transaction or operation) or an API code. */
  datatype ErrorCode =
    | Local(local: LocalCode)
    | TxResult(tx: TransactionResultCode)
    | OpResult(op: OperationResultCode)
    | Api(api: ApiErrorCode)
  {
    /** Membership in `PiPaymentSdkErrorCode`. */
    predicate IsSdkCode()
    {
      !Api?
    }

    /** The code as the string the JavaScript object carries. */
    function Name(): string
    {
      match this
      case Local(c) => LocalName(c)
      case TxResult(c) => TxName(c)
      case OpResult(c) => OpName(c)
      case Api(c) => ApiName(c)
    }
  }

  function LocalName(c: LocalCode): string
  {
    match c
    case AmountNotNumber => "amount_not_number"
    case ApiKeyNotString => "api_key_not_string"
    case InvalidWalletPrivateSeed => "invalid_wallet_private_seed"
    case MemoNotString => "memo_not_string"
    case MetadataNotObject => "metadata_not_object"
    case MissingAmount => "missing_amount"
    case MissingApiKey => "missing_api_key"
    case MissingMemo => "missing_memo"
    case MissingMetadata => "missing_metadata"
    case MissingUid => "missing_uid"
    case MissingWalletPrivateSeed => "missing_wallet_private_seed"
    case PaymentAlreadyHasLinkedTxid => "payment_already_has_linked_txid"
    case PaymentDataNotObject => "payment_data_not_object"
    case PrivateSeedMismatch => "private_seed_mismatch"
    case UidNotString => "uid_not_string"
    case WalletPrivateSeedNot56CharsLong => "wallet_private_seed_not_56_chars_long"
    case WalletPrivateSeedNotStartsWithS => "wallet_private_seed_not_starts_with_S"
    case WalletPrivateSeedNotString => "wallet_private_seed_not_string"
  }

  function TxName(c: TransactionResultCode): string
  {
    match c
    case TxFailed => "tx_failed"
    case TxTooEarly => "tx_too_early"
    case TxTooLate => "tx_too_late"
    case TxMissingOperation => "tx_missing_operation"
    case TxBadSeq => "tx_bad_seq"
    case TxBadAuth => "tx_bad_auth"
    case TxInsufficientBalance => "tx_insufficient_balance"
    case TxNoSourceAccout => "tx_no_source_accout"
    case TxInsufficientFee => "tx_insufficient_fee"
    case TxBadAuthExtra => "tx_bad_auth_extra"
    case TxInternalError => "tx_internal_error"
  }

  function OpName(c: OperationResultCode): string
  {
    match c
    case OpBadAuth => "op_bad_auth"
    case OpNoSourceAccount => "op_no_source_account"
    case OpNotSupported => "op_not_supported"
    case OpTooManySubentries => "op_too_many_subentries"
    case OpExceededWorkLimit => "op_exceeded_work_limit"
  }

  function ApiName(c: ApiErrorCode): string
  {
    match c
    case PaymentNotFound => "payment_not_found"
    case InvalidAmount => "invalid_amount"
    case InvalidArguments => "invalid_arguments"
    case InvalidMetadata => "invalid_metadata"
    case UnknownError => "unknown_error"
    case AlteredAmount => "altered_amount"
    case InvalidAddress => "invalid_address"
    case MissingScope => "missing_scope"
    case MissingWallet => "missing_wallet"
    case OngoingPaymentFound => "ongoing_payment_found"
    case FeatureNotAvailable => "feature_not_available"
    case TooManyCancelledPayments => "too_many_cancelled_payments"
    case TooManyPayments => "too_many_payments"
    case UserNotFound => "user_not_found"
    case AlreadyCompleted => "already_completed"
    case CancelledPayment => "cancelled_payment"
    case MissingParam => "missing_param"
    case MissingTxid => "missing_txid"
    case NotVerified => "not_verified"
    case TxidMismatch => "txid_mismatch"
    case VerificationFailed => "verification_failed"
    case Forbidden => "forbidden"
    case PaymentTxPresent => "payment_tx_present"
  }

  /** `errorMessages`: the canonical message of every SDK code. */
  const ErrorMessages: map<ErrorCode, string> := map[
    Local(AmountNotNumber) := "Amount must be a number.",
    Local(ApiKeyNotString) := "API key must be a string.",
    Local(InvalidWalletPrivateSeed) := "Invalid wallet private seed.",
    Local(MemoNotString) := "Memo must be a string.",
    Local(MetadataNotObject) := "Metadata must be an object.",
    Local(MissingAmount) := "Missing amount.",
    Local(MissingApiKey) := "Missing API key.",
    Local(MissingMemo) := "Missing memo.",
    Local(MissingMetadata) := "Missing metadata.",
    Local(MissingUid) := "Missing uid.",
    Local(MissingWalletPrivateSeed) := "Missing wallet private seed.",
    Local(PaymentAlreadyHasLinkedTxid) := "This payment already has a linked txid.",
    Local(PaymentDataNotObject) := "Payment data must be an object.",
    Local(PrivateSeedMismatch) := "You should use a private seed of your app wallet.",
    Local(UidNotString) := "Uid must be a string.",
    Local(WalletPrivateSeedNot56CharsLong) := "Wallet private seed must be 56-character long.",
    Local(WalletPrivateSeedNotStartsWithS) := "Wallet private seed must starts with 'S'.",
    Local(WalletPrivateSeedNotString) := "Wallet private seed must be a string.",
    TxResult(TxFailed) := "Transaction failed.",
    TxResult(TxTooEarly) := "Transaction submitted too early.",
    TxResult(TxTooLate) := "Transaction submitted too late.",
    TxResult(TxMissingOperation) := "Transaction is missing operation.",
    TxResult(TxBadSeq) := "Transaction was submitted with invalid sequence number.",
    TxResult(TxBadAuth) := "Transaction contains too few valid signatures.",
    TxResult(TxInsufficientBalance) := "Source account doesn't have enough balance for this transaction.",
    TxResult(TxNoSourceAccout) := "Transaction has no source account.",
    TxResult(TxInsufficientFee) := "Transaction was submitted with insufficient fee.",
    TxResult(TxBadAuthExtra) := "Transaction contains unused signatures attached.",
    TxResult(TxInternalError) := "Transaction internal error.",
    OpResult(OpBadAuth) := "Transaction contains too few valid signatures or was submitted to the wrong network.",
    OpResult(OpNoSourceAccount) := "Operation is missing source account.",
    OpResult(OpNotSupported) := "Operation is not supported.",
    OpResult(OpTooManySubentries) := "Account reached max number (1000) of subentries.",
    OpResult(OpExceededWorkLimit) := "Operation exceeded the work limit."
  ]

  /** The payload a caller may attach (`data.data`). */
  datatype ErrorPayload = ErrorPayload(
    payment: Option<PaymentDTO>,
    paymentId: Option<string>,
    txid: Option<string>,
    verificationError: Option<string>)

  /** `PiPaymentErrorAdditionalData`. */
  datatype AdditionalData = AdditionalData(data: Option<ErrorPayload>, messageOverride: Option<string>)

  /** A constructed `PiPaymentError`. */
  datatype PiPaymentError = PiPaymentError(
    code: string,
    message: string,
    payment: Option<PaymentDTO>,
    paymentId: Option<string>,
    txid: Option<string>,
    verificationError: Option<string>)

  /** `data?.messageOverride`. */
  function OverrideOf(data: Option<AdditionalData>): (messageOverride: Option<string>)
  {
    if data.Some? then data.value.messageOverride else None
  }

  /**
   * The argument of `super(...)`: the override when it is a non-empty string
   * (`||` skips an empty one), else the table entry, else "Unknown error".
   */
  function MessageFor(code: ErrorCode, messageOverride: Option<string>): (message: string)
    ensures message != ""
    ensures messageOverride.Some? && messageOverride.value != "" ==> message == messageOverride.value
    ensures (messageOverride.None? || messageOverride.value == "") && code.IsSdkCode() ==>
              code in ErrorMessages && message == ErrorMessages[code]
    ensures (messageOverride.None? || messageOverride.value == "") && code.Api? ==> message == "Unknown error"
  {
    TableIsTotal(code);
    if messageOverride.Some? && messageOverride.value != "" then messageOverride.value
    else if code in ErrorMessages then ErrorMessages[code]
    else "Unknown error"
  }

  /** The `PiPaymentError` constructor. */
  function NewPiPaymentError(code: ErrorCode, data: Option<AdditionalData>): (e: PiPaymentError)
    ensures e.code == code.Name()
    ensures e.message == MessageFor(code, OverrideOf(data))
    ensures OverrideOf(data).Some? && OverrideOf(data).value != "" ==> e.message == OverrideOf(data).value
    ensures (OverrideOf(data).None? || OverrideOf(data).value == "") && code.IsSdkCode() ==>
              e.message == ErrorMessages[code]
    ensures (OverrideOf(data).None? || OverrideOf(data).value == "") && code.Api? ==>
              e.message == "Unknown error"
    ensures data.Some? && data.value.data.Some? ==>
              var d := data.value.data.value;
              e.payment == d.payment && e.paymentId == d.paymentId &&
              e.txid == d.txid && e.verificationError == d.verificationError
    ensures data.None? || data.value.data.None? ==>
              e.payment.None? && e.paymentId.None? && e.txid.None? && e.verificationError.None?
  {
    TableIsTotal(code);
    var payload := if data.Some? && data.value.data.Some? then data.value.data.value
                   else ErrorPayload(None, None, None, None);
    PiPaymentError(code.Name(), MessageFor(code, OverrideOf(data)),
                   payload.payment, payload.paymentId, payload.txid, payload.verificationError)
  }

  /** The table has an entry for exactly the SDK codes. */
  lemma TableIsTotal(code: ErrorCode)
    ensures code in ErrorMessages <==> code.IsSdkCode()
  {
    match code
    case Local(c) => {
      match c {
        case AmountNotNumber =>
        case ApiKeyNotString =>
        case InvalidWalletPrivateSeed =>
        case MemoNotString =>
        case MetadataNotObject =>
        case MissingAmount =>
        case MissingApiKey =>
        case MissingMemo =>
        case MissingMetadata =>
        case MissingUid =>
        case MissingWalletPrivateSeed =>
        case PaymentAlreadyHasLinkedTxid =>
        case PaymentDataNotObject =>
        case PrivateSeedMismatch =>
        case UidNotString =>
        case WalletPrivateSeedNot56CharsLong =>
        case WalletPrivateSeedNotStartsWithS =>
        case WalletPrivateSeedNotString =>
      }
    }
    case TxResult(c) => {
      match c {
        case TxFailed =>
        case TxTooEarly =>
        case TxTooLate =>
        case TxMissingOperation =>
        case TxBadSeq =>
        case TxBadAuth =>
        case TxInsufficientBalance =>
        case TxNoSourceAccout =>
        case TxInsufficientFee =>
        case TxBadAuthExtra =>
        case TxInternalError =>
      }
    }
    case OpResult(c) => {
      match c {
        case OpBadAuth =>
        case OpNoSourceAccount =>
        case OpNotSupported =>
        case OpTooManySubentries =>
        case OpExceededWorkLimit =>
      }
    }
    case Api(_) =>
  }

  /** Whatever the code and the data, the constructed message is never empty. */
  lemma MessageNeverEmpty(code: ErrorCode, data: Option<AdditionalData>)
    ensures NewPiPaymentError(code, data).message != ""
  {
  }

  /** Example: `missing_api_key` with no data reads "Missing API key.". */
  lemma MissingApiKeyMessage()
    ensures NewPiPaymentError(Local(MissingApiKey), None).message == "Missing API key."
  {
  }
}
