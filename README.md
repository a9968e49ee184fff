# Pi Network server SDK: payment coordinator and error object, in Dafny

This project models the core of the Pi Network Node.js SDK. That core is the
`PiNetwork` class, which an app server uses to create, submit, complete and
cancel payments, and the `PiPaymentError` error object.

- `js_values.dfy` (`JsValues`): the untyped JavaScript values a caller can pass,
  with `typeof`, truthiness and the `in` operator.
- `types.dfy` (`Types`): `PaymentDTO`, `TransactionData`, `NetworkPassphrase`,
  and how an awaited call settles: a value, or what it threw (`Result`, `Thrown`).
- `pi_payment_error.dfy` (`PiPaymentErrors`): the closed code set, the 34-entry
  message table, and the constructor as a total function.
- `validation.dfy` (`Validation`): `validateApiKey`, `validateSeedFormat`,
  `validatePaymentData` and the constructor's order of checks. Each is written
  as the guard chain the source has. Each is proved equal to a reference
  definition: the first violated rule of an ordered rule table.
- `ledger.dfy` (`Ledger`): the Stellar pieces the builder uses (keypair,
  transaction, operation, memo), and `Horizon`, an oracle object for the Horizon
  servers that logs every call it receives.
- `platform_api.dfy` (`PlatformApi`): `Client`, an oracle object for the HTTP
  client of the platform API that logs every request it sends.
- `pi_network.dfy` (`PaymentCoordinator`): the class `PiNetwork` with its one
  mutable field `currentPayment`. It also holds a pure state machine of that
  slot over the public operations, the pure parts of `submitPayment` and
  `buildA2UTransaction`, and a two-submission client scenario.

Oracles. Each answer of the platform API or of Horizon is a fixed function of
the request and of the number of requests made before it. So the model covers
every sequence of answers, failures included. "No network call" is stated as
"the log did not grow". Calls are awaited one after the other, so the model
runs them in sequence.

Where the code and the SDK's documented design differ, the model follows the
code:
- The code throws plain `Error` objects with fixed messages (src/index.ts:36,
  99-120, 136). It never throws `PiPaymentError`. Failures of the HTTP client
  and of Horizon propagate unchanged. The model has no API-error mapping, no
  `unknown_error` fallback, no seed checksum and no extraction of ledger result
  codes.
- The validators' messages have no trailing period, unlike the table in
  src/PiPaymentError.ts.
- `getPayment` never writes `currentPayment`. Only `createPayment` fills the
  slot between operations. `submitPayment` fills it while it runs and clears it
  on exit.
- The txid check tests truthiness: a linked transaction whose `txid` is the
  empty string does not stop a submission.
- `buildA2UTransaction` asks for 180 seconds of timebounds as a literal in the
  code. It does not read the configured default.
- The table key `tx_no_source_accout` keeps the source's spelling.
- The seed length test uses JavaScript's `length`, which counts UTF-16 code
  units. A character beyond U+FFFF counts twice.

## Model

| member | source | states |
|---|---|---|
| Validation.ValidateApiKey | src/index.ts:98-101 | passes exactly the non-empty strings |
| Validation.FalsyApiKeyIsMissing | src/index.ts:99 | every falsy value (undefined, null, "", 0, NaN, false, 0n) fails with "Missing API key" |
| Validation.ApiKeyChecksInOrder | src/index.ts:98-101 | the validator reports the first violated rule of [truthy, string], in that order |
| JsValues.Utf16Length | src/index.ts:107 | a string's `length` counts UTF-16 code units: between one and two per character, and exactly one per character iff none lies beyond U+FFFF |
| Validation.ValidateSeedFormat | src/index.ts:103-108 | passes exactly the strings starting with "S" whose `length` is 56 UTF-16 code units |
| Validation.PrefixCheckedBeforeLength | src/index.ts:106-107 | a string of length 56 not starting with "S" gets the starts-with error, not the length error |
| Validation.AstralCharacterCountsTwice | src/index.ts:107 | 55 characters starting with "S", none beyond U+FFFF, followed by one character beyond U+FFFF: 56 characters, yet refused with the length error |
| Validation.SeedChecksInOrder | src/index.ts:103-108 | the validator reports the first violated rule of [truthy, string, starts with "S", length 56], in that order |
| Validation.ValidatePaymentData | src/index.ts:110-121 | passes exactly the objects whose amount is a number, memo a string, metadata a non-null object and uid a string |
| Validation.PaymentDataChecksInOrder | src/index.ts:110-121 | the validator reports the first violated rule of: object; amount present, number; memo present, string; metadata present, object; uid present, string |
| Validation.FirstViolationMeaning | src/index.ts:110-121 | a rule chain passes iff every rule holds; otherwise its message is that of a failing rule all of whose predecessors hold |
| Validation.ValidateConstructorArgs | src/index.ts:12-14 | a malformed seed is reported even when the API key is also malformed; the API key is checked only after the seed passes; both must be well-formed to pass |
| PaymentCoordinator.PiNetwork.Create | src/index.ts:12-18 | a validation failure or a rejected seed throws and creates no client; otherwise a fresh coordinator with an empty slot, the derived keypair and a fresh client for the API key that has sent nothing |
| PaymentCoordinator.PiNetwork.constructor | src/index.ts:16-17 | the coordinator holds the given client and keypair and starts with an empty slot |
| PlatformApi.Client.constructor | src/utils.ts:5-13 | the client carries the API key for its authorization header and has sent no request |
| PaymentCoordinator.PiNetwork.CreatePayment | src/index.ts:20-27 | invalid data throws the validator's message with no request and the slot unchanged; otherwise one POST /payments with the data; on success the slot holds the returned payment and its identifier is returned; a failed POST is rethrown and the slot is unchanged |
| PaymentCoordinator.PiNetwork.SubmitPayment | src/index.ts:29-66 | the slot is empty afterwards; GET /payments/{id} is sent iff the slot is empty or holds another id; a fetch failure is rethrown and a fetched payment with a linked txid throws an error carrying paymentId and txid, both with no Horizon call; a source address other than the app's throws with no Horizon call; otherwise Horizon gets a prefix of [load account, fetch fee, fetch 180-second timebounds, submit], every call but the last succeeded, and fewer than four calls means the last one failed and its error is thrown; with four, the submission carries an A2U transaction for that payment, built from the three replies, on the payment's network's server, and its reply (the id or the rejection) is the result |
| PaymentCoordinator.PiNetwork.CompletePayment | src/index.ts:68-75 | one POST /payments/{id}/complete with the txid; the reply or its failure is returned; the slot is empty afterwards |
| PaymentCoordinator.PiNetwork.GetPayment | src/index.ts:77-80 | one GET /payments/{id}; the reply or its failure is returned; the slot is unchanged |
| PaymentCoordinator.PiNetwork.CancelPayment | src/index.ts:82-89 | one POST /payments/{id}/cancel; the reply or its failure is returned; the slot is empty afterwards |
| PaymentCoordinator.PiNetwork.GetIncompleteServerPayments | src/index.ts:91-96 | one GET /payments/incomplete_server_payments; returns its incomplete_server_payments list or rethrows; the slot is unchanged |
| PaymentCoordinator.PiNetwork.BuildA2UTransaction | src/index.ts:130-159 | a fromAddress other than the app's public key throws before any Horizon call; otherwise Horizon is asked, in order, to load the app account, fetch the base fee and fetch 180-second timebounds; every call but the last succeeded, and a failed last call's error is the one thrown; on success all three were made and the transaction is one native payment of the amount to toAddress, memo text the payment identifier, the network's passphrase, built from those three replies and signed by the app keypair only |
| PaymentCoordinator.PiNetwork.HorizonServerFor | src/index.ts:123-128 | the mainnet server exactly when the payment's passphrase is the configured mainnet passphrase (`isMainnet`, src/utils.ts:15-17), the testnet server otherwise |
| PaymentCoordinator.PiNetwork.SubmitTransaction | src/index.ts:161-168 | one Horizon submission of the transaction; returns the response id or rethrows |
| PaymentCoordinator.NeedsFetch | src/index.ts:31 | submitPayment fetches unless the slot holds a payment with the requested identifier; an empty slot always fetches |
| PaymentCoordinator.PaymentToSubmit | src/index.ts:31-43 | a slot holding the id is used as is, with no txid check; otherwise the fetched payment is used iff it was fetched and has no truthy txid; a fetch failure is rethrown; a linked txid gives the error carrying paymentId and txid |
| PaymentCoordinator.LinkedTxid | src/index.ts:33-35 | a txid is reported exactly when the payment has a linked transaction with a non-empty txid |
| PaymentCoordinator.TransactionDataOf | src/index.ts:45-58 | the builder receives the payment's amount, identifier, source address and destination address |
| PaymentCoordinator.AssembleA2UTransaction | src/index.ts:142-158 | the built transaction has the A2U shape (one native payment, text memo, passphrase, sole app signer) and the given account, fee and timebounds |
| PaymentCoordinator.SlotAfter | src/index.ts:20-89 | one operation's effect on `currentPayment`: a successful createPayment stores the returned payment, submit, complete and cancel empty the slot on every exit, the other operations leave it unchanged |
| PaymentCoordinator.SlotAfterAll | src/index.ts:10-89 | over any run of operations from any start, the slot holds only its initial content or a payment some createPayment in the run returned |
| PaymentCoordinator.QueriesKeepSlot | src/index.ts:77-96 | a run of getPayment, getIncompleteServerPayments and failed createPayment calls leaves the slot unchanged |
| PaymentCoordinator.LastWriterDecides | src/index.ts:20-89 | the last slot-writing operation decides the slot: empty after submit, complete or cancel, the payment after a successful create |
| PaymentCoordinator.SlotHoldsLastCreated | src/index.ts:10-89 | a non-empty slot holds the payment of a successful createPayment with no terminal operation after it, or the initial content when nothing wrote the slot |
| PaymentCoordinator.StaleIdRefetches | src/index.ts:29-43 | after a terminal operation, submitPayment fetches afresh for any id |
| PaymentCoordinator.SubmitTwice | src/index.ts:29-66 | submitting a just-created payment twice: once the platform reports a linked txid, the second attempt throws the linked-txid error with paymentId and txid |
| PiPaymentErrors.MessageFor | src/PiPaymentError.ts:103-105 | the message passed to `super`: a non-empty override wins; otherwise an SDK code gets its table entry and an API code "Unknown error"; never empty |
| PiPaymentErrors.NewPiPaymentError | src/PiPaymentError.ts:102-111 | a non-empty override is the message; with no or an empty override an SDK code gets its table message and an API code "Unknown error"; the message depends only on code and override; code is stored as its name; the four payload fields are copied from data.data, or all absent when data or data.data is |
| PiPaymentErrors.TableIsTotal | src/PiPaymentError.ts:40-75 | the table has an entry for exactly the SDK codes (18 local, 11 tx_, 5 op_) and none for an API code |
| PiPaymentErrors.MessageNeverEmpty | src/PiPaymentError.ts:103-105 | every constructed error has a non-empty message |
| PiPaymentErrors.MissingApiKeyMessage | src/PiPaymentError.ts:47 | missing_api_key with no data reads "Missing API key." |

## Left out

- src/config.ts: loading the .env file and checking the variables happen once at process start. The coordinator only uses the mainnet passphrase, which it receives as a field.
- esbuild.ts: the build script.
- `createPlatformApiClient` (src/utils.ts:5-13): the base URL, the 20-second timeout and the JSON header are not modelled. The client keeps the API key, and the platform API's answers are an oracle.
- `isMainnet` and `getHorizonClient` (src/utils.ts:15-17, src/index.ts:123-128): reduced to choosing the mainnet or testnet server by comparing passphrases. The URLs and the creation of a server object on each call are not modelled.
- Stellar SDK internals: `Keypair.fromSecret` is a function parameter, so its checksum check is not modelled. Public keys are not derived. Signatures are the list of signers' public keys. `loadAccount`, `fetchBaseFee`, `fetchTimebounds` and `submitTransaction` are oracle calls. Transaction serialisation is not modelled.
- PaymentCoordinator.AssembleA2UTransaction: building the transaction is total. The Stellar SDK checks its arguments and can throw. `Operation.payment` (src/index.ts:142-146) can reject the destination or the amount after the account and fee calls and before the timebounds call. `Memo.text` (src/index.ts:154) can reject a memo longer than 28 bytes, and `build()` (src/index.ts:155) can throw after all three calls. The model does not include these failures: it always builds and submits the transaction. So the SubmitPayment and BuildA2UTransaction contracts take every error after the address check to be a Horizon reply's.
- PaymentCoordinator.PiNetwork.SubmitTransaction: assumes Horizon's successful response carries an `id`. The case where `txResponse.id` is undefined is not represented.
- `amount.toString()` and `baseFee.toString()` (src/index.ts:145, 149): floating-point formatting is not modelled. The operation carries the amount and the transaction carries the fee as numbers.
- The async and Promise machinery. Calls are awaited one after the other, and concurrent calls on one instance are not modelled.
- JSON encoding of request bodies and decoding of response bodies. The oracles answer with typed records.
- JsValues: the `in` operator only sees an object's own properties. Properties inherited through the prototype chain are not modelled.
- dist/*.d.ts: these are declarations only and serve as type sources. `isSubmitTransactionErrorResponse`, declared at dist/utils.d.ts:20, has no definition in src/utils.ts.
