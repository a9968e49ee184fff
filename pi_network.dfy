/**
 * The payment coordinator `PiNetwork` (src/index.ts). It holds one mutable
 * slot, `currentPayment`; every operation is a sequence of awaited calls to
 * the platform API or to Horizon, run one after the other, so the model runs
 * them in that order. Failures of those calls are passed on unchanged; the
 * errors the coordinator raises itself are plain `Error`s with fixed messages.
 */
module PaymentCoordinator {
  import opened JsValues
  import opened Types
  import opened Validation
  import opened Ledger
  import opened PlatformApi

  const LinkedTxidMessage := "This payment already has a linked txid"
  const SeedMismatchMessage := "You should use a private seed of your app wallet!"

  /** The validity window `buildA2UTransaction` asks Horizon for, in seconds. */
  const A2UTimeboundSeconds: nat := 180

  // ---------------------------------------------------------------------------
  // The current-payment slot, as a state machine over the public operations.

  /** A public operation, as it affects the slot. */
  datatype Step =
    | Created(payment: PaymentDTO)  // createPayment whose POST returned `payment`
    | CreateFailed                  // createPayment that threw
    | Submitted                     // submitPayment, whatever its outcome
    | Completed                     // completePayment, whatever its outcome
    | Cancelled                     // cancelPayment, whatever its outcome
    | Fetched                       // getPayment
    | ListedIncomplete              // getIncompleteServerPayments
  {
    /** Operations that leave the slot as they found it. */
    predicate KeepsSlot()
    {
      CreateFailed? || Fetched? || ListedIncomplete?
    }

    /** The terminal operations, which empty the slot on every exit. */
    predicate IsTerminal()
    {
      Submitted? || Completed? || Cancelled?
    }
  }

  /**
   * The slot after one operation: a successful createPayment stores its
   * payment, the terminal operations empty it, the others leave it alone.
   */
  function SlotAfter(slot: Option<PaymentDTO>, step: Step): (after: Option<PaymentDTO>)
    ensures step.KeepsSlot() ==> after == slot
    ensures step.IsTerminal() ==> after == None
    ensures step.Created? ==> after == Some(step.payment)
  {
    match step
    case Created(p) => Some(p)
    case CreateFailed => slot
    case Submitted => None
    case Completed => None
    case Cancelled => None
    case Fetched => slot
    case ListedIncomplete => slot
  }

  /**
   * The slot after a run of operations, one after the other. It only ever
   * holds its initial content or a payment some createPayment returned.
   */
  function SlotAfterAll(slot: Option<PaymentDTO>, steps: seq<Step>): (now: Option<PaymentDTO>)
    ensures now.Some? ==> now == slot || exists i :: 0 <= i < |steps| && steps[i] == Created(now.value)
  {
    if steps == [] then slot
    else
      var earlier := SlotAfterAll(slot, steps[..|steps| - 1]);
      assert earlier.Some? && earlier != slot ==>
               exists i :: 0 <= i < |steps| - 1 && steps[i] == Created(earlier.value);
      SlotAfter(earlier, steps[|steps| - 1])
  }

  /** A run of operations that do not write the slot leaves it unchanged. */
  lemma {:induction false} QueriesKeepSlot(slot: Option<PaymentDTO>, steps: seq<Step>)
    requires forall i :: 0 <= i < |steps| ==> steps[i].KeepsSlot()
    ensures SlotAfterAll(slot, steps) == slot
  {
    if steps != [] {
      QueriesKeepSlot(slot, steps[..|steps| - 1]);
    }
  }

  /**
   * The last operation that writes the slot decides it: after a terminal
   * operation and any number of non-writing ones the slot is empty, after a
   * successful createPayment it holds that payment.
   */
  lemma {:induction false} LastWriterDecides(slot: Option<PaymentDTO>, steps: seq<Step>, i: nat)
    requires i < |steps| && !steps[i].KeepsSlot()
    requires forall j :: i < j < |steps| ==> steps[j].KeepsSlot()
    ensures steps[i].IsTerminal() ==> SlotAfterAll(slot, steps) == None
    ensures steps[i].Created? ==> SlotAfterAll(slot, steps) == Some(steps[i].payment)
  {
    if i < |steps| - 1 {
      LastWriterDecides(slot, steps[..|steps| - 1], i);
    }
  }

  /**
   * The slot holds a payment only if a createPayment returned it and no
   * terminal operation came after, or if no operation wrote the slot at all.
   */
  lemma {:induction false} SlotHoldsLastCreated(slot: Option<PaymentDTO>, steps: seq<Step>)
    ensures SlotAfterAll(slot, steps).Some? ==>
              || (slot == SlotAfterAll(slot, steps) && forall i :: 0 <= i < |steps| ==> steps[i].KeepsSlot())
              || exists i :: && 0 <= i < |steps|
                             && steps[i] == Created(SlotAfterAll(slot, steps).value)
                             && forall j :: i < j < |steps| ==> steps[j].KeepsSlot()
  {
    if steps != [] {
      var prefix, last := steps[..|steps| - 1], steps[|steps| - 1];
      SlotHoldsLastCreated(slot, prefix);
      if last.KeepsSlot() && SlotAfterAll(slot, steps).Some? {
        assert forall i :: 0 <= i < |prefix| ==> steps[i] == prefix[i];
        if slot == SlotAfterAll(slot, prefix) && forall i :: 0 <= i < |prefix| ==> prefix[i].KeepsSlot() {
        } else {
          var i :| && 0 <= i < |prefix|
                   && prefix[i] == Created(SlotAfterAll(slot, prefix).value)
                   && forall j :: i < j < |prefix| ==> prefix[j].KeepsSlot();
          assert steps[i] == Created(SlotAfterAll(slot, steps).value);
        }
      }
    }
  }

  /**
   * Once a terminal operation has run, and only operations that keep the
   * slot since, submitPayment fetches the payment afresh whatever the id.
   */
  lemma {:induction false} StaleIdRefetches(slot: Option<PaymentDTO>, steps: seq<Step>, i: nat, paymentId: string)
    requires i < |steps| && steps[i].IsTerminal()
    requires forall j :: i < j < |steps| ==> steps[j].KeepsSlot()
    ensures NeedsFetch(SlotAfterAll(slot, steps), paymentId)
  {
    LastWriterDecides(slot, steps, i);
  }

  // ---------------------------------------------------------------------------
  // Pure parts of submitPayment and buildA2UTransaction.

  /** The slot is empty or holds a payment with another identifier. */
  predicate NeedsFetch(slot: Option<PaymentDTO>, paymentId: string)
    ensures slot.None? ==> NeedsFetch(slot, paymentId)
    ensures slot.Some? ==> (NeedsFetch(slot, paymentId) <==> slot.value.identifier != paymentId)
  {
    slot.None? || slot.value.identifier != paymentId
  }

  /** The txid of the payment's linked transaction, when there is one and it is truthy. */
  function LinkedTxid(payment: PaymentDTO): (txid: Option<string>)
    ensures txid.Some? <==> payment.transaction.Some? && payment.transaction.value.txid != ""
    ensures txid.Some? ==> txid.value == payment.transaction.value.txid
  {
    match payment.transaction
    case None => None
    case Some(t) => if t.txid != "" then Some(t.txid) else None
  }

  /**
   * The payment submitPayment goes on to build a transaction for, or what it
   * throws before reaching Horizon. `fetched` is what getPayment settles to;
   * it is consulted only when the slot does not already hold `paymentId`.
   */
  function PaymentToSubmit(slot: Option<PaymentDTO>, paymentId: string, fetched: Result<PaymentDTO>): (r: Result<PaymentDTO>)
    ensures !NeedsFetch(slot, paymentId) ==> r == Ok(slot.value)
    ensures NeedsFetch(slot, paymentId) ==>
              (r.Ok? <==> fetched.Ok? && (fetched.value.transaction.None? || fetched.value.transaction.value.txid == ""))
    ensures NeedsFetch(slot, paymentId) && r.Ok? ==> r == fetched
    ensures NeedsFetch(slot, paymentId) && fetched.Err? ==> r == fetched
    ensures NeedsFetch(slot, paymentId) && fetched.Ok? && fetched.value.transaction.Some? &&
            fetched.value.transaction.value.txid != "" ==>
              r == Err(Error(LinkedTxidMessage, Some(paymentId), Some(fetched.value.transaction.value.txid)))
  {
    if !NeedsFetch(slot, paymentId) then Ok(slot.value)
    else if fetched.Err? then fetched
    else
      var txid := LinkedTxid(fetched.value);
      if txid.Some? then Err(Error(LinkedTxidMessage, Some(paymentId), txid)) else fetched
  }

  /** The `TransactionData` submitPayment hands to the builder. */
  function TransactionDataOf(payment: PaymentDTO): (data: TransactionData)
    ensures data.amount == payment.amount && data.paymentIdentifier == payment.identifier
    ensures data.fromAddress == payment.fromAddress && data.toAddress == payment.toAddress
  {
    TransactionData(payment.amount, payment.identifier, payment.fromAddress, payment.toAddress)
  }

  /**
   * The shape of an app-to-user transaction: one native payment of `amount`
   * to `toAddress`, a text memo holding the payment identifier, the payment's
   * network, and the app wallet as its only signer.
   */
  predicate IsA2UTransaction(tx: Transaction, data: TransactionData, network: NetworkPassphrase, appPublicKey: string)
  {
    && tx.operations == [Payment(data.toAddress, Native, data.amount)]
    && tx.memo == MemoText(data.paymentIdentifier)
    && tx.networkPassphrase == network.Passphrase()
    && tx.signers == [appPublicKey]
  }

  /** The Horizon calls of a successful build, in order. */
  function A2UCalls(server: Server, appPublicKey: string): (calls: seq<LedgerCall>)
  {
    [ LoadAccountCall(server, appPublicKey),
      FetchBaseFeeCall(server),
      FetchTimeboundsCall(server, A2UTimeboundSeconds) ]
  }

  /** Building the app-to-user transaction from Horizon's replies, then signing it with the app keypair. */
  function AssembleA2UTransaction(
    account: Account, fee: nat, timebounds: Timebounds,
    data: TransactionData, network: NetworkPassphrase, keypair: Keypair): (tx: Transaction)
    ensures IsA2UTransaction(tx, data, network, keypair.publicKey)
    ensures tx.source == account && tx.fee == fee && tx.timebounds == timebounds
  {
    var unsigned := Transaction(account, fee, network.Passphrase(), timebounds,
                                [Payment(data.toAddress, Native, data.amount)],
                                MemoText(data.paymentIdentifier), []);
    Sign(unsigned, keypair)
  }

  // ---------------------------------------------------------------------------
  // The coordinator.

  class PiNetwork {
    const api: Client
    const myKeypair: Keypair
    /** The Horizon servers reached through `getHorizonClient`. */
    const horizon: Horizon
    /** `config.PI_BACKEND_HORIZON_MAINNET_PASSPHRASE`. */
    const mainnetPassphrase: string
    var currentPayment: Option<PaymentDTO>

    /** The state right after the constructor's checks have passed. */
    constructor (api: Client, myKeypair: Keypair, horizon: Horizon, mainnetPassphrase: string)
      ensures this.api == api && this.myKeypair == myKeypair
      ensures this.horizon == horizon && this.mainnetPassphrase == mainnetPassphrase
      ensures currentPayment == None
    {
      this.api := api;
      this.myKeypair := myKeypair;
      this.horizon := horizon;
      this.mainnetPassphrase := mainnetPassphrase;
      currentPayment := None;
    }

    /**
     * `new PiNetwork(apiKey, walletPrivateSeed)`: the seed's format is checked,
     * then the API key, then the keypair is derived (`fromSecret` stands for
     * `Keypair.fromSecret`, which throws on a seed it rejects), and only then
     * is the API client created.
     */
    static method Create(
      apiKey: Value, walletPrivateSeed: Value,
      fromSecret: string -> Result<Keypair>,
      paymentReply: (nat, Request) -> Result<PaymentDTO>,
      listReply: (nat, Request) -> Result<IncompletePayments>,
      horizon: Horizon, mainnetPassphrase: string) returns (r: Result<PiNetwork>)
      ensures ValidateConstructorArgs(apiKey, walletPrivateSeed).Fail? ==>
                r == Err(PlainError(ValidateConstructorArgs(apiKey, walletPrivateSeed).message))
      ensures ValidateConstructorArgs(apiKey, walletPrivateSeed) == Pass && fromSecret(walletPrivateSeed.s).Err? ==>
                r == Err(fromSecret(walletPrivateSeed.s).error)
      ensures ValidateConstructorArgs(apiKey, walletPrivateSeed) == Pass && fromSecret(walletPrivateSeed.s).Ok? ==>
                && r.Ok? && fresh(r.value) && fresh(r.value.api)
                && r.value.myKeypair == fromSecret(walletPrivateSeed.s).value
                && r.value.api.apiKey == apiKey.s && r.value.api.requests == []
                && r.value.api.paymentReply == paymentReply && r.value.api.listReply == listReply
                && r.value.horizon == horizon && r.value.mainnetPassphrase == mainnetPassphrase
                && r.value.currentPayment == None
    {
      var seedCheck := ValidateSeedFormat(walletPrivateSeed);
      if seedCheck.Fail? {
        return Err(PlainError(seedCheck.message));
      }
      var keyCheck := ValidateApiKey(apiKey);
      if keyCheck.Fail? {
        return Err(PlainError(keyCheck.message));
      }
      var keypair := fromSecret(walletPrivateSeed.s);
      if keypair.Err? {
        return Err(keypair.error);
      }
      var client := new Client(apiKey.s, paymentReply, listReply);
      var network := new PiNetwork(client, keypair.value, horizon, mainnetPassphrase);
      r := Ok(network);
    }

    /** `createPayment`. */
    method CreatePayment(payment: Value) returns (r: Result<string>)
      modifies this, api
      ensures ValidatePaymentData(payment).Fail? ==>
                && r == Err(PlainError(ValidatePaymentData(payment).message))
                && api.requests == old(api.requests)
                && currentPayment == old(currentPayment)
      ensures ValidatePaymentData(payment) == Pass ==>
                var request := Post("/payments", PaymentBody(payment));
                var reply := api.paymentReply(|old(api.requests)|, request);
                && api.requests == old(api.requests) + [request]
                && (reply.Ok? ==> r == Ok(reply.value.identifier) &&
                                  currentPayment == SlotAfter(old(currentPayment), Created(reply.value)))
                && (reply.Err? ==> r == Err(reply.error) &&
                                   currentPayment == SlotAfter(old(currentPayment), CreateFailed))
    {
      var check := ValidatePaymentData(payment);
      if check.Fail? {
        return Err(PlainError(check.message));
      }
      var response := api.SendForPayment(Post("/payments", PaymentBody(payment)));
      if response.Err? {
        return Err(response.error);
      }
      currentPayment := Some(response.value);
      r := Ok(response.value.identifier);
    }

    /** The Horizon server for a network (`getHorizonClient`). */
    function HorizonServerFor(network: NetworkPassphrase): (server: Server)
      ensures server == MainnetServer <==> network.Passphrase() == mainnetPassphrase
      ensures server == TestnetServer <==> network.Passphrase() != mainnetPassphrase
    {
      if network.Passphrase() == mainnetPassphrase then MainnetServer else TestnetServer
    }

    /**
     * `submitPayment`; the slot is cleared on every exit, as by `finally`.
     * Horizon sees the build's calls and then the submission, each only if
     * every call before it succeeded.
     */
    method SubmitPayment(paymentId: string) returns (r: Result<string>)
      modifies this, api, horizon
      ensures currentPayment == SlotAfter(old(currentPayment), Submitted)
      ensures NeedsFetch(old(currentPayment), paymentId) ==>
                api.requests == old(api.requests) + [Get("/payments/" + paymentId)]
      ensures !NeedsFetch(old(currentPayment), paymentId) ==> api.requests == old(api.requests)
      ensures var target := PaymentToSubmit(old(currentPayment), paymentId,
                                            api.paymentReply(|old(api.requests)|, Get("/payments/" + paymentId)));
              && (target.Err? ==> r == Err(target.error) && horizon.calls == old(horizon.calls))
              && (target.Ok? ==>
                    var payment := target.value;
                    var server := HorizonServerFor(payment.network);
                    var calls := A2UCalls(server, myKeypair.publicKey);
                    var n := |old(horizon.calls)|;
                    var m := |horizon.calls| - n;
                    && (payment.fromAddress != myKeypair.publicKey ==>
                          r == Err(PlainError(SeedMismatchMessage)) && horizon.calls == old(horizon.calls))
                    && (payment.fromAddress == myKeypair.publicKey ==>
                          && 0 < m <= 4
                          && horizon.calls[..n] == old(horizon.calls)
                          && (forall k :: n <= k < |horizon.calls| - 1 ==> horizon.ReplyError(k, horizon.calls[k]).None?)
                          && (m <= 3 ==>
                                && horizon.calls[n..] == calls[..m]
                                && r.Err?
                                && horizon.ReplyError(|horizon.calls| - 1, horizon.calls[|horizon.calls| - 1]) == Some(r.error))
                          && (m == 4 ==>
                                var submission := horizon.calls[n + 3];
                                && horizon.calls[n..n + 3] == calls
                                && submission.SubmitTransactionCall? && submission.server == server
                                && r == horizon.submitReply(n + 3, submission)
                                && var tx := submission.transaction;
                                   && IsA2UTransaction(tx, TransactionDataOf(payment), payment.network, myKeypair.publicKey)
                                   && horizon.accountReply(n, calls[0]) == Ok(tx.source)
                                   && horizon.feeReply(n + 1, calls[1]) == Ok(tx.fee)
                                   && horizon.timeboundsReply(n + 2, calls[2]) == Ok(tx.timebounds))))
    {
      if NeedsFetch(currentPayment, paymentId) {
        var fetched := GetPayment(paymentId);
        if fetched.Err? {
          currentPayment := None;
          return Err(fetched.error);
        }
        currentPayment := Some(fetched.value);
        var txid := LinkedTxid(fetched.value);
        if txid.Some? {
          currentPayment := None;
          return Err(Error(LinkedTxidMessage, Some(paymentId), txid));
        }
      }
      var payment := currentPayment.value;
      var server := HorizonServerFor(payment.network);
      var built := BuildA2UTransaction(server, TransactionDataOf(payment), payment.network);
      if built.Err? {
        currentPayment := None;
        return Err(built.error);
      }
      ghost var afterBuild := horizon.calls;
      r := SubmitTransaction(server, built.value);
      assert horizon.calls[..|afterBuild|] == afterBuild;
      currentPayment := None;
    }

    /** `completePayment`; the slot is cleared on every exit. */
    method CompletePayment(paymentId: string, txid: string) returns (r: Result<PaymentDTO>)
      modifies this, api
      ensures var request := Post("/payments/" + paymentId + "/complete", TxidBody(txid));
              && api.requests == old(api.requests) + [request]
              && r == api.paymentReply(|old(api.requests)|, request)
      ensures currentPayment == SlotAfter(old(currentPayment), Completed)
    {
      r := api.SendForPayment(Post("/payments/" + paymentId + "/complete", TxidBody(txid)));
      currentPayment := None;
    }

    /** `getPayment`: one GET, and the slot is left alone. */
    method GetPayment(paymentId: string) returns (r: Result<PaymentDTO>)
      modifies api
      ensures api.requests == old(api.requests) + [Get("/payments/" + paymentId)]
      ensures r == api.paymentReply(|old(api.requests)|, Get("/payments/" + paymentId))
      ensures currentPayment == SlotAfter(old(currentPayment), Fetched)
    {
      r := api.SendForPayment(Get("/payments/" + paymentId));
    }

    /** `cancelPayment`; the slot is cleared on every exit. */
    method CancelPayment(paymentId: string) returns (r: Result<PaymentDTO>)
      modifies this, api
      ensures var request := Post("/payments/" + paymentId + "/cancel", NoBody);
              && api.requests == old(api.requests) + [request]
              && r == api.paymentReply(|old(api.requests)|, request)
      ensures currentPayment == SlotAfter(old(currentPayment), Cancelled)
    {
      r := api.SendForPayment(Post("/payments/" + paymentId + "/cancel", NoBody));
      currentPayment := None;
    }

    /** `getIncompleteServerPayments`: one GET, and the slot is left alone. */
    method GetIncompleteServerPayments() returns (r: Result<seq<PaymentDTO>>)
      modifies api
      ensures var request := Get("/payments/incomplete_server_payments");
              var reply := api.listReply(|old(api.requests)|, request);
              && api.requests == old(api.requests) + [request]
              && (reply.Ok? ==> r == Ok(reply.value.incompleteServerPayments))
              && (reply.Err? ==> r == Err(reply.error))
      ensures currentPayment == SlotAfter(old(currentPayment), ListedIncomplete)
    {
      var response := api.SendForList(Get("/payments/incomplete_server_payments"));
      if response.Err? {
        return Err(response.error);
      }
      r := Ok(response.value.incompleteServerPayments);
    }

    /**
     * `buildA2UTransaction`: refuses a source address other than the app
     * wallet's before any Horizon call; otherwise loads the account, fetches
     * the base fee and a 180-second validity window, and builds and signs the
     * transaction. The first failing Horizon call ends the build with its
     * failure; the calls before it all succeeded.
     */
    method BuildA2UTransaction(server: Server, data: TransactionData, network: NetworkPassphrase)
      returns (r: Result<Transaction>)
      modifies horizon
      ensures data.fromAddress != myKeypair.publicKey ==>
                r == Err(PlainError(SeedMismatchMessage)) && horizon.calls == old(horizon.calls)
      ensures data.fromAddress == myKeypair.publicKey ==>
                var n := |old(horizon.calls)|;
                var calls := A2UCalls(server, myKeypair.publicKey);
                && n < |horizon.calls| <= n + 3
                && horizon.calls == old(horizon.calls) + calls[..|horizon.calls| - n]
                && (forall k :: n <= k < |horizon.calls| - 1 ==> horizon.ReplyError(k, horizon.calls[k]).None?)
                && (r.Err? ==>
                      horizon.ReplyError(|horizon.calls| - 1, horizon.calls[|horizon.calls| - 1]) == Some(r.error))
                && (r.Ok? ==>
                      && |horizon.calls| == n + 3
                      && IsA2UTransaction(r.value, data, network, myKeypair.publicKey)
                      && horizon.accountReply(n, calls[0]) == Ok(r.value.source)
                      && horizon.feeReply(n + 1, calls[1]) == Ok(r.value.fee)
                      && horizon.timeboundsReply(n + 2, calls[2]) == Ok(r.value.timebounds))
    {
      if data.fromAddress != myKeypair.publicKey {
        return Err(PlainError(SeedMismatchMessage));
      }
      var myAccount := horizon.LoadAccount(server, myKeypair.publicKey);
      if myAccount.Err? {
        return Err(myAccount.error);
      }
      var baseFee := horizon.FetchBaseFee(server);
      if baseFee.Err? {
        return Err(baseFee.error);
      }
      var timebounds := horizon.FetchTimebounds(server, A2UTimeboundSeconds);
      if timebounds.Err? {
        return Err(timebounds.error);
      }
      r := Ok(AssembleA2UTransaction(myAccount.value, baseFee.value, timebounds.value, data, network, myKeypair));
    }

    /** `submitTransaction`: the `id` of Horizon's response, or its rejection. */
    method SubmitTransaction(server: Server, transaction: Transaction) returns (r: Result<string>)
      modifies horizon
      ensures horizon.calls == old(horizon.calls) + [SubmitTransactionCall(server, transaction)]
      ensures r == horizon.submitReply(|old(horizon.calls)|, SubmitTransactionCall(server, transaction))
    {
      r := horizon.SubmitTransaction(server, transaction);
    }
  }

  /**
   * Submitting twice: the first submitPayment uses the payment createPayment
   * cached, without a txid check; by the second the slot is empty, so the
   * payment is fetched, and once the platform reports a linked txid the
   * second attempt throws before any Horizon call.
   */
  method SubmitTwice(network: PiNetwork, paymentId: string, linked: PaymentDTO)
    returns (first: Result<string>, second: Result<string>)
    requires network.currentPayment.Some? && network.currentPayment.value.identifier == paymentId
    requires linked.transaction.Some? && linked.transaction.value.txid != ""
    requires forall k :: k >= |network.api.requests| ==>
               network.api.paymentReply(k, Get("/payments/" + paymentId)) == Ok(linked)
    modifies network, network.api, network.horizon
    ensures second == Err(Error(LinkedTxidMessage, Some(paymentId), Some(linked.transaction.value.txid)))
    ensures network.currentPayment == None
  {
    first := network.SubmitPayment(paymentId);
    second := network.SubmitPayment(paymentId);
  }
}
