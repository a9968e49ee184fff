/**
 * What the coordinator uses of the Stellar SDK: keypairs, the transaction it
 * builds, and the Horizon servers it talks to. Key derivation and signing are
 * not computed; Horizon is an oracle whose answers are fixed in advance as a
 * function of the call and of how many calls came before it, and which keeps
 * a log of the calls it received.
 */
module Ledger {
  import opened Types

  /** An app wallet keypair; only its public key is observable here. */
  datatype Keypair = Keypair(publicKey: string)

  /** The Horizon server a call goes to, chosen by network (`getHorizonClient`). */
  datatype Server = MainnetServer | TestnetServer

  datatype Account = Account(accountId: string, sequence: int)

  datatype Timebounds = Timebounds(minTime: int, maxTime: int)

  datatype Asset = Native

  datatype Operation = Payment(destination: string, asset: Asset, amount: real)

  datatype Memo = MemoText(text: string)

  /** A built transaction and the public keys of those who signed it, in order. */
  datatype Transaction = Transaction(
    source: Account,
    fee: nat,
    networkPassphrase: string,
    timebounds: Timebounds,
    operations: seq<Operation>,
    memo: Memo,
    signers: seq<string>)

  /** Signing a transaction with a keypair. */
  function Sign(tx: Transaction, keypair: Keypair): (signed: Transaction)
    ensures signed.signers == tx.signers + [keypair.publicKey]
    ensures signed.(signers := tx.signers) == tx
  {
    tx.(signers := tx.signers + [keypair.publicKey])
  }

  /** A call the SDK makes on a Horizon server, as it appears in the log. */
  datatype LedgerCall =
    | LoadAccountCall(server: Server, accountId: string)
    | FetchBaseFeeCall(server: Server)
    | FetchTimeboundsCall(server: Server, seconds: nat)
    | SubmitTransactionCall(server: Server, transaction: Transaction)

  /** The Horizon servers, seen from the SDK. */
  class Horizon {
    const accountReply: (nat, LedgerCall) -> Result<Account>
    const feeReply: (nat, LedgerCall) -> Result<nat>
    const timeboundsReply: (nat, LedgerCall) -> Result<Timebounds>
    /** The `id` of the response to a successful submission, or the rejection. */
    const submitReply: (nat, LedgerCall) -> Result<string>
    var calls: seq<LedgerCall>

    constructor (
      accountReply: (nat, LedgerCall) -> Result<Account>,
      feeReply: (nat, LedgerCall) -> Result<nat>,
      timeboundsReply: (nat, LedgerCall) -> Result<Timebounds>,
      submitReply: (nat, LedgerCall) -> Result<string>)
      ensures this.accountReply == accountReply && this.feeReply == feeReply
      ensures this.timeboundsReply == timeboundsReply && this.submitReply == submitReply
      ensures calls == []
    {
      this.accountReply := accountReply;
      this.feeReply := feeReply;
      this.timeboundsReply := timeboundsReply;
      this.submitReply := submitReply;
      calls := [];
    }

    /** The failure the reply to the `index`-th call carries, if it is one. */
    function ReplyError(index: nat, call: LedgerCall): (failure: Option<Thrown>)
    {
      match call
      case LoadAccountCall(_, _) => var a := accountReply(index, call); if a.Err? then Some(a.error) else None
      case FetchBaseFeeCall(_) => var f := feeReply(index, call); if f.Err? then Some(f.error) else None
      case FetchTimeboundsCall(_, _) => var t := timeboundsReply(index, call); if t.Err? then Some(t.error) else None
      case SubmitTransactionCall(_, _) => var s := submitReply(index, call); if s.Err? then Some(s.error) else None
    }

    method LoadAccount(server: Server, accountId: string) returns (r: Result<Account>)
      modifies this
      ensures calls == old(calls) + [LoadAccountCall(server, accountId)]
      ensures r == accountReply(|old(calls)|, LoadAccountCall(server, accountId))
    {
      var call := LoadAccountCall(server, accountId);
      r := accountReply(|calls|, call);
      calls := calls + [call];
    }

    method FetchBaseFee(server: Server) returns (r: Result<nat>)
      modifies this
      ensures calls == old(calls) + [FetchBaseFeeCall(server)]
      ensures r == feeReply(|old(calls)|, FetchBaseFeeCall(server))
    {
      var call := FetchBaseFeeCall(server);
      r := feeReply(|calls|, call);
      calls := calls + [call];
    }

    method FetchTimebounds(server: Server, seconds: nat) returns (r: Result<Timebounds>)
      modifies this
      ensures calls == old(calls) + [FetchTimeboundsCall(server, seconds)]
      ensures r == timeboundsReply(|old(calls)|, FetchTimeboundsCall(server, seconds))
    {
      var call := FetchTimeboundsCall(server, seconds);
      r := timeboundsReply(|calls|, call);
      calls := calls + [call];
    }

    method SubmitTransaction(server: Server, transaction: Transaction) returns (r: Result<string>)
      modifies this
      ensures calls == old(calls) + [SubmitTransactionCall(server, transaction)]
      ensures r == submitReply(|old(calls)|, SubmitTransactionCall(server, transaction))
    {
      var call := SubmitTransactionCall(server, transaction);
      r := submitReply(|calls|, call);
      calls := calls + [call];
    }
  }
}
