/** The React hook around the escrow client (src/hooks/useEscrow.ts).
    The wallet adapter and the RPC connection are outside the model: what
    each awaited call does is a parameter of the call that makes it. */
module EscrowHook {
  import opened Wrappers
  import opened Bytes
  import opened Solana
  import P = EscrowProgram
  import S = EscrowService

  /** What an awaited call did: returned a value, or threw (an `Error`
      with its message, or something that is not an `Error`). */
  datatype Outcome<T> = Returns(value: T) | Throws(message: Option<string>)

  datatype Wallet = Wallet(connected: bool, publicKey: Option<Pubkey>, canSign: bool)
  {
    /** `connected && publicKey && signTransaction`. */
    predicate Ready() { connected && publicKey.Some? && canSign }
  }

  /** What `buildEscrowTransaction` needs besides the wallet. */
  datatype Network = Network(
    derive: P.Deriver, ata: AtaDeriver, ids: WellKnownIds,
    usdcMint: Pubkey, buyerTokenAccountExists: bool, blockhash: seq<byte>)

  /** The external calls of createEscrow, in the order they are made. */
  datatype Call = Build | Sign | Send | Confirm

  const CREATE_SEQUENCE: seq<Call> := [Build, Sign, Send, Confirm]

  datatype EscrowResult = EscrowResult(
    success: bool,
    txHash: Option<string>,
    escrowPda: Option<Pubkey>,
    error: Option<string>)

  const NOT_CONNECTED := EscrowResult(false, None, None, Some("Wallet not connected"))

  /** `err instanceof Error ? err.message : 'Unknown error'`. */
  function ErrorText(message: Option<string>): string {
    message.GetOr("Unknown error")
  }

  /** The messages the client's library calls throw with. */
  function ClientErrorText(e: S.ClientError): string {
    match e
    case UnsafeAmount => "Assertion failed"
    case SeedTooLong => "Max seed length exceeded"
    case RangeError => "Trying to access beyond buffer length"
    case NumberTooLarge => "Number can only safely store up to 53 bits"
  }

  /** `buildEscrowTransaction` for the connected wallet. */
  method BuildTransaction(net: Network, buyer: Pubkey, orderId: seq<byte>, amountUsdc: real)
    returns (r: Result<S.EscrowTransaction, S.ClientError>)
    ensures r.Ok? <==> S.UsdcToLamports(amountUsdc).Ok? && |orderId| <= S.MAX_SEED_LENGTH
    ensures r.Err? ==> r.error == S.CreateEscrowError(orderId, amountUsdc)
    ensures r.Ok? ==> r.value.escrowPda == net.derive(P.EscrowSeeds(orderId, buyer))
  {
    r := S.BuildEscrowTransaction(net.derive, net.ata, net.ids, buyer, orderId, amountUsdc,
                                  net.usdcMint, net.buyerTokenAccountExists, net.blockhash);
  }

  /** The transaction for (orderId, amountUsdc) can be built. */
  predicate Buildable(orderId: seq<byte>, amountUsdc: real) {
    S.UsdcToLamports(amountUsdc).Ok? && |orderId| <= S.MAX_SEED_LENGTH
  }

  /** The message of the throw that stops the build. */
  function BuildErrorText(orderId: seq<byte>, amountUsdc: real): string {
    ClientErrorText(S.CreateEscrowError(orderId, amountUsdc))
  }

  /** What getEscrowStatus returns for an escrow: the decoded record with
      the creation time turned from seconds into milliseconds. */
  datatype EscrowStatus = EscrowStatus(
    buyer: Pubkey,
    orderId: seq<byte>,
    amount: real,
    feeAmount: real,
    fulfillmentAmount: real,
    status: S.ClientStatus,
    createdAtMs: int)

  function StatusOf(v: S.EscrowView): (st: EscrowStatus)
    ensures st.createdAtMs == v.createdAt * 1000
    ensures st.buyer == v.buyer && st.orderId == v.orderId && st.status == v.status
    ensures st.amount == v.amount && st.feeAmount == v.feeAmount && st.fulfillmentAmount == v.fulfillmentAmount
  {
    EscrowStatus(v.buyer, v.orderId, v.amount, v.feeAmount, v.fulfillmentAmount, v.status, v.createdAt * 1000)
  }

  class EscrowHook {
    var isProcessing: bool
    var error: Option<string>
    /** The external calls made so far, oldest first. */
    var calls: seq<Call>

    constructor ()
      ensures !isProcessing && error == None && calls == []
    {
      isProcessing := false;
      error := None;
      calls := [];
    }

    /** `createEscrow`: nothing is built or signed without a ready wallet;
        otherwise build, sign, send and confirm run in that order, each
        only after the previous one succeeded, and isProcessing is false
        again at the end whatever happened. */
    method CreateEscrow(wallet: Wallet, net: Network, orderId: seq<byte>, amountUsdc: real,
                        sign: Outcome<()>, send: Outcome<string>, confirm: Outcome<Option<string>>)
      returns (r: EscrowResult)
      modifies this
      ensures !wallet.Ready() ==>
        r == NOT_CONNECTED && calls == old(calls) && isProcessing == old(isProcessing) && error == old(error)
      ensures wallet.Ready() ==>
        && !isProcessing
        && |calls| > |old(calls)|
        && calls[..|old(calls)|] == old(calls)
        && calls[|old(calls)|..] <= CREATE_SEQUENCE
        && (r.success <==> error.None?)
        && (!r.success ==> error == r.error)
      ensures r.success ==>
        && wallet.Ready()
        && calls == old(calls) + CREATE_SEQUENCE
        && sign.Returns? && send.Returns? && confirm == Returns(None)
        && r.txHash == Some(send.value)
        && r.escrowPda == Some(net.derive(P.EscrowSeeds(orderId, wallet.publicKey.value)))
        && r.error.None?
      ensures !r.success ==> r.error.Some? && r.txHash.None? && r.escrowPda.None?
      ensures wallet.Ready() && confirm.Returns? && confirm.value.Some? && calls == old(calls) + CREATE_SEQUENCE ==>
        r == EscrowResult(false, None, None, Some("Transaction failed: " + confirm.value.value))
      ensures wallet.Ready() && !Buildable(orderId, amountUsdc) ==>
        && calls == old(calls) + [Build]
        && r == EscrowResult(false, None, None, Some(BuildErrorText(orderId, amountUsdc)))
        && error == r.error
    {
      if !wallet.Ready() {
        return NOT_CONNECTED;
      }
      isProcessing := true;
      error := None;
      var outcome := SubmitCreate(wallet.publicKey.value, net, orderId, amountUsdc, sign, send, confirm);
      if outcome.Ok? {
        isProcessing := false;
        return EscrowResult(true, Some(send.value), Some(outcome.value), None);
      }
      // catch
      error := Some(outcome.error);
      r := EscrowResult(false, None, None, Some(outcome.error));
      // finally
      isProcessing := false;
    }

    /** The `try` block of `createEscrow`: build, sign, send and confirm,
        each only after the previous one succeeded. Its result is the
        escrow address, or the text the `catch` block reports. */
    method SubmitCreate(buyer: Pubkey, net: Network, orderId: seq<byte>, amountUsdc: real,
                        sign: Outcome<()>, send: Outcome<string>, confirm: Outcome<Option<string>>)
      returns (outcome: Result<Pubkey, string>)
      modifies this
      ensures isProcessing == old(isProcessing) && error == old(error)
      ensures |calls| > |old(calls)|
      ensures calls[..|old(calls)|] == old(calls)
      ensures calls[|old(calls)|..] <= CREATE_SEQUENCE
      ensures outcome.Ok? ==>
        && calls == old(calls) + CREATE_SEQUENCE
        && sign.Returns? && send.Returns? && confirm == Returns(None)
        && outcome.value == net.derive(P.EscrowSeeds(orderId, buyer))
      ensures confirm.Returns? && confirm.value.Some? && calls == old(calls) + CREATE_SEQUENCE ==>
        outcome == Err("Transaction failed: " + confirm.value.value)
      ensures calls == old(calls) + [Build] <==> !Buildable(orderId, amountUsdc)
      ensures !Buildable(orderId, amountUsdc) ==> outcome == Err(BuildErrorText(orderId, amountUsdc))
    {
      ghost var before := calls;
      calls := calls + [Build];
      var built := BuildTransaction(net, buyer, orderId, amountUsdc);
      if built.Err? {
        assert calls == before + CREATE_SEQUENCE[..1];
        CallsExtended(before, 1);
        return Err(ClientErrorText(built.error));
      }
      calls := calls + [Sign];
      if sign.Throws? {
        assert calls == before + CREATE_SEQUENCE[..2];
        CallsExtended(before, 2);
        return Err(ErrorText(sign.message));
      }
      calls := calls + [Send];
      if send.Throws? {
        assert calls == before + CREATE_SEQUENCE[..3];
        CallsExtended(before, 3);
        return Err(ErrorText(send.message));
      }
      calls := calls + [Confirm];
      assert calls == before + CREATE_SEQUENCE;
      assert CREATE_SEQUENCE[..4] == CREATE_SEQUENCE;
      CallsExtended(before, 4);
      if confirm.Throws? {
        return Err(ErrorText(confirm.message));
      }
      if confirm.value.Some? {
        return Err("Transaction failed: " + confirm.value.value);
      }
      return Ok(built.value.escrowPda);
    }

    /** `getEscrowStatus`. `buyerAddress` is the address passed in when it
        is given and not empty, with what `new PublicKey` makes of it: a
        key, or the message it throws; that throw comes before the `try`
        block and reaches the caller. Otherwise the wallet key is the
        buyer. Every failure inside the `try` block, the derivation and
        the decoder included, is stored as the error and gives null. */
    method GetEscrowStatus(derive: P.Deriver, accounts: map<Pubkey, seq<byte>>, publicKey: Option<Pubkey>,
                           orderId: seq<byte>, buyerAddress: Option<Result<Pubkey, string>>)
      returns (r: Result<Option<EscrowStatus>, string>)
      modifies this
      ensures isProcessing == old(isProcessing) && calls == old(calls)
      ensures buyerAddress.Some? && buyerAddress.value.Err? ==>
        r == Err(buyerAddress.value.error) && error == old(error)
      ensures buyerAddress.None? && publicKey.None? ==>
        r == Ok(None) && error == Some("No buyer address provided")
      ensures (buyerAddress.Some? && buyerAddress.value.Ok?) || (buyerAddress.None? && publicKey.Some?) ==>
        var buyer := if buyerAddress.Some? then buyerAddress.value.value else publicKey.value;
        match S.GetEscrowAccount(derive, accounts, orderId, buyer)
        case Err(e) => r == Ok(None) && error == Some(ClientErrorText(e))
        case Ok(None) => r == Ok(None) && error == old(error)
        case Ok(Some(v)) => r == Ok(Some(StatusOf(v))) && error == old(error)
    {
      var buyer: Option<Pubkey> := publicKey;
      if buyerAddress.Some? {
        if buyerAddress.value.Err? {
          return Err(buyerAddress.value.error);
        }
        buyer := Some(buyerAddress.value.value);
      }
      if buyer.None? {
        error := Some("No buyer address provided");
        return Ok(None);
      }
      var escrow := S.GetEscrowAccount(derive, accounts, orderId, buyer.value);
      if escrow.Err? {
        // catch
        error := Some(ClientErrorText(escrow.error));
        return Ok(None);
      }
      if escrow.value.None? {
        return Ok(None);
      }
      return Ok(Some(StatusOf(escrow.value.value)));
    }
  }

  /** The calls after `before` are the first `k` steps of the sequence. */
  lemma CallsExtended(before: seq<Call>, k: nat)
    requires 1 <= k <= |CREATE_SEQUENCE|
    ensures var calls := before + CREATE_SEQUENCE[..k];
      && |calls| > |before|
      && calls[..|before|] == before
      && calls[|before|..] <= CREATE_SEQUENCE
  {
    var calls := before + CREATE_SEQUENCE[..k];
    assert calls[|before|..] == CREATE_SEQUENCE[..k];
  }

  /** `getEscrowAddress`: null without a wallet key, otherwise the escrow
      address of (orderId, key) with the program's seeds; an order id
      longer than 32 bytes makes it throw. */
  function GetEscrowAddress(derive: P.Deriver, publicKey: Option<Pubkey>, orderId: seq<byte>)
    : (r: Result<Option<Pubkey>, S.ClientError>)
    ensures publicKey.None? ==> r == Ok(None)
    ensures publicKey.Some? ==> (r.Ok? <==> |orderId| <= S.MAX_SEED_LENGTH)
    ensures r.Ok? && publicKey.Some? ==> r.value == Some(derive(P.EscrowSeeds(orderId, publicKey.value)))
    ensures r.Err? ==> r.error == S.SeedTooLong
  {
    match publicKey
    case None => Ok(None)
    case Some(key) =>
      match S.GetEscrowPda(derive, orderId, key)
      case Ok(address) => Ok(Some(address))
      case Err(e) => Err(e)
  }

  /** For a connected wallet, the address `getEscrowAddress` reports is
      the address that `createEscrow` returns on success. */
  lemma AddressMatchesCreated(derive: P.Deriver, key: Pubkey, orderId: seq<byte>)
    requires |orderId| <= S.MAX_SEED_LENGTH
    ensures GetEscrowAddress(derive, Some(key), orderId) == Ok(Some(derive(P.EscrowSeeds(orderId, key))))
  {
  }

  datatype BalanceCheck = BalanceCheck(sufficient: bool, balance: real)

  /** `checkUsdcBalance`: the token balance lookup may throw (no token
      account) or report a null `uiAmount`; both give a zero balance. */
  function CheckUsdcBalance(publicKey: Option<Pubkey>, uiAmount: Outcome<Option<real>>, required: real)
    : (r: BalanceCheck)
    ensures publicKey.None? || uiAmount.Throws? ==> r == BalanceCheck(false, 0.0)
    ensures publicKey.Some? && uiAmount.Returns? ==>
      r.balance == uiAmount.value.GetOr(0.0) && (r.sufficient <==> r.balance >= required)
  {
    if publicKey.None? then BalanceCheck(false, 0.0)
    else match uiAmount
      case Throws(_) => BalanceCheck(false, 0.0)
      case Returns(amount) =>
        var balance := amount.GetOr(0.0);
        BalanceCheck(balance >= required, balance)
  }
}
