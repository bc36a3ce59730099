/** The bridge hook: its state record (quoting and bridging flags, last quote,
    last error, last transaction hash), the three operations that change it,
    and the arguments of the Stargate V2 `send` call it submits. The wallet
    account, the library conversions (`parseUnits(·, 18)`, `BigInt`) and the
    wallet's `writeContract` are parameters. */
module StargateBridge {
  import opened Outcomes
  import JsStrings
  import Stargate

  /** The Stargate router the `send` call is addressed to. */
  const StargateRouter := "0x8731d54E9D02c286767d56ac03e8037C07e01e98"

  /** The hard-coded 0.5% slippage, as a fraction. */
  const SlippageNumerator := 995
  const SlippageDenominator := 1000

  const QuoteFailureFallback := "Failed to get quote"
  const BridgeFailureFallback := "Bridge transaction failed"
  const WalletNotConnected := "Wallet not connected"

  /** The connected account as the wallet library reports it. */
  datatype Account = Account(isConnected: bool, address: Option<string>)

  /** The hook's guard `!isConnected || !address` lets the call through: a
      disconnected account, a missing address and an empty (falsy) address are
      each refused. */
  function WalletReady(account: Account): (ready: bool)
    ensures !account.isConnected ==> !ready
    ensures account.address.None? ==> !ready
    ensures account.address == Some("") ==> !ready
    ensures account.isConnected && account.address.Some? && account.address.value != "" ==> ready
  {
    account.isConnected && account.address.Some? && account.address.value != ""
  }

  /** `_sendParam` of Stargate V2 `send`. */
  datatype SendParam = SendParam(
    dstEid: int,
    to: string,
    amountLD: int,
    minAmountLD: int,
    extraOptions: string,
    composeMsg: string,
    oftCmd: string)

  /** `_fee` of Stargate V2 `send`. */
  datatype MessagingFee = MessagingFee(nativeFee: int, lzTokenFee: int)

  /** A complete contract call: target, function, the three arguments and the value sent. */
  datatype SendCall = SendCall(
    target: string,
    functionName: string,
    sendParam: SendParam,
    fee: MessagingFee,
    refundAddress: string,
    value: int)

  /** The address as a bytes32 hex word: `0x` and the address without its
      first two characters, left-padded with '0' to 64 digits. */
  function ToBytes32(address: string): (word: string)
    ensures |word| == 2 + (if |address| <= 66 then 64 else |address| - 2)
    ensures word[..2] == "0x"
    ensures 2 <= |address| ==> word[|word| - (|address| - 2)..] == address[2..]
    ensures |address| < 2 ==> forall i :: 2 <= i < |word| ==> word[i] == '0'
    ensures 2 <= |address| ==> forall i :: 2 <= i < |word| - (|address| - 2) ==> word[i] == '0'
  {
    "0x" + JsStrings.PadStart(JsStrings.SliceFrom(address, 2), 64, '0')
  }

  /** How the receiving contract reads a bytes32 word back as a 20-byte address. */
  function AddressOfBytes32(word: string): string
    requires |word| == 66
  {
    "0x" + word[26..]
  }

  /** For a 42-character `0x` address the word is 66 characters, 24 zero digits
      then the 40-digit body, and reading it back gives the address. */
  lemma Bytes32RoundTrip(address: string)
    requires |address| == 42 && address[..2] == "0x"
    ensures |ToBytes32(address)| == 66
    ensures ToBytes32(address)[26..] == address[2..]
    ensures forall i :: 2 <= i < 26 ==> ToBytes32(address)[i] == '0'
    ensures AddressOfBytes32(ToBytes32(address)) == address
  {
  }

  /** BigInt division: the quotient is truncated toward zero. */
  function TruncDiv(n: int, d: int): (q: int)
    requires 0 < d
    ensures 0 <= n ==> q * d <= n < (q + 1) * d
    ensures n < 0 ==> (-q) * d <= -n < (-q + 1) * d
  {
    if 0 <= n then n / d else -((-n) / d)
  }

  /** `minAmountLD = amountLD * 995n / 1000n`. For a non-negative amount it is
      the floor of 99.5% of it; a negative amount (`parseUnits` of a negative
      decimal) is truncated toward zero. */
  function MinAmountLD(amountLD: int): (m: int)
    ensures 0 <= amountLD ==> 0 <= m <= amountLD
    ensures 0 <= amountLD ==> m * 1000 <= amountLD * 995 < (m + 1) * 1000
    ensures amountLD < 0 ==> amountLD <= m <= 0
    ensures amountLD < 0 ==> (-m) * 1000 <= -amountLD * 995 < (-m + 1) * 1000
  {
    TruncDiv(amountLD * SlippageNumerator, SlippageDenominator)
  }

  /** `quote.nativeFee ? BigInt(quote.nativeFee) : 0n`. */
  function NativeFee(quote: Stargate.BridgeQuote, bigInt: string -> Outcome<int>): (r: Outcome<int>)
    ensures quote.nativeFee.None? || quote.nativeFee.value == "" ==> r == Returned(0)
    ensures quote.nativeFee.Some? && quote.nativeFee.value != "" ==> r == bigInt(quote.nativeFee.value)
  {
    match quote.nativeFee
    case Some(fee) => if fee != "" then bigInt(fee) else Returned(0)
    case None => Returned(0)
  }

  /** The `send` call for `address` bridging `params` with the fresh `quote`.
      `parseUnits` throwing, or `BigInt` throwing on the fee, aborts it. */
  function PrepareSend(address: string, params: Stargate.BridgeParams, quote: Stargate.BridgeQuote,
                       parseUnits: string -> Outcome<int>, bigInt: string -> Outcome<int>)
    : (r: Outcome<SendCall>)
    ensures r.Threw? <==> parseUnits(params.amount).Threw? || NativeFee(quote, bigInt).Threw?
    ensures parseUnits(params.amount).Threw? ==> r == Threw(parseUnits(params.amount).exception)
    ensures parseUnits(params.amount).Returned? && NativeFee(quote, bigInt).Threw? ==>
              r == Threw(NativeFee(quote, bigInt).exception)
    ensures r.Returned? ==>
      var call := r.value;
      && call.target == StargateRouter && call.functionName == "send"
      && call.sendParam.dstEid == params.toChainId
      && call.sendParam.to == ToBytes32(address)
      && parseUnits(params.amount) == Returned(call.sendParam.amountLD)
      && call.sendParam.minAmountLD == MinAmountLD(call.sendParam.amountLD)
      && call.sendParam.extraOptions == "0x" && call.sendParam.composeMsg == "0x"
      && call.sendParam.oftCmd == "0x"
      && NativeFee(quote, bigInt) == Returned(call.value)
      && call.fee == MessagingFee(call.value, 0)
      && call.refundAddress == address
  {
    var to := ToBytes32(address);
    match parseUnits(params.amount)
    case Threw(e) => Threw(e)
    case Returned(amountLD) =>
      match NativeFee(quote, bigInt)
      case Threw(e) => Threw(e)
      case Returned(nativeFee) =>
        Returned(SendCall(
          StargateRouter, "send",
          SendParam(params.toChainId, to, amountLD, MinAmountLD(amountLD), "0x", "0x", "0x"),
          MessagingFee(nativeFee, 0),
          address,
          nativeFee))
  }

  /** The call ignores the requested slippage: only the fixed 995/1000 applies. */
  lemma PrepareSendIgnoresSlippage(address: string, params: Stargate.BridgeParams, slippage: real,
                                   quote: Stargate.BridgeQuote,
                                   parseUnits: string -> Outcome<int>, bigInt: string -> Outcome<int>)
    ensures PrepareSend(address, params, quote, parseUnits, bigInt)
         == PrepareSend(address, params.(slippage := slippage), quote, parseUnits, bigInt)
  {
  }

  /** The body of `executeBridge`'s try block: a fresh quote, the `send` call
      built from it, then the wallet's answer; the first throw wins. */
  function BridgeTransaction(address: string, params: Stargate.BridgeParams,
                             fetch: Stargate.QuoteRequest -> Outcome<Stargate.HttpResponse<Stargate.BridgeQuote>>,
                             parseUnits: string -> Outcome<int>, bigInt: string -> Outcome<int>,
                             write: SendCall -> Outcome<string>)
    : (r: Outcome<string>)
    ensures Stargate.GetQuote(params, fetch).Threw? ==> r == Threw(Stargate.GetQuote(params, fetch).exception)
    ensures Stargate.GetQuote(params, fetch).Returned? ==>
      var call := PrepareSend(address, params, Stargate.GetQuote(params, fetch).value, parseUnits, bigInt);
      && (call.Threw? ==> r == Threw(call.exception))
      && (call.Returned? ==> r == write(call.value))
  {
    match Stargate.GetQuote(params, fetch)
    case Threw(e) => Threw(e)
    case Returned(quote) =>
      match PrepareSend(address, params, quote, parseUnits, bigInt)
      case Threw(e) => Threw(e)
      case Returned(call) => write(call)
  }

  /** The hook's state, changed only through its methods. */
  class BridgeHook {
    var isQuoting: bool
    var isBridging: bool
    var quote: Option<Stargate.BridgeQuote>
    var error: Option<string>
    var txHash: Option<string>

    /** The state the hook starts in and `reset` returns to. */
    predicate IsInitial()
      reads this
    {
      !isQuoting && !isBridging && quote == None && error == None && txHash == None
    }

    constructor ()
      ensures IsInitial()
    {
      isQuoting, isBridging := false, false;
      quote, error, txHash := None, None, None;
    }

    /** `reset`: back to the initial state, from any state. */
    method Reset()
      modifies this
      ensures IsInitial()
    {
      isQuoting, isBridging := false, false;
      quote, error, txHash := None, None, None;
    }

    /** The first update of `getQuote`: quoting starts and the error is cleared. */
    method StartQuoting()
      modifies this
      ensures isQuoting && error == None
      ensures isBridging == old(isBridging) && quote == old(quote) && txHash == old(txHash)
    {
      isQuoting, error := true, None;
    }

    /** The second update of `getQuote`: store the quote, or the error message. */
    method FinishQuoting(outcome: Outcome<Stargate.BridgeQuote>)
      modifies this
      ensures !isQuoting
      ensures isBridging == old(isBridging) && txHash == old(txHash)
      ensures outcome.Returned? ==> quote == Some(outcome.value) && error == old(error)
      ensures outcome.Threw? ==>
                quote == old(quote) && error == Some(MessageOf(outcome.exception, QuoteFailureFallback))
    {
      match outcome
      case Returned(q) =>
        quote, isQuoting := Some(q), false;
      case Threw(e) =>
        error, isQuoting := Some(MessageOf(e, QuoteFailureFallback)), false;
    }

    /** `getQuote`: returns the quote, or re-raises what the service threw. */
    method GetQuote(params: Stargate.BridgeParams,
                    fetch: Stargate.QuoteRequest -> Outcome<Stargate.HttpResponse<Stargate.BridgeQuote>>)
      returns (r: Outcome<Stargate.BridgeQuote>)
      modifies this
      ensures r == Stargate.GetQuote(params, fetch)
      ensures !isQuoting && isBridging == old(isBridging) && txHash == old(txHash)
      ensures r.Returned? ==> quote == Some(r.value) && error == None
      ensures r.Threw? ==> quote == old(quote) && error == Some(MessageOf(r.exception, QuoteFailureFallback))
    {
      StartQuoting();
      r := Stargate.GetQuote(params, fetch);
      FinishQuoting(r);
    }

    /** The first update of `executeBridge`: bridging starts and the error is cleared. */
    method StartBridging()
      modifies this
      ensures isBridging && error == None
      ensures isQuoting == old(isQuoting) && quote == old(quote) && txHash == old(txHash)
    {
      isBridging, error := true, None;
    }

    /** The second update of `executeBridge`: store the hash, or the error message. */
    method FinishBridging(outcome: Outcome<string>)
      modifies this
      ensures !isBridging
      ensures isQuoting == old(isQuoting) && quote == old(quote)
      ensures outcome.Returned? ==> txHash == Some(outcome.value) && error == old(error)
      ensures outcome.Threw? ==>
                txHash == old(txHash) && error == Some(MessageOf(outcome.exception, BridgeFailureFallback))
    {
      match outcome
      case Returned(hash) =>
        txHash, isBridging := Some(hash), false;
      case Threw(e) =>
        error, isBridging := Some(MessageOf(e, BridgeFailureFallback)), false;
    }

    /** `executeBridge`: without a usable wallet it throws and changes nothing;
        otherwise it runs the transaction, records the result, and re-raises a
        failure. The quote is never changed. */
    method ExecuteBridge(account: Account, params: Stargate.BridgeParams,
                         fetch: Stargate.QuoteRequest -> Outcome<Stargate.HttpResponse<Stargate.BridgeQuote>>,
                         parseUnits: string -> Outcome<int>, bigInt: string -> Outcome<int>,
                         write: SendCall -> Outcome<string>)
      returns (r: Outcome<string>)
      modifies this
      ensures !WalletReady(account) ==>
                r == Threw(ErrorInstance(WalletNotConnected)) && unchanged(this)
      ensures WalletReady(account) ==>
                r == BridgeTransaction(account.address.value, params, fetch, parseUnits, bigInt, write)
      ensures WalletReady(account) ==> !isBridging && isQuoting == old(isQuoting)
      ensures quote == old(quote)
      ensures WalletReady(account) && r.Returned? ==> txHash == Some(r.value) && error == None
      ensures WalletReady(account) && r.Threw? ==>
                txHash == old(txHash) && error == Some(MessageOf(r.exception, BridgeFailureFallback))
    {
      if !WalletReady(account) {
        return Threw(ErrorInstance(WalletNotConnected));
      }
      StartBridging();
      r := BridgeTransaction(account.address.value, params, fetch, parseUnits, bigInt, write);
      FinishBridging(r);
    }
  }
}
