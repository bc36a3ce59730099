/** The bridge form: which chains and token are selected, the amount typed in,
    the hook it drives, and the decisions the rendered form makes from them.
    `parseFloat(value) > 0` and the floating-point fee text are parameters. */
module Form {
  import opened Outcomes
  import JsStrings
  import Chains
  import Stargate
  import StargateBridge

  const FormSlippage: real := 0.5

  const BridgingLabel := "Bridging..."
  const QuotingLabel := "Getting quote..."
  const ReadyLabel := "Bridge"
  const EmptyLabel := "Enter amount"

  /** The parameters both handlers send: the selected token on both sides, 0.5% slippage. */
  function FormParams(fromChain: Chains.Chain, toChain: Chains.Chain, token: Chains.Token, amount: string)
    : (p: Stargate.BridgeParams)
    ensures p.fromChainId == fromChain.id && p.toChainId == toChain.id
    ensures p.fromToken == token.symbol && p.toToken == token.symbol
    ensures p.amount == amount && p.slippage == FormSlippage
  {
    Stargate.BridgeParams(fromChain.id, toChain.id, token.symbol, token.symbol, amount, FormSlippage)
  }

  /** An amount change asks for a quote only for a non-empty amount that parses
      positive: the empty string is falsy, and a zero, negative or unparsable
      amount fails `parseFloat(value) > 0`. */
  function RequestsQuote(value: string, parsesPositive: bool): (requests: bool)
    ensures value == "" ==> !requests
    ensures !parsesPositive ==> !requests
    ensures value != "" && parsesPositive ==> requests
  {
    value != "" && parsesPositive
  }

  /** The bridge button is disabled while there is no amount, or a quote or bridge is running. */
  function ButtonDisabled(amount: string, isQuoting: bool, isBridging: bool): (disabled: bool)
    ensures disabled <==> amount == "" || isQuoting || isBridging
  {
    amount == "" || isQuoting || isBridging
  }

  /** The bridge button's label: bridging first, then quoting, then whether an amount is set. */
  function ButtonLabel(amount: string, isQuoting: bool, isBridging: bool): (text: string)
    ensures isBridging ==> text == BridgingLabel
    ensures !isBridging && isQuoting ==> text == QuotingLabel
    ensures !isBridging && !isQuoting && amount != "" ==> text == ReadyLabel
    ensures !isBridging && !isQuoting && amount == "" ==> text == EmptyLabel
  {
    if isBridging then BridgingLabel
    else if isQuoting then QuotingLabel
    else if amount != "" then ReadyLabel
    else EmptyLabel
  }

  /** The button can be pressed exactly when it reads "Bridge". */
  lemma EnabledIffReadyLabel(amount: string, isQuoting: bool, isBridging: bool)
    ensures !ButtonDisabled(amount, isQuoting, isBridging) <==> ButtonLabel(amount, isQuoting, isBridging) == ReadyLabel
  {
  }

  /** The connected address as shown: its first 6 characters, "...", its last 4.
      An absent address contributes nothing on either side. */
  function AbbreviatedAddress(address: Option<string>): (text: string)
    ensures address.None? ==> text == "..."
    ensures address.Some? ==>
      text == JsStrings.Slice(address.value, 0, 6) + "..." + JsStrings.SliceFrom(address.value, -4)
  {
    match address
    case None => "..."
    case Some(a) => JsStrings.Slice(a, 0, 6) + "..." + JsStrings.SliceFrom(a, -4)
  }

  /** For an address of at least 6 characters the text is 13 characters:
      the first 6, three dots, the last 4 (below 10 characters the two parts
      overlap). */
  lemma AbbreviationOfLongAddress(address: string)
    requires 6 <= |address|
    ensures |AbbreviatedAddress(Some(address))| == 13
    ensures AbbreviatedAddress(Some(address)) == address[..6] + "..." + address[|address| - 4..]
  {
  }

  /** The quote panel is shown only when there is both a quote and an amount. */
  function ShowQuotePanel(quote: Option<Stargate.BridgeQuote>, amount: string): (shown: bool)
    ensures shown <==> quote.Some? && amount != ""
  {
    quote.Some? && amount != ""
  }

  /** Inside the panel, the gas line is shown when the quote has a non-empty native fee. */
  function ShowGasEstimate(quote: Stargate.BridgeQuote): (shown: bool)
    ensures quote.nativeFee.None? ==> !shown
    ensures quote.nativeFee == Some("") ==> !shown
    ensures quote.nativeFee.Some? && quote.nativeFee.value != "" ==> shown
  {
    quote.nativeFee.Some? && quote.nativeFee.value != ""
  }

  /** For one quote, the gas line is shown exactly when the native fee of a
      bridge with that quote comes from `BigInt`; when it is hidden the fee is 0. */
  lemma GasLineMatchesFeeSource(quote: Stargate.BridgeQuote, bigInt: string -> Outcome<int>)
    ensures !ShowGasEstimate(quote) ==> StargateBridge.NativeFee(quote, bigInt) == Returned(0)
    ensures ShowGasEstimate(quote) ==> StargateBridge.NativeFee(quote, bigInt) == bigInt(quote.nativeFee.value)
  {
  }

  /** The protocol fee text: '0' for an empty amount, otherwise the service's
      floating-point fee computation (a parameter). */
  function ProtocolFeeText(amount: string, calculateProtocolFee: string -> string): (text: string)
    ensures amount == "" ==> text == "0"
    ensures amount != "" ==> text == calculateProtocolFee(amount)
  {
    if amount == "" then "0" else calculateProtocolFee(amount)
  }

  /** The initial selection: Ethereum to Telos, and the wBTC token. */
  lemma InitialSelection()
    ensures Chains.SupportedChains[0].name == "Ethereum" && Chains.SupportedChains[1].name == "Telos"
    ensures Chains.SupportedTokens[3].symbol == "wBTC"
  {
  }

  /** The form's state: the selection and amount it keeps, and the hook it drives. */
  class BridgeForm {
    var fromChain: Chains.Chain
    var toChain: Chains.Chain
    var selectedToken: Chains.Token
    var amount: string
    const bridge: StargateBridge.BridgeHook

    constructor ()
      ensures fromChain == Chains.SupportedChains[0] && toChain == Chains.SupportedChains[1]
      ensures selectedToken == Chains.SupportedTokens[3] && amount == ""
      ensures fresh(bridge) && bridge.IsInitial()
    {
      fromChain := Chains.SupportedChains[0];
      toChain := Chains.SupportedChains[1];
      selectedToken := Chains.SupportedTokens[3];
      amount := "";
      bridge := new StargateBridge.BridgeHook();
    }

    /** `swapChains`: exchange source and destination through a temporary. */
    method SwapChains()
      modifies this
      ensures fromChain == old(toChain) && toChain == old(fromChain)
      ensures selectedToken == old(selectedToken) && amount == old(amount)
    {
      var temp := fromChain;
      fromChain := toChain;
      toChain := temp;
    }

    /** `handleAmountChange`: store the amount, reset the hook, and for a
        positive amount fetch a quote; a failure is only logged. */
    method HandleAmountChange(value: string, parsesPositive: bool,
                              fetch: Stargate.QuoteRequest -> Outcome<Stargate.HttpResponse<Stargate.BridgeQuote>>)
      modifies this, bridge
      ensures amount == value
      ensures fromChain == old(fromChain) && toChain == old(toChain) && selectedToken == old(selectedToken)
      ensures !RequestsQuote(value, parsesPositive) ==> bridge.IsInitial()
      ensures RequestsQuote(value, parsesPositive) ==>
        var outcome := Stargate.GetQuote(FormParams(fromChain, toChain, selectedToken, value), fetch);
        && !bridge.isQuoting && !bridge.isBridging && bridge.txHash == None
        && bridge.quote == (if outcome.Returned? then Some(outcome.value) else None)
        && bridge.error == (if outcome.Returned? then None
                            else Some(MessageOf(outcome.exception, StargateBridge.QuoteFailureFallback)))
      ensures ShowQuotePanel(bridge.quote, amount) <==>
                RequestsQuote(value, parsesPositive)
                && Stargate.GetQuote(FormParams(fromChain, toChain, selectedToken, value), fetch).Returned?
    {
      amount := value;
      bridge.Reset();
      if RequestsQuote(value, parsesPositive) {
        var _ := bridge.GetQuote(FormParams(fromChain, toChain, selectedToken, value), fetch);
      }
    }

    /** `handleBridge`: nothing happens without an amount or a connected wallet;
        otherwise the hook bridges the current selection and a failure is only logged. */
    method HandleBridge(account: StargateBridge.Account,
                        fetch: Stargate.QuoteRequest -> Outcome<Stargate.HttpResponse<Stargate.BridgeQuote>>,
                        parseUnits: string -> Outcome<int>, bigInt: string -> Outcome<int>,
                        write: StargateBridge.SendCall -> Outcome<string>)
      modifies bridge
      ensures amount == "" || !StargateBridge.WalletReady(account) ==> unchanged(bridge)
      ensures bridge.quote == old(bridge.quote)
      ensures amount != "" && StargateBridge.WalletReady(account) ==>
        var r := StargateBridge.BridgeTransaction(account.address.value,
                   FormParams(fromChain, toChain, selectedToken, amount), fetch, parseUnits, bigInt, write);
        && !bridge.isBridging && bridge.isQuoting == old(bridge.isQuoting)
        && (r.Returned? ==> bridge.txHash == Some(r.value) && bridge.error == None)
        && (r.Threw? ==>
              bridge.txHash == old(bridge.txHash)
              && bridge.error == Some(MessageOf(r.exception, StargateBridge.BridgeFailureFallback)))
    {
      if amount == "" || !account.isConnected {
        return;
      }
      var _ := bridge.ExecuteBridge(account, FormParams(fromChain, toChain, selectedToken, amount),
                                    fetch, parseUnits, bigInt, write);
    }
  }

  /** Swapping the chains twice gives back the original pair. */
  method SwapTwiceRestores(form: BridgeForm)
    modifies form
    ensures form.fromChain == old(form.fromChain) && form.toChain == old(form.toChain)
  {
    form.SwapChains();
    form.SwapChains();
  }
}
