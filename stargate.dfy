/** The Stargate HTTP client: the quote request it sends, how it turns a
    response into a quote or an error, and its two lookup tables. The HTTP
    exchange itself is a parameter: `fetch` maps the request body to what the
    network produced (a thrown error, or a response with its parsed JSON). */
module Stargate {
  import opened Outcomes
  import Chains

  /** A quote as the API returns it. `nativeFee` may be absent from the JSON. */
  datatype BridgeQuote = BridgeQuote(
    amountLD: string,
    eqFee: string,
    eqReward: string,
    lpFee: string,
    protocolFee: string,
    lzTokenFee: string,
    nativeFee: Option<string>,
    minAmountLD: string)

  /** What the form asks to bridge; `amount` is the decimal string typed in. */
  datatype BridgeParams = BridgeParams(
    fromChainId: int,
    toChainId: int,
    fromToken: string,
    toToken: string,
    amount: string,
    slippage: real)

  /** The JSON body posted to the quotes endpoint. */
  datatype QuoteRequest = QuoteRequest(
    srcChainId: int,
    dstChainId: int,
    srcTokenSymbol: string,
    dstTokenSymbol: string,
    amountLD: string,
    slippage: real)

  /** An HTTP response: its `ok` flag, its status text, and what `response.json()` yields. */
  datatype HttpResponse<T> = HttpResponse(ok: bool, statusText: string, json: Outcome<T>)

  const QuoteErrorPrefix := "Failed to fetch quote: "
  const RoutesErrorPrefix := "Failed to fetch routes: "

  /** The request body is the parameters renamed field by field. */
  function QuoteRequestBody(p: BridgeParams): (body: QuoteRequest)
    ensures body.srcChainId == p.fromChainId && body.dstChainId == p.toChainId
    ensures body.srcTokenSymbol == p.fromToken && body.dstTokenSymbol == p.toToken
    ensures body.amountLD == p.amount && body.slippage == p.slippage
  {
    QuoteRequest(p.fromChainId, p.toChainId, p.fromToken, p.toToken, p.amount, p.slippage)
  }

  /** Reading the body back as parameters: the inverse of `QuoteRequestBody`. */
  function ParamsOfRequest(body: QuoteRequest): BridgeParams {
    BridgeParams(body.srcChainId, body.dstChainId, body.srcTokenSymbol, body.dstTokenSymbol,
                 body.amountLD, body.slippage)
  }

  /** No parameter is lost in the request body, and every body comes from some parameters. */
  lemma QuoteRequestBodyRoundTrip(p: BridgeParams, body: QuoteRequest)
    ensures ParamsOfRequest(QuoteRequestBody(p)) == p
    ensures QuoteRequestBody(ParamsOfRequest(body)) == body
  {
  }

  /** The shared non-ok rule: a failed fetch propagates, a non-ok response
      throws `prefix + statusText`, an ok response yields its parsed JSON. */
  function ResponseOutcome<T>(response: Outcome<HttpResponse<T>>, prefix: string): (r: Outcome<T>)
    ensures r.Returned? <==> response.Returned? && response.value.ok && response.value.json.Returned?
    ensures response.Threw? ==> r == Threw(response.exception)
    ensures response.Returned? && !response.value.ok ==>
              r == Threw(ErrorInstance(prefix + response.value.statusText))
    ensures response.Returned? && response.value.ok ==> r == response.value.json
  {
    match response
    case Threw(e) => Threw(e)
    case Returned(resp) =>
      if !resp.ok then Threw(ErrorInstance(prefix + resp.statusText)) else resp.json
  }

  /** `StargateService.getQuote`: post the request body, then apply the non-ok rule. */
  function GetQuote(p: BridgeParams, fetch: QuoteRequest -> Outcome<HttpResponse<BridgeQuote>>)
    : (r: Outcome<BridgeQuote>)
    ensures var response := fetch(QuoteRequestBody(p));
      && (r.Returned? <==> response.Returned? && response.value.ok && response.value.json.Returned?)
      && (response.Returned? && !response.value.ok ==>
            r == Threw(ErrorInstance(QuoteErrorPrefix + response.value.statusText)))
      && (response.Threw? ==> r == Threw(response.exception))
      && (response.Returned? && response.value.ok ==> r == response.value.json)
  {
    ResponseOutcome(fetch(QuoteRequestBody(p)), QuoteErrorPrefix)
  }

  /** `StargateService.getAllRoutes`: the routes JSON is untyped, hence generic. */
  function GetAllRoutes<T>(response: Outcome<HttpResponse<T>>): (r: Outcome<T>)
    ensures r.Returned? <==> response.Returned? && response.value.ok && response.value.json.Returned?
    ensures response.Returned? && !response.value.ok ==>
              r == Threw(ErrorInstance(RoutesErrorPrefix + response.value.statusText))
    ensures response.Threw? ==> r == Threw(response.exception)
    ensures response.Returned? && response.value.ok ==> r == response.value.json
  {
    ResponseOutcome(response, RoutesErrorPrefix)
  }

  /** The status text can be read back from a non-ok error message. */
  function StatusTextOf(message: string, prefix: string): string
    requires |prefix| <= |message|
  {
    message[|prefix|..]
  }

  /** A quote error and a routes error are never the same message, and
      either one gives back the status text it was built from. */
  lemma NonOkMessagesAreDistinct(quoteStatus: string, routesStatus: string)
    ensures QuoteErrorPrefix + quoteStatus != RoutesErrorPrefix + routesStatus
    ensures StatusTextOf(QuoteErrorPrefix + quoteStatus, QuoteErrorPrefix) == quoteStatus
    ensures StatusTextOf(RoutesErrorPrefix + routesStatus, RoutesErrorPrefix) == routesStatus
  {
    assert (QuoteErrorPrefix + quoteStatus)[16] == 'q';
    assert (RoutesErrorPrefix + routesStatus)[16] == 'r';
  }

  /** `STARGATE_CHAIN_IDS`: EVM chain id to Stargate chain id. */
  const StargateChainIds: map<int, int> := map[
    1 := 101,
    40 := 158,
    8453 := 184,
    56 := 102,
    42161 := 110,
    137 := 109,
    43114 := 106,
    10 := 111]

  /** `STARGATE_TOKENS`: chain id to token symbol to pool token address. */
  const StargateTokens: map<int, map<string, string>> := map[
    1 := map[
      "USDC" := "0xA0b86a33E6441f8FB2F96C37b6bf4E4c81D17b2B",
      "USDT" := "0xdAC17F958D2ee523a2206206994597C13D831ec7",
      "ETH" := "0x0000000000000000000000000000000000000000"],
    40 := map[
      "USDC" := "0x6Bd193Ee6D2104F14F94E2cA6efefae561A4334B",
      "USDT" := "0x975Ed13fa16857E83e7C493C7741D556eaaD4A3f",
      "ETH" := "0xa9F9088040B0140d9a6b157E05E0F1e78A33446e",
      "wBTC" := "0xf390830df829cf22c53c8840554b98eafC5dCBc2"]]

  /** The chain-id table covers exactly the supported chains. */
  lemma ChainIdTableCoversSupportedChains()
    ensures StargateChainIds.Keys == Chains.SupportedChainIds()
  {
    Chains.SupportedChainIdsAre();
  }

  /** No two chains share a Stargate chain id. */
  lemma ChainIdTableIsInjective()
    ensures forall a, b :: a in StargateChainIds && b in StargateChainIds && a != b ==>
                             StargateChainIds[a] != StargateChainIds[b]
  {
  }

  /** Every address the token table lists is the supported token's address on that chain. */
  lemma TokenTableAgreesWithSupportedTokens()
    ensures StargateTokens.Keys == {1, 40}
    ensures forall chainId, symbol :: chainId in StargateTokens && symbol in StargateTokens[chainId] ==>
              Chains.TokenAddress(chainId, symbol) == Some(StargateTokens[chainId][symbol])
  {
    Chains.SupportedSymbolIndices();
    forall chainId, symbol | chainId in StargateTokens && symbol in StargateTokens[chainId]
      ensures Chains.TokenAddress(chainId, symbol) == Some(StargateTokens[chainId][symbol])
    {
      assert symbol in {"USDC", "USDT", "ETH", "wBTC"};
    }
  }

  /** The token table is partial: wBTC is supported on Ethereum but has no entry there. */
  lemma TokenTableIsPartial()
    ensures Chains.TokenAddress(1, "wBTC").Some?
    ensures 1 in StargateTokens && "wBTC" !in StargateTokens[1]
  {
    Chains.SupportedSymbolIndices();
  }
}
