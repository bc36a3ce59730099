/** The constant chain and token lists the form offers. */
module Chains {
  import opened Outcomes

  /** A selectable chain (its logo, which is presentation only, is left out). */
  datatype Chain = Chain(id: int, name: string, symbol: string)

  /** A selectable token and its contract address per chain id. */
  datatype Token = Token(symbol: string, name: string, addresses: map<int, string>)

  const SupportedChains: seq<Chain> := [
    Chain(1, "Ethereum", "ETH"),
    Chain(40, "Telos", "TLOS"),
    Chain(8453, "Base", "ETH"),
    Chain(56, "BNB Chain", "BNB"),
    Chain(42161, "Arbitrum", "ETH"),
    Chain(137, "Polygon", "MATIC"),
    Chain(43114, "Avalanche", "AVAX"),
    Chain(10, "Optimism", "ETH")
  ]

  const SupportedTokens: seq<Token> := [
    Token("USDC", "USD Coin", map[
      1 := "0xA0b86a33E6441f8FB2F96C37b6bf4E4c81D17b2B",
      40 := "0x6Bd193Ee6D2104F14F94E2cA6efefae561A4334B"]),
    Token("USDT", "Tether USD", map[
      1 := "0xdAC17F958D2ee523a2206206994597C13D831ec7",
      40 := "0x975Ed13fa16857E83e7C493C7741D556eaaD4A3f"]),
    Token("ETH", "Ethereum", map[
      1 := "0x0000000000000000000000000000000000000000",
      40 := "0xa9F9088040B0140d9a6b157E05E0F1e78A33446e"]),
    Token("wBTC", "Wrapped Bitcoin", map[
      1 := "0x2260FAC5E5542a773Aa44fBCfeDf7C193bc2C599",
      40 := "0xf390830df829cf22c53c8840554b98eafC5dCBc2"])
  ]

  /** The ids of all supported chains. */
  function SupportedChainIds(): set<int> {
    set i | 0 <= i < |SupportedChains| :: SupportedChains[i].id
  }

  /** Position of the first token in `tokens` with the given symbol. */
  function IndexOfSymbol(tokens: seq<Token>, symbol: string): (r: Option<nat>)
    ensures r.Some? ==> r.value < |tokens| && tokens[r.value].symbol == symbol
    ensures r.Some? ==> forall j :: 0 <= j < r.value ==> tokens[j].symbol != symbol
    ensures r.None? ==> forall j :: 0 <= j < |tokens| ==> tokens[j].symbol != symbol
  {
    if tokens == [] then None
    else if tokens[0].symbol == symbol then Some(0)
    else match IndexOfSymbol(tokens[1..], symbol)
      case None => None
      case Some(i) => Some(i + 1)
  }

  /** The address of the supported token `symbol` on chain `chainId`, if listed. */
  function TokenAddress(chainId: int, symbol: string): (r: Option<string>)
    ensures r.Some? <==> exists i :: 0 <= i < |SupportedTokens| && SupportedTokens[i].symbol == symbol
                                     && chainId in SupportedTokens[i].addresses
                                     && (forall j :: 0 <= j < i ==> SupportedTokens[j].symbol != symbol)
    ensures r.Some? ==> exists i :: 0 <= i < |SupportedTokens| && SupportedTokens[i].symbol == symbol
                                    && (forall j :: 0 <= j < i ==> SupportedTokens[j].symbol != symbol)
                                    && chainId in SupportedTokens[i].addresses
                                    && r.value == SupportedTokens[i].addresses[chainId]
  {
    match IndexOfSymbol(SupportedTokens, symbol)
    case None => None
    case Some(i) =>
      var addresses := SupportedTokens[i].addresses;
      if chainId in addresses then Some(addresses[chainId]) else None
  }

  /** The supported chain ids, written out. */
  lemma SupportedChainIdsAre()
    ensures SupportedChainIds() == {1, 40, 8453, 56, 42161, 137, 43114, 10}
  {
    var listed := {1, 40, 8453, 56, 42161, 137, 43114, 10};
    forall id | id in SupportedChainIds() ensures id in listed {
      var i :| 0 <= i < |SupportedChains| && SupportedChains[i].id == id;
      assert i in {0, 1, 2, 3, 4, 5, 6, 7};
    }
    forall id | id in listed ensures id in SupportedChainIds() {
      var i := if id == 1 then 0 else if id == 40 then 1 else if id == 8453 then 2
               else if id == 56 then 3 else if id == 42161 then 4 else if id == 137 then 5
               else if id == 43114 then 6 else 7;
      assert SupportedChains[i].id == id;
    }
  }

  /** Where each supported symbol sits in the token list. */
  lemma SupportedSymbolIndices()
    ensures IndexOfSymbol(SupportedTokens, "USDC") == Some(0)
    ensures IndexOfSymbol(SupportedTokens, "USDT") == Some(1)
    ensures IndexOfSymbol(SupportedTokens, "ETH") == Some(2)
    ensures IndexOfSymbol(SupportedTokens, "wBTC") == Some(3)
  {
  }
}
