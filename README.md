# Telos bridge client — Dafny model

This project models the logic of a browser client that bridges tokens between
EVM chains through the Stargate protocol: the bridge hook that keeps the
quoting/bridging state and builds the Stargate V2 `send` call, the bridge form
that drives it, and the Stargate HTTP client with its lookup tables.

| file | module | models |
|---|---|---|
| outcomes.dfy | `Outcomes` | `T \| null`, thrown values (`Error` instance or not), returned-or-thrown outcomes, the catch blocks' message rule |
| js_strings.dfy | `JsStrings` | `String.prototype.slice` (negative indices, clamping) and `padStart` with a one-character pad |
| chains.dfy | `Chains` | the constant `supportedChains` / `supportedTokens` lists |
| stargate.dfy | `Stargate` | the quote request body, the non-ok response rule of `getQuote` / `getAllRoutes`, `STARGATE_CHAIN_IDS`, `STARGATE_TOKENS` |
| stargate_bridge.dfy | `StargateBridge` | the `send` call arguments and the hook's state as class `BridgeHook` |
| bridge_form.dfy | `Form` | the form's state as class `BridgeForm` and its display decisions |

Everything the client does not compute itself is a parameter:

- the HTTP exchange is `fetch: QuoteRequest -> Outcome<HttpResponse<BridgeQuote>>`;
- `parseUnits(amount, 18)` and `BigInt(fee)` are `string -> Outcome<int>`;
- the wallet's `writeContract` is `SendCall -> Outcome<string>`;
- the account is an `Account(isConnected, address)` value;
- `parseFloat(value) > 0` is a boolean and the protocol-fee text is a `string -> string`.

A thrown JavaScript value is `Threw(ErrorInstance(message))` or `Threw(OtherThrown)`.
Each `setState` update of the hook is a method of `BridgeHook`. `getQuote` and
`executeBridge` each make two updates, so the state between them (a quote or a
bridge in flight) is the post-state of `StartQuoting` or `StartBridging`.

The model follows the code where the code is narrower than its comments suggest:

- the `send` call's minimum is always `amountLD * 995 / 1000` and ignores `params.slippage`;
- `dstEid` is the raw EVM chain id `params.toChainId`, not a value from `STARGATE_CHAIN_IDS`;
- `STARGATE_CHAIN_IDS` and `STARGATE_TOKENS` are never read by the code, so they are modelled only as tables with consistency lemmas against `src/lib/chains.ts`;
- `BridgeQuote.nativeFee` is declared as a string, but the hook tests whether it is truthy, so the model allows it to be absent (`Option<string>`);
- `amountLD` is an integer, not a natural number: `parseUnits` of a negative decimal is negative, and BigInt division then truncates toward zero.

## Model

| member | source | states |
|---|---|---|
| Outcomes.MessageOf | src/hooks/useStargateBridge.ts:68-70 | the recorded message is the `Error`'s own message, and the fallback text for any other thrown value |
| JsStrings.PadStart | src/hooks/useStargateBridge.ts:87 | the padded string is at least `n` long, ends with the original, and everything before it is the pad character |
| JsStrings.Slice | src/components/BridgeForm.tsx:168 | `slice(start, end)` is the substring between the two positions when they are in range; an end past the length stops at the end, a negative start counts from the end, and a start at or past the length or not before the end gives the empty string; the result is always a contiguous part of the string |
| JsStrings.SliceFrom | src/components/BridgeForm.tsx:168 | `slice(start)` is a suffix of the string; a start within range drops that many characters or keeps that many from the end, a start past the end gives the empty string, and one before the beginning gives the whole string |
| Chains.IndexOfSymbol | src/lib/chains.ts:81-121 | the index found holds the symbol and is the first such; no index means the symbol is absent |
| Chains.TokenAddress | src/lib/chains.ts:81-121 | an address is found exactly when the first token with that symbol lists the chain, and it is that token's address on the chain |
| Chains.SupportedChainIdsAre | src/lib/chains.ts:30-79 | the supported chain ids are exactly 1, 40, 8453, 56, 42161, 137, 43114 and 10 |
| Chains.SupportedSymbolIndices | src/lib/chains.ts:81-121 | USDC, USDT, ETH and wBTC sit at positions 0 to 3 of the token list |
| Stargate.QuoteRequestBody | src/lib/stargate.ts:30-37 | each request field carries its parameter: source and destination chain, both token symbols, amount, slippage |
| Stargate.QuoteRequestBodyRoundTrip | src/lib/stargate.ts:30-37 | the request body loses no parameter and every body comes from some parameters |
| Stargate.ResponseOutcome | src/lib/stargate.ts:40-44 | the result is a value exactly for an ok response whose JSON parses; a non-ok response throws the prefix plus the status text; a network failure propagates |
| Stargate.GetQuote | src/lib/stargate.ts:24-45 | a quote is returned exactly when the response to this request body is ok and parses, and it is the parsed JSON; non-ok throws "Failed to fetch quote: " plus the status text; a network or JSON failure propagates unchanged |
| Stargate.GetAllRoutes | src/lib/stargate.ts:47-55 | routes are returned exactly when the response is ok and parses, and they are the parsed JSON; non-ok throws "Failed to fetch routes: " plus the status text; a network or JSON failure propagates unchanged |
| Stargate.NonOkMessagesAreDistinct | src/lib/stargate.ts:40-52 | a quote error never equals a routes error, and the status text can be read back from either |
| Stargate.ChainIdTableCoversSupportedChains | src/lib/stargate.ts:71-80 | the chain-id table has an entry for every supported chain and for no other chain |
| Stargate.ChainIdTableIsInjective | src/lib/stargate.ts:71-80 | no two chains map to the same Stargate chain id |
| Stargate.TokenTableAgreesWithSupportedTokens | src/lib/stargate.ts:83-96 | the token table covers chains 1 and 40 only, and every address it lists is the supported token's address on that chain |
| Stargate.TokenTableIsPartial | src/lib/stargate.ts:83-96 | wBTC has an Ethereum address among the supported tokens but no Ethereum entry in the token table |
| StargateBridge.ToBytes32 | src/hooks/useStargateBridge.ts:87 | the word starts with "0x", is 64 digits long unless the address is longer, ends with the address after its first two characters, and is '0' in between |
| StargateBridge.Bytes32RoundTrip | src/hooks/useStargateBridge.ts:87 | a 42-character address gives a 66-character word of 24 zero digits and the 40-digit body, from which the address reads back unchanged |
| StargateBridge.TruncDiv | src/hooks/useStargateBridge.ts:89 | the quotient is the floor for a non-negative dividend and is rounded toward zero for a negative one |
| StargateBridge.MinAmountLD | src/hooks/useStargateBridge.ts:89 | for a non-negative amount the minimum lies between 0 and the amount and is the floor of 99.5% of it; a negative amount rounds toward zero |
| StargateBridge.NativeFee | src/hooks/useStargateBridge.ts:90 | an absent or empty native fee is 0; otherwise the fee is what `BigInt` makes of the string |
| StargateBridge.WalletReady | src/hooks/useStargateBridge.ts:76 | the bridge proceeds only for a connected account with an address that is present and non-empty; a disconnected account, a missing address and an empty address are each refused |
| StargateBridge.PrepareSend | src/hooks/useStargateBridge.ts:86-113 | the call fails exactly when `parseUnits` or the fee conversion throws, re-raising that exception (`parseUnits` first); otherwise it targets the router's `send`, sends to the padded sender with the parsed amount and its 99.5% minimum, pays the same native fee as `_fee.nativeFee` and as the call value, has no LayerZero token fee, refunds the sender, and uses the raw destination chain id |
| StargateBridge.PrepareSendIgnoresSlippage | src/hooks/useStargateBridge.ts:89 | changing the requested slippage does not change the call |
| StargateBridge.BridgeTransaction | src/hooks/useStargateBridge.ts:82-116 | a failed fresh quote, a failed call construction or the wallet's failure is re-raised as is; a call built from the fresh quote is answered with whatever the wallet returns for it, and a hash is returned only that way |
| StargateBridge.BridgeHook.constructor | src/hooks/useStargateBridge.ts:53-59 | the hook starts neither quoting nor bridging, with no quote, error or hash |
| StargateBridge.BridgeHook.Reset | src/hooks/useStargateBridge.ts:124-132 | from any state, reset gives the initial state |
| StargateBridge.BridgeHook.StartQuoting | src/hooks/useStargateBridge.ts:62 | quoting is on and the error cleared; bridging flag, quote and hash are kept |
| StargateBridge.BridgeHook.FinishQuoting | src/hooks/useStargateBridge.ts:66-70 | quoting is off; a quote replaces the old one, a failure keeps the old quote and records the message or "Failed to get quote"; bridging flag and hash are kept |
| StargateBridge.BridgeHook.GetQuote | src/hooks/useStargateBridge.ts:61-73 | returns or re-raises the service's outcome; afterwards quoting is off, bridging flag and hash are kept, and either the new quote is stored with no error or the old quote is kept with the failure message |
| StargateBridge.BridgeHook.StartBridging | src/hooks/useStargateBridge.ts:80 | bridging is on and the error cleared; quoting flag, quote and hash are kept |
| StargateBridge.BridgeHook.FinishBridging | src/hooks/useStargateBridge.ts:115-119 | bridging is off; a hash is stored, or the failure message or "Bridge transaction failed" is recorded and the old hash kept; the quote is kept |
| StargateBridge.BridgeHook.ExecuteBridge | src/hooks/useStargateBridge.ts:75-122 | without a connected account and a non-empty address it throws "Wallet not connected" and changes nothing; otherwise it returns or re-raises the transaction's outcome with the hash or the message recorded; the quote never changes |
| Form.FormParams | src/components/BridgeForm.tsx:41-48 | the request goes between the selected chains, with the selected token's symbol on both sides, the typed amount and 0.5% slippage |
| Form.RequestsQuote | src/components/BridgeForm.tsx:39 | an amount change requests a quote exactly for a non-empty amount that parses positive; the empty amount and a non-positive amount never do |
| Form.ButtonDisabled | src/components/BridgeForm.tsx:181 | the button is disabled exactly when there is no amount or a quote or bridge is running |
| Form.ButtonLabel | src/components/BridgeForm.tsx:184 | "Bridging..." takes priority over "Getting quote...", which takes priority over "Bridge" for a set amount and "Enter amount" otherwise |
| Form.EnabledIffReadyLabel | src/components/BridgeForm.tsx:181-184 | the button can be pressed exactly when it reads "Bridge" |
| Form.AbbreviatedAddress | src/components/BridgeForm.tsx:168 | the address is shown as its first six characters, "...", and its last four; an absent address shows only "..." |
| Form.AbbreviationOfLongAddress | src/components/BridgeForm.tsx:168 | for an address of at least 6 characters the text is 13 characters long: the first 6, three dots, the last 4 (the two parts overlap below 10 characters) |
| Form.ShowQuotePanel | src/components/BridgeForm.tsx:199 | the quote panel is shown exactly when there is both a quote and an amount |
| Form.ShowGasEstimate | src/components/BridgeForm.tsx:207 | the gas line is shown for a quote with a non-empty native fee, and hidden when the fee is absent or empty |
| Form.GasLineMatchesFeeSource | src/components/BridgeForm.tsx:207 | for one quote, the gas line is shown exactly when the bridge's native fee for that quote is taken from `BigInt` of its fee string; when the line is hidden, that fee is 0 |
| Form.ProtocolFeeText | src/components/BridgeForm.tsx:78 | the protocol fee reads '0' for an empty amount and is the fee computation otherwise |
| Form.InitialSelection | src/components/BridgeForm.tsx:14-16 | the form starts from Ethereum to Telos with the wBTC token |
| Form.BridgeForm.constructor | src/components/BridgeForm.tsx:14-27 | the first two supported chains, the fourth token, an empty amount and a fresh hook in its initial state |
| Form.BridgeForm.SwapChains | src/components/BridgeForm.tsx:29-33 | source and destination chains are exchanged; token and amount are kept |
| Form.SwapTwiceRestores | src/components/BridgeForm.tsx:29-33 | swapping twice restores the original pair of chains |
| Form.BridgeForm.HandleAmountChange | src/components/BridgeForm.tsx:35-53 | the amount is stored and the hook reset; only a non-empty positive amount requests a quote for the current selection, whose result or error is then recorded; the quote panel shows afterwards exactly when that request succeeded |
| Form.BridgeForm.HandleBridge | src/components/BridgeForm.tsx:55-70 | with no amount or no usable wallet nothing changes; otherwise the hook bridges the current selection and records the hash or the error; the quote is kept |

## Left out

- HTTP, the wallet and the contract call are not modelled: `fetch`, `response.json()`, `writeContract` and the wallet hooks (`useAccount`, `useConnect`, `useDisconnect`) are inputs of the model. The quotes and routes URLs are not modelled.
- `parseUnits`, `BigInt` string parsing and the ABI encoding of the `send` call are library behaviour and are parameters or left out. A negative amount or fee would be rejected by the uint256 encoding inside `writeContract`, which is part of that parameter.
- StargateBridge.BridgeHook.ExecuteBridge: the hash is whatever the `write` parameter returns. The wallet library's `writeContract` (as opposed to `writeContractAsync`) may not return a hash at all; that library behaviour is not modelled.
- Form.GasLineMatchesFeeSource: relates the gas line and the native fee of the same quote value. `executeBridge` fetches a fresh quote, which may differ from the displayed one, and the displayed figure is formatted with floating point.
- `calculateProtocolFee`, `formatAmount`, `parseFloat(value) > 0` and `toFixed(4)` use floating point. Positivity is a boolean input and the fee text is a function parameter.
- React scheduling is not modelled: overlapping quote requests, interleaving of the two updates of one call with another call, stale closures and re-rendering. Each method runs to completion.
- Form.BridgeForm.HandleAmountChange and Form.BridgeForm.HandleBridge: the `console.error` logging of a swallowed failure is output only and is not modelled.
- `handleConnect`, the disconnect button, the token and chain selectors' markup, the balance text, the header, the page layout, the theme and the wallet configuration are presentation or configuration. Chain and token logos are dropped from `Chain` and `Token`.
