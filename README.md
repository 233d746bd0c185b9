# A verified model of the exchange wallet's core

This project models, in Dafny, the core of a custodial crypto wallet web application
built with Next.js, React and the Turnkey signing service. A signed-in user sees the
wallets and accounts Turnkey holds for them. For each account the app shows balances and
prices, and the transaction history (Ethereum, Bitcoin and Solana). The user can send
coins and ERC-20 tokens, and swap between chains through a quote aggregator (THORChain,
Maya, 1inch and NEAR). The flow is: a preview quote, an ERC-20 allowance check and
approval, a live quote, then the Bitcoin, Solana or EVM swap transaction. Businesses go
through KYB (know-your-business) verification at Sumsub, with signed API requests, a
status route, a shared store, a modal and a status card.

## How the model is built

Each source file of the core has its own module. Modules shared by several files:

- `Wrappers`: `Option`, `Result`, and `Async` (an awaited call that returned or threw).
- `Text`: strings, ASCII case mapping, number rendering, hex encoding of bytes.
- `Base64`: the browser's `atob` (forgiving base64 decoding) and the padded encoding it
  inverts.
- `Decimal`: `Number(s)` and ethers' `parseUnits`.
- `Sorting`: a stable sort by key, standing for `Array.prototype.sort` and `localeCompare`.
- `Seqs`: filtering, and insertion-ordered `Map`s and `Set`s as sequences.
- `Evm`: the transaction requests handed to ethers.

The model takes the source's own form:

- **Pure code** (tables, formatters, validators, the quote reduce, the PSBT plan, the
  route handlers' computations) becomes datatypes, functions and lemmas.
- **Loops** become methods with invariants, proved against a specification function:
  - the PSBT builder and the token catalog merge;
  - the chain grouping of the asset picker and the asset set of the history panel;
  - the de-duplication of the history route and its Bitcoin accumulators;
  - the `undefined`-stripping loop of the Sumsub company request;
  - the seen-set loop of the main view.
- **State React keeps in `useState`** becomes a `class` whose methods are the handlers and
  effects, with `modifies` clauses. This covers both swap dialogs, the two send dialogs,
  the history panel, the KYB modal and the KYB status card. The swap dialogs keep their
  cells in two record fields, the form and the session, and each `setX` call is one
  update of one of them.
- **Module-level mutable objects** become classes: the Sumsub request `config` shared by
  every request builder (`Sumsub.Config`) and the business verification store
  (`KybStore.BusinessVerificationStore`).
- **External calls become parameters of type `Async<T>`**: RPC nonce and fee reads,
  Turnkey signing, receipt waits, the quote and token APIs, Alchemy, blockchain.info,
  CoinGecko and Sumsub. A method then describes the handler run to completion with
  those outcomes.

The `Token` class and token types of `app/api/types.ts` (lines 18-58) repeat those of
`app/types.ts` and are modelled once, in `AppTypes`. The `Chain` enum and the
`BalanceAsset` record that `app/api/types.ts` is imported for (`asset-send.tsx`, the
balances route, the transactions route) are not in that file as shown. `ApiTypes`
models them from their uses.

## Model

| member | source | states |
|---|---|---|
| Base64.Base64Decode | components/swap/swap.tsx:334 | `atob` fails exactly when, once whitespace and one or two trailing `=` on a multiple-of-four length are removed, the length is one more than a multiple of four or a character lies outside the base64 alphabet |
| Base64.Base64RoundTrip | components/swap/swap.tsx:334 | `atob` gives back exactly the bytes of any padded base64 encoding |
| Base64.ForeignCharacterRefused | components/swap/swap.tsx:334 | a character that is not whitespace, `=` or in the alphabet makes `atob` fail wherever it stands |
| Chains.AddressFormat | lib/chains.ts:1-16 | a chain has an address format exactly when it is listed; the format is never empty; every EVM chain uses the Ethereum format |
| Chains.RpcUrl | lib/chains.ts:18-28 | a chain has an RPC endpoint exactly when it is one of the six EVM chains or SOL |
| Chains.Explorer | lib/chains.ts:30-42 | EVM chains, BTC and SOL use their own explorer; a chain outside the table falls back to Etherscan |
| Chains.ExplorerTxUrl | lib/chains.ts:41-44 | the link is the explorer followed by `/tx/`, and ends with exactly the hash |
| Chains.ExplorerTxUrlInjective | lib/chains.ts:41-44 | distinct hashes on one chain give distinct links |
| Chains.ChainTablesConsistent | lib/chains.ts:1-39 | every EVM chain has the Ethereum format, an RPC endpoint and an explorer; BTC accounts are P2WPKH mainnet |
| Api.FindAccount | components/swap/swap.tsx:65 | the account found has the format and belongs to the wallet; none is found exactly when no account has the format |
| Api.FindAccountFirst | components/swap/swap.tsx:65 | the account found is the first of the wallet's accounts with the format |
| Api.FirstAccountWithFormat | components/swap/swap.tsx:64-68 | the result has the format and belongs to one of the wallets; none exactly when no wallet holds such an account |
| Api.FirstAccountWithFormatFirst | components/swap/swap.tsx:64-68 | the result is what `find` returns in the first wallet that has an account with the format; no earlier wallet has one |
| Api.ResolveAccountForChain | components/swap/swap.tsx:59-71 | an account is found exactly when the chain has a format and some wallet has an account of that format; the account found has the chain's format |
| Api.ResolveAccountForChainFirst | components/swap/swap.tsx:59-71 | the account resolved is the first with the chain's format in the first wallet that holds one |
| Api.ResolveAddressForChain | components/swap/swap.tsx:73-76 | an address exactly when an account resolves, and it is that account's address |
| AppTypes.NewToken | app/types.ts:25-39 | the token keeps its code, name, decimals, blockchain and token type |
| AppTypes.IdSeparator | app/types.ts:37 | the first colon of a token id is the one after the blockchain name |
| AppTypes.TokenIdRoundTrip | app/types.ts:37-61 | parsing a token id gives back its blockchain and token type |
| AppTypes.TokenIdInjective | app/types.ts:37-61 | two tokens with the same id have the same blockchain and token type |
| AppTypes.ChainIdOfToken | app/types.ts:6-9 | the chain id is 1 exactly for Ethereum tokens and 56 exactly for BSC tokens |
| AppTokens.SupportedTokensOutcome | app/tokens.ts:3-25 | Ethereum accounts get USDT then USDC, with distinct ids, both six-decimal EIP-20 tokens on chain 1 at their contract addresses; other formats get none |
| AppTokens.NativeTokenOutcome | app/tokens.ts:27-39 | only Ethereum accounts have a native token: ETH with 18 decimals and id `Ethereum:Native` |
| AppTokens.NativeNotSupported | app/tokens.ts:3-39 | the native token's id differs from the id of every supported token |
| Decimal.JsNumber | components/asset/asset-send.tsx:103-105 | the empty string is 0; any literal read is rebuilt exactly from its sign, whole digits, optional point and fraction digits, with at least one digit, and is negative exactly when it starts with `-` |
| Decimal.JsNumberReadsLiteral | components/asset/asset-send.tsx:103-105 | every literal with an optional sign and digits around at most one point, not all empty, is read as exactly those parts |
| Decimal.NumberGreaterIrreflexive | hooks/use-quote.ts:79 | no amount is greater than itself |
| Decimal.NumberGreaterTransitive | hooks/use-quote.ts:79 | `Number(a) > Number(b) > Number(c)` implies `Number(a) > Number(c)` |
| Decimal.NumberGreaterTotal | hooks/use-quote.ts:79 | two numeric literals are comparable: one is greater or their values are equal |
| Decimal.Units | lib/erc20.ts:55 | `parseUnits` is defined only on its literal grammar: an optional `-`, digits with at most one point, at least one digit |
| Decimal.UnitsLiteral | lib/erc20.ts:55 | a literal `parseUnits` accepts has at least one digit |
| Decimal.Scale | lib/erc20.ts:55 | the scaling succeeds exactly when every fraction digit past `decimals` is zero, so always within the precision |
| Decimal.ScaleExact | lib/erc20.ts:55 | within the precision, the result is exactly the literal's digits as one integer times 10 to the missing places, with the literal's sign |
| Decimal.ScalePositive | lib/erc20.ts:55 | a positive literal scales to a positive number of units, whichever zero digits are dropped |
| Decimal.UnitsLiteralAgrees | components/asset/asset-send.tsx:103-119 | `Number` and `parseUnits` read an unsigned-or-minus, non-empty literal the same way |
| Decimal.UnitsRefusesPlus | components/asset/asset-send.tsx:103-119 | a `+`-signed literal is a number for `Number` but not for `parseUnits` |
| Decimal.UnitsPositive | components/asset/asset-send.tsx:105-119 | an amount with `Number(s) > 0` that `parseUnits` accepts is a positive number of minor units |
| Decimal.UnitsDefined | components/asset/asset-send.tsx:109-119 | a number within the precision always converts with `parseUnits` |
| Evm.WeiField | lib/erc20.ts:74 | a gas price the node reports becomes the transaction field; a missing one stays missing |
| Evm.WithFeeModel | lib/erc20.ts:67-76 | type 2 with both EIP-1559 fields when the node reports both non-zero; otherwise type 0 with the given gas price; no other field changes |
| Evm.Base | lib/erc20.ts:58-65 | the request carries exactly the given recipient, data, value, chain id, nonce and gas limit, with no fee fields |
| Evm.FeeModelExclusive | lib/erc20.ts:67-76 | a type-2 transaction never carries a gas price and a type-0 one never carries EIP-1559 fields |
| Erc20.ApprovalTransaction | lib/erc20.ts:41-81 | an `approve(spender, parseUnits(amount, decimals))` call on the token contract, value 0, gas limit 100000, with the fee model; in the model it fails exactly when `parseUnits` throws, with that error |
| Erc20.CreateApprovalTransaction | lib/erc20.ts:41-81 | the method builds the base request and then sets the fee fields; the result is `ApprovalTransaction` |
| Bitcoin.Psbt.constructor | lib/bitcoin.ts:38 | a new PSBT has no inputs and no outputs |
| Bitcoin.Psbt.AddInput | lib/bitcoin.ts:63-70 | the input is appended and the outputs are unchanged |
| Bitcoin.Psbt.AddOutput | lib/bitcoin.ts:74-96 | the output is appended and the inputs are unchanged |
| Bitcoin.Fee | lib/bitcoin.ts:49-53 | the fee is 10 sat/vbyte times 148 bytes per input plus 192 bytes |
| Bitcoin.SwapPsbtOutcome | lib/bitcoin.ts:34-100 | the build fails exactly when inputs minus amount minus fee is negative. Otherwise: one input per UTXO, in order, with witness data exactly when a script is given; the amount goes to the inbound address; a zero-value memo output follows; change goes back only above the 546-sat dust threshold |
| Bitcoin.SwapPsbtConserves | lib/bitcoin.ts:44-96 | with a change output, outputs plus fee equal the inputs exactly; without one, at most 546 sats beyond the fee go to the miner |
| Bitcoin.CreateBtcSwapPsbt | lib/bitcoin.ts:34-100 | the loops that sum the UTXOs and add the inputs and outputs build exactly `SwapPsbt`, or throw "Insufficient funds for transaction and fees" exactly when it does |
| Quote.Providers | hooks/use-quote.ts:31 | without a provider list the four providers THORCHAIN, MAYACHAIN, ONEINCH and NEAR are used; otherwise the given list |
| Quote.QueryRequest | hooks/use-quote.ts:51-71 | a request is sent exactly when both assets and the amount are truthy and (dry mode or a destination); it carries the hook's assets, amount, destination, source address and slippage, no refund address, every provider, and the dry flag |
| Quote.EnabledQueryRequests | hooks/use-quote.ts:47-71 | whenever the query is enabled, running it calls the API |
| Quote.ProviderErrorMessage | hooks/use-quote.ts:73-76 | an error only when there are no routes and some provider failed; its text is the first error when that is a string, else "Quote error" |
| Quote.Amount | hooks/use-quote.ts:79 | a route's amount is a number exactly when `Number` reads its expected buy amount |
| Quote.AmountComparison | hooks/use-quote.ts:79 | comparing two route amounts is `Number(a) > Number(b)` on their expected buy amounts, false when either is `NaN` |
| Quote.BestIndexBy | hooks/use-quote.ts:78-81 | the index the reduce ends on is a valid index of a non-empty route list |
| Quote.BestRoute | hooks/use-quote.ts:78-81 | no route for an empty list; otherwise one of the routes |
| Quote.BestIsFirstMaximumBy | hooks/use-quote.ts:78-81 | no route has a greater amount than the chosen one, and every earlier route has a smaller amount or `NaN` |
| Quote.BestIsFirstMaximum | hooks/use-quote.ts:78-81 | no route's amount is greater than the chosen route's, and every route before it has a smaller amount or `NaN`: the first maximum among the numbers |
| Quote.NaNFirstRouteWins | hooks/use-quote.ts:78-81 | a first route whose amount is `NaN` is never replaced |
| Quote.NaNStays | hooks/use-quote.ts:78-81 | once the accumulator's amount is `NaN`, no later route replaces it |
| Quote.RunQuery | hooks/use-quote.ts:51-83 | skipped exactly without a request; a thrown call fails with its message; an answer fails with the provider error; data only from an answer without one, with its best route |
| Quote.RoutesWinOverProviderErrors | hooks/use-quote.ts:73-83 | a response with routes always yields data, even when some providers failed |
| Quote.ExposedQuote | hooks/use-quote.ts:90-96 | no quote while loading, refetching or in error; otherwise the best route of the last data |
| Simulation.AllowanceLookup | hooks/use-simulation.ts:43-55 | a lookup happens exactly with a quote, an ERC-20 sell token, an amount, a source address, an RPC endpoint and an approval address, and it asks the token contract about that owner and spender |
| Simulation.RunSimulation | hooks/use-simulation.ts:43-69 | no lookup means no approval; a thrown lookup fails with its message and an unparsable amount with the `parseUnits` error; approval data only comes with "approval needed" |
| Simulation.NeedsApprovalExactly | hooks/use-simulation.ts:55-68 | approval is needed exactly when the allowance is below the required amount; the approval data then names the spender, the token and that amount, and is `null` otherwise |
| Simulation.NativeTokenNeedsNoApproval | hooks/use-simulation.ts:44-46 | a native coin never needs an approval and never triggers a lookup |
| Simulation.EnabledLooksUpUnlessNoSpender | hooks/use-simulation.ts:32-55 | whenever the hook is enabled, the lookup is skipped only for a missing approval address |
| Simulation.Exposed | hooks/use-simulation.ts:75-78 | before any result the hook reports no approval and no data |
| SwapSession.Closed | components/swap/swap.tsx:142-151 | closing returns to the form with no confirm quote, no confirm-quote error, no hashes and no status; loading, refetches, requests and submissions stay |
| SwapSession.ClosedIdempotent | components/swap/swap.tsx:142-151 | closing twice is closing once, and a fresh session is already closed |
| SwapSession.FirstOther | components/swap/swap.tsx:120 | the result is the first token whose identifier differs from the given one |
| SwapSession.FirstOtherShift | components/swap/swap.tsx:120 | a token that comes first among the others in the tail is also first in the whole list when the head has the given identifier |
| SwapSession.DefaultToToken | components/swap/swap.tsx:118-122 | the default buy token is empty or the identifier of a listed token |
| SwapSession.DefaultToTokenChoice | components/swap/swap.tsx:118-122 | the default differs from the sell token whenever some token has another, non-empty identifier; when all tokens share the sell identifier the second one is chosen, which equals the sell token, and with fewer than two tokens the default is empty |
| SwapSession.SendApprovalOutcome | components/swap/swap.tsx:205-245 | an approval that never starts leaves the session unchanged or sets only "Wallet or RPC not configured"; a started one is at `approving` with no status; a hash is recorded with one more submission; quotes, requests, refetches and the confirm-quote error never change |
| SwapSession.ApprovalSendOutcome | components/swap/swap.tsx:217-244 | the send returns a hash exactly when every awaited call succeeded and the approval could be built; then exactly that transaction was submitted and its hash recorded |
| SwapSession.SwapTransaction | components/swap/swap.tsx:363-387 | the route's `to`, its value or 0, its data or `0x`, gas limit 300000; type 2 when the node reports both EIP-1559 fields, else type 0 with the route's gas price or the node's |
| SwapSession.FailSwap | components/swap/swap.tsx:402-405 | a failed swap is back at `confirm` with "Swap failed: " and the message; nothing else changes |
| SwapSession.EvmSwapOutcome | components/swap/swap.tsx:351-405 | without a signing account or RPC endpoint only the status changes; otherwise the swap ends at `success` with its hash and one submission, or failed at `confirm` |
| SwapSession.EvmSwapSends | components/swap/swap.tsx:362-399 | the transaction sent is the route's call under the fee model, its hash is kept, and the step is `success` exactly when the receipt wait succeeds, else `confirm` with the failure |
| Swap.FindToken | components/swap/swap.tsx:42-45 | the token found has the identifier, ignoring case; none exactly when no token has it |
| Swap.FindTokenFirst | components/swap/swap.tsx:42-45 | the token found is the first whose identifier matches, ignoring case |
| Swap.FindTokenIgnoresCase | components/swap/swap.tsx:42-45 | identifiers that differ only in case find the same token |
| Swap.SourceAddress | components/swap/swap.tsx:78 | an address only with a sell token, and then the wallet's address on that token's chain |
| Swap.ResolvedDestination | components/swap/swap.tsx:79 | an address only with a buy token, and then the wallet's address on that token's chain |
| Swap.Destination | components/swap/swap.tsx:80 | the wallet's own address on the buy chain, else the manual address, else none |
| Swap.ConfirmQuoteRequest | components/swap/swap.tsx:164-174 | the live request is not a dry run, asks only the preview quote's first provider, sends to the destination and sells the form's amount |
| Swap.ConfirmQuoteSettled | components/swap/swap.tsx:176-191 | routes give the best route and the `confirm` step; a thrown call shows its message; no routes show the provider error or "No valid routes found" and the step stays; loading, requests, submissions and the swap hash never change |
| Swap.FetchConfirmQuoteOutcome | components/swap/swap.tsx:157-195 | without both tokens, a destination and a preview quote nothing changes; otherwise loading ends and the confirm quote is taken exactly when the preview names providers and the answer has routes, even alongside provider errors; otherwise an error is recorded and the step and quote stay |
| Swap.ConfirmQuoteErrors | components/swap/swap.tsx:176-186 | with no routes the first provider error's text (or "Quote error") is shown; with neither routes nor errors, "No valid routes found" |
| Swap.FormApproveOutcome | components/swap/swap.tsx:247-258 | after a sent approval the simulation is refetched once and the form shown; a thrown error shows "Approval failed: …" and the form; an approval that never started leaves the step unchanged |
| Swap.BtcSwapOutcome | components/swap/swap.tsx:284-324 | the route's PSBT is signed exactly when a BTC account, a client and a string transaction are present; it ends at `success` with the broadcast txid or back at `confirm` with "Swap failed: …" |
| Swap.SolanaSwapOutcome | components/swap/swap.tsx:325-350 | with a SOL account and a string transaction, a payload `atob` rejects fails back at `confirm` with "Swap failed: …" and signs nothing; one it accepts is signed as the hex of its decoded bytes, and the path ends at `success` with the sent hash or at `confirm` with "Swap failed: …" |
| Swap.ExecuteSwapOutcome | components/swap/swap.tsx:281-409 | the swap never stops in `swapping`: either nothing was signed and the step is unchanged, or it succeeded with its hash and one submission, or it failed at `confirm`; the quotes and the approval hash never change |
| Swap.SolanaPayloadHex | components/swap/swap.tsx:334-342 | the Solana payload signed is lower-case hex, two digits per byte, and decoding it gives exactly the bytes `atob` decodes from the route's transaction |
| Swap.ConfirmSwapGate | components/swap/swap.tsx:260-269 | from `confirm`, an ERC-20 sell token that needs approval goes to `approve` and nothing is signed; otherwise the swap runs |
| Swap.ApprovalSubmitOutcome | components/swap/swap.tsx:271-279 | a thrown approval shows the approval step again with "Approval failed: …"; a sent one records its hash and continues into the swap, which succeeds with one more submission, fails at `confirm`, or leaves the step at `approving` when the swap returns early; an approval that never started changes nothing |
| Swap.SwapDialog.constructor | components/swap/swap.tsx:27-39 | the form starts empty with slippage "1", and the session starts at `form` with nothing recorded |
| Swap.SwapDialog.SetFromToken | components/swap/swap.tsx:153-155 | the sell token is set; a change clears the confirm-quote error |
| Swap.SwapDialog.SetToToken | components/swap/swap.tsx:153-155 | the buy token is set; a change clears the confirm-quote error |
| Swap.SwapDialog.SetAmount | components/swap/swap.tsx:153-155 | the amount is set; a change clears the confirm-quote error |
| Swap.SwapDialog.SetSlippage | components/swap/swap.tsx:434 | only the slippage changes |
| Swap.SwapDialog.SetManualDestination | components/swap/swap.tsx:437 | only the manual destination changes |
| Swap.SwapDialog.BackToForm | components/swap/swap.tsx:450-453 | back to the form without the confirm quote |
| Swap.SwapDialog.BackToConfirm | components/swap/swap.tsx:464 | back to the confirm step |
| Swap.SwapDialog.ApplySellAsset | components/swap/swap.tsx:51-57 | once tokens are loaded, the token matching the requested sell asset (ignoring case) is selected; otherwise nothing changes |
| Swap.SwapDialog.ApplyDefaultTokens | components/swap/swap.tsx:111-123 | with no sell token and no requested asset the first token is sold; with no buy token the default buy token is chosen; the amount, slippage and destination stay |
| Swap.SwapDialog.Close | components/swap/swap.tsx:142-151 | the session becomes `Closed` of the old one and the form stays |
| Swap.SwapDialog.FetchConfirmQuote | components/swap/swap.tsx:157-195 | the new session is the one `FetchConfirmQuoteOutcome` describes |
| Swap.SwapDialog.SendApproval | components/swap/swap.tsx:205-245 | the result and the new session are those `SendApprovalOutcome` describes |
| Swap.SwapDialog.HandleFormApprove | components/swap/swap.tsx:247-258 | the new session is the one `FormApproveOutcome` describes |
| Swap.SwapDialog.ExecuteSwap | components/swap/swap.tsx:281-409 | the new session is the one `ExecuteSwapOutcome` describes |
| Swap.SwapDialog.SendBtcSwap | components/swap/swap.tsx:284-324 | the new session is the one `BtcSwapOutcome` describes |
| Swap.SwapDialog.SendSolanaSwap | components/swap/swap.tsx:325-350 | the new session is the one `SolanaSwapOutcome` describes |
| Swap.SwapDialog.SendEvmSwap | components/swap/swap.tsx:351-405 | the new session is the one `EvmSwapOutcome` describes |
| Swap.SwapDialog.HandleConfirmSwap | components/swap/swap.tsx:260-269 | the new session is the one `ConfirmSwapGate` describes |
| Swap.SwapDialog.HandleApprovalSubmit | components/swap/swap.tsx:271-279 | the new session is the one `ApprovalSubmitOutcome` describes |
| Swap.SwapDialog.HandleFormSubmit | components/swap/swap.tsx:197-203 | the new session is `AfterFormSubmit`: the approval when an ERC-20 sell token needs it, else the confirm quote fetch |
| SwapModal.ExactToken | components/SwapModal.tsx:42-43 | the token found has exactly the identifier; none when no token has it |
| SwapModal.ExactTokenFoundIgnoringCase | components/SwapModal.tsx:42-43 | a token this dialog finds, `Swap`'s case-insensitive lookup also finds |
| SwapModal.ConfirmQuoteRequest | components/SwapModal.tsx:141-150 | the live request asks THORChain only, without a refund address, with `dry` off |
| SwapModal.ProviderErrorMessage | components/SwapModal.tsx:152-155 | an error exactly when some provider failed, whether routes came back or not; its text is that of the first provider error |
| SwapModal.ProviderErrorsRefuseRoutes | components/SwapModal.tsx:152-155 | this dialog refuses routes that come with a provider error, which `Swap` accepts; the two agree when there are no routes |
| SwapModal.FetchConfirmQuoteOutcome | components/SwapModal.tsx:134-171 | without both tokens and a destination nothing changes; otherwise one request is recorded, loading ends, and the confirm quote is taken exactly when the answer has routes and no provider error; otherwise an error is recorded and the step and quote stay |
| SwapModal.FormApproveOutcome | components/SwapModal.tsx:181-227 | after a sent approval the simulation is refetched once and the form shown with the hash recorded; a thrown one shows "Approval failed: …" on the form; one that never started changes nothing |
| SwapModal.ExecuteSwapOutcome | components/SwapModal.tsx:287-350 | the swap never stops in `swapping`: nothing signed, success with one submission, or failure at `confirm`; a route without a transaction only shows the deposit instructions |
| SwapModal.StringTxSentAsEmptyCall | components/SwapModal.tsx:290-313 | a non-empty string transaction is sent to the sell chain as an EVM call with no recipient, value 0 and data `0x` |
| SwapModal.ConfirmSwapGate | components/SwapModal.tsx:229-238 | a sell token needing approval goes to `approve` without signing |
| SwapModal.ApprovalSubmitOutcome | components/SwapModal.tsx:240-285 | a thrown approval shows the approval step again with "Approval failed: …"; a sent one records its hash and runs the swap, which succeeds, fails at `confirm`, or leaves the step at `approving` |
| SwapModal.SwapModalDialog.constructor | components/SwapModal.tsx:29-40 | the sell token starts as the requested sell asset, if any; slippage is "1" |
| SwapModal.SwapModalDialog.SetFromToken | components/SwapModal.tsx:29 | only the sell token changes |
| SwapModal.SwapModalDialog.SetToToken | components/SwapModal.tsx:30 | only the buy token changes |
| SwapModal.SwapModalDialog.SetAmount | components/SwapModal.tsx:31 | only the amount changes |
| SwapModal.SwapModalDialog.SetSlippage | components/SwapModal.tsx:32 | only the slippage changes |
| SwapModal.SwapModalDialog.BackToForm | components/SwapModal.tsx:391-393 | back to the form without the confirm quote |
| SwapModal.SwapModalDialog.BackToConfirm | components/SwapModal.tsx:405 | back to the confirm step |
| SwapModal.SwapModalDialog.ApplyDefaultTokens | components/SwapModal.tsx:95-104 | afterwards the sell token is always a listed one: kept when listed, else the first token; an empty buy token becomes the default for the old (or first) sell token; the session never changes |
| SwapModal.SwapModalDialog.Close | components/SwapModal.tsx:123-132 | the session becomes `Closed` of the old one |
| SwapModal.SwapModalDialog.FetchConfirmQuote | components/SwapModal.tsx:134-171 | the new session is the one `FetchConfirmQuoteOutcome` describes |
| SwapModal.SwapModalDialog.HandleFormApprove | components/SwapModal.tsx:181-227 | the new session is the one `FormApproveOutcome` describes |
| SwapModal.SwapModalDialog.ExecuteSwap | components/SwapModal.tsx:287-350 | the new session is the one `ExecuteSwapOutcome` describes |
| SwapModal.SwapModalDialog.HandleConfirmSwap | components/SwapModal.tsx:229-238 | the new session is the one `ConfirmSwapGate` describes |
| SwapModal.SwapModalDialog.HandleApprovalSubmit | components/SwapModal.tsx:240-285 | the new session is the one `ApprovalSubmitOutcome` describes |
| SwapModal.SwapModalDialog.HandleFormSubmit | components/SwapModal.tsx:173-179 | the new session is `AfterFormSubmit`: the approval when the sell token needs it, else the confirm quote fetch |
| SwapForm.ButtonTextCases | components/swap/swap-form.tsx:42-49 | each label, with exactly the inputs that produce it, checked in the order tokens, amount, loading, error or missing quote, approval |
| SwapForm.ApproveLabelIsDistinct | components/swap/swap-form.tsx:47 | an "Approve …" label never equals one of the fixed labels |
| SwapForm.LabelMatchesDisabled | components/swap/swap-form.tsx:42-51 | with both tokens known, the button is enabled exactly when it offers to go on ("Next" or "Approve …") |
| SwapForm.NonNumericAmountPasses | components/swap/swap-form.tsx:44-51 | a non-numeric amount passes the amount check, because `NaN <= 0` is false |
| SendValidation.NoPointInDigits | components/asset/asset-send.tsx:111 | a string of digits contains no point |
| SendValidation.FractionField | components/asset/asset-send.tsx:111 | for a number `Number` reads, `split('.')[1]` is exactly its fraction digits |
| SendValidation.FractionCheck | components/asset/asset-send.tsx:109-115 | the precision check compares the literal's fraction length with the decimals |
| SendValidation.MessagesDistinct | components/asset/asset-send.tsx:98-130 | the precision message never equals another message |
| SendValidation.ValidateAmountOutcome | components/asset/asset-send.tsx:98-130 | each message, with exactly the amounts that produce it: required, not positive, too many decimals, insufficient balance, invalid amount; `None` otherwise |
| SendValidation.AcceptedAmountWithinBalance | components/asset/asset-send.tsx:117-129 | an accepted amount is a positive number of minor units no greater than the balance |
| SendValidation.WholeBalanceAccepted | components/asset/asset-send.tsx:117-129 | sending the whole balance is accepted |
| SendValidation.PlusSignedAmountInvalid | components/asset/asset-send.tsx:118-127 | within the precision, a `+`-signed positive amount is reported as "Invalid amount" |
| SendValidation.RecipientError | components/asset/asset-send.tsx:82-96 | "Recipient address is required" for an empty value, "Invalid wallet address" for a non-address, none otherwise |
| SendValidation.FormValidMeansInputsValid | components/asset/asset-send.tsx:72 | with the errors of the current inputs, the form is valid exactly when the recipient is an address and the amount passes every check |
| AssetSend.RpcUrlFor | components/asset/asset-send.tsx:61-70 | chain 1 and chain 56 have their public nodes; any other id is an "Unsupported chain ID" error |
| AssetSend.TransferTxShape | components/asset/asset-send.tsx:155-187 | a native coin is a value transfer to the recipient with gas 21000; a token is a `transfer(recipient, amount)` call on the contract with value 0 and gas 100000; both are type 2 |
| AssetSend.ValidatedAmountTransfers | components/asset/asset-send.tsx:98-187 | an amount the form accepted is sent as a positive number of minor units, at most the balance |
| AssetSend.SendResultOutcome | components/asset/asset-send.tsx:137-210 | Solana and Bitcoin assets are skipped; on EVM chains the send is confirmed exactly when every awaited call succeeds and the amount parses, with the signer's hash and the transfer built; a failure carries the message of the call that threw, and keeps the hash when only the receipt wait failed |
| AssetSend.AssetSendDialog.constructor | components/asset/asset-send.tsx:38-46 | the dialog starts at `form` with empty inputs, no errors, no hash and not loading |
| AssetSend.AssetSendDialog.EnterRecipient | components/asset/asset-send.tsx:82-96 | the recipient and its error are set and nothing else changes |
| AssetSend.AssetSendDialog.EnterAmount | components/asset/asset-send.tsx:132-135 | the amount and its validation message are set and nothing else changes |
| AssetSend.AssetSendDialog.Review | components/asset/asset-send.tsx:74-77 | on to `confirm` only with a valid form |
| AssetSend.AssetSendDialog.Back | components/asset/asset-send.tsx:297 | back to the form; nothing else changes |
| AssetSend.AssetSendDialog.OpenChanged | components/asset/asset-send.tsx:49-59 | closing resets the step, both inputs, every error and the hash; `loading` stays |
| AssetSend.AssetSendDialog.ConfirmSend | components/asset/asset-send.tsx:137-210 | a skipped send changes nothing except that the `finally` clears loading; a failed one shows the error and keeps any hash; a confirmed one reaches `success` with the signer's hash; loading is cleared |
| SendDialog.SendTxShape | components/SendDialog.tsx:96-106 | a transaction exactly when the amount parses with 18 decimals, whatever the token's decimals; it pays that many wei to the recipient on the token's chain, with no contract data, nonce, gas or fee field |
| SendDialog.ValidatedAmountParses | components/SendDialog.tsx:54-100 | for a token of at most 18 decimals, any accepted amount parses as ether |
| SendDialog.ManyDecimalsDoNotParse | components/SendDialog.tsx:54-100 | for a token of more than 18 decimals, an accepted amount with a non-zero digit past the 18th place does not parse as ether |
| SendDialog.SendDialogState.constructor | components/SendDialog.tsx:29-33 | empty inputs, no errors, not loading |
| SendDialog.SendDialogState.EnterRecipient | components/SendDialog.tsx:38-52 | the recipient and its error are set and nothing else changes |
| SendDialog.SendDialogState.EnterAmount | components/SendDialog.tsx:91-94 | the amount and its message, checked with the token's own decimals, are set |
| SendDialog.SendDialogState.HandleSend | components/SendDialog.tsx:96-130 | the transaction signed is `SendTx`; `loading` stays set exactly when parseEther throws |
| SendDialog.ValidSendClearsLoading | components/SendDialog.tsx:96-132 | a valid form for a token of at most 18 decimals always yields a transaction, so `loading` is cleared |
| TokenCatalog.ProviderTokens | hooks/use-tokens.ts:17-22 | a provider whose fetch threw contributes nothing; one that answered with a token list contributes exactly that list |
| TokenCatalog.FetchCatalog | hooks/use-tokens.ts:15-30 | the merge loop and the sort produce `Catalog` of the responses |
| TokenCatalog.CatalogOutcome | hooks/use-tokens.ts:15-30 | each identifier appears once; every identifier any provider returned appears; each is the first token with that identifier in provider order; the list is ordered by ticker |
| TokenCatalog.FailedProviderIgnored | hooks/use-tokens.ts:17 | a provider whose fetch throws contributes nothing: the merged list is the other providers' tokens, in order |
| TokenCatalog.AllFailedEmpty | hooks/use-tokens.ts:17-29 | when every provider fails the catalog is empty |
| Sorting.SortStable | hooks/use-tokens.ts:29 | `Array.prototype.sort` is stable: the elements sharing a key (here tokens with the same ticker) come out in their input order |
| TokenCatalog.UseTokens | hooks/use-tokens.ts:35-39 | the tokens are the data once loaded and empty otherwise; loading exactly while pending; an error exactly on failure |
| SelectAsset.ChainLabelOutcome | components/swap/swap-select-asset.tsx:14-40 | every mapped chain shows its name; any other code shows itself |
| SelectAsset.FindGroup | components/swap/swap-select-asset.tsx:93 | a position is found exactly when some entry has the key, and that entry has it |
| SelectAsset.OnChain | components/swap/swap-select-asset.tsx:90-98 | the reference list of one chain's tokens holds exactly the catalog's tokens on that chain |
| SelectAsset.GroupedOutcome | components/swap/swap-select-asset.tsx:90-99 | one group per chain, with unique keys, a group exactly for each chain some token is on, each holding exactly that chain's tokens in catalog order |
| SelectAsset.SetGroupOutcome | components/swap/swap-select-asset.tsx:97-101 | writing a key makes it map to the new list and leaves every other key alone |
| SelectAsset.ChainMapOutcome | components/swap/swap-select-asset.tsx:84-104 | empty for an empty catalog; otherwise `All` holds the whole catalog and every other key is a chain mapping to exactly that chain's tokens |
| SelectAsset.BuildChainMap | components/swap/swap-select-asset.tsx:84-104 | the loop builds exactly `ChainMap` of the tokens |
| SelectAsset.Keys | components/swap/swap-select-asset.tsx:107 | the keys of the map, in insertion order |
| SelectAsset.ChainsOutcome | components/swap/swap-select-asset.tsx:106-112 | the tabs are a reordering of the map's keys, with `All` first when present and the chains ordered by label |
| SelectAsset.FilteredTokensOutcome | components/swap/swap-select-asset.tsx:118-133 | without a query, `All` offers only featured tokens and a chain tab its whole list; with a query, exactly the tokens whose lower-cased ticker or name contains it; the order is kept |
| SelectAsset.PriorityOutcome | components/swap/swap-select-asset.tsx:139-158 | a ticker equal to the query ranks 1, one containing it at most 3, a ticker or name match at most 5; a featured token that does not match ranks 6; every rank is between 1 and 7 |
| SelectAsset.ChainTokensOutcome | components/swap/swap-select-asset.tsx:114-169 | the list shown is a reordering of the filtered tab, sorted by priority and then by lower-cased ticker |
| SelectAsset.ExactTickerFirst | components/swap/swap-select-asset.tsx:139-167 | when a token of the tab has the query as its ticker, the list opens with such a token |
| TxHistory.FilteredOutcome | components/TransactionHistory.tsx:106-117 | the filtered list keeps the history's order and holds exactly the transfers of the chosen direction and asset |
| TxHistory.NoFilterKeepsAll | components/TransactionHistory.tsx:106-117 | with both filters at "all", every transfer is shown, in order |
| TxHistory.DirectionsPartition | components/TransactionHistory.tsx:91-117 | for one asset choice, each transfer appears under exactly one of received and sent |
| TxHistory.FilterOfFilter | components/TransactionHistory.tsx:106-117 | filtering twice is filtering by both conditions |
| TxHistory.AvailableAssets | components/TransactionHistory.tsx:95-103 | exactly the non-empty assets some transfer has, each once, in strictly increasing order |
| TxHistory.TransactionHistory.constructor | components/TransactionHistory.tsx:25-30 | no transfers, no page key, not loading, both filters at "all" |
| TxHistory.TransactionHistory.FetchTransactionsData | components/TransactionHistory.tsx:43-62 | a page fetched with a key is appended and a first page replaces the list; "more" exactly when the page has a key; a failed fetch changes nothing but `loading`, which is always cleared; the filters stay |
| TxHistory.TransactionHistory.LoadMore | components/TransactionHistory.tsx:64-68 | without a page key nothing changes; with one, the fetched page is appended, the page key and `hasMore` follow the response, a failed fetch keeps the list, key and `hasMore`, and loading ends cleared |
| TxHistory.TransactionHistory.SetDirectionFilter | components/TransactionHistory.tsx:151-174 | only the direction filter changes |
| TxHistory.TransactionHistory.SetAssetFilter | components/TransactionHistory.tsx:196 | only the asset filter changes |
| TxHistory.RenderOutcome | components/TransactionHistory.tsx:119-222 | only an Ethereum account has a history; a listing is a non-empty subsequence of the history; with no filter set it is the whole history |
| TxRoute.HexCharValue | app/api/transactions/route.ts:62-63 | a hex digit's value is below 16 |
| TxRoute.LeadingHex | app/api/transactions/route.ts:62-63 | `parseInt` reads the longest prefix of hex digits |
| TxRoute.ToHex | app/api/transactions/route.ts:62-63 | a block number renders as a non-empty string of hex digits |
| TxRoute.ToHexValue | app/api/transactions/route.ts:62-63 | the hex rendering of a block number reads back as that number |
| TxRoute.HexBlockRoundTrip | app/api/transactions/route.ts:62-63 | reading a `0x` block number back with `parseInt(_, 16)` gives the number |
| TxRoute.LeadingDigits | app/api/transactions/route.ts:240 | `parseInt` reads a prefix of decimal digits of the text |
| TxRoute.MaxCountOutcome | app/api/transactions/route.ts:240 | the page size never exceeds 100; it is 100 when none is asked for; a natural number is honoured up to 100 |
| TxRoute.PageKeyField | app/api/transactions/route.ts:37-46 | the key is sent only when truthy, and then unchanged |
| TxRoute.FormatAll | app/api/transactions/route.ts:67-82 | one Ethereum item per transfer, carrying its id, in order |
| TxRoute.FetchEthereumTransactions | app/api/transactions/route.ts:54-87 | the merge loop and the sort produce `EthResponse` of the two pages |
| TxRoute.EthResponseOutcome | app/api/transactions/route.ts:54-87 | each unique id of either query appears once, as the last transfer reported with it, latest block first; the next page key is the outgoing one, else the incoming one |
| TxRoute.AnySpendsPrefix | app/api/transactions/route.ts:194-199 | an input spending from the address within a prefix is found in the longer prefix |
| TxRoute.NetValue | app/api/transactions/route.ts:182-199 | the two loops compute the amount received minus the amount spent, and incoming exactly when the address is paid and spends nothing |
| TxRoute.SpentZero | app/api/transactions/route.ts:194-199 | without an input from the address, nothing is spent |
| TxRoute.BtcItemOutcome | app/api/transactions/route.ts:201-218 | each item has the transaction's hash, chain BTC and asset BTC, and a non-negative value; a received transaction goes to the address with the amount paid, in BTC; any other, and any that spends from the address, goes from the address |
| TxRoute.BtcItems | app/api/transactions/route.ts:180-219 | one item per transaction, in order |
| TxRoute.BtcResponse | app/api/transactions/route.ts:172-226 | the Bitcoin page never has a next page; with a listing it has one item per listed transaction, with its hash and chain BTC; without one it is empty |
| TxRoute.FetchBitcoinTransactions | app/api/transactions/route.ts:172-226 | the loop produces exactly `BtcResponse` of the listing |
| TxRoute.Get | app/api/transactions/route.ts:228-260 | an empty page for missing parameters, an unknown chain or any failure; otherwise the page of the chain's fetch, with transfer queries that share the page key and the capped page size |
| TxRoute.QueriesShareThePageKey | app/api/transactions/route.ts:31-47 | both transfer queries carry the same page key, and only a truthy one |
| Balances.BuildIdentifier | app/api/balances/route.ts:184-190 | the identifier starts with the chain code, `.` and the ticker |
| Balances.BuildIdentifierOutcome | app/api/balances/route.ts:184-190 | the identifier is the base exactly when there is no address; otherwise the base, `-`, and the upper-cased address; on one chain and ticker, identifiers are equal exactly when the upper-cased addresses are |
| Balances.FetchEthereumBalances | app/api/balances/route.ts:48-94 | the loop produces `EthereumBalances`: ETH first, then each token with a non-zero balance and known metadata |
| Balances.OwnedItemsOutcome | app/api/balances/route.ts:60-91 | every token with a non-zero balance and known metadata is listed; each item is an Ethereum item with a contract address and a non-zero value, made from such a token; there are no more items than tokens |
| Balances.MintTicker | app/api/balances/route.ts:134 | a non-empty prefix of at most six characters of the mint, or "UNKNOWN" without a mint |
| Balances.FetchSolanaBalances | app/api/balances/route.ts:96-159 | the loop produces `SolanaBalances`: SOL first, then each token account with a positive amount |
| Balances.AccountItemsOutcome | app/api/balances/route.ts:119-155 | every token account with a positive amount is listed; each item is a Solana item with a non-zero value, made from such an account, whose ticker is a prefix of its mint |
| Balances.BitcoinBalances | app/api/balances/route.ts:161-182 | empty exactly when the lookup failed; otherwise BTC items with 8 decimals and no address |
| Balances.RequestedIds | app/api/balances/route.ts:16-30 | every price id requested is non-empty and is the id of some upper-cased ticker |
| Balances.RequestedIdsNonEmpty | app/api/balances/route.ts:16-30 | some id is requested exactly when some upper-cased ticker has a non-empty id |
| Balances.FetchTokenPrices | app/api/balances/route.ts:16-46 | prices are fetched exactly when some id is requested, so never for no tickers; a failed or empty answer gives no prices; otherwise exactly the upper-cased tickers with a price map to it |
| Balances.PriceOf | app/api/balances/route.ts:214-220 | a price exactly when the upper-cased ticker has a non-zero price |
| Balances.SourceOf | app/api/balances/route.ts:192-212 | the Bitcoin lookup is used exactly for formats starting with `ADDRESS_FORMAT_BITCOIN` |
| Balances.SourceOutcome | app/api/balances/route.ts:192-212 | the Ethereum, Solana and Bitcoin formats go to their own lookups; any other format has none |
| Balances.ToAssets | app/api/balances/route.ts:214-232 | one asset per balance, in order, each converted on its own |
| Balances.ToAssetsOutcome | app/api/balances/route.ts:214-232 | each asset keeps its chain, ticker, decimals and address; its identifier is `BuildIdentifier` of the balance; without a price its USD value is "0.00"; tickers equal up to case get the same price |
| Balances.Tickers | app/api/balances/route.ts:214 | one ticker per balance, in order |
| Balances.Get | app/api/balances/route.ts:192-234 | without an address or format, nothing; otherwise the balances of the lookup the format selects (none for other formats), and one asset per balance with its identifier, chain, ticker and address; prices are fetched exactly when some ticker has an id |
| MainView.UniqueAccounts | components/main/main.tsx:18-26 | the seen-set loop keeps the first account of each id, in order |
| MainView.UniqueWallets | components/main/main.tsx:16-30 | each wallet keeps its id and name, and its accounts lose later duplicates |
| MainView.UniqueWalletsOutcome | components/main/main.tsx:16-30 | the wallet count, ids and names are kept; each wallet's account ids are unique, a subsequence of the original, with the same set of ids, each the first with its id |
| MainView.SharedIdKeptInBoth | components/main/main.tsx:16-30 | an account id shared by two wallets is kept in both: de-duplication is per wallet |
| MainView.Render | components/main/main.tsx:12-38 | a guest page exactly without authentication; the dashboard shows the sidebar exactly when there is a user, and lists exactly the de-duplicated wallets: one per wallet, same ids, each account id once and none lost |
| AssetIcon.IsNativeIgnoresCase | components/asset-icon.tsx:39-44 | the native check ignores the case of the chain and the ticker |
| AssetIcon.IsNativeOutcome | components/asset-icon.tsx:39-44 | a token whose chain equals its ticker, and the three listed identifiers, are native; a token not listed whose chain and ticker differ ignoring case is not |
| AssetIcon.Render | components/asset-icon.tsx:6-37 | nothing exactly without a token; a badge for the token's chain exactly when it is not native; a logo exactly when the logo URI is truthy |
| Sumsub.Or | lib/sumsub.js:201-202 | `a \|\| b` on JavaScript values: `a` when truthy, else `b` |
| Sumsub.Prop | lib/sumsub.js:146-155 | a missing property reads as `undefined` |
| Sumsub.UpperHexDigit | lib/sumsub.js:43 | percent-encoding digits are upper-case hex |
| Sumsub.Utf8 | lib/sumsub.js:43 | a character is one to four UTF-8 bytes |
| Sumsub.PercentBytes | lib/sumsub.js:43 | three characters per byte, each `%` or an unreserved character |
| Sumsub.EncodeChar | lib/sumsub.js:43 | an encoded character holds only `%` and unreserved characters |
| Sumsub.EncodeUriComponentOutcome | lib/sumsub.js:43 | the encoding holds only unreserved characters and `%`, so no `&`, `#`, `=` or space; unreserved text is unchanged |
| Sumsub.SignedMessage | lib/sumsub.js:20-28 | the message starts with the timestamp, the upper-cased method and the URL; without a body it is exactly those |
| Sumsub.SignedMessageOutcome | lib/sumsub.js:20-28 | the method's case does not matter; for requests without a body, equal messages mean equal timestamp and URL |
| Sumsub.RemoveUndefined | lib/sumsub.js:160-165 | the loop keeps exactly the defined company fields, in order |
| Sumsub.CompanyInfoOutcome | lib/sumsub.js:141-165 | the company info holds exactly the defined fields of the ten listed keys, each with its value |
| Sumsub.BeneficiaryDefaults | lib/sumsub.js:201-202 | positions default to `["shareholder"]` and the type to `"ubo"` when not truthy, so both are always truthy; the applicant is an individual |
| Sumsub.Config.constructor | lib/sumsub.js:10-11 | the shared config starts with the app token, the Sumsub base URL, no method, URL or headers, and no body |
| Sumsub.Config.CreateSignature | lib/sumsub.js:17-34 | the timestamp header and the HMAC of `SignedMessage` of the current request are added; method, URL, body and base URL stay; the same config is returned |
| Sumsub.Config.CreateApplicant | lib/sumsub.js:39-62 | the shared config becomes a POST to the encoded level URL with JSON headers and the external user id as body; the config is returned |
| Sumsub.Config.GetApplicantStatus | lib/sumsub.js:65-82 | a GET of the applicant's status, without a body |
| Sumsub.Config.GetApplicantData | lib/sumsub.js:85-102 | a GET of the applicant with that external user id, without a body |
| Sumsub.Config.CreateAccessToken | lib/sumsub.js:105-129 | a POST for an SDK token, with level `basic-kyc-level` and 600 seconds by default |
| Sumsub.Config.CreateKybAccessToken | lib/sumsub.js:243-246 | the access token request with level `basic-kyb-level` by default |
| Sumsub.Config.CreateCompanyApplicant | lib/sumsub.js:135-179 | a POST of a company applicant with the defined company fields |
| Sumsub.Config.AddBeneficialOwner | lib/sumsub.js:183-219 | a POST of an individual beneficiary with the defaulted positions and type |
| Sumsub.Config.GetBeneficialOwners | lib/sumsub.js:223-240 | a GET of the company's beneficiaries, without a body |
| Sumsub.Config.GetCompanyApplicantData | lib/sumsub.js:250-267 | a GET of the company applicant with that external user id, without a body |
| Sumsub.BuildTwo | lib/sumsub.js:10-62 | two builders return the shared object itself, which afterwards holds the second request, a GET without a body |
| Sumsub.SignStatusRequest | lib/sumsub.js:17-82 | the status request carries the timestamp header and the HMAC of the timestamp, `GET` and the status path |
| KybRoute.StatusOf | app/api/business-verification/route.ts:19-48 | verified exactly for a completed review answered GREEN; a failed lookup is `Unknown`; the review result keeps its answer, labels and reject type |
| KybRoute.StatusOfOutcome | app/api/business-verification/route.ts:19-48 | a verified response has a completed GREEN review and vice versa; a RED answer is never verified |
| KybRoute.Get | app/api/business-verification/route.ts:5-49 | without a user id, 400 and no request; otherwise the config is set for the company lookup, signed, and the answer is `StatusOf` of the lookup |
| KybStore.BusinessVerificationStore.constructor | stores/business-verification-store.ts:24-28 | the store starts idle, with no review, loading, and the modal closed |
| KybStore.BusinessVerificationStore.SetStatus | stores/business-verification-store.ts:29 | only the status changes |
| KybStore.BusinessVerificationStore.SetReviewResult | stores/business-verification-store.ts:30 | only the review result changes |
| KybStore.BusinessVerificationStore.SetIsLoading | stores/business-verification-store.ts:31 | only the loading flag changes |
| KybStore.BusinessVerificationStore.OpenModal | stores/business-verification-store.ts:32 | only the modal flag changes, to open |
| KybStore.BusinessVerificationStore.CloseModal | stores/business-verification-store.ts:33 | only the modal flag changes, to closed |
| KybStore.BusinessVerificationStore.Reset | stores/business-verification-store.ts:34-40 | back to the initial state, whatever the state was |
| KybModal.TokenError | components/business-verification-modal.tsx:31-33 | the response's error when truthy, else "Failed to get access token" |
| KybModal.VerificationModal.constructor | components/business-verification-modal.tsx:15-16 | no token and no error |
| KybModal.VerificationModal.SyncToken | components/business-verification-modal.tsx:19-42 | closed: the token and error are cleared; open: an ok response's token is stored, otherwise an error is shown and the token is kept |
| KybModal.VerificationModal.TryAgain | components/business-verification-modal.tsx:140-143 | the token and the error are cleared |
| KybModal.VerificationModal.RefreshStatus | components/business-verification-modal.tsx:45-60 | the status becomes verified or idle by the lookup, and stays when it fails; loading is always cleared; the review result and the modal flag stay |
| KybModal.VerificationModal.HandleMessage | components/business-verification-modal.tsx:79-121 | a status change applies `StatusTransition`; a submission or resubmission sets pending and schedules a refresh; other events change nothing; loading never changes |
| KybModal.VerificationModal.Render | components/business-verification-modal.tsx:135-176 | the error message exactly when there is an error; the SDK only with the stored token |
| KybModal.StatusTransitionOutcome | components/business-verification-modal.tsx:86-97 | only an approved review verifies, and it closes the modal; a rejection keeps the modal open and stores the review; other answers, an on-hold review and a missing payload change nothing; an event never opens the modal |
| IdentityStatus.Join | components/business-identity-status.tsx:129-131 | one label is shown as itself |
| IdentityStatus.Reason | components/business-identity-status.tsx:129-131 | a reason line exactly for a non-empty label list: "Reason: " and the labels joined with commas |
| IdentityStatus.ViewOf | components/business-identity-status.tsx:281-305 | loading first, then verified, then rejected for a RED answer (with its reason), then pending for an in-review status ("Under Review" exactly for `pending`), else not verified |
| IdentityStatus.BusinessIdentityStatus.constructor | components/business-identity-status.tsx:265-266 | the card starts loading, with no status |
| IdentityStatus.BusinessIdentityStatus.Settle | components/business-identity-status.tsx:268-279 | loading ends; the status is the response, or `Unknown` when the lookup failed |
| IdentityStatus.FailedLookupShowsNonVerified | components/business-identity-status.tsx:268-305 | a failed lookup shows the card of a business not yet verified |
| IdentityStatus.VerifiedWinsOverRed | components/business-identity-status.tsx:281-289 | a verified response shows Verified even when its answer is RED |

## Left out

- Networking, signing and broadcast are not modelled. Turnkey, ethers providers, Alchemy, blockchain.info, mempool.space, CoinGecko and Sumsub are reached only through the `Async` outcome parameters. `fetchUtxos` is the caller's.
- The Solana history loop of the transactions route (one RPC call per signature) is not modelled. Its response is a parameter of `TxRoute.Get`, because its own errors are caught inside it.
- Erc20.ApprovalTransaction: the checks of ABI encoding are not modelled. `encodeFunctionData` also throws for an amount outside the `uint256` range, such as the `-1` that `parseUnits` accepts, and for a malformed spender address; the model builds the request in those cases.
- Decimal.UnitsErrorMessage: ethers words a `parseUnits` failure as "invalid FixedNumber string value …" or "too many decimals for format …" depending on the fault. The model does not reproduce these texts: one fixed message stands for every `parseUnits` failure, in the ERC-20 approval, the asset send and the simulation hook.
- `ethers.Transaction.from(...).unsignedSerialized`, ABI encoding and `bitcoin.script.compile` are not modelled. The model stops at the transaction request or PSBT contents handed to them, and `psbt.toBase64` is left out.
- `signPsbtWithExternalSigner` is imported by `swap.tsx` but is not defined in `lib/bitcoin.ts`. The Bitcoin sign-and-broadcast is one outcome parameter.
- `btcToSatoshis` and `satoshisToBtc` are not modelled, because they are floating point. `CreateBtcSwapPsbt` takes `amountSats` already computed.
- Floating point is modelled with exact reals, so rounding is not captured. This covers satoshi, lamport and wei scaling by powers of ten, `toFixed`, USD value times price, `parseFloat` returning `NaN`, and Solana `uiAmount` being `null`. The balances route takes `show`/`fixed2` renderers as parameters.
- Decimal.JsNumber: only the decimal literal grammar is modelled. Hex, exponent, `Infinity` and whitespace forms of `Number` are read as `NaN`.
- `Number(slippage)` and `Number(chainId)` are not modelled. Slippage is kept as the form's text and chain ids are numbers.
- TxRoute.LeadingDigits: leading whitespace, which `parseInt` skips, is not modelled.
- TxRoute.ParseIntHex: leading whitespace and a `+`/`-` sign, which `parseInt(s, 16)` accepts, are not modelled; the block numbers it reads are `0x`-prefixed hex texts.
- TxRoute.FetchEthereumTransactions: an unreadable block number sorts as block 0, whereas JavaScript's `NaN` comparator leaves such items where the engine puts them.
- `localeCompare` and the default `sort()` are approximated by code-point order. `toLowerCase` and `toUpperCase` are ASCII-only.
- `ethers.isAddress` is a predicate parameter. The HMAC, `JSON.stringify` and the clock are parameters of the Sumsub signing.
- The Sumsub `FormData` body is not modelled. No builder sets one.
- The config's initially undefined `url`, `method` and `headers` are modelled as empty values.
- `encodeURIComponent` on lone surrogates (which throws) is not modelled, because `string` holds code points.
- `createApplicant` computes a timestamp it never uses, so it is not modelled.
- The business verification route computes an error message that it only logs. The response does not carry it.
- `fetchBusinessVerificationStatus` is not part of this model: `lib/api.ts` as shown does not define it. The status card takes its outcome, shaped like the route's JSON body, as a parameter.
- `logoURI` is not a field of the `Token` type in `lib/api.ts`. `AssetIcon.Render` takes it as a parameter.
- React scheduling is not modelled. This covers `useQuery` caching, retries and refetch timing, `setTimeout` auto-close, the virtualizer, scroll effects and the order in which effects interleave with handlers. Each handler is modelled as run to completion.
- The swap dialogs' balance-fetch effect is not modelled, because it only displays a balance.
- The message of the exception `atob` throws is worded by the browser. It is the parameter `atobMessage` of the swap outcomes.
- `err instanceof Error ? … : fallback` is not modelled. Every thrown value carries a message.
- SendDialog.SendDialogState.HandleSend: the result of `signTransaction` is only logged, so it is not modelled; `loading` is cleared once it settles.
- Closing dialogs while `loading`, and all rendering markup beyond the view choices stated above, are left out.
- The optional `ShowsCount` predicate of the history panel (the "n of m transactions" line) is defined but has no lemma of its own.
