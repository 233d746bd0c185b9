/** The current swap dialog (`Swap`): its form fields, the handlers that move the
    session through `form → confirm → approve → approving → swapping → success`, and the
    Bitcoin, Solana and EVM swap paths. Every awaited call is an outcome parameter. */
module Swap {
  import opened Wrappers
  import opened Text
  import opened Chains
  import opened Api
  import opened Evm
  import opened SwapSession
  import opened Base64
  import Quote

  /** The form fields the handlers read. */
  datatype FormFields = FormFields(fromToken: string, toToken: string, amount: string, slippage: string, manualDestination: string)

  const InitialForm := FormFields("", "", "", "1", "")

  /** The outcome of signing a Bitcoin swap PSBT and broadcasting it to mempool.space:
      signing threw, the broadcast was rejected with a response text, or it returned the
      transaction id. */
  datatype BtcOutcome = BtcSignThrew(message: string) | BroadcastRejected(responseText: string) | Broadcast(txid: string)

  /** The outcomes `executeSwap` may await, per path. `atobMessage` is the message of the
      exception `atob` throws on a malformed transaction payload, which the browser words. */
  datatype SwapOutcomes = SwapOutcomes(btc: BtcOutcome, atobMessage: string, solanaSend: Async<string>, evm: SendOutcomes)

  const SolanaRpcUrl := "https://solana-rpc.publicnode.com"

  /** The message of the `TypeError` raised by reading `providers[0]` when the preview
      route carries no provider list. */
  const ProvidersTypeError := "Cannot read properties of undefined (reading '0')"

  /** `findToken`: the first token whose identifier equals `id` ignoring (ASCII) case. */
  function FindToken(tokens: seq<Token>, id: string): (r: Option<Token>)
    ensures r.Some? ==> r.value in tokens && Upper(r.value.identifier) == Upper(id)
    ensures r.None? <==> forall t :: t in tokens ==> Upper(t.identifier) != Upper(id)
  {
    if |tokens| == 0 then None
    else if Upper(tokens[0].identifier) == Upper(id) then Some(tokens[0])
    else FindToken(tokens[1..], id)
  }

  /** Like `Array.prototype.find`, the token found is the first that matches. */
  lemma {:induction false} FindTokenFirst(tokens: seq<Token>, id: string)
    ensures FindToken(tokens, id).Some? ==>
      exists i :: 0 <= i < |tokens| && tokens[i] == FindToken(tokens, id).value &&
                  forall j :: 0 <= j < i ==> Upper(tokens[j].identifier) != Upper(id)
  {
    if |tokens| > 0 && Upper(tokens[0].identifier) != Upper(id) && FindToken(tokens, id).Some? {
      FindTokenFirst(tokens[1..], id);
      var i :| 0 <= i < |tokens[1..]| && tokens[1..][i] == FindToken(tokens[1..], id).value &&
               forall j :: 0 <= j < i ==> Upper(tokens[1..][j].identifier) != Upper(id);
      assert tokens[i + 1] == FindToken(tokens, id).value;
      assert forall j :: 0 <= j < i + 1 ==> Upper(tokens[j].identifier) != Upper(id);
    } else if |tokens| > 0 && Upper(tokens[0].identifier) == Upper(id) {
      assert tokens[0] == FindToken(tokens, id).value;
    }
  }

  /** Identifiers that differ only in case find the same token. */
  lemma FindTokenIgnoresCase(tokens: seq<Token>, id: string)
    ensures FindToken(tokens, Upper(id)) == FindToken(tokens, id)
  {
    UpperIdempotent(id);
    if |tokens| > 0 { FindTokenIgnoresCase(tokens[1..], id); }
  }

  function FromMeta(env: Env, f: FormFields): Option<Token> { FindToken(env.tokens, f.fromToken) }

  function ToMeta(env: Env, f: FormFields): Option<Token> { FindToken(env.tokens, f.toToken) }

  /** The wallet address on the sell token's chain. */
  function SourceAddress(env: Env, f: FormFields): (r: Option<string>)
    ensures r.Some? ==> FromMeta(env, f).Some? && r == ResolveAddressForChain(env.wallets, FromMeta(env, f).value.chain)
  {
    match FromMeta(env, f)
    case None => None
    case Some(t) => ResolveAddressForChain(env.wallets, t.chain)
  }

  /** The wallet address on the buy token's chain. */
  function ResolvedDestination(env: Env, f: FormFields): (r: Option<string>)
    ensures r.Some? ==> ToMeta(env, f).Some? && r == ResolveAddressForChain(env.wallets, ToMeta(env, f).value.chain)
  {
    match ToMeta(env, f)
    case None => None
    case Some(t) => ResolveAddressForChain(env.wallets, t.chain)
  }

  /** The destination: the wallet's own address on the buy chain, else the manually
      entered address, else none. */
  function Destination(env: Env, f: FormFields): (r: Option<string>)
    ensures Truthy(ResolvedDestination(env, f)) ==> r == ResolvedDestination(env, f)
    ensures !Truthy(ResolvedDestination(env, f)) && f.manualDestination != "" ==> r == Some(f.manualDestination)
    ensures !Truthy(ResolvedDestination(env, f)) && f.manualDestination == "" ==> r.None?
  {
    FirstTruthy(ResolvedDestination(env, f), Some(f.manualDestination))
  }

  // ---------------------------------------------------------------------------
  // The handlers, as functions from the session before to the session after

  /** The live quote request for the confirm step: the preview route's first provider
      only, `dry` off. */
  function ConfirmQuoteRequest(token: Token, buy: Token, f: FormFields, destination: string, source: Option<string>,
                               providers: seq<string>): (r: QuoteRequest)
    ensures !r.dry && |r.providers| == 1 && r.providers[0] == (if |providers| > 0 then Some(providers[0]) else None)
    ensures r.destinationAddress == Some(destination) && r.sellAmount == f.amount
  {
    var src := if Truthy(source) then source else None;
    QuoteRequest(token.identifier, buy.identifier, f.amount, Some(destination), src, src, f.slippage,
                 [if |providers| > 0 then Some(providers[0]) else None], false)
  }

  predicate CanFetchConfirmQuote(env: Env, f: FormFields)
  {
    FromMeta(env, f).Some? && ToMeta(env, f).Some? && Destination(env, f).Some? && env.previewQuote.Some?
  }

  /** `fetchConfirmQuote`: with both tokens, a destination and a preview quote, shows the
      loading state, sends the live request for the preview's first provider and settles
      on its answer. */
  function AfterFetchConfirmQuote(s: Session, env: Env, f: FormFields, response: Async<QuoteResponse>): Session
  {
    if !CanFetchConfirmQuote(env, f) then s
    else
      var s1 := s.(confirmQuoteLoading := true, confirmQuoteError := None);
      var settled :=
        match env.previewQuote.value.providers
        case None => s1.(confirmQuoteError := Some(ProvidersTypeError))
        case Some(ps) =>
          var request := ConfirmQuoteRequest(FromMeta(env, f).value, ToMeta(env, f).value, f, Destination(env, f).value,
                                             SourceAddress(env, f), ps);
          ConfirmQuoteSettled(s1.(quoteRequests := s1.quoteRequests + [request]), response);
      settled.(confirmQuoteLoading := false)
  }

  /** The answer to the live quote request: a thrown error, the first provider's error when
      no route came back, "No valid routes found", or the best route and the `confirm` step. */
  function ConfirmQuoteSettled(s: Session, response: Async<QuoteResponse>): (r: Session)
    ensures r.quoteRequests == s.quoteRequests && r.submitted == s.submitted && r.swapTxHash == s.swapTxHash
    ensures r.confirmQuoteLoading == s.confirmQuoteLoading
    ensures response.Done? && |response.value.routes| > 0 ==>
              r == s.(confirmQuote := Quote.BestRoute(response.value.routes), step := Confirm)
    ensures response.Threw? ==> r == s.(confirmQuoteError := Some(response.message))
    ensures response.Done? && |response.value.routes| == 0 ==>
              r == s.(confirmQuoteError := Some(if Quote.ProviderErrorMessage(response.value).Some? then Quote.ProviderErrorMessage(response.value).value
                                                else "No valid routes found"))
  {
    match response
    case Threw(m) => s.(confirmQuoteError := Some(m))
    case Done(resp) =>
      match Quote.ProviderErrorMessage(resp)
      case Some(m) => s.(confirmQuoteError := Some(m))
      case None =>
        match Quote.BestRoute(resp.routes)
        case None => s.(confirmQuoteError := Some("No valid routes found"))
        case Some(best) => s.(confirmQuote := Some(best), step := Confirm)
  }

  /** The quote for the confirm step succeeds exactly when the live request was sent and
      answered with routes; then the best route is kept and the step is `confirm`.
      Otherwise an error is recorded and the step and quote stay. Loading always ends. */
  lemma FetchConfirmQuoteOutcome(s: Session, env: Env, f: FormFields, response: Async<QuoteResponse>)
    ensures !CanFetchConfirmQuote(env, f) ==> AfterFetchConfirmQuote(s, env, f, response) == s
    ensures CanFetchConfirmQuote(env, f) ==>
      var r := AfterFetchConfirmQuote(s, env, f, response);
      var ok := env.previewQuote.value.providers.Some? && response.Done? && |response.value.routes| > 0;
      !r.confirmQuoteLoading &&
      (ok ==> r.confirmQuoteError.None? && r.step == Confirm && r.confirmQuote == Quote.BestRoute(response.value.routes)) &&
      (!ok ==> r.confirmQuoteError.Some? && r.step == s.step && r.confirmQuote == s.confirmQuote) &&
      (ok && response.value.providerErrors.Some? ==> r.confirmQuoteError.None?) &&
      r.submitted == s.submitted && r.swapTxHash == s.swapTxHash
  {
  }

  /** With no routes, the first provider error's text is shown (or "Quote error"), and
      with neither routes nor errors, "No valid routes found". */
  lemma ConfirmQuoteErrors(s: Session, env: Env, f: FormFields, resp: QuoteResponse)
    requires CanFetchConfirmQuote(env, f) && env.previewQuote.value.providers.Some? && |resp.routes| == 0
    ensures var r := AfterFetchConfirmQuote(s, env, f, Done(resp));
      r.confirmQuoteError == Some(if Quote.ProviderErrorMessage(resp).Some? then Quote.ProviderErrorMessage(resp).value else "No valid routes found")
  {
  }

  /** `handleFormApprove`: after a sent approval the simulation is refetched and the form
      is shown again; a thrown error is reported and the form is shown again. */
  function AfterFormApprove(s: Session, env: Env, f: FormFields, io: SendOutcomes): Session
  {
    var sent := SendApproval(s, env.wallets, FromMeta(env, f), env.approveData, f.amount, io);
    FormApproveSettled(sent.0, sent.1)
  }

  /** The `try`/`catch` of `handleFormApprove` once `sendApproval` has settled. */
  function FormApproveSettled(s: Session, result: ApprovalResult): Session
  {
    match result
    case Thrown(m) => s.(status := Some(ApprovalFailed(m)), step := Form)
    case Hash(h) => if h != "" then s.(simulationRefetches := s.simulationRefetches + 1, step := Form) else s
    case NoHash => s
  }

  /** Approving from the form returns to the form on success (with one simulation
      refetch) and on failure (with "Approval failed: …"); when the approval never
      started, the step is unchanged. */
  lemma FormApproveOutcome(s: Session, env: Env, f: FormFields, io: SendOutcomes)
    ensures var (s1, a) := SendApproval(s, env.wallets, FromMeta(env, f), env.approveData, f.amount, io);
      var r := AfterFormApprove(s, env, f, io);
      (a.Thrown? ==> r.step == Form && r.status == Some(ApprovalFailed(a.message)) && r.simulationRefetches == s.simulationRefetches) &&
      (HasHash(a) ==> r.step == Form && r.simulationRefetches == s.simulationRefetches + 1 && r.approvalTxHash == Some(a.hash)) &&
      (a.NoHash? ==> r.step == s.step && r.submitted == s.submitted)
  {
    SendApprovalOutcome(s, env.wallets, FromMeta(env, f), env.approveData, f.amount, io);
  }

  /** `executeSwap`: dispatches on the sell token's chain; a chain other than BTC and SOL
      takes the EVM path when the route carries a transaction object. */
  function AfterExecuteSwap(s: Session, env: Env, f: FormFields, io: SwapOutcomes): Session
  {
    if FromMeta(env, f).None? || ToMeta(env, f).None? || s.confirmQuote.None? then s
    else
      var token := FromMeta(env, f).value;
      var route := s.confirmQuote.value;
      if token.chain == "BTC" then BtcSwap(s, env, route, io.btc)
      else if token.chain == "SOL" then SolanaSwap(s, env, route, io)
      else if route.tx.TxObject? then
        EvmSwap(s, env.wallets, token, route.tx.to, route.tx.value, route.tx.data, route.tx.gasPrice, io.evm)
      else s.(status := Some("Swapping from " + token.chain + " is not supported yet"))
  }

  /** The Bitcoin path: needs a BTC account, a ready signing client and a PSBT string
      (each missing one sets its own status); then signs the PSBT and broadcasts it. */
  function BtcSwap(s: Session, env: Env, route: QuoteRoute, outcome: BtcOutcome): Session
  {
    var account := ResolveAccountForChain(env.wallets, "BTC");
    if account.None? then s.(status := Some("BTC wallet not configured"))
    else if !env.httpClientReady then s.(status := Some("Turnkey client not initialized"))
    else if !route.tx.TxString? then s.(status := Some("Swap route missing transaction data"))
    else
      var s1 := s.(step := Swapping, status := Some("Submitting swap..."),
                   submitted := s.submitted + [BitcoinSign(route.tx.payload, account.value)]);
      match outcome
      case Broadcast(txid) => s1.(swapTxHash := Some(txid), step := Success)
      case _ => FailSwap(s1, BtcFailure(outcome))
  }

  /** The Bitcoin path signs the route's PSBT exactly when it is ready, and then ends at
      `success` with the broadcast transaction id or back at `confirm` with "Swap failed:
      …"; when not ready it only sets a status. */
  lemma BtcSwapOutcome(s: Session, env: Env, route: QuoteRoute, outcome: BtcOutcome)
    ensures var r := BtcSwap(s, env, route, outcome);
      (r.confirmQuote == s.confirmQuote && r.approvalTxHash == s.approvalTxHash && r.quoteRequests == s.quoteRequests) &&
      (!BtcReady(env, route) ==> r.step == s.step && r.submitted == s.submitted && r.swapTxHash == s.swapTxHash && r.status.Some?) &&
      (BtcReady(env, route) ==> r.submitted == s.submitted + [BitcoinSign(route.tx.payload, ResolveAccountForChain(env.wallets, "BTC").value)]) &&
      (BtcReady(env, route) && outcome.Broadcast? ==> r.step == Success && r.swapTxHash == Some(outcome.txid)) &&
      (BtcReady(env, route) && !outcome.Broadcast? ==> SwapFailedIn(r) && r.status == Some(SwapFailed(BtcFailure(outcome))) && r.swapTxHash == s.swapTxHash)
  {
    var r := BtcSwap(s, env, route, outcome);
    if BtcReady(env, route) {
      var s1 := s.(step := Swapping, status := Some("Submitting swap..."),
                   submitted := s.submitted + [BitcoinSign(route.tx.payload, ResolveAccountForChain(env.wallets, "BTC").value)]);
      if outcome.Broadcast? {
        assert r == s1.(swapTxHash := Some(outcome.txid), step := Success);
      } else {
        assert r == FailSwap(s1, BtcFailure(outcome));
      }
    }
  }

  predicate BtcReady(env: Env, route: QuoteRoute)
  {
    ResolveAccountForChain(env.wallets, "BTC").Some? && env.httpClientReady && route.tx.TxString?
  }

  /** The error message of a failed Bitcoin sign or broadcast. */
  function BtcFailure(outcome: BtcOutcome): string
  {
    match outcome
    case BtcSignThrew(m) => m
    case BroadcastRejected(text) => "Broadcast failed: " + text
    case Broadcast(_) => ""
  }

  predicate SolanaReady(env: Env, route: QuoteRoute)
  {
    ResolveAccountForChain(env.wallets, "SOL").Some? && route.tx.TxString?
  }

  /** The Solana path: needs a SOL account and a base64 transaction string (each missing
      one sets its own status); then decodes the transaction, hex-encodes its bytes and
      signs and sends it through the public Solana RPC endpoint. */
  function SolanaSwap(s: Session, env: Env, route: QuoteRoute, io: SwapOutcomes): Session
  {
    var account := ResolveAccountForChain(env.wallets, "SOL");
    if account.None? then s.(status := Some("SOL wallet not configured"))
    else if !route.tx.TxString? then s.(status := Some("Swap route missing transaction data"))
    else
      var s1 := s.(step := Swapping, status := Some("Submitting swap..."));
      match Base64Decode(route.tx.payload)
      case None => FailSwap(s1, io.atobMessage)
      case Some(bytes) =>
        var s2 := s1.(submitted := s1.submitted + [SolanaSign(HexEncode(bytes), account.value, SolanaRpcUrl)]);
        match io.solanaSend
        case Threw(m) => FailSwap(s2, m)
        case Done(hash) => s2.(swapTxHash := Some(hash), step := Success)
  }

  /** The Solana path signs the hex encoding of the base64-decoded transaction exactly when
      it is ready and the payload decodes, and then ends at `success` with the sent hash or
      back at `confirm` with "Swap failed: …"; when not ready it only sets a status. */
  lemma SolanaSwapOutcome(s: Session, env: Env, route: QuoteRoute, io: SwapOutcomes)
    ensures var r := SolanaSwap(s, env, route, io);
      (r.confirmQuote == s.confirmQuote && r.approvalTxHash == s.approvalTxHash && r.quoteRequests == s.quoteRequests) &&
      (!SolanaReady(env, route) ==> r.step == s.step && r.submitted == s.submitted && r.swapTxHash == s.swapTxHash && r.status.Some?) &&
      (SolanaReady(env, route) && Base64Decode(route.tx.payload).None? ==>
        SwapFailedIn(r) && r.status == Some(SwapFailed(io.atobMessage)) && r.submitted == s.submitted && r.swapTxHash == s.swapTxHash) &&
      (SolanaReady(env, route) && Base64Decode(route.tx.payload).Some? ==>
        r.submitted == s.submitted + [SolanaSign(HexEncode(Base64Decode(route.tx.payload).value), ResolveAccountForChain(env.wallets, "SOL").value, SolanaRpcUrl)]) &&
      (SolanaReady(env, route) && Base64Decode(route.tx.payload).Some? && io.solanaSend.Done? ==> r.step == Success && r.swapTxHash == Some(io.solanaSend.value)) &&
      (SolanaReady(env, route) && Base64Decode(route.tx.payload).Some? && io.solanaSend.Threw? ==>
        SwapFailedIn(r) && r.status == Some(SwapFailed(io.solanaSend.message)) && r.swapTxHash == s.swapTxHash)
  {
    var r := SolanaSwap(s, env, route, io);
    if SolanaReady(env, route) {
      var s1 := s.(step := Swapping, status := Some("Submitting swap..."));
      var decoded := Base64Decode(route.tx.payload);
      if decoded.None? {
        assert r == FailSwap(s1, io.atobMessage);
      } else {
        var s2 := s1.(submitted := s1.submitted + [SolanaSign(HexEncode(decoded.value), ResolveAccountForChain(env.wallets, "SOL").value, SolanaRpcUrl)]);
        if io.solanaSend.Threw? {
          assert r == FailSwap(s2, io.solanaSend.message);
        } else {
          assert r == s2.(swapTxHash := Some(io.solanaSend.value), step := Success);
        }
      }
    }
  }

  /** `executeSwap` never leaves the dialog in `swapping`: either nothing was signed and
      the step, the submissions and the swap hash are unchanged, or the swap was sent and
      its hash recorded at `success`, or it failed back at `confirm` with "Swap failed: …". */
  lemma ExecuteSwapOutcome(s: Session, env: Env, f: FormFields, io: SwapOutcomes)
    ensures var r := AfterExecuteSwap(s, env, f, io);
      ((r.step == s.step && r.submitted == s.submitted && r.swapTxHash == s.swapTxHash) ||
       (r.step == Success && r.swapTxHash.Some? && |r.submitted| == |s.submitted| + 1) ||
       SwapFailedIn(r)) &&
      r.confirmQuote == s.confirmQuote && r.approvalTxHash == s.approvalTxHash && r.quoteRequests == s.quoteRequests
  {
    if FromMeta(env, f).Some? && ToMeta(env, f).Some? && s.confirmQuote.Some? {
      var token := FromMeta(env, f).value;
      var route := s.confirmQuote.value;
      var r := AfterExecuteSwap(s, env, f, io);
      if token.chain == "BTC" {
        assert r == BtcSwap(s, env, route, io.btc);
        BtcSwapOutcome(s, env, route, io.btc);
      } else if token.chain == "SOL" {
        assert r == SolanaSwap(s, env, route, io);
        SolanaSwapOutcome(s, env, route, io);
      } else if route.tx.TxObject? {
        assert r == EvmSwap(s, env.wallets, token, route.tx.to, route.tx.value, route.tx.data, route.tx.gasPrice, io.evm);
        EvmSwapOutcome(s, env.wallets, token, route.tx.to, route.tx.value, route.tx.data, route.tx.gasPrice, io.evm);
      }
    }
  }

  /** The Solana path signs the route's base64 transaction re-encoded as lower-case hex: two
      digits per decoded byte, and decoding the hex gives exactly what `atob` decoded. */
  lemma SolanaPayloadHex(s: Session, env: Env, f: FormFields, io: SwapOutcomes)
    requires FromMeta(env, f).Some? && ToMeta(env, f).Some? && s.confirmQuote.Some?
    requires FromMeta(env, f).value.chain == "SOL" && ResolveAccountForChain(env.wallets, "SOL").Some?
    requires s.confirmQuote.value.tx.TxString? && Base64Decode(s.confirmQuote.value.tx.payload).Some?
    ensures var r := AfterExecuteSwap(s, env, f, io);
      |r.submitted| == |s.submitted| + 1 && r.submitted[|s.submitted|].SolanaSign? &&
      |r.submitted[|s.submitted|].unsignedHex| == 2 * |Base64Decode(s.confirmQuote.value.tx.payload).value| &&
      HexDecode(r.submitted[|s.submitted|].unsignedHex) == Base64Decode(s.confirmQuote.value.tx.payload)
  {
    assert AfterExecuteSwap(s, env, f, io) == SolanaSwap(s, env, s.confirmQuote.value, io);
    SolanaSwapOutcome(s, env, s.confirmQuote.value, io);
    HexRoundTrip(Base64Decode(s.confirmQuote.value.tx.payload).value);
  }

  predicate ApprovalRequired(env: Env, f: FormFields)
  {
    env.needsApproval && FromMeta(env, f).Some? && Truthy(FromMeta(env, f).value.address)
  }

  /** `handleConfirmSwap`. */
  function AfterConfirmSwap(s: Session, env: Env, f: FormFields, io: SwapOutcomes): Session
  {
    if FromMeta(env, f).None? || ToMeta(env, f).None? || s.confirmQuote.None? then s
    else if ApprovalRequired(env, f) then s.(step := Step.Approve)
    else AfterExecuteSwap(s, env, f, io)
  }

  /** From `confirm`, an ERC-20 sell token that needs approval goes to `approve` and
      nothing is signed; the swap runs only otherwise. */
  lemma ConfirmSwapGate(s: Session, env: Env, f: FormFields, io: SwapOutcomes)
    requires FromMeta(env, f).Some? && ToMeta(env, f).Some? && s.confirmQuote.Some?
    ensures ApprovalRequired(env, f) ==> AfterConfirmSwap(s, env, f, io) == s.(step := Step.Approve)
    ensures !ApprovalRequired(env, f) ==> AfterConfirmSwap(s, env, f, io) == AfterExecuteSwap(s, env, f, io)
  {
  }

  /** `handleApprovalSubmit`: a sent approval continues straight into the swap; a thrown
      error is reported and the approval step is shown again. */
  function AfterApprovalSubmit(s: Session, env: Env, f: FormFields, approval: SendOutcomes, swap: SwapOutcomes): Session
  {
    var sent := SendApproval(s, env.wallets, FromMeta(env, f), env.approveData, f.amount, approval);
    ApprovalSubmitSettled(sent.0, sent.1, env, f, swap)
  }

  /** The `try`/`catch` of `handleApprovalSubmit` once `sendApproval` has settled. */
  function ApprovalSubmitSettled(s: Session, result: ApprovalResult, env: Env, f: FormFields, swap: SwapOutcomes): Session
  {
    match result
    case Thrown(m) => s.(status := Some(ApprovalFailed(m)), step := Step.Approve)
    case Hash(h) => if h != "" then AfterExecuteSwap(s, env, f, swap) else s
    case NoHash => s
  }

  /** Approving from the approval step: a thrown error shows the approval step again with
      "Approval failed: …"; a sent approval runs the swap, which either never starts (the
      dialog then stays at `approving`), or succeeds with a second submission, or fails
      back at `confirm`. */
  lemma ApprovalSubmitOutcome(s: Session, env: Env, f: FormFields, approval: SendOutcomes, swap: SwapOutcomes)
    ensures var (s1, a) := SendApproval(s, env.wallets, FromMeta(env, f), env.approveData, f.amount, approval);
      var r := AfterApprovalSubmit(s, env, f, approval, swap);
      (a.Thrown? ==> r.step == Step.Approve && r.status == Some(ApprovalFailed(a.message))) &&
      (HasHash(a) ==> r.approvalTxHash == Some(a.hash) &&
                      ((r.step == Approving && r.submitted == s1.submitted) ||
                       (r.step == Success && r.swapTxHash.Some? && |r.submitted| == |s.submitted| + 2) ||
                       SwapFailedIn(r))) &&
      (a.NoHash? ==> r.step == s.step && r.submitted == s.submitted)
  {
    var (s1, a) := SendApproval(s, env.wallets, FromMeta(env, f), env.approveData, f.amount, approval);
    SendApprovalOutcome(s, env.wallets, FromMeta(env, f), env.approveData, f.amount, approval);
    ExecuteSwapOutcome(s1, env, f, swap);
  }

  /** `handleFormSubmit`: approve first when an ERC-20 sell token needs it, else fetch the
      confirm quote. */
  function AfterFormSubmit(s: Session, env: Env, f: FormFields, response: Async<QuoteResponse>, approval: SendOutcomes): Session
  {
    if ApprovalRequired(env, f) then AfterFormApprove(s, env, f, approval)
    else AfterFetchConfirmQuote(s, env, f, response)
  }

  // ---------------------------------------------------------------------------
  // The component's state

  /** The dialog component. Its `useState` cells are kept in two records: the form fields
      and the session; each `setX` call of the source is one update of a record field. */
  class SwapDialog {
    var form: FormFields
    var session: Session

    constructor()
      ensures form == InitialForm && session == Initial
    {
      form := InitialForm;
      session := Initial;
    }

    /** Selecting the sell token; a change clears the confirm-quote error. */
    method SetFromToken(id: string)
      modifies this
      ensures form == old(form).(fromToken := id)
      ensures session == if id == old(form.fromToken) then old(session) else old(session).(confirmQuoteError := None)
    {
      if id != form.fromToken {
        session := session.(confirmQuoteError := None);
      }
      form := form.(fromToken := id);
    }

    /** Selecting the buy token; a change clears the confirm-quote error. */
    method SetToToken(id: string)
      modifies this
      ensures form == old(form).(toToken := id)
      ensures session == if id == old(form.toToken) then old(session) else old(session).(confirmQuoteError := None)
    {
      if id != form.toToken {
        session := session.(confirmQuoteError := None);
      }
      form := form.(toToken := id);
    }

    /** Editing the amount; a change clears the confirm-quote error. */
    method SetAmount(value: string)
      modifies this
      ensures form == old(form).(amount := value)
      ensures session == if value == old(form.amount) then old(session) else old(session).(confirmQuoteError := None)
    {
      if value != form.amount {
        session := session.(confirmQuoteError := None);
      }
      form := form.(amount := value);
    }

    /** Editing the slippage or the manual destination leaves the session alone. */
    method SetSlippage(value: string)
      modifies this
      ensures form == old(form).(slippage := value) && session == old(session)
    {
      form := form.(slippage := value);
    }

    method SetManualDestination(value: string)
      modifies this
      ensures form == old(form).(manualDestination := value) && session == old(session)
    {
      form := form.(manualDestination := value);
    }

    /** "Back" on the confirm step: the form again, without the confirm quote. */
    method BackToForm()
      modifies this
      ensures form == old(form) && session == old(session).(step := Form, confirmQuote := None)
    {
      session := session.(step := Form, confirmQuote := None);
    }

    /** "Back" on the approval step. */
    method BackToConfirm()
      modifies this
      ensures form == old(form) && session == old(session).(step := Confirm)
    {
      session := session.(step := Confirm);
    }

    /** The `sellAsset` effect: once tokens are loaded, select the token matching the
      requested sell asset, if any. */
    method ApplySellAsset(tokens: seq<Token>, sellAsset: Option<string>)
      modifies this
      ensures !Truthy(sellAsset) || |tokens| == 0 || FindToken(tokens, sellAsset.value).None? ==>
                form == old(form) && session == old(session)
      ensures Truthy(sellAsset) && |tokens| > 0 && FindToken(tokens, sellAsset.value).Some? ==>
                form == old(form).(fromToken := FindToken(tokens, sellAsset.value).value.identifier)
      ensures session.step == old(session.step) && session.submitted == old(session.submitted)
    {
      if !Truthy(sellAsset) || |tokens| == 0 {
        return;
      }
      var matched := FindToken(tokens, sellAsset.value);
      if matched.Some? {
        SetFromToken(matched.value.identifier);
      }
    }

    /** The default-token effect: with no sell token and no requested sell asset, the first
      token is sold; with no buy token, `DefaultToToken` of the current (or first) sell
      token is bought. */
    method ApplyDefaultTokens(tokens: seq<Token>, sellAsset: Option<string>)
      modifies this
      ensures |tokens| == 0 ==> form == old(form) && session == old(session)
      ensures |tokens| > 0 ==>
        form.fromToken == (if old(form.fromToken) == "" && !Truthy(sellAsset) then tokens[0].identifier else old(form.fromToken)) &&
        form.toToken == (if old(form.toToken) == "" then DefaultToToken(tokens, if old(form.fromToken) != "" then old(form.fromToken) else tokens[0].identifier)
                         else old(form.toToken))
      ensures form.amount == old(form.amount) && form.slippage == old(form.slippage) && form.manualDestination == old(form.manualDestination)
      ensures session == old(session) || session == old(session).(confirmQuoteError := None)
    {
      if |tokens| == 0 {
        return;
      }
      var currentFromToken := form.fromToken;
      if currentFromToken == "" && !Truthy(sellAsset) {
        SetFromToken(tokens[0].identifier);
      }
      if form.toToken == "" {
        var currentFrom := if currentFromToken != "" then currentFromToken else tokens[0].identifier;
        SetToToken(DefaultToToken(tokens, currentFrom));
      }
    }

    /** The effect run when the dialog closes. */
    method Close()
      modifies this
      ensures session == Closed(old(session)) && form == old(form)
    {
      session := session.(step := Form, confirmQuote := None, confirmQuoteError := None);
      session := session.(approvalTxHash := None, swapTxHash := None, status := None);
    }

    method FetchConfirmQuote(env: Env, response: Async<QuoteResponse>)
      modifies this
      ensures session == AfterFetchConfirmQuote(old(session), env, old(form), response) && form == old(form)
    {
      var fromMeta := FindToken(env.tokens, form.fromToken);
      var toMeta := FindToken(env.tokens, form.toToken);
      var destination := Destination(env, form);
      if fromMeta.None? || toMeta.None? || destination.None? || env.previewQuote.None? {
        return;
      }
      session := session.(confirmQuoteLoading := true);
      session := session.(confirmQuoteError := None);
      var providers := env.previewQuote.value.providers;
      if providers.None? {
        session := session.(confirmQuoteError := Some(ProvidersTypeError));
      } else {
        var request := ConfirmQuoteRequest(fromMeta.value, toMeta.value, form, destination.value, SourceAddress(env, form), providers.value);
        session := session.(quoteRequests := session.quoteRequests + [request]);
        if response.Threw? {
          session := session.(confirmQuoteError := Some(response.message));
        } else {
          var providerError := Quote.ProviderErrorMessage(response.value);
          var best := Quote.BestRoute(response.value.routes);
          if providerError.Some? {
            session := session.(confirmQuoteError := providerError);
          } else if best.None? {
            session := session.(confirmQuoteError := Some("No valid routes found"));
          } else {
            session := session.(confirmQuote := best);
            session := session.(step := Confirm);
          }
        }
      }
      session := session.(confirmQuoteLoading := false);
    }

    /** `sendApproval`: the approval send of the sell token, returning its outcome. */
    method SendApproval(env: Env, io: SendOutcomes) returns (result: ApprovalResult)
      modifies this
      ensures (session, result) == SwapSession.SendApproval(old(session), env.wallets, FromMeta(env, old(form)), env.approveData, old(form.amount), io)
      ensures form == old(form)
    {
      var fromMeta := FindToken(env.tokens, form.fromToken);
      if fromMeta.None? || !Truthy(fromMeta.value.address) || env.approveData.None? {
        return NoHash;
      }
      var token := fromMeta.value;
      var walletAccount := ResolveAccountForChain(env.wallets, token.chain);
      var rpcUrl := RpcUrl(token.chain);
      var address := ResolveAddressForChain(env.wallets, token.chain);
      if walletAccount.None? || rpcUrl.None? || !Truthy(address) {
        session := session.(status := Some("Wallet or RPC not configured"));
        return NoHash;
      }
      session := session.(step := Approving);
      session := session.(status := None);
      if io.nonce.Threw? {
        return Thrown(io.nonce.message);
      }
      if io.feeData.Threw? {
        return Thrown(io.feeData.message);
      }
      var tx := Erc20.CreateApprovalTransaction(token.address.value, env.approveData.value.spender, form.amount, token.decimals,
                                                address.value, token.chainId, io.nonce.value, io.feeData.value);
      if tx.Err? {
        return Thrown(tx.message);
      }
      session := session.(submitted := session.submitted + [EthereumSign(tx.value, walletAccount.value, rpcUrl.value)]);
      if io.send.Threw? {
        return Thrown(io.send.message);
      }
      session := session.(approvalTxHash := Some(io.send.value));
      if io.wait.Threw? {
        return Thrown(io.wait.message);
      }
      return Hash(io.send.value);
    }

    method HandleFormApprove(env: Env, io: SendOutcomes)
      modifies this
      ensures session == AfterFormApprove(old(session), env, old(form), io) && form == old(form)
    {
      var result := SendApproval(env, io);
      ghost var sent := session;
      match result {
        case Thrown(m) =>
          session := session.(status := Some(ApprovalFailed(m)));
          session := session.(step := Form);
        case Hash(h) =>
          if h != "" {
            session := session.(simulationRefetches := session.simulationRefetches + 1);
            session := session.(step := Form);
          }
        case NoHash =>
      }
      assert session == FormApproveSettled(sent, result);
    }

    method ExecuteSwap(env: Env, io: SwapOutcomes)
      modifies this
      ensures session == AfterExecuteSwap(old(session), env, old(form), io) && form == old(form)
    {
      var fromMeta := FindToken(env.tokens, form.fromToken);
      var toMeta := FindToken(env.tokens, form.toToken);
      if fromMeta.None? || toMeta.None? || session.confirmQuote.None? {
        return;
      }
      var token := fromMeta.value;
      var route := session.confirmQuote.value;
      if token.chain == "BTC" {
        SendBtcSwap(env, route, io.btc);
      } else if token.chain == "SOL" {
        SendSolanaSwap(env, route, io);
      } else if route.tx.TxObject? {
        SendEvmSwap(env.wallets, token, route.tx, io.evm);
      } else {
        session := session.(status := Some("Swapping from " + token.chain + " is not supported yet"));
      }
    }

    /** The Bitcoin branch of `executeSwap`. */
    method SendBtcSwap(env: Env, route: QuoteRoute, outcome: BtcOutcome)
      modifies this
      ensures session == BtcSwap(old(session), env, route, outcome) && form == old(form)
    {
      var walletAccount := ResolveAccountForChain(env.wallets, "BTC");
      if walletAccount.None? {
        session := session.(status := Some("BTC wallet not configured"));
        return;
      }
      if !env.httpClientReady {
        session := session.(status := Some("Turnkey client not initialized"));
        return;
      }
      if !route.tx.TxString? {
        session := session.(status := Some("Swap route missing transaction data"));
        return;
      }
      session := session.(step := Swapping);
      session := session.(status := Some("Submitting swap..."));
      session := session.(submitted := session.submitted + [BitcoinSign(route.tx.payload, walletAccount.value)]);
      if outcome.Broadcast? {
        session := session.(swapTxHash := Some(outcome.txid));
        session := session.(step := Success);
      } else {
        session := session.(status := Some(SwapFailed(BtcFailure(outcome))));
        session := session.(step := Confirm);
      }
    }

    /** The Solana branch of `executeSwap`. */
    method SendSolanaSwap(env: Env, route: QuoteRoute, io: SwapOutcomes)
      modifies this
      ensures session == SolanaSwap(old(session), env, route, io) && form == old(form)
    {
      var walletAccount := ResolveAccountForChain(env.wallets, "SOL");
      if walletAccount.None? {
        session := session.(status := Some("SOL wallet not configured"));
        return;
      }
      if !route.tx.TxString? {
        session := session.(status := Some("Swap route missing transaction data"));
        return;
      }
      session := session.(step := Swapping);
      session := session.(status := Some("Submitting swap..."));
      var txBytes := Base64Decode(route.tx.payload);
      if txBytes.None? {
        session := session.(status := Some(SwapFailed(io.atobMessage)));
        session := session.(step := Confirm);
        return;
      }
      var unsignedTransaction := HexEncode(txBytes.value);
      session := session.(submitted := session.submitted + [SolanaSign(unsignedTransaction, walletAccount.value, SolanaRpcUrl)]);
      if io.solanaSend.Threw? {
        session := session.(status := Some(SwapFailed(io.solanaSend.message)));
        session := session.(step := Confirm);
        return;
      }
      session := session.(swapTxHash := Some(io.solanaSend.value));
      session := session.(step := Success);
    }

    /** The EVM branch of `executeSwap`. */
    method SendEvmSwap(wallets: seq<Wallet>, token: Token, call: RouteTx, io: SendOutcomes)
      requires call.TxObject?
      modifies this
      ensures session == EvmSwap(old(session), wallets, token, call.to, call.value, call.data, call.gasPrice, io) && form == old(form)
    {
      var walletAccount := ResolveAccountForChain(wallets, token.chain);
      var rpcUrl := RpcUrl(token.chain);
      if walletAccount.None? || rpcUrl.None? {
        session := session.(status := Some("Wallet or RPC not configured"));
        return;
      }
      session := session.(step := Swapping);
      session := session.(status := Some("Submitting swap..."));
      var address := ResolveAddressForChain(wallets, token.chain);
      var failure: Option<string> := None;
      if !Truthy(address) {
        failure := Some("Source address not found");
      } else if io.nonce.Threw? {
        failure := Some(io.nonce.message);
      } else if io.feeData.Threw? {
        failure := Some(io.feeData.message);
      } else {
        var txParams := SwapTransaction(call.to, call.value, call.data, call.gasPrice, token.chainId, io.nonce.value, io.feeData.value);
        session := session.(submitted := session.submitted + [EthereumSign(txParams, walletAccount.value, rpcUrl.value)]);
        if io.send.Threw? {
          failure := Some(io.send.message);
        } else {
          session := session.(swapTxHash := Some(io.send.value));
          if io.wait.Threw? {
            failure := Some(io.wait.message);
          } else {
            session := session.(step := Success);
          }
        }
      }
      if failure.Some? {
        session := session.(status := Some(SwapFailed(failure.value)));
        session := session.(step := Confirm);
      }
    }

    method HandleConfirmSwap(env: Env, io: SwapOutcomes)
      modifies this
      ensures session == AfterConfirmSwap(old(session), env, old(form), io) && form == old(form)
    {
      var fromMeta := FindToken(env.tokens, form.fromToken);
      var toMeta := FindToken(env.tokens, form.toToken);
      if fromMeta.None? || toMeta.None? || session.confirmQuote.None? {
        return;
      }
      if env.needsApproval && Truthy(fromMeta.value.address) {
        session := session.(step := Step.Approve);
        return;
      }
      ExecuteSwap(env, io);
    }

    method HandleApprovalSubmit(env: Env, approval: SendOutcomes, swap: SwapOutcomes)
      modifies this
      ensures session == AfterApprovalSubmit(old(session), env, old(form), approval, swap) && form == old(form)
    {
      var result := SendApproval(env, approval);
      ghost var sent := session;
      match result {
        case Thrown(m) =>
          session := session.(status := Some(ApprovalFailed(m)));
          session := session.(step := Step.Approve);
        case Hash(h) =>
          if h != "" {
            ExecuteSwap(env, swap);
          }
        case NoHash =>
      }
      assert session == ApprovalSubmitSettled(sent, result, env, form, swap);
    }

    method HandleFormSubmit(env: Env, response: Async<QuoteResponse>, approval: SendOutcomes)
      modifies this
      ensures session == AfterFormSubmit(old(session), env, old(form), response, approval) && form == old(form)
    {
      var fromMeta := FindToken(env.tokens, form.fromToken);
      if env.needsApproval && fromMeta.Some? && Truthy(fromMeta.value.address) {
        HandleFormApprove(env, approval);
      } else {
        FetchConfirmQuote(env, response);
      }
    }
  }
}
