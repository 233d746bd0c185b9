/** The older swap dialog (`SwapModal`). It shares the session, the approval send and the
    EVM swap send with `Swap`, and differs in token lookup (exact identifiers), in the
    destination (the wallet's own address only), in the confirm quote (THORChain only,
    refused on any provider error), and in the swap itself (EVM only; otherwise it shows
    deposit instructions). */
module SwapModal {
  import opened Wrappers
  import opened Chains
  import opened Api
  import opened Evm
  import opened SwapSession
  import Quote
  import Swap

  datatype ModalForm = ModalForm(fromToken: string, toToken: string, amount: string, slippage: string)

  const ThorchainOnly: seq<Option<string>> := [Some("THORCHAIN")]

  /** `tokens.find(t => t.identifier === id)`. */
  function ExactToken(tokens: seq<Token>, id: string): (r: Option<Token>)
    ensures r.Some? ==> r.value in tokens && r.value.identifier == id
    ensures r.None? <==> forall t :: t in tokens ==> t.identifier != id
  {
    if |tokens| == 0 then None
    else if tokens[0].identifier == id then Some(tokens[0])
    else ExactToken(tokens[1..], id)
  }

  /** A token this dialog finds, `Swap`'s case-insensitive lookup finds too (possibly an
      earlier token whose identifier differs only in case). */
  lemma {:induction false} ExactTokenFoundIgnoringCase(tokens: seq<Token>, id: string)
    ensures ExactToken(tokens, id).Some? ==> Swap.FindToken(tokens, id).Some?
    ensures Swap.FindToken(tokens, id).None? ==> ExactToken(tokens, id).None?
  {
    if |tokens| > 0 && tokens[0].identifier != id {
      ExactTokenFoundIgnoringCase(tokens[1..], id);
    }
  }

  function FromMeta(env: Env, f: ModalForm): Option<Token> { ExactToken(env.tokens, f.fromToken) }

  function ToMeta(env: Env, f: ModalForm): Option<Token> { ExactToken(env.tokens, f.toToken) }

  function SourceAddress(env: Env, f: ModalForm): Option<string>
  {
    if FromMeta(env, f).None? then None else ResolveAddressForChain(env.wallets, FromMeta(env, f).value.chain)
  }

  /** The destination is the wallet's own address on the buy token's chain; there is no
      manual entry. */
  function Destination(env: Env, f: ModalForm): Option<string>
  {
    if ToMeta(env, f).None? then None else ResolveAddressForChain(env.wallets, ToMeta(env, f).value.chain)
  }

  /** The live quote request: THORChain only, no refund address, `dry` off. */
  function ConfirmQuoteRequest(token: Token, buy: Token, f: ModalForm, destination: string, source: Option<string>): (r: QuoteRequest)
    ensures !r.dry && r.providers == ThorchainOnly && r.refundAddress.None?
    ensures r.sellAsset == token.identifier && r.buyAsset == buy.identifier && r.destinationAddress == Some(destination)
    ensures r.sourceAddress.Some? <==> Truthy(source)
  {
    QuoteRequest(token.identifier, buy.identifier, f.amount, Some(destination), if Truthy(source) then source else None, None,
                 f.slippage, ThorchainOnly, false)
  }

  /** The error raised for a response that lists provider errors, routes or not: the first
      error's text when it is a string, else "Quote error". */
  function ProviderErrorMessage(response: QuoteResponse): (r: Option<string>)
    ensures r.Some? <==> response.providerErrors.Some? && |response.providerErrors.value| > 0
    ensures r.Some? ==> r.value == Quote.ProviderErrorMessageText(response.providerErrors.value[0])
  {
    if response.providerErrors.Some? && |response.providerErrors.value| > 0 then
      Some(Quote.ProviderErrorMessageText(response.providerErrors.value[0]))
    else None
  }

  /** Unlike `Swap`, this dialog refuses a response that carries routes when any provider
      also reported an error; the two agree on responses without routes. */
  lemma ProviderErrorsRefuseRoutes(response: QuoteResponse)
    ensures |response.routes| > 0 && ProviderErrorMessage(response).Some? ==> Quote.ProviderErrorMessage(response).None?
    ensures |response.routes| == 0 ==> ProviderErrorMessage(response) == Quote.ProviderErrorMessage(response)
  {
  }

  predicate CanFetchConfirmQuote(env: Env, f: ModalForm)
  {
    FromMeta(env, f).Some? && ToMeta(env, f).Some? && Truthy(Destination(env, f))
  }

  /** `fetchConfirmQuote`. */
  function AfterFetchConfirmQuote(s: Session, env: Env, f: ModalForm, response: Async<QuoteResponse>): Session
  {
    if !CanFetchConfirmQuote(env, f) then s
    else
      var request := ConfirmQuoteRequest(FromMeta(env, f).value, ToMeta(env, f).value, f, Destination(env, f).value, SourceAddress(env, f));
      var s1 := s.(confirmQuoteLoading := true, confirmQuoteError := None, quoteRequests := s.quoteRequests + [request]);
      ConfirmQuoteSettled(s1, response).(confirmQuoteLoading := false)
  }

  function ConfirmQuoteSettled(s: Session, response: Async<QuoteResponse>): Session
  {
    match response
    case Threw(m) => s.(confirmQuoteError := Some(m))
    case Done(resp) =>
      match ProviderErrorMessage(resp)
      case Some(m) => s.(confirmQuoteError := Some(m))
      case None =>
        match Quote.BestRoute(resp.routes)
        case None => s.(confirmQuoteError := Some("No valid routes found"))
        case Some(best) => s.(confirmQuote := Some(best), step := Confirm)
  }

  /** The confirm quote is taken exactly when the request went out and came back with
      routes and no provider error; then it is the best route and the step is `confirm`.
      Otherwise an error is shown and the step and quote stay. Loading always ends. */
  lemma FetchConfirmQuoteOutcome(s: Session, env: Env, f: ModalForm, response: Async<QuoteResponse>)
    ensures !CanFetchConfirmQuote(env, f) ==> AfterFetchConfirmQuote(s, env, f, response) == s
    ensures CanFetchConfirmQuote(env, f) ==>
      var r := AfterFetchConfirmQuote(s, env, f, response);
      var ok := response.Done? && |response.value.routes| > 0 && ProviderErrorMessage(response.value).None?;
      !r.confirmQuoteLoading && |r.quoteRequests| == |s.quoteRequests| + 1 &&
      (ok ==> r.confirmQuoteError.None? && r.step == Confirm && r.confirmQuote == Quote.BestRoute(response.value.routes)) &&
      (!ok ==> r.confirmQuoteError.Some? && r.step == s.step && r.confirmQuote == s.confirmQuote) &&
      r.submitted == s.submitted
  {
  }

  /** `handleFormApprove`: once the approval's receipt arrives the simulation is refetched
      and the form shown again, whatever the hash; a thrown error is reported. */
  function AfterFormApprove(s: Session, env: Env, f: ModalForm, io: SendOutcomes): Session
  {
    var sent := SendApproval(s, env.wallets, FromMeta(env, f), env.approveData, f.amount, io);
    FormApproveSettled(sent.0, sent.1)
  }

  function FormApproveSettled(s: Session, result: ApprovalResult): Session
  {
    match result
    case Thrown(m) => s.(status := Some(ApprovalFailed(m)), step := Form)
    case Hash(_) => s.(simulationRefetches := s.simulationRefetches + 1, step := Form)
    case NoHash => s
  }

  /** Unlike `Swap`, an empty hash returned by the signer still counts as sent: the form
      is shown again and the simulation refetched. */
  lemma FormApproveOutcome(s: Session, env: Env, f: ModalForm, io: SendOutcomes)
    ensures var (s1, a) := SendApproval(s, env.wallets, FromMeta(env, f), env.approveData, f.amount, io);
      var r := AfterFormApprove(s, env, f, io);
      (a.Thrown? ==> r.step == Form && r.status == Some(ApprovalFailed(a.message)) && r.simulationRefetches == s.simulationRefetches) &&
      (a.Hash? ==> r.step == Form && r.simulationRefetches == s.simulationRefetches + 1 && r.approvalTxHash == Some(a.hash)) &&
      (a.NoHash? ==> r.step == s.step && r.submitted == s.submitted)
  {
    SendApprovalOutcome(s, env.wallets, FromMeta(env, f), env.approveData, f.amount, io);
  }

  /** The route's transaction is truthy: an EVM call object or a non-empty string. */
  predicate HasTx(route: QuoteRoute)
  {
    route.tx.TxObject? || (route.tx.TxString? && route.tx.payload != "")
  }

  /** The instructions shown for a route without a transaction. */
  function DepositInstructions(amount: string, token: Token, route: QuoteRoute): string
  {
    var target := FirstTruthy(route.targetAddress, route.inboundAddress);
    "Send " + amount + " " + token.ticker + " to " + (if target.Some? then target.value else "N/A") +
    " with memo: " + (if Truthy(route.memo) then route.memo.value else "N/A")
  }

  /** `executeSwap`: a route with a transaction is sent as an EVM call; a string
      transaction is destructured as an object, so all four call fields are absent. */
  function AfterExecuteSwap(s: Session, env: Env, f: ModalForm, io: SendOutcomes): Session
  {
    if FromMeta(env, f).None? || ToMeta(env, f).None? || s.confirmQuote.None? then s
    else
      var token := FromMeta(env, f).value;
      var route := s.confirmQuote.value;
      if !HasTx(route) then s.(status := Some(DepositInstructions(f.amount, token, route)))
      else if route.tx.TxObject? then EvmSwap(s, env.wallets, token, route.tx.to, route.tx.value, route.tx.data, route.tx.gasPrice, io)
      else EvmSwap(s, env.wallets, token, None, None, None, None, io)
  }

  /** The swap never stops in `swapping`; without a transaction only the deposit
      instructions are shown. */
  lemma ExecuteSwapOutcome(s: Session, env: Env, f: ModalForm, io: SendOutcomes)
    ensures var r := AfterExecuteSwap(s, env, f, io);
      ((r.step == s.step && r.submitted == s.submitted && r.swapTxHash == s.swapTxHash) ||
       (r.step == Success && r.swapTxHash.Some? && |r.submitted| == |s.submitted| + 1) ||
       SwapFailedIn(r)) &&
      r.confirmQuote == s.confirmQuote && r.approvalTxHash == s.approvalTxHash
    ensures FromMeta(env, f).Some? && ToMeta(env, f).Some? && s.confirmQuote.Some? && !HasTx(s.confirmQuote.value) ==>
      AfterExecuteSwap(s, env, f, io) == s.(status := Some(DepositInstructions(f.amount, FromMeta(env, f).value, s.confirmQuote.value)))
  {
    if FromMeta(env, f).Some? && ToMeta(env, f).Some? && s.confirmQuote.Some? {
      var token := FromMeta(env, f).value;
      var tx := s.confirmQuote.value.tx;
      var r := AfterExecuteSwap(s, env, f, io);
      if !HasTx(s.confirmQuote.value) {
      } else if tx.TxObject? {
        assert r == EvmSwap(s, env.wallets, token, tx.to, tx.value, tx.data, tx.gasPrice, io);
        EvmSwapOutcome(s, env.wallets, token, tx.to, tx.value, tx.data, tx.gasPrice, io);
      } else {
        assert r == EvmSwap(s, env.wallets, token, None, None, None, None, io);
        EvmSwapOutcome(s, env.wallets, token, None, None, None, None, io);
      }
    }
  }

  /** A non-empty string transaction (a Solana or Bitcoin payload) is sent to the sell
      chain as an EVM transaction with no recipient, value 0 and data `0x`. */
  lemma StringTxSentAsEmptyCall(s: Session, env: Env, f: ModalForm, io: SendOutcomes)
    requires FromMeta(env, f).Some? && ToMeta(env, f).Some? && s.confirmQuote.Some?
    requires s.confirmQuote.value.tx.TxString? && s.confirmQuote.value.tx.payload != ""
    requires ResolveAccountForChain(env.wallets, FromMeta(env, f).value.chain).Some? && RpcUrl(FromMeta(env, f).value.chain).Some?
    requires Truthy(ResolveAddressForChain(env.wallets, FromMeta(env, f).value.chain))
    requires io.nonce.Done? && io.feeData.Done? && io.send.Done?
    ensures var r := AfterExecuteSwap(s, env, f, io);
      |r.submitted| == |s.submitted| + 1 && r.submitted[|s.submitted|].EthereumSign? &&
      r.submitted[|s.submitted|].tx.to.None? && r.submitted[|s.submitted|].tx.data == Raw("0x") &&
      r.submitted[|s.submitted|].tx.value == Wei(0)
  {
    var token := FromMeta(env, f).value;
    assert HasTx(s.confirmQuote.value) && !s.confirmQuote.value.tx.TxObject?;
    assert AfterExecuteSwap(s, env, f, io) == EvmSwap(s, env.wallets, token, None, None, None, None, io);
    EvmSwapSends(s, env.wallets, token, None, None, None, None, io);
    var tx := SwapTransaction(None, None, None, None, token.chainId, io.nonce.value, io.feeData.value);
    assert tx.to.None? && tx.data == Raw("0x") && tx.value == Wei(0);
  }

  predicate ApprovalRequired(env: Env, f: ModalForm)
  {
    env.needsApproval && FromMeta(env, f).Some? && Truthy(FromMeta(env, f).value.address)
  }

  /** `handleConfirmSwap`. */
  function AfterConfirmSwap(s: Session, env: Env, f: ModalForm, io: SendOutcomes): Session
  {
    if FromMeta(env, f).None? || ToMeta(env, f).None? || s.confirmQuote.None? then s
    else if ApprovalRequired(env, f) then s.(step := Step.Approve)
    else AfterExecuteSwap(s, env, f, io)
  }

  /** From `confirm`, a sell token needing approval goes to `approve` without signing. */
  lemma ConfirmSwapGate(s: Session, env: Env, f: ModalForm, io: SendOutcomes)
    requires FromMeta(env, f).Some? && ToMeta(env, f).Some? && s.confirmQuote.Some? && ApprovalRequired(env, f)
    ensures AfterConfirmSwap(s, env, f, io) == s.(step := Step.Approve)
    ensures AfterConfirmSwap(s, env, f, io).submitted == s.submitted
  {
  }

  /** `handleApprovalSubmit`: the approval is sent and, once its receipt arrives, the swap
      is run; a thrown error shows the approval step again. */
  function AfterApprovalSubmit(s: Session, env: Env, f: ModalForm, approval: SendOutcomes, swap: SendOutcomes): Session
  {
    var sent := SendApproval(s, env.wallets, FromMeta(env, f), env.approveData, f.amount, approval);
    ApprovalSubmitSettled(sent.0, sent.1, env, f, swap)
  }

  function ApprovalSubmitSettled(s: Session, result: ApprovalResult, env: Env, f: ModalForm, swap: SendOutcomes): Session
  {
    match result
    case Thrown(m) => s.(status := Some(ApprovalFailed(m)), step := Step.Approve)
    case Hash(_) => AfterExecuteSwap(s, env, f, swap)
    case NoHash => s
  }

  lemma ApprovalSubmitOutcome(s: Session, env: Env, f: ModalForm, approval: SendOutcomes, swap: SendOutcomes)
    ensures var (s1, a) := SendApproval(s, env.wallets, FromMeta(env, f), env.approveData, f.amount, approval);
      var r := AfterApprovalSubmit(s, env, f, approval, swap);
      (a.Thrown? ==> r.step == Step.Approve && r.status == Some(ApprovalFailed(a.message))) &&
      (a.Hash? ==> r.approvalTxHash == Some(a.hash) &&
                   ((r.step == Approving && r.submitted == s1.submitted) ||
                    (r.step == Success && r.swapTxHash.Some? && |r.submitted| == |s.submitted| + 2) ||
                    SwapFailedIn(r))) &&
      (a.NoHash? ==> r.step == s.step && r.submitted == s.submitted)
  {
    var (s1, a) := SendApproval(s, env.wallets, FromMeta(env, f), env.approveData, f.amount, approval);
    SendApprovalOutcome(s, env.wallets, FromMeta(env, f), env.approveData, f.amount, approval);
    ExecuteSwapOutcome(s1, env, f, swap);
  }

  function AfterFormSubmit(s: Session, env: Env, f: ModalForm, response: Async<QuoteResponse>, approval: SendOutcomes): Session
  {
    if ApprovalRequired(env, f) then AfterFormApprove(s, env, f, approval)
    else AfterFetchConfirmQuote(s, env, f, response)
  }

  // ---------------------------------------------------------------------------
  // The component's state

  /** The dialog component, its `useState` cells kept in two records. The approval send
      and the EVM swap send are the shared definitions of `SwapSession`, which this
      component's source repeats word for word. */
  class SwapModalDialog {
    var form: ModalForm
    var session: Session

    /** The sell token starts as the requested sell asset, if any. */
    constructor(sellAsset: Option<string>)
      ensures form == ModalForm(if Truthy(sellAsset) then sellAsset.value else "", "", "", "1")
      ensures session == Initial
    {
      form := ModalForm(if Truthy(sellAsset) then sellAsset.value else "", "", "", "1");
      session := Initial;
    }

    method SetFromToken(id: string)
      modifies this
      ensures form == old(form).(fromToken := id) && session == old(session)
    {
      form := form.(fromToken := id);
    }

    method SetToToken(id: string)
      modifies this
      ensures form == old(form).(toToken := id) && session == old(session)
    {
      form := form.(toToken := id);
    }

    method SetAmount(value: string)
      modifies this
      ensures form == old(form).(amount := value) && session == old(session)
    {
      form := form.(amount := value);
    }

    method SetSlippage(value: string)
      modifies this
      ensures form == old(form).(slippage := value) && session == old(session)
    {
      form := form.(slippage := value);
    }

    method BackToForm()
      modifies this
      ensures form == old(form) && session == old(session).(step := Form, confirmQuote := None)
    {
      session := session.(step := Form, confirmQuote := None);
    }

    method BackToConfirm()
      modifies this
      ensures form == old(form) && session == old(session).(step := Confirm)
    {
      session := session.(step := Confirm);
    }

    /** The default-token effect: a sell token that is empty or not in the list is replaced
      by the first token, so afterwards the sell token is always a listed one; an empty buy
      token becomes `DefaultToToken` of the previous (or first) sell token. */
    method ApplyDefaultTokens(tokens: seq<Token>)
      modifies this
      ensures |tokens| == 0 ==> form == old(form)
      ensures |tokens| > 0 ==> ExactToken(tokens, form.fromToken).Some?
      ensures |tokens| > 0 ==>
        form.fromToken == (if old(form.fromToken) == "" || ExactToken(tokens, old(form.fromToken)).None? then tokens[0].identifier else old(form.fromToken)) &&
        form.toToken == (if old(form.toToken) == "" then DefaultToToken(tokens, if old(form.fromToken) != "" then old(form.fromToken) else tokens[0].identifier)
                         else old(form.toToken))
      ensures form.amount == old(form.amount) && form.slippage == old(form.slippage) && session == old(session)
    {
      if |tokens| == 0 {
        return;
      }
      var fromToken := form.fromToken;
      if fromToken == "" || ExactToken(tokens, fromToken).None? {
        form := form.(fromToken := tokens[0].identifier);
      }
      if form.toToken == "" {
        form := form.(toToken := DefaultToToken(tokens, if fromToken != "" then fromToken else tokens[0].identifier));
      }
    }

    method Close()
      modifies this
      ensures session == Closed(old(session)) && form == old(form)
    {
      session := session.(step := Form, confirmQuote := None, confirmQuoteError := None);
      session := session.(approvalTxHash := None, swapTxHash := None, status := None);
    }

    method FetchConfirmQuote(env: Env, response: Async<QuoteResponse>)
      modifies this
      ensures session == AfterFetchConfirmQuote(old(session), env, old(form), response) && form == old(form)
    {
      var fromMeta := ExactToken(env.tokens, form.fromToken);
      var toMeta := ExactToken(env.tokens, form.toToken);
      var destination := Destination(env, form);
      if fromMeta.None? || toMeta.None? || !Truthy(destination) {
        return;
      }
      session := session.(confirmQuoteLoading := true);
      session := session.(confirmQuoteError := None);
      var request := ConfirmQuoteRequest(fromMeta.value, toMeta.value, form, destination.value, SourceAddress(env, form));
      session := session.(quoteRequests := session.quoteRequests + [request]);
      if response.Threw? {
        session := session.(confirmQuoteError := Some(response.message));
      } else {
        var providerError := ProviderErrorMessage(response.value);
        var best := Quote.BestRoute(response.value.routes);
        if providerError.Some? {
          session := session.(confirmQuoteError := providerError);
        } else if best.None? {
          session := session.(confirmQuoteError := Some("No valid routes found"));
        } else {
          session := session.(confirmQuote := best);
          session := session.(step := Confirm);
        }
      }
      session := session.(confirmQuoteLoading := false);
    }

    method HandleFormApprove(env: Env, io: SendOutcomes)
      modifies this
      ensures session == AfterFormApprove(old(session), env, old(form), io) && form == old(form)
    {
      var sent := SendApproval(session, env.wallets, FromMeta(env, form), env.approveData, form.amount, io);
      session := sent.0;
      match sent.1 {
        case Thrown(m) =>
          session := session.(status := Some(ApprovalFailed(m)));
          session := session.(step := Form);
        case Hash(_) =>
          session := session.(simulationRefetches := session.simulationRefetches + 1);
          session := session.(step := Form);
        case NoHash =>
      }
    }

    method ExecuteSwap(env: Env, io: SendOutcomes)
      modifies this
      ensures session == AfterExecuteSwap(old(session), env, old(form), io) && form == old(form)
    {
      var fromMeta := ExactToken(env.tokens, form.fromToken);
      var toMeta := ExactToken(env.tokens, form.toToken);
      if fromMeta.None? || toMeta.None? || session.confirmQuote.None? {
        return;
      }
      var route := session.confirmQuote.value;
      if !HasTx(route) {
        session := session.(status := Some(DepositInstructions(form.amount, fromMeta.value, route)));
      } else if route.tx.TxObject? {
        session := EvmSwap(session, env.wallets, fromMeta.value, route.tx.to, route.tx.value, route.tx.data, route.tx.gasPrice, io);
      } else {
        session := EvmSwap(session, env.wallets, fromMeta.value, None, None, None, None, io);
      }
    }

    method HandleConfirmSwap(env: Env, io: SendOutcomes)
      modifies this
      ensures session == AfterConfirmSwap(old(session), env, old(form), io) && form == old(form)
    {
      var fromMeta := ExactToken(env.tokens, form.fromToken);
      var toMeta := ExactToken(env.tokens, form.toToken);
      if fromMeta.None? || toMeta.None? || session.confirmQuote.None? {
        return;
      }
      if env.needsApproval && Truthy(fromMeta.value.address) {
        session := session.(step := Step.Approve);
        return;
      }
      ExecuteSwap(env, io);
    }

    method HandleApprovalSubmit(env: Env, approval: SendOutcomes, swap: SendOutcomes)
      modifies this
      ensures session == AfterApprovalSubmit(old(session), env, old(form), approval, swap) && form == old(form)
    {
      var sent := SendApproval(session, env.wallets, FromMeta(env, form), env.approveData, form.amount, approval);
      session := sent.0;
      match sent.1 {
        case Thrown(m) =>
          session := session.(status := Some(ApprovalFailed(m)));
          session := session.(step := Step.Approve);
        case Hash(_) =>
          ExecuteSwap(env, swap);
        case NoHash =>
      }
    }

    method HandleFormSubmit(env: Env, response: Async<QuoteResponse>, approval: SendOutcomes)
      modifies this
      ensures session == AfterFormSubmit(old(session), env, old(form), response, approval) && form == old(form)
    {
      var fromMeta := ExactToken(env.tokens, form.fromToken);
      if env.needsApproval && fromMeta.Some? && Truthy(fromMeta.value.address) {
        HandleFormApprove(env, approval);
      } else {
        FetchConfirmQuote(env, response);
      }
    }
  }
}
