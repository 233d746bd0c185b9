/** The session state shared by the two swap dialogs (the current `Swap` dialog and the
    older `SwapModal`): the step machine `form → confirm → approve → approving →
    swapping → success`, the quotes, hashes and status message, and the parts of the
    handlers both dialogs share word for word — the close reset, the approval send and
    the EVM swap send. */
module SwapSession {
  import opened Wrappers
  import opened Text
  import opened Chains
  import opened Api
  import opened Evm
  import Erc20
  import Simulation

  datatype Step = Form | Confirm | Approve | Approving | Swapping | Success

  /** A request handed to the wallet's signer: an EVM transaction, a hex-encoded Solana
      transaction, or a Bitcoin PSBT. */
  datatype SignRequest =
    | EthereumSign(tx: EvmTx, account: Account, rpcUrl: string)
    | SolanaSign(unsignedHex: string, account: Account, rpcUrl: string)
    | BitcoinSign(psbt: string, account: Account)

  /** What the hooks and the wallet kit provide when a handler runs: the token list, the
      wallets, the preview quote, the approval simulation and whether the signing client
      is ready. */
  datatype Env = Env(
    tokens: seq<Token>,
    wallets: seq<Wallet>,
    previewQuote: Option<QuoteRoute>,
    needsApproval: bool,
    approveData: Option<Simulation.ApproveData>,
    httpClientReady: bool)

  /** The dialog's session fields. `simulationRefetches` counts calls of the simulation's
      `refetch`; `quoteRequests` and `submitted` record what was sent to the quote API and
      to the signer. */
  datatype Session = Session(
    step: Step,
    status: Option<string>,
    approvalTxHash: Option<string>,
    swapTxHash: Option<string>,
    confirmQuote: Option<QuoteRoute>,
    confirmQuoteLoading: bool,
    confirmQuoteError: Option<string>,
    simulationRefetches: nat,
    quoteRequests: seq<QuoteRequest>,
    submitted: seq<SignRequest>)

  const Initial := Session(Form, None, None, None, None, false, None, 0, [], [])

  /** The effect run when the dialog closes. */
  function Closed(s: Session): (r: Session)
    ensures r.step == Form && r.confirmQuote.None? && r.confirmQuoteError.None?
    ensures r.approvalTxHash.None? && r.swapTxHash.None? && r.status.None?
    ensures r.confirmQuoteLoading == s.confirmQuoteLoading && r.simulationRefetches == s.simulationRefetches
    ensures r.quoteRequests == s.quoteRequests && r.submitted == s.submitted
  {
    s.(step := Form, confirmQuote := None, confirmQuoteError := None, approvalTxHash := None, swapTxHash := None, status := None)
  }

  /** Closing twice is closing once, and a fresh session is already closed. */
  lemma ClosedIdempotent(s: Session)
    ensures Closed(Closed(s)) == Closed(s)
    ensures Closed(Initial) == Initial
  {
  }

  /** `tokens.find(t => t.identifier !== id)`. */
  function FirstOther(tokens: seq<Token>, id: string): (r: Option<Token>)
    ensures r.Some? ==> r.value in tokens && r.value.identifier != id
    ensures r.None? <==> forall t :: t in tokens ==> t.identifier == id
    ensures r.Some? ==> exists k :: 0 <= k < |tokens| && tokens[k] == r.value && forall j :: 0 <= j < k ==> tokens[j].identifier == id
  {
    if |tokens| == 0 then None
    else if tokens[0].identifier != id then Some(tokens[0])
    else
      var r := FirstOther(tokens[1..], id);
      FirstOtherShift(tokens, id, r);
      r
  }

  lemma FirstOtherShift(tokens: seq<Token>, id: string, r: Option<Token>)
    requires |tokens| > 0 && tokens[0].identifier == id
    requires r.Some? ==> exists k :: 0 <= k < |tokens[1..]| && tokens[1..][k] == r.value && forall j :: 0 <= j < k ==> tokens[1..][j].identifier == id
    ensures r.Some? ==> exists k :: 0 <= k < |tokens| && tokens[k] == r.value && forall j :: 0 <= j < k ==> tokens[j].identifier == id
  {
    if r.Some? {
      var k :| 0 <= k < |tokens[1..]| && tokens[1..][k] == r.value && forall j :: 0 <= j < k ==> tokens[1..][j].identifier == id;
      assert tokens[k + 1] == r.value;
      assert forall j :: 1 <= j < k + 1 ==> tokens[j] == tokens[1..][j - 1];
    }
  }

  /** The default buy token: the first token other than `currentFrom`, else the second
      token, else none (`differentToken?.identifier || tokens[1]?.identifier || ''`). */
  function DefaultToToken(tokens: seq<Token>, currentFrom: string): (r: string)
    ensures r == "" || exists t :: t in tokens && t.identifier == r
  {
    var other := FirstOther(tokens, currentFrom);
    if other.Some? && other.value.identifier != "" then other.value.identifier
    else if |tokens| > 1 then tokens[1].identifier
    else ""
  }

  /** The default buy token differs from the sell token whenever some token has another
      identifier and the first such one is not empty; when every token has the sell
      token's identifier, the second token is chosen anyway and equals the sell token. */
  lemma DefaultToTokenChoice(tokens: seq<Token>, currentFrom: string)
    ensures FirstOther(tokens, currentFrom).Some? && FirstOther(tokens, currentFrom).value.identifier != "" ==>
              DefaultToToken(tokens, currentFrom) != currentFrom
    ensures (forall t :: t in tokens ==> t.identifier == currentFrom) ==>
              DefaultToToken(tokens, currentFrom) == (if |tokens| > 1 then currentFrom else "")
  {
    if |tokens| > 1 { assert tokens[1] in tokens; }
  }

  function ApprovalFailed(message: string): string { "Approval failed: " + message }

  function SwapFailed(message: string): string { "Swap failed: " + message }

  /** The result of sending an approval: `null` (not started or not configured), a hash,
      or a thrown error. */
  datatype ApprovalResult = NoHash | Hash(hash: string) | Thrown(message: string)

  /** JavaScript truthiness of the approval result. */
  predicate HasHash(r: ApprovalResult)
  {
    r.Hash? && r.hash != ""
  }

  /** Sends the approval for the sell token: requires an ERC-20 token and approval data,
      then a signing account, an RPC endpoint and a source address (else the status
      "Wallet or RPC not configured"). It then moves to `approving` and continues with
      `ApprovalSend`. */
  function SendApproval(s: Session, wallets: seq<Wallet>, fromMeta: Option<Token>,
                        approveData: Option<Simulation.ApproveData>, amount: string, io: SendOutcomes): (Session, ApprovalResult)
  {
    if fromMeta.None? || !Truthy(fromMeta.value.address) || approveData.None? then (s, NoHash)
    else
      var token := fromMeta.value;
      var account := ResolveAccountForChain(wallets, token.chain);
      var rpcUrl := RpcUrl(token.chain);
      var address := ResolveAddressForChain(wallets, token.chain);
      if account.None? || rpcUrl.None? || !Truthy(address) then (s.(status := Some("Wallet or RPC not configured")), NoHash)
      else ApprovalSend(s.(step := Approving, status := None), token, approveData.value.spender, amount, account.value, rpcUrl.value, io)
  }

  /** An approval that never started leaves the session as it was, apart from the
      "Wallet or RPC not configured" status; one that started is at `approving` with no
      status and an unchanged swap hash, and a sent one records its hash and one
      submission. The quotes and the refetch count are untouched either way. */
  lemma SendApprovalOutcome(s: Session, wallets: seq<Wallet>, fromMeta: Option<Token>, approveData: Option<Simulation.ApproveData>, amount: string, io: SendOutcomes)
    ensures var r := SendApproval(s, wallets, fromMeta, approveData, amount, io);
      (r.1.NoHash? ==> r.0 == s || r.0 == s.(status := Some("Wallet or RPC not configured"))) &&
      (!r.1.NoHash? ==> r.0.step == Approving && r.0.status.None? && r.0.swapTxHash == s.swapTxHash) &&
      (r.1.Hash? ==> r.0.approvalTxHash == Some(r.1.hash) && |r.0.submitted| == |s.submitted| + 1) &&
      (r.0.confirmQuote == s.confirmQuote && r.0.quoteRequests == s.quoteRequests) &&
      (r.0.simulationRefetches == s.simulationRefetches && r.0.confirmQuoteError == s.confirmQuoteError)
  {
    if fromMeta.Some? && Truthy(fromMeta.value.address) && approveData.Some? {
      var token := fromMeta.value;
      if ResolveAccountForChain(wallets, token.chain).Some? && RpcUrl(token.chain).Some? {
        ApprovalSendOutcome(s.(step := Approving, status := None), token, approveData.value.spender, amount,
                            ResolveAccountForChain(wallets, token.chain).value, RpcUrl(token.chain).value, io);
      }
    }
  }

  /** The approval send once configured: reads the nonce and fee data, signs and sends the
      approval of `amount` to `spender`, records its hash, and waits for it. Any thrown
      error ends the send; nothing after it happens. */
  function ApprovalSend(s: Session, token: Token, spender: string, amount: string, account: Account, rpcUrl: string,
                        io: SendOutcomes): (Session, ApprovalResult)
    requires token.address.Some?
  {
    match io.nonce
    case Threw(m) => (s, Thrown(m))
    case Done(nonce) =>
      match io.feeData
      case Threw(m) => (s, Thrown(m))
      case Done(fee) =>
        match Erc20.ApprovalTransaction(token.address.value, spender, amount, token.decimals, token.chainId, nonce, fee)
        case Err(m) => (s, Thrown(m))
        case Ok(tx) =>
          var s1 := s.(submitted := s.submitted + [EthereumSign(tx, account, rpcUrl)]);
          match io.send
          case Threw(m) => (s1, Thrown(m))
          case Done(hash) =>
            var s2 := s1.(approvalTxHash := Some(hash));
            match io.wait
            case Threw(m) => (s2, Thrown(m))
            case Done(_) => (s2, Hash(hash))
  }

  /** The send always returns a hash or an error. It returns a hash exactly when every
      awaited call succeeded and the approval transaction could be built; then exactly
      that transaction was submitted and the sent hash recorded. */
  lemma ApprovalSendOutcome(s: Session, token: Token, spender: string, amount: string, account: Account, rpcUrl: string, io: SendOutcomes)
    requires token.address.Some?
    ensures var r := ApprovalSend(s, token, spender, amount, account, rpcUrl, io);
      (!r.1.NoHash? && r.0.step == s.step && r.0.status == s.status && r.0.swapTxHash == s.swapTxHash) &&
      (r.1.Hash? <==> (io.nonce.Done? && io.feeData.Done? && io.send.Done? && io.wait.Done? && Erc20.ApprovalTransaction(token.address.value, spender, amount, token.decimals, token.chainId, io.nonce.value, io.feeData.value).Ok?)) &&
      (r.1.Hash? ==> r.0.approvalTxHash == Some(r.1.hash) && r.1.hash == io.send.value && r.0.submitted == s.submitted + [EthereumSign(Erc20.ApprovalTransaction(token.address.value, spender, amount, token.decimals, token.chainId, io.nonce.value, io.feeData.value).value, account, rpcUrl)]) &&
      (r.0.confirmQuote == s.confirmQuote && r.0.quoteRequests == s.quoteRequests) &&
      (r.0.simulationRefetches == s.simulationRefetches && r.0.confirmQuoteError == s.confirmQuoteError) &&
      (r.0.confirmQuoteLoading == s.confirmQuoteLoading)
  {
  }

  const SwapGasLimit: nat := 300000

  /** The swap transaction built from a route's EVM call: the route's `to`, its `value` or
      0, its `data` or `0x`, gas limit 300000; type 2 with both EIP-1559 fields when the
      node reports both, else type 0 with the route's gas price, else the node's. */
  function SwapTransaction(to: Option<string>, value: Option<string>, data: Option<string>, gasPrice: Option<string>,
                           chainId: int, nonce: nat, fee: FeeData): (r: EvmTx)
    ensures r.to == to && r.chainId == Some(chainId) && r.nonce == Some(nonce) && r.gasLimit == Some(SwapGasLimit)
    ensures r.value == (if Truthy(value) then Literal(value.value) else Wei(0))
    ensures r.data == Raw(if Truthy(data) then data.value else "0x")
    ensures r.txType == Some(2) <==> Supports1559(fee)
    ensures r.txType == Some(2) ==> (r.maxFeePerGas == fee.maxFeePerGas && r.maxPriorityFeePerGas == fee.maxPriorityFeePerGas && r.gasPrice.None?)
    ensures r.txType != Some(2) ==> (r.txType == Some(0) && r.maxFeePerGas.None? && r.maxPriorityFeePerGas.None? &&
                                     r.gasPrice == if Truthy(gasPrice) then Some(Literal(gasPrice.value)) else WeiField(fee.gasPrice))
  {
    var base := Base(to, Raw(if Truthy(data) then data.value else "0x"), if Truthy(value) then Literal(value.value) else Wei(0),
                     chainId, nonce, SwapGasLimit);
    WithFeeModel(base, fee, if Truthy(gasPrice) then Some(Literal(gasPrice.value)) else WeiField(fee.gasPrice))
  }

  /** A swap that started and failed: back at `confirm` with a "Swap failed: …" status. */
  predicate SwapFailedIn(s: Session)
  {
    s.step == Confirm && s.status.Some? && StartsWith(s.status.value, "Swap failed: ")
  }

  /** The catch block of every swap path. */
  function FailSwap(s: Session, message: string): (r: Session)
    ensures SwapFailedIn(r) && r.status == Some(SwapFailed(message))
    ensures r == s.(status := r.status, step := Confirm)
  {
    assert SwapFailed(message)[..|"Swap failed: "|] == "Swap failed: ";
    s.(status := Some(SwapFailed(message)), step := Confirm)
  }

  /** The EVM branch of `executeSwap`: requires a signing account and an RPC endpoint
      (else the status "Wallet or RPC not configured"), moves to `swapping`, then needs the
      source address, nonce and fee data, signs and sends the swap transaction, records
      its hash before waiting, and reaches `success` once the wait returns. A failure after
      `swapping` sets "Swap failed: …" and returns to `confirm`. */
  function EvmSwap(s: Session, wallets: seq<Wallet>, token: Token, to: Option<string>, value: Option<string>,
                   data: Option<string>, gasPrice: Option<string>, io: SendOutcomes): Session
  {
    var account := ResolveAccountForChain(wallets, token.chain);
    var rpcUrl := RpcUrl(token.chain);
    if account.None? || rpcUrl.None? then s.(status := Some("Wallet or RPC not configured"))
    else
      var s1 := s.(step := Swapping, status := Some("Submitting swap..."));
      var address := ResolveAddressForChain(wallets, token.chain);
      if !Truthy(address) then FailSwap(s1, "Source address not found")
      else
        match io.nonce
        case Threw(m) => FailSwap(s1, m)
        case Done(nonce) =>
          match io.feeData
          case Threw(m) => FailSwap(s1, m)
          case Done(fee) =>
            var tx := SwapTransaction(to, value, data, gasPrice, token.chainId, nonce, fee);
            var s2 := s1.(submitted := s1.submitted + [EthereumSign(tx, account.value, rpcUrl.value)]);
            match io.send
            case Threw(m) => FailSwap(s2, m)
            case Done(hash) =>
              var s3 := s2.(swapTxHash := Some(hash));
              match io.wait
              case Threw(m) => FailSwap(s3, m)
              case Done(_) => s3.(step := Success)
  }

  /** Without a signing account or RPC endpoint only the status changes; otherwise the EVM
      swap ends at `success` with its hash and one submission, or failed back at `confirm`. */
  lemma EvmSwapOutcome(s: Session, wallets: seq<Wallet>, token: Token, to: Option<string>, value: Option<string>, data: Option<string>, gasPrice: Option<string>, io: SendOutcomes)
    ensures var r := EvmSwap(s, wallets, token, to, value, data, gasPrice, io);
      (ResolveAccountForChain(wallets, token.chain).None? || RpcUrl(token.chain).None? ==> r == s.(status := Some("Wallet or RPC not configured"))) &&
      (ResolveAccountForChain(wallets, token.chain).Some? && RpcUrl(token.chain).Some? ==> (r.step == Success && r.swapTxHash.Some? && |r.submitted| == |s.submitted| + 1) || SwapFailedIn(r)) &&
      (r.confirmQuote == s.confirmQuote && r.approvalTxHash == s.approvalTxHash && r.quoteRequests == s.quoteRequests)
  {
    var r := EvmSwap(s, wallets, token, to, value, data, gasPrice, io);
    if ResolveAccountForChain(wallets, token.chain).Some? && RpcUrl(token.chain).Some? {
      var s1 := s.(step := Swapping, status := Some("Submitting swap..."));
      if !Truthy(ResolveAddressForChain(wallets, token.chain)) {
        assert r == FailSwap(s1, "Source address not found");
      } else if io.nonce.Threw? {
        assert r == FailSwap(s1, io.nonce.message);
      } else if io.feeData.Threw? {
        assert r == FailSwap(s1, io.feeData.message);
      } else {
        var tx := SwapTransaction(to, value, data, gasPrice, token.chainId, io.nonce.value, io.feeData.value);
        var s2 := s1.(submitted := s1.submitted + [EthereumSign(tx, ResolveAccountForChain(wallets, token.chain).value, RpcUrl(token.chain).value)]);
        if io.send.Threw? {
          assert r == FailSwap(s2, io.send.message);
        } else if io.wait.Threw? {
          assert r == FailSwap(s2.(swapTxHash := Some(io.send.value)), io.wait.message);
        } else {
          assert r == s2.(swapTxHash := Some(io.send.value), step := Success);
        }
      }
    }
  }

  /** The sent swap transaction is the route's call with the fee model applied, and its
      hash is kept even when waiting for the receipt fails. */
  lemma EvmSwapSends(s: Session, wallets: seq<Wallet>, token: Token, to: Option<string>, value: Option<string>,
                     data: Option<string>, gasPrice: Option<string>, io: SendOutcomes)
    requires ResolveAccountForChain(wallets, token.chain).Some? && RpcUrl(token.chain).Some?
    requires Truthy(ResolveAddressForChain(wallets, token.chain))
    requires io.nonce.Done? && io.feeData.Done? && io.send.Done?
    ensures var r := EvmSwap(s, wallets, token, to, value, data, gasPrice, io);
      r.submitted == s.submitted + [EthereumSign(SwapTransaction(to, value, data, gasPrice, token.chainId, io.nonce.value, io.feeData.value),
                                                  ResolveAccountForChain(wallets, token.chain).value, RpcUrl(token.chain).value)] &&
      r.swapTxHash == Some(io.send.value) &&
      (r.step == Success <==> io.wait.Done?) &&
      (io.wait.Threw? ==> r.status == Some(SwapFailed(io.wait.message)) && r.step == Confirm)
  {
  }
}
