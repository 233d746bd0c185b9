/** EVM transaction requests as the application hands them to ethers'
    `Transaction.from`, and the fee data read from the RPC node. The RLP serialization
    is done by ethers and is not part of this model. */
module Evm {
  import opened Wrappers

  /** `provider.getFeeData()`: each field is a bigint or `null`. */
  datatype FeeData = FeeData(gasPrice: Option<nat>, maxFeePerGas: Option<nat>, maxPriorityFeePerGas: Option<nat>)

  /** JavaScript truthiness of an optional bigint: `null` and `0n` are falsy. */
  predicate Present(x: Option<nat>)
  {
    x.Some? && x.value > 0
  }

  /** The node reports both EIP-1559 fee fields (the condition for a type-2 transaction). */
  predicate Supports1559(f: FeeData)
  {
    Present(f.maxFeePerGas) && Present(f.maxPriorityFeePerGas)
  }

  /** A quantity field: an exact integer computed by the application, or a string taken
      from a quote route and handed to ethers as it is. */
  datatype Quantity = Wei(amount: int) | Literal(text: string)

  /** The `data` field: absent, a hex string taken from a route, or an ABI-encoded call of
      ERC-20 `approve(spender, amount)` / `transfer(to, amount)`. */
  datatype CallData =
    | NoData
    | Raw(hex: string)
    | Approve(spender: string, amount: int)
    | Transfer(recipient: string, amount: int)

  /** The fields of a transaction request; `None` is a field the application does not set. */
  datatype EvmTx = EvmTx(
    to: Option<string>,
    data: CallData,
    value: Quantity,
    chainId: Option<int>,
    nonce: Option<nat>,
    gasLimit: Option<nat>,
    txType: Option<nat>,
    gasPrice: Option<Quantity>,
    maxFeePerGas: Option<nat>,
    maxPriorityFeePerGas: Option<nat>)

  /** The outcomes of the awaited calls of one send: nonce, fee data, sign-and-send
      (the transaction hash) and the wait for the receipt. */
  datatype SendOutcomes = SendOutcomes(nonce: Async<nat>, feeData: Async<FeeData>, send: Async<string>, wait: Async<()>)

  /** A fee-data gas price as a transaction field. */
  function WeiField(x: Option<nat>): (r: Option<Quantity>)
    ensures r.Some? <==> x.Some?
    ensures r.Some? ==> r.value == Wei(x.value)
  {
    match x
    case None => None
    case Some(g) => Some(Wei(g))
  }

  /** The fee-model rule shared by the approval and swap transactions: type 2 with both
      EIP-1559 fields when the node reports both, else type 0 with `legacyGasPrice`. */
  function WithFeeModel(tx: EvmTx, fee: FeeData, legacyGasPrice: Option<Quantity>): (r: EvmTx)
    ensures r.txType == Some(if Supports1559(fee) then 2 else 0)
    ensures Supports1559(fee) ==> r.maxFeePerGas == fee.maxFeePerGas && r.maxPriorityFeePerGas == fee.maxPriorityFeePerGas && r.gasPrice == tx.gasPrice
    ensures !Supports1559(fee) ==> r.gasPrice == legacyGasPrice && r.maxFeePerGas == tx.maxFeePerGas && r.maxPriorityFeePerGas == tx.maxPriorityFeePerGas
    ensures r.to == tx.to && r.data == tx.data && r.value == tx.value && r.chainId == tx.chainId && r.nonce == tx.nonce && r.gasLimit == tx.gasLimit
  {
    if Supports1559(fee) then
      tx.(maxFeePerGas := fee.maxFeePerGas, maxPriorityFeePerGas := fee.maxPriorityFeePerGas, txType := Some(2))
    else
      tx.(gasPrice := legacyGasPrice, txType := Some(0))
  }

  /** A base transaction without fee fields. */
  function Base(to: Option<string>, data: CallData, value: Quantity, chainId: int, nonce: nat, gasLimit: nat): (r: EvmTx)
    ensures r.txType.None? && r.gasPrice.None? && r.maxFeePerGas.None? && r.maxPriorityFeePerGas.None?
  {
    EvmTx(to, data, value, Some(chainId), Some(nonce), Some(gasLimit), None, None, None, None)
  }

  /** A type-2 transaction never carries a gas price and a type-0 transaction never
      carries EIP-1559 fields, when built from a transaction with no fee fields. */
  lemma FeeModelExclusive(tx: EvmTx, fee: FeeData, legacyGasPrice: Option<Quantity>)
    requires tx.gasPrice.None? && tx.maxFeePerGas.None? && tx.maxPriorityFeePerGas.None?
    ensures var r := WithFeeModel(tx, fee, legacyGasPrice);
            (r.txType == Some(2) ==> r.gasPrice.None? && Present(r.maxFeePerGas) && Present(r.maxPriorityFeePerGas)) &&
            (r.txType == Some(0) ==> r.maxFeePerGas.None? && r.maxPriorityFeePerGas.None?)
  {
  }
}
