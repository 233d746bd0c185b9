/** ERC-20 helpers: telling native coins from tokens, and building the `approve`
    transaction that lets a swap router spend the user's tokens. */
module Erc20 {
  import opened Wrappers
  import opened Decimal
  import opened Api
  import opened Evm

  const ApprovalGasLimit: nat := 100000

  /** `isNativeToken`: a token without a contract address is the chain's native coin. */
  predicate IsNativeToken(token: Token)
  {
    token.address.None?
  }

  /** The approval transaction: an `approve(spender, parseUnits(amount, decimals))` call on
      the token contract, with no value and gas limit 100000; type 2 with both EIP-1559
      fields when the node reports both, else type 0 with the node's gas price. It fails
      where parseUnits throws. */
  function ApprovalTransaction(tokenAddress: string, spender: string, amount: string, decimals: nat,
                               chainId: int, nonce: nat, feeData: FeeData): (r: Result<EvmTx>)
    ensures r.Err? <==> Units(amount, decimals).None?
    ensures r.Err? ==> r.message == UnitsErrorMessage
    ensures r.Ok? ==> (r.value.to == Some(tokenAddress) && r.value.data == Approve(spender, Units(amount, decimals).value) &&
                       r.value.value == Wei(0) && r.value.chainId == Some(chainId) && r.value.nonce == Some(nonce) &&
                       r.value.gasLimit == Some(ApprovalGasLimit))
    ensures r.Ok? ==> r.value.txType == Some(if Supports1559(feeData) then 2 else 0)
    ensures r.Ok? && Supports1559(feeData) ==>
              (r.value.gasPrice.None? && r.value.maxFeePerGas == feeData.maxFeePerGas &&
               r.value.maxPriorityFeePerGas == feeData.maxPriorityFeePerGas)
    ensures r.Ok? && !Supports1559(feeData) ==>
              (r.value.gasPrice == WeiField(feeData.gasPrice) && r.value.maxFeePerGas.None? &&
               r.value.maxPriorityFeePerGas.None?)
  {
    match Units(amount, decimals)
    case None => Err(UnitsErrorMessage)
    case Some(amountWei) =>
      Ok(WithFeeModel(Base(Some(tokenAddress), Approve(spender, amountWei), Wei(0), chainId, nonce, ApprovalGasLimit),
                      feeData, WeiField(feeData.gasPrice)))
  }

  /** `createApprovalTransaction` as the source writes it, step by step: builds the base
      request, then sets the fee fields in one branch or the other. `ApprovalTransaction`
      is its specification, and the `ensures` below is the only link between the two.
      `ownerAddress` is not used by the source either. */
  method CreateApprovalTransaction(
    tokenAddress: string, spender: string, amount: string, decimals: nat,
    ownerAddress: string, chainId: int, nonce: nat, feeData: FeeData)
    returns (r: Result<EvmTx>)
    ensures r == ApprovalTransaction(tokenAddress, spender, amount, decimals, chainId, nonce, feeData)
  {
    var amountWei := Units(amount, decimals);
    if amountWei.None? {
      return Err(UnitsErrorMessage);
    }
    var txParams := Base(Some(tokenAddress), Approve(spender, amountWei.value), Wei(0), chainId, nonce, ApprovalGasLimit);
    if Supports1559(feeData) {
      txParams := txParams.(maxFeePerGas := feeData.maxFeePerGas, maxPriorityFeePerGas := feeData.maxPriorityFeePerGas, txType := Some(2));
    } else {
      txParams := txParams.(gasPrice := WeiField(feeData.gasPrice), txType := Some(0));
    }
    return Ok(txParams);
  }
}
