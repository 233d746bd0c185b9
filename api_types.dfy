/** The records the wallet's own HTTP routes return: balances and transaction history.
    The `Token` class and token types declared beside them repeat `AppTypes` and are
    modelled there. */
module ApiTypes {
  import opened Wrappers

  /** The `Chain` enum; its string values are the chain codes. */
  datatype Chain = ETH | BSC | SOL | BTC

  function ChainCode(c: Chain): (r: string)
  {
    match c
    case ETH => "ETH"
    case BSC => "BSC"
    case SOL => "SOL"
    case BTC => "BTC"
  }

  /** One balance as the balances route returns it: `value` and `valueUsd` are decimal
      texts, `address` is the token contract (`None` for a native coin). */
  datatype BalanceAsset = BalanceAsset(
    chain: Chain,
    decimal: nat,
    ticker: string,
    identifier: string,
    value: string,
    valueUsd: string,
    address: Option<string>)

  datatype RawContract = RawContract(address: Option<string>, decimal: Option<string>)

  /** One transfer of the history. `value` is the transferred amount in the asset's
      display unit. */
  datatype TransactionHistoryItem = TransactionHistoryItem(
    uniqueId: string,
    category: string,
    blockNum: string,
    timestamp: string,
    from: string,
    to: Option<string>,
    value: Option<real>,
    asset: Option<string>,
    hash: string,
    chain: Chain,
    rawContract: RawContract)

  datatype TransactionHistoryResponse = TransactionHistoryResponse(
    transfers: seq<TransactionHistoryItem>,
    pageKey: Option<string>)
}
