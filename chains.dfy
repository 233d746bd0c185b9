/** The per-chain tables: the Turnkey address format used for a chain's accounts, the
    public RPC endpoints, the EVM chain list and the block explorers. */
module Chains {
  import opened Wrappers
  import opened Text

  const EthereumFormat := "ADDRESS_FORMAT_ETHEREUM"
  const BitcoinP2wpkhFormat := "ADDRESS_FORMAT_BITCOIN_MAINNET_P2WPKH"
  const SolanaFormat := "ADDRESS_FORMAT_SOLANA"

  const AddressFormats: map<string, string> := map[
    "ETH" := EthereumFormat, "BSC" := EthereumFormat, "AVAX" := EthereumFormat,
    "BASE" := EthereumFormat, "ARB" := EthereumFormat, "OP" := EthereumFormat,
    "BTC" := BitcoinP2wpkhFormat, "SOL" := SolanaFormat,
    "DOGE" := "ADDRESS_FORMAT_DOGECOIN", "LTC" := "ADDRESS_FORMAT_LITECOIN",
    "BCH" := "ADDRESS_FORMAT_BITCOIN", "GAIA" := "ADDRESS_FORMAT_COSMOS"]

  const RpcUrls: map<string, string> := map[
    "ETH" := "https://ethereum-rpc.publicnode.com",
    "BSC" := "https://bsc-rpc.publicnode.com",
    "AVAX" := "https://avalanche-c-chain-rpc.publicnode.com",
    "BASE" := "https://base-rpc.publicnode.com",
    "ARB" := "https://arbitrum-one-rpc.publicnode.com",
    "OP" := "https://optimism-rpc.publicnode.com",
    "SOL" := "https://solana-rpc.publicnode.com"]

  const EvmChains: seq<string> := ["ETH", "BSC", "AVAX", "BASE", "ARB", "OP"]

  const BlockExplorers: map<string, string> := map[
    "ETH" := "https://etherscan.io", "BSC" := "https://bscscan.com",
    "AVAX" := "https://snowtrace.io", "BASE" := "https://basescan.org",
    "ARB" := "https://arbiscan.io", "OP" := "https://optimistic.etherscan.io",
    "BTC" := "https://mempool.space", "SOL" := "https://solscan.io"]

  /** `chainAddressFormats[chain]`, `undefined` for an unlisted chain. */
  function AddressFormat(chain: string): (r: Option<string>)
    ensures r.Some? <==> chain in AddressFormats
    ensures r.Some? ==> r.value != ""
    ensures chain in EvmChains ==> r == Some(EthereumFormat)
  {
    if chain in AddressFormats then Some(AddressFormats[chain]) else None
  }

  /** `rpcUrls[chain]`: every EVM chain has one, and so has SOL. */
  function RpcUrl(chain: string): (r: Option<string>)
    ensures chain in EvmChains ==> r.Some?
    ensures r.Some? <==> chain in EvmChains || chain == "SOL"
  {
    if chain in RpcUrls then Some(RpcUrls[chain]) else None
  }

  /** The explorer used for a chain's links: its own, else Etherscan. */
  function Explorer(chain: string): (r: string)
    ensures chain in EvmChains || chain == "BTC" || chain == "SOL" ==> r == BlockExplorers[chain]
    ensures chain !in BlockExplorers ==> r == BlockExplorers["ETH"]
  {
    if chain in BlockExplorers && BlockExplorers[chain] != "" then BlockExplorers[chain] else BlockExplorers["ETH"]
  }

  /** `getExplorerTxUrl`: the explorer's `/tx/` page for the hash. */
  function ExplorerTxUrl(chain: string, txHash: string): (r: string)
    ensures StartsWith(r, Explorer(chain) + "/tx/")
    ensures r[|Explorer(chain)| + 4..] == txHash
  {
    Explorer(chain) + "/tx/" + txHash
  }

  /** Distinct hashes give distinct links on the same chain. */
  lemma ExplorerTxUrlInjective(chain: string, h1: string, h2: string)
    requires ExplorerTxUrl(chain, h1) == ExplorerTxUrl(chain, h2)
    ensures h1 == h2
  {
    assert ExplorerTxUrl(chain, h1)[|Explorer(chain)| + 4..] == h1;
  }

  /** Every EVM chain uses Ethereum-format accounts, has an RPC endpoint and an explorer;
      BTC accounts are native-segwit (P2WPKH) mainnet. */
  lemma ChainTablesConsistent()
    ensures forall c :: c in EvmChains ==> c in AddressFormats && AddressFormats[c] == EthereumFormat
    ensures forall c :: c in EvmChains ==> c in RpcUrls && c in BlockExplorers
    ensures AddressFormats["BTC"] == BitcoinP2wpkhFormat
  {
  }
}
