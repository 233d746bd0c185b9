/** The records exchanged with the swap API and the embedded wallet: tokens, quote
    routes and responses, quote requests, and the user's wallets and accounts. */
module Api {
  import opened Wrappers
  import opened Chains

  /** A swappable token. `address` is the contract address, `None` for a chain's native
      coin; `chainId` is the numeric EVM chain id the API sends as a string. */
  datatype Token = Token(
    identifier: string,
    address: Option<string>,
    chain: string,
    chainId: int,
    decimals: nat,
    ticker: string,
    name: string)

  /** The transaction payload of a route: absent, a serialized string (base64 for Solana,
      a PSBT for Bitcoin), or an EVM call whose fields may each be missing. */
  datatype RouteTx =
    | NoTx
    | TxString(payload: string)
    | TxObject(to: Option<string>, value: Option<string>, data: Option<string>, gasPrice: Option<string>)

  /** One route of a quote. `providers` and `approvalAddress` (from `meta`) are read by
      the application although the declared type omits them. */
  datatype QuoteRoute = QuoteRoute(
    expectedBuyAmount: string,
    tx: RouteTx,
    targetAddress: Option<string>,
    inboundAddress: Option<string>,
    memo: Option<string>,
    providers: Option<seq<string>>,
    approvalAddress: Option<string>)

  /** A provider's failure; `error` is `None` when it is not a string. */
  datatype ProviderError = ProviderError(provider: string, error: Option<string>)

  datatype QuoteResponse = QuoteResponse(routes: seq<QuoteRoute>, providerErrors: Option<seq<ProviderError>>)

  /** The body of `POST /v1/quote`. A provider list entry is `None` when the code passes
      `undefined` (serialized as `null`). */
  datatype QuoteRequest = QuoteRequest(
    sellAsset: string,
    buyAsset: string,
    sellAmount: string,
    destinationAddress: Option<string>,
    sourceAddress: Option<string>,
    refundAddress: Option<string>,
    slippage: string,
    providers: seq<Option<string>>,
    dry: bool)

  datatype Account = Account(walletAccountId: string, address: string, addressFormat: string)

  datatype Wallet = Wallet(walletId: string, walletName: string, accounts: seq<Account>)

  /** Some account of some wallet has the format. */
  predicate HasAccountWithFormat(wallets: seq<Wallet>, format: string)
  {
    exists w, a :: w in wallets && a in w.accounts && a.addressFormat == format
  }

  /** The first account with the format in one wallet (`accounts.find`). */
  function FindAccount(accounts: seq<Account>, format: string): (r: Option<Account>)
    ensures r.Some? ==> r.value in accounts && r.value.addressFormat == format
    ensures r.None? <==> forall a :: a in accounts ==> a.addressFormat != format
  {
    if |accounts| == 0 then None
    else if accounts[0].addressFormat == format then Some(accounts[0])
    else FindAccount(accounts[1..], format)
  }

  /** Like `Array.prototype.find`, the account found is the first with the format. */
  lemma {:induction false} FindAccountFirst(accounts: seq<Account>, format: string)
    ensures FindAccount(accounts, format).Some? ==>
      exists i :: 0 <= i < |accounts| && accounts[i] == FindAccount(accounts, format).value &&
                  forall j :: 0 <= j < i ==> accounts[j].addressFormat != format
  {
    if |accounts| > 0 && accounts[0].addressFormat != format && FindAccount(accounts, format).Some? {
      FindAccountFirst(accounts[1..], format);
      var i :| 0 <= i < |accounts[1..]| && accounts[1..][i] == FindAccount(accounts[1..], format).value &&
               forall j :: 0 <= j < i ==> accounts[1..][j].addressFormat != format;
      assert accounts[i + 1] == FindAccount(accounts, format).value;
      assert forall j :: 0 <= j < i + 1 ==> accounts[j].addressFormat != format;
    } else if |accounts| > 0 && accounts[0].addressFormat == format {
      assert accounts[0] == FindAccount(accounts, format).value;
    }
  }

  /** Scans the wallets in order and returns the first wallet's first account that
      has the format. */
  function FirstAccountWithFormat(wallets: seq<Wallet>, format: string): (r: Option<Account>)
    ensures r.Some? ==> r.value.addressFormat == format && exists w :: w in wallets && r.value in w.accounts
    ensures r.None? <==> !HasAccountWithFormat(wallets, format)
  {
    if |wallets| == 0 then None
    else match FindAccount(wallets[0].accounts, format)
      case Some(a) => Some(a)
      case None =>
        var r := FirstAccountWithFormat(wallets[1..], format);
        assert r.Some? ==> wallets[1..][0] in wallets;
        r
  }

  /** The account found is what `find` returns in the first wallet that has an account
      with the format: no earlier wallet has one. */
  lemma {:induction false} FirstAccountWithFormatFirst(wallets: seq<Wallet>, format: string)
    ensures FirstAccountWithFormat(wallets, format).Some? ==>
      exists i :: 0 <= i < |wallets| && FirstWithFormatIn(wallets, format, i) &&
                  FirstAccountWithFormat(wallets, format) == FindAccount(wallets[i].accounts, format)
  {
    var r := FirstAccountWithFormat(wallets, format);
    if |wallets| > 0 && r.Some? {
      if FindAccount(wallets[0].accounts, format).Some? {
        assert FirstWithFormatIn(wallets, format, 0);
      } else {
        FirstAccountWithFormatFirst(wallets[1..], format);
        var i :| 0 <= i < |wallets[1..]| && FirstWithFormatIn(wallets[1..], format, i) &&
                 r == FindAccount(wallets[1..][i].accounts, format);
        assert FirstWithFormatIn(wallets, format, i + 1) && r == FindAccount(wallets[i + 1].accounts, format);
      }
    }
  }

  /** Wallet `i` has an account with the format and no wallet before it has one. */
  predicate FirstWithFormatIn(wallets: seq<Wallet>, format: string, i: nat)
    requires i < |wallets|
  {
    FindAccount(wallets[i].accounts, format).Some? && forall j :: 0 <= j < i ==> FindAccount(wallets[j].accounts, format).None?
  }

  /** `resolveAccountForChain`: the account used to sign for a chain. There is none when
      there are no wallets, when the chain has no address format, or when no account
      has that format. */
  function ResolveAccountForChain(wallets: seq<Wallet>, chain: string): (r: Option<Account>)
    ensures r.Some? <==> AddressFormat(chain).Some? && HasAccountWithFormat(wallets, AddressFormat(chain).value)
    ensures r.Some? ==> r.value.addressFormat == AddressFormats[chain]
  {
    if |wallets| == 0 then None
    else match AddressFormat(chain)
      case None => None
      case Some(format) => FirstAccountWithFormat(wallets, format)
  }

  /** `resolveAddressForChain`: that account's address, or `null`. */
  function ResolveAddressForChain(wallets: seq<Wallet>, chain: string): (r: Option<string>)
    ensures r.Some? <==> ResolveAccountForChain(wallets, chain).Some?
    ensures r.Some? ==> r.value == ResolveAccountForChain(wallets, chain).value.address
  {
    match ResolveAccountForChain(wallets, chain)
    case None => None
    case Some(a) => Some(a.address)
  }

  /** The account resolved for a chain is the first account with the chain's format in the
      first wallet that holds one. */
  lemma ResolveAccountForChainFirst(wallets: seq<Wallet>, chain: string)
    ensures ResolveAccountForChain(wallets, chain).Some? ==>
      exists i :: 0 <= i < |wallets| && FirstWithFormatIn(wallets, AddressFormats[chain], i) &&
                  ResolveAccountForChain(wallets, chain) == FindAccount(wallets[i].accounts, AddressFormats[chain])
  {
    if ResolveAccountForChain(wallets, chain).Some? {
      FirstAccountWithFormatFirst(wallets, AddressFormats[chain]);
    }
  }
}
