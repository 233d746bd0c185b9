/** The balances route: the balances of one account (the native coin and, on Ethereum and
    Solana, its tokens), priced in US dollars and labelled with asset identifiers. Every
    awaited call is an outcome parameter; amounts are exact reals. */
module Balances {
  import opened Wrappers
  import opened Text
  import opened Chains
  import opened ApiTypes

  /** One balance before pricing; `address` is the token contract or mint. */
  datatype BalanceItem = BalanceItem(chain: Chain, decimal: nat, ticker: string, value: real, address: Option<string>)

  /** The text every contract-less or unnamed token falls back to. */
  const UnknownTicker := "UNKNOWN"

  // ---------------------------------------------------------------------------
  // Identifiers

  /** `buildIdentifier`: `CHAIN.TICKER`, followed by `-` and the upper-cased address when
      the balance has a non-empty address. */
  function BuildIdentifier(b: BalanceItem): (r: string)
    ensures StartsWith(r, ChainCode(b.chain) + "." + b.ticker)
  {
    var base := ChainCode(b.chain) + "." + b.ticker;
    if Truthy(b.address) then base + "-" + Upper(b.address.value) else base
  }

  /** The identifier is `CHAIN.TICKER` exactly for a balance without an address; with
      one, what follows `CHAIN.TICKER-` is the address read case-insensitively, so two
      contract balances of one chain and ticker share an identifier exactly when their
      addresses agree up to case. */
  lemma BuildIdentifierOutcome(b: BalanceItem, c: BalanceItem)
    requires b.chain == c.chain && b.ticker == c.ticker
    ensures var base := ChainCode(b.chain) + "." + b.ticker;
      (BuildIdentifier(b) == base <==> !Truthy(b.address)) &&
      (Truthy(b.address) ==> BuildIdentifier(b)[|base| + 1..] == Upper(b.address.value)) &&
      (Truthy(b.address) && Truthy(c.address) ==>
        (BuildIdentifier(b) == BuildIdentifier(c) <==> Upper(b.address.value) == Upper(c.address.value)))
  {
    var base := ChainCode(b.chain) + "." + b.ticker;
    if Truthy(b.address) {
      var r := BuildIdentifier(b);
      assert r == base + ("-" + Upper(b.address.value));
      assert r[|base| + 1..] == Upper(b.address.value);
      assert |r| > |base|;
    }
    if Truthy(b.address) && Truthy(c.address) && BuildIdentifier(b) == BuildIdentifier(c) {
      assert BuildIdentifier(b)[|base| + 1..] == Upper(b.address.value);
      assert BuildIdentifier(c)[|base| + 1..] == Upper(c.address.value);
    }
  }

  // ---------------------------------------------------------------------------
  // Ethereum balances

  /** One entry of `getTokensForOwner`. */
  datatype OwnedToken = OwnedToken(contractAddress: Option<string>, balance: Option<string>,
                                   decimals: Option<nat>, symbol: Option<string>)

  /** A token is listed when it has a contract address and a balance text whose
      `parseFloat` is not zero. */
  predicate KeepOwned(t: OwnedToken, parseFloat: string -> real)
  {
    Truthy(t.contractAddress) && Truthy(t.balance) && parseFloat(t.balance.value) != 0.0
  }

  function OwnedItem(t: OwnedToken, parseFloat: string -> real): BalanceItem
    requires KeepOwned(t, parseFloat)
  {
    BalanceItem(ETH, if t.decimals.Some? then t.decimals.value else 18,
                if Truthy(t.symbol) then t.symbol.value else UnknownTicker,
                parseFloat(t.balance.value), t.contractAddress)
  }

  /** The listed tokens, in the order of the response. */
  function OwnedItems(ts: seq<OwnedToken>, parseFloat: string -> real): seq<BalanceItem>
  {
    if |ts| == 0 then []
    else
      var last := ts[|ts| - 1];
      OwnedItems(ts[..|ts| - 1], parseFloat) + (if KeepOwned(last, parseFloat) then [OwnedItem(last, parseFloat)] else [])
  }

  function EthNative(wei: nat): BalanceItem
  {
    BalanceItem(ETH, 18, "ETH", wei as real / 1_000_000_000_000_000_000.0, None)
  }

  /** What `fetchEthereumBalances` returns: nothing when the balance call throws, the ether
      balance alone when the token call throws. */
  function EthereumBalances(balanceWei: Async<nat>, tokens: Async<seq<OwnedToken>>, parseFloat: string -> real): seq<BalanceItem>
  {
    match balanceWei
    case Threw(_) => []
    case Done(wei) => [EthNative(wei)] + (if tokens.Done? then OwnedItems(tokens.value, parseFloat) else [])
  }

  /** `fetchEthereumBalances`, once its two calls have settled. */
  method FetchEthereumBalances(balanceWei: Async<nat>, tokens: Async<seq<OwnedToken>>, parseFloat: string -> real)
    returns (balances: seq<BalanceItem>)
    ensures balances == EthereumBalances(balanceWei, tokens, parseFloat)
  {
    balances := [];
    if balanceWei.Threw? {
      return;
    }
    balances := balances + [EthNative(balanceWei.value)];
    if tokens.Threw? {
      return;
    }
    var ts := tokens.value;
    for i := 0 to |ts|
      invariant balances == [EthNative(balanceWei.value)] + OwnedItems(ts[..i], parseFloat)
    {
      var t := ts[i];
      assert ts[..i + 1][..i] == ts[..i];
      if !Truthy(t.contractAddress) || !Truthy(t.balance) {
        continue;
      }
      var balance := parseFloat(t.balance.value);
      if balance == 0.0 {
        continue;
      }
      balances := balances + [OwnedItem(t, parseFloat)];
    }
    assert ts[..|ts|] == ts;
  }

  /** Exactly the tokens with a contract and a non-zero balance are listed, each as an
      Ethereum balance with its contract as address. */
  lemma {:induction false} OwnedItemsOutcome(ts: seq<OwnedToken>, parseFloat: string -> real)
    ensures |OwnedItems(ts, parseFloat)| <= |ts|
    ensures forall t :: t in ts && KeepOwned(t, parseFloat) ==> OwnedItem(t, parseFloat) in OwnedItems(ts, parseFloat)
    ensures forall b :: b in OwnedItems(ts, parseFloat) ==>
      b.chain == ETH && Truthy(b.address) && b.value != 0.0 &&
      exists t :: t in ts && KeepOwned(t, parseFloat) && b == OwnedItem(t, parseFloat)
  {
    if |ts| > 0 {
      var init := ts[..|ts| - 1];
      OwnedItemsOutcome(init, parseFloat);
      forall t | t in ts && KeepOwned(t, parseFloat) ensures OwnedItem(t, parseFloat) in OwnedItems(ts, parseFloat) {
        if t != ts[|ts| - 1] {
          assert t in init;
        }
      }
      forall b | b in OwnedItems(ts, parseFloat)
        ensures exists t :: t in ts && KeepOwned(t, parseFloat) && b == OwnedItem(t, parseFloat)
      {
        if b in OwnedItems(init, parseFloat) {
          var t :| t in init && KeepOwned(t, parseFloat) && b == OwnedItem(t, parseFloat);
          assert t in ts;
        } else {
          assert ts[|ts| - 1] in ts;
        }
      }
    }
  }

  // ---------------------------------------------------------------------------
  // Solana balances

  datatype TokenAmount = TokenAmount(uiAmount: real, decimals: Option<nat>)
  datatype SplInfo = SplInfo(tokenAmount: Option<TokenAmount>, mint: Option<string>)
  /** One entry of `getTokenAccountsByOwner`; `info` is `account.data.parsed.info`. */
  datatype SplAccount = SplAccount(info: Option<SplInfo>)

  /** An account is listed when it has parsed info and a non-zero token amount. */
  predicate KeepAccount(a: SplAccount)
  {
    a.info.Some? && a.info.value.tokenAmount.Some? && a.info.value.tokenAmount.value.uiAmount != 0.0
  }

  /** `mint.slice(0, 6) || 'UNKNOWN'`. */
  function MintTicker(mint: Option<string>): (r: string)
    ensures Truthy(mint) ==> |r| <= 6 && StartsWith(mint.value, r) && |r| > 0
    ensures !Truthy(mint) ==> r == UnknownTicker
  {
    if Truthy(mint) then mint.value[..if |mint.value| < 6 then |mint.value| else 6] else UnknownTicker
  }

  function AccountItem(a: SplAccount): BalanceItem
    requires KeepAccount(a)
  {
    var info := a.info.value;
    var amount := info.tokenAmount.value;
    BalanceItem(SOL, if amount.decimals.Some? then amount.decimals.value else 9,
                MintTicker(info.mint), amount.uiAmount, info.mint)
  }

  function AccountItems(accounts: seq<SplAccount>): seq<BalanceItem>
  {
    if |accounts| == 0 then []
    else
      var last := accounts[|accounts| - 1];
      AccountItems(accounts[..|accounts| - 1]) + (if KeepAccount(last) then [AccountItem(last)] else [])
  }

  function SolNative(lamports: nat): BalanceItem
  {
    BalanceItem(SOL, 9, "SOL", lamports as real / 1_000_000_000.0, None)
  }

  /** What `fetchSolanaBalances` returns: `lamports` is the outcome of the balance call
      (`None` where the response has no `result.value`), `accounts` that of the token
      accounts call (`None` where it has no `result.value`). A throw ends the function
      with what was pushed so far. */
  function SolanaBalances(lamports: Async<Option<nat>>, accounts: Async<Option<seq<SplAccount>>>): seq<BalanceItem>
  {
    match lamports
    case Threw(_) => []
    case Done(l) =>
      (if l.Some? then [SolNative(l.value)] else []) +
      (if accounts.Done? && accounts.value.Some? then AccountItems(accounts.value.value) else [])
  }

  /** `fetchSolanaBalances`, once its two calls have settled. */
  method FetchSolanaBalances(lamports: Async<Option<nat>>, accounts: Async<Option<seq<SplAccount>>>)
    returns (balances: seq<BalanceItem>)
    ensures balances == SolanaBalances(lamports, accounts)
  {
    balances := [];
    if lamports.Threw? {
      return;
    }
    if lamports.value.Some? {
      balances := balances + [SolNative(lamports.value.value)];
    }
    ghost var native := balances;
    if accounts.Threw? || accounts.value.None? {
      return;
    }
    var list := accounts.value.value;
    for i := 0 to |list|
      invariant balances == native + AccountItems(list[..i])
    {
      var account := list[i];
      assert list[..i + 1][..i] == list[..i];
      if account.info.None? {
        continue;
      }
      var tokenAmount := account.info.value.tokenAmount;
      if tokenAmount.None? || tokenAmount.value.uiAmount == 0.0 {
        continue;
      }
      balances := balances + [AccountItem(account)];
    }
    assert list[..|list|] == list;
  }

  /** Exactly the accounts with parsed info and a non-zero amount are listed, each as a
      Solana balance whose address is its mint and whose ticker starts that mint. */
  lemma {:induction false} AccountItemsOutcome(accounts: seq<SplAccount>)
    ensures |AccountItems(accounts)| <= |accounts|
    ensures forall a :: a in accounts && KeepAccount(a) ==> AccountItem(a) in AccountItems(accounts)
    ensures forall b :: b in AccountItems(accounts) ==>
      b.chain == SOL && b.value != 0.0 && (Truthy(b.address) ==> StartsWith(b.address.value, b.ticker)) &&
      exists a :: a in accounts && KeepAccount(a) && b == AccountItem(a)
  {
    if |accounts| > 0 {
      var init := accounts[..|accounts| - 1];
      AccountItemsOutcome(init);
      forall a | a in accounts && KeepAccount(a) ensures AccountItem(a) in AccountItems(accounts) {
        if a != accounts[|accounts| - 1] {
          assert a in init;
        }
      }
      forall b | b in AccountItems(accounts)
        ensures exists a :: a in accounts && KeepAccount(a) && b == AccountItem(a)
      {
        if b in AccountItems(init) {
          var a :| a in init && KeepAccount(a) && b == AccountItem(a);
          assert a in accounts;
        } else {
          assert accounts[|accounts| - 1] in accounts;
        }
      }
    }
  }

  // ---------------------------------------------------------------------------
  // Bitcoin balance

  /** What `fetchBitcoinBalances` returns: `btc` is the balance read from the response
      (satoshis over 10^8); a throw leaves the list empty. */
  function BitcoinBalances(btc: Async<real>): (r: seq<BalanceItem>)
    ensures btc.Threw? <==> r == []
    ensures forall b :: b in r ==> b.chain == BTC && b.ticker == "BTC" && b.decimal == 8 && b.address.None?
  {
    match btc
    case Threw(_) => []
    case Done(v) => [BalanceItem(BTC, 8, "BTC", v, None)]
  }

  // ---------------------------------------------------------------------------
  // Prices

  /** The price response: `usd` of each CoinGecko id present. */
  type PriceData = map<string, Option<real>>

  /** An upper-cased ticker gets a price when it has a non-empty CoinGecko id and the
      response holds a non-zero `usd` for that id. */
  predicate Priced(k: string, ids: map<string, string>, data: PriceData)
  {
    k in ids && ids[k] != "" && ids[k] in data && data[ids[k]].Some? && data[ids[k]].value != 0.0
  }

  /** The ids requested: the non-empty ids of the upper-cased tickers, in ticker order. */
  function RequestedIds(tickers: seq<string>, ids: map<string, string>): (r: seq<string>)
    ensures forall x :: x in r ==> x != "" && exists j :: 0 <= j < |tickers| && Upper(tickers[j]) in ids && ids[Upper(tickers[j])] == x
  {
    if |tickers| == 0 then []
    else
      var key := Upper(tickers[|tickers| - 1]);
      RequestedIds(tickers[..|tickers| - 1], ids) + (if key in ids && ids[key] != "" then [ids[key]] else [])
  }

  /** Some id is requested exactly when some ticker has a non-empty id. */
  lemma {:induction false} RequestedIdsNonEmpty(tickers: seq<string>, ids: map<string, string>)
    ensures |RequestedIds(tickers, ids)| > 0 <==>
      exists j :: 0 <= j < |tickers| && Upper(tickers[j]) in ids && ids[Upper(tickers[j])] != ""
  {
    if |tickers| > 0 {
      var init := tickers[..|tickers| - 1];
      RequestedIdsNonEmpty(init, ids);
      if exists j :: 0 <= j < |tickers| && Upper(tickers[j]) in ids && ids[Upper(tickers[j])] != "" {
        var j :| 0 <= j < |tickers| && Upper(tickers[j]) in ids && ids[Upper(tickers[j])] != "";
        if j < |init| {
          assert init[j] == tickers[j];
        }
      }
      if exists j :: 0 <= j < |init| && Upper(init[j]) in ids && ids[Upper(init[j])] != "" {
        var j :| 0 <= j < |init| && Upper(init[j]) in ids && ids[Upper(init[j])] != "";
        assert init[j] == tickers[j];
      }
    }
  }

  /** `fetchTokenPrices`, once the price call has settled: `response` is `None` where the
      response is not ok. `fetched` says whether the call is made at all. */
  method FetchTokenPrices(tickers: seq<string>, ids: map<string, string>, response: Async<Option<PriceData>>)
    returns (prices: map<string, real>, fetched: bool)
    ensures fetched <==> |RequestedIds(tickers, ids)| > 0
    ensures |tickers| == 0 ==> !fetched
    ensures !fetched || response.Threw? || response.value.None? ==> prices == map[]
    ensures fetched && response.Done? && response.value.Some? ==>
      (forall k :: k in prices <==>
         (exists j :: 0 <= j < |tickers| && Upper(tickers[j]) == k) && Priced(k, ids, response.value.value)) &&
      (forall k :: k in prices ==> prices[k] == response.value.value[ids[k]].value)
  {
    prices := map[];
    fetched := false;
    if |tickers| == 0 {
      return;
    }
    var requested := RequestedIds(tickers, ids);
    if |requested| == 0 {
      return;
    }
    fetched := true;
    if response.Threw? || response.value.None? {
      return;
    }
    var data := response.value.value;
    for i := 0 to |tickers|
      invariant forall k :: k in prices <==> (exists j :: 0 <= j < i && Upper(tickers[j]) == k) && Priced(k, ids, data)
      invariant forall k :: k in prices ==> prices[k] == data[ids[k]].value
    {
      var key := Upper(tickers[i]);
      if key in ids && ids[key] != "" && ids[key] in data && data[ids[key]].Some? && data[ids[key]].value != 0.0 {
        prices := prices[key := data[ids[key]].value];
      }
    }
  }

  /** The price of a balance, looked up by its upper-cased ticker; `None` where there is
      none (a price is never zero). */
  function PriceOf(prices: map<string, real>, ticker: string): (r: Option<real>)
    ensures r.Some? <==> Upper(ticker) in prices && prices[Upper(ticker)] != 0.0
  {
    var k := Upper(ticker);
    if k in prices && prices[k] != 0.0 then Some(prices[k]) else None
  }

  // ---------------------------------------------------------------------------
  // The route

  /** The query parameters `address` and `addressFormat`. */
  datatype Request = Request(address: Option<string>, addressFormat: Option<string>)

  /** The outcomes of every call the route may make; only those of the chosen chain are
      used. */
  datatype Outcomes = Outcomes(
    balanceWei: Async<nat>, ownedTokens: Async<seq<OwnedToken>>, parseFloat: string -> real,
    lamports: Async<Option<nat>>, splAccounts: Async<Option<seq<SplAccount>>>,
    btc: Async<real>, prices: Async<Option<PriceData>>)

  /** Which fetcher serves an address format. */
  datatype Source = EthereumSource | SolanaSource | BitcoinSource | NoSource

  function SourceOf(addressFormat: string): (r: Source)
    ensures r == BitcoinSource <==> addressFormat != EthereumFormat && addressFormat != SolanaFormat &&
                                    StartsWith(addressFormat, "ADDRESS_FORMAT_BITCOIN")
  {
    if addressFormat == EthereumFormat then EthereumSource
    else if addressFormat == SolanaFormat then SolanaSource
    else if StartsWith(addressFormat, "ADDRESS_FORMAT_BITCOIN") then BitcoinSource
    else NoSource
  }

  /** Every Bitcoin address format, whatever its network and script type, is served by the
      Bitcoin fetcher; Ethereum and Solana have one format each. */
  lemma SourceOutcome(addressFormat: string)
    ensures SourceOf(EthereumFormat) == EthereumSource && SourceOf(SolanaFormat) == SolanaSource
    ensures SourceOf(BitcoinP2wpkhFormat) == BitcoinSource
    ensures SourceOf("ADDRESS_FORMAT_BITCOIN_TESTNET_P2TR") == BitcoinSource
    ensures SourceOf("ADDRESS_FORMAT_COSMOS") == NoSource
  {
  }

  /** One balance as returned: `show` renders a number (`toString`), `fixed2` renders a
      dollar amount with two decimals (`toFixed(2)`). */
  function ToAsset(b: BalanceItem, prices: map<string, real>, show: real -> string, fixed2: real -> string): BalanceAsset
  {
    var price := PriceOf(prices, b.ticker);
    BalanceAsset(b.chain, b.decimal, b.ticker, BuildIdentifier(b), show(b.value),
                 if price.Some? then fixed2(b.value * price.value) else "0.00", b.address)
  }

  function ToAssets(balances: seq<BalanceItem>, prices: map<string, real>, show: real -> string, fixed2: real -> string): (r: seq<BalanceAsset>)
    ensures |r| == |balances|
    ensures forall i :: 0 <= i < |r| ==> r[i] == ToAsset(balances[i], prices, show, fixed2)
  {
    seq(|balances|, i requires 0 <= i < |balances| => ToAsset(balances[i], prices, show, fixed2))
  }

  /** One returned entry per balance, in order, each keeping the balance's chain,
      decimals, ticker and address and carrying its identifier; an unpriced balance is
      worth "0.00", and two balances whose tickers differ only in case share a price. */
  lemma ToAssetsOutcome(balances: seq<BalanceItem>, prices: map<string, real>, show: real -> string, fixed2: real -> string)
    ensures var r := ToAssets(balances, prices, show, fixed2);
      |r| == |balances| &&
      forall i :: 0 <= i < |r| ==>
        r[i].chain == balances[i].chain && r[i].decimal == balances[i].decimal &&
        r[i].ticker == balances[i].ticker && r[i].address == balances[i].address &&
        r[i].identifier == BuildIdentifier(balances[i]) && r[i].value == show(balances[i].value) &&
        (PriceOf(prices, balances[i].ticker).None? ==> r[i].valueUsd == "0.00") &&
        (forall j :: 0 <= j < |r| && Upper(balances[j].ticker) == Upper(balances[i].ticker) ==>
           PriceOf(prices, balances[j].ticker) == PriceOf(prices, balances[i].ticker))
  {
  }

  function Tickers(balances: seq<BalanceItem>): (r: seq<string>)
    ensures |r| == |balances| && forall i :: 0 <= i < |r| ==> r[i] == balances[i].ticker
  {
    seq(|balances|, i requires 0 <= i < |balances| => balances[i].ticker)
  }

  /** `GET`: the balances of the account's chain, priced. `balances` is what the chosen
      fetcher returned; nothing is fetched without both parameters or for another format. */
  method Get(req: Request, o: Outcomes, ids: map<string, string>, show: real -> string, fixed2: real -> string)
    returns (result: seq<BalanceAsset>, balances: seq<BalanceItem>, priced: bool)
    ensures req.address.None? || req.addressFormat.None? ==> result == [] && balances == [] && !priced
    ensures req.address.Some? && req.addressFormat.Some? ==>
      var source := SourceOf(req.addressFormat.value);
      balances == (match source
                   case EthereumSource => EthereumBalances(o.balanceWei, o.ownedTokens, o.parseFloat)
                   case SolanaSource => SolanaBalances(o.lamports, o.splAccounts)
                   case BitcoinSource => BitcoinBalances(o.btc)
                   case NoSource => []) &&
      (source == NoSource ==> result == [] && !priced) &&
      (source != NoSource ==>
        |result| == |balances| &&
        (priced <==> |RequestedIds(Tickers(balances), ids)| > 0) &&
        forall i :: 0 <= i < |result| ==>
          (result[i].identifier == BuildIdentifier(balances[i]) &&
           result[i].chain == balances[i].chain && result[i].ticker == balances[i].ticker &&
           result[i].address == balances[i].address))
  {
    result, balances, priced := [], [], false;
    if req.address.None? || req.addressFormat.None? {
      return;
    }
    var format := req.addressFormat.value;
    if format == EthereumFormat {
      balances := FetchEthereumBalances(o.balanceWei, o.ownedTokens, o.parseFloat);
    } else if format == SolanaFormat {
      balances := FetchSolanaBalances(o.lamports, o.splAccounts);
    } else if StartsWith(format, "ADDRESS_FORMAT_BITCOIN") {
      balances := BitcoinBalances(o.btc);
    } else {
      return;
    }
    var tickers := Tickers(balances);
    var prices;
    prices, priced := FetchTokenPrices(tickers, ids, o.prices);
    result := ToAssets(balances, prices, show, fixed2);
  }
}
