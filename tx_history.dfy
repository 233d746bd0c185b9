/** The transaction history panel of an Ethereum account: pages of transfers fetched from
    the history route, the assets they involve, and the direction and asset filters. */
module TxHistory {
  import opened Wrappers
  import opened Text
  import opened Seqs
  import opened Sorting
  import opened Chains
  import opened ApiTypes

  const NotAvailableMessage := "Transaction history not available for this network"

  /** Only Ethereum accounts have a history; every other format gets the message. */
  predicate HistoryAvailable(addressFormat: string)
  {
    addressFormat == EthereumFormat
  }

  datatype Direction = AllDirections | Incoming | Outgoing

  /** The value of the asset filter that lets every asset through. */
  const AllAssets := "all"

  /** `isIncoming`: the transfer's recipient is the account, compared case-insensitively;
      a transfer without a recipient counts as outgoing. */
  predicate IsIncoming(tx: TransactionHistoryItem, address: string)
  {
    tx.to.Some? && Lower(tx.to.value) == Lower(address)
  }

  /** The filter callback. */
  predicate Keep(tx: TransactionHistoryItem, direction: Direction, assetFilter: string, address: string)
  {
    !(direction == Incoming && !IsIncoming(tx, address)) &&
    !(direction == Outgoing && IsIncoming(tx, address)) &&
    !(assetFilter != AllAssets && tx.asset != Some(assetFilter))
  }

  function KeepFilter(direction: Direction, assetFilter: string, address: string): TransactionHistoryItem -> bool
  {
    tx => Keep(tx, direction, assetFilter, address)
  }

  /** `filteredTransactions`. */
  function Filtered(txs: seq<TransactionHistoryItem>, direction: Direction, assetFilter: string, address: string): seq<TransactionHistoryItem>
  {
    Filter(txs, KeepFilter(direction, assetFilter, address))
  }

  /** The filtered list keeps the order of the history and holds exactly the transfers
      of the chosen direction and asset. */
  lemma FilteredOutcome(txs: seq<TransactionHistoryItem>, direction: Direction, assetFilter: string, address: string)
    ensures var r := Filtered(txs, direction, assetFilter, address);
      Subseq(r, txs) &&
      forall tx :: tx in r <==>
        tx in txs &&
        (direction == Incoming ==> IsIncoming(tx, address)) &&
        (direction == Outgoing ==> !IsIncoming(tx, address)) &&
        (assetFilter != AllAssets ==> tx.asset == Some(assetFilter))
  {
    FilterExact(txs, KeepFilter(direction, assetFilter, address));
  }

  /** With both filters at "all" every transfer is shown, in order. */
  lemma {:induction false} NoFilterKeepsAll(txs: seq<TransactionHistoryItem>, address: string)
    ensures Filtered(txs, AllDirections, AllAssets, address) == txs
  {
    if |txs| > 0 {
      NoFilterKeepsAll(txs[..|txs| - 1], address);
      assert txs == txs[..|txs| - 1] + [txs[|txs| - 1]];
    }
  }

  /** For one asset choice, the received and the sent transfers split its transfers: each
      appears under exactly one direction. */
  lemma DirectionsPartition(txs: seq<TransactionHistoryItem>, assetFilter: string, address: string)
    ensures multiset(Filtered(txs, Incoming, assetFilter, address)) + multiset(Filtered(txs, Outgoing, assetFilter, address)) ==
            multiset(Filtered(txs, AllDirections, assetFilter, address))
  {
    var all := Filtered(txs, AllDirections, assetFilter, address);
    var inF := KeepFilter(Incoming, assetFilter, address);
    var outF := KeepFilter(Outgoing, assetFilter, address);
    var allF := KeepFilter(AllDirections, assetFilter, address);
    var isIn := (tx: TransactionHistoryItem) => IsIncoming(tx, address);
    var isOut := (tx: TransactionHistoryItem) => !IsIncoming(tx, address);
    FilterPartition(all, isIn, isOut);
    FilterOfFilter(txs, allF, isIn, inF);
    FilterOfFilter(txs, allF, isOut, outF);
  }

  /** Filtering twice is filtering by both predicates. */
  lemma {:induction false} FilterOfFilter<T>(s: seq<T>, p: T -> bool, q: T -> bool, pq: T -> bool)
    requires forall x :: pq(x) == (p(x) && q(x))
    ensures Filter(Filter(s, p), q) == Filter(s, pq)
  {
    if |s| > 0 {
      var init := s[..|s| - 1];
      FilterOfFilter(init, p, q, pq);
      if p(s[|s| - 1]) {
        var f := Filter(init, p) + [s[|s| - 1]];
        assert f[..|f| - 1] == Filter(init, p);
      }
    }
  }

  /** The result count is shown exactly when a filter is set. */
  predicate ShowsCount(direction: Direction, assetFilter: string)
  {
    direction != AllDirections || assetFilter != AllAssets
  }

  /** The asset of a transfer that feeds the asset menu. */
  predicate HasAsset(txs: seq<TransactionHistoryItem>, a: string)
  {
    exists i :: 0 <= i < |txs| && txs[i].asset == Some(a) && a != ""
  }

  function AssetKey(a: string): Key { Key(0, a) }

  function Identity(a: string): string { a }

  /** `availableAssets`: a `Set` filled from the truthy assets, then sorted. The result
      lists every asset once, in strictly increasing order. */
  method AvailableAssets(txs: seq<TransactionHistoryItem>) returns (assets: seq<string>)
    ensures forall a :: a in assets <==> HasAsset(txs, a)
    ensures forall i, j :: 0 <= i < j < |assets| ==> StrLt(assets[i], assets[j])
  {
    var seen: seq<string> := [];
    for i := 0 to |txs|
      invariant UniqueKeys(seen, Identity)
      invariant forall a :: a in seen <==> HasAsset(txs[..i], a)
    {
      var tx := txs[i];
      forall a ensures HasAsset(txs[..i + 1], a) <==> HasAsset(txs[..i], a) || (tx.asset == Some(a) && a != "") {
        HasAssetStep(txs, i, a);
      }
      if Truthy(tx.asset) && tx.asset.value !in seen {
        seen := seen + [tx.asset.value];
      }
    }
    assert txs[..|txs|] == txs;
    assets := SortByKey(seen, AssetKey);
    SortPermutation(seen, AssetKey);
    SortSorted(seen, AssetKey);
    PermutationKeepsUniqueKeys(assets, seen, Identity);
    forall a ensures a in assets <==> a in seen {
      SortMembers(seen, AssetKey, a);
    }
    forall i, j | 0 <= i < j < |assets| ensures StrLt(assets[i], assets[j]) {
      assert KeyLe(AssetKey(assets[i]), AssetKey(assets[j]));
      StrLtTotal(assets[i], assets[j]);
    }
  }

  lemma HasAssetStep(txs: seq<TransactionHistoryItem>, i: int, a: string)
    requires 0 <= i < |txs|
    ensures HasAsset(txs[..i + 1], a) <==> HasAsset(txs[..i], a) || (txs[i].asset == Some(a) && a != "")
  {
    var p := txs[..i + 1];
    if HasAsset(p, a) {
      var k :| 0 <= k < |p| && p[k].asset == Some(a) && a != "";
      if k < i { assert txs[..i][k] == p[k]; }
    }
    if HasAsset(txs[..i], a) {
      var k :| 0 <= k < i && txs[..i][k].asset == Some(a) && a != "";
      assert p[k] == txs[..i][k];
    }
    if txs[i].asset == Some(a) && a != "" {
      assert p[i] == txs[i];
    }
  }

  /** What the panel shows. */
  datatype View =
    | NotAvailable(message: string)
    | Spinner
    | NoTransactions
    | NoMatches
    | Listing(shown: seq<TransactionHistoryItem>)

  /** The state of the panel. */
  class TransactionHistory {
    const address: string
    const addressFormat: string
    var loading: bool
    var transactions: seq<TransactionHistoryItem>
    var pageKey: Option<string>
    var hasMore: bool
    var directionFilter: Direction
    var assetFilter: string

    constructor(address: string, addressFormat: string)
      ensures this.address == address && this.addressFormat == addressFormat
      ensures !loading && transactions == [] && pageKey.None? && !hasMore
      ensures directionFilter == AllDirections && assetFilter == AllAssets
    {
      this.address := address;
      this.addressFormat := addressFormat;
      loading := false;
      transactions := [];
      pageKey := None;
      hasMore := false;
      directionFilter := AllDirections;
      assetFilter := AllAssets;
    }

    /** `fetchTransactionsData`, once the fetch has settled: a page fetched with a page key
        is appended, a first page replaces the list; a failed fetch changes nothing but
        `loading`, which is cleared in every case. */
    method FetchTransactionsData(nextPageKey: Option<string>, response: Async<TransactionHistoryResponse>)
      modifies this
      ensures !loading
      ensures response.Threw? ==>
        transactions == old(transactions) && pageKey == old(pageKey) && hasMore == old(hasMore)
      ensures response.Done? ==>
        transactions == (if Truthy(nextPageKey) then old(transactions) else []) + response.value.transfers &&
        pageKey == response.value.pageKey && (hasMore <==> Truthy(response.value.pageKey))
      ensures directionFilter == old(directionFilter) && assetFilter == old(assetFilter)
    {
      loading := true;
      match response {
        case Threw(_) =>
        case Done(data) =>
          if Truthy(nextPageKey) {
            transactions := transactions + data.transfers;
          } else {
            transactions := data.transfers;
          }
          pageKey := data.pageKey;
          hasMore := Truthy(data.pageKey);
      }
      loading := false;
    }

    /** `loadMore`: fetches the next page only when there is a page key. */
    method LoadMore(response: Async<TransactionHistoryResponse>)
      modifies this
      ensures !Truthy(old(pageKey)) ==>
        loading == old(loading) && transactions == old(transactions) && pageKey == old(pageKey) && hasMore == old(hasMore)
      ensures Truthy(old(pageKey)) ==> !loading
      ensures Truthy(old(pageKey)) && response.Threw? ==>
        transactions == old(transactions) && pageKey == old(pageKey) && hasMore == old(hasMore)
      ensures Truthy(old(pageKey)) && response.Done? ==>
        transactions == old(transactions) + response.value.transfers && pageKey == response.value.pageKey &&
        (hasMore <==> Truthy(response.value.pageKey))
      ensures directionFilter == old(directionFilter) && assetFilter == old(assetFilter)
    {
      if Truthy(pageKey) {
        FetchTransactionsData(pageKey, response);
      }
    }

    method SetDirectionFilter(direction: Direction)
      modifies this
      ensures directionFilter == direction
      ensures loading == old(loading) && transactions == old(transactions) && pageKey == old(pageKey) &&
              hasMore == old(hasMore) && assetFilter == old(assetFilter)
    {
      directionFilter := direction;
    }

    method SetAssetFilter(asset: string)
      modifies this
      ensures assetFilter == asset
      ensures loading == old(loading) && transactions == old(transactions) && pageKey == old(pageKey) &&
              hasMore == old(hasMore) && directionFilter == old(directionFilter)
    {
      assetFilter := asset;
    }

    /** The rendered panel. */
    function Render(): View
      reads this
    {
      if !HistoryAvailable(addressFormat) then NotAvailable(NotAvailableMessage)
      else if loading && |transactions| == 0 then Spinner
      else if |transactions| == 0 then NoTransactions
      else
        var shown := Filtered(transactions, directionFilter, assetFilter, address);
        if |shown| == 0 then NoMatches else Listing(shown)
    }
  }

  /** The panel lists transfers only for an Ethereum account with a non-empty history; the
      listing is the filtered history, and with no filter set it is the whole history. */
  lemma RenderOutcome(h: TransactionHistory)
    ensures var v := h.Render();
      (v.NotAvailable? <==> !HistoryAvailable(h.addressFormat)) &&
      (v.Listing? ==> |h.transactions| > 0 && Subseq(v.shown, h.transactions) && |v.shown| > 0) &&
      (v.Listing? && h.directionFilter == AllDirections && h.assetFilter == AllAssets ==> v.shown == h.transactions) &&
      ((HistoryAvailable(h.addressFormat) && |h.transactions| > 0 &&
        h.directionFilter == AllDirections && h.assetFilter == AllAssets) ==> v == Listing(h.transactions))
  {
    FilteredOutcome(h.transactions, h.directionFilter, h.assetFilter, h.address);
    NoFilterKeepsAll(h.transactions, h.address);
  }
}
