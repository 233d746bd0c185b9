/** The transaction history route: reads the query parameters, then fetches Ethereum
    transfers (outgoing and incoming queries merged, de-duplicated and sorted by block),
    Bitcoin transactions (net value and direction computed from inputs and outputs) or
    Solana transactions, and answers an empty page on any failure. */
module TxRoute {
  import opened Wrappers
  import opened Text
  import opened Seqs
  import opened Sorting
  import opened ApiTypes

  // ---------------------------------------------------------------------------
  // parseInt

  predicate IsHexChar(c: char)
  {
    '0' <= c <= '9' || 'a' <= c <= 'f' || 'A' <= c <= 'F'
  }

  function HexCharValue(c: char): (n: nat)
    requires IsHexChar(c)
    ensures n < 16
  {
    if '0' <= c <= '9' then c as int - '0' as int
    else if 'a' <= c <= 'f' then c as int - 'a' as int + 10
    else c as int - 'A' as int + 10
  }

  predicate AllHex(s: string)
  {
    forall i :: 0 <= i < |s| ==> IsHexChar(s[i])
  }

  /** The longest prefix of hex digits, which is what `parseInt` reads. */
  function LeadingHex(s: string): (r: string)
    ensures |r| <= |s| && r == s[..|r|] && AllHex(r)
    ensures |r| < |s| ==> !IsHexChar(s[|r|])
  {
    if |s| > 0 && IsHexChar(s[0]) then [s[0]] + LeadingHex(s[1..]) else []
  }

  /** The value of a string of hex digits, most significant first. */
  function HexValue(d: string): nat
    requires AllHex(d)
  {
    if |d| == 0 then 0 else 16 * HexValue(d[..|d| - 1]) + HexCharValue(d[|d| - 1])
  }

  /** `parseInt(s, 16)` on an unsigned text: an optional `0x` prefix, then the leading hex
      digits; `None` (NaN) when there are none. */
  function ParseIntHex(s: string): Option<nat>
  {
    var body := if StartsWith(s, "0x") || StartsWith(s, "0X") then s[2..] else s;
    var digits := LeadingHex(body);
    if digits == "" then None else Some(HexValue(digits))
  }

  /** A block number in the `0x`-prefixed lower-case form the transfer API uses. */
  function ToHex(n: nat): (r: string)
    ensures |r| > 0 && AllHex(r)
  {
    if n < 16 then [HexDigit(n)] else ToHex(n / 16) + [HexDigit(n % 16)]
  }

  lemma {:induction false} ToHexValue(n: nat)
    ensures HexValue(ToHex(n)) == n
  {
    if n >= 16 {
      var s := ToHex(n);
      assert s[..|s| - 1] == ToHex(n / 16);
      ToHexValue(n / 16);
    }
  }

  lemma {:induction false} LeadingHexAll(s: string)
    requires AllHex(s)
    ensures LeadingHex(s) == s
  {
    if |s| > 0 {
      LeadingHexAll(s[1..]);
      assert s == [s[0]] + s[1..];
    }
  }

  /** Reading a block number back with `parseInt(_, 16)` gives the number. */
  lemma HexBlockRoundTrip(n: nat)
    ensures ParseIntHex("0x" + ToHex(n)) == Some(n)
  {
    var s := "0x" + ToHex(n);
    assert StartsWith(s, "0x");
    assert s[2..] == ToHex(n);
    LeadingHexAll(ToHex(n));
    ToHexValue(n);
  }

  function LeadingDigits(s: string): (r: string)
    ensures |r| <= |s| && r == s[..|r|] && AllDigits(r)
  {
    if |s| > 0 && IsDigit(s[0]) then [s[0]] + LeadingDigits(s[1..]) else []
  }

  /** `parseInt(s)`: an optional sign, then the leading decimal digits; `None` (NaN) when
      there are none. */
  function ParseIntDec(s: string): Option<int>
  {
    var negative := |s| > 0 && s[0] == '-';
    var body := if |s| > 0 && (s[0] == '-' || s[0] == '+') then s[1..] else s;
    var digits := LeadingDigits(body);
    if digits == "" then None
    else
      var v: int := DigitsValue(digits);
      Some(if negative then -v else v)
  }

  lemma {:induction false} LeadingDigitsAll(s: string)
    requires AllDigits(s)
    ensures LeadingDigits(s) == s
  {
    if |s| > 0 {
      LeadingDigitsAll(s[1..]);
      assert s == [s[0]] + s[1..];
    }
  }

  const DefaultMaxCount := 100

  /** `maxCount`: 100 without a (truthy) parameter, otherwise the parsed parameter capped at
      100; `None` stands for NaN. */
  function MaxCount(param: Option<string>): Option<int>
  {
    if !Truthy(param) then Some(DefaultMaxCount)
    else match ParseIntDec(param.value)
      case None => None
      case Some(n) => Some(if n < DefaultMaxCount then n else DefaultMaxCount)
  }

  /** The page size never exceeds 100; it is 100 when no size is asked for, and a size
      written as a natural number is honoured up to 100. */
  lemma MaxCountOutcome(param: Option<string>, n: nat)
    ensures MaxCount(param).Some? ==> MaxCount(param).value <= DefaultMaxCount
    ensures !Truthy(param) ==> MaxCount(param) == Some(DefaultMaxCount)
    ensures param == Some(NatToString(n)) ==> MaxCount(param) == Some(if n < 100 then n else 100)
  {
    if param == Some(NatToString(n)) {
      var s := NatToString(n);
      assert s[0] != '-' && s[0] != '+' by { assert IsDigit(s[0]); }
      LeadingDigitsAll(s);
      NatToStringValue(n);
    }
  }

  // ---------------------------------------------------------------------------
  // Ethereum

  datatype RawContractIn = RawContractIn(address: Option<string>, decimal: Option<string>)

  /** A transfer as the transfer API reports it; `blockNum` is hexadecimal. */
  datatype AssetTransfer = AssetTransfer(
    uniqueId: string,
    category: string,
    blockNum: string,
    blockTimestamp: Option<string>,
    from: string,
    to: Option<string>,
    value: Option<real>,
    asset: Option<string>,
    hash: string,
    rawContract: Option<RawContractIn>)

  datatype TransfersPage = TransfersPage(transfers: seq<AssetTransfer>, pageKey: Option<string>)

  /** The parameters of one transfer query; the categories (external, internal, ERC-20),
      the metadata flag and the descending order are the same for both queries. */
  datatype TransferQuery = TransferQuery(
    fromAddress: Option<string>,
    toAddress: Option<string>,
    maxCount: Option<int>,
    pageKey: Option<string>)

  /** `pageKey && { pageKey }`: the key is sent only when truthy. */
  function PageKeyField(pageKey: Option<string>): (r: Option<string>)
    ensures r.Some? <==> Truthy(pageKey)
    ensures r.Some? ==> r == pageKey
  {
    if Truthy(pageKey) then pageKey else None
  }

  function OutgoingQuery(address: string, pageKey: Option<string>, maxCount: Option<int>): TransferQuery
  {
    TransferQuery(Some(address), None, maxCount, PageKeyField(pageKey))
  }

  function IncomingQuery(address: string, pageKey: Option<string>, maxCount: Option<int>): TransferQuery
  {
    TransferQuery(None, Some(address), maxCount, PageKeyField(pageKey))
  }

  function UniqueIdOf(t: AssetTransfer): string { t.uniqueId }

  /** `parseInt(blockNum, 16)`, with an unreadable block number taken as block 0. */
  function BlockOf(t: AssetTransfer): nat
  {
    match ParseIntHex(t.blockNum)
    case Some(n) => n
    case None => 0
  }

  /** The comparator `blockB - blockA`: later blocks first. */
  function BlockKey(t: AssetTransfer): Key
  {
    Key(-(BlockOf(t) as int), "")
  }

  /** The item built from one transfer. */
  function FormatTransfer(t: AssetTransfer): (item: TransactionHistoryItem)
  {
    TransactionHistoryItem(
      t.uniqueId, t.category, t.blockNum,
      if Truthy(t.blockTimestamp) then t.blockTimestamp.value else "",
      t.from, t.to, t.value, t.asset, t.hash, ETH,
      RawContract(
        if t.rawContract.Some? && Truthy(t.rawContract.value.address) then t.rawContract.value.address else None,
        if t.rawContract.Some? && Truthy(t.rawContract.value.decimal) then t.rawContract.value.decimal else None))
  }

  function FormatAll(ts: seq<AssetTransfer>): (r: seq<TransactionHistoryItem>)
    ensures |r| == |ts| && forall i :: 0 <= i < |ts| ==> r[i] == FormatTransfer(ts[i])
  {
    seq(|ts|, i requires 0 <= i < |ts| => FormatTransfer(ts[i]))
  }

  /** The transfers of both queries, one per unique id (the later one wins), later blocks
      first. */
  function EthTransfers(outgoing: TransfersPage, incoming: TransfersPage): seq<AssetTransfer>
  {
    SortByKey(MergeLastWins(outgoing.transfers + incoming.transfers, UniqueIdOf), BlockKey)
  }

  function EthResponse(outgoing: TransfersPage, incoming: TransfersPage): TransactionHistoryResponse
  {
    TransactionHistoryResponse(FormatAll(EthTransfers(outgoing, incoming)), FirstTruthy(outgoing.pageKey, incoming.pageKey))
  }

  /** `fetchEthereumTransactions`, once both queries have answered: the `Map` keyed by
      unique id is an insertion-ordered sequence written with `Map.set`. */
  method FetchEthereumTransactions(outgoing: TransfersPage, incoming: TransfersPage) returns (r: TransactionHistoryResponse)
    ensures r == EthResponse(outgoing, incoming)
  {
    var allTransfers := outgoing.transfers + incoming.transfers;
    var uniqueTransfers: seq<AssetTransfer> := [];
    for i := 0 to |allTransfers|
      invariant uniqueTransfers == MergeLastWins(allTransfers[..i], UniqueIdOf)
    {
      assert allTransfers[..i + 1][..i] == allTransfers[..i];
      uniqueTransfers := SetByKey(uniqueTransfers, UniqueIdOf, allTransfers[i]);
    }
    assert allTransfers[..|allTransfers|] == allTransfers;
    var sortedTransfers := SortByKey(uniqueTransfers, BlockKey);
    r := TransactionHistoryResponse(FormatAll(sortedTransfers), FirstTruthy(outgoing.pageKey, incoming.pageKey));
  }

  /** The merged history holds each unique id of either query once, as the last transfer
      reported with it, ordered from the latest block down; every item is an Ethereum
      item carrying its transfer's id, and the next page key is the outgoing query's, or
      else the incoming query's. */
  lemma EthResponseOutcome(outgoing: TransfersPage, incoming: TransfersPage)
    ensures var all := outgoing.transfers + incoming.transfers;
      var s := EthTransfers(outgoing, incoming);
      var r := EthResponse(outgoing, incoming);
      multiset(s) == multiset(MergeLastWins(all, UniqueIdOf)) &&
      UniqueKeys(s, UniqueIdOf) &&
      (forall k :: HasKey(s, UniqueIdOf, k) <==> HasKey(all, UniqueIdOf, k)) &&
      (forall t :: t in s ==> LastWithKey(all, UniqueIdOf, t)) &&
      (forall i, j :: 0 <= i < j < |s| ==> BlockOf(s[i]) >= BlockOf(s[j])) &&
      |r.transfers| == |s| &&
      (forall i :: 0 <= i < |s| ==> r.transfers[i].uniqueId == s[i].uniqueId && r.transfers[i].chain == ETH) &&
      r.pageKey == FirstTruthy(outgoing.pageKey, incoming.pageKey)
  {
    var all := outgoing.transfers + incoming.transfers;
    var m := MergeLastWins(all, UniqueIdOf);
    var s := EthTransfers(outgoing, incoming);
    MergeLastWinsSpec(all, UniqueIdOf);
    SortPermutation(m, BlockKey);
    SortSorted(m, BlockKey);
    PermutationKeepsKeys(s, m, UniqueIdOf);
    PermutationKeepsUniqueKeys(s, m, UniqueIdOf);
    forall t | t in s ensures t in m {
      SortMembers(m, BlockKey, t);
    }
    forall i, j | 0 <= i < j < |s| ensures BlockOf(s[i]) >= BlockOf(s[j]) {
      assert KeyLe(BlockKey(s[i]), BlockKey(s[j]));
    }
  }

  // ---------------------------------------------------------------------------
  // Bitcoin

  datatype BtcOutput = BtcOutput(addr: Option<string>, value: int)

  datatype BtcInput = BtcInput(prevOut: Option<BtcOutput>)

  /** A transaction of the address listing; `time` is in seconds. */
  datatype BtcTx = BtcTx(
    hash: string,
    blockHeight: Option<nat>,
    time: Option<int>,
    inputs: Option<seq<BtcInput>>,
    out: Option<seq<BtcOutput>>)

  function OrEmpty<T>(s: Option<seq<T>>): seq<T>
  {
    if s.Some? then s.value else []
  }

  predicate PaysTo(o: BtcOutput, address: string) { o.addr == Some(address) }

  predicate SpendsFrom(i: BtcInput, address: string) { i.prevOut.Some? && i.prevOut.value.addr == Some(address) }

  /** The total of the outputs paying the address. */
  function Received(outs: seq<BtcOutput>, address: string): int
  {
    if |outs| == 0 then 0
    else Received(outs[..|outs| - 1], address) + (if PaysTo(outs[|outs| - 1], address) then outs[|outs| - 1].value else 0)
  }

  /** The total of the inputs spending from the address. */
  function Spent(ins: seq<BtcInput>, address: string): int
  {
    if |ins| == 0 then 0
    else Spent(ins[..|ins| - 1], address) + (if SpendsFrom(ins[|ins| - 1], address) then ins[|ins| - 1].prevOut.value.value else 0)
  }

  predicate AnyPays(outs: seq<BtcOutput>, address: string)
  {
    exists i :: 0 <= i < |outs| && PaysTo(outs[i], address)
  }

  predicate AnySpends(ins: seq<BtcInput>, address: string)
  {
    exists i :: 0 <= i < |ins| && SpendsFrom(ins[i], address)
  }

  lemma AnyPaysPrefix(outs: seq<BtcOutput>, address: string, i: int)
    requires 0 <= i < |outs|
    ensures AnyPays(outs[..i + 1], address) <==> AnyPays(outs[..i], address) || PaysTo(outs[i], address)
  {
    if AnyPays(outs[..i + 1], address) {
      var k :| 0 <= k < i + 1 && PaysTo(outs[..i + 1][k], address);
      if k < i { assert outs[..i][k] == outs[k]; }
    }
    if AnyPays(outs[..i], address) {
      var k :| 0 <= k < i && PaysTo(outs[..i][k], address);
      assert outs[..i + 1][k] == outs[k];
    }
    assert outs[..i + 1][i] == outs[i];
  }

  lemma AnySpendsPrefix(ins: seq<BtcInput>, address: string, i: int)
    requires 0 <= i < |ins|
    ensures AnySpends(ins[..i + 1], address) <==> AnySpends(ins[..i], address) || SpendsFrom(ins[i], address)
  {
    if AnySpends(ins[..i + 1], address) {
      var k :| 0 <= k < i + 1 && SpendsFrom(ins[..i + 1][k], address);
      if k < i { assert ins[..i][k] == ins[k]; }
    }
    if AnySpends(ins[..i], address) {
      var k :| 0 <= k < i && SpendsFrom(ins[..i][k], address);
      assert ins[..i + 1][k] == ins[k];
    }
    assert ins[..i + 1][i] == ins[i];
  }

  /** The two accumulator loops over a transaction: the net amount the address gained,
      and whether it only received. */
  method NetValue(tx: BtcTx, address: string) returns (value: int, isIncoming: bool)
    ensures value == Received(OrEmpty(tx.out), address) - Spent(OrEmpty(tx.inputs), address)
    ensures isIncoming <==> AnyPays(OrEmpty(tx.out), address) && !AnySpends(OrEmpty(tx.inputs), address)
  {
    value := 0;
    isIncoming := false;
    var outs := OrEmpty(tx.out);
    for i := 0 to |outs|
      invariant value == Received(outs[..i], address)
      invariant isIncoming <==> AnyPays(outs[..i], address)
    {
      assert outs[..i + 1][..i] == outs[..i];
      AnyPaysPrefix(outs, address, i);
      if outs[i].addr == Some(address) {
        value := value + outs[i].value;
        isIncoming := true;
      }
    }
    assert outs[..|outs|] == outs;
    var ins := OrEmpty(tx.inputs);
    ghost var received := value;
    for i := 0 to |ins|
      invariant value == received - Spent(ins[..i], address)
      invariant isIncoming <==> AnyPays(outs, address) && !AnySpends(ins[..i], address)
    {
      assert ins[..i + 1][..i] == ins[..i];
      AnySpendsPrefix(ins, address, i);
      if ins[i].prevOut.Some? && ins[i].prevOut.value.addr == Some(address) {
        value := value - ins[i].prevOut.value.value;
        isIncoming := false;
      }
    }
    assert ins[..|ins|] == ins;
  }

  function Abs(n: int): nat { if n < 0 then -n else n }

  /** The item pushed for one transaction, given its net value and direction; `toIso`
      renders a time in milliseconds as an ISO-8601 date. */
  function ItemOf(tx: BtcTx, address: string, toIso: int -> string, net: int, incoming: bool): TransactionHistoryItem
  {
    var outs := OrEmpty(tx.out);
    var ins := OrEmpty(tx.inputs);
    var firstInput := if |ins| > 0 && ins[0].prevOut.Some? then ins[0].prevOut.value.addr else None;
    var firstOutput := if |outs| > 0 then outs[0].addr else None;
    TransactionHistoryItem(
      tx.hash, "native",
      if tx.blockHeight.Some? && tx.blockHeight.value != 0 then NatToString(tx.blockHeight.value) else "",
      if tx.time.Some? && tx.time.value != 0 then toIso(tx.time.value * 1000) else "",
      if incoming then (if Truthy(firstInput) then firstInput.value else "Unknown") else address,
      if incoming then Some(address) else (if Truthy(firstOutput) then firstOutput else None),
      Some(Abs(net) as real / 100000000.0),
      Some("BTC"), tx.hash, BTC, RawContract(None, None))
  }

  /** The item built from one transaction. */
  function BtcItem(tx: BtcTx, address: string, toIso: int -> string): TransactionHistoryItem
  {
    var outs := OrEmpty(tx.out);
    var ins := OrEmpty(tx.inputs);
    ItemOf(tx, address, toIso, Received(outs, address) - Spent(ins, address),
           AnyPays(outs, address) && !AnySpends(ins, address))
  }

  lemma {:induction false} SpentZero(ins: seq<BtcInput>, address: string)
    requires !AnySpends(ins, address)
    ensures Spent(ins, address) == 0
  {
    if |ins| > 0 {
      var init := ins[..|ins| - 1];
      assert !SpendsFrom(ins[|ins| - 1], address);
      assert !AnySpends(init, address) by {
        forall k | 0 <= k < |init| ensures !SpendsFrom(init[k], address) {
          assert init[k] == ins[k];
        }
      }
      SpentZero(init, address);
    }
  }

  /** A received transaction goes from its first input's address (or "Unknown") to the
      address and carries the total paid to the address; any other goes from the address.
      A transaction that both spends from and pays the address (change) is outgoing, and
      the amount is never negative. */
  lemma BtcItemOutcome(tx: BtcTx, address: string, toIso: int -> string)
    ensures var item := BtcItem(tx, address, toIso);
      var outs := OrEmpty(tx.out);
      var ins := OrEmpty(tx.inputs);
      var incoming := AnyPays(outs, address) && !AnySpends(ins, address);
      item.uniqueId == tx.hash && item.chain == BTC && item.asset == Some("BTC") &&
      item.value.Some? && item.value.value >= 0.0 &&
      (incoming ==> item.to == Some(address) && item.value.value == Abs(Received(outs, address)) as real / 100000000.0) &&
      (!incoming ==> item.from == address) &&
      (AnySpends(ins, address) ==> item.from == address)
  {
    var outs := OrEmpty(tx.out);
    var ins := OrEmpty(tx.inputs);
    if AnyPays(outs, address) && !AnySpends(ins, address) {
      SpentZero(ins, address);
    }
  }

  function BtcItems(txs: seq<BtcTx>, address: string, toIso: int -> string): (r: seq<TransactionHistoryItem>)
    ensures |r| == |txs| && forall i :: 0 <= i < |txs| ==> r[i] == BtcItem(txs[i], address, toIso)
  {
    seq(|txs|, i requires 0 <= i < |txs| => BtcItem(txs[i], address, toIso))
  }

  /** The Bitcoin page: one item per listed transaction, nothing when the listing failed or
      has no transactions, never a next page. */
  function BtcResponse(listing: Async<Option<seq<BtcTx>>>, address: string, toIso: int -> string): (r: TransactionHistoryResponse)
    ensures r.pageKey.None?
    ensures listing.Done? && listing.value.Some? ==>
      |r.transfers| == |listing.value.value| &&
      forall i :: 0 <= i < |r.transfers| ==> r.transfers[i].uniqueId == listing.value.value[i].hash && r.transfers[i].chain == BTC
    ensures !(listing.Done? && listing.value.Some?) ==> r.transfers == []
  {
    match listing
    case Done(Some(txs)) => TransactionHistoryResponse(BtcItems(txs, address, toIso), None)
    case _ => TransactionHistoryResponse([], None)
  }

  /** `fetchBitcoinTransactions`, once the listing has been fetched (`Threw` when the fetch
      or its JSON failed, `None` when it has no `txs`). */
  method FetchBitcoinTransactions(address: string, listing: Async<Option<seq<BtcTx>>>, toIso: int -> string)
    returns (r: TransactionHistoryResponse)
    ensures r == BtcResponse(listing, address, toIso)
  {
    var transfers: seq<TransactionHistoryItem> := [];
    if listing.Done? && listing.value.Some? {
      var txs := listing.value.value;
      for i := 0 to |txs|
        invariant |transfers| == i
        invariant forall k :: 0 <= k < i ==> transfers[k] == BtcItem(txs[k], address, toIso)
      {
        var tx := txs[i];
        var value, isIncoming := NetValue(tx, address);
        transfers := transfers + [ItemOf(tx, address, toIso, value, isIncoming)];
      }
      assert transfers == BtcItems(txs, address, toIso);
    }
    r := TransactionHistoryResponse(transfers, None);
  }

  // ---------------------------------------------------------------------------
  // GET

  /** The query parameters; `None` when absent. */
  datatype Request = Request(
    address: Option<string>,
    addressFormat: Option<string>,
    chain: Option<string>,
    pageKey: Option<string>,
    maxCount: Option<string>)

  const EmptyResponse := TransactionHistoryResponse([], None)

  /** `GET`, given the outcomes of the calls it may make: the two transfer queries, the
      Bitcoin listing and the Solana history (whose own errors are caught inside it).
      `queries` are the transfer queries sent. */
  method Get(req: Request, outgoing: Async<TransfersPage>, incoming: Async<TransfersPage>,
             listing: Async<Option<seq<BtcTx>>>, solana: TransactionHistoryResponse, toIso: int -> string)
    returns (response: TransactionHistoryResponse, queries: seq<TransferQuery>)
    ensures req.address.None? || req.addressFormat.None? || req.chain.None? ==>
      response == EmptyResponse && queries == []
    ensures req.address.Some? && req.addressFormat.Some? && req.chain.Some? ==>
      var chain := req.chain.value;
      var address := req.address.value;
      var pageKey := if Truthy(req.pageKey) then req.pageKey else None;
      (chain == "ETH" ==>
        queries == [OutgoingQuery(address, pageKey, MaxCount(req.maxCount)), IncomingQuery(address, pageKey, MaxCount(req.maxCount))] &&
        response == (if outgoing.Done? && incoming.Done? then EthResponse(outgoing.value, incoming.value) else EmptyResponse)) &&
      (chain != "ETH" ==> queries == []) &&
      (chain == "SOL" ==> response == solana) &&
      (chain == "BTC" ==> response == BtcResponse(listing, address, toIso)) &&
      (chain != "ETH" && chain != "SOL" && chain != "BTC" ==> response == EmptyResponse)
  {
    queries := [];
    if req.address.None? || req.addressFormat.None? || req.chain.None? {
      return EmptyResponse, [];
    }
    var address := req.address.value;
    var chain := req.chain.value;
    var pageKey := if Truthy(req.pageKey) then req.pageKey else None;
    var maxCount := MaxCount(req.maxCount);
    if chain == "ETH" {
      queries := [OutgoingQuery(address, pageKey, maxCount), IncomingQuery(address, pageKey, maxCount)];
      if outgoing.Threw? || incoming.Threw? {
        return EmptyResponse, queries;
      }
      response := FetchEthereumTransactions(outgoing.value, incoming.value);
    } else if chain == "SOL" {
      response := solana;
    } else if chain == "BTC" {
      response := FetchBitcoinTransactions(address, listing, toIso);
    } else {
      response := EmptyResponse;
    }
  }

  /** Both transfer queries of a request carry the same page key, and only a truthy one:
      the key the previous page returned (of either query) is sent to both. */
  lemma QueriesShareThePageKey(address: string, pageKey: Option<string>, maxCount: Option<int>)
    ensures var o := OutgoingQuery(address, pageKey, maxCount);
      var i := IncomingQuery(address, pageKey, maxCount);
      o.pageKey == i.pageKey && (o.pageKey.Some? <==> Truthy(pageKey)) &&
      o.fromAddress == Some(address) && o.toAddress.None? &&
      i.toAddress == Some(address) && i.fromAddress.None?
  {
  }
}
