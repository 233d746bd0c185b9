/** The swap asset picker: the catalog grouped by chain under an `All` entry, the chain tabs
    in label order, and the tokens of the selected tab filtered by the search query and
    ranked by how well they match it. */
module SelectAsset {
  import opened Wrappers
  import opened Text
  import opened Seqs
  import opened Sorting
  import opened Api

  /** `CHAIN_LABELS`. */
  const ChainLabels: map<string, string> := map[
    "AVAX" := "Avalanche", "BASE" := "Base", "BCH" := "Bitcoin Cash", "BSC" := "BNB Chain",
    "BTC" := "Bitcoin", "DOGE" := "Dogecoin", "ETH" := "Ethereum", "GAIA" := "Cosmos",
    "LTC" := "Litecoin", "TRON" := "Tron", "XRP" := "XRP Ledger", "THOR" := "THORChain",
    "OP" := "Optimism", "ARB" := "Arbitrum", "BERA" := "Berachain", "SOL" := "Solana",
    "POL" := "Polygon", "GNO" := "Gnosis", "ZEC" := "Zcash", "NEAR" := "NEAR"]

  /** `FEATURED_TOKENS`. */
  const FeaturedTokens: seq<string> := [
    "AVAX.AVAX", "BASE.ETH", "BCH.BCH", "BSC.BNB", "BTC.BTC", "DOGE.DOGE", "ETH.ETH",
    "GAIA.ATOM", "LTC.LTC", "TRON.TRX", "XRP.XRP", "THOR.RUNE", "OP.ETH", "ARB.ETH",
    "BERA.BERA", "SOL.SOL", "POL.POL", "GNO.xDAI", "ZEC.ZEC", "NEAR.NEAR"]

  /** `Filter.All`: the key of the tab holding every token. It shares the key space with
      chain codes. */
  const AllKey := "All"

  /** `chainLabel`: the mapped name, or the code itself when the name is missing or empty. */
  function ChainLabel(chain: string): string
  {
    if chain in ChainLabels && ChainLabels[chain] != "" then ChainLabels[chain] else chain
  }

  /** Every mapped chain shows its name; any other code shows itself. */
  lemma ChainLabelOutcome(chain: string)
    ensures chain in ChainLabels ==> ChainLabel(chain) == ChainLabels[chain] && ChainLabel(chain) != ""
    ensures chain !in ChainLabels ==> ChainLabel(chain) == chain
  {
    if chain in ChainLabels {
      assert forall c :: c in ChainLabels ==> |ChainLabels[c]| > 0;
    }
  }

  // ---------------------------------------------------------------------------
  // The chain map

  /** One entry of the insertion-ordered `Map<FilterChain, Token[]>`. */
  datatype Group = Group(key: string, members: seq<Token>)

  /** The position of `key` in the map. */
  function FindGroup(groups: seq<Group>, key: string): (r: Option<nat>)
    ensures r.Some? ==> r.value < |groups| && groups[r.value].key == key
    ensures r.None? <==> forall i :: 0 <= i < |groups| ==> groups[i].key != key
  {
    if |groups| == 0 then None
    else if groups[0].key == key then Some(0)
    else match FindGroup(groups[1..], key)
      case None => None
      case Some(i) => Some(i + 1)
  }

  /** `map.get(key)`. */
  function Lookup(groups: seq<Group>, key: string): Option<seq<Token>>
  {
    match FindGroup(groups, key)
    case None => None
    case Some(i) => Some(groups[i].members)
  }

  /** `map.set(key, members)`: replaces the entry in place, or appends it. */
  function SetGroup(groups: seq<Group>, key: string, members: seq<Token>): seq<Group>
  {
    match FindGroup(groups, key)
    case Some(i) => groups[i := Group(key, members)]
    case None => groups + [Group(key, members)]
  }

  predicate UniqueGroupKeys(groups: seq<Group>)
  {
    forall i, j :: 0 <= i < j < |groups| ==> groups[i].key != groups[j].key
  }

  /** One pass of the grouping loop: push onto the chain's list, or start a list. */
  function PushToken(groups: seq<Group>, t: Token): seq<Group>
  {
    match FindGroup(groups, t.chain)
    case Some(i) => groups[i := Group(t.chain, groups[i].members + [t])]
    case None => groups + [Group(t.chain, [t])]
  }

  /** The per-chain lists after the loop. */
  function Grouped(tokens: seq<Token>): seq<Group>
  {
    if |tokens| == 0 then [] else PushToken(Grouped(tokens[..|tokens| - 1]), tokens[|tokens| - 1])
  }

  /** `chainMap`: empty for no tokens, otherwise the per-chain lists with `All` set last. */
  function ChainMap(tokens: seq<Token>): seq<Group>
  {
    if |tokens| == 0 then [] else SetGroup(Grouped(tokens), AllKey, tokens)
  }

  /** The tokens of chain `k`, in catalog order: the reference the lists are compared with. */
  function OnChain(tokens: seq<Token>, k: string): (r: seq<Token>)
    ensures forall t :: t in r <==> t in tokens && t.chain == k
  {
    if |tokens| == 0 then []
    else if tokens[|tokens| - 1].chain == k then OnChain(tokens[..|tokens| - 1], k) + [tokens[|tokens| - 1]]
    else OnChain(tokens[..|tokens| - 1], k)
  }

  predicate HasChain(tokens: seq<Token>, k: string)
  {
    exists i :: 0 <= i < |tokens| && tokens[i].chain == k
  }

  lemma OnChainAppend(tokens: seq<Token>, t: Token, k: string)
    ensures OnChain(tokens + [t], k) == if t.chain == k then OnChain(tokens, k) + [t] else OnChain(tokens, k)
  {
    assert (tokens + [t])[..|tokens|] == tokens;
  }

  lemma HasChainAppend(tokens: seq<Token>, t: Token, k: string)
    ensures HasChain(tokens + [t], k) <==> HasChain(tokens, k) || t.chain == k
  {
    if HasChain(tokens + [t], k) && t.chain != k {
      var i :| 0 <= i < |tokens| + 1 && (tokens + [t])[i].chain == k;
      assert tokens[i].chain == k;
    }
    if HasChain(tokens, k) {
      var i :| 0 <= i < |tokens| && tokens[i].chain == k;
      assert (tokens + [t])[i].chain == k;
    }
    assert (tokens + [t])[|tokens|] == t;
  }

  lemma {:induction false} OnChainAbsent(tokens: seq<Token>, k: string)
    requires !HasChain(tokens, k)
    ensures OnChain(tokens, k) == []
  {
    if |tokens| > 0 {
      var init := tokens[..|tokens| - 1];
      assert tokens[|tokens| - 1].chain != k;
      assert !HasChain(init, k) by {
        forall i | 0 <= i < |init| ensures init[i].chain != k {
          assert tokens[i] == init[i];
        }
      }
      OnChainAbsent(init, k);
    }
  }

  /** With unique keys, the key at position `i` is found at `i`. */
  lemma FindGroupAt(groups: seq<Group>, i: int)
    requires UniqueGroupKeys(groups) && 0 <= i < |groups|
    ensures FindGroup(groups, groups[i].key) == Some(i)
  {
  }

  /** Lookup depends on the keys alone. */
  lemma {:induction false} FindGroupSameKeys(a: seq<Group>, b: seq<Group>, k: string)
    requires |a| == |b| && forall n :: 0 <= n < |a| ==> a[n].key == b[n].key
    ensures FindGroup(a, k) == FindGroup(b, k)
  {
    if |a| > 0 {
      FindGroupSameKeys(a[1..], b[1..], k);
    }
  }

  /** Appending a new key keeps the positions of the old ones. */
  lemma FindGroupAppend(groups: seq<Group>, g: Group, k: string)
    requires UniqueGroupKeys(groups) && FindGroup(groups, g.key).None?
    ensures UniqueGroupKeys(groups + [g])
    ensures FindGroup(groups + [g], k) == if k == g.key then Some(|groups|) else FindGroup(groups, k)
  {
    var r := groups + [g];
    if k == g.key {
      FindGroupAt(r, |groups|);
    } else {
      match FindGroup(groups, k)
      case Some(i) =>
        FindGroupAt(r, i);
      case None =>
        assert forall n :: 0 <= n < |r| ==> r[n].key != k;
    }
  }

  /** A token of a chain already in the map joins that chain's list. */
  lemma GroupedStepFound(s: seq<Token>, t: Token, j: nat)
    requires var g := Grouped(s);
      UniqueGroupKeys(g) &&
      (forall k :: FindGroup(g, k).Some? <==> HasChain(s, k)) &&
      (forall i :: 0 <= i < |g| ==> g[i].members == OnChain(s, g[i].key))
    requires FindGroup(Grouped(s), t.chain) == Some(j)
    ensures var g := Grouped(s + [t]);
      UniqueGroupKeys(g) &&
      (forall k :: FindGroup(g, k).Some? <==> HasChain(s + [t], k)) &&
      (forall i :: 0 <= i < |g| ==> g[i].members == OnChain(s + [t], g[i].key))
  {
    var g := Grouped(s);
    var g' := Grouped(s + [t]);
    assert (s + [t])[..|s|] == s;
    assert g' == g[j := Group(t.chain, g[j].members + [t])];
    assert |g'| == |g| && forall n :: 0 <= n < |g| ==> g'[n].key == g[n].key;
    forall k ensures FindGroup(g', k).Some? <==> HasChain(s + [t], k) {
      FindGroupSameKeys(g', g, k);
      HasChainAppend(s, t, k);
    }
    forall i | 0 <= i < |g'| ensures g'[i].members == OnChain(s + [t], g'[i].key) {
      OnChainAppend(s, t, g'[i].key);
      if i != j {
        assert g'[i] == g[i] && g[i].key != g[j].key;
      }
    }
  }

  /** A token of a new chain starts a list of its own at the end of the map. */
  lemma GroupedStepNew(s: seq<Token>, t: Token)
    requires var g := Grouped(s);
      UniqueGroupKeys(g) &&
      (forall k :: FindGroup(g, k).Some? <==> HasChain(s, k)) &&
      (forall i :: 0 <= i < |g| ==> g[i].members == OnChain(s, g[i].key))
    requires FindGroup(Grouped(s), t.chain).None?
    ensures var g := Grouped(s + [t]);
      UniqueGroupKeys(g) &&
      (forall k :: FindGroup(g, k).Some? <==> HasChain(s + [t], k)) &&
      (forall i :: 0 <= i < |g| ==> g[i].members == OnChain(s + [t], g[i].key))
  {
    var g := Grouped(s);
    var g' := Grouped(s + [t]);
    assert (s + [t])[..|s|] == s;
    assert g' == g + [Group(t.chain, [t])];
    OnChainAbsent(s, t.chain);
    forall k ensures FindGroup(g', k).Some? <==> HasChain(s + [t], k) {
      FindGroupAppend(g, Group(t.chain, [t]), k);
      HasChainAppend(s, t, k);
    }
    FindGroupAppend(g, Group(t.chain, [t]), t.chain);
    forall i | 0 <= i < |g'| ensures g'[i].members == OnChain(s + [t], g'[i].key) {
      OnChainAppend(s, t, g'[i].key);
    }
  }

  /** The loop groups the tokens by chain: one list per chain, in order of first
      appearance, each holding exactly that chain's tokens in catalog order. */
  lemma {:induction false} GroupedOutcome(tokens: seq<Token>)
    ensures var g := Grouped(tokens);
      UniqueGroupKeys(g) &&
      (forall k :: FindGroup(g, k).Some? <==> HasChain(tokens, k)) &&
      (forall i :: 0 <= i < |g| ==> g[i].members == OnChain(tokens, g[i].key))
  {
    if |tokens| > 0 {
      var s := tokens[..|tokens| - 1];
      var t := tokens[|tokens| - 1];
      assert tokens == s + [t];
      GroupedOutcome(s);
      match FindGroup(Grouped(s), t.chain)
      case Some(j) => GroupedStepFound(s, t, j);
      case None => GroupedStepNew(s, t);
    }
  }

  /** Writing a key makes it map to the new list and leaves every other key alone. */
  lemma SetGroupOutcome(groups: seq<Group>, key: string, members: seq<Token>)
    requires UniqueGroupKeys(groups)
    ensures var r := SetGroup(groups, key, members);
      UniqueGroupKeys(r) && Lookup(r, key) == Some(members) &&
      forall k :: k != key ==> Lookup(r, k) == Lookup(groups, k)
  {
    var r := SetGroup(groups, key, members);
    match FindGroup(groups, key)
    case Some(i) =>
      assert r == groups[i := Group(key, members)];
      forall k ensures FindGroup(r, k) == FindGroup(groups, k) {
        FindGroupSameKeys(r, groups, k);
      }
    case None =>
      forall k ensures FindGroup(r, k) == if k == key then Some(|groups|) else FindGroup(groups, k) {
        FindGroupAppend(groups, Group(key, members), k);
      }
      FindGroupAppend(groups, Group(key, members), key);
  }

  /** `chainMap`: empty for an empty catalog; otherwise `All` holds the whole catalog and
      every other key is a chain of the catalog mapping to exactly that chain's tokens in
      catalog order. */
  lemma ChainMapOutcome(tokens: seq<Token>)
    ensures var r := ChainMap(tokens);
      UniqueGroupKeys(r) &&
      (|tokens| == 0 ==> r == []) &&
      (|tokens| > 0 ==> Lookup(r, AllKey) == Some(tokens)) &&
      (forall k :: k != AllKey ==> (Lookup(r, k).Some? <==> HasChain(tokens, k))) &&
      (forall k :: k != AllKey && Lookup(r, k).Some? ==> Lookup(r, k).value == OnChain(tokens, k))
  {
    GroupedOutcome(tokens);
    var g := Grouped(tokens);
    if |tokens| > 0 {
      SetGroupOutcome(g, AllKey, tokens);
    }
    forall k | k != AllKey && Lookup(g, k).Some? ensures Lookup(g, k).value == OnChain(tokens, k) {
      var i := FindGroup(g, k).value;
      assert g[i].key == k;
    }
  }

  lemma GroupedPrefix(tokens: seq<Token>, i: int)
    requires 0 <= i < |tokens|
    ensures Grouped(tokens[..i + 1]) == PushToken(Grouped(tokens[..i]), tokens[i])
  {
    assert tokens[..i + 1][..i] == tokens[..i];
  }

  /** The `chainMap` memo: a loop pushing each token onto its chain's list and onto the
      list of every token, which is then set under `All`. */
  method BuildChainMap(tokens: seq<Token>) returns (chainMap: seq<Group>)
    ensures chainMap == ChainMap(tokens)
  {
    if |tokens| == 0 {
      return [];
    }
    chainMap := [];
    var allTokens: seq<Token> := [];
    for i := 0 to |tokens|
      invariant allTokens == tokens[..i]
      invariant chainMap == Grouped(tokens[..i])
    {
      var token := tokens[i];
      allTokens := allTokens + [token];
      GroupedPrefix(tokens, i);
      var found := FindGroup(chainMap, token.chain);
      if found.Some? {
        chainMap := chainMap[found.value := Group(token.chain, chainMap[found.value].members + [token])];
      } else {
        chainMap := chainMap + [Group(token.chain, [token])];
      }
    }
    assert tokens[..|tokens|] == tokens;
    chainMap := SetGroup(chainMap, AllKey, allTokens);
  }

  // ---------------------------------------------------------------------------
  // Chain tabs

  function Keys(groups: seq<Group>): (r: seq<string>)
    ensures |r| == |groups| && forall i :: 0 <= i < |groups| ==> r[i] == groups[i].key
  {
    seq(|groups|, i requires 0 <= i < |groups| => groups[i].key)
  }

  /** The tab comparator: `All` before everything, then by label. */
  function TabKey(chain: string): Key
  {
    Key(if chain == AllKey then 0 else 1, ChainLabel(chain))
  }

  /** `chains`. */
  function Chains(chainMap: seq<Group>): seq<string>
  {
    SortByKey(Keys(chainMap), TabKey)
  }

  /** The tabs are the map's keys, reordered so that `All` comes first (when present) and
      the chains follow by label. */
  lemma ChainsOutcome(chainMap: seq<Group>)
    ensures var r := Chains(chainMap);
      multiset(r) == multiset(Keys(chainMap)) && Sorted(r, TabKey) &&
      (AllKey in Keys(chainMap) ==> r[0] == AllKey) &&
      (forall i, j :: 0 <= i < j < |r| && r[i] != AllKey ==> StrLe(ChainLabel(r[i]), ChainLabel(r[j])))
  {
    var r := Chains(chainMap);
    SortPermutation(Keys(chainMap), TabKey);
    SortSorted(Keys(chainMap), TabKey);
    if AllKey in Keys(chainMap) {
      assert AllKey in multiset(r);
      var j :| 0 <= j < |r| && r[j] == AllKey;
      if j > 0 {
        assert KeyLe(TabKey(r[0]), TabKey(r[j]));
      }
    }
    forall i, j | 0 <= i < j < |r| && r[i] != AllKey ensures StrLe(ChainLabel(r[i]), ChainLabel(r[j])) {
      assert KeyLe(TabKey(r[i]), TabKey(r[j]));
      StrLtTotal(ChainLabel(r[i]), ChainLabel(r[j]));
    }
  }

  // ---------------------------------------------------------------------------
  // The token list of a tab

  predicate IsFeatured(t: Token)
  {
    t.identifier in FeaturedTokens
  }

  /** The search predicate: the lower-cased ticker or name includes the query. */
  predicate MatchesQuery(t: Token, query: string)
  {
    Contains(Lower(t.ticker), query) || Contains(Lower(t.name), query)
  }

  function QueryFilter(query: string): Token -> bool
  {
    t => MatchesQuery(t, query)
  }

  /** The selected tab's list, or nothing for a key the map does not hold. */
  function TabTokens(chainMap: seq<Group>, selectedChain: string): seq<Token>
  {
    match Lookup(chainMap, selectedChain)
    case Some(members) => members
    case None => []
  }

  /** `filteredTokens`. */
  function FilteredTokens(tokens: seq<Token>, selectedChain: string, searchQuery: string): seq<Token>
  {
    if searchQuery == "" then
      if selectedChain == AllKey then Filter(tokens, IsFeatured) else tokens
    else Filter(tokens, QueryFilter(Lower(searchQuery)))
  }

  /** Without a query the `All` tab offers only featured tokens and a chain tab its whole
      list; with a query a tab offers exactly its tokens whose lower-cased ticker or name
      includes the lower-cased query. Either way the order of the tab is kept. */
  lemma FilteredTokensOutcome(tokens: seq<Token>, selectedChain: string, searchQuery: string)
    ensures var r := FilteredTokens(tokens, selectedChain, searchQuery);
      Subseq(r, tokens) &&
      (searchQuery == "" && selectedChain != AllKey ==> r == tokens) &&
      (searchQuery == "" && selectedChain == AllKey ==> forall t :: t in r <==> t in tokens && IsFeatured(t)) &&
      (searchQuery != "" ==> forall t :: t in r <==> t in tokens && MatchesQuery(t, Lower(searchQuery)))
  {
    if searchQuery == "" {
      if selectedChain == AllKey {
        FilterExact(tokens, IsFeatured);
      } else {
        SubseqRefl(tokens);
      }
    } else {
      FilterExact(tokens, QueryFilter(Lower(searchQuery)));
    }
  }

  /** `getPriority`: how well a token matches the lower-cased query. */
  function Priority(t: Token, query: string): int
  {
    var ticker := Lower(t.ticker);
    var name := Lower(t.name);
    if query != "" && ticker == query then 1
    else if query != "" && StartsWith(ticker, query) then 2
    else if query != "" && Contains(ticker, query) then 3
    else if query != "" && StartsWith(name, query) then 4
    else if query != "" && Contains(name, query) then 5
    else if IsFeatured(t) then 6
    else 7
  }

  /** A ticker match outranks a name match, which outranks everything else; a token the
      search keeps always ranks among the matches (at most 5), and without a query only
      the featured rank 6 and the rest 7 are used. */
  lemma PriorityOutcome(t: Token, query: string)
    ensures var r := Priority(t, query);
      1 <= r <= 7 &&
      (r == 1 <==> query != "" && Lower(t.ticker) == query) &&
      (r <= 3 <==> query != "" && Contains(Lower(t.ticker), query)) &&
      (r <= 5 <==> query != "" && MatchesQuery(t, query)) &&
      (r == 6 <==> !(query != "" && MatchesQuery(t, query)) && IsFeatured(t))
  {
    var ticker := Lower(t.ticker);
    var name := Lower(t.name);
    if query != "" {
      if ticker == query {
        assert StartsWith(ticker, query);
      }
      if StartsWith(ticker, query) {
        StartsWithContains(ticker, query);
      }
      if StartsWith(name, query) {
        StartsWithContains(name, query);
      }
    }
  }

  /** The comparator: priority, then the lower-cased ticker. */
  function RankKey(t: Token, query: string): Key
  {
    Key(Priority(t, query), Lower(t.ticker))
  }

  /** `chainTokens`. */
  function ChainTokens(chainMap: seq<Group>, selectedChain: string, searchQuery: string): seq<Token>
  {
    var query := Lower(searchQuery);
    SortByKey(FilteredTokens(TabTokens(chainMap, selectedChain), selectedChain, searchQuery),
              t => RankKey(t, query))
  }

  /** The list shown is a reordering of the filtered tab, by priority and then by ticker. */
  lemma ChainTokensOutcome(chainMap: seq<Group>, selectedChain: string, searchQuery: string)
    ensures var query := Lower(searchQuery);
      var r := ChainTokens(chainMap, selectedChain, searchQuery);
      multiset(r) == multiset(FilteredTokens(TabTokens(chainMap, selectedChain), selectedChain, searchQuery)) &&
      forall i, j :: 0 <= i < j < |r| ==>
        Priority(r[i], query) <= Priority(r[j], query) &&
        (Priority(r[i], query) == Priority(r[j], query) ==> StrLe(Lower(r[i].ticker), Lower(r[j].ticker)))
  {
    var query := Lower(searchQuery);
    var f := FilteredTokens(TabTokens(chainMap, selectedChain), selectedChain, searchQuery);
    var key := t => RankKey(t, query);
    SortPermutation(f, key);
    SortSorted(f, key);
    var r := SortByKey(f, key);
    forall i, j | 0 <= i < j < |r|
      ensures Priority(r[i], query) <= Priority(r[j], query) &&
        (Priority(r[i], query) == Priority(r[j], query) ==> StrLe(Lower(r[i].ticker), Lower(r[j].ticker)))
    {
      assert KeyLe(key(r[i]), key(r[j]));
      StrLtTotal(Lower(r[i].ticker), Lower(r[j].ticker));
    }
  }

  /** When a token of the tab has exactly the query as its ticker, the list opens with a
      token whose ticker is the query. */
  lemma ExactTickerFirst(chainMap: seq<Group>, selectedChain: string, searchQuery: string, x: Token)
    requires searchQuery != "" && x in TabTokens(chainMap, selectedChain)
    requires Lower(x.ticker) == Lower(searchQuery)
    ensures var r := ChainTokens(chainMap, selectedChain, searchQuery);
      |r| > 0 && Lower(r[0].ticker) == Lower(searchQuery)
  {
    var query := Lower(searchQuery);
    var tokens := TabTokens(chainMap, selectedChain);
    var r := ChainTokens(chainMap, selectedChain, searchQuery);
    assert query != "" by { assert |query| == |searchQuery|; }
    FilteredTokensOutcome(tokens, selectedChain, searchQuery);
    assert StartsWith(Lower(x.ticker), query);
    StartsWithContains(Lower(x.ticker), query);
    ChainTokensOutcome(chainMap, selectedChain, searchQuery);
    assert x in multiset(r);
    var j :| 0 <= j < |r| && r[j] == x;
    PriorityOutcome(x, query);
    PriorityOutcome(r[0], query);
  }
}
