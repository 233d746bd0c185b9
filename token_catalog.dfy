/** The swap token catalog: the token lists of four swap providers, merged with the first
    token kept for each identifier and sorted by ticker. */
module TokenCatalog {
  import opened Wrappers
  import opened Seqs
  import opened Sorting
  import opened Api

  /** The providers queried, in the order their lists are merged. */
  const SwapProviders: seq<string> := ["THORCHAIN", "MAYACHAIN", "ONEINCH", "NEAR"]

  function Identifier(t: Token): string { t.identifier }

  /** The comparator `a.ticker.localeCompare(b.ticker)`. */
  function TickerKey(t: Token): Key { Key(0, t.ticker) }

  /** The list one provider contributes: its `tokens`, or nothing when the fetch threw or
      the response has no `tokens`. */
  function ProviderTokens(response: Async<Option<seq<Token>>>): (r: seq<Token>)
    ensures response.Threw? ==> r == []
    ensures response.Done? && response.value.Some? ==> r == response.value.value
  {
    match response
    case Threw(_) => []
    case Done(tokens) => if tokens.Some? then tokens.value else []
  }

  /** The provider lists concatenated in provider order. */
  function Concat(responses: seq<Async<Option<seq<Token>>>>): seq<Token>
  {
    if |responses| == 0 then []
    else Concat(responses[..|responses| - 1]) + ProviderTokens(responses[|responses| - 1])
  }

  /** What the query function resolves to. */
  function Catalog(responses: seq<Async<Option<seq<Token>>>>): seq<Token>
  {
    SortByKey(DedupFirst(Concat(responses), Identifier), TickerKey)
  }

  /** The query function, once every provider fetch has settled (`responses[i]` is the
      outcome of provider `SwapProviders[i]`). The map of identifiers is an
      insertion-ordered sequence of its values. */
  method FetchCatalog(responses: seq<Async<Option<seq<Token>>>>) returns (tokens: seq<Token>)
    requires |responses| == |SwapProviders|
    ensures tokens == Catalog(responses)
  {
    var tokenMap: seq<Token> := [];
    for i := 0 to |responses|
      invariant tokenMap == DedupFirst(Concat(responses[..i]), Identifier)
    {
      var list := ProviderTokens(responses[i]);
      ghost var before := Concat(responses[..i]);
      assert before + list[..0] == before;
      for j := 0 to |list|
        invariant tokenMap == DedupFirst(before + list[..j], Identifier)
      {
        var token := list[j];
        assert list[..j + 1] == list[..j] + [token];
        assert before + list[..j + 1] == (before + list[..j]) + [token];
        DedupFirstAppend(before + list[..j], token, Identifier);
        if !HasKey(tokenMap, Identifier, token.identifier) {
          tokenMap := tokenMap + [token];
        }
      }
      assert list[..|list|] == list;
      ConcatPrefix(responses, i);
      assert tokenMap == DedupFirst(Concat(responses[..i + 1]), Identifier);
    }
    assert responses[..|responses|] == responses;
    tokens := SortByKey(tokenMap, TickerKey);
  }

  /** The catalog holds each identifier once, every identifier any provider returned, each
      as the first token with it in provider order, and is ordered by ticker. */
  lemma CatalogOutcome(responses: seq<Async<Option<seq<Token>>>>)
    ensures var r := Catalog(responses);
      var all := Concat(responses);
      UniqueKeys(r, Identifier) &&
      (forall k :: HasKey(r, Identifier, k) <==> HasKey(all, Identifier, k)) &&
      (forall t :: t in r ==> FirstWithKey(all, Identifier, t)) &&
      Sorted(r, TickerKey)
  {
    var d := DedupFirst(Concat(responses), Identifier);
    var r := Catalog(responses);
    DedupFirstSpec(Concat(responses), Identifier);
    SortPermutation(d, TickerKey);
    SortSorted(d, TickerKey);
    PermutationKeepsKeys(r, d, Identifier);
    PermutationKeepsUniqueKeys(r, d, Identifier);
    forall t | t in r ensures t in d {
      SortMembers(d, TickerKey, t);
    }
  }

  /** A provider whose fetch throws changes nothing: the catalog is that of the other
      providers. */
  lemma FailedProviderIgnored(responses: seq<Async<Option<seq<Token>>>>, i: int, message: string)
    requires 0 <= i < |responses|
    ensures Concat(responses[i := Threw(message)]) == Concat(responses[..i]) + Concat(responses[i + 1..])
  {
    var before, after := responses[..i], responses[i + 1..];
    assert responses[i := Threw(message)] == (before + [Threw(message)]) + after;
    ConcatSplit(before + [Threw(message)], after);
    ConcatAppend(before, Threw(message));
  }

  /** Concatenating two lists of responses concatenates their tokens. */
  lemma {:induction false} ConcatSplit(a: seq<Async<Option<seq<Token>>>>, b: seq<Async<Option<seq<Token>>>>)
    ensures Concat(a + b) == Concat(a) + Concat(b)
    decreases |b|
  {
    if |b| > 0 {
      var init, last := b[..|b| - 1], b[|b| - 1];
      ConcatSplit(a, init);
      assert a + b == (a + init) + [last];
      assert b == init + [last];
      ConcatAppend(a + init, last);
      ConcatAppend(init, last);
    } else {
      assert a + b == a;
    }
  }

  lemma ConcatAppend(rs: seq<Async<Option<seq<Token>>>>, r: Async<Option<seq<Token>>>)
    ensures Concat(rs + [r]) == Concat(rs) + ProviderTokens(r)
  {
    assert (rs + [r])[..|rs|] == rs;
  }

  lemma ConcatPrefix(responses: seq<Async<Option<seq<Token>>>>, i: int)
    requires 0 <= i < |responses|
    ensures Concat(responses[..i + 1]) == Concat(responses[..i]) + ProviderTokens(responses[i])
  {
    assert responses[..i + 1][..i] == responses[..i];
  }

  /** If every provider fails the catalog is empty. */
  lemma {:induction false} AllFailedEmpty(responses: seq<Async<Option<seq<Token>>>>)
    requires forall i :: 0 <= i < |responses| ==> responses[i].Threw?
    ensures Catalog(responses) == []
  {
    if |responses| > 0 {
      AllFailedEmpty(responses[..|responses| - 1]);
    }
  }

  /** The state of the query. */
  datatype QueryState = Pending | Failed(message: string) | Loaded(data: seq<Token>)

  datatype UseTokensResult = UseTokensResult(tokens: seq<Token>, isLoading: bool, error: Option<string>)

  /** `useTokens`: the tokens are empty until data arrives. */
  function UseTokens(q: QueryState): (r: UseTokensResult)
    ensures r.tokens == (if q.Loaded? then q.data else [])
    ensures r.isLoading <==> q.Pending?
    ensures r.error.Some? <==> q.Failed?
  {
    match q
    case Pending => UseTokensResult([], true, None)
    case Failed(m) => UseTokensResult([], false, Some(m))
    case Loaded(data) => UseTokensResult(data, false, None)
  }
}
