/** The wallet's own token descriptors: a token is identified by its blockchain and its
    token type (the chain's native coin, or an EIP-20 contract), and carries the EVM chain
    id of its blockchain. */
module AppTypes {
  import opened Wrappers
  import opened Text

  datatype BlockchainType = Ethereum | BSC

  /** The enum's string value. */
  function BlockchainName(b: BlockchainType): (r: string)
  {
    match b
    case Ethereum => "Ethereum"
    case BSC => "BSC"
  }

  /** The `chainIds` table. */
  function ChainIdOf(b: BlockchainType): (r: nat)
  {
    match b
    case Ethereum => 1
    case BSC => 56
  }

  datatype TokenType = Native | Eip20(contractAddress: string)

  /** The `id` getter of each token type. */
  function TypeId(t: TokenType): (r: string)
  {
    match t
    case Native => "Native"
    case Eip20(contract) => "Eip20-" + contract
  }

  /** A constructed token; `id` and `chainId` are derived once, by the constructor. */
  datatype Token = Token(
    code: string,
    name: string,
    decimals: nat,
    blockchainType: BlockchainType,
    tokenType: TokenType,
    id: string,
    chainId: nat)

  /** `new Token(code, name, decimals, blockchainType, tokenType)`. */
  function NewToken(code: string, name: string, decimals: nat, b: BlockchainType, t: TokenType): (r: Token)
    ensures r.code == code && r.name == name && r.decimals == decimals && r.blockchainType == b && r.tokenType == t
  {
    Token(code, name, decimals, b, t, BlockchainName(b) + ":" + TypeId(t), ChainIdOf(b))
  }

  /** Reads a token id back into its blockchain and token type. */
  function ParseTokenId(id: string): (r: Option<(BlockchainType, TokenType)>)
  {
    match IndexOf(id, ':')
    case None => None
    case Some(k) =>
      var chain := id[..k];
      var rest := id[k + 1..];
      var b := if chain == "Ethereum" then Some(Ethereum) else if chain == "BSC" then Some(BSC) else None;
      if b.None? then None
      else if rest == "Native" then Some((b.value, Native))
      else if StartsWith(rest, "Eip20-") then Some((b.value, Eip20(rest[6..])))
      else None
  }

  /** The colon is the first one in the id: blockchain names contain none. */
  lemma IdSeparator(b: BlockchainType, t: TokenType)
    ensures IndexOf(BlockchainName(b) + ":" + TypeId(t), ':') == Some(|BlockchainName(b)|)
  {
    var name := BlockchainName(b);
    var id := name + ":" + TypeId(t);
    assert id[|name|] == ':';
    assert ':' !in id[..|name|] by {
      assert id[..|name|] == name;
    }
    var r := IndexOf(id, ':');
    assert r.Some? && r.value <= |name| by {
      assert ':' in id[..|name| + 1];
    }
    assert forall i :: 0 <= i < |name| ==> id[i] == name[i];
  }

  /** A token's id determines its blockchain and its token type: the id is never shared by
      two different kinds of token. */
  lemma {:induction false} TokenIdRoundTrip(code: string, name: string, decimals: nat, b: BlockchainType, t: TokenType)
    ensures ParseTokenId(NewToken(code, name, decimals, b, t).id) == Some((b, t))
  {
    var chain := BlockchainName(b);
    var id := chain + ":" + TypeId(t);
    IdSeparator(b, t);
    assert id[..|chain|] == chain;
    assert id[|chain| + 1..] == TypeId(t);
    match t
    case Native =>
    case Eip20(contract) =>
      assert TypeId(t)[6..] == contract;
      assert TypeId(t) != "Native" by { assert TypeId(t)[0] == 'E'; }
  }

  lemma TokenIdInjective(t1: Token, t2: Token)
    requires t1 == NewToken(t1.code, t1.name, t1.decimals, t1.blockchainType, t1.tokenType)
    requires t2 == NewToken(t2.code, t2.name, t2.decimals, t2.blockchainType, t2.tokenType)
    requires t1.id == t2.id
    ensures t1.blockchainType == t2.blockchainType && t1.tokenType == t2.tokenType
  {
    TokenIdRoundTrip(t1.code, t1.name, t1.decimals, t1.blockchainType, t1.tokenType);
    TokenIdRoundTrip(t2.code, t2.name, t2.decimals, t2.blockchainType, t2.tokenType);
  }

  /** The chain id is 1 exactly for Ethereum tokens and 56 exactly for BSC tokens. */
  lemma ChainIdOfToken(code: string, name: string, decimals: nat, b: BlockchainType, t: TokenType)
    ensures var token := NewToken(code, name, decimals, b, t);
      (token.chainId == 1 <==> b == Ethereum) && (token.chainId == 56 <==> b == BSC)
  {
  }

  /** `TokenBalance`: the balance as the text `balance.toString()` renders. */
  datatype TokenBalance = TokenBalance(balance: string, token: Token)
}
