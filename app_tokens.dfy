/** The tokens the wallet offers for an account's address format: two stablecoins and the
    native coin on Ethereum, nothing elsewhere. */
module AppTokens {
  import opened Wrappers
  import opened Chains
  import opened AppTypes

  const UsdtContract := "0xdAC17F958D2ee523a2206206994597C13D831ec7"
  const UsdcContract := "0xA0b86991c6218b36c1d19D4a2e9Eb0cE3606eB48"

  /** `getSupportedTokens`. */
  function SupportedTokens(addressFormat: string): seq<Token>
  {
    if addressFormat == EthereumFormat then
      [NewToken("USDT", "Tether USD", 6, Ethereum, Eip20(UsdtContract)),
       NewToken("USDC", "USDC", 6, Ethereum, Eip20(UsdcContract))]
    else []
  }

  /** `getNativeToken`. */
  function NativeToken(addressFormat: string): Option<Token>
  {
    if addressFormat == EthereumFormat then Some(NewToken("ETH", "Ethereum", 18, Ethereum, Native))
    else None
  }

  /** Ethereum accounts are offered USDT then USDC, both six-decimal EIP-20 tokens on chain 1
      with distinct ids; every other format is offered nothing. */
  lemma SupportedTokensOutcome(addressFormat: string)
    ensures var r := SupportedTokens(addressFormat);
      (addressFormat != EthereumFormat ==> r == []) &&
      (addressFormat == EthereumFormat ==>
        |r| == 2 && r[0].code == "USDT" && r[1].code == "USDC" &&
        r[0].tokenType == Eip20(UsdtContract) && r[1].tokenType == Eip20(UsdcContract) &&
        r[0].id != r[1].id &&
        forall i :: 0 <= i < 2 ==> r[i].decimals == 6 && r[i].tokenType.Eip20? && r[i].chainId == 1)
  {
    if addressFormat == EthereumFormat {
      var r := SupportedTokens(addressFormat);
      if r[0].id == r[1].id {
        TokenIdInjective(r[0], r[1]);
      }
    }
  }

  /** Only Ethereum accounts have a native token: ETH, 18 decimals, id "Ethereum:Native". */
  lemma NativeTokenOutcome(addressFormat: string)
    ensures var r := NativeToken(addressFormat);
      (r.Some? <==> addressFormat == EthereumFormat) &&
      (r.Some? ==> r.value.code == "ETH" && r.value.decimals == 18 && r.value.tokenType == Native &&
                   r.value.chainId == 1 && r.value.id == "Ethereum:Native")
  {
  }

  /** The native token is never one of the supported tokens. */
  lemma NativeNotSupported(addressFormat: string)
    ensures NativeToken(addressFormat).Some? ==>
      forall t :: t in SupportedTokens(addressFormat) ==> t.id != NativeToken(addressFormat).value.id
  {
    if NativeToken(addressFormat).Some? {
      var n := NativeToken(addressFormat).value;
      forall t | t in SupportedTokens(addressFormat) ensures t.id != n.id {
        if t.id == n.id {
          TokenIdInjective(t, n);
        }
      }
    }
  }
}
