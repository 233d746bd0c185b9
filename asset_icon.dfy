/** The token icon: the token's logo, with a small network badge on every token that is not
    its chain's own coin. */
module AssetIcon {
  import opened Wrappers
  import opened Text
  import opened Api

  /** Coins whose ticker differs from their chain's name but which are native to it. */
  const NativeIdentifiers: seq<string> := ["THOR.RUNE", "BSC.BNB", "GAIA.ATOM"]

  /** `isNativeToken`: a listed native coin, or a token whose chain and ticker agree up
      to case. */
  predicate IsNativeToken(t: Token)
  {
    t.identifier in NativeIdentifiers || Lower(t.chain) == Lower(t.ticker)
  }

  /** Being native depends on the chain and ticker only up to case. */
  lemma IsNativeIgnoresCase(t: Token, u: Token)
    requires t.identifier == u.identifier
    requires Lower(t.chain) == Lower(u.chain) && Lower(t.ticker) == Lower(u.ticker)
    ensures IsNativeToken(t) <==> IsNativeToken(u)
  {
  }

  /** A token named after its chain is native; the three listed coins are native whatever
      their chain and ticker; a token with another identifier whose ticker differs from its
      chain beyond case is not. */
  lemma IsNativeOutcome(t: Token)
    ensures t.chain == t.ticker ==> IsNativeToken(t)
    ensures t.identifier == "THOR.RUNE" || t.identifier == "BSC.BNB" || t.identifier == "GAIA.ATOM" ==> IsNativeToken(t)
    ensures t.identifier !in NativeIdentifiers && Lower(t.chain) != Lower(t.ticker) ==> !IsNativeToken(t)
  {
  }

  /** The image path of a chain's badge. */
  function BadgePath(chain: string): string
  {
    "/networks/" + Lower(chain) + ".svg"
  }

  /** What the icon shows: nothing inside the frame without a token; otherwise the badge
      (its image path) and the logo (its URI), each when present. */
  datatype Icon = Blank | Shown(badge: Option<string>, logo: Option<string>)

  /** `AssetIcon`. `logoURI` is the token's `logoURI` field, which the declared token type
      does not list. */
  function Render(token: Option<Token>, logoURI: Option<string>): (r: Icon)
    ensures r.Blank? <==> token.None?
    ensures r.Shown? ==> (r.badge.Some? <==> !IsNativeToken(token.value))
    ensures r.Shown? && r.badge.Some? ==> r.badge.value == BadgePath(token.value.chain)
    ensures r.Shown? ==> (r.logo.Some? <==> Truthy(logoURI)) && (r.logo.Some? ==> r.logo == logoURI)
  {
    match token
    case None => Blank
    case Some(t) =>
      Shown(if IsNativeToken(t) then None else Some(BadgePath(t.chain)),
            if Truthy(logoURI) then logoURI else None)
  }
}
