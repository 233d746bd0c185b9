/** The signed-in main page: the guest view for a visitor, otherwise the user's wallets
    with each wallet's accounts de-duplicated by account id. */
module MainView {
  import opened Wrappers
  import opened Seqs
  import opened Api

  function AccountId(a: Account): string { a.walletAccountId }

  /** The accounts one wallet shows: the first account of each id, in order. */
  function UniqueAccountsOf(w: Wallet): seq<Account>
  {
    DedupFirst(w.accounts, AccountId)
  }

  /** The filter over one wallet's accounts, with its own `seen` set of ids. */
  method UniqueAccounts(accounts: seq<Account>) returns (unique: seq<Account>)
    ensures unique == DedupFirst(accounts, AccountId)
  {
    var seen: set<string> := {};
    unique := [];
    for i := 0 to |accounts|
      invariant unique == DedupFirst(accounts[..i], AccountId)
      invariant forall k :: k in seen <==> HasKey(unique, AccountId, k)
    {
      var account := accounts[i];
      assert accounts[..i + 1] == accounts[..i] + [account];
      DedupFirstAppend(accounts[..i], account, AccountId);
      if account.walletAccountId in seen {
        continue;
      }
      forall k ensures HasKey(unique + [account], AccountId, k) <==> HasKey(unique, AccountId, k) || k == account.walletAccountId {
        HasKeyAppend(unique, account, AccountId, k);
      }
      seen := seen + {account.walletAccountId};
      unique := unique + [account];
    }
    assert accounts[..|accounts|] == accounts;
  }

  /** `uniqueWallets`, as a function of the wallets. */
  function UniqueWalletsOf(wallets: seq<Wallet>): seq<Wallet>
  {
    seq(|wallets|, i requires 0 <= i < |wallets| => wallets[i].(accounts := UniqueAccountsOf(wallets[i])))
  }

  /** `uniqueWallets`: every wallet copied with its accounts filtered. */
  method UniqueWallets(wallets: seq<Wallet>) returns (unique: seq<Wallet>)
    ensures unique == UniqueWalletsOf(wallets)
  {
    unique := [];
    for i := 0 to |wallets|
      invariant unique == UniqueWalletsOf(wallets[..i])
    {
      var accounts := UniqueAccounts(wallets[i].accounts);
      unique := unique + [wallets[i].(accounts := accounts)];
    }
    assert wallets[..|wallets|] == wallets;
  }

  /** The wallets keep their number, order, ids and names; each wallet's accounts come
      from that wallet alone, in order, with each id once and as its first account. */
  lemma UniqueWalletsOutcome(wallets: seq<Wallet>)
    ensures var r := UniqueWalletsOf(wallets);
      |r| == |wallets| &&
      forall i :: 0 <= i < |r| ==>
        r[i].walletId == wallets[i].walletId && r[i].walletName == wallets[i].walletName &&
        UniqueKeys(r[i].accounts, AccountId) && Subseq(r[i].accounts, wallets[i].accounts) &&
        (forall k :: HasKey(r[i].accounts, AccountId, k) <==> HasKey(wallets[i].accounts, AccountId, k)) &&
        (forall a :: a in r[i].accounts ==> FirstWithKey(wallets[i].accounts, AccountId, a))
  {
    forall i | 0 <= i < |wallets| {
      DedupFirstSpec(wallets[i].accounts, AccountId);
    }
  }

  /** De-duplication is per wallet: an id held by two wallets is shown in both. */
  lemma SharedIdKeptInBoth(wallets: seq<Wallet>, i: int, j: int, k: string)
    requires 0 <= i < |wallets| && 0 <= j < |wallets|
    requires HasKey(wallets[i].accounts, AccountId, k) && HasKey(wallets[j].accounts, AccountId, k)
    ensures HasKey(UniqueWalletsOf(wallets)[i].accounts, AccountId, k)
    ensures HasKey(UniqueWalletsOf(wallets)[j].accounts, AccountId, k)
  {
    DedupFirstSpec(wallets[i].accounts, AccountId);
    DedupFirstSpec(wallets[j].accounts, AccountId);
  }

  /** What the page renders. */
  datatype View = Guest | Dashboard(showSidebar: bool, wallets: seq<Wallet>)

  /** `Main`: `user` is present when the session has a user record. */
  function Render(authenticated: bool, hasUser: bool, wallets: seq<Wallet>): (v: View)
    ensures v.Guest? <==> !authenticated
    ensures v.Dashboard? ==> v.showSidebar == hasUser && v.wallets == UniqueWalletsOf(wallets)
    ensures v.Dashboard? ==> |v.wallets| == |wallets|
    ensures v.Dashboard? ==>
      forall i :: 0 <= i < |wallets| ==>
        v.wallets[i].walletId == wallets[i].walletId && UniqueKeys(v.wallets[i].accounts, AccountId) &&
        (forall k :: HasKey(v.wallets[i].accounts, AccountId, k) <==> HasKey(wallets[i].accounts, AccountId, k))
  {
    UniqueWalletsOutcome(wallets);
    if !authenticated then Guest else Dashboard(hasUser, UniqueWalletsOf(wallets))
  }
}
