/**
 * The rule by which `CosmosAccount.updateBalance` turns the cached balance and the
 * outcome of the balance query into the new cached balance and the value it returns.
 */
module CosmosBalance {
  import opened Wrappers
  import opened CosmosTypes

  /** The cached balance after an update, and the value the update resolves with (`None` is undefined). */
  datatype BalanceStep = BalanceStep(balance: Option<Token>, returned: Option<Token>)

  /** The cached balance after the coin loop has visited `coins` in order, starting from `cached`. */
  function Scan(chain: Chain, coins: seq<Coin>, cached: Option<Token>): Option<Token>
    decreases |coins|
  {
    if coins == [] then cached
    else if coins[|coins| - 1].denom == chain.denom then Some(Coins(chain, coins[|coins| - 1].amount))
    else Scan(chain, coins[..|coins| - 1], cached)
  }

  /** The coins the loop visits: only a present, non-empty list is walked. */
  function ListedCoins(resp: AuthAccountsResponse): seq<Coin> {
    if resp.coins.Some? && |resp.coins.value| > 0 then resp.coins.value else []
  }

  /** One un-throttled run of updateBalance on a chain that is bound. */
  function AfterUpdate(chain: Chain, cached: Option<Token>, q: AccountQuery): (r: BalanceStep)
    ensures q.QueryThrew? ==> r == BalanceStep(Some(Token(chain.denom, 0)), None)
    ensures q == QueryReturned(None) ==> r == BalanceStep(cached, None)
    ensures q.QueryReturned? && q.resp.Some? ==>
      r.returned == r.balance && r.balance.Some?
  {
    match q
    case QueryThrew => BalanceStep(Some(Coins(chain, 0)), None)
    case QueryReturned(None) => BalanceStep(cached, None)
    case QueryReturned(Some(resp)) =>
      var scanned := Scan(chain, ListedCoins(resp), cached);
      var settled := if scanned.None? then Some(Coins(chain, 0)) else scanned;
      BalanceStep(settled, settled)
  }

  /** The last coin of the chain's denomination decides the balance; the coins after it do not. */
  lemma {:induction false} LastMatchingCoinWins(chain: Chain, coins: seq<Coin>, cached: Option<Token>, k: nat)
    requires k < |coins| && coins[k].denom == chain.denom
    requires forall j :: k < j < |coins| ==> coins[j].denom != chain.denom
    ensures Scan(chain, coins, cached) == Some(Token(chain.denom, coins[k].amount))
    decreases |coins|
  {
    if k < |coins| - 1 {
      var prefix := coins[..|coins| - 1];
      assert prefix[k] == coins[k];
      LastMatchingCoinWins(chain, prefix, cached, k);
    }
  }

  /** With no coin of the chain's denomination the loop leaves the cached balance alone. */
  lemma {:induction false} NoMatchingCoinKeepsCache(chain: Chain, coins: seq<Coin>, cached: Option<Token>)
    requires forall j :: 0 <= j < |coins| ==> coins[j].denom != chain.denom
    ensures Scan(chain, coins, cached) == cached
    decreases |coins|
  {
    if coins != [] {
      NoMatchingCoinKeepsCache(chain, coins[..|coins| - 1], cached);
    }
  }

  /** The coins of the chain's denomination, in their original order. */
  function Matching(denom: string, coins: seq<Coin>): (m: seq<Coin>)
    ensures forall j :: 0 <= j < |m| ==> m[j].denom == denom
    decreases |coins|
  {
    if coins == [] then []
    else if coins[|coins| - 1].denom == denom then Matching(denom, coins[..|coins| - 1]) + [coins[|coins| - 1]]
    else Matching(denom, coins[..|coins| - 1])
  }

  /** Coins of other denominations have no effect: dropping them does not change the result. */
  lemma {:induction false} OtherDenominationsIgnored(chain: Chain, coins: seq<Coin>, cached: Option<Token>)
    ensures Scan(chain, coins, cached) == Scan(chain, Matching(chain.denom, coins), cached)
    decreases |coins|
  {
    if coins != [] {
      var prefix := coins[..|coins| - 1];
      var last := coins[|coins| - 1];
      OtherDenominationsIgnored(chain, prefix, cached);
      if last.denom == chain.denom {
        var m := Matching(chain.denom, prefix) + [last];
        assert m[..|m| - 1] == Matching(chain.denom, prefix);
      }
    }
  }

  /** Either no coin matches (and the loop is the identity) or the loop's result does not depend on the cache. */
  lemma {:induction false} ScanCases(chain: Chain, coins: seq<Coin>, c: Option<Token>, d: Option<Token>)
    ensures (Scan(chain, coins, c) == c && Scan(chain, coins, d) == d) || Scan(chain, coins, c) == Scan(chain, coins, d)
    decreases |coins|
  {
    if coins != [] && coins[|coins| - 1].denom != chain.denom {
      ScanCases(chain, coins[..|coins| - 1], c, d);
    }
  }

  /** Running the loop again over the same coins changes nothing. */
  lemma {:induction false} ScanSettles(chain: Chain, coins: seq<Coin>, cached: Option<Token>)
    ensures Scan(chain, coins, Scan(chain, coins, cached)) == Scan(chain, coins, cached)
    decreases |coins|
  {
    ScanCases(chain, coins, cached, Scan(chain, coins, cached));
  }

  /** After a response the balance is the last matching coin; with none, the earlier cache, or zero if there was none. */
  lemma {:induction false} ResponseSettlesBalance(chain: Chain, cached: Option<Token>, resp: AuthAccountsResponse)
    ensures var coins := ListedCoins(resp);
      var r := AfterUpdate(chain, cached, QueryReturned(Some(resp)));
      && r.returned == r.balance
      && (forall k :: 0 <= k < |coins| && coins[k].denom == chain.denom
            && (forall j :: k < j < |coins| ==> coins[j].denom != chain.denom)
            ==> r.balance == Some(Token(chain.denom, coins[k].amount)))
      && ((forall j :: 0 <= j < |coins| ==> coins[j].denom != chain.denom)
            ==> r.balance == (if cached.Some? then cached else Some(Token(chain.denom, 0))))
  {
    var coins := ListedCoins(resp);
    forall k | 0 <= k < |coins| && coins[k].denom == chain.denom
        && (forall j :: k < j < |coins| ==> coins[j].denom != chain.denom)
      ensures Scan(chain, coins, cached) == Some(Token(chain.denom, coins[k].amount))
    {
      LastMatchingCoinWins(chain, coins, cached, k);
    }
    if forall j :: 0 <= j < |coins| ==> coins[j].denom != chain.denom {
      NoMatchingCoinKeepsCache(chain, coins, cached);
    }
  }

  /** Two updates that see the same query outcome leave the same state as one. */
  lemma {:induction false} UpdateIdempotent(chain: Chain, cached: Option<Token>, q: AccountQuery)
    ensures AfterUpdate(chain, AfterUpdate(chain, cached, q).balance, q) == AfterUpdate(chain, cached, q)
  {
    if q.QueryReturned? && q.resp.Some? {
      var coins := ListedCoins(q.resp.value);
      var zero := Some(Coins(chain, 0));
      var scanned := Scan(chain, coins, cached);
      if scanned.Some? {
        ScanSettles(chain, coins, cached);
      } else {
        ScanCases(chain, coins, cached, zero);
      }
    }
  }
}
