/** The profit summaries of `routes/appUser.js` over an account's influencers:
    the admin's overall average and highlights, and one account's average
    table and highlights. Every summary folds the coins influencer by
    influencer, coin by coin. */
module AppUserAggregates {
  import opened Common
  import opened Market
  import opened Profit
  import opened Reduce
  import opened AppUserModel

  // ---------------------------------------------------------------------------
  // Per-coin profit and the rows of an account's influencers

  /** Market-cap profit of an embedded coin: skipped (`None`) when the lookup
      threw or found no pair, or when either market cap is falsy. */
  function CoinProfit(c: Coin, dex: Dex): (r: Option<real>)
    ensures r.Some? <==> Truthy(c.shareMarketCap) && Truthy(MarketCapOf(dex(c.caAddress)))
    ensures r.Some? ==> dex(c.caAddress).FirstPair?
  {
    CapProfit(c.shareMarketCap, MarketCapOf(dex(c.caAddress)))
  }

  /** A coin's profit is the percentage change from its share cap to the
      first pair's current cap. */
  lemma CoinProfitRecoversCap(c: Coin, dex: Dex)
    ensures var r := CoinProfit(c, dex);
            r.Some? ==> dex(c.caAddress).pair.marketCap.value == c.shareMarketCap.value + c.shareMarketCap.value * r.value / 100.0
  {
    CapProfitRecoversCurrent(c.shareMarketCap, MarketCapOf(dex(c.caAddress)));
  }

  function CoinProfitOf(dex: Dex): Coin -> Option<real> {
    c => CoinProfit(c, dex)
  }

  /** One influencer's per-coin profits, in coin order. */
  function InfluencerRow(inf: Influencer, dex: Dex): (row: seq<Option<real>>)
    ensures |row| == |inf.coins|
  {
    seq(|inf.coins|, j requires 0 <= j < |inf.coins| => CoinProfit(inf.coins[j], dex))
  }

  function CoinRows(infs: seq<Influencer>): (rows: seq<seq<Coin>>)
    ensures |rows| == |infs|
    ensures forall i :: 0 <= i < |infs| ==> rows[i] == infs[i].coins
  {
    seq(|infs|, i requires 0 <= i < |infs| => infs[i].coins)
  }

  /** The per-influencer rows of per-coin profits. */
  function ProfitRows(infs: seq<Influencer>, dex: Dex): (rows: seq<seq<Option<real>>>)
    ensures |rows| == |infs|
    ensures forall i :: 0 <= i < |infs| ==> rows[i] == InfluencerRow(infs[i], dex)
  {
    MapRows(CoinRows(infs), CoinProfitOf(dex))
  }

  function CoinCounts(infs: seq<Influencer>): (counts: seq<nat>)
    ensures |counts| == |infs|
    ensures forall i :: 0 <= i < |infs| ==> counts[i] == |infs[i].coins|
  {
    seq(|infs|, i requires 0 <= i < |infs| => |infs[i].coins|)
  }

  /** The per-coin profits in enumeration order (influencers, then their
      coins): the order of `coinList` and of its results. */
  function EnumeratedProfits(infs: seq<Influencer>, dex: Dex): (s: seq<Option<real>>)
    ensures |s| == |Enumerate(CoinRows(infs))|
  {
    Profits(MapItems(Enumerate(CoinRows(infs)), CoinProfitOf(dex)))
  }

  /** The `k`-th result is the profit of the `k`-th coin of the coin list. */
  lemma EnumeratedProfitAt(infs: seq<Influencer>, dex: Dex, k: nat)
    requires k < |Enumerate(CoinRows(infs))|
    ensures EnumeratedProfits(infs, dex)[k] == CoinProfit(Enumerate(CoinRows(infs))[k].1, dex)
  {
  }

  /** Enumerating the coins and then computing their profits, or computing
      the rows of profits and concatenating them, gives the same profits. */
  lemma EnumeratedProfitsAreRows(infs: seq<Influencer>, dex: Dex)
    ensures EnumeratedProfits(infs, dex) == Flatten(ProfitRows(infs, dex))
  {
    ProfitsOfMappedEnumeration(CoinRows(infs), CoinProfitOf(dex));
  }

  /** The `j`-th coin of influencer `i` is skipped in the concatenated
      profits exactly when its own profit is. */
  lemma NoCoinProfit(infs: seq<Influencer>, dex: Dex)
    ensures (forall k :: 0 <= k < |Flatten(ProfitRows(infs, dex))| ==> Flatten(ProfitRows(infs, dex))[k].None?)
            <==> (forall i, j :: 0 <= i < |infs| && 0 <= j < |infs[i].coins| ==> CoinProfit(infs[i].coins[j], dex).None?)
  {
    var rows := ProfitRows(infs, dex);
    NoCellPresent(rows);
    assert forall i, j :: 0 <= i < |infs| && 0 <= j < |infs[i].coins| ==> rows[i][j] == CoinProfit(infs[i].coins[j], dex);
  }

  // ---------------------------------------------------------------------------
  // Looking up accounts

  function AccountKey(u: AppUser): Id { u.id }

  function RoleOf(u: AppUser): string { u.role }

  /** `findOne({ role: "admin" })`: the first stored admin account. */
  function FindAdmin(store: seq<AppUser>): (r: Option<nat>)
    ensures r.None? <==> forall k :: 0 <= k < |store| ==> store[k].role != AdminRole
    ensures r.Some? ==> r.value < |store| && store[r.value].role == AdminRole
  {
    FirstIndex(store, RoleOf, AdminRole)
  }

  // ---------------------------------------------------------------------------
  // GET /admin-influencers/average-profits

  /** The admin's average: 404 without an admin account; otherwise the mean
      of the valid profits over all coins of all its influencers, and 404
      when no coin has one. */
  function AdminAverageOf(store: seq<AppUser>, dex: Dex): Response<real> {
    var a := FindAdmin(store);
    if a.None? then Fail(NotFound)
    else
      var m := Mean(Flatten(ProfitRows(store[a.value].influencers, dex)));
      if m.Some? then Ok(m.value) else Fail(NotFound)
  }

  /** The inner walk over one influencer's coins: every valid profit is
      added to the total and counted. */
  method InfluencerTotals(inf: Influencer, dex: Dex) returns (total: real, count: nat)
    ensures total == SumValid(InfluencerRow(inf, dex))
    ensures count == CountValid(InfluencerRow(inf, dex))
  {
    ghost var row := InfluencerRow(inf, dex);
    var coins := inf.coins;
    total, count := 0.0, 0;
    var j := 0;
    while j < |coins|
      invariant 0 <= j <= |coins|
      invariant total == SumValid(row[..j])
      invariant count == CountValid(row[..j])
    {
      SumCountPrefixStep(row, j);
      assert row[j] == CoinProfit(coins[j], dex);
      var currentMarketCap := MarketCapOf(dex(coins[j].caAddress));
      var shareMarketCap := coins[j].shareMarketCap;
      if Truthy(currentMarketCap) && Truthy(shareMarketCap) {
        var profitPercentage := PercentChange(shareMarketCap.value, currentMarketCap.value);
        assert row[j] == Some(profitPercentage);
        total := total + profitPercentage;
        count := count + 1;
      } else {
        assert row[j].None?;
      }
      j := j + 1;
    }
    assert row[..j] == row;
  }

  /** The concatenated profits of the first `i + 1` influencers. */
  lemma FlattenStep(rows: seq<seq<Option<real>>>, i: nat)
    requires i < |rows|
    ensures Flatten(rows[..i + 1]) == Flatten(rows[..i]) + rows[i]
    ensures SumValid(Flatten(rows[..i + 1])) == SumValid(Flatten(rows[..i])) + SumValid(rows[i])
    ensures CountValid(Flatten(rows[..i + 1])) == CountValid(Flatten(rows[..i])) + CountValid(rows[i])
  {
    FlattenPrefix(rows, i);
    SumCountAppend(Flatten(rows[..i]), rows[i]);
  }

  /** The route's nested walk over influencers and coins, adding every valid
      profit to `totalProfit` and counting it in `validCoinCount`. */
  method AdminAverageProfits(store: seq<AppUser>, dex: Dex) returns (r: Response<real>)
    ensures r == AdminAverageOf(store, dex)
  {
    var found := FirstIndex(store, RoleOf, AdminRole);
    if found.None? {
      return Fail(NotFound);
    }
    var influencers := store[found.value].influencers;
    ghost var rows := ProfitRows(influencers, dex);
    var totalProfit: real := 0.0;
    var validCoinCount: nat := 0;
    var i := 0;
    while i < |influencers|
      invariant 0 <= i <= |influencers|
      invariant totalProfit == SumValid(Flatten(rows[..i]))
      invariant validCoinCount == CountValid(Flatten(rows[..i]))
    {
      FlattenStep(rows, i);
      var total, count := InfluencerTotals(influencers[i], dex);
      totalProfit := totalProfit + total;
      validCoinCount := validCoinCount + count;
      i := i + 1;
    }
    assert rows[..i] == rows;
    if validCoinCount > 0 {
      r := Ok(totalProfit / validCoinCount as real);
    } else {
      r := Fail(NotFound);
    }
  }

  /** Every position of the concatenated profits is the profit of some coin. */
  lemma CoinAt(infs: seq<Influencer>, dex: Dex, k: nat) returns (i: nat, j: nat)
    requires k < |Flatten(ProfitRows(infs, dex))|
    ensures i < |infs| && j < |infs[i].coins|
    ensures Flatten(ProfitRows(infs, dex))[k] == CoinProfit(infs[i].coins[j], dex)
  {
    var rows := ProfitRows(infs, dex);
    ProfitsOfEnumerate(rows);
    i, j := EnumeratePosition(rows, k);
    FlattenAt(rows, i, j);
  }

  /** The mean of all valid coin profits lies between the smallest and the
      largest of them. */
  lemma MeanBetweenCoinProfits(infs: seq<Influencer>, dex: Dex)
    requires Mean(Flatten(ProfitRows(infs, dex))).Some?
    ensures var m := Mean(Flatten(ProfitRows(infs, dex))).value;
            && (exists i, j :: 0 <= i < |infs| && 0 <= j < |infs[i].coins| && CoinProfit(infs[i].coins[j], dex).Some?
                               && CoinProfit(infs[i].coins[j], dex).value <= m)
            && (exists i, j :: 0 <= i < |infs| && 0 <= j < |infs[i].coins| && CoinProfit(infs[i].coins[j], dex).Some?
                               && CoinProfit(infs[i].coins[j], dex).value >= m)
  {
    var f := Flatten(ProfitRows(infs, dex));
    MeanIsBetweenValidProfits(f);
    var k1 :| 0 <= k1 < |f| && f[k1].Some? && f[k1].value <= Mean(f).value;
    var k2 :| 0 <= k2 < |f| && f[k2].Some? && f[k2].value >= Mean(f).value;
    var i1, j1 := CoinAt(infs, dex, k1);
    var i2, j2 := CoinAt(infs, dex, k2);
  }

  /** The admin average answers 404 exactly when there is no admin account or
      no coin of the admin's influencers has a profit; otherwise some valid
      coin profit is at most the average and some is at least it. */
  lemma AdminAverageMeaning(store: seq<AppUser>, dex: Dex)
    ensures var r := AdminAverageOf(store, dex);
            var a := FindAdmin(store);
            && (r == Fail(NotFound) <==>
                  a.None? || forall i, j :: 0 <= i < |store[a.value].influencers| && 0 <= j < |store[a.value].influencers[i].coins| ==>
                               CoinProfit(store[a.value].influencers[i].coins[j], dex).None?)
            && (r.Ok? ==>
                  var infs := store[a.value].influencers;
                  && (exists i, j :: 0 <= i < |infs| && 0 <= j < |infs[i].coins| && CoinProfit(infs[i].coins[j], dex).Some?
                                     && CoinProfit(infs[i].coins[j], dex).value <= r.body)
                  && (exists i, j :: 0 <= i < |infs| && 0 <= j < |infs[i].coins| && CoinProfit(infs[i].coins[j], dex).Some?
                                     && CoinProfit(infs[i].coins[j], dex).value >= r.body))
  {
    var a := FindAdmin(store);
    if a.Some? {
      var infs := store[a.value].influencers;
      NoCoinProfit(infs, dex);
      if Mean(Flatten(ProfitRows(infs, dex))).Some? {
        MeanBetweenCoinProfits(infs, dex);
      }
    }
  }

  // ---------------------------------------------------------------------------
  // The first pass shared by both highlight routes

  /** The first influencer with the most coins (strict `>` from -1). */
  function MostCoinsInfluencerOf(infs: seq<Influencer>): Option<Influencer> {
    var most := MostCoins(CoinCounts(infs)).0;
    if most.Some? then Some(infs[most.value]) else None
  }

  /** First pass: the influencer with the most coins and its count, and
      `coinList`, every coin tagged with its influencer. */
  method CollectCoins(infs: seq<Influencer>)
    returns (mostCoinsInfluencer: Option<Influencer>, mostCoinsCount: int, coinList: seq<(nat, Coin)>)
    ensures mostCoinsCount == MostCoins(CoinCounts(infs)).1
    ensures mostCoinsInfluencer == MostCoinsInfluencerOf(infs)
    ensures coinList == Enumerate(CoinRows(infs))
  {
    mostCoinsInfluencer := None;
    mostCoinsCount := -1;
    ghost var rows, counts := CoinRows(infs), CoinCounts(infs);
    ghost var mostIndex: Option<nat> := None;
    coinList := [];
    var i := 0;
    while i < |infs|
      invariant 0 <= i <= |infs|
      invariant (mostIndex, mostCoinsCount) == MostCoins(counts[..i])
      invariant mostIndex.Some? ==> mostIndex.value < i
      invariant mostCoinsInfluencer == if mostIndex.Some? then Some(infs[mostIndex.value]) else None
      invariant coinList == Enumerate(rows[..i])
    {
      var coins := infs[i].coins;
      MostCoinsPrefixStep(counts, i);
      if |coins| > mostCoinsCount {
        mostCoinsCount := |coins|;
        mostCoinsInfluencer := Some(infs[i]);
        mostIndex := Some(i);
      }
      coinList := AppendTagged(coinList, i, coins);
      assert rows[i] == coins;
      EnumeratePrefix(rows, i);
      i := i + 1;
    }
    assert rows[..i] == rows;
    assert counts[..i] == counts;
  }

  /** `mostCoinsInfluencer` is null exactly when there are no influencers;
      otherwise it is the first influencer whose coin count none exceeds, and
      the reported count is its number of coins. */
  lemma MostCoinsIsFirstWithMost(infs: seq<Influencer>)
    ensures var m := MostCoinsInfluencerOf(infs);
            && (m.None? <==> infs == [])
            && (m.Some? ==> MostCoins(CoinCounts(infs)).1 == |m.value.coins|)
            && (m.Some? ==> exists i0 :: 0 <= i0 < |infs| && m.value == infs[i0]
                              && (forall i :: 0 <= i < |infs| ==> |infs[i].coins| <= |infs[i0].coins|)
                              && (forall i :: 0 <= i < i0 ==> |infs[i].coins| < |infs[i0].coins|))
  {
    var counts := CoinCounts(infs);
    var most := MostCoins(counts).0;
    if most.Some? {
      var i0 := most.value;
      MostCoinsIsFirstMaximum(counts);
      assert forall i :: 0 <= i < |infs| ==> counts[i] == |infs[i].coins|;
      assert MostCoinsInfluencerOf(infs).value == infs[i0];
    }
  }

  // ---------------------------------------------------------------------------
  // The highest-profit coin, shared by both highlight routes

  /** `highestProfitCoin`: the coin's fields spread, with its profit and its
      influencer's name. */
  datatype CoinHighlight = CoinHighlight(coin: Coin, profitPercentage: real, influencerName: string)

  /** The first coin, in enumeration order, with the highest profit. */
  function HighestProfitCoinOf(infs: seq<Influencer>, dex: Dex): Option<CoinHighlight> {
    var coins := Enumerate(CoinRows(infs));
    var profits := EnumeratedProfits(infs, dex);
    var best := ArgMax(profits);
    if best.Some? then
      var (owner, coin) := coins[best.value];
      Some(CoinHighlight(coin, profits[best.value].value, infs[owner].name))
    else None
  }

  /** `highestProfitCoin` is null exactly when no coin has a profit;
      otherwise it is the first coin, influencer by influencer and coin by
      coin, whose profit no other coin's exceeds, reported with that profit
      and its influencer's name. (`ProfitRows(infs, dex)[i][j]` is the profit
      of coin `j` of influencer `i`.) */
  lemma HighestProfitCoinIsFirstBest(infs: seq<Influencer>, dex: Dex)
    ensures var hc := HighestProfitCoinOf(infs, dex);
            && (hc.None? <==> forall i, j :: 0 <= i < |infs| && 0 <= j < |infs[i].coins| ==>
                                               CoinProfit(infs[i].coins[j], dex).None?)
            && (hc.Some? ==> exists i0: nat, j0: nat :: IsFirstBestCell(ProfitRows(infs, dex), i0, j0) &&
                                hc.value == CoinHighlight(infs[i0].coins[j0], CoinProfit(infs[i0].coins[j0], dex).value,
                                                          infs[i0].name))
  {
    var rows := ProfitRows(infs, dex);
    EnumeratedProfitsAreRows(infs, dex);
    NoCoinProfit(infs, dex);
    if ArgMax(Flatten(rows)).Some? {
      var i0, j0 := FirstBestItem(CoinRows(infs), CoinProfitOf(dex));
      assert rows[i0][j0] == CoinProfit(infs[i0].coins[j0], dex);
      assert IsFirstBestCell(rows, i0, j0);
    }
  }

  // ---------------------------------------------------------------------------
  // GET /admin-influencers/highlights

  /** `mostCoinsUser` of the admin highlights: an influencer's name and coin
      count. */
  datatype CoinCount = CoinCount(name: string, coinCount: int)

  /** The admin highlights body; `None` is `null`. `highestAvgProfitUser`
      reduces to the overall average: the `name` beside it reads a field the
      account does not have. */
  datatype AdminHighlights = AdminHighlights(
    highestProfitCoin: Option<CoinHighlight>,
    mostCoinsUser: Option<CoinCount>,
    highestAvgProfit: Option<real>)

  /** What the admin highlights answer. The handler reads the admin's `_id`
      before checking that an admin was found, so a missing admin ends in the
      catch-all 500. */
  function AdminHighlightsOf(store: seq<AppUser>, dex: Dex): Response<AdminHighlights> {
    var a := FindAdmin(store);
    if a.None? then Fail(ServerError)
    else
      var infs := store[a.value].influencers;
      var most := MostCoinsInfluencerOf(infs);
      Ok(AdminHighlights(
        HighestProfitCoinOf(infs, dex),
        if most.Some? then Some(CoinCount(most.value.name, MostCoins(CoinCounts(infs)).1)) else None,
        Mean(EnumeratedProfits(infs, dex))))
  }

  /** Second pass of the admin highlights: over `coinList` in order, adds
      every valid profit to the total and count, and keeps the first coin with
      the highest profit (strict `>` from minus infinity). */
  method AdminFold(infs: seq<Influencer>, dex: Dex, coinList: seq<(nat, Coin)>)
    returns (totalProfit: real, validCoinCount: nat, highestProfitCoin: Option<CoinHighlight>)
    requires coinList == Enumerate(CoinRows(infs))
    ensures totalProfit == SumValid(EnumeratedProfits(infs, dex))
    ensures validCoinCount == CountValid(EnumeratedProfits(infs, dex))
    ensures highestProfitCoin == HighestProfitCoinOf(infs, dex)
  {
    ghost var profits := EnumeratedProfits(infs, dex);
    totalProfit, validCoinCount := 0.0, 0;
    highestProfitCoin := None;
    var highestProfit: real := 0.0;
    ghost var best: Option<nat> := None;
    var k := 0;
    while k < |coinList|
      invariant 0 <= k <= |coinList|
      invariant totalProfit == SumValid(profits[..k])
      invariant validCoinCount == CountValid(profits[..k])
      invariant best == ArgMax(profits[..k])
      invariant best.Some? ==> best.value < k && profits[best.value].Some?
      invariant best.None? ==> highestProfitCoin.None?
      invariant best.Some? ==>
                  var (owner, coin) := coinList[best.value];
                  && highestProfit == profits[best.value].value
                  && highestProfitCoin == Some(CoinHighlight(coin, highestProfit, infs[owner].name))
    {
      ArgMaxPrefixStep(profits, k);
      SumCountPrefixStep(profits, k);
      var (owner, coin) := coinList[k];
      EnumeratedProfitAt(infs, dex, k);
      var currentMarketCap := MarketCapOf(dex(coin.caAddress));
      var shareMarketCap := coin.shareMarketCap;
      if Truthy(currentMarketCap) && Truthy(shareMarketCap) {
        var profitPercentage := PercentChange(shareMarketCap.value, currentMarketCap.value);
        assert profits[k] == Some(profitPercentage);
        totalProfit := totalProfit + profitPercentage;
        validCoinCount := validCoinCount + 1;
        if highestProfitCoin.None? || profitPercentage > highestProfit {
          highestProfit := profitPercentage;
          highestProfitCoin := Some(CoinHighlight(coin, profitPercentage, infs[owner].name));
          best := Some(k);
        }
      } else {
        assert profits[k].None?;
      }
      k := k + 1;
    }
    assert profits[..k] == profits;
  }

  /** The route: find the admin, collect the coins, fold their results. */
  method AdminHighlightsRoute(store: seq<AppUser>, dex: Dex) returns (r: Response<AdminHighlights>)
    ensures r == AdminHighlightsOf(store, dex)
  {
    var found := FirstIndex(store, RoleOf, AdminRole);
    if found.None? {
      return Fail(ServerError);
    }
    var influencers := store[found.value].influencers;
    var mostCoinsInfluencer, mostCoinsCount, coinList := CollectCoins(influencers);
    var totalProfit, validCoinCount, highestProfitCoin := AdminFold(influencers, dex, coinList);
    var averageProfit := if validCoinCount > 0 then Some(totalProfit / validCoinCount as real) else None;
    var mostCoinsUser := if mostCoinsInfluencer.Some? then Some(CoinCount(mostCoinsInfluencer.value.name, mostCoinsCount))
                         else None;
    r := Ok(AdminHighlights(highestProfitCoin, mostCoinsUser, averageProfit));
  }

  /** The two admin routes agree: the highlights fail only without an admin;
      their average is present exactly when the average route answers, and
      then it is the same number. */
  lemma AdminHighlightsAgreeWithAverage(store: seq<AppUser>, dex: Dex)
    ensures AdminHighlightsOf(store, dex).Fail? <==> FindAdmin(store).None?
    ensures AdminHighlightsOf(store, dex).Ok? ==>
              var avg := AdminHighlightsOf(store, dex).body.highestAvgProfit;
              && (avg.Some? <==> AdminAverageOf(store, dex).Ok?)
              && (avg.Some? ==> avg.value == AdminAverageOf(store, dex).body)
  {
    var a := FindAdmin(store);
    if a.Some? {
      EnumeratedProfitsAreRows(store[a.value].influencers, dex);
    }
  }

  // ---------------------------------------------------------------------------
  // GET /:userId/average-profits

  /** One influencer's entry: its id and name, the total of its valid
      profits and the number of all its coins. */
  datatype InfluencerProfit = InfluencerProfit(influencerId: Id, influencerName: string, totalProfit: real, coinCount: nat)

  /** The response body: the account id, the mean over all valid profits (0
      when there is none), the number of valid coins and the entries.
      `userName` reads a field the account does not have and is left out. */
  datatype UserAverage = UserAverage(userId: Id, avgProfit: real, coinCount: nat, influencers: seq<InfluencerProfit>)

  function InfluencerProfitOf(inf: Influencer, dex: Dex): InfluencerProfit {
    InfluencerProfit(inf.id, inf.name, SumValid(InfluencerRow(inf, dex)), |inf.coins|)
  }

  /** The entries, one per influencer in order. */
  function InfluencerProfits(infs: seq<Influencer>, dex: Dex): (r: seq<InfluencerProfit>)
    decreases |infs|
    ensures |r| == |infs|
    ensures forall i :: 0 <= i < |infs| ==> r[i] == InfluencerProfitOf(infs[i], dex)
  {
    if infs == [] then []
    else InfluencerProfits(infs[..|infs| - 1], dex) + [InfluencerProfitOf(infs[|infs| - 1], dex)]
  }

  lemma InfluencerProfitsStep(infs: seq<Influencer>, dex: Dex, i: nat)
    requires i < |infs|
    ensures InfluencerProfits(infs[..i + 1], dex) == InfluencerProfits(infs[..i], dex) + [InfluencerProfitOf(infs[i], dex)]
  {
    assert infs[..i + 1][..i] == infs[..i];
  }

  /** What the route answers: an id that does not cast makes `findById`
      throw (500); a missing account is 404. */
  function UserAverageOf(store: seq<AppUser>, userId: Id, dex: Dex): Response<UserAverage> {
    if !IsObjectId(userId) then Fail(ServerError)
    else
      var k := FirstIndex(store, AccountKey, userId);
      if k.None? then Fail(NotFound)
      else
        var u := store[k.value];
        var all := Flatten(ProfitRows(u.influencers, dex));
        Ok(UserAverage(u.id, Mean(all).GetOr(0.0), CountValid(all), InfluencerProfits(u.influencers, dex)))
  }

  /** The route's walk: per influencer, the coin totals go into its entry and
      into the overall total and count. */
  method UserAverageProfits(store: seq<AppUser>, userId: Id, dex: Dex) returns (r: Response<UserAverage>)
    ensures r == UserAverageOf(store, userId, dex)
  {
    if !IsObjectId(userId) {
      return Fail(ServerError);
    }
    var found := FirstIndex(store, AccountKey, userId);
    if found.None? {
      return Fail(NotFound);
    }
    var appUser := store[found.value];
    var influencers := appUser.influencers;
    ghost var rows := ProfitRows(influencers, dex);
    var totalProfit: real := 0.0;
    var validCoinCount: nat := 0;
    var influencerData: seq<InfluencerProfit> := [];
    var i := 0;
    while i < |influencers|
      invariant 0 <= i <= |influencers|
      invariant totalProfit == SumValid(Flatten(rows[..i]))
      invariant validCoinCount == CountValid(Flatten(rows[..i]))
      invariant influencerData == InfluencerProfits(influencers[..i], dex)
    {
      FlattenStep(rows, i);
      InfluencerProfitsStep(influencers, dex, i);
      var influencer := influencers[i];
      var total, count := InfluencerTotals(influencer, dex);
      totalProfit := totalProfit + total;
      validCoinCount := validCoinCount + count;
      influencerData := influencerData + [InfluencerProfit(influencer.id, influencer.name, total, |influencer.coins|)];
      i := i + 1;
    }
    assert rows[..i] == rows;
    assert influencers[..i] == influencers;
    var averageProfit := if validCoinCount > 0 then totalProfit / validCoinCount as real else 0.0;
    r := Ok(UserAverage(appUser.id, averageProfit, validCoinCount, influencerData));
  }

  /** Sum of the entries' totals. */
  function SumOfTotals(entries: seq<InfluencerProfit>): real
    decreases |entries|
  {
    if entries == [] then 0.0 else SumOfTotals(entries[..|entries| - 1]) + entries[|entries| - 1].totalProfit
  }

  /** The entries' totals add up to the total of all valid profits: the
      first `i` entries to the total of the first `i` influencers. */
  lemma {:induction false} TotalsAddUp(infs: seq<Influencer>, dex: Dex, i: nat)
    requires i <= |infs|
    ensures SumOfTotals(InfluencerProfits(infs[..i], dex)) == SumValid(Flatten(ProfitRows(infs, dex)[..i]))
    decreases i
  {
    if i > 0 {
      var rows := ProfitRows(infs, dex);
      TotalsAddUp(infs, dex, i - 1);
      InfluencerProfitsStep(infs, dex, i - 1);
      var e := InfluencerProfits(infs[..i - 1], dex);
      assert (e + [InfluencerProfitOf(infs[i - 1], dex)])[..|e|] == e;
      FlattenStep(rows, i - 1);
    }
  }

  lemma AllTotals(infs: seq<Influencer>, dex: Dex)
    ensures SumOfTotals(InfluencerProfits(infs, dex)) == SumValid(Flatten(ProfitRows(infs, dex)))
  {
    TotalsAddUp(infs, dex, |infs|);
    assert infs[..|infs|] == infs;
    assert ProfitRows(infs, dex)[..|infs|] == ProfitRows(infs, dex);
  }

  /** Without a valid coin every influencer's total is 0. */
  lemma NoValidCoinZeroTotals(infs: seq<Influencer>, dex: Dex)
    requires CountValid(Flatten(ProfitRows(infs, dex))) == 0
    ensures forall i :: 0 <= i < |infs| ==> SumValid(InfluencerRow(infs[i], dex)) == 0.0
  {
    var rows := ProfitRows(infs, dex);
    NoCellPresent(rows);
    forall i | 0 <= i < |infs|
      ensures SumValid(InfluencerRow(infs[i], dex)) == 0.0
    {
      assert forall j :: 0 <= j < |rows[i]| ==> rows[i][j].None?;
      NoValidSumsToZero(rows[i]);
    }
  }

  /** The per-account average is consistent with its entries: with a valid
      coin, the average is the sum of the entries' totals divided by the
      number of valid coins; without one, the average is 0 and so is every
      entry's total. */
  lemma UserAverageIsMeanOfEntries(store: seq<AppUser>, userId: Id, dex: Dex)
    requires UserAverageOf(store, userId, dex).Ok?
    ensures var b := UserAverageOf(store, userId, dex).body;
            && (b.coinCount > 0 ==> b.avgProfit == SumOfTotals(b.influencers) / b.coinCount as real)
            && (b.coinCount == 0 ==> b.avgProfit == 0.0)
            && (b.coinCount == 0 ==> forall i :: 0 <= i < |b.influencers| ==> b.influencers[i].totalProfit == 0.0)
  {
    var infs := store[FirstIndex(store, AccountKey, userId).value].influencers;
    AllTotals(infs, dex);
    if CountValid(Flatten(ProfitRows(infs, dex))) == 0 {
      NoValidCoinZeroTotals(infs, dex);
    }
  }

  // ---------------------------------------------------------------------------
  // GET /:appUserId/influencers/highlights

  /** `mostCoinsInfluencer`: its id, name and coin count. (The body's
      top-level `_id` repeats this id.) */
  datatype InfluencerCount = InfluencerCount(id: Id, name: string, coinCount: int)

  /** `highestAvgProfitUser`: an influencer's id and name with its mean
      profit. */
  datatype InfluencerAverage = InfluencerAverage(id: Id, name: string, avgProfit: real)

  datatype UserHighlights = UserHighlights(
    highestAvgProfitUser: Option<InfluencerAverage>,
    highestProfitCoin: Option<CoinHighlight>,
    mostCoinsInfluencer: InfluencerCount)

  /** The first influencer with the highest mean profit over its valid
      coins. */
  function HighestAverageOf(infs: seq<Influencer>, dex: Dex): Option<InfluencerAverage> {
    var means := Means(ProfitRows(infs, dex));
    var a := ArgMax(means);
    if a.Some? then Some(InfluencerAverage(infs[a.value].id, infs[a.value].name, means[a.value].value)) else None
  }

  /** What the route answers: 400 for an id that is not an ObjectId; 404 for
      a missing account, for an account without influencers and for
      influencers without coins. */
  function UserHighlightsOf(store: seq<AppUser>, userId: Id, dex: Dex): Response<UserHighlights> {
    if !IsObjectId(userId) then Fail(BadRequest)
    else
      var k := FirstIndex(store, AccountKey, userId);
      if k.None? then Fail(NotFound)
      else
        var infs := store[k.value].influencers;
        if infs == [] || Enumerate(CoinRows(infs)) == [] then Fail(NotFound)
        else
          var most := MostCoinsInfluencerOf(infs).value;
          Ok(UserHighlights(
            HighestAverageOf(infs, dex),
            HighestProfitCoinOf(infs, dex),
            InfluencerCount(most.id, most.name, MostCoins(CoinCounts(infs)).1)))
  }

  /** Recording every enumerated coin's profit in turn builds the expected
      ledger of the profit rows. */
  lemma FoldBuildsExpectedLedger(infs: seq<Influencer>, dex: Dex)
    ensures RecordAll(Ledger(map[], []), MapItems(Enumerate(CoinRows(infs)), CoinProfitOf(dex)))
              == ExpectedLedger(ProfitRows(infs, dex))
  {
    EnumerateMap(CoinRows(infs), CoinProfitOf(dex));
    LedgerOfEnumeration(ProfitRows(infs, dex));
  }

  /** Second pass of the per-account highlights: over `coinList` in order,
      keeps the first coin with the highest profit and adds every valid
      profit to its influencer's `totalProfit` and `coinCount` (absent until
      the first one, as the fields start undefined). */
  method UserFold(infs: seq<Influencer>, dex: Dex, coinList: seq<(nat, Coin)>)
    returns (highestProfitCoin: Option<CoinHighlight>, tallies: map<nat, Tally>)
    requires coinList == Enumerate(CoinRows(infs))
    ensures highestProfitCoin == HighestProfitCoinOf(infs, dex)
    ensures tallies == ExpectedLedger(ProfitRows(infs, dex)).tallies
  {
    ghost var profits := EnumeratedProfits(infs, dex);
    ghost var items := MapItems(coinList, CoinProfitOf(dex));
    tallies := map[];
    ghost var order: seq<nat> := [];
    highestProfitCoin := None;
    var highestProfit: real := 0.0;
    ghost var best: Option<nat> := None;
    var k := 0;
    while k < |coinList|
      invariant 0 <= k <= |coinList|
      invariant Ledger(tallies, order) == RecordAll(Ledger(map[], []), items[..k])
      invariant best == ArgMax(profits[..k])
      invariant best.Some? ==> best.value < k && profits[best.value].Some?
      invariant best.None? ==> highestProfitCoin.None?
      invariant best.Some? ==>
                  var (owner, coin) := coinList[best.value];
                  && highestProfit == profits[best.value].value
                  && highestProfitCoin == Some(CoinHighlight(coin, highestProfit, infs[owner].name))
    {
      ArgMaxPrefixStep(profits, k);
      RecordAllPrefixStep(Ledger(map[], []), items, k);
      var (owner, coin) := coinList[k];
      EnumeratedProfitAt(infs, dex, k);
      assert items[k] == (owner, profits[k]);
      var currentMarketCap := MarketCapOf(dex(coin.caAddress));
      var shareMarketCap := coin.shareMarketCap;
      if Truthy(currentMarketCap) && Truthy(shareMarketCap) {
        var profitPercentage := PercentChange(shareMarketCap.value, currentMarketCap.value);
        assert profits[k] == Some(profitPercentage);
        if highestProfitCoin.None? || profitPercentage > highestProfit {
          highestProfit := profitPercentage;
          highestProfitCoin := Some(CoinHighlight(coin, profitPercentage, infs[owner].name));
          best := Some(k);
        }
        if owner !in tallies {
          order := order + [owner];
        }
        tallies := Credit(tallies, owner, profitPercentage);
      } else {
        assert profits[k].None?;
      }
      k := k + 1;
    }
    assert profits[..k] == profits;
    assert items[..k] == items;
    FoldBuildsExpectedLedger(infs, dex);
  }

  /** Third pass: over all influencers in order, `totalProfit / coinCount`
      with strict `>` from minus infinity. An influencer without a valid coin
      divides undefined by undefined, and `NaN > x` is false, so it is never
      chosen. */
  method HighestAverage(infs: seq<Influencer>, dex: Dex, tallies: map<nat, Tally>)
    returns (highestAvgProfitUser: Option<InfluencerAverage>)
    requires tallies == ExpectedLedger(ProfitRows(infs, dex)).tallies
    ensures highestAvgProfitUser == HighestAverageOf(infs, dex)
  {
    ghost var rows := ProfitRows(infs, dex);
    ghost var means := Means(rows);
    highestAvgProfitUser := None;
    var highestAvgProfit: real := 0.0;
    ghost var best: Option<nat> := None;
    var i := 0;
    while i < |infs|
      invariant 0 <= i <= |infs|
      invariant best == ArgMax(means[..i])
      invariant best.None? ==> highestAvgProfitUser.None?
      invariant best.Some? ==> && best.value < i && means[best.value].Some?
                               && highestAvgProfit == means[best.value].value
                               && highestAvgProfitUser == Some(InfluencerAverage(infs[best.value].id, infs[best.value].name,
                                                                                  highestAvgProfit))
    {
      ArgMaxPrefixStep(means, i);
      assert i in tallies <==> means[i].Some?;
      if i in tallies {
        var avgProfit := tallies[i].total / tallies[i].count as real;
        if highestAvgProfitUser.None? || avgProfit > highestAvgProfit {
          highestAvgProfit := avgProfit;
          highestAvgProfitUser := Some(InfluencerAverage(infs[i].id, infs[i].name, avgProfit));
          best := Some(i);
        }
      }
      i := i + 1;
    }
    assert means[..i] == means;
  }

  /** The route: validate the id, find the account, collect the coins, fold
      their results, then pick the best average. */
  method UserHighlightsRoute(store: seq<AppUser>, userId: Id, dex: Dex) returns (r: Response<UserHighlights>)
    ensures r == UserHighlightsOf(store, userId, dex)
  {
    if !IsObjectId(userId) {
      return Fail(BadRequest);
    }
    var found := FirstIndex(store, AccountKey, userId);
    if found.None? {
      return Fail(NotFound);
    }
    var influencers := store[found.value].influencers;
    if |influencers| == 0 {
      return Fail(NotFound);
    }
    var mostCoinsInfluencer, mostCoinsCount, coinList := CollectCoins(influencers);
    if |coinList| == 0 {
      return Fail(NotFound);
    }
    var highestProfitCoin, tallies := UserFold(influencers, dex, coinList);
    var highestAvgProfitUser := HighestAverage(influencers, dex, tallies);
    var most := mostCoinsInfluencer.value;
    r := Ok(UserHighlights(highestAvgProfitUser, highestProfitCoin, InfluencerCount(most.id, most.name, mostCoinsCount)));
  }

  /** An influencer has a mean profit exactly when one of its coins has a
      profit. */
  lemma InfluencerMeanExists(inf: Influencer, dex: Dex)
    ensures Mean(InfluencerRow(inf, dex)).None? <==> forall j :: 0 <= j < |inf.coins| ==> CoinProfit(inf.coins[j], dex).None?
  {
    assert forall j :: 0 <= j < |inf.coins| ==> InfluencerRow(inf, dex)[j] == CoinProfit(inf.coins[j], dex);
  }

  /** Influencer `i0` has a mean profit, no influencer's mean exceeds it and
      every influencer before it has a lower one. */
  ghost predicate IsFirstBestMean(infs: seq<Influencer>, dex: Dex, i0: nat) {
    && i0 < |infs|
    && Mean(InfluencerRow(infs[i0], dex)).Some?
    && (forall i :: 0 <= i < |infs| && Mean(InfluencerRow(infs[i], dex)).Some? ==>
          Mean(InfluencerRow(infs[i], dex)).value <= Mean(InfluencerRow(infs[i0], dex)).value)
    && (forall i :: 0 <= i < i0 && Mean(InfluencerRow(infs[i], dex)).Some? ==>
          Mean(InfluencerRow(infs[i], dex)).value < Mean(InfluencerRow(infs[i0], dex)).value)
  }

  /** `highestAvgProfitUser` is null exactly when no coin has a profit;
      otherwise it is the first influencer whose mean profit no influencer's
      exceeds, with that mean. An influencer without a valid coin is never
      chosen. */
  lemma HighestAverageIsFirstBestMean(infs: seq<Influencer>, dex: Dex)
    ensures var a := HighestAverageOf(infs, dex);
            && (a.None? <==> forall i, j :: 0 <= i < |infs| && 0 <= j < |infs[i].coins| ==>
                                              CoinProfit(infs[i].coins[j], dex).None?)
            && (a.Some? ==> exists i0: nat :: IsFirstBestMean(infs, dex, i0) && a.value.id == infs[i0].id
                              && a.value.name == infs[i0].name
                              && Some(a.value.avgProfit) == Mean(InfluencerRow(infs[i0], dex)))
  {
    var means := Means(ProfitRows(infs, dex));
    assert forall i :: 0 <= i < |infs| ==> means[i] == Mean(InfluencerRow(infs[i], dex));
    forall i | 0 <= i < |infs|
      ensures means[i].None? <==> forall j :: 0 <= j < |infs[i].coins| ==> CoinProfit(infs[i].coins[j], dex).None?
    {
      InfluencerMeanExists(infs[i], dex);
    }
    var avg := ArgMax(means);
    if avg.Some? {
      assert IsFirstBestMean(infs, dex, avg.value);
    }
  }

  /** The per-account highlights answer 404 exactly when the id is an
      ObjectId and the account is missing or none of its influencers has a
      coin; the influencer with the most coins is then always present. */
  lemma UserHighlightsNotFound(store: seq<AppUser>, userId: Id, dex: Dex)
    ensures UserHighlightsOf(store, userId, dex) == Fail(NotFound) <==>
              && IsObjectId(userId)
              && (FirstIndex(store, AccountKey, userId).None? ||
                  forall i :: 0 <= i < |store[FirstIndex(store, AccountKey, userId).value].influencers| ==>
                    store[FirstIndex(store, AccountKey, userId).value].influencers[i].coins == [])
  {
    if IsObjectId(userId) && FirstIndex(store, AccountKey, userId).Some? {
      var infs := store[FirstIndex(store, AccountKey, userId).value].influencers;
      var rows := CoinRows(infs);
      if forall i :: 0 <= i < |infs| ==> infs[i].coins == [] {
        if Enumerate(rows) != [] {
          var i, j := EnumeratePosition(rows, 0);
        }
      } else {
        var i :| 0 <= i < |infs| && infs[i].coins != [];
        EnumerateAt(rows, i, 0);
      }
    }
  }
}
