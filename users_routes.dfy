/** The routes of `routes/users.js`: the highlight and average-profit
    reductions over all users, the user listing, and the edits of a stored
    user's coins and favourite flag. */
module UsersRoutes {
  import opened Common
  import opened Market
  import opened Profit
  import opened Reduce
  import opened UserModel

  // ---------------------------------------------------------------------------
  // Per-coin profit against the provider

  /** Market-cap profit of a stored coin: skipped (`None`) when the lookup
      threw or found no pair, or when either market cap is falsy. */
  function CoinProfit(c: UserCoin, dex: Dex): (r: Option<real>)
    ensures r.Some? <==> c.shareMarketCap != 0.0 && Truthy(MarketCapOf(dex(c.caAddress)))
    ensures r.Some? ==> dex(c.caAddress).FirstPair?
  {
    CapProfit(Some(c.shareMarketCap), MarketCapOf(dex(c.caAddress)))
  }

  /** A coin's profit is the percentage change from its share cap to the
      first pair's current cap. */
  lemma CoinProfitRecoversCap(c: UserCoin, dex: Dex)
    ensures var r := CoinProfit(c, dex);
            r.Some? ==> dex(c.caAddress).pair.marketCap.value == c.shareMarketCap + c.shareMarketCap * r.value / 100.0
  {
    CapProfitRecoversCurrent(Some(c.shareMarketCap), MarketCapOf(dex(c.caAddress)));
  }

  function CoinProfitOf(dex: Dex): UserCoin -> Option<real> {
    c => CoinProfit(c, dex)
  }

  /** One user's per-coin profits, in coin order. */
  function UserRow(u: User, dex: Dex): (row: seq<Option<real>>)
    ensures |row| == |u.coins|
  {
    seq(|u.coins|, j requires 0 <= j < |u.coins| => CoinProfit(u.coins[j], dex))
  }

  // `CoinRows`, `CoinCounts` and `EnumeratedProfits` here and in
  // AppUserAggregates read the same shape off two different schemas: a
  // `users` document holds its coins directly and prices them by market cap
  // (`UserCoin`), while an account holds them per influencer (`Coin`). What
  // the two routes share, the enumeration, the folds and the selections, is
  // defined once in Reduce.

  function CoinRows(users: seq<User>): (rows: seq<seq<UserCoin>>)
    ensures |rows| == |users|
    ensures forall i :: 0 <= i < |users| ==> rows[i] == users[i].coins
  {
    seq(|users|, i requires 0 <= i < |users| => users[i].coins)
  }

  /** The per-user rows of per-coin profits. */
  function ProfitRows(users: seq<User>, dex: Dex): (rows: seq<seq<Option<real>>>)
    ensures |rows| == |users|
    ensures forall i :: 0 <= i < |users| ==> rows[i] == UserRow(users[i], dex)
  {
    MapRows(CoinRows(users), CoinProfitOf(dex))
  }

  function CoinCounts(users: seq<User>): (counts: seq<nat>)
    ensures |counts| == |users|
    ensures forall i :: 0 <= i < |users| ==> counts[i] == |users[i].coins|
  {
    seq(|users|, i requires 0 <= i < |users| => |users[i].coins|)
  }

  // ---------------------------------------------------------------------------
  // GET /highlights

  /** `highestProfitCoin`: the coin's fields spread, with its profit and its
      owner's name and id. */
  datatype CoinHighlight = CoinHighlight(coin: UserCoin, profitPercentage: real, userName: string, userId: Id)

  /** `highestAvgProfitUser`: the user's fields spread, with its mean profit. */
  datatype AvgProfitUser = AvgProfitUser(user: User, avgProfit: real)

  /** The response body; `None` is `null`. */
  datatype Highlights = Highlights(
    highestAvgProfitUser: Option<AvgProfitUser>,
    highestProfitCoin: Option<CoinHighlight>,
    mostCoinsUser: Option<User>)

  /** The per-coin profits in enumeration order (users, then their coins):
      the order of `coinList` and of `coinResults`. */
  function EnumeratedProfits(users: seq<User>, dex: Dex): (s: seq<Option<real>>)
    ensures |s| == |Enumerate(CoinRows(users))|
  {
    Profits(MapItems(Enumerate(CoinRows(users)), CoinProfitOf(dex)))
  }

  /** The first coin, in enumeration order, with the highest profit. */
  function HighestProfitCoinOf(users: seq<User>, dex: Dex): Option<CoinHighlight> {
    var coins := Enumerate(CoinRows(users));
    var profits := EnumeratedProfits(users, dex);
    var best := ArgMax(profits);
    if best.Some? then
      var (owner, coin) := coins[best.value];
      Some(CoinHighlight(coin, profits[best.value].value, users[owner].name, users[owner].id))
    else None
  }

  /** The first user with the highest mean profit. */
  function HighestAverageOf(users: seq<User>, dex: Dex): Option<AvgProfitUser> {
    var means := Means(ProfitRows(users, dex));
    var avg := ArgMax(means);
    if avg.Some? then Some(AvgProfitUser(users[avg.value], means[avg.value].value)) else None
  }

  /** The first user with the most coins. */
  function MostCoinsUserOf(users: seq<User>): Option<User> {
    var most := MostCoins(CoinCounts(users)).0;
    if most.Some? then Some(users[most.value]) else None
  }

  /** What the highlights route answers, stated through the reductions: the
      first maximum of the per-user means, the first maximum of the per-coin
      profits in enumeration order, and the first user with the most coins. */
  function HighlightsOf(users: seq<User>, dex: Dex): Highlights {
    Highlights(HighestAverageOf(users, dex), HighestProfitCoinOf(users, dex), MostCoinsUserOf(users))
  }

  /** The route: count coins and collect `coinList`; compute every coin's
      profit (`coinList.map` and `Promise.all`); fold the results into
      `userProfits` and the highest-profit coin; walk `userProfits` in key
      order for the highest average. */
  method ComputeHighlights(users: seq<User>, dex: Dex) returns (h: Highlights)
    ensures h == HighlightsOf(users, dex)
  {
    var mostCoinsUser, mostCoinsCount, coinList := CollectCoins(users);
    var coinResults := seq(|coinList|, k requires 0 <= k < |coinList| => CoinProfit(coinList[k].1, dex));
    assert coinResults == EnumeratedProfits(users, dex);
    var userProfits, userOrder, highestProfitCoin := FoldResults(users, dex, coinList, coinResults);
    var highestAvgProfitUser := HighestAverage(users, dex, userProfits, userOrder);
    h := Highlights(highestAvgProfitUser, highestProfitCoin, mostCoinsUser);
  }

  /** First pass: the user with the most coins (strict `>` from -1) and the
      list of every coin tagged with its owner. */
  method CollectCoins(users: seq<User>) returns (mostCoinsUser: Option<User>, mostCoinsCount: int, coinList: seq<(nat, UserCoin)>)
    ensures mostCoinsCount == MostCoins(CoinCounts(users)).1
    ensures mostCoinsUser == MostCoinsUserOf(users)
    ensures coinList == Enumerate(CoinRows(users))
  {
    mostCoinsUser := None;
    mostCoinsCount := -1;
    ghost var rows, counts := CoinRows(users), CoinCounts(users);
    ghost var mostIndex: Option<nat> := None;
    coinList := [];
    var i := 0;
    while i < |users|
      invariant 0 <= i <= |users|
      invariant (mostIndex, mostCoinsCount) == MostCoins(counts[..i])
      invariant mostIndex.Some? ==> mostIndex.value < i
      invariant mostCoinsUser == if mostIndex.Some? then Some(users[mostIndex.value]) else None
      invariant coinList == Enumerate(rows[..i])
    {
      var coins := users[i].coins;
      MostCoinsPrefixStep(counts, i);
      if |coins| > mostCoinsCount {
        mostCoinsCount := |coins|;
        mostCoinsUser := Some(users[i]);
        mostIndex := Some(i);
      }
      coinList := AppendTagged(coinList, i, coins);
      assert rows[i] == coins;
      EnumeratePrefix(rows, i);
      i := i + 1;
    }
    assert rows[..i] == rows;
    assert counts[..i] == counts;
  }

  /** Second pass: skips the null results, adds each valid profit to its
      owner's entry of `userProfits` (created on first use, so the key order
      is the order of first valid profit), and keeps the first coin with the
      highest profit (strict `>` from minus infinity). */
  method FoldResults(users: seq<User>, dex: Dex, coinList: seq<(nat, UserCoin)>, coinResults: seq<Option<real>>)
    returns (userProfits: map<nat, Tally>, userOrder: seq<nat>, highestProfitCoin: Option<CoinHighlight>)
    requires coinList == Enumerate(CoinRows(users))
    requires coinResults == EnumeratedProfits(users, dex)
    ensures Ledger(userProfits, userOrder) == ExpectedLedger(ProfitRows(users, dex))
    ensures highestProfitCoin == HighestProfitCoinOf(users, dex)
  {
    ghost var items := MapItems(coinList, CoinProfitOf(dex));
    userProfits := map[];
    userOrder := [];
    highestProfitCoin := None;
    var highestProfit: real := 0.0;
    ghost var best: Option<nat> := None;
    var k := 0;
    while k < |coinResults|
      invariant 0 <= k <= |coinResults|
      invariant Ledger(userProfits, userOrder) == RecordAll(Ledger(map[], []), items[..k])
      invariant best == ArgMax(coinResults[..k])
      invariant best.Some? ==> best.value < k && coinResults[best.value].Some?
      invariant best.None? ==> highestProfitCoin.None?
      invariant best.Some? ==>
                  var (owner, coin) := coinList[best.value];
                  && highestProfit == coinResults[best.value].value
                  && highestProfitCoin == Some(CoinHighlight(coin, highestProfit, users[owner].name, users[owner].id))
    {
      ArgMaxPrefixStep(coinResults, k);
      RecordAllPrefixStep(Ledger(map[], []), items, k);
      var result := coinResults[k];
      assert items[k] == (coinList[k].0, result);
      if result.Some? {
        var (owner, coin) := coinList[k];
        var profitPercentage := result.value;
        if owner !in userProfits {
          userOrder := userOrder + [owner];
        }
        userProfits := Credit(userProfits, owner, profitPercentage);
        if highestProfitCoin.None? || profitPercentage > highestProfit {
          highestProfit := profitPercentage;
          highestProfitCoin := Some(CoinHighlight(coin, profitPercentage, users[owner].name, users[owner].id));
          best := Some(k);
        }
      }
      k := k + 1;
    }
    assert coinResults[..k] == coinResults;
    assert items[..k] == items;
    EnumerateMap(CoinRows(users), CoinProfitOf(dex));
    LedgerOfEnumeration(ProfitRows(users, dex));
  }

  /** Third pass: walks `userProfits` in key order and keeps the first user
      with the highest `totalProfit / coinCount` (strict `>` from minus
      infinity). */
  method HighestAverage(users: seq<User>, dex: Dex, userProfits: map<nat, Tally>, userOrder: seq<nat>)
    returns (highestAvgProfitUser: Option<AvgProfitUser>)
    requires Ledger(userProfits, userOrder) == ExpectedLedger(ProfitRows(users, dex))
    ensures highestAvgProfitUser == HighestAverageOf(users, dex)
  {
    ghost var rows := ProfitRows(users, dex);
    ArgMaxOverValidOwners(rows);
    assert userOrder == ValidOwners(rows) && userProfits == ExpectedLedger(rows).tallies;
    forall t | 0 <= t < |userOrder|
      ensures AverageAt(Means(rows), userProfits, userOrder[t])
    {
      LedgerEntryMean(rows, userOrder[t]);
    }
    highestAvgProfitUser := WalkAverages(users, userProfits, userOrder, Means(rows));
  }

  /** The ledger entry of `o` averages to `means[o]`. */
  ghost predicate AverageAt(means: seq<Option<real>>, userProfits: map<nat, Tally>, o: nat) {
    && o < |means| && o in userProfits && userProfits[o].count > 0
    && means[o] == Some(userProfits[o].total / userProfits[o].count as real)
  }

  /** The `for...in` loop of the third pass, over any ledger whose entries
      average to `means`: the user it keeps is the one `ArgMaxOver` selects. */
  method WalkAverages(users: seq<User>, userProfits: map<nat, Tally>, userOrder: seq<nat>, ghost means: seq<Option<real>>)
    returns (highestAvgProfitUser: Option<AvgProfitUser>)
    requires |means| == |users|
    requires forall t :: 0 <= t < |userOrder| ==> AverageAt(means, userProfits, userOrder[t])
    ensures var best := ArgMaxOver(means, userOrder);
            highestAvgProfitUser == if best.Some? then Some(AvgProfitUser(users[best.value], means[best.value].value)) else None
  {
    highestAvgProfitUser := None;
    var highestAvgProfit: real := 0.0;
    ghost var bestAvg: Option<nat> := None;
    var t := 0;
    while t < |userOrder|
      invariant 0 <= t <= |userOrder|
      invariant bestAvg == ArgMaxOver(means, userOrder[..t])
      invariant bestAvg.None? ==> highestAvgProfitUser.None?
      invariant bestAvg.Some? ==> && bestAvg.value < |users| && means[bestAvg.value].Some?
                                  && highestAvgProfit == means[bestAvg.value].value
                                  && highestAvgProfitUser == Some(AvgProfitUser(users[bestAvg.value], highestAvgProfit))
    {
      var userId := userOrder[t];
      assert AverageAt(means, userProfits, userId);
      ArgMaxOverPrefixStep(means, userOrder, t);
      var tally := userProfits[userId];
      var avgProfit := tally.total / tally.count as real;
      if highestAvgProfitUser.None? || avgProfit > highestAvgProfit {
        highestAvgProfit := avgProfit;
        highestAvgProfitUser := Some(AvgProfitUser(users[userId], avgProfit));
        bestAvg := Some(userId);
      }
      assert bestAvg == ArgMaxOver(means, userOrder[..t + 1]);
      t := t + 1;
    }
    assert userOrder[..t] == userOrder;
  }

  // ---------------------------------------------------------------------------
  // What the highlights mean, user by user and coin by coin

  /** `highestProfitCoin` is null exactly when no coin has a profit;
      otherwise it is the first coin, in the order users and then coins, whose
      profit no other coin's exceeds, reported with that profit and its
      owner's name and id. (`ProfitRows(users, dex)[i][j]` is the profit of
      coin `j` of user `i`.) */
  lemma HighestProfitCoinIsFirstBest(users: seq<User>, dex: Dex)
    ensures var hc := HighlightsOf(users, dex).highestProfitCoin;
            && (hc.None? <==> forall i, j :: 0 <= i < |users| && 0 <= j < |users[i].coins| ==>
                                               CoinProfit(users[i].coins[j], dex).None?)
            && (hc.Some? ==> exists i0: nat, j0: nat :: IsFirstBestCell(ProfitRows(users, dex), i0, j0) &&
                                hc.value == CoinHighlight(users[i0].coins[j0], CoinProfit(users[i0].coins[j0], dex).value,
                                                          users[i0].name, users[i0].id))
  {
    var rows := ProfitRows(users, dex);
    ProfitsOfMappedEnumeration(CoinRows(users), CoinProfitOf(dex));
    NoCellPresent(rows);
    assert forall i, j :: 0 <= i < |users| && 0 <= j < |users[i].coins| ==> rows[i][j] == CoinProfit(users[i].coins[j], dex);
    if ArgMax(Flatten(rows)).Some? {
      var i0, j0 := FirstBestItem(CoinRows(users), CoinProfitOf(dex));
      assert IsFirstBestCell(rows, i0, j0);
    }
  }

  /** `mostCoinsUser` is null exactly when there are no users; otherwise it is
      the first user whose coin count no user exceeds. */
  lemma MostCoinsUserIsFirstWithMost(users: seq<User>, dex: Dex)
    ensures var m := HighlightsOf(users, dex).mostCoinsUser;
            && (m.None? <==> users == [])
            && (m.Some? ==> exists i0 :: 0 <= i0 < |users| && m.value == users[i0]
                              && (forall i :: 0 <= i < |users| ==> |users[i].coins| <= |users[i0].coins|)
                              && (forall i :: 0 <= i < i0 ==> |users[i].coins| < |users[i0].coins|))
  {
    var counts := CoinCounts(users);
    var most := MostCoins(counts).0;
    if most.Some? {
      var i0 := most.value;
      MostCoinsIsFirstMaximum(counts);
      assert forall i :: 0 <= i < |users| ==> counts[i] == |users[i].coins|;
      assert HighlightsOf(users, dex).mostCoinsUser.value == users[i0];
    }
  }

  /** A user has a mean profit exactly when one of its coins has a profit. */
  lemma UserMeanExists(u: User, dex: Dex)
    ensures Mean(UserRow(u, dex)).None? <==> forall j :: 0 <= j < |u.coins| ==> CoinProfit(u.coins[j], dex).None?
  {
    assert forall j :: 0 <= j < |u.coins| ==> UserRow(u, dex)[j] == CoinProfit(u.coins[j], dex);
  }

  /** User `i0` has a mean profit, no user's mean exceeds it and every user
      before it has a lower one. */
  ghost predicate IsFirstBestMean(users: seq<User>, dex: Dex, i0: nat) {
    && i0 < |users|
    && Mean(UserRow(users[i0], dex)).Some?
    && (forall i :: 0 <= i < |users| && Mean(UserRow(users[i], dex)).Some? ==>
          Mean(UserRow(users[i], dex)).value <= Mean(UserRow(users[i0], dex)).value)
    && (forall i :: 0 <= i < i0 && Mean(UserRow(users[i], dex)).Some? ==>
          Mean(UserRow(users[i], dex)).value < Mean(UserRow(users[i0], dex)).value)
  }

  /** `highestAvgProfitUser` is null exactly when no coin has a profit;
      otherwise it is the first user whose mean profit no user's exceeds, with
      that mean. A user without a valid coin has no mean and is never chosen. */
  lemma HighestAverageIsFirstBestMean(users: seq<User>, dex: Dex)
    ensures var a := HighlightsOf(users, dex).highestAvgProfitUser;
            && (a.None? <==> forall i, j :: 0 <= i < |users| && 0 <= j < |users[i].coins| ==>
                                              CoinProfit(users[i].coins[j], dex).None?)
            && (a.Some? ==> exists i0: nat :: IsFirstBestMean(users, dex, i0) && a.value.user == users[i0]
                              && Some(a.value.avgProfit) == Mean(UserRow(users[i0], dex)))
  {
    var means := Means(ProfitRows(users, dex));
    assert forall i :: 0 <= i < |users| ==> means[i] == Mean(UserRow(users[i], dex));
    forall i | 0 <= i < |users|
      ensures means[i].None? <==> forall j :: 0 <= j < |users[i].coins| ==> CoinProfit(users[i].coins[j], dex).None?
    {
      UserMeanExists(users[i], dex);
    }
    var avg := ArgMax(means);
    if avg.Some? {
      assert IsFirstBestMean(users, dex, avg.value);
    }
  }

  // ---------------------------------------------------------------------------
  // GET /average-profits

  /** One entry of the listing. */
  datatype UserProfit = UserProfit(userId: Id, userName: string, avgProfit: real)

  /** The listing, user by user in order: a user with at least one valid coin
      contributes its mean profit; any other user is omitted. */
  function AverageProfitsOf(users: seq<User>, dex: Dex): seq<UserProfit>
    decreases |users|
  {
    if users == [] then []
    else
      var n := |users| - 1;
      var m := Mean(UserRow(users[n], dex));
      AverageProfitsOf(users[..n], dex) + (if m.Some? then [UserProfit(users[n].id, users[n].name, m.value)] else [])
  }

  /** The route's nested loops: a user without coins is skipped; a lookup
      that throws skips only that coin; a user gets an entry when at least one
      coin had a valid profit. */
  /** The inner walk over one user's coins: a lookup that throws or finds
      no pair skips the coin; every valid profit is added and counted. */
  method UserTotals(user: User, dex: Dex) returns (totalProfit: real, validCoinCount: nat)
    ensures totalProfit == SumValid(UserRow(user, dex))
    ensures validCoinCount == CountValid(UserRow(user, dex))
  {
    ghost var row := UserRow(user, dex);
    var coins := user.coins;
    totalProfit, validCoinCount := 0.0, 0;
    var j := 0;
    while j < |coins|
      invariant 0 <= j <= |coins|
      invariant totalProfit == SumValid(row[..j])
      invariant validCoinCount == CountValid(row[..j])
    {
      SumCountPrefixStep(row, j);
      assert row[j] == CoinProfit(coins[j], dex);
      var response := dex(coins[j].caAddress);
      if response.FirstPair? {
        var currentMarketCap := response.pair.marketCap;
        var shareMarketCap := coins[j].shareMarketCap;
        if Truthy(currentMarketCap) && shareMarketCap != 0.0 {
          var profitPercentage := PercentChange(shareMarketCap, currentMarketCap.value);
          assert row[j] == Some(profitPercentage);
          totalProfit := totalProfit + profitPercentage;
          validCoinCount := validCoinCount + 1;
        } else {
          assert row[j].None?;
        }
      } else {
        assert row[j].None?;
      }
      j := j + 1;
    }
    assert row[..j] == row;
  }

  method AverageProfits(users: seq<User>, dex: Dex) returns (userProfitData: seq<UserProfit>)
    ensures userProfitData == AverageProfitsOf(users, dex)
  {
    userProfitData := [];
    var i := 0;
    while i < |users|
      invariant 0 <= i <= |users|
      invariant userProfitData == AverageProfitsOf(users[..i], dex)
    {
      assert users[..i + 1][..i] == users[..i];
      var user := users[i];
      var coins := user.coins;
      if |coins| != 0 {
        var totalProfit, validCoinCount := UserTotals(user, dex);
        if validCoinCount > 0 {
          var avgProfit := totalProfit / validCoinCount as real;
          userProfitData := userProfitData + [UserProfit(user.id, user.name, avgProfit)];
        }
      } else {
        assert UserRow(user, dex) == [];
      }
      i := i + 1;
    }
    assert users[..i] == users;
  }

  /** The listing holds exactly the users with a valid coin, in user order,
      each with the mean of its valid profits. */
  lemma {:induction false} AverageProfitsListing(users: seq<User>, dex: Dex)
    ensures var r := AverageProfitsOf(users, dex);
            var o := ValidOwners(ProfitRows(users, dex));
            && |r| == |o|
            && forall k :: 0 <= k < |r| ==>
                 && o[k] < |users| && Mean(UserRow(users[o[k]], dex)).Some?
                 && r[k] == UserProfit(users[o[k]].id, users[o[k]].name, Mean(UserRow(users[o[k]], dex)).value)
    decreases |users|
  {
    if users != [] {
      var n := |users| - 1;
      var prev := users[..n];
      var rows := ProfitRows(users, dex);
      var o0 := ValidOwners(ProfitRows(prev, dex));
      var m := Mean(UserRow(users[n], dex));
      AverageProfitsListing(prev, dex);
      assert rows[..n] == ProfitRows(prev, dex);
      assert rows[n] == UserRow(users[n], dex);
      assert ValidOwners(rows) == o0 + (if CountValid(rows[n]) > 0 then [n] else []);
      assert m.Some? <==> CountValid(rows[n]) > 0;
      assert forall k :: 0 <= k < |o0| ==> users[o0[k]] == prev[o0[k]];
    }
  }

  // ---------------------------------------------------------------------------
  // GET / and the edits of a stored user

  function UserKey(u: User): Id { u.id }

  function CoinKey(c: UserCoin): Id { c.id }

  /** The favourite users (`find({ isFavorite: true })`), in stored order. */
  function FavoriteUsers(users: seq<User>): (r: seq<User>)
    ensures |r| <= |users|
    ensures forall k :: 0 <= k < |r| ==> r[k].isFavorite
    decreases |users|
  {
    if users == [] then []
    else
      var n := |users| - 1;
      FavoriteUsers(users[..n]) + (if users[n].isFavorite then [users[n]] else [])
  }

  /** The filter keeps every favourite user as often as it is stored and
      drops every other. */
  lemma {:induction false} FavoriteUsersCounts(users: seq<User>)
    ensures forall u :: multiset(FavoriteUsers(users))[u] == if u.isFavorite then multiset(users)[u] else 0
    decreases |users|
  {
    if users != [] {
      var n := |users| - 1;
      FavoriteUsersCounts(users[..n]);
      assert users == users[..n] + [users[n]];
    }
  }

  lemma {:induction false} FavoriteUsersAppend(a: seq<User>, b: seq<User>)
    ensures FavoriteUsers(a + b) == FavoriteUsers(a) + FavoriteUsers(b)
    decreases |b|
  {
    if b == [] {
      assert a + b == a;
    } else {
      var n := |b| - 1;
      FavoriteUsersAppend(a, b[..n]);
      assert (a + b)[..|a + b| - 1] == a + b[..n];
    }
  }

  /** The favourite users keep their stored order: every user contributes at
      its own place, after the favourites stored before it and before those
      stored after it; setting one user's flag changes the listing only
      there. */
  lemma ToggleUserFavorite(users: seq<User>, i: nat, b: bool)
    requires i < |users|
    ensures FavoriteUsers(users[i := users[i].(isFavorite := b)])
              == FavoriteUsers(users[..i]) + (if b then [users[i].(isFavorite := b)] else []) + FavoriteUsers(users[i + 1..])
  {
    var t := users[i := users[i].(isFavorite := b)];
    assert t == users[..i] + [t[i]] + users[i + 1..];
    FavoriteUsersAppend(users[..i] + [t[i]], users[i + 1..]);
    FavoriteUsersAppend(users[..i], [t[i]]);
    assert [t[i]][..0] == [];
  }

  /** `GET /`: the favourite users when `favorite` is the string "true", all
      users for any other value or none. */
  function ListUsers(users: seq<User>, favorite: Option<string>): (r: seq<User>)
    ensures favorite == Some("true") ==> forall u :: u in r <==> u in users && u.isFavorite
    ensures favorite != Some("true") ==> r == users
  {
    if favorite == Some("true") then
      FavoriteUsersCounts(users);
      FavoriteUsers(users)
    else users
  }

  /** Stored ids are unique and every stored user passed validation. */
  ghost predicate StoreValid(users: seq<User>) {
    && (forall i, j :: 0 <= i < j < |users| ==> users[i].id != users[j].id)
    && (forall i :: 0 <= i < |users| ==> WellFormed(users[i]))
  }

  /** `PUT /:userId/coins/:coinId` on the stored users: the answer and the
      users afterwards. An id that does not cast, or a share field that is
      missing when the document is saved, ends in the route's 400; a missing
      user or coin is 404. On success exactly the three share fields of that
      coin are overwritten and nothing else changes. */
  function UpdateCoinIn(users: seq<User>, userId: Id, coinId: Id,
                        shareDate: Option<int>, sharePrice: Option<real>, shareMarketCap: Option<real>)
    : (res: (Response<UserCoin>, seq<User>))
    ensures res.0.Fail? ==> res.1 == users
    ensures res.0 == Fail(NotFound) <==>
              IsObjectId(userId) && (FirstIndex(users, UserKey, userId).None? ||
                FirstIndex(users[FirstIndex(users, UserKey, userId).value].coins, CoinKey, coinId).None?)
    ensures res.0 == Fail(BadRequest) <==>
              !IsObjectId(userId) || (res.0 != Fail(NotFound) && (shareDate.None? || sharePrice.None? || shareMarketCap.None?))
    ensures res.0.Ok? ==>
              var i := FirstIndex(users, UserKey, userId).value;
              var j := FirstIndex(users[i].coins, CoinKey, coinId).value;
              var prev := users[i].coins[j];
              var c := res.0.body;
              && c.id == coinId && c.symbol == prev.symbol && c.name == prev.name && c.caAddress == prev.caAddress
              && c.shareDate == shareDate.value && c.sharePrice == sharePrice.value && c.shareMarketCap == shareMarketCap.value
              && res.1 == users[i := users[i].(coins := users[i].coins[j := c])]
  {
    if !IsObjectId(userId) then (Fail(BadRequest), users)
    else
      var ui := FirstIndex(users, UserKey, userId);
      if ui.None? then (Fail(NotFound), users)
      else
        var user := users[ui.value];
        var ci := FirstIndex(user.coins, CoinKey, coinId);
        if ci.None? then (Fail(NotFound), users)
        else if shareDate.None? || sharePrice.None? || shareMarketCap.None? then (Fail(BadRequest), users)
        else
          var coin := user.coins[ci.value].(shareDate := shareDate.value, sharePrice := sharePrice.value,
                                            shareMarketCap := shareMarketCap.value);
          (Ok(coin), users[ui.value := user.(coins := user.coins[ci.value := coin])])
  }

  /** A coin update keeps the store valid: ids are untouched and the strings
      that validation requires are not changed. */
  lemma UpdateCoinKeepsStoreValid(users: seq<User>, userId: Id, coinId: Id,
                                  shareDate: Option<int>, sharePrice: Option<real>, shareMarketCap: Option<real>)
    requires StoreValid(users)
    ensures StoreValid(UpdateCoinIn(users, userId, coinId, shareDate, sharePrice, shareMarketCap).1)
  {
    var res := UpdateCoinIn(users, userId, coinId, shareDate, sharePrice, shareMarketCap);
    if res.0.Ok? {
      var i := FirstIndex(users, UserKey, userId).value;
      assert forall k :: 0 <= k < |users| ==> res.1[k].id == users[k].id;
      assert WellFormed(res.1[i]);
    }
  }

  /** Setting the favourite flag moves a user in or out of the favourite
      listing. */
  lemma FavoriteFlagDecidesListing(users: seq<User>, i: nat, favorite: bool)
    requires i < |users|
    ensures var u := users[i].(isFavorite := favorite);
            u in ListUsers(users[i := u], Some("true")) <==> favorite
  {
    var u := users[i].(isFavorite := favorite);
    assert users[i := u][i] == u;
  }

  /** The stored users. Every route re-reads them, and the edits write them
      back. */
  class UserStore {
    var users: seq<User>

    ghost predicate Valid()
      reads this
    {
      StoreValid(users)
    }

    constructor (initial: seq<User>)
      requires StoreValid(initial)
      ensures Valid() && users == initial
    {
      users := initial;
    }

    /** `PUT /:id/favorite` and `DELETE /:id/favorite`
        (`findByIdAndUpdate(id, { isFavorite }, { new: true })`): 404 for a
        missing user, 500 for an id that does not cast; otherwise the user is
        answered as updated. */
    method SetFavorite(id: Id, favorite: bool) returns (r: Response<User>)
      requires Valid()
      modifies this
      ensures Valid()
      ensures !IsObjectId(id) ==> r == Fail(ServerError) && users == old(users)
      ensures IsObjectId(id) && FirstIndex(old(users), UserKey, id).None? ==> r == Fail(NotFound) && users == old(users)
      ensures IsObjectId(id) && FirstIndex(old(users), UserKey, id).Some? ==>
                var i := FirstIndex(old(users), UserKey, id).value;
                && users == old(users)[i := old(users)[i].(isFavorite := favorite)]
                && r == Ok(users[i])
    {
      if !IsObjectId(id) {
        return Fail(ServerError);
      }
      var found := FirstIndex(users, UserKey, id);
      if found.None? {
        return Fail(NotFound);
      }
      var i := found.value;
      users := users[i := users[i].(isFavorite := favorite)];
      assert forall k :: 0 <= k < |users| ==> users[k].id == old(users)[k].id;
      r := Ok(users[i]);
    }

    /** `PUT /:userId/coins/:coinId`: finds the user and the coin, assigns the
        three share fields and saves. */
    method UpdateCoin(userId: Id, coinId: Id, shareDate: Option<int>, sharePrice: Option<real>, shareMarketCap: Option<real>)
      returns (r: Response<UserCoin>)
      requires Valid()
      modifies this
      ensures Valid()
      ensures (r, users) == UpdateCoinIn(old(users), userId, coinId, shareDate, sharePrice, shareMarketCap)
    {
      UpdateCoinKeepsStoreValid(users, userId, coinId, shareDate, sharePrice, shareMarketCap);
      if !IsObjectId(userId) {
        return Fail(BadRequest);
      }
      var found := FirstIndex(users, UserKey, userId);
      if found.None? {
        return Fail(NotFound);
      }
      var user := users[found.value];
      var coinAt := FirstIndex(user.coins, CoinKey, coinId);
      if coinAt.None? {
        return Fail(NotFound);
      }
      if shareDate.None? || sharePrice.None? || shareMarketCap.None? {
        // the save's validation rejects the missing required field
        return Fail(BadRequest);
      }
      var coin := user.coins[coinAt.value];
      coin := coin.(shareDate := shareDate.value, sharePrice := sharePrice.value, shareMarketCap := shareMarketCap.value);
      users := users[found.value := user.(coins := user.coins[coinAt.value := coin])];
      r := Ok(coin);
    }

    /** `PUT` and `DELETE /:userId/coins/:coinId/favorite`. The stored coin
        has no `isFavorite` path, so the assignment is not kept: the save
        stores the user unchanged and the coin is answered as it was, whatever
        `favorite` says. A missing user makes `user.coins` throw (500). */
    method SetCoinFavorite(userId: Id, coinId: Id, favorite: bool) returns (r: Response<UserCoin>)
      requires Valid()
      ensures !IsObjectId(userId) || FirstIndex(users, UserKey, userId).None? ==> r == Fail(ServerError)
      ensures IsObjectId(userId) && FirstIndex(users, UserKey, userId).Some? ==>
                var u := users[FirstIndex(users, UserKey, userId).value];
                var j := FirstIndex(u.coins, CoinKey, coinId);
                && (j.None? ==> r == Fail(NotFound))
                && (j.Some? ==> r == Ok(u.coins[j.value]))
    {
      if !IsObjectId(userId) {
        return Fail(ServerError);
      }
      var found := FirstIndex(users, UserKey, userId);
      if found.None? {
        return Fail(ServerError);
      }
      var user := users[found.value];
      var coinAt := FirstIndex(user.coins, CoinKey, coinId);
      if coinAt.None? {
        return Fail(NotFound);
      }
      // the save re-validates the stored user, which passes unchanged
      RevalidationKeepsUser(user);
      r := Ok(user.coins[coinAt.value]);
    }
  }
}
