/** `GET /admin-influencers/latest-coins` of `routes/appUser.js`: every coin of
    the admin's influencers, newest share first, each with its current price
    from the market-data provider and its price profit. Quotes go through a
    cache that lives as long as the process and serves an entry for one
    minute. */
module LatestCoins {
  import opened Common
  import opened Market
  import opened Profit
  import opened Reduce
  import opened AppUserModel
  import AppUserAggregates

  /** A cached quote is served while it is at most one minute old. */
  const CACHE_TTL_MS: int := 60 * 1000

  /** A cache entry: the quote and when it was stored. */
  datatype CacheEntry = CacheEntry(currentPrice: Option<real>, url: string, timestamp: int)

  /** What a listed coin carries as `currentPrice` and `url`: never set (no
      contract address, or the provider had no pair), set to null (the
      request threw), or set to a quote. */
  datatype Quote = NotFetched | Cleared | Quoted(currentPrice: Option<real>, url: string)

  /** An entry is served while `now - timestamp` does not exceed the lifetime;
      one exactly a minute old is still served. */
  predicate Fresh(e: CacheEntry, now: int) {
    now - e.timestamp <= CACHE_TTL_MS
  }

  predicate Served(entries: map<string, CacheEntry>, ca: string, now: int) {
    ca in entries && Fresh(entries[ca], now)
  }

  /** One coin's quote and the cache after it. A coin without a contract
      address is left alone. A fresh entry is served without asking the
      provider. Otherwise the provider is asked: a first pair is quoted and
      stored stamped `now`; no pair leaves the coin and the cache alone; an
      error clears the coin's quote and leaves the cache alone. */
  function Lookup(entries: map<string, CacheEntry>, ca: string, now: int, dex: Dex): (r: (Quote, map<string, CacheEntry>))
    ensures r.0 == Cleared <==> ca != "" && !Served(entries, ca, now) && dex(ca).Threw?
    ensures r.0 == NotFetched <==> ca == "" || (!Served(entries, ca, now) && dex(ca).NoPairs?)
    ensures r.0.Quoted? ==> ca in r.1 && Fresh(r.1[ca], now) && r.0 == Quoted(r.1[ca].currentPrice, r.1[ca].url)
    ensures Served(entries, ca, now) && ca != "" ==> r == (Quoted(entries[ca].currentPrice, entries[ca].url), entries)
    ensures r.1 != entries ==> && ca != "" && !Served(entries, ca, now) && dex(ca).FirstPair?
                               && r.1 == entries[ca := CacheEntry(dex(ca).pair.priceUsd, dex(ca).pair.url, now)]
  {
    if ca == "" then (NotFetched, entries)
    else if Served(entries, ca, now) then (Quoted(entries[ca].currentPrice, entries[ca].url), entries)
    else
      match dex(ca)
      case FirstPair(pair) => (Quoted(pair.priceUsd, pair.url), entries[ca := CacheEntry(pair.priceUsd, pair.url, now)])
      case NoPairs => (NotFetched, entries)
      case Threw => (Cleared, entries)
  }

  /** Asking again for an address the provider just quoted, within a minute
      of that answer, is served from the cache whatever the provider would
      now say, and changes nothing. */
  lemma RepeatWithinTtlIsServed(entries: map<string, CacheEntry>, ca: string, t1: int, t2: int, dex1: Dex, dex2: Dex)
    requires !Served(entries, ca, t1)
    requires Lookup(entries, ca, t1, dex1).0.Quoted?
    requires t2 <= t1 + CACHE_TTL_MS
    ensures var (q, m) := Lookup(entries, ca, t1, dex1);
            Lookup(m, ca, t2, dex2) == (q, m)
  {
    var (q, m) := Lookup(entries, ca, t1, dex1);
    assert m[ca].timestamp == t1;
  }

  // ---------------------------------------------------------------------------
  // The listing

  /** A coin as listed: the coin's own fields plus `influencerName` and
      `influencerId`. */
  datatype ListedCoin = ListedCoin(coin: Coin, influencerName: string, influencerId: Id)

  /** Tags each enumerated coin with its influencer's name and id. */
  function Label(infs: seq<Influencer>, e: seq<(nat, Coin)>): (r: seq<ListedCoin>)
    requires forall k :: 0 <= k < |e| ==> e[k].0 < |infs|
    ensures |r| == |e|
  {
    seq(|e|, k requires 0 <= k < |e| => ListedCoin(e[k].1, infs[e[k].0].name, infs[e[k].0].id))
  }

  /** `allCoins` before sorting: influencer by influencer, coin by coin. */
  function ListedCoins(infs: seq<Influencer>): seq<ListedCoin> {
    Label(infs, Enumerate(AppUserAggregates.CoinRows(infs)))
  }

  /** The `j`-th coin of influencer `i` sits right after the coins of the
      influencers before it, tagged with influencer `i`. */
  lemma ListedCoinAt(infs: seq<Influencer>, i: nat, j: nat)
    requires i < |infs| && j < |infs[i].coins|
    ensures var pos := |Flatten(AppUserAggregates.CoinRows(infs)[..i])| + j;
            pos < |ListedCoins(infs)| && ListedCoins(infs)[pos] == ListedCoin(infs[i].coins[j], infs[i].name, infs[i].id)
  {
    var rows := AppUserAggregates.CoinRows(infs);
    EnumerateAt(rows, i, j);
  }

  /** The listing holds every coin of every influencer exactly at its place in
      the concatenation of their coin lists, tagged with that influencer, and
      nothing else. */
  lemma ListedCoinsAreTheInfluencersCoins(infs: seq<Influencer>)
    ensures |ListedCoins(infs)| == |Flatten(AppUserAggregates.CoinRows(infs))|
    ensures forall i: nat, j: nat :: i < |infs| && j < |infs[i].coins| ==>
              ListedCoin(infs[i].coins[j], infs[i].name, infs[i].id) in ListedCoins(infs)
    ensures forall k :: 0 <= k < |ListedCoins(infs)| ==>
              exists i: nat, j: nat :: i < |infs| && j < |infs[i].coins| &&
                ListedCoins(infs)[k] == ListedCoin(infs[i].coins[j], infs[i].name, infs[i].id)
  {
    var rows := AppUserAggregates.CoinRows(infs);
    forall i: nat, j: nat | i < |infs| && j < |infs[i].coins|
      ensures ListedCoin(infs[i].coins[j], infs[i].name, infs[i].id) in ListedCoins(infs)
    {
      ListedCoinAt(infs, i, j);
    }
    forall k | 0 <= k < |ListedCoins(infs)|
      ensures exists i: nat, j: nat :: i < |infs| && j < |infs[i].coins| &&
                ListedCoins(infs)[k] == ListedCoin(infs[i].coins[j], infs[i].name, infs[i].id)
    {
      var i, j := EnumeratePosition(rows, k);
      ListedCoinAt(infs, i, j);
    }
  }

  /** The two nested `forEach` loops that build `allCoins`. */
  method GatherCoins(infs: seq<Influencer>) returns (allCoins: seq<ListedCoin>)
    ensures allCoins == ListedCoins(infs)
  {
    ghost var rows := AppUserAggregates.CoinRows(infs);
    ghost var e: seq<(nat, Coin)> := [];
    allCoins := [];
    var i := 0;
    while i < |infs|
      invariant 0 <= i <= |infs|
      invariant e == Enumerate(rows[..i])
      invariant forall k :: 0 <= k < |e| ==> e[k].0 < i
      invariant allCoins == Label(infs, e)
    {
      var influencer := infs[i];
      var j := 0;
      while j < |influencer.coins|
        invariant 0 <= j <= |influencer.coins|
        invariant e == Enumerate(rows[..i]) + Tag(i, influencer.coins[..j])
        invariant forall k :: 0 <= k < |e| ==> e[k].0 <= i
        invariant allCoins == Label(infs, e)
      {
        assert Tag(i, influencer.coins[..j + 1]) == Tag(i, influencer.coins[..j]) + [(i, influencer.coins[j])];
        e := e + [(i, influencer.coins[j])];
        allCoins := allCoins + [ListedCoin(influencer.coins[j], influencer.name, influencer.id)];
        j := j + 1;
      }
      assert influencer.coins[..j] == rows[i];
      assert rows[..i + 1][..i] == rows[..i];
      i := i + 1;
    }
    assert rows[..i] == rows;
  }

  // ---------------------------------------------------------------------------
  // Newest first: `sort` by `new Date(b.shareDate) - new Date(a.shareDate)`

  predicate NewestFirst(s: seq<ListedCoin>) {
    forall i, j :: 0 <= i < j < |s| ==> s[i].coin.shareDate >= s[j].coin.shareDate
  }

  /** The coins shared at instant `d`, in their order in `s`. */
  function SharedOn(s: seq<ListedCoin>, d: int): seq<ListedCoin>
    decreases |s|
  {
    if s == [] then []
    else SharedOn(s[..|s| - 1], d) + (if s[|s| - 1].coin.shareDate == d then [s[|s| - 1]] else [])
  }

  lemma SharedOnSingle(y: ListedCoin, d: int)
    ensures SharedOn([y], d) == if y.coin.shareDate == d then [y] else []
  {
    assert [y][..0] == [];
  }

  lemma {:induction false} SharedOnAppend(a: seq<ListedCoin>, b: seq<ListedCoin>, d: int)
    ensures SharedOn(a + b, d) == SharedOn(a, d) + SharedOn(b, d)
    decreases |b|
  {
    if b != [] {
      var n := |b| - 1;
      SharedOnAppend(a, b[..n], d);
      assert (a + b)[..|a + b| - 1] == a + b[..n];
    } else {
      assert a + b == a;
    }
  }

  /** Places `x` after every coin shared at the same time or later. */
  function InsertByDate(s: seq<ListedCoin>, x: ListedCoin): (r: seq<ListedCoin>)
    ensures |r| == |s| + 1
    decreases |s|
  {
    if s == [] then [x]
    else if s[|s| - 1].coin.shareDate >= x.coin.shareDate then s + [x]
    else InsertByDate(s[..|s| - 1], x) + [s[|s| - 1]]
  }

  /** The engine's stable sort with the descending-date comparator. */
  function SortByDate(s: seq<ListedCoin>): (r: seq<ListedCoin>)
    ensures |r| == |s|
    decreases |s|
  {
    if s == [] then [] else InsertByDate(SortByDate(s[..|s| - 1]), s[|s| - 1])
  }

  lemma {:induction false} InsertByDatePermutes(s: seq<ListedCoin>, x: ListedCoin)
    ensures multiset(InsertByDate(s, x)) == multiset(s) + multiset{x}
    decreases |s|
  {
    if s != [] && s[|s| - 1].coin.shareDate < x.coin.shareDate {
      var n := |s| - 1;
      InsertByDatePermutes(s[..n], x);
      assert s == s[..n] + [s[n]];
    }
  }

  lemma {:induction false} InsertByDateKeepsOrder(s: seq<ListedCoin>, x: ListedCoin)
    requires NewestFirst(s)
    ensures NewestFirst(InsertByDate(s, x))
    decreases |s|
  {
    if s != [] && s[|s| - 1].coin.shareDate < x.coin.shareDate {
      var n := |s| - 1;
      var l := s[n];
      var t := InsertByDate(s[..n], x);
      InsertByDateKeepsOrder(s[..n], x);
      InsertByDateLowerBound(s[..n], x, l.coin.shareDate);
    }
  }

  /** Inserting a coin shared no earlier than `d` among coins shared no
      earlier than `d` gives coins shared no earlier than `d`. */
  lemma {:induction false} InsertByDateLowerBound(s: seq<ListedCoin>, x: ListedCoin, d: int)
    requires forall i :: 0 <= i < |s| ==> s[i].coin.shareDate >= d
    requires x.coin.shareDate >= d
    ensures forall i :: 0 <= i < |InsertByDate(s, x)| ==> InsertByDate(s, x)[i].coin.shareDate >= d
    decreases |s|
  {
    if s != [] && s[|s| - 1].coin.shareDate < x.coin.shareDate {
      InsertByDateLowerBound(s[..|s| - 1], x, d);
    }
  }

  /** Coins shared at the same instant keep their relative order. */
  lemma {:induction false} InsertByDateIsStable(s: seq<ListedCoin>, x: ListedCoin, d: int)
    ensures SharedOn(InsertByDate(s, x), d) == SharedOn(s + [x], d)
    decreases |s|
  {
    if s != [] && s[|s| - 1].coin.shareDate < x.coin.shareDate {
      var n := |s| - 1;
      var l := s[n];
      InsertByDateIsStable(s[..n], x, d);
      SharedOnAppend(InsertByDate(s[..n], x), [l], d);
      SharedOnAppend(s[..n], [x], d);
      SharedOnAppend(s[..n] + [l], [x], d);
      SharedOnAppend(s[..n], [l], d);
      assert s == s[..n] + [l];
      SharedOnSingle(l, d);
      SharedOnSingle(x, d);
    }
  }

  /** The sorted listing is newest first, holds the same coins, and keeps the
      original order among coins shared at the same instant. */
  lemma {:induction false} SortByDateIsStableSort(s: seq<ListedCoin>)
    ensures NewestFirst(SortByDate(s))
    ensures multiset(SortByDate(s)) == multiset(s)
    ensures forall d :: SharedOn(SortByDate(s), d) == SharedOn(s, d)
    decreases |s|
  {
    if s != [] {
      var n := |s| - 1;
      var t := SortByDate(s[..n]);
      SortByDateIsStableSort(s[..n]);
      InsertByDateKeepsOrder(t, s[n]);
      InsertByDatePermutes(t, s[n]);
      assert s == s[..n] + [s[n]];
      forall d ensures SharedOn(SortByDate(s), d) == SharedOn(s, d) {
        InsertByDateIsStable(t, s[n], d);
        SharedOnAppend(t, [s[n]], d);
        SharedOnAppend(s[..n], [s[n]], d);
      }
    }
  }

  // ---------------------------------------------------------------------------
  // Quoting the sorted coins through the cache

  /** The quotes of the coins in order and the cache after them; the `k`-th
      coin is looked up at time `clock(k)`. */
  function PriceAll(entries: map<string, CacheEntry>, coins: seq<ListedCoin>, dex: Dex, clock: nat -> int)
    : (r: (seq<Quote>, map<string, CacheEntry>))
    ensures |r.0| == |coins|
    decreases |coins|
  {
    if coins == [] then ([], entries)
    else
      var n := |coins| - 1;
      var before := PriceAll(entries, coins[..n], dex, clock);
      var after := Lookup(before.1, coins[n].coin.caAddress, clock(n), dex);
      (before.0 + [after.0], after.1)
  }

  lemma {:induction false} PriceAllPrefix(entries: map<string, CacheEntry>, coins: seq<ListedCoin>, dex: Dex, clock: nat -> int, m: nat)
    requires m <= |coins|
    ensures PriceAll(entries, coins[..m], dex, clock).0 == PriceAll(entries, coins, dex, clock).0[..m]
    decreases |coins|
  {
    if m < |coins| {
      var n := |coins| - 1;
      PriceAllPrefix(entries, coins[..n], dex, clock, m);
      assert coins[..n][..m] == coins[..m];
    } else {
      assert coins[..m] == coins;
    }
  }

  /** What a coin's quote says about the provider: a coin without an address
      is never quoted; a cleared quote means the request threw; a coin left
      unquoted despite its address had no pair; and a coin the provider has a
      pair for is always quoted (fresh or from the cache). */
  lemma QuoteMeaning(entries: map<string, CacheEntry>, coins: seq<ListedCoin>, dex: Dex, clock: nat -> int, k: nat)
    requires k < |coins|
    ensures var q := PriceAll(entries, coins, dex, clock).0[k];
            var ca := coins[k].coin.caAddress;
            && (ca == "" ==> q == NotFetched)
            && (q == Cleared ==> dex(ca).Threw?)
            && (q == NotFetched && ca != "" ==> dex(ca).NoPairs?)
            && (ca != "" && dex(ca).FirstPair? ==> q.Quoted?)
  {
    PriceAllPrefix(entries, coins, dex, clock, k + 1);
    assert coins[..k + 1][..k] == coins[..k];
  }

  /** The cache only grows, and only at listed addresses: every entry for an
      address no coin carries is untouched. */
  lemma {:induction false} PricingTouchesOnlyListedAddresses(entries: map<string, CacheEntry>, coins: seq<ListedCoin>, dex: Dex, clock: nat -> int)
    ensures var m := PriceAll(entries, coins, dex, clock).1;
            && entries.Keys <= m.Keys
            && (forall a :: a in m && a !in entries ==> exists k :: 0 <= k < |coins| && coins[k].coin.caAddress == a)
            && (forall a :: a in entries && (forall k :: 0 <= k < |coins| ==> coins[k].coin.caAddress != a) ==> m[a] == entries[a])
    decreases |coins|
  {
    if coins != [] {
      var n := |coins| - 1;
      PricingTouchesOnlyListedAddresses(entries, coins[..n], dex, clock);
      var m0 := PriceAll(entries, coins[..n], dex, clock).1;
      var m := PriceAll(entries, coins, dex, clock).1;
      forall a | a in m && a !in entries ensures exists k :: 0 <= k < |coins| && coins[k].coin.caAddress == a {
        if a in m0 {
          var k :| 0 <= k < n && coins[..n][k].coin.caAddress == a;
          assert coins[k].coin.caAddress == a;
        } else {
          assert coins[n].coin.caAddress == a;
        }
      }
      forall a | a in entries && (forall k :: 0 <= k < |coins| ==> coins[k].coin.caAddress != a) ensures m[a] == entries[a] {
        assert forall k :: 0 <= k < n ==> coins[..n][k] == coins[k];
        assert coins[n].coin.caAddress != a;
      }
    }
  }

  /** The process-wide quote cache (`cache` in the module scope), keyed by
      contract address. */
  class QuoteCache {
    var entries: map<string, CacheEntry>

    constructor()
      ensures entries == map[]
    {
      entries := map[];
    }

    /** The `for ... of allCoins` loop: quotes each coin in turn, reading the
        clock once per coin, refreshing stale or missing entries. */
    method PriceCoins(coins: seq<ListedCoin>, dex: Dex, clock: nat -> int) returns (quotes: seq<Quote>)
      modifies this
      ensures (quotes, entries) == PriceAll(old(entries), coins, dex, clock)
    {
      quotes := [];
      var k := 0;
      while k < |coins|
        invariant 0 <= k <= |coins|
        invariant (quotes, entries) == PriceAll(old(entries), coins[..k], dex, clock)
      {
        assert coins[..k + 1][..k] == coins[..k];
        var ca := coins[k].coin.caAddress;
        if ca != "" {
          var now := clock(k);
          if ca !in entries || now - entries[ca].timestamp > CACHE_TTL_MS {
            match dex(ca) {
              case FirstPair(pair) =>
                entries := entries[ca := CacheEntry(pair.priceUsd, pair.url, now)];
                quotes := quotes + [Quoted(pair.priceUsd, pair.url)];
              case NoPairs =>
                quotes := quotes + [NotFetched];
              case Threw =>
                quotes := quotes + [Cleared];
            }
          } else {
            quotes := quotes + [Quoted(entries[ca].currentPrice, entries[ca].url)];
          }
        } else {
          quotes := quotes + [NotFetched];
        }
        k := k + 1;
      }
      assert coins[..k] == coins;
    }
  }

  // ---------------------------------------------------------------------------
  // The route

  /** A listed coin with its quote and `profitPercentage`. */
  datatype LatestCoin = LatestCoin(listed: ListedCoin, quote: Quote, profitPercentage: real)

  /** `parseFloat(coin.currentPrice || 0)`: a missing or cleared price counts
      as 0. */
  function QuotedPrice(q: Quote): Option<real> {
    if q.Quoted? then q.currentPrice else None
  }

  function Priced(c: ListedCoin, q: Quote): LatestCoin {
    LatestCoin(c, q, PriceProfit(c.coin.sharePrice, QuotedPrice(q)))
  }

  function Unpriced(s: seq<LatestCoin>): (r: seq<ListedCoin>)
    ensures |r| == |s|
  {
    seq(|s|, k requires 0 <= k < |s| => s[k].listed)
  }

  /** The route's answer and the cache after it: 404 without an admin,
      otherwise the admin's coins sorted newest first, quoted in that order,
      with their profits. */
  function LatestCoinsOf(store: seq<AppUser>, entries: map<string, CacheEntry>, dex: Dex, clock: nat -> int)
    : (Response<seq<LatestCoin>>, map<string, CacheEntry>)
  {
    var admin := AppUserAggregates.FindAdmin(store);
    if admin.None? then (Fail(NotFound), entries)
    else
      var sorted := SortByDate(ListedCoins(store[admin.value].influencers));
      var (quotes, m) := PriceAll(entries, sorted, dex, clock);
      (Ok(seq(|sorted|, k requires 0 <= k < |sorted| => Priced(sorted[k], quotes[k]))), m)
  }

  method LatestCoinsRoute(cache: QuoteCache, store: seq<AppUser>, dex: Dex, clock: nat -> int)
    returns (r: Response<seq<LatestCoin>>)
    modifies cache
    ensures (r, cache.entries) == LatestCoinsOf(store, old(cache.entries), dex, clock)
  {
    var admin := AppUserAggregates.FindAdmin(store);
    if admin.None? {
      return Fail(NotFound);
    }
    var allCoins := GatherCoins(store[admin.value].influencers);
    allCoins := SortByDate(allCoins);
    var quotes := cache.PriceCoins(allCoins, dex, clock);
    r := Ok(seq(|allCoins|, k requires 0 <= k < |allCoins| => Priced(allCoins[k], quotes[k])));
  }

  /** The answer is 404, with the cache untouched, exactly when there is no
      admin. Otherwise it lists the admin's coins newest first, each exactly
      once, and coins shared at the same instant in influencer-then-coin
      order. */
  lemma LatestCoinsListing(store: seq<AppUser>, entries: map<string, CacheEntry>, dex: Dex, clock: nat -> int)
    ensures var (r, m) := LatestCoinsOf(store, entries, dex, clock);
            (r.Fail? <==> forall k :: 0 <= k < |store| ==> store[k].role != AdminRole)
            && (r.Fail? ==> r.status == NotFound && m == entries)
    ensures var (r, m) := LatestCoinsOf(store, entries, dex, clock);
            r.Ok? ==>
              var all := ListedCoins(store[AppUserAggregates.FindAdmin(store).value].influencers);
              && NewestFirst(Unpriced(r.body))
              && multiset(Unpriced(r.body)) == multiset(all)
              && (forall d :: SharedOn(Unpriced(r.body), d) == SharedOn(all, d))
  {
    var admin := AppUserAggregates.FindAdmin(store);
    if admin.Some? {
      var all := ListedCoins(store[admin.value].influencers);
      SortByDateIsStableSort(all);
      var r := LatestCoinsOf(store, entries, dex, clock).0;
      assert Unpriced(r.body) == SortByDate(all);
    }
  }

  /** Each listed coin's quote is what the provider's answer allows, and a
      non-zero profit means both prices were truthy and the profit carries
      the share price to the current one. */
  lemma LatestCoinsQuotes(store: seq<AppUser>, entries: map<string, CacheEntry>, dex: Dex, clock: nat -> int, k: nat)
    requires LatestCoinsOf(store, entries, dex, clock).0.Ok?
    requires k < |LatestCoinsOf(store, entries, dex, clock).0.body|
    ensures var c := LatestCoinsOf(store, entries, dex, clock).0.body[k];
            var ca := c.listed.coin.caAddress;
            && (c.profitPercentage != 0.0 ==>
                  && c.quote.Quoted? && Truthy(c.quote.currentPrice) && Truthy(c.listed.coin.sharePrice)
                  && c.quote.currentPrice.value
                       == c.listed.coin.sharePrice.value + c.listed.coin.sharePrice.value * c.profitPercentage / 100.0)
            && (ca == "" ==> c.quote == NotFetched)
            && (c.quote == Cleared ==> dex(ca).Threw?)
            && (ca != "" && dex(ca).FirstPair? ==> c.quote.Quoted?)
  {
    var admin := AppUserAggregates.FindAdmin(store);
    var sorted := SortByDate(ListedCoins(store[admin.value].influencers));
    var quotes := PriceAll(entries, sorted, dex, clock).0;
    assert LatestCoinsOf(store, entries, dex, clock).0.body[k] == Priced(sorted[k], quotes[k]);
    QuoteMeaning(entries, sorted, dex, clock, k);
    PricedProfit(sorted[k], quotes[k]);
  }

  /** A non-zero profit comes only from a quoted, truthy current price and a
      truthy share price, and carries the one to the other. */
  lemma PricedProfit(c: ListedCoin, q: Quote)
    ensures var p := Priced(c, q);
            p.profitPercentage != 0.0 ==>
              && q.Quoted? && Truthy(q.currentPrice) && Truthy(c.coin.sharePrice)
              && q.currentPrice.value == c.coin.sharePrice.value + c.coin.sharePrice.value * p.profitPercentage / 100.0
  {
  }
}
