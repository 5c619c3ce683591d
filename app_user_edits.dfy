/** The edits `routes/appUser.js` makes to an account's embedded lists, as
    operations on values: pulling coins by id, updating the share fields with
    the falsy fallback, the favourite filters, and the e-mail pattern check. */
module AppUserEdits {
  import opened Common
  import opened Reduce
  import opened AppUserModel

  function CoinKey(c: Coin): Id { c.id }

  function InfluencerKey(inf: Influencer): Id { inf.id }

  // ---------------------------------------------------------------------------
  // `coins.pull(coinId)`

  /** Removes every coin whose id is `coinId` and keeps the others in order. */
  function PullCoins(coins: seq<Coin>, coinId: Id): (r: seq<Coin>)
    ensures |r| <= |coins|
    decreases |coins|
  {
    if coins == [] then []
    else
      var n := |coins| - 1;
      PullCoins(coins[..n], coinId) + (if coins[n].id == coinId then [] else [coins[n]])
  }

  /** Every coin with another id survives the pull. */
  lemma {:induction false} PullKeepsOthers(coins: seq<Coin>, coinId: Id, c: Coin)
    requires c in coins && c.id != coinId
    ensures c in PullCoins(coins, coinId)
    decreases |coins|
  {
    var n := |coins| - 1;
    if c != coins[n] {
      assert c in coins[..n];
      PullKeepsOthers(coins[..n], coinId, c);
    }
  }

  /** No coin with the pulled id is left. */
  lemma {:induction false} PullRemovesId(coins: seq<Coin>, coinId: Id)
    ensures forall k :: 0 <= k < |PullCoins(coins, coinId)| ==> PullCoins(coins, coinId)[k].id != coinId
    decreases |coins|
  {
    if coins != [] {
      PullRemovesId(coins[..|coins| - 1], coinId);
    }
  }

  lemma {:induction false} PullCoinsAppend(a: seq<Coin>, b: seq<Coin>, coinId: Id)
    ensures PullCoins(a + b, coinId) == PullCoins(a, coinId) + PullCoins(b, coinId)
    decreases |b|
  {
    if b == [] {
      assert a + b == a;
    } else {
      var n := |b| - 1;
      PullCoinsAppend(a, b[..n], coinId);
      assert (a + b)[..|a + b| - 1] == a + b[..n];
    }
  }

  /** Pulling an id no coin carries changes nothing. */
  lemma {:induction false} PullAbsentId(coins: seq<Coin>, coinId: Id)
    requires forall k :: 0 <= k < |coins| ==> coins[k].id != coinId
    ensures PullCoins(coins, coinId) == coins
    decreases |coins|
  {
    if coins != [] {
      var n := |coins| - 1;
      PullAbsentId(coins[..n], coinId);
      assert coins == coins[..n] + [coins[n]];
    }
  }

  /** Pushing a coin with a fresh id and then pulling that id gives back the
      original list. */
  lemma PushThenPull(coins: seq<Coin>, c: Coin)
    requires forall k :: 0 <= k < |coins| ==> coins[k].id != c.id
    ensures PullCoins(coins + [c], c.id) == coins
  {
    PullCoinsAppend(coins, [c], c.id);
    PullAbsentId(coins, c.id);
    assert [c][..0] == [];
  }

  lemma PullSnoc(s: seq<Coin>, c: Coin, coinId: Id)
    ensures PullCoins(s + [c], coinId) == PullCoins(s, coinId) + (if c.id == coinId then [] else [c])
  {
    assert (s + [c])[..|s|] == s;
  }

  lemma PullAroundOne(pre: seq<Coin>, x: Coin, post: seq<Coin>)
    requires forall k :: 0 <= k < |pre| ==> pre[k].id != x.id
    requires forall k :: 0 <= k < |post| ==> post[k].id != x.id
    ensures PullCoins(pre + [x] + post, x.id) == pre + post
  {
    PullSnoc(pre, x, x.id);
    PullAbsentId(pre, x.id);
    var front := PullCoins(pre + [x], x.id);
    assert front == pre;
    PullCoinsAppend(pre + [x], post, x.id);
    PullAbsentId(post, x.id);
    assert PullCoins(pre + [x] + post, x.id) == front + post;
  }

  /** When ids are unique, pulling a coin's id removes exactly that coin and
      keeps the rest in order. */
  lemma OthersCarryOtherIds(coins: seq<Coin>, j: nat, pre: seq<Coin>, post: seq<Coin>)
    requires j < |coins| && pre == coins[..j] && post == coins[j + 1..]
    requires forall k :: 0 <= k < |coins| && coins[k].id == coins[j].id ==> k == j
    ensures forall k :: 0 <= k < |pre| ==> pre[k].id != coins[j].id
    ensures forall k :: 0 <= k < |post| ==> post[k].id != coins[j].id
  {
    forall k | 0 <= k < |post| ensures post[k].id != coins[j].id {
      assert post[k] == coins[j + 1 + k];
    }
  }

  lemma PullUniqueId(coins: seq<Coin>, j: nat)
    requires j < |coins|
    requires forall k :: 0 <= k < |coins| && coins[k].id == coins[j].id ==> k == j
    ensures PullCoins(coins, coins[j].id) == coins[..j] + coins[j + 1..]
  {
    var pre, post := coins[..j], coins[j + 1..];
    OthersCarryOtherIds(coins, j, pre, post);
    assert coins == pre + [coins[j]] + post;
    PullAroundOne(pre, coins[j], post);
  }

  // ---------------------------------------------------------------------------
  // `coin.x = req.body.x || coin.x` for the three share fields

  /** The share fields of a request body. A missing or empty date is `None`;
      the numbers keep their value so that 0 can be told apart. */
  datatype ShareUpdate = ShareUpdate(shareDate: Option<int>, sharePrice: Option<real>, shareMarketCap: Option<real>)

  /** `given || current` on a number. */
  function OrElse(given: Option<real>, current: Option<real>): Option<real> {
    if Truthy(given) then given else current
  }

  /** Each share field takes the body's value when it is truthy and keeps the
      stored one otherwise; no other field changes. */
  function UpdateShares(c: Coin, u: ShareUpdate): (r: Coin)
    ensures r.(shareDate := c.shareDate, sharePrice := c.sharePrice, shareMarketCap := c.shareMarketCap) == c
    ensures u.shareDate.Some? ==> r.shareDate == u.shareDate.value
    ensures u.shareDate.None? ==> r.shareDate == c.shareDate
    ensures Truthy(u.sharePrice) ==> r.sharePrice == u.sharePrice
    ensures !Truthy(u.sharePrice) ==> r.sharePrice == c.sharePrice
    ensures Truthy(u.shareMarketCap) ==> r.shareMarketCap == u.shareMarketCap
    ensures !Truthy(u.shareMarketCap) ==> r.shareMarketCap == c.shareMarketCap
    ensures Truthy(c.sharePrice) ==> Truthy(r.sharePrice)
    ensures Truthy(c.shareMarketCap) ==> Truthy(r.shareMarketCap)
  {
    c.(shareDate := u.shareDate.GetOr(c.shareDate),
       sharePrice := OrElse(u.sharePrice, c.sharePrice),
       shareMarketCap := OrElse(u.shareMarketCap, c.shareMarketCap))
  }

  /** A body whose share fields are all falsy leaves the coin as it was. */
  lemma FalsyUpdateKeepsCoin(c: Coin, u: ShareUpdate)
    requires u.shareDate.None? && !Truthy(u.sharePrice) && !Truthy(u.shareMarketCap)
    ensures UpdateShares(c, u) == c
  {
  }

  /** A body whose share fields are all truthy sets all three. */
  lemma TruthyUpdateSetsAll(c: Coin, u: ShareUpdate)
    requires u.shareDate.Some? && Truthy(u.sharePrice) && Truthy(u.shareMarketCap)
    ensures var r := UpdateShares(c, u);
            Some(r.shareDate) == u.shareDate && r.sharePrice == u.sharePrice && r.shareMarketCap == u.shareMarketCap
  {
  }

  /** Sending the same update twice has the effect of sending it once. */
  lemma UpdateSharesIdempotent(c: Coin, u: ShareUpdate)
    ensures UpdateShares(UpdateShares(c, u), u) == UpdateShares(c, u)
  {
  }

  // ---------------------------------------------------------------------------
  // Favourite filters

  /** `appUser.influencers.filter(i => i.isFavorite)`. */
  function FavoriteInfluencers(infs: seq<Influencer>): (r: seq<Influencer>)
    ensures |r| <= |infs|
    ensures forall k :: 0 <= k < |r| ==> r[k].isFavorite
    decreases |infs|
  {
    if infs == [] then []
    else
      var n := |infs| - 1;
      FavoriteInfluencers(infs[..n]) + (if infs[n].isFavorite then [infs[n]] else [])
  }

  lemma {:induction false} FavoriteInfluencersAppend(a: seq<Influencer>, b: seq<Influencer>)
    ensures FavoriteInfluencers(a + b) == FavoriteInfluencers(a) + FavoriteInfluencers(b)
    decreases |b|
  {
    if b == [] {
      assert a + b == a;
    } else {
      var n := |b| - 1;
      FavoriteInfluencersAppend(a, b[..n]);
      assert (a + b)[..|a + b| - 1] == a + b[..n];
    }
  }

  /** Setting one influencer's flag changes the favourites only at its place:
      it appears there when the flag is set and not at all when cleared. */
  lemma ToggleInfluencerFavorite(infs: seq<Influencer>, i: nat, b: bool)
    requires i < |infs|
    ensures FavoriteInfluencers(infs[i := infs[i].(isFavorite := b)])
              == FavoriteInfluencers(infs[..i]) + (if b then [infs[i].(isFavorite := b)] else []) + FavoriteInfluencers(infs[i + 1..])
  {
    var t := infs[i := infs[i].(isFavorite := b)];
    assert t == infs[..i] + [t[i]] + infs[i + 1..];
    FavoriteInfluencersAppend(infs[..i] + [t[i]], infs[i + 1..]);
    FavoriteInfluencersAppend(infs[..i], [t[i]]);
    assert [t[i]][..0] == [];
  }

  /** A favourite coin as listed: the coin's fields plus `influencerName`,
      `influencerTwitter` and `influencerId`. */
  datatype FavoriteCoin = FavoriteCoin(coin: Coin, influencerName: string, influencerTwitter: string, influencerId: Id)

  function Tagged(c: Coin, inf: Influencer): FavoriteCoin {
    FavoriteCoin(c, inf.name, inf.twitter, inf.id)
  }

  /** The favourite coins among `coins`, in order, tagged with `inf`. */
  function FavoritesIn(coins: seq<Coin>, inf: Influencer): (r: seq<FavoriteCoin>)
    ensures |r| <= |coins|
    ensures forall k :: 0 <= k < |r| ==> r[k].coin.isFavorite && r[k] == Tagged(r[k].coin, inf)
    decreases |coins|
  {
    if coins == [] then []
    else
      var n := |coins| - 1;
      FavoritesIn(coins[..n], inf) + (if coins[n].isFavorite then [Tagged(coins[n], inf)] else [])
  }

  lemma FavoritesInSnoc(s: seq<Coin>, c: Coin, inf: Influencer)
    ensures FavoritesIn(s + [c], inf) == FavoritesIn(s, inf) + (if c.isFavorite then [Tagged(c, inf)] else [])
  {
    assert (s + [c])[..|s|] == s;
  }

  /** Every favourite coin of the list is listed. */
  lemma {:induction false} FavoritesInHas(coins: seq<Coin>, inf: Influencer, c: Coin)
    requires c in coins && c.isFavorite
    ensures Tagged(c, inf) in FavoritesIn(coins, inf)
    decreases |coins|
  {
    var n := |coins| - 1;
    if c != coins[n] {
      assert c in coins[..n];
      FavoritesInHas(coins[..n], inf, c);
    }
  }

  /** Every listed coin comes from the list. */
  lemma {:induction false} FavoritesInFrom(coins: seq<Coin>, inf: Influencer, f: FavoriteCoin)
    requires f in FavoritesIn(coins, inf)
    ensures f.coin in coins
    decreases |coins|
  {
    var n := |coins| - 1;
    if f in FavoritesIn(coins[..n], inf) {
      FavoritesInFrom(coins[..n], inf, f);
    }
  }

  lemma {:induction false} FavoritesInAppend(a: seq<Coin>, b: seq<Coin>, inf: Influencer)
    ensures FavoritesIn(a + b, inf) == FavoritesIn(a, inf) + FavoritesIn(b, inf)
    decreases |b|
  {
    if b == [] {
      assert a + b == a;
    } else {
      var n := |b| - 1;
      FavoritesInAppend(a, b[..n], inf);
      assert (a + b)[..|a + b| - 1] == a + b[..n];
    }
  }

  /** Setting one coin's flag changes its influencer's favourites only at the
      coin's place. */
  lemma ToggleCoinFavorite(coins: seq<Coin>, j: nat, inf: Influencer, b: bool)
    requires j < |coins|
    ensures FavoritesIn(coins[j := coins[j].(isFavorite := b)], inf)
              == FavoritesIn(coins[..j], inf) + (if b then [Tagged(coins[j].(isFavorite := b), inf)] else [])
                 + FavoritesIn(coins[j + 1..], inf)
  {
    var t := coins[j := coins[j].(isFavorite := b)];
    assert t == coins[..j] + [t[j]] + coins[j + 1..];
    FavoritesInAppend(coins[..j] + [t[j]], coins[j + 1..], inf);
    FavoritesInAppend(coins[..j], [t[j]], inf);
    assert [t[j]][..0] == [];
  }

  function FavoriteRows(infs: seq<Influencer>): (rows: seq<seq<FavoriteCoin>>)
    ensures |rows| == |infs|
    ensures forall i :: 0 <= i < |infs| ==> rows[i] == FavoritesIn(infs[i].coins, infs[i])
  {
    seq(|infs|, i requires 0 <= i < |infs| => FavoritesIn(infs[i].coins, infs[i]))
  }

  /** The favourite coins of all influencers, influencer by influencer. */
  function FavoriteCoinsOf(infs: seq<Influencer>): seq<FavoriteCoin> {
    Flatten(FavoriteRows(infs))
  }

  lemma {:induction false} InFlatten<T>(rows: seq<seq<T>>, x: T)
    ensures x in Flatten(rows) <==> exists i :: 0 <= i < |rows| && x in rows[i]
    decreases |rows|
  {
    if rows != [] {
      var n := |rows| - 1;
      InFlatten(rows[..n], x);
      if x in Flatten(rows[..n]) {
        var i :| 0 <= i < n && x in rows[..n][i];
        assert x in rows[i];
      }
      if exists i :: 0 <= i < |rows| && x in rows[i] {
        var i :| 0 <= i < |rows| && x in rows[i];
        if i < n {
          assert x in rows[..n][i];
        }
      }
    }
  }

  /** The listing holds every favourite coin, tagged with its influencer, and
      only those. */
  lemma FavoriteCoinsExactly(infs: seq<Influencer>)
    ensures forall i, c :: 0 <= i < |infs| && c in infs[i].coins && c.isFavorite ==> Tagged(c, infs[i]) in FavoriteCoinsOf(infs)
    ensures forall f :: f in FavoriteCoinsOf(infs) ==>
              f.coin.isFavorite && exists i :: 0 <= i < |infs| && f.coin in infs[i].coins && f == Tagged(f.coin, infs[i])
  {
    var rows := FavoriteRows(infs);
    forall i, c | 0 <= i < |infs| && c in infs[i].coins && c.isFavorite
      ensures Tagged(c, infs[i]) in FavoriteCoinsOf(infs)
    {
      FavoritesInHas(infs[i].coins, infs[i], c);
      InFlatten(rows, Tagged(c, infs[i]));
    }
    forall f | f in FavoriteCoinsOf(infs)
      ensures f.coin.isFavorite && exists i :: 0 <= i < |infs| && f.coin in infs[i].coins && f == Tagged(f.coin, infs[i])
    {
      InFlatten(rows, f);
      var i :| 0 <= i < |rows| && f in rows[i];
      FavoritesInFrom(infs[i].coins, infs[i], f);
      var k :| 0 <= k < |rows[i]| && rows[i][k] == f;
    }
  }

  /** The two nested `forEach` loops collecting the favourite coins. */
  method CollectFavoriteCoins(infs: seq<Influencer>) returns (favoriteCoins: seq<FavoriteCoin>)
    ensures favoriteCoins == FavoriteCoinsOf(infs)
  {
    ghost var rows := FavoriteRows(infs);
    favoriteCoins := [];
    var i := 0;
    while i < |infs|
      invariant 0 <= i <= |infs|
      invariant favoriteCoins == Flatten(rows[..i])
    {
      var influencer := infs[i];
      var j := 0;
      while j < |influencer.coins|
        invariant 0 <= j <= |influencer.coins|
        invariant favoriteCoins == Flatten(rows[..i]) + FavoritesIn(influencer.coins[..j], influencer)
      {
        var coin := influencer.coins[j];
        assert influencer.coins[..j + 1] == influencer.coins[..j] + [coin];
        FavoritesInSnoc(influencer.coins[..j], coin, influencer);
        if coin.isFavorite {
          favoriteCoins := favoriteCoins + [FavoriteCoin(coin, influencer.name, influencer.twitter, influencer.id)];
        }
        j := j + 1;
      }
      assert influencer.coins[..j] == influencer.coins;
      assert rows[i] == FavoritesIn(influencer.coins, influencer);
      FlattenPrefix(rows, i);
      i := i + 1;
    }
    assert rows[..i] == rows;
  }

  // ---------------------------------------------------------------------------
  // `/\S+@\S+\.\S+/.test(email)`

  /** JavaScript's `\s`: the ASCII blanks, no-break and other Unicode spaces,
      the line and paragraph separators and the byte-order mark. */
  predicate IsSpace(c: char) {
    || c == ' ' || c == '\t' || c == '\n' || c == '\r' || c == '\U{000B}' || c == '\U{000C}'
    || c == '\U{00A0}' || c == '\U{1680}' || ('\U{2000}' <= c <= '\U{200A}') || c == '\U{2028}' || c == '\U{2029}'
    || c == '\U{202F}' || c == '\U{205F}' || c == '\U{3000}' || c == '\U{FEFF}'
  }

  /** A run matched by `\S+`. */
  predicate NonSpaceRun(s: string) {
    |s| > 0 && forall k :: 0 <= k < |s| ==> !IsSpace(s[k])
  }

  /** The pattern matches `s[a..e]`, split as `\S+` `@` `\S+` `.` `\S+` at
      `b` (the `@`) and `c` (the dot). */
  predicate MatchAt(s: string, a: nat, b: nat, c: nat, e: nat) {
    && a < b < c < e <= |s|
    && NonSpaceRun(s[a..b]) && s[b] == '@' && NonSpaceRun(s[b + 1..c]) && s[c] == '.' && NonSpaceRun(s[c + 1..e])
  }

  /** What `test` answers: the pattern is unanchored, so any substring may
      match. */
  ghost predicate MatchesEmailPattern(s: string) {
    exists a: nat, b: nat, c: nat, e: nat :: MatchAt(s, a, b, c, e)
  }

  /** An `@` at `b` with a non-blank before it, then non-blanks up to a dot
      at `c` that is followed by a non-blank. */
  predicate SplitAt(s: string, b: nat, c: nat) {
    && 1 <= b && b + 1 < c && c + 1 < |s| && !IsSpace(s[b - 1]) && s[b] == '@'
    && NonSpaceRun(s[b + 1..c]) && s[c] == '.' && !IsSpace(s[c + 1])
  }

  /** A direct check: some split of the string has the shape above. */
  predicate LooksLikeEmail(s: string) {
    exists b: nat, c: nat :: b < c < |s| && SplitAt(s, b, c)
  }

  /** Every string the direct check accepts matches the pattern. */
  lemma LooksLikeEmailMatches(s: string, b: nat, c: nat)
    requires SplitAt(s, b, c)
    ensures MatchAt(s, b - 1, b, c, c + 2)
  {
    assert s[b - 1..b] == [s[b - 1]];
    assert s[c + 1..c + 2] == [s[c + 1]];
  }

  /** Every match of the pattern passes the direct check, at the same `@` and
      dot. */
  lemma MatchLooksLikeEmail(s: string, a: nat, b: nat, c: nat, e: nat)
    requires MatchAt(s, a, b, c, e)
    ensures SplitAt(s, b, c)
  {
    assert s[b - 1] == s[a..b][b - 1 - a];
    assert s[c + 1] == s[c + 1..e][0];
  }

  /** The direct check accepts exactly the strings the pattern matches. */
  lemma LooksLikeEmailIsThePattern(s: string)
    ensures LooksLikeEmail(s) <==> MatchesEmailPattern(s)
  {
    if LooksLikeEmail(s) {
      var b: nat, c: nat :| b < c < |s| && SplitAt(s, b, c);
      LooksLikeEmailMatches(s, b, c);
    }
    if MatchesEmailPattern(s) {
      var a: nat, b: nat, c: nat, e: nat :| MatchAt(s, a, b, c, e);
      MatchLooksLikeEmail(s, a, b, c, e);
    }
  }

  /** `test` converts its argument to a string: a missing e-mail is tested
      as "undefined". */
  function EmailText(email: Option<string>): string {
    if email.Some? then email.value else "undefined"
  }

  /** A request without an e-mail never passes the check. */
  lemma MissingEmailFailsCheck()
    ensures !LooksLikeEmail(EmailText(None))
  {
  }
}
