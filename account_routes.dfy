/** The routes of `routes/appUser.js` that add, update, delete and flag the
    coins and influencers embedded in an account, and list its favourites,
    over an in-memory store of accounts. Each route is a function from the
    stored accounts to a reply and the accounts it leaves behind; the class
    `AccountStore` runs the same steps on a store it updates in place. */
module AccountRoutes {
  import opened Common
  import opened Market
  import opened AppUserModel
  import opened AppUserAggregates
  import opened AppUserEdits

  // ---------------------------------------------------------------------------
  // Looking documents up by id

  /** Where a lookup of an account, then of one of its influencers, then of
      one of that influencer's coins, ends. */
  datatype Located =
    | CastFailed
    | NoAccount
    | NoInfluencer
    | NoCoin
    | InfluencerAt(k: nat, i: nat)
    | CoinAt(k: nat, i: nat, j: nat)

  /** `AppUser.findById(appUserId)` then `appUser.influencers.id(influencerId)`.
      An account id that is not an ObjectId makes `findById` throw. */
  function LocateInfluencer(accounts: seq<AppUser>, appUserId: Id, influencerId: Id): (r: Located)
    ensures r.CastFailed? <==> !IsObjectId(appUserId)
    ensures r.NoAccount? <==> IsObjectId(appUserId) && NoneWith(accounts, AccountKey, appUserId)
    ensures r.NoInfluencer? <==>
              && IsObjectId(appUserId)
              && exists k: nat :: IsFirst(accounts, AccountKey, k, appUserId) && NoneWith(accounts[k].influencers, InfluencerKey, influencerId)
    ensures r.InfluencerAt? ==> IsObjectId(appUserId) && IsFirst(accounts, AccountKey, r.k, appUserId)
                                && IsFirst(accounts[r.k].influencers, InfluencerKey, r.i, influencerId)
    ensures r.CastFailed? || r.NoAccount? || r.NoInfluencer? || r.InfluencerAt?
  {
    if !IsObjectId(appUserId) then CastFailed
    else match FirstIndex(accounts, AccountKey, appUserId)
      case None => NoAccount
      case Some(k) =>
        match FirstIndex(accounts[k].influencers, InfluencerKey, influencerId)
        case None => NoInfluencer
        case Some(i) => InfluencerAt(k, i)
  }

  /** The lookup above followed by `influencer.coins.id(coinId)`. */
  function LocateCoin(accounts: seq<AppUser>, appUserId: Id, influencerId: Id, coinId: Id): (r: Located)
    ensures var l := LocateInfluencer(accounts, appUserId, influencerId);
            && (!l.InfluencerAt? ==> r == l)
            && (r.NoCoin? <==> l.InfluencerAt? && NoneWith(accounts[l.k].influencers[l.i].coins, CoinKey, coinId))
            && (r.CoinAt? <==> l.InfluencerAt? && !NoneWith(accounts[l.k].influencers[l.i].coins, CoinKey, coinId))
            && (r.CoinAt? ==> r.k == l.k && r.i == l.i && IsFirst(accounts[r.k].influencers[r.i].coins, CoinKey, r.j, coinId))
  {
    match LocateInfluencer(accounts, appUserId, influencerId)
    case InfluencerAt(k, i) =>
      (match FirstIndex(accounts[k].influencers[i].coins, CoinKey, coinId)
       case None => NoCoin
       case Some(j) => CoinAt(k, i, j))
    case other => other
  }

  /** The admin gate: `findById(req.user.id)` must find an account whose role
      is "admin", else 403. A requester id that is not an ObjectId makes the
      lookup throw and the route's catch answers `caught`. On success the
      reply carries the requester's position. */
  function AdminGate(accounts: seq<AppUser>, requesterId: Id, caught: Status): (r: Response<nat>)
    ensures !IsObjectId(requesterId) ==> r == Fail(caught)
    ensures IsObjectId(requesterId) ==>
              (r.Ok? <==> exists k: nat :: IsFirst(accounts, AccountKey, k, requesterId) && accounts[k].role == AdminRole)
    ensures IsObjectId(requesterId) && r.Fail? ==> r.status == Forbidden
    ensures r.Ok? ==> IsFirst(accounts, AccountKey, r.body, requesterId) && accounts[r.body].role == AdminRole
  {
    if !IsObjectId(requesterId) then Fail(caught)
    else match FirstIndex(accounts, AccountKey, requesterId)
      case None => Fail(Forbidden)
      case Some(k) => if accounts[k].role == AdminRole then Ok(k) else Fail(Forbidden)
  }

  /** Whether an account is an admin holding an influencer with that id. */
  predicate HoldsInfluencer(u: AppUser, influencerId: Id) {
    u.role == AdminRole && exists i :: 0 <= i < |u.influencers| && u.influencers[i].id == influencerId
  }

  /** `AppUser.findOne({ role: "admin", "influencers._id": influencerId })`:
      the first admin holding the influencer. */
  function AdminWith(accounts: seq<AppUser>, influencerId: Id): (r: Option<nat>)
    ensures r.None? <==> forall k :: 0 <= k < |accounts| ==> !HoldsInfluencer(accounts[k], influencerId)
    ensures r.Some? ==> && r.value < |accounts| && HoldsInfluencer(accounts[r.value], influencerId)
                        && forall m :: 0 <= m < r.value ==> !HoldsInfluencer(accounts[m], influencerId)
    decreases |accounts|
  {
    if accounts == [] then None
    else if HoldsInfluencer(accounts[0], influencerId) then Some(0)
    else
      var r := AdminWith(accounts[1..], influencerId);
      if r.Some? then Some(r.value + 1) else None
  }

  /** The admin routes' lookup of an influencer: `findOne` as above, then
      `adminUser.influencers.id(influencerId)`, which always finds it. An
      influencer id that is not an ObjectId makes `findOne` throw. */
  function AdminLocateInfluencer(accounts: seq<AppUser>, influencerId: Id): (r: Located)
    ensures r.CastFailed? <==> !IsObjectId(influencerId)
    ensures r.NoInfluencer? <==> IsObjectId(influencerId) && forall k :: 0 <= k < |accounts| ==> !HoldsInfluencer(accounts[k], influencerId)
    ensures r.InfluencerAt? ==> && r.k < |accounts| && accounts[r.k].role == AdminRole
                                && IsFirst(accounts[r.k].influencers, InfluencerKey, r.i, influencerId)
                                && forall m :: 0 <= m < r.k ==> !HoldsInfluencer(accounts[m], influencerId)
    ensures r.CastFailed? || r.NoInfluencer? || r.InfluencerAt?
  {
    if !IsObjectId(influencerId) then CastFailed
    else match AdminWith(accounts, influencerId)
      case None => NoInfluencer
      case Some(k) => InfluencerAt(k, FirstIndex(accounts[k].influencers, InfluencerKey, influencerId).value)
  }

  /** The admin lookup followed by `influencer.coins.id(coinId)`. */
  function AdminLocateCoin(accounts: seq<AppUser>, influencerId: Id, coinId: Id): (r: Located)
    ensures var l := AdminLocateInfluencer(accounts, influencerId);
            && (!l.InfluencerAt? ==> r == l)
            && (r.NoCoin? <==> l.InfluencerAt? && NoneWith(accounts[l.k].influencers[l.i].coins, CoinKey, coinId))
            && (r.CoinAt? <==> l.InfluencerAt? && !NoneWith(accounts[l.k].influencers[l.i].coins, CoinKey, coinId))
            && (r.CoinAt? ==> r.k == l.k && r.i == l.i && IsFirst(accounts[r.k].influencers[r.i].coins, CoinKey, r.j, coinId))
  {
    match AdminLocateInfluencer(accounts, influencerId)
    case InfluencerAt(k, i) =>
      (match FirstIndex(accounts[k].influencers[i].coins, CoinKey, coinId)
       case None => NoCoin
       case Some(j) => CoinAt(k, i, j))
    case other => other
  }

  // ---------------------------------------------------------------------------
  // Replacing an embedded document

  function WithInfluencer(accounts: seq<AppUser>, k: nat, i: nat, inf: Influencer): seq<AppUser>
    requires k < |accounts| && i < |accounts[k].influencers|
  {
    accounts[k := accounts[k].(influencers := accounts[k].influencers[i := inf])]
  }

  /** Writing an influencer twice at the same place keeps the second write;
      writing back the influencer already there changes nothing. */
  lemma WithInfluencerTwice(accounts: seq<AppUser>, k: nat, i: nat, a: Influencer, b: Influencer)
    requires k < |accounts| && i < |accounts[k].influencers|
    ensures WithInfluencer(WithInfluencer(accounts, k, i, a), k, i, b) == WithInfluencer(accounts, k, i, b)
    ensures WithInfluencer(accounts, k, i, accounts[k].influencers[i]) == accounts
  {
    var u := accounts[k];
    assert u.influencers[i := u.influencers[i]] == u.influencers;
    assert u.(influencers := u.influencers) == u;
    assert accounts[k := u] == accounts;
    var once := WithInfluencer(accounts, k, i, a);
    assert once[k].influencers[i := b] == u.influencers[i := b];
  }

  function WithCoin(accounts: seq<AppUser>, k: nat, i: nat, j: nat, c: Coin): seq<AppUser>
    requires k < |accounts| && i < |accounts[k].influencers| && j < |accounts[k].influencers[i].coins|
  {
    var inf := accounts[k].influencers[i];
    WithInfluencer(accounts, k, i, inf.(coins := inf.coins[j := c]))
  }

  /** Two stores with the same accounts and influencers at the same places:
      only coins and flags may differ. */
  predicate SameIds(a: seq<AppUser>, b: seq<AppUser>) {
    && |a| == |b|
    && (forall k :: 0 <= k < |a| ==> a[k].id == b[k].id && a[k].role == b[k].role && |a[k].influencers| == |b[k].influencers|)
    && (forall k, i :: 0 <= k < |a| && 0 <= i < |a[k].influencers| ==> a[k].influencers[i].id == b[k].influencers[i].id)
  }

  // ---------------------------------------------------------------------------
  // Adding a coin

  /** The body of a coin-adding request. A `shareDate` that does not make a
      valid date is `None`. */
  datatype CoinBody = CoinBody(caAddress: string, shareDate: Option<int>, sharePrice: Option<real>, shareMarketCap: Option<real>)

  /** The outcome of a route that may change the store: the reply and the
      accounts after it. */
  datatype Outcome<T> = Outcome(reply: Response<T>, store: seq<AppUser>)

  /** Fetching the token and pushing the new coin onto influencer `i` of
      account `k`: a fetch that throws, a response without pairs, and a date
      the save rejects all answer 400. The new coin takes the pair's base
      token symbol and name and the body's address and share fields;
      `isFavorite` takes its default, false. */
  function PushFetched(accounts: seq<AppUser>, k: nat, i: nat, fetch: Fetch, body: CoinBody, newId: Id): (o: Outcome<Coin>)
    requires k < |accounts| && i < |accounts[k].influencers|
    ensures o.reply.Fail? ==> o.reply.status == BadRequest && o.store == accounts
    ensures o.reply.Ok? <==> fetch.FirstPair? && body.shareDate.Some?
    ensures o.reply.Ok? ==>
              var c := o.reply.body;
              var inf := accounts[k].influencers[i];
              && c == Coin(newId, fetch.pair.baseSymbol, fetch.pair.baseName, body.caAddress, body.shareDate.value,
                           body.sharePrice, body.shareMarketCap, false)
              && o.store == WithInfluencer(accounts, k, i, inf.(coins := inf.coins + [c]))
  {
    match fetch
    case Threw => Outcome(Fail(BadRequest), accounts)
    case NoPairs => Outcome(Fail(BadRequest), accounts)
    case FirstPair(pair) =>
      if body.shareDate.None? then Outcome(Fail(BadRequest), accounts)
      else
        var input := CoinInput(pair.baseSymbol, pair.baseName, body.caAddress, body.shareDate.value,
                               body.sharePrice, body.shareMarketCap, None);
        var c := NewCoin(input, newId);
        var inf := accounts[k].influencers[i];
        Outcome(Ok(c), WithInfluencer(accounts, k, i, inf.(coins := inf.coins + [c])))
  }

  /** `POST /:appUserId/influencer/:influencerId/coins`. Its catch answers
      400. */
  function AddCoinOf(accounts: seq<AppUser>, appUserId: Id, influencerId: Id, body: CoinBody, dex: Dex, newId: Id): (o: Outcome<Coin>)
    ensures o.reply.Fail? ==> o.store == accounts
    ensures var l := LocateInfluencer(accounts, appUserId, influencerId);
            && (o.reply == Fail(NotFound) <==> l.NoAccount? || l.NoInfluencer?)
            && (o.reply.Ok? <==> l.InfluencerAt? && dex(body.caAddress).FirstPair? && body.shareDate.Some?)
            && (l.InfluencerAt? ==> o == PushFetched(accounts, l.k, l.i, dex(body.caAddress), body, newId))
    ensures o.reply.Fail? ==> o.reply.status in {BadRequest, NotFound}
  {
    match LocateInfluencer(accounts, appUserId, influencerId)
    case CastFailed => Outcome(Fail(BadRequest), accounts)
    case InfluencerAt(k, i) => PushFetched(accounts, k, i, dex(body.caAddress), body, newId)
    case _ => Outcome(Fail(NotFound), accounts)
  }

  /** `POST /admin-influencers/:influencerId/coins`: the admin gate, then the
      coin is pushed onto the influencer of the first admin holding it. Its
      catch answers 400. */
  function AdminAddCoinOf(accounts: seq<AppUser>, requesterId: Id, influencerId: Id, body: CoinBody, dex: Dex, newId: Id): (o: Outcome<Coin>)
    ensures o.reply.Fail? ==> o.store == accounts
    ensures AdminGate(accounts, requesterId, BadRequest).Fail? ==> o.reply == Fail(AdminGate(accounts, requesterId, BadRequest).status)
    ensures var l := AdminLocateInfluencer(accounts, influencerId);
            o.reply.Ok? <==> AdminGate(accounts, requesterId, BadRequest).Ok? && l.InfluencerAt?
                             && dex(body.caAddress).FirstPair? && body.shareDate.Some?
    ensures var l := AdminLocateInfluencer(accounts, influencerId);
            AdminGate(accounts, requesterId, BadRequest).Ok? ==>
              && (l.CastFailed? ==> o.reply == Fail(BadRequest))
              && (!l.CastFailed? && !l.InfluencerAt? ==> o.reply == Fail(NotFound))
              && (l.InfluencerAt? ==> o == PushFetched(accounts, l.k, l.i, dex(body.caAddress), body, newId))
  {
    match AdminGate(accounts, requesterId, BadRequest)
    case Fail(s) => Outcome(Fail(s), accounts)
    case Ok(_) =>
      match AdminLocateInfluencer(accounts, influencerId)
      case CastFailed => Outcome(Fail(BadRequest), accounts)
      case InfluencerAt(k, i) => PushFetched(accounts, k, i, dex(body.caAddress), body, newId)
      case _ => Outcome(Fail(NotFound), accounts)
  }

  // ---------------------------------------------------------------------------
  // Updating a coin's share fields

  /** Replaces coin `j` of influencer `i` of account `k` by its share update
      and replies with the updated coin. */
  function UpdateAt(accounts: seq<AppUser>, k: nat, i: nat, j: nat, u: ShareUpdate): (o: Outcome<Coin>)
    requires k < |accounts| && i < |accounts[k].influencers| && j < |accounts[k].influencers[i].coins|
    ensures o.reply.Ok? && SameIds(accounts, o.store)
    ensures o.reply.body == UpdateShares(accounts[k].influencers[i].coins[j], u)
    ensures o.store == WithCoin(accounts, k, i, j, o.reply.body)
  {
    var c := UpdateShares(accounts[k].influencers[i].coins[j], u);
    Outcome(Ok(c), WithCoin(accounts, k, i, j, c))
  }

  /** `PUT /:appUserId/influencer/:influencerId/coins/:coinId`. Its catch
      answers 500. */
  function UpdateCoinOf(accounts: seq<AppUser>, appUserId: Id, influencerId: Id, coinId: Id, u: ShareUpdate): (o: Outcome<Coin>)
    ensures o.reply.Fail? ==> o.store == accounts
    ensures var l := LocateCoin(accounts, appUserId, influencerId, coinId);
            && (o.reply == Fail(ServerError) <==> l.CastFailed?)
            && (o.reply.Ok? <==> l.CoinAt?)
            && (l.CoinAt? ==> o == UpdateAt(accounts, l.k, l.i, l.j, u))
    ensures o.reply.Fail? ==> o.reply.status in {ServerError, NotFound}
  {
    match LocateCoin(accounts, appUserId, influencerId, coinId)
    case CastFailed => Outcome(Fail(ServerError), accounts)
    case CoinAt(k, i, j) => UpdateAt(accounts, k, i, j, u)
    case _ => Outcome(Fail(NotFound), accounts)
  }

  /** `PUT /admin-influencers/:influencerId/coins/:coinId`. Its catch answers
      500. */
  function AdminUpdateCoinOf(accounts: seq<AppUser>, requesterId: Id, influencerId: Id, coinId: Id, u: ShareUpdate): (o: Outcome<Coin>)
    ensures o.reply.Fail? ==> o.store == accounts
    ensures AdminGate(accounts, requesterId, ServerError).Fail? ==> o.reply == Fail(AdminGate(accounts, requesterId, ServerError).status)
    ensures var l := AdminLocateCoin(accounts, influencerId, coinId);
            && (o.reply.Ok? <==> AdminGate(accounts, requesterId, ServerError).Ok? && l.CoinAt?)
            && (o.reply.Ok? ==> o == UpdateAt(accounts, l.k, l.i, l.j, u))
    ensures var l := AdminLocateCoin(accounts, influencerId, coinId);
            AdminGate(accounts, requesterId, ServerError).Ok? ==>
              && (l.CastFailed? ==> o.reply == Fail(ServerError))
              && (!l.CastFailed? && !l.CoinAt? ==> o.reply == Fail(NotFound))
  {
    match AdminGate(accounts, requesterId, ServerError)
    case Fail(s) => Outcome(Fail(s), accounts)
    case Ok(_) =>
      match AdminLocateCoin(accounts, influencerId, coinId)
      case CastFailed => Outcome(Fail(ServerError), accounts)
      case CoinAt(k, i, j) => UpdateAt(accounts, k, i, j, u)
      case _ => Outcome(Fail(NotFound), accounts)
  }

  // ---------------------------------------------------------------------------
  // Deleting a coin

  /** `influencer.coins.pull(coinId)` on influencer `i` of account `k`. */
  function PullAt(accounts: seq<AppUser>, k: nat, i: nat, coinId: Id): (o: Outcome<()>)
    requires k < |accounts| && i < |accounts[k].influencers|
    ensures o.reply.Ok? && SameIds(accounts, o.store)
    ensures |o.store| == |accounts| && forall m :: 0 <= m < |accounts| && m != k ==> o.store[m] == accounts[m]
    ensures var before := accounts[k].influencers; var after := o.store[k].influencers;
            && o.store[k] == accounts[k].(influencers := after)
            && (forall m :: 0 <= m < |before| && m != i ==> after[m] == before[m])
            && after[i] == before[i].(coins := after[i].coins)
            && after[i].coins == PullCoins(before[i].coins, coinId)
            && NoneWith(after[i].coins, CoinKey, coinId)
  {
    var inf := accounts[k].influencers[i];
    PullRemovesId(inf.coins, coinId);
    Outcome(Ok(()), WithInfluencer(accounts, k, i, inf.(coins := PullCoins(inf.coins, coinId))))
  }

  /** `DELETE /:appUserId/influencer/:influencerId/coins/:coinId`. Its catch
      answers 500. */
  function DeleteCoinOf(accounts: seq<AppUser>, appUserId: Id, influencerId: Id, coinId: Id): (o: Outcome<()>)
    ensures o.reply.Fail? ==> o.store == accounts
    ensures var l := LocateCoin(accounts, appUserId, influencerId, coinId);
            && (o.reply == Fail(ServerError) <==> l.CastFailed?)
            && (o.reply.Ok? <==> l.CoinAt?)
            && (l.CoinAt? ==> o == PullAt(accounts, l.k, l.i, coinId))
    ensures o.reply.Fail? ==> o.reply.status in {ServerError, NotFound}
  {
    match LocateCoin(accounts, appUserId, influencerId, coinId)
    case CastFailed => Outcome(Fail(ServerError), accounts)
    case CoinAt(k, i, _) => PullAt(accounts, k, i, coinId)
    case _ => Outcome(Fail(NotFound), accounts)
  }

  /** `DELETE /admin-influencers/:influencerId/coins/:coinId`. Its catch
      answers 500. */
  function AdminDeleteCoinOf(accounts: seq<AppUser>, requesterId: Id, influencerId: Id, coinId: Id): (o: Outcome<()>)
    ensures o.reply.Fail? ==> o.store == accounts
    ensures AdminGate(accounts, requesterId, ServerError).Fail? ==> o.reply == Fail(AdminGate(accounts, requesterId, ServerError).status)
    ensures var l := AdminLocateCoin(accounts, influencerId, coinId);
            && (o.reply.Ok? <==> AdminGate(accounts, requesterId, ServerError).Ok? && l.CoinAt?)
            && (o.reply.Ok? ==> o == PullAt(accounts, l.k, l.i, coinId))
    ensures var l := AdminLocateCoin(accounts, influencerId, coinId);
            AdminGate(accounts, requesterId, ServerError).Ok? ==>
              && (l.CastFailed? ==> o.reply == Fail(ServerError))
              && (!l.CastFailed? && !l.CoinAt? ==> o.reply == Fail(NotFound))
  {
    match AdminGate(accounts, requesterId, ServerError)
    case Fail(s) => Outcome(Fail(s), accounts)
    case Ok(_) =>
      match AdminLocateCoin(accounts, influencerId, coinId)
      case CastFailed => Outcome(Fail(ServerError), accounts)
      case CoinAt(k, i, _) => PullAt(accounts, k, i, coinId)
      case _ => Outcome(Fail(NotFound), accounts)
  }

  // ---------------------------------------------------------------------------
  // Favourite flags

  /** `PUT` (b = true) and `DELETE` (b = false)
      `/:appUserId/influencers/:influencerId/favorite`. A missing account is
      not checked: reading its influencers throws and the catch answers 500,
      as it does for an id that does not cast. */
  function SetInfluencerFavoriteOf(accounts: seq<AppUser>, appUserId: Id, influencerId: Id, b: bool): (o: Outcome<Influencer>)
    ensures o.reply.Fail? ==> o.store == accounts
    ensures var l := LocateInfluencer(accounts, appUserId, influencerId);
            && (o.reply == Fail(ServerError) <==> l.CastFailed? || l.NoAccount?)
            && (o.reply == Fail(NotFound) <==> l.NoInfluencer?)
            && (l.InfluencerAt? ==>
                  && o.reply == Ok(accounts[l.k].influencers[l.i].(isFavorite := b))
                  && o.store == WithInfluencer(accounts, l.k, l.i, o.reply.body))
  {
    match LocateInfluencer(accounts, appUserId, influencerId)
    case NoInfluencer => Outcome(Fail(NotFound), accounts)
    case InfluencerAt(k, i) =>
      var inf := accounts[k].influencers[i].(isFavorite := b);
      Outcome(Ok(inf), WithInfluencer(accounts, k, i, inf))
    case _ => Outcome(Fail(ServerError), accounts)
  }

  /** `PUT` (b = true) and `DELETE` (b = false)
      `/admin-influencers/:influencerId/favorite`: the flag of an influencer
      of the requester's own account. A missing account answers 404; a
      missing influencer is not checked, so setting its flag throws and the
      catch answers 500. */
  function SetOwnInfluencerFavoriteOf(accounts: seq<AppUser>, requesterId: Id, influencerId: Id, b: bool): (o: Outcome<()>)
    ensures o.reply.Fail? ==> o.store == accounts
    ensures var l := LocateInfluencer(accounts, requesterId, influencerId);
            && (o.reply == Fail(NotFound) <==> l.NoAccount?)
            && (o.reply == Fail(ServerError) <==> l.CastFailed? || l.NoInfluencer?)
            && (l.InfluencerAt? ==> o.reply == Ok(())
                                    && o.store == WithInfluencer(accounts, l.k, l.i, accounts[l.k].influencers[l.i].(isFavorite := b)))
  {
    match LocateInfluencer(accounts, requesterId, influencerId)
    case NoAccount => Outcome(Fail(NotFound), accounts)
    case InfluencerAt(k, i) => Outcome(Ok(()), WithInfluencer(accounts, k, i, accounts[k].influencers[i].(isFavorite := b)))
    case _ => Outcome(Fail(ServerError), accounts)
  }

  /** `PUT` (b = true) and `DELETE` (b = false)
      `/:appUserId/influencer/:influencerId/coins/:coinId/favorite`. Its
      catch answers 500. */
  function SetCoinFavoriteOf(accounts: seq<AppUser>, appUserId: Id, influencerId: Id, coinId: Id, b: bool): (o: Outcome<Coin>)
    ensures o.reply.Fail? ==> o.store == accounts
    ensures var l := LocateCoin(accounts, appUserId, influencerId, coinId);
            && (o.reply == Fail(ServerError) <==> l.CastFailed?)
            && (o.reply == Fail(NotFound) <==> !l.CastFailed? && !l.CoinAt?)
            && (o.reply.Ok? <==> l.CoinAt?)
            && (l.CoinAt? ==>
                  && o.reply.body == accounts[l.k].influencers[l.i].coins[l.j].(isFavorite := b)
                  && o.store == WithCoin(accounts, l.k, l.i, l.j, o.reply.body))
  {
    match LocateCoin(accounts, appUserId, influencerId, coinId)
    case CastFailed => Outcome(Fail(ServerError), accounts)
    case CoinAt(k, i, j) =>
      var c := accounts[k].influencers[i].coins[j].(isFavorite := b);
      Outcome(Ok(c), WithCoin(accounts, k, i, j, c))
    case _ => Outcome(Fail(NotFound), accounts)
  }

  // ---------------------------------------------------------------------------
  // Favourite listings

  /** `GET /:appUserId/favorites`: the account's favourite influencers. */
  function FavoriteInfluencersOf(accounts: seq<AppUser>, appUserId: Id): (r: Response<seq<Influencer>>)
    ensures !IsObjectId(appUserId) <==> r == Fail(ServerError)
    ensures r == Fail(NotFound) <==> IsObjectId(appUserId) && NoneWith(accounts, AccountKey, appUserId)
    ensures r.Ok? ==> exists k: nat :: IsFirst(accounts, AccountKey, k, appUserId)
                                  && r.body == FavoriteInfluencers(accounts[k].influencers)
  {
    if !IsObjectId(appUserId) then Fail(ServerError)
    else match FirstIndex(accounts, AccountKey, appUserId)
      case None => Fail(NotFound)
      case Some(k) => Ok(FavoriteInfluencers(accounts[k].influencers))
  }

  /** `GET /:appUserId/coins/favorites`: the account's favourite coins tagged
      with their influencers. */
  function FavoriteCoinsRouteOf(accounts: seq<AppUser>, appUserId: Id): (r: Response<seq<FavoriteCoin>>)
    ensures !IsObjectId(appUserId) <==> r == Fail(ServerError)
    ensures r == Fail(NotFound) <==> IsObjectId(appUserId) && NoneWith(accounts, AccountKey, appUserId)
    ensures r.Ok? ==> exists k: nat :: IsFirst(accounts, AccountKey, k, appUserId)
                                  && r.body == FavoriteCoinsOf(accounts[k].influencers)
  {
    if !IsObjectId(appUserId) then Fail(ServerError)
    else match FirstIndex(accounts, AccountKey, appUserId)
      case None => Fail(NotFound)
      case Some(k) => Ok(FavoriteCoinsOf(accounts[k].influencers))
  }

  /** `GET /admin-influencers/favorites`: the admin gate, then the favourite
      coins of the requesting admin's own influencers. */
  function AdminFavoriteCoinsOf(accounts: seq<AppUser>, requesterId: Id): (r: Response<seq<FavoriteCoin>>)
    ensures AdminGate(accounts, requesterId, ServerError).Fail? ==> r == Fail(AdminGate(accounts, requesterId, ServerError).status)
    ensures r.Ok? <==> AdminGate(accounts, requesterId, ServerError).Ok?
    ensures r.Ok? ==> exists k: nat :: && IsFirst(accounts, AccountKey, k, requesterId) && accounts[k].role == AdminRole
                                  && r.body == FavoriteCoinsOf(accounts[k].influencers)
  {
    match AdminGate(accounts, requesterId, ServerError)
    case Fail(s) => Fail(s)
    case Ok(k) => Ok(FavoriteCoinsOf(accounts[k].influencers))
  }

  // ---------------------------------------------------------------------------
  // E-mail subscription

  /** `POST /:appUserId/subscribe-email`: the pattern check comes first (400),
      then `findByIdAndUpdate`, which throws for an id that does not cast
      (500) and finds nothing for an unknown one (404). The schema declares
      no `email`, so the update stores nothing: the store is unchanged. */
  function SubscribeEmailOf(accounts: seq<AppUser>, appUserId: Id, email: Option<string>): (r: Response<()>)
    ensures !LooksLikeEmail(EmailText(email)) ==> r == Fail(BadRequest)
    ensures LooksLikeEmail(EmailText(email)) && !IsObjectId(appUserId) ==> r == Fail(ServerError)
    ensures LooksLikeEmail(EmailText(email)) && IsObjectId(appUserId) && NoneWith(accounts, AccountKey, appUserId) ==>
              r == Fail(NotFound)
    ensures r.Ok? <==> && LooksLikeEmail(EmailText(email)) && IsObjectId(appUserId)
                       && exists k :: 0 <= k < |accounts| && accounts[k].id == appUserId
  {
    if !LooksLikeEmail(EmailText(email)) then Fail(BadRequest)
    else if !IsObjectId(appUserId) then Fail(ServerError)
    else if FirstIndex(accounts, AccountKey, appUserId).None? then Fail(NotFound)
    else Ok(())
  }

  // ---------------------------------------------------------------------------
  // Properties across routes

  /** Lookups by id see only ids, so two stores with the same ids at the same
      places locate the same account and influencer. */
  lemma SameIdsLocateAlike(a: seq<AppUser>, b: seq<AppUser>, appUserId: Id, influencerId: Id)
    requires SameIds(a, b)
    ensures LocateInfluencer(a, appUserId, influencerId) == LocateInfluencer(b, appUserId, influencerId)
  {
    FirstIndexSameKeys(a, b, AccountKey, appUserId);
    var r := FirstIndex(a, AccountKey, appUserId);
    if r.Some? {
      FirstIndexSameKeys(a[r.value].influencers, b[r.value].influencers, InfluencerKey, influencerId);
    }
  }

  lemma FirstIndexSameKeys<T>(s: seq<T>, t: seq<T>, key: T -> Id, id: Id)
    requires |s| == |t| && forall m :: 0 <= m < |s| ==> key(s[m]) == key(t[m])
    ensures FirstIndex(s, key, id) == FirstIndex(t, key, id)
  {
  }

  /** A fresh ObjectId is carried by no coin of the store. */
  predicate FreshCoinId(accounts: seq<AppUser>, id: Id) {
    forall k, i, j :: 0 <= k < |accounts| && 0 <= i < |accounts[k].influencers| && 0 <= j < |accounts[k].influencers[i].coins|
      ==> accounts[k].influencers[i].coins[j].id != id
  }

  /** Adding a coin and then deleting it by the id it was given restores the
      store. */
  lemma AddThenDeleteRestores(accounts: seq<AppUser>, appUserId: Id, influencerId: Id, body: CoinBody, dex: Dex, newId: Id)
    requires FreshCoinId(accounts, newId)
    requires AddCoinOf(accounts, appUserId, influencerId, body, dex, newId).reply.Ok?
    ensures var added := AddCoinOf(accounts, appUserId, influencerId, body, dex, newId).store;
            DeleteCoinOf(added, appUserId, influencerId, newId) == Outcome(Ok(()), accounts)
  {
    var l := LocateInfluencer(accounts, appUserId, influencerId);
    var k, i := l.k, l.i;
    var o := PushFetched(accounts, k, i, dex(body.caAddress), body, newId);
    var added := o.store;
    var inf := accounts[k].influencers[i];
    var c := o.reply.body;
    assert added == WithInfluencer(accounts, k, i, inf.(coins := inf.coins + [c]));
    assert SameIds(accounts, added);
    SameIdsLocateAlike(accounts, added, appUserId, influencerId);
    var coins := added[k].influencers[i].coins;
    assert coins == inf.coins + [c];
    assert IsFirst(coins, CoinKey, |inf.coins|, newId);
    PushThenPull(inf.coins, c);
    assert PullCoins(coins, newId) == inf.coins;
    WithInfluencerTwice(accounts, k, i, inf.(coins := coins), inf);
  }

  /** Deleting a coin again answers 404 and changes nothing: the pull left no
      coin with that id. */
  lemma DeleteTwiceIsNotFound(accounts: seq<AppUser>, appUserId: Id, influencerId: Id, coinId: Id)
    requires DeleteCoinOf(accounts, appUserId, influencerId, coinId).reply.Ok?
    ensures var after := DeleteCoinOf(accounts, appUserId, influencerId, coinId).store;
            DeleteCoinOf(after, appUserId, influencerId, coinId) == Outcome(Fail(NotFound), after)
  {
    var l := LocateCoin(accounts, appUserId, influencerId, coinId);
    var after := PullAt(accounts, l.k, l.i, coinId).store;
    SameIdsLocateAlike(accounts, after, appUserId, influencerId);
  }

  /** A delete keeps every coin of the influencer whose id differs. */
  lemma DeleteKeepsOtherCoins(accounts: seq<AppUser>, appUserId: Id, influencerId: Id, coinId: Id, c: Coin)
    requires DeleteCoinOf(accounts, appUserId, influencerId, coinId).reply.Ok?
    requires var l := LocateCoin(accounts, appUserId, influencerId, coinId);
             c in accounts[l.k].influencers[l.i].coins && c.id != coinId
    ensures var l := LocateCoin(accounts, appUserId, influencerId, coinId);
            c in DeleteCoinOf(accounts, appUserId, influencerId, coinId).store[l.k].influencers[l.i].coins
  {
    var l := LocateCoin(accounts, appUserId, influencerId, coinId);
    PullKeepsOthers(accounts[l.k].influencers[l.i].coins, coinId, c);
  }

  /** An update keeps every id, so the same request finds the same coin. */
  lemma UpdateAtKeepsLocation(accounts: seq<AppUser>, appUserId: Id, influencerId: Id, coinId: Id, u: ShareUpdate,
                              k: nat, i: nat, j: nat)
    requires LocateCoin(accounts, appUserId, influencerId, coinId) == CoinAt(k, i, j)
    ensures LocateCoin(UpdateAt(accounts, k, i, j, u).store, appUserId, influencerId, coinId) == CoinAt(k, i, j)
  {
    var after := UpdateAt(accounts, k, i, j, u).store;
    SameIdsLocateAlike(accounts, after, appUserId, influencerId);
    var before := accounts[k].influencers[i].coins;
    assert after[k].influencers[i].coins == before[j := UpdateShares(before[j], u)];
    FirstIndexSameKeys(before, after[k].influencers[i].coins, CoinKey, coinId);
  }

  lemma UpdateAtTwice(accounts: seq<AppUser>, k: nat, i: nat, j: nat, u: ShareUpdate)
    requires k < |accounts| && i < |accounts[k].influencers| && j < |accounts[k].influencers[i].coins|
    ensures UpdateAt(UpdateAt(accounts, k, i, j, u).store, k, i, j, u) == UpdateAt(accounts, k, i, j, u)
  {
    var o := UpdateAt(accounts, k, i, j, u);
    UpdateSharesIdempotent(accounts[k].influencers[i].coins[j], u);
    var inf := o.store[k].influencers[i];
    assert inf.coins[j] == o.reply.body;
    assert inf.coins[j := o.reply.body] == inf.coins;
    assert inf.(coins := inf.coins[j := o.reply.body]) == inf;
    assert o.store[k].influencers[i := inf] == o.store[k].influencers;
    assert WithCoin(o.store, k, i, j, o.reply.body) == o.store;
  }

  /** Sending the same share update twice leaves the store as sending it
      once. */
  lemma UpdateTwiceIsOnce(accounts: seq<AppUser>, appUserId: Id, influencerId: Id, coinId: Id, u: ShareUpdate)
    requires UpdateCoinOf(accounts, appUserId, influencerId, coinId, u).reply.Ok?
    ensures var o := UpdateCoinOf(accounts, appUserId, influencerId, coinId, u);
            UpdateCoinOf(o.store, appUserId, influencerId, coinId, u) == o
  {
    var l := LocateCoin(accounts, appUserId, influencerId, coinId);
    UpdateAtKeepsLocation(accounts, appUserId, influencerId, coinId, u, l.k, l.i, l.j);
    UpdateAtTwice(accounts, l.k, l.i, l.j, u);
  }

  /** A coin flagged as favourite appears, tagged with its influencer, in the
      account's favourite coins. */
  lemma FavoritedCoinIsListed(accounts: seq<AppUser>, appUserId: Id, influencerId: Id, coinId: Id)
    requires SetCoinFavoriteOf(accounts, appUserId, influencerId, coinId, true).reply.Ok?
    ensures var o := SetCoinFavoriteOf(accounts, appUserId, influencerId, coinId, true);
            var l := LocateCoin(accounts, appUserId, influencerId, coinId);
            && FavoriteCoinsRouteOf(o.store, appUserId).Ok?
            && Tagged(o.reply.body, accounts[l.k].influencers[l.i]) in FavoriteCoinsRouteOf(o.store, appUserId).body
  {
    var o := SetCoinFavoriteOf(accounts, appUserId, influencerId, coinId, true);
    var l := LocateCoin(accounts, appUserId, influencerId, coinId);
    var infs := o.store[l.k].influencers;
    assert SameIds(accounts, o.store);
    FirstIndexSameKeys(accounts, o.store, AccountKey, appUserId);
    assert FavoriteCoinsRouteOf(o.store, appUserId) == Ok(FavoriteCoinsOf(infs));
    assert o.reply.body in infs[l.i].coins by {
      assert infs[l.i].coins[l.j] == o.reply.body;
    }
    FavoriteCoinsExactly(infs);
    assert Tagged(o.reply.body, infs[l.i]) == Tagged(o.reply.body, accounts[l.k].influencers[l.i]);
  }

  /** Setting an influencer's flag changes the account's favourite
      influencers only at its place: listed when set, gone when cleared. */
  lemma InfluencerFlagShowsInFavorites(accounts: seq<AppUser>, appUserId: Id, influencerId: Id, b: bool)
    requires SetInfluencerFavoriteOf(accounts, appUserId, influencerId, b).reply.Ok?
    ensures var o := SetInfluencerFavoriteOf(accounts, appUserId, influencerId, b);
            var l := LocateInfluencer(accounts, appUserId, influencerId);
            var infs := accounts[l.k].influencers;
            FavoriteInfluencersOf(o.store, appUserId)
              == Ok(FavoriteInfluencers(infs[..l.i]) + (if b then [o.reply.body] else []) + FavoriteInfluencers(infs[l.i + 1..]))
  {
    var o := SetInfluencerFavoriteOf(accounts, appUserId, influencerId, b);
    var l := LocateInfluencer(accounts, appUserId, influencerId);
    assert SameIds(accounts, o.store);
    FirstIndexSameKeys(accounts, o.store, AccountKey, appUserId);
    ToggleInfluencerFavorite(accounts[l.k].influencers, l.i, b);
  }

  /** The requester's own influencer toggle and the per-account one leave
      the same store behind; only their replies differ. */
  lemma OwnInfluencerFlagMatchesAccountFlag(accounts: seq<AppUser>, requesterId: Id, influencerId: Id, b: bool)
    ensures SetOwnInfluencerFavoriteOf(accounts, requesterId, influencerId, b).store
              == SetInfluencerFavoriteOf(accounts, requesterId, influencerId, b).store
    ensures (SetOwnInfluencerFavoriteOf(accounts, requesterId, influencerId, b).reply.Ok?
             <==> SetInfluencerFavoriteOf(accounts, requesterId, influencerId, b).reply.Ok?)
  {
  }

  /** A requester who is not an admin is refused with 403 by every admin
      route, and the store is left as it was. */
  lemma NonAdminIsForbidden(accounts: seq<AppUser>, requesterId: Id, influencerId: Id, coinId: Id,
                            body: CoinBody, u: ShareUpdate, dex: Dex, newId: Id)
    requires IsObjectId(requesterId)
    requires forall k :: 0 <= k < |accounts| && accounts[k].id == requesterId ==> accounts[k].role != AdminRole
    ensures AdminAddCoinOf(accounts, requesterId, influencerId, body, dex, newId) == Outcome(Fail(Forbidden), accounts)
    ensures AdminUpdateCoinOf(accounts, requesterId, influencerId, coinId, u) == Outcome(Fail(Forbidden), accounts)
    ensures AdminDeleteCoinOf(accounts, requesterId, influencerId, coinId) == Outcome(Fail(Forbidden), accounts)
    ensures AdminFavoriteCoinsOf(accounts, requesterId) == Fail(Forbidden)
  {
  }

  /** A request without an e-mail is refused with 400. */
  lemma MissingEmailIsRejected(accounts: seq<AppUser>, appUserId: Id)
    ensures SubscribeEmailOf(accounts, appUserId, None) == Fail(BadRequest)
  {
    MissingEmailFailsCheck();
  }

  // ---------------------------------------------------------------------------
  // The store

  /** The stored accounts, edited in place by the routes. */
  class AccountStore {
    var accounts: seq<AppUser>

    constructor(accounts: seq<AppUser>)
      ensures this.accounts == accounts
    {
      this.accounts := accounts;
    }

    /** Pushes the fetched coin onto influencer `i` of account `k`. */
    method PushCoin(k: nat, i: nat, fetch: Fetch, body: CoinBody, newId: Id) returns (r: Response<Coin>)
      requires k < |accounts| && i < |accounts[k].influencers|
      modifies this
      ensures Outcome(r, accounts) == PushFetched(old(accounts), k, i, fetch, body, newId)
    {
      if !fetch.FirstPair? {
        return Fail(BadRequest);
      }
      var pair := fetch.pair;
      if body.shareDate.None? {
        return Fail(BadRequest);
      }
      var newCoin := Coin(newId, pair.baseSymbol, pair.baseName, body.caAddress, body.shareDate.value,
                          body.sharePrice, body.shareMarketCap, false);
      var influencer := accounts[k].influencers[i];
      influencer := influencer.(coins := influencer.coins + [newCoin]);
      accounts := WithInfluencer(accounts, k, i, influencer);
      r := Ok(newCoin);
    }

    method AddCoin(appUserId: Id, influencerId: Id, body: CoinBody, dex: Dex, newId: Id) returns (r: Response<Coin>)
      modifies this
      ensures Outcome(r, accounts) == AddCoinOf(old(accounts), appUserId, influencerId, body, dex, newId)
    {
      var l := LocateInfluencer(accounts, appUserId, influencerId);
      if l.CastFailed? {
        return Fail(BadRequest);
      }
      if !l.InfluencerAt? {
        return Fail(NotFound);
      }
      r := PushCoin(l.k, l.i, dex(body.caAddress), body, newId);
    }

    method AdminAddCoin(requesterId: Id, influencerId: Id, body: CoinBody, dex: Dex, newId: Id) returns (r: Response<Coin>)
      modifies this
      ensures Outcome(r, accounts) == AdminAddCoinOf(old(accounts), requesterId, influencerId, body, dex, newId)
    {
      var gate := AdminGate(accounts, requesterId, BadRequest);
      if gate.Fail? {
        return Fail(gate.status);
      }
      var l := AdminLocateInfluencer(accounts, influencerId);
      if l.CastFailed? {
        return Fail(BadRequest);
      }
      if !l.InfluencerAt? {
        return Fail(NotFound);
      }
      r := PushCoin(l.k, l.i, dex(body.caAddress), body, newId);
    }

    /** The three falsy-fallback assignments on coin `j` of influencer `i`
        of account `k`. */
    method UpdateSharesAt(k: nat, i: nat, j: nat, u: ShareUpdate) returns (r: Response<Coin>)
      requires k < |accounts| && i < |accounts[k].influencers| && j < |accounts[k].influencers[i].coins|
      modifies this
      ensures Outcome(r, accounts) == UpdateAt(old(accounts), k, i, j, u)
    {
      var coin := accounts[k].influencers[i].coins[j];
      if u.shareDate.Some? {
        coin := coin.(shareDate := u.shareDate.value);
      }
      if Truthy(u.sharePrice) {
        coin := coin.(sharePrice := u.sharePrice);
      }
      if Truthy(u.shareMarketCap) {
        coin := coin.(shareMarketCap := u.shareMarketCap);
      }
      accounts := WithCoin(accounts, k, i, j, coin);
      r := Ok(coin);
    }

    method UpdateCoin(appUserId: Id, influencerId: Id, coinId: Id, u: ShareUpdate) returns (r: Response<Coin>)
      modifies this
      ensures Outcome(r, accounts) == UpdateCoinOf(old(accounts), appUserId, influencerId, coinId, u)
    {
      var l := LocateCoin(accounts, appUserId, influencerId, coinId);
      if l.CastFailed? {
        return Fail(ServerError);
      }
      if !l.CoinAt? {
        return Fail(NotFound);
      }
      r := UpdateSharesAt(l.k, l.i, l.j, u);
    }

    method AdminUpdateCoin(requesterId: Id, influencerId: Id, coinId: Id, u: ShareUpdate) returns (r: Response<Coin>)
      modifies this
      ensures Outcome(r, accounts) == AdminUpdateCoinOf(old(accounts), requesterId, influencerId, coinId, u)
    {
      var gate := AdminGate(accounts, requesterId, ServerError);
      if gate.Fail? {
        return Fail(gate.status);
      }
      var l := AdminLocateCoin(accounts, influencerId, coinId);
      if l.CastFailed? {
        return Fail(ServerError);
      }
      if !l.CoinAt? {
        return Fail(NotFound);
      }
      r := UpdateSharesAt(l.k, l.i, l.j, u);
    }

    method DeleteCoin(appUserId: Id, influencerId: Id, coinId: Id) returns (r: Response<()>)
      modifies this
      ensures Outcome(r, accounts) == DeleteCoinOf(old(accounts), appUserId, influencerId, coinId)
    {
      var l := LocateCoin(accounts, appUserId, influencerId, coinId);
      if l.CastFailed? {
        return Fail(ServerError);
      }
      if !l.CoinAt? {
        return Fail(NotFound);
      }
      var influencer := accounts[l.k].influencers[l.i];
      influencer := influencer.(coins := PullCoins(influencer.coins, coinId));
      accounts := WithInfluencer(accounts, l.k, l.i, influencer);
      r := Ok(());
    }

    method AdminDeleteCoin(requesterId: Id, influencerId: Id, coinId: Id) returns (r: Response<()>)
      modifies this
      ensures Outcome(r, accounts) == AdminDeleteCoinOf(old(accounts), requesterId, influencerId, coinId)
    {
      var gate := AdminGate(accounts, requesterId, ServerError);
      if gate.Fail? {
        return Fail(gate.status);
      }
      var l := AdminLocateCoin(accounts, influencerId, coinId);
      if l.CastFailed? {
        return Fail(ServerError);
      }
      if !l.CoinAt? {
        return Fail(NotFound);
      }
      var influencer := accounts[l.k].influencers[l.i];
      influencer := influencer.(coins := PullCoins(influencer.coins, coinId));
      accounts := WithInfluencer(accounts, l.k, l.i, influencer);
      r := Ok(());
    }

    method SetInfluencerFavorite(appUserId: Id, influencerId: Id, b: bool) returns (r: Response<Influencer>)
      modifies this
      ensures Outcome(r, accounts) == SetInfluencerFavoriteOf(old(accounts), appUserId, influencerId, b)
    {
      var l := LocateInfluencer(accounts, appUserId, influencerId);
      if l.NoInfluencer? {
        return Fail(NotFound);
      }
      if !l.InfluencerAt? {
        return Fail(ServerError);
      }
      var influencer := accounts[l.k].influencers[l.i];
      influencer := influencer.(isFavorite := b);
      accounts := WithInfluencer(accounts, l.k, l.i, influencer);
      r := Ok(influencer);
    }

    method SetOwnInfluencerFavorite(requesterId: Id, influencerId: Id, b: bool) returns (r: Response<()>)
      modifies this
      ensures Outcome(r, accounts) == SetOwnInfluencerFavoriteOf(old(accounts), requesterId, influencerId, b)
    {
      var l := LocateInfluencer(accounts, requesterId, influencerId);
      if l.NoAccount? {
        return Fail(NotFound);
      }
      if !l.InfluencerAt? {
        return Fail(ServerError);
      }
      var influencer := accounts[l.k].influencers[l.i];
      influencer := influencer.(isFavorite := b);
      accounts := WithInfluencer(accounts, l.k, l.i, influencer);
      r := Ok(());
    }

    method SetCoinFavorite(appUserId: Id, influencerId: Id, coinId: Id, b: bool) returns (r: Response<Coin>)
      modifies this
      ensures Outcome(r, accounts) == SetCoinFavoriteOf(old(accounts), appUserId, influencerId, coinId, b)
    {
      var l := LocateCoin(accounts, appUserId, influencerId, coinId);
      if l.CastFailed? {
        return Fail(ServerError);
      }
      if !l.CoinAt? {
        return Fail(NotFound);
      }
      var coin := accounts[l.k].influencers[l.i].coins[l.j];
      coin := coin.(isFavorite := b);
      accounts := WithCoin(accounts, l.k, l.i, l.j, coin);
      r := Ok(coin);
    }

    method FavoriteInfluencersRoute(appUserId: Id) returns (r: Response<seq<Influencer>>)
      ensures r == FavoriteInfluencersOf(accounts, appUserId)
    {
      if !IsObjectId(appUserId) {
        return Fail(ServerError);
      }
      var k := FirstIndex(accounts, AccountKey, appUserId);
      if k.None? {
        return Fail(NotFound);
      }
      r := Ok(FavoriteInfluencers(accounts[k.value].influencers));
    }

    method FavoriteCoinsRoute(appUserId: Id) returns (r: Response<seq<FavoriteCoin>>)
      ensures r == FavoriteCoinsRouteOf(accounts, appUserId)
    {
      if !IsObjectId(appUserId) {
        return Fail(ServerError);
      }
      var k := FirstIndex(accounts, AccountKey, appUserId);
      if k.None? {
        return Fail(NotFound);
      }
      var favoriteCoins := CollectFavoriteCoins(accounts[k.value].influencers);
      r := Ok(favoriteCoins);
    }

    method AdminFavoriteCoins(requesterId: Id) returns (r: Response<seq<FavoriteCoin>>)
      ensures r == AdminFavoriteCoinsOf(accounts, requesterId)
    {
      var gate := AdminGate(accounts, requesterId, ServerError);
      if gate.Fail? {
        return Fail(gate.status);
      }
      var favoriteCoins := CollectFavoriteCoins(accounts[gate.body].influencers);
      r := Ok(favoriteCoins);
    }

    method SubscribeEmail(appUserId: Id, email: Option<string>) returns (r: Response<()>)
      ensures r == SubscribeEmailOf(accounts, appUserId, email)
    {
      if !LooksLikeEmail(EmailText(email)) {
        return Fail(BadRequest);
      }
      if !IsObjectId(appUserId) {
        return Fail(ServerError);
      }
      var k := FirstIndex(accounts, AccountKey, appUserId);
      if k.None? {
        return Fail(NotFound);
      }
      r := Ok(());
    }
  }
}
