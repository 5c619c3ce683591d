/** The `AppUser` document of `models/AppUser.js`: an authenticated account
    owning an embedded list of influencers, each owning an embedded list of
    coins. */
module AppUserModel {
  import opened Common

  const AppUserRole := "appUser"
  const AdminRole := "admin"

  /** An embedded coin. The schema requires none of its fields; a missing
      string is modelled as "", a missing number as `None`. */
  datatype Coin = Coin(
    id: Id,
    symbol: string,
    name: string,
    caAddress: string,
    shareDate: int,
    sharePrice: Option<real>,
    shareMarketCap: Option<real>,
    isFavorite: bool)

  /** An embedded influencer with its ordered coins. */
  datatype Influencer = Influencer(
    id: Id,
    name: string,
    twitter: string,
    coins: seq<Coin>,
    isFavorite: bool)

  /** A stored account. These are all the fields the schema declares: there is
      no top-level `coins` and no `email`. */
  datatype AppUser = AppUser(
    id: Id,
    username: string,
    password: string,
    role: string,
    isActive: bool,
    createdAt: int,
    influencers: seq<Influencer>,
    pushSubscription: Option<string>)

  /** A coin as supplied, before schema defaults apply. */
  datatype CoinInput = CoinInput(
    symbol: string,
    name: string,
    caAddress: string,
    shareDate: int,
    sharePrice: Option<real>,
    shareMarketCap: Option<real>,
    isFavorite: Option<bool>)

  /** Casting a supplied coin: the given fields are kept and `isFavorite`
      defaults to false. */
  function NewCoin(c: CoinInput, id: Id): (r: Coin)
    ensures r.isFavorite <==> c.isFavorite == Some(true)
    ensures r.id == id && c == CoinInput(r.symbol, r.name, r.caAddress, r.shareDate, r.sharePrice,
                                         r.shareMarketCap, c.isFavorite)
  {
    Coin(id, c.symbol, c.name, c.caAddress, c.shareDate, c.sharePrice, c.shareMarketCap,
         c.isFavorite.GetOr(false))
  }

  /** Casting a supplied influencer: its coins keep their order and
      `isFavorite` defaults to false. */
  function NewInfluencer(id: Id, name: string, twitter: string, coins: seq<Coin>, isFavorite: Option<bool>): (r: Influencer)
    ensures r.coins == coins
    ensures r.isFavorite <==> isFavorite == Some(true)
  {
    Influencer(id, name, twitter, coins, isFavorite.GetOr(false))
  }

  /** An account as supplied at registration. */
  datatype AppUserInput = AppUserInput(
    username: Option<string>,
    password: Option<string>,
    role: Option<string>,
    isActive: Option<bool>,
    createdAt: Option<int>,
    pushSubscription: Option<string>)

  datatype SaveError = MissingUsername | MissingPassword | DuplicateUsername

  datatype Saved = Saved(user: AppUser) | Rejected(error: SaveError)

  /** Whether the pre-save hook re-hashes the password: only for a new
      document or when the password was modified. */
  predicate RehashOnSave(isNew: bool, passwordModified: bool) {
    passwordModified || isNew
  }

  /** The password the pre-save hook leaves in the document; `hash` stands
      for bcrypt with a fresh salt. */
  function PasswordAfterSave(password: string, isNew: bool, passwordModified: bool, hash: string -> string): (p: string)
    ensures RehashOnSave(isNew, passwordModified) ==> p == hash(password)
    ensures !RehashOnSave(isNew, passwordModified) ==> p == password
  {
    if RehashOnSave(isNew, passwordModified) then hash(password) else password
  }

  /** Saving a stored account again without touching its password keeps the
      stored hash: the hook never hashes a hash. */
  lemma ResaveKeepsHash(password: string, passwordModified: bool, hash: string -> string)
    ensures var stored := PasswordAfterSave(password, true, passwordModified, hash);
            PasswordAfterSave(stored, false, false, hash) == stored
  {
  }

  /** Creating an account: `username` and `password` are required, `username`
      is unique among the stored accounts, and the defaults are role
      'appUser', active, created now, no influencers and no push
      subscription. The stored password is the hash of the supplied one. */
  function CreateAppUser(stored: seq<AppUser>, u: AppUserInput, id: Id, now: int, hash: string -> string): (r: Saved)
    ensures r.Rejected? <==> (u.username.None? || u.username.value == "" || u.password.None? || u.password.value == ""
                              || exists k :: 0 <= k < |stored| && stored[k].username == u.username.value)
    ensures r.Saved? ==> && r.user.username == u.username.value
                         && r.user.password == hash(u.password.value)
                         && r.user.role == u.role.GetOr(AppUserRole)
                         && r.user.isActive == u.isActive.GetOr(true)
                         && r.user.createdAt == u.createdAt.GetOr(now)
                         && r.user.influencers == []
                         && r.user.pushSubscription == u.pushSubscription
  {
    if u.username.None? || u.username.value == "" then Rejected(MissingUsername)
    else if u.password.None? || u.password.value == "" then Rejected(MissingPassword)
    else if exists k :: 0 <= k < |stored| && stored[k].username == u.username.value then Rejected(DuplicateUsername)
    else
      Saved(AppUser(id, u.username.value, PasswordAfterSave(u.password.value, true, true, hash),
                    u.role.GetOr(AppUserRole), u.isActive.GetOr(true), u.createdAt.GetOr(now),
                    [], u.pushSubscription))
  }

  /** `comparePassword`: a candidate matches when it hashes to the stored
      password (bcrypt's salt is folded into `hash`). */
  predicate ComparePassword(candidate: string, stored: string, hash: string -> string) {
    hash(candidate) == stored
  }

  /** The account a registration creates accepts the password it was created
      with. */
  lemma CreatedAccountAcceptsItsPassword(stored: seq<AppUser>, u: AppUserInput, id: Id, now: int, hash: string -> string)
    requires CreateAppUser(stored, u, id, now, hash).Saved?
    ensures ComparePassword(u.password.value, CreateAppUser(stored, u, id, now, hash).user.password, hash)
  {
  }

  /** A registration that leaves out every optional field gets exactly the
      schema defaults. */
  lemma RegistrationDefaults(stored: seq<AppUser>, username: string, password: string, id: Id, now: int, hash: string -> string)
    requires username != "" && password != ""
    requires forall k :: 0 <= k < |stored| ==> stored[k].username != username
    ensures CreateAppUser(stored, AppUserInput(Some(username), Some(password), None, None, None, None), id, now, hash)
              == Saved(AppUser(id, username, hash(password), AppUserRole, true, now, [], None))
  {
  }
}
