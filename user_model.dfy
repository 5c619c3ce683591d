/** The `User` document of `User.js`: a user with a category and an embedded
    list of coins, every coin field required. */
module UserModel {
  import opened Common

  /** The three allowed values of `category`. */
  datatype Category = EnGuvendiklerim | Guvendiklerim | Notr

  function CategoryName(c: Category): string {
    match c
    case EnGuvendiklerim => "en_güvendiklerim"
    case Guvendiklerim => "güvendiklerim"
    case Notr => "nötr"
  }

  /** The schema's `enum` check: a category string is accepted exactly when it
      is one of the three names, and then names that category. */
  function ParseCategory(s: string): (r: Option<Category>)
    ensures r.Some? <==> s == "en_güvendiklerim" || s == "güvendiklerim" || s == "nötr"
    ensures r.Some? ==> CategoryName(r.value) == s
  {
    if s == "en_güvendiklerim" then Some(EnGuvendiklerim)
    else if s == "güvendiklerim" then Some(Guvendiklerim)
    else if s == "nötr" then Some(Notr)
    else None
  }

  lemma CategoryRoundTrip(c: Category)
    ensures ParseCategory(CategoryName(c)) == Some(c)
  {
  }

  /** A stored coin. It has no `isFavorite` field. */
  datatype UserCoin = UserCoin(
    id: Id,
    symbol: string,
    name: string,
    caAddress: string,
    shareDate: int,
    sharePrice: real,
    shareMarketCap: real)

  /** A stored user. */
  datatype User = User(
    id: Id,
    name: string,
    twitter: string,
    category: Category,
    isFavorite: bool,
    coins: seq<UserCoin>)

  /** A coin as it arrives to be saved: any field may be missing. */
  datatype CoinInput = CoinInput(
    symbol: Option<string>,
    name: Option<string>,
    caAddress: Option<string>,
    shareDate: Option<int>,
    sharePrice: Option<real>,
    shareMarketCap: Option<real>)

  /** A user as it arrives to be saved. */
  datatype UserInput = UserInput(
    name: Option<string>,
    twitter: Option<string>,
    category: Option<string>,
    isFavorite: Option<bool>,
    coins: seq<CoinInput>)

  /** Mongoose's `required` on a string: present and not empty. (On a number
      or a date it only asks for presence.) */
  predicate PresentString(x: Option<string>) {
    x.Some? && x.value != ""
  }

  predicate CoinInputValid(c: CoinInput) {
    && PresentString(c.symbol) && PresentString(c.name) && PresentString(c.caAddress)
    && c.shareDate.Some? && c.sharePrice.Some? && c.shareMarketCap.Some?
  }

  /** Validation of one coin on save: it succeeds exactly when all six
      required fields are there, and stores them as given. */
  function ValidateCoin(c: CoinInput, id: Id): (r: Option<UserCoin>)
    ensures r.Some? <==> CoinInputValid(c)
    ensures r.Some? ==> r.value.id == id && InputOfCoin(r.value) == c
  {
    if CoinInputValid(c) then
      Some(UserCoin(id, c.symbol.value, c.name.value, c.caAddress.value,
                    c.shareDate.value, c.sharePrice.value, c.shareMarketCap.value))
    else None
  }

  /** Validation of a user on save: `name`, `twitter` and a valid `category`
      are required, every coin must validate, and `isFavorite` defaults to
      false. */
  function ValidateUser(u: UserInput, id: Id, coinIds: seq<Id>): (r: Option<User>)
    requires |coinIds| == |u.coins|
    ensures r.Some? <==> && PresentString(u.name) && PresentString(u.twitter)
                         && u.category.Some? && ParseCategory(u.category.value).Some?
                         && forall k :: 0 <= k < |u.coins| ==> CoinInputValid(u.coins[k])
    ensures r.Some? ==> && r.value.id == id
                        && r.value.isFavorite == u.isFavorite.GetOr(false)
                        && |r.value.coins| == |u.coins|
                        && forall k :: 0 <= k < |u.coins| ==> Some(r.value.coins[k]) == ValidateCoin(u.coins[k], coinIds[k])
  {
    if && PresentString(u.name) && PresentString(u.twitter)
       && u.category.Some? && ParseCategory(u.category.value).Some?
       && forall k :: 0 <= k < |u.coins| ==> CoinInputValid(u.coins[k])
    then
      var coins := seq(|u.coins|, k requires 0 <= k < |u.coins| => ValidateCoin(u.coins[k], coinIds[k]).value);
      Some(User(id, u.name.value, u.twitter.value, ParseCategory(u.category.value).value,
                u.isFavorite.GetOr(false), coins))
    else None
  }

  /** A stored coin read back as input. */
  function InputOfCoin(c: UserCoin): CoinInput {
    CoinInput(Some(c.symbol), Some(c.name), Some(c.caAddress), Some(c.shareDate),
              Some(c.sharePrice), Some(c.shareMarketCap))
  }

  function InputOfUser(u: User): UserInput {
    UserInput(Some(u.name), Some(u.twitter), Some(CategoryName(u.category)), Some(u.isFavorite),
              seq(|u.coins|, k requires 0 <= k < |u.coins| => InputOfCoin(u.coins[k])))
  }

  function CoinIds(u: User): (ids: seq<Id>)
    ensures |ids| == |u.coins|
  {
    seq(|u.coins|, k requires 0 <= k < |u.coins| => u.coins[k].id)
  }

  /** A stored user's strings are non-empty, as validation demands. */
  ghost predicate WellFormed(u: User) {
    && u.name != "" && u.twitter != ""
    && forall k :: 0 <= k < |u.coins| ==>
         u.coins[k].symbol != "" && u.coins[k].name != "" && u.coins[k].caAddress != ""
  }

  /** Every save re-validates the whole document: a stored, well-formed user
      passes validation again and comes back unchanged. */
  lemma RevalidationKeepsUser(u: User)
    requires WellFormed(u)
    ensures ValidateUser(InputOfUser(u), u.id, CoinIds(u)) == Some(u)
  {
    var inp := InputOfUser(u);
    forall k | 0 <= k < |u.coins| ensures CoinInputValid(inp.coins[k]) {
      assert inp.coins[k] == InputOfCoin(u.coins[k]);
    }
    var r := ValidateUser(inp, u.id, CoinIds(u));
    assert r.Some?;
    forall k | 0 <= k < |u.coins| ensures r.value.coins[k] == u.coins[k] {
      assert inp.coins[k] == InputOfCoin(u.coins[k]);
    }
    assert r.value.coins == u.coins;
  }
}
