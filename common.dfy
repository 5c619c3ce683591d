/** Shared vocabulary of the model: optional values, JavaScript truthiness of
    numbers, document identifiers and the outcome of a route. */
module Common {

  /** A value that may be missing (`undefined` or `null` in the source). */
  datatype Option<+T> = None | Some(value: T) {
    function GetOr(default: T): T {
      if Some? then value else default
    }
  }

  /** JavaScript truthiness of a number that may be missing: `undefined`,
      `null` and `0` are falsy. (NaN cannot arise over `real`.) */
  predicate Truthy(x: Option<real>) {
    x.Some? && x.value != 0.0
  }

  /** A document `_id`, compared as a string. */
  type Id = string

  /** `n` is the first position whose key is `id`: what `findById` (over
      the natural order) and `subdocs.id(...)` return. */
  predicate IsFirst<T>(s: seq<T>, key: T -> Id, n: nat, id: Id) {
    n < |s| && key(s[n]) == id && forall m :: 0 <= m < n ==> key(s[m]) != id
  }

  /** No element has the key `id`. */
  predicate NoneWith<T>(s: seq<T>, key: T -> Id, id: Id) {
    forall m :: 0 <= m < |s| ==> key(s[m]) != id
  }

  /** Position of the first element whose key is `id`, as a lookup of an
      embedded document by id (`coins.id(...)`) or of a stored document by
      `_id` finds it. Ids are compared as exact strings; hex-digit case
      is not folded. */
  function FirstIndex<T>(s: seq<T>, key: T -> Id, id: Id): (r: Option<nat>)
    ensures r.None? <==> NoneWith(s, key, id)
    ensures r.Some? ==> IsFirst(s, key, r.value, id)
    decreases |s|
  {
    if s == [] then None
    else if key(s[0]) == id then Some(0)
    else
      var r := FirstIndex(s[1..], key, id);
      if r.Some? then Some(r.value + 1) else None
  }

  predicate IsHexDigit(c: char) {
    '0' <= c <= '9' || 'a' <= c <= 'f' || 'A' <= c <= 'F'
  }

  /** Whether a string casts to an ObjectId: 24 hexadecimal digits. A
      lookup by an id that does not cast throws a cast error. */
  predicate IsObjectId(s: string) {
    |s| == 24 && forall i :: 0 <= i < |s| ==> IsHexDigit(s[i])
  }

  /** The error statuses the routes answer with: 400, 403, 404 and 500. */
  datatype Status = BadRequest | Forbidden | NotFound | ServerError

  /** What a route sends back: a body with status 200/201, or an error status. */
  datatype Response<+T> = Ok(body: T) | Fail(status: Status)
}

/** The market-data provider (DexScreener's token endpoint), reduced to what the
    routes read from a response: the first trading pair, or a failure. */
module Market {
  import opened Common

  /** `pairs[0]` of a response: its base token and its current quote. */
  datatype Pair = Pair(
    baseSymbol: string,
    baseName: string,
    priceUsd: Option<real>,
    marketCap: Option<real>,
    url: string)

  /** One GET of the token endpoint: the request threw, the response held no
      pair (`pairs` missing or empty), or it held at least one. */
  datatype Fetch = Threw | NoPairs | FirstPair(pair: Pair)

  /** The provider as an oracle from token address to response. */
  type Dex = string -> Fetch

  /** The current market cap a lookup yields; missing when the request threw,
      when there was no pair, or when the pair carries no market cap. */
  function MarketCapOf(f: Fetch): Option<real> {
    if f.FirstPair? then f.pair.marketCap else None
  }
}
