# Coin tracker backend — a Dafny model

The system is an Express/Mongoose backend that tracks crypto-coin "shares".

- Influencers mention coins. A mention records the coin's contract address (`caAddress`) and the date, price and market cap at the time of sharing.
- Application accounts (`AppUser`) hold an embedded list of influencers, and each influencer holds an embedded list of coins.
- A separate, older collection of `User` documents holds the same kind of data, flat: one user with its coins.

The routes combine the stored mentions with live quotes from the DexScreener market-data service. From them they compute:

- per-coin profit percentages;
- per-influencer and per-user averages;
- "highlights": the most-coins entity, the best coin and the best average;
- a cached "latest coins" listing.

Other routes edit the embedded lists in place: append a coin, pull a coin by id, update share fields, and set favourite flags. They also filter favourites.

This project models that core:

- `common.dfy`
  - `Common`: identifiers, JavaScript truthiness of numbers, Mongoose's first-match `.id()` lookup (`FirstIndex`), the 24-hex-digit ObjectId check and the route outcome type.
  - `Market`: the market-data oracle. A lookup either throws, returns no pairs, or returns its first pair.
- `profit.dfy` (`Profit`): the percentage-change formula and when it is skipped.
- `reduce.dfy` (`Reduce`): the folds shared by every summary route:
  - sum and count of valid profits, and the mean;
  - first-wins argmax with strict `>`;
  - first entity with the most coins, starting from −1;
  - enumeration of (owner, coin) pairs in list order;
  - the insertion-ordered per-owner ledger of totals.
- `user_model.dfy` (`UserModel`) and `app_user_model.dfy` (`AppUserModel`): the two schemas, with their required fields, defaults, the category enum and the pre-save password rule.
- `users_routes.dfy` (`UsersRoutes`): the `/users` highlights, average-profits, listing, coin update and favourite routes.
  - `UserStore` is a class whose `users` field the updates reassign.
- `app_user_aggregates.dfy` (`AppUserAggregates`): the admin and per-user average-profits and highlights routes of the account router.
- `latest_coins.dfy` (`LatestCoins`): the process-wide quote cache with its 60-second time to live, and the latest-coins listing.
  - `QuoteCache` is a class whose `entries` map the pricing loop updates.
- `app_user_edits.dfy` (`AppUserEdits`): the edits on embedded lists and the favourite filters, as functions on values. It also holds the e-mail regular expression.
- `account_routes.dfy` (`AccountRoutes`): the account router's edit routes, as functions from a store of accounts to an outcome and a new store.
  - `AccountStore` is a class whose `accounts` field each route method reassigns. Each method is proved equal to its function.

How the model reads the source:

- **Outcomes.** Each route returns `Ok(body)`, or `Fail(status)` with 400, 403, 404 or 500. A Mongoose `CastError`, thrown when a path id is not a 24-hex-digit ObjectId, becomes the status of the route's own `catch`.
- **Fetches and highlight folds.** Market-data fetches come from an oracle `dex: string -> Fetch`. Where the source awaits fetches concurrently and folds the results as they settle, the model folds them in enumeration order: entity order, then coin order.
- **Persistence.** A collection is a sequence in natural order. `findById` is the first match by id, and `findOne({role: "admin"})` is the first admin.
- **Fresh ObjectIds and time.** A new ObjectId is a parameter (`newId`). `Date.now()` is a parameter (`now`), or a `clock` indexed by loop iteration.
- **Shared route functions.**
  - `SetCoinFavoriteOf`, called with the requester's own id, also describes the admin coin favourite toggles at `routes/appUser.js:449-506`. Those routes look up the requester's own account and its influencer, not the admin's.
  - `SetOwnInfluencerFavoriteOf` likewise describes the admin influencer favourite toggles at `routes/appUser.js:403-446`.

Behaviour of the code as written that its documentation does not state. The model follows the code in each case, and the member named models it; none of this was observed on a running server, it is read off the source:

- `UsersRoutes.UserStore.SetCoinFavorite`: the `/users` coin favourite toggles (`routes/users.js:206-235`) assign `isFavorite` on a coin whose schema has no such path. Strict mode drops the assignment, so they change nothing and answer with the coin as stored.
- `AppUserAggregates.AdminHighlightsRoute`: the admin highlights route reads `appUser._id` before it checks for a missing admin, so with no admin it answers 500, not 404.
- `AccountRoutes.SubscribeEmailOf`: the e-mail subscription route validates and answers, but the account schema has no `email` path, so nothing is stored.
- `AccountRoutes.SetOwnInfluencerFavoriteOf`: the admin influencer favourite toggles answer 500 when the influencer is missing, because `null.isFavorite` throws.
- `AccountRoutes.SetInfluencerFavoriteOf`: the account influencer favourite toggles answer 500 when the account is missing, for the same reason.
- `AccountRoutes.AdminFavoriteCoinsOf`, `AppUserAggregates.AdminAverageProfits` and `AppUserAggregates.AdminHighlightsRoute`: `GET /admin-influencers/:influencerId` (`routes/appUser.js:536-561`) is registered before `/admin-influencers/average-profits` (:564), `/admin-influencers/highlights` (:633) and `/admin-influencers/favorites` (:748). Express dispatches to the first matching route, so an authenticated request for any of the three reaches the `:influencerId` handler instead. Its `findOne` on `"influencers._id"` cannot cast the literal segment, so the answer is 500. Routing is not modelled: these members describe the three handlers' own bodies.

## Model

| member | source | states |
|---|---|---|
| Common.FirstIndex | routes/appUser.js:1049 | the subdocument `.id()` lookup, with ids compared as exact strings: None exactly when no element carries the id; otherwise the index of the first element that carries it |
| Profit.PercentChange | routes/users.js:331 | the percentage is positive iff the value rose (for a positive share) and zero iff it is unchanged |
| Profit.PercentChangeRecoversCurrent | routes/users.js:331 | the percentage p carries the share value to the current one: current = share + share·p/100 |
| Profit.CapProfit | routes/users.js:327-331 | a profit exists iff both market caps are truthy |
| Profit.CapProfitRecoversCurrent | routes/users.js:327-331 | an existing profit is the percentage change from the share cap to the current cap |
| Profit.PriceProfit | routes/appUser.js:374-386 | the latest-coins profit is 0 unless both prices are truthy |
| Profit.PriceProfitRecoversCurrent | routes/appUser.js:374-386 | with both prices truthy, the profit is the percentage change from the share price to the current price |
| Profit.PercentChangeExamples | routes/users.js:331 | concrete values: a cap rising from 100 to 150 gives 50, halving gives −50, unchanged gives 0 |
| Profit.ZeroShareCapIsSkipped | routes/users.js:327-329 | a missing or zero share cap never yields a profit (no division by zero) |
| Reduce.Mean | routes/appUser.js:1460 | an average exists iff at least one result is valid (otherwise the division would be by zero) |
| Reduce.SkippedCoinIsIgnored | routes/users.js:344-345 | removing a null result changes neither the total, nor the count, nor the mean |
| Reduce.NoValidSumsToZero | routes/appUser.js:1445-1460 | with no valid entry the total is 0 |
| Reduce.MeanIsBetweenValidProfits | routes/users.js:444-445 | some valid profit is at most the mean and some valid profit is at least the mean |
| Reduce.ArgMax | routes/users.js:362-370 | the strict-`>` fold from −∞ selects an index iff some entry is valid; the selected entry is maximal and every earlier valid entry is strictly smaller |
| Reduce.FirstMaxIsUnique | routes/users.js:362 | at most one index is the first maximum, so the strict-`>` winner is determined |
| Reduce.MostCoins | routes/users.js:279-285 | the strict-`>` fold from −1 selects nothing iff there are no entities, and then reports −1; otherwise the reported count is the selected entity's count |
| Reduce.MostCoinsIsFirstMaximum | routes/users.js:279-285 | on a non-empty list the selected entity has the largest count, strictly more than every earlier one |
| Reduce.EnumerateCovers | routes/users.js:279-293 | every (entity, coin) cell appears in the enumeration, tagged with its entity |
| Reduce.EnumerateAt | routes/users.js:279-293 | the cell of entity i and coin j sits at position (number of coins of earlier entities) + j |
| Reduce.EnumerateSound | routes/users.js:287-292 | every enumerated item is a coin of the entity it is tagged with |
| Reduce.EnumerateOrder | routes/users.js:279-293 | every coin of an earlier entity comes before every coin of a later entity |
| Reduce.FirstBestCell | routes/users.js:339-370 | the argmax over the enumerated profits picks the first cell, in entity-then-coin order, whose profit is maximal |
| Reduce.ValidOwnersExactly | routes/users.js:350-356 | an owner enters the ledger iff one of its results is valid, and owners enter in increasing entity order |
| Reduce.LedgerOfEnumeration | routes/users.js:344-360 | folding the enumerated results gives, per owner, the sum and count of its valid profits, with insertion order = entity order |
| Reduce.ArgMaxOverValidOwners | routes/users.js:374-385 | the first-wins argmax over the ledger's owners picks the same owner as the argmax over all entities' means |
| Reduce.LedgerEntryMean | routes/users.js:375-376 | a ledger entry's total over its count is that owner's mean |
| UserModel.ParseCategory | User.js:16-20 | a category string is accepted iff it is one of the three enum values, and then names that value |
| UserModel.CategoryRoundTrip | User.js:16-20 | parsing a category's name gives the category back |
| UserModel.ValidateCoin | User.js:4-11 | a coin input is saved iff all six fields are present (strings non-empty), and the saved coin carries exactly those values |
| UserModel.ValidateUser | User.js:13-23 | a user saves iff name and twitter are present, the category is valid and every coin is valid; `isFavorite` defaults to false |
| UserModel.RevalidationKeepsUser | User.js:4-23 | re-validating a well-formed stored user gives back the same user |
| AppUserModel.NewCoin | models/AppUser.js:4-12 | a new coin keeps the given fields, and `isFavorite` is true only when given as true (default false) |
| AppUserModel.NewInfluencer | models/AppUser.js:14-19 | an influencer keeps its ordered coin list, and `isFavorite` defaults to false |
| AppUserModel.PasswordAfterSave | models/AppUser.js:37-43 | the stored password is re-hashed iff the document is new or the password was modified |
| AppUserModel.ResaveKeepsHash | models/AppUser.js:37-43 | saving again without changing the password leaves the stored hash alone |
| AppUserModel.CreateAppUser | models/AppUser.js:21-32 | creation is rejected iff the username or password is missing or the username is taken; otherwise role defaults to `appUser`, isActive to true, createdAt to now, pushSubscription to null, influencers to empty |
| AppUserModel.CreatedAccountAcceptsItsPassword | models/AppUser.js:45-48 | a created account's stored password matches the password it was created with |
| AppUserModel.RegistrationDefaults | models/AppUser.js:24-31 | creating with only a username and password gives exactly the defaulted account |
| UsersRoutes.CoinProfit | routes/users.js:324-336 | a coin yields a profit iff its share cap and the fetched first pair's cap are both truthy; a thrown or empty fetch yields none |
| UsersRoutes.CoinProfitRecoversCap | routes/users.js:324-336 | a coin's profit is the percentage change from its share cap to the first pair's cap |
| UsersRoutes.ComputeHighlights | routes/users.js:263-396 | the imperative handler returns the highlights specified by the three folds |
| UsersRoutes.CollectCoins | routes/users.js:279-293 | the loop finds the first user with the most coins and builds the (user, coin) list in order |
| UsersRoutes.FoldResults | routes/users.js:339-371 | the loop over results builds the per-user ledger of valid profits and the highest-profit coin |
| UsersRoutes.HighestAverage | routes/users.js:374-385 | the loop over the ledger picks the user with the highest average |
| UsersRoutes.WalkAverages | routes/users.js:374-385 | over any ledger whose entries average to the given means, the `for...in` walk with strict `>` keeps the first key with the greatest mean, as `ArgMaxOver` selects it |
| UsersRoutes.HighestProfitCoinIsFirstBest | routes/users.js:362-370 | `highestProfitCoin` is null iff no coin is valid; otherwise it is the first coin, in user-then-coin order, with maximal profit, tagged with that user's name and id |
| UsersRoutes.MostCoinsUserIsFirstWithMost | routes/users.js:279-285 | `mostCoinsUser` is null iff there are no users; otherwise it is the first user with the largest coin count |
| UsersRoutes.UserMeanExists | routes/users.js:376 | a user has an average iff one of its coins is valid |
| UsersRoutes.HighestAverageIsFirstBestMean | routes/users.js:342-385 | `highestAvgProfitUser` is null iff no coin is valid; otherwise it is the earliest user with a valid coin whose mean is maximal, carrying that mean |
| UsersRoutes.UserTotals | routes/users.js:414-442 | the per-coin loop computes the user's sum and count of valid profits; a lookup that throws or finds no pair skips only that coin |
| UsersRoutes.AverageProfits | routes/users.js:399-459 | the nested loop returns the listing specified by `AverageProfitsOf` |
| UsersRoutes.AverageProfitsListing | routes/users.js:406-451 | the listing holds, in user order, exactly the users with a valid coin, each with its id, name and mean valid profit |
| UsersRoutes.FavoriteUsers | routes/users.js:466-467 | the result holds only favourite users and is no longer than the stored list |
| UsersRoutes.FavoriteUsersCounts | routes/users.js:466-467 | the favourite filter keeps every favourite user with its multiplicity and drops every other |
| UsersRoutes.FavoriteUsersAppend | routes/users.js:466-467 | the filter of two stored runs is the filter of the first followed by that of the second, so stored order is kept |
| UsersRoutes.ToggleUserFavorite | routes/users.js:466-467 | every user is listed at its own place among the favourites, and setting its flag adds or drops it there only |
| UsersRoutes.ListUsers | routes/users.js:462-475 | with `favorite=true` the list is exactly the favourite users, otherwise all users |
| UsersRoutes.FavoriteFlagDecidesListing | routes/users.js:143-155 | after setting a user's flag, the user is in the favourite listing iff the flag is true |
| UsersRoutes.UpdateCoinIn | routes/users.js:158-188 | 404 iff the user or the coin is missing; 400 for a malformed id or a missing share field (the save fails); otherwise exactly the three share fields are overwritten and the store is otherwise unchanged |
| UsersRoutes.UpdateCoinKeepsStoreValid | routes/users.js:175-181 | a coin update keeps ids unique and every stored user well formed |
| UsersRoutes.UserStore.SetFavorite | routes/users.js:143-155 | 500 for a malformed id, 404 for a missing user, otherwise only that user's flag changes and the updated user is returned |
| UsersRoutes.UserStore.UpdateCoin | routes/users.js:158-188 | the method's reply and new store are those of `UpdateCoinIn` |
| UsersRoutes.UserStore.SetCoinFavorite | routes/users.js:206-235 | 500 when the user is missing, 404 when the coin is missing, otherwise the coin as stored (the schema drops `isFavorite`) |
| AppUserAggregates.CoinProfit | routes/appUser.js:1558-1576 | a coin contributes iff its share cap and the first pair's cap are both truthy, and only when a first pair was found |
| AppUserAggregates.CoinProfitRecoversCap | routes/appUser.js:1558-1576 | a contributing coin's profit is the percentage change from its share cap to the first pair's cap |
| AppUserAggregates.EnumeratedProfitsAreRows | routes/appUser.js:657-667 | the profits of the enumerated coin list are the influencers' profit rows concatenated |
| AppUserAggregates.FindAdmin | routes/appUser.js:566 | the first admin account, None iff there is no admin |
| AppUserAggregates.InfluencerTotals | routes/appUser.js:1434-1453 | the per-coin loop computes the influencer's sum and count of valid profits |
| AppUserAggregates.AdminAverageProfits | routes/appUser.js:564-630 | the handler's loops give the outcome specified by `AdminAverageOf` |
| AppUserAggregates.AdminAverageMeaning | routes/appUser.js:564-630 | 404 iff there is no admin or none of its coins is valid; otherwise the average lies between the smallest and largest valid coin profit of the admin's influencers |
| AppUserAggregates.MeanBetweenCoinProfits | routes/appUser.js:618-622 | the overall mean is bounded below and above by actual valid coin profits |
| AppUserAggregates.CollectCoins | routes/appUser.js:657-667 | the loop finds the first influencer with the most coins and builds the (influencer, coin) list in order |
| AppUserAggregates.MostCoinsIsFirstWithMost | routes/appUser.js:657-662 | `mostCoinsInfluencer` is null iff there are no influencers; otherwise it is the first influencer with the largest count, and that count is reported |
| AppUserAggregates.HighestProfitCoinIsFirstBest | routes/appUser.js:696-712 | `highestProfitCoin` is null iff no coin is valid; otherwise it is the first coin with maximal profit, tagged with its influencer's name |
| AppUserAggregates.AdminFold | routes/appUser.js:669-717 | the fold over the coin list computes the valid total, the valid count and the highest-profit coin |
| AppUserAggregates.AdminHighlightsRoute | routes/appUser.js:633-744 | the handler returns the outcome specified by `AdminHighlightsOf` |
| AppUserAggregates.AdminHighlightsAgreeWithAverage | routes/appUser.js:719-720 | admin highlights fail iff there is no admin; the reported average is null iff the admin average route fails, and otherwise equals it |
| AppUserAggregates.InfluencerProfits | routes/appUser.js:1412-1458 | one entry per influencer, in order, with its valid profit total and its coin count |
| AppUserAggregates.UserAverageProfits | routes/appUser.js:1397-1478 | the handler returns the outcome specified by `UserAverageOf` (500 on a malformed id, 404 on a missing account) |
| AppUserAggregates.AllTotals | routes/appUser.js:1412-1458 | the per-influencer totals add up to the sum of all valid profits |
| AppUserAggregates.NoValidCoinZeroTotals | routes/appUser.js:1445-1453 | with no valid coin, every influencer's total is 0 |
| AppUserAggregates.UserAverageIsMeanOfEntries | routes/appUser.js:1460-1468 | the reported average is the sum of the influencer totals over the valid count, and exactly 0 when nothing is valid |
| AppUserAggregates.FoldBuildsExpectedLedger | routes/appUser.js:1533-1585 | folding the results in enumeration order gives each influencer's valid total and count |
| Reduce.Credit | routes/users.js:350-360 | crediting one valid profit adds it to its owner's total and count, created at zero on first use; under any key order the result is the recorded ledger, with a new owner appended to the order (the same update as `(totalProfit \|\| 0) + profitPercentage` at routes/appUser.js:1579-1580) |
| AppUserAggregates.UserFold | routes/appUser.js:1533-1585 | the fold computes the highest-profit coin and the per-influencer tallies |
| AppUserAggregates.HighestAverage | routes/appUser.js:1588-1599 | the walk over the tallies picks the influencer with the highest average |
| AppUserAggregates.UserHighlightsRoute | routes/appUser.js:1481-1621 | the handler returns the outcome specified by `UserHighlightsOf` |
| AppUserAggregates.InfluencerMeanExists | routes/appUser.js:1579-1599 | an influencer has an average iff one of its coins is valid (otherwise its NaN average never wins) |
| AppUserAggregates.HighestAverageIsFirstBestMean | routes/appUser.js:1579-1599 | the highest-average influencer is null iff no coin is valid; otherwise it is the earliest influencer with maximal mean, with that mean |
| AppUserAggregates.UserHighlightsNotFound | routes/appUser.js:1485-1527 | 404 iff the id is well formed and the account is missing or none of its influencers holds a coin |
| LatestCoins.Lookup | routes/appUser.js:334-369 | an entry is served iff present and at most 60 000 ms old; otherwise a fetch with a first pair overwrites it stamped `now`, while a throw or an empty answer leaves the cache unchanged (a throw clears the quote) |
| LatestCoins.RepeatWithinTtlIsServed | routes/appUser.js:10-11 | a quote fetched at t1 is served unchanged from the cache at any t2 ≤ t1 + 60 000 |
| LatestCoins.ListedCoinsAreTheInfluencersCoins | routes/appUser.js:317-328 | the flattened listing holds every coin of every admin influencer, tagged with its name and id, and nothing else |
| LatestCoins.GatherCoins | routes/appUser.js:317-328 | the nested loop builds that listing |
| LatestCoins.InsertByDatePermutes | routes/appUser.js:330 | inserting into the sorted list adds exactly that coin |
| LatestCoins.InsertByDateKeepsOrder | routes/appUser.js:330 | insertion keeps the list newest-first |
| LatestCoins.InsertByDateIsStable | routes/appUser.js:330 | insertion keeps coins with equal dates in arrival order |
| LatestCoins.SortByDateIsStableSort | routes/appUser.js:330 | the sort yields a newest-first permutation that keeps equal dates in their original order |
| LatestCoins.PriceAllPrefix | routes/appUser.js:333-371 | the quotes of the first m coins do not depend on later coins |
| LatestCoins.QuoteMeaning | routes/appUser.js:336-369 | a coin without an address gets no quote; a cleared quote means the fetch threw; a successful fetch always yields a quote |
| LatestCoins.PricingTouchesOnlyListedAddresses | routes/appUser.js:333-369 | the cache only grows, and only at listed addresses; other entries are untouched |
| LatestCoins.QuoteCache.PriceCoins | routes/appUser.js:333-371 | the loop's quotes and new cache are those of `PriceAll` on the old cache |
| LatestCoins.LatestCoinsRoute | routes/appUser.js:310-397 | the handler's reply and new cache are those of `LatestCoinsOf` |
| LatestCoins.LatestCoinsListing | routes/appUser.js:310-397 | 404 iff there is no admin, and then the cache is unchanged; otherwise the listing is a newest-first, stable permutation of all the admin's coins |
| LatestCoins.LatestCoinsQuotes | routes/appUser.js:374-386 | a nonzero profit means both prices are truthy and it is their percentage change; quote failures follow the fetch outcome |
| AppUserEdits.PullCoins | routes/appUser.js:1180 | pulling never lengthens the list |
| AppUserEdits.PullKeepsOthers | routes/appUser.js:1180 | every coin with another id survives the pull |
| AppUserEdits.PullRemovesId | routes/appUser.js:1180 | no coin with the pulled id remains |
| AppUserEdits.PullAbsentId | routes/appUser.js:297 | pulling an id that is not present changes nothing |
| AppUserEdits.PushThenPull | routes/appUser.js:1082-1086 | pulling a freshly pushed coin restores the list |
| AppUserEdits.PullUniqueId | routes/appUser.js:1180 | pulling a unique id removes exactly that position |
| AppUserEdits.UpdateShares | routes/appUser.js:1269-1271 | only the three share fields may change; each takes the body's value iff that value is truthy (the date iff it is given) and keeps the stored one otherwise, so a truthy field stays truthy |
| AppUserEdits.FalsyUpdateKeepsCoin | routes/appUser.js:248-250 | an update with all-falsy values leaves the coin unchanged |
| AppUserEdits.TruthyUpdateSetsAll | routes/appUser.js:1269-1271 | an update with all values truthy sets all three |
| AppUserEdits.UpdateSharesIdempotent | routes/appUser.js:1269-1271 | applying the same update twice equals applying it once |
| AppUserEdits.FavoriteInfluencers | routes/appUser.js:1350-1352 | the filter keeps only favourites and never lengthens the list |
| AppUserEdits.FavoriteInfluencersAppend | routes/appUser.js:1350-1352 | the filter distributes over concatenation |
| AppUserEdits.ToggleInfluencerFavorite | routes/appUser.js:1220 | setting one influencer's flag adds it to, or drops it from, the favourites at its position, leaving the rest as they were |
| AppUserEdits.FavoritesIn | routes/appUser.js:1374-1386 | the favourite coins of one influencer are favourites, tagged with that influencer |
| AppUserEdits.ToggleCoinFavorite | routes/appUser.js:1303 | setting one coin's flag adds it to, or drops it from, the favourite coins at its position |
| AppUserEdits.FavoriteCoinsExactly | routes/appUser.js:765-776 | the favourite-coin listing contains exactly the favourite coins of the influencers, each tagged with its influencer |
| AppUserEdits.CollectFavoriteCoins | routes/appUser.js:1374-1386 | the nested loop builds that listing |
| AppUserEdits.LooksLikeEmailIsThePattern | routes/appUser.js:824 | the decision procedure accepts a string iff some substring of it matches `\S+@\S+\.\S+` (unanchored, `\S` any character outside JavaScript's `\s` class, so `@` included: "a@b@c.d" is accepted) |
| AppUserEdits.MissingEmailFailsCheck | routes/appUser.js:824-825 | a missing e-mail, tested as the text "undefined", fails the check |
| AccountRoutes.LocateInfluencer | routes/appUser.js:1045-1049 | a malformed account id is a cast failure; otherwise the first account with the id, then its first influencer with the id, or which of the two is missing |
| AccountRoutes.LocateCoin | routes/appUser.js:1169-1174 | after locating the influencer, the first coin with the id, or that none has it |
| AccountRoutes.AdminGate | routes/appUser.js:23 | the requester passes iff the first account with its id has role `admin`; a malformed id gives the route's catch status, any other failure 403 |
| AccountRoutes.AdminWith | routes/appUser.js:124-133 | the first admin holding the influencer, None iff no admin holds it |
| AccountRoutes.AdminLocateInfluencer | routes/appUser.js:124-133 | a malformed influencer id is a cast failure; otherwise the influencer inside the first admin that holds it |
| AccountRoutes.AdminLocateCoin | routes/appUser.js:229-243 | after locating the admin's influencer, the first coin with the id, or that none has it |
| AccountRoutes.PushFetched | routes/appUser.js:1058-1086 | a throw, an empty answer or a missing date gives 400 with the store unchanged; otherwise a coin with the first pair's symbol and name, `isFavorite` false, is appended to exactly that influencer |
| AccountRoutes.AddCoinOf | routes/appUser.js:1039-1096 | 404 iff the account or influencer is missing; success iff the influencer is found, the fetch has a pair and a date is given; failures leave the store unchanged |
| AccountRoutes.AdminAddCoinOf | routes/appUser.js:109-210 | a non-admin is refused by the gate; once it passes, a malformed influencer id answers 400 and an influencer no admin holds 404; success iff an admin holds the influencer, the fetch has a pair and a date is given |
| AccountRoutes.UpdateAt | routes/appUser.js:1264-1276 | the located coin receives the falsy-fallback update; nothing else in the store changes and all ids stay put |
| AccountRoutes.UpdateCoinOf | routes/appUser.js:1250-1280 | 500 iff the account id is malformed (`findById` casts it); a malformed influencer or coin id is looked up by `.id()`, finds nothing and answers 404; success iff the coin is found, and then the store is updated at exactly that coin |
| AccountRoutes.AdminUpdateCoinOf | routes/appUser.js:213-259 | a non-admin is refused; once the gate passes, a malformed influencer id answers 500 and a missing influencer or coin 404; success iff the coin is found in the first admin holding the influencer |
| AccountRoutes.PullAt | routes/appUser.js:1180-1181 | the pull changes only the one influencer's coin list, which afterwards holds no coin with the id |
| AccountRoutes.DeleteCoinOf | routes/appUser.js:1159-1190 | 500 iff the account id is malformed (`findById` casts it); a malformed influencer or coin id is looked up by `.id()`, finds nothing and answers 404; success iff the coin is found, and then the coin is pulled; failures leave the store unchanged |
| AccountRoutes.AdminDeleteCoinOf | routes/appUser.js:262-307 | a non-admin is refused; once the gate passes, a malformed influencer id answers 500 and a missing influencer or coin 404; success iff the coin is found, then the coin is pulled |
| AccountRoutes.SetInfluencerFavoriteOf | routes/appUser.js:1210-1247 | 500 for a malformed id or missing account, 404 for a missing influencer; otherwise only that influencer's flag changes and it is returned |
| AccountRoutes.SetOwnInfluencerFavoriteOf | routes/appUser.js:403-446 | 404 for a missing account, 500 for a malformed id or missing influencer; otherwise the reply is success and only that influencer's flag changes |
| AccountRoutes.SetCoinFavoriteOf | routes/appUser.js:1283-1340 | 500 iff the account id is malformed (`findById` casts it); a malformed influencer or coin id is looked up by `.id()`, finds nothing and answers 404; success iff the coin is found, and then only that coin's flag changes and it is returned |
| AccountRoutes.FavoriteInfluencersOf | routes/appUser.js:1343-1357 | 500 iff the id is malformed, 404 iff the account is missing, otherwise its favourite influencers |
| AccountRoutes.FavoriteCoinsRouteOf | routes/appUser.js:1360-1393 | 500 iff the id is malformed, 404 iff the account is missing, otherwise its favourite coins tagged with their influencers |
| AccountRoutes.AdminFavoriteCoinsOf | routes/appUser.js:748-786 | succeeds iff the gate passes, and then lists the requester's favourite coins |
| AccountRoutes.SubscribeEmailOf | routes/appUser.js:815-846 | 400 iff the e-mail fails the pattern; then 500 for a malformed id, 404 for a missing account and success iff the account exists; the store is never changed |
| AccountRoutes.SameIdsLocateAlike | routes/appUser.js:1049 | stores with the same ids locate every influencer identically |
| AccountRoutes.AddThenDeleteRestores | routes/appUser.js:1082-1086 | deleting a coin just added under a fresh id succeeds and restores the original store |
| AccountRoutes.DeleteTwiceIsNotFound | routes/appUser.js:1174-1178 | deleting the same coin again answers 404 and changes nothing |
| AccountRoutes.DeleteKeepsOtherCoins | routes/appUser.js:1180 | every other coin of the influencer survives a delete |
| AccountRoutes.UpdateAtKeepsLocation | routes/appUser.js:1259-1264 | after an update the same ids locate the same coin |
| AccountRoutes.UpdateTwiceIsOnce | routes/appUser.js:1250-1280 | repeating a successful update answers the same and changes nothing more |
| AccountRoutes.FavoritedCoinIsListed | routes/appUser.js:1303 | a coin just marked favourite appears in the account's favourite-coin listing |
| AccountRoutes.InfluencerFlagShowsInFavorites | routes/appUser.js:1220 | after setting an influencer's flag, the favourites listing holds it at its position iff the flag is true, and is otherwise unchanged |
| AccountRoutes.OwnInfluencerFlagMatchesAccountFlag | routes/appUser.js:414-415 | the admin influencer toggle changes the store exactly as the account influencer toggle does, and succeeds in the same cases |
| AccountRoutes.NonAdminIsForbidden | routes/appUser.js:116 | a well-formed requester that is not an admin gets 403 from every admin edit route, and the store is unchanged |
| AccountRoutes.MissingEmailIsRejected | routes/appUser.js:824-825 | a request without an e-mail answers 400 |
| AccountRoutes.AccountStore.PushCoin | routes/appUser.js:1082-1086 | the method's reply and new store are those of `PushFetched` |
| AccountRoutes.AccountStore.AddCoin | routes/appUser.js:1039-1096 | the method's reply and new store are those of `AddCoinOf` |
| AccountRoutes.AccountStore.AdminAddCoin | routes/appUser.js:109-210 | the method's reply and new store are those of `AdminAddCoinOf` |
| AccountRoutes.AccountStore.UpdateSharesAt | routes/appUser.js:1269-1271 | the three conditional field assignments produce the store of `UpdateAt` |
| AccountRoutes.AccountStore.UpdateCoin | routes/appUser.js:1250-1280 | the method's reply and new store are those of `UpdateCoinOf` |
| AccountRoutes.AccountStore.AdminUpdateCoin | routes/appUser.js:213-259 | the method's reply and new store are those of `AdminUpdateCoinOf` |
| AccountRoutes.AccountStore.DeleteCoin | routes/appUser.js:1159-1190 | the method's reply and new store are those of `DeleteCoinOf` |
| AccountRoutes.AccountStore.AdminDeleteCoin | routes/appUser.js:262-307 | the method's reply and new store are those of `AdminDeleteCoinOf` |
| AccountRoutes.AccountStore.SetInfluencerFavorite | routes/appUser.js:1210-1247 | the method's reply and new store are those of `SetInfluencerFavoriteOf` |
| AccountRoutes.AccountStore.SetOwnInfluencerFavorite | routes/appUser.js:403-446 | the method's reply and new store are those of `SetOwnInfluencerFavoriteOf` |
| AccountRoutes.AccountStore.SetCoinFavorite | routes/appUser.js:1283-1340 | the method's reply and new store are those of `SetCoinFavoriteOf` |
| AccountRoutes.AccountStore.FavoriteInfluencersRoute | routes/appUser.js:1343-1357 | the method answers `FavoriteInfluencersOf` on the current store |
| AccountRoutes.AccountStore.FavoriteCoinsRoute | routes/appUser.js:1360-1393 | the loop answers `FavoriteCoinsRouteOf` on the current store |
| AccountRoutes.AccountStore.AdminFavoriteCoins | routes/appUser.js:748-786 | the loop answers `AdminFavoriteCoinsOf` on the current store |
| AccountRoutes.AccountStore.SubscribeEmail | routes/appUser.js:815-846 | the method answers `SubscribeEmailOf` on the current store |

## Left out

- Persistence, Express routing and response bodies are not modelled. Documents are values in sequences. Message-only bodies are `()`. The admin coin toggles' `{message, coin}` body is the coin alone.
- The market-data service is modelled as an oracle (`Dex`). HTTP, timeouts and response parsing are not modelled.
- Concurrency is modelled as sequential folds in enumeration order.
  - The highlights routes fold results as their promises settle. The model folds them in enumeration order.
  - AppUserAggregates.AdminAverageProfits and AppUserAggregates.AdminAverageMeaning: in the admin average route (`routes/appUser.js:577-616`), `.flat()` over promises of arrays leaves the inner coin promises unawaited, so the counters are read before any fetch settles. The model reads the route as its authors evidently meant it: the mean over all valid coins.
- The per-request `coinMarketCapCache` objects are not modelled. The oracle is a function, so a cached value always equals a fresh lookup.
- IEEE floating point is not modelled. This covers `parseFloat`, NaN, Infinity and rounding: numbers are `real`, and NaN appears only as the "no valid coin" case it causes.
- `Date` parsing is not modelled. `shareDate` is an integer timestamp.
  - A missing `shareDate` makes the sort comparator return NaN, and that case is not modelled.
  - A truthy but unparsable `shareDate` in an update makes the save fail with 500, and that case is not modelled either.
- A 12-character string is also a valid ObjectId to Mongoose; only the 24-hex-digit form is modelled.
- Common.FirstIndex: ids are compared as exact strings. Mongoose casts a 24-hex-digit id to the same 12 bytes whatever the case of its hex digits, so `findById`, `findOne` on an embedded `_id` and `.id()` find a document whose id differs from the path id only in hex-digit case. The model answers 404 there. This reaches every lookup built on `FirstIndex`: `UsersRoutes.UserStore.SetFavorite`, `UsersRoutes.UpdateCoinIn`, `AccountRoutes.LocateInfluencer`, `AccountRoutes.LocateCoin`, `AccountRoutes.AdminWith`, `AccountRoutes.FavoriteInfluencersOf`, `AccountRoutes.FavoriteCoinsRouteOf`, `AccountRoutes.SubscribeEmailOf` and the per-user and per-account average and highlights routes.
- `userName` and `appUser.name` in the highlight bodies read paths the schemas do not declare. Those always-undefined fields are not modelled.
- bcrypt, JWT, the authentication middleware, e-mail sending, web-push notifications, the RSS news route and server start-up are I/O and are not modelled. The hash function is a parameter.
- These influencer and account routes are plain lookups, inserts or removals of whole documents, outside the coin logic, and are not modelled:
  - admin influencer add and delete: `routes/appUser.js:19-106`;
  - admin influencer get and coin list: `routes/appUser.js:509-561`;
  - admin influencer list: `routes/appUser.js:789-812`;
  - unsubscribe: `routes/appUser.js:849-875`;
  - get account: `routes/appUser.js:878-896`;
  - influencer add, list, delete and get: `routes/appUser.js:899-1036` and `routes/appUser.js:1647-1665`;
  - influencer favourites by query: `routes/appUser.js:1624-1644`.
- The top-level account coin routes (`routes/appUser.js:1099-1156`, `routes/appUser.js:1193-1207`) write a `coins` path the account schema does not declare, and are not modelled.
- The e-mail notifications sent after an admin coin is added are not modelled.
- These `/users` routes are plain Mongoose calls with no logic of their own, and are not modelled:
  - create, delete and get user;
  - add coin;
  - delete coin;
  - list by category;
  - the favourite-coins aggregation pipeline.
- `LatestCoins.QuoteCache.PriceCoins` does not mutate the listed coin objects in place. Each coin's quote is returned alongside it, and `LatestCoins.LatestCoinsRoute` pairs them up.
- `LatestCoins.SortByDate` is an insertion sort on a sequence, not the engine's in-place `Array.prototype.sort`. Its contract is the outcome a stable sort guarantees.
- Fresh ObjectIds are a parameter (`newId`); their generation is not modelled.
