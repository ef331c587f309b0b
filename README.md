# SpaceMiner expeditions, shop, wheel and leaderboard — a Dafny model

SpaceMiner is a browser game served by an Express application over SQLite.
A player picks a planet and starts an **expedition** with a countdown. While
it runs they mine, explore and auto-collect resources, and server-side
**danger** events may strike. The expedition ends in one of two ways: the
player returns to the ship (success when on time), or the time runs out,
in which case an **insurance** upgrade recovers part of the loot. The
settlement credits the inventory, the currency and the monthly
**leaderboard**. Around this sit:

- a **shop** of upgrades (suit autonomy, drone collection bonus, insurance);
- a **fortune wheel** whose rewards are drawn by probability;
- the leaderboard routes;
- the bearer-token middleware that guards every route;
- the seeding of the catalogue tables.

The browser side keeps its own copies of the state: the collected-loot list
it merges, the countdowns, the inventory filter, the wheel's spin state and
the planet cards.

The model is in two halves.

**Server.** The store is one class `Schema.Database` whose tables are
sequence and map fields. Each route is a pure function
`XOutcome(tables, …)` giving the reply and the tables afterwards, together
with a method `X(db, …)` that `modifies db` and is proved to equal that
function. What the routes promise is proved as lemmas about the functions:

- at most one active expedition per user;
- exactly one settlement per expedition;
- the inventory gains exactly the credited quantities (conservation);
- insurance never pays more than success;
- leaderboard sums follow every settlement;
- the seeded wheel is a probability distribution;
- purchased spins pay for premium spins;
- and more, listed in the table below.

Inputs that are not part of the state become parameters:

- the authenticated user;
- the clock (milliseconds since the epoch);
- the current month and year;
- every `Math.random()` value, as a real in [0, 1).

**Client.** Each browser module that keeps state is a class with that
state as fields:

- `ClientExpedition.ExpeditionView`
- `ClientUi.CountdownView`
- `ClientInventory.InventoryView`
- `ClientWheel.WheelView`
- `ClientPlanets.PlanetsView`

Timers are flags saying whether they are set. Server replies and the
connection check are parameters. The methods are proved against
specification functions (`Merged`, `Total`, `FilterItems`, `GroupBy`,
`IconList`), and the properties are proved about those functions.

Files:

| file | module | models |
|---|---|---|
| wrappers.dfy | Wrappers | Option / Result |
| text.dfy | Text | `split`, `indexOf`, `toLowerCase`, `padStart`, number ↔ decimal text, `parseInt` |
| collections.dfy | Collections | `filter`, the `reduce` that groups by a key, min/max |
| ordering.dfy | Ordering | `ORDER BY key DESC LIMIT n` |
| sampler.dfy | Sampler | the weighted draw and every quantity derived from `Math.random()` |
| schema.dfy | Schema | database/db.js: tables, seeding, the shared lookups |
| auth.dfy | Auth | middleware/auth.js |
| expedition_store.dfy | Expeditions | the store-level functions of routes/expeditions.js |
| expedition_routes.dfy | ExpeditionRoutes | routes/expeditions.js handlers |
| fortune_wheel.dfy | FortuneWheel | routes/fortuneWheel.js |
| shop.dfy | Shop | routes/shop.js |
| leaderboard.dfy | Leaderboard | routes/leaderboard.js |
| planets.dfy | Planets | routes/planets.js |
| client_labels.dfy | ClientLabels | rarity names and icon rows shared by the browser modules |
| client_expedition.dfy | ClientExpedition | public/js/expedition.js |
| client_ui.dfy | ClientUi | public/js/ui.js |
| client_inventory.dfy | ClientInventory | public/js/inventory.js |
| client_wheel.dfy | ClientWheel | public/js/fortune-wheel.js |
| client_planets.dfy | ClientPlanets | public/js/planets.js |

### Where the model follows the code rather than the design description

- **Upgrade expiry.** The design says only active, unexpired upgrades count.
  Every upgrade query in the routes filters on `active = 1` alone, so
  `Schema.OwnedBoosts` ignores the expiry date.
- **Per-user serialisation.** The design asks for it. The handlers run
  several `await`ed statements with no transaction; the model runs each
  handler as one atomic step.
- **Planet–resource table.** The seeding never fills `planet_resources`.
  On the seeded catalogue every planet spawns nothing, so `/mine` and
  `/explore` answer 404 ("No resources available on this planet"). The
  model keeps the table as a parameter of the state, so the lemmas cover
  any contents.
- **Wheel boosts.** A temporary boost won on the wheel looks up a shop item
  whose type and subtype are both `speed` (or both `capacity`). No seeded
  item matches, so the upgrade row gets no item and never takes effect
  (`FortuneWheel.SeededWheelBoostJoinsNothing`).
- **Empty wheel table.** With no rewards, `/spin` has already deducted the
  premium cost when the fallback `rewards[-1]` fails, and the handler
  answers 500 with the cost kept (`FortuneWheel.SpinOutcome`).
- **Reply rows.** `/time-up` leaves the collected quantity on a reply row
  whose recovery floors to 0, while `/return` shows 0 there
  (`Expeditions.TimeUpAndReturnRowsDiffer`).
- **Loot matching in the browser.** The browser matches collected loot by
  `r.id === resource.id` first. Loot objects from the server carry no `id`,
  so every such object matches the first id-less entry whatever its name
  (`ClientExpedition.UnidentifiedLootMerges`).

## Model

| member | source | states |
|---|---|---|
| Sampler.CumulativePick | routes/expeditions.js:156-165 | the pick is the first index whose running total reaches the draw; None only when no running total reaches it |
| Sampler.PickFrom | routes/expeditions.js:159-165 | the loop resumed at index i picks an index at or after i whose running total reaches the draw, and no earlier total reaches it |
| Sampler.PickIndex | routes/expeditions.js:156-165 | the accumulate-and-break loop computes exactly the cumulative pick |
| Sampler.Scaled | routes/expeditions.js:154 | `Math.random() * total` lies in [0, total], strictly below a positive total |
| Sampler.PickAlwaysSucceeds | routes/expeditions.js:153-165 | with non-negative weights the scaled draw is always picked; the loop never runs off the end |
| Sampler.PickIsInterval | routes/expeditions.js:156-165 | with non-negative weights index i is picked iff the draw lies in (Prefix(i), Prefix(i+1)], the first slice also taking 0 |
| Sampler.PrefixMonotone | routes/expeditions.js:160 | running totals of non-negative weights never decrease |
| Sampler.ManualBase | routes/expeditions.js:171 | a manual mine's base quantity is 2..6 |
| Sampler.AutoBase | routes/expeditions.js:172 | an automatic mine's or exploration find's base quantity is 1..3 |
| Sampler.ExploreCount | routes/expeditions.js:300 | an exploration makes 2..4 draws |
| Sampler.RarityScaled | routes/expeditions.js:174-175 | the rarity-scaled quantity is at least 1 |
| Sampler.Quantity | routes/expeditions.js:170-181 | a recorded quantity is at least 1 |
| Sampler.DroneStepBounds | routes/expeditions.js:178-181 | the drone bonus never lowers a quantity and adds at most drone × quantity |
| Sampler.DroneStepMonotone | routes/expeditions.js:178-181 | the drone bonus keeps the order of quantities |
| Sampler.RarerIsScarcer | routes/expeditions.js:174-175 | with equal base, multiplier and drone, a rarer resource is never found in larger quantity |
| Sampler.DangerOccursMonotone | routes/expeditions.js:202-203 | no danger at level ≤ 0, certain danger from level 20, and a danger at one level is a danger at every higher level |
| Sampler.DangerIndex | routes/expeditions.js:236 | `Math.floor(Math.random() * 5)` indexes one of the five danger types |
| Ordering.Insert | routes/leaderboard.js:21 | inserting adds exactly that element: multiset grows by it, length by one |
| Ordering.InsertSorted | routes/leaderboard.js:21 | inserting into a descending list keeps it descending |
| Ordering.SortDesc | routes/leaderboard.js:21 | the sort is a permutation of its input and is in descending key order |
| Ordering.TopBy | routes/leaderboard.js:21-22 | `ORDER BY key DESC LIMIT n` meets the top-selection specification: min(n, count) rows, drawn from the candidates, descending, none left out outranks one kept |
| Ordering.PrefixOfSortedIsTop | routes/leaderboard.js:21-22 | any prefix of a descending arrangement of the candidates is a top selection |
| Ordering.SelectionFromCandidates | routes/leaderboard.js:16-23 | every row of a top selection is one of the candidates |
| Schema.Database.constructor | database/db.js:14-150 | a fresh store has every table, all empty |
| Schema.Database.InsertInitialData | database/db.js:156-492 | each catalogue table receives its seed rows exactly when it was empty; every other table is untouched |
| Schema.Database.SeedPlanetTable | database/db.js:158-216 | the planets table is seeded iff its count is 0 |
| Schema.Database.SeedResourceTable | database/db.js:219-275 | the resources table is seeded iff its count is 0 |
| Schema.Database.SeedShopTable | database/db.js:278-419 | the shop items table is seeded iff its count is 0 |
| Schema.Database.SeedWheelTable | database/db.js:422-491 | the wheel rewards table is seeded iff its count is 0 |
| Schema.InsertRows | database/db.js:205-212 | inserting the seed rows one by one into an empty table gives row i the id i + 1 and otherwise keeps each row; a seed already carrying those ids is stored unchanged (the same loop serves resources, shop items and wheel rewards at lines 265-271, 408-415 and 481-487) |
| Schema.InitializeTwice | database/db.js:156-492 | seeding a fresh store yields exactly the seed catalogue, which is sound, and seeding again changes nothing |
| Schema.SeedPlanet | database/db.js:166-203 | seeded planet n has id n and a positive base time, multiplier and danger level |
| Schema.SeedPlanets | database/db.js:166-203 | four planets with ids 1..4, each sound |
| Schema.SeedResource | database/db.js:227-263 | seeded resource n has id n, a rarity in 1..5 (never 0) and a positive value |
| Schema.SeedResources | database/db.js:227-263 | five resources with ids 1..5, each sound |
| Schema.SeedShopItem | database/db.js:286-406 | seeded item n has id n, is sold for real money, and an insurance item recovers a fraction in (0, 0.5] |
| Schema.SeedShopItems | database/db.js:286-406 | eleven items with ids 1..11, each sound; insurance items recover at most half |
| Schema.SeedWheelReward | database/db.js:430-479 | seeded reward n has id n and a probability strictly between 0 and 1 |
| Schema.SeedWheelRewards | database/db.js:430-479 | six rewards with ids 1..6 and probabilities in (0, 1) |
| Schema.Probabilities | routes/fortuneWheel.js:50 | the probability column in table order, one entry per reward |
| Schema.FindPlanet | routes/planets.js:21 | `WHERE id = ?`: a found planet is in the table with that id; None iff no planet has it |
| Schema.FindResource | routes/expeditions.js:484-487 | a found resource is in the table with that id; None iff none has it |
| Schema.FindItem | routes/shop.js:55 | a found item is in the catalogue with that id; None iff none has it |
| Schema.OwnedBoosts | routes/expeditions.js:33-38 | the active upgrades joined with their items: at most one row per upgrade |
| Schema.FindBoost | routes/expeditions.js:44 | `find` returns the first row of that type and subtype; None iff there is none |
| Schema.OwnedBoostsFromCatalogue | routes/expeditions.js:33-38 | every joined boost row copies the type, subtype and boost of a catalogue item |
| Schema.OwnedBoostsSound | routes/expeditions.js:44-46 | over a sound catalogue every boost a route reads, other than a season pass, is in [0, 1] |
| Auth.BearerFields | middleware/auth.js:13 | a header starting with `Bearer ` splits into `Bearer` and the token field |
| Auth.BearerToken | middleware/auth.js:12-13 | a token is extracted iff the header is present and starts with `Bearer `; the token has no space |
| Auth.BearerRoundTrip | middleware/auth.js:13 | the header `Bearer <token>` gives that token back, for a token without spaces |
| Auth.NonBearerHasNoToken | middleware/auth.js:13 | a missing header or another scheme yields no token |
| Auth.FailureReply | middleware/auth.js:51-66 | every verification failure is 401; `TokenExpiredError` ↦ token_expired, `JsonWebTokenError` ↦ invalid_token, any other ↦ authentication_failed |
| Auth.AuthenticationCases | middleware/auth.js:19-66 | no token ⇒ 401 before the secret is consulted; no secret ⇒ 500 before verification; otherwise authenticated iff the verifier decodes the token, with its id and Telegram id |
| Auth.Exchange.constructor | middleware/auth.js:9 | a request starts with no user, no reply and `next` not called |
| Auth.VerifyToken | middleware/auth.js:9-67 | on success `req.user` is set, `next` runs exactly once and nothing is sent; on failure the error is sent and neither the user nor the call count changes |
| Expeditions.FirstActive | routes/expeditions.js:23-26 | the user's first active row; None iff the user has no active row |
| Expeditions.ActiveJoined | routes/expeditions.js:106-111 | the user's first active row whose planet exists; None iff there is none |
| Expeditions.JoinedIsFirstActive | routes/expeditions.js:74-79 | when every row names an existing planet, the joined lookup finds the same row as the plain one |
| Expeditions.StartKeepsSingleActive | routes/expeditions.js:22-30 | inserting an active row for a user with none keeps "at most one active expedition per user" |
| Expeditions.CloseKeepsSingleActive | routes/expeditions.js:464-468 | closing a row keeps the single-active invariant |
| Expeditions.CloseEndsActivity | routes/expeditions.js:601-605 | under the invariant, closing the user's active row leaves them none, so a repeat finds nothing |
| Expeditions.EndTime | routes/expeditions.js:49-50 | with positive base time and non-negative boost, the end is at least start + 1000 × base_time |
| Expeditions.EndTimeMatchesCountdown | routes/expeditions.js:50-63 | the stored end time is the start plus the returned countdown, truncated to the millisecond |
| Expeditions.CollectedOf | routes/expeditions.js:483-488 | the collected rows of an expedition come one per loot row, never more |
| Expeditions.CollectedFromLoot | routes/expeditions.js:195-198 | with positive recorded quantities, every collected row has quantity ≥ 1 |
| Expeditions.CollectedValuesNonNegative | routes/expeditions.js:484-487 | every collected row carries a base value taken from the resources table, so non-negative values stay non-negative |
| Expeditions.CollectedOfOthers | routes/expeditions.js:343-346 | loot recorded for other expeditions does not change what an expedition collected |
| Expeditions.CreditBounds | routes/expeditions.js:496 | with recovery in [0, 1] a recovered quantity lies between 0 and the collected quantity |
| Expeditions.NoInsuranceNoCredit | routes/expeditions.js:479-480 | without insurance a failed expedition credits nothing for any row |
| Expeditions.InventoryConservation | routes/expeditions.js:607-640 | settlement adds to each (user, resource) stock exactly the credits of that resource's rows, and nothing to any other user |
| Expeditions.InventoryAfterFrame | routes/expeditions.js:498-518 | settlement only creates the user's credited keys; every other entry keeps its value |
| Expeditions.SuccessCreditsHistoryValue | routes/expeditions.js:722-725 | a successful settlement's total equals the value `/history` shows |
| Expeditions.InsuranceNeverExceedsSuccess | routes/expeditions.js:608-614 | with recovery in [0, 1] and non-negative values, the failure total is between 0 and the success total |
| Expeditions.UninsuredFailureSettlesNothing | routes/expeditions.js:493 | a failure with recovery 0 credits 0 and leaves the inventory as it was |
| Expeditions.TimeUpRows | routes/expeditions.js:523-525 | one reply row per collected row, same resource; a positive recovery replaces the quantity |
| Expeditions.ReturnRows | routes/expeditions.js:642-646 | one reply row per collected row, same resource |
| Expeditions.ReturnRowsAsCollected | routes/expeditions.js:642-646 | on success or without recovery the `/return` rows are exactly the collected rows |
| Expeditions.TimeUpAndReturnRowsDiffer | routes/expeditions.js:523-525 | the two terminal replies agree on a row iff its recovered quantity is positive or equals the collected one |
| Expeditions.FindScoreRow | routes/expeditions.js:662-665 | the first leaderboard row of (user, month, year); None iff none exists |
| Expeditions.UpsertScoreAdds | routes/expeditions.js:667-680 | the upsert raises the (user, month, year) score by the gain and leaves every other score unchanged |
| ExpeditionRoutes.StartOutcome | routes/expeditions.js:7-69 | refusals change nothing; success iff the id is given, the planet exists and no expedition is active; then exactly one active row is appended for that planet, starting now and ending at `start + 1000 × base_time × (1 + suit boost)` truncated to the millisecond, and the reply's countdown is `base_time × (1 + suit boost)` seconds |
| ExpeditionRoutes.Start | routes/expeditions.js:7-69 | the handler's reply and new tables are those of StartOutcome |
| ExpeditionRoutes.StartKeepsInvariants | routes/expeditions.js:22-58 | `/start` keeps single-active and planet-join; the new row is what `/active` reports, and a second `/start` is refused |
| ExpeditionRoutes.StartEndsLater | routes/expeditions.js:33-50 | over a sound catalogue (suit boost in [0, 1]) an accepted start on a planet with positive base time stores an end at least 1000 × base_time ms after, hence strictly after, its start, with a countdown of at least base_time |
| ExpeditionRoutes.RemainingSeconds | routes/expeditions.js:88 | never negative; before the end it is the whole seconds left (s·1000 ≤ left < (s+1)·1000); after it, 0 |
| ExpeditionRoutes.ActiveStatus | routes/expeditions.js:72-98 | 404 iff no active joined expedition; otherwise that row and its remaining seconds |
| ExpeditionRoutes.PlanetStock | routes/expeditions.js:126-131 | the planet's resources with spawn rates, each an existing resource, at most one per spawn row |
| ExpeditionRoutes.Rates | routes/expeditions.js:153 | the spawn rates in stock order |
| ExpeditionRoutes.Dig | routes/expeditions.js:153-199 | one draw finds nothing iff the cumulative pick on `random × total` runs off the end (never on a non-empty stock with non-negative total); otherwise exactly the picked stock row's resource, in the quantity `Quantity(base, rarity, multiplier, drone)` (≥ 1), worth base_value × quantity |
| ExpeditionRoutes.PickSucceedsOnStock | routes/expeditions.js:153-167 | on a non-empty stock with non-negative total the pick always selects a resource |
| ExpeditionRoutes.LootRows | routes/expeditions.js:195-198 | one `expedition_resources` row per find, for the expedition, with the find's resource and quantity |
| ExpeditionRoutes.LootRowsAppend | routes/expeditions.js:343-346 | recording finds one after another is recording them together |
| ExpeditionRoutes.DangerAt | routes/expeditions.js:208-234 | danger i deals 10 + 5·i damage |
| ExpeditionRoutes.RollDanger | routes/expeditions.js:202-237 | a danger is reported iff the roll is below danger_level × 0.05 |
| ExpeditionRoutes.MineBase | routes/expeditions.js:170-172 | manual base 2..6, automatic base 1..3 |
| ExpeditionRoutes.MineOutcome | routes/expeditions.js:101-250 | 404 without an active expedition; for an active one, 400 iff now > end_time, then 404 iff the planet spawns nothing, success otherwise; refusals change nothing; success reports the one draw `Dig` makes on the planet's stock and the danger `RollDanger` rolls, and appends exactly the find's loot rows |
| ExpeditionRoutes.Mine | routes/expeditions.js:101-250 | the handler equals MineOutcome |
| ExpeditionRoutes.MineRecordsOwnLoot | routes/expeditions.js:195-198 | `/mine` changes no other expedition's collected resources and keeps recorded quantities positive |
| ExpeditionRoutes.MineAndCheckDangerAgree | routes/expeditions.js:383-431 | on equal rolls `/mine` and `/check-danger` report the same danger |
| ExpeditionRoutes.LootRowsPositive | routes/expeditions.js:175 | positive finds give positive loot rows, all for the expedition |
| ExpeditionRoutes.Finds | routes/expeditions.js:304-348 | at most one find per draw, each with quantity ≥ 1 |
| ExpeditionRoutes.FindsEveryDraw | routes/expeditions.js:304-320 | on a non-empty stock with non-negative total every draw finds something |
| ExpeditionRoutes.ExploreOutcome | routes/expeditions.js:253-358 | the gates of `/mine`: 404 without an active expedition, 400 iff now > end_time, 404 iff the planet spawns nothing, each changing nothing; on success the finds are those of `Finds`, one draw per roll, every find recorded for the active expedition |
| ExpeditionRoutes.Explore | routes/expeditions.js:253-358 | the handler, drawing 2..4 times, equals ExploreOutcome |
| ExpeditionRoutes.ExploreFindsPerRoll | routes/expeditions.js:299-352 | with non-negative rates a successful exploration reports 2..4 finds, one per draw, and leaves other expeditions' loot alone |
| ExpeditionRoutes.StockRatesNonNegative | routes/expeditions.js:126-131 | non-negative spawn rates in the table give non-negative rates in the stock |
| ExpeditionRoutes.ExploreDraws | routes/expeditions.js:304-348 | the draw loop pushes exactly the finds of Finds |
| ExpeditionRoutes.CheckDanger | routes/expeditions.js:361-438 | 404 iff no active expedition; 400 after its end; otherwise a danger iff the roll is below level × 0.05 |
| ExpeditionRoutes.AddCurrency | routes/expeditions.js:531-535 | the UPDATE adds the amount to that user's currency only; no row, no change |
| ExpeditionRoutes.SettleTimeUp | routes/expeditions.js:493-537 | the `/time-up` loop yields InventoryAfter, TotalCredit and TimeUpRows of the collected rows |
| ExpeditionRoutes.SettleReturn | routes/expeditions.js:608-655 | the `/return` loop yields InventoryAfter, TotalCredit and ReturnRows |
| ExpeditionRoutes.TimeUpOutcome | routes/expeditions.js:441-552 | 404 iff no active expedition; 400 up to the end; success changes only expeditions, inventory and users |
| ExpeditionRoutes.TimeUp | routes/expeditions.js:441-552 | the handler equals TimeUpOutcome |
| ExpeditionRoutes.ActOrTimeUp | routes/expeditions.js:118-123 | for an active expedition, at every instant exactly one holds: `/mine`, `/explore` and `/check-danger` go ahead (refusing only for a planet that spawns nothing), or `/time-up` is accepted; `/time-up` at end_time itself is refused |
| ExpeditionRoutes.TimeOutExpedition | routes/expeditions.js:463-547 | the accepted time-up body equals TimeOut |
| ExpeditionRoutes.TimeUpEndsExpedition | routes/expeditions.js:463-468 | after time-up the row is timed out, single-active still holds, and a repeated `/time-up` or a `/return` answers 404 |
| ExpeditionRoutes.TimeUpSettlement | routes/expeditions.js:490-537 | the reported total is Σ base_value × floor(quantity × recovery) over the rows recovering something (0 without insurance) and the rows are `TimeUpRows`; each stock grows by its recovered credits; currency grows by that total when positive; without insurance only the status changes |
| ExpeditionRoutes.ReturnOutcome | routes/expeditions.js:555-698 | 404 iff no active expedition; success iff now ≤ end; only expeditions, inventory, users and leaderboard change |
| ExpeditionRoutes.Return | routes/expeditions.js:555-698 | the handler equals ReturnOutcome |
| ExpeditionRoutes.CompleteExpedition | routes/expeditions.js:600-693 | the settlement body equals Complete |
| ExpeditionRoutes.ReturnEndsExpedition | routes/expeditions.js:601-605 | after `/return` the row is completed, single-active holds, and a repeat or a `/time-up` answers 404 |
| ExpeditionRoutes.ReturnSettlement | routes/expeditions.js:607-681 | the rows are `ReturnRows`; when it settles, the reported total is Σ base_value × credit (the quantity on success, floor(quantity × recovery) otherwise), each stock grows by its credits, and the total goes both to the currency and to the month's score, other scores unchanged |
| ExpeditionRoutes.ReturnWithoutPayout | routes/expeditions.js:600-608 | a late return with no recovery reports a total of 0 and changes nothing but the status, set to completed with success 0 |
| ExpeditionRoutes.InsuredPayoutBounded | routes/expeditions.js:490-537 | with positive quantities, non-negative values and recovery in [0, 1], `/time-up` and a late `/return` credit between 0 and the loot's value, which an on-time `/return` credits exactly |
| ExpeditionRoutes.ReturnPaysHistoryValue | routes/expeditions.js:608-640 | a successful return credits exactly the value `/history` lists for the expedition |
| ExpeditionRoutes.CompletedOf | routes/expeditions.js:703-707 | exactly the user's completed expeditions whose planet exists, with their ids |
| ExpeditionRoutes.HistorySelection | routes/expeditions.js:703-710 | a top-10 selection of them by end time, newest first |
| ExpeditionRoutes.HistoryEntries | routes/expeditions.js:713-726 | one entry per selected expedition, with its collected resources and their value Σ base_value × quantity |
| ExpeditionRoutes.History | routes/expeditions.js:701-733 | at most 10 entries, each the user's completed expedition with its resources and total value |
| FortuneWheel.SelectReward | routes/fortuneWheel.js:53-69 | the selected index is always a reward of the table, the last one on fall-through |
| FortuneWheel.BoostType | routes/fortuneWheel.js:98 | `speed` iff the lower-cased description contains `speed`, otherwise `capacity` |
| FortuneWheel.FirstItemOfKind | routes/fortuneWheel.js:100 | a found id belongs to an item of that type and subtype; None iff there is no such item |
| FortuneWheel.DrawOutcome | routes/fortuneWheel.js:46-118 | succeeds iff the wheel table is non-empty, drawing one of its rewards; an empty table is a 500 with the tables as they were |
| FortuneWheel.Draw | routes/fortuneWheel.js:46-118 | the draw-and-credit part equals DrawOutcome |
| FortuneWheel.SpinOutcome | routes/fortuneWheel.js:19-123 | 404 unknown user and 400 unaffordable premium spin, both changing nothing; success iff the user exists, can pay and the table is non-empty |
| FortuneWheel.Spin | routes/fortuneWheel.js:19-123 | the handler equals SpinOutcome |
| FortuneWheel.SpinSettles | routes/fortuneWheel.js:31-117 | one spin row; premium pays 10; each reward kind credits its own balance or adds one upgrade; nothing else changes; a premium spin never goes negative |
| FortuneWheel.WonBoostLastsADay | routes/fortuneWheel.js:94-100 | a won boost is the user's, active, bought now, expires 86 400 000 ms later, and joins an item of its boost type |
| FortuneWheel.SpinDrawsBySlice | routes/fortuneWheel.js:50-69 | with non-negative probabilities the fallback is never taken; reward i is drawn iff the roll falls in its slice, as wide as its probability |
| FortuneWheel.SeedWheelIsDistribution | database/db.js:430-479 | the seeded probabilities are non-negative and sum to exactly 1 |
| FortuneWheel.SeededWheelOdds | database/db.js:430-479 | on the seeded wheel reward i is won iff the raw roll lies in its slice (30/15/5/20/20/10 %) |
| FortuneWheel.SeededCatalogueHasNoBoostType | database/db.js:286-406 | no seeded item has type and subtype `speed` or `capacity` |
| FortuneWheel.SeededWheelBoostJoinsNothing | routes/fortuneWheel.js:98-100 | on the seeded catalogue a won boost has no item and adds no owned boost |
| FortuneWheel.PackageOf | routes/fortuneWheel.js:143-151 | exactly `single`, `pack5`, `pack10` are packages, of 1, 5, 10 spins |
| FortuneWheel.PurchaseSpinsOutcome | routes/fortuneWheel.js:138-180 | 400 for a missing or unknown package; success iff a package and the user exist; failures change nothing |
| FortuneWheel.PurchaseSpins | routes/fortuneWheel.js:138-180 | the handler equals PurchaseSpinsOutcome |
| FortuneWheel.PurchaseFundsSpins | routes/fortuneWheel.js:161-174 | the premium balance grows by exactly spins × the spin cost, only for the buyer, enough for that many premium spins |
| Shop.Listing | routes/shop.js:9-20 | each type's group is exactly the items of that type, in row order; every item sits in its type's group |
| Shop.WithKindPriceOrdered | routes/shop.js:9 | the items of one type, taken from a `type, price`-ordered catalogue, ascend in price |
| Shop.ListingGroupsByPrice | routes/shop.js:9-20 | every group of the listing is cheapest first |
| Shop.OwnedItems | routes/shop.js:30-36 | exactly the user's active upgrades that join an item, with that item's fields |
| Shop.MyItems | routes/shop.js:28-43 | a permutation of the owned items, newest purchase first |
| Shop.PurchaseExpiry | routes/shop.js:100-111 | an expiry exactly for season passes and temporary boosts; a boost lasts one day |
| Shop.PurchaseOutcome | routes/shop.js:46-133 | refusals change nothing; success iff the id is given, item and user exist and the priced balance suffices; the reply carries the item |
| Shop.Purchase | routes/shop.js:46-133 | the handler equals PurchaseOutcome |
| Shop.PurchaseSettles | routes/shop.js:68-117 | only the priced balance drops, by the price, staying non-negative; one active upgrade row is appended; nothing else changes |
| Shop.SeededPurchasesAreFree | database/db.js:286-406 | buying from the seeded catalogue (all real money) leaves every balance unchanged |
| Shop.PurchaseAddsOwnedBoost | routes/shop.js:113-117 | the bought item joins the owned boosts after those already owned, and becomes the boost in effect only when none of its kind was held |
| Shop.FindBoostAppend | routes/shop.js:113-117 | appending a row keeps an earlier match, else finds the new row when it matches |
| Shop.VerifiedExpiry | routes/shop.js:163-164 | only a verified season pass gets an expiry |
| Shop.AddPremium | routes/shop.js:156-160 | the UPDATE adds to that user's premium balance only; no row, no change |
| Shop.VerifyOutcome | routes/shop.js:136-186 | 400 without receipt or product id and 404 for an unknown product, both changing nothing; success iff the product and the user exist |
| Shop.VerifyPurchase | routes/shop.js:136-186 | the handler equals VerifyOutcome |
| Shop.VerifySettles | routes/shop.js:154-170 | never charges: premium products credit boost_value and insert nothing; others insert one upgrade row and leave the balances |
| Leaderboard.RankOf | routes/leaderboard.js:26-32 | None iff the requester is not listed; otherwise 1 + the index of their first entry |
| Leaderboard.UserRank | routes/leaderboard.js:26-32 | the break-at-first-match loop computes RankOf |
| Leaderboard.MonthRows | routes/leaderboard.js:16-20 | exactly the rows of that month and year whose user exists |
| Leaderboard.Entries | routes/leaderboard.js:17-19 | one entry per row: its score and its user's Telegram id |
| Leaderboard.MonthlyList | routes/leaderboard.js:16-23 | a top-100 selection by score of the month's entries |
| Leaderboard.MonthlyListed | routes/leaderboard.js:16-23 | every listed entry is a row of that month with its player's Telegram id |
| Leaderboard.Players | routes/leaderboard.js:46 | each player with a joined row, once |
| Leaderboard.AllTimeCandidates | routes/leaderboard.js:42-46 | one entry per player holding the sum of their scores |
| Leaderboard.AllTimeList | routes/leaderboard.js:42-49 | a top-100 selection by summed score |
| Leaderboard.ScoreSumAppend | routes/leaderboard.js:43 | a player's sum grows by exactly their new row's score |
| Leaderboard.ScoreSumBounds | routes/leaderboard.js:43 | non-negative scores sum to ≥ 0; a player without rows sums to 0 |
| Leaderboard.UpsertRaisesAllTime | routes/expeditions.js:662-680 | `/return`'s score write raises that player's all-time sum by the gain and no one else's |
| Leaderboard.BoardOutcome | routes/leaderboard.js:7-72 | 400 iff the period is not month/monthly/all-time/global; otherwise the matching list of ≤ 100 and the requester's rank in it |
| Leaderboard.GetBoard | routes/leaderboard.js:7-72 | the handler equals BoardOutcome |
| Leaderboard.QueryOr | routes/leaderboard.js:81-82 | an absent or empty query argument means the current value |
| Leaderboard.MonthlyDefaults | routes/leaderboard.js:81-82 | no argument gives the current month; the decimal text of m gives m |
| Leaderboard.MonthlyBoard | routes/leaderboard.js:75-112 | the requested (or current) month's list and the requester's rank in it |
| Leaderboard.GetMonthly | routes/leaderboard.js:75-112 | the handler equals MonthlyBoard |
| Leaderboard.GetGlobal | routes/leaderboard.js:115-143 | the all-time list with the requester's rank, without month, year or period |
| Leaderboard.CountAbove | routes/leaderboard.js:150 | the subquery's count never exceeds the rows |
| Leaderboard.CountAboveMonotone | routes/leaderboard.js:150 | a higher threshold is passed by no more rows |
| Leaderboard.CountAboveWithin | routes/leaderboard.js:150 | fewer rows outrank a row than its month has |
| Leaderboard.RankOrdersScores | routes/leaderboard.js:149-150 | ranks lie in 1..rows of the month; equal scores share a rank; a higher score has a strictly smaller rank |
| Leaderboard.PeriodKeyOrder | routes/leaderboard.js:153 | for months 1..12 the key orders by year, then month, and is equal iff both are |
| Leaderboard.HistoryRows | routes/leaderboard.js:148-154 | a top-12 selection of the requester's rows, latest period first |
| Leaderboard.MyHistory | routes/leaderboard.js:146-162 | one ranking per selected row, at most 12 |
| Leaderboard.MyHistorySound | routes/leaderboard.js:148-155 | each entry is one of the requester's rows with its month, year and score, and a rank within its month's bounds |
| Planets.PlanetDetail | routes/planets.js:19-44 | 404 iff the planet is unknown; otherwise the planet and a permutation of its stock, rarest first |
| Planets.DangersOutcome | routes/planets.js:47-69 | 404 iff unknown; otherwise the danger table of its level |
| Planets.DangerTableShape | routes/planets.js:56-62 | five entries; entry i has level × (5 − i)/100; non-increasing for level ≥ 0; ≤ 0.25 for level ≤ 5; the first is `/check-danger`'s chance |
| Planets.UnknownPlanetBothNotFound | routes/planets.js:23-53 | both planet routes answer 404 for exactly the same ids |
| Text.IndexOf | middleware/auth.js:13 | the first position of the character, or the length when absent |
| Text.Split | middleware/auth.js:13 | `split` always yields at least one field |
| Text.SplitJoin | middleware/auth.js:13 | joining the fields with the separator restores the string, and no field contains it |
| Text.ContainsAt | routes/fortuneWheel.js:98 | a substring found at a position is contained |
| Text.ToLower | routes/fortuneWheel.js:98 | lower-casing maps each character and keeps the length |
| Text.NatToString | public/js/ui.js:1160-1162 | decimal text: non-empty, all digits, no leading zero from 10 up, and reading it back gives n |
| Text.IntToString | public/js/planets.js:46 | decimal text of an integer, that of the natural for n ≥ 0 |
| Text.DigitRun | routes/leaderboard.js:81 | the length of the leading digit run `parseInt` reads |
| Text.HexRun | routes/leaderboard.js:81 | the length of the leading hexadecimal digit run that `parseInt` reads after a `0x` prefix: every character before it is a hex digit, the one at it is not |
| Text.ParseIntToString | routes/leaderboard.js:81 | `parseInt` of an integer's decimal text gives it back |
| Text.ParseIntHex | routes/leaderboard.js:81 | without a radix `parseInt` reads a `0x` prefix as base 16: `0x0C` is 12, `0x` alone is NaN |
| Text.ParseIntSignedHex | routes/leaderboard.js:81 | a sign may precede the `0X` prefix, and the hexadecimal digits stop at the first non-digit: `-0Xfg` is −15 |
| Text.PadStart2 | public/js/expedition.js:234 | `padStart(2, '0')` keeps the text as its suffix and is at least 2 long |
| Text.PaddedTwoDigits | public/js/expedition.js:234-238 | a number below 100 pads to two digits that read back as itself |
| Collections.WithKey | public/js/inventory.js:262 | `filter` keeps exactly the elements with the key, in order |
| Collections.GroupByPartitions | routes/shop.js:12-18 | each group is exactly the filter by its key and is non-empty; keys without elements have no group |
| Collections.GroupByPlacesEachElement | public/js/inventory.js:270-279 | every element sits in the group of its key and in no other |
| Collections.WithKeyAppend | public/js/inventory.js:262 | filtering distributes over concatenation |
| Collections.KeysInOrder | public/js/fortune-wheel.js:273-280 | the group keys in order of first appearance, distinct, exactly the map's keys |
| Collections.GroupSizesSum | public/js/fortune-wheel.js:273-280 | the group sizes add up to the number of elements |
| ClientLabels.RarityName | public/js/ui.js:1242-1257 | `Unknown` iff the code is outside 1..5 |
| ClientLabels.RarityNameIdentifies | public/js/inventory.js:286-296 | distinct codes have distinct names |
| ClientLabels.FilledIcons | public/js/ui.js:1133-1156 | five icons; icon i is filled iff i < level; filled count is the level clamped into 0..5 |
| ClientExpedition.MatchIndex | public/js/expedition.js:950-952 | the first entry with the same id or the same name and rarity, or the length when none |
| ClientExpedition.MergeCases | public/js/expedition.js:946-971 | null is ignored; a match absorbs the count `(old ‖ 1) + (new ‖ 1)` and its total value, others and length unchanged; otherwise one fresh entry is appended |
| ClientExpedition.UnidentifiedLootMerges | public/js/expedition.js:950-952 | loot without id is always folded into the first id-less entry, whatever its name |
| ClientExpedition.MergeCounts | public/js/expedition.js:946-971 | merging adds exactly the incoming `quantity ‖ 1` to the items total and the absorbed count × the entry's value to the value total |
| ClientExpedition.MergedAllCounts | public/js/expedition.js:466-469 | merging a batch adds the sum of its counts |
| ClientExpedition.ModalCountsTwice | public/js/expedition.js:1122-1150 | the modal reaches its own merge iff the rarity badge is absent or the rarity is absent or 0 (a numeric rarity has no `charAt`, so line 1123 throws); then the shown resource adds twice its count to the items total, otherwise once |
| ClientExpedition.ModalDoubleCountExample | public/js/expedition.js:384-386 | with the badge on the page, mining 3 rarity-less ore into an empty list records one entry of 6; the same ore with numeric rarity 1 records 3 |
| ClientExpedition.Remaining | public/js/expedition.js:219 | never negative, and 0 iff the end has been reached |
| ClientExpedition.CountdownDisplay | public/js/expedition.js:217-257 | time up iff the end is reached; otherwise 60000·m + 1000·s ≤ left < 60000·m + 1000·(s+1) with seconds as two digits < 60, warning from 30 s, blinking from 15 s |
| ClientExpedition.MarginsNest | public/js/expedition.js:333-336 | wherever exploring is allowed auto-collecting is; neither in the last 5 s nor at time up |
| ClientExpedition.ExpeditionView.constructor | public/js/expedition.js:7-12 | no active expedition, nothing collected, no timer set |
| ClientExpedition.ExpeditionView.AddCollectedResource | public/js/expedition.js:946-978 | the list becomes Merged(old list, r); nothing else changes |
| ClientExpedition.ExpeditionView.StartExpedition | public/js/expedition.js:101-171 | no id or an active expedition refuses without a request; offline or failed changes nothing; success activates the reply, empties the list, sets the timers |
| ClientExpedition.ExpeditionView.AutoCollect | public/js/expedition.js:320-345 | no expedition clears the timer; under 5 s nothing; otherwise the find is merged once |
| ClientExpedition.ExpeditionView.MineResources | public/js/expedition.js:356-412 | merges the find once when active and connected, so the items total grows by exactly its count |
| ClientExpedition.ExpeditionView.ExploreArea | public/js/expedition.js:417-496 | refused under 10 s; otherwise all finds merged in order and the reported total is the sum of their counts, what the items total grows by |
| ClientExpedition.ExpeditionView.ConfirmationTotals | public/js/expedition.js:517-525 | the items and credits totals of the collected list; items ≥ entries |
| ClientExpedition.ExpeditionView.ClearExpedition | public/js/expedition.js:823-829 | no active expedition, empty list, all timers cleared |
| ClientExpedition.ItemsAtLeastLength | public/js/expedition.js:523 | each counted entry stands for at least one item |
| ClientUi.Remaining | public/js/ui.js:1368-1370 | never negative, 0 iff start + total ≤ now |
| ClientUi.Progress | public/js/ui.js:1373-1378 | NaN (None) iff the total time is 0 |
| ClientUi.ProgressBounds | public/js/ui.js:1373-1378 | for a positive total the bar is within 0..100, empty before the start, full from the end, never moving back |
| ClientUi.ClockParts | public/js/ui.js:1402-1404 | 3600·h + 60·m + s is the remaining time, with m, s < 60 |
| ClientUi.CountdownView.constructor | public/js/ui.js:94-104 | no expedition, no interval, flag down, no notices |
| ClientUi.CountdownView.UpdateCountdown | public/js/ui.js:1364-1412 | no expedition, no change; at the end the interval clears, `Complete!` shows and one notice appears only if the flag was down; otherwise the h/m/s text |
| ClientUi.CountdownView.ClaimExpeditionRewards | public/js/ui.js:1495-1503 | a successful claim forgets the expedition and lowers the flag; failure changes nothing |
| ClientUi.TwoTicksNotifyOnce | public/js/ui.js:1392-1396 | two ticks after the end show exactly one completion notice |
| ClientUi.LevelIcons | public/js/ui.js:1133-1156 | the 5-step loop builds exactly the icon row of the level |
| ClientUi.PlanetRows | public/js/ui.js:1133-1156 | the difficulty and danger rows are the icon rows of their levels |
| ClientUi.BaseTimeReadsBack | public/js/ui.js:1159-1162 | `m:ss` splits into digit-only minutes and two-digit seconds with 60·m + s == base_time |
| ClientUi.WheelLabelShape | public/js/ui.js:755-758 | at most 11 characters; names ≤ 10 kept; longer ones keep 8 then `...` |
| ClientInventory.FilterRarity | public/js/inventory.js:254-260 | a filter name maps to a code in 1..5 or to nothing |
| ClientInventory.FilterItemsSpec | public/js/inventory.js:251-263 | `all` keeps the list; any other filter keeps exactly the items of its code in order; an unknown name keeps the rarity-less items |
| ClientInventory.CapitalizeShape | public/js/inventory.js:303-305 | same length, only the first character upper-cased, idempotent |
| ClientInventory.FilterMatchesLabel | public/js/inventory.js:251-296 | a rarity filter keeps exactly items labelled with its capitalised name |
| ClientInventory.GroupItemsByTypeSpec | public/js/inventory.js:270-279 | the groups partition the items by `type ‖ 'resource'`; their sizes add up |
| ClientInventory.InventoryView.constructor | public/js/inventory.js:7-12 | filter `all` over the given items |
| ClientInventory.InventoryView.FilterInventory | public/js/inventory.js:240-243 | the filter is remembered and the shown list is the items under it |
| ClientWheel.SegmentText | public/js/fortune-wheel.js:190-194 | at most 13 characters; a missing or empty name reads `Prize`; up to 10 characters kept whole; longer ones keep the first 10 then `...` |
| ClientWheel.SegmentColorCases | public/js/fortune-wheel.js:207-218 | the common colour iff not one of the five other keys; those keys have distinct colours |
| ClientWheel.RarityGroupNames | public/js/fortune-wheel.js:265-274 | a prize's group is always one of the five rarity names, and `Common` when its rarity is missing or outside 1..5 |
| ClientWheel.GroupRewardsSpec | public/js/fortune-wheel.js:273-280 | the group under each name is exactly the prizes of that group in list order, so every prize is in its own group and in no other |
| ClientWheel.SegmentCount | public/js/fortune-wheel.js:358 | the count is never 0 (8 for an empty list) |
| ClientWheel.SpinAngleRange | public/js/fortune-wheel.js:358-359 | a segment's target lies in [1440, 1800) and distinct segments get distinct targets |
| ClientWheel.FallbackIndex | public/js/fortune-wheel.js:314-316 | the random fallback index is a segment of the wheel |
| ClientWheel.WheelView.constructor | public/js/fortune-wheel.js:20-22 | not spinning, no spins, no rewards |
| ClientWheel.WheelView.SpinWheel | public/js/fortune-wheel.js:287-347 | busy or out of spins only refuses; no reward clears the flag keeping spins; a reward uses one spin, turns to its segment and clears the flag |
| ClientPlanets.DifficultyStars | public/js/planets.js:75-88 | the loop builds exactly the five-star row of the difficulty |
| ClientPlanets.DangerLevelName | public/js/planets.js:156-166 | `Unknown` iff the level is outside 1..5 |
| ClientPlanets.DangerLevelNameIdentifies | public/js/planets.js:156-166 | distinct levels have distinct names |
| ClientPlanets.NumberValueOfNumeral | public/js/planets.js:95 | `Number` of an integer's decimal text is that integer |
| ClientPlanets.FindLoose | public/js/planets.js:95 | the first planet whose id `==` the argument; None iff none does |
| ClientPlanets.CardAttributeFindsPlanet | public/js/planets.js:46-95 | opening a card by its attribute text finds the same planet as by its number |
| ClientPlanets.PlanetsView.constructor | public/js/planets.js:7-14 | the given planets, no cards, nothing shown |
| ClientPlanets.PlanetsView.RenderPlanets | public/js/planets.js:38-68 | no planets, no redraw; otherwise one card per planet in order |
| ClientPlanets.PlanetsView.ShowPlanetDetails | public/js/planets.js:94-96 | nothing found, nothing changes; otherwise the first loosely-equal planet is shown |

## Left out

- Network and I/O are not modelled: the HTTP framing, JSON bodies, SQLite
  callbacks, console logging, sounds, the canvas and the DOM. Timers
  (`setInterval`, `setTimeout`, the spin animation) are flags or run
  synchronously.
- Concurrency is not modelled. Each handler is one atomic step, though the
  code interleaves several `await`ed statements without a transaction.
- Floating point is not modelled. Boosts, probabilities and balances are
  exact reals, and `Math.floor` is the real floor.
- The JWT library is an oracle parameter `verify(token, secret)`.
- The outer `catch` of `verifyToken` (500 `server_error`) is left out. It
  is reachable only through an exception the modelled code cannot raise.
- Every `catch` that turns a store error into a 500 is left out, since the
  store cannot fail in the model. The one exception is an empty wheel
  table, which is modelled.
- Several routes are left out because they only read with a fixed SQL
  order, or read a column the model does not have:
  - GET `/fortune-wheel/rewards` and `/fortune-wheel/history`;
  - GET `/planets` (ordered by a `distance` column the schema does not
    declare);
  - the shop's `/` listing order, which is a precondition
    (`Shop.ListingGroupsByPrice`) rather than computed.
- `req.userId` and `req.telegram_id` are read by the shop and leaderboard
  routes but never set by `verifyToken`, which sets `req.user`. These
  routes take the user id and Telegram id as parameters, as if wired.
- `db.get` / `db.all` are used by routes/expeditions.js,
  routes/fortuneWheel.js and routes/planets.js but not exported by
  database/db.js. The model gives them their evident meaning.
- The `username` column of the leaderboard replies is not modelled.
- Schema.OwnedBoosts: the expiry date of an upgrade is not consulted, as in
  the code.
- Shop.PurchaseExpiry: `setDate(getDate() + days)` is modelled as adding
  whole days of 86 400 000 ms, which ignores daylight-saving changes.
- FortuneWheel.WonBoost: the won boost's `setDate(getDate() + 1)` is
  modelled as `now + 86 400 000`, so a calendar day of 23 or 25 hours
  across a daylight-saving change is not captured.
- FortuneWheel.WonBoostLastsADay: states the fixed 86 400 000 ms of
  FortuneWheel.WonBoost, not the calendar day of `setDate(getDate() + 1)`,
  which differs across a daylight-saving change.
- FortuneWheel.PackageOf: `packages[package_id]` is a lookup on a plain
  object, so inherited `Object.prototype` keys such as `constructor`,
  `toString` or `__proto__` also pass the check at
  routes/fortuneWheel.js:149. The model knows only the three own keys.
- FortuneWheel.PurchaseSpinsOutcome: for an inherited key the handler
  goes on with `spins` undefined. It adds NaN to `premium_currency`, which
  SQLite stores as NULL, and replies 200. The model refuses such an id with
  400 and changes nothing.
- FortuneWheel.PurchaseSpins: the same inherited-key case as
  PurchaseSpinsOutcome is not modelled.
- Leaderboard.PeriodKeyOrder: the order proof covers months 1..12 only.
- Leaderboard.QueryOr: `parseInt` skips leading white space, which the
  model does not. Its other rules are modelled: a sign, a `0x`/`0X` prefix
  read as base 16, and the leading digit run.
- ClientPlanets.NumberValue: these forms of `Number(s)` are not modelled:
  - surrounding blanks;
  - fractions and exponents;
  - the radix-prefixed literals `0x`, `0b` and `0o`, so `Number("0x10")`
    is 16;
  - `Infinity` and `-Infinity`.

  The model reads all of them as NaN.
- Text.ToLower and Text.UpperChar map ASCII letters only.
- ClientUi.CountdownView.UpdateCountdown takes `now` in whole seconds, as
  the code computes it, and assumes the time element is present.
- The client's server replies are taken as the loot objects the browser
  expects. The server sends `minedResources` where the browser reads
  `result.resource`; that mismatch is outside the model.
- The `confirm()` dialogs of `returnToShip` are not modelled, including the
  three-danger warning and the final confirmation. Only the totals shown
  are modelled (`ConfirmationTotals`).
- `returnToShip`, `expeditionTimeUp`, `notifyTimeUp`, the danger-check
  interval and the reward modals of public/js/expedition.js call the
  server and redraw. Their state effect is `ClearExpedition`.
- ClientExpedition.ExpeditionView.MineResources and ExploreArea model the
  single merge. When the modal gets that far, the code merges the resource
  it shows a second time; see Findings, where the code as written is
  `ShownInModal`. When the modal throws at the rarity badge first, the
  exception reaches the caller's `catch`, which only shows an error; the
  error message is not modelled.
- The profile, auth and shop browser modules, api.js, config.js and
  routes/auth.js and routes/profile.js are not part of this model.

## Findings

| source | as written | input that shows it | evidently intended | confidence | as-written member | corrected member |
|---|---|---|---|---|---|---|
| public/js/expedition.js:384-386 | `mineResources` calls `addCollectedResource(result.resource)` and then `showResourceFoundModal(result.resource)`, which calls `addCollectedResource(resource)` again (line 1150); `exploreArea` does the same for the first find (lines 466-472). The second merge is reached only when line 1123 does not throw: no `#found-resource-rarity` element, or a rarity that is absent or 0. For the numeric rarity the server sends, line 1123 calls `charAt` on a number and throws first, so the list keeps a single merge and the caller shows an error | mining 3 Iron without a rarity into an empty list, with the badge element on the page: the list holds one Iron entry with quantity 6 | each found resource is counted once, so the totals in the return confirmation equal what the server recorded | not executed; the page markup that decides whether the badge element exists is not part of this model | ClientExpedition.ModalCountsTwice | ClientExpedition.ExpeditionView.MineResources |
