# pk-lockes-tool, modelled in Dafny

pk-lockes-tool is a browser game for Pokémon "locke" challenges. The player spins
weighted roulettes. A spin can win a card for the collection or coins. Cards
can be used, sold for half the buy price or deleted. Kinds of cards the player
has won reach the shop, where coins buy them again. Everything persists in
`localStorage` under the prefix `pokemon_lockes_`.

This project models the game's core: the storage layer, the card and roulette
records, the card, coin and roulette services, the roulette and card
components, the shop and collection pages, and the hash router. It also proves
what those pieces promise:

- the weighted draw picks a segment by its cumulative weight;
- a spin never lands on a zero-weight segment while some weight is positive;
- records survive a save and load unchanged;
- the unlock list behaves as a set keyed by name, type and rarity;
- statistics balance;
- sorting yields an ordered permutation and is idempotent;
- the router only ever lands on a registered route.

Layout: one module per source file (`storage_service.dfy`, `models.dfy`,
`card_service.dfy`, `coin_service.dfy`, `roulette_service.dfy`,
`roulette_component.dfy`, `card_component.dfy`, `shop_page.dfy`,
`cards_page.dfy`, `router.dfy`). There are also three helper modules:

- `Wrappers`: `Option` and `Result`.
- `Seqs`: filter, map, find and findIndex, with subsequence facts.
- `Text`: ASCII `toLowerCase`, `startsWith`, `includes` and the JavaScript `<` on strings, which compares UTF-16 code units.

Modelling conventions:

- Each service and each page or component is a class. Its fields stand for the
  state the source keeps in storage or in its `state` object. Each method
  states its whole new state.
- Randomness, clocks and ids are parameters:
  - `u` in [0, 1) stands for `Math.random()`;
  - `now` stands for `new Date().toISOString()`;
  - `freshId` stands for `generateId()`.
- Fetched configuration files are `Option` inputs, where `None` is a failed
  fetch. `confirm` dialogs are boolean inputs.
- JavaScript's falsy strings are modelled by `Option<string>`, where `Some("")`
  counts as falsy (`Models.Truthy`). The `a || b` defaults are written out
  field by field.
- Weights are natural numbers. The draw `Math.random() * totalWeight` is an
  exact real.

## Model

| member | source | states |
|---|---|---|
| StorageService.Key | src/services/StorageService.js:7-10 | every stored key is `pokemon_lockes_` followed by the caller's key |
| StorageService.KeyInjective | src/services/StorageService.js:10 | two keys address the same stored entry exactly when they are equal |
| StorageService.KeyOfStrip | src/services/StorageService.js:88-92 | prefixing a stripped stored key gives back the stored key |
| StorageService.Lookup | src/services/StorageService.js:31-39 | an absent or empty entry yields the caller's default; an entry that fails to parse yields null, not the default; otherwise the parsed value |
| StorageService.SetThenGet | src/services/StorageService.js:41-47 | after a set, get on that key yields the value |
| StorageService.SetKeepsOthers | src/services/StorageService.js:41-47 | a set leaves every other key's reading unchanged |
| StorageService.RemoveThenGet | src/services/StorageService.js:55-58 | after a remove, get yields the default |
| StorageService.Foreign | src/services/StorageService.js:65-71 | keeps exactly the entries without the prefix, with their values |
| StorageService.ClearThenGet | src/services/StorageService.js:65-71 | after clear, every key reads as its default |
| StorageService.Store.constructor | src/services/StorageService.js:6-7 | the store starts from the given entries |
| StorageService.Store.Get | src/services/StorageService.js:31-39 | an absent or empty item gives the caller's default, an unparsable one gives null, otherwise the stored value |
| StorageService.Store.Exists | src/services/StorageService.js:78-85 | true exactly when the prefixed key is present, blank or malformed items included; whatever get reads as a value exists |
| StorageService.Store.Set | src/services/StorageService.js:41-53 | returns true, writes the prefixed key, and get then yields the value |
| StorageService.Store.Remove | src/services/StorageService.js:55-63 | returns true, drops the prefixed key, exists is then false and get yields any default |
| StorageService.Store.Clear | src/services/StorageService.js:65-76 | removes exactly the prefixed entries and keeps foreign ones |
| StorageService.Store.GetAllKeys | src/services/StorageService.js:88-97 | lists, without repeats, exactly the keys whose prefixed form is stored |
| Models.Build | src/models/Card.js:6-17 | a loaded card is well formed and takes each field from the data when truthy, else its default (fresh id, '', 'normal', 'common', null, now, false) |
| Models.RoundTrip | src/models/Card.js:33-50 | fromJSON(toJSON(c)) is c exactly when c is well formed |
| Models.BuiltRoundTrip | src/models/Card.js:33-50 | a card that was once loaded survives every later save and load unchanged, whatever ids and clocks are supplied |
| Models.Used | src/models/Card.js:23-26 | use sets used and stamps usedAt, and changes no other field |
| Models.Unused | src/models/Card.js:28-31 | unuse clears used and usedAt, and changes no other field |
| Models.UseThenUnuse | src/models/Card.js:23-31 | unuse after use restores a card that was unused |
| Models.Card.constructor | src/models/Card.js:6-17 | the object's JSON is the loaded card |
| Models.Card.FromJson | src/models/Card.js:48-50 | returns a new card whose JSON is the loaded card |
| Models.Card.Use | src/models/Card.js:23-26 | the card's JSON becomes its used form |
| Models.Card.Unuse | src/models/Card.js:28-31 | the card's JSON becomes its unused form |
| Models.Card.ToJson | src/models/Card.js:33-46 | a record of the object's fields, which fromJSON reads back as the same card whenever the card is well formed, with any fresh id and clock |
| Models.NewSegment | src/models/Card.js:70-79 | a pushed segment gets the fresh id, a positive weight (missing weight is 1), the default colour when none is given, and no card id or coins |
| Models.WithoutSegment | src/models/Card.js:81-83 | keeps, in order, every segment with another id exactly as often as it occurs, and no segment with the id |
| Models.BuildRoulette | src/models/Card.js:57-64 | a loaded roulette is well formed; a truthy id, name, description and createdAt are kept, else they become the fresh id, '', '' and now; the segments are kept, else []; it is active unless active is exactly false |
| Models.RouletteRoundTrip | src/models/Card.js:85-98 | fromJSON(toJSON(r)) is r exactly when r is well formed |
| Models.IdRegeneratedOnLoad | src/models/Card.js:57-68 | a roulette stored without an id gets a different id on each load with different fresh ids |
| Models.RouletteConfig.constructor | src/models/Card.js:57-64 | the object's JSON is the loaded roulette |
| Models.RouletteConfig.FromJson | src/models/Card.js:96-98 | returns a new roulette whose JSON is the loaded roulette |
| Models.RouletteConfig.AddSegment | src/models/Card.js:70-79 | appends the defaulted segment and changes nothing else |
| Models.RouletteConfig.RemoveSegment | src/models/Card.js:81-83 | the segments lose exactly those with the id |
| Models.RouletteConfig.ToJson | src/models/Card.js:85-94 | a record of the roulette's fields, which fromJSON reads back as the same roulette whenever it has an id and a creation date |
| CardService.LoadedCatalog | src/services/CardService.js:16-36 | a cached catalog is reused; otherwise the fetched one, or an empty catalog when the fetch fails |
| CardService.EntryFor | src/services/CardService.js:272-280 | a new unlock entry copies name, type and rarity and is stamped with now |
| CardService.Unlock | src/services/CardService.js:262-285 | after unlocking, the kind is unlocked; an unlocked kind leaves the list as it was, a new kind appends one entry |
| CardService.UnlockIdempotent | src/services/CardService.js:262-285 | unlocking the same card twice is unlocking it once |
| CardService.UnlockKeepsOthers | src/services/CardService.js:262-285 | unlocking one kind does not change whether any other kind is unlocked |
| CardService.LockSpec | src/services/CardService.js:329-343 | lock shortens the list exactly when the kind was unlocked; afterwards the kind is not unlocked, and every other kind is as before |
| CardService.FilterCards | src/services/CardService.js:153-179 | the result is a subsequence of the cards holding every card that meets every given criterion exactly as often as the list does, and no other card |
| CardService.EmptyFilterKeepsAll | src/services/CardService.js:153-179 | an empty filter returns every card in order |
| CardService.NameCriterionCaseInsensitive | src/services/CardService.js:173-175 | a name criterion matches any name containing it, ignoring case |
| CardService.StatsBalance | src/services/CardService.js:193-218 | available plus used is the total, and the type and rarity counts each sum to the available cards |
| CardService.StatsOf | src/services/CardService.js:193-218 | the total is the available plus the used count, the used count includes the historical one, and no more cards are available than are held |
| CardService.StatsFromCounts | src/services/CardService.js:203-215 | helper: counts that agree with the available and used filters and the type and rarity tallies make up StatsOf |
| CardService.CountStep | src/services/CardService.js:193-218 | one more card raises exactly one of the counters, and the type and rarity counts only for an unused card |
| CardService.RemoveTotal | src/services/CardService.js:126-150 | removing an id lowers the current cards by the copies with that id, and the historical count by what was added to it |
| CardService.RemoveSingleTotal | src/services/CardService.js:126-150 | for a card held once, `removeCard(id, true)` keeps the total and `removeCard(id, false)` lowers it by one, whatever the card's own `used` field |
| CardService.CleanupTotal | src/services/CardService.js:221-242 | archiving the used cards keeps the total and the available count |
| CardService.Archived | src/services/CardService.js:233-236 | an archived card keeps its usedAt when truthy, else is stamped now, and changes no other field |
| CardService.ShopCard | src/services/CardService.js:298-326 | a bought card comes from the shop, is stamped now, is unused and is well formed |
| CardService.PatchSpec | src/services/CardService.js:96-108 | an empty patch changes nothing, and a patch of used alone changes only used |
| CardService.UsedAt | src/services/CardService.js:111-122 | using a card keeps the collection's length |
| CardService.UnusedAt | src/components/Card.js:142-148 | recovering a card keeps the collection's length |
| CardService.UseThenUnuseRestores | src/components/Card.js:134-148 | using an unused held card changes the collection, and recovering it then restores the collection exactly |
| CardService.CardLedger.constructor | src/services/CardService.js:8-14 | the service starts from the stored collection, unlock list, used count and history, with no catalog |
| CardService.CardLedger.LoadCatalog | src/services/CardService.js:16-36 | returns and caches the loaded catalog |
| CardService.CardLedger.GetCardDefinition | src/services/CardService.js:39-42 | the definition with that id in the loaded catalog, or null |
| CardService.CardLedger.Resolve | src/services/CardService.js:63-73 | inline data is used as is; an id is looked up in the loaded catalog, and a missing one is an error |
| CardService.CardLedger.AddCard | src/services/CardService.js:63-87 | an unknown id throws and changes nothing; otherwise it appends the loaded card and unlocks its kind for the shop |
| CardService.CardLedger.GetCardById | src/services/CardService.js:90-93 | the first held card with the id, and a card exactly when one is held |
| CardService.CardLedger.UpdateCard | src/services/CardService.js:96-108 | patches the first card with the id in place, or returns null and changes nothing |
| CardService.CardLedger.UseCard | src/services/CardService.js:111-122 | the first card with the id is marked used when unused; a missing or used card returns null |
| CardService.CardLedger.UnuseCard | src/components/Card.js:142-148 | the first card with the id is marked unused when used; otherwise null |
| CardService.CardLedger.RemoveCard | src/services/CardService.js:126-150 | removes every card with the id, returning whether one was held; a used removal counts it and archives it |
| CardService.CardLedger.GetCardsByFilter | src/services/CardService.js:153-179 | the held cards meeting every criterion, in order and with their multiplicity, and no others |
| CardService.CardLedger.GetCardStats | src/services/CardService.js:193-218 | the statistics of the held cards and the historical used count |
| CardService.CountCards | src/services/CardService.js:195-196 | the counting loop gives the number of available and of used cards, and the type and rarity tallies of the available ones |
| CardService.CardLedger.CleanupUsedCards | src/services/CardService.js:221-242 | keeps the unused cards, adds the used ones to the count and archives them in order, and reports whether any were removed |
| CardService.CardLedger.Archive | src/services/CardService.js:231-237 | appends the archived form of each card to the history |
| CardService.CardLedger.ClearAllCards | src/services/CardService.js:245-249 | empties the collection, the used count and the history, and keeps the unlock list |
| CardService.CardLedger.UnlockCard | src/services/CardService.js:262-285 | the unlock list becomes its unlocked form |
| CardService.CardLedger.IsCardUnlocked | src/services/CardService.js:288-295 | true exactly when some entry has the card's name, type and rarity |
| CardService.CardLedger.PurchaseCard | src/services/CardService.js:298-326 | appends a shop card for the resolved data without touching the unlock list; an unknown id changes nothing |
| CardService.CardLedger.LockCard | src/services/CardService.js:329-343 | returns whether the kind was unlocked and afterwards it is not |
| CoinService.TableValue | src/services/CoinService.js:97-106 | the table's value for the key, or 0 when missing |
| CoinService.LoadedConfig | src/services/CoinService.js:14-36 | a cached configuration is reused; otherwise the fetched one, and a failed fetch is an error |
| CoinService.Balance | src/services/CoinService.js:39-55 | a stored balance is read back; with none, the initial coins, and their absence is an error |
| CoinService.Spent | src/services/CoinService.js:71-86 | a spend succeeds exactly when 0 < amount <= balance, then lowering the balance by the amount, which stays non-negative; otherwise the balance is kept |
| CoinService.Credited | src/services/CoinService.js:58-68 | a positive amount raises the balance by itself; any other amount changes nothing |
| CoinService.Clamp | src/services/CoinService.js:89-94 | the manual balance is never negative and keeps a non-negative amount |
| CoinService.RefundRestores | src/pages/ShopPage.js:266-283 | refunding a successful spend restores the balance |
| CoinService.SpendZeroFails | src/services/CoinService.js:71-72 | spending 0 fails and keeps the balance |
| CoinService.ClampIdempotent | src/services/CoinService.js:89-94 | setting the balance to a set balance changes nothing |
| CoinService.CoinLedger.constructor | src/services/CoinService.js:7-11 | starts from the stored balance with no cached configuration |
| CoinService.CoinLedger.LoadConfig | src/services/CoinService.js:14-36 | returns the loaded configuration and caches it on success |
| CoinService.CoinLedger.GetCoins | src/services/CoinService.js:39-55 | returns the balance; a first read stores the initial coins; a read with a failed configuration or without initial coins is an error |
| CoinService.CoinLedger.AddCoins | src/services/CoinService.js:58-68 | a non-positive amount returns nothing and changes nothing; otherwise it stores and returns the credited balance |
| CoinService.CoinLedger.SpendCoins | src/services/CoinService.js:71-86 | a non-positive amount returns false; otherwise it returns whether it could spend and stores the resulting balance |
| CoinService.CoinLedger.SetCoins | src/services/CoinService.js:89-94 | stores and returns the clamped amount |
| CoinService.CoinLedger.GetCardPrice | src/services/CoinService.js:97-100 | the rarity's price from the loaded configuration, or 0; the configuration is cached on success, and the balance is kept |
| CoinService.CoinLedger.GetCoinReward | src/services/CoinService.js:103-106 | the tier's reward from the loaded configuration, or 0; the configuration is cached on success, and the balance is kept |
| CoinService.CoinLedger.CanAffordCard | src/services/CoinService.js:109-113 | whether the balance covers the rarity's price; a first read stores the initial balance, an error keeps the stored one, and the configuration is cached on success |
| CoinService.CoinLedger.GetConfig | src/services/CoinService.js:116-118 | the loaded configuration |
| CoinService.CoinLedger.ClearCoins | src/services/CoinService.js:121-126 | forgets the balance and the cached configuration |
| RouletteService.PrefixMonotone | src/services/RouletteService.js:147-157 | cumulative weights never decrease |
| RouletteService.Pick | src/services/RouletteService.js:147-161 | the picked segment is the first whose cumulative weight reaches the draw, or the last one when none does |
| RouletteService.PickInterval | src/services/RouletteService.js:147-157 | for a draw in (0, total], segment k is picked exactly when the draw lies in its cumulative interval |
| RouletteService.PickPositive | src/services/RouletteService.js:147-157 | a draw in (0, total] never picks a zero-weight segment |
| RouletteService.PickZero | src/services/RouletteService.js:147-157 | a zero draw picks the first segment |
| RouletteService.SelectSegment | src/services/RouletteService.js:150-161 | the subtracting loop picks the same segment as the cumulative definition |
| RouletteService.Weights | src/services/RouletteService.js:147 | the segments' weights in order |
| RouletteService.FindRoulette | src/services/RouletteService.js:64-66 | the first roulette with the id, and a roulette exactly when one exists |
| RouletteService.StampedCard | src/services/RouletteService.js:174-180 | a segment's card is copied with obtainedFrom set to the roulette id and obtainedAt to the spin time, and nothing else changed |
| RouletteService.DrawInRange | src/services/RouletteService.js:147-148 | a draw with u in (0, 1) and a positive total lies strictly inside (0, total) |
| RouletteService.Draw | src/services/RouletteService.js:147-148 | a draw with u = 0 is 0, a draw with u >= 0 is non-negative, and a draw with u in [0, 1) stays below a positive total |
| RouletteService.Outcome | src/services/RouletteService.js:163-187 | the result names the roulette and the picked segment, stamps the time, carries the stamped card and carries the coins when truthy |
| RouletteService.Spin | src/services/RouletteService.js:139-188 | null exactly for a missing or inactive roulette or one without segments; otherwise the outcome of the draw |
| RouletteService.SpinAvoidsZeroWeight | src/services/RouletteService.js:139-161 | while some weight is positive, a spin with u > 0 never lands on a zero-weight segment |
| RouletteService.SpinAllZeroPicksFirst | src/services/RouletteService.js:139-161 | when every weight is zero, the spin lands on the first segment |
| RouletteService.ResolveSpec | src/services/RouletteService.js:14-39 | resolution keeps every segment but its card, and changes the card exactly for a truthy card id without a card whose id the catalog knows |
| RouletteService.ResolveIdempotent | src/services/RouletteService.js:14-39 | resolving twice is resolving once |
| RouletteService.ResolveCardReferences | src/services/RouletteService.js:14-39 | the loop resolves every segment against the loaded catalog, touching only the catalog cache |
| RouletteService.BuildAll | src/services/RouletteService.js:122-124 | each roulette is loaded from its data with its own fresh id |
| RouletteService.RemoveRouletteSpec | src/services/RouletteService.js:83-93 | removal shortens the list exactly when the id is present, and leaves a subsequence without it |
| RouletteService.Roulettes.constructor | src/services/RouletteService.js:9-12 | starts from the stored roulettes with an empty session cache |
| RouletteService.Roulettes.GetRouletteById | src/services/RouletteService.js:64-66 | the first cached roulette with the id, and a roulette exactly when one exists |
| RouletteService.Roulettes.SpinRoulette | src/services/RouletteService.js:139-188 | the spin's result is the specified outcome |
| RouletteService.Roulettes.AddRoulette | src/services/RouletteService.js:55-61 | appends and returns the loaded roulette |
| RouletteService.Roulettes.UpdateRoulette | src/services/RouletteService.js:69-80 | patches the first roulette with the id in place, or returns null and changes nothing |
| RouletteService.Roulettes.RemoveRoulette | src/services/RouletteService.js:83-93 | returns whether the id was present; afterwards no roulette has it |
| RouletteService.Roulettes.ClearAllRoulettes | src/services/RouletteService.js:375-378 | empties the stored roulettes |
| RouletteService.Roulettes.LoadRoulettesFromConfig | src/services/RouletteService.js:191-220 | on a successful fetch the stored list becomes the fetched roulettes, each loaded; a failed fetch changes nothing |
| RouletteService.Roulettes.GetActiveRoulettes | src/services/RouletteService.js:96-136 | caches the fetched roulettes with resolved cards, or the sample roulettes when the fetch fails, and returns the active ones; the card catalog is kept or becomes the loaded one |
| RouletteService.ActiveSelection | src/services/RouletteService.js:96-136 | the active list is a subsequence holding every active roulette exactly as often as the session does, and no inactive one |
| RouletteComponent.TargetIndex | src/components/Roulette.js:227-234 | the first segment index with the caption, or none exactly when no segment has it |
| RouletteComponent.TargetAlwaysFound | src/components/Roulette.js:219-234 | the caption lookup after a spin always succeeds, at or before the picked index, on a segment with the same caption |
| RouletteComponent.GetCoinAmount | src/components/Roulette.js:491-499 | small 5, medium 15, large 30, huge 75, and 0 for any other tier |
| RouletteComponent.RouletteView.constructor | src/components/Roulette.js:9-18 | starts idle, with no result and no predetermined result |
| RouletteComponent.RouletteView.HandleSpin | src/components/Roulette.js:209-304 | a blocked or failed spin changes nothing; otherwise the view spins toward the predetermined result, aimed at its caption's index |
| RouletteComponent.RouletteView.HandleSpinComplete | src/components/Roulette.js:306-426 | adds the won card and unlocks its kind for the shop, and credits the tier's reward from the loaded configuration; without a card or coins those ledgers stay as they were; a coin failure leaves the view spinning; success shows the result |
| RouletteComponent.AddWonCard | src/components/Roulette.js:323-327 | the stamped card is appended as built and its kind unlocked; the use count, history and catalog stay |
| RouletteComponent.CreditReward | src/components/Roulette.js:329-334 | the configuration is loaded and cached; a missing configuration or balance is an error, a zero reward keeps the balance, any other reward raises it by the reward |
| ShopPage.PriceFor | src/pages/ShopPage.js:62-65 | the rarity's price from the loaded configuration, or 0 without one |
| ShopPage.FindEntry | src/pages/ShopPage.js:275-278 | the first unlock entry matching the button's rendered name, type and rarity, or none exactly when no entry matches |
| ShopPage.FoundWhenComplete | src/pages/ShopPage.js:275-278 | an entry with name, type and rarity present is always found again |
| ShopPage.NeverFoundWhenIncomplete | src/pages/ShopPage.js:255-278 | an entry missing one of them is never found |
| ShopPage.Settle | src/pages/ShopPage.js:266-290 | a purchase happens exactly when the price is positive and affordable and the entry is found; an unfound entry is refunded; the balance drops by the price only on purchase |
| ShopPage.FreeCardNeverBought | src/pages/ShopPage.js:266-271 | a card priced 0 is always refused and the balance kept |
| ShopPage.QuickCoin | src/pages/ShopPage.js:229-241 | the 0 button resets the amount and any other button adds its amount |
| ShopPage.QuickCoins | src/pages/ShopPage.js:229-241 | no clicks leave the amount as it was, and a run ending with the 0 button leaves 0 |
| ShopPage.QuickCoinsAppend | src/pages/ShopPage.js:229-241 | two runs of clicks, one after the other, act as one run |
| ShopPage.QuickCoinsAdd | src/pages/ShopPage.js:229-241 | a run of non-zero clicks adds their sum to what the input held |
| ShopPage.QuickCoinsAfterReset | src/pages/ShopPage.js:229-241 | after a reset, whatever came before, the input holds the sum of the later non-zero clicks |
| ShopPage.ShopView.constructor | src/pages/ShopPage.js:9-15 | starts from the loaded unlock list, balance and configuration, not purchasing |
| ShopPage.ShopView.HandlePurchase | src/pages/ShopPage.js:253-305 | spends the price, then buys the found kind or refunds; errors and refusals leave the collection and the shown balance as they were; the card catalog is kept, and the coin configuration is cached whenever the price is positive |
| CardComponent.BuyPrice | src/components/Card.js:239-246 | the buy price table, 10 for an unknown rarity |
| CardComponent.GetSellPrice | src/components/Card.js:238-249 | the sell price is the floor of half the buy price, at least 5 |
| CardComponent.SellPrices | src/components/Card.js:238-249 | 5, 12, 25, 50 and 100 for the five rarities and 5 for any other |
| CardComponent.SellLosesCoins | src/components/Card.js:238-249 | for every rarity the sell price is below the buy price, by at least 5 |
| CardComponent.SellPriceFollowsRarity | src/components/Card.js:238-249 | a rarer card of the table sells for strictly more, and a rarity outside it sells as a common card |
| CardComponent.SameKindFound | src/components/Card.js:176-180 | the same-kind filter finds any held card of that name, type and rarity |
| CardComponent.HoldsIffFound | src/services/CardService.js:128-131 | helper: a card is held exactly when the lookup by its id finds it |
| CardComponent.CardView.constructor | src/components/Card.js:8-14 | the view shows the given card |
| CardComponent.CardView.HandleAction | src/components/Card.js:127-218 | use marks the first card with the id used and shows useCard's result; unuse always fails with the error notice; sell and delete leave the ledgers as Sold and Deleted say; only a confirmed sale of a held card touches the coin configuration; the use count, history and catalog never change |
| CardComponent.CardView.UseAction | src/components/Card.js:134-140 | the first card with the id is marked used and shown as useCard returns it; a missing or used card shows the failure notice and keeps the view |
| CardComponent.CardView.SellCard | src/components/Card.js:150-169 | the ledgers end as Sold says: an unconfirmed sale or a card no longer held changes nothing; otherwise every copy is removed, the configuration loaded and the sell price credited, both notices shown and the parent told; a coin failure shows the error notice |
| CardComponent.CardView.DeleteCard | src/components/Card.js:171-203 | the ledgers end as Deleted says: an unconfirmed delete changes nothing; otherwise every copy is removed and, when none of its kind remains and the player agrees, the kind is locked from the shop; coins are untouched |
| CardsPage.FilteredViewSpec | src/pages/CardsPage.js:265-291 | the three passes are one filter by all three criteria: a subsequence holding every card meeting the search, rarity and status filters exactly as often as the list does, and no other card |
| CardsPage.FilteredView | src/pages/CardsPage.js:265-288 | no longer than the cards; every shown card is held and passes all three filters, and every held card passing them is shown |
| CardsPage.ClearedShowsAll | src/pages/CardsPage.js:321-330 | the cleared filters show every card |
| CardsPage.DefaultShowsAvailable | src/pages/CardsPage.js:14-18 | the initial filters show exactly the unused cards |
| CardsPage.FilterSame | src/pages/CardsPage.js:283-287 | helper: filters by two predicates that agree everywhere give the same list |
| CardsPage.SearchIgnoresCase | src/pages/CardsPage.js:269-274 | lower-casing the term or the card's name and description does not change the search |
| CardsPage.SearchFindsName | src/pages/CardsPage.js:269-274 | a term found in the lower-cased name at any offset passes the search |
| CardsPage.Insert | src/pages/CardsPage.js:293-319 | insertion adds exactly the one card |
| CardsPage.SortCards | src/pages/CardsPage.js:293-319 | sorting is a permutation of the list |
| CardsPage.SortCardsSorted | src/pages/CardsPage.js:293-319 | the sorted list is ordered by the comparator, ascending or descending |
| CardsPage.SortSortedIsIdentity | src/pages/CardsPage.js:293-319 | sorting an ordered list leaves it unchanged |
| CardsPage.SortIdempotent | src/pages/CardsPage.js:289-319 | the second sort after applyFilters changes nothing |
| CardsPage.InsertStable | src/pages/CardsPage.js:293-319 | inserting into an ordered list puts the card after every card with the same key, which keep their order |
| CardsPage.SortStable | src/pages/CardsPage.js:293-319 | the sort is stable: the cards sharing a key come out in the order they went in |
| CardsPage.MissingDateEarliest | src/pages/CardsPage.js:299-302 | a card without a date sorts as the oldest |
| CardsPage.KeyIgnoresCase | src/pages/CardsPage.js:294-308 | the key of a name or rarity is already lower case, so cards differing only in letter case share it; a date key is the date as stored |
| CardsPage.BeforeStrictTotal | src/pages/CardsPage.js:310-314 | cards with equal keys never sort apart, and of two cards with different keys one sorts before the other |
| CardsPage.BeforeTransitive | src/pages/CardsPage.js:310-314 | the comparator is transitive |
| CardsPage.BeforeAsymmetric | src/pages/CardsPage.js:310-314 | no two cards each sort before the other |
| CardsPage.SortedSplit | src/pages/CardsPage.js:294-316 | helper: a sorted list without its last card is sorted, and that card sorts before none of the others |
| Text.LexLessIsUtf16Order | src/pages/CardsPage.js:310-311 | the character-wise order agrees with comparing the strings' UTF-16 code units, as JavaScript's `<` does |
| Text.AstralBeforeHighBmp | src/pages/CardsPage.js:310-311 | a character above U+FFFF sorts before one in U+E000..U+FFFF and after an ASCII letter |
| CardsPage.CardsView.constructor | src/pages/CardsPage.js:9-22 | the initial filters, sort by date, descending, no statistics |
| CardsPage.CardsView.ApplyFilters | src/pages/CardsPage.js:265-291 | the shown list becomes the sorted filtered cards |
| CardsPage.CardsView.ApplySorting | src/pages/CardsPage.js:293-319 | the shown list becomes its sorted form |
| CardsPage.CardsView.UpdateFilter | src/pages/CardsPage.js:259-263 | replaces one filter and reapplies all |
| CardsPage.CardsView.SetSortBy | src/pages/CardsPage.js:182-187 | sets the field and re-sorts |
| CardsPage.CardsView.ToggleSortOrder | src/pages/CardsPage.js:189-195 | flips the order and re-sorts |
| CardsPage.CardsView.ClearFilters | src/pages/CardsPage.js:321-330 | resets the filters and shows every card, sorted |
| CardsPage.CardsView.LoadCards | src/pages/CardsPage.js:213-235 | reads the collection and its statistics and shows the sorted filtered cards |
| Router.HashPath | src/utils/Router.js:73-75 | the hash without its '#', and null exactly when nothing is left |
| Router.HashRoundTrip | src/utils/Router.js:26-31 | the `#path` navigate writes reads back as the path |
| Router.Target | src/utils/Router.js:21-38 | navigate lands only on registered paths, on the requested path exactly when it is registered, otherwise on the truthy default itself when that is registered, else nowhere |
| Router.TargetIdempotent | src/utils/Router.js:21-38 | navigating again to where navigate landed lands there again |
| Router.AddRouteReplaces | src/utils/Router.js:11-13 | after addRoute the path is reachable with the new handler; every other path lands where it did, except an unregistered one whose default is the new path, which now lands on it |
| Router.PopPath | src/utils/Router.js:47 | the state's path when truthy, else the hash's |
| Router.InitialPath | src/utils/Router.js:66 | the hash's path, else the default |
| Router.Router.constructor | src/utils/Router.js:6-8 | no routes, no current route, no default |
| Router.Router.Valid | src/utils/Router.js:21-61 | the current route is a registered path, so navigating to it again lands on it; with no routes registered the only valid state has no current route |
| Router.Router.AddRoute | src/utils/Router.js:11-13 | registers or replaces the handler; the current route stays valid |
| Router.Router.SetDefaultRoute | src/utils/Router.js:16-18 | sets the default |
| Router.Router.Enter | src/utils/Router.js:22-31 | sets the route, runs its handler once and pushes `#path` |
| Router.Router.Navigate | src/utils/Router.js:21-38 | enters the target of the path (recursing at most once, to the default), or changes nothing |
| Router.Router.Arrive | src/utils/Router.js:48-50 | sets the route and runs its handler when the path is truthy and registered |
| Router.Router.HashChange | src/utils/Router.js:57-63 | follows the new hash to a registered path, else leaves the route where it was |
| Router.Router.PopState | src/utils/Router.js:46-54 | follows the state's or hash's registered path, else navigates to the default |
| Router.Router.Init | src/utils/Router.js:65-69 | navigates to the hash's path, else to the default |

## Left out

- I/O: `fetch` of the three JSON configuration files is an `Option` input, and the configured URLs, cache-busting timestamps and HTTP status are not modelled.
- `console` logging, `alert` and notification texts, HTML templates, `mount`/`render`/`bindEvents` and other DOM work are not modelled. Notifications are kept as abstract notices.
- The Winwheel/TweenMax animation and stop-angle arithmetic are floating-point work in a foreign library. `RouletteView.HandleSpin` goes from the predetermined result straight to the target index.
- The roulette component's `pendingResult` and the `setTimeout` that reveals the result are not modelled. `HandleSpinComplete` shows the result at once.
- `async`/`await` interleavings and double clicks are not modelled: every handler is one sequential step.
- `Math.random`, `Date.now`, `toISOString` and `generateId` are parameters. Timestamps are compared as strings; an ISO-8601 string orders like its time, and invalid dates are not modelled.
- JSON `stringify`/`parse` are not modelled: stored values are typed fields. A value that cannot be serialized (a cycle, a BigInt) is out of scope. A corrupted stored value is modelled only in `StorageService.Lookup`, not in the typed service fields.
- StorageService.Store.Set: always returns true. A throwing `localStorage.setItem` (quota exceeded, storage disabled or denied) is not modelled: the write is assumed to succeed, although the source then returns false and writes nothing.
- StorageService.Store.Remove: always returns true. A throwing `localStorage.removeItem` is not modelled: the removal is assumed to succeed, although the source then returns false.
- StorageService.Store.Clear: always returns true. A throwing `localStorage` call during clear is not modelled: every prefixed entry is assumed removed, although the source then returns false, possibly part-way.
- StorageService.Store.Get and StorageService.Store.Exists: a throwing `localStorage.getItem` is not modelled. The source then gives the default or false. Every service that reads or writes storage inherits these assumptions.
- Keys that hit `Object.prototype` members (such as `constructor` as a route or rarity) are not modelled: maps here have no prototype.
- `parseInt` of non-numeric strings, NaN and fractional coin amounts are not modelled: amounts are integers. This applies to coins, `setCoins` and the shop's `data-price`.
- `toLowerCase` is modelled on ASCII letters only.
- A non-boolean `active` field is not modelled: `active` is a boolean, and an absent one is `None`.
- CardService.CardLedger.UpdateCard: weaker than the source, because a patch that sets a field to a falsy value is stored as patched, while the source's next read of the collection re-applies the defaults. `getAllCards` is modelled as reading the stored cards as they are, which `Models.BuiltRoundTrip` justifies for cards that were loaded once.
- RouletteService.Roulettes.UpdateRoulette: weaker than the source. A patch that sets a falsy `id`, `name`, `description` or `createdAt` is stored as given. The source's next read rebuilds the roulette through `fromJSON` and so replaces it with a fresh id, `''` or the read time. `getAllRoulettes` is modelled as reading the persisted roulettes as they are.
- The sample roulettes' literal contents are an input (`samples` of `GetActiveRoulettes`).
- `autoLoadRoulettes`, `forceReloadFromJSON` and `createSampleRoulettes` are left out: they only chain the modelled loaders.
- `getAllCardDefinitions`, `getAvailableCards`, `getUsedCards`, `getUnlockedCards` and `clearUnlockedCards` are left out as separate members. They are plain reads or a plain removal; `CardService.Available` and `CardService.UsedCards` are their filters.
- The card page's `usedAt` sort branch is not offered by its selector and is left out.
- The page's handling of a thrown `getAllCards` is left out: the model's reads cannot fail.
- The router's fallback to `location.hash` when `history.pushState` is missing is left out: that path fires a later hashchange event.
- CardService.UsedAt: its own contract states only the length. What it means is stated by `CardService.CardLedger.UseCard` and `CardService.UseThenUnuseRestores`.
- CardService.UnusedAt: its own contract states only the length. What it means is stated by `CardService.CardLedger.UnuseCard` and `CardService.UseThenUnuseRestores`.
- The application bootstrap, the roulettes list page, the rules page, the navigation bar and the coin display are not part of this model.

## Findings

| source | as written | input that shows it | evidently intended | confidence | as-written member | corrected member |
|---|---|---|---|---|---|---|
| src/components/Card.js:142-148 | the unuse action calls `CardService.unuseCard`, which the service neither defines nor exports (src/services/CardService.js:351-376); the call throws, so the action always ends in the error notice and the card stays used | any held card, used or not, with the action `unuse` | a used card is marked unused again, with `usedAt` cleared, undoing `use` | not executed | CardComponent.CardView.HandleAction | CardService.CardLedger.UnuseCard |

## Behaviour worth knowing

The code does the following, and the model does the same:

- When every segment weight is zero, the subtracting loop stops at the first segment (`RouletteService.SpinAllZeroPicksFirst`).
- A card priced 0 can never be bought, because `spendCoins(0)` refuses (`ShopPage.FreeCardNeverBought`).
- A roulette stored without an id gets a new id every time it is loaded (`Models.IdRegeneratedOnLoad`).
- A sale shows the failure notice after the sale notice, because `result` stays null.
- Cards may share an id, since catalog definitions carry their own ids. `removeCard` drops every copy, and `RemoveTotal` is stated for that general case.
