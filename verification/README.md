# Kastkar agri-shop: a Dafny model of its state logic

Kastkar is a single-page shop and advisory app for farmers. It has a
product catalog with search, sort, a cart and a WhatsApp order. It also has
mandi (market) rates, a synthetic seven-day forecast with crop-stage alerts,
an owner login with credential changes, a farm-input calculator, a soil-lab
directory and a visitor log. This project models the logic behind those
screens as pure Dafny functions over immutable records, and proves what the
screens promise about them.

The modules follow the source components:

- `Strings` and `Seqs` hold the shared vocabulary. Strings has `trim`,
  `toLowerCase`, `includes`, `startsWith`/`endsWith` and decimal printing of
  integers. Seqs has the order-preserving `filter`, the subsequence
  relation, a stable sort, and `Option`.
- `Records` holds the record shapes of `types.ts`.
- `AppState` covers the list reducers, the AI market-rate merge, the
  visitor hand-off and the two toggles of `App.tsx`.
- `Weather` is the forecast generator of `App.tsx`. The random draws are
  parameters.
- `ProductView` is catalog filtering and sorting. `ProductDisplay` covers
  the stock bar, price visibility, the lightbox, recently viewed items and
  the product of the day. `ProductAdmin` covers adding products, editing
  stock and ratings. `Cart` covers the cart and the order message. All four
  model `components/Products.tsx`.
- `CropAdvisory`, `Login`, `Calculator`, `Hero`, `SoilTest` and
  `Visitors` each model the component of the same name.
  `Visitors` covers both `VisitorList.tsx` and `VisitorEntry.tsx`.

Clocks (`Date.now()`, today's date, day of year), `Math.random()`, the
browser's `localeCompare` and the AI service are not modelled directly.
Each becomes a parameter of the function that reads it. Where a handler
reads the clock twice (once for a new id, once for a placeholder picture),
each reading is a parameter of its own, and the two may differ.

## Model

| member | source | states |
|---|---|---|
| AppState.RemoveAfterPrepend | App.tsx:343-349 | adding a record whose id is new, then deleting that id, gives back the original list |
| AppState.ReplaceNoOpAndIdempotent | App.tsx:351-353 | replacing by an id that is absent changes nothing; replacing twice with the same record equals replacing once |
| AppState.ReplaceKeepsIds | App.tsx:374-376 | replace-by-id leaves every position's id as it was |
| AppState.Prepend | App.tsx:343-345 | an added record comes first and the earlier list follows it unchanged; market rates (App.tsx:361-363), farmers (App.tsx:370-372) and visitors are added the same way |
| AppState.DeleteProduct | App.tsx:347-349 | exactly the products with another id survive, in their original order and each as often as before; an absent id changes nothing |
| AppState.UpdateProduct | App.tsx:351-353 | each position holding the record's id gets the record, every other position is unchanged, and the length is kept |
| AppState.DeleteMarketRate | App.tsx:365-367 | exactly the rates with another id survive, in order and each as often as before; an absent id changes nothing |
| AppState.UpdateFarmer | App.tsx:374-376 | positions holding the farmer's id get the record, all others are unchanged |
| AppState.DeleteFarmer | App.tsx:378-380 | exactly the farmers with another id survive, in order and each as often as before; an absent id changes nothing |
| AppState.AiRates | App.tsx:297-305 | each parsed entry becomes an AI-tagged, AI-verified rate dated today, with its crop, market, price and trend copied |
| AppState.AiRateIdsDistinct | App.tsx:298 | the tags `ai-0`, `ai-1`, ... are pairwise different |
| AppState.MergeAiRates | App.tsx:306-309 | the merged list has length min(15, new + kept manual), starts with the new rates, and holds only new rates or earlier manual ones |
| AppState.MergeDropsOldAiRates | App.tsx:307 | an earlier AI-tagged rate does not survive a refresh that does not bring it again |
| AppState.MergeShape | App.tsx:306-309 | the result is a prefix of the new rates followed by a prefix of the earlier manual rates |
| AppState.MergeManualPart | App.tsx:307-308 | the manual rates of the result are exactly a prefix of the earlier manual rates |
| AppState.MergeIdempotent | App.tsx:306-309 | applying the same refresh twice gives the same list as applying it once |
| AppState.VisitorSubmit | App.tsx:334-340 | the visitor goes in front of the log, the visit is remembered, the pop-up closes, and the other flags stay |
| AppState.ToggleAI | App.tsx:383-389 | the AI flag flips and nothing else changes |
| AppState.TogglePesticidePrices | App.tsx:392-398 | the pesticide-price flag flips and nothing else changes |
| AppState.TogglesInvolutive | App.tsx:383-398 | each toggle undoes itself, and the two toggles commute |
| Weather.GenerateDay | App.tsx:207-247 | a day has the label "Today" or the weekday name, and its spray flag is exactly "rain below 40 and wind below 18" |
| Weather.GenerateWeather | App.tsx:201-250 | seven days, the first labelled "Today", each with its own date, weekday and spray flag |
| Weather.OnlyDryDays | App.tsx:213-234 | as written, every day is Sunny with 0% rain or Partly Cloudy with 10-29%, with humidity 40-59, wind 5-19 and temperature 30-37 |
| Weather.SpraySafeIffCalm | App.tsx:236 | on a generated forecast, a day is safe to spray exactly when its wind is below 18 km/h |
| Weather.HighDrawIsNotStorm | App.tsx:220-230 | a condition draw of 0.99 gives Partly Cloudy, not Thunderstorm |
| Weather.GenerateDayIntended | App.tsx:220-234 | with thresholds compared from the highest down, each condition occurs exactly on its band of the draw |
| Weather.GenerateWeatherIntended | App.tsx:201-250 | the corrected generator still gives seven dated days starting with "Today" |
| Weather.IntendedWetDaysUnsafe | App.tsx:220-236 | corrected rain and storm days are never safe to spray, and draws up to 0.7 give the same day as the as-written generator |
| ProductView.ParseSortKey | components/Products.tsx:123-131 | each of the four option strings selects its ordering; any other string sorts by name |
| ProductView.FilterProducts | components/Products.tsx:97-119 | a product is listed exactly when it matches the active search, the category and the company; the list keeps catalog order |
| ProductView.FilterStepsCompose | components/Products.tsx:100-119 | the three successive filter passes equal one filter by the combined condition |
| ProductView.BlankSearchKeepsAll | components/Products.tsx:101 | a blank search with both drop-downs on "All" lists the whole catalog unchanged |
| ProductView.SearchById | components/Products.tsx:107 | typing a product's id finds that product |
| ProductView.DisplayList | components/Products.tsx:122-134 | the shown list is a permutation of the filtered list, so it holds exactly the matching products |
| ProductView.PriceLowSorted | components/Products.tsx:123 | under "price-low", every earlier product costs at most every later one |
| ProductView.PriceHighSorted | components/Products.tsx:124 | under "price-high", every earlier product costs at least every later one |
| ProductView.AvailabilityPartition | components/Products.tsx:125 | under "availability", the list is the in-stock matches in catalog order followed by the out-of-stock ones |
| ProductView.NameSorted | components/Products.tsx:131 | under the default ordering, neighbours are in collation order, and all pairs are when the collation is transitive |
| ProductView.CompanySorted | components/Products.tsx:126-130 | under "company", neighbours are in collation order of company, with a missing company as "" |
| ProductDisplay.StockIndicator | components/Products.tsx:533-537 | sold out exactly when not in stock or at zero, low stock below 10 with a "left" note, and the bar width is the quantity's share of 20, capped at 100 |
| ProductDisplay.IndicatorForRecordedStock | components/Products.tsx:533-537 | for a product whose stock flag agrees with its quantity, the label is decided by the quantity alone |
| ProductDisplay.IndicatorWithoutQuantity | components/Products.tsx:533 | a product without a quantity shows as available with a full bar if in stock, else sold out |
| ProductDisplay.IsPriceVisible | components/Products.tsx:581-588 | a price is hidden exactly for a pesticide, to a visitor who is not signed in, while pesticide prices are switched off |
| ProductDisplay.PesticideToggleReveals | components/Products.tsx:581-588 | for a signed-out visitor the owner's switch flips whether a pesticide price shows; other prices, and every price the owner sees, stay visible |
| ProductDisplay.JsRem | components/Products.tsx:294 | JavaScript's `%` has the sign of the dividend and is smaller than the divisor in size |
| ProductDisplay.JsRemQuotient | components/Products.tsx:294 | the dividend is a whole multiple of the divisor plus `JsRem`, with the quotient truncated toward zero, so `JsRem` is the truncated remainder |
| ProductDisplay.NextImage | components/Products.tsx:292-295 | next moves one forward and wraps from the last image to the first |
| ProductDisplay.PrevImage | components/Products.tsx:297-300 | previous moves one back and wraps from the first image to the last |
| ProductDisplay.NextPrevInverse | components/Products.tsx:292-300 | next and previous undo each other on any valid index |
| ProductDisplay.ShownImage | components/Products.tsx:1097-1101 | a picture is shown exactly when the lightbox is open on a product still in the catalog and the index lies within its main image and gallery, and it is one of those pictures |
| ProductDisplay.Navigate | components/Products.tsx:292-300 | any run of arrow presses keeps the product and keeps an index that started in range within range |
| ProductDisplay.LightboxAlwaysShowsPicture | components/Products.tsx:284-300 | opened from a card the lightbox shows the main image, and after any arrow presses it still shows a picture; a thumbnail click shows that thumbnail |
| ProductDisplay.LightboxCloseAndReopen | components/Products.tsx:284-290 | closing shows nothing and resets the index, and reopening shows the main image again |
| ProductDisplay.ViewProduct | components/Products.tsx:153-155 | the viewed id comes first, then at most three earlier ids other than it, in order; no duplicates are introduced |
| ProductDisplay.ViewTwiceIdempotent | components/Products.tsx:155 | viewing the same product twice in a row gives the same list as viewing it once |
| ProductDisplay.FindById | components/Products.tsx:149 | `find` returns nothing exactly when no product has the id, and otherwise the first product with it |
| ProductDisplay.RecentlyViewedProducts | components/Products.tsx:147-151 | the strip is the remembered ids looked up with `find`, missing ones dropped, in order; when every id still exists the i-th card is the i-th id's product |
| ProductDisplay.ViewedProductLeadsStrip | components/Products.tsx:147-155 | right after a catalog product is viewed, the strip starts with it |
| ProductDisplay.ProductOfTheDay | components/Products.tsx:138-144 | there is a product of the day exactly when the catalog is non-empty, and it is a catalog product |
| ProductDisplay.ProductOfTheDayCycles | components/Products.tsx:142-143 | the choice repeats after as many days as there are products and steps through the catalog one day at a time |
| ProductDisplay.ShowBanner | components/Products.tsx:594 | the banner shows exactly for a non-empty catalog, an empty search and both drop-downs on "All" |
| ProductDisplay.BannerOverFullCatalog | components/Products.tsx:594 | whenever the banner shows, the grid below lists the whole catalog and so includes the featured product |
| ProductAdmin.SubmitNewProduct | components/Products.tsx:345-369 | refused without a name or a non-zero price; otherwise the product gets the clock id, "Seeds", "No description provided." and a placeholder image stamped by the second clock reading for an empty image, and a stock flag matching its quantity |
| ProductAdmin.DefaultQuantityInStock | components/Products.tsx:353-354 | a form without a quantity yields ten units in stock |
| ProductAdmin.SaveStock | components/Products.tsx:389-397 | negative entries are stored as 0, the stock flag follows the stored count, and nothing else about the product changes |
| ProductAdmin.SaveStockIdempotent | components/Products.tsx:389-397 | saving the same entry twice equals saving it once |
| ProductAdmin.StockEditsKeepConsistency | components/Products.tsx:353-365 | adding a submitted product, or saving stock through the update handler, keeps every product's stock flag in step with its quantity |
| ProductAdmin.UpdateMayBreakConsistency | App.tsx:351-353 | the update handler stores any record, so a stock flag that disagrees with its quantity can enter the catalog |
| ProductAdmin.RateProduct | components/Products.tsx:261-271 | the rating is appended and nothing else about the product changes |
| ProductAdmin.AverageRating | components/Products.tsx:277-280 | an unrated product averages 0 |
| ProductAdmin.AverageWithinBounds | components/Products.tsx:277-280 | the average of ratings between two bounds lies between them |
| ProductAdmin.RatingKeepsBounds | components/Products.tsx:261-280 | adding a rating in the range of the earlier ones keeps the average in that range |
| Cart.AddToCart | components/Products.tsx:179-189 | nothing happens for an out-of-stock product; a new product is appended with quantity 1; a product already in the cart gains one unit; unique ids and positive quantities are preserved |
| Cart.AddExistingIsReplace | components/Products.tsx:183-185 | adding a product already in the cart raises that line's quantity by one and leaves every other line as it was |
| Cart.UpdateCartQuantity | components/Products.tsx:204-212 | all remaining lines have positive quantity, ids stay unique, and lines for other products come from the cart |
| Cart.UpdateKeepsOthers | components/Products.tsx:205-211 | the lines of other products are exactly those before, in order |
| Cart.UpdateTarget | components/Products.tsx:206-211 | the target line gets the new quantity when it stays positive and is removed otherwise |
| Cart.UpdateMissingId | components/Products.tsx:204-212 | changing a product that is not in the cart changes nothing |
| Cart.AddNewTotals | components/Products.tsx:179-214 | adding a new product raises the total by its price and the item count by one |
| Cart.AddExistingTotals | components/Products.tsx:183-214 | adding a product already in the cart raises the total by the price stored in its cart line, which may differ from the current price, and the item count by one |
| Cart.UpdateTotals | components/Products.tsx:204-214 | after a change, the total and the count move by exactly the target line's change |
| Cart.PlaceOrder | components/Products.tsx:216-240 | refused exactly when a detail is empty, with nothing changed; otherwise the message is the order message for the details and cart, and the cart, details and drawer are cleared |
| Cart.OrderMessage | components/Products.tsx:222-230 | the message opens with the header and customer block, has the item lines in cart order under their heading, names every item, and ends with the grand total of the cart |
| Cart.OrderTwiceRefused | components/Products.tsx:216-240 | after an order is sent the cart is empty and pressing the button again is refused |
| CropAdvisory.SelectedCrop | components/CropAdvisory.tsx:221 | the guide with the chosen id, or the first guide when none has it |
| CropAdvisory.CurrentWeather | components/CropAdvisory.tsx:222 | the first forecast day, or nothing for an empty forecast |
| CropAdvisory.SprayAlert | components/CropAdvisory.tsx:235-243 | danger exactly on days not safe to spray, safe otherwise |
| CropAdvisory.SowAlert | components/CropAdvisory.tsx:244-255 | a warning above 60% or below 20% rain, safe from 20% to 60% |
| CropAdvisory.DiseaseAlert | components/CropAdvisory.tsx:256-264 | danger above 80% humidity, safe otherwise |
| CropAdvisory.IrrigationAlert | components/CropAdvisory.tsx:265-270 | a safe note above 50% rain, no alert otherwise |
| CropAdvisory.HeavyRainAlert | components/CropAdvisory.tsx:271-276 | a warning above 70% rain, no alert otherwise |
| CropAdvisory.Advisory | components/CropAdvisory.tsx:224-281 | no alert without a forecast; otherwise the open tab's rule on the first day; a message is shown exactly when there is a severity |
| CropAdvisory.OnlyFirstDayMatters | components/CropAdvisory.tsx:222-279 | forecasts that agree on their first day give the same alert |
| CropAdvisory.OtherTabsAgree | components/CropAdvisory.tsx:271-276 | preparation, fertiliser and yield share the heavy-rain rule |
| CropAdvisory.AdvisoryOnGeneratedForecast | components/CropAdvisory.tsx:234-276 | on a generated forecast, the irrigation and heavy-rain alerts never appear, and spraying is a danger exactly when the wind reaches 18 km/h |
| Login.Effective | components/Login.tsx:72-73 | a stored non-empty entry is in effect, and a missing or empty one falls back to the default, which is never empty |
| Login.MissingIffBlank | components/Login.tsx:63 | a field counts as missing exactly when it is all whitespace |
| Login.Initialise | components/Login.tsx:33-42 | a missing or empty entry is replaced by its default, an existing one is kept, and the credentials in effect do not change |
| Login.InitialiseIdempotent | components/Login.tsx:33-42 | initialising twice equals initialising once |
| Login.SwitchModeForgets | components/Login.tsx:44-57 | the screen reached by switching mode does not depend on what was typed before, and submitting any of the fresh forms is refused for missing fields with the store untouched |
| Login.CheckLogin | components/Login.tsx:59-84 | blank fields are refused first; otherwise sign-in succeeds exactly when the entries equal the credentials in effect, untrimmed |
| Login.SubmitLogin | components/Login.tsx:59-84 | success signs in the owner; failure shows the error for the failed check |
| Login.ChangePassword | components/Login.tsx:87-126 | the five checks in source order, each error exactly when the earlier checks pass and it fails; a failure stores nothing, a success stores only the new password |
| Login.ChangePasswordThenLogin | components/Login.tsx:110-126 | after a password change the new password signs in with the same id, and no other password does |
| Login.SubmitChangePassword | components/Login.tsx:87-136 | success returns to login with a cleared form and the "updated" notice; failure keeps mode and entries and shows the error |
| Login.ChangeId | components/Login.tsx:139-178 | the five checks in source order; a failure stores nothing, a success stores only the new id |
| Login.ChangeIdThenLogin | components/Login.tsx:161-178 | after an id change the new id signs in with the unchanged password |
| Login.SubmitChangeId | components/Login.tsx:139-188 | success returns to login with a cleared form and the "updated" notice; failure keeps mode and entries |
| Login.SuccessScreensAreLoginSwitch | components/Login.tsx:127-186 | a successful change lands on the fresh login form that "Back to Login" gives, with the success notice |
| Calculator.Ceil | components/Calculator.tsx:18 | `Math.ceil` gives the least integer not below its argument |
| Calculator.CeilMonotone | components/Calculator.tsx:18-34 | a larger need never rounds to fewer packs |
| Calculator.EstimateFor | components/Calculator.tsx:14-36 | per crop: cotton ⌈2a⌉ packets, ⌈a⌉ DAP and ⌈a/2⌉ potash; soybean 25a-30a kg, ⌈a⌉ DAP and ⌈10a⌉ kg sulphur; wheat 40a kg, ⌈a⌉ NPK and ⌈a/2⌉ urea; gram 25a kg and ⌈a⌉ DAP; any other crop gives nothing |
| Calculator.AtLeastOneBag | components/Calculator.tsx:11-35 | any positive field needs at least one basal bag |
| Calculator.EstimateMonotone | components/Calculator.tsx:16-35 | a larger field of the same crop never needs fewer packs, bags or seed |
| Calculator.WholeAcres | components/Calculator.tsx:16-25 | on whole acres only the half-rate bags round, an odd count rounding up |
| Calculator.FertilizerText | components/Calculator.tsx:19-34 | the fertiliser line starts with the basal bag count and is empty only for an unlisted crop |
| Calculator.Calculate | components/Calculator.tsx:10-39 | nothing changes, not even an earlier result, unless the size is present and positive; otherwise the result is the crop's estimate |
| Calculator.Reset | components/Calculator.tsx:41-44 | size and result are cleared and the crop stays |
| Calculator.ResetThenCalculate | components/Calculator.tsx:10-44 | after a reset, calculating does nothing, and a second reset changes nothing |
| Calculator.CalculateIdempotent | components/Calculator.tsx:10-39 | calculating twice shows what calculating once shows |
| Hero.FilteredRates | components/Hero.tsx:104-107 | a rate is listed exactly when its market or crop contains the query, ignoring case; order and repeats are kept |
| Hero.EmptyQueryKeepsAllRates | components/Hero.tsx:104-107 | an empty query lists every rate |
| Hero.LongerQueryNarrowsRates | components/Hero.tsx:104-107 | extending the query can only remove rates |
| Hero.TimestampNotAiTagged | components/Hero.tsx:113 | a clock-stamped id never starts with the AI tag |
| Hero.SubmitMarketRate | components/Hero.tsx:109-119 | a rate only with crop, market and price; trend defaults to "0.0%" and date to today; a hand-entered rate is manual |
| Hero.HandleMarketSubmit | components/Hero.tsx:109-123 | a complete form adds the rate in front, closes the modal and clears the form; an incomplete one changes nothing |
| Hero.SubmittedRateIsFound | components/Hero.tsx:104-119 | a rate just entered is found by searching for its crop |
| Hero.SubmittedRateSurvivesRefresh | components/Hero.tsx:109-119 | a hand-entered rate survives an AI refresh of fewer than fifteen rates |
| Hero.SubmitBullionRate | components/Hero.tsx:125-134 | a rate only with metal and price, with the same defaults |
| Hero.HandleBullionSubmit | components/Hero.tsx:125-137 | a complete form hands the rate on, closes and clears; an incomplete one does nothing (the panel as written, when handed the bullion props) |
| Hero.RenderBullionCard | components/Hero.tsx:419 | the card lists one metal per rate, and rendering fails when no list is handed in |
| Hero.HandleBullionSubmitWired | components/Hero.tsx:125-137 | with the add handler present, submitting is `HandleBullionSubmit`; with it missing, a complete form throws before the modal closes, so nothing is delivered and nothing changes |
| Hero.RenderHero | components/Hero.tsx:177-419 | the panel renders only when it is handed a bullion list; when it does, it shows the mandi rows for the query, one metal per bullion rate, the "+" button exactly for a signed-in owner, the modal exactly when open, and the farmers |
| Hero.BullionLostAsWired | App.tsx:404-417 | as the home page hands the panel no bullion list, rendering it fails for every state, so no mandi row, no "+" button, no bullion modal and no farmer card ever appears |
| Hero.BullionWiredCorrectly | components/Hero.tsx:24-38 | handed the list and the handler, the panel renders with every bullion rate, the mandi rows and the "+" button for an owner, and submitting behaves as `HandleBullionSubmit` |
| Hero.AddFlowAddsFarmer | components/Hero.tsx:140-169 | opening the blank modal, typing and saving puts a farmer with the clock id and the typed fields first, with a placeholder portrait stamped by the second clock reading when no image was typed, keeps the rest of the list and closes the modal |
| Hero.OpenEditFarmer | components/Hero.tsx:171-175 | the edit button opens the farmer's own record in edit mode |
| Hero.EditFarmerFields | components/Hero.tsx:644-660 | typing sets name, location, achievement, image and year to what was typed, and keeps the id and the mode |
| Hero.HandleFarmerSubmit | components/Hero.tsx:140-152 | edit mode replaces the farmer with the same id and keeps every id in place; add mode puts the record first with the clock id, and, if no image was given, the placeholder portrait stamped by a second, separate clock reading |
| Hero.AddedFarmerDeletable | components/Hero.tsx:145-149 | a farmer just added can be deleted by its new id, giving back the earlier list |
| Hero.EditKeepsRoster | components/Hero.tsx:140-175 | opening, editing and saving a farmer changes only that farmer |
| Hero.TrendTone | components/Hero.tsx:377 | green after a leading '+', blue for exactly "Forecast", red otherwise |
| Hero.SignedTrendsAgree | components/Hero.tsx:377-378 | a '-' trend is red with the arrow down, a '+' trend green with the arrow up, "Forecast" has no arrow |
| Hero.UnsignedTrendLooksFalling | components/Hero.tsx:377-378 | the default "0.0%" is coloured as falling with an upward arrow |
| SoilTest.FilteredLabs | components/SoilTest.tsx:100-109 | a lab is listed exactly when its district, name or address contains the term, ignoring case, and its kind passes the filter; order and repeats are kept |
| SoilTest.InitialListIsDirectory | components/SoilTest.tsx:100-109 | with no term and all kinds, any directory, the ten labs included, is listed whole and in its order |
| SoilTest.TypeFilterSplits | components/SoilTest.tsx:106 | one kind lists only labs of that kind and never more than all kinds; the two kinds together count exactly what all kinds list |
| SoilTest.LongerTermNarrowsLabs | components/SoilTest.tsx:101-104 | extending the term can only remove labs |
| Visitors.FilteredVisitors | components/VisitorList.tsx:13-17 | a visitor is listed exactly when the name or village contains the term ignoring case, or the mobile contains it as typed; order and repeats are kept |
| Visitors.EmptyTermKeepsAllVisitors | components/VisitorList.tsx:13-17 | an empty term lists every visitor |
| Visitors.LongerTermNarrowsVisitors | components/VisitorList.tsx:13-17 | extending the term can only remove visitors |
| Visitors.SubmitEntry | components/VisitorEntry.tsx:16-27 | a visitor only when name, mobile and village are all non-empty, copied untrimmed, with the clock id and today's date |
| Visitors.SkipComesBack | App.tsx:509-512 | Skip hides the pop-up without recording anything, so it is still due on the next load exactly when it was before |
| Visitors.AnyMobileAccepted | components/VisitorEntry.tsx:16-59 | a mobile entry that is not ten digits is still accepted by the submit handler |
| Visitors.SubmittedVisitorFound | components/VisitorEntry.tsx:18-25 | a submitted visitor heads the log and is found by the mobile entered |
| Visitors.HandleEntryEvent | App.tsx:509-512 | a submitted visitor goes through the visitor handler, closing only hides the pop-up, and no event changes nothing |
| Visitors.SubmitNotAskedAgain | App.tsx:255-262 | a complete form records one visitor and stops the pop-up from being scheduled again; an incomplete one changes nothing |
| Strings.TrimEmptyIffBlank | components/Login.tsx:63 | `trim()` is empty exactly for all-whitespace text |
| Strings.ContainsIffOccurs | components/Hero.tsx:105 | `includes` agrees with "occurs at some position" |
| Strings.ContainsIgnoringCaseNarrows | components/VisitorList.tsx:14-15 | the empty term matches every field, and a term's extension matches only fields the term matches |
| Strings.NatToStringRoundTrip | components/Hero.tsx:113 | the decimal text of a clock reading reads back as that number |
| Strings.IntToStringInjective | App.tsx:298 | different numbers print differently |
| Seqs.Filter | components/SoilTest.tsx:100 | `filter` keeps exactly the passing elements, as a subsequence of the input; how often each survives is stated by Seqs.FilterMultiplicity |
| Seqs.FilterMultiplicity | components/SoilTest.tsx:100 | `filter` keeps each passing element as many times as it occurs and drops every failing one |
| Seqs.Present | components/Products.tsx:150 | dropping `undefined` keeps exactly the present values, in order, all of them when none is missing |
| Seqs.Sort | components/Products.tsx:122 | sorting permutes the list |
| Seqs.SortAdjacentSorted | components/Products.tsx:122-132 | with a total comparison, neighbours end up in order |
| Seqs.SortPartition | components/Products.tsx:125 | sorting by a two-valued key is stable: the first block in order, then the second |
| Seqs.FilterSplitCount | components/SoilTest.tsx:106 | two disjoint filters that together accept what a third accepts split its count |

## Left out

- Persistence to `localStorage` is not modelled; reads and writes become state fields. The exceptions are the login `Store` and the recently-viewed ids, which are modelled as plain values.
- The AI requests (market-rate refresh, crop suitability, chat) are not modelled. The merge starts from an already parsed answer.
- Rendering and styling are not modelled: JSX, notifications, timeouts, camera and barcode scanning, file uploads, sharing, and the WhatsApp URL encoding.
- `Math.random()`, `Date.now()`, today's formatted date, and the day of the year are parameters. So is `localeCompare`, as a comparison `collate`. Sorting lemmas assume only that it is total, plus transitive for the all-pairs claim.
- `toLowerCase` is modelled on ASCII letters only, and `trim` uses the ECMAScript whitespace set.
- String length is counted in Unicode scalar values. JavaScript counts UTF-16 code units, which differ only for characters outside the Basic Multilingual Plane. This affects the 6- and 4-character minimums at components/Login.tsx:102 and 154.
- Prices, quantities and ratings are unbounded integers, and acres are exact reals. Floating-point rounding is not modelled, and neither is number-to-text formatting of non-integers. That covers the seed kilograms in components/Calculator.tsx:23-33 and `toFixed(1)` in the average rating.
- The bullion panel (components/Hero.tsx) is modelled as if the page supplied its bullion list and handlers. App.tsx:404-417 supplies neither; what that does is recorded under Findings. Deleting a bullion rate is not modelled, because App.tsx has no bullion list to delete from.
- Weather location detection (components/Hero.tsx:70-90) is geolocation I/O and is not modelled.
- Seqs.Filter: its own contract states membership and order only. How often each element survives is stated separately by Seqs.FilterMultiplicity, and every list filter of the model (RemoveById, FilteredRates, FilteredLabs, FilteredVisitors) carries that count in its contract. Keeping the count out of `Filter` itself keeps the proofs that unfold it small.
- ProductAdmin.AverageRating: states only the empty case in its own contract; the bounds are in AverageWithinBounds, and the one-decimal rounding is left out.
- Calculator.FertilizerText: states the leading basal count and emptiness only; the seed text is not rendered because its amounts are non-integer numbers.

## Findings

| source | as written | input that shows it | evidently intended | confidence | as-written member | corrected member |
|---|---|---|---|---|---|---|
| App.tsx:220-234 | `rand > 0.7` is compared before `rand > 0.85` and `rand > 0.95`, so the Light Rain and Thunderstorm branches never run | a condition draw of 0.99 (or 0.9) gives Partly Cloudy with 10-29% rain | compare the thresholds from the highest down, so draws above 0.95 give a thunderstorm and draws in (0.85, 0.95] light rain | high; not executed | Weather.HighDrawIsNotStorm | Weather.IntendedWetDaysUnsafe |
| App.tsx:404-417 | the home page renders `Hero` without `bullionRates`, `onAddBullionRate` or `onDeleteBullionRate`, so components/Hero.tsx:419 maps over `undefined` and the render throws; with no error boundary above it, none of the panel appears (no rates, no bullion "+" button or modal, no farmers) | rendering the home page, which is the view the app opens on | App.tsx keeps a bullion list and passes it with its add and delete handlers | medium; not executed | Hero.BullionLostAsWired | Hero.BullionWiredCorrectly |
