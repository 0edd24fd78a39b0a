# now-app rules in Dafny

This project models the decision layer of *now-app*, a personal daily
assistant with a pantry, a wardrobe and a weather-aware home screen. It
covers the rules that turn an inventory, a "today" and a forecast into
labels, filtered lists, rankings and outfits, plus the list updates that the
pantry page keeps in React state. Properties of these rules are proved
alongside them.

Modules, one per source file, plus three shared helper modules:

- `PantryRules` (`pantry.dfy`): `src/lib/pantry.ts`. It holds the
  three-day expiry window, the expiry label and the multi-store deal
  calculator over the `STORE_PRICES` table. The per-store loop with its
  running total is a method; the final sort is an insertion-sort function.
- `WardrobeRules` (`wardrobe.dfy`): `src/lib/wardrobe.ts`. It holds the
  two analytics filters, the three-day outfit generator, the batch "mark as
  worn" update and the mirror scan. The generator is a method that builds
  each outfit by successive pushes.
- `WeatherDecoding` (`weather.dfy`): `src/lib/weather.ts`. It holds the
  WMO code table with its "Sunny" fallback, the decoding of a parsed
  Open-Meteo response (the day-by-day zip of the daily arrays) and the
  location-name fallback chain of `reverseGeocode`.
- `PantryPage` (`pantry_page.dfy`): `src/app/pantry/page.tsx`.
  - The class `PantryPageState` holds the page's inventory, shopping list,
    restock prompt and tab. Its methods are the page's handlers.
  - The active-item and tab filters are functions.
  - The nested scan of the health-balance card is a method with loops.
- `HomePage` (`home.dfy`): `src/app/page.tsx`. It holds the 14-day date
  strip (a method with a counted loop), the weekday/weekend schedule, the
  weather icon, the forecast lookup for the selected day and the chilly and
  rain notices.
- `Text`, `Seqs` and `Wrappers` model the JavaScript pieces the core relies
  on:
  - ASCII `toLowerCase` and `includes`, and number-to-text rendering;
  - an order-preserving `filter`, `find`, and `sort` (an insertion sort by
    a total preorder);
  - `Option` and `Result`.

Representation choices:

- Calendar dates are whole day numbers and instants are whole milliseconds.
- Prices are integer cents and temperatures are integers.
- Each `Math.random()` draw is an injected natural number, taken modulo the
  length of the list it picks from. The 30% outerwear chance is an injected
  boolean.
- Clocks, random ids and `toLocaleDateString` are parameters.
- Days of the week count 0 (Sunday) to 6 (Saturday). Day 0 is 1 January
  1970, a Thursday.

One behaviour of the code worth noting:

- The nutrition scan of the health-balance card lowercases the item name
  but not the profile key (`src/app/pantry/page.tsx:66-68`). The match is
  therefore not case-insensitive: a key with a capital letter never
  matches (`PantryPage.CapitalKeyNeverMatches`).

## Model

| member | source | states |
|---|---|---|
| PantryRules.ExpiringSoonItems | src/lib/pantry.ts:73-80 | The result is an order-preserving sublist: each item occurs as often as in the input when it is not consumed and expires between today and today+2, and otherwise not at all. |
| PantryRules.ExpiringSoonIdempotent | src/lib/pantry.ts:80 | Applying the expiry window twice gives the same list as applying it once. |
| PantryRules.ExpiryLabel | src/lib/pantry.ts:83-95 | The urgency is overdue iff the date is past, today iff it is today, soon iff it is 1 to 3 days away, and normal iff it is further away. |
| PantryRules.ExpiryLabelTexts | src/lib/pantry.ts:92-95 | The label is "Expires Today", "Expires Tomorrow" or "Expired" in those cases, and "Expires in N days" for a difference N of at least 2. |
| PantryRules.UrgencyMonotone | src/lib/pantry.ts:92-95 | A later expiry date is never more urgent. |
| PantryRules.ExpiryLabelDistinguishesDays | src/lib/pantry.ts:92-95 | From today on, two dates with the same label text are the same date. |
| PantryRules.WindowMatchesUrgency | src/lib/pantry.ts:73-95 | An item is in the expiry window iff it is active, at most two days away, and labelled today or soon. |
| PantryRules.MatchKey | src/lib/pantry.ts:105-118 | A key that is found is a position of the store's table. |
| PantryRules.MatchKeyFound | src/lib/pantry.ts:110-120 | A found key is never the empty key, and it matches the name exactly or by inclusion in one direction or the other. |
| PantryRules.MatchKeyExact | src/lib/pantry.ts:110 | For a non-empty name, the first key that lowercases to the name wins, whatever else matches. |
| PantryRules.MatchKeyOverlap | src/lib/pantry.ts:113-118 | With no exact key, the first key in table order that includes the name or is included in it decides, and an empty key there counts as not found. |
| PantryRules.MatchKeyNone | src/lib/pantry.ts:113-125 | When no key matches in either direction, nothing is found. |
| PantryRules.EmptyNameTakesFirstKey | src/lib/pantry.ts:113-117 | An empty item name is included in every key, so it takes the first key of the table (if that key is not empty). |
| PantryRules.LinesAppend | src/lib/pantry.ts:105-126 | Pricing a concatenated list gives the lines of the first part followed by the lines of the second. |
| PantryRules.SumAppend | src/lib/pantry.ts:122 | The total of concatenated lines is the sum of the two totals. |
| PantryRules.LinesKeepNamesInOrder | src/lib/pantry.ts:123-126 | The names of a store's lines are a subsequence of the shopping list's names, so a store lists at most as many items as the list has. |
| PantryRules.LinesStep | src/lib/pantry.ts:105-126 | One more shopping item adds the matched key's price under the item's name, or nothing when no key matches. |
| PantryRules.UnmatchedDropped | src/lib/pantry.ts:120-126 | An item that no key matches is dropped: removing it changes neither the total nor the lines. |
| PantryRules.MatchedKept | src/lib/pantry.ts:120-126 | A matched item contributes its line at its own place in the list, and its price to the total. |
| PantryRules.EmptyListDeal | src/lib/pantry.ts:101-133 | For an empty shopping list every store offers total 0 and no lines. |
| PantryRules.PriceStore | src/lib/pantry.ts:101-133 | The loop with its running total yields the store's offer, and that offer's total is the sum of its lines. |
| PantryRules.TotalLePreorder | src/lib/pantry.ts:134 | Comparing offers by total is a total preorder, so sorting by it is well defined. |
| PantryRules.CalculateBestDeals | src/lib/pantry.ts:98-135 | There is exactly one offer per store: the result is a permutation of the per-store offers, sorted non-decreasing by total. |
| PantryRules.ExampleMilkAndCoffee | src/lib/pantry.ts:56-71 | For whole milk and coffee beans, Discount Depot (14.90) ranks before FreshMart Central (17.20). |
| WardrobeRules.ItemsWornLastWeek | src/lib/wardrobe.ts:111-115 | The count is the number of items last worn strictly after the cut-off, and it is at most the inventory size. |
| WardrobeRules.NeverWornNotCounted | src/lib/wardrobe.ts:114 | An item with no last-worn date does not change the count. |
| WardrobeRules.LastWornLePreorder | src/lib/wardrobe.ts:121-125 | "Never worn first, then earlier wear first" is a total preorder. |
| WardrobeRules.UnwornCompareInconsistent | src/lib/wardrobe.ts:121-125 | The comparator as written puts each of two never-worn items before the other. |
| WardrobeRules.UnwornCompareAgrees | src/lib/wardrobe.ts:121-125 | On every other pair, the comparator and that preorder agree. |
| WardrobeRules.UnwornAlternatives | src/lib/wardrobe.ts:117-126 | The result holds exactly the items never worn or last worn before the cut-off, with their multiplicities. Never-worn items come first, then the rest in ascending last-worn order. |
| WardrobeRules.RecentlyWornExcluded | src/lib/wardrobe.ts:120 | An item worn at or after the cut-off is never offered. |
| WardrobeRules.OfCategorySpec | src/lib/wardrobe.ts:138-141 | The category filter keeps exactly the inventory's items of that category, and it is non-empty iff the inventory has one. |
| WardrobeRules.PickIfSpec | src/lib/wardrobe.ts:143-173 | A conditional pick is at most one inventory item of the category, and it is there iff the condition holds and the category is in stock. |
| WardrobeRules.HasAppend | src/lib/wardrobe.ts:166-174 | A category occurs in a concatenation iff it occurs in one of the parts. |
| WardrobeRules.HasPick | src/lib/wardrobe.ts:166-174 | A slot pick holds category d iff it is non-empty and d is its slot's category. |
| WardrobeRules.SlotOrderAppend | src/lib/wardrobe.ts:166-174 | Two lists in slot order, whose slots do not interleave, concatenate in slot order. |
| WardrobeRules.FourPicksInOrder | src/lib/wardrobe.ts:166-174 | The top, bottom, shoe and outer picks form an outfit in slot order, made of inventory items and with no accessory. |
| WardrobeRules.OutfitShape | src/lib/wardrobe.ts:160-174 | Every outfit satisfies both `OutfitMembers` and `OutfitCategories`. |
| WardrobeRules.OutfitMembers | src/lib/wardrobe.ts:166-174 | An outfit has at most four items, all from the inventory and none an accessory, in the order top, bottom, shoes, outerwear. |
| WardrobeRules.OutfitCategories | src/lib/wardrobe.ts:162-174 | An outfit has a top, bottom and shoes iff the inventory has them. It has outerwear iff the inventory has some and the day is below 15°C, mentions rain, or the extra-layer draw came up. It has at least three items when tops, bottoms and shoes all exist. |
| WardrobeRules.ActiveForecast | src/lib/wardrobe.ts:146-152 | There are always three days: the first three of the forecast when it has at least three, and the default three otherwise. |
| WardrobeRules.GenerateOutfits | src/lib/wardrobe.ts:137-195 | There are exactly three suggestions. Suggestion i carries day i's title, its description and the outfit built from roll i, together with vibe i's id and image. |
| WardrobeRules.PlaceholderTitles | src/lib/wardrobe.ts:177-183 | "Today", "Tomorrow" and "Day 3" pass through the date formatter unchanged. |
| WardrobeRules.DefaultTitles | src/lib/wardrobe.ts:146-152 | With fewer than three forecast days, the suggestions are titled Today, Tomorrow and Day 3. |
| WardrobeRules.DefaultDescriptions | src/lib/wardrobe.ts:146-150 | The default days are described as "15°C, Sunny", "12°C, Cloudy" and "10°C, Rain". |
| WardrobeRules.DefaultThirdDayLayered | src/lib/wardrobe.ts:149 | The third default day is cold, so its outfit includes outerwear whenever the inventory has some. |
| WardrobeRules.MarkAsWorn | src/lib/wardrobe.ts:200-213 | The inventory keeps its length and ids. Items whose id is in the batch get last-worn = now and one more wear; every other item is unchanged. |
| WardrobeRules.MarkFrom | src/lib/wardrobe.ts:204-213 | The map over the inventory updates each item on its own. |
| WardrobeRules.MarkDuplicateOnce | src/lib/wardrobe.ts:201 | A batch item listed twice is counted once. |
| WardrobeRules.MarkAbsentNoEffect | src/lib/wardrobe.ts:201-205 | A batch id absent from the inventory changes nothing. |
| WardrobeRules.MarkNothing | src/lib/wardrobe.ts:200-213 | An empty batch leaves the inventory unchanged. |
| WardrobeRules.MirrorScan | src/lib/wardrobe.ts:220-233 | The scan yields one top and one bottom (each when the inventory has one), in that order, drawn from the inventory. |
| WeatherDecoding.Condition | src/lib/weather.ts:24-44 | A code in the table decodes to its text, and any other code to "Sunny". The result is never empty. |
| WeatherDecoding.NoRain | src/lib/wardrobe.ts:163 | A text without the letters r, a, i, n in a row (in either case) does not mention rain. |
| WeatherDecoding.RainConditions | src/lib/weather.ts:24-44 | A decoded condition mentions rain iff the code is 61, 63, 65, 80, 81 or 82. Drizzle, snow, thunderstorm and the fallback do not. |
| WeatherDecoding.ForecastFrom | src/lib/weather.ts:57-62 | The zip from day i on has one entry per remaining day, each built from that day's values. |
| WeatherDecoding.Forecast | src/lib/weather.ts:57-62 | The forecast has one entry per date of `daily.time`, in order. Entry i carries the date, temperature and code of day i and the condition decoded from that code. |
| WeatherDecoding.ForecastDates | src/lib/weather.ts:57-58 | The forecast dates are exactly the response's dates. |
| WeatherDecoding.DecodeWeather | src/lib/weather.ts:46-76 | A non-OK status fails with "Weather fetch failed". Otherwise the location is "Current Location", isDay holds iff the flag is 1, and the current fields are decoded from the current block. |
| WeatherDecoding.DecodedRain | src/lib/weather.ts:66 | The decoded current condition mentions rain iff its code is a rain code. |
| WeatherDecoding.FirstTruthy | src/lib/weather.ts:96 | The `\|\|` chain yields the first present, non-empty value, or the fallback when there is none. |
| WeatherDecoding.LocationName | src/lib/weather.ts:81-100 | A non-OK status gives "Unknown Location". A thrown error, or a body without an address, gives "London, UK". Otherwise the result is the first non-empty of city, town, village and suburb, with "London, UK" as the fallback. |
| WeatherDecoding.CityWins | src/lib/weather.ts:96 | A present city is always the name chosen. |
| WeatherDecoding.SuburbLast | src/lib/weather.ts:96 | With city, town and village missing or empty and a suburb present, the suburb is the name chosen. |
| PantryPage.ConsumeById | src/app/pantry/page.tsx:135-137 | The list keeps its length and order. Exactly the items with the id become consumed; the others are unchanged. |
| PantryPage.ActiveItems | src/app/pantry/page.tsx:200 | The filtered items are an order-preserving sublist holding exactly the non-consumed items, with their multiplicities. |
| PantryPage.ConsumeLeavesActive | src/app/pantry/page.tsx:135-137 | After consuming by id, the active list is the old active list without the items of that id. |
| PantryPage.ConsumedNotListed | src/app/pantry/page.tsx:135-137 | After consuming, no active item has the consumed id. |
| PantryPage.MergeFields | src/app/pantry/page.tsx:144-146 | Each of the seven fields (id, name, expiryDate, qty, image, category, consumed) takes the update's value when the update names it and keeps the item's otherwise; an empty update changes nothing. |
| PantryPage.ApplyUpdate | src/app/pantry/page.tsx:144-146 | The update is merged into exactly the items with the matching id; the rest are unchanged. |
| PantryPage.ConsumingUpdateIsConsume | src/app/pantry/page.tsx:134-146 | An update that only sets consumed to true has the same effect as a consume. |
| PantryPage.TabItems | src/app/pantry/page.tsx:614 | A tab lists exactly the active items that are on the "Pantry" tab or whose storage place is the tab's name, each as often as in the inventory, in order. |
| PantryPage.PantryTabListsAll | src/app/pantry/page.tsx:614 | The "Pantry" tab lists every active item. |
| PantryPage.InventoryTabEmpty | src/app/pantry/page.tsx:380 | The "Inventory" tab names no storage place, so it lists nothing. |
| PantryPage.RemoveById | src/app/pantry/page.tsx:428 | Removal keeps an order-preserving sublist: exactly the entries with another id, each as often as before. |
| PantryPage.RemoveIdempotent | src/app/pantry/page.tsx:428 | Removing an id twice is the same as removing it once. |
| PantryPage.PantryPageState.constructor | src/app/pantry/page.tsx:99-105 | The first render shows the "Pantry" tab, the initial inventory, an empty shopping list and no restock prompt. |
| PantryPage.PantryPageState.Consume | src/app/pantry/page.tsx:134-140 | The items become the consume-by-id of the old items and the restock prompt shows the item. Nothing else changes. |
| PantryPage.PantryPageState.Reduce | src/app/pantry/page.tsx:142-152 | The update is merged by id. The prompt shows the item only when the update sets consumed to true. Nothing else changes. |
| PantryPage.PantryPageState.AddToShoppingList | src/app/pantry/page.tsx:169-180 | A null argument changes nothing. Otherwise one entry, with the copied name, quantity and category, goes to the front of the list and the prompt closes. |
| PantryPage.PantryPageState.AddRestockToShoppingList | src/app/pantry/page.tsx:220 | With no prompt open nothing changes. Otherwise the prompted item's name, quantity and storage place go to the front of the list as a new unbought entry. The prompt is always closed, and the items and tab are kept. |
| PantryPage.PantryPageState.RemoveShoppingItem | src/app/pantry/page.tsx:428 | The list loses exactly the entries with the id. Nothing else changes. |
| PantryPage.PantryPageState.DismissRestock | src/app/pantry/page.tsx:139 | The restock prompt closes. Nothing else changes. |
| PantryPage.PantryPageState.SelectTab | src/app/pantry/page.tsx:383 | The tab becomes the chosen one, so the listed items become that tab's active items. Nothing else changes. |
| PantryPage.PresentCategories | src/app/pantry/page.tsx:63-72 | A category is present iff some non-consumed item's lowercased name includes a profile key that maps to it. |
| PantryPage.PresentSetByIndex | src/app/pantry/page.tsx:65-71 | The present set, stated by positions in the active items and in the profile table. |
| PantryPage.ConsumedSuppliesNothing | src/app/pantry/page.tsx:65 | A consumed item adds no category. |
| PantryPage.CapitalKeyNeverMatches | src/app/pantry/page.tsx:66-68 | A profile key with a capital letter never matches, because only the name is lowercased. |
| PantryPage.BalanceReport | src/app/pantry/page.tsx:74-88 | The card reports exactly the five essential categories, in order, each marked present iff it is in the present set. |
| PantryPage.ReportOnlyEssentials | src/app/pantry/page.tsx:74-82 | Any other category never appears on the card. |
| HomePage.Weekday | src/app/page.tsx:50 | A day's weekday is between 0 and 6. |
| HomePage.WeekdayWeekly | src/app/page.tsx:50 | Seven days later is the same weekday. |
| HomePage.GenerateDays | src/app/page.tsx:18-31 | There are 14 entries at offsets -6 to 7 from today, in order. Each carries its weekday's short name, and only offset 0 is today. |
| HomePage.StripConsecutive | src/app/page.tsx:22-24 | A corollary of GenerateDays' ensures: the strip's dates increase strictly, from today-6 to today+7. |
| HomePage.ExactlyOneToday | src/app/page.tsx:28 | A corollary of GenerateDays' ensures: exactly one entry, the seventh, is today. |
| HomePage.ScheduleForDate | src/app/page.tsx:49-66 | There are always three entries: the weekend plan iff the weekday is 0 or 6, and the weekday plan iff it is 1 to 5. |
| HomePage.ScheduleWeekly | src/app/page.tsx:49-66 | The schedule repeats every seven days. |
| HomePage.ScheduleExample | src/app/page.tsx:53-65 | 3 and 4 January 1970 (a Saturday and a Sunday) get the weekend plan, and 1 January 1970 (a Thursday) the weekday plan. |
| HomePage.WeatherIcon | src/app/page.tsx:117-122 | The icon is rain iff the code is at least 61, cloud iff the code is 1 to 3 (or negative), and sun for 0 and for 4 to 60. |
| HomePage.RainConditionShowsRainIcon | src/app/page.tsx:117-122 | Every code whose condition mentions rain shows the rain icon. |
| HomePage.SnowShowsRainIcon | src/app/page.tsx:120 | The rain icon covers more than the rain conditions: code 71 (snow) shows it too. |
| HomePage.DisplayWeather | src/app/page.tsx:134-155 | Without weather the result is null. Otherwise it is the first forecast day with the selected date, or the current weather when no day matches. |
| HomePage.OutfitCardText | src/app/page.tsx:232-237 | On a chilly day (displayed temperature below 15) the card suggests the overcoat, with "12" days and the "A bit chilly" opening. Otherwise it suggests the linen outfit, with "8" days. |
| HomePage.AlertText | src/app/page.tsx:242-244 | The rain alert shows iff the displayed code is at least 61. Otherwise the walk hint shows for today and the routine hint for other days. |
| HomePage.RainAlertMatchesIcon | src/app/page.tsx:117-122 | The rain alert shows exactly when the displayed weather has the rain icon. |
| HomePage.NoWeatherNoNotices | src/app/page.tsx:232-244 | Without weather, neither the chilly notice nor the rain alert shows. |
| HomePage.ChillyDayGetsOuterwear | src/app/page.tsx:232-237 | When the selected day is a chilly forecast day, that day's generated outfit has outerwear whenever the wardrobe has some. |
| Text.Lower | src/lib/pantry.ts:106 | Lowercasing keeps the length. |
| Text.NatToString | src/lib/pantry.ts:95 | A number renders as a non-empty string of decimal digits. |
| Text.NatToStringRoundTrip | src/lib/pantry.ts:95 | Reading the rendered digits back gives the number. |
| Text.NatToStringInjective | src/lib/pantry.ts:95 | Different numbers render differently. |
| Text.IntToString | src/lib/wardrobe.ts:190 | The rendering is non-empty, and it starts with a minus sign iff the number is negative. |
| Seqs.FilterSpec | src/lib/pantry.ts:80 | `filter` keeps an order-preserving sublist, with each element kept as often as it occurs iff it satisfies the test. |
| Seqs.FilterIdempotent | src/lib/pantry.ts:80 | Filtering twice by the same test is filtering once. |
| Seqs.FilterLength | src/lib/wardrobe.ts:114 | The filtered length is the number of positions that pass the test. |
| Seqs.FindFirst | src/lib/pantry.ts:110-117 | `find` yields the first position that passes the test, or none iff no position does. |
| Seqs.SortBy | src/lib/pantry.ts:134 | Sorting keeps the length and the multiset of elements. |
| Seqs.SortBySorted | src/lib/pantry.ts:134 | Under a total preorder, the sorted sequence is ordered. |

## Left out

- Network I/O: the Open-Meteo and Nominatim `fetch` calls, with their URLs and headers. The model starts from the parsed response or from the request's failure.
- WeatherDecoding.DecodeWeather: requires that the daily arrays are at least as long as the list of dates. JSON parse errors, missing fields and shorter arrays (which in JavaScript yield `undefined` entries) are not modelled.
- Float arithmetic:
  - temperatures are integers, so `Math.round` is not modelled;
  - prices are integer cents, so the `toFixed(2)` price text is not modelled (a `DealLine` holds the cents).
- Probabilities: the 30% outerwear chance is an unconstrained boolean, and the uniform choice of `getRandom` is an arbitrary natural-number draw.
- Random ids (`Math.random().toString()`) are parameters.
- Time zones and locale formatting:
  - The expiry window uses the UTC date; the expiry label parses the date as UTC and then moves both dates to local midnight. Both take "today" as one day number. A possible one-day shift in time zones west of UTC, and `Math.ceil` over a daylight-saving hour, are not modelled.
  - Comparing ISO date strings is modelled as comparing day numbers.
  - `toLocaleDateString` is an opaque `formatDate` parameter. The strip's weekday names are the fixed English table.
  - The strip's day-of-month text is not modelled; each entry keeps the day number instead.
  - The selected date's ISO string in `getDisplayWeather` is a parameter.
- Timers: the 10-second restock toast, the 3-second fake scan, the 2.5-second mirror scan and the geolocation timeout. Only the state each one leaves is modelled (`DismissRestock`, `MirrorScan`).
- The geolocation and fallback-weather flow of the home page's effect (`src/app/page.tsx:75-115`), which only chooses coordinates and calls the fetchers.
- `handleAddManual` and `handleScan` of the pantry page. They prepend an item built from form input or a fixed scanned item; only the analogous prepend of the shopping list is modelled.
- `reduceItemQuantity`, the nutrition profile table, recipes, storage tips, habits, nutrition gaps and alerts, and `CONSUMPTION_STATS` are not part of this model. Where the page uses them they are parameters: `ItemUpdate` stands for the reduce result, and the profile table is a parameter of `PresentCategories`.
- API routes, the blob and database wrappers, the camera component, the static pages and the usage heat map (float rendering math).
- Text.Lower: lowercases ASCII letters only, not the full Unicode mapping of `toLowerCase`.
- WardrobeRules.ItemsWornLastWeek: a last-worn value that is not a parsable date (which JavaScript compares as `NaN`) is not modelled; `None` stands only for a missing, null or empty value.
- WardrobeRules.UnwornAlternatives: the comparator as written leaves the order of never-worn items to the sort implementation. The model sorts by a consistent preorder instead (see Findings), and states the order between never-worn and worn items and among worn items, not among the never-worn ones.
- Seqs.SortBy: the model's insertion sort keeps equal elements in input order, as JavaScript's stable `sort` does, but that stability is not stated as a proved property.

## Findings

| source | as written | input that shows it | evidently intended | confidence | as-written member | corrected member |
|---|---|---|---|---|---|---|
| src/lib/wardrobe.ts:121-125 | The comparator returns -1 whenever `a` has no `lastWorn`, even when `b` has none either. | Two never-worn items a and b: compare(a, b) = -1 and compare(b, a) = -1, so each sorts before the other. | A consistent comparator that puts never-worn items first and the rest by ascending last-worn time. | medium, not executed | WardrobeRules.UnwornCompareInconsistent | WardrobeRules.UnwornAlternatives |
