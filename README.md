# Quote engines: interior remodel and deck

This project models the two quote-pricing engines of a small web estimator and proves properties of them:

- **Interior engine (`app.js`).** The form gives room dimensions, a service type, markups and multipliers, scope toggles, fixture and door quantities, and add-ons. The engine computes:
  - the room geometry;
  - one priced line per billable item;
  - a percent-of-materials "job consumables" line;
  - the totals.
- **Deck engine (`deck/app.js`).** The form gives deck dimensions, height, permit mode, ledger attachment, stairs, footings, a railing override and an item selection. The engine computes:
  - the deck area and perimeter;
  - whether a railing is required;
  - the footing count;
  - a tiered or admin-override markup;
  - a height multiplier;
  - the priced lines, including percent-of-materials lines;
  - an admin discount clamped to the priced total.

Money, lengths and areas are Dafny `real`.

A JavaScript `Number(...)` conversion is modelled as a value of type `Option<real>`. `None` stands for a non-finite result (NaN or an infinity). The conversion from string to number is passed in as a function parameter `number: string -> Option<real>`. `Math.sqrt` is passed in as a parameter `sqrt: real -> real`. Lemmas that need the square root to be non-negative say so in their `requires`.

Both engines read their inputs from a mutable `state` object.

The interior engine is modelled in five modules:

- `InteriorGeometry` covers `toNum` and `computeGeometry`.
- `InteriorQuote` covers `calcQuote`:
  - pure functions specify it, with `QuoteOf` at the top;
  - the methods `PushScopeLines`, `PushQtyLines`, `PushAddonLines`, `PushBaseLines`, `PushConsumablesLine`, `SumLines` and `CalcQuote` implement it with the source's loops, each proved against those functions.
- `InteriorQuoteFacts` holds the lemmas about the quote.
- `InteriorSession` holds the `QuoteState` class, whose `InitDefaultsFromData` updates the selection and quantity maps in place.
- `HtmlEscape` covers `escapeHtml`, with its inverse.

The deck engine is modelled in five modules:

- `DeckTiers` covers the sorted first-fit markup tiers.
- `DeckRules` covers the pure rules: clamp, parseNum, markup, height, area, perimeter, railing, footings and quantities.
- `DeckPricing` covers the pricing part of `render`:
  - specification functions, with `QuoteOf` at the top;
  - the loop methods `SumRawMat`, `PriceLines` and `PriceQuote`.
- `DeckPricingFacts` holds the lemmas about the quote.
- `DeckSession` holds the `DeckState` class. Its methods update `selected` and the form fields in place:
  - the boot defaults;
  - `enforceExclusive`;
  - the forced selections and form reads of `render`.

`Common` holds `Option`, the sum over a sequence `SumBy`, and its lemmas.

Some behaviours of the code that the model keeps:

- **Tier fallback.** When no markup tier covers the deck area, `tierPctForSF` returns the constant 0.25 (deck/app.js:29).
- **Tie between tiers.** The sort in `tierPctForSF` is stable, so among tiers with the same bound the one listed first wins (deck/app.js:27).
- **Admin override range.** The override percentage counts only when it lies within [0, 100] (deck/app.js:34).
- **Interior ceiling height.** The height falls back to 8 only when `Number(...)` is not finite. An empty field converts to 0 and gives a height of 0 (app.js:45-48, 72).
- **Negative rates and quantities.** They are used as given. Only the non-negativity lemmas require non-negative catalogs.
- **Markup on percent-of-materials lines.** The interior consumables line is marked up by the materials markup (app.js:369). The deck percent-of-materials line carries no markup (deck/app.js:191-197).
- **Which percent add-on is priced.** In the interior engine, only the first add-on keyed `jobConsumables` with unit `PCT_MAT` is priced. Any other `PCT_MAT` add-on yields no line (app.js:352, 364).
- **A null override.** A stored `null` override reads as `Number(null)`, which is 0. So the initial admin state carries an override of 0%, which is active as soon as the override switch is on.

## Model

| member | source | states |
|---|---|---|
| Common.SumByAppend | app.js:385-387 | the sum over lines that `reduce` computes splits over concatenation |
| Common.SumByScaled | app.js:385-387 | summing after scaling each line by a constant equals scaling the sum |
| Common.SumBySingleton | app.js:385-387 | the sum over a single line is that line's value |
| Common.SumByNonNegative | deck/app.js:177-214 | a sum of non-negative terms is non-negative |
| InteriorGeometry.ToNum | app.js:45-48 | a finite number is returned as is; a non-finite one yields the fallback |
| InteriorGeometry.ComputeGeometry | app.js:71-105 | the height falls back to 8 only when not finite; the area is L×W when both are positive, otherwise the typed area; the perimeter precedence is override, then 2(L+W), then 4·sqrt(area) when area > 0, then 0; wall area is perimeter×height and paint area is wall area plus area |
| InteriorGeometry.AreaResolvedIff | app.js:75-80 | the resolved area is positive exactly when both dimensions are positive or the typed area is positive |
| InteriorGeometry.TypedAreaIgnored | app.js:75-80 | with both dimensions positive, changing the typed area changes no part of the geometry |
| InteriorGeometry.GeometryNonNegative | app.js:71-105 | non-negative height and typed area give non-negative area, perimeter, wall and paint areas |
| InteriorGeometry.DimensionsExample | app.js:75-96 | 20 × 15 with a typed area of 999 gives area 300, perimeter 70, walls 560 and paint 860 |
| InteriorGeometry.SquareFootprintExample | app.js:88-92 | an area of 400 alone gives a perimeter of 80 |
| InteriorQuote.ServiceMultiplier | app.js:231-235 | "Handyman" selects the handyman multiplier and any other type selects the contractor one, each defaulting to 1 |
| InteriorQuote.TotalQty | app.js:271-284 | the sum of the quantities under the given keys; non-negative quantities give a non-negative total |
| InteriorQuote.DoorTotal | app.js:271-274 | the door total is the hollow, solid and closet door quantities added |
| InteriorQuote.FixtureTotal | app.js:276-284 | the fixture total is the eight fixture quantities added |
| InteriorQuote.UnitsFor | app.js:286-298 | FLOOR_SF gives the area, WALL_SF the wall area, PAINT_SF the paint area, LF the perimeter, EACH 1, EACH_FIXTURE the fixture total, EACH_DOOR the door total, DOOR_CASING_LF 14 LF per door; unknown codes and PCT_MAT give 0; non-negative inputs give a non-negative quantity |
| InteriorQuote.AddLine | app.js:302-325 | a line is added exactly when the units are positive and the rate exists; that line has mat = matRaw·(1+muMat), lab = labRaw·(1+muLab), and sell = (mat+lab)·serviceMult |
| InteriorQuote.FindConsumables | app.js:364 | returns nothing exactly when no add-on is the `jobConsumables` PCT_MAT add-on; otherwise returns the first such add-on in list order |
| InteriorQuote.ConsumablesLine | app.js:366-380 | the consumables line charges pct (default 0.05) of the raw material subtotal, marked up, has no labour, and shows pct·100 as its units |
| InteriorQuote.PushScopeLines | app.js:328-332 | the loop appends exactly the scope lines of the specification, in catalog order |
| InteriorQuote.PushQtyLines | app.js:335-346 | the loop appends exactly the fixture or door lines of the specification, in catalog order |
| InteriorQuote.PushAddonLines | app.js:349-358 | the loop appends exactly the non-PCT add-on lines of the specification, in catalog order |
| InteriorQuote.SumLines | app.js:361-387 | the `reduce` loops compute the raw material subtotal and the three totals of the specification |
| InteriorQuote.PushBaseLines | app.js:328-358 | the four `forEach` passes produce exactly `BaseLines`, the specification function of this span: the scope, fixture, door and add-on lines, in that order |
| InteriorQuote.PushConsumablesLine | app.js:360-382 | the step appends exactly `ConsumablesLines`, the specification function of this span, priced on the raw material subtotal of the lines before it; the fraction charged is `ConsumablesPct` (app.js:366-367), the rate's material entry or 0.05 |
| InteriorQuote.QuoteOf | app.js:258-270 | no quote exactly when the computed area is not positive; otherwise the quote carries that geometry, the markups read with defaults 0.25 and 0.35, the service type and its multiplier |
| InteriorQuote.CalcQuote | app.js:258-397 | the method returns exactly the specified quote: none without area; otherwise scope, fixture, door and add-on lines, then consumables, then totals |
| InteriorQuoteFacts.LinesOfAppend | app.js:328-358 | the lines of a concatenated catalog are the lines of each part, in order |
| InteriorQuoteFacts.LinesOfMember | app.js:328-358 | a line is produced exactly when some catalog item produces it |
| InteriorQuoteFacts.ScopeLinesExactly | app.js:328-332 | a scope line exists exactly for an enabled scope item with positive units and a rate |
| InteriorQuoteFacts.QtyLinesExactly | app.js:335-346 | a fixture or door line exists exactly for an item with positive quantity and a rate |
| InteriorQuoteFacts.AddonLinesExactly | app.js:349-358 | an add-on line exists exactly for an enabled non-PCT add-on with positive units and a rate |
| InteriorQuoteFacts.BaseLinesRated | app.js:302-358 | every line before the consumables pass has positive units, an existing rate, the markups applied, and is not PCT_MAT |
| InteriorQuoteFacts.BaseLinesNotPct | app.js:349-358 | no line before the consumables pass is a PCT_MAT line |
| InteriorQuoteFacts.QuoteGate | app.js:262-265 | there is no quote exactly when neither both dimensions nor the typed area are positive |
| InteriorQuoteFacts.QuoteParts | app.js:328-397 | a quote's lines are the base lines followed by the consumables lines, and its totals are the sums over those lines |
| InteriorQuoteFacts.QuoteLinesPriced | app.js:302-381 | every line of a quote carries the markups and the service multiplier, and every non-consumables line has positive units and a rate |
| InteriorQuoteFacts.ConsumablesTail | app.js:361-382 | after the consumables pass, a PCT_MAT line can only be the last line, and it charges its pct on the raw materials of all earlier lines, with no labour |
| InteriorQuoteFacts.AppendedPctLineLast | app.js:366-381 | one PCT_MAT line appended after lines of other units, charging on their raw materials, is the only PCT_MAT line and the last |
| InteriorQuoteFacts.ConsumablesLast | app.js:361-382 | every quote has at most one consumables line, last, priced on the raw materials before it |
| InteriorQuoteFacts.TotalsOfMarkedUp | app.js:385-387 | summing lines priced with one service multiplier gives totAll = (totMat + totLab)·serviceMult |
| InteriorQuoteFacts.QuoteTotals | app.js:385-387 | every quote's totals satisfy totAll = (totMat + totLab)·serviceMult |
| InteriorQuoteFacts.ConsumablesPresence | app.js:364-365 | a quote has a consumables line exactly when the `jobConsumables` add-on exists and is switched on |
| InteriorQuoteFacts.ConsumablesAloneIsFree | app.js:361-382 | with no other priced line, the consumables line costs nothing |
| InteriorSession.WithKeys | app.js:117-122 | the keys after the `forEach` are the old keys and the catalog keys |
| InteriorSession.WithKeysExactly | app.js:117-122 | after the `forEach`, the map holds exactly the old keys and the catalog keys; each catalog key has its default and every other key keeps its old value |
| InteriorSession.SetEach | app.js:117-122 | the `forEach` loop leaves the map equal to the specified assignment of each catalog key's default, in list order |
| InteriorSession.QuoteState.constructor | app.js:4-28 | the initial state: contractor service, zero dimensions, height 8, markups 0.25 and 0.35, multipliers 1, empty maps |
| InteriorSession.QuoteState.InitDefaultsFromData | app.js:107-126 | the catalog defaults, or 8, 0.25, 0.35, 1 and 1 when missing, replace the settings; scope toggles are on except `subpanel`; add-ons are on; quantities are 0; other keys are unchanged |
| InteriorSession.QuoteState.InitNumbers | app.js:110-114 | each setting is its catalog default, or 8, 0.25, 0.35, 1 and 1 when missing |
| InteriorSession.QuoteState.InitToggles | app.js:117-122 | scope toggles are on except `subpanel`, add-ons are on and quantities are 0 for every catalog key; other keys are unchanged |
| InteriorSession.QuoteState.CurrentQuote | app.js:258-270 | `calcQuote()` on the current fields of the state returns the specified quote of those fields |
| InteriorSession.NoQtyLinesAtDefaults | app.js:121-122 | right after the defaults are set, no fixture or door line is priced |
| HtmlEscape.EscapeChar | app.js:217-221 | each of the five special characters becomes an entity `&…;`, and any other character is kept |
| HtmlEscape.EscapeHtml | app.js:217-221 | the output is no shorter than the input |
| HtmlEscape.EscapedHasNoMarkup | app.js:217-221 | the output contains no `<`, `>`, `"` or `'`; every special character left is an `&` |
| HtmlEscape.UnescapeChar | app.js:217-221 | decoding an escaped character recovers it, whatever follows |
| HtmlEscape.UnescapePlain | app.js:217-221 | a character that is not special is read back as itself, whatever follows |
| HtmlEscape.UnescapeEntity | app.js:217-221 | the entity of a special character is read back as that character, whatever follows |
| HtmlEscape.UnescapeEscape | app.js:217-221 | decoding the escaped text recovers the original text |
| HtmlEscape.EscapePlainText | app.js:217-221 | text without special characters is unchanged |
| HtmlEscape.EscapeAppend | app.js:217-221 | escaping distributes over concatenation |
| DeckTiers.Insert | deck/app.js:27 | insertion into the sorted tier list keeps the same tiers plus the new one |
| DeckTiers.InsertMember | deck/app.js:27 | every tier after insertion was in the list or is the inserted tier |
| DeckTiers.InsertSorted | deck/app.js:27 | insertion keeps the tier list sorted by maxSF |
| DeckTiers.SortTiers | deck/app.js:27 | the sorted copy is a permutation of the tiers, sorted by maxSF |
| DeckTiers.FirstCover | deck/app.js:28 | the tier found is one of the list and covers the area |
| DeckTiers.FirstCoverIsFirst | deck/app.js:28 | the loop finds nothing exactly when no tier covers the area; otherwise it finds a covering tier with no covering tier before it |
| DeckTiers.TierPctForSF | deck/app.js:26-30 | the loop over the sorted copy gives the pct of the order-free reference reading, 0.25 when it finds nothing |
| DeckTiers.BestCoverSpec | deck/app.js:26-30 | the reference reading finds nothing exactly when no tier covers; otherwise the earliest covering tier with the smallest bound |
| DeckTiers.SmallestCoverHead | deck/app.js:27-28 | a covering first tier no larger than the rest's smallest cover is the smallest cover |
| DeckTiers.SmallestCoverShift | deck/app.js:27-28 | otherwise the rest's smallest cover, one place on, is the smallest cover of the whole list |
| DeckTiers.InsertFirstCover | deck/app.js:27-28 | after inserting a tier into a sorted list, the loop finds it exactly when it covers with a bound no larger than the tier found before, and otherwise finds that tier |
| DeckTiers.SortedFirstCover | deck/app.js:27-28 | the loop over the sorted copy finds the same tier as the reference reading of the unsorted list |
| DeckTiers.TierPctIsSmallestCover | deck/app.js:26-30 | whatever the input order, the result is the pct of the covering tier with the smallest maxSF, the earliest listed among equal bounds; 0.25 when none covers |
| DeckTiers.TierPctOrderIndependent | deck/app.js:26-30 | reordering the tiers does not change the result when tiers with the same bound have the same pct |
| DeckTiers.IndexInReordering | deck/app.js:27 | every tier of a list is found at some index of any reordering of it |
| DeckTiers.TierExample | deck/app.js:26-30 | tiers of 1000000, 2000 and 1000 SF, listed out of order, give the 2000 SF tier's pct (0.22) for any area above 1000 and up to 2000 SF |
| DeckTiers.TieExample | deck/app.js:26-30 | two tiers of 1000 SF with pcts 0.30 and 0.10 give 0.30, the one listed first, for any area up to 1000 SF |
| DeckRules.Clamp | deck/app.js:20 | the result is within [lo, hi] when lo ≤ hi; an in-range value is unchanged; below lo gives min(lo, hi); above hi gives hi |
| DeckRules.KeepNumeric | deck/app.js:21 | the filter never lengthens the text |
| DeckRules.KeepNumericIsNumeric | deck/app.js:21 | the filtered text contains only digits, `.` and `-` |
| DeckRules.KeepNumericAppend | deck/app.js:21 | the filter distributes over concatenation |
| DeckRules.KeepNumericOfNumeric | deck/app.js:21 | text made only of digits, `.` and `-` passes the filter unchanged |
| DeckRules.KeepNumericIdempotent | deck/app.js:21 | filtering twice gives the same text as filtering once |
| DeckRules.KeepNumericIgnoresNoise | deck/app.js:21 | removing non-numeric characters such as `$` and `,` from the input does not change the filtered text |
| DeckRules.KeepNumericOfNoise | deck/app.js:21 | text with no numeric character filters to the empty string |
| DeckRules.ParseNum | deck/app.js:21 | the number of the filtered text when finite, otherwise 0 |
| DeckRules.KeepNumericDropsCurrency | deck/app.js:21 | a leading `$` and a thousands `,` are removed by the filter |
| DeckRules.ParseNumIgnoresCurrency | deck/app.js:21 | text with a leading `$` and a thousands `,` (such as "$1,250.50") parses as the same text without them |
| DeckRules.MarkupPct | deck/app.js:32-38 | an active override (unlocked, switched on, finite, within [0, 100]) gives override/100, within [0, 1]; otherwise the tier pct |
| DeckRules.HeightMult | deck/app.js:40-44 | the mult of the first rule in list order whose maxHeightFt covers h; 1.0 when none does |
| DeckRules.DeckSF | deck/app.js:45-49 | a positive override wins; otherwise L×W when both are positive, else 0; never negative |
| DeckRules.PerimLF | deck/app.js:50-56 | 2(L+W) when both dimensions are positive; otherwise 4·sqrt(deck area) |
| DeckRules.RailingRequired | deck/app.js:57-60 | required exactly when the height reaches the configured threshold, 2.5 ft by default |
| DeckRules.RailingMonotone | deck/app.js:57-60 | if a railing is required at some height, it is required at every greater height |
| DeckRules.Ceil | deck/app.js:64 | `Math.ceil`: the least integer not below x |
| DeckRules.AutoFootings | deck/app.js:61-66 | at least the minimum (6 by default) and at least ceil(sf / max(1, per)), with per 36 by default, and equal to one of the two |
| DeckRules.FootingsCoverArea | deck/app.js:61-66 | the automatic footings, each carrying max(1, per) square feet, cover the deck area |
| DeckRules.Footings | deck/app.js:133 | a positive override is rounded up, within one of itself; otherwise the automatic count |
| DeckRules.StairWidthMult | deck/app.js:134 | stairs of 48 in or wider cost 1.25 per step, narrower ones 1.0 |
| DeckRules.ComputeQty | deck/app.js:83-91 | each unit code selects its quantity: area, railing LF, footings, steps×width multiplier, 1 for EACH and PCT_MAT, 0 for unknown codes |
| DeckRules.ComputeQtyNonNegative | deck/app.js:83-91 | non-negative quantities in the context give a non-negative item quantity |
| DeckPricing.ContextOf | deck/app.js:129-134 | the quantity context holds a non-negative area, the footings for that area and override, the railing LF, the step count and a width multiplier of 1.0 or 1.25 |
| DeckPricing.RailLF | deck/app.js:132 | a positive railing override wins, otherwise the deck perimeter |
| DeckPricing.LineFor | deck/app.js:178-201 | rates are scaled by the height multiplier only for height-sensitive items; a PCT_MAT line is rawMatSub·pct/100 with no markup and no labour; other lines are qty·rate·(1+pct); total = mat + lab |
| DeckPricing.PctLine | deck/app.js:191-197 | a PCT_MAT row charges pctOfMaterials/100 of the raw materials subtotal, unmarked, with no labour |
| DeckPricing.RatedLine | deck/app.js:181-189 | any other row charges quantity × height-scaled rate, marked up by 1 + pct, on materials and labour separately |
| DeckPricing.Discount | deck/app.js:223-233 | 0 unless unlocked, switched on, with a positive pct or fixed value; the type is read by `DiscountType`, "pct" when unset (deck/app.js:227); the pct share or fixed amount, clamped to [0, pricedTotal] when pricedTotal ≥ 0 |
| DeckPricing.RawDiscount | deck/app.js:226-231 | the unclamped discount: dv% of the total, the fixed amount, or 0 for a non-positive value or an unknown type |
| DeckPricing.ShareBounds | deck/app.js:229 | a share of at most 100% of a non-negative total lies between 0 and the total |
| DeckPricing.QuoteOf | deck/app.js:224-250 | the grand total is the priced total minus the discount; it lies within [0, pricedTotal] when the priced total is non-negative, equals the priced total when no discount is active, and is 0 when an active discount meets a negative priced total |
| DeckPricing.RawMatSub | deck/app.js:164-171 | the subtotal is 0 when no selected item has a unit other than PCT_MAT |
| DeckPricing.AnyChargedIff | deck/app.js:164-171 | some item contributes to the subtotal exactly when some selected item has a unit other than PCT_MAT |
| DeckPricing.DeckLines | deck/app.js:177-214 | there are at most as many rows as catalog items |
| DeckPricing.SumRawMat | deck/app.js:164-171 | the loop computes the specified raw material subtotal of the selected non-PCT items, without the height multiplier |
| DeckPricing.PriceLines | deck/app.js:177-214 | the loop produces exactly the specified lines, one per selected item in catalog order, with their raw material, raw labour and priced totals |
| DeckPricing.PriceQuote | deck/app.js:129-250 | the method computes exactly the specified quote: area, perimeter, railing, footings, markup, height multiplier, lines, discount and grand total |
| DeckPricingFacts.DeckLinesExactly | deck/app.js:177-214 | a line is priced exactly for each selected catalog item |
| DeckPricingFacts.QuoteLinesPriced | deck/app.js:177-214 | every line of the quote is the priced line of a selected item |
| DeckPricingFacts.RawMatSubFromLines | deck/app.js:164-197 | without height scaling, the raw material subtotal equals the raw materials of the non-PCT lines |
| DeckPricingFacts.RowRawMat | deck/app.js:164-197 | one item's contribution to the raw material subtotal is the raw materials its non-PCT row shows, if it is selected |
| DeckPricingFacts.MarkupPctNonNegative | deck/app.js:32-38 | non-negative tiers give a non-negative markup |
| DeckPricingFacts.ContextNonNegative | deck/app.js:129-134 | a non-negative catalog and step count give non-negative area, railing, footings and steps |
| DeckPricingFacts.LineTotalNonNegative | deck/app.js:177-201 | non-negative rates and context give a non-negative line total |
| DeckPricingFacts.RatedLineNonNegative | deck/app.js:181-189 | a rated row with non-negative rates, quantity, markup and height multiplier has a non-negative total |
| DeckPricingFacts.ScaledRateNonNegative | deck/app.js:183 | a non-negative rate stays non-negative after height scaling by a non-negative multiplier |
| DeckPricingFacts.DeckLinesTotalNonNegative | deck/app.js:178-202 | rows of items without negative prices, priced from non-negative figures, add up to a non-negative priced total |
| DeckPricingFacts.RawMatSubNonNegative | deck/app.js:164-171 | non-negative material rates give a non-negative raw material subtotal |
| DeckPricingFacts.PricedTotalNonNegative | deck/app.js:129-202 | for a non-negative catalog the priced total is non-negative |
| DeckPricingFacts.GrandTotalWithinPricedTotal | deck/app.js:129-250 | for a non-negative catalog, the priced total is non-negative and the grand total lies within [0, pricedTotal] |
| DeckPricingFacts.DiscountClampsToTotal | deck/app.js:228-232 | a discount of 100% or more, or a fixed amount of at least the total, takes exactly the priced total, leaving 0 |
| DeckPricingFacts.PctAloneIsFree | deck/app.js:164-186 | with only PCT_MAT items selected, the raw material subtotal is 0, so those lines cost nothing |
| DeckPricingFacts.ExamplePricing | deck/app.js:129-171 | a 25 × 20 ft deck with one decking item at 2 + 3 per SF and a 25% tier has 500 SF, markup 0.25, height multiplier 1 and raw material subtotal 1000 |
| DeckPricingFacts.ExampleLines | deck/app.js:178-214 | that deck prices one row: raw 1000 and 1500, marked up to 1250 and 1875, total 3125 |
| DeckPricingFacts.EndToEndExample | deck/app.js:129-250 | a 25 × 20 ft deck with one decking item at 2 + 3 per SF and a 25% tier gives a line of 1250 + 1875 and a grand total of 3125 |
| DeckSession.OrElse | deck/app.js:118-123 | JavaScript `x \|\| d` on a number: d when x is 0, otherwise x |
| DeckSession.Deselect | deck/app.js:78-80 | the given ids are switched off and every other entry is unchanged |
| DeckSession.DeselectSiblings | deck/app.js:78-80 | every other item of the same group is switched off and every other entry is unchanged |
| DeckSession.DeselectSiblingsIsDeselect | deck/app.js:76-81 | switching off the siblings one by one is switching off the set of sibling ids |
| DeckSession.Exclusive | deck/app.js:76-81 | with no group nothing changes; otherwise the group siblings are switched off, and the item itself and all other entries are unchanged |
| DeckSession.WithDefaults | deck/app.js:311-318 | after the `??=` assignments the selection has an entry for every old id and every listed id |
| DeckSession.WithDefaultsSwitchesUnset | deck/app.js:311-318 | `??= true` gives every listed id an entry, switches on exactly the listed ids that had no entry, and keeps every existing entry and every unlisted id |
| DeckSession.WithLedger | deck/app.js:144 | the ledger always has an entry, selected exactly when the deck is attached and the ledger was not switched off; other entries are unchanged |
| DeckSession.ForcePermitOnly | deck/app.js:146-148 | an id has an entry exactly when it had one or is a permit-only item outside permit mode; an item stays selected exactly when it was selected and is not a permit-only item outside permit mode |
| DeckSession.ForcedSelection | deck/app.js:144-148 | the selection after the forced entries: an id has an entry exactly when it had one, is the ledger, or is permit-only outside permit mode; the ledger follows attachment, permit-only items drop outside permit mode, and all else is kept |
| DeckSession.DeckState.constructor | deck/app.js:8-16 | the initial state: zero dimensions, height 3, permit mode, attached, 36 in stairs, nothing selected, admin locked with an override of 0 |
| DeckSession.DeckState.ApplySelectionDefaults | deck/app.js:310-318 | the loop leaves the selection equal to the defaults applied to the previous selection |
| DeckSession.DeckState.SwitchOnUnlessSaved | deck/app.js:311-318 | the loop leaves the selection equal to the defaults for the given ids applied to the previous selection |
| DeckSession.DeckState.EnforceExclusive | deck/app.js:76-81 | the loop leaves the selection equal to the exclusive selection of the previous one |
| DeckSession.DeckState.ForcePermitOnlySelections | deck/app.js:146-148 | the loop leaves the selection with permit-only items switched off outside permit mode, and nothing else changed |
| DeckSession.DeckState.ReadForm | deck/app.js:116-125 | each field is the parsed form value; height defaults to 3 and is clamped to [0, 20]; steps are clamped to [0, 50]; stair width defaults to 36 |
| DeckSession.DeckState.ReadDimensions | deck/app.js:116-119 | length, width and area override are the parsed form values; height defaults to 3 and is clamped to [0, 20] |
| DeckSession.DeckState.ReadOptions | deck/app.js:120-125 | permit and attachment are copied; steps are clamped to [0, 50]; stair width defaults to 36; the footing and railing overrides are parsed |
| DeckSession.DeckState.Render | deck/app.js:114-253 | the state holds the form read, the selection holds the forced entries, and the returned quote is the specified quote of the new state |

## Left out

- DOM building and rendering (`renderLists`, `renderQuote`, `buildPrintArea`, `buildScope`, the rates table, tabs, company info, and the `textContent`/`innerHTML` writes of `render`): these are presentation only, and their values are the quote fields the model computes.
- Persistence and loading (`localStorage`, `fetch` of the catalog, `window.print`, the clear-and-reload handler): these are I/O. The catalog is a parameter and the state starts from its constructor.
- The admin PIN prompt and the long-press timer: these are UI and timers. The admin state is a plain record. The redeclared constants in `showAdminUI` belong to the UI and are not part of this model.
- `fmtMoney` and `fmtNum`: these are locale-dependent formatting.
- JavaScript's `Number(...)` string-to-number conversion: it is the parameter `number`, and `ToNum`'s argument is already converted. Only `parseNum`'s character filter and its 0 fallback are modelled.
- `Math.sqrt`: it is the parameter `sqrt`.
- IEEE double rounding: all arithmetic is exact over `real`, so equalities such as the totals identity hold over reals, not doubles.
- DeckRules.DeckSF, DeckRules.PerimLF: take the stored length, width and area override as numbers. `deckSF` and `perimLF` pass the stored numbers through `parseNum` a second time (deck/app.js:46, 48, 51-52), and that second parse is not modelled. It is the identity except on magnitudes that `String(...)` writes in exponent form: below 1e-6, where the source reads "5e-7" as NaN and so 0, and from 1e21 up, where "1e+21" reads as 121. On those inputs the source's area and perimeter differ from the model's. The same second parse of the height and of the `rules` thresholds in `railingRequired` and `autoFootings` (deck/app.js:58-59, 62-63) is not modelled either.
- DeckPricing.LineFor: catalog rates, percentages of materials and the admin discount value are taken as numbers. In the program they go through `parseNum`, which is the identity on ordinary numbers. It is not the identity on numbers whose `String(...)` has an exponent (such as `1e21`); that difference is not modelled.
- InteriorQuote.SumLines: the `(x.matRaw \|\| 0)` guard against NaN is not modelled, because `matRaw` is always a real here.
- Customer and client fields (the interior name, address and notes; the deck client name and address, which are trimmed) are text for the printout and take no part in pricing.
- `friendlyUnit` and the unit labels: these are display text.
- The `alert(...)` that `calcQuote` shows when the area is not positive (app.js:262-265) is UI. The model returns `None` there, as the source returns `null`.
- HtmlEscape.EscapeHtml: takes a string only. The `String(s)` coercion of other values (app.js:218) is not modelled, because JavaScript's conversion of arbitrary values to text is outside this model.
