# AgriPulse farm-management core in Dafny

AgriPulse is a browser app for small layer, broiler and fish farms. The
farmer keeps one list of daily logs and one list of income entries per farm
type. The feed purchases and the cost and alert settings are shared by all
farm types. Every dashboard turns today's records into a handful of KPIs and
hands them to a rule-based advisor, which answers with a list of critical,
warning and positive messages.

The model covers:

- the three rule evaluators (`services/geminiService.ts`), in module `Advisory`;
- the settings resolver, the shared feed pool and the KPI arithmetic of the
  three dashboards (`App.tsx`), in module `Kpi`;
- the save, delete and switch handlers and the dashboards themselves, as the
  methods of class `Store.FarmStore`;
- the record lists, the upsert by id, the stable sort by date and the delete
  by id, in module `Records`;
- the crate-equivalent of the egg counts, in module `Eggs`;
- `parseDateString` and calendar arithmetic, in module `Dates`;
- the income-ledger filter, in module `Ledger`;
- where the older single-file entry point (`index.tsx`) differs from
  `App.tsx`, in module `Legacy`: its per-farm feed stock and its remote
  advisor's fallback messages.

`Seqs` and `Sorting` hold the array methods the code relies on (`reduce`,
`filter`, `findIndex`, `find`, `sort`, `reverse`) together with their laws.

Conventions:

- Browser storage is a value of type `Store.Storage`. The class field
  `storage` holds it and the handlers reassign it. A key prefixed by farm
  type (`layers_dailyLogs`, ...) becomes a `PerFarm` record.
- Numbers are `real`. A blank form field reads as 0, as `parseFloat(x || '0')`
  does. A message's wording is abstracted to the `Rule` that produced it.
- The clock is a parameter: today's ISO text, yesterday's, today's day
  number, the 7-day cutoff day, and `now` for `Date.now()`.

Both sources share one trait, and the model keeps it: no handler ever sets
an edit id to anything but null. So the edit branch of the two save handlers
is unreachable and every save appends. `FarmStore.Valid` records this, and
every method that changes the store keeps it. The
save methods still model the edit branch, under `IsEditing`.

Where the specification and the code disagree, the model follows the code:

- A broiler FCR of exactly 1.6 does not earn the "excellent FCR"
  commendation, because the test is `fcr < 1.6`.
- A layers store with no feed bought warns about low feed (0 % is below the
  default 25 %). It does not show the "all metrics look good" card.
- `parseDateString` rejects years 0..99. `new Date` maps them to 19xx, so
  the round-trip check fails.

## Model

| member | source | states |
|---|---|---|
| Advisory.Evaluate | services/geminiService.ts:3-37 | the evaluator pushes at most one message per check, in check order |
| Advisory.EvaluateFired | services/geminiService.ts:3-37 | a rule's message is present exactly when one of its checks holds |
| Advisory.EvaluateOrdered | services/geminiService.ts:6-35 | checks listed critical, then warning, then positive yield messages in that severity order |
| Advisory.LayerAdvice | services/geminiService.ts:3-38 | the imperative if-chain of `getLayerAIAdvice` returns exactly the messages of the layer rule list |
| Advisory.LayerOrdered | services/geminiService.ts:6-35 | layer advice lists critical messages before warnings before positives |
| Advisory.LayerFeedWarning | services/geminiService.ts:15-19 | the low-feed warning fires by percentage or by bags, according to the alert type, never both |
| Advisory.LayerLayingDropWarning | services/geminiService.ts:21-23 | the laying-drop warning fires iff both capacities are positive and today's is below 90 % of the 7-day mean |
| Advisory.LayerProfitExclusive | services/geminiService.ts:10-32 | loss iff profit < -5000, strong profit iff profit > 10000, never both |
| Advisory.LayerLength | services/geminiService.ts:3-38 | at most six layer messages |
| Advisory.BroilerAdvice | services/geminiService.ts:40-71 | the if-chain of `getBroilerAIAdvice` returns exactly the broiler rule list's messages |
| Advisory.BroilerOrdered | services/geminiService.ts:43-68 | broiler advice is severity-ordered |
| Advisory.BroilerFcrExclusive | services/geminiService.ts:52-65 | FCR > 2.5 very high, 1.8 < FCR <= 2.5 high, 0 < FCR < 1.6 excellent, in both directions; very high and high never together |
| Advisory.BroilerAdgExclusive | services/geminiService.ts:47-68 | ADG < 0 critical, 0 < ADG < 30 low, ADG > 60 great, in both directions; low and great exclusive |
| Advisory.BroilerLength | services/geminiService.ts:40-71 | at most three broiler messages |
| Advisory.FishAdvice | services/geminiService.ts:73-108 | the if-chain of `getFishAIAdvice` returns exactly the fish rule list's messages |
| Advisory.FishOrdered | services/geminiService.ts:77-105 | fish advice is severity-ordered |
| Advisory.FishPhCriticalImpliesWarning | services/geminiService.ts:81-94 | a critical pH (outside 6..9) also triggers the pH warning (outside 6.5..8.5) |
| Advisory.FishNoReadingNoWaterAdvice | services/geminiService.ts:81-97 | a pH or temperature of 0 (no reading) produces no water message |
| Advisory.FishFcrAdvice | services/geminiService.ts:86-102 | high FCR iff FCR > 1.8, excellent iff 0 < FCR < 1.5, never both |
| Advisory.FishStagnation | services/geminiService.ts:89-105 | stagnation iff growth <= 0 and more than 7 days since stocking; never with good growth |
| Advisory.FishLength | services/geminiService.ts:73-108 | at most six fish messages |
| Advisory.Displayed | App.tsx:722-737 | the panel shows the messages, or the single positive all-good card when there are none |
| Dates.ParseDateString | App.tsx:122-133 | an accepted text has exactly three dash-separated parts whose `parseInt` values are the date's year, month and day; the date is valid, its year is at least 100, and it lies within the 100,000,000 days a `Date` can hold |
| Dates.ParseDateParts | App.tsx:122-133 | conversely, a text whose three parts parse to the fields of a valid date in range with year at least 100 is accepted as that date |
| Dates.ParseIsoDate | App.tsx:120-133 | the ISO text of a date (years 100..9999) parses back to that date |
| Dates.ParseIntOfDigits | App.tsx:126-128 | `parseInt` of a run of digits is its decimal value |
| Dates.ParseInt | App.tsx:126-128 | `parseInt(_, 10)`: skips JavaScript white space and a sign, then reads the longest run of digits, `None` for NaN; a part without a minus sign never parses negative; its value on a digit run is given by `Dates.ParseIntOfDigits` |
| Dates.Split | App.tsx:124 | `split('-')` yields at least one part, none containing the separator |
| Dates.SplitAtSeparator | App.tsx:124 | splitting at a separator peels off the text before it |
| Dates.Weekday | App.tsx:467 | `getDay()` lies in 0..6 |
| Dates.DayNumberOrder | App.tsx:473-475 | comparing two parsed dates is comparing them in calendar order, both directions; equal day numbers mean equal dates |
| Dates.YearLength | App.tsx:130-131 | a year adds 365 days, 366 in a Gregorian leap year |
| Sorting.SortBy | App.tsx:390 | the sorted list is ordered by key and a permutation of the input |
| Sorting.SortStable | App.tsx:390 | the sort is stable: the logs sharing a date key keep their relative order |
| Sorting.SortSorted | App.tsx:390 | sorting an already sorted list changes nothing |
| Records.EntryId | App.tsx:367 | the id is the edit id when one is set (non-zero), `Date.now()` otherwise |
| Records.Upsert | App.tsx:384-389 | no edit id: appended at the end; edit id found: the first match is overwritten and nothing else changes; not found: list unchanged |
| Records.UpsertContents | App.tsx:384-389 | an upsert adds one element, swaps one element carrying the edit id, or changes nothing |
| Records.SavedLogs | App.tsx:383-391 | the saved logs are sorted by date and a permutation of the upserted list |
| Records.DateKey | App.tsx:390 | the sort key, in days: the day number of the parsed date, or 0 (1970-01-01) for a date that does not parse; `Records.SavedLogs` and `Dates.DayNumberOrder` state what sorting by it means |
| Records.SumAfterSave | App.tsx:383-391 | any per-log total moves by exactly the saved entry (added, or swapped for the overwritten log) |
| Records.RemoveById | App.tsx:569-574 | after deleting, a purchase remains iff it was there and carries another id |
| Records.RemoveByIdAppend | App.tsx:569-574 | deleting keeps the survivors in their original order: it distributes over concatenation, and a single purchase stays exactly when its id differs |
| Records.RemoveByIdKeepsRest | App.tsx:569-574 | deleting removes exactly the purchases with that id, keeping the rest with their multiplicity |
| Records.RemoveByIdIdempotent | App.tsx:569-574 | deleting twice is deleting once |
| Eggs.CrateEquivalent | App.tsx:372-374 | crate-equivalent times 30 is crates times 30 plus loose eggs |
| Eggs.CrateEquivalentBounds | App.tsx:372-374 | fewer than 30 loose eggs add less than one crate |
| Eggs.PutLookup | App.tsx:374 | after `eggs[name] = v`, `name` reads `v` and every other key is unchanged |
| Eggs.EggsOfLookup | App.tsx:370-375 | the saved `eggs` object has a value for exactly the egg sizes on the price list, each its crate-equivalent |
| Eggs.EggsOf | App.tsx:371-375 | the `eggs` object built from the price list, one crate-equivalent per size; `Eggs.EggsOfLookup` and `Eggs.EggsOfTotal` state its contents |
| Eggs.EggsOfTotal | App.tsx:626 | with distinct egg sizes, today's crates are the sum of the form's crate-equivalents |
| Eggs.EggRevenueOfSavedLog | App.tsx:617-620 | a saved log earns each size's crate-equivalent times its price |
| Eggs.EggRevenue | App.tsx:617-620 | today's egg sales: each priced size's crates times its price, summed over the price list; `Eggs.EggRevenueOfSavedLog`, `Eggs.NoEggsNoRevenue` and `Store.EggSales` state it |
| Eggs.NoEggsNoRevenue | App.tsx:617-620 | a log without eggs earns nothing |
| Ledger.FilterLedger | App.tsx:470-477 | an entry is kept iff its date parses and falls in the period |
| Ledger.WeekStart | App.tsx:466-467 | the day number of the Sunday that starts this week; `Ledger.WeekStartIsSunday` states it |
| Ledger.MonthStart | App.tsx:468 | the first day of today's month, a valid date; `Ledger.MonthMeansCalendarMonth` states what it selects |
| Ledger.Keep | App.tsx:470-477 | the per-entry test of the period filter; `Ledger.FilterLedger`, `Ledger.TodayMeansSameDate` and `Ledger.PeriodsNest` state its meaning |
| Ledger.WeekStartIsSunday | App.tsx:466-467 | the week starts on a Sunday, at most six days before today |
| Ledger.TodayMeansSameDate | App.tsx:473 | "today" keeps exactly the entries dated today |
| Ledger.MonthMeansCalendarMonth | App.tsx:468-475 | "month" keeps the entries dated in this calendar month or later |
| Ledger.PeriodsNest | App.tsx:470-477 | what "today" keeps, "week" and "month" keep; everything kept is in "all" |
| Ledger.RevenueGrowsWithPeriod | App.tsx:479 | with non-negative amounts, the revenue shown grows from today to week or month to all |
| Kpi.GetSettings | App.tsx:192-211 | initial stock by farm type; current stock plus all mortality is the initial stock; 30 times the daily fixed cost is the sum of the monthly costs; the alert defaults |
| Kpi.CurrentStockAfterSave | App.tsx:203-206 | saving a log lowers the current stock by its mortality (or by the difference when overwriting) |
| Kpi.GetFeedStock | App.tsx:513-523 | stock plus the feed used by all three farm types is all feed bought |
| Kpi.FeedStockShared | App.tsx:513-523 | the pool does not depend on which farm type's logs are which |
| Kpi.FeedStockAfterLog | App.tsx:513-523 | a new log of any farm type lowers the pool by its feed used |
| Kpi.FeedStockAfterPurchases | App.tsx:519-521 | a purchase raises the pool by its weight; a delete lowers it by the weight removed |
| Kpi.AvgFeedCostPerKg | App.tsx:615 | average cost times total weight bought is total cost, or 0 when nothing was bought |
| Kpi.FeedStockPercentage | App.tsx:643 | the percentage of all feed bought still in stock, or 0 |
| Kpi.BagsInStock | App.tsx:643 | bags times 25 is the stock in kg |
| Kpi.LogOfDay | App.tsx:611 | the first log with today's date, or the empty log when there is none |
| Kpi.IncomeOfDayBounds | App.tsx:621 | today's income lies between 0 and the whole ledger for non-negative amounts |
| Kpi.IncomeOfDay | App.tsx:621 | today's income: the amounts of the entries dated today, summed (also line 675); `Kpi.IncomeOfDayBounds` bounds it |
| Kpi.MortalityRate | App.tsx:663 | rate times stock is 100 times mortality, or 0 without stock or deaths |
| Kpi.MortalityThresholds | services/geminiService.ts:78 | the fish 1 % alert, like the 0.5 % layer and broiler alert, means more than one death per 100 (per 200) head |
| Kpi.LayingCapacity | App.tsx:627 | capacity times stock is crates times 3000, or 0 without stock |
| Kpi.LayingCapacityRange | App.tsx:627 | capacity is non-negative, and at most 100 % iff no more eggs than hens |
| Kpi.Fcr | App.tsx:628 | FCR times the output is the feed used when there is output, else 0; layers divide by crates here, broilers (line 662) and fish (line 708) by kg gained |
| Kpi.LastDays | App.tsx:637-638 | the 7-day window keeps exactly the logs whose date parses to the cutoff day or later |
| Kpi.AvgLayingCapacity | App.tsx:640-641 | the mean daily capacity over the window, or today's capacity when it is empty |
| Kpi.AvgLayingCapacityBounds | App.tsx:640-641 | the mean lies between the lowest and highest daily capacity |
| Kpi.LayerData | App.tsx:613-643 | profit plus the day's costs equals egg revenue plus income; mortality, laying capacity, its 7-day average over the window, FCR, feed percentage and bags are the KPI functions above |
| Kpi.LayerKpis | App.tsx:605-643 | the layers KPI record over the stored records: today's log, the 7-day window, today's egg revenue and income, the average feed price and the pool; its fields are stated by `Kpi.LayerData` |
| Kpi.FreshLayersStoreWarnsFeedLow | App.tsx:605-646 | an empty store with default alerts gets the low-feed warning |
| Kpi.Adg | App.tsx:658-660 | ADG is today's weight less yesterday's when both were recorded, else 0 |
| Kpi.WeightGainKg | App.tsx:661 | gain in kg times 1000 is ADG times stock for a positive ADG, else 0 |
| Kpi.BroilerData | App.tsx:658-663 | the broiler record's ADG, mortality rate and FCR are the KPIs above |
| Kpi.BroilerKpis | App.tsx:648-677 | the broilers KPI record from today's and yesterday's logs; its fields are stated by `Kpi.BroilerData` |
| Kpi.BroilerFcrNeedsGain | App.tsx:660-662 | a non-zero FCR needs a positive ADG and stock; a negative ADG never earns the FCR commendation |
| Kpi.BroilerNoWeighingNoGainAdvice | App.tsx:658-660 | without yesterday's or today's weight there is no daily-gain message |
| Kpi.WeightLogs | App.tsx:687 | the samples are the weighed logs, sorted by date |
| Kpi.WeightLogsMembers | App.tsx:687 | a log is a sample iff it has a positive average weight |
| Kpi.LatestSampleIsLatest | App.tsx:687-688 | the latest sample is a weighed log, and every weighed log has a date key no later than it (so any weighed log means a latest sample exists) |
| Kpi.PreviousSampleNotLater | App.tsx:687-689 | the previous sample is weighed and not dated after the latest |
| Kpi.DaysBetweenSamplesNonNegative | App.tsx:701-703 | the days between samples are never negative unless the stocking-date fallback is |
| Kpi.DaysBetweenSamples | App.tsx:703 | the day difference of the two latest samples when both dates parse, else the days since stocking or 1; `Kpi.DaysBetweenSamplesNonNegative` bounds it |
| Kpi.GrowthRate | App.tsx:705 | growth rate times the days is the weight gain, with 0 days counting as 1 |
| Kpi.FishData | App.tsx:682-717 | the fish record's FCR, growth rate, mortality and water readings are the KPIs above |
| Kpi.FishKpis | App.tsx:682-717 | the fish KPI record from today's log, the sorted weight samples, all feed used and the days since stocking; its fields are stated by `Kpi.FishData` |
| Kpi.NoWeighedNoSamples | App.tsx:687 | no weighed log means no samples |
| Kpi.NoSamplesMeansStagnation | App.tsx:697-705 | with no samples growth is 0, and stagnation is reported iff more than 7 days since stocking |
| Kpi.FishFcrNeedsGain | App.tsx:707-708 | without biomass growth the FCR is 0 and no FCR message shows |
| Kpi.FlockAgeOfIsoStart | App.tsx:582-586 | the flock age is the days from the start date to today, one more each day |
| Kpi.FlockAge | App.tsx:577-594 | the flock age in days when the card is on and a start date is set, else 0; `Kpi.FlockAgeOfIsoStart` and `Kpi.FlockAgeHidden` state it |
| Kpi.FlockAgeHidden | App.tsx:582-593 | with the card off or no start date, the age is 0 |
| Legacy.OwnFeedStock | index.tsx:538-540 | stock plus this farm type's own feed used is all feed bought |
| Legacy.OwnStockOverstatesPool | index.tsx:538-540 | the per-farm figure exceeds the shared pool by exactly the other farm types' usage, and equals it iff they used none |
| Legacy.OwnStockCounterexample | index.tsx:538-540 | 100 kg bought and 30 kg fed to broilers: the layers figure is 100 kg where 70 kg remain |
| Legacy.FailureIsOneMessage | index.tsx:4-32 | without an API key one warning is shown; a failed call shows one critical; never the all-good card |
| Legacy.RemoteAdvice | index.tsx:4-32 | an evaluator's answer: a fixed warning without an API key, a fixed critical when the call or its parsing fails, else the reply (the broiler and fish evaluators repeat this at lines 35-61 and 64-91); `Legacy.FailureIsOneMessage` and `Legacy.ReplyShownAsIs` state what the panel shows |
| Legacy.ReplyShownAsIs | index.tsx:670-683 | a non-empty reply is shown unchanged; an empty one shows the all-good card |
| Store.NewLog | App.tsx:367-381 | the stored log keeps the form's fields for its farm type and 0 for the others; layers carry the crate-equivalents |
| Store.NewIncome | App.tsx:423 | the stored income entry: the form's date, category, quantity, weight, amount and notes under the given id; `Store.FarmStore.SaveIncomeEntry` states where it goes |
| Store.BuildEggs | App.tsx:370-375 | the `forEach` over the price list builds exactly the `eggs` object of the specification |
| Store.UpsertList | App.tsx:384-389 | the edit-or-push step computes the upsert |
| Store.EggSales | App.tsx:617-620 | the revenue loop sums crates times price over the price list |
| Store.NewestFirst | App.tsx:486 | the ledger lists the filtered entries in reverse |
| Store.IncomeLedger | App.tsx:462-492 | the ledger lists the period's entries newest first, with their total |
| Store.FarmStore.constructor | App.tsx:34-35 | the farm type saved last time, or layers; no edit in progress |
| Store.FarmStore.SwitchFarmType | App.tsx:146-148 | the farm type changes and is remembered; records are untouched |
| Store.FarmStore.OpenLogModal | App.tsx:340-341 | opening the log form clears the edit id |
| Store.FarmStore.OpenIncomeModal | App.tsx:399-400 | opening the income form clears the edit id |
| Store.FarmStore.SaveDailyLog | App.tsx:366-397 | only the current farm type's logs change, to the sorted upsert; without an edit they gain exactly the new log |
| Store.FarmStore.SaveIncomeEntry | App.tsx:417-437 | only the current farm type's entries change; without an edit the entry is appended |
| Store.FarmStore.SaveFeedPurchase | App.tsx:94-116 | saved iff date, weight and cost are filled in; then appended, otherwise nothing changes |
| Store.FarmStore.DeleteFeedPurchase | App.tsx:569-574 | the purchases become the delete-by-id of the old list |
| Store.FarmStore.LoadIncomeLedger | App.tsx:462-492 | the current farm type's ledger, newest first, and its revenue |
| Store.FarmStore.LayersDashboard | App.tsx:605-646 | the panel shows the layer advice for the KPIs: one to six messages, severity-ordered |
| Store.FarmStore.BroilersDashboard | App.tsx:648-680 | one to three broiler messages, severity-ordered |
| Store.FarmStore.FishDashboard | App.tsx:682-720 | one to six fish messages, severity-ordered |
| Store.FarmStore.UpdateDashboard | App.tsx:596-603 | shows the displayed advice of the current farm type's rules over its KPIs (layers, broilers or fish): one to six messages, severity-ordered, at most three for broilers |

## Findings

| source | as written | input that shows it | evidently intended | confidence | as-written member | corrected member |
|---|---|---|---|---|---|---|
| index.tsx:538-540 | the layers (and broilers, 593-595) dashboard subtracts only its own farm type's feed use from all feed bought, though purchases are shared | 100 kg bought, 30 kg logged by broilers: layers shows 100 kg in stock | one pool drawn on by all three farm types, as `getFeedStock` in App.tsx:513-523 computes | high; not executed | Legacy.OwnStockCounterexample | Kpi.FeedStockShared |

The rest of the model uses `Kpi.GetFeedStock`. `Legacy.OwnStockOverstatesPool`
states the size of the discrepancy for all inputs.

## Left out

- The remote model calls of `index.tsx` (prompts, network, JSON parsing of
  the reply): only their outcome is modelled, as `Legacy.RemoteOutcome`.
- The DOM: reading form fields, rendering cards, alerts, confirm dialogs,
  page navigation, the settings page and the log-history page.
- `localStorage` and JSON serialisation: storage is the `Store.Storage` value.
- `parseFloat`, `Number` and NaN: form numbers arrive as reals, a blank as 0.
  A feed weight or cost field left blank is `None`.
- IEEE floating point and display rounding (`toFixed`, `toLocaleString`,
  `Math.round`): arithmetic is exact over the reals.
- The clock and time zones: today, yesterday, the 7-day cutoff and `now` are
  parameters. Day differences are whole days, so a daylight-saving shift in
  `getTime` differences is not modelled.
- `Dates.ParseDateString`: the limit of a `Date` is applied in UTC. In another
  time zone, `new Date(y, m, d)` is local midnight, so the last day accepted
  can move by one.
- `Kpi.LastDays`: the cutoff is a day number. The source compares with a
  `Date` carrying the time of day, which makes the window start six days back.
- `totalMortality7d` and `totalBiomass`: computed for display or the prompt,
  but never read by any rule.
- The `fcr !== Infinity` guards: every FCR is computed behind a positive-divisor
  test, so it is never infinite in the model.
- `index.tsx` duplicates of `getSettings`, `saveDailyLog`, `saveIncomeEntry`,
  `loadIncomeLedger` and `updateFlockAgeKPI`: they match `App.tsx` and are
  modelled once. Its feed form saves without the date, weight and cost check
  that `Store.FarmStore.SaveFeedPurchase` models.
- `Store.FarmStore.SaveDailyLog` and `Store.FarmStore.SaveIncomeEntry`: the
  in-place `sort` and `findIndex` are modelled by the functions
  `Records.SortByDate` and `Seqs.FindIndex`, not by an in-place algorithm.
- `Kpi.FlockAge`: the check that the KPI card exists in the page is not modelled.
