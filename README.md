# ClientBench dashboard core, in Dafny

This project models the logic at the heart of the ClientBench dashboard. Rendering is not modelled.

- **Company selector.** The editor keeps a list of client and competitor entries. Add refuses a sixth competitor, so a list that starts with at most five competitors never gets more; an initial list is kept as given, and nothing limits the number of clients. The editor edits entries, adds a trimmed and upper-cased competitor ticker, removes entries and saves the entries that have a ticker.
- **Chart view models.** Three charts read per-year records keyed by six fixed company slots (`client`, `competitor1` … `competitor5`, each with a `<slot>YoY` record):
  - the cash-flow chart;
  - the revenue-performance chart;
  - the margin-analysis chart.

  For a selection (one slot or all, plus a cash-flow type), each chart builds the rows it plots and its headline figures: last-year values, the first-to-last change, net cash flow and max-minus-min ranges.
- **Sample data.** The twelve sample companies, the `filter`/`find` lookup helpers, the five financial records built with `find(...)!`, and the five-year cash-flow table.

Modules:

| module | file | models |
|---|---|---|
| `Wrappers` | `wrappers.dfy` | `Option` |
| `Seqs` | `seqs.dfy` | `Array.prototype.filter`, `find` and `findIndex` |
| `Text` | `text.dfy` | `String.prototype.trim`, `toUpperCase` and `split`, and the `+` sign put before a change |
| `Slots` | `slots.dfy` | the six slots, their property names, the one-or-all selection |
| `CompanySelector` | `company_selector.dfy` | the editor: pure functions, an event-step function and a `Selector` class whose methods update its two fields |
| `CashFlowChart` | `cash_flow_chart.dfy` | the cash-flow chart |
| `RevenueChart` | `revenue_chart.dfy` | the revenue chart |
| `MarginChart` | `margin_chart.dfy` | the margin chart |
| `MockData` | `mock_data.dfy` | the sample data and its helpers |

Chart records are rows whose per-slot figures sit in a `map<Slot, …>`. A `WellFormed` predicate states the shape the TypeScript interfaces promise: all six slots and all six YoY records present. Comparison rows are `map<string, real>`, keyed as the source keys them (`client`, or `client_operating`).

## Model

| member | source | states |
|---|---|---|
| `Seqs.Filter` | src/components/CompanySelector.tsx:57 | the result holds only elements that satisfy the predicate, and every such element of the input is in it |
| `Seqs.FilterAppend` | src/data/mockData.ts:400 | filtering distributes over concatenation, so the input's order is kept |
| `Seqs.FilterPartition` | src/data/mockData.ts:400-401 | two complementary filters split the input: the lengths add up and the multisets add up to the input's |
| `Seqs.FindIndex` | src/components/CompanySelector.tsx:123 | none exactly when no element matches; otherwise the first index that matches |
| `Seqs.Find` | src/data/mockData.ts:402 | none exactly when no element matches; otherwise a matching element with no match before it |
| `Seqs.FindIsFirstOfFilter` | src/components/CompanySelector.tsx:56-57 | `find` yields the head of what `filter` keeps with the same predicate |
| `Text.Trim` | src/components/CompanySelector.tsx:34 | the result has no whitespace at either end, and it is empty exactly when the input is all whitespace |
| `Text.TrimPadded` | src/components/CompanySelector.tsx:52 | trimming a core that has no whitespace at either end, padded with whitespace, gives back that core |
| `Text.TrimDecompose` | src/components/CompanySelector.tsx:34 | what `trim` keeps is the input's middle: the input is whitespace, then the result, then whitespace |
| `Text.TrimIdempotent` | src/components/CompanySelector.tsx:36 | trimming twice is trimming once |
| `Text.ToUpper` | src/components/CompanySelector.tsx:36 | the length is kept, each character is upper-cased and no lower-case ASCII letter remains |
| `Text.ToUpperIdempotent` | src/components/CompanySelector.tsx:159 | upper-casing twice (once on typing, once on adding) is upper-casing once |
| `Text.TrimToUpperCommute` | src/components/CompanySelector.tsx:36 | trimming and upper-casing commute |
| `Text.Split` | src/components/charts/CashFlowChart.tsx:247 | there is at least one part, no part contains the separator, and joining the parts gives back the input |
| `Text.SplitJoin` | src/components/charts/CashFlowChart.tsx:247 | splitting a join of separator-free parts gives back the parts |
| `Text.SplitWithoutSeparator` | src/components/charts/CashFlowChart.tsx:247 | a string without the separator splits into itself alone |
| `Text.SignPrefix` | src/components/charts/CashFlowChart.tsx:383-384 | the prefix is `+` exactly for a non-negative change and empty exactly for a negative one |
| `Text.SignPrefixShowsOneSign` | src/components/charts/CashFlowChart.tsx:384 | with the prefix, every rendered change carries exactly one sign, and it is the correct one |
| `Slots.SlotOfKey` | src/components/charts/CashFlowChart.tsx:248 | a key that resolves to a slot is exactly that slot's property name |
| `Slots.KeyRoundTrip` | src/components/charts/CashFlowChart.tsx:248 | every slot's property name resolves back to that slot |
| `Slots.KeyHasNoUnderscore` | src/components/charts/CashFlowChart.tsx:247 | no property name contains `_`, so splitting a series key on `_` cannot cut a name |
| `Slots.AllSlotsComplete` | src/components/charts/CashFlowChart.tsx:72 | the comparison's walk over the company names visits every slot |
| `CompanySelector.Merge` | src/components/CompanySelector.tsx:28 | every field the patch carries replaces the entry's, every other field is kept |
| `CompanySelector.MergeIdempotent` | src/components/CompanySelector.tsx:28 | applying a patch twice is applying it once, and an empty patch changes nothing |
| `CompanySelector.InitialCompanies` | src/components/CompanySelector.tsx:21-23 | a non-empty initial list is used as given; an empty one is replaced by one blank client entry |
| `CompanySelector.UpdatedAt` | src/components/CompanySelector.tsx:26-31 | the length is kept, the entry at `index` is merged with the patch, and every other entry is unchanged |
| `CompanySelector.UpdatedAtSplice` | src/components/CompanySelector.tsx:27-29 | an update is a splice of the merged entry; an index out of range changes nothing |
| `CompanySelector.WithoutIndex` | src/components/CompanySelector.tsx:46-49 | removal is the list without the entry at `index`; an index out of range changes nothing |
| `CompanySelector.UpdateKeepsCompetitorCount` | src/components/CompanySelector.tsx:26-31 | an edit that does not touch the role keeps the competitor count |
| `CompanySelector.RemoveLowersCompetitorCount` | src/components/CompanySelector.tsx:46-49 | removing an entry never raises the competitor count |
| `CompanySelector.AppendCompetitorCount` | src/components/CompanySelector.tsx:40 | appending one competitor raises the count by exactly one |
| `CompanySelector.CanAddMore` | src/components/CompanySelector.tsx:58 | there is room exactly when one more competitor keeps the count within five, and then appending any competitor does |
| `CompanySelector.ClientCompany` | src/components/CompanySelector.tsx:56 | none exactly when no entry is a client; otherwise a client entry with no client before it |
| `CompanySelector.SaveDisabled` | src/components/CompanySelector.tsx:194 | Save is enabled exactly when there is a first client and its trimmed ticker is not empty |
| `CompanySelector.ShownClientCount` | src/components/CompanySelector.tsx:190 | the summary counts one client exactly when there is a first client whose untrimmed ticker is not empty, else none |
| `CompanySelector.BlankClientCountedButNotSaveable` | src/components/CompanySelector.tsx:189-194 | a client ticker of spaces is counted as a client, yet Save is disabled and the saved list would be empty |
| `CompanySelector.NewCompetitor` | src/components/CompanySelector.tsx:35-39 | the new entry is a competitor with an empty name and the trimmed, upper-cased ticker, which has no whitespace at either end and is blank only when the input is |
| `CompanySelector.Step` | src/components/CompanySelector.tsx:26-49 | typing stores the upper-cased text and leaves the list; an edit makes the list its update at the index, keeping the length; a removal makes it the list without that entry, dropping at most one; Add appends the new competitor and clears the input exactly when its guard holds, and changes nothing otherwise |
| `CompanySelector.StepKeepsCompetitorLimit` | src/components/CompanySelector.tsx:33-49 | no single handler takes a list with at most five competitors past five |
| `CompanySelector.RunKeepsCompetitorLimit` | src/components/CompanySelector.tsx:34 | no sequence of the page's events gets past five competitors |
| `CompanySelector.AddAppendsOne` | src/components/CompanySelector.tsx:33-44 | a successful Add appends one competitor whose ticker is the trimmed, upper-cased, non-blank input; earlier entries are unchanged and the input is cleared |
| `CompanySelector.ValidCompaniesExact` | src/components/CompanySelector.tsx:52 | save keeps exactly the entries whose trimmed ticker is not empty, in list order |
| `CompanySelector.SavedClientIsShownClient` | src/components/CompanySelector.tsx:51-56 | when Save is enabled, the first client of the saved list is the client the editor shows |
| `CompanySelector.BlankStartDisablesSave` | src/components/CompanySelector.tsx:194 | a fresh editor shows a blank client, no competitors and a disabled Save |
| `CompanySelector.ClientEditAtZeroReachesClient` | src/components/CompanySelector.tsx:87 | when the client is the first entry, the index-0 edit reaches the shown client |
| `CompanySelector.ClientEditAtZeroMissesClient` | src/components/CompanySelector.tsx:86-87 | when a competitor comes first, the index-0 edit changes that competitor and the shown client stays as it was |
| `CompanySelector.EditClientReachesClient` | src/components/CompanySelector.tsx:86-97 | an edit aimed at the shown client's index always reaches that client and leaves every non-client entry unchanged |
| `CompanySelector.Selector.constructor` | src/components/CompanySelector.tsx:21-24 | the state starts from the initial list (or one blank client) and an empty input |
| `CompanySelector.Selector.UpdateCompany` | src/components/CompanySelector.tsx:26-31 | the list becomes its update, the input is unchanged, and the competitor count is kept for role-free edits |
| `CompanySelector.Selector.SetNewCompetitorTicker` | src/components/CompanySelector.tsx:159 | the input becomes the upper-cased text and the list is unchanged |
| `CompanySelector.Selector.AddCompetitor` | src/components/CompanySelector.tsx:33-44 | under the guard, the new competitor is appended and the input cleared; otherwise nothing changes; at most five competitors is preserved |
| `CompanySelector.Selector.RemoveCompetitor` | src/components/CompanySelector.tsx:46-49 | the list loses the entry at `index`, and the competitor count does not rise |
| `CompanySelector.Selector.SaveCompanies` | src/components/CompanySelector.tsx:51-54 | the saved list is the entries with a ticker, each non-blank, and it keeps the shown client when Save is enabled |
| `CashFlowChart.DetailRows` | src/components/charts/CashFlowChart.tsx:88-108 | one row per year, in order; each of the eleven fields is that year's figure for the slot or its YoY change |
| `CashFlowChart.SeriesKeyInjective` | src/components/charts/CashFlowChart.tsx:74 | distinct slots never share a series key, so no series overwrites another |
| `CashFlowChart.Accumulate` | src/components/charts/CashFlowChart.tsx:72-85 | the reduce writes exactly one key per visited slot, holding that slot's value |
| `CashFlowChart.ComparisonRowOf` | src/components/charts/CashFlowChart.tsx:69-86 | a comparison row keeps its year; its keys are exactly the six series keys, each holding that slot's figure for the chosen type |
| `CashFlowChart.ComparisonRows` | src/components/charts/CashFlowChart.tsx:66-86 | one comparison row per year, in the input's order |
| `CashFlowChart.SelectedData` | src/components/charts/CashFlowChart.tsx:66-108 | one company gets its detail rows, all eleven fields of its figures and YoY changes year by year; the comparison gets, per year, exactly the six series keys, each holding its slot's value for the chosen type |
| `CashFlowChart.SelectedDataKeepsYears` | src/components/charts/CashFlowChart.tsx:66-108 | whatever the toggles, the chart gets one row per input year, in input order |
| `CashFlowChart.AllTypesShowsOperating` | src/components/charts/CashFlowChart.tsx:68-77 | with every type asked for, each slot's bar is its operating cash flow, under `<slot>_operating` |
| `CashFlowChart.NetCashFlow` | src/components/charts/CashFlowChart.tsx:408 | net cash flow exceeds operating cash flow exactly when investment and financing together bring cash in; with both as outflows it is operating less their magnitudes |
| `CashFlowChart.HeadlineOf` | src/components/charts/CashFlowChart.tsx:111-123 | the headline is the focused slot's last year: operating figure and growth, margins, investment and financing as non-negative magnitudes, and the net of the three flows |
| `CashFlowChart.HeadlineIsLastDetailRow` | src/components/charts/CashFlowChart.tsx:111-123 | for a selected company the headline is the chart's last row; the shown investment and financing are their magnitudes, and net cash flow is the sum of the three bars |
| `CashFlowChart.NetCashFlowFromShownFigures` | src/components/charts/CashFlowChart.tsx:421-434 | when investment and financing are outflows, net cash flow is operating less the two magnitudes shown |
| `CashFlowChart.HeadlineAllIsClient` | src/components/charts/CashFlowChart.tsx:111 | the comparison view's headline is the client's |
| `CashFlowChart.CompanyCard` | src/components/charts/CashFlowChart.tsx:362-385 | each card is the slot's last operating cash flow and its growth; the client's card repeats the headline's figures |
| `CashFlowChart.CompanyCardIsLastBar` | src/components/charts/CashFlowChart.tsx:362-385 | each company card shows the last bar the operating comparison plots for it, and the slot's last operating YoY |
| `CashFlowChart.OperatingRankFirstIffLeader` | src/components/charts/CashFlowChart.tsx:404 | the client's operating rank is first exactly when no company had a larger operating cash flow in the last year |
| `CashFlowChart.ShownRankIgnoresLeader` | src/components/charts/CashFlowChart.tsx:404 | on data where a competitor out-earns the client, the summary still says "1st" while the client's rank is second |
| `CashFlowChart.CompanyName` | src/components/charts/CashFlowChart.tsx:248 | a slot key gives that slot's name, or the key when the name is empty; a string that is not a property of the names object is shown as it is |
| `CashFlowChart.TypeName` | src/components/charts/CashFlowChart.tsx:249 | `Operating` exactly for `operating`, `Investment` exactly for `investment`, `Financing` for anything else, a missing word included |
| `CashFlowChart.TooltipLabel` | src/components/charts/CashFlowChart.tsx:244-255 | with one type the label is the company name; with all types a name without `_` is labelled with its company name and `Financing` |
| `CashFlowChart.SeriesKeySplits` | src/components/charts/CashFlowChart.tsx:247 | splitting `<slot>_operating` on `_` gives back the slot's key and `operating` |
| `CashFlowChart.TooltipReadsSeriesKey` | src/components/charts/CashFlowChart.tsx:244-250 | read from its series key, every slot is labelled with its name and `Operating` |
| `CashFlowChart.TooltipUnknownKey` | src/components/charts/CashFlowChart.tsx:252 | a name that is not a property of the names object is shown as it is |
| `CashFlowChart.TooltipDisplayNameSaysFinancing` | src/components/charts/CashFlowChart.tsx:258-270 | given the bars' display name, the label calls the operating figures `Financing` |
| `CashFlowChart.OperatingTooltipLabelCorrect` | src/components/charts/CashFlowChart.tsx:244-250 | the corrected label reads `<company> - Operating`, from the series key or from the display name |
| `RevenueChart.CompanySeries` | src/components/charts/RevenuePerformanceChart.tsx:67-71 | one point per year, in order, holding that year's revenue and YoY change for the slot |
| `RevenueChart.ClientSeries` | src/components/charts/RevenuePerformanceChart.tsx:93-97 | one point per year, in order, holding the client's revenue |
| `RevenueChart.ClientSeriesIsClientSelection` | src/components/charts/RevenuePerformanceChart.tsx:93-97 | the comparison branch's client series is the series that selecting `client` builds |
| `RevenueChart.SelectedData` | src/components/charts/RevenuePerformanceChart.tsx:65-71 | the comparison gets the input unchanged; one company gets its own points |
| `RevenueChart.Summarize` | src/components/charts/RevenuePerformanceChart.tsx:83-90 | current figures are the last point's; the increase is last minus first; the growth percent exists exactly when the first revenue is non-zero and is increase × 100 / first |
| `RevenueChart.CagrFinite` | src/components/charts/RevenuePerformanceChart.tsx:88 | finite needs two years and a non-zero first revenue; with exactly two that suffices; with more, the first and last revenue must not have opposite signs |
| `RevenueChart.StatsFor` | src/components/charts/RevenuePerformanceChart.tsx:74-107 | the current figures are the focused slot's last year, and the increase is its last revenue less its first |
| `RevenueChart.StatsAllIsClient` | src/components/charts/RevenuePerformanceChart.tsx:91-107 | the comparison view's statistics are those of selecting `client` |
| `RevenueChart.StatsFromFirstAndLastYear` | src/components/charts/RevenuePerformanceChart.tsx:76-107 | every statistic comes from the focused slot's first and last year; the CAGR is finite exactly under its definedness condition |
| `RevenueChart.OneYearHasNoCagr` | src/components/charts/RevenuePerformanceChart.tsx:88 | a single year gives no finite CAGR and a zero increase |
| `RevenueChart.IncreaseLabel` | src/components/charts/RevenuePerformanceChart.tsx:334-335 | the word is `Increase` exactly for a non-negative change, `Decrease` otherwise; the figure is the magnitude and, with the word's sign, gives back the change |
| `RevenueChart.CompanyCard` | src/components/charts/RevenuePerformanceChart.tsx:267-273 | each card shows its slot's last-year revenue and YoY |
| `RevenueChart.CompanyCardIsLastYear` | src/components/charts/RevenuePerformanceChart.tsx:267-273 | the client's card agrees with the comparison view's headline |
| `MarginChart.Max` | src/components/charts/MarginAnalysisChart.tsx:39 | an upper bound of the values that is one of them |
| `MarginChart.Min` | src/components/charts/MarginAnalysisChart.tsx:39 | a lower bound of the values that is one of them |
| `MarginChart.Range` | src/components/charts/MarginAnalysisChart.tsx:39-40 | the range is non-negative and bounds every difference of two values |
| `MarginChart.RangeZeroIffConstant` | src/components/charts/MarginAnalysisChart.tsx:39-40 | the range is zero exactly when every value is the same |
| `MarginChart.GrossMargins` | src/components/charts/MarginAnalysisChart.tsx:39 | the gross margins of the rows, one per row, in order |
| `MarginChart.NetMargins` | src/components/charts/MarginAnalysisChart.tsx:40 | the net margins of the rows, one per row, in order |
| `MarginChart.Summary` | src/components/charts/MarginAnalysisChart.tsx:36-40 | the current year is the last row; each range is non-negative and bounds every difference of two rows' margins |
| `MarginChart.SummaryRangesAttained` | src/components/charts/MarginAnalysisChart.tsx:39-40 | each range is the difference of two rows' margins |
| `MarginChart.FlatMarginsHaveNoRange` | src/components/charts/MarginAnalysisChart.tsx:39-40 | margins that never move, and so a single row, give zero ranges |
| `MarginChart.CardSignsAsWritten` | src/components/charts/MarginAnalysisChart.tsx:172-193 | every card starts with `+`, and a card shows `+-` exactly when its margin fell |
| `MarginChart.FallingMarginShowsDoubleSign` | src/components/charts/MarginAnalysisChart.tsx:172 | a gross margin that fell is shown with the signs `+-` |
| `MarginChart.CardSigns` | src/components/charts/MarginAnalysisChart.tsx:172-193 | with the sign guard, each of the four cards shows `-` exactly for a fall and `+` otherwise |
| `MarginChart.CardSignsAgreeWhenNoneFell` | src/components/charts/MarginAnalysisChart.tsx:172-193 | when no margin fell, the corrected cards read as the written ones |
| `MockData.ClientCompanies` | src/data/mockData.ts:400 | only clients from the list, and every client of it |
| `MockData.CompetitorCompanies` | src/data/mockData.ts:401 | only non-clients from the list, and every non-client of it |
| `MockData.ClientsAndCompetitorsPartition` | src/data/mockData.ts:400-401 | no company is in both; the lengths and multisets add up to the list's; each keeps list order across any cut |
| `MockData.SampleClientPositions` | src/data/mockData.ts:73-178 | the first and eighth sample companies are the only clients |
| `MockData.SampleClientTicker` | src/data/mockData.ts:73-178 | a client of the sample list is AAPL or JPM |
| `MockData.CompanyByTicker` | src/data/mockData.ts:402 | none exactly when no ticker matches exactly; otherwise a company with that ticker and no match before it |
| `MockData.SampleTickersDistinct` | src/data/mockData.ts:73-178 | no two sample companies share a ticker |
| `MockData.SampleTickersFindTheirCompany` | src/data/mockData.ts:402 | each sample company is what its own ticker finds |
| `MockData.FinancialTickersListed` | src/data/mockData.ts:370-397 | every ticker the financial records look up is in the list, so no `find(...)!` yields undefined |
| `MockData.RecordFor` | src/data/mockData.ts:371-375 | the record's company is a listed company with that ticker |
| `MockData.FinancialData` | src/data/mockData.ts:370-397 | five records, in order, each holding the listed company of its ticker |
| `MockData.FinancialDataByTicker` | src/data/mockData.ts:403 | none exactly when no record's company has the ticker; otherwise a record with it and no match before it |
| `MockData.FinancialTickersDistinct` | src/data/mockData.ts:370-397 | the five tickers are distinct |
| `MockData.FinancialDataFindsListedTicker` | src/data/mockData.ts:403 | in records keyed by the five tickers in order, each ticker finds its own record |
| `MockData.FinancialDataLookup` | src/data/mockData.ts:403 | each of the five tickers finds a record, holding the company the company lookup gives |
| `MockData.FinancialDataMissesOtherTickers` | src/data/mockData.ts:403 | any other ticker finds no record |
| `MockData.CashFlowDataWellFormed` | src/data/mockData.ts:406-482 | five rows, 2020 to 2024 in order, each with all six slots and all six YoY records |

## Left out

- Rendering is not modelled. That covers JSX, Tailwind classes, the Recharts components and the UI library's `Card`, `Badge` and `Button`. `src/components/ui/button.tsx` composes classes through libraries this model does not include.
- Text.ToUpper maps only the ASCII letters `a`–`z`. JavaScript's `toUpperCase` also maps non-ASCII letters, some of them to more than one character.
- A `Partial<Company>` patch whose field is present but `undefined` overwrites that field in the source. The model's `Patch` has no such value: a field is either present with a value or absent.
- React state updates are applied as each handler returns. Batching and re-rendering are not modelled.
- `onCompaniesChange` is a callback into the parent page. `Selector.SaveCompanies` returns the list that would be passed to it.
- The competitor rows find their entry's index by object identity (`CompanySelector.tsx:123`). The model takes the index directly.
- The selector's total and competitor counts (`CompanySelector.tsx:189-190`) are not modelled as separate members. They are `|ValidCompanies|` and the same trimmed-ticker filter over `Competitors`. The client count is modelled (`ShownClientCount`); it tests the ticker untrimmed, so a client ticker of spaces counts as one client while Save is disabled.
- RevenueChart.Summarize: the CAGR's value is not modelled, only whether `Math.pow(last / first, 1 / (years - 1))` is finite. Floating-point `pow` is not modelled.
- RevenueChart.Summarize: a zero first revenue gives no growth percent (`None`). The source divides by zero and shows `Infinity` or `NaN`.
- Number formatting is not modelled: `toFixed(1)`, the `$…B` and `%` text, and JavaScript's number-to-string conversion beyond the leading `-`.
- Integer and real arithmetic are unbounded and exact. The source uses IEEE doubles.
- The six slots are fixed. The charts walk `Object.entries(competitorNames)`, so a caller-supplied names object with other keys would change the comparison series. The model takes the six keys of the interfaces.
- The headline, card and summary members require non-empty data: `CashFlowChart.HeadlineOf`, `CompanyCard`, `OperatingRank` and the lemmas about them; `RevenueChart.Summarize`, `StatsFor` and `CompanyCard`; `MarginChart.Summary`. On an empty array the last-row lookup gives `undefined`, and the first property read of it throws a `TypeError` (`CashFlowChart.tsx:113`, `RevenuePerformanceChart.tsx:85` and `101`, `MarginAnalysisChart.tsx:173`). `MarginChart.Max`, `Min` and `Range` also require a value: on empty data `Math.max()` and `Math.min()` give `-Infinity` and `Infinity`, so the ranges at `MarginAnalysisChart.tsx:39-40` are computed as `-Infinity` before the render throws at line 173. Every caller passes non-empty data, so that error path is not modelled.
- CashFlowChart.CompanyName looks the key up only among the six slots. `competitorNames[key]` in JavaScript also finds members inherited from `Object.prototype`, so a name such as `constructor` or `toString` would show a function's text. The app never passes such a name.
- The revenue chart's `selectedColor` (`RevenuePerformanceChart.tsx:109`) picks a line colour and is rendering.
- The single-company composed chart's line series and its tooltip (`CashFlowChart.tsx:287-353`) are rendering of `DetailRows` and are not modelled further.
- The revenue chart's "Growth Rank: 1st" and "Market Position: 2nd" (`RevenuePerformanceChart.tsx:131`, `309-314`) are hard-coded like the cash-flow rank. Only the cash-flow rank is modelled.
- The margin chart's `currentMargins` figures (`MarginAnalysisChart.tsx:29-34`, `57-69`, `205`, `213`) are default constants shown as they are.
- The margin chart's plotted rows are `data` itself (`MarginAnalysisChart.tsx:78`). There is no transform to model.
- From the sample data, these are not modelled:
  - `realFinancialData` and `appleHistoricalRevenue`;
  - the per-year `FinancialMetrics` numbers;
  - the optional company fields: address, logo, employees, description and competitive landscape.
- `lastUpdated` is kept as the date string it is built from.
- The FastAPI backend, the pages, routing, layout and authentication are not modelled.

## Findings

| source | as written | input that shows it | evidently intended | confidence | as-written member | corrected member |
|---|---|---|---|---|---|---|
| src/components/CompanySelector.tsx:86-97 | the client ticker and name fields show `find(type === 'client')` but write with `updateCompany(0, …)` | an initial list `[MSFT competitor, AAPL client]`; typing `X` into the client ticker field renames MSFT and leaves AAPL unchanged | the fields write to the index of the entry they show | medium, not executed | `CompanySelector.ClientEditAtZeroMissesClient` | `CompanySelector.EditClientReachesClient` |
| src/components/charts/CashFlowChart.tsx:244-270 | in the all-types comparison, the tooltip splits the series name on `_`, but each bar's `name` is the company's display name, which has no `_`, so the type word is missing and the label falls back to `Financing` | any bar of the all-types view: "Our Company" is labelled `Our Company - Financing` although it plots operating cash flow | `<company> - Operating` | medium (depends on Recharts passing the bar's `name`), not executed | `CashFlowChart.TooltipDisplayNameSaysFinancing` | `CashFlowChart.OperatingTooltipLabelCorrect` |
| src/components/charts/CashFlowChart.tsx:404 | the comparison summary's "CF Generation Rank" is the literal `1st`, and the header says "Operating CF Leader" (line 152) | a last year in which competitor1's operating cash flow is 9 and every other company's is 1 | the client's rank by last-year operating cash flow | low (may be a placeholder), not executed | `CashFlowChart.ShownRankIgnoresLeader` | `CashFlowChart.OperatingRankFirstIffLeader` |
| src/components/charts/MarginAnalysisChart.tsx:172-193 | the four YoY cards print a literal `+` before the number | a last-year `grossYoY` of -1.5 is shown as `+-1.5% YoY` | `x >= 0 ? '+' : ''`, as the cash-flow and revenue cards do | high, not executed | `MarginChart.FallingMarginShowsDoubleSign` | `MarginChart.CardSigns` |
