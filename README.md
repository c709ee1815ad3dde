# Product dashboard: report derivation and screen state

A model of the one piece of logic in a browser dashboard that charts product prices
from a public catalog. The user picks a category, the screen loads that category's
products, the user may tick some product titles, and "Run Report" derives the chart's
x-axis labels and y-axis values. The same code appears twice, in `src/App.tsx` and in
`src/App1.tsx` (an inline-styled copy). It is modelled once: the report derivation at
`src/App.tsx:89-108` is the same as `src/App1.tsx:183-202`, and the chart options at
`src/App.tsx:114-155` are the same as `src/App1.tsx:208-249`.

- `catalog.dfy`, module `Catalog`: products, prices and the catalog response. A price is
  `Num(amount)` or `NotNum`, so that the `typeof price === "number"` filter can be
  expressed. Prices are never used in arithmetic.
- `report.dfy`, module `Report`: the derivation as pure functions. It is built from the
  same `map`/`filter` steps as the source. Lemmas cover ordering, membership and
  multiplicity, both fallbacks, the empty cases, and when the two axes line up.
- `chart.dfy`, module `Chart`: the state-dependent part of the chart options.
- `app.dfy`, module `App`: class `Dashboard`. It holds the screen's seven state fields
  and has one method per event: clear, category change, product change, categories
  loaded, products loaded, and run report.

The two fallbacks of the derivation are decided independently, as in the source. When a
selected product's price is not a number, the labels can keep the selection while the
values fall back to the whole list. `Report.AxesMayDisagreeInLength` exhibits such a
case. `Report.AxesAlignWhenAllNumeric` proves the lengths agree, label by label, when
every price is a number.

## Model

| member | source | states |
|---|---|---|
| `Report.Titles` | src/App.tsx:89-90 | the title list has one entry per product, the i-th product's title at position i |
| `Report.Prices` | src/App.tsx:107 | the price list has one entry per product, the i-th product's price at position i |
| `Report.SelectedTitlesSpec` | src/App.tsx:91-93 | the title filter's result is a subsequence of the titles (catalog order); it holds a title iff that title is in the catalog and selected; each selected title occurs as often as in the catalog |
| `Report.FilterOfUnique` | src/App.tsx:91-102 | two subsequences of one list that each hold every kept element exactly as often as the list does, and nothing else, are equal: each filter step is determined by order and multiplicity |
| `Report.SelectedTitlesUnique` | src/App.tsx:91-93 | every subsequence of the titles with exactly those occurrences equals the filter's result, so order plus membership pin the labels down |
| `Report.SelectedProductsSpec` | src/App.tsx:99-100 | the product filter keeps catalog order, keeps a product iff its title is selected, and keeps each selected product as often as it occurs |
| `Report.NumericOnlySpec` | src/App.tsx:102 | the numeric filter keeps order, keeps a price iff it is a number, and keeps each numeric price as often as it occurs |
| `Report.PricedSelectionSpec` | src/App.tsx:99-102 | the products with a selected title and a numeric price form a subsequence of the catalog holding each such product as often as the catalog does |
| `Report.PricedSelectionUnique` | src/App.tsx:99-102 | any subsequence of the catalog with exactly those products and multiplicities is that priced selection |
| `Report.PricesOfPricedSelection` | src/App.tsx:98-102 | filter by title, take prices, drop non-numbers equals the prices of the priced selection |
| `Report.FilteredPricesInOrder` | src/App.tsx:98-102 | the filtered prices are a subsequence of the catalog's prices and are all numbers |
| `Report.FilteredPricesMembers` | src/App.tsx:98-102 | a price is among the filtered prices iff it is a number and is the price of some selected product |
| `Report.TitlesOfSelectedProducts` | src/App.tsx:89-101 | filtering the products by title and then taking titles gives the filtered titles |
| `Report.PricesOfSubsequence` | src/App.tsx:101 | taking prices maps a subsequence of products to a subsequence of their prices |
| `Report.XAxisLabelsSpec` | src/App.tsx:89-96 | labels are catalog titles in catalog order, at most one per product; if any catalog title is selected they are exactly the selected titles with catalog multiplicity; if none is, they are every title |
| `Report.YAxisValuesSpec` | src/App.tsx:98-108 | values are prices in catalog order; with a list loaded, the filtered prices are the prices of the priced selection (pinned down by order and multiplicity), i.e. each numeric price of a selected product once per product; when these exist they are the values (all numeric), otherwise the values are every price, unfiltered |
| `Report.NoProductsEmptyReport` | src/App.tsx:89-107 | with no product list loaded, both axes are empty |
| `Report.NonEmptyListGivesNonEmptyReport` | src/App.tsx:94-107 | a loaded non-empty list always yields non-empty labels and values |
| `Report.AxesAlignWhenAllNumeric` | src/App1.tsx:183-202 | when every price is a number, labels and values are the titles and prices of one product list, so their lengths agree |
| `Report.AxesMayDisagreeInLength` | src/App1.tsx:188-201 | one selected product with a non-numeric price gives one label but two values: the fallbacks are independent |
| `Report.SelectionOrderIrrelevant` | src/App1.tsx:185-194 | only which titles are selected matters, not their order or repetition in the selection |
| `Report.ExampleReports` | src/App.tsx:89-108 | three worked cases: one title selected, nothing selected, an empty list |
| `Chart.Options` | src/App.tsx:114-155 | title empty iff no category, otherwise exactly `"Products in selected "` followed by the category; y-axis title is the category; y axis visible iff there are labels; x categories are the labels or else the category list; the series is the values when they are non-empty and the placeholder `[6, 8, 5, 7, 3]` otherwise, so never empty |
| `Chart.TitleIdentifiesCategory` | src/App.tsx:119-121 | different categories give different chart titles |
| `App.Dashboard.RunReportEnabled` | src/App.tsx:204-207 | the button is enabled iff a product list is loaded and non-empty; when enabled, the derivation yields non-empty labels and values |
| `App.Dashboard.CurrentChart` | src/App1.tsx:208-249 | the rendered chart has an empty title iff no category is selected and a visible y axis iff labels are set |
| `App.Dashboard.constructor` | src/App.tsx:30-36 | initial state: everything empty, no list loaded, spinner off |
| `App.Dashboard.ClearFilters` | src/App.tsx:47-53 | list unloaded, category `""`, selection and both axes empty; categories and spinner unchanged; Run Report disabled; the chart shows its fallbacks |
| `App.Dashboard.HandleCategoryChange` | src/App.tsx:38-41 | ends with the new category and every other filter and the report cleared; categories and spinner unchanged |
| `App.Dashboard.HandleProductChange` | src/App1.tsx:133-136 | the selection is replaced wholesale and nothing else changes |
| `App.Dashboard.FetchCategories` | src/App.tsx:55-69 | a delivered list replaces the categories; a failed fetch changes nothing |
| `App.Dashboard.FetchProducts` | src/App.tsx:71-84 | a delivered list is stored only when a category is selected; a failed fetch changes nothing; the invariant that a list implies a category is kept |
| `App.Dashboard.BeginReport` | src/App.tsx:86-87 | the spinner is on, the invariant is kept, and nothing else changes |
| `App.Dashboard.FinishReport` | src/App1.tsx:182-204 | both axes become the derivation of the loaded list and the selection; the spinner is off; nothing else changes |
| `App.Dashboard.RunReport` | src/App.tsx:86-112 | spinner off afterwards; axes are the derivation; empty axes with no list; when the button is enabled both axes are non-empty and the chart shows them |

## Left out

- Network fetching is not modelled. This covers `src/services/api.ts`, `src/services/ProductService.ts` and the `fetch` calls. Their outcome is a parameter of `FetchCategories` and `FetchProducts`: `Some(payload)` for a delivered body, `None` for a fetch that throws. A fetch throws when the request is rejected or the body does not parse. For the products of `src/App.tsx`, it also throws on a non-OK status, because `src/services/ProductService.ts:9-11` checks it.
- A non-OK response with a JSON body is not modelled where the status is not checked. This covers the category fetch in both screens (`src/App.tsx:58-62`, `src/App1.tsx:149-153`) and the product fetch of `src/App1.tsx:167-171`. There the error body is stored as the state. The model only accepts a category list or a product response as a payload.
- A payload that parses but lacks a `products` field is not modelled. The payload is typed as a `ProductResponse`.
- The 3-second delay and the timer's cleanup closure are not modelled. `RunReport` is `BeginReport` followed at once by `FinishReport`.
- Stale closures are not modelled. In the source, the timer callback reads the list and selection captured when the button was pressed. The model reads them when `FinishReport` runs.
- Stale fetch responses are not modelled. In the browser, a product response can arrive after the category changed or was cleared. The model's invariant, that a loaded list implies a selected category, holds only for sequential events.
- The blocking of clicks on a disabled button is not modelled. The Run Report button is a native `<button>`, and its HTML `disabled` attribute (`src/App.tsx:207`, `src/App1.tsx:301`) stops the click. `RunReport` does not require `RunReportEnabled()`, because the derivation itself handles a missing list.
- The data-label format string and its number formatting are not modelled. The string differs in encoding between the two screen files, and the charting library does the formatting.
- The chart type, alignment and font constants are not modelled, nor the markup, styling, `src/App.styles.ts`, the `src/component/` presentational components or the Highcharts wrapper. They hold no logic.
- Price magnitudes are not modelled. A numeric price is kept as a real, and nothing is computed from it.
