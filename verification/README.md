# Wedding price calculator — Dafny model

This project models the wedding photo/video price calculator of `src/index.ts`.

- **Price tables.** For each of the years 2020, 2021 and 2022 there is one price per service: Photography, VideoRecording, BlurayPackage, TwoDayEvent and WeddingSession. Each year also has a package price for Photography and VideoRecording bought together.
- **Price calculator.** It computes the base price of a selection of services in a year:
  - the package price replaces the two individual prices when both are selected;
  - BlurayPackage is charged only with VideoRecording;
  - TwoDayEvent is charged only with Photography or VideoRecording.
- **Discounts.** A discount is a candidate only when WeddingSession is selected:
  - in 2022 with Photography, the session becomes free;
  - otherwise, with Photography or VideoRecording, there is a flat 300.
  
  The final price is the base price minus the largest candidate (or 0 if there is none).
- **Selection reducer.** `updateSelectedServices` applies one Select or Deselect action to a selection:
  - Select of an add-on is refused while the service it needs is missing;
  - Deselect of the last of Photography and VideoRecording also removes both add-ons.

Modules:
- `PriceTable` (`price_table.dfy`): the enumerations, the two tables, and the list price of a set of services, which is the sum of its individual prices.
- `PriceCalculator` (`price_calculator.dfy`): the base price, the discounts, `calculate` and `calculatePrice`.
- `SelectionReducer` (`selection_reducer.dfy`): the reducer, its preserved invariant, and the counterexample to the stronger invariant.

Select(BlurayPackage) requires VideoRecording (src/index.ts:99), but Deselect cascades only when neither Photography nor VideoRecording remains (src/index.ts:110-114). So deselecting VideoRecording from {Photography, VideoRecording, BlurayPackage} gives {Photography, BlurayPackage} (`SelectionReducer.BlurayOutlivesVideo`), and "BlurayPackage only with VideoRecording" is not an invariant of the reducer. The invariant it keeps is the weaker "BlurayPackage or TwoDayEvent only with Photography or VideoRecording" (`SelectionReducer.ReplayKeepsAddOnsSupported`).

## Model

| member | source | states |
|---|---|---|
| PriceTable.LookupYear | src/index.ts:1 | models the year type only: 2020, 2021 and 2022 are the years; a found year has the looked-up number |
| PriceTable.LookupYearRoundTrip | src/index.ts:1 | looking up a year's number gives the year back; a lookup succeeds exactly for the number of some year |
| PriceTable.ServicePrice | src/index.ts:4-8 | every (year, service) entry exists and is positive |
| PriceTable.PackagePrice | src/index.ts:10-14 | every year has a positive package price |
| PriceTable.PackageBetweenPartsAndSum | src/index.ts:4-14 | in each year the package costs more than Photography or VideoRecording alone and less than the two together |
| PriceTable.SumPricesInsert | src/index.ts:4-8 | over a list without repeats, choosing one more service adds exactly its price if listed, otherwise nothing |
| PriceTable.ListPriceInsert | src/index.ts:4-8 | the list price of a set grows by exactly the price of an added service |
| PriceCalculator.IsPackageSelected | src/index.ts:86-88 | true exactly when every named service is in the selection |
| PriceCalculator.BasePrice | src/index.ts:33-56 | the base price never exceeds the list price of the selection, and includes the WeddingSession price when it is selected |
| PriceCalculator.ChargedServices | src/index.ts:36-53 | only add-ons can go uncharged; with VideoRecording every selected service is charged; with Photography alone only BlurayPackage is dropped; with neither both add-ons are dropped |
| PriceCalculator.BasePriceIsChargedListPrice | src/index.ts:33-56 | base price = list price of the charged services minus the bundle saving |
| PriceCalculator.BundleSubstitution | src/index.ts:36-41 | with Photography and VideoRecording both selected, base price = package price + list price of the other charged services, so neither individual price is included |
| PriceCalculator.NoBundleIsListPrice | src/index.ts:38-41 | without both of them, base price = list price of the charged services |
| PriceCalculator.SessionAlwaysCharged | src/index.ts:43-45 | adding WeddingSession raises the base price by exactly its price, whatever else is selected |
| PriceCalculator.BlurayChargedOnlyWithVideo | src/index.ts:47-49 | adding BlurayPackage raises the base price by its price if VideoRecording is selected and by nothing otherwise |
| PriceCalculator.TwoDayChargedOnlyWithCoverage | src/index.ts:51-53 | adding TwoDayEvent raises the base price by its price if Photography or VideoRecording is selected and by nothing otherwise |
| PriceCalculator.PotentialDiscounts | src/index.ts:58-70 | at most one candidate; each is positive and at most the WeddingSession price; none exactly when WeddingSession is missing or neither Photography nor VideoRecording is selected |
| PriceCalculator.SessionFreeIn2022 | src/index.ts:61-63 | in 2022 with Photography and WeddingSession, the only candidate is the full WeddingSession price |
| PriceCalculator.FlatDiscountOtherwise | src/index.ts:64-66 | otherwise, with WeddingSession and Photography or VideoRecording, the only candidate is 300 |
| PriceCalculator.MaxDiscount | src/index.ts:76 | the result is at least every candidate, and is either 0 or one of the candidates |
| PriceCalculator.CountOf | src/index.ts:79 | the count is the number of occurrences of the value among the candidates (its multiplicity), positive exactly when it is a candidate |
| PriceCalculator.AppliedDiscount | src/index.ts:74-76 | the discount applied is at most the WeddingSession price, and 0 without WeddingSession |
| PriceCalculator.Calculate | src/index.ts:72-84 | returns the base price; 0 <= final price <= base price; final = base without WeddingSession |
| PriceCalculator.TieWarning | src/index.ts:79-81 | the advisory condition (greatest discount positive and occurring more than once) can hold only with at least two candidates and a positive applied discount |
| PriceCalculator.NeverTieWarning | src/index.ts:79-81 | the advisory about several equal greatest discounts is never raised |
| PriceCalculator.FinalPriceByRules | src/index.ts:58-77 | final price = base price minus the full session price (2022 with Photography), 300 (Photography or VideoRecording otherwise), or 0 |
| PriceCalculator.CalculatePrice | src/index.ts:124-127 | the price of the services an array names satisfies 0 <= final <= base, and final = base without WeddingSession |
| PriceCalculator.CalculatePriceIgnoresOrder | src/index.ts:20-23 | two arrays naming the same services, in any order or with repeats, get the same price |
| PriceCalculator.ScenarioPhotographySession2022 | src/index.ts:4-84 | 2022, {Photography, WeddingSession}: base 2500, final 1900 |
| PriceCalculator.ScenarioVideoSession2020 | src/index.ts:4-84 | 2020, {VideoRecording, WeddingSession}: base 2300, final 2000 |
| PriceCalculator.ScenarioBundleAddOns2021 | src/index.ts:4-84 | 2021, {Photography, VideoRecording, BlurayPackage, TwoDayEvent}: base 3000, final 3000 |
| SelectionReducer.UpdateSelectedServices | src/index.ts:91-122 | Select only adds the named service; Deselect only removes and always removes the named service; both keep "add-on present ⇒ Photography or VideoRecording present" |
| SelectionReducer.SelectAddsUnlessRefused | src/index.ts:98-106 | a refused Select returns the input; an accepted one adds the service; no other service changes either way |
| SelectionReducer.SelectUnchangedIff | src/index.ts:98-106 | a Select leaves the selection unchanged exactly when it is refused or the service is already selected |
| SelectionReducer.SelectIdempotent | src/index.ts:98-106 | the same Select twice gives the same selection as once |
| SelectionReducer.DeselectRemovesAndCascades | src/index.ts:108-115 | Deselect removes the service; BlurayPackage and TwoDayEvent also go exactly when the last of Photography and VideoRecording was deselected; nothing else changes |
| SelectionReducer.DeselectIdempotent | src/index.ts:108-115 | the same Deselect twice gives the same selection as once |
| SelectionReducer.ReplayKeepsAddOnsSupported | src/index.ts:91-122 | any sequence of actions keeps "BlurayPackage or TwoDayEvent present ⇒ Photography or VideoRecording present" |
| SelectionReducer.BlurayOutlivesVideo | src/index.ts:108-115 | deselecting VideoRecording from {Photography, VideoRecording, BlurayPackage} leaves {Photography, BlurayPackage}, so "BlurayPackage ⇒ VideoRecording" is not kept |
| SelectionReducer.BlurayWithoutVideoReachable | src/index.ts:98-115 | that state is reachable from the empty selection through the reducer |
| SelectionReducer.TwoDayOnEmptyRefused | src/index.ts:102-104 | selecting TwoDayEvent on an empty selection returns it unchanged |
| SelectionReducer.SupportedAddOnsCharged | src/index.ts:47-53 | in a selection that keeps the invariant, a selected TwoDayEvent is always charged; a selected BlurayPackage is charged exactly when VideoRecording is selected |

## Left out

- The `console.warn` for tied greatest discounts (src/index.ts:79-81) is modelled as the boolean `TieWarning`, not as output. `NeverTieWarning` proves it is never raised.
- The `default: throw` for an unknown action type (src/index.ts:117-118) cannot occur, because `Action` is a closed `Select | Deselect` datatype.
- Selections are sets. The source takes and returns arrays: a refused Select returns the input array verbatim, and other actions return a deduplicated array. Only order and duplicates differ, and those are not modelled.
- A missing year or service in the tables cannot occur, because `Year` and `Service` are closed enumerations. In the source only literal service names are looked up. An unsupported year would make `getServicePrice` (src/index.ts:26) throw a TypeError, and would make `getPackagePrice` (src/index.ts:30) return `undefined`, so the base price would be NaN. Neither path is modelled.
- Prices are JavaScript numbers in the source. Every price and every difference of prices here is a small integer, so they are modelled as unbounded integers.
- The `PriceCalculator` class and its constructor (src/index.ts:16-31) are modelled as functions of the selection and the year. The private price getters are the `ServicePrice` and `PackagePrice` lookups.
