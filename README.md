# Horizon drone estimate: price calculator and form state

This project models the estimate section of the Horizon landing page
(`components/LuxuryHorizonDroneEstimate.js`). It has two modules.

There is one file per module:

- `pricing.dfy`, module `Pricing`: the arithmetic of `calculateEstimate`.
  The price is `Math.round(100 * hours * locationMultiplier * resolutionMultiplier)`.
  The location multiplier is 1 for `"urban"` and 1.5 for any other value.
  The resolution multiplier is 1 for `"4k"` and 1.25 for any other value.
  `Total` states that formula over `real`. `Price` computes it over integers as
  `(2*num + den) / (2*den)`, where `num/den` is the exact product and `den` is 1, 2, 4 or 8.
  The contract of `Price` proves that the result is `Math.round` of `Total`:
  the nearest integer, with a half rounded toward +infinity.
- `estimate_form.dfy`, module `EstimateForm`: the `estimateData` record and the
  `estimatedPrice` slot. It models the updater functions that the handlers pass to
  `setEstimateData`: the single-field merge of `handleInputChange` and the
  coordinate merge used by the marker's `dragend` listener and by the
  geolocation success callback.
  `Step` and `Run` drive the page state with a sequence of events, and the
  lemmas about them carry the reachability properties.
  The class `EstimateSection` holds the two state slots as fields.
  Its handler methods are specified by `Step` and by frame conditions.

Where the form's controls suggest more than the code does, the model follows the code:

- `Math.round` rounds a half toward +infinity, so 562.5 becomes 563.
- The selects offer two values each, but `handleInputChange` stores whatever value arrives.
  The ternaries send every value other than `"urban"` or `"4k"` to the premium rate, so the model keeps both fields as strings.
- The code never clamps hours. The `min="1"` and `required` attributes do not filter change events either: typing 0 still reaches `handleInputChange`, so the model lets `hours` be any `nat`.
  The attributes only make the form invalid, and the browser then does not call `handleSubmit`.
  The model states this as `FormValid` (name and email non-empty, hours at least 1), and a submit of an invalid form changes nothing.

## Model

| member | source | states |
|---|---|---|
| `Pricing.LocationMultiplier` | components/LuxuryHorizonDroneEstimate.js:66 | definition: 1 for "urban", 1.5 for every other string |
| `Pricing.ResolutionMultiplier` | components/LuxuryHorizonDroneEstimate.js:67 | definition: 1 for "4k", 1.25 for every other string |
| `Pricing.Total` | components/LuxuryHorizonDroneEstimate.js:69 | definition: the unrounded total 100 × hours × location multiplier × resolution multiplier, over the reals |
| `Pricing.IsRounding` | components/LuxuryHorizonDroneEstimate.js:70 | definition: the `Math.round` rule, p ≤ x + 0.5 < p + 1 |
| `Pricing.LocationFactor` | components/LuxuryHorizonDroneEstimate.js:66 | the integer fraction equals the location multiplier: 1 for "urban", 3/2 otherwise |
| `Pricing.ResolutionFactor` | components/LuxuryHorizonDroneEstimate.js:67 | the integer fraction equals the resolution multiplier: 1 for "4k", 5/4 otherwise |
| `Pricing.RoundHalfUp` | components/LuxuryHorizonDroneEstimate.js:70 | the integer division `(2n+d)/(2d)` is Math.round of n/d |
| `Pricing.Price` | components/LuxuryHorizonDroneEstimate.js:64-71 | the integer price is Math.round of 100 × hours × location multiplier × resolution multiplier, computed exactly |
| `Pricing.RoundingUnique` | components/LuxuryHorizonDroneEstimate.js:70 | Math.round has exactly one result for a value |
| `Pricing.RoundingMonotone` | components/LuxuryHorizonDroneEstimate.js:70 | Math.round never maps a larger value to a smaller integer |
| `Pricing.PriceClosedForm` | components/LuxuryHorizonDroneEstimate.js:65-70 | the price per option pair: 100·h for urban 4k, 150·h for rural 4k, 125·h for urban 8k, round-half-up of 187.5·h for rural 8k |
| `Pricing.PriceExamples` | components/LuxuryHorizonDroneEstimate.js:65-69 | 1 h urban 4k is 100, 2 h is 200, rural is 150, 8k is 125 |
| `Pricing.HalfwayRoundsUp` | components/LuxuryHorizonDroneEstimate.js:69-70 | a total exactly half-way between k and k+1 gives price k+1 |
| `Pricing.HalfwayExample` | components/LuxuryHorizonDroneEstimate.js:69-70 | 3 h rural 8k has total 562.5 and price 563 |
| `Pricing.PremiumByDefault` | components/LuxuryHorizonDroneEstimate.js:66-67 | any location other than "urban" is priced as rural, any resolution other than "4k" as 8k |
| `Pricing.PremiumIsDearer` | components/LuxuryHorizonDroneEstimate.js:66-67 | for h ≥ 1 the price equals the urban (4k) price if and only if the location is "urban" (the resolution is "4k") |
| `Pricing.PriceMonotone` | components/LuxuryHorizonDroneEstimate.js:69-70 | for fixed options the price does not decrease as the hours grow |
| `Pricing.PriceBounds` | components/LuxuryHorizonDroneEstimate.js:65-70 | 100·h ≤ price ≤ round-half-up of 187.5·h, for every location and resolution string |
| `Pricing.PricePositive` | components/LuxuryHorizonDroneEstimate.js:69-70 | the price is positive if and only if hours ≥ 1 |
| `EstimateForm.InitialData` | components/LuxuryHorizonDroneEstimate.js:11-19 | definition: the initial record, empty name and email, 1 hour, "urban", "4k", null lat and lng |
| `EstimateForm.PriceShown` | components/LuxuryHorizonDroneEstimate.js:313 | definition: the display gate `estimatedPrice > 0` |
| `EstimateForm.FormValid` | components/LuxuryHorizonDroneEstimate.js:227-262 | definition: the browser's validation of the `required` and `min="1"` attributes, which decides whether a submit reaches `handleSubmit` |
| `EstimateForm.Step` | components/LuxuryHorizonDroneEstimate.js:51-93 | definition: the dispatch of the change, dragend, geolocation-success and submit handlers on the page state |
| `EstimateForm.ApplyInput` | components/LuxuryHorizonDroneEstimate.js:73-76 | the named field takes the input's value and every other field keeps its own |
| `EstimateForm.SetPosition` | components/LuxuryHorizonDroneEstimate.js:53-57 | lat and lng are both set to the given coordinates and every other field is kept |
| `EstimateForm.CalculateEstimate` | components/LuxuryHorizonDroneEstimate.js:64-71 | the price is Math.round of the total for the record's hours, location and resolution |
| `EstimateForm.InitialState` | components/LuxuryHorizonDroneEstimate.js:11-20 | the record starts with 1 h, "urban", "4k", empty name and email and null coordinates; price 0 is not displayed |
| `EstimateForm.EstimateIgnoresOtherFields` | components/LuxuryHorizonDroneEstimate.js:64-69 | records that agree on hours, location and resolution get the same price, whatever their name, email, lat and lng |
| `EstimateForm.SubmitReadsOnly` | components/LuxuryHorizonDroneEstimate.js:78-80 | a submit leaves the record unchanged; on a valid form it sets the price from the record, on an invalid one it changes nothing; repeating it changes nothing |
| `EstimateForm.OnlySubmitSetsPrice` | components/LuxuryHorizonDroneEstimate.js:51-93 | input changes and coordinate updates leave the displayed price unchanged; coordinate updates also leave the computed price unchanged |
| `EstimateForm.ResubmitAfterHoursChange` | components/LuxuryHorizonDroneEstimate.js:73-80 | changing the hours and submitting replaces the price by the price for the new hours when the form is then valid, and keeps the old price otherwise |
| `EstimateForm.BlockedResubmitKeepsPrice` | components/LuxuryHorizonDroneEstimate.js:75-80 | after a valid submit showing 100, clearing the hours to 0 and submitting again leaves 100 on display |
| `EstimateForm.SubmitShowsPrice` | components/LuxuryHorizonDroneEstimate.js:313 | after a submit the price passes the `estimatedPrice > 0` display gate if and only if the form was valid or a price was already shown |
| `EstimateForm.StepKeepsInvariant` | components/LuxuryHorizonDroneEstimate.js:51-93 | each event keeps the coordinates paired and the price either 0 or at least 100 |
| `EstimateForm.RunKeepsInvariant` | components/LuxuryHorizonDroneEstimate.js:51-93 | every sequence of events keeps that invariant |
| `EstimateForm.ShownAfterSubmit` | components/LuxuryHorizonDroneEstimate.js:313 | after a sequence of events a price is displayed if and only if one was displayed before or some submit in the sequence passed validation |
| `EstimateForm.Reachable` | components/LuxuryHorizonDroneEstimate.js:11-20 | from the initial state lat and lng are always both null or both set, the price is 0 or at least 100, and a price is displayed if and only if some submit has passed validation |
| `EstimateForm.EstimateSection.constructor` | components/LuxuryHorizonDroneEstimate.js:11-20 | both state slots start at their initial values |
| `EstimateForm.EstimateSection.HandleInputChange` | components/LuxuryHorizonDroneEstimate.js:73-76 | only the named field changes, and the price slot is untouched |
| `EstimateForm.EstimateSection.HandleMarkerDragEnd` | components/LuxuryHorizonDroneEstimate.js:51-58 | lat and lng take the marker's position together, and nothing else changes |
| `EstimateForm.EstimateSection.HandleLocationFound` | components/LuxuryHorizonDroneEstimate.js:87-93 | lat and lng take the reported coordinates together, and nothing else changes |
| `EstimateForm.EstimateSection.HandleSubmit` | components/LuxuryHorizonDroneEstimate.js:78-80 | the record is unchanged; on a valid form the price slot holds Math.round of the total and is displayed, on an invalid one it keeps its value |

## Left out

- Google Maps loading, map and marker construction, `setPosition`, `panTo` and `setZoom` (lines 30-49, 95-100). These are calls into a third-party widget. Only the record merge that the `dragend` listener performs is modelled, with the marker's position given as parameters.
- `navigator.geolocation`, its asynchronous callback and the "not supported" branch (lines 85-104). This is browser I/O. Only the success callback's record merge is modelled, with the coordinates as parameters. The unsupported branch changes no state.
- `console.log` and `alert` in `handleSubmit` (lines 81-82). These are output only.
- String coercion of `hours`. The input delivers a string, which `100 * hours` coerces to a number; hours is modelled as a `nat` instead. A cleared field (the empty string) is modelled as 0; both make the form invalid.
- The `type="email"` format check of the browser. `FormValid` accepts any non-empty email.
- Pricing.Price: IEEE-754 doubles are not modelled. The model's exact arithmetic agrees with the source's floating-point product at least while `375 * hours` stays below 2^53. The source evaluates left to right, and 100·h, 150·h and 375·h/2 are then all exact.
- The menu toggle, the scroll listener, the animations, the video hero and all JSX markup. These are presentation only.
- `pages/index.js`, `pages/_app.js` and `next.config.js`. These are rendering glue and build configuration.
